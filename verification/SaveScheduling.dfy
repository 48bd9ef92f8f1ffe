/**
  The scheduler side of saving: a request that asks for a save enters the pending saves through
  one of two entries, after an allocation or from the scheduler output, as soon as enough of its
  blocks are known; every built metadata takes the pending saves with it.
 */
module SaveScheduling {
  import opened Common
  import opened VllmAllocations

  /** The transfer parameters of a request that saving looks at; a missing `saveBlocks` is derived from the tokens. */
  datatype Params = Params(doSave: bool, prefixKey: string, saveBlocks: Option<int>, matchedTokens: int)

  datatype Request = Request(requestId: string, prefixKey: string, blockIds: seq<int>, matchedTokens: int,
                             blockCount: int)

  /** A request as the scheduler output lists it. */
  datatype Scheduled = Scheduled(requestId: string, params: Option<Params>, groups: seq<seq<int>>)

  function BlockCountForTokens(tokens: int, blockSize: int): int
    requires blockSize > 0
  {
    if tokens <= 0 then 0 else (tokens + blockSize - 1) / blockSize
  }

  function SaveBlockCount(p: Params, blockSize: int): int
    requires blockSize > 0
  {
    if p.saveBlocks.Some? then p.saveBlocks.value else BlockCountForTokens(p.matchedTokens, blockSize)
  }

  function MatchedTokensForSave(p: Params, blockSize: int): int
    requires blockSize > 0
  {
    if p.matchedTokens > 0 then p.matchedTokens else SaveBlockCount(p, blockSize) * blockSize
  }

  /** The blocks cover the tokens, with less than one block to spare. */
  lemma BlocksCoverTokens(tokens: int, blockSize: int)
    requires blockSize > 0 && tokens > 0
    ensures var count := BlockCountForTokens(tokens, blockSize);
            (count - 1) * blockSize < tokens <= count * blockSize
  {
    var q := (tokens + blockSize - 1) / blockSize;
    assert tokens + blockSize - 1 == q * blockSize + (tokens + blockSize - 1) % blockSize;
    assert (q - 1) * blockSize == q * blockSize - blockSize;
  }

  // ---------- specification ----------

  datatype SaveState = SaveState(params: map<string, Params>, ids: set<string>, pending: map<string, Request>)

  /** How many of the known blocks a save takes; None while it waits for more. */
  function Wanted(p: Params, blocks: seq<int>, blockSize: int): Option<nat>
    requires blockSize > 0
  {
    var requested := SaveBlockCount(p, blockSize);
    if blocks == [] then None
    else if requested <= 0 then Some(|blocks|)
    else if |blocks| < requested then None
    else Some(requested)
  }

  function RequestFor(id: string, p: Params, blocks: seq<int>, n: nat, blockSize: int): Request
    requires blockSize > 0 && n <= |blocks|
  {
    Request(id, p.prefixKey, blocks[..n], MatchedTokensForSave(p, blockSize), n)
  }

  /** Offering the known blocks of a request that wants to be saved and has not entered yet. */
  function Offered(s: SaveState, id: string, p: Params, groups: seq<seq<int>>, blockSize: int): SaveState
    requires blockSize > 0
  {
    var blocks := FirstOccurrences(Joined(groups));
    var wanted := Wanted(p, blocks, blockSize);
    if wanted == None then s
    else SaveState(s.params - {id}, s.ids + {id}, s.pending[id := RequestFor(id, p, blocks, wanted.value, blockSize)])
  }

  function AfterAlloc(s: SaveState, id: string, p: Params, groups: seq<seq<int>>, blockSize: int): SaveState
    requires blockSize > 0
  {
    if !p.doSave || id in s.ids then s
    else Offered(s.(params := s.params[id := p]), id, p, groups, blockSize)
  }

  /** A scheduled request brings its own parameters, or the ones remembered for it. */
  function AfterScheduled(s: SaveState, r: Scheduled, blockSize: int): SaveState
    requires blockSize > 0
  {
    var brought := r.params.Some? && r.params.value.doSave;
    var s' := if brought then s.(params := s.params[r.requestId := r.params.value]) else s;
    if r.requestId !in s'.params || !s'.params[r.requestId].doSave || r.requestId in s'.ids then s'
    else Offered(s', r.requestId, s'.params[r.requestId], r.groups, blockSize)
  }

  function AfterOutput(s: SaveState, output: seq<Scheduled>, blockSize: int): SaveState
    requires blockSize > 0
  {
    if output == [] then s
    else AfterScheduled(AfterOutput(s, output[..|output| - 1], blockSize), output[|output| - 1], blockSize)
  }

  function AfterBuild(s: SaveState, output: seq<Scheduled>, blockSize: int): SaveState
    requires blockSize > 0
  {
    AfterOutput(s, output, blockSize).(pending := map[])
  }

  // ---------- what enters, field by field ----------

  /** The number of blocks a save asks for: as given, or enough for its tokens. */
  ghost predicate AsksFor(p: Params, blockSize: int, n: int) {
    && (p.saveBlocks.Some? ==> n == p.saveBlocks.value)
    && (p.saveBlocks == None && p.matchedTokens <= 0 ==> n == 0)
    && (p.saveBlocks == None && p.matchedTokens > 0 ==> (n - 1) * blockSize < p.matchedTokens <= n * blockSize)
  }

  /** The request takes the first n of the distinct offered blocks, or all when it does not ask for any number. */
  ghost predicate IsEntry(r: Request, id: string, p: Params, blocks: seq<int>, n: int, blockSize: int) {
    && r.requestId == id && r.prefixKey == p.prefixKey
    && r.blockCount == |r.blockIds| && r.blockIds <= blocks
    && (if n > 0 then |r.blockIds| == n else r.blockIds == blocks)
    && r.matchedTokens == (if p.matchedTokens > 0 then p.matchedTokens else n * blockSize)
  }

  /** A request enters when some block is known and there are enough; otherwise nothing changes. */
  ghost predicate IsOffered(s: SaveState, s': SaveState, id: string, p: Params, blocks: seq<int>, blockSize: int) {
    exists n :: AsksFor(p, blockSize, n) && IsOfferedFor(s, s', id, p, blocks, n, blockSize)
  }

  ghost predicate IsOfferedFor(s: SaveState, s': SaveState, id: string, p: Params, blocks: seq<int>, n: int,
                               blockSize: int)
  {
    if blocks == [] || |blocks| < n then s' == s
    else
      && s'.ids == s.ids + {id} && s'.params == s.params - {id}
      && id in s'.pending && s'.pending == s.pending[id := s'.pending[id]]
      && IsEntry(s'.pending[id], id, p, blocks, n, blockSize)
  }

  lemma OfferedIs(s: SaveState, id: string, p: Params, groups: seq<seq<int>>, blockSize: int)
    requires blockSize > 0
    ensures IsOffered(s, Offered(s, id, p, groups, blockSize), id, p, FirstOccurrences(Joined(groups)), blockSize)
  {
    var (blocks, n) := (FirstOccurrences(Joined(groups)), SaveBlockCount(p, blockSize));
    if p.saveBlocks == None && p.matchedTokens > 0 {
      BlocksCoverTokens(p.matchedTokens, blockSize);
    }
    assert AsksFor(p, blockSize, n);
    assert IsOfferedFor(s, Offered(s, id, p, groups, blockSize), id, p, blocks, n, blockSize);
  }

  /** An allocation offers a request that wants to be saved and has not entered, and remembers its parameters. */
  ghost predicate AllocOutcome(s: SaveState, s': SaveState, id: string, p: Params, groups: seq<seq<int>>,
                               blockSize: int)
  {
    if p.doSave && id !in s.ids then
      IsOffered(s.(params := s.params[id := p]), s', id, p, FirstOccurrences(Joined(groups)), blockSize)
    else s' == s
  }

  /** A scheduled request is offered with the parameters it brings, or else with those remembered for it. */
  ghost predicate ScheduledOutcome(s: SaveState, s': SaveState, r: Scheduled, blockSize: int) {
    var id := r.requestId;
    var brought := r.params.Some? && r.params.value.doSave;
    var remembers := if brought then s.(params := s.params[id := r.params.value]) else s;
    if id in remembers.params && remembers.params[id].doSave && id !in s.ids then
      IsOffered(remembers, s', id, remembers.params[id], FirstOccurrences(Joined(r.groups)), blockSize)
    else s' == remembers
  }

  lemma AllocIs(s: SaveState, id: string, p: Params, groups: seq<seq<int>>, blockSize: int)
    requires blockSize > 0
    ensures AllocOutcome(s, AfterAlloc(s, id, p, groups, blockSize), id, p, groups, blockSize)
  {
    hide Offered, IsOffered;
    OfferedIs(s.(params := s.params[id := p]), id, p, groups, blockSize);
  }

  lemma ScheduledIs(s: SaveState, r: Scheduled, blockSize: int)
    requires blockSize > 0
    ensures ScheduledOutcome(s, AfterScheduled(s, r, blockSize), r, blockSize)
  {
    hide Offered, IsOffered;
    var brought := r.params.Some? && r.params.value.doSave;
    var s' := if brought then s.(params := s.params[r.requestId := r.params.value]) else s;
    if r.requestId in s'.params {
      OfferedIs(s', r.requestId, s'.params[r.requestId], r.groups, blockSize);
    }
  }

  /** Taking the scheduled requests of an output one after the other. */
  ghost predicate OutputTrace(states: seq<SaveState>, output: seq<Scheduled>, blockSize: int) {
    |states| == |output| + 1
    && forall i :: 0 <= i < |output| ==> ScheduledOutcome(states[i], states[i + 1], output[i], blockSize)
  }

  lemma {:induction false} OutputIs(s: SaveState, output: seq<Scheduled>, blockSize: int)
    returns (states: seq<SaveState>)
    requires blockSize > 0
    ensures OutputTrace(states, output, blockSize) && states[0] == s
    ensures states[|output|] == AfterOutput(s, output, blockSize)
  {
    hide ScheduledOutcome, AfterScheduled;
    states := [s];
    if output != [] {
      var k := |output| - 1;
      var before := OutputIs(s, output[..k], blockSize);
      ScheduledIs(before[k], output[k], blockSize);
      states := before + [AfterOutput(s, output, blockSize)];
    }
  }

  // ---------- the class ----------

  class SaveScheduler {
    const blockSize: int
    var params: map<string, Params>
    var ids: set<string>
    var pending: map<string, Request>
    ghost var handed: map<string, Request>

    ghost function View(): SaveState
      reads this
    {
      SaveState(params, ids, pending)
    }

    ghost predicate Valid()
      reads this
    {
      blockSize > 0 && SaveInv(View())
    }

    constructor (blockSize: int)
      requires blockSize > 0
      ensures Valid() && this.blockSize == blockSize && View() == SaveState(map[], {}, map[]) && handed == map[]
    {
      this.blockSize := blockSize;
      params, ids, pending, handed := map[], {}, map[], map[];
    }

    method Flatten(groups: seq<seq<int>>) returns (ordered: seq<int>)
      ensures ordered == FirstOccurrences(Joined(groups))
    {
      ordered := BlockIds(Event("", groups, 1));
    }

    method Offer(id: string, p: Params, groups: seq<seq<int>>)
      requires blockSize > 0
      modifies this
      ensures View() == Offered(old(View()), id, p, groups, blockSize) && handed == old(handed)
    {
      var blocks := Flatten(groups);
      if blocks == [] {
        return;
      }
      var requested := SaveBlockCount(p, blockSize);
      if requested <= 0 {
        requested := |blocks|;
      }
      if |blocks| < requested {
        return;
      }
      pending := pending[id := Request(id, p.prefixKey, blocks[..requested], MatchedTokensForSave(p, blockSize),
                                       requested)];
      ids := ids + {id};
      params := params - {id};
    }

    method UpdateStateAfterAlloc(id: string, p: Params, groups: seq<seq<int>>)
      requires Valid()
      modifies this
      ensures Valid() && View() == AfterAlloc(old(View()), id, p, groups, blockSize) && handed == old(handed)
      ensures AllocOutcome(old(View()), View(), id, p, groups, blockSize)
    {
      hide AllocOutcome;
      AllocIs(View(), id, p, groups, blockSize);
      AllocKeeps(View(), id, p, groups, blockSize);
      if !p.doSave || id in ids {
        return;
      }
      params := params[id := p];
      Offer(id, p, groups);
    }

    method CollectSaveRequests(output: seq<Scheduled>)
      requires Valid()
      modifies this
      ensures Valid() && View() == AfterOutput(old(View()), output, blockSize) && handed == old(handed)
    {
      hide SaveInv, Offered;
      for i := 0 to |output|
        invariant Valid() && View() == AfterOutput(old(View()), output[..i], blockSize) && handed == old(handed)
      {
        assert output[..i + 1][..i] == output[..i];
        var r := output[i];
        ScheduledKeeps(View(), r, blockSize);
        if r.params.Some? && r.params.value.doSave {
          params := params[r.requestId := r.params.value];
        }
        if r.requestId in params && params[r.requestId].doSave && r.requestId !in ids {
          Offer(r.requestId, params[r.requestId], r.groups);
        }
      }
      assert output[..|output|] == output;
    }

    /** Takes all pending saves, each once. */
    method BuildConnectorMeta(output: seq<Scheduled>) returns (saves: seq<Request>)
      requires Valid()
      modifies this
      ensures Valid() && View() == AfterBuild(old(View()), output, blockSize)
      ensures handed == old(handed) + AfterOutput(old(View()), output, blockSize).pending
      ensures Lists(saves, AfterOutput(old(View()), output, blockSize).pending) && InIdOrder(saves)
    {
      hide AfterOutput, Lists;
      CollectSaveRequests(output);
      saves := ListAll(pending);
      handed, pending := handed + pending, map[];
    }
  }

  /** Sorted by request id, as texts. */
  predicate InIdOrder(saves: seq<Request>) {
    forall i, j :: 0 <= i < j < |saves| ==> TextLess(saves[i].requestId, saves[j].requestId)
  }

  /** The pending saves by id, in the order of their ids. */
  method ListAll(pending: map<string, Request>) returns (saves: seq<Request>)
    requires forall id :: id in pending ==> pending[id].requestId == id
    ensures Lists(saves, pending) && InIdOrder(saves)
  {
    hide TextLess;
    var ids := SortedTexts(pending.Keys);
    saves := [];
    for i := 0 to |ids|
      invariant |saves| == i && forall j :: 0 <= j < i ==> saves[j].requestId == ids[j] && saves[j] == pending[ids[j]]
    {
      saves := saves + [pending[ids[i]]];
    }
    InOrderDistinct(ids);
    forall id | id in pending ensures exists j :: 0 <= j < |saves| && saves[j].requestId == id {
      var j :| 0 <= j < |ids| && ids[j] == id;
      assert saves[j].requestId == id;
    }
  }

  /** The list holds exactly the values of the map, one per id. */
  ghost predicate Lists(saves: seq<Request>, pending: map<string, Request>) {
    && (forall id :: id in pending <==> exists j :: 0 <= j < |saves| && saves[j].requestId == id)
    && (forall j :: 0 <= j < |saves| ==> saves[j].requestId in pending && saves[j] == pending[saves[j].requestId])
    && (forall j, j' :: 0 <= j < j' < |saves| ==> saves[j].requestId != saves[j'].requestId)
  }

  // ---------- what every step keeps ----------

  /** A save takes distinct blocks, at least one, and its count is their number. */
  predicate WellMade(r: Request) {
    Distinct(r.blockIds) && r.blockIds != [] && r.blockCount == |r.blockIds|
  }

  ghost predicate SaveInv(s: SaveState) {
    forall id :: id in s.pending ==> id in s.ids && s.pending[id].requestId == id && WellMade(s.pending[id])
  }

  lemma OfferKeeps(s: SaveState, id: string, p: Params, groups: seq<seq<int>>, blockSize: int)
    requires blockSize > 0 && SaveInv(s) && id !in s.ids
    ensures var s' := Offered(s, id, p, groups, blockSize);
            && SaveInv(s') && s.ids <= s'.ids && s'.ids <= s.ids + {id}
            && (forall x :: x in s'.pending <==> x in s.pending || (x in s'.ids && x !in s.ids))
            && (forall x :: x in s.pending ==> s'.pending[x] == s.pending[x])
  {
    var blocks := FirstOccurrences(Joined(groups));
    FirstOccurrencesDistinct(Joined(groups));
  }

  /** One step of either entry: ids only grow, and exactly the ids that join become pending. */
  ghost predicate Grows(s: SaveState, s': SaveState) {
    && SaveInv(s') && s.ids <= s'.ids
    && (forall x :: x in s'.pending <==> x in s.pending || (x in s'.ids && x !in s.ids))
    && (forall x :: x in s.pending ==> s'.pending[x] == s.pending[x])
  }

  lemma AllocKeeps(s: SaveState, id: string, p: Params, groups: seq<seq<int>>, blockSize: int)
    requires blockSize > 0 && SaveInv(s)
    ensures Grows(s, AfterAlloc(s, id, p, groups, blockSize))
  {
    hide Offered;
    if p.doSave && id !in s.ids {
      OfferKeeps(s.(params := s.params[id := p]), id, p, groups, blockSize);
    }
  }

  lemma ScheduledKeeps(s: SaveState, r: Scheduled, blockSize: int)
    requires blockSize > 0 && SaveInv(s)
    ensures Grows(s, AfterScheduled(s, r, blockSize))
  {
    hide Offered;
    var brought := r.params.Some? && r.params.value.doSave;
    var s' := if brought then s.(params := s.params[r.requestId := r.params.value]) else s;
    if r.requestId in s'.params && r.requestId !in s'.ids {
      OfferKeeps(s', r.requestId, s'.params[r.requestId], r.groups, blockSize);
    }
  }

  lemma {:induction false} OutputKeeps(s: SaveState, output: seq<Scheduled>, blockSize: int)
    requires blockSize > 0 && SaveInv(s)
    ensures Grows(s, AfterOutput(s, output, blockSize))
  {
    hide AfterScheduled;
    if output != [] {
      var before := AfterOutput(s, output[..|output| - 1], blockSize);
      OutputKeeps(s, output[..|output| - 1], blockSize);
      ScheduledKeeps(before, output[|output| - 1], blockSize);
    }
  }

  // ---------- runs ----------

  datatype SaveStep = Alloc(id: string, params: Params, groups: seq<seq<int>>) | Build(output: seq<Scheduled>)

  function Stepped(s: SaveState, step: SaveStep, blockSize: int): SaveState
    requires blockSize > 0
  {
    match step
    case Alloc(id, p, groups) => AfterAlloc(s, id, p, groups, blockSize)
    case Build(output) => AfterBuild(s, output, blockSize)
  }

  /** What the step hands to the worker side. */
  function Handed(s: SaveState, step: SaveStep, blockSize: int): map<string, Request>
    requires blockSize > 0
  {
    match step
    case Alloc(_, _, _) => map[]
    case Build(output) => AfterOutput(s, output, blockSize).pending
  }

  function After(steps: seq<SaveStep>, blockSize: int): SaveState
    requires blockSize > 0
  {
    if steps == [] then SaveState(map[], {}, map[])
    else Stepped(After(steps[..|steps| - 1], blockSize), steps[|steps| - 1], blockSize)
  }

  function HandedAt(steps: seq<SaveStep>, i: nat, blockSize: int): map<string, Request>
    requires blockSize > 0 && i < |steps|
  {
    Handed(After(steps[..i], blockSize), steps[i], blockSize)
  }

  /** A step hands out only ids that were pending or join now; afterwards every handed id is known and not pending. */
  lemma StepHands(s: SaveState, step: SaveStep, blockSize: int)
    requires blockSize > 0 && SaveInv(s)
    ensures var (s', out) := (Stepped(s, step, blockSize), Handed(s, step, blockSize));
            && SaveInv(s') && s.ids <= s'.ids
            && (forall id :: id in out ==>
                  && (id in s.pending || id !in s.ids) && id in s'.ids && id !in s'.pending
                  && WellMade(out[id]) && out[id].requestId == id)
            && (forall id :: id in s'.pending ==> id in s.pending || id !in s.ids)
            && (forall id :: id in s'.ids <==> id in s.ids || id in s'.pending || id in out)
            && (forall id :: id in s.pending ==> id in s'.pending || id in out)
  {
    hide AfterOutput, AfterAlloc;
    match step {
      case Alloc(id, p, groups) => AllocKeeps(s, id, p, groups, blockSize);
      case Build(output) => OutputKeeps(s, output, blockSize);
    }
  }

  lemma {:induction false} RunInv(steps: seq<SaveStep>, blockSize: int)
    requires blockSize > 0
    ensures SaveInv(After(steps, blockSize))
  {
    hide Stepped, Handed;
    if steps != [] {
      RunInv(steps[..|steps| - 1], blockSize);
      StepHands(After(steps[..|steps| - 1], blockSize), steps[|steps| - 1], blockSize);
    }
  }

  /** An id handed out at step i is known and not pending ever after. */
  lemma {:induction false} HandedStaysOut(steps: seq<SaveStep>, i: nat, blockSize: int, id: string)
    requires blockSize > 0 && i < |steps| && id in HandedAt(steps, i, blockSize)
    ensures id in After(steps, blockSize).ids && id !in After(steps, blockSize).pending
  {
    hide Stepped, Handed;
    var k := |steps| - 1;
    var before := After(steps[..k], blockSize);
    RunInv(steps[..k], blockSize);
    StepHands(before, steps[k], blockSize);
    if i < k {
      assert steps[..k][..i] == steps[..i];
      HandedStaysOut(steps[..k], i, blockSize, id);
    }
  }

  /** Over any run, through either entry, no request is handed to the worker side twice. */
  lemma HandedAtMostOnce(steps: seq<SaveStep>, i: nat, j: nat, blockSize: int, id: string)
    requires blockSize > 0 && i < j < |steps| && id in HandedAt(steps, i, blockSize)
    ensures id !in HandedAt(steps, j, blockSize)
  {
    hide Stepped, Handed;
    assert steps[..j][..i] == steps[..i];
    HandedStaysOut(steps[..j], i, blockSize, id);
    RunInv(steps[..j], blockSize);
    StepHands(After(steps[..j], blockSize), steps[j], blockSize);
  }

  /** Nothing that entered is lost: it is pending or was handed out. */
  lemma {:induction false} EnteredIsPendingOrHanded(steps: seq<SaveStep>, blockSize: int, id: string)
    requires blockSize > 0 && id in After(steps, blockSize).ids
    ensures id in After(steps, blockSize).pending || exists i :: 0 <= i < |steps| && id in HandedAt(steps, i, blockSize)
  {
    hide Stepped, Handed;
    if steps == [] {
      return;
    }
    var k := |steps| - 1;
    var before := After(steps[..k], blockSize);
    RunInv(steps[..k], blockSize);
    StepHands(before, steps[k], blockSize);
    if id !in After(steps, blockSize).pending {
      if id in Handed(before, steps[k], blockSize) {
        assert id in HandedAt(steps, k, blockSize);
      } else {
        EnteredIsPendingOrHanded(steps[..k], blockSize, id);
        var i :| 0 <= i < k && id in HandedAt(steps[..k], i, blockSize);
        assert steps[..k][..i] == steps[..i];
        assert id in HandedAt(steps, i, blockSize);
      }
    }
  }

  /** Every handed save has distinct blocks and a true count. */
  lemma HandedWellMade(steps: seq<SaveStep>, i: nat, blockSize: int, id: string)
    requires blockSize > 0 && i < |steps| && id in HandedAt(steps, i, blockSize)
    ensures HandedAt(steps, i, blockSize)[id].requestId == id && WellMade(HandedAt(steps, i, blockSize)[id])
  {
    hide Stepped, Handed;
    RunInv(steps[..i], blockSize);
    StepHands(After(steps[..i], blockSize), steps[i], blockSize);
  }
}
