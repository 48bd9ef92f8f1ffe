/**
  Whole runs of saving: in every step the scheduler side sees allocations and a scheduler output
  and builds metadata, which is bound on the worker side for this one step.
 */
module SaveRuns {
  import opened Common
  import opened SaveScheduling
  import opened SaveWorkers
  import opened BackingOwnership
  import opened VllmRanges
  import opened PrefixStores
  import opened GlobalPrefixes

  datatype Allocation = Allocation(requestId: string, params: Params, groups: seq<seq<int>>)

  /** What vLLM and the environment do in one step; `goesOn` says whether it goes on after a call that raises. */
  datatype StepInput = StepInput(
    allocations: seq<Allocation>, output: seq<Scheduled>, loads: seq<string>, restored: nat,
    layers: seq<Option<nat>>, goesOn: bool,
    allocationFails: set<string>, startFails: set<string>, transferFails: set<string>, finished: set<string>)

  /** In this step every layer was reported ready, and neither the start nor the transfer of the request failed. */
  ghost predicate SavedBy(input: StepInput, id: string, layerCount: nat) {
    id !in input.startFails && id !in input.transferFails && forall k: nat :: k < layerCount ==> Some(k) in input.layers
  }

  /** The requests whose loads a step completes: all of them, or those before the first restore that raises. */
  function LoadedBy(input: StepInput): set<string> {
    if input.restored >= |input.loads| then set id | id in input.loads else set id | id in input.loads[..input.restored]
  }

  predicate KnownLayers(input: StepInput, layerCount: nat) {
    forall i :: 0 <= i < |input.layers| && input.layers[i].Some? ==> input.layers[i].value < layerCount
  }

  /** These requests have entered and are not pending again. */
  ghost predicate LeftPending(ids: set<string>, s: SaveState) {
    forall id :: id in ids ==> id in s.ids && id !in s.pending
  }

  lemma GrowingKeepsLeft(ids: set<string>, s: SaveState, s': SaveState)
    requires LeftPending(ids, s) && Grows(s, s')
    ensures LeftPending(ids, s')
  {
  }

  /** Metadata names no request twice and none that was handed over before. */
  lemma MetadataIsNew(handed: map<string, Request>, s: SaveState, output: seq<Scheduled>, blockSize: int,
                      saves: seq<Request>)
    requires blockSize > 0 && SaveInv(s) && LeftPending(handed.Keys, s)
    requires Lists(saves, AfterOutput(s, output, blockSize).pending)
    ensures var pending := AfterOutput(s, output, blockSize).pending;
            && Distinct(IdsOf(saves)) && AreHanded(saves, handed + pending)
            && (forall i :: 0 <= i < |saves| ==> saves[i].requestId !in handed)
            && (forall id :: id in handed ==> id !in pending)
            && LeftPending((handed + pending).Keys, AfterBuild(s, output, blockSize))
  {
    hide AfterOutput;
    OutputKeeps(s, output, blockSize);
    var s' := AfterOutput(s, output, blockSize);
    assert forall id :: id in s'.pending ==> id in s'.ids;
  }

  predicate AreHanded(saves: seq<Request>, handed: map<string, Request>) {
    forall i :: 0 <= i < |saves| ==> saves[i].requestId in handed && handed[saves[i].requestId] == saves[i]
  }

  // ---------- the worker follows the metadata ----------

  predicate StoredFor(p: Prefix, request: Request) {
    p.key == request.prefixKey && p.blockCount == request.blockCount && p.sourceRequestId == request.requestId
  }

  ghost predicate AllStored(saved: seq<string>, stored: seq<Prefix>, handed: map<string, Request>) {
    && |stored| == |saved|
    && forall i :: 0 <= i < |saved| ==> saved[i] in handed && StoredFor(stored[i], handed[saved[i]])
  }

  ghost predicate OpenFor(contexts: map<string, Context>, handed: map<string, Request>) {
    forall id :: id in contexts ==> id in handed && contexts[id].request == handed[id]
  }

  /** What the worker knows, has open and has stored belongs to requests that were handed over. */
  ghost predicate Follows(handed: map<string, Request>, known: set<string>, contexts: map<string, Context>,
                          saved: seq<string>, stored: seq<Prefix>)
  {
    known <= handed.Keys && OpenFor(contexts, handed) && AllStored(saved, stored, handed)
  }

  ghost predicate Aligned(scheduler: SaveScheduler, worker: SaveWorker)
    reads scheduler, worker
  {
    && LeftPending(scheduler.handed.Keys, scheduler.View())
    && Follows(scheduler.handed, worker.Known(), worker.contexts, worker.savedLog, worker.storedLog)
  }

  lemma MoreHanded(contexts: map<string, Context>, saved: seq<string>, stored: seq<Prefix>,
                   handed: map<string, Request>, more: map<string, Request>)
    requires OpenFor(contexts, handed) && AllStored(saved, stored, handed) && forall id :: id in handed ==> id !in more
    ensures OpenFor(contexts, handed + more) && AllStored(saved, stored, handed + more)
  {
  }

  /** A step in which every layer is reported and nothing fails. */
  ghost predicate Quiet(input: StepInput, caches: seq<Tensor>) {
    && AllShaped(caches) && caches != [] && input.restored >= |input.loads|
    && input.allocationFails == {} && input.startFails == {} && input.transferFails == {}
    && None !in input.layers && forall k: nat :: k < |caches| ==> Some(k) in input.layers
  }

  ghost predicate Clean(input: StepInput, saves: seq<Request>, caches: seq<Tensor>) {
    Quiet(input, caches) && forall i :: 0 <= i < |saves| ==> saves[i].prefixKey != []
  }

  /** Open contexts stay with their requests, new ones are for the listed requests. */
  ghost predicate Extended(before: map<string, Context>, after: map<string, Context>, saves: seq<Request>) {
    && (forall id :: id in before ==>
          id in after && after[id].request == before[id].request && before[id].ready <= after[id].ready)
    && (forall id :: id in after && id !in before ==>
          exists i :: 0 <= i < |saves| && saves[i].requestId == id && after[id].request == saves[i])
  }

  lemma MarkedExtends(before: map<string, Context>, after: map<string, Context>, saves: seq<Request>, n: nat,
                      layer: nat)
    requires n <= |saves| && Marked(before, after, saves[..n], layer)
    ensures Extended(before, after, saves)
  {
    forall id | id in after && id !in before
      ensures exists i :: 0 <= i < |saves| && saves[i].requestId == id && after[id].request == saves[i]
    {
      var i :| 0 <= i < n && saves[..n][i].requestId == id && after[id].request == saves[..n][i];
      assert saves[i] == saves[..n][i];
    }
  }

  lemma ExtendedTwice(a: map<string, Context>, b: map<string, Context>, c: map<string, Context>, saves: seq<Request>)
    requires Extended(a, b, saves) && Extended(b, c, saves)
    ensures Extended(a, c, saves)
  {
  }

  lemma NothingExtended(contexts: map<string, Context>, saves: seq<Request>)
    ensures Extended(contexts, contexts, saves)
  {
  }

  /** Every listed request has a context in which these layers are ready. */
  ghost predicate Ready(contexts: map<string, Context>, saves: seq<Request>, layers: seq<Option<nat>>) {
    forall i, layer :: 0 <= i < |saves| && Some(layer) in layers ==>
      saves[i].requestId in contexts && layer in contexts[saves[i].requestId].ready
  }

  lemma ReadyOneMore(before: map<string, Context>, after: map<string, Context>, saves: seq<Request>,
                     layers: seq<Option<nat>>, layer: nat)
    requires Ready(before, saves, layers) && Marked(before, after, saves, layer)
    ensures Ready(after, saves, layers + [Some(layer)])
  {
    forall i, l | 0 <= i < |saves| && Some(l) in layers + [Some(layer)]
      ensures saves[i].requestId in after && l in after[saves[i].requestId].ready
    {
      if l != layer {
        assert Some(l) in layers;
        assert saves[i].requestId in before;
      }
    }
  }

  // ---------- one step ----------

  /** The reports of the layers, up to the first that raises or all of them. */
  method ReportLayers(worker: SaveWorker, saves: seq<Request>, input: StepInput) returns (r: Result<(), SaveError>)
    requires worker.Valid() && KnownLayers(input, |worker.caches|)
    modifies worker`contexts, worker`place, worker`seen, worker.pool
    ensures worker.Valid() && old(worker.seen) <= worker.seen
    ensures forall p :: p in worker.seen ==> p in old(worker.seen) || (p.0 in IdsOf(saves) && Some(p.1) in input.layers)
    ensures Extended(old(worker.contexts), worker.contexts, saves)
    ensures forall id :: id in worker.contexts && id !in old(worker.contexts) ==> id !in input.startFails
    ensures r.Ok? && saves != [] ==> Ready(worker.contexts, saves, input.layers)
    ensures Clean(input, saves, worker.caches) ==> r.Ok?
    ensures input.goesOn && AllShaped(worker.caches) && NoneIn(saves, input.allocationFails + input.startFails) ==>
              Ready(worker.contexts, saves, input.layers)
  {
    hide SaveWorker.Valid, Marked, Extended, Ready, Clean, AllShaped, NoneIn;
    ghost var spared := AllShaped(worker.caches) && NoneIn(saves, input.allocationFails + input.startFails);
    r := Ok(());
    CleanLayers(input, saves, worker.caches);
    NothingExtended(worker.contexts, saves);
    NothingReady(worker.contexts, saves);
    for i := 0 to |input.layers|
      invariant worker.Valid() && old(worker.seen) <= worker.seen
      invariant forall p :: p in worker.seen ==>
                  p in old(worker.seen) || (p.0 in IdsOf(saves) && Some(p.1) in input.layers)
      invariant Extended(old(worker.contexts), worker.contexts, saves)
      invariant forall id :: id in worker.contexts && id !in old(worker.contexts) ==> id !in input.startFails
      invariant r.Ok? && saves != [] ==> Ready(worker.contexts, saves, input.layers[..i])
      invariant Clean(input, saves, worker.caches) ==> r.Ok?
      invariant spared ==> Ready(worker.contexts, saves, input.layers[..i])
    {
      ghost var before := worker.contexts;
      var reported := worker.SaveKvLayer(saves, input.layers[i], input.allocationFails, input.startFails);
      LayerReported(old(worker.contexts), before, worker.contexts, saves, input.layers, i, reported.Ok?);
      LayerSpared(before, worker.contexts, saves, input.layers, i);
      if reported.Err? {
        r := Err(reported.error);
        if !input.goesOn {
          return;
        }
      }
    }
    assert input.layers[..|input.layers|] == input.layers;
  }

  lemma NothingReady(contexts: map<string, Context>, saves: seq<Request>)
    ensures forall layers: seq<Option<nat>> :: layers == [] ==> Ready(contexts, saves, layers)
  {
  }

  lemma CleanLayers(input: StepInput, saves: seq<Request>, caches: seq<Tensor>)
    ensures Clean(input, saves, caches) ==>
              && AllShaped(caches) && NoneIn(saves, input.allocationFails + input.startFails)
              && forall i :: 0 <= i < |input.layers| ==> input.layers[i].Some?
  {
    forall i | Clean(input, saves, caches) && 0 <= i < |input.layers| ensures input.layers[i].Some? {
      assert input.layers[i] in input.layers;
    }
  }

  lemma LayerReported(start: map<string, Context>, before: map<string, Context>, after: map<string, Context>,
                      saves: seq<Request>, layers: seq<Option<nat>>, i: nat, ok: bool)
    requires i < |layers| && Extended(start, before, saves)
    requires saves != [] && ok ==> layers[i].Some? && Marked(before, after, saves, layers[i].value)
    requires after == before || (ok && saves != [])
             || (layers[i].Some? && exists n :: 0 <= n <= |saves| && Marked(before, after, saves[..n], layers[i].value))
    ensures Extended(start, after, saves)
    ensures ok && saves != [] && Ready(before, saves, layers[..i]) ==> Ready(after, saves, layers[..i + 1])
  {
    hide Marked, Extended, Ready;
    assert saves[..|saves|] == saves;
    if after != before {
      var n :| 0 <= n <= |saves| && Marked(before, after, saves[..n], layers[i].value);
      MarkedExtends(before, after, saves, n, layers[i].value);
      ExtendedTwice(start, before, after, saves);
    }
    if ok && saves != [] && Ready(before, saves, layers[..i]) {
      ReadyOneMore(before, after, saves, layers[..i], layers[i].value);
      assert layers[..i + 1] == layers[..i] + [layers[i]];
    }
  }

  /** A report of an unknown layer leaves the contexts and adds no layer; without requests nothing is asked for. */
  lemma LayerSpared(before: map<string, Context>, after: map<string, Context>, saves: seq<Request>,
                    layers: seq<Option<nat>>, i: nat)
    requires i < |layers|
    ensures layers[i] == None && after == before && Ready(before, saves, layers[..i]) ==>
              Ready(after, saves, layers[..i + 1])
    ensures saves == [] ==> Ready(after, saves, layers[..i + 1])
  {
    assert layers[..i + 1] == layers[..i] + [layers[i]];
  }

  /** A request that was not seen before and has all layers seen now had them all reported in this step. */
  lemma SeenNow(before: set<(string, nat)>, seen: set<(string, nat)>, input: StepInput, ids: seq<string>, id: string,
                n: nat)
    requires forall p :: p in seen ==> p in before || (p.0 in ids && Some(p.1) in input.layers)
    requires id !in SeenIds(before) && AllSeen(seen, id, n)
    requires id !in input.startFails && id !in input.transferFails
    ensures SavedBy(input, id, n)
  {
    forall k: nat | k < n ensures Some(k) in input.layers {
      assert (id, k) in seen;
      assert (id, k).0 !in SeenIds(before);
    }
  }

  /** With every layer ready and nothing failing, no request of the step is refused. */
  lemma CleanFinishes(input: StepInput, saves: seq<Request>, caches: seq<Tensor>, start: map<string, Context>,
                      contexts: map<string, Context>, i: nat)
    requires i < |saves| && Ready(contexts, saves, input.layers)
    requires Extended(start, contexts, saves) && Distinct(IdsOf(saves)) && saves[i].requestId !in start
    ensures Clean(input, saves, caches) ==>
              FinishResult(contexts, saves[i], caches, saves[i].requestId !in input.transferFails) == Ok(())
  {
    hide AllShaped;
    if Clean(input, saves, caches) {
      CleanFinishesOne(input, saves, caches, start, contexts, i);
    }
  }

  lemma CleanFinishesOne(input: StepInput, saves: seq<Request>, caches: seq<Tensor>, start: map<string, Context>,
                         contexts: map<string, Context>, i: nat)
    requires Clean(input, saves, caches) && i < |saves| && Ready(contexts, saves, input.layers)
    requires Extended(start, contexts, saves) && Distinct(IdsOf(saves)) && saves[i].requestId !in start
    ensures FinishResult(contexts, saves[i], caches, saves[i].requestId !in input.transferFails) == Ok(())
  {
    hide AllShaped;
    var id := saves[i].requestId;
    assert Some(0) in input.layers;
    assert id in contexts && 0 in contexts[id].ready;
    var j :| 0 <= j < |saves| && saves[j].requestId == id && contexts[id].request == saves[j];
    assert IdsOf(saves)[i] == IdsOf(saves)[j];
    forall k: nat | k < |caches| ensures k in contexts[id].ready {
      assert Some(k) in input.layers;
    }
  }

  /** The prefixes a step stored are those of the first requests of its metadata. */
  ghost predicate StoredInOrder(stored: seq<Prefix>, from: nat, saves: seq<Request>, done: nat) {
    && done <= |saves| && |stored| == from + done
    && forall i :: 0 <= i < done ==> StoredFor(stored[from + i], saves[i])
  }

  /** wait_for_save and get_finished of a step whose layers were reported. */
  method FinishStep(worker: SaveWorker, saves: seq<Request>, input: StepInput, reported: Result<(), SaveError>)
    returns (r: Result<(), SaveError>, ghost done: nat)
    requires worker.Valid() && Distinct(IdsOf(saves))
    requires forall i :: 0 <= i < |saves| ==> saves[i].requestId !in worker.savedLog
    modifies worker, worker.pool, worker.own, worker.shared
    ensures worker.Valid() && old(worker.reportedLog) <= worker.reportedLog && worker.seen == old(worker.seen)
    ensures worker.receivedLog + worker.finishedReceiving == old(worker.receivedLog + worker.finishedReceiving)
    ensures r.Ok? || input.goesOn ==> worker.finishedReceiving == {}
    ensures old(worker.closed) <= worker.closed && old(worker.storedLog) <= worker.storedLog
    ensures forall id :: id in worker.contexts ==>
              id in old(worker.contexts) && worker.contexts[id] == old(worker.contexts)[id]
    ensures done <= |saves| && worker.savedLog == old(worker.savedLog) + IdsOf(saves)[..done]
    ensures |worker.storedLog| == |old(worker.storedLog)| + done
    ensures forall i :: 0 <= i < done ==>
              && saves[i].requestId !in input.transferFails && AllSeen(worker.seen, saves[i].requestId, |worker.caches|)
              && saves[i].requestId in old(worker.contexts)
              && IsSaved(worker.storedLog[|old(worker.storedLog)| + i], old(worker.contexts)[saves[i].requestId],
                         saves[i].requestId, worker.jobId, worker.sessionId)
    ensures reported.Err? ==> r.Err?
    ensures reported.Ok? && r.Err? ==>
              && done < |saves|
              && r == FinishResult(old(worker.contexts), saves[done], worker.caches,
                                   saves[done].requestId !in input.transferFails)
    ensures r.Ok? ==> done == |saves|
    ensures r.Ok? || input.goesOn ==>
              forall id :: id in worker.savedLog && id in input.finished ==> id in worker.reportedLog
    ensures reported.Ok? && r.Err? && !input.goesOn ==> worker.reportedLog == old(worker.reportedLog)
  {
    hide SaveWorker.Valid, AllSeen, FinishResult, IsSaved;
    r := reported;
    var saved;
    saved, done := worker.WaitForSave(saves, input.transferFails);
    if saved.Err? {
      r := Err(saved.error);
      if !input.goesOn {
        return;
      }
    }
    var sending, receiving := worker.GetFinished(input.finished);
  }

  /** The worker side of one step. */
  method SaveStep(worker: SaveWorker, saves: seq<Request>, input: StepInput)
    returns (r: Result<(), SaveError>, ghost done: nat)
    requires worker.Valid() && Distinct(IdsOf(saves)) && KnownLayers(input, |worker.caches|)
    requires forall i :: 0 <= i < |saves| ==> saves[i].requestId !in worker.Known()
    modifies worker, worker.pool, worker.own, worker.shared
    ensures worker.Valid() && old(worker.reportedLog) <= worker.reportedLog
    ensures old(worker.seen) <= worker.seen && old(worker.closed) <= worker.closed
    ensures worker.Known() <= old(worker.Known()) + set id | id in IdsOf(saves)
    ensures FromHanded(old(worker.contexts), worker.contexts, saves)
    ensures done <= |saves| && worker.savedLog == old(worker.savedLog) + IdsOf(saves)[..done]
    ensures old(worker.storedLog) <= worker.storedLog
    ensures StoredInOrder(worker.storedLog, |old(worker.storedLog)|, saves, done)
    ensures forall i :: 0 <= i < done ==> SavedBy(input, saves[i].requestId, |worker.caches|)
    ensures Clean(input, saves, worker.caches) ==> r.Ok?
    ensures input.restored < |input.loads| ==> r.Err?
    ensures worker.receivedLog + worker.finishedReceiving
         == old(worker.receivedLog + worker.finishedReceiving) + LoadedBy(input)
    ensures r.Ok? || input.goesOn ==> worker.finishedReceiving == {}
    ensures !input.goesOn && input.restored < |input.loads| ==>
              r == Err(RestoreFailed) && done == 0 && worker.seen == old(worker.seen)
    ensures !input.goesOn && r.Err? ==> worker.reportedLog == old(worker.reportedLog)
    ensures r.Ok? ==> done == |saves|
    ensures r.Ok? || input.goesOn ==>
              forall id :: id in worker.savedLog && id in input.finished ==> id in worker.reportedLog
  {
    hide SaveWorker.Valid, AllSeen, KnownLayers, Clean, Extended, Ready, FinishResult, StoredInOrder, SavedBy,
      FromHanded, IsSaved, SeenIds, Distinct, LoadedBy;
    ghost var (before, ids, known) := (worker.seen, IdsOf(saves), worker.contexts);
    ghost var stored := worker.storedLog;
    done := 0;
    SavedAreSeen(worker);
    NothingDone(worker.savedLog, stored, known, saves);
    r := LoadAndReport(worker, saves, input);
    ghost var contexts := worker.contexts;
    ExtendedOnly(known, contexts, saves);
    KnownAfter(before, worker.seen, known, contexts, ids, input.layers);
    if r.Err? && !input.goesOn {
      return r, 0;
    }
    ghost var reported := r;
    r, done := FinishStep(worker, saves, input, r);
    StepStored(worker.storedLog, |stored|, saves, done, known, contexts, worker.jobId, worker.sessionId);
    FewerFrom(known, contexts, worker.contexts, saves);
    forall i | 0 <= i < done ensures SavedBy(input, saves[i].requestId, |worker.caches|) {
      SeenNow(before, worker.seen, input, ids, saves[i].requestId, |worker.caches|);
    }
    if reported.Ok? && r.Err? {
      CleanFinishes(input, saves, worker.caches, known, contexts, done);
    }
  }

  /** start_load_kv and the layer reports of a step. */
  method LoadAndReport(worker: SaveWorker, saves: seq<Request>, input: StepInput) returns (r: Result<(), SaveError>)
    requires worker.Valid() && KnownLayers(input, |worker.caches|)
    modifies worker`contexts, worker`place, worker`seen, worker`finishedReceiving, worker.pool
    ensures worker.Valid() && old(worker.seen) <= worker.seen
    ensures forall p :: p in worker.seen ==> p in old(worker.seen) || (p.0 in IdsOf(saves) && Some(p.1) in input.layers)
    ensures Extended(old(worker.contexts), worker.contexts, saves)
    ensures forall id :: id in worker.contexts && id !in old(worker.contexts) ==> id !in input.startFails
    ensures r.Ok? && saves != [] ==> Ready(worker.contexts, saves, input.layers)
    ensures Clean(input, saves, worker.caches) ==> r.Ok?
    ensures input.goesOn && AllShaped(worker.caches) && NoneIn(saves, input.allocationFails + input.startFails) ==>
              Ready(worker.contexts, saves, input.layers)
    ensures input.restored < |input.loads| ==> r.Err?
    ensures !input.goesOn && input.restored < |input.loads| ==>
              r == Err(RestoreFailed) && worker.contexts == old(worker.contexts) && worker.seen == old(worker.seen)
    ensures worker.finishedReceiving == old(worker.finishedReceiving) + LoadedBy(input)
  {
    hide SaveWorker.Valid, KnownLayers, Clean, Extended, Ready, AllShaped;
    NothingExtended(worker.contexts, saves);
    CleanRestores(input, saves, worker.caches);
    worker.StartLoadKv(input.loads, input.restored);
    assert input.loads[..|input.loads|] == input.loads;
    var failed := input.restored < |input.loads|;
    if failed && !input.goesOn {
      return Err(RestoreFailed);
    }
    r := ReportLayers(worker, saves, input);
    if failed && r.Ok? {
      r := Err(RestoreFailed);
    }
  }

  /** Open contexts belong to requests they belonged to before, or to listed ones. */
  ghost predicate FromHanded(before: map<string, Context>, after: map<string, Context>, saves: seq<Request>) {
    forall id :: id in after ==>
      (id in before && after[id].request == before[id].request)
      || exists i :: 0 <= i < |saves| && saves[i].requestId == id && after[id].request == saves[i]
  }

  lemma FewerFrom(before: map<string, Context>, now: map<string, Context>, after: map<string, Context>,
                  saves: seq<Request>)
    requires FromHanded(before, now, saves) && forall id :: id in after ==> id in now && after[id] == now[id]
    ensures FromHanded(before, after, saves)
  {
  }

  lemma NothingDone(saved: seq<string>, stored: seq<Prefix>, contexts: map<string, Context>, saves: seq<Request>)
    ensures StoredInOrder(stored, |stored|, saves, 0) && saved == saved + IdsOf(saves)[..0]
    ensures FromHanded(contexts, contexts, saves)
  {
  }

  lemma KnownAfter(before: set<(string, nat)>, seen: set<(string, nat)>, contexts: map<string, Context>,
                   after: map<string, Context>, ids: seq<string>, layers: seq<Option<nat>>)
    requires forall p :: p in seen ==> p in before || (p.0 in ids && Some(p.1) in layers)
    requires after.Keys <= contexts.Keys + set id | id in ids
    ensures SeenIds(seen) + after.Keys <= SeenIds(before) + contexts.Keys + set id | id in ids
  {
  }

  lemma SavedAreSeen(worker: SaveWorker)
    requires worker.Valid()
    ensures forall id :: id in worker.savedLog ==>
              id in SeenIds(worker.seen) && AllSeen(worker.seen, id, |worker.caches|)
  {
    forall id | id in worker.savedLog ensures id in SeenIds(worker.seen) && AllSeen(worker.seen, id, |worker.caches|) {
      assert AllSeen(worker.seen, id, |worker.caches|);
      assert (id, 0).0 in SeenIds(worker.seen);
    }
  }

  lemma CleanRestores(input: StepInput, saves: seq<Request>, caches: seq<Tensor>)
    ensures Clean(input, saves, caches) ==> input.restored >= |input.loads|
  {
  }

  lemma ExtendedOnly(before: map<string, Context>, after: map<string, Context>, saves: seq<Request>)
    requires Extended(before, after, saves)
    ensures after.Keys <= before.Keys + set id | id in IdsOf(saves)
    ensures FromHanded(before, after, saves)
  {
    forall id | id in after && id !in before ensures id in IdsOf(saves) {
      var i :| 0 <= i < |saves| && saves[i].requestId == id;
      assert IdsOf(saves)[i] == id;
    }
  }

  lemma StepStored(stored: seq<Prefix>, from: nat, saves: seq<Request>, done: nat, known: map<string, Context>,
                   contexts: map<string, Context>, jobId: string, sessionId: string)
    requires Extended(known, contexts, saves) && Distinct(IdsOf(saves))
    requires forall i :: 0 <= i < |saves| ==> saves[i].requestId !in known
    requires done <= |saves| && |stored| == from + done
    requires forall i :: 0 <= i < done ==>
               && saves[i].requestId in contexts
               && IsSaved(stored[from + i], contexts[saves[i].requestId], saves[i].requestId, jobId, sessionId)
    ensures StoredInOrder(stored, from, saves, done)
  {
    forall i | 0 <= i < done ensures StoredFor(stored[from + i], saves[i]) {
      var id := saves[i].requestId;
      var j :| 0 <= j < |saves| && saves[j].requestId == id && contexts[id].request == saves[j];
      assert IdsOf(saves)[i] == IdsOf(saves)[j];
    }
  }

  /** After a step the worker follows the grown metadata. */
  lemma StepFollows(handed: map<string, Request>, pending: map<string, Request>, saves: seq<Request>,
                    known: set<string>, contexts: map<string, Context>, saved: seq<string>, stored: seq<Prefix>,
                    known': set<string>, contexts': map<string, Context>, saved': seq<string>, stored': seq<Prefix>,
                    done: nat)
    requires Follows(handed, known, contexts, saved, stored) && Lists(saves, pending)
    requires AreHanded(saves, handed + pending) && forall id :: id in handed ==> id !in pending
    requires known' <= known + (set id | id in IdsOf(saves)) && FromHanded(contexts, contexts', saves)
    requires stored <= stored' && StoredInOrder(stored', |stored|, saves, done)
    requires saved' == saved + IdsOf(saves)[..done]
    ensures Follows(handed + pending, known', contexts', saved', stored')
  {
    MoreHanded(contexts, saved, stored, handed, pending);
    ListedIds(saves, pending);
    var all := handed + pending;
    assert OpenFor(contexts', all);
    forall i | 0 <= i < |saved'| ensures saved'[i] in all && StoredFor(stored'[i], all[saved'[i]]) {
      if i < |saved| {
        assert saved'[i] == saved[i] && stored'[i] == stored[i];
      } else {
        assert saved'[i] == saves[i - |saved|].requestId;
        assert stored'[|stored| + (i - |saved|)] == stored'[i];
      }
    }
  }

  lemma ListedIds(saves: seq<Request>, pending: map<string, Request>)
    requires Lists(saves, pending)
    ensures forall id :: id in IdsOf(saves) <==> id in pending
  {
    forall id | id in pending ensures id in IdsOf(saves) {
      var j :| 0 <= j < |saves| && saves[j].requestId == id;
      assert IdsOf(saves)[j] == id;
    }
    forall id | id in IdsOf(saves) ensures id in pending {
      var j :| 0 <= j < |saves| && IdsOf(saves)[j] == id;
      assert saves[j].requestId in pending;
    }
  }

  method TakeAllocations(scheduler: SaveScheduler, allocations: seq<Allocation>)
    requires scheduler.Valid() && LeftPending(scheduler.handed.Keys, scheduler.View())
    modifies scheduler
    ensures scheduler.Valid() && scheduler.handed == old(scheduler.handed)
    ensures LeftPending(scheduler.handed.Keys, scheduler.View())
    ensures scheduler.View() == AfterAllocations(old(scheduler.View()), allocations, scheduler.blockSize)
  {
    hide LeftPending, SaveInv, AfterAlloc;
    for i := 0 to |allocations|
      invariant scheduler.Valid() && scheduler.handed == old(scheduler.handed)
      invariant LeftPending(scheduler.handed.Keys, scheduler.View())
      invariant scheduler.View() == AfterAllocations(old(scheduler.View()), allocations[..i], scheduler.blockSize)
    {
      assert allocations[..i + 1][..i] == allocations[..i];
      var a := allocations[i];
      AllocKeeps(scheduler.View(), a.requestId, a.params, a.groups, scheduler.blockSize);
      GrowingKeepsLeft(scheduler.handed.Keys, scheduler.View(),
                       AfterAlloc(scheduler.View(), a.requestId, a.params, a.groups, scheduler.blockSize));
      scheduler.UpdateStateAfterAlloc(a.requestId, a.params, a.groups);
    }
    assert allocations[..|allocations|] == allocations;
  }

  function AfterAllocations(s: SaveState, allocations: seq<Allocation>, blockSize: int): SaveState
    requires blockSize > 0
  {
    if allocations == [] then s
    else
      var a := allocations[|allocations| - 1];
      AfterAlloc(AfterAllocations(s, allocations[..|allocations| - 1], blockSize), a.requestId, a.params, a.groups,
                 blockSize)
  }

  /** Taking allocations one after the other. */
  ghost predicate AllocationTrace(states: seq<SaveState>, allocations: seq<Allocation>, blockSize: int) {
    && |states| == |allocations| + 1
    && forall i :: 0 <= i < |allocations| ==>
         AllocOutcome(states[i], states[i + 1], allocations[i].requestId, allocations[i].params, allocations[i].groups,
                      blockSize)
  }

  lemma {:induction false} AllocationsAre(s: SaveState, allocations: seq<Allocation>, blockSize: int)
    returns (states: seq<SaveState>)
    requires blockSize > 0
    ensures AllocationTrace(states, allocations, blockSize) && states[0] == s
    ensures states[|allocations|] == AfterAllocations(s, allocations, blockSize)
  {
    hide AllocOutcome, AfterAlloc;
    states := [s];
    if allocations != [] {
      var k := |allocations| - 1;
      var a := allocations[k];
      var before := AllocationsAre(s, allocations[..k], blockSize);
      AllocIs(before[k], a.requestId, a.params, a.groups, blockSize);
      states := before + [AfterAllocations(s, allocations, blockSize)];
    }
  }

  /** One step of the scheduler side: allocations, then the output; what is pending then is handed over. */
  ghost predicate SchedulerStep(s: SaveState, handed: map<string, Request>, input: StepInput, s': SaveState,
                                handed': map<string, Request>, blockSize: int)
  {
    exists a: seq<SaveState>, b: seq<SaveState> ::
      && AllocationTrace(a, input.allocations, blockSize) && a[0] == s
      && OutputTrace(b, input.output, blockSize) && b[0] == a[|input.allocations|]
      && var done := b[|input.output|];
         s' == done.(pending := map[]) && handed' == handed + done.pending
  }

  lemma OneSchedulerStep(s: SaveState, handed: map<string, Request>, input: StepInput, blockSize: int)
    requires blockSize > 0
    ensures var before := AfterAllocations(s, input.allocations, blockSize);
            SchedulerStep(s, handed, input, AfterBuild(before, input.output, blockSize),
                          handed + AfterOutput(before, input.output, blockSize).pending, blockSize)
  {
    hide AllocationTrace, OutputTrace, AfterAllocations, AfterOutput;
    var a := AllocationsAre(s, input.allocations, blockSize);
    var b := OutputIs(AfterAllocations(s, input.allocations, blockSize), input.output, blockSize);
  }

  /** Over a run the scheduler side takes one such step after the other. */
  lemma {:induction false} InputsAre(s: SaveState, handed: map<string, Request>, inputs: seq<StepInput>, blockSize: int)
    returns (states: seq<SaveState>, handeds: seq<map<string, Request>>)
    requires blockSize > 0
    ensures |states| == |handeds| == |inputs| + 1 && states[0] == s && handeds[0] == handed
    ensures forall k :: 0 <= k < |inputs| ==>
              SchedulerStep(states[k], handeds[k], inputs[k], states[k + 1], handeds[k + 1], blockSize)
    ensures states[|inputs|] == AfterInputs(s, inputs, blockSize)
    ensures handeds[|inputs|] == HandedOver(s, handed, inputs, blockSize)
  {
    hide SchedulerStep, AfterAllocations, AfterBuild, AfterOutput;
    states, handeds := [s], [handed];
    if inputs != [] {
      var k := |inputs| - 1;
      var ss, hs := InputsAre(s, handed, inputs[..k], blockSize);
      OneSchedulerStep(ss[k], hs[k], inputs[k], blockSize);
      states := ss + [AfterInputs(s, inputs, blockSize)];
      handeds := hs + [HandedOver(s, handed, inputs, blockSize)];
    }
  }

  /** What the scheduler side is left with after steps; the worker does not change it. */
  function AfterInputs(s: SaveState, inputs: seq<StepInput>, blockSize: int): SaveState
    requires blockSize > 0
  {
    if inputs == [] then s
    else
      var input := inputs[|inputs| - 1];
      var before := AfterAllocations(AfterInputs(s, inputs[..|inputs| - 1], blockSize), input.allocations, blockSize);
      AfterBuild(before, input.output, blockSize)
  }

  /** What steps hand over, on top of what was handed over before. */
  function HandedOver(s: SaveState, handed: map<string, Request>, inputs: seq<StepInput>, blockSize: int)
    : map<string, Request>
    requires blockSize > 0
  {
    if inputs == [] then handed
    else
      var (init, input) := (inputs[..|inputs| - 1], inputs[|inputs| - 1]);
      var before := AfterAllocations(AfterInputs(s, init, blockSize), input.allocations, blockSize);
      HandedOver(s, handed, init, blockSize) + AfterOutput(before, input.output, blockSize).pending
  }

  /** The requests whose loads steps complete. */
  function LoadedByAll(inputs: seq<StepInput>): set<string> {
    if inputs == [] then {} else LoadedByAll(inputs[..|inputs| - 1]) + LoadedBy(inputs[|inputs| - 1])
  }

  /**
    One step. Where nothing fails, every request handed over now is saved, and every saved request
    that vLLM calls finished is reported.
   */
  method ServeStep(scheduler: SaveScheduler, worker: SaveWorker, input: StepInput) returns (r: Result<(), SaveError>)
    requires scheduler.Valid() && worker.Valid() && Aligned(scheduler, worker) && KnownLayers(input, |worker.caches|)
    modifies scheduler, worker, worker.pool, worker.own, worker.shared
    ensures scheduler.Valid() && worker.Valid() && Aligned(scheduler, worker)
    ensures old(worker.savedLog) <= worker.savedLog && old(worker.reportedLog) <= worker.reportedLog
    ensures old(worker.seen) <= worker.seen && old(worker.closed) <= worker.closed
    ensures Keeps(old(scheduler.handed), scheduler.handed)
    ensures var before := AfterAllocations(old(scheduler.View()), input.allocations, scheduler.blockSize);
            && scheduler.View() == AfterBuild(before, input.output, scheduler.blockSize)
            && scheduler.handed
               == old(scheduler.handed) + AfterOutput(before, input.output, scheduler.blockSize).pending
    ensures worker.receivedLog + worker.finishedReceiving
         == old(worker.receivedLog + worker.finishedReceiving) + LoadedBy(input)
    ensures r.Ok? ==> worker.finishedReceiving == {}
    ensures forall id :: id in worker.savedLog && id !in old(worker.savedLog) ==> SavedBy(input, id, |worker.caches|)
    ensures Quiet(input, worker.caches) && NewKeysGiven(old(scheduler.handed), scheduler.handed) ==> r.Ok?
    ensures r.Ok? ==> AllSaved(old(scheduler.handed), scheduler.handed, worker.savedLog)
    ensures r.Ok? ==> forall id :: id in worker.savedLog && id in input.finished ==> id in worker.reportedLog
  {
    hide LeftPending, Lists, SaveInv, SavedBy, Follows, AreHanded, StoredInOrder, SaveWorker.Valid, SaveWorker.Known,
      Quiet, Clean, NewKeysGiven, Keeps, FromHanded, AllSaved, KnownLayers, AfterBuild, AfterOutput, AfterAllocations,
      LoadedBy;
    TakeAllocations(scheduler, input.allocations);
    ghost var (before, handed) := (scheduler.View(), scheduler.handed);
    ghost var (known, contexts, saved, stored) := (worker.Known(), worker.contexts, worker.savedLog, worker.storedLog);
    var saves := scheduler.BuildConnectorMeta(input.output);
    ghost var pending := AfterOutput(before, input.output, scheduler.blockSize).pending;
    MetadataIsNew(handed, before, input.output, scheduler.blockSize, saves);
    NotKnown(handed, known, contexts, saved, stored, saves);
    NewlyHanded(handed, pending, saves, input, worker.caches);
    ghost var done;
    r, done := SaveStep(worker, saves, input);
    StepFollows(handed, pending, saves, known, contexts, saved, stored, worker.Known(), worker.contexts,
                worker.savedLog, worker.storedLog, done);
    StepSaved(handed, pending, saves, saved, done, worker.savedLog, input, |worker.caches|);
  }

  lemma NotKnown(handed: map<string, Request>, known: set<string>, contexts: map<string, Context>, saved: seq<string>,
                 stored: seq<Prefix>, saves: seq<Request>)
    requires Follows(handed, known, contexts, saved, stored)
    requires forall i :: 0 <= i < |saves| ==> saves[i].requestId !in handed
    ensures forall i :: 0 <= i < |saves| ==> saves[i].requestId !in known
  {
  }

  lemma StepSaved(handed: map<string, Request>, pending: map<string, Request>, saves: seq<Request>, saved: seq<string>,
                  done: nat, saved': seq<string>, input: StepInput, layerCount: nat)
    requires Lists(saves, pending) && done <= |saves| && saved' == saved + IdsOf(saves)[..done]
    requires forall i :: 0 <= i < done ==> SavedBy(input, saves[i].requestId, layerCount)
    ensures saved <= saved'
    ensures forall id :: id in saved' && id !in saved ==> SavedBy(input, id, layerCount)
    ensures done == |saves| ==> AllSaved(handed, handed + pending, saved')
  {
    hide SavedBy;
    ListedIds(saves, pending);
    assert IdsOf(saves)[..|saves|] == IdsOf(saves);
    forall id | id in saved' && id !in saved ensures SavedBy(input, id, layerCount) {
      var i :| 0 <= i < done && IdsOf(saves)[i] == id;
    }
  }

  ghost predicate Keeps(before: map<string, Request>, after: map<string, Request>) {
    forall id :: id in before ==> id in after && after[id] == before[id]
  }

  /** The requests handed over in between have prefix keys. */
  ghost predicate NewKeysGiven(before: map<string, Request>, after: map<string, Request>) {
    forall id :: id in after && id !in before ==> after[id].prefixKey != []
  }

  lemma NewlyHanded(handed: map<string, Request>, pending: map<string, Request>, saves: seq<Request>, input: StepInput,
                    caches: seq<Tensor>)
    requires Lists(saves, pending) && forall id :: id in handed ==> id !in pending
    ensures Keeps(handed, handed + pending)
    ensures Quiet(input, caches) && NewKeysGiven(handed, handed + pending) ==> Clean(input, saves, caches)
  {
    hide Quiet;
    ListedIds(saves, pending);
  }

  /**
    Any run, also past calls that raise: every request is saved at most once, in a step in which all
    of its layers were reported and its transfer did not fail; it is reported as sent at most once and
    only after it was saved. Each save stored one prefix, for the request as it was handed over; the own
    store holds the last maxPrefixes distinct ones, and the shared entries of this job and session are
    the same. Where nothing fails, every request handed over is saved. No backing is in two places, and
    a closed one is never used again.
   */
  method Serve(scheduler: SaveScheduler, worker: SaveWorker, inputs: seq<StepInput>)
    requires scheduler.Valid() && worker.Valid() && Aligned(scheduler, worker)
    requires forall k :: 0 <= k < |inputs| ==> KnownLayers(inputs[k], |worker.caches|)
    modifies scheduler, worker, worker.pool, worker.own, worker.shared
    ensures scheduler.Valid() && worker.Valid()
    ensures old(worker.savedLog) <= worker.savedLog && old(worker.reportedLog) <= worker.reportedLog
    ensures Distinct(worker.savedLog) && Distinct(worker.reportedLog)
    ensures forall id :: id in worker.reportedLog ==> id in worker.savedLog
    ensures scheduler.View() == AfterInputs(old(scheduler.View()), inputs, scheduler.blockSize)
    ensures scheduler.handed == HandedOver(old(scheduler.View()), old(scheduler.handed), inputs, scheduler.blockSize)
    ensures worker.receivedLog + worker.finishedReceiving
         == old(worker.receivedLog + worker.finishedReceiving) + LoadedByAll(inputs)
    ensures forall id :: id in worker.savedLog ==> AllSeen(worker.seen, id, |worker.caches|)
    ensures forall id :: id in worker.savedLog && id !in old(worker.savedLog) ==>
              exists k :: 0 <= k < |inputs| && SavedBy(inputs[k], id, |worker.caches|)
    ensures |worker.storedLog| == |worker.savedLog|
    ensures forall i :: 0 <= i < |worker.savedLog| ==>
              var p := worker.storedLog[i];
              && worker.savedLog[i] in scheduler.handed && StoredFor(p, scheduler.handed[worker.savedLog[i]])
              && p.jobId == worker.jobId && p.sessionId == worker.sessionId
    ensures worker.own.keys == Held(worker.storedLog, worker.own.maxPrefixes)
    ensures forall k :: k in worker.own.keys ==>
              && k in worker.own.prefixes && IsLatest(worker.storedLog, k, worker.own.prefixes[k])
              && k in worker.shared.prefixes && worker.shared.prefixes[k] == worker.own.prefixes[k]
    ensures OurKeys(worker.shared.keys, Head(worker.jobId, worker.sessionId)) == worker.own.keys
    ensures forall id :: id in worker.savedLog ==> id in scheduler.ids && id !in scheduler.pending
    ensures (forall k :: 0 <= k < |inputs| ==> Quiet(inputs[k], worker.caches))
            && NewKeysGiven(old(scheduler.handed), scheduler.handed) ==>
              forall id :: id in scheduler.handed && id !in old(scheduler.handed) ==> id in worker.savedLog
    ensures NoSharing(worker.pool.free, worker.contexts, worker.own.prefixes)
    ensures old(worker.closed) <= worker.closed
    ensures NoneUsed(worker.closed, worker.pool.free, worker.contexts, worker.own.prefixes)
  {
    hide SavedBy, AllSeen, KnownLayers, NoSharing, NoneUsed, Quiet, Head, OurKeys, Held, IsLatest, Aligned,
      SaveWorker.Valid, SaveScheduler.Valid, AllQuiet, AllSaved, NewKeysGiven, Keeps, StoredFor, AfterAllocations,
      AfterBuild, AfterOutput, LoadedBy;
    ghost var handed := scheduler.handed;
    BlockSizePositive(scheduler);
    NothingNew(handed, worker.savedLog);
    for k := 0 to |inputs|
      invariant scheduler.Valid() && worker.Valid() && Aligned(scheduler, worker)
      invariant old(worker.savedLog) <= worker.savedLog && old(worker.reportedLog) <= worker.reportedLog
      invariant old(worker.closed) <= worker.closed && Keeps(handed, scheduler.handed)
      invariant forall id :: id in worker.savedLog && id !in old(worker.savedLog) ==>
                  exists j :: 0 <= j < k && SavedBy(inputs[j], id, |worker.caches|)
      invariant scheduler.View() == AfterInputs(old(scheduler.View()), inputs[..k], scheduler.blockSize)
      invariant scheduler.handed == HandedOver(old(scheduler.View()), handed, inputs[..k], scheduler.blockSize)
      invariant worker.receivedLog + worker.finishedReceiving
             == old(worker.receivedLog + worker.finishedReceiving) + LoadedByAll(inputs[..k])
      invariant AllQuiet(inputs[..k], worker.caches) && NewKeysGiven(handed, scheduler.handed) ==>
                  AllSaved(handed, scheduler.handed, worker.savedLog)
    {
      ghost var (now, saved) := (scheduler.handed, worker.savedLog);
      InputsSnoc(old(scheduler.View()), handed, inputs, k, scheduler.blockSize);
      var outcome := ServeStep(scheduler, worker, inputs[k]);
      QuietSoFar(inputs, k, worker.caches);
      HandedSoFar(handed, now, scheduler.handed, saved, worker.savedLog);
    }
    assert inputs[..|inputs|] == inputs;
    QuietRun(inputs, worker.caches, handed, scheduler.handed, worker.savedLog);
    RunEnds(scheduler, worker);
    RunStored(scheduler, worker);
  }

  lemma BlockSizePositive(scheduler: SaveScheduler)
    requires scheduler.Valid()
    ensures scheduler.blockSize > 0
  {
  }

  lemma InputsSnoc(s: SaveState, handed: map<string, Request>, inputs: seq<StepInput>, k: nat, blockSize: int)
    requires k < |inputs| && blockSize > 0
    ensures var before := AfterAllocations(AfterInputs(s, inputs[..k], blockSize), inputs[k].allocations, blockSize);
            && AfterInputs(s, inputs[..k + 1], blockSize) == AfterBuild(before, inputs[k].output, blockSize)
            && HandedOver(s, handed, inputs[..k + 1], blockSize)
               == HandedOver(s, handed, inputs[..k], blockSize)
                 + AfterOutput(before, inputs[k].output, blockSize).pending
            && LoadedByAll(inputs[..k + 1]) == LoadedByAll(inputs[..k]) + LoadedBy(inputs[k])
  {
    assert inputs[..k + 1][..k] == inputs[..k];
  }

  lemma NothingNew(handed: map<string, Request>, saved: seq<string>)
    ensures Keeps(handed, handed) && AllSaved(handed, handed, saved)
  {
  }

  lemma HandedSoFar(start: map<string, Request>, before: map<string, Request>, after: map<string, Request>,
                    saved: seq<string>, saved': seq<string>)
    requires Keeps(start, before) && Keeps(before, after) && saved <= saved'
    ensures Keeps(start, after)
    ensures NewKeysGiven(start, after) ==> NewKeysGiven(start, before) && NewKeysGiven(before, after)
    ensures AllSaved(start, before, saved) && AllSaved(before, after, saved') ==> AllSaved(start, after, saved')
  {
    assert forall id :: id in saved ==> id in saved';
  }

  lemma QuietRun(inputs: seq<StepInput>, caches: seq<Tensor>, before: map<string, Request>,
                 handed: map<string, Request>, saved: seq<string>)
    requires AllQuiet(inputs, caches) && NewKeysGiven(before, handed) ==> AllSaved(before, handed, saved)
    ensures (forall k :: 0 <= k < |inputs| ==> Quiet(inputs[k], caches)) && NewKeysGiven(before, handed) ==>
              forall id :: id in handed && id !in before ==> id in saved
  {
    hide Quiet, NewKeysGiven;
  }

  /** What the invariants of both sides say about the requests and the backings. */
  lemma RunEnds(scheduler: SaveScheduler, worker: SaveWorker)
    requires worker.Valid() && Aligned(scheduler, worker)
    ensures Distinct(worker.savedLog) && Distinct(worker.reportedLog)
    ensures forall id :: id in worker.reportedLog ==> id in worker.savedLog
    ensures forall id :: id in worker.savedLog ==> AllSeen(worker.seen, id, |worker.caches|)
    ensures |worker.storedLog| == |worker.savedLog|
    ensures forall i :: 0 <= i < |worker.savedLog| ==>
              var p := worker.storedLog[i];
              && worker.savedLog[i] in scheduler.handed && StoredFor(p, scheduler.handed[worker.savedLog[i]])
              && p.jobId == worker.jobId && p.sessionId == worker.sessionId
    ensures forall id :: id in worker.savedLog ==> id in scheduler.ids && id !in scheduler.pending
    ensures NoSharing(worker.pool.free, worker.contexts, worker.own.prefixes)
    ensures NoneUsed(worker.closed, worker.pool.free, worker.contexts, worker.own.prefixes)
  {
    hide Owned, AreClosed, NoSharing, NoneUsed, AllSeen, StoredFor;
    SavedAreSeen(worker);
    OwnedMeansNoSharing(worker.View(), worker.place, worker.caches);
    ClosedAreUnused(worker.View(), worker.place, worker.caches, worker.closed);
  }

  ghost predicate AllQuiet(inputs: seq<StepInput>, caches: seq<Tensor>) {
    forall k :: 0 <= k < |inputs| ==> Quiet(inputs[k], caches)
  }

  ghost predicate AllSaved(before: map<string, Request>, handed: map<string, Request>, saved: seq<string>) {
    forall id :: id in handed && id !in before ==> id in saved
  }

  lemma QuietSoFar(inputs: seq<StepInput>, k: nat, caches: seq<Tensor>)
    requires k < |inputs|
    ensures AllQuiet(inputs[..k + 1], caches) ==> AllQuiet(inputs[..k], caches) && Quiet(inputs[k], caches)
  {
    hide Quiet;
    if AllQuiet(inputs[..k + 1], caches) {
      assert inputs[..k + 1][k] == inputs[k];
      assert forall j :: 0 <= j < k ==> inputs[..k + 1][j] == inputs[..k][j];
    }
  }

  /** What the invariants of both sides say about the stores. */
  lemma RunStored(scheduler: SaveScheduler, worker: SaveWorker)
    requires worker.Valid() && Aligned(scheduler, worker)
    ensures worker.own.keys == Held(worker.storedLog, worker.own.maxPrefixes)
    ensures forall k :: k in worker.own.keys ==>
              && k in worker.own.prefixes && IsLatest(worker.storedLog, k, worker.own.prefixes[k])
              && k in worker.shared.prefixes && worker.shared.prefixes[k] == worker.own.prefixes[k]
    ensures OurKeys(worker.shared.keys, Head(worker.jobId, worker.sessionId)) == worker.own.keys
  {
    hide Owned, AreClosed, Reports, Head, OurKeys, Held, IsLatest, AfterPuts;
    PutsHoldLastDistinct(worker.storedLog, worker.own.maxPrefixes);
  }
}
