/**
  The block ids of a request, as observed allocation events report them. Events of one request
  are merged group by group; the request's block list keeps the first occurrence of each id.
  This is where the distinct block ids of a save or a restore come from.
 */
module VllmAllocations {
  import opened Common

  // ---------- first occurrences ----------

  function FirstOccurrences<T(==)>(s: seq<T>): seq<T> {
    if s == [] then []
    else
      var before := FirstOccurrences(s[..|s| - 1]);
      if s[|s| - 1] in before then before else before + [s[|s| - 1]]
  }

  lemma {:induction false} FirstOccurrencesMembers<T>(s: seq<T>, x: T)
    ensures x in FirstOccurrences(s) <==> x in s
  {
    if s != [] {
      FirstOccurrencesMembers(s[..|s| - 1], x);
      assert s == s[..|s| - 1] + [s[|s| - 1]];
    }
  }

  lemma {:induction false} FirstOccurrencesDistinct<T>(s: seq<T>)
    ensures Distinct(FirstOccurrences(s))
  {
    if s != [] {
      FirstOccurrencesDistinct(s[..|s| - 1]);
    }
  }

  lemma FirstOccurrencesSnoc<T>(s: seq<T>, x: T)
    ensures FirstOccurrences(s + [x]) == if x in s then FirstOccurrences(s) else FirstOccurrences(s) + [x]
  {
    assert (s + [x])[..|s|] == s;
    FirstOccurrencesMembers(s, x);
  }

  /** Listing more never moves what was listed before. */
  lemma {:induction false} FirstOccurrencesPrefix<T>(a: seq<T>, b: seq<T>)
    ensures FirstOccurrences(a) <= FirstOccurrences(a + b)
  {
    if b == [] {
      assert a + b == a;
    } else {
      FirstOccurrencesPrefix(a, b[..|b| - 1]);
      assert a + b == (a + b[..|b| - 1]) + [b[|b| - 1]];
      FirstOccurrencesSnoc(a + b[..|b| - 1], b[|b| - 1]);
    }
  }

  predicate AllIn<T(==)>(b: seq<T>, a: seq<T>) {
    forall x :: x in b ==> x in a
  }

  /** Listing again what is already listed changes nothing. */
  lemma {:induction false} FirstOccurrencesRepeat<T>(a: seq<T>, b: seq<T>)
    requires AllIn(b, a)
    ensures FirstOccurrences(a + b) == FirstOccurrences(a)
  {
    if b == [] {
      assert a + b == a;
    } else {
      var init := b[..|b| - 1];
      assert b == init + [b[|b| - 1]];
      FirstOccurrencesRepeat(a, init);
      assert a + b == (a + init) + [b[|b| - 1]];
      FirstOccurrencesSnoc(a + init, b[|b| - 1]);
    }
  }

  /** Only the order of first occurrences of each part matters. */
  lemma {:induction false} FirstOccurrencesOfParts<T>(a: seq<T>, b: seq<T>)
    ensures FirstOccurrences(FirstOccurrences(a) + b) == FirstOccurrences(a + b)
  {
    if b == [] {
      assert a + b == a && FirstOccurrences(a) + b == FirstOccurrences(a);
      FirstOccurrencesDistinct(a);
      DistinctIsItself(FirstOccurrences(a));
    } else {
      var init, x := b[..|b| - 1], b[|b| - 1];
      FirstOccurrencesOfParts(a, init);
      assert a + b == (a + init) + [x] && FirstOccurrences(a) + b == (FirstOccurrences(a) + init) + [x];
      FirstOccurrencesSnoc(a + init, x);
      FirstOccurrencesSnoc(FirstOccurrences(a) + init, x);
      FirstOccurrencesMembers(a, x);
    }
  }

  lemma {:induction false} DistinctIsItself<T>(s: seq<T>)
    requires Distinct(s)
    ensures FirstOccurrences(s) == s
  {
    if s != [] {
      DistinctIsItself(s[..|s| - 1]);
    }
  }

  // ---------- events ----------

  datatype Event = Event(requestId: string, groups: seq<seq<int>>, eventCount: int)

  datatype MergeError = DifferentRequests

  function Joined(groups: seq<seq<int>>): seq<int> {
    if groups == [] then [] else Joined(groups[..|groups| - 1]) + groups[|groups| - 1]
  }

  function Ids(e: Event): seq<int> { FirstOccurrences(Joined(e.groups)) }

  method BlockIds(e: Event) returns (ordered: seq<int>)
    ensures ordered == Ids(e)
  {
    var seen: set<int> := {};
    ordered := [];
    for g := 0 to |e.groups|
      invariant ordered == FirstOccurrences(Joined(e.groups[..g]))
      invariant forall x :: x in seen <==> x in ordered
    {
      var ids := e.groups[g];
      assert e.groups[..g + 1][..g] == e.groups[..g];
      ghost var before := Joined(e.groups[..g]);
      assert before + ids[..0] == before;
      for i := 0 to |ids|
        invariant ordered == FirstOccurrences(before + ids[..i])
        invariant forall x :: x in seen <==> x in ordered
      {
        assert before + ids[..i + 1] == (before + ids[..i]) + [ids[i]];
        FirstOccurrencesSnoc(before + ids[..i], ids[i]);
        FirstOccurrencesMembers(before + ids[..i], ids[i]);
        if ids[i] !in seen {
          seen := seen + {ids[i]};
          ordered := ordered + [ids[i]];
        }
      }
      assert ids[..|ids|] == ids;
    }
    assert e.groups[..|e.groups|] == e.groups;
  }

  /** The inner loop of merge. */
  method WithoutRepeats(ids: seq<int>) returns (ordered: seq<int>)
    ensures ordered == FirstOccurrences(ids)
  {
    var seen: set<int> := {};
    ordered := [];
    for i := 0 to |ids|
      invariant ordered == FirstOccurrences(ids[..i])
      invariant forall x :: x in seen <==> x in ordered
    {
      assert ids[..i + 1] == ids[..i] + [ids[i]];
      FirstOccurrencesSnoc(ids[..i], ids[i]);
      FirstOccurrencesMembers(ids[..i], ids[i]);
      if ids[i] !in seen {
        seen := seen + {ids[i]};
        ordered := ordered + [ids[i]];
      }
    }
    assert ids[..|ids|] == ids;
  }

  function GroupOf(groups: seq<seq<int>>, g: nat): seq<int> {
    if g < |groups| then groups[g] else []
  }

  function MergedGroups(a: seq<seq<int>>, b: seq<seq<int>>): (merged: seq<seq<int>>)
    ensures |merged| == Max(|a|, |b|)
    ensures forall g :: 0 <= g < |merged| ==> merged[g] == FirstOccurrences(GroupOf(a, g) + GroupOf(b, g))
  {
    seq(Max(|a|, |b|), g requires 0 <= g => FirstOccurrences(GroupOf(a, g) + GroupOf(b, g)))
  }

  function Merged(a: Event, b: Event): Event {
    Event(a.requestId, MergedGroups(a.groups, b.groups), a.eventCount + b.eventCount)
  }

  method Merge(a: Event, b: Event) returns (r: Result<Event, MergeError>)
    ensures r == if a.requestId != b.requestId then Err(DifferentRequests) else Ok(Merged(a, b))
  {
    if b.requestId != a.requestId {
      return Err(DifferentRequests);
    }
    var count := Max(|a.groups|, |b.groups|);
    var merged := [];
    ghost var all := MergedGroups(a.groups, b.groups);
    for g := 0 to count
      invariant merged == all[..g]
    {
      var ordered := WithoutRepeats(GroupOf(a.groups, g) + GroupOf(b.groups, g));
      merged := merged + [ordered];
    }
    assert all[..count] == all;
    return Ok(Event(a.requestId, merged, a.eventCount + b.eventCount));
  }

  // ---------- what merging means for the block list ----------

  /** A block list never repeats an id, whatever the events report. */
  lemma IdsDistinct(e: Event)
    ensures Distinct(Ids(e))
  {
    FirstOccurrencesDistinct(Joined(e.groups));
  }

  lemma {:induction false} JoinedMembers(groups: seq<seq<int>>, x: int)
    ensures x in Joined(groups) <==> exists g: nat :: g < |groups| && x in groups[g]
  {
    if groups != [] {
      var m := |groups| - 1;
      JoinedMembers(groups[..m], x);
      if x in groups[m] {
        assert m < |groups| && x in groups[m];
      }
      forall g: nat | g < m && x in groups[..m][g] ensures x in groups[g] {
      }
      if exists g: nat :: g < |groups| && x in groups[g] {
        var g: nat :| g < |groups| && x in groups[g];
        if g < m {
          assert x in groups[..m][g];
        }
      }
    }
  }

  lemma MergedMember(a: Event, b: Event, g: nat, x: int)
    requires g < Max(|a.groups|, |b.groups|)
    ensures x in MergedGroups(a.groups, b.groups)[g] <==> x in GroupOf(a.groups, g) || x in GroupOf(b.groups, g)
  {
    FirstOccurrencesMembers(GroupOf(a.groups, g) + GroupOf(b.groups, g), x);
  }

  /** Merging loses no id and invents none. */
  lemma MergedIds(a: Event, b: Event, x: int)
    ensures x in Ids(Merged(a, b)) <==> x in Ids(a) || x in Ids(b)
  {
    hide FirstOccurrences, Joined, MergedGroups;
    var merged := MergedGroups(a.groups, b.groups);
    FirstOccurrencesMembers(Joined(a.groups), x);
    FirstOccurrencesMembers(Joined(b.groups), x);
    FirstOccurrencesMembers(Joined(merged), x);
    JoinedMembers(a.groups, x);
    JoinedMembers(b.groups, x);
    JoinedMembers(merged, x);
    forall g: nat | g < |merged|
      ensures x in merged[g] <==> x in GroupOf(a.groups, g) || x in GroupOf(b.groups, g)
    {
      MergedMember(a, b, g, x);
    }
    if g: nat :| g < |a.groups| && x in a.groups[g] {
      assert x in merged[g];
    }
    if g: nat :| g < |b.groups| && x in b.groups[g] {
      assert x in merged[g];
    }
  }

  lemma OneGroup(ids: seq<int>)
    ensures Joined([ids]) == ids
  {
    assert [ids][..0] == [];
    assert [] + ids == ids;
  }

  /** With a single group, a later event only appends: no block changes its position. */
  lemma MergedSingleGroup(a: Event, b: Event)
    requires |a.groups| == 1 && |b.groups| == 1
    ensures Ids(Merged(a, b)) == FirstOccurrences(a.groups[0] + b.groups[0])
    ensures Ids(a) <= Ids(Merged(a, b))
  {
    var (left, right) := (a.groups[0], b.groups[0]);
    assert a.groups == [left];
    OneGroup(left);
    assert Merged(a, b).groups == [FirstOccurrences(left + right)];
    OneGroup(FirstOccurrences(left + right));
    FirstOccurrencesDistinct(left + right);
    DistinctIsItself(FirstOccurrences(left + right));
    FirstOccurrencesPrefix(left, right);
  }

  // ---------- the allocations map ----------

  class Allocations {
    var events: map<string, Event>

    ghost predicate Valid()
      reads this
    {
      forall id :: id in events ==> events[id].requestId == id
    }

    constructor ()
      ensures Valid() && events == map[]
    {
      events := map[];
    }

    /** Merging with the previous event of the same request; it never meets another request's event. */
    method Store(event: Event) returns (r: Result<Event, MergeError>)
      requires Valid()
      modifies this
      ensures Valid()
      ensures r == Ok(if event.requestId in old(events) then Merged(old(events)[event.requestId], event) else event)
      ensures r.Ok? ==> events == old(events)[event.requestId := r.value]
    {
      var stored := event;
      if event.requestId in events {
        var merged := Merge(events[event.requestId], event);
        if merged.Err? {
          return Err(DifferentRequests);
        }
        stored := merged.value;
      }
      events := events[event.requestId := stored];
      return Ok(stored);
    }

    /** record_request_blocks: an empty list records nothing. */
    method RecordRequestBlocks(requestId: string, blockIds: seq<int>) returns (r: Option<Event>)
      requires Valid()
      modifies this
      ensures Valid()
      ensures blockIds == [] ==> r == None && events == old(events)
      ensures blockIds != [] ==> r.Some? && events == old(events)[requestId := r.value]
      ensures blockIds != [] ==> r.value.requestId == requestId
      ensures blockIds != [] && requestId !in old(events) ==> r.value.eventCount == 1
      ensures blockIds != [] && requestId in old(events) ==>
                r.value.eventCount == old(events)[requestId].eventCount + 1
      ensures blockIds != [] && requestId !in old(events) ==> Ids(r.value) == FirstOccurrences(blockIds)
      ensures blockIds != [] && requestId in old(events) && |old(events)[requestId].groups| == 1 ==>
                Ids(r.value) == FirstOccurrences(old(events)[requestId].groups[0] + blockIds)
    {
      if blockIds == [] {
        return None;
      }
      var event := Event(requestId, [blockIds], 1);
      if requestId !in events {
        OneGroup(blockIds);
      } else if |events[requestId].groups| == 1 {
        MergedSingleGroup(events[requestId], event);
      }
      var stored := Store(event);
      return Some(stored.value);
    }
  }

  // ---------- whole histories ----------

  /** The event kept after recording the lists of `history`, one group each, in this order. */
  function Recorded(requestId: string, history: seq<seq<int>>): Event
    requires history != []
  {
    var k := |history| - 1;
    var event := Event(requestId, [history[k]], 1);
    if k == 0 then event else Merged(Recorded(requestId, history[..k]), event)
  }

  /** Whatever is recorded, and however often, the block list is the first occurrences of all of it. */
  lemma {:induction false} RecordedIds(requestId: string, history: seq<seq<int>>)
    requires history != []
    ensures |Recorded(requestId, history).groups| == 1
    ensures Ids(Recorded(requestId, history)) == FirstOccurrences(Joined(history))
    ensures FirstOccurrences(Recorded(requestId, history).groups[0]) == FirstOccurrences(Joined(history))
  {
    hide FirstOccurrences, MergedGroups;
    var k := |history| - 1;
    if k == 0 {
      assert history == [history[0]];
      OneGroup(history[0]);
    } else {
      RecordedIds(requestId, history[..k]);
      RecordedStep(Recorded(requestId, history[..k]), Joined(history[..k]), Event(requestId, [history[k]], 1),
                   history[k]);
    }
  }

  lemma RecordedStep(before: Event, listed: seq<int>, event: Event, ids: seq<int>)
    requires |before.groups| == 1 && event.groups == [ids]
    requires FirstOccurrences(before.groups[0]) == FirstOccurrences(listed)
    ensures |Merged(before, event).groups| == 1
    ensures Ids(Merged(before, event)) == FirstOccurrences(listed + ids)
    ensures FirstOccurrences(Merged(before, event).groups[0]) == FirstOccurrences(listed + ids)
  {
    hide FirstOccurrences;
    MergedSingleGroup(before, event);
    FirstOccurrencesOfParts(before.groups[0], ids);
    FirstOccurrencesOfParts(listed, ids);
    assert Merged(before, event).groups == [FirstOccurrences(before.groups[0] + ids)];
    FirstOccurrencesDistinct(before.groups[0] + ids);
    DistinctIsItself(FirstOccurrences(before.groups[0] + ids));
  }

  /** Recording the same list again is harmless. */
  lemma RecordingAgain(requestId: string, history: seq<seq<int>>, ids: seq<int>)
    requires history != [] && AllIn(ids, Joined(history))
    ensures Ids(Recorded(requestId, history + [ids])) == Ids(Recorded(requestId, history))
  {
    hide FirstOccurrences, Recorded, Ids;
    RecordedIds(requestId, history);
    RecordedIds(requestId, history + [ids]);
    hide Joined;
    FirstOccurrencesRepeat(Joined(history), ids);
  }
}
