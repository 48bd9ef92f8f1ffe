/**
  vLLM block lists as byte ranges. A KV tensor is shaped [kv, blocks, ...]: dimension 0 gives
  the lanes (K and V), dimension 1 the blocks. Runs of consecutive block ids become one range
  per lane; a save copies GPU ranges to consecutive CPU slots, a restore copies them back.
 */
module VllmRanges {
  import opened Common
  import opened Transfers

  // ---------- runs ----------

  datatype IdRun = IdRun(start: nat, ids: seq<int>)

  predicate Extends(runs: seq<IdRun>, id: int) {
    runs != [] && runs[|runs| - 1].ids != [] && id == runs[|runs| - 1].ids[|runs[|runs| - 1].ids| - 1] + 1
  }

  function WithId(before: seq<IdRun>, index: nat, id: int): seq<IdRun> {
    if Extends(before, id) then
      before[..|before| - 1] + [before[|before| - 1].(ids := before[|before| - 1].ids + [id])]
    else before + [IdRun(index, [id])]
  }

  function Runs(ids: seq<int>): seq<IdRun> {
    if ids == [] then []
    else WithId(Runs(ids[..|ids| - 1]), |ids| - 1, ids[|ids| - 1])
  }

  method ContiguousRuns(ids: seq<int>) returns (runs: seq<IdRun>)
    ensures runs == Runs(ids)
  {
    if ids == [] {
      return [];
    }
    runs := [];
    var start := 0;
    var current := [ids[0]];
    assert ids[..1] == [ids[0]] && ids[..1][..0] == [];
    for index := 1 to |ids|
      invariant current != [] && Runs(ids[..index]) == runs + [IdRun(start, current)]
    {
      assert ids[..index + 1][..index] == ids[..index];
      if ids[index] == current[|current| - 1] + 1 {
        current := current + [ids[index]];
      } else {
        runs := runs + [IdRun(start, current)];
        start := index;
        current := [ids[index]];
      }
    }
    runs := runs + [IdRun(start, current)];
    assert ids[..|ids|] == ids;
  }

  function Joined(runs: seq<IdRun>): seq<int> {
    if runs == [] then [] else Joined(runs[..|runs| - 1]) + runs[|runs| - 1].ids
  }

  predicate Consecutive(ids: seq<int>) {
    forall j :: 0 <= j < |ids| ==> ids[j] == ids[0] + j
  }

  /** A run that starts where the joined list ends but does not continue the last run's ids. */
  predicate Follows(before: seq<IdRun>, run: IdRun) {
    && run.ids != [] && Consecutive(run.ids) && run.start == |Joined(before)|
    && (before != [] && before[|before| - 1].ids != [] ==>
          run.ids[0] != before[|before| - 1].ids[0] + |before[|before| - 1].ids|)
  }

  /** Non-empty, consecutive, correctly indexed, maximal runs. */
  predicate RunList(runs: seq<IdRun>) {
    runs == [] || (RunList(runs[..|runs| - 1]) && Follows(runs[..|runs| - 1], runs[|runs| - 1]))
  }

  lemma RunListSnoc(before: seq<IdRun>, run: IdRun)
    requires RunList(before) && Follows(before, run)
    ensures RunList(before + [run]) && Joined(before + [run]) == Joined(before) + run.ids
  {
    assert (before + [run])[..|before|] == before;
  }

  /** The runs of a list are maximal, consecutive, correctly indexed, and join to the list. */
  lemma {:induction false} RunsAreRunList(ids: seq<int>)
    ensures RunList(Runs(ids)) && Joined(Runs(ids)) == ids
  {
    hide Follows, WithId;
    if ids != [] {
      var k := |ids| - 1;
      RunsAreRunList(ids[..k]);
      WithIdKeeps(Runs(ids[..k]), k, ids[k]);
      assert ids == ids[..k] + [ids[k]];
    }
  }

  lemma WithIdKeeps(before: seq<IdRun>, index: nat, id: int)
    requires RunList(before) && index == |Joined(before)|
    ensures RunList(WithId(before, index, id)) && Joined(WithId(before, index, id)) == Joined(before) + [id]
  {
    hide Follows, RunList, Joined, Extends;
    if Extends(before, id) {
      ExtendRun(before, id);
    } else {
      NewRun(before, id);
    }
  }

  lemma ExtendRun(before: seq<IdRun>, id: int)
    requires RunList(before) && Extends(before, id)
    ensures var m := |before| - 1;
            var runs := before[..m] + [before[m].(ids := before[m].ids + [id])];
            RunList(runs) && Joined(runs) == Joined(before) + [id]
  {
    var m := |before| - 1;
    RunListSnoc(before[..m], before[m].(ids := before[m].ids + [id]));
  }

  lemma NewRun(before: seq<IdRun>, id: int)
    requires RunList(before) && !Extends(before, id)
    ensures var runs := before + [IdRun(|Joined(before)|, [id])];
            RunList(runs) && Joined(runs) == Joined(before) + [id]
  {
    RunListSnoc(before, IdRun(|Joined(before)|, [id]));
  }

  lemma {:induction false} NonEmptyRuns(runs: seq<IdRun>, r: nat)
    requires RunList(runs) && r < |runs|
    ensures runs[r].ids != [] && Consecutive(runs[r].ids)
  {
    if r < |runs| - 1 {
      NonEmptyRuns(runs[..|runs| - 1], r);
    }
  }

  /** Where a member of a run sits in the list. */
  lemma {:induction false} RunMember(runs: seq<IdRun>, r: nat, j: nat)
    requires RunList(runs) && r < |runs| && j < |runs[r].ids|
    ensures runs[r].start + j < |Joined(runs)|
    ensures Joined(runs)[runs[r].start + j] == runs[r].ids[j] == runs[r].ids[0] + j
  {
    var m := |runs| - 1;
    var before := Joined(runs[..m]);
    if r < m {
      RunMember(runs[..m], r, j);
      assert (before + runs[m].ids)[runs[r].start + j] == before[runs[r].start + j];
    } else {
      assert (before + runs[m].ids)[|before| + j] == runs[m].ids[j];
    }
  }

  /** Every position of the list belongs to a run. */
  lemma {:induction false} RunOf(runs: seq<IdRun>, i: nat) returns (r: nat, j: nat)
    requires RunList(runs) && i < |Joined(runs)|
    ensures r < |runs| && j < |runs[r].ids| && i == runs[r].start + j
  {
    var m := |runs| - 1;
    if i < |Joined(runs[..m])| {
      r, j := RunOf(runs[..m], i);
    } else {
      r, j := m, i - |Joined(runs[..m])|;
    }
  }

  /** Adjacent runs never continue each other, so no longer run exists. */
  lemma {:induction false} RunsAreMaximal(runs: seq<IdRun>, r: nat)
    requires RunList(runs) && r + 1 < |runs|
    ensures runs[r].ids != [] && runs[r + 1].ids != [] && runs[r + 1].start == runs[r].start + |runs[r].ids|
    ensures runs[r + 1].ids[0] != runs[r].ids[|runs[r].ids| - 1] + 1
  {
    var m := |runs| - 1;
    NonEmptyRuns(runs, r);
    if r + 1 < m {
      RunsAreMaximal(runs[..m], r);
    } else {
      assert runs[..m][..r] == runs[..m - 1];
    }
  }

  // ---------- tensors and references ----------

  /** Strides are in elements, as torch reports them. */
  datatype Tensor = Tensor(dims: nat, shape0: int, stride0: int, stride1: int, elementSize: int)

  datatype RefError = TooFewDimensions

  function BlockBytes(t: Tensor): int { t.stride1 * t.elementSize }

  function LaneBytes(t: Tensor): int { t.stride0 * t.elementSize }

  function Lanes(t: Tensor): int { if t.dims >= 3 then t.shape0 else 1 }

  method BlockBytesFromTensor(t: Tensor) returns (r: Result<int, RefError>)
    ensures r == if t.dims < 2 then Err(TooFewDimensions) else Ok(BlockBytes(t))
  {
    if t.dims < 2 {
      return Err(TooFewDimensions);
    }
    return Ok(t.stride1 * t.elementSize);
  }

  datatype Ref = Ref(
    group: nat, blockId: int, cpuSlot: int, lane: Option<int>, cpuOffset: int, gpuOffset: int, bytes: int)

  function RunRef(layer: nat, t: Tensor, n: nat, slotStart: int, lane: int, run: IdRun): Ref
    requires run.ids != []
  {
    var slot := slotStart + lane * n + run.start;
    Ref(layer, run.ids[0], slot, if Lanes(t) == 1 then None else Some(lane), slot * BlockBytes(t),
        if Lanes(t) == 1 then run.ids[0] * BlockBytes(t)
        else (lane * t.stride0 + run.ids[0] * t.stride1) * t.elementSize,
        |run.ids| * BlockBytes(t))
  }

  function LaneRefs(layer: nat, t: Tensor, n: nat, slotStart: int, lane: int, runs: seq<IdRun>): (refs: seq<Ref>)
    requires RunList(runs)
    ensures |refs| == |runs|
    ensures forall r :: 0 <= r < |runs| ==>
              runs[r].ids != [] && refs[r] == RunRef(layer, t, n, slotStart, lane, runs[r])
  {
    assert forall r :: 0 <= r < |runs| ==> runs[r].ids != [] by {
      forall r | 0 <= r < |runs| ensures runs[r].ids != [] {
        NonEmptyRuns(runs, r);
      }
    }
    seq(|runs|, r requires 0 <= r < |runs| => RunRef(layer, t, n, slotStart, lane, runs[r]))
  }

  function LayerRefs(layer: nat, t: Tensor, ids: seq<int>, slotStart: int, lanes: int): seq<Ref>
    decreases lanes
  {
    if lanes <= 0 then []
    else
      RunsAreRunList(ids);
      LayerRefs(layer, t, ids, slotStart, lanes - 1) + LaneRefs(layer, t, |ids|, slotStart, lanes - 1, Runs(ids))
  }

  method MakeLayerRefs(layer: nat, t: Tensor, ids: seq<int>, slotStart: int) returns (refs: seq<Ref>)
    ensures refs == LayerRefs(layer, t, ids, slotStart, Lanes(t))
  {
    hide RunRef, Runs, RunList;
    refs := [];
    var lane := 0;
    RunsAreRunList(ids);
    while lane < Lanes(t)
      invariant lane >= 0 && (lane > 0 ==> lane <= Lanes(t))
      invariant refs == LayerRefs(layer, t, ids, slotStart, lane)
      decreases Lanes(t) - lane
    {
      var runs := ContiguousRuns(ids);
      ghost var all := LaneRefs(layer, t, |ids|, slotStart, lane, runs);
      var added := [];
      for r := 0 to |runs|
        invariant added == all[..r]
      {
        added := added + [RunRef(layer, t, |ids|, slotStart, lane, runs[r])];
      }
      assert all[..|runs|] == all;
      refs := refs + added;
      lane := lane + 1;
    }
  }
}
