/**
  All layers of a request: one GPU tensor and one CPU backing per layer, and references that say
  by their group which layer they belong to.
 */
module VllmLayers {
  import opened Common
  import opened Transfers
  import opened VllmRanges
  import opened VllmRoundTrip
  import opened VllmTiling

  // ---------- specification ----------

  function AllRefs(ids: seq<int>, caches: seq<Tensor>, slotStart: int): Result<seq<Ref>, RefError> {
    if caches == [] then Ok([])
    else
      var k := |caches| - 1;
      var before := AllRefs(ids, caches[..k], slotStart);
      if before.Err? then before
      else if caches[k].dims < 2 then Err(TooFewDimensions)
      else Ok(before.value + LayerRefs(k, caches[k], ids, slotStart, Lanes(caches[k])))
  }

  lemma {:induction false} RefErrorsStick(ids: seq<int>, caches: seq<Tensor>, slotStart: int, n: nat)
    requires n <= |caches| && AllRefs(ids, caches[..n], slotStart).Err?
    ensures AllRefs(ids, caches, slotStart) == AllRefs(ids, caches[..n], slotStart)
  {
    if n == |caches| {
      assert caches[..n] == caches;
    } else {
      var init := caches[..|caches| - 1];
      assert init[..n] == caches[..n];
      RefErrorsStick(ids, init, slotStart, n);
    }
  }

  /** The references of one group. */
  function OfGroup(refs: seq<Ref>, group: nat): seq<Ref> {
    if refs == [] then []
    else OfGroup(refs[..|refs| - 1], group) + if refs[|refs| - 1].group == group then [refs[|refs| - 1]] else []
  }

  // ---------- what the references mean, in the fields of the tensor ----------

  /** The first dimension of a tensor with three or more is its lanes; a flatter tensor has one. */
  predicate IsLane(t: Tensor, l: int) {
    if t.dims >= 3 then 0 <= l < t.shape0 else l == 0
  }

  /** GPU byte g is byte k of block ids[i] in lane l; CPU byte c is byte k of slot slotStart + l * |ids| + i. */
  predicate IsPair(t: Tensor, ids: seq<int>, slotStart: int, l: int, i: int, k: int, g: int, c: int) {
    && IsLane(t, l) && 0 <= i < |ids| && 0 <= k < t.stride1 * t.elementSize
    && g == (l * t.stride0 + ids[i] * t.stride1) * t.elementSize + k
    && c == (slotStart + l * |ids| + i) * (t.stride1 * t.elementSize) + k
  }

  /** The references of group `layer` move GPU byte g to CPU byte c, or back. */
  ghost predicate LayerMoves(refs: seq<Ref>, layer: nat, g: int, c: int) {
    exists ref :: ref in refs && ref.group == layer && Pairs(ref, g, c)
  }

  /** Every layer's references pair exactly the bytes of the listed blocks with the bytes of their slots. */
  ghost predicate PairsBlocks(refs: seq<Ref>, layer: nat, t: Tensor, ids: seq<int>, slotStart: int) {
    forall g, c :: LayerMoves(refs, layer, g, c) <==> exists l, i, k :: IsPair(t, ids, slotStart, l, i, k, g, c)
  }

  /** A reference is about n consecutive ids of the list, the i-th and those after it, in one lane. */
  predicate IsAbout(ref: Ref, t: Tensor, ids: seq<int>, slotStart: int, l: int, i: int, n: int) {
    && IsLane(t, l) && 0 <= i < i + n <= |ids| && (forall j :: i <= j < i + n ==> ids[j] == ids[i] + (j - i))
    && ref.blockId == ids[i] && ref.cpuSlot == slotStart + l * |ids| + i
    && ref.lane == (if t.dims < 3 || t.shape0 == 1 then None else Some(l))
    && ref.cpuOffset == ref.cpuSlot * (t.stride1 * t.elementSize)
    && ref.gpuOffset == (l * t.stride0 + ids[i] * t.stride1) * t.elementSize
    && ref.bytes == n * (t.stride1 * t.elementSize)
  }

  ghost predicate WellMadeRef(ref: Ref, caches: seq<Tensor>, ids: seq<int>, slotStart: int) {
    ref.group < |caches| && exists l, i, n :: IsAbout(ref, caches[ref.group], ids, slotStart, l, i, n)
  }

  lemma LanesAre(t: Tensor)
    ensures forall l :: 0 <= l < Lanes(t) <==> IsLane(t, l)
    ensures Lanes(t) == 1 <==> t.dims < 3 || t.shape0 == 1
  {
  }

  lemma AddressIs(t: Tensor, l: int, id: int)
    ensures GpuAt(t, l, id) == (l * t.stride0 + id * t.stride1) * t.elementSize
  {
    assert (l * t.stride0 + id * t.stride1) * t.elementSize
        == l * (t.stride0 * t.elementSize) + id * (t.stride1 * t.elementSize);
  }

  lemma PairIsByte(t: Tensor, ids: seq<int>, slotStart: int, l: int, i: int, k: int, g: int, c: int)
    ensures IsPair(t, ids, slotStart, l, i, k, g, c) <==> 0 <= l < Lanes(t) && IsByte(t, ids, slotStart, l, i, k, g, c)
  {
    LanesAre(t);
    if 0 <= i < |ids| {
      AddressIs(t, l, ids[i]);
    }
  }

  lemma PairedIsPair(t: Tensor, ids: seq<int>, slotStart: int, g: int, c: int)
    ensures PairedBytes(t, ids, slotStart, g, c) <==> exists l, i, k :: IsPair(t, ids, slotStart, l, i, k, g, c)
  {
    hide IsPair, IsByte, Lanes;
    if PairedBytes(t, ids, slotStart, g, c) {
      var l, i, k :| 0 <= l < Lanes(t) && IsByte(t, ids, slotStart, l, i, k, g, c);
      PairIsByte(t, ids, slotStart, l, i, k, g, c);
    }
    if exists l, i, k :: IsPair(t, ids, slotStart, l, i, k, g, c) {
      var l, i, k :| IsPair(t, ids, slotStart, l, i, k, g, c);
      PairIsByte(t, ids, slotStart, l, i, k, g, c);
    }
  }

  // ---------- the references of a layer ----------

  lemma {:induction false} OfGroupAppend(a: seq<Ref>, b: seq<Ref>, group: nat)
    ensures OfGroup(a + b, group) == OfGroup(a, group) + OfGroup(b, group)
  {
    if b == [] {
      assert a + b == a;
    } else {
      assert (a + b)[..|a + b| - 1] == a + b[..|b| - 1];
      OfGroupAppend(a, b[..|b| - 1], group);
    }
  }

  lemma {:induction false} OfOneGroup(refs: seq<Ref>, group: nat, other: nat)
    requires forall ref :: ref in refs ==> ref.group == group
    ensures OfGroup(refs, other) == if other == group then refs else []
  {
    if refs != [] {
      OfOneGroup(refs[..|refs| - 1], group, other);
      assert refs[|refs| - 1] in refs;
    }
  }

  lemma {:induction false} OfGroupMembers(refs: seq<Ref>, group: nat, ref: Ref)
    ensures ref in OfGroup(refs, group) <==> ref in refs && ref.group == group
  {
    if refs != [] {
      OfGroupMembers(refs[..|refs| - 1], group, ref);
      assert refs == refs[..|refs| - 1] + [refs[|refs| - 1]];
    }
  }

  lemma LayerHasGroup(layer: nat, t: Tensor, ids: seq<int>, slotStart: int, ref: Ref)
    requires ref in LayerRefs(layer, t, ids, slotStart, Lanes(t))
    ensures ref.group == layer
  {
    RunsAreRunList(ids);
    LayerRefMembers(layer, t, ids, slotStart, Lanes(t), ref);
  }

  /** Making references fails exactly when some tensor has no block dimension. */
  lemma {:induction false} FailsForFlatTensor(ids: seq<int>, caches: seq<Tensor>, slotStart: int)
    ensures AllRefs(ids, caches, slotStart).Err? <==> exists k :: 0 <= k < |caches| && caches[k].dims < 2
  {
    hide Lanes, LayerRefs;
    if caches != [] {
      FailsForFlatTensor(ids, caches[..|caches| - 1], slotStart);
    }
  }

  /** The references of a group are those of its layer, and there are no others. */
  ghost predicate GroupsAreLayers(refs: seq<Ref>, ids: seq<int>, caches: seq<Tensor>, slotStart: int) {
    forall layer: nat ::
      OfGroup(refs, layer) == if layer < |caches| then RequestRefs(layer, caches[layer], ids, slotStart) else []
  }

  lemma {:induction false} LayersAreGroups(ids: seq<int>, caches: seq<Tensor>, slotStart: int)
    requires AllRefs(ids, caches, slotStart).Ok?
    ensures GroupsAreLayers(AllRefs(ids, caches, slotStart).value, ids, caches, slotStart)
  {
    hide Lanes, LayerRefs, GroupsAreLayers;
    if caches == [] {
      NoGroups(ids, slotStart);
    } else {
      var k := |caches| - 1;
      LayersAreGroups(ids, caches[..k], slotStart);
      OneMoreLayer(AllRefs(ids, caches[..k], slotStart).value, ids, caches, slotStart);
    }
  }

  lemma NoGroups(ids: seq<int>, slotStart: int)
    ensures GroupsAreLayers([], ids, [], slotStart)
  {
  }

  lemma OneMoreLayer(before: seq<Ref>, ids: seq<int>, caches: seq<Tensor>, slotStart: int)
    requires caches != [] && GroupsAreLayers(before, ids, caches[..|caches| - 1], slotStart)
    ensures var k := |caches| - 1;
            GroupsAreLayers(before + LayerRefs(k, caches[k], ids, slotStart, Lanes(caches[k])), ids, caches, slotStart)
  {
    hide Lanes, LayerRefs, OfGroup;
    var k := |caches| - 1;
    var last := LayerRefs(k, caches[k], ids, slotStart, Lanes(caches[k]));
    forall ref | ref in last ensures ref.group == k {
      LayerHasGroup(k, caches[k], ids, slotStart, ref);
    }
    forall layer: nat
      ensures OfGroup(before + last, layer)
           == if layer < |caches| then RequestRefs(layer, caches[layer], ids, slotStart) else []
    {
      OfGroupAppend(before, last, layer);
      OfOneGroup(last, k, layer);
      assert OfGroup(before, layer) + [] == OfGroup(before, layer);
    }
  }

  lemma RunIsAbout(layer: nat, t: Tensor, ids: seq<int>, slotStart: int, l: nat, r: nat)
    returns (i: int, n: int)
    requires l < Lanes(t) && RunList(Runs(ids)) && Joined(Runs(ids)) == ids && r < |Runs(ids)| && Runs(ids)[r].ids != []
    ensures IsAbout(RunRef(layer, t, |ids|, slotStart, l, Runs(ids)[r]), t, ids, slotStart, l, i, n)
  {
    hide Runs, RunList, Joined;
    var run := Runs(ids)[r];
    i, n := run.start, |run.ids|;
    LanesAre(t);
    AddressIs(t, l, run.ids[0]);
    RunMember(Runs(ids), r, 0);
    RunMember(Runs(ids), r, n - 1);
    forall j | i <= j < i + n ensures ids[j] == ids[i] + (j - i) {
      RunMember(Runs(ids), r, j - i);
    }
  }

  lemma LayerRefWellMade(layer: nat, t: Tensor, ids: seq<int>, slotStart: int, ref: Ref)
    returns (l: int, i: int, n: int)
    requires ref in RequestRefs(layer, t, ids, slotStart)
    ensures IsAbout(ref, t, ids, slotStart, l, i, n)
  {
    hide RunRef, Runs, RunList, IsAbout;
    RunsAreRunList(ids);
    LayerRefMembers(layer, t, ids, slotStart, Lanes(t), ref);
    var r;
    l, r :| 0 <= l < Lanes(t) && IsRunRef(layer, t, ids, slotStart, l, r, ref);
    i, n := RunIsAbout(layer, t, ids, slotStart, l, r);
  }

  /** What the references of a request say, in full. */
  lemma LayerRangeRefs(ids: seq<int>, caches: seq<Tensor>, slotStart: int)
    requires AllRefs(ids, caches, slotStart).Ok?
    ensures var refs := AllRefs(ids, caches, slotStart).value;
            && (forall ref :: ref in refs ==> WellMadeRef(ref, caches, ids, slotStart))
            && (forall k :: 0 <= k < |caches| ==> PairsBlocks(refs, k, caches[k], ids, slotStart))
  {
    hide AllRefs, RequestRefs, IsAbout, Pairs, IsPair, BlockBytes;
    var refs := AllRefs(ids, caches, slotStart).value;
    LayersAreGroups(ids, caches, slotStart);
    forall ref | ref in refs ensures WellMadeRef(ref, caches, ids, slotStart) {
      OfGroupMembers(refs, ref.group, ref);
      var l, i, n := LayerRefWellMade(ref.group, caches[ref.group], ids, slotStart, ref);
    }
    forall k, g, c | 0 <= k < |caches|
      ensures LayerMoves(refs, k, g, c) <==> exists l, i, j :: IsPair(caches[k], ids, slotStart, l, i, j, g, c)
    {
      if BlockBytes(caches[k]) > 0 {
        GroupMoves(refs, k, g, c);
        RequestPairs(k, caches[k], ids, slotStart, g, c);
        PairedIsPair(caches[k], ids, slotStart, g, c);
      } else {
        NothingToMove(refs, k, caches, ids, slotStart, g, c);
      }
    }
  }

  lemma NothingToMove(refs: seq<Ref>, k: nat, caches: seq<Tensor>, ids: seq<int>, slotStart: int, g: int, c: int)
    requires k < |caches| && BlockBytes(caches[k]) <= 0
    requires forall ref :: ref in refs ==> WellMadeRef(ref, caches, ids, slotStart)
    ensures !LayerMoves(refs, k, g, c) && !exists l, i, j :: IsPair(caches[k], ids, slotStart, l, i, j, g, c)
  {
    forall ref | ref in refs && ref.group == k ensures !Pairs(ref, g, c) {
      var l, i, n :| IsAbout(ref, caches[k], ids, slotStart, l, i, n);
      NotPositive(n, BlockBytes(caches[k]));
    }
  }

  lemma NotPositive(n: int, b: int)
    requires n >= 0 && b <= 0
    ensures n * b <= 0
  {
  }

  lemma GroupMoves(refs: seq<Ref>, layer: nat, g: int, c: int)
    ensures LayerMoves(refs, layer, g, c) <==> exists ref :: ref in OfGroup(refs, layer) && Pairs(ref, g, c)
  {
    hide Pairs;
    forall ref ensures ref in OfGroup(refs, layer) <==> ref in refs && ref.group == layer {
      OfGroupMembers(refs, layer, ref);
    }
  }

  // ---------- the code ----------

  /** make_vllm_layer_range_refs_from_ids: layers, lanes and runs, in this nesting. */
  method MakeLayerRangeRefs(ids: seq<int>, caches: seq<Tensor>, slotStart: int) returns (r: Result<seq<Ref>, RefError>)
    ensures r == AllRefs(ids, caches, slotStart)
    ensures r == Err(TooFewDimensions) <==> exists k :: 0 <= k < |caches| && caches[k].dims < 2
    ensures r.Ok? ==> forall ref :: ref in r.value ==> WellMadeRef(ref, caches, ids, slotStart)
    ensures r.Ok? ==> forall k :: 0 <= k < |caches| ==> PairsBlocks(r.value, k, caches[k], ids, slotStart)
  {
    hide WellMadeRef, PairsBlocks, LayerRefs;
    FailsForFlatTensor(ids, caches, slotStart);
    var refs := [];
    for layer := 0 to |caches|
      invariant AllRefs(ids, caches[..layer], slotStart) == Ok(refs)
    {
      var t := caches[layer];
      assert caches[..layer + 1][..layer] == caches[..layer];
      var blockBytes := BlockBytesFromTensor(t);
      if blockBytes.Err? {
        RefErrorsStick(ids, caches, slotStart, layer + 1);
        return Err(TooFewDimensions);
      }
      var added := MakeLayerRefs(layer, t, ids, slotStart);
      refs := refs + added;
    }
    assert caches[..|caches|] == caches;
    LayerRangeRefs(ids, caches, slotStart);
    return Ok(refs);
  }

  // ---------- the round trip of all layers ----------

  /** Byte k of block ids[i] in lane l. */
  predicate IsBlockByte(t: Tensor, ids: seq<int>, l: int, i: int, k: int, g: int) {
    && IsLane(t, l) && 0 <= i < |ids| && 0 <= k < t.stride1 * t.elementSize
    && g == (l * t.stride0 + ids[i] * t.stride1) * t.elementSize + k
  }

  lemma BlockByteIsGpuByte(t: Tensor, ids: seq<int>, l: int, i: int, k: int, g: int)
    requires IsBlockByte(t, ids, l, i, k, g)
    ensures IsGpuByte(t, ids, l, i, k, g)
  {
    LanesAre(t);
    AddressIs(t, l, ids[i]);
  }

  /**
    Saving and restoring all layers with the references the code makes: each layer's tensor goes through
    its own backing, and in every layer and lane byte k of the i-th saved block comes back as byte k of
    the i-th restored block, for lists of the same length; in lane 0 also for a shorter restore list.
   */
  lemma LayersRoundTrip<B>(caches: seq<Tensor>, blocks: nat, saved: seq<int>, restored: seq<int>, slotStart: nat,
                           gpu: seq<seq<B>>, cpu: seq<seq<B>>, gpu': seq<seq<B>>, save: seq<seq<Step>>,
                           restore: seq<seq<Step>>, layer: nat, l: int, i: int, k: int, g: int, g': int)
    requires layer < |caches| == |gpu| == |cpu| == |gpu'| == |save| == |restore|
    requires AllRefs(saved, caches, slotStart).Ok? && AllRefs(restored, caches, slotStart).Ok?
    requires Setting(caches[layer], blocks, saved, restored, slotStart, gpu[layer], cpu[layer], gpu'[layer])
    requires |saved| == |restored| || l == 0
    requires Interleaves(save[layer], SaveChunks(OfGroup(AllRefs(saved, caches, slotStart).value, layer)))
    requires Interleaves(restore[layer], RestoreChunks(OfGroup(AllRefs(restored, caches, slotStart).value, layer)))
    requires IsBlockByte(caches[layer], restored, l, i, k, g') && IsBlockByte(caches[layer], saved, l, i, k, g)
    ensures StepsFit(save[layer], |gpu[layer]|, |cpu[layer]|) && StepsFit(restore[layer], |cpu[layer]|, |gpu'[layer]|)
    ensures 0 <= g < |gpu[layer]| && 0 <= g' < |gpu'[layer]|
    ensures Perform(restore[layer], Perform(save[layer], gpu[layer], cpu[layer]), gpu'[layer])[g'] == gpu[layer][g]
  {
    hide Setting, Interleaves, IsBlockByte, IsGpuByte, RequestRefs, AllRefs, StepsFit, Perform, SaveChunks,
      RestoreChunks;
    LayersAreGroups(saved, caches, slotStart);
    LayersAreGroups(restored, caches, slotStart);
    BlockByteIsGpuByte(caches[layer], restored, l, i, k, g');
    BlockByteIsGpuByte(caches[layer], saved, l, i, k, g);
    RoundTrip(layer, caches[layer], blocks, saved, restored, slotStart, gpu[layer], cpu[layer], gpu'[layer],
              save[layer], restore[layer], l, i, k, g, g');
  }
}
