/**
  Saving a request's blocks and restoring them into other blocks. Everything is per layer:
  each layer has its own GPU tensor and its own CPU backing.
 */
module VllmRoundTrip {
  import opened Common
  import opened Transfers
  import opened VllmRanges

  /** Positive strides, and lanes that do not overlap. */
  predicate Layout(t: Tensor, blocks: nat) {
    && t.elementSize > 0 && t.stride1 > 0 && Lanes(t) >= 1
    && (Lanes(t) > 1 ==> t.stride0 >= blocks * t.stride1)
  }

  predicate ValidIds(ids: seq<int>, blocks: nat) {
    forall i :: 0 <= i < |ids| ==> 0 <= ids[i] < blocks
  }

  function GpuAt(t: Tensor, lane: int, id: int): int { lane * LaneBytes(t) + id * BlockBytes(t) }

  function CpuAt(t: Tensor, slot: int): int { slot * BlockBytes(t) }

  predicate GpuHolds(t: Tensor, blocks: nat, size: nat) {
    GpuAt(t, Lanes(t) - 1, blocks) <= size
  }

  predicate CpuHolds(t: Tensor, slotStart: nat, n: nat, size: nat) {
    CpuAt(t, slotStart + Lanes(t) * n) <= size
  }

  // ---------- arithmetic ----------

  lemma Gap(a: int, b: int)
    requires a >= 1 && b > 0
    ensures a * b >= b
  {
  }

  lemma QuotientUnique(q: int, k: int, q': int, k': int, b: int)
    requires b > 0 && 0 <= k < b && 0 <= k' < b && q * b + k == q' * b + k'
    ensures q == q' && k == k'
  {
    assert (q - q') * b == k' - k && (q' - q) * b == k - k';
    if q > q' {
      Gap(q - q', b);
    } else if q < q' {
      Gap(q' - q, b);
    }
  }

  lemma Monotone(a: int, b: int, c: int)
    requires a <= b && c >= 0
    ensures a * c <= b * c
  {
  }

  lemma LayoutBytes(t: Tensor, blocks: nat)
    requires Layout(t, blocks)
    ensures BlockBytes(t) > 0
    ensures Lanes(t) > 1 ==> LaneBytes(t) >= blocks * BlockBytes(t)
  {
    if Lanes(t) > 1 {
      Monotone(blocks * t.stride1, t.stride0, t.elementSize);
      assert blocks * t.stride1 * t.elementSize == blocks * (t.stride1 * t.elementSize);
    }
  }

  lemma OffsetIsAddress(t: Tensor, lane: int, id: int)
    requires Lanes(t) == 1 ==> lane == 0
    ensures GpuAt(t, lane, id) == if Lanes(t) == 1 then id * BlockBytes(t)
                                  else (lane * t.stride0 + id * t.stride1) * t.elementSize
  {
    assert (lane * t.stride0 + id * t.stride1) * t.elementSize
        == lane * (t.stride0 * t.elementSize) + id * (t.stride1 * t.elementSize);
  }

  /** Distinct (lane, block, byte) triples have distinct GPU addresses. */
  lemma GpuUnique(t: Tensor, blocks: nat, l: int, id: int, k: int, l': int, id': int, k': int)
    requires Layout(t, blocks) && 0 <= l < Lanes(t) && 0 <= l' < Lanes(t)
    requires 0 <= id < blocks && 0 <= id' < blocks && 0 <= k < BlockBytes(t) && 0 <= k' < BlockBytes(t)
    requires GpuAt(t, l, id) + k == GpuAt(t, l', id') + k'
    ensures l == l' && id == id' && k == k'
  {
    var b := BlockBytes(t);
    LayoutBytes(t, blocks);
    if Lanes(t) > 1 {
      InLane(id, k, blocks, b, LaneBytes(t));
      InLane(id', k', blocks, b, LaneBytes(t));
      QuotientUnique(l, id * b + k, l', id' * b + k', LaneBytes(t));
    }
    assert id * b + k == id' * b + k';
    QuotientUnique(id, k, id', k', b);
  }

  lemma InLane(id: int, k: int, blocks: nat, b: int, lane: int)
    requires b > 0 && 0 <= id < blocks && 0 <= k < b && lane >= blocks * b
    ensures 0 <= id * b + k < lane
  {
    Monotone(0, id, b);
    Monotone(id + 1, blocks, b);
    assert (id + 1) * b == id * b + b;
  }

  lemma GpuInBounds(t: Tensor, blocks: nat, size: nat, l: int, id: int, k: int)
    requires Layout(t, blocks) && GpuHolds(t, blocks, size)
    requires 0 <= l < Lanes(t) && 0 <= id < blocks && 0 <= k < BlockBytes(t)
    ensures 0 <= GpuAt(t, l, id) + k < size
  {
    var b := BlockBytes(t);
    LayoutBytes(t, blocks);
    InLane(id, k, blocks, b, blocks * b);
    if Lanes(t) > 1 {
      Monotone(0, blocks, b);
      Monotone(l, Lanes(t) - 1, LaneBytes(t));
      Monotone(0, l, LaneBytes(t));
    }
  }

  lemma CpuInBounds(t: Tensor, slotStart: nat, n: nat, size: nat, l: int, i: int, k: int)
    requires BlockBytes(t) > 0 && CpuHolds(t, slotStart, n, size)
    requires 0 <= l < Lanes(t) && 0 <= i < n && 0 <= k < BlockBytes(t)
    ensures 0 <= CpuAt(t, slotStart + l * n + i) + k < size
  {
    var b := BlockBytes(t);
    Monotone(0, l, n);
    Monotone(l + 1, Lanes(t), n);
    assert (l + 1) * n == l * n + n;
    Monotone(0, slotStart + l * n + i, b);
    Monotone(slotStart + l * n + i + 1, slotStart + Lanes(t) * n, b);
    assert (slotStart + l * n + i + 1) * b == (slotStart + l * n + i) * b + b;
  }

  // ---------- what the references move ----------

  /** The reference pairs GPU byte g with CPU byte c. */
  predicate Pairs(ref: Ref, g: int, c: int) {
    ref.gpuOffset <= g < ref.gpuOffset + ref.bytes && c - g == ref.cpuOffset - ref.gpuOffset
  }

  /** g is byte k of the i-th listed block in lane l, and c is byte k of its CPU slot. */
  predicate IsByte(t: Tensor, ids: seq<int>, slotStart: int, l: int, i: int, k: int, g: int, c: int) {
    && 0 <= i < |ids| && 0 <= k < BlockBytes(t)
    && g == GpuAt(t, l, ids[i]) + k && c == CpuAt(t, slotStart + l * |ids| + i) + k
  }

  lemma Shift(t: Tensor, l: int, id: int, slot: int, j: int)
    ensures GpuAt(t, l, id + j) == GpuAt(t, l, id) + j * BlockBytes(t)
    ensures CpuAt(t, slot + j) == CpuAt(t, slot) + j * BlockBytes(t)
  {
  }

  lemma RunRefOffsets(t: Tensor, n: nat, slotStart: int, layer: nat, l: nat, run: IdRun)
    requires run.ids != [] && l < Lanes(t)
    ensures var ref := RunRef(layer, t, n, slotStart, l, run);
            && ref.gpuOffset == GpuAt(t, l, run.ids[0])
            && ref.cpuOffset == CpuAt(t, slotStart + l * n + run.start)
            && ref.bytes == |run.ids| * BlockBytes(t)
  {
    OffsetIsAddress(t, l, run.ids[0]);
  }

  lemma SplitOffset(off: int, len: nat, b: int) returns (j: nat, k: int)
    requires b > 0 && 0 <= off < len * b
    ensures j < len && 0 <= k < b && off == j * b + k
  {
    j, k := off / b, off % b;
    if j >= len {
      Monotone(len, j, b);
    }
  }

  lemma JoinOffset(j: nat, k: int, len: nat, b: int)
    requires b > 0 && j < len && 0 <= k < b
    ensures 0 <= j * b + k < len * b
  {
    Monotone(0, j, b);
    Monotone(j + 1, len, b);
    assert (j + 1) * b == j * b + b;
  }

  lemma RunPairsForward(t: Tensor, ids: seq<int>, slotStart: int, layer: nat, l: nat, r: nat, g: int, c: int)
    returns (i: int, k: int)
    requires BlockBytes(t) > 0 && l < Lanes(t) && RunList(Runs(ids)) && Joined(Runs(ids)) == ids
    requires r < |Runs(ids)| && Runs(ids)[r].ids != []
    requires Pairs(RunRef(layer, t, |ids|, slotStart, l, Runs(ids)[r]), g, c)
    ensures IsByte(t, ids, slotStart, l, i, k, g, c)
  {
    hide RunRef, BlockBytes, GpuAt, CpuAt, RunList, Runs;
    var (run, b) := (Runs(ids)[r], BlockBytes(t));
    var slot := slotStart + l * |ids| + run.start;
    RunRefOffsets(t, |ids|, slotStart, layer, l, run);
    var j;
    j, k := SplitOffset(g - GpuAt(t, l, run.ids[0]), |run.ids|, b);
    RunMember(Runs(ids), r, j);
    i := run.start + j;
    Shift(t, l, run.ids[0], slot, j);
  }

  lemma RunPairsBackward(t: Tensor, ids: seq<int>, slotStart: int, layer: nat, l: nat, i: nat, k: int, g: int, c: int)
    returns (r: nat)
    requires BlockBytes(t) > 0 && l < Lanes(t) && RunList(Runs(ids)) && Joined(Runs(ids)) == ids
    requires IsByte(t, ids, slotStart, l, i, k, g, c)
    ensures r < |Runs(ids)| && Runs(ids)[r].ids != []
    ensures Pairs(RunRef(layer, t, |ids|, slotStart, l, Runs(ids)[r]), g, c)
  {
    hide RunRef, BlockBytes, GpuAt, CpuAt, RunList, Runs;
    var j: nat;
    r, j := RunOf(Runs(ids), i);
    RunMember(Runs(ids), r, j);
    var run := Runs(ids)[r];
    var slot := slotStart + l * |ids| + run.start;
    RunRefOffsets(t, |ids|, slotStart, layer, l, run);
    Shift(t, l, run.ids[0], slot, j);
    JoinOffset(j, k, |run.ids|, BlockBytes(t));
  }

  /** Every reference of a layer stems from one lane and one run, and every lane and run has one. */
  lemma {:induction false} LayerRefMembers(layer: nat, t: Tensor, ids: seq<int>, slotStart: int, lanes: int, ref: Ref)
    requires RunList(Runs(ids))
    ensures ref in LayerRefs(layer, t, ids, slotStart, lanes) <==> FromRun(layer, t, ids, slotStart, lanes, ref)
    decreases lanes
  {
    hide RunRef, Runs, RunList;
    if lanes > 0 {
      LayerRefMembers(layer, t, ids, slotStart, lanes - 1, ref);
      var lane := LaneRefs(layer, t, |ids|, slotStart, lanes - 1, Runs(ids));
      if ref in lane {
        var r :| 0 <= r < |lane| && lane[r] == ref;
        assert IsRunRef(layer, t, ids, slotStart, lanes - 1, r, ref);
      }
      if FromRun(layer, t, ids, slotStart, lanes, ref) {
        var l, r :| 0 <= l < lanes && IsRunRef(layer, t, ids, slotStart, l, r, ref);
        if l == lanes - 1 {
          assert lane[r] == ref;
        }
      }
    }
  }

  ghost predicate IsRunRef(layer: nat, t: Tensor, ids: seq<int>, slotStart: int, l: int, r: int, ref: Ref) {
    0 <= r < |Runs(ids)| && Runs(ids)[r].ids != [] && ref == RunRef(layer, t, |ids|, slotStart, l, Runs(ids)[r])
  }

  ghost predicate FromRun(layer: nat, t: Tensor, ids: seq<int>, slotStart: int, lanes: int, ref: Ref) {
    exists l, r :: 0 <= l < lanes && IsRunRef(layer, t, ids, slotStart, l, r, ref)
  }

  // ---------- saves and restores ----------

  function SaveChunk(ref: Ref): Chunk { Chunk(ref.gpuOffset, ref.cpuOffset, ref.bytes, None) }

  function RestoreChunk(ref: Ref): Chunk { Chunk(ref.cpuOffset, ref.gpuOffset, ref.bytes, None) }

  function SaveChunks(refs: seq<Ref>): (cs: seq<Chunk>)
    ensures |cs| == |refs| && forall i :: 0 <= i < |refs| ==> cs[i] == SaveChunk(refs[i])
  {
    seq(|refs|, i requires 0 <= i < |refs| => SaveChunk(refs[i]))
  }

  function RestoreChunks(refs: seq<Ref>): (cs: seq<Chunk>)
    ensures |cs| == |refs| && forall i :: 0 <= i < |refs| ==> cs[i] == RestoreChunk(refs[i])
  {
    seq(|refs|, i requires 0 <= i < |refs| => RestoreChunk(refs[i]))
  }

  function RequestRefs(layer: nat, t: Tensor, ids: seq<int>, slotStart: int): seq<Ref> {
    LayerRefs(layer, t, ids, slotStart, Lanes(t))
  }

  ghost predicate PairedBytes(t: Tensor, ids: seq<int>, slotStart: int, g: int, c: int) {
    exists l, i, k :: 0 <= l < Lanes(t) && IsByte(t, ids, slotStart, l, i, k, g, c)
  }

  /** The references of a request pair exactly the bytes of its blocks with the bytes of its slots. */
  lemma RequestPairs(layer: nat, t: Tensor, ids: seq<int>, slotStart: int, g: int, c: int)
    requires BlockBytes(t) > 0
    ensures (exists ref :: ref in RequestRefs(layer, t, ids, slotStart) && Pairs(ref, g, c))
       <==> PairedBytes(t, ids, slotStart, g, c)
  {
    hide Runs, RunList, RunRef, IsByte, Pairs;
    RunsAreRunList(ids);
    if exists ref :: ref in RequestRefs(layer, t, ids, slotStart) && Pairs(ref, g, c) {
      var ref :| ref in RequestRefs(layer, t, ids, slotStart) && Pairs(ref, g, c);
      LayerRefMembers(layer, t, ids, slotStart, Lanes(t), ref);
      var l, r :| 0 <= l < Lanes(t) && IsRunRef(layer, t, ids, slotStart, l, r, ref);
      var i, k := RunPairsForward(t, ids, slotStart, layer, l, r, g, c);
    }
    if PairedBytes(t, ids, slotStart, g, c) {
      var l, i, k :| 0 <= l < Lanes(t) && IsByte(t, ids, slotStart, l, i, k, g, c);
      ByteIndex(t, ids, slotStart, l, i, k, g, c);
      var r := RunPairsBackward(t, ids, slotStart, layer, l, i, k, g, c);
      var ref := RunRef(layer, t, |ids|, slotStart, l, Runs(ids)[r]);
      assert IsRunRef(layer, t, ids, slotStart, l, r, ref);
      LayerRefMembers(layer, t, ids, slotStart, Lanes(t), ref);
    }
  }

  lemma ByteIndex(t: Tensor, ids: seq<int>, slotStart: int, l: int, i: int, k: int, g: int, c: int)
    requires IsByte(t, ids, slotStart, l, i, k, g, c)
    ensures 0 <= i < |ids|
  {
  }

  lemma SaveCopies(refs: seq<Ref>, g: int, c: int)
    ensures Copies(SaveChunks(refs), g, c) > 0 <==> exists ref :: ref in refs && Pairs(ref, g, c)
  {
    var cs := SaveChunks(refs);
    CopiesPositive(cs, g, c);
    if exists x :: x in cs && Moves(x, g, c) {
      var x :| x in cs && Moves(x, g, c);
      var i :| 0 <= i < |cs| && cs[i] == x;
      assert refs[i] in refs && Pairs(refs[i], g, c);
    }
    if exists ref :: ref in refs && Pairs(ref, g, c) {
      var ref :| ref in refs && Pairs(ref, g, c);
      var i :| 0 <= i < |refs| && refs[i] == ref;
      assert cs[i] in cs && Moves(cs[i], g, c);
    }
  }

  lemma RestoreCopies(refs: seq<Ref>, c: int, g: int)
    ensures Copies(RestoreChunks(refs), c, g) > 0 <==> exists ref :: ref in refs && Pairs(ref, g, c)
  {
    var cs := RestoreChunks(refs);
    CopiesPositive(cs, c, g);
    if exists x :: x in cs && Moves(x, c, g) {
      var x :| x in cs && Moves(x, c, g);
      var i :| 0 <= i < |cs| && cs[i] == x;
      assert refs[i] in refs && Pairs(refs[i], g, c);
    }
    if exists ref :: ref in refs && Pairs(ref, g, c) {
      var ref :| ref in refs && Pairs(ref, g, c);
      var i :| 0 <= i < |refs| && refs[i] == ref;
      assert cs[i] in cs && Moves(cs[i], c, g);
    }
  }

  /** The slots of a request are distinct, so each CPU byte is paired with one GPU byte. */
  lemma CpuSide(t: Tensor, ids: seq<int>, slotStart: int, g: int, g': int, c: int)
    requires BlockBytes(t) > 0 && PairedBytes(t, ids, slotStart, g, c) && PairedBytes(t, ids, slotStart, g', c)
    ensures g == g'
  {
    var l, i, k :| 0 <= l < Lanes(t) && IsByte(t, ids, slotStart, l, i, k, g, c);
    var l', i', k' :| 0 <= l' < Lanes(t) && IsByte(t, ids, slotStart, l', i', k', g', c);
    QuotientUnique(slotStart + l * |ids| + i, k, slotStart + l' * |ids| + i', k', BlockBytes(t));
    QuotientUnique(l, i, l', i', |ids|);
  }

  /** The listed blocks are distinct, so each GPU byte is paired with one CPU byte. */
  lemma GpuSide(t: Tensor, blocks: nat, ids: seq<int>, slotStart: int, g: int, c: int, c': int)
    requires Layout(t, blocks) && ValidIds(ids, blocks) && Distinct(ids)
    requires PairedBytes(t, ids, slotStart, g, c) && PairedBytes(t, ids, slotStart, g, c')
    ensures c == c'
  {
    var l, i, k :| 0 <= l < Lanes(t) && IsByte(t, ids, slotStart, l, i, k, g, c);
    var l', i', k' :| 0 <= l' < Lanes(t) && IsByte(t, ids, slotStart, l', i', k', g, c');
    GpuUnique(t, blocks, l, ids[i], k, l', ids[i'], k');
    assert i == i';
  }

  lemma PairInBounds(t: Tensor, blocks: nat, ids: seq<int>, slotStart: nat, gpuSize: nat, cpuSize: nat, g: int, c: int)
    requires Layout(t, blocks) && ValidIds(ids, blocks)
    requires GpuHolds(t, blocks, gpuSize) && CpuHolds(t, slotStart, |ids|, cpuSize)
    requires PairedBytes(t, ids, slotStart, g, c)
    ensures 0 <= g < gpuSize && 0 <= c < cpuSize
  {
    var l, i, k :| 0 <= l < Lanes(t) && IsByte(t, ids, slotStart, l, i, k, g, c);
    LayoutBytes(t, blocks);
    GpuInBounds(t, blocks, gpuSize, l, ids[i], k);
    CpuInBounds(t, slotStart, |ids|, cpuSize, l, i, k);
  }

  lemma EndsInBounds(ref: Ref, gpuSize: nat, cpuSize: nat)
    requires forall g, c :: Pairs(ref, g, c) ==> 0 <= g < gpuSize && 0 <= c < cpuSize
    ensures Fits(SaveChunk(ref), gpuSize, cpuSize) && Fits(RestoreChunk(ref), cpuSize, gpuSize)
  {
    if ref.bytes > 0 {
      var k := ref.bytes - 1;
      assert Pairs(ref, ref.gpuOffset, ref.cpuOffset);
      assert Pairs(ref, ref.gpuOffset + k, ref.cpuOffset + k);
    }
  }

  lemma RequestFits(layer: nat, t: Tensor, blocks: nat, ids: seq<int>, slotStart: nat, gpuSize: nat, cpuSize: nat)
    requires Layout(t, blocks) && ValidIds(ids, blocks)
    requires GpuHolds(t, blocks, gpuSize) && CpuHolds(t, slotStart, |ids|, cpuSize)
    ensures AllFit(SaveChunks(RequestRefs(layer, t, ids, slotStart)), gpuSize, cpuSize)
    ensures AllFit(RestoreChunks(RequestRefs(layer, t, ids, slotStart)), cpuSize, gpuSize)
  {
    hide Layout, ValidIds, GpuHolds, CpuHolds, PairedBytes, Pairs, RequestRefs;
    var refs := RequestRefs(layer, t, ids, slotStart);
    LayoutBytes(t, blocks);
    forall i | 0 <= i < |refs|
      ensures Fits(SaveChunk(refs[i]), gpuSize, cpuSize) && Fits(RestoreChunk(refs[i]), cpuSize, gpuSize)
    {
      forall g, c | Pairs(refs[i], g, c) ensures 0 <= g < gpuSize && 0 <= c < cpuSize {
        assert refs[i] in refs;
        RequestPairs(layer, t, ids, slotStart, g, c);
        PairInBounds(t, blocks, ids, slotStart, gpuSize, cpuSize, g, c);
      }
      EndsInBounds(refs[i], gpuSize, cpuSize);
    }
  }

  lemma SaveSingleWriter(layer: nat, t: Tensor, ids: seq<int>, slotStart: int)
    requires BlockBytes(t) > 0
    ensures SingleWriter(SaveChunks(RequestRefs(layer, t, ids, slotStart)))
  {
    hide PairedBytes, Pairs, RequestRefs, BlockBytes;
    var refs := RequestRefs(layer, t, ids, slotStart);
    var cs := SaveChunks(refs);
    forall s, s', d | Copies(cs, s, d) > 0 && Copies(cs, s', d) > 0 ensures s == s' {
      SaveCopies(refs, s, d);
      SaveCopies(refs, s', d);
      RequestPairs(layer, t, ids, slotStart, s, d);
      RequestPairs(layer, t, ids, slotStart, s', d);
      CpuSide(t, ids, slotStart, s, s', d);
    }
  }

  lemma RestoreSingleWriter(layer: nat, t: Tensor, blocks: nat, ids: seq<int>, slotStart: int)
    requires Layout(t, blocks) && ValidIds(ids, blocks) && Distinct(ids)
    ensures SingleWriter(RestoreChunks(RequestRefs(layer, t, ids, slotStart)))
  {
    LayoutBytes(t, blocks);
    hide PairedBytes, Pairs, RequestRefs, BlockBytes, Layout, ValidIds, Distinct;
    var refs := RequestRefs(layer, t, ids, slotStart);
    var cs := RestoreChunks(refs);
    forall s, s', d | Copies(cs, s, d) > 0 && Copies(cs, s', d) > 0 ensures s == s' {
      RestoreCopies(refs, s, d);
      RestoreCopies(refs, s', d);
      RequestPairs(layer, t, ids, slotStart, d, s);
      RequestPairs(layer, t, ids, slotStart, d, s');
      GpuSide(t, blocks, ids, slotStart, d, s, s');
    }
  }

  // ---------- the round trip ----------

  /** A layer's GPU tensor, before the save and before the restore, and its CPU backing. */
  ghost predicate Setting<B>(t: Tensor, blocks: nat, saved: seq<int>, restored: seq<int>, slotStart: nat,
                             gpu: seq<B>, cpu: seq<B>, gpu': seq<B>)
  {
    && Layout(t, blocks) && ValidIds(saved, blocks) && ValidIds(restored, blocks) && Distinct(restored)
    && |restored| <= |saved|
    && GpuHolds(t, blocks, |gpu|) && GpuHolds(t, blocks, |gpu'|) && CpuHolds(t, slotStart, |saved|, |cpu|)
  }

  /** The restore list may be shorter, so it uses fewer slots. */
  lemma ShorterFits(t: Tensor, slotStart: nat, n: nat, m: nat, size: nat)
    requires BlockBytes(t) > 0 && Lanes(t) >= 1 && m <= n && CpuHolds(t, slotStart, n, size)
    ensures CpuHolds(t, slotStart, m, size)
  {
    assert Lanes(t) * m <= Lanes(t) * n;
    Monotone(slotStart + Lanes(t) * m, slotStart + Lanes(t) * n, BlockBytes(t));
  }

  /** After the save, every paired CPU byte holds its GPU byte. */
  lemma SavedBytes<B>(layer: nat, t: Tensor, blocks: nat, ids: seq<int>, slotStart: nat, gpu: seq<B>, cpu: seq<B>,
                      steps: seq<Step>, g: int, c: int)
    requires Layout(t, blocks) && ValidIds(ids, blocks) && GpuHolds(t, blocks, |gpu|)
    requires CpuHolds(t, slotStart, |ids|, |cpu|)
    requires Interleaves(steps, SaveChunks(RequestRefs(layer, t, ids, slotStart)))
    requires PairedBytes(t, ids, slotStart, g, c)
    ensures StepsFit(steps, |gpu|, |cpu|) && 0 <= g < |gpu| && 0 <= c < |cpu|
    ensures Perform(steps, gpu, cpu)[c] == gpu[g]
  {
    LayoutBytes(t, blocks);
    hide Layout, ValidIds, GpuHolds, CpuHolds, RequestRefs, BlockBytes, PairedBytes, Pairs, Interleaves, SingleWriter,
      AllFit;
    var refs := RequestRefs(layer, t, ids, slotStart);
    RequestPairs(layer, t, ids, slotStart, g, c);
    SaveCopies(refs, g, c);
    SaveSingleWriter(layer, t, ids, slotStart);
    RequestFits(layer, t, blocks, ids, slotStart, |gpu|, |cpu|);
    AnyInterleaving(steps, SaveChunks(refs), gpu, cpu);
    CopyAllHit(SaveChunks(refs), gpu, cpu, g, c);
  }

  /** After the restore, every paired GPU byte holds its CPU byte. */
  lemma RestoredFromSlot<B>(layer: nat, t: Tensor, blocks: nat, ids: seq<int>, slotStart: nat, cpu: seq<B>, gpu: seq<B>,
                            steps: seq<Step>, g: int, c: int)
    requires Layout(t, blocks) && ValidIds(ids, blocks) && Distinct(ids) && GpuHolds(t, blocks, |gpu|)
    requires CpuHolds(t, slotStart, |ids|, |cpu|)
    requires Interleaves(steps, RestoreChunks(RequestRefs(layer, t, ids, slotStart)))
    requires PairedBytes(t, ids, slotStart, g, c)
    ensures StepsFit(steps, |cpu|, |gpu|) && 0 <= g < |gpu| && 0 <= c < |cpu|
    ensures Perform(steps, cpu, gpu)[g] == cpu[c]
  {
    LayoutBytes(t, blocks);
    hide Layout, ValidIds, Distinct, GpuHolds, CpuHolds, RequestRefs, BlockBytes, PairedBytes, Pairs, Interleaves,
      SingleWriter, AllFit;
    var refs := RequestRefs(layer, t, ids, slotStart);
    RequestPairs(layer, t, ids, slotStart, g, c);
    RestoreCopies(refs, c, g);
    RestoreSingleWriter(layer, t, blocks, ids, slotStart);
    RequestFits(layer, t, blocks, ids, slotStart, |gpu|, |cpu|);
    AnyInterleaving(steps, RestoreChunks(refs), cpu, gpu);
    CopyAllHit(RestoreChunks(refs), cpu, gpu, c, g);
  }

  predicate IsGpuByte(t: Tensor, ids: seq<int>, l: int, i: int, k: int, g: int) {
    0 <= l < Lanes(t) && 0 <= i < |ids| && 0 <= k < BlockBytes(t) && g == GpuAt(t, l, ids[i]) + k
  }

  ghost predicate InBlocks(t: Tensor, ids: seq<int>, g: int) {
    exists l, i, k :: IsGpuByte(t, ids, l, i, k, g)
  }

  lemma PairedInBlocks(t: Tensor, ids: seq<int>, slotStart: int, g: int, c: int)
    requires PairedBytes(t, ids, slotStart, g, c)
    ensures InBlocks(t, ids, g)
  {
    var l, i, k :| 0 <= l < Lanes(t) && IsByte(t, ids, slotStart, l, i, k, g, c);
    assert IsGpuByte(t, ids, l, i, k, g);
  }

  /** A GPU byte outside the restored blocks keeps its value. */
  lemma RestoreTouchesNothingElse<B>(layer: nat, t: Tensor, blocks: nat, ids: seq<int>, slotStart: nat,
                                     cpu: seq<B>, gpu: seq<B>, steps: seq<Step>, g: int)
    requires Layout(t, blocks) && ValidIds(ids, blocks) && Distinct(ids) && GpuHolds(t, blocks, |gpu|)
    requires CpuHolds(t, slotStart, |ids|, |cpu|)
    requires Interleaves(steps, RestoreChunks(RequestRefs(layer, t, ids, slotStart)))
    requires 0 <= g < |gpu| && !InBlocks(t, ids, g)
    ensures StepsFit(steps, |cpu|, |gpu|) && Perform(steps, cpu, gpu)[g] == gpu[g]
  {
    LayoutBytes(t, blocks);
    hide Layout, ValidIds, Distinct, GpuHolds, CpuHolds, RequestRefs, BlockBytes, PairedBytes, Pairs, InBlocks,
         Interleaves, SingleWriter, AllFit;
    var refs := RequestRefs(layer, t, ids, slotStart);
    forall c ensures Copies(RestoreChunks(refs), c, g) == 0 {
      RequestPairs(layer, t, ids, slotStart, g, c);
      RestoreCopies(refs, c, g);
      if PairedBytes(t, ids, slotStart, g, c) {
        PairedInBlocks(t, ids, slotStart, g, c);
      }
    }
    RestoreSingleWriter(layer, t, blocks, ids, slotStart);
    RequestFits(layer, t, blocks, ids, slotStart, |gpu|, |cpu|);
    AnyInterleaving(steps, RestoreChunks(refs), cpu, gpu);
    CopyAllMiss(RestoreChunks(refs), cpu, gpu, g);
  }

  /** A GPU byte of the restored blocks ends up with the saved GPU byte that shares its CPU byte. */
  lemma RestoredThroughSlot<B>(layer: nat, t: Tensor, blocks: nat, saved: seq<int>, restored: seq<int>, slotStart: nat,
                               gpu: seq<B>, cpu: seq<B>, gpu': seq<B>, save: seq<Step>, restore: seq<Step>,
                               g: int, c: int, g': int)
    requires Setting(t, blocks, saved, restored, slotStart, gpu, cpu, gpu')
    requires Interleaves(save, SaveChunks(RequestRefs(layer, t, saved, slotStart)))
    requires Interleaves(restore, RestoreChunks(RequestRefs(layer, t, restored, slotStart)))
    requires PairedBytes(t, saved, slotStart, g, c) && PairedBytes(t, restored, slotStart, g', c)
    ensures StepsFit(save, |gpu|, |cpu|) && StepsFit(restore, |cpu|, |gpu'|)
    ensures 0 <= g < |gpu| && 0 <= g' < |gpu'|
    ensures Perform(restore, Perform(save, gpu, cpu), gpu')[g'] == gpu[g]
  {
    LayoutBytes(t, blocks);
    ShorterFits(t, slotStart, |saved|, |restored|, |cpu|);
    hide Layout, ValidIds, Distinct, GpuHolds, CpuHolds, RequestRefs, BlockBytes, Interleaves, PairedBytes;
    SavedBytes(layer, t, blocks, saved, slotStart, gpu, cpu, save, g, c);
    RestoredFromSlot(layer, t, blocks, restored, slotStart, Perform(save, gpu, cpu), gpu', restore, g', c);
  }

  // ---------- which saved block a restored block gets ----------

  /** Slot number l*m + i, counted with a restore list of length m, in terms of saved lists of length n. */
  function SavedLane(n: nat, m: nat, l: int, i: int): int
    requires n > 0
  {
    (l * m + i) / n
  }

  function SavedIndex(n: nat, m: nat, l: int, i: int): int
    requires n > 0
  {
    (l * m + i) % n
  }

  lemma SlotInUse(l: int, i: int, m: nat, n: nat, lanes: int)
    requires 0 <= l < lanes && 0 <= i < m <= n
    ensures 0 <= l * m + i < lanes * n
  {
    Monotone(0, l, m);
    Monotone(l + 1, lanes, m);
    assert (l + 1) * m == l * m + m;
    assert lanes * m <= lanes * n;
  }

  lemma SavedSlot(l: int, i: int, m: nat, n: nat, lanes: int)
    requires 0 <= l < lanes && 0 <= i < m <= n
    ensures 0 <= SavedLane(n, m, l, i) < lanes && 0 <= SavedIndex(n, m, l, i) < n
    ensures SavedLane(n, m, l, i) * n + SavedIndex(n, m, l, i) == l * m + i
  {
    SlotInUse(l, i, m, n, lanes);
    var q := l * m + i;
    assert q == (q / n) * n + q % n;
    if q / n >= lanes {
      Monotone(lanes, q / n, n);
    }
    if q / n < 0 {
      Monotone(q / n, -1, n);
    }
  }

  lemma SameSlot(t: Tensor, saved: seq<int>, restored: seq<int>, slotStart: int, l: int, i: int, k: int, g': int,
                 c: int)
    returns (g: int)
    requires |restored| <= |saved| && 0 <= l < Lanes(t) && IsByte(t, restored, slotStart, l, i, k, g', c)
    ensures var (n, m) := (|saved|, |restored|);
            && n > 0
            && 0 <= SavedLane(n, m, l, i) < Lanes(t)
            && IsByte(t, saved, slotStart, SavedLane(n, m, l, i), SavedIndex(n, m, l, i), k, g, c)
            && g == GpuAt(t, SavedLane(n, m, l, i), saved[SavedIndex(n, m, l, i)]) + k
  {
    var (n, m) := (|saved|, |restored|);
    SavedSlot(l, i, m, n, Lanes(t));
    hide SavedLane, SavedIndex, GpuAt, BlockBytes, Lanes;
    g := GpuAt(t, SavedLane(n, m, l, i), saved[SavedIndex(n, m, l, i)]) + k;
    assert slotStart + SavedLane(n, m, l, i) * n + SavedIndex(n, m, l, i) == slotStart + l * m + i;
  }

  /**
    What a restore brings back, for any restore list up to the length of the saved one: block i
    of lane l gets the saved lane and index that its slot number stands for. The bytes of both
    transfers may land in any order.
   */
  lemma RestoreAfterSave<B>(layer: nat, t: Tensor, blocks: nat, saved: seq<int>, restored: seq<int>, slotStart: nat,
                            gpu: seq<B>, cpu: seq<B>, gpu': seq<B>, save: seq<Step>, restore: seq<Step>,
                            l: int, i: int, k: int, g: int, g': int)
    requires Setting(t, blocks, saved, restored, slotStart, gpu, cpu, gpu')
    requires Interleaves(save, SaveChunks(RequestRefs(layer, t, saved, slotStart)))
    requires Interleaves(restore, RestoreChunks(RequestRefs(layer, t, restored, slotStart)))
    requires IsGpuByte(t, restored, l, i, k, g') && saved != []
    requires IsGpuByte(t, saved, SavedLane(|saved|, |restored|, l, i), SavedIndex(|saved|, |restored|, l, i), k, g)
    ensures StepsFit(save, |gpu|, |cpu|) && StepsFit(restore, |cpu|, |gpu'|)
    ensures 0 <= g < |gpu| && 0 <= g' < |gpu'|
    ensures Perform(restore, Perform(save, gpu, cpu), gpu')[g'] == gpu[g]
  {
    hide Layout, ValidIds, Distinct, GpuHolds, CpuHolds, RequestRefs, GpuAt, BlockBytes, Interleaves, SavedLane,
      SavedIndex;
    var c := CpuAt(t, slotStart + l * |restored| + i) + k;
    assert IsByte(t, restored, slotStart, l, i, k, g', c);
    var g0 := SameSlot(t, saved, restored, slotStart, l, i, k, g', c);
    RestoredThroughSlot(layer, t, blocks, saved, restored, slotStart, gpu, cpu, gpu', save, restore, g, c, g');
  }

  lemma MatchingSlot(n: nat, m: nat, l: int, i: int, lanes: int)
    requires 0 <= l < lanes && 0 <= i < m <= n && (m == n || l == 0)
    ensures SavedLane(n, m, l, i) == l && SavedIndex(n, m, l, i) == i
  {
    SavedSlot(l, i, m, n, lanes);
    QuotientUnique(SavedLane(n, m, l, i), SavedIndex(n, m, l, i), l, i, n);
  }

  /**
    Lists of the same length, however they split into runs: byte k of the i-th saved block, in
    each lane, comes back as byte k of the i-th restored block. For a shorter restore list the
    same holds in lane 0.
   */
  lemma RoundTrip<B>(layer: nat, t: Tensor, blocks: nat, saved: seq<int>, restored: seq<int>, slotStart: nat,
                     gpu: seq<B>, cpu: seq<B>, gpu': seq<B>, save: seq<Step>, restore: seq<Step>,
                     l: int, i: int, k: int, g: int, g': int)
    requires Setting(t, blocks, saved, restored, slotStart, gpu, cpu, gpu') && (|saved| == |restored| || l == 0)
    requires Interleaves(save, SaveChunks(RequestRefs(layer, t, saved, slotStart)))
    requires Interleaves(restore, RestoreChunks(RequestRefs(layer, t, restored, slotStart)))
    requires IsGpuByte(t, restored, l, i, k, g') && IsGpuByte(t, saved, l, i, k, g)
    ensures StepsFit(save, |gpu|, |cpu|) && StepsFit(restore, |cpu|, |gpu'|)
    ensures 0 <= g < |gpu| && 0 <= g' < |gpu'|
    ensures Perform(restore, Perform(save, gpu, cpu), gpu')[g'] == gpu[g]
  {
    MatchingSlot(|saved|, |restored|, l, i, Lanes(t));
    hide Layout, ValidIds, Distinct, GpuHolds, CpuHolds, Interleaves, RequestRefs, GpuAt, BlockBytes, SavedLane,
      SavedIndex;
    RestoreAfterSave(layer, t, blocks, saved, restored, slotStart, gpu, cpu, gpu', save, restore, l, i, k, g, g');
  }

  /** A restore list of length m reads, in every lane and at every position, the matching saved slot. */
  ghost predicate ReadsMatchingSlots(n: nat, m: nat, lanes: int)
    requires m <= n
  {
    forall l, i :: 0 <= l < lanes && 0 <= i < m ==> SavedLane(n, m, l, i) == l && SavedIndex(n, m, l, i) == i
  }

  /**
    The CPU slot depends on the length of the block list, so a restore list that was cut short
    matches the saved slots in all lanes if and only if it is empty or there is a single lane.
   */
  lemma ShortRestoreMatchesIff(n: nat, m: nat, lanes: int)
    requires m <= n && lanes >= 1
    ensures ReadsMatchingSlots(n, m, lanes) <==> m == n || m == 0 || lanes == 1
  {
    if m == n || m == 0 || lanes == 1 {
      forall l, i | 0 <= l < lanes && 0 <= i < m ensures SavedLane(n, m, l, i) == l && SavedIndex(n, m, l, i) == i {
        MatchingSlot(n, m, l, i, lanes);
      }
    } else {
      LaneOneReadsLaneZero(n, m);
    }
  }

  lemma LaneOneReadsLaneZero(n: nat, m: nat)
    requires 0 < m < n
    ensures SavedLane(n, m, 1, 0) == 0 && SavedIndex(n, m, 1, 0) == m
  {
    assert 1 * m + 0 == m;
    QuotientUnique(m / n, m % n, 0, m, n);
  }

  /** A cut restore into a tensor of two or more lanes puts saved lane 0 data where lane 1 belongs. */
  lemma ShortRestoreMixesLanes<B>(layer: nat, t: Tensor, blocks: nat, saved: seq<int>, restored: seq<int>,
                                  slotStart: nat,
                                  gpu: seq<B>, cpu: seq<B>, gpu': seq<B>, save: seq<Step>, restore: seq<Step>,
                                  k: int, g: int, g': int)
    requires Setting(t, blocks, saved, restored, slotStart, gpu, cpu, gpu')
    requires Interleaves(save, SaveChunks(RequestRefs(layer, t, saved, slotStart)))
    requires Interleaves(restore, RestoreChunks(RequestRefs(layer, t, restored, slotStart)))
    requires 0 < |restored| < |saved|
    requires IsGpuByte(t, restored, 1, 0, k, g') && IsGpuByte(t, saved, 0, |restored|, k, g)
    ensures StepsFit(save, |gpu|, |cpu|) && StepsFit(restore, |cpu|, |gpu'|)
    ensures 0 <= g < |gpu| && 0 <= g' < |gpu'|
    ensures Perform(restore, Perform(save, gpu, cpu), gpu')[g'] == gpu[g]
  {
    LaneOneReadsLaneZero(|saved|, |restored|);
    hide Layout, ValidIds, Distinct, GpuHolds, CpuHolds, Interleaves, RequestRefs, GpuAt, BlockBytes, SavedLane,
      SavedIndex;
    RestoreAfterSave(layer, t, blocks, saved, restored, slotStart, gpu, cpu, gpu', save, restore, 1, 0, k, g, g');
  }
}
