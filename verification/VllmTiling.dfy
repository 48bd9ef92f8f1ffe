/**
  The CPU side of a block request. In each layer the CPU ranges of the references, in list
  order, tile one interval without gap or overlap, and with slot start 0 that interval fits
  every backing group the pool hands out for this block count, fresh or reused.
 */
module VllmTiling {
  import opened Common
  import opened VllmRanges
  import opened VllmRoundTrip

  // ---------- tiling ----------

  /** The CPU ranges follow one another without gap or overlap from `low` up to `high`. */
  predicate Tiles(refs: seq<Ref>, low: int, high: int) {
    if refs == [] then low == high
    else
      var last := refs[|refs| - 1];
      Tiles(refs[..|refs| - 1], low, last.cpuOffset) && last.cpuOffset + last.bytes == high
  }

  predicate CpuByteOf(ref: Ref, c: int) { ref.cpuOffset <= c < ref.cpuOffset + ref.bytes }

  lemma {:induction false} TilesAppend(a: seq<Ref>, b: seq<Ref>, low: int, middle: int, high: int)
    requires Tiles(a, low, middle) && Tiles(b, middle, high)
    ensures Tiles(a + b, low, high)
  {
    if b == [] {
      assert a + b == a;
    } else {
      assert (a + b)[..|a + b| - 1] == a + b[..|b| - 1];
      TilesAppend(a, b[..|b| - 1], low, middle, b[|b| - 1].cpuOffset);
    }
  }

  lemma RunRefCpu(layer: nat, t: Tensor, n: nat, slotStart: int, lane: int, run: IdRun)
    requires run.ids != []
    ensures var ref := RunRef(layer, t, n, slotStart, lane, run);
            && ref.cpuOffset == (slotStart + lane * n + run.start) * BlockBytes(t)
            && ref.cpuOffset + ref.bytes == (slotStart + lane * n + run.start + |run.ids|) * BlockBytes(t)
  {
    var slot := slotStart + lane * n + run.start;
    assert slot * BlockBytes(t) + |run.ids| * BlockBytes(t) == (slot + |run.ids|) * BlockBytes(t);
  }

  /** The runs of one lane tile that lane's slots, however the block ids are cut into runs. */
  lemma {:induction false} LaneTiles(layer: nat, t: Tensor, n: nat, slotStart: int, lane: int, runs: seq<IdRun>)
    requires RunList(runs)
    ensures Tiles(LaneRefs(layer, t, n, slotStart, lane, runs),
                  (slotStart + lane * n) * BlockBytes(t), (slotStart + lane * n + |Joined(runs)|) * BlockBytes(t))
  {
    hide RunRef, BlockBytes;
    var refs := LaneRefs(layer, t, n, slotStart, lane, runs);
    if runs != [] {
      var m := |runs| - 1;
      LaneTiles(layer, t, n, slotStart, lane, runs[..m]);
      assert refs[..m] == LaneRefs(layer, t, n, slotStart, lane, runs[..m]);
      RunRefCpu(layer, t, n, slotStart, lane, runs[m]);
    }
  }

  lemma {:induction false} LanesTile(layer: nat, t: Tensor, ids: seq<int>, slotStart: int, lanes: nat)
    ensures Tiles(LayerRefs(layer, t, ids, slotStart, lanes),
                  slotStart * BlockBytes(t), (slotStart + lanes * |ids|) * BlockBytes(t))
    decreases lanes
  {
    hide LaneRefs, BlockBytes, RunList, Runs, Tiles;
    if lanes == 0 {
      NoRefsTile(slotStart * BlockBytes(t));
    } else {
      LanesTile(layer, t, ids, slotStart, lanes - 1);
      RunsAreRunList(ids);
      NextLaneTiles(layer, t, ids, slotStart, lanes - 1, LayerRefs(layer, t, ids, slotStart, lanes - 1));
    }
  }

  lemma NoRefsTile(at: int)
    ensures Tiles([], at, at)
  {
  }

  lemma NextLaneTiles(layer: nat, t: Tensor, ids: seq<int>, slotStart: int, lane: nat, before: seq<Ref>)
    requires Tiles(before, slotStart * BlockBytes(t), (slotStart + lane * |ids|) * BlockBytes(t))
    requires RunList(Runs(ids))
    ensures Tiles(before + LaneRefs(layer, t, |ids|, slotStart, lane, Runs(ids)),
                  slotStart * BlockBytes(t), (slotStart + (lane + 1) * |ids|) * BlockBytes(t))
  {
    hide LaneRefs, BlockBytes, RunList, Runs, Tiles;
    RunsAreRunList(ids);
    LaneTiles(layer, t, |ids|, slotStart, lane, Runs(ids));
    assert slotStart + lane * |ids| + |ids| == slotStart + (lane + 1) * |ids|;
    TilesAppend(before, LaneRefs(layer, t, |ids|, slotStart, lane, Runs(ids)),
                slotStart * BlockBytes(t), (slotStart + lane * |ids|) * BlockBytes(t),
                (slotStart + (lane + 1) * |ids|) * BlockBytes(t));
  }

  lemma {:induction false} TilesOrdered(refs: seq<Ref>, low: int, high: int, r: nat)
    requires Tiles(refs, low, high) && r < |refs|
    requires forall i :: 0 <= i < |refs| ==> refs[i].bytes >= 0
    ensures low <= refs[r].cpuOffset && refs[r].cpuOffset + refs[r].bytes <= high
  {
    var m := |refs| - 1;
    if m > 0 {
      TilesOrdered(refs[..m], low, refs[m].cpuOffset, if r < m then r else 0);
    }
  }

  /** A tiling holds every byte of its interval in exactly one range and nothing outside it. */
  lemma {:induction false} TiledOnce(refs: seq<Ref>, low: int, high: int, c: int)
    requires Tiles(refs, low, high)
    requires forall i :: 0 <= i < |refs| ==> refs[i].bytes >= 0
    ensures (exists r :: 0 <= r < |refs| && CpuByteOf(refs[r], c)) <==> low <= c < high
    ensures forall r, r' :: 0 <= r < |refs| && 0 <= r' < |refs| && CpuByteOf(refs[r], c) && CpuByteOf(refs[r'], c) ==>
              r == r'
  {
    if refs != [] {
      var m := |refs| - 1;
      var (init, middle) := (refs[..m], refs[m].cpuOffset);
      TiledOnce(init, low, middle, c);
      assert middle <= high;
      if m > 0 {
        TilesOrdered(init, low, middle, 0);
      }
      if low <= c < middle {
        var r :| 0 <= r < m && CpuByteOf(init[r], c);
        assert CpuByteOf(refs[r], c);
      } else if middle <= c < high {
        assert CpuByteOf(refs[m], c);
      }
      assert forall r :: 0 <= r < m ==> refs[r] == init[r];
    }
  }

  lemma RefBytes(layer: nat, t: Tensor, ids: seq<int>, slotStart: int, lanes: int)
    requires BlockBytes(t) >= 0
    ensures forall i :: 0 <= i < |LayerRefs(layer, t, ids, slotStart, lanes)| ==>
              LayerRefs(layer, t, ids, slotStart, lanes)[i].bytes >= 0
    decreases lanes
  {
    if lanes > 0 {
      RefBytes(layer, t, ids, slotStart, lanes - 1);
      RunsAreRunList(ids);
      var added := LaneRefs(layer, t, |ids|, slotStart, lanes - 1, Runs(ids));
      forall i | 0 <= i < |added| ensures added[i].bytes >= 0 {
        Product(|Runs(ids)[i].ids|, BlockBytes(t));
      }
    }
  }

  lemma Product(a: int, b: int)
    requires a >= 0 && b >= 0
    ensures a * b >= 0
  {
  }

  /** Every CPU byte of a layer's interval belongs to exactly one reference, and no other byte to any. */
  lemma RequestTilesOnce(layer: nat, t: Tensor, ids: seq<int>, slotStart: int, c: int)
    requires BlockBytes(t) >= 0 && Lanes(t) >= 0
    ensures var refs := LayerRefs(layer, t, ids, slotStart, Lanes(t));
            && ((exists r :: 0 <= r < |refs| && CpuByteOf(refs[r], c))
                <==> slotStart * BlockBytes(t) <= c < (slotStart + Lanes(t) * |ids|) * BlockBytes(t))
            && (forall r, r' ::
                  0 <= r < |refs| && 0 <= r' < |refs| && CpuByteOf(refs[r], c) && CpuByteOf(refs[r'], c) ==> r == r')
  {
    hide LayerRefs, BlockBytes, Tiles;
    LanesTile(layer, t, ids, slotStart, Lanes(t));
    RefBytes(layer, t, ids, slotStart, Lanes(t));
    TiledOnce(LayerRefs(layer, t, ids, slotStart, Lanes(t)), slotStart * BlockBytes(t),
              (slotStart + Lanes(t) * |ids|) * BlockBytes(t), c);
  }

  // ---------- what the pool allocates ----------

  function MaxLanes(caches: seq<Tensor>): int {
    if caches == [] then 1
    else if |caches| == 1 then Lanes(caches[0])
    else Max(MaxLanes(caches[..|caches| - 1]), Lanes(caches[|caches| - 1]))
  }

  function SlotsPerLayer(blockCount: int, caches: seq<Tensor>): int {
    Max(1, blockCount * MaxLanes(caches))
  }

  /** One pair of slots and block bytes per layer; a group of this signature has those sizes. */
  function Signature(blockCount: int, caches: seq<Tensor>): (signature: seq<(int, int)>)
    ensures |signature| == |caches|
    ensures forall k :: 0 <= k < |caches| ==> signature[k] == (SlotsPerLayer(blockCount, caches), BlockBytes(caches[k]))
  {
    seq(|caches|, k requires 0 <= k < |caches| => (SlotsPerLayer(blockCount, caches), BlockBytes(caches[k])))
  }

  function SizesOf(signature: seq<(int, int)>): (sizes: seq<int>)
    ensures |sizes| == |signature|
    ensures forall k :: 0 <= k < |signature| ==> sizes[k] == signature[k].0 * signature[k].1
  {
    seq(|signature|, k requires 0 <= k < |signature| => signature[k].0 * signature[k].1)
  }

  lemma {:induction false} MaxLanesBounds(caches: seq<Tensor>, k: nat)
    requires k < |caches|
    ensures Lanes(caches[k]) <= MaxLanes(caches)
  {
    if |caches| > 1 && k < |caches| - 1 {
      MaxLanesBounds(caches[..|caches| - 1], k);
    }
  }

  /** The lanes of a tensor, by its dimensions. */
  predicate HasLanes(t: Tensor, lanes: int) { if t.dims >= 3 then lanes == t.shape0 else lanes == 1 }

  lemma {:induction false} MostLanes(caches: seq<Tensor>) returns (k: nat)
    requires caches != []
    ensures k < |caches| && HasLanes(caches[k], MaxLanes(caches))
    ensures forall j, lanes :: 0 <= j < |caches| && HasLanes(caches[j], lanes) ==> lanes <= MaxLanes(caches)
  {
    k := 0;
    if |caches| > 1 {
      var m := |caches| - 1;
      var before := MostLanes(caches[..m]);
      assert forall j :: 0 <= j < m ==> caches[..m][j] == caches[j];
      k := if Lanes(caches[m]) >= MaxLanes(caches[..m]) then m else before;
    }
  }

  /** Every layer of a group has room for the blocks in as many lanes as the layer with most lanes, and for one slot. */
  lemma SignatureIs(blockCount: int, caches: seq<Tensor>) returns (lanes: int)
    ensures |SizesOf(Signature(blockCount, caches))| == |caches|
    ensures caches != [] ==> (exists k :: 0 <= k < |caches| && HasLanes(caches[k], lanes))
    ensures forall j, other :: 0 <= j < |caches| && HasLanes(caches[j], other) ==> other <= lanes
    ensures forall k :: 0 <= k < |caches| ==>
              SizesOf(Signature(blockCount, caches))[k]
                == (if blockCount * lanes >= 1 then blockCount * lanes else 1)
                   * (caches[k].stride1 * caches[k].elementSize)
  {
    lanes := MaxLanes(caches);
    if caches != [] {
      var k := MostLanes(caches);
    }
  }

  /**
    With slot start 0, a request of at most `blockCount` blocks fits every group of the signature
    the pool looks up for that count, whether the group was just allocated or released earlier.
    This is the bound the round trip of a save and a restore asks for.
   */
  lemma RequestFitsPooledGroup(caches: seq<Tensor>, k: nat, ids: seq<int>, blockCount: int)
    requires k < |caches| && BlockBytes(caches[k]) >= 0 && Lanes(caches[k]) >= 0 && |ids| <= blockCount
    ensures SizesOf(Signature(blockCount, caches))[k] >= 0
    ensures CpuHolds(caches[k], 0, |ids|, SizesOf(Signature(blockCount, caches))[k])
    ensures forall r, c :: 0 <= r < |LayerRefs(k, caches[k], ids, 0, Lanes(caches[k]))|
                        && CpuByteOf(LayerRefs(k, caches[k], ids, 0, Lanes(caches[k]))[r], c)
              ==> 0 <= c < SizesOf(Signature(blockCount, caches))[k]
  {
    hide LayerRefs, BlockBytes, MaxLanes, Lanes, CpuByteOf;
    var t := caches[k];
    MaxLanesBounds(caches, k);
    SlotsSuffice(Lanes(t), |ids|, MaxLanes(caches), blockCount, BlockBytes(t));
    Product(SlotsPerLayer(blockCount, caches), BlockBytes(t));
    var refs := LayerRefs(k, t, ids, 0, Lanes(t));
    forall r, c | 0 <= r < |refs| && CpuByteOf(refs[r], c) ensures 0 <= c < SizesOf(Signature(blockCount, caches))[k] {
      RequestTilesOnce(k, t, ids, 0, c);
    }
  }

  lemma SlotsSuffice(lanes: int, n: nat, most: int, count: int, b: int)
    requires 0 <= lanes <= most && n <= count && b >= 0
    ensures (0 + lanes * n) * b <= Max(1, count * most) * b
  {
    Product(most - lanes, n);
    Product(count - n, most);
    assert lanes * n <= count * most;
    Product(Max(1, count * most) - lanes * n, b);
  }
}
