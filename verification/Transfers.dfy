/**
  What a list of byte ranges means. A range, a planner chunk and a vLLM block
  reference all say the same thing: copy `bytes` bytes from `src` in one buffer to
  `dst` in another. `Copies` counts how often a list moves source byte s onto target
  byte d; two lists with the same counts mean the same transfer.
 */
module Transfers {
  import opened Common

  datatype Chunk = Chunk(src: int, dst: int, bytes: int, relay: Option<int>)

  predicate Moves(c: Chunk, s: int, d: int) {
    c.src <= s < c.src + c.bytes && d - s == c.dst - c.src
  }

  function Copies(cs: seq<Chunk>, s: int, d: int): nat {
    if cs == [] then 0
    else Copies(cs[..|cs| - 1], s, d) + if Moves(cs[|cs| - 1], s, d) then 1 else 0
  }

  function TotalBytes(cs: seq<Chunk>): int {
    if cs == [] then 0 else TotalBytes(cs[..|cs| - 1]) + cs[|cs| - 1].bytes
  }

  ghost predicate SameMeaning(a: seq<Chunk>, b: seq<Chunk>) {
    forall s, d :: Copies(a, s, d) == Copies(b, s, d)
  }

  /** No target byte is written from two different source bytes. */
  ghost predicate SingleWriter(cs: seq<Chunk>) {
    forall s, s', d :: Copies(cs, s, d) > 0 && Copies(cs, s', d) > 0 ==> s == s'
  }

  predicate DisjointTargets(cs: seq<Chunk>) {
    forall i, j :: 0 <= i < j < |cs| && cs[i].bytes > 0 && cs[j].bytes > 0 ==>
      cs[i].dst + cs[i].bytes <= cs[j].dst || cs[j].dst + cs[j].bytes <= cs[i].dst
  }

  predicate DisjointSources(cs: seq<Chunk>) {
    forall i, j :: 0 <= i < j < |cs| && cs[i].bytes > 0 && cs[j].bytes > 0 ==>
      cs[i].src + cs[i].bytes <= cs[j].src || cs[j].src + cs[j].bytes <= cs[i].src
  }

  predicate Fits(c: Chunk, sourceSize: nat, targetSize: nat) {
    c.bytes > 0 ==>
      0 <= c.src && c.src + c.bytes <= sourceSize && 0 <= c.dst && c.dst + c.bytes <= targetSize
  }

  predicate AllFit(cs: seq<Chunk>, sourceSize: nat, targetSize: nat) {
    forall c :: c in cs ==> Fits(c, sourceSize, targetSize)
  }

  // ---------- counting ----------

  lemma {:induction false} CopiesAppend(a: seq<Chunk>, b: seq<Chunk>, s: int, d: int)
    ensures Copies(a + b, s, d) == Copies(a, s, d) + Copies(b, s, d)
  {
    if b == [] {
      assert a + b == a;
    } else {
      assert (a + b)[..|a + b| - 1] == a + b[..|b| - 1];
      CopiesAppend(a, b[..|b| - 1], s, d);
    }
  }

  lemma {:induction false} TotalAppend(a: seq<Chunk>, b: seq<Chunk>)
    ensures TotalBytes(a + b) == TotalBytes(a) + TotalBytes(b)
  {
    if b == [] {
      assert a + b == a;
    } else {
      assert (a + b)[..|a + b| - 1] == a + b[..|b| - 1];
      TotalAppend(a, b[..|b| - 1]);
    }
  }

  /** A positive count has a witness, and every witness gives a positive count. */
  lemma {:induction false} CopiesPositive(cs: seq<Chunk>, s: int, d: int)
    ensures Copies(cs, s, d) > 0 <==> exists c :: c in cs && Moves(c, s, d)
  {
    if cs != [] {
      var init, last := cs[..|cs| - 1], cs[|cs| - 1];
      CopiesPositive(init, s, d);
      assert cs == init + [last];
      assert forall c :: c in cs <==> c in init || c == last;
    }
  }

  lemma DisjointIsSingleWriter(cs: seq<Chunk>)
    requires DisjointTargets(cs)
    ensures SingleWriter(cs)
  {
    forall s, s', d | Copies(cs, s, d) > 0 && Copies(cs, s', d) > 0 ensures s == s' {
      CopiesPositive(cs, s, d);
      CopiesPositive(cs, s', d);
      var c :| c in cs && Moves(c, s, d);
      var c' :| c' in cs && Moves(c', s', d);
      var i :| 0 <= i < |cs| && cs[i] == c;
      var j :| 0 <= j < |cs| && cs[j] == c';
    }
  }

  // ---------- copying whole ranges, in list order ----------

  function CopyRange<B>(c: Chunk, source: seq<B>, target: seq<B>): (result: seq<B>)
    requires Fits(c, |source|, |target|)
    ensures |result| == |target|
    ensures forall d :: 0 <= d < |target| ==>
      result[d] == if c.bytes > 0 && c.dst <= d < c.dst + c.bytes then source[c.src + (d - c.dst)] else target[d]
  {
    if c.bytes <= 0 then target
    else target[..c.dst] + source[c.src..c.src + c.bytes] + target[c.dst + c.bytes..]
  }

  function CopyAll<B>(cs: seq<Chunk>, source: seq<B>, target: seq<B>): (result: seq<B>)
    requires AllFit(cs, |source|, |target|)
    ensures |result| == |target|
  {
    if cs == [] then target
    else CopyRange(cs[|cs| - 1], source, CopyAll(cs[..|cs| - 1], source, target))
  }

  lemma {:induction false} CopyAllHit<B>(cs: seq<Chunk>, source: seq<B>, target: seq<B>, s: int, d: int)
    requires AllFit(cs, |source|, |target|) && SingleWriter(cs) && Copies(cs, s, d) > 0
    ensures 0 <= s < |source| && 0 <= d < |target| && CopyAll(cs, source, target)[d] == source[s]
  {
    var init, last := cs[..|cs| - 1], cs[|cs| - 1];
    CopiesPositive(cs, s, d);
    if exists s' :: Moves(last, s', d) {
      var s' :| Moves(last, s', d);
      assert Copies(cs, s', d) > 0;
    } else {
      forall s, s', d | Copies(init, s, d) > 0 && Copies(init, s', d) > 0 ensures s == s' {
        assert Copies(cs, s, d) > 0 && Copies(cs, s', d) > 0;
      }
      CopyAllHit(init, source, target, s, d);
      assert !Moves(last, last.src + (d - last.dst), d);
    }
  }

  lemma {:induction false} CopyAllMiss<B>(cs: seq<Chunk>, source: seq<B>, target: seq<B>, d: int)
    requires AllFit(cs, |source|, |target|) && 0 <= d < |target|
    requires forall s :: Copies(cs, s, d) == 0
    ensures CopyAll(cs, source, target)[d] == target[d]
  {
    if cs != [] {
      var init, last := cs[..|cs| - 1], cs[|cs| - 1];
      forall s ensures Copies(init, s, d) == 0 {
        assert Copies(cs, s, d) == 0;
      }
      CopyAllMiss(init, source, target, d);
      assert Copies(cs, last.src + (d - last.dst), d) == 0;
    }
  }

  /** The order of a list, and how it is cut up, do not matter: only its counts do. */
  lemma SameMeaningSameCopy<B>(a: seq<Chunk>, b: seq<Chunk>, source: seq<B>, target: seq<B>)
    requires AllFit(a, |source|, |target|) && AllFit(b, |source|, |target|)
    requires SameMeaning(a, b) && SingleWriter(a)
    ensures CopyAll(a, source, target) == CopyAll(b, source, target)
  {
    assert SingleWriter(b);
    forall d | 0 <= d < |target|
      ensures CopyAll(a, source, target)[d] == CopyAll(b, source, target)[d]
    {
      if exists s :: Copies(a, s, d) > 0 {
        var s :| Copies(a, s, d) > 0;
        CopyAllHit(a, source, target, s, d);
        CopyAllHit(b, source, target, s, d);
      } else {
        CopyAllMiss(a, source, target, d);
        CopyAllMiss(b, source, target, d);
      }
    }
  }

  // ---------- byte-level interleavings ----------

  /** One byte landing. Chunks on different paths run at the same time, so this is the grain. */
  datatype Step = Step(from: int, to: int)

  predicate StepsFit(steps: seq<Step>, sourceSize: nat, targetSize: nat) {
    forall t :: t in steps ==> 0 <= t.from < sourceSize && 0 <= t.to < targetSize
  }

  function Perform<B>(steps: seq<Step>, source: seq<B>, target: seq<B>): (result: seq<B>)
    requires StepsFit(steps, |source|, |target|)
    ensures |result| == |target|
  {
    if steps == [] then target
    else
      var last := steps[|steps| - 1];
      Perform(steps[..|steps| - 1], source, target)[last.to := source[last.from]]
  }

  /** `steps` lands exactly the bytes of `cs`, each as often as `cs` says, in any order at all. */
  ghost predicate Interleaves(steps: seq<Step>, cs: seq<Chunk>) {
    forall s, d :: multiset(steps)[Step(s, d)] == Copies(cs, s, d)
  }

  lemma {:induction false} PerformHit<B>(steps: seq<Step>, source: seq<B>, target: seq<B>, t: Step)
    requires StepsFit(steps, |source|, |target|) && t in steps
    requires forall a, b :: a in steps && b in steps && a.to == b.to ==> a == b
    ensures Perform(steps, source, target)[t.to] == source[t.from]
  {
    var init, last := steps[..|steps| - 1], steps[|steps| - 1];
    if last.to == t.to {
      assert last == t;
    } else {
      assert steps == init + [last];
      assert t in init;
      PerformHit(init, source, target, t);
    }
  }

  lemma {:induction false} PerformMiss<B>(steps: seq<Step>, source: seq<B>, target: seq<B>, d: int)
    requires StepsFit(steps, |source|, |target|) && 0 <= d < |target|
    requires forall t :: t in steps ==> t.to != d
    ensures Perform(steps, source, target)[d] == target[d]
  {
    if steps != [] {
      PerformMiss(steps[..|steps| - 1], source, target, d);
    }
  }

  lemma InterleavingSteps(steps: seq<Step>, cs: seq<Chunk>, s: int, d: int)
    requires Interleaves(steps, cs)
    ensures Step(s, d) in steps <==> Copies(cs, s, d) > 0
  {
    assert multiset(steps)[Step(s, d)] == Copies(cs, s, d);
    assert Step(s, d) in steps <==> Step(s, d) in multiset(steps);
  }

  lemma InterleavingFits(steps: seq<Step>, cs: seq<Chunk>, sourceSize: nat, targetSize: nat)
    requires Interleaves(steps, cs) && AllFit(cs, sourceSize, targetSize)
    ensures StepsFit(steps, sourceSize, targetSize)
  {
    forall t | t in steps ensures 0 <= t.from < sourceSize && 0 <= t.to < targetSize {
      assert t == Step(t.from, t.to);
      InterleavingSteps(steps, cs, t.from, t.to);
      CopiesPositive(cs, t.from, t.to);
      var c :| c in cs && Moves(c, t.from, t.to);
    }
  }

  /**
    Whatever order the bytes of a single-writer list land in, the target ends up as if
    the ranges had been copied whole, one after the other.
   */
  lemma AnyInterleaving<B>(steps: seq<Step>, cs: seq<Chunk>, source: seq<B>, target: seq<B>)
    requires AllFit(cs, |source|, |target|) && SingleWriter(cs) && Interleaves(steps, cs)
    ensures StepsFit(steps, |source|, |target|)
    ensures Perform(steps, source, target) == CopyAll(cs, source, target)
  {
    InterleavingFits(steps, cs, |source|, |target|);
    forall a, b | a in steps && b in steps && a.to == b.to ensures a == b {
      assert a == Step(a.from, a.to) && b == Step(b.from, b.to);
      InterleavingSteps(steps, cs, a.from, a.to);
      InterleavingSteps(steps, cs, b.from, b.to);
    }
    forall d | 0 <= d < |target|
      ensures Perform(steps, source, target)[d] == CopyAll(cs, source, target)[d]
    {
      if exists s :: Copies(cs, s, d) > 0 {
        var s :| Copies(cs, s, d) > 0;
        InterleavingSteps(steps, cs, s, d);
        CopyAllHit(cs, source, target, s, d);
        PerformHit(steps, source, target, Step(s, d));
      } else {
        forall t | t in steps ensures t.to != d {
          assert t == Step(t.from, t.to);
          InterleavingSteps(steps, cs, t.from, t.to);
        }
        PerformMiss(steps, source, target, d);
        CopyAllMiss(cs, source, target, d);
      }
    }
  }
}
