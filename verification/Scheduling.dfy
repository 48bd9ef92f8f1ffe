/**
  The planner's greedy rule: each chunk goes to the path whose projected finish time
  (bytes already assigned plus this chunk, over the path's weight) is smallest, the
  first such path on ties. Weights are reals, so rounding is outside the model.
 */
module Scheduling {
  import opened Common
  import opened Transfers

  function Size(c: Chunk): real { c.bytes as real }

  function Total(chunks: seq<Chunk>): real {
    if chunks == [] then 0.0 else Total(chunks[..|chunks| - 1]) + Size(chunks[|chunks| - 1])
  }

  /** An assignment names a path for every chunk; the greedy one is only one of many. */
  predicate IsAssignment(chunks: seq<Chunk>, choices: seq<nat>, n: nat) {
    |choices| == |chunks| && forall k :: 0 <= k < |choices| ==> choices[k] < n
  }

  function Bucket(chunks: seq<Chunk>, choices: seq<nat>, i: nat): seq<Chunk>
    requires |choices| == |chunks|
  {
    if chunks == [] then []
    else
      var k := |chunks| - 1;
      Bucket(chunks[..k], choices[..k], i) + if choices[k] == i then [chunks[k]] else []
  }

  function Load(chunks: seq<Chunk>, choices: seq<nat>, i: nat): real
    requires |choices| == |chunks|
  {
    if chunks == [] then 0.0
    else
      var k := |chunks| - 1;
      Load(chunks[..k], choices[..k], i) + if choices[k] == i then Size(chunks[k]) else 0.0
  }

  function Loads(chunks: seq<Chunk>, choices: seq<nat>, n: nat): (loads: seq<real>)
    requires |choices| == |chunks|
    ensures |loads| == n && forall i :: 0 <= i < n ==> loads[i] == Load(chunks, choices, i)
  {
    seq(n, i requires 0 <= i < n => Load(chunks, choices, i))
  }

  predicate Positive(weights: seq<real>) {
    forall i :: 0 <= i < |weights| ==> weights[i] > 0.0
  }

  function Score(load: real, size: real, weight: real): real
    requires weight > 0.0
  {
    (load + size) / weight
  }

  /** The first of the paths 0..k with the smallest projected finish time. */
  function BestPath(loads: seq<real>, weights: seq<real>, size: real, k: nat): (best: nat)
    requires 0 < k <= |loads| == |weights| && Positive(weights)
    ensures best < k
  {
    if k == 1 then 0
    else
      var b := BestPath(loads, weights, size, k - 1);
      if Score(loads[k - 1], size, weights[k - 1]) < Score(loads[b], size, weights[b]) then k - 1 else b
  }

  /** The chosen path is a minimum, and the first one. */
  lemma {:induction false} BestPathIsFirstMinimum(loads: seq<real>, weights: seq<real>, size: real, k: nat, j: nat)
    requires j < k <= |loads| == |weights| && Positive(weights)
    ensures var b := BestPath(loads, weights, size, k);
            if j < b then Score(loads[b], size, weights[b]) < Score(loads[j], size, weights[j])
            else Score(loads[b], size, weights[b]) <= Score(loads[j], size, weights[j])
  {
    if k > 1 {
      var before := BestPath(loads, weights, size, k - 1);
      BestPathIsFirstMinimum(loads, weights, size, k - 1, if j == k - 1 then before else j);
    }
  }

  function GreedyChoices(chunks: seq<Chunk>, weights: seq<real>): (choices: seq<nat>)
    requires |weights| > 0 && Positive(weights)
    ensures IsAssignment(chunks, choices, |weights|)
  {
    if chunks == [] then []
    else
      var k := |chunks| - 1;
      var before := GreedyChoices(chunks[..k], weights);
      before + [BestPath(Loads(chunks[..k], before, |weights|), weights, Size(chunks[k]), |weights|)]
  }

  /** The inner loop of _plan_chunks: scan the paths, keep the first strict improvement. */
  method SelectPath(scores: seq<real>, weights: seq<real>, size: real) returns (selected: nat)
    requires 0 < |scores| == |weights| && Positive(weights)
    ensures selected == BestPath(scores, weights, size, |weights|)
  {
    selected := 0;
    var best: Option<real> := None;
    for index := 0 to |weights|
      invariant index == 0 ==> best == None
      invariant index > 0 ==> selected == BestPath(scores, weights, size, index)
      invariant index > 0 ==> best == Some(Score(scores[selected], size, weights[selected]))
    {
      var score := Score(scores[index], size, weights[index]);
      if best.None? || score < best.value {
        best := Some(score);
        selected := index;
      }
    }
  }

  lemma BucketSnoc(chunks: seq<Chunk>, choices: seq<nat>, c: Chunk, p: nat, i: nat)
    requires |choices| == |chunks|
    ensures Bucket(chunks + [c], choices + [p], i) == Bucket(chunks, choices, i) + if p == i then [c] else []
    ensures Load(chunks + [c], choices + [p], i) == Load(chunks, choices, i) + if p == i then Size(c) else 0.0
  {
    assert (chunks + [c])[..|chunks|] == chunks;
    assert (choices + [p])[..|choices|] == choices;
  }

  lemma GreedySnoc(chunks: seq<Chunk>, weights: seq<real>, c: Chunk)
    requires |weights| > 0 && Positive(weights)
    ensures var before := GreedyChoices(chunks, weights);
            GreedyChoices(chunks + [c], weights)
              == before + [BestPath(Loads(chunks, before, |weights|), weights, Size(c), |weights|)]
  {
    assert (chunks + [c])[..|chunks|] == chunks;
  }

  /** The outer loop of _plan_chunks: the chunk lists and the score list grow side by side. */
  method AssignChunks(chunks: seq<Chunk>, weights: seq<real>)
    returns (lists: seq<seq<Chunk>>, scores: seq<real>)
    requires |weights| > 0 && Positive(weights)
    ensures |lists| == |scores| == |weights|
    ensures forall i :: 0 <= i < |weights| ==> lists[i] == Bucket(chunks, GreedyChoices(chunks, weights), i)
    ensures scores == Loads(chunks, GreedyChoices(chunks, weights), |weights|)
  {
    var n := |weights|;
    lists := seq(n, _ => []);
    scores := seq(n, _ => 0.0);
    for k := 0 to |chunks|
      invariant |lists| == |scores| == n
      invariant forall i :: 0 <= i < n ==> lists[i] == Bucket(chunks[..k], GreedyChoices(chunks[..k], weights), i)
      invariant scores == Loads(chunks[..k], GreedyChoices(chunks[..k], weights), n)
    {
      var chunk := chunks[k];
      var selected := SelectPath(scores, weights, Size(chunk));
      lists := lists[selected := lists[selected] + [chunk]];
      scores := scores[selected := scores[selected] + Size(chunk)];
      assert chunks[..k + 1] == chunks[..k] + [chunk];
      GreedySnoc(chunks[..k], weights, chunk);
      ghost var before := GreedyChoices(chunks[..k], weights);
      forall i | 0 <= i < n
        ensures lists[i] == Bucket(chunks[..k + 1], before + [selected], i)
        ensures scores[i] == Load(chunks[..k + 1], before + [selected], i)
      {
        BucketSnoc(chunks[..k], before, chunk, selected, i);
      }
    }
    assert chunks[..|chunks|] == chunks;
  }

  // ---------- every chunk lands in exactly one bucket ----------

  /** All buckets of paths 0..n, one after the other. */
  function Buckets(chunks: seq<Chunk>, choices: seq<nat>, n: nat): seq<Chunk>
    requires |choices| == |chunks|
  {
    if n == 0 then [] else Buckets(chunks, choices, n - 1) + Bucket(chunks, choices, n - 1)
  }

  lemma {:induction false} BucketsSnoc(chunks: seq<Chunk>, choices: seq<nat>, c: Chunk, p: nat, n: nat)
    requires |choices| == |chunks|
    ensures multiset(Buckets(chunks + [c], choices + [p], n))
         == multiset(Buckets(chunks, choices, n)) + if p < n then multiset{c} else multiset{}
  {
    hide Bucket;
    if n > 0 {
      BucketsSnoc(chunks, choices, c, p, n - 1);
      BucketSnoc(chunks, choices, c, p, n - 1);
      var (all, last) := (Buckets(chunks, choices, n - 1), Bucket(chunks, choices, n - 1));
      var (all', last') := (Buckets(chunks + [c], choices + [p], n - 1), Bucket(chunks + [c], choices + [p], n - 1));
      hide Buckets;
      MultisetJoin(all, last);
      MultisetJoin(all', last');
      MultisetJoin(last, if p == n - 1 then [c] else []);
    }
  }

  lemma MultisetJoin(a: seq<Chunk>, b: seq<Chunk>)
    ensures multiset(a + b) == multiset(a) + multiset(b)
  {
  }

  lemma {:induction false} BucketsEmpty(n: nat)
    ensures Buckets([], [], n) == []
  {
    if n > 0 {
      BucketsEmpty(n - 1);
    }
  }

  /** The buckets hold each chunk exactly as often as the chunk list does. */
  lemma {:induction false} BucketsArePermutation(chunks: seq<Chunk>, choices: seq<nat>, n: nat)
    requires IsAssignment(chunks, choices, n)
    ensures multiset(Buckets(chunks, choices, n)) == multiset(chunks)
  {
    if chunks == [] {
      BucketsEmpty(n);
      assert chunks == [] && choices == [];
    } else {
      var k := |chunks| - 1;
      assert chunks == chunks[..k] + [chunks[k]] && choices == choices[..k] + [choices[k]];
      BucketsArePermutation(chunks[..k], choices[..k], n);
      BucketsSnoc(chunks[..k], choices[..k], chunks[k], choices[k], n);
    }
  }

  /** Each bucket keeps the order of the chunk list: its k-th member comes from a later index than its (k-1)-th. */
  lemma {:induction false} BucketKeepsOrder(chunks: seq<Chunk>, choices: seq<nat>, i: nat) returns (at: seq<nat>)
    requires |choices| == |chunks|
    ensures |at| == |Bucket(chunks, choices, i)|
    ensures forall k :: 0 <= k < |at| ==> at[k] < |chunks| && choices[at[k]] == i
    ensures forall k :: 0 <= k < |at| ==> chunks[at[k]] == Bucket(chunks, choices, i)[k]
    ensures forall j, k :: 0 <= j < k < |at| ==> at[j] < at[k]
  {
    if chunks == [] {
      at := [];
    } else {
      var k := |chunks| - 1;
      at := BucketKeepsOrder(chunks[..k], choices[..k], i);
      if choices[k] == i {
        at := at + [k];
      }
    }
  }

  lemma {:induction false} LoadIsBucketBytes(chunks: seq<Chunk>, choices: seq<nat>, i: nat)
    requires |choices| == |chunks|
    ensures Load(chunks, choices, i) == TotalBytes(Bucket(chunks, choices, i)) as real
  {
    if chunks != [] {
      var k := |chunks| - 1;
      LoadIsBucketBytes(chunks[..k], choices[..k], i);
      var b := Bucket(chunks[..k], choices[..k], i);
      if choices[k] == i {
        assert (b + [chunks[k]])[..|b|] == b;
      } else {
        assert Bucket(chunks, choices, i) == b;
      }
    }
  }

  // ---------- sums over paths ----------

  function SumTo(s: seq<real>, k: nat): real
    requires k <= |s|
  {
    if k == 0 then 0.0 else SumTo(s, k - 1) + s[k - 1]
  }

  function Sum(s: seq<real>): real { SumTo(s, |s|) }

  lemma {:induction false} SumPositive(s: seq<real>, k: nat)
    requires k <= |s| && Positive(s)
    ensures SumTo(s, k) >= 0.0
    ensures k > 0 ==> SumTo(s, k) > 0.0
  {
    if k > 0 {
      SumPositive(s, k - 1);
    }
  }

  lemma WeightsPositive(weights: seq<real>, i: nat)
    requires i < |weights| && Positive(weights)
    ensures weights[i] > 0.0 && Sum(weights) > 0.0
  {
    SumPositive(weights, |weights|);
  }

  lemma {:induction false} SumBump(a: seq<real>, b: seq<real>, k: nat, p: nat, x: real)
    requires |a| == |b| && k <= |a|
    requires forall j :: 0 <= j < |a| ==> b[j] == a[j] + if j == p then x else 0.0
    ensures SumTo(b, k) == SumTo(a, k) + if p < k then x else 0.0
  {
    if k > 0 {
      SumBump(a, b, k - 1, p, x);
    }
  }

  lemma {:induction false} SumZero(s: seq<real>, k: nat)
    requires k <= |s| && forall j :: 0 <= j < |s| ==> s[j] == 0.0
    ensures SumTo(s, k) == 0.0
  {
    if k > 0 {
      SumZero(s, k - 1);
    }
  }

  /** No byte is lost or invented: the loads of any assignment sum to the total. */
  lemma {:induction false} LoadsSumToTotal(chunks: seq<Chunk>, choices: seq<nat>, n: nat)
    requires IsAssignment(chunks, choices, n)
    ensures Sum(Loads(chunks, choices, n)) == Total(chunks)
  {
    if chunks == [] {
      SumZero(Loads(chunks, choices, n), n);
    } else {
      var k := |chunks| - 1;
      LoadsSumToTotal(chunks[..k], choices[..k], n);
      SumBump(Loads(chunks[..k], choices[..k], n), Loads(chunks, choices, n), n, choices[k], Size(chunks[k]));
    }
  }

  /** a / w <= (l + c) / v, multiplied out. */
  predicate CrossBelow(a: real, v: real, l: real, c: real, w: real) {
    a * v <= (l + c) * w
  }

  lemma ScoreOrderCross(l: real, c: real, w: real, l': real, v: real)
    requires w > 0.0 && v > 0.0 && Score(l, c, w) <= Score(l', c, v)
    ensures CrossBelow(l + c, v, l', c, w)
  {
    var (a, b) := (l + c, l' + c);
    assert a == (a / w) * w && b == (b / v) * v;
    assert (a / w) * (w * v) <= (b / v) * (w * v);
  }

  lemma CrossStep(s: real, l: real, n: real, a: real, v: real, b: real, c: real, w: real)
    requires a * s <= (l + n * c) * w && CrossBelow(a, v, b, c, w)
    ensures a * (s + v) <= (l + b + (n + 1.0) * c) * w
  {
    assert a * (s + v) == a * s + a * v;
    assert (l + n * c) * w + (b + c) * w == (l + b + n * c + c) * w;
    assert n * c + c == (n + 1.0) * c;
  }

  /** If a*w_j <= (l_j + c)*w for every path j, then a*W <= (sum of loads + n*c)*w. */
  lemma {:induction false} CrossSum(loads: seq<real>, weights: seq<real>, k: nat, a: real, c: real, w: real)
    requires k <= |loads| == |weights|
    requires forall j :: 0 <= j < k ==> CrossBelow(a, weights[j], loads[j], c, w)
    ensures a * SumTo(weights, k) <= (SumTo(loads, k) + (k as real) * c) * w
  {
    if k > 0 {
      CrossSum(loads, weights, k - 1, a, c, w);
      CrossStep(SumTo(weights, k - 1), SumTo(loads, k - 1), (k - 1) as real, a, weights[k - 1], loads[k - 1], c, w);
    }
  }

  // ---------- the greedy bound ----------

  predicate SizesUpTo(chunks: seq<Chunk>, largest: real) {
    forall c :: c in chunks ==> 0.0 <= Size(c) <= largest
  }

  lemma {:induction false} TotalNonNegative(chunks: seq<Chunk>, largest: real)
    requires SizesUpTo(chunks, largest)
    ensures Total(chunks) >= 0.0
  {
    if chunks != [] {
      TotalNonNegative(chunks[..|chunks| - 1], largest);
    }
  }

  /** The chosen path, right after it received chunk c. */
  lemma ChosenPathBound(loads: seq<real>, weights: seq<real>, c: real, p: nat)
    requires 0 < |loads| == |weights| && Positive(weights)
    requires p == BestPath(loads, weights, c, |weights|)
    ensures (loads[p] + c) * Sum(weights) <= (Sum(loads) + (|weights| as real) * c) * weights[p]
  {
    hide SumTo, CrossBelow, BestPath;
    forall j | 0 <= j < |weights|
      ensures CrossBelow(loads[p] + c, weights[j], loads[j], c, weights[p])
    {
      BestPathIsFirstMinimum(loads, weights, c, |weights|, j);
      ScoreOrderCross(loads[p], c, weights[p], loads[j], weights[j]);
    }
    CrossSum(loads, weights, |weights|, loads[p] + c, c, weights[p]);
  }

  /** load * W <= (total + (n - 1) * largest) * w: the bound in product form. */
  predicate Bounded(load: real, sum: real, total: real, n: real, largest: real, w: real) {
    load * sum <= (total + (n - 1.0) * largest) * w
  }

  lemma Scale(w: real, x: real, y: real)
    requires w >= 0.0 && x <= y
    ensures x * w <= y * w
  {
  }

  lemma BoundedWhenChosen(load: real, sum: real, total: real, n: real, c: real, largest: real, w: real)
    requires load * sum <= (total + n * c) * w && n >= 1.0 && c <= largest && w > 0.0
    ensures Bounded(load, sum, total + c, n, largest, w)
  {
    Scale(n - 1.0, c, largest);
    assert n * c == c * (n - 1.0) + c;
    assert largest * (n - 1.0) == (n - 1.0) * largest;
    Scale(w, total + n * c, total + c + (n - 1.0) * largest);
  }

  lemma BoundedWhenSpared(load: real, sum: real, total: real, n: real, c: real, largest: real, w: real)
    requires Bounded(load, sum, total, n, largest, w) && c >= 0.0 && w > 0.0
    ensures Bounded(load, sum, total + c, n, largest, w)
  {
    Scale(w, total + (n - 1.0) * largest, total + c + (n - 1.0) * largest);
  }

  lemma BoundedAtStart(sum: real, n: real, largest: real, w: real)
    requires n >= 1.0 && largest >= 0.0 && w > 0.0
    ensures Bounded(0.0, sum, 0.0, n, largest, w)
  {
    Scale(n - 1.0, 0.0, largest);
    Scale(w, 0.0, (n - 1.0) * largest);
  }

  /** One greedy step, seen from path i. */
  lemma GreedyStep(chunks: seq<Chunk>, weights: seq<real>, c: Chunk, i: nat)
    requires i < |weights| && Positive(weights)
    ensures var (before, n) := (GreedyChoices(chunks, weights), |weights|);
            var p := BestPath(Loads(chunks, before, n), weights, Size(c), n);
            var load := Load(chunks + [c], GreedyChoices(chunks + [c], weights), i);
            if i == p then load * Sum(weights) <= (Total(chunks) + (n as real) * Size(c)) * weights[i]
            else load == Load(chunks, before, i)
  {
    hide Sum, BestPath, Total, GreedyChoices, Load, Bucket, Size;
    var (before, n) := (GreedyChoices(chunks, weights), |weights|);
    var loads := Loads(chunks, before, n);
    var p := BestPath(loads, weights, Size(c), n);
    GreedySnoc(chunks, weights, c);
    BucketSnoc(chunks, before, c, p, i);
    if i == p {
      ChosenPathBound(loads, weights, Size(c), p);
      LoadsSumToTotal(chunks, before, n);
      Substituted(Load(chunks + [c], before + [p], i), loads[p] + Size(c), Sum(loads), Total(chunks),
                  (n as real) * Size(c), weights[p], Sum(weights));
    }
  }

  lemma Substituted(load: real, load': real, sum: real, total: real, c: real, w: real, s: real)
    requires load == load' && sum == total && load' * s <= (sum + c) * w
    ensures load * s <= (total + c) * w
  {
  }

  /** The load of path i after the greedy choices for these chunks keeps the bound. */
  ghost predicate LoadBounded(chunks: seq<Chunk>, weights: seq<real>, largest: real, i: nat)
    requires i < |weights| && Positive(weights)
  {
    Bounded(Load(chunks, GreedyChoices(chunks, weights), i), Sum(weights), Total(chunks), |weights| as real, largest,
            weights[i])
  }

  lemma LoadBoundedStep(init: seq<Chunk>, weights: seq<real>, c: Chunk, largest: real, i: nat)
    requires i < |weights| && Positive(weights) && 0.0 <= Size(c) <= largest && LoadBounded(init, weights, largest, i)
    ensures LoadBounded(init + [c], weights, largest, i)
  {
    hide Sum, Bounded, GreedyChoices, BestPath, Load, Size;
    var (n, chunks) := (|weights| as real, init + [c]);
    WeightsPositive(weights, i);
    GreedyStep(init, weights, c, i);
    assert chunks[..|init|] == init;
    assert Total(chunks) == Total(init) + Size(c);
    var load := Load(chunks, GreedyChoices(chunks, weights), i);
    if i == BestPath(Loads(init, GreedyChoices(init, weights), |weights|), weights, Size(c), |weights|) {
      BoundedWhenChosen(load, Sum(weights), Total(init), n, Size(c), largest, weights[i]);
    } else {
      BoundedWhenSpared(load, Sum(weights), Total(init), n, Size(c), largest, weights[i]);
    }
  }

  /** In product form, for every path and after every prefix of the chunk list. */
  lemma {:induction false} GreedyProductBound(chunks: seq<Chunk>, weights: seq<real>, largest: real, i: nat)
    requires i < |weights| && Positive(weights) && largest >= 0.0 && SizesUpTo(chunks, largest)
    ensures LoadBounded(chunks, weights, largest, i)
  {
    hide LoadBounded;
    if chunks == [] {
      NoLoadBounded(weights, largest, i);
    } else {
      var (init, c) := (chunks[..|chunks| - 1], chunks[|chunks| - 1]);
      assert c in chunks && chunks == init + [c];
      GreedyProductBound(init, weights, largest, i);
      LoadBoundedStep(init, weights, c, largest, i);
    }
  }

  lemma NoLoadBounded(weights: seq<real>, largest: real, i: nat)
    requires i < |weights| && Positive(weights) && largest >= 0.0
    ensures LoadBounded([], weights, largest, i)
  {
    WeightsPositive(weights, i);
    BoundedAtStart(Sum(weights), |weights| as real, largest, weights[i]);
  }

  /** When a path with this load is done. */
  function Time(load: real, weight: real): real
    requires weight > 0.0
  {
    load / weight
  }

  /** (T + (n - 1) * B) / W */
  function TimeLimit(total: real, n: nat, largest: real, sum: real): real
    requires sum > 0.0
  {
    (total + (n as real - 1.0) * largest) / sum
  }

  lemma DivideBound(load: real, sum: real, total: real, n: real, largest: real, w: real)
    requires w > 0.0 && sum > 0.0 && Bounded(load, sum, total, n, largest, w)
    ensures load / w <= (total + (n - 1.0) * largest) / sum
  {
    var rhs := total + (n - 1.0) * largest;
    assert load * sum / (w * sum) <= rhs * w / (w * sum);
    assert load * sum / (w * sum) == load / w;
    assert rhs * w / (w * sum) == rhs / sum;
  }

  /** Every path of a greedy plan finishes by (T + (n - 1) * B) / W. */
  lemma GreedyFinishBound(chunks: seq<Chunk>, weights: seq<real>, largest: real, i: nat)
    requires i < |weights| && Positive(weights) && largest >= 0.0 && SizesUpTo(chunks, largest)
    ensures Sum(weights) > 0.0
    ensures Time(Load(chunks, GreedyChoices(chunks, weights), i), weights[i])
         <= TimeLimit(Total(chunks), |weights|, largest, Sum(weights))
  {
    hide Load, Total, Sum, GreedyChoices, Bounded;
    WeightsPositive(weights, i);
    GreedyProductBound(chunks, weights, largest, i);
    DivideBound(Load(chunks, GreedyChoices(chunks, weights), i), Sum(weights), Total(chunks),
                |weights| as real, largest, weights[i]);
  }

  /** Every path of `choices` is done by time `finish`. */
  predicate FinishesBy(chunks: seq<Chunk>, choices: seq<nat>, weights: seq<real>, finish: real)
    requires |choices| == |chunks|
  {
    forall i :: 0 <= i < |weights| ==> Load(chunks, choices, i) <= finish * weights[i]
  }

  lemma {:induction false} SumBelow(loads: seq<real>, weights: seq<real>, k: nat, f: real)
    requires k <= |loads| == |weights|
    requires forall j :: 0 <= j < |loads| ==> loads[j] <= f * weights[j]
    ensures SumTo(loads, k) <= f * SumTo(weights, k)
  {
    if k > 0 {
      SumBelow(loads, weights, k - 1, f);
      assert f * (SumTo(weights, k - 1) + weights[k - 1]) == f * SumTo(weights, k - 1) + f * weights[k - 1];
    }
  }

  /** No assignment at all, greedy or not, finishes before T / W. */
  lemma AnyAssignmentNeeds(chunks: seq<Chunk>, choices: seq<nat>, weights: seq<real>, finish: real)
    requires |weights| > 0 && Positive(weights) && IsAssignment(chunks, choices, |weights|)
    requires FinishesBy(chunks, choices, weights, finish)
    ensures Sum(weights) > 0.0 && Time(Total(chunks), Sum(weights)) <= finish
  {
    var loads := Loads(chunks, choices, |weights|);
    SumPositive(weights, |weights|);
    LoadsSumToTotal(chunks, choices, |weights|);
    SumBelow(loads, weights, |weights|, finish);
    assert finish * Sum(weights) / Sum(weights) == finish;
    assert Total(chunks) / Sum(weights) <= finish * Sum(weights) / Sum(weights);
  }

  // ---------- no path starves ----------

  lemma ServesArithmetic(load: real, sum: real, total: real, n: real, largest: real, w: real)
    requires sum > 0.0 && Bounded(load, sum, total, n, largest, w)
    ensures load <= (total + (n - 1.0) * largest) / sum * w
  {
    var rhs := total + (n - 1.0) * largest;
    assert rhs / sum * w * sum == rhs * w;
  }

  lemma StarvedArithmetic(total: real, load: real, extra: real, sum: real, w: real)
    requires sum > 0.0 && total - load <= (total + extra) / sum * (sum - w)
    ensures total * w <= extra * (sum - w) + load * sum
  {
    var q := (total + extra) / sum;
    assert q * sum == total + extra;
    assert q * (sum - w) * sum == (total + extra) * (sum - w);
    assert (total - load) * sum <= (total + extra) * (sum - w);
  }

  /** Once the total is large enough, a path has got more than any given load, however small its weight. */
  lemma GreedyServesEveryPath(chunks: seq<Chunk>, weights: seq<real>, largest: real, i: nat, load: real)
    requires i < |weights| && Positive(weights) && largest >= 0.0 && SizesUpTo(chunks, largest)
    requires Total(chunks) * weights[i]
           > (|weights| as real - 1.0) * largest * (Sum(weights) - weights[i]) + load * Sum(weights)
    ensures Load(chunks, GreedyChoices(chunks, weights), i) > load
  {
    hide Load, Total, SumTo, GreedyChoices, Bounded;
    var (n, sum, choices) := (|weights|, Sum(weights), GreedyChoices(chunks, weights));
    WeightsPositive(weights, i);
    var got := Load(chunks, choices, i);
    OthersCarry(chunks, weights, largest, i);
    StarvedArithmetic(Total(chunks), got, (n as real - 1.0) * largest, sum, weights[i]);
    MoreByProduct(got, load, sum);
  }

  lemma MoreByProduct(x: real, y: real, w: real)
    requires w > 0.0
    ensures x * w > y * w ==> x > y
  {
    if x <= y {
      Scale(w, x, y);
    }
  }

  lemma LoadShare(chunks: seq<Chunk>, weights: seq<real>, largest: real, j: nat)
    requires j < |weights| && Positive(weights) && largest >= 0.0 && SizesUpTo(chunks, largest)
    ensures Sum(weights) > 0.0
    ensures Load(chunks, GreedyChoices(chunks, weights), j)
         <= (Total(chunks) + (|weights| as real - 1.0) * largest) / Sum(weights) * weights[j]
  {
    hide Load, Total, SumTo, GreedyChoices, Bounded;
    WeightsPositive(weights, j);
    GreedyProductBound(chunks, weights, largest, j);
    ServesArithmetic(Load(chunks, GreedyChoices(chunks, weights), j), Sum(weights), Total(chunks), |weights| as real,
                     largest, weights[j]);
  }

  /** The other paths together carry no more than the greedy bound lets them. */
  lemma OthersCarry(chunks: seq<Chunk>, weights: seq<real>, largest: real, i: nat)
    requires i < |weights| && Positive(weights) && largest >= 0.0 && SizesUpTo(chunks, largest)
    ensures Sum(weights) > 0.0
    ensures Total(chunks) - Load(chunks, GreedyChoices(chunks, weights), i)
         <= (Total(chunks) + (|weights| as real - 1.0) * largest) / Sum(weights) * (Sum(weights) - weights[i])
  {
    hide Load, Total, SumTo, GreedyChoices, Bounded;
    var (n, choices) := (|weights|, GreedyChoices(chunks, weights));
    WeightsPositive(weights, i);
    var loads := Loads(chunks, choices, n);
    var (otherLoads, others) := (loads[i := 0.0], weights[i := 0.0]);
    var finish := (Total(chunks) + (n as real - 1.0) * largest) / Sum(weights);
    forall j | 0 <= j < n ensures otherLoads[j] <= finish * others[j] {
      LoadShare(chunks, weights, largest, j);
    }
    LoadsSumToTotal(chunks, choices, n);
    SumBelow(otherLoads, others, n, finish);
    SumBump(otherLoads, loads, n, i, loads[i]);
    SumBump(others, weights, n, i, weights[i]);
  }

  lemma {:induction false} LoadHoldsEachChunk(chunks: seq<Chunk>, choices: seq<nat>, largest: real, k: nat)
    requires |choices| == |chunks| && k < |chunks| && SizesUpTo(chunks, largest)
    ensures Size(chunks[k]) <= Load(chunks, choices, choices[k])
  {
    var m := |chunks| - 1;
    if k == m {
      LoadNonNegative(chunks[..m], choices[..m], largest, choices[k]);
    } else {
      LoadHoldsEachChunk(chunks[..m], choices[..m], largest, k);
      assert chunks[m] in chunks;
    }
  }

  lemma {:induction false} LoadNonNegative(chunks: seq<Chunk>, choices: seq<nat>, largest: real, i: nat)
    requires |choices| == |chunks| && SizesUpTo(chunks, largest)
    ensures Load(chunks, choices, i) >= 0.0
  {
    if chunks != [] {
      var m := |chunks| - 1;
      LoadNonNegative(chunks[..m], choices[..m], largest, i);
      assert chunks[m] in chunks;
    }
  }

  lemma {:induction false} SumEqual(weights: seq<real>, w: real, k: nat)
    requires k <= |weights| && forall i :: 0 <= i < |weights| ==> weights[i] == w
    ensures SumTo(weights, k) == (k as real) * w
  {
    if k > 0 {
      SumEqual(weights, w, k - 1);
      assert ((k - 1) as real) * w + w == (k as real) * w;
    }
  }

  lemma SumIsProduct(weights: seq<real>, w: real)
    requires forall i :: 0 <= i < |weights| ==> weights[i] == w
    ensures Sum(weights) == (|weights| as real) * w
  {
    SumEqual(weights, w, |weights|);
  }

  lemma EqualWeightProduct(load: real, total: real, largest: real, n: real, w: real, f: real)
    requires n >= 1.0 && w > 0.0 && load * n <= total + (n - 1.0) * largest
    requires total <= n * (f * w) && largest <= f * w
    ensures load * n <= (2.0 * n - 1.0) * (f * w)
  {
    Scale(n - 1.0, largest, f * w);
    assert n * (f * w) + (n - 1.0) * (f * w) == (2.0 * n - 1.0) * (f * w);
  }

  lemma EqualWeightDivide(load: real, n: real, w: real, f: real)
    requires n >= 1.0 && w > 0.0 && load * n <= (2.0 * n - 1.0) * (f * w)
    ensures load / w <= (2.0 - 1.0 / n) * f
  {
    var q := 2.0 - 1.0 / n;
    assert q * n == 2.0 * n - 1.0;
    assert (q * n) * (f * w) == ((q * f) * w) * n;
    assert load <= (q * f) * w;
    assert (q * f) * w / w == q * f;
  }

  lemma EqualWeightArithmetic(load: real, sum: real, total: real, largest: real, n: real, w: real, f: real)
    requires n >= 1.0 && w > 0.0 && sum == n * w
    requires Bounded(load, sum, total, n, largest, w)
    requires total <= f * sum && largest <= f * w
    ensures load / w <= (2.0 - 1.0 / n) * f
  {
    assert load * n <= total + (n - 1.0) * largest by {
      assert load * sum == (load * n) * w;
    }
    assert f * sum == n * (f * w);
    EqualWeightProduct(load, total, largest, n, w, f);
    EqualWeightDivide(load, n, w, f);
  }

  /**
    With equal weights the greedy plan is within 2 - 1/n of every other assignment,
    so in particular of the best one.
   */
  lemma GreedyWithinFactorTwo(chunks: seq<Chunk>, weights: seq<real>, other: seq<nat>, finish: real, i: nat)
    requires i < |weights| && Positive(weights)
    requires forall j, k :: 0 <= j < |weights| && 0 <= k < |weights| ==> weights[j] == weights[k]
    requires forall c :: c in chunks ==> Size(c) >= 0.0
    requires IsAssignment(chunks, other, |weights|) && FinishesBy(chunks, other, weights, finish)
    ensures Time(Load(chunks, GreedyChoices(chunks, weights), i), weights[i])
         <= (2.0 - 1.0 / (|weights| as real)) * finish
  {
    hide Load, Total, Sum, GreedyChoices, Bounded, FinishesBy, LargestSize;
    var (n, w) := (|weights|, weights[i]);
    var largest := LargestSize(chunks);
    SumIsProduct(weights, w);
    GreedyProductBound(chunks, weights, largest, i);
    AnyAssignmentProduct(chunks, other, weights, finish);
    LargestFinishes(chunks, weights, other, largest, finish, w);
    EqualWeightArithmetic(Load(chunks, GreedyChoices(chunks, weights), i), Sum(weights), Total(chunks),
                          largest, n as real, w, finish);
  }

  /** Some path carries the largest chunk, so no assignment finishes before that chunk does. */
  lemma LargestFinishes(chunks: seq<Chunk>, weights: seq<real>, other: seq<nat>, largest: real, finish: real, w: real)
    requires |weights| > 0 && forall j :: 0 <= j < |weights| ==> weights[j] == w
    requires IsAssignment(chunks, other, |weights|) && FinishesBy(chunks, other, weights, finish)
    requires SizesUpTo(chunks, largest)
    requires if chunks == [] then largest == 0.0 else exists k :: 0 <= k < |chunks| && Size(chunks[k]) == largest
    ensures largest <= finish * w
  {
    if chunks == [] {
      LoadNonNegative(chunks, other, largest, 0);
      assert weights[0] == w;
    } else {
      var k :| 0 <= k < |chunks| && Size(chunks[k]) == largest;
      LoadHoldsEachChunk(chunks, other, largest, k);
      assert weights[other[k]] == w;
    }
  }

  lemma AnyAssignmentProduct(chunks: seq<Chunk>, choices: seq<nat>, weights: seq<real>, finish: real)
    requires IsAssignment(chunks, choices, |weights|) && FinishesBy(chunks, choices, weights, finish)
    ensures Total(chunks) <= finish * Sum(weights)
  {
    LoadsSumToTotal(chunks, choices, |weights|);
    SumBelow(Loads(chunks, choices, |weights|), weights, |weights|, finish);
  }

  function LargestSize(chunks: seq<Chunk>): (largest: real)
    requires forall c :: c in chunks ==> Size(c) >= 0.0
    ensures largest >= 0.0 && SizesUpTo(chunks, largest)
    ensures if chunks == [] then largest == 0.0 else exists k :: 0 <= k < |chunks| && Size(chunks[k]) == largest
  {
    if chunks == [] then 0.0
    else
      var k := |chunks| - 1;
      assert chunks[k] in chunks;
      assert forall c :: c in chunks[..k] ==> c in chunks;
      var m := LargestSize(chunks[..k]);
      assert chunks == chunks[..k] + [chunks[k]];
      if Size(chunks[k]) >= m then
        Size(chunks[k])
      else
        assert exists j :: 0 <= j < k && Size(chunks[..k][j]) == m;
        m
  }
}
