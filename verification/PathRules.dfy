/**
  What planning does, in the fields of the profile: which paths exist, what they carry, how much
  they weigh, and which of them each chunk goes to.
 */
module PathRules {
  import opened Common
  import opened Transfers
  import opened Chunking
  import opened Scheduling
  import opened Planner

  // ---------- bandwidths ----------

  /** Towards the device the first number counts; from the device the second, and if it is not positive the first. */
  predicate IsRate(direction: Direction, towards: real, from: real, rate: real) {
    && rate > 0.0
    && (direction == H2d ==> rate == towards)
    && (direction == D2h && from > 0.0 ==> rate == from)
    && (direction == D2h && from <= 0.0 ==> rate == towards)
  }

  predicate HasRate(direction: Direction, towards: real, from: real) {
    towards > 0.0 || (direction == D2h && from > 0.0)
  }

  // ---------- paths ----------

  /** What a path takes over of a number that counts only when positive. */
  predicate IsTaken(value: real, given: real) { if given > 0.0 then value == given else value == 0.0 }

  predicate IsDirect(path: Path, p: Profile, direction: Direction) {
    && path.kind == DirectPath && path.direction == direction && path.enabled
    && path.targetDevice == p.targetDevice && path.relayDevice == -1
    && IsRate(direction, p.h2d, p.d2h, path.effective)
    && path.h2d == p.h2d && path.d2h == (if p.d2h != 0.0 then p.d2h else path.effective) && path.p2p == 0.0
    && (direction == H2d ==> IsTaken(path.weight, p.weightH2d) && IsTaken(path.pressure, p.pressureH2d))
    && (direction == D2h ==> IsTaken(path.weight, p.weightD2h) && IsTaken(path.pressure, p.pressureD2h))
  }

  predicate IsRelay(path: Path, r: RelayProfile, direction: Direction) {
    && path.kind == RelayPath && path.direction == direction && path.enabled
    && path.targetDevice == r.targetDevice && path.relayDevice == r.relayDevice
    && IsRate(direction, r.effectiveH2d, r.effectiveD2h, path.effective)
    && path.h2d == r.h2d && path.d2h == (if r.d2h != 0.0 then r.d2h else r.h2d) && path.p2p == r.p2p
    && (direction == H2d ==> IsTaken(path.weight, r.weightH2d) && IsTaken(path.pressure, r.pressureH2d))
    && (direction == D2h ==> IsTaken(path.weight, r.weightD2h) && IsTaken(path.pressure, r.pressureD2h))
  }

  /** A relay is used when it is enabled, fast enough on its own, and fast enough against a direct path there is. */
  ghost predicate IsUsable(o: Options, p: Profile, r: RelayProfile, direction: Direction) {
    && r.p2pEnabled
    && exists rate :: IsRate(direction, r.effectiveH2d, r.effectiveD2h, rate) && FastEnough(o, p, direction, rate)
  }

  ghost predicate FastEnough(o: Options, p: Profile, direction: Direction, rate: real) {
    && rate >= o.relayMinBandwidth
    && forall direct :: IsRate(direction, p.h2d, p.d2h, direct) && o.relayMinRatio > 0.0 ==>
         rate >= direct * o.relayMinRatio
  }

  predicate HasDirect(p: Profile, mode: Mode, direction: Direction) {
    mode != Relay && HasRate(direction, p.h2d, p.d2h)
  }

  lemma DirectRate(p: Profile, direction: Direction)
    ensures DirectBandwidth(p, direction) > 0.0 <==> HasRate(direction, p.h2d, p.d2h)
    ensures forall rate :: IsRate(direction, p.h2d, p.d2h, rate) <==> DirectBandwidth(p, direction) == rate > 0.0
  {
  }

  lemma RelayRate(r: RelayProfile, direction: Direction)
    ensures forall rate :: IsRate(direction, r.effectiveH2d, r.effectiveD2h, rate) <==>
              RelayBandwidth(r, direction) == rate > 0.0
  {
  }

  lemma UsableIsEligible(o: Options, p: Profile, r: RelayProfile, direction: Direction)
    ensures IsUsable(o, p, r, direction) <==> Eligible(o, r, DirectBandwidth(p, direction), direction)
  {
    hide DirectBandwidth, RelayBandwidth;
    DirectRate(p, direction);
    RelayRate(r, direction);
    var (rate, direct) := (RelayBandwidth(r, direction), DirectBandwidth(p, direction));
    if Eligible(o, r, direct, direction) {
      assert IsRate(direction, r.effectiveH2d, r.effectiveD2h, rate) && FastEnough(o, p, direction, rate);
    }
    if IsUsable(o, p, r, direction) && direct > 0.0 {
      assert IsRate(direction, p.h2d, p.d2h, direct);
    }
  }

  /** These are the paths of the usable ones of the first n relays, in profile order. */
  ghost predicate AreRelays(paths: seq<Path>, at: seq<nat>, o: Options, p: Profile, direction: Direction, n: nat)
    requires n <= |p.relays|
  {
    && |paths| == |at|
    && (forall i :: 0 <= i < |at| ==> at[i] < n && IsRelay(paths[i], p.relays[at[i]], direction))
    && (forall i, j :: 0 <= i < j < |at| ==> at[i] < at[j])
    && forall k: nat :: k < n ==> (k in at <==> IsUsable(o, p, p.relays[k], direction))
  }

  lemma OneMoreRelay(paths: seq<Path>, at: seq<nat>, path: Path, o: Options, p: Profile, direction: Direction, n: nat)
    requires n < |p.relays| && AreRelays(paths, at, o, p, direction, n)
    requires IsUsable(o, p, p.relays[n], direction) && IsRelay(path, p.relays[n], direction)
    ensures AreRelays(paths + [path], at + [n], o, p, direction, n + 1)
  {
    hide IsUsable, IsRelay;
  }

  lemma OneRelaySkipped(paths: seq<Path>, at: seq<nat>, o: Options, p: Profile, direction: Direction, n: nat)
    requires n < |p.relays| && AreRelays(paths, at, o, p, direction, n) && !IsUsable(o, p, p.relays[n], direction)
    ensures AreRelays(paths, at, o, p, direction, n + 1)
  {
    hide IsUsable, IsRelay;
  }

  lemma {:induction false} RelayPathsAre(o: Options, p: Profile, direction: Direction, n: nat) returns (at: seq<nat>)
    requires n <= |p.relays|
    ensures AreRelays(RelayPaths(o, p.relays[..n], DirectBandwidth(p, direction), direction), at, o, p, direction, n)
  {
    hide DirectBandwidth, IsUsable, IsRelay, RelayPathOf, Eligible;
    at := [];
    if n > 0 {
      var before := RelayPathsAre(o, p, direction, n - 1);
      var (r, paths) := (p.relays[n - 1], RelayPaths(o, p.relays[..n - 1], DirectBandwidth(p, direction), direction));
      assert p.relays[..n][..n - 1] == p.relays[..n - 1];
      UsableIsEligible(o, p, r, direction);
      if IsUsable(o, p, r, direction) {
        UsableHasBandwidth(o, p, r, direction);
        RelayPathIs(r, direction);
        OneMoreRelay(paths, before, RelayPathOf(r, direction), o, p, direction, n - 1);
        at := before + [n - 1];
      } else {
        OneRelaySkipped(paths, before, o, p, direction, n - 1);
        assert paths + [] == paths;
        at := before;
      }
    }
  }

  lemma UsableHasBandwidth(o: Options, p: Profile, r: RelayProfile, direction: Direction)
    requires IsUsable(o, p, r, direction)
    ensures RelayBandwidth(r, direction) > 0.0
  {
    RelayRate(r, direction);
  }

  lemma RelayPathIs(r: RelayProfile, direction: Direction)
    ensures RelayBandwidth(r, direction) > 0.0 ==> IsRelay(RelayPathOf(r, direction), r, direction)
  {
  }

  lemma DirectPathIs(p: Profile, direction: Direction)
    ensures DirectBandwidth(p, direction) > 0.0 ==> IsDirect(DirectPathOf(p, direction), p, direction)
  {
  }

  /** The direct path first, if the mode allows one and it has bandwidth, then the usable relays in profile order. */
  ghost predicate AreThePaths(paths: seq<Path>, at: seq<nat>, o: Options, p: Profile, mode: Mode,
                              direction: Direction)
  {
    var d := if HasDirect(p, mode, direction) then 1 else 0;
    && |paths| >= d && (d == 1 ==> IsDirect(paths[0], p, direction))
    && if mode == Direct then |paths| == d && at == [] else AreRelays(paths[d..], at, o, p, direction, |p.relays|)
  }

  lemma PathsAre(o: Options, p: Profile, mode: Mode, direction: Direction) returns (at: seq<nat>)
    ensures AreThePaths(Paths(o, p, mode, direction), at, o, p, mode, direction)
  {
    hide AreRelays, IsDirect, DirectPathOf, HasRate, DirectBandwidth, RelayPaths;
    at := [];
    DirectPathIs(p, direction);
    DirectRate(p, direction);
    var d := if HasDirect(p, mode, direction) then 1 else 0;
    var relays := RelayPaths(o, p.relays, DirectBandwidth(p, direction), direction);
    assert [] + relays == relays && ([DirectPathOf(p, direction)] + relays)[1..] == relays;
    assert [DirectPathOf(p, direction)] + [] == [DirectPathOf(p, direction)];
    if mode != Direct {
      at := RelayPathsAre(o, p, direction, |p.relays|);
      assert p.relays[..|p.relays|] == p.relays;
    }
  }

  // ---------- weights ----------

  /**
    A positive explicit weight counts; otherwise weight and pressure, the pressure capped at 4, make up
    the bandwidth. A weight is never taken below 1e-12.
   */
  ghost predicate Weighs(path: Path, weight: real) {
    exists w :: IsWeight(path, w) && weight == (if w >= 0.000000000001 then w else 0.000000000001)
  }

  ghost predicate IsWeight(path: Path, w: real) {
    && (path.weight > 0.0 ==> w == path.weight)
    && (path.weight <= 0.0 && path.pressure <= 4.0 ==> w * (1.0 + path.pressure) == path.effective)
    && (path.weight <= 0.0 && path.pressure > 4.0 ==> w * 5.0 == path.effective)
  }

  lemma SchedulerWeightIs(path: Path)
    requires path.effective > 0.0 && path.pressure >= 0.0
    ensures IsWeight(path, SchedulerWeight(path)) && Weighs(path, MaxReal(SchedulerWeight(path), SMALLEST_WEIGHT))
  {
    var pressure := MinReal(MaxReal(0.0, path.pressure), 4.0);
    assert (path.effective / (1.0 + pressure)) * (1.0 + pressure) == path.effective;
    assert IsWeight(path, SchedulerWeight(path));
  }

  // ---------- the mode ----------

  /** A pooled transfer of few chunks, or of few bytes where a least number of bytes is set, goes direct. */
  predicate GoesDirect(o: Options, ranges: seq<Chunk>, size: int, mode: Mode)
    requires size > 0
  {
    && mode == Pool
    && (PiecesOf(ranges, size) < o.minChunksForRelay || (o.minPoolBytes > 0 && PositiveBytes(ranges) < o.minPoolBytes))
  }

  function UsedMode(o: Options, ranges: seq<Chunk>, size: int, mode: Mode): Mode
    requires size > 0
  {
    if GoesDirect(o, ranges, size, mode) then Direct else mode
  }

  lemma UsedModeIs(o: Options, ranges: seq<Chunk>, size: int, p: Profile, mode: Mode, direction: Direction)
    requires size > 0
    ensures PlannedPaths(o, ranges, size, p, mode, direction) == Paths(o, p, UsedMode(o, ranges, size, mode), direction)
  {
    ChunkCount(ranges, size);
  }

  // ---------- plans ----------

  ghost predicate HasBytes(ranges: seq<Chunk>) { exists r :: r in ranges && r.bytes > 0 }

  lemma {:induction false} ChunksWhenBytes(ranges: seq<Chunk>, size: int)
    requires size > 0
    ensures ChunksOf(ranges, size) != [] <==> HasBytes(ranges)
  {
    if ranges != [] {
      var (init, r) := (ranges[..|ranges| - 1], ranges[|ranges| - 1]);
      ChunksWhenBytes(init, size);
      assert ranges == init + [r];
      assert r.bytes > 0 ==> r in ranges;
      assert HasBytes(init) ==> HasBytes(ranges) by {
        if HasBytes(init) {
          var x :| x in init && x.bytes > 0;
          assert x in ranges;
        }
      }
    }
  }

  /** Planning finds no path exactly when there is something to move, no direct path and no usable relay. */
  lemma NoPathIff(o: Options, ranges: seq<Chunk>, size: int, p: Profile, mode: Mode, direction: Direction)
    ensures RangesPlan(o, ranges, size, p, mode, direction) == Err(NoPath) <==>
              && size > 0 && HasBytes(ranges)
              && !HasDirect(p, UsedMode(o, ranges, size, mode), direction)
              && (UsedMode(o, ranges, size, mode) == Direct
                  || forall r :: r in p.relays ==> !IsUsable(o, p, r, direction))
  {
    hide RangesPlan, IsUsable, Paths, UsedMode;
    PlanOutcome(o, ranges, size, p, mode, direction);
    if size > 0 {
      ChunksWhenBytes(ranges, size);
      UsedModeIs(o, ranges, size, p, mode, direction);
      var used := UsedMode(o, ranges, size, mode);
      var at := PathsAre(o, p, used, direction);
      NoneUsable(Paths(o, p, used, direction), at, o, p, used, direction);
    }
  }

  lemma NoneUsable(paths: seq<Path>, at: seq<nat>, o: Options, p: Profile, mode: Mode, direction: Direction)
    requires AreThePaths(paths, at, o, p, mode, direction)
    ensures paths == [] <==>
              && !HasDirect(p, mode, direction)
              && (mode == Direct || forall r :: r in p.relays ==> !IsUsable(o, p, r, direction))
  {
    hide IsUsable, IsRelay, IsDirect, HasDirect;
    if at != [] {
      assert at[0] in at;
      assert p.relays[at[0]] in p.relays;
    }
    assert mode != Direct ==> |paths| == (if HasDirect(p, mode, direction) then 1 else 0) + |at|;
    forall r | r in p.relays && mode != Direct && IsUsable(o, p, r, direction) ensures at != [] {
      var k: nat :| k < |p.relays| && p.relays[k] == r;
      assert k in at;
    }
  }

  /** The chunks go out as the choices say: each path, in order, gets its chunks, and idle paths get no assignment. */
  ghost predicate GivesOut(assignments: seq<Assignment>, paths: seq<Path>, chunks: seq<Chunk>, choices: seq<nat>)
  {
    && IsAssignment(chunks, choices, |paths|) && assignments == Assignments(paths, chunks, choices, |paths|)
  }

  /** No path would be done earlier with chunk k, and none before the chosen one as early. */
  ghost predicate IsFirstBest(weights: seq<real>, chunks: seq<Chunk>, choices: seq<nat>, k: nat)
    requires k < |chunks| == |choices|
  {
    && choices[k] < |weights|
    && forall j: nat :: j < |weights| && weights[j] > 0.0 && weights[choices[k]] > 0.0 ==>
         var mine := (Load(chunks[..k], choices[..k], choices[k]) + chunks[k].bytes as real) / weights[choices[k]];
         var other := (Load(chunks[..k], choices[..k], j) + chunks[k].bytes as real) / weights[j];
         if j < choices[k] then mine < other else mine <= other
  }

  /**
    Each chunk of a plan goes to the first path that would be done with it earliest, over the
    weights of the fields.
   */
  lemma PlanIsGreedy(o: Options, ranges: seq<Chunk>, size: int, p: Profile, mode: Mode, direction: Direction)
    returns (paths: seq<Path>, at: seq<nat>, weights: seq<real>, choices: seq<nat>)
    requires RangesPlan(o, ranges, size, p, mode, direction).Ok? && HasBytes(ranges)
    ensures size > 0 && AreThePaths(paths, at, o, p, UsedMode(o, ranges, size, mode), direction)
    ensures |weights| == |paths|
    ensures forall i :: 0 <= i < |paths| ==> weights[i] > 0.0 && Weighs(paths[i], weights[i])
    ensures var plan := RangesPlan(o, ranges, size, p, mode, direction).value;
            && GivesOut(plan.assignments, paths, ChunksOf(ranges, size), choices)
            && plan.chunkBytes == size && plan.totalBytes == PositiveBytes(ranges)
    ensures forall k: nat :: k < |choices| ==> IsFirstBest(weights, ChunksOf(ranges, size), choices, k)
  {
    PlanOutcome(o, ranges, size, p, mode, direction);
    hide IsUsable, Paths, UsedMode, ChunksOf, PositiveBytes, AreThePaths, Weighs, IsFirstBest, PathChoices,
      SchedulerWeight, Assignments;
    var used := UsedMode(o, ranges, size, mode);
    ChunksWhenBytes(ranges, size);
    UsedModeIs(o, ranges, size, p, mode, direction);
    paths := Paths(o, p, used, direction);
    at := PathsAre(o, p, used, direction);
    weights := Clamped(PathWeights(paths));
    choices := PathChoices(paths, ChunksOf(ranges, size));
    forall i | 0 <= i < |paths| ensures weights[i] > 0.0 && Weighs(paths[i], weights[i]) {
      PathIsSound(paths, at, o, p, used, direction, i);
      SchedulerWeightIs(paths[i]);
    }
    forall k: nat | k < |choices| ensures IsFirstBest(weights, ChunksOf(ranges, size), choices, k) {
      ChoiceIsFirstBest(paths, ChunksOf(ranges, size), k);
    }
  }

  lemma PathIsSound(paths: seq<Path>, at: seq<nat>, o: Options, p: Profile, mode: Mode, direction: Direction, i: nat)
    requires AreThePaths(paths, at, o, p, mode, direction) && i < |paths|
    ensures paths[i].effective > 0.0 && paths[i].pressure >= 0.0
  {
    var d := if HasDirect(p, mode, direction) then 1 else 0;
    if i >= d {
      assert paths[d..][i - d] == paths[i] && IsRelay(paths[d..][i - d], p.relays[at[i - d]], direction);
    }
  }

  /** Later chunks do not change where earlier ones went. */
  lemma {:induction false} GreedyPrefix(chunks: seq<Chunk>, weights: seq<real>, k: nat)
    requires |weights| > 0 && Positive(weights) && k <= |chunks|
    ensures GreedyChoices(chunks[..k], weights) == GreedyChoices(chunks, weights)[..k]
  {
    if k < |chunks| {
      var m := |chunks| - 1;
      GreedyPrefix(chunks[..m], weights, k);
      assert chunks[..m][..k] == chunks[..k];
      GreedySnoc(chunks[..m], weights, chunks[m]);
      assert chunks == chunks[..m] + [chunks[m]];
    } else {
      assert chunks[..k] == chunks;
    }
  }

  lemma ChoiceIsFirstBest(paths: seq<Path>, chunks: seq<Chunk>, k: nat)
    requires paths != [] && k < |chunks|
    ensures IsFirstBest(Clamped(PathWeights(paths)), chunks, PathChoices(paths, chunks), k)
  {
    hide Load, BestPath;
    var (weights, choices) := (Clamped(PathWeights(paths)), PathChoices(paths, chunks));
    GreedyPrefix(chunks, weights, k + 1);
    GreedyPrefix(chunks, weights, k);
    GreedySnoc(chunks[..k], weights, chunks[k]);
    assert chunks[..k + 1] == chunks[..k] + [chunks[k]];
    var loads := Loads(chunks[..k], GreedyChoices(chunks[..k], weights), |weights|);
    assert choices[k] == choices[..k + 1][k] == BestPath(loads, weights, Size(chunks[k]), |weights|);
    forall j: nat | j < |weights|
      ensures var mine := (Load(chunks[..k], choices[..k], choices[k]) + chunks[k].bytes as real) / weights[choices[k]];
              var other := (Load(chunks[..k], choices[..k], j) + chunks[k].bytes as real) / weights[j];
              if j < choices[k] then mine < other else mine <= other
    {
      BestPathIsFirstMinimum(loads, weights, Size(chunks[k]), |weights|, j);
    }
  }

  /** Every assignment of a plan is on the direct path of the profile or on the path of a usable relay. */
  lemma AssignmentsUseFields(o: Options, ranges: seq<Chunk>, size: int, p: Profile, mode: Mode, direction: Direction,
                             a: Assignment)
    requires RangesPlan(o, ranges, size, p, mode, direction).Ok?
    requires a in RangesPlan(o, ranges, size, p, mode, direction).value.assignments
    ensures size > 0
    ensures var used := UsedMode(o, ranges, size, mode);
            || (HasDirect(p, used, direction) && IsDirect(a.path, p, direction))
            || (used != Direct
                && exists r :: r in p.relays && IsUsable(o, p, r, direction) && IsRelay(a.path, r, direction))
  {
    hide IsUsable, IsRelay, IsDirect, Paths, UsedMode, RangesPlan, Bucket, PathChoices;
    var i := AssignmentOnPath(o, ranges, size, p, mode, direction, a);
    UsedModeIs(o, ranges, size, p, mode, direction);
    var used := UsedMode(o, ranges, size, mode);
    var at := PathsAre(o, p, used, direction);
    var d := if HasDirect(p, used, direction) then 1 else 0;
    if i >= d {
      assert at[i - d] in at;
      assert Paths(o, p, used, direction)[d..][i - d] == a.path && IsRelay(a.path, p.relays[at[i - d]], direction);
    }
  }

  lemma AssignmentOnPath(o: Options, ranges: seq<Chunk>, size: int, p: Profile, mode: Mode, direction: Direction,
                         a: Assignment)
    returns (i: nat)
    requires RangesPlan(o, ranges, size, p, mode, direction).Ok?
    requires a in RangesPlan(o, ranges, size, p, mode, direction).value.assignments
    ensures size > 0 && i < |PlannedPaths(o, ranges, size, p, mode, direction)|
    ensures a.path == PlannedPaths(o, ranges, size, p, mode, direction)[i]
  {
    hide ChunksOf, Bucket, Paths;
    PlanOutcome(o, ranges, size, p, mode, direction);
    var (paths, chunks) := (PlannedPaths(o, ranges, size, p, mode, direction), ChunksOf(ranges, size));
    assert IsBucketOf(a, paths, chunks);
    i :| i < |paths| && a == Assignment(paths[i], Bucket(chunks, PathChoices(paths, chunks), i));
  }
}
