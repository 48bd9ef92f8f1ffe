/**
  PlannerEngine: path construction from a profile, the two planning entry points and
  the plan they return. Bandwidths, weights and pressures are reals.
 */
module Planner {
  import opened Common
  import opened Transfers
  import opened Chunking
  import opened Scheduling

  datatype Mode = Auto | Pool | Direct | Relay

  datatype Direction = H2d | D2h

  datatype PathKind = DirectPath | RelayPath

  datatype Options = Options(minChunksForRelay: int, minPoolBytes: int, relayMinBandwidth: real, relayMinRatio: real)

  datatype RelayProfile = RelayProfile(
    relayDevice: int, targetDevice: int, p2pEnabled: bool,
    h2d: real, d2h: real, p2p: real, effectiveH2d: real, effectiveD2h: real,
    weightH2d: real, weightD2h: real, pressureH2d: real, pressureD2h: real)

  datatype Profile = Profile(
    targetDevice: int, h2d: real, d2h: real,
    weightH2d: real, weightD2h: real, pressureH2d: real, pressureD2h: real,
    relays: seq<RelayProfile>)

  datatype Path = Path(
    kind: PathKind, direction: Direction, targetDevice: int, relayDevice: int,
    h2d: real, d2h: real, p2p: real, effective: real, enabled: bool,
    weight: real, pressure: real)

  datatype Assignment = Assignment(path: Path, chunks: seq<Chunk>)

  datatype Plan = Plan(totalBytes: int, chunkBytes: int, assignments: seq<Assignment>)

  datatype PlanError = BadChunkBytes | NoPath | ZeroBandwidth

  const DEFAULT_CHUNK_BYTES := 16 * 1024 * 1024

  const EMPTY_PLAN := Plan(0, DEFAULT_CHUNK_BYTES, [])

  // ---------- paths ----------

  /** A field that is zero falls back to the other one. */
  function OrElse(value: real, fallback: real): real { if value == 0.0 then fallback else value }

  function DirectBandwidth(p: Profile, direction: Direction): real {
    var own := MaxReal(0.0, if direction.H2d? then p.h2d else p.d2h);
    if direction.D2h? && own <= 0.0 then MaxReal(0.0, p.h2d) else own
  }

  function RelayBandwidth(r: RelayProfile, direction: Direction): real {
    var own := MaxReal(0.0, if direction.H2d? then r.effectiveH2d else r.effectiveD2h);
    if direction.D2h? && own <= 0.0 then MaxReal(0.0, r.effectiveH2d) else own
  }

  function DirectPathOf(p: Profile, direction: Direction): Path {
    var bandwidth := DirectBandwidth(p, direction);
    Path(DirectPath, direction, p.targetDevice, -1, p.h2d, OrElse(p.d2h, bandwidth), 0.0, bandwidth, true,
         MaxReal(0.0, if direction.H2d? then p.weightH2d else p.weightD2h),
         MaxReal(0.0, if direction.H2d? then p.pressureH2d else p.pressureD2h))
  }

  function RelayPathOf(r: RelayProfile, direction: Direction): Path {
    Path(RelayPath, direction, r.targetDevice, r.relayDevice, r.h2d, OrElse(r.d2h, r.h2d), r.p2p,
         RelayBandwidth(r, direction), true,
         MaxReal(0.0, if direction.H2d? then r.weightH2d else r.weightD2h),
         MaxReal(0.0, if direction.H2d? then r.pressureH2d else r.pressureD2h))
  }

  predicate Eligible(o: Options, r: RelayProfile, directBandwidth: real, direction: Direction) {
    var bandwidth := RelayBandwidth(r, direction);
    r.p2pEnabled && bandwidth > 0.0 && bandwidth >= o.relayMinBandwidth
    && !(directBandwidth > 0.0 && o.relayMinRatio > 0.0 && bandwidth < directBandwidth * o.relayMinRatio)
  }

  function RelayPaths(o: Options, relays: seq<RelayProfile>, directBandwidth: real, direction: Direction): seq<Path> {
    if relays == [] then []
    else
      var r := relays[|relays| - 1];
      RelayPaths(o, relays[..|relays| - 1], directBandwidth, direction)
        + if Eligible(o, r, directBandwidth, direction) then [RelayPathOf(r, direction)] else []
  }

  function Paths(o: Options, p: Profile, mode: Mode, direction: Direction): seq<Path> {
    var bandwidth := DirectBandwidth(p, direction);
    (if mode != Relay && bandwidth > 0.0 then [DirectPathOf(p, direction)] else [])
      + if mode == Direct then [] else RelayPaths(o, p.relays, bandwidth, direction)
  }

  method BuildPaths(o: Options, p: Profile, mode: Mode, direction: Direction) returns (paths: seq<Path>)
    ensures paths == Paths(o, p, mode, direction)
  {
    paths := [];
    var bandwidth := DirectBandwidth(p, direction);
    if mode != Relay && bandwidth > 0.0 {
      paths := paths + [DirectPathOf(p, direction)];
    }
    if mode == Direct {
      return;
    }
    ghost var head := paths;
    for i := 0 to |p.relays|
      invariant paths == head + RelayPaths(o, p.relays[..i], bandwidth, direction)
    {
      var relay := p.relays[i];
      assert p.relays[..i + 1][..i] == p.relays[..i];
      if Eligible(o, relay, bandwidth, direction) {
        paths := paths + [RelayPathOf(relay, direction)];
      }
    }
    assert p.relays[..|p.relays|] == p.relays;
  }

  // ---------- weights ----------

  function SchedulerWeight(path: Path): real {
    if path.weight > 0.0 then path.weight
    else MaxReal(0.0, path.effective) / (1.0 + MinReal(MaxReal(0.0, path.pressure), 4.0))
  }

  function PathWeights(paths: seq<Path>): (weights: seq<real>)
    ensures |weights| == |paths| && forall i :: 0 <= i < |paths| ==> weights[i] == SchedulerWeight(paths[i])
  {
    seq(|paths|, i requires 0 <= i < |paths| => SchedulerWeight(paths[i]))
  }

  /** _plan_chunks never divides by less than 1e-12. */
  const SMALLEST_WEIGHT := 0.000000000001

  function Clamped(weights: seq<real>): (clamped: seq<real>)
    ensures |clamped| == |weights| && Positive(clamped)
    ensures forall i :: 0 <= i < |weights| ==> clamped[i] == MaxReal(weights[i], SMALLEST_WEIGHT)
  {
    seq(|weights|, i requires 0 <= i < |weights| => MaxReal(weights[i], SMALLEST_WEIGHT))
  }

  lemma {:induction false} RelayPathsUsable(o: Options, relays: seq<RelayProfile>, bandwidth: real,
                                            direction: Direction)
    ensures forall path :: path in RelayPaths(o, relays, bandwidth, direction) ==>
              path.kind == RelayPath && path.direction == direction && path.enabled && path.effective > 0.0
              && exists r :: r in relays && Eligible(o, r, bandwidth, direction) && path == RelayPathOf(r, direction)
  {
    if relays != [] {
      var k := |relays| - 1;
      RelayPathsUsable(o, relays[..k], bandwidth, direction);
      forall path | path in RelayPaths(o, relays, bandwidth, direction)
        ensures path.kind == RelayPath && path.direction == direction && path.enabled && path.effective > 0.0
        ensures exists r :: r in relays && Eligible(o, r, bandwidth, direction) && path == RelayPathOf(r, direction)
      {
        if path !in RelayPaths(o, relays[..k], bandwidth, direction) {
          assert relays[k] in relays && Eligible(o, relays[k], bandwidth, direction);
        } else {
          var r :| r in relays[..k] && Eligible(o, r, bandwidth, direction) && path == RelayPathOf(r, direction);
          assert r in relays;
        }
      }
    }
  }

  /** Every path a profile yields carries weight, so the planner's zero-bandwidth error cannot occur. */
  lemma BuiltPathsCarryWeight(o: Options, p: Profile, mode: Mode, direction: Direction)
    ensures var paths := Paths(o, p, mode, direction);
            forall i :: 0 <= i < |paths| ==> paths[i].effective > 0.0 && SchedulerWeight(paths[i]) > 0.0
    ensures Paths(o, p, mode, direction) != [] ==> Sum(PathWeights(Paths(o, p, mode, direction))) > 0.0
  {
    var paths := Paths(o, p, mode, direction);
    RelayPathsUsable(o, p.relays, DirectBandwidth(p, direction), direction);
    forall i | 0 <= i < |paths| ensures paths[i].effective > 0.0 && SchedulerWeight(paths[i]) > 0.0 {
      assert paths[i] == DirectPathOf(p, direction)
        || paths[i] in RelayPaths(o, p.relays, DirectBandwidth(p, direction), direction);
      QuotientPositive(paths[i].effective, 1.0 + MinReal(MaxReal(0.0, paths[i].pressure), 4.0));
    }
    SumPositive(PathWeights(paths), |paths|);
  }

  lemma QuotientPositive(a: real, b: real)
    requires a > 0.0 && b > 0.0
    ensures a / b > 0.0
  {
  }

  // ---------- plans ----------

  /** One assignment per path that got chunks, in path order. */
  function Assignments(paths: seq<Path>, chunks: seq<Chunk>, choices: seq<nat>, n: nat): seq<Assignment>
    requires n <= |paths| && |choices| == |chunks|
  {
    if n == 0 then []
    else
      var bucket := Bucket(chunks, choices, n - 1);
      Assignments(paths, chunks, choices, n - 1) + if bucket == [] then [] else [Assignment(paths[n - 1], bucket)]
  }

  function PathChoices(paths: seq<Path>, chunks: seq<Chunk>): (choices: seq<nat>)
    requires paths != []
    ensures IsAssignment(chunks, choices, |paths|)
  {
    GreedyChoices(chunks, Clamped(PathWeights(paths)))
  }

  function ChunksPlan(chunks: seq<Chunk>, total: int, size: int, paths: seq<Path>): Result<Plan, PlanError>
    requires paths != []
  {
    if Sum(PathWeights(paths)) <= 0.0 then Err(ZeroBandwidth)
    else Ok(Plan(total, size, Assignments(paths, chunks, PathChoices(paths, chunks), |paths|)))
  }

  method PlanChunks(chunks: seq<Chunk>, total: int, size: int, paths: seq<Path>) returns (r: Result<Plan, PlanError>)
    requires paths != []
    ensures r == ChunksPlan(chunks, total, size, paths)
  {
    var weights := PathWeights(paths);
    var sum := 0.0;
    for i := 0 to |weights|
      invariant sum == SumTo(weights, i)
    {
      sum := sum + weights[i];
    }
    if sum <= 0.0 {
      return Err(ZeroBandwidth);
    }
    var lists, scores := AssignChunks(chunks, Clamped(weights));
    ghost var choices := PathChoices(paths, chunks);
    var assignments := [];
    for i := 0 to |paths|
      invariant assignments == Assignments(paths, chunks, choices, i)
    {
      if lists[i] != [] {
        assignments := assignments + [Assignment(paths[i], lists[i])];
      }
    }
    return Ok(Plan(total, size, assignments));
  }

  /** A pooled transfer with few chunks, or few bytes, is planned as a direct one. */
  function ResolvedMode(o: Options, mode: Mode, chunkCount: int, total: int): Mode {
    if mode == Pool && (chunkCount < o.minChunksForRelay || (o.minPoolBytes > 0 && total < o.minPoolBytes)) then Direct
    else mode
  }

  function ResolvedPlan(o: Options, chunks: seq<Chunk>, total: int, size: int, p: Profile, mode: Mode,
                        direction: Direction)
    : Result<Plan, PlanError>
  {
    var paths := Paths(o, p, ResolvedMode(o, mode, |chunks|, total), direction);
    if paths == [] then Err(NoPath) else ChunksPlan(chunks, total, size, paths)
  }

  function RangesPlan(o: Options, ranges: seq<Chunk>, size: int, p: Profile, mode: Mode, direction: Direction)
    : Result<Plan, PlanError>
  {
    if size <= 0 then Err(BadChunkBytes)
    else
      var chunks := ChunksOf(ranges, size);
      if chunks == [] then Ok(EMPTY_PLAN)
      else ResolvedPlan(o, chunks, PositiveBytes(ranges), size, p, mode, direction)
  }

  function TotalPlan(o: Options, total: int, size: int, p: Profile, mode: Mode, direction: Direction)
    : Result<Plan, PlanError>
  {
    if total <= 0 then Ok(EMPTY_PLAN)
    else if size <= 0 then Err(BadChunkBytes)
    else ResolvedPlan(o, ChunksFrom(Chunk(0, 0, total, None), size, 0), total, size, p, mode, direction)
  }

  method PlanRanges(o: Options, ranges: seq<Chunk>, size: int, p: Profile, mode: Mode, direction: Direction)
    returns (r: Result<Plan, PlanError>)
    ensures r == RangesPlan(o, ranges, size, p, mode, direction)
  {
    if size <= 0 {
      return Err(BadChunkBytes);
    }
    var chunks, total := CutRanges(ranges, size);
    if chunks == [] {
      return Ok(EMPTY_PLAN);
    }
    r := PlanResolved(o, chunks, total, size, p, mode, direction);
  }

  method PlanTotal(o: Options, total: int, size: int, p: Profile, mode: Mode, direction: Direction)
    returns (r: Result<Plan, PlanError>)
    ensures r == TotalPlan(o, total, size, p, mode, direction)
  {
    if Max(0, total) == 0 {
      return Ok(EMPTY_PLAN);
    }
    if size <= 0 {
      return Err(BadChunkBytes);
    }
    var chunks := MakeChunks(total, size);
    r := PlanResolved(o, chunks, total, size, p, mode, direction);
  }

  /** The tail that plan and plan_ranges share: resolve the mode, build paths, assign. */
  method PlanResolved(o: Options, chunks: seq<Chunk>, total: int, size: int, p: Profile, mode: Mode,
                      direction: Direction)
    returns (r: Result<Plan, PlanError>)
    ensures r == ResolvedPlan(o, chunks, total, size, p, mode, direction)
  {
    var resolved := mode;
    if resolved == Pool && |chunks| < o.minChunksForRelay {
      resolved := Direct;
    }
    if resolved == Pool && o.minPoolBytes > 0 && total < o.minPoolBytes {
      resolved := Direct;
    }
    var paths := BuildPaths(o, p, resolved, direction);
    if paths == [] {
      return Err(NoPath);
    }
    r := PlanChunks(chunks, total, size, paths);
  }

  // ---------- what plans promise ----------

  /** All chunks of a plan, assignment by assignment. */
  function AssignedChunks(assignments: seq<Assignment>): seq<Chunk> {
    if assignments == [] then []
    else AssignedChunks(assignments[..|assignments| - 1]) + assignments[|assignments| - 1].chunks
  }

  lemma {:induction false} AssignmentsAreBuckets(paths: seq<Path>, chunks: seq<Chunk>, choices: seq<nat>, n: nat)
    requires n <= |paths| && |choices| == |chunks|
    ensures forall a :: a in Assignments(paths, chunks, choices, n) ==>
              a.chunks != [] && exists i :: 0 <= i < n && a == Assignment(paths[i], Bucket(chunks, choices, i))
  {
    hide Bucket;
    if n > 0 {
      AssignmentsAreBuckets(paths, chunks, choices, n - 1);
    }
  }

  lemma {:induction false} AssignedChunksAreBuckets(paths: seq<Path>, chunks: seq<Chunk>, choices: seq<nat>, n: nat)
    requires n <= |paths| && |choices| == |chunks|
    ensures AssignedChunks(Assignments(paths, chunks, choices, n)) == Buckets(chunks, choices, n)
  {
    hide Bucket;
    if n > 0 {
      AssignedChunksAreBuckets(paths, chunks, choices, n - 1);
      var (rest, bucket) := (Assignments(paths, chunks, choices, n - 1), Bucket(chunks, choices, n - 1));
      if bucket == [] {
        assert Buckets(chunks, choices, n - 1) + bucket == Buckets(chunks, choices, n - 1);
        assert rest + [] == rest;
      } else {
        assert (rest + [Assignment(paths[n - 1], bucket)])[..|rest|] == rest;
      }
    }
  }

  lemma WithoutOne(b: seq<Chunk>, j: nat)
    requires j < |b|
    ensures multiset(b[..j] + b[j + 1..]) == multiset(b) - multiset{b[j]}
  {
    assert b == b[..j] + [b[j]] + b[j + 1..];
  }

  lemma CopiesWithoutOne(b: seq<Chunk>, j: nat, s: int, d: int)
    requires j < |b|
    ensures Copies(b, s, d) == Copies(b[..j] + b[j + 1..], s, d) + if Moves(b[j], s, d) then 1 else 0
  {
    CopiesAppend(b[..j + 1], b[j + 1..], s, d);
    CopiesAppend(b[..j], b[j + 1..], s, d);
    assert b == b[..j + 1] + b[j + 1..] && b[..j + 1][..j] == b[..j];
  }

  lemma {:induction false} SamePermutationSameCopies(a: seq<Chunk>, b: seq<Chunk>, s: int, d: int)
    requires multiset(a) == multiset(b)
    ensures Copies(a, s, d) == Copies(b, s, d)
    decreases |a|
  {
    if a == [] {
      assert |multiset(b)| == 0;
    } else {
      var k := |a| - 1;
      assert a[k] in multiset(b);
      var j :| 0 <= j < |b| && b[j] == a[k];
      WithoutOne(a, k);
      WithoutOne(b, j);
      assert a[..k] + a[k + 1..] == a[..k];
      SamePermutationSameCopies(a[..k], b[..j] + b[j + 1..], s, d);
      CopiesWithoutOne(b, j, s, d);
    }
  }

  /** The plan assigns a permutation of `chunks`, path by path, and skips idle paths. */
  ghost predicate Carries(plan: Plan, paths: seq<Path>, chunks: seq<Chunk>) {
    && multiset(AssignedChunks(plan.assignments)) == multiset(chunks)
    && plan.totalBytes == TotalBytes(chunks)
    && (forall a :: a in plan.assignments ==> a.chunks != [] && IsBucketOf(a, paths, chunks))
  }

  ghost predicate IsBucketOf(a: Assignment, paths: seq<Path>, chunks: seq<Chunk>) {
    exists i :: 0 <= i < |paths| && a == Assignment(paths[i], Bucket(chunks, PathChoices(paths, chunks), i))
  }

  /**
    The outcome of planning, in full. Planning fails on a non-positive chunk size or when no
    path exists, never for lack of bandwidth; a plan assigns a permutation of the chunks of
    the ranges, each path keeps its chunks in order, and no empty assignment is emitted.
   */
  lemma PlanOutcome(o: Options, ranges: seq<Chunk>, size: int, p: Profile, mode: Mode, direction: Direction)
    ensures var r := RangesPlan(o, ranges, size, p, mode, direction);
            && (r == Err(BadChunkBytes) <==> size <= 0)
            && r != Err(ZeroBandwidth)
            && (size > 0 ==>
                  var chunks := ChunksOf(ranges, size);
                  var paths := Paths(o, p, ResolvedMode(o, mode, |chunks|, PositiveBytes(ranges)), direction);
                  && (r == Err(NoPath) <==> chunks != [] && paths == [])
                  && (r.Ok? ==> Carries(r.value, paths, chunks)))
  {
    if size > 0 {
      var chunks := ChunksOf(ranges, size);
      var paths := Paths(o, p, ResolvedMode(o, mode, |chunks|, PositiveBytes(ranges)), direction);
      ChunksOfShape(ranges, size);
      if chunks != [] && paths != [] {
        BuiltPathsCarryWeight(o, p, ResolvedMode(o, mode, |chunks|, PositiveBytes(ranges)), direction);
        var choices := PathChoices(paths, chunks);
        AssignmentsAreBuckets(paths, chunks, choices, |paths|);
        AssignedChunksAreBuckets(paths, chunks, choices, |paths|);
        BucketsArePermutation(chunks, choices, |paths|);
      }
    }
  }

  /** A plan moves exactly the bytes the ranges ask for, each exactly as often. */
  lemma PlanMeansItsRanges(o: Options, ranges: seq<Chunk>, size: int, p: Profile, mode: Mode, direction: Direction)
    requires RangesPlan(o, ranges, size, p, mode, direction).Ok?
    ensures SameMeaning(ranges, AssignedChunks(RangesPlan(o, ranges, size, p, mode, direction).value.assignments))
  {
    var carried := AssignedChunks(RangesPlan(o, ranges, size, p, mode, direction).value.assignments);
    PlanOutcome(o, ranges, size, p, mode, direction);
    forall s, d ensures Copies(ranges, s, d) == Copies(carried, s, d) {
      ChunksOfCopies(ranges, size, s, d);
      SamePermutationSameCopies(ChunksOf(ranges, size), carried, s, d);
    }
  }

  /**
    Running a plan leaves the destination as copying the ranges whole would, however the
    bytes of the different paths interleave.
   */
  lemma PlanPreservesMeaning<B>(o: Options, ranges: seq<Chunk>, size: int, p: Profile, mode: Mode, direction: Direction,
                                steps: seq<Step>, source: seq<B>, target: seq<B>)
    requires RangesPlan(o, ranges, size, p, mode, direction).Ok?
    requires AllFit(ranges, |source|, |target|) && DisjointTargets(ranges)
    requires Interleaves(steps, AssignedChunks(RangesPlan(o, ranges, size, p, mode, direction).value.assignments))
    ensures StepsFit(steps, |source|, |target|)
    ensures Perform(steps, source, target) == CopyAll(ranges, source, target)
  {
    PlanMeansItsRanges(o, ranges, size, p, mode, direction);
    DisjointIsSingleWriter(ranges);
    AnyInterleaving(steps, ranges, source, target);
  }

  /** plan(n) is plan_ranges on the one range (0, 0, n), unless n and the chunk size are both unusable. */
  lemma TotalPlanIsRangesPlan(o: Options, total: int, size: int, p: Profile, mode: Mode, direction: Direction)
    ensures TotalPlan(o, total, size, p, mode, direction)
              == RangesPlan(o, [Chunk(0, 0, total, None)], size, p, mode, direction)
        <==> size > 0 || total > 0
  {
    hide ResolvedPlan;
    var whole := Chunk(0, 0, total, None);
    assert [whole][..0] == [];
    if size > 0 {
      assert ChunksOf([whole], size) == if total <= 0 then [] else ChunksFrom(whole, size, 0);
      assert PositiveBytes([whole]) == Max(0, total);
      assert total > 0 ==> ChunksFrom(whole, size, 0) != [];
    }
  }

  /** The finish time of path i under the planner's own choices. */
  ghost function FinishTime(paths: seq<Path>, chunks: seq<Chunk>, i: nat): real
    requires i < |paths|
  {
    Time(TotalBytes(Bucket(chunks, PathChoices(paths, chunks), i)) as real, Clamped(PathWeights(paths))[i])
  }

  lemma PathFinishBound(ranges: seq<Chunk>, size: int, paths: seq<Path>, other: seq<nat>, finish: real, i: nat)
    requires size > 0 && i < |paths| && IsAssignment(ChunksOf(ranges, size), other, |paths|)
    requires FinishesBy(ChunksOf(ranges, size), other, Clamped(PathWeights(paths)), finish)
    ensures var (total, sum) := (PositiveBytes(ranges) as real, Sum(Clamped(PathWeights(paths))));
            && sum > 0.0
            && FinishTime(paths, ChunksOf(ranges, size), i) <= TimeLimit(total, |paths|, size as real, sum)
            && Time(total, sum) <= finish
  {
    hide Time, TimeLimit, Sum, GreedyChoices, Load, FinishesBy, Bucket, ChunksOf;
    var chunks := ChunksOf(ranges, size);
    var weights := Clamped(PathWeights(paths));
    ChunksOfShape(ranges, size);
    TotalIsBytes(chunks);
    GreedyFinishBound(chunks, weights, size as real, i);
    LoadIsBucketBytes(chunks, PathChoices(paths, chunks), i);
    AnyAssignmentNeeds(chunks, other, weights, finish);
  }

  lemma PathWithinFactorTwo(ranges: seq<Chunk>, size: int, paths: seq<Path>, other: seq<nat>, finish: real, i: nat)
    requires size > 0 && i < |paths| && IsAssignment(ChunksOf(ranges, size), other, |paths|)
    requires forall j, k :: 0 <= j < |paths| && 0 <= k < |paths| ==>
               SchedulerWeight(paths[j]) == SchedulerWeight(paths[k])
    requires FinishesBy(ChunksOf(ranges, size), other, Clamped(PathWeights(paths)), finish)
    ensures FinishTime(paths, ChunksOf(ranges, size), i) <= (2.0 - 1.0 / (|paths| as real)) * finish
  {
    hide Time, GreedyChoices, Load, FinishesBy, Bucket, ChunksOf, SchedulerWeight;
    var chunks := ChunksOf(ranges, size);
    ChunksOfShape(ranges, size);
    GreedyWithinFactorTwo(chunks, Clamped(PathWeights(paths)), other, finish, i);
    LoadIsBucketBytes(chunks, PathChoices(paths, chunks), i);
  }

  /** The paths plan_ranges builds for these ranges. */
  function PlannedPaths(o: Options, ranges: seq<Chunk>, size: int, p: Profile, mode: Mode,
                        direction: Direction): seq<Path>
    requires size > 0
  {
    Paths(o, p, ResolvedMode(o, mode, |ChunksOf(ranges, size)|, PositiveBytes(ranges)), direction)
  }

  /** When the path of an assignment has moved all its chunks. */
  function AssignmentTime(a: Assignment): real {
    Time(TotalBytes(a.chunks) as real, MaxReal(SchedulerWeight(a.path), SMALLEST_WEIGHT))
  }

  /** An assignment of a plan belongs to one of the planned paths. */
  lemma AssignmentHasPath(o: Options, ranges: seq<Chunk>, size: int, p: Profile, mode: Mode, direction: Direction,
                          a: Assignment)
    returns (i: nat)
    requires RangesPlan(o, ranges, size, p, mode, direction).Ok?
    requires a in RangesPlan(o, ranges, size, p, mode, direction).value.assignments
    ensures size > 0 && i < |PlannedPaths(o, ranges, size, p, mode, direction)|
    ensures AssignmentTime(a)
         == FinishTime(PlannedPaths(o, ranges, size, p, mode, direction), ChunksOf(ranges, size), i)
  {
    hide Time, ChunksOf, Bucket, Paths, SchedulerWeight;
    PlanOutcome(o, ranges, size, p, mode, direction);
    var (paths, chunks) := (PlannedPaths(o, ranges, size, p, mode, direction), ChunksOf(ranges, size));
    assert IsBucketOf(a, paths, chunks);
    i :| i < |paths| && a == Assignment(paths[i], Bucket(chunks, PathChoices(paths, chunks), i));
  }

  /**
    Every assignment of a plan is done by (T + (n - 1) * B) / W, B being the chunk size, while any
    way to give the same chunks to the same paths needs at least T / W.
   */
  lemma PlanFinishBound(o: Options, ranges: seq<Chunk>, size: int, p: Profile, mode: Mode, direction: Direction,
                        a: Assignment, other: seq<nat>, finish: real)
    requires RangesPlan(o, ranges, size, p, mode, direction).Ok?
    requires a in RangesPlan(o, ranges, size, p, mode, direction).value.assignments
    requires var paths := PlannedPaths(o, ranges, size, p, mode, direction);
             && IsAssignment(ChunksOf(ranges, size), other, |paths|)
             && FinishesBy(ChunksOf(ranges, size), other, Clamped(PathWeights(paths)), finish)
    ensures var paths := PlannedPaths(o, ranges, size, p, mode, direction);
            var (total, sum) := (PositiveBytes(ranges) as real, Sum(Clamped(PathWeights(paths))));
            && sum > 0.0
            && AssignmentTime(a) <= TimeLimit(total, |paths|, size as real, sum)
            && Time(total, sum) <= finish
  {
    hide Time, TimeLimit, Sum, FinishesBy, ChunksOf, RangesPlan, PlannedPaths, AssignmentTime, FinishTime;
    var i := AssignmentHasPath(o, ranges, size, p, mode, direction, a);
    PathFinishBound(ranges, size, PlannedPaths(o, ranges, size, p, mode, direction), other, finish, i);
  }

  /** Over paths of equal weight no way to give out the chunks beats a plan by more than 2 - 1/n. */
  lemma PlanWithinFactorTwo(o: Options, ranges: seq<Chunk>, size: int, p: Profile, mode: Mode, direction: Direction,
                            a: Assignment, other: seq<nat>, finish: real)
    requires RangesPlan(o, ranges, size, p, mode, direction).Ok?
    requires a in RangesPlan(o, ranges, size, p, mode, direction).value.assignments
    requires var paths := PlannedPaths(o, ranges, size, p, mode, direction);
             && (forall path, path' :: path in paths && path' in paths ==>
                   SchedulerWeight(path) == SchedulerWeight(path'))
             && IsAssignment(ChunksOf(ranges, size), other, |paths|)
             && FinishesBy(ChunksOf(ranges, size), other, Clamped(PathWeights(paths)), finish)
    ensures AssignmentTime(a)
         <= (2.0 - 1.0 / (|PlannedPaths(o, ranges, size, p, mode, direction)| as real)) * finish
  {
    hide Time, FinishesBy, ChunksOf, RangesPlan, PlannedPaths, AssignmentTime, FinishTime, SchedulerWeight;
    var i := AssignmentHasPath(o, ranges, size, p, mode, direction, a);
    PathWithinFactorTwo(ranges, size, PlannedPaths(o, ranges, size, p, mode, direction), other, finish, i);
  }

  lemma {:induction false} TotalIsBytes(chunks: seq<Chunk>)
    ensures Total(chunks) == TotalBytes(chunks) as real
  {
    if chunks != [] {
      TotalIsBytes(chunks[..|chunks| - 1]);
    }
  }
}
