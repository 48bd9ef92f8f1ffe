/**
  The cost records a plan carries: per path the bytes and chunks it was given and the time they
  should take. Assignments are looked up by a key of the path, not by its position.
 */
module PlanCost {
  import opened Common
  import opened Transfers
  import opened Chunking
  import opened Scheduling
  import opened Planner

  datatype PathKey = PathKey(kind: PathKind, direction: Direction, targetDevice: int, relayDevice: int)

  datatype CostRecord = CostRecord(
    key: PathKey, effective: real, weight: real, explicit: bool, pressure: real,
    assignedBytes: int, assignedChunks: nat, finishSeconds: real)

  datatype CostError = WeightsDoNotMatch

  const BYTES_PER_SECOND := 1000000000.0

  function KeyOf(path: Path): PathKey { PathKey(path.kind, path.direction, path.targetDevice, path.relayDevice) }

  /** A dictionary of assignments: of several with one key the last stays. */
  function ByKey(assignments: seq<Assignment>): map<PathKey, seq<Chunk>> {
    if assignments == [] then map[]
    else
      var last := assignments[|assignments| - 1];
      ByKey(assignments[..|assignments| - 1])[KeyOf(last.path) := last.chunks]
  }

  function GivenTo(byKey: map<PathKey, seq<Chunk>>, path: Path): seq<Chunk> {
    if KeyOf(path) in byKey then byKey[KeyOf(path)] else []
  }

  function FinishSeconds(bytes: int, weight: real): real {
    if bytes <= 0 then 0.0 else bytes as real / (MaxReal(weight, SMALLEST_WEIGHT) * BYTES_PER_SECOND)
  }

  function RecordOf(path: Path, weight: real, byKey: map<PathKey, seq<Chunk>>): CostRecord {
    var (given, w) := (GivenTo(byKey, path), MaxReal(0.0, weight));
    CostRecord(KeyOf(path), path.effective, w, path.weight > 0.0, path.pressure,
               TotalBytes(given), |given|, FinishSeconds(TotalBytes(given), w))
  }

  function CostRecords(paths: seq<Path>, weights: seq<real>,
                       byKey: map<PathKey, seq<Chunk>>): (records: seq<CostRecord>)
    requires |weights| == |paths|
    ensures |records| == |paths| && forall i :: 0 <= i < |paths| ==> records[i] == RecordOf(paths[i], weights[i], byKey)
  {
    seq(|paths|, i requires 0 <= i < |paths| => RecordOf(paths[i], weights[i], byKey))
  }

  method PlanCostMetadata(paths: seq<Path>, assignments: seq<Assignment>, weights: seq<real>)
    returns (r: Result<seq<CostRecord>, CostError>)
    ensures |weights| != |paths| ==> r == Err(WeightsDoNotMatch)
    ensures |weights| == |paths| ==> r == Ok(CostRecords(paths, weights, ByKey(assignments)))
  {
    if |weights| != |paths| {
      return Err(WeightsDoNotMatch);
    }
    var byKey: map<PathKey, seq<Chunk>> := map[];
    for i := 0 to |assignments|
      invariant byKey == ByKey(assignments[..i])
    {
      assert assignments[..i + 1][..i] == assignments[..i];
      byKey := byKey[KeyOf(assignments[i].path) := assignments[i].chunks];
    }
    assert assignments[..|assignments|] == assignments;
    var records := [];
    ghost var all := CostRecords(paths, weights, byKey);
    for i := 0 to |paths|
      invariant records == all[..i]
    {
      records := records + [RecordOf(paths[i], weights[i], byKey)];
    }
    assert all[..|paths|] == all;
    return Ok(records);
  }

  // ---------- faithful records ----------

  predicate DistinctKeys(paths: seq<Path>) {
    forall i, j :: 0 <= i < j < |paths| ==> KeyOf(paths[i]) != KeyOf(paths[j])
  }

  lemma GivenSnoc(rest: seq<Assignment>, a: Assignment, path: Path)
    ensures GivenTo(ByKey(rest + [a]), path)
         == if KeyOf(path) == KeyOf(a.path) then a.chunks else GivenTo(ByKey(rest), path)
  {
    hide KeyOf;
    assert (rest + [a])[..|rest|] == rest;
  }

  /** No other path with the key of path i got a chunk. */
  ghost predicate Sole(paths: seq<Path>, chunks: seq<Chunk>, choices: seq<nat>, i: nat)
    requires |choices| == |chunks| && i < |paths|
  {
    forall j: nat :: j < |paths| && j != i && KeyOf(paths[j]) == KeyOf(paths[i]) ==> Bucket(chunks, choices, j) == []
  }

  /** Then whoever asks under this key gets the chunks of path i. */
  lemma {:induction false} GivenIsBucket(paths: seq<Path>, chunks: seq<Chunk>, choices: seq<nat>, n: nat, i: nat,
                                         path: Path)
    requires n <= |paths| && |choices| == |chunks| && i < |paths| && Sole(paths, chunks, choices, i)
    requires KeyOf(path) == KeyOf(paths[i])
    ensures GivenTo(ByKey(Assignments(paths, chunks, choices, n)), path)
         == if i < n then Bucket(chunks, choices, i) else []
  {
    hide Bucket, ByKey, GivenTo, KeyOf;
    if n == 0 {
      NothingGiven(path);
    } else {
      GivenIsBucket(paths, chunks, choices, n - 1, i, path);
      var (rest, bucket) := (Assignments(paths, chunks, choices, n - 1), Bucket(chunks, choices, n - 1));
      if bucket == [] {
        assert rest + [] == rest;
      } else {
        GivenSnoc(rest, Assignment(paths[n - 1], bucket), path);
      }
    }
  }

  lemma NothingGiven(path: Path)
    ensures GivenTo(ByKey([]), path) == []
  {
  }

  /** With distinct keys each record is about its own path: its chunks, its bytes, and their time at its weight. */
  lemma RecordsAreFaithful(paths: seq<Path>, chunks: seq<Chunk>, choices: seq<nat>, weights: seq<real>, i: nat)
    requires DistinctKeys(paths) && |choices| == |chunks| && |weights| == |paths| && i < |paths|
    ensures var byKey := ByKey(Assignments(paths, chunks, choices, |paths|));
            var (record, bucket) := (CostRecords(paths, weights, byKey)[i], Bucket(chunks, choices, i));
            && record.assignedBytes == TotalBytes(bucket) && record.assignedChunks == |bucket|
            && record.finishSeconds == FinishSeconds(TotalBytes(bucket), MaxReal(0.0, weights[i]))
  {
    GivenIsBucket(paths, chunks, choices, |paths|, i, paths[i]);
  }

  /** Paths have one key exactly when they agree in kind, direction and both devices. */
  lemma SameKeyIff(a: Path, b: Path)
    ensures KeyOf(a) == KeyOf(b) <==>
              a.kind == b.kind && a.direction == b.direction && a.targetDevice == b.targetDevice
              && a.relayDevice == b.relayDevice
  {
  }

  /** What a record says about its path: its devices, how its weight was given, and bytes = seconds * weight * 10^9. */
  lemma RecordIs(path: Path, weight: real, byKey: map<PathKey, seq<Chunk>>)
    ensures var r := RecordOf(path, weight, byKey);
            && r.key.kind == path.kind && r.key.direction == path.direction
            && r.key.targetDevice == path.targetDevice && r.key.relayDevice == path.relayDevice
            && r.effective == path.effective && r.pressure == path.pressure && (r.explicit <==> !(path.weight <= 0.0))
            && r.weight == (if weight >= 0.0 then weight else 0.0)
            && (r.assignedBytes <= 0 ==> r.finishSeconds == 0.0)
            && (r.assignedBytes > 0 && weight >= 0.000000000001 ==>
                  r.finishSeconds * weight * 1000000000.0 == r.assignedBytes as real)
            && (r.assignedBytes > 0 && weight < 0.000000000001 ==>
                  r.finishSeconds * 0.001 == r.assignedBytes as real)
  {
    hide GivenTo;
    var bytes := TotalBytes(GivenTo(byKey, path));
    var w := MaxReal(MaxReal(0.0, weight), SMALLEST_WEIGHT);
    if bytes > 0 {
      assert bytes as real / (w * BYTES_PER_SECOND) * (w * BYTES_PER_SECOND) == bytes as real;
      var seconds := FinishSeconds(bytes, MaxReal(0.0, weight));
      assert seconds * w * 1000000000.0 == seconds * (w * 1000000000.0);
    }
  }

  /** The recorded finish time is the one the greedy assignment minimized, in seconds. */
  lemma RecordedFinishIsScheduled(paths: seq<Path>, chunks: seq<Chunk>, i: nat)
    requires DistinctKeys(paths) && i < |paths| && TotalBytes(Bucket(chunks, PathChoices(paths, chunks), i)) >= 0
    ensures var assignments := Assignments(paths, chunks, PathChoices(paths, chunks), |paths|);
            CostRecords(paths, PathWeights(paths), ByKey(assignments))[i].finishSeconds * BYTES_PER_SECOND
              == FinishTime(paths, chunks, i)
  {
    hide Bucket, PathChoices, PathWeights, FinishSeconds, Time, MaxReal;
    RecordsAreFaithful(paths, chunks, PathChoices(paths, chunks), PathWeights(paths), i);
    SecondsAreTime(TotalBytes(Bucket(chunks, PathChoices(paths, chunks), i)), PathWeights(paths)[i]);
  }

  lemma SecondsAreTime(bytes: int, w: real)
    requires bytes >= 0
    ensures MaxReal(w, SMALLEST_WEIGHT) > 0.0
    ensures FinishSeconds(bytes, MaxReal(0.0, w)) * BYTES_PER_SECOND == Time(bytes as real, MaxReal(w, SMALLEST_WEIGHT))
  {
    var v := MaxReal(w, SMALLEST_WEIGHT);
    assert MaxReal(MaxReal(0.0, w), SMALLEST_WEIGHT) == v;
    QuotientOfProduct(bytes as real, v, BYTES_PER_SECOND);
  }

  lemma QuotientOfProduct(a: real, v: real, c: real)
    requires v > 0.0 && c > 0.0
    ensures v * c > 0.0 && a / (v * c) == a / v / c
  {
    var q := a / v / c;
    assert q * c == a / v;
    assert q * c * v == a;
    assert q * (v * c) == a;
  }

  // ---------- conservation ----------

  function RecordedBytes(records: seq<CostRecord>): int {
    if records == [] then 0 else RecordedBytes(records[..|records| - 1]) + records[|records| - 1].assignedBytes
  }

  function BucketBytes(chunks: seq<Chunk>, choices: seq<nat>, n: nat): int
    requires |choices| == |chunks|
  {
    if n == 0 then 0 else BucketBytes(chunks, choices, n - 1) + TotalBytes(Bucket(chunks, choices, n - 1))
  }

  lemma {:induction false} BucketBytesStep(chunks: seq<Chunk>, choices: seq<nat>, n: nat)
    requires |choices| == |chunks| > 0
    ensures BucketBytes(chunks, choices, n) == BucketBytes(chunks[..|chunks| - 1], choices[..|chunks| - 1], n)
              + if choices[|chunks| - 1] < n then chunks[|chunks| - 1].bytes else 0
  {
    if n > 0 {
      BucketBytesStep(chunks, choices, n - 1);
      var k := |chunks| - 1;
      TotalAppend(Bucket(chunks[..k], choices[..k], n - 1), if choices[k] == n - 1 then [chunks[k]] else []);
      SingleTotal(chunks[k]);
    }
  }

  lemma SingleTotal(c: Chunk)
    ensures TotalBytes([c]) == c.bytes && TotalBytes([]) == 0
  {
    assert [c][..0] == [];
  }

  lemma {:induction false} BucketBytesAreTotal(chunks: seq<Chunk>, choices: seq<nat>, n: nat)
    requires IsAssignment(chunks, choices, n)
    ensures BucketBytes(chunks, choices, n) == TotalBytes(chunks)
  {
    if chunks == [] {
      NoBucketBytes(n);
      assert choices == [];
    } else {
      var k := |chunks| - 1;
      BucketBytesAreTotal(chunks[..k], choices[..k], n);
      BucketBytesStep(chunks, choices, n);
    }
  }

  lemma {:induction false} NoBucketBytes(n: nat)
    ensures BucketBytes([], [], n) == 0
  {
    if n > 0 {
      NoBucketBytes(n - 1);
    }
  }

  function RecordsFor(paths: seq<Path>, chunks: seq<Chunk>, choices: seq<nat>): (records: seq<CostRecord>)
    requires |choices| == |chunks|
    ensures |records| == |paths|
  {
    CostRecords(paths, PathWeights(paths), ByKey(Assignments(paths, chunks, choices, |paths|)))
  }

  lemma {:induction false} RecordedPrefix(paths: seq<Path>, chunks: seq<Chunk>, choices: seq<nat>, n: nat)
    requires DistinctKeys(paths) && |choices| == |chunks| && n <= |paths|
    ensures RecordedBytes(RecordsFor(paths, chunks, choices)[..n]) == BucketBytes(chunks, choices, n)
  {
    hide Bucket;
    var records := RecordsFor(paths, chunks, choices);
    if n > 0 {
      RecordedPrefix(paths, chunks, choices, n - 1);
      RecordsAreFaithful(paths, chunks, choices, PathWeights(paths), n - 1);
      assert records[..n][..n - 1] == records[..n - 1];
    } else {
      assert records[..0] == [];
    }
  }

  ghost predicate Conserves(paths: seq<Path>, chunks: seq<Chunk>, choices: seq<nat>)
    requires |choices| == |chunks|
  {
    IsAssignment(chunks, choices, |paths|) ==> RecordedBytes(RecordsFor(paths, chunks, choices)) == TotalBytes(chunks)
  }

  lemma DistinctKeysConserve(paths: seq<Path>, chunks: seq<Chunk>, choices: seq<nat>)
    requires DistinctKeys(paths) && |choices| == |chunks|
    ensures Conserves(paths, chunks, choices)
  {
    if IsAssignment(chunks, choices, |paths|) {
      RecordedPrefix(paths, chunks, choices, |paths|);
      BucketBytesAreTotal(chunks, choices, |paths|);
      assert RecordsFor(paths, chunks, choices)[..|paths|] == RecordsFor(paths, chunks, choices);
    }
  }

  // ---------- shared keys ----------

  /** Path j is the last one of its key, and path i has the same key. */
  ghost predicate LastTwin(paths: seq<Path>, i: nat, j: nat) {
    && i < j < |paths| && KeyOf(paths[i]) == KeyOf(paths[j])
    && forall q :: j < q < |paths| ==> KeyOf(paths[q]) != KeyOf(paths[j])
  }

  lemma FindLastTwin(paths: seq<Path>, i: nat, j: nat) returns (last: nat)
    requires i < j < |paths| && KeyOf(paths[i]) == KeyOf(paths[j])
    ensures LastTwin(paths, i, last)
    decreases |paths| - j
  {
    if q: nat :| j < q < |paths| && KeyOf(paths[q]) == KeyOf(paths[j]) {
      last := FindLastTwin(paths, i, q);
    } else {
      last := j;
    }
  }

  /** Of the assignments under one key the last one counts. */
  lemma {:induction false} GivenIsLast(paths: seq<Path>, chunks: seq<Chunk>, choices: seq<nat>, j: nat, n: nat,
                                       path: Path)
    requires |choices| == |chunks| && j < n <= |paths| && Bucket(chunks, choices, j) != []
    requires KeyOf(path) == KeyOf(paths[j]) && forall q :: j < q < |paths| ==> KeyOf(paths[q]) != KeyOf(paths[j])
    ensures GivenTo(ByKey(Assignments(paths, chunks, choices, n)), path) == Bucket(chunks, choices, j)
  {
    hide Bucket, ByKey, GivenTo, KeyOf;
    if n > j + 1 {
      GivenIsLast(paths, chunks, choices, j, n - 1, path);
    }
    AssignmentsNext(paths, chunks, choices, n - 1, path);
  }

  lemma AssignmentsNext(paths: seq<Path>, chunks: seq<Chunk>, choices: seq<nat>, n: nat, path: Path)
    requires |choices| == |chunks| && n < |paths|
    ensures GivenTo(ByKey(Assignments(paths, chunks, choices, n + 1)), path)
         == if Bucket(chunks, choices, n) != [] && KeyOf(path) == KeyOf(paths[n]) then Bucket(chunks, choices, n)
            else GivenTo(ByKey(Assignments(paths, chunks, choices, n)), path)
  {
    hide Bucket, ByKey, GivenTo, KeyOf;
    var (rest, bucket) := (Assignments(paths, chunks, choices, n), Bucket(chunks, choices, n));
    if bucket == [] {
      assert rest + [] == rest;
    } else {
      GivenSnoc(rest, Assignment(paths[n], bucket), path);
    }
  }

  /** A chunk for path j changes nothing under other keys. */
  lemma {:induction false} GivenUnchanged(paths: seq<Path>, chunks: seq<Chunk>, choices: seq<nat>, c: Chunk, j: nat,
                                          n: nat, path: Path)
    requires |choices| == |chunks| && j < |paths| && n <= |paths| && KeyOf(path) != KeyOf(paths[j])
    ensures GivenTo(ByKey(Assignments(paths, chunks + [c], choices + [j], n)), path)
         == GivenTo(ByKey(Assignments(paths, chunks, choices, n)), path)
  {
    hide Bucket, ByKey, GivenTo, KeyOf;
    if n > 0 {
      GivenUnchanged(paths, chunks, choices, c, j, n - 1, path);
      BucketSnoc(chunks, choices, c, j, n - 1);
      AssignmentsNext(paths, chunks, choices, n - 1, path);
      AssignmentsNext(paths, chunks + [c], choices + [j], n - 1, path);
    }
  }

  /** A further chunk for the last twin enlarges the record of every path of its key, and no other. */
  lemma RecordAfter(paths: seq<Path>, chunks: seq<Chunk>, choices: seq<nat>, c: Chunk, i: nat, j: nat, n: nat)
    requires |choices| == |chunks| && LastTwin(paths, i, j) && n < |paths| && Bucket(chunks, choices, j) != []
    ensures RecordsFor(paths, chunks + [c], choices + [j])[n].assignedBytes
         == RecordsFor(paths, chunks, choices)[n].assignedBytes
            + if KeyOf(paths[n]) == KeyOf(paths[j]) then c.bytes else 0
  {
    hide Bucket, ByKey, GivenTo, KeyOf;
    if KeyOf(paths[n]) == KeyOf(paths[j]) {
      BucketSnoc(chunks, choices, c, j, j);
      GivenIsLast(paths, chunks, choices, j, |paths|, paths[n]);
      GivenIsLast(paths, chunks + [c], choices + [j], j, |paths|, paths[n]);
      TotalAppend(Bucket(chunks, choices, j), [c]);
      SingleTotal(c);
    } else {
      GivenUnchanged(paths, chunks, choices, c, j, |paths|, paths[n]);
    }
  }

  lemma {:induction false} CountedTwice(paths: seq<Path>, chunks: seq<Chunk>, choices: seq<nat>, c: Chunk,
                                        i: nat, j: nat, n: nat)
    requires |choices| == |chunks| && LastTwin(paths, i, j) && n <= |paths|
    requires Bucket(chunks, choices, j) != [] && c.bytes > 0
    ensures RecordedBytes(RecordsFor(paths, chunks + [c], choices + [j])[..n])
         >= RecordedBytes(RecordsFor(paths, chunks, choices)[..n])
            + (if i < n then c.bytes else 0) + (if j < n then c.bytes else 0)
  {
    hide RecordsFor, Bucket, KeyOf;
    var (before, after) := (RecordsFor(paths, chunks, choices), RecordsFor(paths, chunks + [c], choices + [j]));
    if n > 0 {
      CountedTwice(paths, chunks, choices, c, i, j, n - 1);
      RecordAfter(paths, chunks, choices, c, i, j, n - 1);
      assert before[..n][..n - 1] == before[..n - 1] && after[..n][..n - 1] == after[..n - 1];
    } else {
      assert before[..0] == [] && after[..0] == [];
    }
  }

  /** So the records cannot add up both before and after that chunk. */
  lemma NotBothConserve(paths: seq<Path>, chunks: seq<Chunk>, choices: seq<nat>, c: Chunk, i: nat, j: nat)
    requires IsAssignment(chunks, choices, |paths|) && LastTwin(paths, i, j)
    requires Bucket(chunks, choices, j) != [] && c.bytes > 0
    ensures !(Conserves(paths, chunks, choices) && Conserves(paths, chunks + [c], choices + [j]))
  {
    hide RecordsFor, RecordedBytes, KeyOf, Bucket;
    CountedTwice(paths, chunks, choices, c, i, j, |paths|);
    var (before, after) := (RecordsFor(paths, chunks, choices), RecordsFor(paths, chunks + [c], choices + [j]));
    assert before[..|paths|] == before && after[..|paths|] == after;
    TotalAppend(chunks, [c]);
    SingleTotal(c);
  }

  // ---------- the greedy rule serves the last twin ----------

  /** The planner's chunks of the range (0, 0, m) at a chunk size of 1. */
  function Bytes(m: nat): (chunks: seq<Chunk>)
    ensures |chunks| == m && forall k :: 0 <= k < m ==> chunks[k] == Byte(k)
  {
    seq(m, k requires 0 <= k < m => Byte(k))
  }

  function Byte(k: nat): Chunk { Chunk(k, k, 1, None) }

  function ByteLoad(paths: seq<Path>, m: nat, i: nat): real
    requires paths != []
  {
    Load(Bytes(m), PathChoices(paths, Bytes(m)), i)
  }

  /** One byte more goes to one path. */
  lemma ByteStep(paths: seq<Path>, m: nat) returns (p: nat)
    requires paths != []
    ensures Bytes(m + 1) == Bytes(m) + [Byte(m)]
    ensures PathChoices(paths, Bytes(m + 1)) == PathChoices(paths, Bytes(m)) + [p]
    ensures forall i: nat :: ByteLoad(paths, m + 1, i) == ByteLoad(paths, m, i) + if p == i then 1.0 else 0.0
  {
    hide GreedyChoices, Load;
    assert Bytes(m + 1) == Bytes(m) + [Byte(m)];
    var weights := Clamped(PathWeights(paths));
    GreedySnoc(Bytes(m), weights, Byte(m));
    p := BestPath(Loads(Bytes(m), GreedyChoices(Bytes(m), weights), |weights|), weights, Size(Byte(m)), |weights|);
    forall i: nat ensures ByteLoad(paths, m + 1, i) == ByteLoad(paths, m, i) + if p == i then 1.0 else 0.0 {
      BucketSnoc(Bytes(m), PathChoices(paths, Bytes(m)), Byte(m), p, i);
    }
  }

  lemma {:induction false} BytesTotal(m: nat)
    ensures Total(Bytes(m)) == m as real
  {
    if m > 0 {
      BytesTotal(m - 1);
      assert Bytes(m)[..m - 1] == Bytes(m - 1);
    }
  }

  /** Enough bytes to give path i more than a load. */
  lemma BytesReach(paths: seq<Path>, i: nat, load: real, atLeast: nat) returns (m: nat)
    requires i < |paths|
    ensures m >= atLeast && ByteLoad(paths, m, i) > load
  {
    hide Load, SumTo, GreedyChoices, Total, Bytes;
    var weights := Clamped(PathWeights(paths));
    var w := weights[i];
    m := MoreThan((|weights| as real - 1.0) * 1.0 * (Sum(weights) - w) + load * Sum(weights), w, atLeast);
    BytesTotal(m);
    GreedyServesEveryPath(Bytes(m), weights, 1.0, i, load);
  }

  lemma MoreThan(a: real, w: real, atLeast: nat) returns (m: nat)
    requires w > 0.0
    ensures m >= atLeast && m as real * w > a
  {
    var q := a / w;
    m := Max(atLeast, q.Floor + 1);
    assert q * w == a;
    assert m as real > q;
    Product(m as real, q, w);
  }

  lemma Product(x: real, y: real, w: real)
    requires x > y && w > 0.0
    ensures x * w > y * w
  {
  }

  /** A byte that path i gets after some number of bytes, and not as its first. */
  lemma {:induction false} LaterByte(paths: seq<Path>, i: nat, from: nat, n: nat) returns (k: nat)
    requires i < |paths| && 0.0 < ByteLoad(paths, from, i) < ByteLoad(paths, from + n, i)
    ensures from <= k && ByteLoad(paths, k, i) > 0.0
    ensures PathChoices(paths, Bytes(k + 1)) == PathChoices(paths, Bytes(k)) + [i]
    decreases n
  {
    hide ByteLoad, PathChoices, Bytes;
    var p := ByteStep(paths, from);
    if p == i {
      k := from;
    } else {
      k := LaterByte(paths, i, from + 1, n - 1);
    }
  }

  /** With two paths of one key, the records fail to add up for arbitrarily many bytes. */
  lemma SharedKeyFails(paths: seq<Path>, atLeast: nat) returns (m: nat)
    requires !DistinctKeys(paths)
    ensures paths != [] && m >= atLeast && !Conserves(paths, Bytes(m), PathChoices(paths, Bytes(m)))
  {
    hide ByteLoad, PathChoices, Bytes, Conserves, KeyOf, LastTwin;
    var i: nat, q: nat :| i < q < |paths| && KeyOf(paths[i]) == KeyOf(paths[q]);
    var j := FindLastTwin(paths, i, q);
    TwinInRange(paths, i, j);
    var from := BytesReach(paths, j, 0.0, atLeast);
    var to := BytesReach(paths, j, ByteLoad(paths, from, j), from);
    var k := LaterByte(paths, j, from, to - from);
    var p := ByteStep(paths, k);
    LoadedBucket(paths, k, j);
    NotBothConserve(paths, Bytes(k), PathChoices(paths, Bytes(k)), Byte(k), i, j);
    m := if Conserves(paths, Bytes(k), PathChoices(paths, Bytes(k))) then k + 1 else k;
  }

  lemma TwinInRange(paths: seq<Path>, i: nat, j: nat)
    requires LastTwin(paths, i, j)
    ensures j < |paths|
  {
  }

  lemma LoadedBucket(paths: seq<Path>, m: nat, i: nat)
    requires paths != [] && ByteLoad(paths, m, i) > 0.0
    ensures Bucket(Bytes(m), PathChoices(paths, Bytes(m)), i) != []
  {
    hide Bucket, Bytes, PathChoices;
    LoadIsBucketBytes(Bytes(m), PathChoices(paths, Bytes(m)), i);
    SingleTotal(Byte(0));
  }

  /**
    Over the planner's own choices the recorded bytes add up to the plan's for every chunk list
    if and only if no two paths share a key.
   */
  lemma RecordsConserveIff(paths: seq<Path>)
    requires paths != []
    ensures (forall chunks :: Conserves(paths, chunks, PathChoices(paths, chunks))) <==> DistinctKeys(paths)
  {
    hide Conserves, PathChoices, DistinctKeys;
    if DistinctKeys(paths) {
      forall chunks ensures Conserves(paths, chunks, PathChoices(paths, chunks)) {
        DistinctKeysConserve(paths, chunks, PathChoices(paths, chunks));
      }
    } else {
      var m := SharedKeyFails(paths, 0);
    }
  }

  // ---------- whole plans ----------

  /** The records a plan carries add up to its total. */
  ghost predicate PlanConserves(o: Options, ranges: seq<Chunk>, size: int, p: Profile, mode: Mode,
                                direction: Direction) {
    var r := RangesPlan(o, ranges, size, p, mode, direction);
    r.Ok? ==>
      var resolved := ResolvedMode(o, mode, |ChunksOf(ranges, size)|, PositiveBytes(ranges));
      var paths := Paths(o, p, resolved, direction);
      RecordedBytes(CostRecords(paths, PathWeights(paths), ByKey(r.value.assignments))) == r.value.totalBytes
  }

  ghost predicate ChunksConserve(paths: seq<Path>, chunks: seq<Chunk>)
    requires paths != []
  {
    Conserves(paths, chunks, PathChoices(paths, chunks))
  }

  lemma NoRecordedBytes(paths: seq<Path>, n: nat)
    requires n <= |paths|
    ensures RecordedBytes(CostRecords(paths, PathWeights(paths), ByKey([]))[..n]) == 0
  {
    var records := CostRecords(paths, PathWeights(paths), ByKey([]));
    if n > 0 {
      NoRecordedBytes(paths, n - 1);
      NothingGiven(paths[n - 1]);
      assert records[..n][..n - 1] == records[..n - 1];
    }
  }

  /** A plan conserves exactly when the records of its chunks do. */
  lemma PlanConservesWhen(o: Options, ranges: seq<Chunk>, size: int, p: Profile, mode: Mode, direction: Direction)
    requires size > 0
    ensures var chunks := ChunksOf(ranges, size);
            var paths := Paths(o, p, ResolvedMode(o, mode, |chunks|, PositiveBytes(ranges)), direction);
            PlanConserves(o, ranges, size, p, mode, direction)
              == (chunks == [] || paths == [] || ChunksConserve(paths, chunks))
  {
    hide RecordedBytes, CostRecords, PathChoices, Assignments, ByKey;
    var chunks := ChunksOf(ranges, size);
    var resolved := ResolvedMode(o, mode, |chunks|, PositiveBytes(ranges));
    var paths := Paths(o, p, resolved, direction);
    ChunksOfShape(ranges, size);
    if chunks == [] {
      NoRecordedBytes(paths, |paths|);
      var records := CostRecords(paths, PathWeights(paths), ByKey([]));
      assert records[..|paths|] == records;
    } else if paths != [] {
      BuiltPathsCarryWeight(o, p, resolved, direction);
    }
  }

  lemma {:induction false} BytesFrom(m: nat, j: nat)
    requires j <= m
    ensures ChunksFrom(Chunk(0, 0, m, None), 1, j) == Bytes(m)[j..]
    decreases m - j
  {
    if j < m {
      BytesFrom(m, j + 1);
    }
  }

  lemma BytesAreChunks(m: nat)
    ensures ChunksOf([Chunk(0, 0, m, None)], 1) == Bytes(m) && PositiveBytes([Chunk(0, 0, m, None)]) == m
  {
    BytesFrom(m, 0);
    assert [Chunk(0, 0, m, None)][..0] == [];
  }

  /** Whatever the ranges, a profile's plans carry records that add up, if and only if its paths have distinct keys. */
  lemma PlansConserveIff(o: Options, p: Profile, mode: Mode, direction: Direction)
    ensures (forall ranges, size :: PlanConserves(o, ranges, size, p, mode, direction))
       <==> DistinctKeys(Paths(o, p, mode, direction))
  {
    hide PlanConserves, Conserves, PathChoices, ChunksOf, PositiveBytes, Paths, Bytes, DistinctKeys;
    var paths := Paths(o, p, mode, direction);
    if DistinctKeys(paths) {
      forall ranges, size ensures PlanConserves(o, ranges, size, p, mode, direction) {
        DistinctPlansConserve(o, ranges, size, p, mode, direction);
      }
    } else {
      var m := SharedKeyFails(paths, Max(1, Max(o.minChunksForRelay, o.minPoolBytes)));
      var ranges := [Chunk(0, 0, m, None)];
      BytesAreChunks(m);
      PlanConservesWhen(o, ranges, 1, p, mode, direction);
      assert |Bytes(m)| == m;
      assert !PlanConserves(o, ranges, 1, p, mode, direction);
    }
  }

  lemma DistinctPlansConserve(o: Options, ranges: seq<Chunk>, size: int, p: Profile, mode: Mode, direction: Direction)
    requires DistinctKeys(Paths(o, p, mode, direction))
    ensures PlanConserves(o, ranges, size, p, mode, direction)
  {
    hide PlanConserves, Conserves, PathChoices, ChunksOf, PositiveBytes, DirectBandwidth;
    if size > 0 {
      var chunks := ChunksOf(ranges, size);
      var paths := Paths(o, p, ResolvedMode(o, mode, |chunks|, PositiveBytes(ranges)), direction);
      assert DistinctKeys(paths);
      PlanConservesWhen(o, ranges, size, p, mode, direction);
      if paths != [] {
        DistinctKeysConserve(paths, chunks, PathChoices(paths, chunks));
      }
    } else {
      PlanOutcome(o, ranges, size, p, mode, direction);
      NoPlanConserves(o, ranges, size, p, mode, direction);
    }
  }

  lemma NoPlanConserves(o: Options, ranges: seq<Chunk>, size: int, p: Profile, mode: Mode, direction: Direction)
    requires RangesPlan(o, ranges, size, p, mode, direction).Err?
    ensures PlanConserves(o, ranges, size, p, mode, direction)
  {
  }

  /** Two relay profiles of one device: a plan of one chunk goes to the first of them, and both records claim it. */
  lemma TwinRelays(o: Options, p: Profile, relay: RelayProfile, direction: Direction, range: Chunk, size: int)
    requires p.relays == [relay, relay] && Eligible(o, relay, DirectBandwidth(p, direction), direction)
    requires 0 < range.bytes <= size
    ensures var r := RangesPlan(o, [range], size, p, Relay, direction);
            var (path, piece) := (RelayPathOf(relay, direction), range.(relay := None));
            && r == Ok(Plan(range.bytes, size, [Assignment(path, [piece])]))
            && RecordedBytes(CostRecords([path, path], PathWeights([path, path]), ByKey(r.value.assignments)))
              == 2 * range.bytes
  {
    hide SchedulerWeight, RelayPathOf, KeyOf;
    var (path, piece) := (RelayPathOf(relay, direction), range.(relay := None));
    var (paths, chunks) := ([path, path], [piece]);
    TwinPaths(o, p, relay, direction);
    OneChunk(range, size);
    BuiltPathsCarryWeight(o, p, Relay, direction);
    TwinChoices(path, piece);
    TwinAssignments(path, piece);
    TwinRecords(path, piece);
  }

  lemma RelayPathsSnoc(o: Options, relays: seq<RelayProfile>, relay: RelayProfile, bandwidth: real,
                       direction: Direction)
    requires Eligible(o, relay, bandwidth, direction)
    ensures RelayPaths(o, relays + [relay], bandwidth, direction)
         == RelayPaths(o, relays, bandwidth, direction) + [RelayPathOf(relay, direction)]
  {
    assert (relays + [relay])[..|relays|] == relays;
  }

  lemma TwinPaths(o: Options, p: Profile, relay: RelayProfile, direction: Direction)
    requires p.relays == [relay, relay] && Eligible(o, relay, DirectBandwidth(p, direction), direction)
    ensures Paths(o, p, Relay, direction) == [RelayPathOf(relay, direction), RelayPathOf(relay, direction)]
  {
    var bandwidth := DirectBandwidth(p, direction);
    assert p.relays[..1] == [relay];
    RelayPathsSnoc(o, [], relay, bandwidth, direction);
    RelayPathsSnoc(o, [relay], relay, bandwidth, direction);
    assert [] + [relay] == [relay] && [relay] + [relay] == p.relays;
  }

  lemma OneChunk(range: Chunk, size: int)
    requires 0 < range.bytes <= size
    ensures ChunksOf([range], size) == [range.(relay := None)] && PositiveBytes([range]) == range.bytes
  {
    assert [range][..0] == [];
    assert ChunksFrom(range, size, range.bytes) == [];
  }

  /** Of two equal paths that are both idle the first is chosen. */
  lemma TwinChoices(path: Path, piece: Chunk)
    ensures PathChoices([path, path], [piece]) == [0]
  {
    hide SchedulerWeight;
    var weights := Clamped(PathWeights([path, path]));
    assert [piece][..0] == [];
    var loads := Loads([], [], 2);
    assert BestPath(loads, weights, Size(piece), 2) == 0;
  }

  lemma TwinAssignments(path: Path, piece: Chunk)
    ensures Assignments([path, path], [piece], [0], 2) == [Assignment(path, [piece])]
  {
    var paths := [path, path];
    BucketSnoc([], [], piece, 0, 0);
    BucketSnoc([], [], piece, 0, 1);
    assert [] + [piece] == [piece] && [] + [0] == [0];
    assert Bucket([piece], [0], 0) == [piece] && Bucket([piece], [0], 1) == [];
    assert Assignments(paths, [piece], [0], 0) == [];
    assert Assignments(paths, [piece], [0], 1) == [Assignment(path, [piece])];
  }

  lemma TwinRecords(path: Path, piece: Chunk)
    ensures RecordedBytes(CostRecords([path, path], PathWeights([path, path]), ByKey([Assignment(path, [piece])])))
         == 2 * piece.bytes
  {
    hide PathWeights, KeyOf, SchedulerWeight, ByKey, GivenTo;
    var (paths, byKey) := ([path, path], ByKey([Assignment(path, [piece])]));
    var records := CostRecords(paths, PathWeights(paths), byKey);
    GivenSnoc([], Assignment(path, [piece]), path);
    assert [] + [Assignment(path, [piece])] == [Assignment(path, [piece])];
    SingleTotal(piece);
    assert records[..0] == [] && records[..1] == [records[0]] && records[..1][..0] == [];
    assert RecordedBytes(records[..1]) == RecordedBytes([]) + piece.bytes;
  }
}
