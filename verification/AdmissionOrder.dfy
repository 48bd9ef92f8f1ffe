/**
  The order of delayed admissions: a priority score per record, then a sort by descending score,
  descending priority, delay time and transfer id. Scores are reals.
 */
module AdmissionOrder {
  import opened Common

  datatype Fairness = Fairness(threshold: real, weighted: Option<real>, active: real, blocked: bool)

  datatype Admission = Admission(delayed: bool, requestedChunks: int, delayedAt: Option<real>,
                                 fairness: Option<Fairness>)

  datatype Queued = Queued(jobId: Option<string>, priority: int, bytesTotal: int, queuedAt: Option<real>)

  datatype JobState = JobState(activeBytes: int, delayedBytes: Option<int>, queuedBytes: int, admittedBytes: int,
                               running: int)

  datatype RuntimeState = RuntimeState(jobs: map<string, JobState>, activeLeases: int, activeReservations: int,
                                       delayedCount: int)

  datatype Record = Record(transferId: string, priority: int, score: real, delayedAt: real)

  const UNIT := 67108864.0

  const NO_JOB := JobState(0, None, 0, 0, 0)

  const NO_QUEUE := Queued(None, 0, 0, None)

  // ---------- the score ----------

  function Capped(n: int, cap: int): real { Min(n, cap) as real }

  function Units(bytes: int): real { MinReal(bytes as real / UNIT, 64.0) }

  function ReadinessBonus(a: Admission, state: RuntimeState): real {
    25.0 - Capped(state.activeLeases, 32) * 0.8 - Capped(state.activeReservations, 32) * 0.8
    - Capped(state.delayedCount, 32) * 0.3 - Capped(Max(a.requestedChunks, 0), 1024) * 0.05
  }

  function FairnessPenalty(a: Admission): real {
    if a.fairness == None then 0.0
    else
      var f := a.fairness.value;
      var threshold := MaxReal(1.0, f.threshold);
      var overage := MaxReal(0.0, (if f.weighted.Some? then f.weighted.value else f.active) - threshold);
      MinReal(overage / threshold, 4.0) * 20.0 + if f.blocked then 10.0 else 0.0
  }

  function Backlog(job: JobState): int {
    Max(0, if job.delayedBytes.Some? then job.delayedBytes.value else job.queuedBytes - job.admittedBytes)
  }

  function JobOf(q: Queued, state: RuntimeState): JobState {
    if q.jobId.Some? && q.jobId.value in state.jobs then state.jobs[q.jobId.value] else NO_JOB
  }

  /** The recorded delay time, or the queue time; a missing one and a zero one both read as now. */
  function DelayedAt(a: Admission, q: Queued, now: real): real {
    var at := if a.delayedAt.Some? then a.delayedAt.value else if q.queuedAt.Some? then q.queuedAt.value else now;
    if at == 0.0 then now else at
  }

  function Score(a: Admission, q: Queued, state: RuntimeState, now: real): real {
    var job := JobOf(q, state);
    Max(0, q.priority) as real * 1000.0
    + MinReal(MaxReal(0.0, now - DelayedAt(a, q, now)), 3600.0) * 0.20
    + Units(q.bytesTotal) * 1.5
    + ReadinessBonus(a, state)
    - FairnessPenalty(a)
    - Capped(Max(a.requestedChunks, 0), 1024) * 0.35
    - Units(job.activeBytes) * 2.0
    - Units(Backlog(job)) * 1.0
    - Capped(Max(job.running, 0), 32) * 3.0
  }

  function PriorityRecord(id: string, a: Admission, q: Queued, state: RuntimeState, now: real): Record {
    Record(id, q.priority, Score(a, q, state, now), DelayedAt(a, q, now))
  }

  // ---------- the sort key ----------

  predicate Before(x: Record, y: Record) {
    || x.score > y.score
    || (x.score == y.score
        && (x.priority > y.priority
            || (x.priority == y.priority
                && (x.delayedAt < y.delayedAt
                    || (x.delayedAt == y.delayedAt && TextLess(x.transferId, y.transferId))))))
  }

  /** Records of different transfers are always strictly ordered, one way. */
  lemma BeforeTotal(x: Record, y: Record)
    requires x.transferId != y.transferId
    ensures Before(x, y) <==> !Before(y, x)
  {
    TextLessTotal(x.transferId, y.transferId);
  }

  lemma BeforeTransitive(x: Record, y: Record, z: Record)
    requires Before(x, y) && Before(y, z)
    ensures Before(x, z)
  {
    if TextLess(x.transferId, y.transferId) && TextLess(y.transferId, z.transferId) {
      TextLessTransitive(x.transferId, y.transferId, z.transferId);
    }
  }

  lemma BeforeIrreflexive(x: Record)
    ensures !Before(x, x)
  {
    TextLessTotal(x.transferId, x.transferId);
  }

  // ---------- the ordered list ----------

  predicate Ordered(s: seq<Record>) {
    forall i, j :: 0 <= i < j < |s| ==> Before(s[i], s[j])
  }

  predicate DistinctIds(s: seq<Record>) {
    forall i, j :: 0 <= i < j < |s| ==> s[i].transferId != s[j].transferId
  }

  function Insert(x: Record, s: seq<Record>): seq<Record> {
    if s == [] || Before(x, s[0]) then [x] + s else [s[0]] + Insert(x, s[1..])
  }

  function Sorted(s: seq<Record>): seq<Record> {
    if s == [] then [] else Insert(s[|s| - 1], Sorted(s[..|s| - 1]))
  }

  lemma {:induction false} InsertMembers(x: Record, s: seq<Record>, y: Record)
    ensures y in Insert(x, s) <==> y == x || y in s
  {
    if s != [] && !Before(x, s[0]) {
      InsertMembers(x, s[1..], y);
      assert s == [s[0]] + s[1..];
    }
  }

  lemma {:induction false} InsertSize(x: Record, s: seq<Record>)
    ensures |Insert(x, s)| == |s| + 1
  {
    if s != [] && !Before(x, s[0]) {
      InsertSize(x, s[1..]);
    }
  }

  lemma {:induction false} InsertOrdered(x: Record, s: seq<Record>)
    requires Ordered(s) && forall y :: y in s ==> y.transferId != x.transferId
    ensures Ordered(Insert(x, s))
  {
    hide Before;
    if s != [] {
      if Before(x, s[0]) {
        forall i | 0 <= i < |s| ensures Before(x, s[i]) {
          if i > 0 {
            BeforeTransitive(x, s[0], s[i]);
          }
        }
      } else {
        assert s[0] in s;
        BeforeTotal(x, s[0]);
        InsertOrdered(x, s[1..]);
        var rest := Insert(x, s[1..]);
        forall i | 0 <= i < |rest| ensures Before(s[0], rest[i]) {
          InsertMembers(x, s[1..], rest[i]);
          if rest[i] != x {
            var j :| 0 <= j < |s[1..]| && s[1..][j] == rest[i];
            assert s[j + 1] == rest[i];
          }
        }
      }
    }
  }

  lemma {:induction false} SortedMembers(s: seq<Record>, y: Record)
    ensures y in Sorted(s) <==> y in s
  {
    if s != [] {
      SortedMembers(s[..|s| - 1], y);
      InsertMembers(s[|s| - 1], Sorted(s[..|s| - 1]), y);
      assert s == s[..|s| - 1] + [s[|s| - 1]];
    }
  }

  /** Nothing is lost or repeated, and every earlier record comes before every later one. */
  lemma {:induction false} SortedIsOrdered(s: seq<Record>)
    requires DistinctIds(s)
    ensures Ordered(Sorted(s)) && |Sorted(s)| == |s|
  {
    hide Before, Ordered;
    if s == [] {
      NothingOrdered();
    } else {
      var (init, x) := (s[..|s| - 1], s[|s| - 1]);
      SortedIsOrdered(init);
      forall y | y in Sorted(init) ensures y.transferId != x.transferId {
        SortedMembers(init, y);
      }
      InsertOrdered(x, Sorted(init));
      InsertSize(x, Sorted(init));
    }
  }

  lemma NothingOrdered()
    ensures Ordered([])
  {
  }

  // ---------- one determined order ----------

  ghost predicate SameMembers(a: seq<Record>, b: seq<Record>) {
    forall y :: y in a <==> y in b
  }

  lemma FirstIsFirst(a: seq<Record>, b: seq<Record>)
    requires Ordered(a) && Ordered(b) && SameMembers(a, b) && a != [] && b != []
    ensures a[0] == b[0]
  {
    hide Before;
    assert a[0] in b && b[0] in a;
    var i :| 0 <= i < |b| && b[i] == a[0];
    var j :| 0 <= j < |a| && a[j] == b[0];
    if i > 0 && j > 0 {
      BeforeTransitive(a[0], a[j], a[0]);
      BeforeIrreflexive(a[0]);
    }
  }

  lemma RestHasSameMembers(a: seq<Record>, b: seq<Record>)
    requires Ordered(a) && Ordered(b) && SameMembers(a, b) && a != [] && b != [] && a[0] == b[0]
    ensures SameMembers(a[1..], b[1..]) && Ordered(a[1..]) && Ordered(b[1..])
  {
    hide Before;
    BeforeIrreflexive(a[0]);
    forall y ensures y in a[1..] <==> y in b[1..] {
      assert a == [a[0]] + a[1..] && b == [b[0]] + b[1..];
      assert y in a <==> y == a[0] || y in a[1..];
      assert y in b <==> y == b[0] || y in b[1..];
      NotAgain(a);
      NotAgain(b);
    }
  }

  lemma NotAgain(a: seq<Record>)
    requires Ordered(a) && a != []
    ensures a[0] !in a[1..]
  {
    hide Before;
    BeforeIrreflexive(a[0]);
    assert forall i :: 0 <= i < |a[1..]| ==> a[1..][i] == a[i + 1];
  }

  lemma FirstIsMember(a: seq<Record>)
    ensures a != [] ==> a[0] in a
  {
  }

  /** Two ordered lists of the same records are the same list. */
  lemma {:induction false} OrderIsUnique(a: seq<Record>, b: seq<Record>)
    requires Ordered(a) && Ordered(b) && SameMembers(a, b)
    ensures a == b
  {
    hide Ordered;
    FirstIsMember(a);
    FirstIsMember(b);
    if a != [] {
      FirstIsFirst(a, b);
      RestHasSameMembers(a, b);
      OrderIsUnique(a[1..], b[1..]);
      assert a == [a[0]] + a[1..] && b == [b[0]] + b[1..];
    }
  }

  function QueueOf(queue: map<string, Queued>, id: string): Queued { if id in queue then queue[id] else NO_QUEUE }

  function RecordFor(admissions: map<string, Admission>, queue: map<string, Queued>, state: RuntimeState, now: real,
                     id: string): Record
    requires id in admissions
  {
    PriorityRecord(id, admissions[id], QueueOf(queue, id), state, now)
  }

  /** The records of the delayed admissions, in the order `ids` enumerates the map. */
  function DelayedRecords(ids: seq<string>, admissions: map<string, Admission>, queue: map<string, Queued>,
                          state: RuntimeState, now: real): seq<Record>
    requires forall id :: id in ids ==> id in admissions
  {
    if ids == [] then []
    else
      var id := ids[|ids| - 1];
      DelayedRecords(ids[..|ids| - 1], admissions, queue, state, now)
      + if admissions[id].delayed then [RecordFor(admissions, queue, state, now, id)] else []
  }

  function OrderedDelayed(ids: seq<string>, admissions: map<string, Admission>, queue: map<string, Queued>,
                          state: RuntimeState, now: real): seq<Record>
    requires forall id :: id in ids ==> id in admissions
  {
    Sorted(DelayedRecords(ids, admissions, queue, state, now))
  }

  ghost predicate Enumerates(ids: seq<string>, admissions: map<string, Admission>) {
    Distinct(ids) && forall id :: id in ids <==> id in admissions
  }

  lemma {:induction false} RecordMembers(ids: seq<string>, admissions: map<string, Admission>,
                                         queue: map<string, Queued>, state: RuntimeState, now: real, r: Record)
    requires forall id :: id in ids ==> id in admissions
    ensures r in DelayedRecords(ids, admissions, queue, state, now) <==>
              r.transferId in ids && admissions[r.transferId].delayed
              && r == RecordFor(admissions, queue, state, now, r.transferId)
  {
    hide PriorityRecord;
    if ids != [] {
      RecordMembers(ids[..|ids| - 1], admissions, queue, state, now, r);
      assert ids == ids[..|ids| - 1] + [ids[|ids| - 1]];
      RecordId(admissions, queue, state, now, ids[|ids| - 1]);
    }
  }

  lemma RecordId(admissions: map<string, Admission>, queue: map<string, Queued>, state: RuntimeState, now: real,
                 id: string)
    requires id in admissions
    ensures RecordFor(admissions, queue, state, now, id).transferId == id
  {
  }

  lemma {:induction false} RecordsDistinct(ids: seq<string>, admissions: map<string, Admission>,
                                           queue: map<string, Queued>, state: RuntimeState, now: real)
    requires Distinct(ids) && forall id :: id in ids ==> id in admissions
    ensures DistinctIds(DelayedRecords(ids, admissions, queue, state, now))
  {
    hide RecordFor;
    if ids != [] {
      var (init, id) := (ids[..|ids| - 1], ids[|ids| - 1]);
      RecordsDistinct(init, admissions, queue, state, now);
      RecordId(admissions, queue, state, now, id);
      var records := DelayedRecords(init, admissions, queue, state, now);
      forall i | 0 <= i < |records| ensures records[i].transferId != id {
        RecordMembers(init, admissions, queue, state, now, records[i]);
      }
    }
  }

  /**
    However the admissions are enumerated, the ordered list is the same, holds exactly the delayed
    ones, and is ordered.
   */
  lemma OrderIsDetermined(ids: seq<string>, ids': seq<string>, admissions: map<string, Admission>,
                          queue: map<string, Queued>, state: RuntimeState, now: real)
    requires Enumerates(ids, admissions) && Enumerates(ids', admissions)
    ensures OrderedDelayed(ids, admissions, queue, state, now) == OrderedDelayed(ids', admissions, queue, state, now)
    ensures Ordered(OrderedDelayed(ids, admissions, queue, state, now))
    ensures forall r :: r in OrderedDelayed(ids, admissions, queue, state, now) <==>
              r.transferId in admissions && admissions[r.transferId].delayed
              && r == RecordFor(admissions, queue, state, now, r.transferId)
  {
    hide DelayedRecords, Sorted, Ordered, RecordFor;
    var (a, b) := (DelayedRecords(ids, admissions, queue, state, now),
                   DelayedRecords(ids', admissions, queue, state, now));
    RecordsDistinct(ids, admissions, queue, state, now);
    RecordsDistinct(ids', admissions, queue, state, now);
    SortedIsOrdered(a);
    SortedIsOrdered(b);
    forall r
      ensures r in Sorted(a) <==> r in Sorted(b)
      ensures r in Sorted(a) <==> r.transferId in admissions && admissions[r.transferId].delayed
                                  && r == RecordFor(admissions, queue, state, now, r.transferId)
    {
      SortedMembers(a, r);
      SortedMembers(b, r);
      RecordMembers(ids, admissions, queue, state, now, r);
      RecordMembers(ids', admissions, queue, state, now, r);
    }
    OrderIsUnique(Sorted(a), Sorted(b));
  }

  // ---------- a priority gap of two ----------

  predicate Plausible(q: Queued, state: RuntimeState) {
    q.bytesTotal >= 0 && JobOf(q, state).activeBytes >= 0
  }

  lemma UnitsBounds(bytes: int)
    requires bytes >= 0
    ensures 0.0 <= Units(bytes) <= 64.0
  {
  }

  lemma PenaltyBounds(a: Admission)
    ensures 0.0 <= FairnessPenalty(a) <= 90.0
  {
    if a.fairness.Some? {
      var f := a.fairness.value;
      var threshold := MaxReal(1.0, f.threshold);
      var overage := MaxReal(0.0, (if f.weighted.Some? then f.weighted.value else f.active) - threshold);
    }
  }

  /** The part of the score all records share at one moment. */
  function SharedBonus(state: RuntimeState): real {
    25.0 - Capped(state.activeLeases, 32) * 0.8 - Capped(state.activeReservations, 32) * 0.8
    - Capped(state.delayedCount, 32) * 0.3
  }

  /** Apart from priority and the shared part, a score lies between -787.6 and 816, a width of 1603.6. */
  lemma ScoreBounds(a: Admission, q: Queued, state: RuntimeState, now: real)
    requires Plausible(q, state)
    ensures var rest := Score(a, q, state, now) - Max(0, q.priority) as real * 1000.0 - SharedBonus(state);
            -787.6 <= rest <= 816.0
  {
    hide Units, FairnessPenalty, Backlog, JobOf, DelayedAt;
    var job := JobOf(q, state);
    UnitsBounds(q.bytesTotal);
    UnitsBounds(job.activeBytes);
    BacklogNotNegative(job);
    UnitsBounds(Backlog(job));
    PenaltyBounds(a);
  }

  lemma BacklogNotNegative(job: JobState)
    ensures Backlog(job) >= 0
  {
  }

  /** At one moment a priority that is higher by two always wins, whatever the other terms say. */
  lemma GapOfTwoWins(id: string, a: Admission, q: Queued, id': string, a': Admission, q': Queued, state: RuntimeState,
                     now: real)
    requires Plausible(q, state) && Plausible(q', state)
    requires Max(0, q.priority) >= Max(0, q'.priority) + 2
    ensures Before(PriorityRecord(id, a, q, state, now), PriorityRecord(id', a', q', state, now))
  {
    hide Score, SharedBonus;
    ScoreBounds(a, q, state, now);
    ScoreBounds(a', q', state, now);
  }

  /** Whatever their requests, ages and jobs, records of the first priority precede those of the second. */
  ghost predicate AlwaysBefore(priority: int, priority': int, state: RuntimeState, now: real) {
    forall id, a, q: Queued, id', a', q': Queued ::
      q.priority == priority && q'.priority == priority' && Plausible(q, state) && Plausible(q', state)
      ==> Before(PriorityRecord(id, a, q, state, now), PriorityRecord(id', a', q', state, now))
  }

  /**
    A large request delayed just now loses against an empty one that waits for an hour, even with
    one priority more.
   */
  lemma GapOfOneMayLose(priority: int, priority': int, state: RuntimeState, now: real)
    requires Max(0, priority) < Max(0, priority') + 2
    ensures !AlwaysBefore(priority, priority', state, now)
  {
    hide Backlog;
    var (a, q) := (Admission(true, 1024, None, None), Queued(None, priority, 0, None));
    var (a', q') := (Admission(true, 0, Some(if now == 3600.0 then -1.0 else now - 3600.0), None),
                     Queued(None, priority', 0, None));
    assert !Before(PriorityRecord("x", a, q, state, now), PriorityRecord("y", a', q', state, now));
  }

  /** In every state and at every moment, a gap of two, counted from zero, is what makes it safe. */
  lemma GapIff(priority: int, priority': int, state: RuntimeState, now: real)
    ensures AlwaysBefore(priority, priority', state, now) <==> Max(0, priority) >= Max(0, priority') + 2
  {
    hide AlwaysBefore;
    if Max(0, priority) >= Max(0, priority') + 2 {
      GapWins(priority, priority', state, now);
    } else {
      GapOfOneMayLose(priority, priority', state, now);
    }
  }

  lemma GapWins(priority: int, priority': int, state: RuntimeState, now: real)
    requires Max(0, priority) >= Max(0, priority') + 2
    ensures AlwaysBefore(priority, priority', state, now)
  {
    hide PriorityRecord, Before;
    forall id, a, q: Queued, id', a', q': Queued |
      q.priority == priority && q'.priority == priority' && Plausible(q, state) && Plausible(q', state)
      ensures Before(PriorityRecord(id, a, q, state, now), PriorityRecord(id', a', q', state, now))
    {
      GapOfTwoWins(id, a, q, id', a', q', state, now);
    }
  }

  // ---------- the score, term by term ----------

  /** A count that stops counting at a cap. */
  predicate IsCount(n: int, cap: int, x: real) { x == (if n >= cap then cap else n) as real }

  predicate IsCountFromZero(n: int, cap: int, x: real) { if n <= 0 then x == 0.0 else IsCount(n, cap, x) }

  /** Bytes in units of 64 MiB, at most 64 of them. */
  predicate IsSize(bytes: int, x: real) {
    if bytes >= 64 * 64 * 1024 * 1024 then x == 64.0 else x * (64 * 1024 * 1024) as real == bytes as real
  }

  /** The time since the delay, or else since queueing, up to an hour; a time that is missing or zero is now. */
  predicate IsWait(a: Admission, q: Queued, now: real, at: real, x: real) {
    && (a.delayedAt.Some? && a.delayedAt.value != 0.0 ==> at == a.delayedAt.value)
    && (a.delayedAt == None && q.queuedAt.Some? && q.queuedAt.value != 0.0 ==> at == q.queuedAt.value)
    && (a.delayedAt == Some(0.0) || (a.delayedAt == None && (q.queuedAt == None || q.queuedAt == Some(0.0))) ==>
          at == now)
    && (if now <= at then x == 0.0 else if now >= at + 3600.0 then x == 3600.0 else x == now - at)
  }

  /** 20 points for every threshold's worth above the threshold, four at most, and 10 when blocked. */
  predicate IsPenalty(fairness: Option<Fairness>, x: real) {
    if fairness == None then x == 0.0
    else
      var f := fairness.value;
      var threshold := if f.threshold >= 1.0 then f.threshold else 1.0;
      var used := if f.weighted.Some? then f.weighted.value else f.active;
      var points := if f.blocked then x - 10.0 else x;
      if used <= threshold then points == 0.0
      else if used >= 5.0 * threshold then points == 80.0
      else points * threshold == 20.0 * (used - threshold)
  }

  /** The record of the transfer's job; a job that is missing counts as idle. */
  predicate IsJob(q: Queued, state: RuntimeState, job: JobState) {
    if q.jobId.Some? && q.jobId.value in state.jobs then job == state.jobs[q.jobId.value]
    else job.activeBytes == 0 && job.running == 0 && IsBacklog(job, 0)
  }

  /** The delayed bytes if they are known, else what is queued and not admitted; never less than 0. */
  predicate IsBacklog(job: JobState, bytes: int) {
    var raw := if job.delayedBytes.Some? then job.delayedBytes.value else job.queuedBytes - job.admittedBytes;
    if raw <= 0 then bytes == 0 else bytes == raw
  }

  datatype Terms = Terms(
    priority: int, wait: real, size: real, leases: real, reservations: real, delayed: real, chunks: real,
    penalty: real, active: real, backlog: real, running: real)

  ghost predicate AreTerms(a: Admission, q: Queued, state: RuntimeState, now: real, at: real, t: Terms) {
    && (if q.priority <= 0 then t.priority == 0 else t.priority == q.priority)
    && IsWait(a, q, now, at, t.wait) && IsSize(q.bytesTotal, t.size)
    && IsCount(state.activeLeases, 32, t.leases) && IsCount(state.activeReservations, 32, t.reservations)
    && IsCount(state.delayedCount, 32, t.delayed) && IsCountFromZero(a.requestedChunks, 1024, t.chunks)
    && IsPenalty(a.fairness, t.penalty)
    && exists job, bytes ::
         && IsJob(q, state, job) && IsBacklog(job, bytes) && IsSize(job.activeBytes, t.active)
         && IsSize(bytes, t.backlog) && IsCountFromZero(job.running, 32, t.running)
  }

  lemma UnitsIs(bytes: int)
    ensures IsSize(bytes, Units(bytes))
  {
    var x := bytes as real / UNIT;
    assert x * UNIT == bytes as real;
    assert UNIT == (64 * 1024 * 1024) as real;
    assert x >= 64.0 <==> bytes as real >= 64.0 * UNIT;
  }

  lemma PenaltyIs(a: Admission)
    ensures IsPenalty(a.fairness, FairnessPenalty(a))
  {
    if a.fairness.Some? {
      var f := a.fairness.value;
      var threshold := MaxReal(1.0, f.threshold);
      var over := MaxReal(0.0, (if f.weighted.Some? then f.weighted.value else f.active) - threshold);
      assert over / threshold * threshold == over;
      assert over / threshold >= 4.0 <==> over >= 4.0 * threshold;
    }
  }

  /** The score is 25, plus and minus these terms with their weights. */
  lemma ScoreIs(id: string, a: Admission, q: Queued, state: RuntimeState, now: real) returns (t: Terms)
    ensures var r := PriorityRecord(id, a, q, state, now);
            && r.transferId == id && r.priority == q.priority && AreTerms(a, q, state, now, r.delayedAt, t)
            && r.score == 25.0 + t.priority as real * 1000.0 + t.wait * 0.2 + t.size * 1.5
                          - t.leases * 0.8 - t.reservations * 0.8 - t.delayed * 0.3 - t.chunks * 0.4
                          - t.penalty - t.active * 2.0 - t.backlog - t.running * 3.0
  {
    hide Units, FairnessPenalty, IsPenalty, IsSize;
    var job := JobOf(q, state);
    UnitsIs(q.bytesTotal);
    UnitsIs(job.activeBytes);
    UnitsIs(Backlog(job));
    PenaltyIs(a);
    t := Terms(Max(0, q.priority), MinReal(MaxReal(0.0, now - DelayedAt(a, q, now)), 3600.0), Units(q.bytesTotal),
               Capped(state.activeLeases, 32), Capped(state.activeReservations, 32), Capped(state.delayedCount, 32),
               Capped(Max(a.requestedChunks, 0), 1024), FairnessPenalty(a), Units(job.activeBytes),
               Units(Backlog(job)), Capped(Max(job.running, 0), 32));
    assert IsJob(q, state, job) && IsBacklog(job, Backlog(job));
  }

  /** A record is about its own admission and queue entry; a transfer without one counts as empty. */
  lemma RecordIs(admissions: map<string, Admission>, queue: map<string, Queued>, state: RuntimeState, now: real,
                 id: string)
    returns (q: Queued)
    requires id in admissions
    ensures RecordFor(admissions, queue, state, now, id) == PriorityRecord(id, admissions[id], q, state, now)
    ensures if id in queue then q == queue[id]
            else q.jobId == None && q.priority == 0 && q.bytesTotal == 0 && q.queuedAt == None
  {
    q := QueueOf(queue, id);
  }

  // ---------- what a job's other transfers cost ----------

  /** The score when the record's job looks like this. */
  function JobScore(a: Admission, q: Queued, state: RuntimeState, now: real, job: JobState): real
    requires q.jobId.Some?
  {
    Score(a, q, state.(jobs := state.jobs[q.jobId.value := job]), now)
  }

  lemma UnitsMonotone(x: int, y: int)
    requires x <= y
    ensures Units(x) <= Units(y)
  {
    assert x as real / UNIT <= y as real / UNIT;
  }

  lemma BusierScores(a: Admission, q: Queued, state: RuntimeState, now: real, job: JobState, busier: JobState)
    requires q.jobId.Some?
    requires job.activeBytes <= busier.activeBytes && Backlog(job) <= Backlog(busier) && job.running <= busier.running
    ensures JobScore(a, q, state, now, busier) <= JobScore(a, q, state, now, job)
  {
    hide Units, FairnessPenalty, DelayedAt, Backlog;
    UnitsMonotone(job.activeBytes, busier.activeBytes);
    UnitsMonotone(Backlog(job), Backlog(busier));
    var id := q.jobId.value;
    assert JobOf(q, state.(jobs := state.jobs[id := job])) == job;
    assert JobOf(q, state.(jobs := state.jobs[id := busier])) == busier;
    assert Capped(Max(job.running, 0), 32) <= Capped(Max(busier.running, 0), 32);
  }

  /**
    Of two jobs that differ in one number, the one with more active, delayed or queued bytes or more running
    transfers never scores higher, and the one with more admitted bytes never lower.
   */
  lemma BusierJobsYield(a: Admission, q: Queued, state: RuntimeState, now: real, job: JobState, more: nat)
    requires q.jobId.Some?
    ensures JobScore(a, q, state, now, job.(activeBytes := job.activeBytes + more)) <= JobScore(a, q, state, now, job)
    ensures JobScore(a, q, state, now, job.(running := job.running + more)) <= JobScore(a, q, state, now, job)
    ensures JobScore(a, q, state, now, job.(queuedBytes := job.queuedBytes + more)) <= JobScore(a, q, state, now, job)
    ensures JobScore(a, q, state, now, job)
         <= JobScore(a, q, state, now, job.(admittedBytes := job.admittedBytes + more))
    ensures job.delayedBytes.Some? ==>
              JobScore(a, q, state, now, job.(delayedBytes := Some(job.delayedBytes.value + more)))
                <= JobScore(a, q, state, now, job)
  {
    hide Score;
    BusierScores(a, q, state, now, job, job.(activeBytes := job.activeBytes + more));
    BusierScores(a, q, state, now, job, job.(running := job.running + more));
    BusierScores(a, q, state, now, job, job.(queuedBytes := job.queuedBytes + more));
    BusierScores(a, q, state, now, job.(admittedBytes := job.admittedBytes + more), job);
    if job.delayedBytes.Some? {
      BusierScores(a, q, state, now, job, job.(delayedBytes := Some(job.delayedBytes.value + more)));
    }
  }

  // ---------- first delayed, first served ----------

  /** The same admission, delayed at another time. */
  function At(a: Admission, delayedAt: real): Admission { a.(delayedAt := Some(delayedAt)) }

  function Effective(delayedAt: real, now: real): real { if delayedAt == 0.0 then now else delayedAt }

  lemma ScoreFalls(a: Admission, q: Queued, state: RuntimeState, now: real, t: real, t': real)
    requires Effective(t, now) <= Effective(t', now)
    ensures Score(At(a, t), q, state, now) >= Score(At(a, t'), q, state, now)
  {
    hide Units, FairnessPenalty, Backlog, JobOf, ReadinessBonus;
    SamePenalty(a, t);
    SamePenalty(a, t');
    SameBonus(a, t, state);
    SameBonus(a, t', state);
  }

  lemma SamePenalty(a: Admission, t: real)
    ensures FairnessPenalty(At(a, t)) == FairnessPenalty(a)
  {
  }

  lemma SameBonus(a: Admission, t: real, state: RuntimeState)
    ensures ReadinessBonus(At(a, t), state) == ReadinessBonus(a, state)
  {
  }

  /**
    Records equal in all but delay time and id: the one delayed first goes first, also when both
    waits are past the cap of 3600 seconds and the scores tie. A delay time of zero counts as now.
   */
  lemma FirstDelayedFirstIff(id: string, id': string, a: Admission, q: Queued, state: RuntimeState, now: real, t: real,
                             t': real)
    requires Effective(t, now) != Effective(t', now)
    ensures Before(PriorityRecord(id, At(a, t), q, state, now), PriorityRecord(id', At(a, t'), q, state, now))
       <==> Effective(t, now) < Effective(t', now)
  {
    hide Score;
    if Effective(t, now) < Effective(t', now) {
      ScoreFalls(a, q, state, now, t, t');
    } else {
      ScoreFalls(a, q, state, now, t', t);
    }
  }

  /** So positive delay times decide alone. */
  lemma PositiveDelaysDecide(id: string, id': string, a: Admission, q: Queued, state: RuntimeState, now: real, t: real,
                             t': real)
    requires 0.0 < t < t'
    ensures Before(PriorityRecord(id, At(a, t), q, state, now), PriorityRecord(id', At(a, t'), q, state, now))
  {
    FirstDelayedFirstIff(id, id', a, q, state, now, t, t');
  }
}
