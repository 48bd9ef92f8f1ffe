/**
  Worker-managed execution of a transfer intent: relay leases, the worker and the daemon are the
  environment, which may refuse or fail at each call. The executor owes the daemon at most one
  terminal report per intent. Kind and direction texts are taken after lower-casing.
 */
module WorkerExecution {
  import opened Common
  import opened Transfers
  import opened Planner
  import opened NativePlans

  // ---------- plan bytes ----------

  /** Declared bytes count when present, else the chunks are added up. */
  function AssignmentBytes(a: AssignmentPayload): int {
    if a.bytes.Some? then a.bytes.value else TotalBytes(a.chunks)
  }

  function KindBytes(s: seq<AssignmentPayload>, kind: string): int {
    if s == [] then 0
    else KindBytes(s[..|s| - 1], kind) + if s[|s| - 1].path.kind == kind then AssignmentBytes(s[|s| - 1]) else 0
  }

  method PlanAssignmentBytes(s: seq<AssignmentPayload>, kind: string) returns (total: int)
    ensures total == KindBytes(s, kind)
  {
    total := 0;
    for i := 0 to |s|
      invariant total == KindBytes(s[..i], kind)
    {
      assert s[..i + 1][..i] == s[..i];
      if s[i].path.kind != kind {
        continue;
      }
      if s[i].bytes.Some? {
        total := total + s[i].bytes.value;
        continue;
      }
      var chunkTotal := SumBytes(s[i].chunks);
      total := total + chunkTotal;
    }
    assert s[..|s|] == s;
  }

  predicate Mixed(s: seq<AssignmentPayload>) { KindBytes(s, "direct") > 0 && KindBytes(s, "relay") > 0 }

  predicate RelayOnly(s: seq<AssignmentPayload>) { KindBytes(s, "direct") == 0 && KindBytes(s, "relay") > 0 }

  // ---------- leases ----------

  datatype ExecutionError =
    | NoLeases | WrongDirection | RelayNotLeased | NoWorkerChunks | LeasesDoNotMatch
    | LeaseInvalid | EnvelopeInvalid | WorkerRaised | WorkerNotComplete | MissingEnvelope
    | MissingEvidence | SplitMismatch | WorkerSplitMismatch | NotVerified | PathEvidenceMismatch | NoRelayPath
    | ReportRejected

  /** A relay GPU, by device number. */
  datatype Gpu = Gpu(device: int)

  function RelayOf(a: AssignmentPayload): Gpu { Gpu(GetOr(a.path.relayDevice, -1)) }

  predicate Covered(a: AssignmentPayload, leases: set<Gpu>, direction: string) {
    && a.path.direction == direction
    && (a.path.kind == "direct" || (a.path.kind == "relay" && RelayOf(a) in leases))
  }

  predicate CarriesRelayChunks(a: AssignmentPayload) { a.path.kind != "direct" && a.chunks != [] }

  /** The relays that carry chunks, or the first assignment's error. */
  function WorkerRelays(s: seq<AssignmentPayload>, leases: set<Gpu>, direction: string)
    : Result<set<Gpu>, ExecutionError>
  {
    if s == [] then Ok({})
    else
      var (before, a) := (WorkerRelays(s[..|s| - 1], leases, direction), s[|s| - 1]);
      if before.Err? then before
      else if a.path.direction != direction then Err(WrongDirection)
      else if !Covered(a, leases, direction) then Err(RelayNotLeased)
      else if CarriesRelayChunks(a) then Ok(before.value + {RelayOf(a)})
      else before
  }

  function LeaseCheck(s: seq<AssignmentPayload>, leases: set<Gpu>, direction: string): Result<(), ExecutionError> {
    if leases == {} then Err(NoLeases)
    else
      var relays := WorkerRelays(s, leases, direction);
      if relays.Err? then Err(relays.error)
      else if relays.value == {} then Err(NoWorkerChunks)
      else if relays.value != leases then Err(LeasesDoNotMatch)
      else Ok(())
  }

  lemma {:induction false} LeaseErrorsStick(s: seq<AssignmentPayload>, leases: set<Gpu>, direction: string, n: nat)
    requires n <= |s| && WorkerRelays(s[..n], leases, direction).Err?
    ensures WorkerRelays(s, leases, direction) == WorkerRelays(s[..n], leases, direction)
  {
    if n == |s| {
      assert s[..n] == s;
    } else {
      assert s[..|s| - 1][..n] == s[..n];
      LeaseErrorsStick(s[..|s| - 1], leases, direction, n);
    }
  }

  method RequireWorkerPlanMatchesLeases(s: seq<AssignmentPayload>, leases: set<Gpu>, direction: string)
    returns (r: Result<(), ExecutionError>)
    ensures r == LeaseCheck(s, leases, direction)
  {
    if leases == {} {
      return Err(NoLeases);
    }
    var found := false;
    var relays: set<Gpu> := {};
    for i := 0 to |s|
      invariant WorkerRelays(s[..i], leases, direction) == Ok(relays)
      invariant found <==> relays != {}
    {
      assert s[..i + 1][..i] == s[..i];
      var a := s[i];
      var relay := RelayOf(a);
      if a.path.direction != direction {
        LeaseErrorsStick(s, leases, direction, i + 1);
        return Err(WrongDirection);
      }
      if a.path.kind == "direct" {
        continue;
      }
      if a.path.kind != "relay" || relay !in leases {
        LeaseErrorsStick(s, leases, direction, i + 1);
        return Err(RelayNotLeased);
      }
      if a.chunks != [] {
        relays := relays + {relay};
        assert relay in relays;
        found := true;
      }
    }
    assert s[..|s|] == s;
    if !found {
      return Err(NoWorkerChunks);
    }
    if relays != leases {
      return Err(LeasesDoNotMatch);
    }
    return Ok(());
  }

  ghost predicate AllCovered(s: seq<AssignmentPayload>, leases: set<Gpu>, direction: string) {
    forall i :: 0 <= i < |s| ==> Covered(s[i], leases, direction)
  }

  ghost predicate CarriesChunks(s: seq<AssignmentPayload>, relay: Gpu) {
    exists i :: 0 <= i < |s| && CarriesRelayChunks(s[i]) && RelayOf(s[i]) == relay
  }

  lemma {:induction false} WorkerRelaysMean(s: seq<AssignmentPayload>, leases: set<Gpu>, direction: string)
    ensures WorkerRelays(s, leases, direction).Ok? <==> AllCovered(s, leases, direction)
    ensures WorkerRelays(s, leases, direction).Ok? ==>
              forall relay :: relay in WorkerRelays(s, leases, direction).value <==> CarriesChunks(s, relay)
  {
    if s != [] {
      var init := s[..|s| - 1];
      WorkerRelaysMean(init, leases, direction);
      assert forall i :: 0 <= i < |init| ==> init[i] == s[i];
      if AllCovered(s, leases, direction) {
        forall relay ensures CarriesChunks(s, relay) <==>
            CarriesChunks(init, relay) || (CarriesRelayChunks(s[|s| - 1]) && RelayOf(s[|s| - 1]) == relay)
        {
          CarriesSnoc(s, relay);
        }
      } else if AllCovered(init, leases, direction) {
        assert !Covered(s[|s| - 1], leases, direction);
      }
    }
  }

  lemma CarriesSnoc(s: seq<AssignmentPayload>, relay: Gpu)
    requires s != []
    ensures CarriesChunks(s, relay) <==>
              CarriesChunks(s[..|s| - 1], relay) || (CarriesRelayChunks(s[|s| - 1]) && RelayOf(s[|s| - 1]) == relay)
  {
    var init := s[..|s| - 1];
    if CarriesChunks(init, relay) {
      var i :| 0 <= i < |init| && CarriesRelayChunks(init[i]) && RelayOf(init[i]) == relay;
      assert CarriesRelayChunks(s[i]);
    }
    if CarriesChunks(s, relay) {
      var i :| 0 <= i < |s| && CarriesRelayChunks(s[i]) && RelayOf(s[i]) == relay;
      if i < |init| {
        assert CarriesRelayChunks(init[i]);
      }
    }
  }

  ghost predicate CarryAll(s: seq<AssignmentPayload>, leases: set<Gpu>) {
    forall relay :: relay in leases <==> CarriesChunks(s, relay)
  }

  lemma SameMembers(a: set<Gpu>, b: set<Gpu>)
    requires forall x :: x in a <==> x in b
    ensures a == b
  {
  }

  /** A plan passes exactly when every path is direct or leased and the leased relays are those that carry chunks. */
  lemma AcceptedIff(s: seq<AssignmentPayload>, leases: set<Gpu>, direction: string)
    ensures LeaseCheck(s, leases, direction).Ok? <==>
              leases != {} && AllCovered(s, leases, direction) && CarryAll(s, leases)
  {
    hide Covered, CarriesChunks, AllCovered;
    WorkerRelaysMean(s, leases, direction);
    var relays := WorkerRelays(s, leases, direction);
    if relays.Ok? && CarryAll(s, leases) {
      SameMembers(relays.value, leases);
    }
  }

  // ---------- modes of well-formed plans ----------

  /** Chunks are not empty and declared bytes, when given, are their sum, as the planner writes them. */
  predicate WellFormedAssignment(a: AssignmentPayload) {
    (forall c :: c in a.chunks ==> c.bytes > 0) && (a.bytes.Some? ==> a.bytes.value == TotalBytes(a.chunks))
  }

  predicate WellFormedPlan(s: seq<AssignmentPayload>) {
    forall i :: 0 <= i < |s| ==> WellFormedAssignment(s[i])
  }

  lemma {:induction false} PositiveTotal(cs: seq<Chunk>)
    requires forall c :: c in cs ==> c.bytes > 0
    ensures TotalBytes(cs) >= 0 && (TotalBytes(cs) > 0 <==> cs != [])
  {
    if cs != [] {
      assert cs[|cs| - 1] in cs;
      PositiveTotal(cs[..|cs| - 1]);
    }
  }

  lemma {:induction false} KindBytesPositive(s: seq<AssignmentPayload>, kind: string)
    requires WellFormedPlan(s)
    ensures KindBytes(s, kind) >= 0
    ensures KindBytes(s, kind) > 0 <==> exists i :: 0 <= i < |s| && s[i].path.kind == kind && s[i].chunks != []
  {
    if s != [] {
      var init := s[..|s| - 1];
      KindBytesPositive(init, kind);
      assert forall i :: 0 <= i < |init| ==> init[i] == s[i];
      PositiveTotal(s[|s| - 1].chunks);
      if exists i :: 0 <= i < |init| && init[i].path.kind == kind && init[i].chunks != [] {
        var i :| 0 <= i < |init| && init[i].path.kind == kind && init[i].chunks != [];
        assert s[i].path.kind == kind;
      }
    }
  }

  /** For a well-formed plan, passing the lease check means exactly one of the two modes. */
  lemma ExactlyOneMode(s: seq<AssignmentPayload>, leases: set<Gpu>, direction: string)
    requires WellFormedPlan(s) && LeaseCheck(s, leases, direction).Ok?
    ensures Mixed(s) != RelayOnly(s)
  {
    AcceptedIff(s, leases, direction);
    hide KindBytes, Covered, LeaseCheck, WellFormedAssignment;
    var relay :| relay in leases;
    assert CarriesChunks(s, relay);
    var i :| 0 <= i < |s| && CarriesRelayChunks(s[i]) && RelayOf(s[i]) == relay;
    CoveredKinds(s[i], leases, direction);
    KindBytesPositive(s, "relay");
    KindBytesPositive(s, "direct");
  }

  lemma CoveredKinds(a: AssignmentPayload, leases: set<Gpu>, direction: string)
    requires Covered(a, leases, direction)
    ensures a.path.kind == "direct" || a.path.kind == "relay"
  {
  }

  /** Declared bytes decide the mode: a covered plan that declares none for its relay chunks has neither mode. */
  lemma UndeclaredBytesHaveNoMode(path: PathPayload, c: Chunk)
    requires path.kind == "relay" && path.direction == "h2d" && path.relayDevice == Some(1) && c.bytes > 0
    ensures var s := [AssignmentPayload(path, [c], Some(0), Some(1))];
            LeaseCheck(s, {Gpu(1)}, "h2d").Ok? && !Mixed(s) && !RelayOnly(s)
  {
    var a := AssignmentPayload(path, [c], Some(0), Some(1));
    assert [a][..0] == [];
    assert WorkerRelays([a], {Gpu(1)}, "h2d") == Ok({} + {Gpu(1)});
    assert KindBytes([a], "relay") == KindBytes([a][..0], "relay") + 0;
  }

  /** In general a mode exists exactly when the relay bytes are positive and the direct bytes not negative. */
  lemma ModeIff(s: seq<AssignmentPayload>)
    ensures Mixed(s) || RelayOnly(s) <==> KindBytes(s, "relay") > 0 && KindBytes(s, "direct") >= 0
  {
  }

  /** Every plan the planner builds for well-formed ranges is well formed in this sense. */
  lemma PlannerPlansWellFormed(plan: Plan, direction: Direction)
    requires forall a :: a in plan.assignments ==> Planned(a, direction)
    ensures WellFormedPlan(PlanDict(plan).assignments)
  {
    forall i | 0 <= i < |plan.assignments| ensures WellFormedAssignment(PlanDict(plan).assignments[i]) {
      assert plan.assignments[i] in plan.assignments;
    }
  }

  function DeclaredTotal(s: seq<AssignmentPayload>): int {
    if s == [] then 0 else DeclaredTotal(s[..|s| - 1]) + AssignmentBytes(s[|s| - 1])
  }

  /** The split of a covered plan adds up to the plan's bytes, so only a foreign total can miss it. */
  lemma {:induction false} SplitAddsUp(s: seq<AssignmentPayload>, leases: set<Gpu>, direction: string)
    requires AllCovered(s, leases, direction)
    ensures KindBytes(s, "direct") + KindBytes(s, "relay") == DeclaredTotal(s)
  {
    if s != [] {
      SplitAddsUp(s[..|s| - 1], leases, direction);
      CoveredKinds(s[|s| - 1], leases, direction);
    }
  }

  // ---------- the environment ----------

  datatype LeaseToken = LeaseToken(leaseId: string, relay: Gpu)

  /** The byte counts a worker's completion evidence may carry. */
  datatype Evidence = Evidence(verified: Option<int>, directBytes: Option<int>, relayBytes: Option<int>)

  /** `evidence` is None when the envelope has no worker result or the result no metadata. */
  datatype Completion = Completion(evidence: Option<Evidence>, workerBytes: int, hasResult: bool, hasStatusUpdate: bool)

  datatype FinalState = CompleteState | AuthorizationFailed | ParseFailed | CleanupFailed | Failed | StatusFailed
                        | OtherState

  datatype WorkerOutcome =
    | EnvelopeRejected
    | SubmissionRaised
    | Finished(state: FinalState, completion: Option<Completion>)

  /** What happens at each call of one execution; `accepts` is the daemon's answer to a terminal report. */
  datatype Environment = Environment(
    hasTransferId: bool, hasWorker: bool, leasesValid: bool, worker: WorkerOutcome, accepts: bool)

  datatype Report = Report(complete: bool, bytes: int)

  /** The terminal report sent, if any, whether the leases were cleaned up, and how the call ended. */
  datatype Outcome = Outcome(report: Option<Report>, cleaned: bool, result: Result<(), ExecutionError>)

  datatype Intent = Intent(assignments: seq<AssignmentPayload>, leases: seq<LeaseToken>, direction: string,
                           totalBytes: int)

  function LeasedRelays(leases: seq<LeaseToken>): set<Gpu> { set token | token in leases :: token.relay }

  // ---------- specification ----------

  /** Reporting a failure before any byte is known to have moved. */
  function Failing(env: Environment, cleaned: bool, result: Result<(), ExecutionError>): Outcome {
    if !env.hasTransferId then Outcome(None, cleaned, result)
    else Outcome(Some(Report(false, 0)), cleaned, if env.accepts then result else Err(ReportRejected))
  }

  function Sending(env: Environment, report: Report): Outcome {
    Outcome(Some(report), false, if env.accepts then Ok(()) else Err(ReportRejected))
  }

  function Raising(error: ExecutionError): Outcome { Outcome(None, false, Err(error)) }

  function RelayEvidenceError(e: Evidence, total: int): Option<ExecutionError> {
    if GetOr(e.directBytes, 0) + GetOr(e.relayBytes, total) != total then Some(PathEvidenceMismatch) else None
  }

  function MixedEvidenceError(s: seq<AssignmentPayload>, e: Evidence, total: int): Option<ExecutionError> {
    var (direct, relay) := (KindBytes(s, "direct"), KindBytes(s, "relay"));
    if direct + relay != total then Some(SplitMismatch)
    else if GetOr(e.directBytes, direct) != direct || GetOr(e.relayBytes, relay) != relay then Some(WorkerSplitMismatch)
    else None
  }

  function Completing(i: Intent, env: Environment, completion: Option<Completion>): Outcome {
    if !RelayOnly(i.assignments) && !Mixed(i.assignments) then Raising(NoRelayPath)
    else if completion == None || completion.value.evidence == None then Raising(MissingEvidence)
    else
      var e := completion.value.evidence.value;
      var verified := GetOr(e.verified, i.totalBytes) == i.totalBytes;
      if RelayOnly(i.assignments) then
        if !verified then Raising(NotVerified)
        else if RelayEvidenceError(e, i.totalBytes).Some? then Raising(PathEvidenceMismatch)
        else Sending(env, Report(true, i.totalBytes))
      else
        var error := MixedEvidenceError(i.assignments, e, i.totalBytes);
        if error.Some? then Raising(error.value)
        else if !verified then Raising(NotVerified)
        else Sending(env, Report(true, i.totalBytes))
  }

  function DeferredFailure(i: Intent, env: Environment, completion: Option<Completion>): Outcome {
    if completion == None then Raising(MissingEnvelope)
    else if completion.value.evidence == None then Raising(MissingEvidence)
    else
      var e := completion.value.evidence.value;
      var error := if Mixed(i.assignments) then MixedEvidenceError(i.assignments, e, i.totalBytes)
        else RelayEvidenceError(e, i.totalBytes);
      if error.Some? then Raising(error.value) else Sending(env, Report(false, Max(0, completion.value.workerBytes)))
  }

  predicate HasStatus(completion: Option<Completion>) {
    completion.Some? && (completion.value.hasResult || completion.value.hasStatusUpdate)
  }

  function Ending(i: Intent, env: Environment, state: FinalState, completion: Option<Completion>): Outcome {
    match state
    case CompleteState => Completing(i, env, completion)
    case AuthorizationFailed => Failing(env, true, Err(WorkerNotComplete))
    case ParseFailed => Failing(env, true, Err(WorkerNotComplete))
    case OtherState => Failing(env, true, Err(WorkerNotComplete))
    case CleanupFailed =>
      if HasStatus(completion) then Outcome(None, false, Ok(())) else Failing(env, true, Err(WorkerNotComplete))
    case Failed =>
      if RelayOnly(i.assignments) || Mixed(i.assignments) then DeferredFailure(i, env, completion)
      else Outcome(None, false, Ok(()))
    case StatusFailed =>
      if RelayOnly(i.assignments) || Mixed(i.assignments) then DeferredFailure(i, env, completion)
      else Outcome(None, false, Ok(()))
  }

  function Executed(i: Intent, env: Environment): Outcome {
    var check := LeaseCheck(i.assignments, LeasedRelays(i.leases), i.direction);
    if i.leases == [] then Failing(env, false, Ok(()))
    else if !env.hasWorker then Failing(env, true, Ok(()))
    else if !env.leasesValid then Raising(LeaseInvalid)
    else if check.Err? then Failing(env, true, Err(check.error))
    else if !env.hasTransferId || env.worker == SubmissionRaised then Failing(env, true, Err(WorkerRaised))
    else if env.worker == EnvelopeRejected then Failing(env, true, Err(EnvelopeInvalid))
    else Ending(i, env, env.worker.state, env.worker.completion)
  }

  // ---------- the executor ----------

  /** The daemon side, as the executor sees it: the terminal reports it got and the leases it was told to clean up. */
  class DaemonClient {
    var reports: seq<Report>
    var cleaned: seq<string>

    constructor ()
      ensures reports == [] && cleaned == []
    {
      reports, cleaned := [], [];
    }

    method TransferStatus(report: Report, accepts: bool) returns (r: Result<(), ExecutionError>)
      modifies `reports
      ensures reports == old(reports) + [report]
      ensures r == if accepts then Ok(()) else Err(ReportRejected)
    {
      reports := reports + [report];
      return if accepts then Ok(()) else Err(ReportRejected);
    }

    method Cleanup(leaseId: string)
      modifies `cleaned
      ensures cleaned == old(cleaned) + [leaseId]
    {
      cleaned := cleaned + [leaseId];
    }
  }

  function LeaseIds(leases: seq<LeaseToken>): (ids: seq<string>)
    ensures |ids| == |leases| && forall i :: 0 <= i < |leases| ==> ids[i] == leases[i].leaseId
  {
    seq(|leases|, i requires 0 <= i < |leases| => leases[i].leaseId)
  }

  method CleanupPlannedRelayLeases(daemon: DaemonClient, leases: seq<LeaseToken>)
    modifies daemon`cleaned
    ensures daemon.cleaned == old(daemon.cleaned) + LeaseIds(leases)
  {
    ghost var ids := LeaseIds(leases);
    for i := 0 to |leases|
      invariant daemon.cleaned == old(daemon.cleaned) + ids[..i]
    {
      daemon.Cleanup(leases[i].leaseId);
      assert ids[..i + 1] == ids[..i] + [ids[i]];
    }
    assert ids[..|leases|] == ids;
  }

  /** The daemon has seen what the outcome says: one report or none, all leases cleaned up or none. */
  twostate predicate Saw(daemon: DaemonClient, leases: seq<LeaseToken>, o: Outcome)
    reads daemon
  {
    && daemon.reports == old(daemon.reports) + (if o.report.Some? then [o.report.value] else [])
    && daemon.cleaned == old(daemon.cleaned) + (if o.cleaned then LeaseIds(leases) else [])
  }

  method MarkTransferFailed(daemon: DaemonClient, i: Intent, env: Environment, cleans: bool,
                            result: Result<(), ExecutionError>)
    returns (r: Result<(), ExecutionError>)
    modifies daemon
    ensures Saw(daemon, i.leases, Failing(env, cleans, result)) && r == Failing(env, cleans, result).result
  {
    if cleans {
      CleanupPlannedRelayLeases(daemon, i.leases);
    }
    if !env.hasTransferId {
      return result;
    }
    var sent := daemon.TransferStatus(Report(false, 0), env.accepts);
    return if sent.Err? then sent else result;
  }

  method ReportWorkerCompletion(daemon: DaemonClient, i: Intent, env: Environment, completion: Option<Completion>)
    returns (r: Result<(), ExecutionError>)
    modifies daemon
    ensures Saw(daemon, i.leases, Completing(i, env, completion)) && r == Completing(i, env, completion).result
  {
    if !RelayOnly(i.assignments) && !Mixed(i.assignments) {
      return Err(NoRelayPath);
    }
    if completion == None || completion.value.evidence == None {
      return Err(MissingEvidence);
    }
    var e := completion.value.evidence.value;
    if RelayOnly(i.assignments) {
      if GetOr(e.verified, i.totalBytes) != i.totalBytes {
        return Err(NotVerified);
      }
      if RelayEvidenceError(e, i.totalBytes).Some? {
        return Err(PathEvidenceMismatch);
      }
    } else {
      var error := MixedEvidenceError(i.assignments, e, i.totalBytes);
      if error.Some? {
        return Err(error.value);
      }
      if GetOr(e.verified, i.totalBytes) != i.totalBytes {
        return Err(NotVerified);
      }
    }
    r := daemon.TransferStatus(Report(true, i.totalBytes), env.accepts);
  }

  method ReportDeferredWorkerFailure(daemon: DaemonClient, i: Intent, env: Environment, completion: Option<Completion>)
    returns (r: Result<(), ExecutionError>)
    modifies daemon
    ensures Saw(daemon, i.leases, DeferredFailure(i, env, completion))
    ensures r == DeferredFailure(i, env, completion).result
  {
    if completion == None {
      return Err(MissingEnvelope);
    }
    if completion.value.evidence == None {
      return Err(MissingEvidence);
    }
    var e := completion.value.evidence.value;
    var direct := PlanAssignmentBytes(i.assignments, "direct");
    var relay := PlanAssignmentBytes(i.assignments, "relay");
    var error := if direct > 0 && relay > 0 then MixedEvidenceError(i.assignments, e, i.totalBytes)
      else RelayEvidenceError(e, i.totalBytes);
    if error.Some? {
      return Err(error.value);
    }
    r := daemon.TransferStatus(Report(false, Max(0, completion.value.workerBytes)), env.accepts);
  }

  method FinishWorkerExecution(daemon: DaemonClient, i: Intent, env: Environment, state: FinalState,
                               completion: Option<Completion>)
    returns (r: Result<(), ExecutionError>)
    modifies daemon
    ensures Saw(daemon, i.leases, Ending(i, env, state, completion)) && r == Ending(i, env, state, completion).result
  {
    hide Completing, DeferredFailure, Failing, RelayOnly, Mixed;
    if state == CompleteState {
      r := ReportWorkerCompletion(daemon, i, env, completion);
    } else if state == CleanupFailed && HasStatus(completion) {
      r := Ok(());
    } else if state == Failed || state == StatusFailed {
      if RelayOnly(i.assignments) || Mixed(i.assignments) {
        r := ReportDeferredWorkerFailure(daemon, i, env, completion);
      } else {
        r := Ok(());
      }
    } else {
      r := MarkTransferFailed(daemon, i, env, true, Err(WorkerNotComplete));
    }
  }

  /** One execution; a result of Ok means the receipt is then taken from the daemon. */
  method ExecuteWorkerManagedIntent(daemon: DaemonClient, i: Intent, env: Environment)
    returns (r: Result<(), ExecutionError>)
    modifies daemon
    ensures Saw(daemon, i.leases, Executed(i, env)) && r == Executed(i, env).result
  {
    hide Ending, Failing, LeaseCheck;
    if i.leases == [] {
      r := MarkTransferFailed(daemon, i, env, false, Ok(()));
      return;
    }
    if !env.hasWorker {
      r := MarkTransferFailed(daemon, i, env, true, Ok(()));
      return;
    }
    if !env.leasesValid {
      return Err(LeaseInvalid);
    }
    var relays := set token | token in i.leases :: token.relay;
    var check := RequireWorkerPlanMatchesLeases(i.assignments, relays, i.direction);
    if check.Err? {
      r := MarkTransferFailed(daemon, i, env, true, Err(check.error));
      return;
    }
    if !env.hasTransferId || env.worker == SubmissionRaised {
      r := MarkTransferFailed(daemon, i, env, true, Err(WorkerRaised));
      return;
    }
    if env.worker == EnvelopeRejected {
      r := MarkTransferFailed(daemon, i, env, true, Err(EnvelopeInvalid));
      return;
    }
    r := FinishWorkerExecution(daemon, i, env, env.worker.state, env.worker.completion);
  }

  /** Whatever the environment does, the daemon gets at most one terminal report for the intent. */
  method AtMostOneReport(daemon: DaemonClient, i: Intent, env: Environment) returns (r: Result<(), ExecutionError>)
    modifies daemon
    ensures |daemon.reports| <= |old(daemon.reports)| + 1 && old(daemon.reports) <= daemon.reports
  {
    r := ExecuteWorkerManagedIntent(daemon, i, env);
  }

  // ---------- what the reports say ----------

  /** The worker was reached and came back with this final state. */
  predicate Reached(i: Intent, env: Environment) {
    && i.leases != [] && env.hasWorker && env.leasesValid && env.hasTransferId && env.worker.Finished?
    && LeaseCheck(i.assignments, LeasedRelays(i.leases), i.direction).Ok?
  }

  /** The worker's evidence agrees with the plan and the intent. */
  predicate Verified(i: Intent, e: Evidence) {
    && GetOr(e.verified, i.totalBytes) == i.totalBytes
    && (RelayOnly(i.assignments) ==> GetOr(e.directBytes, 0) + GetOr(e.relayBytes, i.totalBytes) == i.totalBytes)
    && (Mixed(i.assignments) ==>
          var (direct, relay) := (KindBytes(i.assignments, "direct"), KindBytes(i.assignments, "relay"));
          direct + relay == i.totalBytes && GetOr(e.directBytes, direct) == direct
          && GetOr(e.relayBytes, relay) == relay)
  }

  /** A transfer is reported complete exactly when a finished worker's evidence agrees in every byte count. */
  lemma CompleteIff(i: Intent, env: Environment)
    ensures Executed(i, env).report == Some(Report(true, i.totalBytes)) <==>
              Reached(i, env) && env.worker.state == CompleteState && (RelayOnly(i.assignments) || Mixed(i.assignments))
              && env.worker.completion.Some? && env.worker.completion.value.evidence.Some?
              && Verified(i, env.worker.completion.value.evidence.value)
    ensures Executed(i, env).report.Some? && Executed(i, env).report.value.complete ==>
              Executed(i, env).report.value.bytes == i.totalBytes
  {
    hide LeaseCheck, LeasedRelays, KindBytes;
  }

  /**
    A failure report credits bytes only for a worker that came back failed, and then what it
    reported, never less than 0.
   */
  lemma FailureCredits(i: Intent, env: Environment)
    requires Executed(i, env).report.Some? && !Executed(i, env).report.value.complete
    ensures Executed(i, env).report.value.bytes >= 0
    ensures Executed(i, env).report.value.bytes > 0 ==>
              && Reached(i, env) && (env.worker.state == Failed || env.worker.state == StatusFailed)
              && env.worker.completion.Some?
              && Executed(i, env).report.value.bytes == env.worker.completion.value.workerBytes
    ensures Reached(i, env) && (env.worker.state == Failed || env.worker.state == StatusFailed) ==>
              && env.worker.completion.Some?
              && Executed(i, env).report.value.bytes
                 == if env.worker.completion.value.workerBytes >= 0 then env.worker.completion.value.workerBytes else 0
  {
    hide LeaseCheck, LeasedRelays, KindBytes;
  }

  /** A failed worker's bytes are reported exactly when its evidence agrees with the plan's split. */
  lemma FailedReportIff(i: Intent, env: Environment)
    requires Reached(i, env) && (env.worker.state == Failed || env.worker.state == StatusFailed)
    ensures Executed(i, env).report.Some? <==>
              && (RelayOnly(i.assignments) || Mixed(i.assignments))
              && env.worker.completion.Some? && env.worker.completion.value.evidence.Some?
              && SplitAgrees(i, env.worker.completion.value.evidence.value)
    ensures Executed(i, env).report.Some? ==> !Executed(i, env).report.value.complete
  {
    hide LeaseCheck, LeasedRelays, KindBytes;
  }

  /** The evidence's byte counts per path kind agree with the intent (relays alone) or with the plan (both kinds). */
  predicate SplitAgrees(i: Intent, e: Evidence) {
    var (direct, relay) := (KindBytes(i.assignments, "direct"), KindBytes(i.assignments, "relay"));
    if Mixed(i.assignments) then
      && direct + relay == i.totalBytes
      && (e.directBytes == None || e.directBytes.value == direct)
      && (e.relayBytes == None || e.relayBytes.value == relay)
    else
      (if e.directBytes == None then 0 else e.directBytes.value)
      + (if e.relayBytes == None then i.totalBytes else e.relayBytes.value) == i.totalBytes
  }

  /** The daemon's refusal of a report is the result, whatever the reason for the report was. */
  lemma RejectedIff(i: Intent, env: Environment)
    ensures Executed(i, env).result == Err(ReportRejected) <==> Executed(i, env).report.Some? && !env.accepts
  {
    hide LeaseCheck, LeasedRelays, KindBytes;
    var check := LeaseCheck(i.assignments, LeasedRelays(i.leases), i.direction);
    if check.Err? {
      CheckErrors(i.assignments, LeasedRelays(i.leases), i.direction);
    }
  }

  /** How an execution ends that never gets a worker's result: in the order in which the code finds out. */
  lemma EarlyResults(i: Intent, env: Environment)
    requires env.accepts || !env.hasTransferId
    ensures var (r, check) := (Executed(i, env).result, LeaseCheck(i.assignments, LeasedRelays(i.leases), i.direction));
            && (i.leases == [] || !env.hasWorker ==> r == Ok(()))
            && (i.leases != [] && env.hasWorker && !env.leasesValid ==>
                  r == Err(LeaseInvalid) && Executed(i, env).report == None && !Executed(i, env).cleaned)
            && (i.leases != [] && env.hasWorker && env.leasesValid && check.Err? ==> r == Err(check.error))
            && (Submitted(i, env) && env.worker == SubmissionRaised ==> r == Err(WorkerRaised))
            && (Submitted(i, env) && env.worker == EnvelopeRejected ==> r == Err(EnvelopeInvalid))
            && (Reached(i, env) && env.worker.state in {AuthorizationFailed, ParseFailed, OtherState} ==>
                  r == Err(WorkerNotComplete))
            && (Reached(i, env) && env.worker.state == CleanupFailed ==>
                  var c := env.worker.completion;
                  if c == None || (!c.value.hasResult && !c.value.hasStatusUpdate) then r == Err(WorkerNotComplete)
                  else r == Ok(()) && Executed(i, env).report == None)
  {
    hide LeaseCheck, LeasedRelays, KindBytes;
  }

  /** How the evidence of a worker that completed a plan with a mode is refused. */
  lemma CompletionErrors(i: Intent, env: Environment)
    requires Reached(i, env) && env.worker.state == CompleteState && (RelayOnly(i.assignments) || Mixed(i.assignments))
    requires env.accepts
    ensures var (r, c) := (Executed(i, env).result, env.worker.completion);
            if c == None || c.value.evidence == None then r == Err(MissingEvidence)
            else
              var e := c.value.evidence.value;
              var verified := e.verified == None || e.verified.value == i.totalBytes;
              var split := KindBytes(i.assignments, "direct") + KindBytes(i.assignments, "relay");
              if Mixed(i.assignments) && split != i.totalBytes then
                r == Err(SplitMismatch)
              else if Mixed(i.assignments) && !SplitAgrees(i, e) then r == Err(WorkerSplitMismatch)
              else if !verified then r == Err(NotVerified)
              else if !SplitAgrees(i, e) then r == Err(PathEvidenceMismatch)
              else r == Ok(())
  {
    hide LeaseCheck, LeasedRelays, KindBytes;
  }

  /** How a failed worker of a plan with a mode is refused; otherwise its failure is reported. */
  lemma FailureErrors(i: Intent, env: Environment)
    requires Reached(i, env) && (env.worker.state == Failed || env.worker.state == StatusFailed)
    requires (RelayOnly(i.assignments) || Mixed(i.assignments)) && env.accepts
    ensures var (r, c) := (Executed(i, env).result, env.worker.completion);
            if c == None then r == Err(MissingEnvelope)
            else if c.value.evidence == None then r == Err(MissingEvidence)
            else
              var e := c.value.evidence.value;
              var split := KindBytes(i.assignments, "direct") + KindBytes(i.assignments, "relay");
              if Mixed(i.assignments) && split != i.totalBytes then
                r == Err(SplitMismatch)
              else if SplitAgrees(i, e) then r == Ok(())
              else r == Err(if Mixed(i.assignments) then WorkerSplitMismatch else PathEvidenceMismatch)
  {
    hide LeaseCheck, LeasedRelays, KindBytes;
  }

  /** For well-formed plans the error of a transfer without a relay path never comes. */
  lemma NoRelayPathUnreachable(i: Intent, env: Environment)
    requires WellFormedPlan(i.assignments)
    ensures Executed(i, env).result != Err(NoRelayPath)
  {
    hide LeaseCheck, KindBytes, RelayOnly, Mixed;
    var check := LeaseCheck(i.assignments, LeasedRelays(i.leases), i.direction);
    if check.Ok? {
      ExactlyOneMode(i.assignments, LeasedRelays(i.leases), i.direction);
    } else {
      CheckErrors(i.assignments, LeasedRelays(i.leases), i.direction);
    }
  }

  lemma {:induction false} RelayErrors(s: seq<AssignmentPayload>, leases: set<Gpu>, direction: string)
    requires WorkerRelays(s, leases, direction).Err?
    ensures WorkerRelays(s, leases, direction).error in {WrongDirection, RelayNotLeased}
  {
    if WorkerRelays(s[..|s| - 1], leases, direction).Err? {
      RelayErrors(s[..|s| - 1], leases, direction);
    }
  }

  lemma CheckErrors(s: seq<AssignmentPayload>, leases: set<Gpu>, direction: string)
    requires LeaseCheck(s, leases, direction).Err?
    ensures LeaseCheck(s, leases, direction).error
              in {NoLeases, WrongDirection, RelayNotLeased, NoWorkerChunks, LeasesDoNotMatch}
  {
    if WorkerRelays(s, leases, direction).Err? {
      RelayErrors(s, leases, direction);
    }
  }

  /** It comes exactly when a covered plan without a mode reaches a worker that completes. */
  lemma NoRelayPathIff(i: Intent, env: Environment)
    ensures Executed(i, env).result == Err(NoRelayPath) <==>
              Reached(i, env) && env.worker.state == CompleteState
              && !(KindBytes(i.assignments, "relay") > 0 && KindBytes(i.assignments, "direct") >= 0)
  {
    hide LeaseCheck, LeasedRelays, KindBytes;
    ModeIff(i.assignments);
    if LeaseCheck(i.assignments, LeasedRelays(i.leases), i.direction).Err? {
      CheckErrors(i.assignments, LeasedRelays(i.leases), i.direction);
    }
  }

  /** A plan whose declared bytes are the intent's never misses the split. */
  lemma SplitMismatchUnreachable(i: Intent, env: Environment)
    requires DeclaredTotal(i.assignments) == i.totalBytes
    ensures Executed(i, env).result != Err(SplitMismatch)
  {
    hide LeaseCheck, KindBytes, RelayOnly, Mixed, DeclaredTotal;
    var relays := LeasedRelays(i.leases);
    if LeaseCheck(i.assignments, relays, i.direction).Ok? {
      AcceptedIff(i.assignments, relays, i.direction);
      SplitAddsUp(i.assignments, relays, i.direction);
    } else {
      CheckErrors(i.assignments, relays, i.direction);
    }
  }

  /** The plan passed every check and was handed to the worker. */
  predicate Submitted(i: Intent, env: Environment) {
    && i.leases != [] && env.hasWorker && env.leasesValid && env.hasTransferId
    && LeaseCheck(i.assignments, LeasedRelays(i.leases), i.direction).Ok?
  }

  /** The worker came back with a final state it reports to the daemon itself when the plan has no mode. */
  predicate WorkerReported(worker: WorkerOutcome) {
    && worker.Finished?
    && (worker.state in {CompleteState, Failed, StatusFailed}
        || (worker.state == CleanupFailed && HasStatus(worker.completion)))
  }

  /**
    For a plan without a mode the worker reports its terminal state itself. Then the executor reports
    nothing exactly when the worker did; otherwise it reports a failure of 0 bytes and cleans up.
   */
  lemma NeverBothReport(i: Intent, env: Environment)
    requires Submitted(i, env) && !RelayOnly(i.assignments) && !Mixed(i.assignments)
    ensures Executed(i, env).report == None <==> WorkerReported(env.worker)
    ensures !WorkerReported(env.worker) ==>
              Executed(i, env).report == Some(Report(false, 0)) && Executed(i, env).cleaned
  {
    hide LeaseCheck, LeasedRelays, KindBytes;
  }

  /**
    For well-formed plans, a call that ends without an error has reported the outcome itself, unless
    the worker failed in its own cleanup after a status went out, or there is no transfer to report on.
   */
  lemma QuietOnlyAfterWorkerStatus(i: Intent, env: Environment)
    requires WellFormedPlan(i.assignments) && Executed(i, env).result.Ok? && Executed(i, env).report == None
    ensures !env.hasTransferId
              || (Reached(i, env) && env.worker.state == CleanupFailed && HasStatus(env.worker.completion))
  {
    hide LeaseCheck, KindBytes, RelayOnly, Mixed;
    if Reached(i, env) {
      ExactlyOneMode(i.assignments, LeasedRelays(i.leases), i.direction);
    }
  }

  /**
    The leases are cleaned up exactly when there are some and the transfer is failed before or
    without a worker result.
   */
  lemma CleanedIff(i: Intent, env: Environment)
    requires env.hasTransferId
    ensures Executed(i, env).cleaned <==>
              i.leases != [] && Executed(i, env).report == Some(Report(false, 0))
              && !(Reached(i, env) && (env.worker.state == Failed || env.worker.state == StatusFailed))
  {
    hide LeaseCheck, LeasedRelays, KindBytes;
  }
}
