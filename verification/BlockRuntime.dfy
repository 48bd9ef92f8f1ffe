/**
  The daemon's per-block runtime records: a state machine driven by tickets, by coarse transfer
  status reports and by block-level worker progress. Records are frozen values; every step
  returns new ones.
 */
module BlockRuntime {
  import opened Common

  // ---------- records ----------

  /** What a plan fixes about a block. */
  datatype Block = Block(
    transferId: string, planId: string, blockId: string, pathId: string, pathKind: string, direction: string,
    targetDevice: int, relayDevice: Option<int>, attempt: int, srcOffset: int, dstOffset: int, bytes: int,
    allowedPathIds: seq<string>, leaseIds: seq<string>, planGeneration: int)

  datatype BlockState = Queued | Running | Completed | Failed | Canceled

  datatype Record = Record(
    block: Block, state: BlockState, ticketId: Option<string>, issuedAt: Option<real>,
    startedAt: Option<real>, completedAt: Option<real>, error: Option<string>)

  function FreshRecord(block: Block): Record { Record(block, Queued, None, None, None, None, None) }

  predicate Terminal(s: BlockState) { s == Completed || s == Failed || s == Canceled }

  function Text(s: BlockState): string {
    match s
    case Queued => "queued"
    case Running => "running"
    case Completed => "completed"
    case Failed => "failed"
    case Canceled => "canceled"
  }

  /** A missing start time and a start time of zero both read as "not started". */
  function StartedOr(r: Record, now: real): Option<real> {
    if r.startedAt == None || r.startedAt == Some(0.0) then Some(now) else r.startedAt
  }

  function RunningRecord(r: Record, now: real): Record {
    if Terminal(r.state) then r else r.(state := Running, startedAt := StartedOr(r, now))
  }

  function CompletedRecord(r: Record, now: real): Record {
    r.(state := Completed, startedAt := StartedOr(r, now), completedAt := Some(now), error := None)
  }

  function EndedRecord(r: Record, s: BlockState, error: Option<string>, now: real): Record {
    r.(state := s, startedAt := StartedOr(r, now), completedAt := Some(now),
       error := if error == None || error == Some("") then Some(Text(s)) else error)
  }

  function MarkTicketIssued(rs: seq<Record>, ticketId: string, issuedAt: real): (result: seq<Record>)
    ensures |result| == |rs|
    ensures forall i :: 0 <= i < |rs| ==> result[i] == rs[i].(ticketId := Some(ticketId), issuedAt := Some(issuedAt))
  {
    seq(|rs|, i requires 0 <= i < |rs| => rs[i].(ticketId := Some(ticketId), issuedAt := Some(issuedAt)))
  }

  // ---------- partial completion ----------

  /** The part of `n` left after every block that fits, in order, has taken its bytes. */
  function Leftover(rs: seq<Record>, n: int): int {
    if rs == [] then n
    else
      var left := Leftover(rs[..|rs| - 1], n);
      if left >= rs[|rs| - 1].block.bytes then left - rs[|rs| - 1].block.bytes else left
  }

  function PartlyEnded(rs: seq<Record>, s: BlockState, n: int, error: Option<string>, now: real): seq<Record> {
    if rs == [] then []
    else
      var (before, last) := (rs[..|rs| - 1], rs[|rs| - 1]);
      PartlyEnded(before, s, n, error, now)
      + [if Leftover(before, n) >= last.block.bytes then CompletedRecord(last, now)
         else EndedRecord(last, s, error, now)]
  }

  method TerminalPartialRecords(rs: seq<Record>, s: BlockState, bytesCompleted: int, error: Option<string>, now: real)
    returns (updated: seq<Record>)
    ensures updated == PartlyEnded(rs, s, Max(0, bytesCompleted), error, now)
  {
    var remaining := Max(0, bytesCompleted);
    updated := [];
    for i := 0 to |rs|
      invariant remaining == Leftover(rs[..i], Max(0, bytesCompleted))
      invariant updated == PartlyEnded(rs[..i], s, Max(0, bytesCompleted), error, now)
    {
      assert rs[..i + 1][..i] == rs[..i];
      if remaining >= rs[i].block.bytes {
        updated := updated + [CompletedRecord(rs[i], now)];
        remaining := remaining - rs[i].block.bytes;
      } else {
        updated := updated + [EndedRecord(rs[i], s, error, now)];
      }
    }
    assert rs[..|rs|] == rs;
  }

  // ---------- status reports ----------

  datatype RuntimeError = UnknownStatus(text: string)

  datatype Status = Submitted | RunningStatus | Complete | FailedStatus | CanceledStatus

  function StatusOf(text: string): Option<Status> {
    if text == "submitted" then Some(Submitted)
    else if text == "running" then Some(RunningStatus)
    else if text == "complete" then Some(Complete)
    else if text == "failed" then Some(FailedStatus)
    else if text == "canceled" then Some(CanceledStatus)
    else None
  }

  function AllRunning(rs: seq<Record>, now: real): (result: seq<Record>)
    ensures |result| == |rs| && forall i :: 0 <= i < |rs| ==> result[i] == RunningRecord(rs[i], now)
  {
    seq(|rs|, i requires 0 <= i < |rs| => RunningRecord(rs[i], now))
  }

  function AllCompleted(rs: seq<Record>, now: real): (result: seq<Record>)
    ensures |result| == |rs| && forall i :: 0 <= i < |rs| ==> result[i] == CompletedRecord(rs[i], now)
  {
    seq(|rs|, i requires 0 <= i < |rs| => CompletedRecord(rs[i], now))
  }

  function ForStatus(rs: seq<Record>, status: Status, bytesCompleted: int, error: Option<string>,
                     now: real): seq<Record> {
    match status
    case Submitted => rs
    case RunningStatus => AllRunning(rs, now)
    case Complete => AllCompleted(rs, now)
    case FailedStatus => PartlyEnded(rs, Failed, Max(0, bytesCompleted), error, now)
    case CanceledStatus => PartlyEnded(rs, Canceled, Max(0, bytesCompleted), error, now)
  }

  function Advanced(rs: seq<Record>, text: string, bytesCompleted: int, error: Option<string>, now: real)
    : Result<seq<Record>, RuntimeError>
  {
    if rs == [] then Ok([])
    else match StatusOf(text)
      case None => Err(UnknownStatus(text))
      case Some(status) => Ok(ForStatus(rs, status, bytesCompleted, error, now))
  }

  // ---------- what a report does, field by field ----------

  predicate SamePlan(r: Record, r': Record) {
    r'.block == r.block && r'.ticketId == r.ticketId && r'.issuedAt == r.issuedAt
  }

  /** A start time that is there and not zero stays; otherwise the block starts now. */
  predicate HasStarted(r: Record, r': Record, now: real) {
    if r.startedAt != None && r.startedAt != Some(0.0) then r'.startedAt == r.startedAt else r'.startedAt == Some(now)
  }

  /** Only a block that is queued or running starts or goes on. */
  predicate IsRunning(r: Record, r': Record, now: real) {
    if r.state == Queued || r.state == Running then
      && SamePlan(r, r') && HasStarted(r, r', now) && r'.state == Running
      && r'.completedAt == r.completedAt && r'.error == r.error
    else r' == r
  }

  predicate IsCompleted(r: Record, r': Record, now: real) {
    && SamePlan(r, r') && HasStarted(r, r', now)
    && r'.state == Completed && r'.completedAt == Some(now) && r'.error == None
  }

  /** A missing or empty error is replaced by the name of the state. */
  predicate IsFailed(r: Record, r': Record, error: Option<string>, now: real) {
    && SamePlan(r, r') && HasStarted(r, r', now) && r'.state == Failed && r'.completedAt == Some(now)
    && r'.error == (if error != None && error != Some("") then error else Some("failed"))
  }

  predicate IsCanceled(r: Record, r': Record, error: Option<string>, now: real) {
    && SamePlan(r, r') && HasStarted(r, r', now) && r'.state == Canceled && r'.completedAt == Some(now)
    && r'.error == (if error != None && error != Some("") then error else Some("canceled"))
  }

  /** The blocks in front of this one leave enough of the reported bytes for it. */
  predicate Covers(rs: seq<Record>, i: nat, bytesCompleted: int)
    requires i < |rs|
  {
    Leftover(rs[..i], if bytesCompleted >= 0 then bytesCompleted else 0) >= rs[i].block.bytes
  }

  /** What a status text makes of record i. */
  predicate IsAdvanced(rs: seq<Record>, i: nat, r': Record, text: string, bytesCompleted: int, error: Option<string>,
                       now: real)
    requires i < |rs|
  {
    && (text == "submitted" ==> r' == rs[i])
    && (text == "running" ==> IsRunning(rs[i], r', now))
    && (text == "complete" ==> IsCompleted(rs[i], r', now))
    && (text == "failed" || text == "canceled" ==> Covers(rs, i, bytesCompleted) ==> IsCompleted(rs[i], r', now))
    && (text == "failed" && !Covers(rs, i, bytesCompleted) ==> IsFailed(rs[i], r', error, now))
    && (text == "canceled" && !Covers(rs, i, bytesCompleted) ==> IsCanceled(rs[i], r', error, now))
  }

  predicate IsStatusText(text: string) {
    text == "submitted" || text == "running" || text == "complete" || text == "failed" || text == "canceled"
  }

  /** The outcome of a status report: no records, an unknown text, or every record advanced. */
  predicate StatusOutcome(rs: seq<Record>, text: string, bytesCompleted: int, error: Option<string>, now: real,
                          r: Result<seq<Record>, RuntimeError>)
  {
    && (rs == [] ==> r == Ok([]))
    && (rs != [] && !IsStatusText(text) ==> r == Err(UnknownStatus(text)))
    && (rs != [] && IsStatusText(text) ==>
          && r.Ok? && |r.value| == |rs|
          && forall i :: 0 <= i < |rs| ==> IsAdvanced(rs, i, r.value[i], text, bytesCompleted, error, now))
  }

  lemma StatusOutcomeIs(rs: seq<Record>, text: string, bytesCompleted: int, error: Option<string>, now: real)
    ensures StatusOutcome(rs, text, bytesCompleted, error, now, Advanced(rs, text, bytesCompleted, error, now))
  {
    hide IsAdvanced;
    if rs != [] && IsStatusText(text) {
      var r := Advanced(rs, text, bytesCompleted, error, now);
      PartlyEndedSize(rs, if text == "failed" then Failed else Canceled, Max(0, bytesCompleted), error, now);
      forall i | 0 <= i < |rs| ensures IsAdvanced(rs, i, r.value[i], text, bytesCompleted, error, now) {
        AdvancedRecord(rs, text, bytesCompleted, error, now, i);
      }
    }
  }

  lemma AdvancedRecord(rs: seq<Record>, text: string, bytesCompleted: int, error: Option<string>, now: real, i: nat)
    requires i < |rs| && IsStatusText(text)
    ensures var r := Advanced(rs, text, bytesCompleted, error, now);
            r.Ok? && |r.value| == |rs| && IsAdvanced(rs, i, r.value[i], text, bytesCompleted, error, now)
  {
    hide PartlyEnded, Leftover;
    var s := if text == "failed" then Failed else Canceled;
    PartlyEndedSize(rs, s, Max(0, bytesCompleted), error, now);
    PartlyEndedAt(rs, s, Max(0, bytesCompleted), error, now, i);
  }

  method AdvanceForStatus(rs: seq<Record>, text: string, bytesCompleted: int, error: Option<string>, now: real)
    returns (r: Result<seq<Record>, RuntimeError>)
    ensures r == Advanced(rs, text, bytesCompleted, error, now)
    ensures StatusOutcome(rs, text, bytesCompleted, error, now, r)
  {
    hide StatusOutcome;
    StatusOutcomeIs(rs, text, bytesCompleted, error, now);
    if rs == [] {
      return Ok([]);
    }
    var status := StatusOf(text);
    match status {
      case None => return Err(UnknownStatus(text));
      case Some(s) =>
        match s {
          case Submitted => return Ok(rs);
          case RunningStatus => return Ok(AllRunning(rs, now));
          case Complete => return Ok(AllCompleted(rs, now));
          case FailedStatus =>
            var updated := TerminalPartialRecords(rs, Failed, bytesCompleted, error, now);
            return Ok(updated);
          case CanceledStatus =>
            var updated := TerminalPartialRecords(rs, Canceled, bytesCompleted, error, now);
            return Ok(updated);
        }
    }
  }

  // ---------- worker progress ----------

  datatype Item = Item(blockId: Option<string>, state: Option<string>)

  datatype Progress = Progress(state: Option<string>, bytesCompleted: int, items: seq<Item>)

  /** Items without a block id are skipped; of several items for one block the last counts. */
  function ByBlock(items: seq<Item>): map<string, Option<string>> {
    if items == [] then map[]
    else
      var (before, last) := (ByBlock(items[..|items| - 1]), items[|items| - 1]);
      if last.blockId == None then before else before[last.blockId.value := last.state]
  }

  predicate IsLastItem(items: seq<Item>, id: string, i: int) {
    0 <= i < |items| && items[i].blockId == Some(id) && forall j :: i < j < |items| ==> items[j].blockId != Some(id)
  }

  /** Exactly the named blocks are reported on, each with the state of its last item. */
  lemma {:induction false} LastItemCounts(items: seq<Item>, id: string)
    ensures id in ByBlock(items) <==> exists i :: 0 <= i < |items| && items[i].blockId == Some(id)
    ensures forall i :: IsLastItem(items, id, i) ==> id in ByBlock(items) && ByBlock(items)[id] == items[i].state
  {
    if items != [] {
      var m := |items| - 1;
      LastItemCounts(items[..m], id);
      assert forall i :: 0 <= i < m ==> items[..m][i] == items[i];
      forall i | IsLastItem(items, id, i) ensures id in ByBlock(items) && ByBlock(items)[id] == items[i].state {
        if i < m {
          assert IsLastItem(items[..m], id, i);
        }
      }
      if items[m].blockId != Some(id) && id in ByBlock(items[..m]) {
        var i :| 0 <= i < m && items[..m][i].blockId == Some(id);
        assert items[i].blockId == Some(id);
      }
    }
  }

  function ProgressRecord(r: Record, reported: Option<string>, error: Option<string>, now: real): Record {
    var text := if reported == None then Text(r.state) else reported.value;
    if text == "completed" || text == "complete" then CompletedRecord(r, now)
    else if text == "failed" then EndedRecord(r, Failed, error, now)
    else if text == "canceled" || text == "cancelled" then EndedRecord(r, Canceled, error, now)
    else if text == "running" then RunningRecord(r, now)
    else r
  }

  function StepRecord(r: Record, byBlock: map<string, Option<string>>, error: Option<string>, now: real): Record {
    if r.block.blockId in byBlock then ProgressRecord(r, byBlock[r.block.blockId], error, now) else r
  }

  function ForProgress(rs: seq<Record>, byBlock: map<string, Option<string>>, error: Option<string>, now: real)
    : (result: seq<Record>)
    ensures |result| == |rs| && forall i :: 0 <= i < |rs| ==> result[i] == StepRecord(rs[i], byBlock, error, now)
  {
    seq(|rs|, i requires 0 <= i < |rs| => StepRecord(rs[i], byBlock, error, now))
  }

  function Progressed(rs: seq<Record>, progress: Progress, error: Option<string>, now: real)
    : Result<seq<Record>, RuntimeError>
  {
    if rs == [] then Ok([])
    else if ByBlock(progress.items) == map[] then
      Advanced(rs, if progress.state == None then "running" else progress.state.value,
               progress.bytesCompleted, error, now)
    else Ok(ForProgress(rs, ByBlock(progress.items), error, now))
  }

  /** The state an item reports, or the block's own when it reports none. */
  predicate Says(r: Record, reported: Option<string>, text: string) {
    if reported.Some? then text == reported.value
    else
      && (r.state == Queued ==> text == "queued") && (r.state == Running ==> text == "running")
      && (r.state == Completed ==> text == "completed") && (r.state == Failed ==> text == "failed")
      && (r.state == Canceled ==> text == "canceled")
  }

  /** What a reported text makes of a block's record; an unknown text changes nothing. */
  predicate IsReported(r: Record, r': Record, text: string, error: Option<string>, now: real) {
    && (text == "completed" || text == "complete" ==> IsCompleted(r, r', now))
    && (text == "failed" ==> IsFailed(r, r', error, now))
    && (text == "canceled" || text == "cancelled" ==> IsCanceled(r, r', error, now))
    && (text == "running" ==> IsRunning(r, r', now))
    && (text !in ["completed", "complete", "failed", "canceled", "cancelled", "running"] ==> r' == r)
  }

  predicate IsNamed(items: seq<Item>, id: string) { exists i :: 0 <= i < |items| && items[i].blockId == Some(id) }

  /** The outcome of a progress report that names blocks: the last item of a block decides, other blocks stay. */
  ghost predicate ProgressOutcome(rs: seq<Record>, items: seq<Item>, error: Option<string>, now: real,
                                  rs': seq<Record>)
  {
    && |rs'| == |rs|
    && (forall i :: 0 <= i < |rs| && !IsNamed(items, rs[i].block.blockId) ==> rs'[i] == rs[i])
    && (forall i, q, text ::
          0 <= i < |rs| && IsLastItem(items, rs[i].block.blockId, q) && Says(rs[i], items[q].state, text) ==>
            IsReported(rs[i], rs'[i], text, error, now))
  }

  lemma ProgressOutcomeIs(rs: seq<Record>, items: seq<Item>, error: Option<string>, now: real)
    ensures ProgressOutcome(rs, items, error, now, ForProgress(rs, ByBlock(items), error, now))
  {
    hide ByBlock, ProgressRecord, IsReported, Says;
    var rs' := ForProgress(rs, ByBlock(items), error, now);
    forall i | 0 <= i < |rs| && !IsNamed(items, rs[i].block.blockId) ensures rs'[i] == rs[i] {
      LastItemCounts(items, rs[i].block.blockId);
    }
    forall i, q, text |
      0 <= i < |rs| && IsLastItem(items, rs[i].block.blockId, q) && Says(rs[i], items[q].state, text)
      ensures IsReported(rs[i], rs'[i], text, error, now)
    {
      LastItemCounts(items, rs[i].block.blockId);
      ReportedRecord(rs[i], items[q].state, text, error, now);
    }
  }

  lemma ReportedRecord(r: Record, reported: Option<string>, text: string, error: Option<string>, now: real)
    requires Says(r, reported, text)
    ensures IsReported(r, ProgressRecord(r, reported, error, now), text, error, now)
  {
  }

  lemma SomeNamed(items: seq<Item>)
    ensures ByBlock(items) != map[] <==> exists id :: IsNamed(items, id)
  {
    hide ByBlock, IsNamed;
    if ByBlock(items) != map[] {
      var id :| id in ByBlock(items);
      NamedIs(items, id);
    }
    if exists id :: IsNamed(items, id) {
      var id :| IsNamed(items, id);
      NamedIs(items, id);
    }
  }

  lemma NamedIs(items: seq<Item>, id: string)
    ensures id in ByBlock(items) <==> IsNamed(items, id)
  {
    LastItemCounts(items, id);
  }

  method AdvanceFromWorkerProgress(rs: seq<Record>, progress: Progress, error: Option<string>, now: real)
    returns (r: Result<seq<Record>, RuntimeError>)
    ensures r == Progressed(rs, progress, error, now)
    ensures rs == [] ==> r == Ok([])
    ensures rs != [] && (exists id :: IsNamed(progress.items, id)) ==>
              r.Ok? && ProgressOutcome(rs, progress.items, error, now, r.value)
    ensures rs != [] && !(exists id :: IsNamed(progress.items, id)) ==>
              StatusOutcome(rs, if progress.state == None then "running" else progress.state.value,
                            progress.bytesCompleted, error, now, r)
  {
    hide ProgressOutcome, StatusOutcome, IsNamed, ProgressRecord;
    SomeNamed(progress.items);
    ProgressOutcomeIs(rs, progress.items, error, now);
    if rs == [] {
      return Ok([]);
    }
    var byBlock := map[];
    for i := 0 to |progress.items|
      invariant byBlock == ByBlock(progress.items[..i])
    {
      assert progress.items[..i + 1][..i] == progress.items[..i];
      if progress.items[i].blockId.Some? {
        byBlock := byBlock[progress.items[i].blockId.value := progress.items[i].state];
      }
    }
    assert progress.items[..|progress.items|] == progress.items;
    if byBlock == map[] {
      r := AdvanceForStatus(rs, if progress.state == None then "running" else progress.state.value,
                            progress.bytesCompleted, error, now);
      return;
    }
    var updated := [];
    ghost var all := ForProgress(rs, byBlock, error, now);
    for i := 0 to |rs|
      invariant updated == all[..i]
    {
      var record := rs[i];
      if record.block.blockId in byBlock {
        record := ProgressRecord(record, byBlock[record.block.blockId], error, now);
      }
      updated := updated + [record];
    }
    assert all[..|rs|] == all;
    return Ok(updated);
  }

  // ---------- runs ----------

  datatype Step =
    | TicketIssued(ticketId: string, issuedAt: real)
    | StatusReported(text: string, bytesCompleted: int, error: Option<string>, now: real)
    | WorkerProgressed(progress: Progress, error: Option<string>, now: real)

  /** One step; a report that raises leaves the records as they were. */
  function Next(rs: seq<Record>, step: Step): seq<Record> {
    match step
    case TicketIssued(ticketId, issuedAt) => MarkTicketIssued(rs, ticketId, issuedAt)
    case StatusReported(text, bytesCompleted, error, now) =>
      var r := Advanced(rs, text, bytesCompleted, error, now);
      if r.Ok? then r.value else rs
    case WorkerProgressed(progress, error, now) =>
      var r := Progressed(rs, progress, error, now);
      if r.Ok? then r.value else rs
  }

  function Run(rs: seq<Record>, steps: seq<Step>): seq<Record> {
    if steps == [] then rs else Next(Run(rs, steps[..|steps| - 1]), steps[|steps| - 1])
  }

  function Clock(step: Step): real {
    match step
    case TicketIssued(_, issuedAt) => issuedAt
    case StatusReported(_, _, _, now) => now
    case WorkerProgressed(_, _, now) => now
  }

  /** What one step may do to one record: stay, take a ticket, start, complete or end. */
  ghost predicate Moved(r: Record, r': Record, now: real) {
    || r' == r
    || (exists ticketId, issuedAt :: r' == r.(ticketId := Some(ticketId), issuedAt := Some(issuedAt)))
    || r' == RunningRecord(r, now)
    || r' == CompletedRecord(r, now)
    || (exists s, error :: (s == Failed || s == Canceled) && r' == EndedRecord(r, s, error, now))
  }

  lemma {:induction false} PartlyEndedAt(rs: seq<Record>, s: BlockState, n: int, error: Option<string>, now: real,
                                         i: nat)
    requires i < |rs|
    ensures |PartlyEnded(rs, s, n, error, now)| == |rs|
    ensures PartlyEnded(rs, s, n, error, now)[i] ==
              if Leftover(rs[..i], n) >= rs[i].block.bytes then CompletedRecord(rs[i], now)
              else EndedRecord(rs[i], s, error, now)
  {
    var k := |rs| - 1;
    PartlyEndedSize(rs, s, n, error, now);
    if i < k {
      PartlyEndedAt(rs[..k], s, n, error, now, i);
      assert rs[..k][..i] == rs[..i];
    }
  }

  lemma {:induction false} PartlyEndedSize(rs: seq<Record>, s: BlockState, n: int, error: Option<string>, now: real)
    ensures |PartlyEnded(rs, s, n, error, now)| == |rs|
  {
    if rs != [] {
      PartlyEndedSize(rs[..|rs| - 1], s, n, error, now);
    }
  }

  lemma StatusMoves(rs: seq<Record>, status: Status, n: int, error: Option<string>, now: real, i: nat)
    requires i < |rs|
    ensures |ForStatus(rs, status, n, error, now)| == |rs| && Moved(rs[i], ForStatus(rs, status, n, error, now)[i], now)
  {
    hide PartlyEnded, RunningRecord, CompletedRecord, EndedRecord;
    if status == FailedStatus {
      PartlyEndedAt(rs, Failed, Max(0, n), error, now, i);
    } else if status == CanceledStatus {
      PartlyEndedAt(rs, Canceled, Max(0, n), error, now, i);
    }
  }

  lemma NextMoves(rs: seq<Record>, step: Step, i: nat)
    requires i < |rs|
    ensures |Next(rs, step)| == |rs| && Moved(rs[i], Next(rs, step)[i], Clock(step))
  {
    hide ForStatus, RunningRecord, CompletedRecord, EndedRecord, StatusOf;
    match step {
      case TicketIssued(_, _) =>
      case StatusReported(text, n, error, now) =>
        if StatusOf(text).Some? {
          StatusMoves(rs, StatusOf(text).value, n, error, now, i);
        }
      case WorkerProgressed(progress, error, now) =>
        var text := if progress.state == None then "running" else progress.state.value;
        if ByBlock(progress.items) == map[] && StatusOf(text).Some? {
          StatusMoves(rs, StatusOf(text).value, progress.bytesCompleted, error, now, i);
        }
    }
  }

  // ---------- what every run keeps ----------

  /**
    A block is terminal exactly when its completion time is set, started exactly when it has left
    the queue; completed blocks have no error, failed and canceled blocks have a non-empty one.
   */
  predicate Consistent(r: Record) {
    && (Terminal(r.state) <==> r.completedAt.Some?)
    && (r.state != Queued <==> r.startedAt.Some?)
    && (r.state == Failed || r.state == Canceled <==> r.error.Some?)
    && r.error != Some("")
  }

  lemma MovedKeeps(r: Record, r': Record, now: real)
    requires Moved(r, r', now)
    ensures r'.block == r.block
    ensures Consistent(r) ==> Consistent(r')
    ensures Terminal(r.state) ==> Terminal(r'.state)
    ensures r.startedAt.Some? && r.startedAt != Some(0.0) ==> r'.startedAt == r.startedAt
    ensures r.startedAt != Some(0.0) && now != 0.0 ==> r'.startedAt != Some(0.0)
  {
  }

  /**
    Whatever tickets, status reports and worker progress arrive, in any order: blocks keep their
    order, ids, offsets, bytes and leases, and every record stays consistent.
   */
  lemma {:induction false} RunKeeps(rs: seq<Record>, steps: seq<Step>, i: nat)
    requires i < |rs|
    ensures |Run(rs, steps)| == |rs| && Run(rs, steps)[i].block == rs[i].block
    ensures Consistent(rs[i]) ==> Consistent(Run(rs, steps)[i])
    ensures Terminal(rs[i].state) ==> Terminal(Run(rs, steps)[i].state)
    ensures rs[i].startedAt.Some? && rs[i].startedAt != Some(0.0) ==> Run(rs, steps)[i].startedAt == rs[i].startedAt
  {
    hide Next, Moved, Consistent, Terminal;
    if steps != [] {
      var before := Run(rs, steps[..|steps| - 1]);
      RunKeeps(rs, steps[..|steps| - 1], i);
      NextMoves(before, steps[|steps| - 1], i);
      MovedKeeps(before[i], Next(before, steps[|steps| - 1])[i], Clock(steps[|steps| - 1]));
    }
  }

  function Fresh(blocks: seq<Block>): (rs: seq<Record>)
    ensures |rs| == |blocks| && forall i :: 0 <= i < |blocks| ==> rs[i] == FreshRecord(blocks[i])
  {
    seq(|blocks|, i requires 0 <= i < |blocks| => FreshRecord(blocks[i]))
  }

  lemma PlanRunKeeps(blocks: seq<Block>, steps: seq<Step>)
    ensures |Run(Fresh(blocks), steps)| == |blocks|
    ensures forall i :: 0 <= i < |blocks| ==>
              Run(Fresh(blocks), steps)[i].block == blocks[i] && Consistent(Run(Fresh(blocks), steps)[i])
  {
    hide Run;
    RunSize(Fresh(blocks), steps);
    forall i | 0 <= i < |blocks|
      ensures Run(Fresh(blocks), steps)[i].block == blocks[i] && Consistent(Run(Fresh(blocks), steps)[i])
    {
      RunKeeps(Fresh(blocks), steps, i);
    }
  }

  lemma {:induction false} RunSize(rs: seq<Record>, steps: seq<Step>)
    ensures |Run(rs, steps)| == |rs|
  {
    hide Next;
    if steps != [] {
      RunSize(rs, steps[..|steps| - 1]);
      var before := Run(rs, steps[..|steps| - 1]);
      if rs == [] {
        NothingAdvances(steps[|steps| - 1]);
      } else {
        NextMoves(before, steps[|steps| - 1], 0);
      }
    }
  }

  lemma NothingAdvances(step: Step)
    ensures Next([], step) == []
  {
  }

  // ---------- start times ----------

  lemma RunOne(rs: seq<Record>, step: Step)
    ensures Run(rs, [step]) == Next(rs, step)
  {
    assert [step][..0] == [];
    assert Run(rs, []) == rs;
  }

  /**
    A set start time is kept by every continuation if and only if it is not zero: zero reads as
    "not started", so the next report overwrites it.
   */
  lemma StartFixedIff(rs: seq<Record>, i: nat)
    requires i < |rs| && rs[i].startedAt.Some?
    ensures (forall steps :: KeepsStart(rs, steps, i)) <==> rs[i].startedAt != Some(0.0)
  {
    if rs[i].startedAt != Some(0.0) {
      forall steps ensures KeepsStart(rs, steps, i) {
        RunKeeps(rs, steps, i);
      }
    } else {
      var step := StatusReported("complete", 0, None, 1.0);
      RunOne(rs, step);
      assert StatusOf("complete") == Some(Complete);
      assert !KeepsStart(rs, [step], i);
    }
  }

  ghost predicate KeepsStart(rs: seq<Record>, steps: seq<Step>, i: nat)
    requires i < |rs|
  {
    i < |Run(rs, steps)| && Run(rs, steps)[i].startedAt == rs[i].startedAt
  }

  predicate ClockRuns(steps: seq<Step>) {
    forall j :: 0 <= j < |steps| ==> steps[j].TicketIssued? || Clock(steps[j]) > 0.0
  }

  predicate NotAtZero(r: Record) { r.startedAt != Some(0.0) }

  lemma NextNotAtZero(rs: seq<Record>, step: Step, i: nat)
    requires i < |rs| && NotAtZero(rs[i]) && (step.TicketIssued? || Clock(step) > 0.0)
    ensures |Next(rs, step)| == |rs| && NotAtZero(Next(rs, step)[i])
  {
    NextMoves(rs, step, i);
    if step.TicketIssued? {
      assert Next(rs, step)[i].startedAt == rs[i].startedAt;
    } else {
      hide Next;
      MovedKeeps(rs[i], Next(rs, step)[i], Clock(step));
    }
  }

  lemma {:induction false} ClockKeepsNotAtZero(rs: seq<Record>, steps: seq<Step>, i: nat)
    requires i < |rs| && NotAtZero(rs[i]) && ClockRuns(steps)
    ensures |Run(rs, steps)| == |rs| && NotAtZero(Run(rs, steps)[i])
  {
    hide Next, NotAtZero;
    if steps != [] {
      var (init, last) := (steps[..|steps| - 1], steps[|steps| - 1]);
      ClockKeepsNotAtZero(rs, init, i);
      NextNotAtZero(Run(rs, init), last, i);
    }
  }

  /** With a positive clock, from a fresh plan on, a start time once set never changes. */
  lemma StartTimeNeverChanges(blocks: seq<Block>, before: seq<Step>, after: seq<Step>, i: nat)
    requires i < |blocks| && ClockRuns(before)
    requires |Run(Fresh(blocks), before)| == |blocks| && Run(Fresh(blocks), before)[i].startedAt.Some?
    ensures KeepsStart(Run(Fresh(blocks), before), after, i)
  {
    hide Run;
    ClockKeepsNotAtZero(Fresh(blocks), before, i);
    RunKeeps(Run(Fresh(blocks), before), after, i);
  }

  // ---------- running reports ----------

  predicate SaysRunning(step: Step) {
    match step
    case TicketIssued(_, _) => true
    case StatusReported(text, _, _, _) => text == "running"
    case WorkerProgressed(progress, _, _) =>
      (progress.state == None || progress.state == Some("running"))
      && forall j :: 0 <= j < |progress.items| ==> progress.items[j].state == Some("running")
  }

  lemma {:induction false} ByBlockStates(items: seq<Item>, id: string)
    requires forall j :: 0 <= j < |items| ==> items[j].state == Some("running")
    ensures id in ByBlock(items) ==> ByBlock(items)[id] == Some("running")
  {
    if items != [] {
      ByBlockStates(items[..|items| - 1], id);
    }
  }

  lemma SaysRunningLeavesTerminal(rs: seq<Record>, step: Step, i: nat)
    requires i < |rs| && SaysRunning(step) && Terminal(rs[i].state)
    ensures |Next(rs, step)| == |rs|
    ensures Next(rs, step)[i].(ticketId := rs[i].ticketId, issuedAt := rs[i].issuedAt) == rs[i]
  {
    hide ByBlock;
    match step {
      case TicketIssued(_, _) =>
      case StatusReported(text, _, _, _) =>
        assert StatusOf("running") == Some(RunningStatus);
      case WorkerProgressed(progress, _, _) =>
        ByBlockStates(progress.items, rs[i].block.blockId);
        assert StatusOf("running") == Some(RunningStatus);
    }
  }

  /** Running reports, however many, never reopen a terminal block nor touch its times or error. */
  lemma {:induction false} RunningNeverReopens(rs: seq<Record>, steps: seq<Step>, i: nat)
    requires i < |rs| && Terminal(rs[i].state)
    requires forall j :: 0 <= j < |steps| ==> SaysRunning(steps[j])
    ensures |Run(rs, steps)| == |rs|
    ensures Run(rs, steps)[i].(ticketId := rs[i].ticketId, issuedAt := rs[i].issuedAt) == rs[i]
  {
    hide Next, SaysRunning;
    if steps != [] {
      RunningNeverReopens(rs, steps[..|steps| - 1], i);
      SaysRunningLeavesTerminal(Run(rs, steps[..|steps| - 1]), steps[|steps| - 1], i);
    }
  }

  // ---------- partial-failure accounting ----------

  function RecordBytes(rs: seq<Record>): int {
    if rs == [] then 0 else RecordBytes(rs[..|rs| - 1]) + rs[|rs| - 1].block.bytes
  }

  function CompletedBytes(rs: seq<Record>): int {
    if rs == [] then 0
    else CompletedBytes(rs[..|rs| - 1]) + if rs[|rs| - 1].state == Completed then rs[|rs| - 1].block.bytes else 0
  }

  lemma {:induction false} PartlyEndedBytes(rs: seq<Record>, s: BlockState, n: int, error: Option<string>, now: real)
    requires s != Completed && n >= 0
    ensures CompletedBytes(PartlyEnded(rs, s, n, error, now)) == n - Leftover(rs, n)
    ensures Leftover(rs, n) >= 0
  {
    if rs != [] {
      var (init, last) := (rs[..|rs| - 1], PartlyEnded(rs, s, n, error, now));
      PartlyEndedBytes(init, s, n, error, now);
      assert last[..|last| - 1] == PartlyEnded(init, s, n, error, now);
    }
  }

  predicate NonNegative(rs: seq<Record>) {
    forall i :: 0 <= i < |rs| ==> rs[i].block.bytes >= 0
  }

  lemma {:induction false} LeftoverShrinks(rs: seq<Record>, n: int, i: nat)
    requires NonNegative(rs) && i <= |rs|
    ensures Leftover(rs, n) <= Leftover(rs[..i], n)
  {
    if i < |rs| {
      LeftoverShrinks(rs[..|rs| - 1], n, i);
      assert rs[..|rs| - 1][..i] == rs[..i];
    } else {
      assert rs[..i] == rs;
    }
  }

  lemma {:induction false} LeftoverWhenAllFit(rs: seq<Record>, n: int)
    requires NonNegative(rs) && n >= RecordBytes(rs)
    ensures Leftover(rs, n) == n - RecordBytes(rs)
  {
    if rs != [] {
      LeftoverWhenAllFit(rs[..|rs| - 1], n);
    }
  }

  lemma {:induction false} PrefixBytes(rs: seq<Record>, i: nat)
    requires NonNegative(rs) && i < |rs|
    ensures RecordBytes(rs[..i]) + rs[i].block.bytes <= RecordBytes(rs)
  {
    var k := |rs| - 1;
    if i < k {
      PrefixBytes(rs[..k], i);
      assert rs[..k][..i] == rs[..i];
    }
  }

  lemma {:induction false} AllCompletedBytes(rs: seq<Record>)
    requires forall i :: 0 <= i < |rs| ==> rs[i].state == Completed
    ensures CompletedBytes(rs) == RecordBytes(rs)
  {
    if rs != [] {
      AllCompletedBytes(rs[..|rs| - 1]);
    }
  }

  lemma {:induction false} SameBlocksSameBytes(a: seq<Record>, b: seq<Record>)
    requires |a| == |b| && forall i :: 0 <= i < |a| ==> a[i].block == b[i].block
    ensures RecordBytes(a) == RecordBytes(b)
  {
    if a != [] {
      SameBlocksSameBytes(a[..|a| - 1], b[..|b| - 1]);
    }
  }

  predicate AllAre(rs: seq<Record>, s: BlockState) {
    forall i :: 0 <= i < |rs| ==> rs[i].state == s
  }

  function Ended(rs: seq<Record>, s: BlockState, n: int, error: Option<string>, now: real): seq<Record> {
    PartlyEnded(rs, s, Max(0, n), error, now)
  }

  /**
    A failed or canceled report of n bytes credits at most n bytes (at most none, when n is
    negative), leaves no uncompleted block that the uncredited rest would cover, and gives every
    other block the reported state.
   */
  lemma PartialAccounting(rs: seq<Record>, s: BlockState, n: int, error: Option<string>, now: real)
    requires s == Failed || s == Canceled
    ensures |Ended(rs, s, n, error, now)| == |rs|
    ensures 0 <= Max(0, n) - CompletedBytes(Ended(rs, s, n, error, now))
    ensures forall i :: 0 <= i < |rs| ==> Ended(rs, s, n, error, now)[i].state in {Completed, s}
    ensures NonNegative(rs) ==> forall i :: 0 <= i < |rs| && Ended(rs, s, n, error, now)[i].state == s ==>
              rs[i].block.bytes > Max(0, n) - CompletedBytes(Ended(rs, s, n, error, now))
  {
    hide PartlyEnded, CompletedBytes, Leftover;
    PartlyEndedBytes(rs, s, Max(0, n), error, now);
    PartlyEndedSize(rs, s, Max(0, n), error, now);
    var ended := Ended(rs, s, n, error, now);
    forall i | 0 <= i < |rs| ensures ended[i].state in {Completed, s} {
      PartlyEndedAt(rs, s, Max(0, n), error, now, i);
    }
    if NonNegative(rs) {
      forall i | 0 <= i < |rs| && ended[i].state == s ensures rs[i].block.bytes > Max(0, n) - CompletedBytes(ended) {
        PartlyEndedAt(rs, s, Max(0, n), error, now, i);
        LeftoverShrinks(rs, Max(0, n), i);
      }
    }
  }

  /** Every block completes exactly when the reported bytes cover the whole transfer. */
  lemma AllCompleteIff(rs: seq<Record>, s: BlockState, n: int, error: Option<string>, now: real)
    requires (s == Failed || s == Canceled) && NonNegative(rs)
    ensures AllAre(Ended(rs, s, n, error, now), Completed) <==> Max(0, n) >= RecordBytes(rs)
  {
    hide PartlyEnded, CompletedBytes, Leftover, RecordBytes;
    var ended := Ended(rs, s, n, error, now);
    PartlyEndedBytes(rs, s, Max(0, n), error, now);
    PartlyEndedSize(rs, s, Max(0, n), error, now);
    forall i | 0 <= i < |rs| ensures ended[i].block == rs[i].block {
      PartlyEndedAt(rs, s, Max(0, n), error, now, i);
    }
    if AllAre(ended, Completed) {
      AllCompletedBytes(ended);
      SameBlocksSameBytes(ended, rs);
    }
    if Max(0, n) >= RecordBytes(rs) {
      forall i | 0 <= i < |ended| ensures ended[i].state == Completed {
        PartlyEndedAt(rs, s, Max(0, n), error, now, i);
        PrefixBytes(rs, i);
        FitsAtItsTurn(rs, Max(0, n), i);
      }
    }
  }

  lemma FitsAtItsTurn(rs: seq<Record>, n: int, i: nat)
    requires NonNegative(rs) && i < |rs| && n >= RecordBytes(rs[..i]) + rs[i].block.bytes
    ensures Leftover(rs[..i], n) >= rs[i].block.bytes
  {
    LeftoverWhenAllFit(rs[..i], n);
  }

  /** Completed blocks are not safe from a later failure report: they survive it exactly when it covers them all. */
  lemma CompletionSurvivesFailureIff(rs: seq<Record>, n: int, error: Option<string>, completedAt: real, failedAt: real)
    requires NonNegative(rs)
    ensures AllAre(ForStatus(ForStatus(rs, Complete, 0, None, completedAt), FailedStatus, n, error, failedAt),
                   Completed)
       <==> Max(0, n) >= RecordBytes(rs)
  {
    var completed := ForStatus(rs, Complete, 0, None, completedAt);
    SameBlocksSameBytes(completed, rs);
    AllCompleteIff(completed, Failed, n, error, failedAt);
  }

  // ---------- summary ----------

  datatype Summary = Summary(
    blockCount: nat, states: map<BlockState, int>, bytesByState: map<BlockState, int>,
    bytesByPathKind: map<string, int>, leaseIds: seq<string>, ticketIds: seq<string>)

  function States(rs: seq<Record>): (labels: seq<BlockState>)
    ensures |labels| == |rs| && forall i :: 0 <= i < |rs| ==> labels[i] == rs[i].state
  {
    seq(|rs|, i requires 0 <= i < |rs| => rs[i].state)
  }

  function PathKinds(rs: seq<Record>): (labels: seq<string>)
    ensures |labels| == |rs| && forall i :: 0 <= i < |rs| ==> labels[i] == rs[i].block.pathKind
  {
    seq(|rs|, i requires 0 <= i < |rs| => rs[i].block.pathKind)
  }

  function Sizes(rs: seq<Record>): (sizes: seq<int>)
    ensures |sizes| == |rs| && forall i :: 0 <= i < |rs| ==> sizes[i] == rs[i].block.bytes
  {
    seq(|rs|, i requires 0 <= i < |rs| => rs[i].block.bytes)
  }

  function Ones(n: nat): (ones: seq<int>)
    ensures |ones| == n && forall i :: 0 <= i < n ==> ones[i] == 1
  {
    seq(n, _ => 1)
  }

  /** What label k has of the sizes. */
  function Share<K(==)>(labels: seq<K>, sizes: seq<int>, k: K): int
    requires |labels| == |sizes|
  {
    if labels == [] then 0
    else
      var m := |labels| - 1;
      Share(labels[..m], sizes[..m], k) + if labels[m] == k then sizes[m] else 0
  }

  ghost predicate Shares<K(!new)>(labels: seq<K>, sizes: seq<int>, m: map<K, int>)
    requires |labels| == |sizes|
  {
    forall k :: (k in m <==> k in labels) && (k in m ==> m[k] == Share(labels, sizes, k))
  }

  function Credited<K>(m: map<K, int>, k: K, n: int): map<K, int> { m[k := (if k in m then m[k] else 0) + n] }

  lemma {:induction false} AbsentShare<K>(labels: seq<K>, sizes: seq<int>, k: K)
    requires |labels| == |sizes| && k !in labels
    ensures Share(labels, sizes, k) == 0
  {
    if labels != [] {
      AbsentShare(labels[..|labels| - 1], sizes[..|labels| - 1], k);
    }
  }

  lemma SharesStep<K(!new)>(labels: seq<K>, sizes: seq<int>, i: nat, m: map<K, int>)
    requires |labels| == |sizes| && i < |labels| && Shares(labels[..i], sizes[..i], m)
    ensures Shares(labels[..i + 1], sizes[..i + 1], Credited(m, labels[i], sizes[i]))
  {
    assert labels[..i + 1][..i] == labels[..i] && sizes[..i + 1][..i] == sizes[..i];
    assert labels[..i + 1] == labels[..i] + [labels[i]];
    if labels[i] !in m {
      AbsentShare(labels[..i], sizes[..i], labels[i]);
    }
  }

  method RuntimeSummary(rs: seq<Record>) returns (summary: Summary)
    ensures summary.blockCount == |rs|
    ensures Shares(States(rs), Ones(|rs|), summary.states)
    ensures Shares(States(rs), Sizes(rs), summary.bytesByState)
    ensures Shares(PathKinds(rs), Sizes(rs), summary.bytesByPathKind)
    ensures InOrder(summary.leaseIds) && InOrder(summary.ticketIds)
    ensures forall id :: id in summary.leaseIds <==> exists i :: 0 <= i < |rs| && id in rs[i].block.leaseIds
    ensures forall id :: id in summary.ticketIds <==> exists i :: 0 <= i < |rs| && rs[i].ticketId == Some(id)
  {
    hide Shares, Credited;
    var states: map<BlockState, int> := map[];
    var bytesByState: map<BlockState, int> := map[];
    var bytesByPathKind: map<string, int> := map[];
    var leaseIds: set<string> := {};
    var ticketIds: set<string> := {};
    ghost var (labels, kinds, sizes, ones) := (States(rs), PathKinds(rs), Sizes(rs), Ones(|rs|));
    NoShares(labels, ones);
    NoShares(labels, sizes);
    NoShares(kinds, sizes);
    for i := 0 to |rs|
      invariant Shares(labels[..i], ones[..i], states)
      invariant Shares(labels[..i], sizes[..i], bytesByState)
      invariant Shares(kinds[..i], sizes[..i], bytesByPathKind)
      invariant forall id :: id in leaseIds <==> exists j :: 0 <= j < i && id in rs[j].block.leaseIds
      invariant forall id :: id in ticketIds <==> exists j :: 0 <= j < i && rs[j].ticketId == Some(id)
    {
      SharesStep(labels, ones, i, states);
      SharesStep(labels, sizes, i, bytesByState);
      SharesStep(kinds, sizes, i, bytesByPathKind);
      states := Credited(states, rs[i].state, 1);
      bytesByState := Credited(bytesByState, rs[i].state, rs[i].block.bytes);
      bytesByPathKind := Credited(bytesByPathKind, rs[i].block.pathKind, rs[i].block.bytes);
      leaseIds := leaseIds + (set id | id in rs[i].block.leaseIds);
      if rs[i].ticketId.Some? {
        ticketIds := ticketIds + {rs[i].ticketId.value};
      }
    }
    assert labels[..|rs|] == labels && kinds[..|rs|] == kinds && sizes[..|rs|] == sizes && ones[..|rs|] == ones;
    var leases := SortedTexts(leaseIds);
    var tickets := SortedTexts(ticketIds);
    summary := Summary(|rs|, states, bytesByState, bytesByPathKind, leases, tickets);
  }

  lemma NoShares<K(!new)>(labels: seq<K>, sizes: seq<int>)
    requires |labels| == |sizes|
    ensures Shares(labels[..0], sizes[..0], map[])
  {
  }

  // ---------- the summary conserves bytes ----------

  function Sum(ns: seq<int>): int {
    if ns == [] then 0 else Sum(ns[..|ns| - 1]) + ns[|ns| - 1]
  }

  function SumOver<K>(m: map<K, int>, keys: seq<K>): int
    requires forall k :: k in keys ==> k in m
  {
    if keys == [] then 0 else SumOver(m, keys[..|keys| - 1]) + m[keys[|keys| - 1]]
  }

  function ShareOfKeys<K(==)>(labels: seq<K>, sizes: seq<int>, keys: seq<K>): int
    requires |labels| == |sizes|
  {
    if keys == [] then 0
    else ShareOfKeys(labels, sizes, keys[..|keys| - 1]) + Share(labels, sizes, keys[|keys| - 1])
  }

  lemma {:induction false} ShareOfKeysStep<K>(labels: seq<K>, sizes: seq<int>, keys: seq<K>)
    requires |labels| == |sizes| > 0 && Distinct(keys)
    ensures ShareOfKeys(labels, sizes, keys) == ShareOfKeys(labels[..|labels| - 1], sizes[..|labels| - 1], keys)
              + if labels[|labels| - 1] in keys then sizes[|labels| - 1] else 0
  {
    if keys != [] {
      ShareOfKeysStep(labels, sizes, keys[..|keys| - 1]);
      assert keys == keys[..|keys| - 1] + [keys[|keys| - 1]];
    }
  }

  lemma {:induction false} ShareOfAllKeys<K>(labels: seq<K>, sizes: seq<int>, keys: seq<K>)
    requires |labels| == |sizes| && Distinct(keys) && forall k :: k in labels ==> k in keys
    ensures ShareOfKeys(labels, sizes, keys) == Sum(sizes)
  {
    if labels == [] {
      ShareOfNothing<K>(keys);
    } else {
      var m := |labels| - 1;
      assert labels[m] in labels;
      ShareOfKeysStep(labels, sizes, keys);
      ShareOfAllKeys(labels[..m], sizes[..m], keys);
    }
  }

  lemma {:induction false} ShareOfNothing<K>(keys: seq<K>)
    ensures ShareOfKeys([], [], keys) == 0
  {
    if keys != [] {
      ShareOfNothing(keys[..|keys| - 1]);
    }
  }

  lemma {:induction false} SumOverIsShare<K(!new)>(labels: seq<K>, sizes: seq<int>, m: map<K, int>, keys: seq<K>)
    requires |labels| == |sizes| && Shares(labels, sizes, m) && forall k :: k in keys ==> k in m
    ensures SumOver(m, keys) == ShareOfKeys(labels, sizes, keys)
  {
    if keys != [] {
      SumOverIsShare(labels, sizes, m, keys[..|keys| - 1]);
      assert keys[|keys| - 1] in m;
    }
  }

  /** The keys of a map, each once, in some order. */
  ghost predicate ListsKeys<K(!new)>(keys: seq<K>, m: map<K, int>) {
    Distinct(keys) && forall k :: k in keys <==> k in m
  }

  /** However the keys are listed, the per-key totals add up to the whole: none lost, none counted twice. */
  lemma SharesConserve<K(!new)>(labels: seq<K>, sizes: seq<int>, m: map<K, int>, keys: seq<K>)
    requires |labels| == |sizes| && Shares(labels, sizes, m) && ListsKeys(keys, m)
    ensures SumOver(m, keys) == Sum(sizes)
  {
    SumOverIsShare(labels, sizes, m, keys);
    ShareOfAllKeys(labels, sizes, keys);
  }

  lemma {:induction false} SumOfSizes(rs: seq<Record>)
    ensures Sum(Sizes(rs)) == RecordBytes(rs)
  {
    if rs != [] {
      SumOfSizes(rs[..|rs| - 1]);
      assert Sizes(rs)[..|rs| - 1] == Sizes(rs[..|rs| - 1]);
    }
  }

  lemma BlocksFixBytes(a: seq<Record>, blocks: seq<Block>)
    requires |a| == |blocks| && forall i :: 0 <= i < |a| ==> a[i].block == blocks[i]
    ensures RecordBytes(a) == RecordBytes(Fresh(blocks))
  {
    SameBlocksSameBytes(a, Fresh(blocks));
  }

  /** In every state a run can reach, both byte tables add up to the bytes of the plan's blocks. */
  lemma SummaryConservesBytes(blocks: seq<Block>, steps: seq<Step>, byState: map<BlockState, int>,
                              states: seq<BlockState>, byKind: map<string, int>, kinds: seq<string>)
    requires ListsKeys(states, byState) && ListsKeys(kinds, byKind)
    requires var rs := Run(Fresh(blocks), steps);
             Shares(States(rs), Sizes(rs), byState) && Shares(PathKinds(rs), Sizes(rs), byKind)
    ensures SumOver(byState, states) == SumOver(byKind, kinds) == RecordBytes(Fresh(blocks))
  {
    hide Run, Shares, ListsKeys;
    var rs := Run(Fresh(blocks), steps);
    SharesConserve(States(rs), Sizes(rs), byState, states);
    SharesConserve(PathKinds(rs), Sizes(rs), byKind, kinds);
    SumOfSizes(rs);
    PlanRunKeeps(blocks, steps);
    BlocksFixBytes(rs, blocks);
  }
}
