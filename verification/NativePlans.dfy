/**
  Downstream of the planner: the plan as a payload, its translation to a native plan and
  back, and the checks of the direct backend. Kind and direction texts are taken after
  lower-casing; payload fields that may be missing are Options.
 */
module NativePlans {
  import opened Common
  import opened Transfers
  import opened Chunking
  import opened Planner
  import opened Scheduling
  import opened TicketCoverage

  datatype PathPayload = PathPayload(
    kind: string, direction: string, targetDevice: Option<int>, relayDevice: Option<int>,
    h2d: real, d2h: real, p2p: real, effective: real, enabled: Option<bool>)

  datatype AssignmentPayload = AssignmentPayload(
    path: PathPayload, chunks: seq<Chunk>, bytes: Option<int>, chunkCount: Option<int>)

  datatype PlanPayload = PlanPayload(
    totalBytes: Option<int>, chunkBytes: Option<int>, assignments: seq<AssignmentPayload>)

  function GetOr<T>(o: Option<T>, default: T): T { if o.Some? then o.value else default }

  // ---------- native plans ----------

  datatype NativeKind = DirectH2D | RelayH2DThenP2P | DirectD2H | RelayP2PThenD2H

  datatype NativePath = NativePath(
    kind: NativeKind, direction: Direction, targetDevice: int, relayDevice: int,
    h2d: real, d2h: real, p2p: real, effective: real)

  datatype NativeAssignment = NativeAssignment(path: NativePath, chunks: seq<Chunk>)

  datatype NativePlan = NativePlan(totalBytes: int, chunkBytes: int, assignments: seq<NativeAssignment>)

  datatype TranslationError =
    | NegativeTotal | NonPositiveChunkBytes | DisabledPath | UnknownDirection | MixedDirections
    | DirectWithRelay | RelayWithoutDevice | UnknownKind | BadChunk
    | WrongBytes | WrongChunkCount | NoAssignments | TotalMismatch

  predicate KnownDirection(direction: string) { direction == "h2d" || direction == "d2h" }

  function PathError(path: PathPayload, planDirection: Option<string>): Option<TranslationError> {
    var relay := GetOr(path.relayDevice, -1);
    if !GetOr(path.enabled, true) then Some(DisabledPath)
    else if !KnownDirection(path.direction) then Some(UnknownDirection)
    else if planDirection.Some? && path.direction != planDirection.value then Some(MixedDirections)
    else if path.kind == "direct" then if relay >= 0 then Some(DirectWithRelay) else None
    else if path.kind == "relay" then if relay < 0 then Some(RelayWithoutDevice) else None
    else Some(UnknownKind)
  }

  function NativeKindOf(kind: string, direction: string): NativeKind
    requires (kind == "direct" || kind == "relay") && KnownDirection(direction)
  {
    if direction == "h2d" then if kind == "direct" then DirectH2D else RelayH2DThenP2P
    else if kind == "direct" then DirectD2H else RelayP2PThenD2H
  }

  function NativePathOf(path: PathPayload): NativePath
    requires (path.kind == "direct" || path.kind == "relay") && KnownDirection(path.direction)
  {
    NativePath(NativeKindOf(path.kind, path.direction), if path.direction == "h2d" then H2d else D2h,
               GetOr(path.targetDevice, 0), GetOr(path.relayDevice, -1),
               path.h2d, path.d2h, path.p2p, path.effective)
  }

  predicate GoodChunk(c: Chunk) { c.src >= 0 && c.dst >= 0 && c.bytes > 0 }

  function Bare(c: Chunk): Chunk { Chunk(c.src, c.dst, c.bytes, None) }

  function BareAll(cs: seq<Chunk>): (bare: seq<Chunk>)
    ensures |bare| == |cs| && forall i :: 0 <= i < |cs| ==> bare[i] == Bare(cs[i])
  {
    seq(|cs|, i requires 0 <= i < |cs| => Bare(cs[i]))
  }

  datatype Progress = Progress(direction: Option<string>, assignments: seq<NativeAssignment>, total: int)

  const START := Progress(None, [], 0)

  /** One assignment payload, translated onto what came before it. */
  function Advance(st: Progress, a: AssignmentPayload): Result<Progress, TranslationError> {
    var bad := PathError(a.path, st.direction);
    if bad.Some? then Err(bad.value)
    else if exists c :: c in a.chunks && !GoodChunk(c) then Err(BadChunk)
    else if a.chunks == [] then Ok(st.(direction := Some(a.path.direction)))
    else if a.bytes.Some? && a.bytes.value != TotalBytes(a.chunks) then Err(WrongBytes)
    else if a.chunkCount.Some? && a.chunkCount.value != |a.chunks| then Err(WrongChunkCount)
    else
      Ok(Progress(Some(a.path.direction),
                  st.assignments + [NativeAssignment(NativePathOf(a.path), BareAll(a.chunks))],
                  st.total + TotalBytes(a.chunks)))
  }

  function TranslateAll(assignments: seq<AssignmentPayload>): Result<Progress, TranslationError> {
    if assignments == [] then Ok(START)
    else
      var before := TranslateAll(assignments[..|assignments| - 1]);
      if before.Err? then before else Advance(before.value, assignments[|assignments| - 1])
  }

  function Translate(p: PlanPayload): Result<NativePlan, TranslationError> {
    var (total, size) := (GetOr(p.totalBytes, 0), GetOr(p.chunkBytes, DEFAULT_CHUNK_BYTES));
    if total < 0 then Err(NegativeTotal)
    else if size <= 0 then Err(NonPositiveChunkBytes)
    else
      var r := TranslateAll(p.assignments);
      if r.Err? then Err(r.error)
      else if total > 0 && r.value.assignments == [] then Err(NoAssignments)
      else if r.value.assignments != [] && r.value.total != total then Err(TotalMismatch)
      else Ok(NativePlan(total, size, r.value.assignments))
  }

  lemma {:induction false} ErrorsStick(assignments: seq<AssignmentPayload>, n: nat)
    requires n <= |assignments| && TranslateAll(assignments[..n]).Err?
    ensures TranslateAll(assignments) == TranslateAll(assignments[..n])
  {
    if n == |assignments| {
      assert assignments[..n] == assignments;
    } else {
      var init := assignments[..|assignments| - 1];
      assert init[..n] == assignments[..n];
      ErrorsStick(init, n);
    }
  }

  /** The loops of native_transfer_plan, with its errors in its order. */
  method NativeTransferPlan(p: PlanPayload) returns (r: Result<NativePlan, TranslationError>)
    ensures r == Translate(p)
  {
    var total := GetOr(p.totalBytes, 0);
    var size := GetOr(p.chunkBytes, DEFAULT_CHUNK_BYTES);
    if total < 0 {
      return Err(NegativeTotal);
    }
    if size <= 0 {
      return Err(NonPositiveChunkBytes);
    }
    var st := START;
    for i := 0 to |p.assignments|
      invariant TranslateAll(p.assignments[..i]) == Ok(st)
    {
      assert p.assignments[..i + 1][..i] == p.assignments[..i];
      var next := TranslateAssignment(st, p.assignments[i]);
      if next.Err? {
        ErrorsStick(p.assignments, i + 1);
        return Err(next.error);
      }
      st := next.value;
    }
    assert p.assignments[..|p.assignments|] == p.assignments;
    if total > 0 && st.assignments == [] {
      return Err(NoAssignments);
    }
    if st.assignments != [] && st.total != total {
      return Err(TotalMismatch);
    }
    return Ok(NativePlan(total, size, st.assignments));
  }

  method TranslateAssignment(st: Progress, a: AssignmentPayload) returns (r: Result<Progress, TranslationError>)
    ensures r == Advance(st, a)
  {
    var bad := PathError(a.path, st.direction);
    if bad.Some? {
      return Err(bad.value);
    }
    var chunks, bytes := [], 0;
    for k := 0 to |a.chunks|
      invariant forall c :: c in a.chunks[..k] ==> GoodChunk(c)
      invariant chunks == BareAll(a.chunks[..k]) && bytes == TotalBytes(a.chunks[..k])
    {
      var c := a.chunks[k];
      assert a.chunks[..k + 1] == a.chunks[..k] + [c];
      assert a.chunks[..k + 1][..k] == a.chunks[..k];
      if !GoodChunk(c) {
        assert c in a.chunks;
        return Err(BadChunk);
      }
      chunks := chunks + [Bare(c)];
      bytes := bytes + c.bytes;
    }
    assert a.chunks[..|a.chunks|] == a.chunks;
    if chunks == [] {
      return Ok(st.(direction := Some(a.path.direction)));
    }
    if a.bytes.Some? && a.bytes.value != bytes {
      return Err(WrongBytes);
    }
    if a.chunkCount.Some? && a.chunkCount.value != |chunks| {
      return Err(WrongChunkCount);
    }
    return Ok(Progress(Some(a.path.direction), st.assignments + [NativeAssignment(NativePathOf(a.path), chunks)],
                       st.total + bytes));
  }

  // ---------- what is accepted ----------

  predicate IsEnabled(path: PathPayload) { path.enabled != Some(false) }

  predicate HasRelay(path: PathPayload) { path.relayDevice.Some? && path.relayDevice.value >= 0 }

  /** A direct path names no relay device, a relay path names one. */
  predicate GoodPath(path: PathPayload) {
    && IsEnabled(path) && path.direction in ["h2d", "d2h"]
    && ((path.kind == "direct" && !HasRelay(path)) || (path.kind == "relay" && HasRelay(path)))
  }

  predicate GoodAssignment(a: AssignmentPayload) {
    && GoodPath(a.path) && (forall c :: c in a.chunks ==> c.src >= 0 && c.dst >= 0 && c.bytes > 0)
    && (a.chunks != [] ==> (a.bytes == None || a.bytes.value == TotalBytes(a.chunks))
                           && (a.chunkCount == None || a.chunkCount.value == |a.chunks|))
  }

  function PayloadChunks(s: seq<AssignmentPayload>): seq<Chunk> {
    if s == [] then [] else PayloadChunks(s[..|s| - 1]) + s[|s| - 1].chunks
  }

  predicate OneDirection(s: seq<AssignmentPayload>) {
    forall i, j :: 0 <= i < |s| && 0 <= j < |s| ==> s[i].path.direction == s[j].path.direction
  }

  predicate Acceptable(p: PlanPayload) {
    && (p.totalBytes == None || p.totalBytes.value >= 0) && (p.chunkBytes == None || p.chunkBytes.value > 0)
    && AllGood(p.assignments) && OneDirection(p.assignments)
    && (if p.totalBytes == None then PayloadChunks(p.assignments) == []
        else p.totalBytes.value == TotalBytes(PayloadChunks(p.assignments)))
  }

  /** Which error one assignment raises, after assignments of `direction` (None before the first). */
  lemma AssignmentErrors(st: Progress, a: AssignmentPayload)
    ensures var r := Advance(st, a);
            var known := a.path.direction in ["h2d", "d2h"];
            var mixed := st.direction.Some? && a.path.direction != st.direction.value;
            var badChunk := exists c :: c in a.chunks && (c.src < 0 || c.dst < 0 || c.bytes <= 0);
            var wrongBytes := a.bytes.Some? && a.bytes.value != TotalBytes(a.chunks);
            var wrongCount := a.chunkCount.Some? && a.chunkCount.value != |a.chunks|;
            && (r == Err(DisabledPath) <==> !IsEnabled(a.path))
            && (r == Err(UnknownDirection) <==> IsEnabled(a.path) && !known)
            && (r == Err(MixedDirections) <==> IsEnabled(a.path) && known && mixed)
            && (r == Err(DirectWithRelay) <==>
                  IsEnabled(a.path) && known && !mixed && a.path.kind == "direct" && HasRelay(a.path))
            && (r == Err(RelayWithoutDevice) <==>
                  IsEnabled(a.path) && known && !mixed && a.path.kind == "relay" && !HasRelay(a.path))
            && (r == Err(UnknownKind) <==>
                  IsEnabled(a.path) && known && !mixed && a.path.kind !in ["direct", "relay"])
            && (r == Err(BadChunk) <==> GoodPath(a.path) && !mixed && badChunk)
            && (r == Err(WrongBytes) <==> GoodPath(a.path) && !mixed && !badChunk && a.chunks != [] && wrongBytes)
            && (r == Err(WrongChunkCount) <==>
                  GoodPath(a.path) && !mixed && !badChunk && a.chunks != [] && !wrongBytes && wrongCount)
            && (r.Ok? <==> GoodAssignment(a) && !mixed)
  {
  }

  /** Going on is possible exactly for good assignments of one direction, and adds up their bytes. */
  lemma {:induction false} AllTranslateIff(s: seq<AssignmentPayload>)
    ensures TranslateAll(s).Ok? <==> AllGood(s) && OneDirection(s)
    ensures TranslateAll(s).Ok? ==>
              && TranslateAll(s).value.total == TotalBytes(PayloadChunks(s))
              && (TranslateAll(s).value.assignments == [] <==> PayloadChunks(s) == [])
              && TranslateAll(s).value.direction == if s == [] then None else Some(s[|s| - 1].path.direction)
  {
    hide Advance, GoodAssignment, AllGood, OneDirection;
    if s == [] {
      NothingBad();
    } else {
      var (init, a) := (s[..|s| - 1], s[|s| - 1]);
      AllTranslateIff(init);
      GoodSnoc(init, a);
      assert s == init + [a];
      if TranslateAll(init).Ok? {
        AssignmentErrors(TranslateAll(init).value, a);
        AdvanceAdds(TranslateAll(init).value, a);
        TotalAppend(PayloadChunks(init), a.chunks);
      }
    }
  }

  predicate AllGood(s: seq<AssignmentPayload>) { forall i :: 0 <= i < |s| ==> GoodAssignment(s[i]) }

  lemma NothingBad()
    ensures AllGood([]) && OneDirection([])
  {
  }

  lemma GoodSnoc(init: seq<AssignmentPayload>, a: AssignmentPayload)
    ensures AllGood(init + [a]) && OneDirection(init + [a]) <==>
              && AllGood(init) && OneDirection(init) && GoodAssignment(a)
              && (init != [] ==> a.path.direction == init[|init| - 1].path.direction)
  {
    hide GoodAssignment;
    var s := init + [a];
    assert forall i :: 0 <= i < |init| ==> s[i] == init[i];
    assert s[|init|] == a;
  }

  lemma AdvanceAdds(st: Progress, a: AssignmentPayload)
    ensures Advance(st, a).Ok? ==>
              && Advance(st, a).value.total == st.total + TotalBytes(a.chunks)
              && (Advance(st, a).value.assignments == [] <==> st.assignments == [] && a.chunks == [])
              && Advance(st, a).value.direction == Some(a.path.direction)
  {
  }

  lemma {:induction false} GoodChunksAddUp(cs: seq<Chunk>)
    requires forall c :: c in cs ==> c.bytes > 0
    ensures TotalBytes(cs) >= 0 && (TotalBytes(cs) == 0 <==> cs == [])
  {
    if cs != [] {
      GoodChunksAddUp(cs[..|cs| - 1]);
      assert cs[|cs| - 1] in cs;
    }
  }

  lemma {:induction false} PayloadChunksGood(s: seq<AssignmentPayload>)
    requires forall i :: 0 <= i < |s| ==> GoodAssignment(s[i])
    ensures forall c :: c in PayloadChunks(s) ==> c.bytes > 0
  {
    if s != [] {
      PayloadChunksGood(s[..|s| - 1]);
      assert GoodAssignment(s[|s| - 1]);
    }
  }

  /** A payload is translated if and only if every part of it is good and the totals agree. */
  lemma TranslatesIff(p: PlanPayload)
    ensures Translate(p).Ok? <==> Acceptable(p)
  {
    hide TranslateAll, GoodAssignment;
    AllTranslateIff(p.assignments);
    if TranslateAll(p.assignments).Ok? {
      PayloadChunksGood(p.assignments);
      GoodChunksAddUp(PayloadChunks(p.assignments));
    }
  }

  /** Which error a payload as a whole raises: its sizes first, then the first bad assignment, then the totals. */
  lemma PlanErrors(p: PlanPayload)
    ensures var r := Translate(p);
            var negative := p.totalBytes.Some? && p.totalBytes.value < 0;
            var noSize := p.chunkBytes.Some? && p.chunkBytes.value <= 0;
            var good := AllGood(p.assignments) && OneDirection(p.assignments);
            var total := if p.totalBytes == None then 0 else p.totalBytes.value;
            var chunks := PayloadChunks(p.assignments);
            && (negative ==> r == Err(NegativeTotal))
            && (!negative && noSize ==> r == Err(NonPositiveChunkBytes))
            && (!negative && !noSize && !good ==> r.Err? && TranslateAll(p.assignments) == Err(r.error))
            && (!negative && !noSize && good && chunks == [] && total > 0 ==> r == Err(NoAssignments))
            && (!negative && !noSize && good && chunks != [] && total != TotalBytes(chunks) ==> r == Err(TotalMismatch))
  {
    hide TranslateAll, GoodAssignment, AllGood, OneDirection;
    AllTranslateIff(p.assignments);
  }

  /** The first assignment that cannot be translated decides the error. */
  lemma FirstErrorIs(s: seq<AssignmentPayload>, k: nat)
    requires k < |s| && TranslateAll(s[..k]).Ok? && Advance(TranslateAll(s[..k]).value, s[k]).Err?
    ensures TranslateAll(s) == Err(Advance(TranslateAll(s[..k]).value, s[k]).error)
  {
    hide Advance;
    assert s[..k + 1][..k] == s[..k];
    ErrorsStick(s, k + 1);
  }

  /** The native assignment of a payload: kind and direction as one, missing fields by their defaults. */
  predicate IsNativeOf(n: NativeAssignment, a: AssignmentPayload) {
    && (a.path.kind == "direct" && a.path.direction == "h2d" ==> n.path.kind == DirectH2D)
    && (a.path.kind == "direct" && a.path.direction == "d2h" ==> n.path.kind == DirectD2H)
    && (a.path.kind == "relay" && a.path.direction == "h2d" ==> n.path.kind == RelayH2DThenP2P)
    && (a.path.kind == "relay" && a.path.direction == "d2h" ==> n.path.kind == RelayP2PThenD2H)
    && (a.path.direction == "h2d" ==> n.path.direction == H2d)
    && (a.path.direction == "d2h" ==> n.path.direction == D2h)
    && n.path.targetDevice == (if a.path.targetDevice == None then 0 else a.path.targetDevice.value)
    && n.path.relayDevice == (if a.path.relayDevice == None then -1 else a.path.relayDevice.value)
    && n.path.h2d == a.path.h2d && n.path.d2h == a.path.d2h && n.path.p2p == a.path.p2p
    && n.path.effective == a.path.effective
    && |n.chunks| == |a.chunks|
    && forall i :: 0 <= i < |a.chunks| ==>
         && n.chunks[i].src == a.chunks[i].src && n.chunks[i].dst == a.chunks[i].dst
         && n.chunks[i].bytes == a.chunks[i].bytes
  }

  /** The assignments with chunks, in order. */
  function WithChunks(s: seq<AssignmentPayload>): seq<AssignmentPayload> {
    if s == [] then [] else WithChunks(s[..|s| - 1]) + if s[|s| - 1].chunks == [] then [] else [s[|s| - 1]]
  }

  lemma {:induction false} TranslatedAre(s: seq<AssignmentPayload>)
    requires TranslateAll(s).Ok?
    ensures var (native, kept) := (TranslateAll(s).value.assignments, WithChunks(s));
            |native| == |kept| && forall i :: 0 <= i < |native| ==> IsNativeOf(native[i], kept[i])
  {
    hide Advance, IsNativeOf;
    if s != [] {
      TranslatedAre(s[..|s| - 1]);
      AdvancedIs(TranslateAll(s[..|s| - 1]).value, s[|s| - 1]);
    }
  }

  lemma AdvancedIs(st: Progress, a: AssignmentPayload)
    requires Advance(st, a).Ok?
    ensures var after := Advance(st, a).value.assignments;
            if a.chunks == [] then after == st.assignments
            else |after| == |st.assignments| + 1 && st.assignments <= after && IsNativeOf(after[|st.assignments|], a)
  {
  }

  /** A translated plan has the payload's totals and, in order, its assignments that carry chunks. */
  lemma TranslatedPlanIs(p: PlanPayload)
    requires Translate(p).Ok?
    ensures var (native, kept) := (Translate(p).value, WithChunks(p.assignments));
            && native.totalBytes == (if p.totalBytes == None then 0 else p.totalBytes.value)
            && native.chunkBytes == (if p.chunkBytes == None then 16777216 else p.chunkBytes.value)
            && |native.assignments| == |kept|
            && forall i :: 0 <= i < |kept| ==> IsNativeOf(native.assignments[i], kept[i])
  {
    hide IsNativeOf, WithChunks;
    TranslatedAre(p.assignments);
  }

  // ---------- reading a native plan back ----------

  function KindText(kind: NativeKind): string {
    if kind == DirectH2D || kind == DirectD2H then "direct" else "relay"
  }

  function DirectionText(direction: Direction): string { if direction == H2d then "h2d" else "d2h" }

  function ReadPath(path: NativePath): PathPayload {
    PathPayload(KindText(path.kind), DirectionText(path.direction), Some(path.targetDevice), Some(path.relayDevice),
                path.h2d, path.d2h, path.p2p, path.effective, Some(true))
  }

  function ReadAssignment(a: NativeAssignment): AssignmentPayload {
    AssignmentPayload(ReadPath(a.path), a.chunks, Some(TotalBytes(a.chunks)), Some(|a.chunks|))
  }

  function ReadAssignments(s: seq<NativeAssignment>): (r: seq<AssignmentPayload>)
    ensures |r| == |s| && forall i :: 0 <= i < |s| ==> r[i] == ReadAssignment(s[i])
  {
    seq(|s|, i requires 0 <= i < |s| => ReadAssignment(s[i]))
  }

  function ReadBack(n: NativePlan): PlanPayload {
    PlanPayload(Some(n.totalBytes), Some(n.chunkBytes), ReadAssignments(n.assignments))
  }

  /** What every translated assignment satisfies. */
  predicate Sound(a: NativeAssignment, direction: Direction) {
    && a.chunks != []
    && (forall c :: c in a.chunks ==> GoodChunk(c) && c.relay == None)
    && a.path.direction == direction
    && (direction == H2d <==> a.path.kind == DirectH2D || a.path.kind == RelayH2DThenP2P)
    && (a.path.relayDevice < 0 <==> a.path.kind == DirectH2D || a.path.kind == DirectD2H)
  }

  predicate AllSound(s: seq<NativeAssignment>, direction: Direction) {
    forall i :: 0 <= i < |s| ==> Sound(s[i], direction)
  }

  function BytesOf(s: seq<NativeAssignment>): int {
    if s == [] then 0 else BytesOf(s[..|s| - 1]) + TotalBytes(s[|s| - 1].chunks)
  }

  lemma {:induction false} BareSameTotal(cs: seq<Chunk>)
    ensures TotalBytes(BareAll(cs)) == TotalBytes(cs)
  {
    if cs != [] {
      BareSameTotal(cs[..|cs| - 1]);
      assert BareAll(cs)[..|cs| - 1] == BareAll(cs[..|cs| - 1]);
    }
  }

  lemma {:induction false} TranslationIsSound(assignments: seq<AssignmentPayload>)
    requires TranslateAll(assignments).Ok?
    ensures var st := TranslateAll(assignments).value;
            && st.total == BytesOf(st.assignments)
            && (st.direction == None ==> st.assignments == [])
            && (st.direction.Some? ==> KnownDirection(st.direction.value))
            && (st.direction.Some? ==> AllSound(st.assignments, if st.direction.value == "h2d" then H2d else D2h))
  {
    if assignments != [] {
      var k := |assignments| - 1;
      TranslationIsSound(assignments[..k]);
      var (st, a) := (TranslateAll(assignments[..k]).value, assignments[k]);
      var next := TranslateAll(assignments).value;
      if a.chunks != [] {
        var added := NativeAssignment(NativePathOf(a.path), BareAll(a.chunks));
        assert Sound(added, if a.path.direction == "h2d" then H2d else D2h) by {
          forall c | c in added.chunks ensures GoodChunk(c) && c.relay == None {
            var i :| 0 <= i < |a.chunks| && added.chunks[i] == c;
            assert a.chunks[i] in a.chunks;
          }
        }
        BareSameTotal(a.chunks);
        assert next.assignments[..|st.assignments|] == st.assignments;
      }
    }
  }

  lemma BareIsSame(cs: seq<Chunk>)
    requires forall c :: c in cs ==> c.relay == None
    ensures BareAll(cs) == cs
  {
    forall i | 0 <= i < |cs| ensures Bare(cs[i]) == cs[i] {
      assert cs[i] in cs;
    }
  }

  lemma AdvanceReadBack(st: Progress, a: NativeAssignment, direction: Direction)
    requires Sound(a, direction) && (st.direction == None || st.direction == Some(DirectionText(direction)))
    ensures Advance(st, ReadAssignment(a))
         == Ok(Progress(Some(DirectionText(direction)), st.assignments + [a], st.total + TotalBytes(a.chunks)))
  {
    BareIsSame(a.chunks);
  }

  lemma {:induction false} ReadBackTranslates(s: seq<NativeAssignment>, direction: Direction)
    requires AllSound(s, direction)
    ensures TranslateAll(ReadAssignments(s))
         == Ok(Progress(if s == [] then None else Some(DirectionText(direction)), s, BytesOf(s)))
  {
    hide Advance, DirectionText, ReadAssignment, Sound;
    if s != [] {
      var (init, a) := (s[..|s| - 1], s[|s| - 1]);
      assert s == init + [a];
      ReadBackTranslates(init, direction);
      hide TranslateAll;
      ReadBackStep(init, a, direction);
    }
  }

  lemma ReadBackStep(init: seq<NativeAssignment>, a: NativeAssignment, direction: Direction)
    requires Sound(a, direction)
    requires TranslateAll(ReadAssignments(init))
          == Ok(Progress(if init == [] then None else Some(DirectionText(direction)), init, BytesOf(init)))
    ensures TranslateAll(ReadAssignments(init + [a]))
         == Ok(Progress(Some(DirectionText(direction)), init + [a], BytesOf(init + [a])))
  {
    hide Advance, DirectionText, ReadAssignment, Sound;
    assert ReadAssignments(init + [a])[..|init|] == ReadAssignments(init);
    assert (init + [a])[..|init|] == init;
    AdvanceReadBack(TranslateAll(ReadAssignments(init)).value, a, direction);
  }

  /** Translating, reading the native plan back and translating again gives the same native plan. */
  lemma TranslationRoundTrip(p: PlanPayload)
    requires Translate(p).Ok?
    ensures Translate(ReadBack(Translate(p).value)) == Translate(p)
  {
    var st := TranslateAll(p.assignments).value;
    TranslationIsSound(p.assignments);
    var direction := if st.direction == Some("h2d") then H2d else D2h;
    ReadBackTranslates(st.assignments, direction);
  }

  // ---------- plans of the planner ----------

  function PathDict(path: Path): PathPayload {
    PathPayload(if path.kind == DirectPath then "direct" else "relay", DirectionText(path.direction),
                Some(path.targetDevice), Some(path.relayDevice),
                path.h2d, path.d2h, path.p2p, path.effective, Some(path.enabled))
  }

  function AssignmentDict(a: Assignment): AssignmentPayload {
    AssignmentPayload(PathDict(a.path), a.chunks, Some(TotalBytes(a.chunks)), Some(|a.chunks|))
  }

  function AssignmentDicts(s: seq<Assignment>): (r: seq<AssignmentPayload>)
    ensures |r| == |s| && forall i :: 0 <= i < |s| ==> r[i] == AssignmentDict(s[i])
  {
    seq(|s|, i requires 0 <= i < |s| => AssignmentDict(s[i]))
  }

  function PlanDict(plan: Plan): PlanPayload {
    PlanPayload(Some(plan.totalBytes), Some(plan.chunkBytes), AssignmentDicts(plan.assignments))
  }

  function NativeAssignmentOf(a: Assignment): NativeAssignment {
    NativeAssignment(NativePathOf(PathDict(a.path)), a.chunks)
  }

  function NativeAssignmentsOf(s: seq<Assignment>): (r: seq<NativeAssignment>)
    ensures |r| == |s| && forall i :: 0 <= i < |s| ==> r[i] == NativeAssignmentOf(s[i])
  {
    seq(|s|, i requires 0 <= i < |s| => NativeAssignmentOf(s[i]))
  }

  predicate RelayDevicesSet(s: seq<Assignment>) {
    forall a :: a in s && a.path.kind == RelayPath ==> a.path.relayDevice >= 0
  }

  /** What the planner guarantees about each assignment of a plan for well-formed ranges. */
  predicate Planned(a: Assignment, direction: Direction) {
    && a.chunks != [] && a.path.enabled && a.path.direction == direction
    && (a.path.kind == DirectPath ==> a.path.relayDevice == -1)
    && (forall c :: c in a.chunks ==> GoodChunk(c) && c.relay == None)
  }

  lemma {:induction false} BucketMembers(chunks: seq<Chunk>, choices: seq<nat>, i: nat)
    requires |choices| == |chunks|
    ensures forall c :: c in Bucket(chunks, choices, i) ==> c in chunks
  {
    if chunks != [] {
      var k := |chunks| - 1;
      BucketMembers(chunks[..k], choices[..k], i);
      assert chunks == chunks[..k] + [chunks[k]];
    }
  }

  lemma PathShape(o: Options, p: Profile, mode: Mode, direction: Direction, path: Path)
    requires path in Paths(o, p, mode, direction)
    ensures path.enabled && path.direction == direction
    ensures path.kind == DirectPath ==> path.relayDevice == -1 && path.targetDevice == p.targetDevice
    ensures mode == Direct ==> path.kind == DirectPath
  {
    RelayPathsUsable(o, p.relays, DirectBandwidth(p, direction), direction);
  }

  lemma PlansArePlanned(o: Options, ranges: seq<Chunk>, size: int, p: Profile, mode: Mode, direction: Direction,
                        a: Assignment)
    requires WellFormed(ranges) && RangesPlan(o, ranges, size, p, mode, direction).Ok?
    requires a in RangesPlan(o, ranges, size, p, mode, direction).value.assignments
    ensures Planned(a, direction)
    ensures a.path.kind == DirectPath ==> a.path.targetDevice == p.targetDevice
    ensures ResolvedMode(o, mode, |ChunksOf(ranges, size)|, PositiveBytes(ranges)) == Direct ==>
              a.path.kind == DirectPath
    ensures forall c :: c in a.chunks ==> c in ChunksOf(ranges, size)
  {
    PlanOutcome(o, ranges, size, p, mode, direction);
    hide RangesPlan, Paths, PathChoices, Bucket;
    var chunks := ChunksOf(ranges, size);
    var resolved := ResolvedMode(o, mode, |chunks|, PositiveBytes(ranges));
    var paths := Paths(o, p, resolved, direction);
    assert IsBucketOf(a, paths, chunks);
    var i :| 0 <= i < |paths| && a == Assignment(paths[i], Bucket(chunks, PathChoices(paths, chunks), i));
    PathShape(o, p, resolved, direction, paths[i]);
    ChunksOfShape(ranges, size);
    BucketMembers(chunks, PathChoices(paths, chunks), i);
    forall c | c in a.chunks ensures GoodChunk(c) {
      var r :| r in ranges && Within(c, r);
    }
  }

  lemma AdvancePlanned(st: Progress, a: Assignment, direction: Direction)
    requires Planned(a, direction) && (st.direction == None || st.direction == Some(DirectionText(direction)))
    ensures Advance(st, AssignmentDict(a))
         == if a.path.kind == RelayPath && a.path.relayDevice < 0 then Err(RelayWithoutDevice)
            else Ok(Progress(Some(DirectionText(direction)), st.assignments + [NativeAssignmentOf(a)],
                             st.total + TotalBytes(a.chunks)))
  {
    BareIsSame(a.chunks);
  }

  lemma TranslateSnoc(init: seq<Assignment>, a: Assignment)
    ensures TranslateAll(AssignmentDicts(init + [a]))
         == var before := TranslateAll(AssignmentDicts(init));
            if before.Err? then before else Advance(before.value, AssignmentDict(a))
  {
    hide Advance, AssignmentDict;
    assert AssignmentDicts(init + [a])[..|init|] == AssignmentDicts(init);
  }

  lemma {:induction false} PlannedTranslates(s: seq<Assignment>, direction: Direction)
    requires RelayDevicesSet(s) && forall a :: a in s ==> Planned(a, direction)
    ensures TranslateAll(AssignmentDicts(s))
         == Ok(Progress(if s == [] then None else Some(DirectionText(direction)), NativeAssignmentsOf(s),
                        TotalBytes(AssignedChunks(s))))
  {
    hide Advance, DirectionText, AssignmentDict, NativeAssignmentOf, Planned, RelayDevicesSet;
    if s != [] {
      var (init, a) := (s[..|s| - 1], s[|s| - 1]);
      assert s == init + [a];
      FewerDevicesSet(init, a);
      PlannedTranslates(init, direction);
      hide TranslateAll;
      PlannedStep(init, a, direction);
    }
  }

  lemma FewerDevicesSet(init: seq<Assignment>, a: Assignment)
    requires RelayDevicesSet(init + [a])
    ensures RelayDevicesSet(init) && (a.path.kind == RelayPath ==> a.path.relayDevice >= 0)
  {
    assert a in init + [a];
    assert forall x :: x in init ==> x in init + [a];
  }

  lemma PlannedStep(init: seq<Assignment>, a: Assignment, direction: Direction)
    requires Planned(a, direction) && (a.path.kind == RelayPath ==> a.path.relayDevice >= 0)
    requires TranslateAll(AssignmentDicts(init))
          == Ok(Progress(if init == [] then None else Some(DirectionText(direction)), NativeAssignmentsOf(init),
                         TotalBytes(AssignedChunks(init))))
    ensures TranslateAll(AssignmentDicts(init + [a]))
         == Ok(Progress(Some(DirectionText(direction)), NativeAssignmentsOf(init + [a]),
                        TotalBytes(AssignedChunks(init + [a]))))
  {
    hide Advance, DirectionText, AssignmentDict, NativeAssignmentOf, Planned, TranslateAll;
    TranslateSnoc(init, a);
    AdvancePlanned(TranslateAll(AssignmentDicts(init)).value, a, direction);
    assert (init + [a])[..|init|] == init;
    TotalAppend(AssignedChunks(init), a.chunks);
    assert NativeAssignmentsOf(init + [a]) == NativeAssignmentsOf(init) + [NativeAssignmentOf(a)];
  }

  lemma {:induction false} MissingDeviceFails(s: seq<Assignment>, direction: Direction)
    requires !RelayDevicesSet(s) && forall a :: a in s ==> Planned(a, direction)
    ensures TranslateAll(AssignmentDicts(s)) == Err(RelayWithoutDevice)
  {
    hide Advance, DirectionText, AssignmentDict, NativeAssignmentOf, Planned;
    var (init, a) := (s[..|s| - 1], s[|s| - 1]);
    assert s == init + [a];
    TranslateSnoc(init, a);
    if RelayDevicesSet(init) {
      PlannedTranslates(init, direction);
      AdvancePlanned(TranslateAll(AssignmentDicts(init)).value, a, direction);
    } else {
      MissingDeviceFails(init, direction);
    }
  }

  /**
    Native translation accepts a plan of the planner if and only if every relay path it uses
    names a device, and then keeps the same assignments, chunks and totals.
   */
  lemma PlannerPlanTranslates(o: Options, ranges: seq<Chunk>, size: int, p: Profile, mode: Mode, direction: Direction)
    requires WellFormed(ranges) && RangesPlan(o, ranges, size, p, mode, direction).Ok?
    ensures var plan := RangesPlan(o, ranges, size, p, mode, direction).value;
            Translate(PlanDict(plan))
              == if RelayDevicesSet(plan.assignments)
                 then Ok(NativePlan(plan.totalBytes, plan.chunkBytes, NativeAssignmentsOf(plan.assignments)))
                 else Err(RelayWithoutDevice)
  {
    hide RangesPlan, TranslateAll, Planned, WellFormed, RelayDevicesSet, TotalBytes;
    var plan := RangesPlan(o, ranges, size, p, mode, direction).value;
    PlanTotals(o, ranges, size, p, mode, direction);
    forall a | a in plan.assignments ensures Planned(a, direction) {
      PlansArePlanned(o, ranges, size, p, mode, direction, a);
    }
    if RelayDevicesSet(plan.assignments) {
      PlannedTranslates(plan.assignments, direction);
    } else {
      MissingDeviceFails(plan.assignments, direction);
    }
    if ranges != [] {
      TotalPositive(ranges);
    } else {
      assert TotalBytes(ranges) == 0 by { NoBytes(); }
    }
  }

  /** So a profile whose relays all lack a device gives plans in relay mode that are never translated. */
  lemma NamelessRelaysFail(o: Options, ranges: seq<Chunk>, size: int, p: Profile, direction: Direction)
    requires WellFormed(ranges) && ranges != [] && RangesPlan(o, ranges, size, p, Relay, direction).Ok?
    requires forall r :: r in p.relays ==> r.relayDevice < 0
    ensures Translate(PlanDict(RangesPlan(o, ranges, size, p, Relay, direction).value)) == Err(RelayWithoutDevice)
  {
    hide RangesPlan, Translate, PathChoices, Bucket;
    PlanOutcome(o, ranges, size, p, Relay, direction);
    PlannerPlanTranslates(o, ranges, size, p, Relay, direction);
    PlanTotals(o, ranges, size, p, Relay, direction);
    var (paths, chunks) := (Paths(o, p, Relay, direction), ChunksOf(ranges, size));
    var a := RangesPlan(o, ranges, size, p, Relay, direction).value.assignments[0];
    assert IsBucketOf(a, paths, chunks);
    RelayPathsUsable(o, p.relays, DirectBandwidth(p, direction), direction);
  }

  /** One relay that reports bandwidth and no device. */
  const NAMELESS := RelayProfile(-1, 0, true, 1.0, 1.0, 1.0, 1.0, 1.0, 0.0, 0.0, 0.0, 0.0)

  const NAMELESS_ONLY := Profile(0, 1.0, 1.0, 0.0, 0.0, 0.0, 0.0, [NAMELESS])

  lemma PlannedButNotTranslated(range: Chunk, size: int)
    requires GoodChunk(range) && size > 0
    ensures var plan := RangesPlan(Options(2, 0, 0.0, 0.0), [range], size, NAMELESS_ONLY, Relay, H2d);
            plan.Ok? && Translate(PlanDict(plan.value)) == Err(RelayWithoutDevice)
  {
    hide Translate, PlanDict, RangesPlan;
    var o := Options(2, 0, 0.0, 0.0);
    NamelessPaths(o);
    RelayPlanExists(o, [range], size, NAMELESS_ONLY, H2d);
    NamelessRelaysFail(o, [range], size, NAMELESS_ONLY, H2d);
  }

  lemma RelayPlanExists(o: Options, ranges: seq<Chunk>, size: int, p: Profile, direction: Direction)
    requires size > 0 && Paths(o, p, Relay, direction) != []
    ensures RangesPlan(o, ranges, size, p, Relay, direction).Ok?
  {
    hide Paths, ChunksOf, PositiveBytes, PathChoices, Assignments;
    BuiltPathsCarryWeight(o, p, Relay, direction);
  }

  lemma NamelessPaths(o: Options)
    requires o == Options(2, 0, 0.0, 0.0)
    ensures Paths(o, NAMELESS_ONLY, Relay, H2d) != []
  {
    assert [NAMELESS][..0] == [];
    assert Eligible(o, NAMELESS, DirectBandwidth(NAMELESS_ONLY, H2d), H2d);
  }

  function NativeChunks(s: seq<NativeAssignment>): seq<Chunk> {
    if s == [] then [] else NativeChunks(s[..|s| - 1]) + s[|s| - 1].chunks
  }

  lemma {:induction false} NativeChunksSame(s: seq<Assignment>)
    ensures NativeChunks(NativeAssignmentsOf(s)) == AssignedChunks(s)
  {
    hide NativePathOf, PathDict;
    if s != [] {
      NativeChunksSame(s[..|s| - 1]);
      assert NativeAssignmentsOf(s)[..|s| - 1] == NativeAssignmentsOf(s[..|s| - 1]);
    }
  }

  /**
    From ranges to bytes, through the whole pipeline: whatever order the bytes of the translated
    native plan land in, the target ends up as if the intent's ranges had been copied whole.
   */
  lemma NativePlanPreservesMeaning<B>(o: Options, ranges: seq<Chunk>, size: int, p: Profile, mode: Mode,
                                      direction: Direction, steps: seq<Step>, source: seq<B>, target: seq<B>)
    requires WellFormed(ranges) && RangesPlan(o, ranges, size, p, mode, direction).Ok?
    requires AllFit(ranges, |source|, |target|) && DisjointTargets(ranges)
    requires var native := Translate(PlanDict(RangesPlan(o, ranges, size, p, mode, direction).value));
             native.Ok? && Interleaves(steps, NativeChunks(native.value.assignments))
    ensures StepsFit(steps, |source|, |target|)
    ensures Perform(steps, source, target) == CopyAll(ranges, source, target)
  {
    hide RangesPlan, Translate, WellFormed, Interleaves, DisjointTargets, RelayDevicesSet, AssignedChunks, NativeChunks;
    PlannerPlanTranslates(o, ranges, size, p, mode, direction);
    NativeChunksSame(RangesPlan(o, ranges, size, p, mode, direction).value.assignments);
    PlanPreservesMeaning(o, ranges, size, p, mode, direction, steps, source, target);
  }

  lemma NoBytes()
    ensures TotalBytes([]) == 0
  {
  }

  lemma PlanTotals(o: Options, ranges: seq<Chunk>, size: int, p: Profile, mode: Mode, direction: Direction)
    requires WellFormed(ranges) && RangesPlan(o, ranges, size, p, mode, direction).Ok?
    ensures var plan := RangesPlan(o, ranges, size, p, mode, direction).value;
            && plan.totalBytes == TotalBytes(AssignedChunks(plan.assignments)) == TotalBytes(ranges)
            && plan.chunkBytes > 0
            && (plan.assignments == [] <==> ranges == [])
  {
    PlanOutcome(o, ranges, size, p, mode, direction);
    var plan := RangesPlan(o, ranges, size, p, mode, direction).value;
    assert plan.chunkBytes > 0;
    hide RangesPlan;
    SamePermutationSameTotal(AssignedChunks(plan.assignments), ChunksOf(ranges, size));
    ChunksOfShape(ranges, size);
    PositiveIsTotal(ranges);
    if ranges != [] {
      TotalPositive(ranges);
    }
  }

  lemma {:induction false} TotalPositive(cs: seq<Chunk>)
    requires WellFormed(cs) && cs != []
    ensures TotalBytes(cs) > 0
  {
    assert cs[|cs| - 1] in cs;
    if |cs| > 1 {
      TotalPositive(cs[..|cs| - 1]);
    }
  }

  // ---------- the direct backend's checks ----------

  function PayloadBytes(s: seq<AssignmentPayload>): int {
    if s == [] then 0 else PayloadBytes(s[..|s| - 1]) + TotalBytes(s[|s| - 1].chunks)
  }

  predicate AllDirect(s: seq<AssignmentPayload>) {
    forall i :: 0 <= i < |s| ==> s[i].path.kind == "direct"
  }

  method IsDirectOnlyWorkerPlan(p: PlanPayload, leased: bool) returns (direct: bool)
    ensures direct <==> !leased && p.assignments != [] && AllDirect(p.assignments)
  {
    if leased || p.assignments == [] {
      return false;
    }
    for i := 0 to |p.assignments|
      invariant AllDirect(p.assignments[..i])
    {
      if p.assignments[i].path.kind != "direct" {
        return false;
      }
    }
    return true;
  }

  predicate Canonical(p: PlanPayload) {
    var total := PayloadBytes(p.assignments);
    AllDirect(p.assignments) && total > 0 && GetOr(p.totalBytes, total) == total
  }

  method CanonicalDirectPlanPayload(p: PlanPayload) returns (accepted: bool)
    ensures accepted <==> Canonical(p)
  {
    var total := 0;
    for i := 0 to |p.assignments|
      invariant AllDirect(p.assignments[..i]) && total == PayloadBytes(p.assignments[..i])
    {
      assert p.assignments[..i + 1][..i] == p.assignments[..i];
      if p.assignments[i].path.kind != "direct" {
        return false;
      }
      var bytes := SumBytes(p.assignments[i].chunks);
      total := total + bytes;
    }
    assert p.assignments[..|p.assignments|] == p.assignments;
    return total > 0 && GetOr(p.totalBytes, total) == total;
  }

  method SumBytes(cs: seq<Chunk>) returns (total: int)
    ensures total == TotalBytes(cs)
  {
    total := 0;
    for i := 0 to |cs|
      invariant total == TotalBytes(cs[..i])
    {
      assert cs[..i + 1][..i] == cs[..i];
      total := total + cs[i].bytes;
    }
    assert cs[..|cs|] == cs;
  }

  predicate DirectPathFor(path: PathPayload, device: int, direction: string) {
    path.kind == "direct" && path.direction == direction
    && GetOr(path.targetDevice, device) == device && GetOr(path.enabled, true)
  }

  predicate ChunkInside(c: Chunk, sourceSize: int, targetSize: int) {
    GoodChunk(c) && c.src + c.bytes <= sourceSize && c.dst + c.bytes <= targetSize
  }

  predicate DirectAssignment(a: AssignmentPayload, device: int, direction: string, sourceSize: int, targetSize: int) {
    DirectPathFor(a.path, device, direction) && forall c :: c in a.chunks ==> ChunkInside(c, sourceSize, targetSize)
  }

  /** What it takes to run a plan on the direct backend, for a host and a device buffer. */
  predicate Runnable(p: PlanPayload, device: int, direction: string, hostBytes: int, deviceBytes: int) {
    var sourceSize := if direction == "h2d" then hostBytes else deviceBytes;
    var targetSize := if direction == "h2d" then deviceBytes else hostBytes;
    var total := PayloadBytes(p.assignments);
    && (forall i :: 0 <= i < |p.assignments| ==>
          DirectAssignment(p.assignments[i], device, direction, sourceSize, targetSize))
    && (exists i :: 0 <= i < |p.assignments| && p.assignments[i].chunks != [])
    && GetOr(p.totalBytes, total) == total
  }

  method RequireDirectPlanMatchesTarget(p: PlanPayload, device: int, direction: string, hostBytes: int,
                                        deviceBytes: int)
    returns (accepted: bool)
    ensures accepted <==> Runnable(p, device, direction, hostBytes, deviceBytes)
  {
    if p.assignments == [] {
      return false;
    }
    var sourceSize, targetSize := deviceBytes, hostBytes;
    if direction == "h2d" {
      sourceSize, targetSize := hostBytes, deviceBytes;
    }
    var found, total := false, 0;
    for i := 0 to |p.assignments|
      invariant forall j :: 0 <= j < i ==> DirectAssignment(p.assignments[j], device, direction, sourceSize, targetSize)
      invariant found <==> exists j :: 0 <= j < i && p.assignments[j].chunks != []
      invariant total == PayloadBytes(p.assignments[..i])
    {
      assert p.assignments[..i + 1][..i] == p.assignments[..i];
      var a := p.assignments[i];
      if !DirectPathFor(a.path, device, direction) {
        return false;
      }
      var ok, bytes := ChunksInside(a.chunks, sourceSize, targetSize);
      if !ok {
        return false;
      }
      total := total + bytes;
      found := found || a.chunks != [];
    }
    assert p.assignments[..|p.assignments|] == p.assignments;
    if !found {
      return false;
    }
    return GetOr(p.totalBytes, total) == total;
  }

  method ChunksInside(cs: seq<Chunk>, sourceSize: int, targetSize: int) returns (ok: bool, bytes: int)
    ensures ok <==> forall c :: c in cs ==> ChunkInside(c, sourceSize, targetSize)
    ensures ok ==> bytes == TotalBytes(cs)
  {
    bytes := 0;
    for k := 0 to |cs|
      invariant forall c :: c in cs[..k] ==> ChunkInside(c, sourceSize, targetSize)
      invariant bytes == TotalBytes(cs[..k])
    {
      assert cs[..k + 1] == cs[..k] + [cs[k]] && cs[..k + 1][..k] == cs[..k];
      if !ChunkInside(cs[k], sourceSize, targetSize) {
        assert cs[k] in cs;
        return false, bytes;
      }
      bytes := bytes + cs[k].bytes;
    }
    assert cs[..|cs|] == cs;
    return true, bytes;
  }

  lemma {:induction false} PayloadBytesAre(s: seq<AssignmentPayload>)
    ensures PayloadBytes(s) == TotalBytes(PayloadChunks(s))
  {
    if s != [] {
      PayloadBytesAre(s[..|s| - 1]);
      TotalAppend(PayloadChunks(s[..|s| - 1]), s[|s| - 1].chunks);
    }
  }

  /** A plan is canonical when it is direct throughout, moves something, and declares that much or nothing. */
  lemma CanonicalIff(p: PlanPayload)
    ensures var moved := TotalBytes(PayloadChunks(p.assignments));
            Canonical(p) <==>
              && (forall i :: 0 <= i < |p.assignments| ==> p.assignments[i].path.kind == "direct")
              && moved > 0 && (p.totalBytes == None || p.totalBytes.value == moved)
  {
    PayloadBytesAre(p.assignments);
  }

  /** The chunk starts at or after 0, has bytes, and ends inside both buffers. */
  predicate InBuffers(c: Chunk, direction: string, hostBytes: int, deviceBytes: int) {
    && c.src >= 0 && c.dst >= 0 && c.bytes >= 1
    && (if direction == "h2d" then c.src + c.bytes <= hostBytes && c.dst + c.bytes <= deviceBytes
        else c.src + c.bytes <= deviceBytes && c.dst + c.bytes <= hostBytes)
  }

  /** A direct path of this direction, enabled unless it says otherwise, to this device unless it names another. */
  predicate RunsHere(path: PathPayload, device: int, direction: string) {
    && path.kind == "direct" && path.direction == direction && path.enabled != Some(false)
    && (path.targetDevice == None || path.targetDevice.value == device)
  }

  /** The direct backend runs a plan exactly when each part runs here, some chunk is there, and the total agrees. */
  lemma RunnableIff(p: PlanPayload, device: int, direction: string, hostBytes: int, deviceBytes: int)
    ensures Runnable(p, device, direction, hostBytes, deviceBytes) <==>
              && (forall i :: 0 <= i < |p.assignments| ==>
                    && RunsHere(p.assignments[i].path, device, direction)
                    && forall c :: c in p.assignments[i].chunks ==> InBuffers(c, direction, hostBytes, deviceBytes))
              && PayloadChunks(p.assignments) != []
              && (p.totalBytes == None || p.totalBytes.value == TotalBytes(PayloadChunks(p.assignments)))
  {
    PayloadBytesAre(p.assignments);
    SomePayloadChunk(p.assignments);
  }

  lemma {:induction false} SomePayloadChunk(s: seq<AssignmentPayload>)
    ensures PayloadChunks(s) != [] <==> exists i :: 0 <= i < |s| && s[i].chunks != []
  {
    if s != [] {
      SomePayloadChunk(s[..|s| - 1]);
      assert forall i :: 0 <= i < |s| - 1 ==> s[i] == s[..|s| - 1][i];
    }
  }

  lemma {:induction false} PayloadBytesOfPlan(s: seq<Assignment>)
    ensures PayloadBytes(AssignmentDicts(s)) == TotalBytes(AssignedChunks(s))
  {
    if s != [] {
      var (init, a) := (s[..|s| - 1], s[|s| - 1]);
      PayloadBytesOfPlan(init);
      assert AssignmentDicts(s)[..|s| - 1] == AssignmentDicts(init);
      TotalAppend(AssignedChunks(init), a.chunks);
    }
  }

  /**
    Every non-empty direct-only plan of the planner, for ranges inside the two buffers and a
    profile of the right device, passes all three checks on the way to the direct backend.
   */
  lemma DirectPlanAccepted(o: Options, ranges: seq<Chunk>, size: int, p: Profile, mode: Mode, direction: Direction,
                           hostBytes: nat, deviceBytes: nat)
    requires WellFormed(ranges) && ranges != [] && RangesPlan(o, ranges, size, p, mode, direction).Ok?
    requires if direction == H2d then AllFit(ranges, hostBytes, deviceBytes) else AllFit(ranges, deviceBytes, hostBytes)
    ensures var payload := PlanDict(RangesPlan(o, ranges, size, p, mode, direction).value);
            && (AllDirect(payload.assignments) ==>
                  Canonical(payload)
                    && Runnable(payload, p.targetDevice, DirectionText(direction), hostBytes, deviceBytes))
            && (ResolvedMode(o, mode, |ChunksOf(ranges, size)|, PositiveBytes(ranges)) == Direct ==>
                  payload.assignments != [] && AllDirect(payload.assignments))
  {
    PlanTotals(o, ranges, size, p, mode, direction);
    PlanOutcome(o, ranges, size, p, mode, direction);
    hide RangesPlan, ChunksOf, DirectionText, ResolvedMode, Planned, ChunkInside, Runnable, AllFit, WellFormed,
      TotalBytes;
    var plan := RangesPlan(o, ranges, size, p, mode, direction).value;
    var resolved := ResolvedMode(o, mode, |ChunksOf(ranges, size)|, PositiveBytes(ranges));
    TotalPositive(ranges);
    PayloadBytesOfPlan(plan.assignments);
    forall i | 0 <= i < |plan.assignments|
      ensures resolved == Direct ==> plan.assignments[i].path.kind == DirectPath
      ensures RunsOn(plan.assignments[i], p.targetDevice, direction, hostBytes, deviceBytes)
    {
      PlannedInside(o, ranges, size, p, mode, direction, hostBytes, deviceBytes, plan.assignments[i]);
    }
    if AllDirect(AssignmentDicts(plan.assignments)) {
      DirectRunnable(plan, p.targetDevice, direction, hostBytes, deviceBytes);
    }
  }

  /** A planned assignment that, if direct, is on the right device, with its chunks inside both buffers. */
  predicate RunsOn(a: Assignment, device: int, direction: Direction, hostBytes: nat, deviceBytes: nat) {
    && Planned(a, direction)
    && (a.path.kind == DirectPath ==> a.path.targetDevice == device)
    && (forall c :: c in a.chunks ==>
          if direction == H2d then ChunkInside(c, hostBytes, deviceBytes) else ChunkInside(c, deviceBytes, hostBytes))
  }

  lemma PlannedInside(o: Options, ranges: seq<Chunk>, size: int, p: Profile, mode: Mode, direction: Direction,
                      hostBytes: nat, deviceBytes: nat, a: Assignment)
    requires WellFormed(ranges) && RangesPlan(o, ranges, size, p, mode, direction).Ok?
    requires if direction == H2d then AllFit(ranges, hostBytes, deviceBytes) else AllFit(ranges, deviceBytes, hostBytes)
    requires a in RangesPlan(o, ranges, size, p, mode, direction).value.assignments
    ensures ResolvedMode(o, mode, |ChunksOf(ranges, size)|, PositiveBytes(ranges)) == Direct ==>
              a.path.kind == DirectPath
    ensures RunsOn(a, p.targetDevice, direction, hostBytes, deviceBytes)
  {
    PlanOutcome(o, ranges, size, p, mode, direction);
    PlansArePlanned(o, ranges, size, p, mode, direction, a);
    ChunksOfShape(ranges, size);
    forall c | c in a.chunks
      ensures if direction == H2d then ChunkInside(c, hostBytes, deviceBytes)
              else ChunkInside(c, deviceBytes, hostBytes)
    {
      var r :| r in ranges && Within(c, r);
    }
  }

  lemma DirectRunnable(plan: Plan, device: int, direction: Direction, hostBytes: nat, deviceBytes: nat)
    requires plan.assignments != [] && AllDirect(AssignmentDicts(plan.assignments))
    requires plan.totalBytes == TotalBytes(AssignedChunks(plan.assignments))
    requires forall i :: 0 <= i < |plan.assignments| ==>
               RunsOn(plan.assignments[i], device, direction, hostBytes, deviceBytes)
    ensures Runnable(PlanDict(plan), device, DirectionText(direction), hostBytes, deviceBytes)
  {
    var payload := PlanDict(plan);
    PayloadBytesOfPlan(plan.assignments);
    assert payload.assignments[0].chunks != [];
    var sourceSize := if direction == H2d then hostBytes else deviceBytes;
    var targetSize := if direction == H2d then deviceBytes else hostBytes;
    forall i | 0 <= i < |payload.assignments|
      ensures DirectAssignment(payload.assignments[i], device, DirectionText(direction), sourceSize, targetSize)
    {
      assert payload.assignments[i].path.kind == "direct";
      assert plan.assignments[i].path.kind == DirectPath;
    }
  }
}
