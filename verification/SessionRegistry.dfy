/**
  The runtime session's buffer registry. Buffers wait until a target GPU is known, then the
  pending ones are registered with the daemon in one batch; any daemon call may fail. Object
  identity is a number of the buffer, the registration fingerprint of a buffer is another.
 */
module SessionRegistry {
  import opened Common
  import opened Recency

  datatype Buffer = Buffer(identity: nat, id: string, jobId: string, owner: bool, device: Option<int>, layout: int)

  /** What a registration is remembered by: the buffer's own fingerprint, the session, the ownership. */
  datatype Print = Print(layout: int, sessionId: string, runtimeOwned: bool)

  datatype Registry = Registry(
    order: seq<string>, buffers: map<string, Buffer>, registered: set<string>, prints: map<string, Print>,
    owned: set<string>, atDaemon: set<string>)

  datatype RegistryError =
    | SessionClosed | InvalidBacking | WrongJob | OwnedIdInUse | WrongGpu | NotOwner | OpenFailed | RegistrationFailed
    | CleanupFailed

  /** The dictionaries agree: registered ids are the fingerprint keys, and everything is about known buffers. */
  ghost predicate Sound(r: Registry) {
    && NoRepeats(r.order) && (forall id :: id in r.order <==> id in r.buffers)
    && (forall id :: id in r.buffers ==> r.buffers[id].id == id)
    && r.registered == r.prints.Keys && r.registered <= r.buffers.Keys
    && r.registered <= r.atDaemon
  }

  ghost predicate Consistent(r: Registry) {
    Sound(r) && r.owned <= r.buffers.Keys
  }

  // ---------- specification ----------

  function CurrentPrint(r: Registry, id: string, sessionId: string): Print
    requires id in r.buffers
  {
    Print(r.buffers[id].layout, sessionId, id in r.owned)
  }

  predicate UpToDate(r: Registry, id: string, sessionId: string)
    requires id in r.buffers
  {
    id in r.prints && r.prints[id] == CurrentPrint(r, id, sessionId)
  }

  function Registered(r: Registry, id: string, sessionId: string): Registry
    requires id in r.buffers
  {
    r.(registered := r.registered + {id}, prints := r.prints[id := CurrentPrint(r, id, sessionId)],
       atDaemon := r.atDaemon + {id})
  }

  function Forgotten(r: Registry, id: string): Registry {
    r.(order := Without(r.order, id), buffers := r.buffers - {id}, registered := r.registered - {id},
       prints := r.prints - {id}, owned := r.owned - {id})
  }

  /** Cleanup forgets the buffer whether or not the daemon could be told. */
  function CleanedUp(r: Registry, id: string, daemonFails: set<string>): Registry {
    if id in r.registered && id !in daemonFails then Forgotten(r, id).(atDaemon := r.atDaemon - {id})
    else Forgotten(r, id)
  }

  /** How far a batch over `ids` gets: the registry, the ids registered, and whether a daemon call failed. */
  datatype Batch = Batch(registry: Registry, now: seq<string>, failed: bool)

  function Pending(r: Registry, ids: seq<string>, sessionId: string, fails: set<string>): (b: Batch)
    requires forall id :: id in ids ==> id in r.buffers
    ensures b.registry.buffers == r.buffers && b.registry.owned == r.owned
  {
    if ids == [] then Batch(r, [], false)
    else
      var (init, id) := (ids[..|ids| - 1], ids[|ids| - 1]);
      var b := Pending(r, init, sessionId, fails);
      if b.failed || UpToDate(b.registry, id, sessionId) then b
      else if id in fails then b.(failed := true)
      else Batch(Registered(b.registry, id, sessionId), b.now + [id], false)
  }

  /** The rollback of a failed batch, last registered first. */
  function AllCleanedUp(r: Registry, ids: seq<string>, daemonFails: set<string>): Registry
    decreases |ids|
  {
    if ids == [] then r
    else AllCleanedUp(CleanedUp(r, ids[|ids| - 1], daemonFails), ids[..|ids| - 1], daemonFails)
  }

  function AfterPending(r: Registry, sessionId: string, fails: set<string>, cleanupFails: set<string>): Registry
    requires forall id :: id in r.order ==> id in r.buffers
  {
    var b := Pending(r, r.order, sessionId, fails);
    if b.failed then AllCleanedUp(b.registry, b.now, cleanupFails) else b.registry
  }

  /** Assigning a dictionary entry keeps the position of an id that is there and appends a new one. */
  function WithBuffer(r: Registry, b: Buffer): Registry {
    r.(order := if b.id in r.order then r.order else r.order + [b.id], buffers := r.buffers[b.id := b])
  }

  function WithoutBuffer(r: Registry, id: string): Registry {
    r.(order := Without(r.order, id), buffers := r.buffers - {id})
  }

  // ---------- what a batch does ----------

  lemma ForgetKeeps(r: Registry, id: string)
    requires Sound(r)
    ensures Sound(Forgotten(r, id)) && Sound(CleanedUp(r, id, {})) && Sound(CleanedUp(r, id, {id}))
    ensures r.owned <= r.buffers.Keys ==> Forgotten(r, id).owned <= Forgotten(r, id).buffers.Keys
  {
    hide Without;
    WithoutNoRepeats(r.order, id);
    forall x ensures x in Without(r.order, id) <==> x in r.order && x != id {
      WithoutMembers(r.order, id, x);
    }
  }

  lemma CleanKeeps(r: Registry, id: string, daemonFails: set<string>)
    requires Sound(r)
    ensures Sound(CleanedUp(r, id, daemonFails))
    ensures r.owned <= r.buffers.Keys ==>
              CleanedUp(r, id, daemonFails).owned <= CleanedUp(r, id, daemonFails).buffers.Keys
  {
    hide Sound, Without;
    ForgetKeeps(r, id);
  }

  lemma {:induction false} PendingKeeps(r: Registry, ids: seq<string>, sessionId: string, fails: set<string>)
    requires Sound(r) && forall id :: id in ids ==> id in r.buffers
    ensures var b := Pending(r, ids, sessionId, fails);
            && Sound(b.registry) && b.registry.order == r.order && r.atDaemon <= b.registry.atDaemon
  {
    if ids != [] {
      PendingKeeps(r, ids[..|ids| - 1], sessionId, fails);
    }
  }

  /** The batch registered this id: it needed it, and now its print is current. */
  ghost predicate RegisteredNow(r: Registry, b: Batch, sessionId: string, id: string) {
    && id in r.buffers && id in b.registry.buffers
    && !UpToDate(r, id, sessionId) && UpToDate(b.registry, id, sessionId) && id in b.registry.registered
  }

  ghost predicate SameEntry(r: Registry, r': Registry, id: string) {
    && (id in r'.registered <==> id in r.registered)
    && (id in r'.prints <==> id in r.prints)
    && (id in r.prints && id in r'.prints ==> r'.prints[id] == r.prints[id])
  }

  /**
    A batch registers only listed ids that were not up to date, leaves all others, and if nothing
    fails misses none.
   */
  lemma {:induction false} PendingTouches(r: Registry, ids: seq<string>, sessionId: string, fails: set<string>,
                                          id: string)
    requires NoRepeats(ids) && forall x :: x in ids ==> x in r.buffers
    ensures var b := Pending(r, ids, sessionId, fails);
            && (id in b.now ==> id in ids && id !in fails && RegisteredNow(r, b, sessionId, id))
            && (id !in b.now ==> SameEntry(r, b.registry, id) && (id in b.registry.atDaemon <==> id in r.atDaemon))
            && (!b.failed && id in ids ==> UpToDate(b.registry, id, sessionId))
  {
    if ids != [] {
      var (init, last) := (ids[..|ids| - 1], ids[|ids| - 1]);
      assert ids == init + [last];
      PendingTouches(r, init, sessionId, fails, id);
      PendingTouches(r, init, sessionId, fails, last);
      assert last !in init;
    }
  }

  lemma {:induction false} CleanAllKeeps(r: Registry, ids: seq<string>, daemonFails: set<string>)
    requires Sound(r)
    ensures Sound(AllCleanedUp(r, ids, daemonFails))
    ensures r.owned <= r.buffers.Keys ==>
              AllCleanedUp(r, ids, daemonFails).owned <= AllCleanedUp(r, ids, daemonFails).buffers.Keys
    decreases |ids|
  {
    hide Sound, CleanedUp;
    if ids != [] {
      CleanKeeps(r, ids[|ids| - 1], daemonFails);
      CleanAllKeeps(CleanedUp(r, ids[|ids| - 1], daemonFails), ids[..|ids| - 1], daemonFails);
    }
  }

  ghost predicate Unknown(r: Registry, id: string) {
    id !in r.buffers && id !in r.registered && id !in r.prints && id !in r.owned && id !in r.order
  }

  ghost predicate SameThroughout(r: Registry, r': Registry, id: string) {
    && SameEntry(r, r', id)
    && (id in r'.buffers <==> id in r.buffers)
    && (id in r.buffers && id in r'.buffers ==> r'.buffers[id] == r.buffers[id])
    && (id in r'.owned <==> id in r.owned) && (id in r'.order <==> id in r.order)
  }

  lemma CleanTouches(r: Registry, x: string, daemonFails: set<string>, id: string)
    ensures if id == x then Unknown(CleanedUp(r, x, daemonFails), id)
            else SameThroughout(r, CleanedUp(r, x, daemonFails), id)
  {
    hide Without;
    WithoutMembers(r.order, x, id);
  }

  lemma CleanIs(r: Registry, id: string, daemonFails: set<string>)
    ensures Unknown(CleanedUp(r, id, daemonFails), id)
    ensures forall x :: x != id ==> SameThroughout(r, CleanedUp(r, id, daemonFails), x)
  {
    hide CleanedUp, SameThroughout;
    CleanTouches(r, id, daemonFails, id);
    forall x | x != id ensures SameThroughout(r, CleanedUp(r, id, daemonFails), x) {
      CleanTouches(r, id, daemonFails, x);
    }
  }

  lemma {:induction false} CleanAllTouches(r: Registry, ids: seq<string>, daemonFails: set<string>, id: string)
    ensures if id in ids then Unknown(AllCleanedUp(r, ids, daemonFails), id)
            else SameThroughout(r, AllCleanedUp(r, ids, daemonFails), id)
    decreases |ids|
  {
    hide CleanedUp;
    if ids != [] {
      var (init, last) := (ids[..|ids| - 1], ids[|ids| - 1]);
      assert ids == init + [last];
      CleanTouches(r, last, daemonFails, id);
      CleanAllTouches(CleanedUp(r, last, daemonFails), init, daemonFails, id);
    }
  }

  /** Registered buffers that are cleaned up are gone from the daemon too, unless it refuses. */
  lemma {:induction false} CleanAllAtDaemon(r: Registry, ids: seq<string>, daemonFails: set<string>, id: string)
    requires id in ids ==> NoRepeats(ids) && id in r.registered && id in r.atDaemon
    ensures id in AllCleanedUp(r, ids, daemonFails).atDaemon <==>
              if id in ids then id in daemonFails else id in r.atDaemon
    decreases |ids|
  {
    hide Without;
    if ids != [] {
      var (init, last) := (ids[..|ids| - 1], ids[|ids| - 1]);
      assert ids == init + [last];
      assert id in ids && id != last ==> id in init;
      assert id in ids && id == last ==> id !in init;
      CleanAllAtDaemon(CleanedUp(r, last, daemonFails), init, daemonFails, id);
    }
  }

  lemma {:induction false} PendingNowIsNew(r: Registry, ids: seq<string>, sessionId: string, fails: set<string>)
    requires NoRepeats(ids) && forall x :: x in ids ==> x in r.buffers
    ensures NoRepeats(Pending(r, ids, sessionId, fails).now)
    ensures forall x :: x in Pending(r, ids, sessionId, fails).now ==> x in ids
  {
    if ids != [] {
      var (init, last) := (ids[..|ids| - 1], ids[|ids| - 1]);
      assert ids == init + [last];
      PendingNowIsNew(r, init, sessionId, fails);
      assert last !in init;
    }
  }

  lemma AfterPendingKeeps(r: Registry, sessionId: string, fails: set<string>, cleanupFails: set<string>)
    requires Sound(r)
    ensures Sound(AfterPending(r, sessionId, fails, cleanupFails))
    ensures var r' := AfterPending(r, sessionId, fails, cleanupFails);
            r.owned <= r.buffers.Keys ==> r'.owned <= r'.buffers.Keys
  {
    hide Pending, AllCleanedUp;
    var b := Pending(r, r.order, sessionId, fails);
    PendingKeeps(r, r.order, sessionId, fails);
    CleanAllKeeps(b.registry, b.now, cleanupFails);
  }

  /**
    A failed batch leaves none of the buffers it registered, known or registered, even when the
    daemon cannot be told, which then still has it; every other buffer is as it was.
   */
  lemma FailedBatchRollsBack(r: Registry, sessionId: string, fails: set<string>, cleanupFails: set<string>, id: string)
    requires Sound(r) && Pending(r, r.order, sessionId, fails).failed
    ensures var (b, r') := (Pending(r, r.order, sessionId, fails), AfterPending(r, sessionId, fails, cleanupFails));
            if id in b.now then Unknown(r', id) && (id in r'.atDaemon <==> id in cleanupFails)
            else SameThroughout(r, r', id) && (id in r'.atDaemon <==> id in r.atDaemon)
  {
    hide Pending, AllCleanedUp;
    var b := Pending(r, r.order, sessionId, fails);
    PendingTouches(r, r.order, sessionId, fails, id);
    PendingKeeps(r, r.order, sessionId, fails);
    PendingNowIsNew(r, r.order, sessionId, fails);
    CleanAllTouches(b.registry, b.now, cleanupFails, id);
    CleanAllAtDaemon(b.registry, b.now, cleanupFails, id);
  }

  /** A batch fails exactly when the daemon refuses some buffer that is not up to date. */
  lemma {:induction false} BatchFailsIff(r: Registry, ids: seq<string>, sessionId: string, fails: set<string>)
    requires NoRepeats(ids) && forall x :: x in ids ==> x in r.buffers
    ensures Pending(r, ids, sessionId, fails).failed
       <==> exists id :: id in ids && id in fails && !UpToDate(r, id, sessionId)
  {
    if ids != [] {
      var (init, last) := (ids[..|ids| - 1], ids[|ids| - 1]);
      assert ids == init + [last];
      BatchFailsIff(r, init, sessionId, fails);
      PendingTouches(r, init, sessionId, fails, last);
      if Pending(r, init, sessionId, fails).failed {
        var id :| id in init && id in fails && !UpToDate(r, id, sessionId);
        assert id in ids;
      }
    }
  }

  /** A batch that succeeds leaves every buffer registered with its current print, at the daemon too. */
  lemma SucceededBatchRegistersAll(r: Registry, sessionId: string, fails: set<string>, cleanupFails: set<string>)
    requires Sound(r) && !Pending(r, r.order, sessionId, fails).failed
    ensures var r' := AfterPending(r, sessionId, fails, cleanupFails);
            && r'.registered == r'.buffers.Keys == r.buffers.Keys && r'.registered <= r'.atDaemon
            && forall id :: id in r'.buffers ==> UpToDate(r', id, sessionId)
  {
    hide Pending, UpToDate;
    PendingKeeps(r, r.order, sessionId, fails);
    var r' := AfterPending(r, sessionId, fails, cleanupFails);
    forall id | id in r'.buffers ensures UpToDate(r', id, sessionId) && id in r'.registered {
      PendingTouches(r, r.order, sessionId, fails, id);
      CurrentIsRegistered(r', id, sessionId);
    }
  }

  lemma CurrentIsRegistered(r: Registry, id: string, sessionId: string)
    requires Sound(r) && id in r.buffers && UpToDate(r, id, sessionId)
    ensures id in r.registered
  {
  }

  /** A buffer whose layout, session and ownership have not changed is not registered again. */
  lemma UnchangedNotReregistered(r: Registry, sessionId: string, fails: set<string>, id: string)
    requires Sound(r) && id in r.buffers && UpToDate(r, id, sessionId)
    ensures id !in Pending(r, r.order, sessionId, fails).now
  {
    PendingTouches(r, r.order, sessionId, fails, id);
  }

  /** So a second batch in the same session has nothing to do and cannot fail. */
  lemma SecondBatchIsIdle(r: Registry, sessionId: string, fails: set<string>, cleanupFails: set<string>,
                          failsAgain: set<string>)
    requires Sound(r) && !Pending(r, r.order, sessionId, fails).failed
    ensures var r' := AfterPending(r, sessionId, fails, cleanupFails);
            && Sound(r') && Pending(r', r'.order, sessionId, failsAgain) == Batch(r', [], false)
  {
    hide Pending, UpToDate, Sound;
    SoundOrder(r);
    PendingKeeps(r, r.order, sessionId, fails);
    SucceededBatchRegistersAll(r, sessionId, fails, cleanupFails);
    var r' := AfterPending(r, sessionId, fails, cleanupFails);
    SoundOrder(r');
    IdleBatch(r', r'.order, sessionId, failsAgain);
  }

  lemma SoundOrder(r: Registry)
    requires Sound(r)
    ensures forall id :: id in r.order ==> id in r.buffers
  {
  }

  lemma {:induction false} IdleBatch(r: Registry, ids: seq<string>, sessionId: string, fails: set<string>)
    requires forall id :: id in ids ==> id in r.buffers
    requires forall id :: id in ids && id in r.buffers ==> UpToDate(r, id, sessionId)
    ensures Pending(r, ids, sessionId, fails) == Batch(r, [], false)
  {
    if ids != [] {
      IdleBatch(r, ids[..|ids| - 1], sessionId, fails);
    }
  }

  // ---------- the class ----------

  class RuntimeSession {
    const jobId: string
    var closed: bool
    var targetGpu: Option<int>
    var sessionId: Option<string>
    var order: seq<string>
    var buffers: map<string, Buffer>
    var registered: set<string>
    var prints: map<string, Print>
    var owned: set<string>
    ghost var atDaemon: set<string>

    ghost function View(): Registry
      reads this
    {
      Registry(order, buffers, registered, prints, owned, atDaemon)
    }

    ghost predicate Valid()
      reads this
    {
      Consistent(View())
    }

    constructor (jobId: string)
      ensures Valid() && this.jobId == jobId && !closed && targetGpu == None && sessionId == None
      ensures View() == Registry([], map[], {}, map[], {}, {})
    {
      this.jobId := jobId;
      closed, targetGpu, sessionId := false, None, None;
      order, buffers, registered, prints, owned := [], map[], {}, map[], {};
      atDaemon := {};
    }

    /** `opens` is the id the daemon gives a new session, None when one of the calls for it fails. */
    method OpenSession(opens: Option<string>) returns (r: Result<string, RegistryError>)
      modifies `sessionId
      ensures closed ==> r == Err(SessionClosed)
      ensures !closed && old(sessionId).Some? ==> r == Ok(old(sessionId).value)
      ensures !closed && old(sessionId) == None ==>
                r == if targetGpu == None || opens == None then Err(OpenFailed) else Ok(opens.value)
      ensures r.Ok? ==> sessionId == Some(r.value)
      ensures r.Err? ==> sessionId == old(sessionId)
    {
      if closed {
        return Err(SessionClosed);
      }
      if sessionId.Some? {
        return Ok(sessionId.value);
      }
      if targetGpu == None || opens == None {
        return Err(OpenFailed);
      }
      sessionId := opens;
      return Ok(opens.value);
    }

    method Forget(id: string)
      modifies this
      ensures View() == Forgotten(old(View()), id)
      ensures closed == old(closed) && targetGpu == old(targetGpu) && sessionId == old(sessionId)
    {
      registered := registered - {id};
      prints := prints - {id};
      order := Without(order, id);
      buffers := buffers - {id};
      owned := owned - {id};
    }

    /** The buffer is forgotten although the daemon may refuse the cleanup. */
    method CleanupBuffer(id: string, daemonFails: set<string>) returns (r: Result<(), RegistryError>)
      requires Sound(View())
      modifies this
      ensures Sound(View()) && (owned <= buffers.Keys <== old(owned <= buffers.Keys))
      ensures closed ==> r == Err(SessionClosed) && View() == old(View())
      ensures !closed ==> View() == CleanedUp(old(View()), id, daemonFails)
      ensures !closed ==> r == if id in old(registered) && id in daemonFails then Err(CleanupFailed) else Ok(())
      ensures !closed ==> Unknown(View(), id)
      ensures !closed ==> forall x :: x in atDaemon <==>
                x in old(atDaemon) && (x == id && id in old(registered) ==> id in daemonFails)
      ensures !closed ==> forall x :: x != id ==> SameThroughout(old(View()), View(), x)
      ensures closed == old(closed) && targetGpu == old(targetGpu) && sessionId == old(sessionId)
    {
      hide Sound, Without;
      if closed {
        return Err(SessionClosed);
      }
      CleanKeeps(View(), id, daemonFails);
      CleanIs(View(), id, daemonFails);
      var told := id in registered && id !in daemonFails;
      var refused := id in registered && id in daemonFails;
      Forget(id);
      if told {
        atDaemon := atDaemon - {id};
      }
      return if refused then Err(CleanupFailed) else Ok(());
    }

    /** One batch over the buffers in dictionary order, rolled back when a daemon call fails. */
    method RegisterPendingBuffers(fails: set<string>, cleanupFails: set<string>) returns (r: Result<(), RegistryError>)
      requires Sound(View()) && !closed && sessionId.Some?
      modifies this
      ensures Sound(View()) && (owned <= buffers.Keys <== old(owned <= buffers.Keys))
      ensures closed == old(closed) && targetGpu == old(targetGpu) && sessionId == old(sessionId)
      ensures View() == AfterPending(old(View()), sessionId.value, fails, cleanupFails)
      ensures r == if Pending(old(View()), old(order), sessionId.value, fails).failed then Err(RegistrationFailed)
                   else Ok(())
    {
      hide AllCleanedUp, Sound, UpToDate, Pending;
      var session := sessionId.value;
      ghost var before := View();
      AfterPendingKeeps(before, session, fails, cleanupFails);
      SoundOrder(before);
      var snapshot := order;
      var now: seq<string> := [];
      NothingPending(before, session, fails);
      for i := 0 to |snapshot|
        invariant closed == old(closed) && targetGpu == old(targetGpu) && sessionId == old(sessionId)
        invariant Pending(before, snapshot[..i], session, fails) == Batch(View(), now, false)
      {
        var id := snapshot[i];
        assert id in before.order;
        PendingNext(before, snapshot, i, session, fails);
        var current := Print(buffers[id].layout, session, id in owned);
        CurrentOrNot(View(), id, session);
        if id in prints && prints[id] == current {
          continue;
        }
        if id in fails {
          FailureSticks(before, snapshot, i + 1, session, fails);
          PendingKeeps(before, snapshot[..i], session, fails);
          RollBack(now, cleanupFails);
          return Err(RegistrationFailed);
        }
        now := now + [id];
        registered := registered + {id};
        prints := prints[id := current];
        atDaemon := atDaemon + {id};
      }
      assert snapshot[..|snapshot|] == snapshot;
      return Ok(());
    }

    /** Cleanup errors are swallowed here. */
    method RollBack(now: seq<string>, cleanupFails: set<string>)
      requires Sound(View()) && !closed
      modifies this
      ensures View() == AllCleanedUp(old(View()), now, cleanupFails)
      ensures closed == old(closed) && targetGpu == old(targetGpu) && sessionId == old(sessionId)
    {
      hide Sound, CleanedUp;
      assert now[..|now|] == now;
      for i := |now| downto 0
        invariant Sound(View())
        invariant AllCleanedUp(View(), now[..i], cleanupFails) == AllCleanedUp(old(View()), now, cleanupFails)
        invariant closed == old(closed) && targetGpu == old(targetGpu) && sessionId == old(sessionId)
      {
        assert now[..i + 1][..i] == now[..i];
        var ignored := CleanupBuffer(now[i], cleanupFails);
      }
    }

    /** Undoing an assignment: the previous buffer of this id comes back, a new id goes. */
    method Restore(b: Buffer, existing: Option<Buffer>)
      requires Sound(View()) && (existing.Some? ==> existing.value.id == b.id)
      requires existing == None ==> b.id !in registered
      modifies `order, `buffers
      ensures Sound(View())
      ensures View() == Restored(old(View()), b.id, existing)
    {
      hide Sound, Without;
      if existing == None {
        WithoutBufferKeeps(View(), b.id);
        order := Without(order, b.id);
        buffers := buffers - {b.id};
      } else {
        WithBufferKeeps(View(), existing.value);
        order := if b.id in order then order else order + [b.id];
        buffers := buffers[b.id := existing.value];
      }
    }

    /** Opening the session and registering what is pending; `opens` as for OpenSession. */
    method Publish(opens: Option<string>, fails: set<string>, cleanupFails: set<string>)
      returns (r: Result<(), RegistryError>)
      requires Sound(View()) && !closed
      modifies this
      ensures Sound(View()) && (owned <= buffers.Keys <== old(owned <= buffers.Keys))
      ensures !closed && targetGpu == old(targetGpu)
      ensures old(sessionId) == None && (targetGpu == None || opens == None) ==>
                r == Err(OpenFailed) && View() == old(View()) && sessionId == None
      ensures old(sessionId).Some? || (targetGpu.Some? && opens.Some?) ==>
                && sessionId == (if old(sessionId).Some? then old(sessionId) else opens)
                && BatchRan(old(View()), View(), sessionId, fails, cleanupFails, r)
      ensures r.Ok? ==> sessionId.Some? && AllCurrent(View(), sessionId.value)
      ensures r.Ok? ==> buffers == old(buffers) && owned == old(owned)
      ensures owned <= old(owned)
      ensures forall id :: id !in old(registered) && r.Err? ==> id !in registered
    {
      hide Sound, AfterPending, Pending, UpToDate;
      ghost var before := View();
      var session := OpenSession(opens);
      if session.Err? {
        return Err(session.error);
      }
      SoundOrder(before);
      r := RegisterPendingBuffers(fails, cleanupFails);
      PublishedOrNot(before, session.value, fails, cleanupFails);
    }

    /** On failure the registry knows this id as before, and every other entry stays consistent. */
    method RegisterBuffer(b: Buffer, backingValid: bool, opens: Option<string>, fails: set<string>,
                          cleanupFails: set<string>)
      returns (r: Result<(), RegistryError>)
      requires Sound(View()) && owned - {b.id} <= buffers.Keys
      modifies this
      ensures Sound(View()) && closed == old(closed) && owned <= old(owned)
      ensures closed ==> r == Err(SessionClosed) && View() == old(View())
      ensures !closed && !backingValid ==> r == Err(InvalidBacking) && View() == old(View())
      ensures !closed && backingValid && b.jobId != jobId ==> r == Err(WrongJob) && View() == old(View())
      ensures !closed && backingValid && b.jobId == jobId && InUse(old(View()), b) ==>
                r == Err(OwnedIdInUse) && View() == old(View()) && targetGpu == old(targetGpu)
      ensures !Admits(old(View()), closed, jobId, b, backingValid) ==>
                targetGpu == old(targetGpu) && sessionId == old(sessionId)
      ensures Admits(old(View()), closed, jobId, b, backingValid) && OtherGpu(old(targetGpu), b) ==>
                && r == Err(WrongGpu) && View() == old(View())
                && targetGpu == old(targetGpu) && sessionId == old(sessionId)
      ensures Admits(old(View()), closed, jobId, b, backingValid) && !OtherGpu(old(targetGpu), b) ==>
                targetGpu == if b.device.Some? then b.device else old(targetGpu)
      ensures Admits(old(View()), closed, jobId, b, backingValid) && old(targetGpu) == None && b.device == None ==>
                r == Ok(()) && View() == WithBuffer(old(View()), b) && sessionId == old(sessionId)
      ensures Admits(old(View()), closed, jobId, b, backingValid) && !OtherGpu(old(targetGpu), b)
              && targetGpu.Some? && old(sessionId) == None && opens == None ==>
                && r == Err(OpenFailed) && sessionId == None
                && View() == Restored(WithBuffer(old(View()), b), b.id, Known(old(View()), b.id))
      ensures Admits(old(View()), closed, jobId, b, backingValid) && !OtherGpu(old(targetGpu), b)
              && targetGpu.Some? && (old(sessionId).Some? || opens.Some?) ==>
                && sessionId == (if old(sessionId).Some? then old(sessionId) else opens)
                && RegistrationRan(old(View()), View(), b, sessionId, fails, cleanupFails, r)
      ensures r.Ok? && b.device.Some? ==> sessionId.Some? && b.id in registered && b.id in atDaemon
      ensures r.Ok? ==> owned == old(owned) && owned <= buffers.Keys && buffers == old(buffers)[b.id := b]
      ensures r.Ok? && targetGpu.Some? ==> sessionId.Some? && AllCurrent(View(), sessionId.value)
      ensures r.Ok? && targetGpu == None ==> View() == WithBuffer(old(View()), b)
      ensures r.Err? ==> (b.id in buffers <==> b.id in old(buffers)) && owned - {b.id} <= buffers.Keys
      ensures r.Err? && b.id in old(buffers) ==> b.id in buffers && buffers[b.id] == old(buffers)[b.id]
    {
      hide Sound, AllCurrent, BatchRan, Pending, AfterPending, WithBuffer, WithoutBuffer;
      if closed {
        return Err(SessionClosed);
      }
      if !backingValid {
        return Err(InvalidBacking);
      }
      if b.jobId != jobId {
        return Err(WrongJob);
      }
      var existing := if b.id in buffers then Some(buffers[b.id]) else None;
      KnownBuffer(View(), b.id);
      if existing.Some? && existing.value.identity != b.identity && b.id in owned {
        return Err(OwnedIdInUse);
      }
      if b.device.Some? {
        if targetGpu.Some? && targetGpu != b.device {
          return Err(WrongGpu);
        }
        targetGpu := b.device;
      }
      if targetGpu == None {
        WithBufferKeeps(View(), b);
        WithBufferHas(View(), b);
        Insert(b);
        return Ok(());
      }
      r := EnterAndPublish(b, opens, fails, cleanupFails);
    }

    /** The tail of a registration once a GPU is bound: insert, publish, and put the old buffer back on failure. */
    method EnterAndPublish(b: Buffer, opens: Option<string>, fails: set<string>, cleanupFails: set<string>)
      returns (r: Result<(), RegistryError>)
      requires Sound(View()) && owned - {b.id} <= buffers.Keys && !closed && targetGpu.Some?
      modifies this
      ensures Sound(View()) && !closed && targetGpu == old(targetGpu) && owned <= old(owned)
      ensures old(sessionId) == None && opens == None ==>
                && r == Err(OpenFailed) && sessionId == None
                && View() == Restored(WithBuffer(old(View()), b), b.id, Known(old(View()), b.id))
      ensures old(sessionId).Some? || opens.Some? ==>
                && sessionId == (if old(sessionId).Some? then old(sessionId) else opens)
                && RegistrationRan(old(View()), View(), b, sessionId, fails, cleanupFails, r)
      ensures r.Ok? ==> sessionId.Some? && AllCurrent(View(), sessionId.value) && b.id in registered && b.id in atDaemon
      ensures r.Ok? ==> owned == old(owned) && owned <= buffers.Keys && buffers == old(buffers)[b.id := b]
      ensures r.Err? ==> (b.id in buffers <==> b.id in old(buffers)) && owned - {b.id} <= buffers.Keys
      ensures r.Err? && b.id in old(buffers) ==> b.id in buffers && buffers[b.id] == old(buffers)[b.id]
    {
      hide Sound, AllCurrent, Pending, AfterPending, WithBuffer, WithoutBuffer, Restored;
      ghost var before := View();
      var existing := if b.id in buffers then Some(buffers[b.id]) else None;
      KnownBuffer(View(), b.id);
      WithBufferKeeps(View(), b);
      WithBufferHas(View(), b);
      Insert(b);
      r := Publish(opens, fails, cleanupFails);
      CurrentIsAtDaemon(View(), sessionId, b.id);
      if r.Err? {
        KnownBuffer(View(), b.id);
        RestoredHas(View(), b.id, existing);
        Restore(b, existing);
      }
    }

    method Insert(b: Buffer)
      modifies `order, `buffers
      ensures View() == WithBuffer(old(View()), b)
      ensures buffers == old(buffers)[b.id := b]
    {
      order := if b.id in order then order else order + [b.id];
      buffers := buffers[b.id := b];
    }

    /** A runtime-owned id enters the owned set first and leaves it again when the registration fails. */
    method RegisterCpuBuffer(b: Buffer, runtimeOwned: bool, backingValid: bool, opens: Option<string>,
                             fails: set<string>, cleanupFails: set<string>)
      returns (r: Result<(), RegistryError>)
      requires Valid()
      modifies this
      ensures Valid() && closed == old(closed)
      ensures closed ==> r == Err(SessionClosed) && View() == old(View())
      ensures !closed && runtimeOwned && !b.owner ==> r == Err(NotOwner) && View() == old(View())
      ensures !closed && (runtimeOwned ==> b.owner) && !backingValid ==>
                r == Err(InvalidBacking) && View() == old(View())
      ensures !closed && (runtimeOwned ==> b.owner) && backingValid && b.jobId != jobId ==>
                r == Err(WrongJob) && View() == old(View())
      ensures r.Err? && b.id !in old(owned) ==> b.id !in owned
      ensures Admits(Owning(old(View()), b.id, runtimeOwned), closed, jobId, b, backingValid)
              && (runtimeOwned ==> b.owner) && !OtherGpu(old(targetGpu), b)
              && targetGpu.Some? && (old(sessionId).Some? || opens.Some?) ==>
                exists after :: RegistrationRan(Owning(old(View()), b.id, runtimeOwned), after, b, sessionId, fails,
                                                cleanupFails, r)
                                && View() == if r.Err? && b.id !in old(owned) then after.(owned := after.owned - {b.id})
                                             else after
      ensures r.Ok? && b.device.Some? ==>
                targetGpu == b.device && sessionId.Some? && b.id in registered && b.id in atDaemon
      ensures !closed && (runtimeOwned ==> b.owner) && backingValid && b.jobId == jobId
              && b.id in old(buffers) && old(buffers)[b.id].identity != b.identity
              && (runtimeOwned || b.id in old(owned)) ==>
                r == Err(OwnedIdInUse) && View() == old(View())
      ensures r.Ok? ==>
                buffers == old(buffers)[b.id := b] && owned == old(owned) + (if runtimeOwned then {b.id} else {})
      ensures r.Ok? && targetGpu.Some? ==> sessionId.Some? && AllCurrent(View(), sessionId.value)
      ensures r.Err? ==> (b.id in buffers <==> b.id in old(buffers)) && owned <= old(owned)
      ensures r.Err? && b.id in old(buffers) ==> b.id in buffers && buffers[b.id] == old(buffers)[b.id]
    {
      hide Sound, AllCurrent, WithBuffer;
      if closed {
        return Err(SessionClosed);
      }
      if runtimeOwned && !b.owner {
        return Err(NotOwner);
      }
      ghost var before := View();
      OwnedApart(before, if runtimeOwned then owned + {b.id} else owned);
      var ownedAdded := runtimeOwned && b.id !in owned;
      if runtimeOwned {
        owned := owned + {b.id};
      }
      r := RegisterBuffer(b, backingValid, opens, fails, cleanupFails);
      if r.Err? && ownedAdded {
        OwnedApart(View(), owned - {b.id});
        owned := owned - {b.id};
      }
      assert r.Err? && !runtimeOwned && b.id !in before.owned ==> b.id !in owned;
    }

    /** A buffer that a failed transfer context brought in is forgotten, whatever the daemon says. */
    method RollbackContextBuffer(id: string, wasRegistered: bool, daemonFails: set<string>)
      requires Valid()
      modifies this
      ensures Valid() && closed == old(closed) && sessionId == old(sessionId) && targetGpu == old(targetGpu)
      ensures id == [] || wasRegistered ==> View() == old(View())
      ensures id != [] && !wasRegistered ==> View() == Forgotten(old(View()), id).(atDaemon := atDaemon)
      ensures id != [] && !wasRegistered ==> forall x :: x in atDaemon <==>
                && x in old(atDaemon)
                && (x == id && sessionId.Some? && !closed && id in old(registered) ==> id in daemonFails)
    {
      hide Sound, Without;
      if id == [] || wasRegistered {
        return;
      }
      ghost var before := View();
      ForgetKeeps(before, id);
      if sessionId.Some? && id in registered {
        var cleaned := CleanupBuffer(id, daemonFails);
        if cleaned.Ok? {
          return;
        }
      }
      ForgottenTwice(before, id, View());
      Forget(id);
    }

    /** Closing the session cleans up everything registered, even when every daemon call fails. */
    method CleanupForClose(daemonFails: set<string>)
      requires Valid() && !closed
      modifies this
      ensures Valid() && registered == {} && prints == map[]
      ensures closed == old(closed) && sessionId == old(sessionId) && targetGpu == old(targetGpu)
      ensures forall id :: id in buffers <==> id in old(buffers) && id !in old(registered)
      ensures forall id :: id in atDaemon <==> id in old(atDaemon) && (id in old(registered) ==> id in daemonFails)
    {
      hide Sound, Without;
      var rest := registered;
      while rest != {}
        invariant Valid() && !closed && registered == rest <= old(registered)
        invariant sessionId == old(sessionId) && targetGpu == old(targetGpu)
        invariant forall id :: id in buffers <==> id in old(buffers) && (id in old(registered) ==> id in rest)
        invariant forall id :: id in atDaemon <==>
                    id in old(atDaemon) && (id in old(registered) ==> id in rest || id in daemonFails)
        decreases |rest|
      {
        var id :| id in rest;
        var ignored := CleanupBuffer(id, daemonFails);
        rest := rest - {id};
      }
      NothingRegistered(View());
    }
  }

  /** A batch over all buffers ran in this session: its outcome, and what it left or rolled back. */
  ghost predicate BatchRan(before: Registry, after: Registry, sessionId: Option<string>, fails: set<string>,
                           cleanupFails: set<string>, r: Result<(), RegistryError>)
  {
    && sessionId.Some? && Sound(before)
    && after == AfterPending(before, sessionId.value, fails, cleanupFails)
    && r == if Pending(before, before.order, sessionId.value, fails).failed then Err(RegistrationFailed) else Ok(())
  }

  /** The session takes the buffer in: it is open, the backing is valid, the job is right and the id is free. */
  predicate Admits(r: Registry, closed: bool, jobId: string, b: Buffer, backingValid: bool) {
    !closed && backingValid && b.jobId == jobId && !InUse(r, b)
  }

  /** A buffer of another GPU than the one the session is bound to. */
  predicate OtherGpu(targetGpu: Option<int>, b: Buffer) { b.device.Some? && targetGpu.Some? && targetGpu != b.device }

  /** The registry while a runtime-owned buffer is being registered. */
  function Owning(r: Registry, id: string, runtimeOwned: bool): Registry {
    if runtimeOwned then r.(owned := r.owned + {id}) else r
  }

  /** What a failed registration leaves: the previous buffer of this id, or none. */
  function Restored(r: Registry, id: string, existing: Option<Buffer>): Registry {
    if existing.Some? then WithBuffer(r, existing.value) else WithoutBuffer(r, id)
  }

  function Known(r: Registry, id: string): Option<Buffer> { if id in r.buffers then Some(r.buffers[id]) else None }

  /** Every known buffer is registered, with its current print. */
  ghost predicate AllCurrent(r: Registry, sessionId: string) {
    r.registered == r.buffers.Keys && forall id :: id in r.buffers ==> UpToDate(r, id, sessionId)
  }

  predicate InUse(r: Registry, b: Buffer) {
    b.id in r.buffers && r.buffers[b.id].identity != b.identity && b.id in r.owned
  }

  /** A batch over the buffers with b among them ran; when it failed, b made way for the previous buffer of its id. */
  ghost predicate RegistrationRan(before: Registry, after: Registry, b: Buffer, sessionId: Option<string>,
                                  fails: set<string>, cleanupFails: set<string>, r: Result<(), RegistryError>)
  {
    && sessionId.Some? && Sound(WithBuffer(before, b))
    && var full := WithBuffer(before, b);
       var done := AfterPending(full, sessionId.value, fails, cleanupFails);
       if Pending(full, full.order, sessionId.value, fails).failed then
         r == Err(RegistrationFailed) && after == Restored(done, b.id, Known(before, b.id))
       else r == Ok(()) && after == done
  }

  lemma WithBufferHas(r: Registry, b: Buffer)
    ensures WithBuffer(r, b).buffers == r.buffers[b.id := b] && WithBuffer(r, b).owned == r.owned
    ensures WithBuffer(r, b).registered == r.registered
  {
  }

  lemma RestoredHas(r: Registry, id: string, existing: Option<Buffer>)
    requires existing.Some? ==> existing.value.id == id
    ensures var r' := Restored(r, id, existing);
            && r'.owned == r.owned && (id in r'.buffers <==> existing.Some?)
            && (existing.Some? ==> r'.buffers[id] == existing.value)
            && (forall x :: x != id ==> (x in r'.buffers <==> x in r.buffers))
  {
  }

  lemma CurrentIsAtDaemon(r: Registry, sessionId: Option<string>, id: string)
    requires Sound(r)
    ensures sessionId.Some? && AllCurrent(r, sessionId.value) && id in r.buffers ==>
              id in r.registered && id in r.atDaemon
  {
  }

  lemma WithBufferKeeps(r: Registry, b: Buffer)
    requires Sound(r)
    ensures Sound(WithBuffer(r, b))
  {
  }

  lemma WithoutBufferKeeps(r: Registry, id: string)
    requires Sound(r) && id !in r.registered
    ensures Sound(WithoutBuffer(r, id))
  {
    hide Without;
    WithoutNoRepeats(r.order, id);
    forall x ensures x in Without(r.order, id) <==> x in r.order && x != id {
      WithoutMembers(r.order, id, x);
    }
  }

  lemma KnownBuffer(r: Registry, id: string)
    requires Sound(r)
    ensures id in r.buffers ==> r.buffers[id].id == id
    ensures id !in r.buffers ==> id !in r.registered
  {
  }

  lemma OwnedApart(r: Registry, owned: set<string>)
    requires Sound(r)
    ensures Sound(r.(owned := owned))
  {
  }

  lemma NothingRegistered(r: Registry)
    requires Sound(r) && r.registered == {}
    ensures r.prints == map[]
  {
  }

  lemma ForgottenTwice(r: Registry, id: string, r': Registry)
    requires Sound(r) && (r' == r || r' == Forgotten(r, id))
    ensures Sound(r') && Forgotten(r', id) == Forgotten(r, id)
  {
    hide Without;
    ForgetKeeps(r, id);
    WithoutMembers(r.order, id, id);
    WithoutAbsent(Without(r.order, id), id);
  }

  lemma PublishedOrNot(r: Registry, sessionId: string, fails: set<string>, cleanupFails: set<string>)
    requires Sound(r)
    ensures forall id :: id in r.order ==> id in r.buffers
    ensures var (b, r') := (Pending(r, r.order, sessionId, fails), AfterPending(r, sessionId, fails, cleanupFails));
            && r'.owned <= r.owned
            && (!b.failed ==> AllCurrent(r', sessionId) && r'.buffers == r.buffers && r'.owned == r.owned)
            && (b.failed ==> forall id :: id !in r.registered ==> id !in r'.registered)
  {
    hide Pending, Sound, AfterPending;
    SoundOrder(r);
    var (b, r') := (Pending(r, r.order, sessionId, fails), AfterPending(r, sessionId, fails, cleanupFails));
    if b.failed {
      forall id ensures (id !in r.registered ==> id !in r'.registered) && (id in r'.owned ==> id in r.owned) {
        FailedBatchRollsBack(r, sessionId, fails, cleanupFails, id);
      }
    } else {
      SucceededBatchRegistersAll(r, sessionId, fails, cleanupFails);
      SucceededKeeps(r, sessionId, fails, cleanupFails);
    }
  }

  lemma SucceededKeeps(r: Registry, sessionId: string, fails: set<string>, cleanupFails: set<string>)
    requires Sound(r) && !Pending(r, r.order, sessionId, fails).failed
    ensures AfterPending(r, sessionId, fails, cleanupFails).buffers == r.buffers
    ensures AfterPending(r, sessionId, fails, cleanupFails).owned == r.owned
  {
    hide Pending;
  }

  lemma CurrentOrNot(r: Registry, id: string, sessionId: string)
    requires id in r.buffers
    ensures UpToDate(r, id, sessionId)
       <==> id in r.prints && r.prints[id] == Print(r.buffers[id].layout, sessionId, id in r.owned)
  {
  }

  lemma NothingPending(r: Registry, sessionId: string, fails: set<string>)
    ensures Pending(r, [], sessionId, fails) == Batch(r, [], false)
  {
  }

  lemma PendingNext(r: Registry, ids: seq<string>, i: nat, sessionId: string, fails: set<string>)
    requires i < |ids| && forall id :: id in ids ==> id in r.buffers
    ensures var (b, id) := (Pending(r, ids[..i], sessionId, fails), ids[i]);
            Pending(r, ids[..i + 1], sessionId, fails)
              == if b.failed || UpToDate(b.registry, id, sessionId) then b
                 else if id in fails then b.(failed := true)
                 else Batch(Registered(b.registry, id, sessionId), b.now + [id], false)
  {
    assert ids[..i + 1][..i] == ids[..i];
  }

  lemma {:induction false} FailureSticks(r: Registry, ids: seq<string>, n: nat, sessionId: string, fails: set<string>)
    requires forall id :: id in ids ==> id in r.buffers
    requires n <= |ids| && Pending(r, ids[..n], sessionId, fails).failed
    ensures Pending(r, ids, sessionId, fails) == Pending(r, ids[..n], sessionId, fails)
  {
    if n == |ids| {
      assert ids[..n] == ids;
    } else {
      assert ids[..|ids| - 1][..n] == ids[..n];
      FailureSticks(r, ids[..|ids| - 1], n, sessionId, fails);
    }
  }
}
