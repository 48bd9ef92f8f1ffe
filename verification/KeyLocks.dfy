/**
  Concurrent calls for direct runtimes: double-checked lookup with reference-counted locks
  per key. Each action is one section of the call that runs atomically (under the cache
  lock, or taking or releasing the key lock, or the backend's create, which may fail).
  Any number of threads interleave in any order.
 */
module KeyLocks {
  import opened Common
  import opened Recency
  import opened RuntimeCaches

  type Thread = nat

  datatype Phase =
    | Waiting                      // a reference to the key lock is held, the lock is not
    | Locked                       // the key lock is held, the cache not yet rechecked
    | Creating                     // rechecked; the backend is creating a runtime
    | Created(runtime: Runtime)    // created, not yet inserted
    | Unlocking                    // the result is known, the key lock still held
    | Dropping                     // the key lock is released, the reference not yet dropped

  datatype Call = Call(key: Key, lock: LockId, phase: Phase)

  datatype State = State(
    cache: Cache, table: LockTable,
    holders: map<LockId, Thread>,   // lock objects currently held
    calls: map<Thread, Call>,       // calls in flight
    nextLock: LockId, nextRuntime: Runtime,
    touches: seq<Key>, evicted: seq<Key>, insertions: nat,
    created: nat,                   // runtimes created for caching
    wasted: nat)                    // of these, dropped because another call was faster

  datatype Action =
    | Lookup(t: Thread, key: Key)
    | TakeLock(t: Thread)
    | Recheck(t: Thread)
    | Create(t: Thread, ok: bool)
    | Insert(t: Thread)
    | Unlock(t: Thread)
    | Drop(t: Thread)
    | Close

  const START := State(EMPTY_CACHE, EMPTY_TABLE, map[], map[], 0, 0, [], [], 0, 0, 0)

  predicate Holding(phase: Phase) { !phase.Waiting? && !phase.Dropping? }

  function Step(s: State, t: Thread, phase: Phase): State
    requires t in s.calls
  {
    s.(calls := s.calls[t := s.calls[t].(phase := phase)])
  }

  function Touch(s: State, key: Key): State {
    s.(cache := Touched(s.cache, key), touches := s.touches + [key])
  }

  predicate Enabled(s: State, a: Action) {
    match a
    case Lookup(t, _) => t !in s.calls
    case TakeLock(t) => t in s.calls && s.calls[t].phase == Waiting && s.calls[t].lock !in s.holders
    case Recheck(t) => t in s.calls && s.calls[t].phase == Locked
    case Create(t, _) => t in s.calls && s.calls[t].phase == Creating
    case Insert(t) => t in s.calls && s.calls[t].phase.Created?
    case Unlock(t) => t in s.calls && s.calls[t].phase == Unlocking
    case Drop(t) => t in s.calls && s.calls[t].phase == Dropping
    case Close => true
  }

  function Apply(s: State, a: Action, limit: int): State
    requires Enabled(s, a)
  {
    match a
    case Lookup(t, key) =>
      if key in s.cache.runtimes then Touch(s, key)
      else
        s.(table := Acquired(s.table, key, s.nextLock), nextLock := s.nextLock + 1,
           calls := s.calls[t := Call(key, AcquiredLock(s.table, key, s.nextLock), Waiting)])
    case TakeLock(t) => Step(s, t, Locked).(holders := s.holders[s.calls[t].lock := t])
    case Recheck(t) =>
      if s.calls[t].key in s.cache.runtimes then Step(Touch(s, s.calls[t].key), t, Unlocking)
      else Step(s, t, Creating)
    case Create(t, ok) =>
      if !ok || limit == 0 then Step(s, t, Unlocking)
      else Step(s, t, Created(s.nextRuntime)).(nextRuntime := s.nextRuntime + 1, created := s.created + 1)
    case Insert(t) =>
      var key := s.calls[t].key;
      if key in s.cache.runtimes then Step(Touch(s, key), t, Unlocking).(wasted := s.wasted + 1)
      else
        Step(s, t, Unlocking).(
          cache := Inserted(s.cache, key, s.calls[t].phase.runtime, limit), touches := s.touches + [key],
          evicted := s.evicted + EvictedBy(s.cache, limit), insertions := s.insertions + 1)
    case Unlock(t) => Step(s, t, Dropping).(holders := s.holders - {s.calls[t].lock})
    case Drop(t) => s.(table := Released(s.table, s.calls[t].key), calls := s.calls - {t})
    case Close =>
      s.(cache := s.cache.(keys := [], runtimes := map[]), table := EMPTY_TABLE, touches := [],
         insertions := s.cache.evictions, created := s.cache.evictions)
  }

  // ---------- the invariant ----------

  function Referrers(calls: map<Thread, Call>, key: Key): set<Thread> {
    set t | t in calls && calls[t].key == key
  }

  function InFlight(calls: map<Thread, Call>): set<Thread> {
    set t | t in calls && calls[t].phase.Created?
  }

  /** A key has a lock exactly while calls refer to it, and the count is the number of these calls. */
  ghost predicate Counted(s: State) {
    && s.table.locks.Keys == s.table.users.Keys
    && (forall k :: k in s.table.users <==> Referrers(s.calls, k) != {})
    && (forall k :: k in s.table.users ==> s.table.users[k] == |Referrers(s.calls, k)|)
  }

  /** Every call uses the lock object its key has in the table; distinct keys have distinct locks. */
  ghost predicate Shared(s: State) {
    && (forall t :: t in s.calls ==>
          s.calls[t].key in s.table.locks && s.calls[t].lock == s.table.locks[s.calls[t].key])
    && (forall k :: k in s.table.locks ==> s.table.locks[k] < s.nextLock)
    && (forall j, k :: j in s.table.locks && k in s.table.locks && s.table.locks[j] == s.table.locks[k] ==> j == k)
  }

  /** The held locks are exactly those of the calls in a holding phase. */
  ghost predicate Held(s: State) {
    && (forall l :: l in s.holders ==>
          s.holders[l] in s.calls && s.calls[s.holders[l]].lock == l && Holding(s.calls[s.holders[l]].phase))
    && (forall t :: t in s.calls && Holding(s.calls[t].phase) ==>
          s.calls[t].lock in s.holders && s.holders[s.calls[t].lock] == t)
  }

  /** While a runtime is being created for a key, the key is not cached. */
  ghost predicate Awaited(s: State) {
    forall t :: t in s.calls && (s.calls[t].phase == Creating || s.calls[t].phase.Created?) ==>
      s.calls[t].key !in s.cache.runtimes
  }

  /** The cache is plain LRU, and every runtime created for caching was inserted or is about to be. */
  ghost predicate Accounted(s: State, limit: int) {
    && Refines(s.cache, s.touches, s.evicted, s.insertions, limit)
    && s.created == s.insertions + |InFlight(s.calls)|
    && s.wasted == 0
    && (limit == 0 ==> InFlight(s.calls) == {})
  }

  ghost predicate Inv(s: State, limit: int) {
    Counted(s) && Shared(s) && Held(s) && Awaited(s) && Accounted(s, limit)
  }

  lemma StartInv(limit: int)
    ensures Inv(START, limit)
  {
    assert InFlight(START.calls) == {};
  }

  // ---------- counting calls ----------

  lemma ReferrersAdded(calls: map<Thread, Call>, t: Thread, c: Call, k: Key)
    requires t !in calls
    ensures Referrers(calls[t := c], k) == Referrers(calls, k) + (if c.key == k then {t} else {})
    ensures t !in Referrers(calls, k)
  {
  }

  lemma ReferrersKept(calls: map<Thread, Call>, t: Thread, phase: Phase, k: Key)
    requires t in calls
    ensures Referrers(calls[t := calls[t].(phase := phase)], k) == Referrers(calls, k)
  {
  }

  lemma ReferrersDropped(calls: map<Thread, Call>, t: Thread, k: Key)
    requires t in calls
    ensures Referrers(calls - {t}, k) == Referrers(calls, k) - {t}
  {
  }

  lemma InFlightStep(calls: map<Thread, Call>, t: Thread, phase: Phase)
    requires t in calls
    ensures var after := InFlight(calls[t := calls[t].(phase := phase)]);
            |after| == |InFlight(calls)| + (if phase.Created? then 1 else 0)
                       - (if calls[t].phase.Created? then 1 else 0)
  {
    var (before, after) := (InFlight(calls), InFlight(calls[t := calls[t].(phase := phase)]));
    assert before - {t} == after - {t};
    assert |before - {t}| == |before| - if t in before then 1 else 0;
    assert |after - {t}| == |after| - if t in after then 1 else 0;
  }

  // ---------- each part is kept ----------

  lemma CountedKept(s: State, a: Action, limit: int)
    requires Enabled(s, a) && !a.Close? && Counted(s)
    ensures Counted(Apply(s, a, limit))
  {
    var s' := Apply(s, a, limit);
    if a.Lookup? {
      if a.key !in s.cache.runtimes {
        AcquireCounts(s, a.t, a.key);
      }
    } else if a.Drop? {
      DropCounts(s, a.t);
    } else {
      forall k ensures Referrers(s'.calls, k) == Referrers(s.calls, k) {
        ReferrersKept(s.calls, a.t, s'.calls[a.t].phase, k);
      }
    }
  }

  lemma AcquireCounts(s: State, t: Thread, key: Key)
    requires t !in s.calls && key !in s.cache.runtimes && Counted(s)
    ensures Counted(Apply(s, Lookup(t, key), 0))
  {
    var s' := Apply(s, Lookup(t, key), 0);
    var c := s'.calls[t];
    forall k
      ensures k in s'.table.users <==> Referrers(s'.calls, k) != {}
      ensures k in s'.table.users ==> s'.table.users[k] == |Referrers(s'.calls, k)|
    {
      ReferrersAdded(s.calls, t, c, k);
      if k == key {
        assert t in Referrers(s'.calls, k);
        assert k !in s.table.users ==> Referrers(s.calls, k) == {};
      }
    }
  }

  lemma DropCounts(s: State, t: Thread)
    requires Enabled(s, Drop(t)) && Counted(s)
    ensures Counted(Apply(s, Drop(t), 0))
  {
    var s' := Apply(s, Drop(t), 0);
    var key := s.calls[t].key;
    assert t in Referrers(s.calls, key);
    forall k
      ensures k in s'.table.users <==> Referrers(s'.calls, k) != {}
      ensures k in s'.table.users ==> s'.table.users[k] == |Referrers(s'.calls, k)|
    {
      ReferrersDropped(s.calls, t, k);
      if k == key {
        assert |Referrers(s'.calls, k)| == |Referrers(s.calls, k)| - 1;
      } else {
        assert t !in Referrers(s.calls, k);
        assert Referrers(s'.calls, k) == Referrers(s.calls, k);
      }
    }
  }

  /** Dropping the last reference removes the lock entry; otherwise somebody else still refers to it. */
  lemma DropKeepsUsedLocks(s: State, t: Thread, u: Thread)
    requires Enabled(s, Drop(t)) && Counted(s) && Shared(s) && u in s.calls && u != t
    ensures s.calls[u].key in Released(s.table, s.calls[t].key).locks
  {
    var key := s.calls[t].key;
    if s.calls[u].key == key {
      var all := Referrers(s.calls, key);
      assert {t, u} <= all;
      assert |all| == |all - {t, u}| + |{t, u}|;
    }
  }

  /** Calls other than lookups and drops only change the phase of a call. */
  ghost predicate SameRefs(s: State, s': State) {
    && s'.table == s.table && s'.nextLock == s.nextLock
    && (forall t :: t in s'.calls <==> t in s.calls)
    && (forall t :: t in s.calls && t in s'.calls ==>
          s'.calls[t].key == s.calls[t].key && s'.calls[t].lock == s.calls[t].lock)
  }

  lemma PhaseOnly(s: State, a: Action, limit: int)
    requires Enabled(s, a) && !a.Lookup? && !a.Drop? && !a.Close?
    ensures SameRefs(s, Apply(s, a, limit))
  {
    hide Inserted, Touched, EvictedBy;
  }

  lemma SameRefsShared(s: State, s': State)
    requires Shared(s) && SameRefs(s, s')
    ensures Shared(s')
  {
  }

  lemma LookupShared(s: State, t: Thread, key: Key, limit: int)
    requires Enabled(s, Lookup(t, key)) && Shared(s)
    ensures Shared(Apply(s, Lookup(t, key), limit))
  {
    hide Touched;
  }

  lemma DropShared(s: State, t: Thread, limit: int)
    requires Enabled(s, Drop(t)) && Counted(s) && Shared(s)
    ensures Shared(Apply(s, Drop(t), limit))
  {
    hide Counted;
    forall u | u in s.calls && u != t ensures s.calls[u].key in Released(s.table, s.calls[t].key).locks {
      DropKeepsUsedLocks(s, t, u);
    }
  }

  lemma SharedKept(s: State, a: Action, limit: int)
    requires Enabled(s, a) && !a.Close? && Counted(s) && Shared(s)
    ensures Shared(Apply(s, a, limit))
  {
    hide Counted, Shared, SameRefs;
    if a.Drop? {
      DropShared(s, a.t, limit);
    } else if a.Lookup? {
      LookupShared(s, a.t, a.key, limit);
    } else {
      PhaseOnly(s, a, limit);
      SameRefsShared(s, Apply(s, a, limit));
    }
  }

  lemma HeldKept(s: State, a: Action, limit: int)
    requires Enabled(s, a) && !a.Close? && Held(s)
    ensures Held(Apply(s, a, limit))
  {
    if a.Unlock? {
      UnlockHeld(s, a.t, limit);
    } else {
      hide Inserted, Touched, EvictedBy, Acquired, Released;
    }
  }

  lemma UnlockHeld(s: State, t: Thread, limit: int)
    requires Enabled(s, Unlock(t)) && Held(s)
    ensures Held(Apply(s, Unlock(t), limit))
  {
    var s' := Apply(s, Unlock(t), limit);
    forall u | u in s'.calls && Holding(s'.calls[u].phase)
      ensures s'.calls[u].lock in s'.holders && s'.holders[s'.calls[u].lock] == u
    {
      assert u != t;
      assert s.holders[s.calls[u].lock] == u && s.holders[s.calls[t].lock] == t;
    }
  }

  /** Single flight: two calls for one key cannot both hold the key lock. */
  lemma OneHolderPerKey(s: State, t: Thread, u: Thread)
    requires Shared(s) && Held(s) && t in s.calls && u in s.calls && s.calls[t].key == s.calls[u].key
    requires Holding(s.calls[t].phase) && Holding(s.calls[u].phase)
    ensures t == u
  {
    assert s.calls[t].lock == s.calls[u].lock;
  }

  lemma {:induction false} TrimmedSubset(c: Cache, limit: int, protected: Key, x: Key)
    ensures x in Trimmed(c, limit, protected).runtimes ==> x in c.runtimes
    decreases |c.keys|
  {
    if !(limit < 0 || |c.keys| <= limit) {
      var i := FirstOther(c.keys, protected, 0);
      if i < |c.keys| {
        TrimmedSubset(Evicted(c, i), limit, protected, x);
      }
    }
  }

  lemma AwaitedKept(s: State, a: Action, limit: int)
    requires Enabled(s, a) && !a.Close? && Shared(s) && Held(s) && Awaited(s)
    ensures Awaited(Apply(s, a, limit))
  {
    hide Counted, Trimmed, Without, EvictedBy, Acquired, Released;
    var s' := Apply(s, a, limit);
    if a.Insert? {
      forall u | u in s'.calls && (s'.calls[u].phase == Creating || s'.calls[u].phase.Created?)
        ensures s'.calls[u].key !in s'.cache.runtimes
      {
        assert u != a.t;
        if s.calls[u].key == s.calls[a.t].key {
          OneHolderPerKey(s, u, a.t);
        }
        TrimmedSubset(Appended(s.cache, s.calls[a.t].key, s.calls[a.t].phase.runtime), limit, s.calls[a.t].key,
                      s.calls[u].key);
      }
    }
  }

  lemma TouchAccounted(s: State, limit: int, key: Key)
    requires Accounted(s, limit) && key in s.cache.runtimes
    ensures Accounted(Touch(s, key), limit)
  {
    hide Touched;
    CachedKeys(s.cache, s.touches, s.evicted, s.insertions, limit, key);
    TouchRefines(s.cache, s.touches, s.evicted, s.insertions, limit, key);
  }

  lemma StepAccounted(s: State, limit: int, t: Thread, phase: Phase)
    requires Accounted(s, limit) && t in s.calls && !phase.Created? && !s.calls[t].phase.Created?
    ensures Accounted(Step(s, t, phase), limit)
  {
    hide Refines;
    InFlightStep(s.calls, t, phase);
  }

  lemma AccountedKept(s: State, a: Action, limit: int)
    requires Enabled(s, a) && !a.Close? && Awaited(s) && Accounted(s, limit)
    ensures Accounted(Apply(s, a, limit), limit)
  {
    hide Refines, Inserted;
    match a {
      case Lookup(t, key) =>
        if key in s.cache.runtimes {
          TouchAccounted(s, limit, key);
        } else {
          assert InFlight(Apply(s, a, limit).calls) == InFlight(s.calls);
        }
      case TakeLock(t) => StepAccounted(s, limit, t, Locked);
      case Recheck(t) =>
        if s.calls[t].key in s.cache.runtimes {
          TouchAccounted(s, limit, s.calls[t].key);
          StepAccounted(Touch(s, s.calls[t].key), limit, t, Unlocking);
        } else {
          StepAccounted(s, limit, t, Creating);
        }
      case Create(t, ok) => InFlightStep(s.calls, t, if !ok || limit == 0 then Unlocking else Created(s.nextRuntime));
      case Insert(t) => InsertAccounted(s, limit, t);
      case Unlock(t) => StepAccounted(s, limit, t, Dropping);
      case Drop(t) => assert InFlight(Apply(s, a, limit).calls) == InFlight(s.calls);
    }
  }

  /** The branch that finds another runtime already inserted is never taken. */
  lemma InsertAccounted(s: State, limit: int, t: Thread)
    requires Enabled(s, Insert(t)) && Awaited(s) && Accounted(s, limit)
    ensures s.calls[t].key !in s.cache.runtimes
    ensures Accounted(Apply(s, Insert(t), limit), limit)
  {
    hide Refines, Inserted;
    var (key, r) := (s.calls[t].key, s.calls[t].phase.runtime);
    assert t in InFlight(s.calls);
    CachedKeys(s.cache, s.touches, s.evicted, s.insertions, limit, key);
    InsertRefines(s.cache, s.touches, s.evicted, s.insertions, limit, key, r);
    InFlightStep(s.calls, t, Unlocking);
  }

  lemma InvKept(s: State, a: Action, limit: int)
    requires Inv(s, limit) && Enabled(s, a) && !a.Close?
    ensures Inv(Apply(s, a, limit), limit)
  {
    hide Counted, Shared, Held, Awaited, Accounted;
    CountedKept(s, a, limit);
    SharedKept(s, a, limit);
    HeldKept(s, a, limit);
    AwaitedKept(s, a, limit);
    AccountedKept(s, a, limit);
  }

  /** Closing keeps the invariant if and only if no call is in flight. */
  lemma CloseKeepsInvIffQuiet(s: State, limit: int)
    requires Inv(s, limit)
    ensures Inv(Apply(s, Close, limit), limit) <==> s.calls == map[]
  {
    var s' := Apply(s, Close, limit);
    if s.calls == map[] {
      assert forall k :: Referrers(s'.calls, k) == {};
      assert InFlight(s'.calls) == {};
      ClosedRefines(s.cache, s.touches, s.evicted, s.insertions, limit);
    } else {
      var t :| t in s.calls;
      assert t in s'.calls && s'.calls[t].key !in s'.table.locks;
    }
  }

  lemma ClosedRefines(c: Cache, touches: seq<Key>, evicted: seq<Key>, insertions: nat, limit: int)
    requires Refines(c, touches, evicted, insertions, limit)
    ensures Refines(c.(keys := [], runtimes := map[]), [], evicted, c.evictions, limit)
  {
  }

  // ---------- whole runs ----------

  /** The state after a run, if every action is enabled when its turn comes. */
  function Run(s: State, actions: seq<Action>, limit: int): Option<State> {
    if actions == [] then Some(s)
    else
      var before := Run(s, actions[..|actions| - 1], limit);
      var a := actions[|actions| - 1];
      if before.Some? && Enabled(before.value, a) then Some(Apply(before.value, a, limit)) else None
  }

  /** The run closes the cache only while no call is in flight. */
  ghost predicate ClosesQuietly(actions: seq<Action>, limit: int) {
    forall i :: 0 <= i < |actions| && actions[i] == Close && Run(START, actions[..i], limit).Some? ==>
      Run(START, actions[..i], limit).value.calls == map[]
  }

  lemma {:induction false} ReachableInv(actions: seq<Action>, limit: int)
    requires Run(START, actions, limit).Some? && ClosesQuietly(actions, limit)
    ensures Inv(Run(START, actions, limit).value, limit)
  {
    hide Inv, Apply, Enabled;
    if actions == [] {
      StartInv(limit);
    } else {
      var init, a := actions[..|actions| - 1], actions[|actions| - 1];
      assert forall i :: 0 <= i < |init| ==> init[..i] == actions[..i];
      ReachableInv(init, limit);
      if a == Close {
        CloseKeepsInvIffQuiet(Run(START, init, limit).value, limit);
      } else {
        InvKept(Run(START, init, limit).value, a, limit);
      }
    }
  }

  /**
    Single flight in every interleaving: calls for one key share one lock object, at most one
    of them is between taking and releasing it, the lock entry exists exactly while calls refer
    to the key and counts them, and no created runtime is ever dropped for a faster one.
   */
  lemma SingleFlight(actions: seq<Action>, limit: int, t: Thread, u: Thread)
    requires Run(START, actions, limit).Some? && ClosesQuietly(actions, limit)
    ensures var s := Run(START, actions, limit).value;
            && (t in s.calls && u in s.calls && s.calls[t].key == s.calls[u].key ==>
                  && s.calls[t].lock == s.calls[u].lock
                  && (Holding(s.calls[t].phase) && Holding(s.calls[u].phase) ==> t == u))
            && (forall k :: k in s.table.locks <==> Referrers(s.calls, k) != {})
            && (forall k :: k in s.table.users ==> s.table.users[k] == |Referrers(s.calls, k)|)
            && s.wasted == 0
  {
    hide Run, ClosesQuietly, Refines, Awaited, Holding, Referrers;
    var s := Run(START, actions, limit).value;
    ReachableInv(actions, limit);
    if t in s.calls && u in s.calls && s.calls[t].key == s.calls[u].key
       && Holding(s.calls[t].phase) && Holding(s.calls[u].phase) {
      OneHolderPerKey(s, t, u);
    }
  }

  /**
    In every interleaving the cache is plain LRU over the touches, and runtimes are conserved:
    created = evicted + cached + created but not yet inserted.
   */
  lemma RuntimesConserved(actions: seq<Action>, limit: int)
    requires Run(START, actions, limit).Some? && ClosesQuietly(actions, limit)
    ensures var s := Run(START, actions, limit).value;
            && s.cache.keys == Kept(s.touches, limit)
            && s.cache.record == LastDistinct(s.evicted, 8)
            && s.created == s.cache.evictions + |s.cache.keys| + |InFlight(s.calls)|
  {
    hide Run, ClosesQuietly, Counted, Shared, Held, Awaited, Kept, LastDistinct, InFlight;
    ReachableInv(actions, limit);
  }

  /** What an action touches: a hit and an insertion touch their key, nothing else does. */
  function Touching(s: State, a: Action): seq<Key>
    requires Enabled(s, a)
  {
    match a
    case Lookup(_, key) => if key in s.cache.runtimes then [key] else []
    case Recheck(t) => if s.calls[t].key in s.cache.runtimes then [s.calls[t].key] else []
    case Insert(t) => [s.calls[t].key]
    case _ => []
  }

  /** The keys a run touched since the last close. */
  function TouchLog(s: State, actions: seq<Action>, limit: int): seq<Key>
    requires Run(s, actions, limit).Some?
  {
    if actions == [] then s.touches
    else
      var (init, a) := (actions[..|actions| - 1], actions[|actions| - 1]);
      if a == Close then [] else TouchLog(s, init, limit) + Touching(Run(s, init, limit).value, a)
  }

  lemma StepTouches(s: State, a: Action, limit: int)
    requires Enabled(s, a)
    ensures Apply(s, a, limit).touches == if a == Close then [] else s.touches + Touching(s, a)
  {
    hide Inserted, Touched, EvictedBy, Acquired, Released;
  }

  /** The touch history the cache is the LRU list of is what the actions of the run touched. */
  lemma {:induction false} TouchesAreLogged(s: State, actions: seq<Action>, limit: int)
    requires Run(s, actions, limit).Some?
    ensures Run(s, actions, limit).value.touches == TouchLog(s, actions, limit)
  {
    hide Apply, Enabled, Touching;
    if actions != [] {
      var (init, a) := (actions[..|actions| - 1], actions[|actions| - 1]);
      TouchesAreLogged(s, init, limit);
      StepTouches(Run(s, init, limit).value, a, limit);
    }
  }

  /** A lookup that hits makes its key the newest one and changes no runtime. */
  lemma HitIsNewest(s: State, t: Thread, key: Key, limit: int)
    requires Inv(s, limit) && Enabled(s, Lookup(t, key)) && key in s.cache.runtimes
    ensures var s' := Apply(s, Lookup(t, key), limit);
            && s'.cache.keys != [] && s'.cache.keys[|s'.cache.keys| - 1] == key
            && s'.cache.runtimes == s.cache.runtimes && s'.calls == s.calls && s'.table == s.table
            && forall k :: k in s'.cache.keys <==> k in s.cache.keys
  {
    CachedKeys(s.cache, s.touches, s.evicted, s.insertions, limit, key);
    forall k ensures k in Touched(s.cache, key).keys <==> k in s.cache.keys {
      WithoutMembers(s.cache.keys, key, k);
    }
  }

  // ---------- one call from beginning to end ----------

  /** A call for a key that is not cached, and that no other call is about. */
  ghost predicate Alone(s: State, t: Thread, key: Key) {
    t !in s.calls && key !in s.cache.runtimes && Referrers(s.calls, key) == {}
  }

  /** It takes a lock of its own, creates, inserts and leaves nothing behind but the runtime as the newest entry. */
  lemma SoloCall(s: State, t: Thread, key: Key, limit: int) returns (s': State)
    requires Inv(s, limit) && Alone(s, t, key) && limit != 0
    ensures Run(s, [Lookup(t, key), TakeLock(t), Recheck(t), Create(t, true), Insert(t), Unlock(t), Drop(t)], limit)
         == Some(s')
    ensures s'.calls == s.calls && s'.table == s.table && s'.holders == s.holders
    ensures s'.cache.keys != [] && s'.cache.keys[|s'.cache.keys| - 1] == key
    ensures key in s'.cache.runtimes && s'.cache.runtimes[key] == s.nextRuntime < s'.nextRuntime
    ensures s'.created == s.created + 1 && s'.insertions == s.insertions + 1
  {
    hide Inv, Run, Alone, Apply, Enabled, Inserted, Acquired;
    var s1 := SoloLocked(s, t, key, limit);
    AloneUncached(s, t, key);
    CreatingIsEnabled(s1, t);
    var s2 := SoloCached(s1, t, key, limit);
    SoloDone(s, s1, s2, t, key, limit);
    s' := Apply(Apply(s2, Unlock(t), limit), Drop(t), limit);
    var a := [Lookup(t, key), TakeLock(t), Recheck(t)];
    var b := a + [Create(t, true), Insert(t)];
    RunThree(s, Lookup(t, key), TakeLock(t), Recheck(t), limit);
    RunOn(s, a, s1, Create(t, true), Insert(t), limit);
    RunOn(s, b, s2, Unlock(t), Drop(t), limit);
    CountsOfDone(s2, t, limit);
    assert b + [Unlock(t), Drop(t)]
        == [Lookup(t, key), TakeLock(t), Recheck(t), Create(t, true), Insert(t), Unlock(t), Drop(t)];
  }

  lemma RunThree(s: State, a: Action, b: Action, c: Action, limit: int)
    requires Enabled(s, a) && Enabled(Apply(s, a, limit), b) && Enabled(Apply(Apply(s, a, limit), b, limit), c)
    ensures Run(s, [a, b, c], limit) == Some(Apply(Apply(Apply(s, a, limit), b, limit), c, limit))
  {
    hide Apply, Enabled, Run;
    RunNothingAt(s, limit);
    RunSnoc(s, [], a, limit);
    RunSnoc(s, [a], b, limit);
    RunSnoc(s, [a, b], c, limit);
    assert [] + [a] == [a] && [a] + [b] == [a, b] && [a, b] + [c] == [a, b, c];
  }

  lemma RunOn(s: State, actions: seq<Action>, s': State, a: Action, b: Action, limit: int)
    requires Run(s, actions, limit) == Some(s') && Enabled(s', a) && Enabled(Apply(s', a, limit), b)
    ensures Run(s, actions + [a, b], limit) == Some(Apply(Apply(s', a, limit), b, limit))
  {
    hide Apply, Enabled, Run;
    RunSnoc(s, actions, a, limit);
    RunSnoc(s, actions + [a], b, limit);
    assert actions + [a] + [b] == actions + [a, b];
  }

  lemma AloneUncached(s: State, t: Thread, key: Key)
    requires Alone(s, t, key)
    ensures key !in s.cache.runtimes
  {
  }

  lemma CreatingIsEnabled(s: State, t: Thread)
    requires t in s.calls && s.calls[t].phase == Creating
    ensures Enabled(s, Create(t, true))
  {
  }

  lemma CountsOfDone(s: State, t: Thread, limit: int)
    requires Enabled(s, Unlock(t)) && Enabled(Apply(s, Unlock(t), limit), Drop(t))
    ensures var s' := Apply(Apply(s, Unlock(t), limit), Drop(t), limit);
            s'.created == s.created && s'.insertions == s.insertions && s'.nextRuntime == s.nextRuntime
  {
  }

  lemma RunNothingAt(s: State, limit: int)
    ensures Run(s, [], limit) == Some(s)
  {
  }

  /** The key has no lock and the next lock is free. */
  lemma AloneIsUnknown(s: State, t: Thread, key: Key, limit: int)
    requires Inv(s, limit) && Alone(s, t, key)
    ensures Unknown(s, key)
  {
    hide Awaited, Accounted, Referrers;
  }

  /** After the first three sections the call is about to create. */
  lemma SoloLocked(s: State, t: Thread, key: Key, limit: int) returns (s1: State)
    requires Inv(s, limit) && Alone(s, t, key)
    ensures Enabled(s, Lookup(t, key)) && Enabled(Apply(s, Lookup(t, key), limit), TakeLock(t))
    ensures Enabled(Apply(Apply(s, Lookup(t, key), limit), TakeLock(t), limit), Recheck(t))
    ensures s1 == Apply(Apply(Apply(s, Lookup(t, key), limit), TakeLock(t), limit), Recheck(t), limit)
    ensures s1 == s.(table := Acquired(s.table, key, s.nextLock), nextLock := s.nextLock + 1,
                     holders := s.holders[s.nextLock := t], calls := s.calls[t := Call(key, s.nextLock, Creating)])
  {
    hide Inv, Unknown, Acquired, Referrers;
    AloneIsUnknown(s, t, key, limit);
    FreshHolds(s, t, key, limit);
    s1 := Apply(Apply(Apply(s, Lookup(t, key), limit), TakeLock(t), limit), Recheck(t), limit);
    assert s.calls[t := Call(key, s.nextLock, Locked)][t := Call(key, s.nextLock, Creating)]
        == s.calls[t := Call(key, s.nextLock, Creating)];
  }

  /** After two more the runtime is the newest entry of the cache. */
  lemma SoloCached(s: State, t: Thread, key: Key, limit: int) returns (s2: State)
    requires Enabled(s, Create(t, true)) && s.calls[t].key == key && key !in s.cache.runtimes && limit != 0
    ensures Enabled(Apply(s, Create(t, true), limit), Insert(t))
    ensures s2 == Apply(Apply(s, Create(t, true), limit), Insert(t), limit)
    ensures s2.cache == Inserted(s.cache, key, s.nextRuntime, limit) && s2.nextRuntime == s.nextRuntime + 1
    ensures s2.created == s.created + 1 && s2.insertions == s.insertions + 1
    ensures s2.calls == s.calls[t := s.calls[t].(phase := Unlocking)] && s2.holders == s.holders && s2.table == s.table
  {
    hide Inserted, EvictedBy;
    s2 := Apply(Apply(s, Create(t, true), limit), Insert(t), limit);
  }

  lemma SoloDone(s: State, s1: State, s2: State, t: Thread, key: Key, limit: int)
    requires Inv(s, limit) && Alone(s, t, key) && limit != 0
    requires s1.cache == s.cache && s1.nextRuntime == s.nextRuntime
    requires s2.table == Acquired(s.table, key, s.nextLock) && s2.holders == s.holders[s.nextLock := t]
    requires s2.calls == s.calls[t := Call(key, s.nextLock, Unlocking)]
    requires s2.cache == Inserted(s.cache, key, s.nextRuntime, limit)
    ensures Enabled(s2, Unlock(t)) && Enabled(Apply(s2, Unlock(t), limit), Drop(t))
    ensures var s' := Apply(Apply(s2, Unlock(t), limit), Drop(t), limit);
            && s'.calls == s.calls && s'.table == s.table && s'.holders == s.holders && s'.cache == s2.cache
    ensures s2.cache.keys != [] && s2.cache.keys[|s2.cache.keys| - 1] == key
    ensures key in s2.cache.runtimes && s2.cache.runtimes[key] == s.nextRuntime
  {
    hide Inv, Inserted, Referrers;
    AloneIsUnknown(s, t, key, limit);
    SoloInsert(s, key, limit);
    var after := Apply(s2, Unlock(t), limit);
    assert after.holders == s.holders;
    assert Apply(after, Drop(t), limit).calls == s.calls;
    assert Released(Acquired(s.table, key, s.nextLock), key) == s.table;
  }

  lemma SoloInsert(s: State, key: Key, limit: int)
    requires Inv(s, limit) && key !in s.cache.runtimes && limit != 0
    ensures var c := Inserted(s.cache, key, s.nextRuntime, limit);
            && c.keys != [] && c.keys[|c.keys| - 1] == key && key in c.runtimes && c.runtimes[key] == s.nextRuntime
  {
    hide Inserted, Counted, Shared, Held, Awaited, Kept;
    CachedKeys(s.cache, s.touches, s.evicted, s.insertions, limit, key);
    InsertRefines(s.cache, s.touches, s.evicted, s.insertions, limit, key, s.nextRuntime);
    LastKept(s.touches, limit, key);
  }

  lemma LastKept(touches: seq<Key>, limit: int, k: Key)
    requires limit != 0
    ensures Kept(touches + [k], limit) != [] && Kept(touches + [k], limit)[|Kept(touches + [k], limit)| - 1] == k
  {
    ByLastTouchSnoc(touches, k);
  }

  /** With a limit of 0, or when the backend fails, a create caches nothing and the call goes on to unlock. */
  lemma UncachedCreate(s: State, t: Thread, ok: bool, limit: int)
    requires Enabled(s, Create(t, ok)) && (!ok || limit == 0)
    ensures Apply(s, Create(t, ok), limit) == s.(calls := s.calls[t := s.calls[t].(phase := Unlocking)])
  {
  }

  /** A call that finds the runtime on its recheck takes it and goes on to unlock. */
  lemma RecheckHit(s: State, t: Thread, limit: int)
    requires Enabled(s, Recheck(t)) && s.calls[t].key in s.cache.runtimes
    ensures var s' := Apply(s, Recheck(t), limit);
            && s'.calls == s.calls[t := s.calls[t].(phase := Unlocking)] && s'.cache.runtimes == s.cache.runtimes
            && s'.holders == s.holders && s'.table == s.table && s'.created == s.created
  {
  }

  // ---------- every runtime is one's own ----------

  /** Runtimes in the cache or on their way into it are distinct, and the next one is new. */
  ghost predicate Distinguished(s: State) {
    && (forall k :: k in s.cache.runtimes ==> s.cache.runtimes[k] < s.nextRuntime)
    && (forall j, k :: j in s.cache.runtimes && k in s.cache.runtimes && s.cache.runtimes[j] == s.cache.runtimes[k] ==>
          j == k)
    && (forall t :: t in s.calls && s.calls[t].phase.Created? ==>
          s.calls[t].phase.runtime < s.nextRuntime
          && forall k :: k in s.cache.runtimes ==> s.cache.runtimes[k] != s.calls[t].phase.runtime)
    && (forall t, u ::
          t in s.calls && u in s.calls && s.calls[t].phase.Created? && s.calls[u].phase == s.calls[t].phase ==>
          t == u)
  }

  lemma {:induction false} TrimmedKeepsRuntimes(c: Cache, limit: int, protected: Key, x: Key)
    ensures x in Trimmed(c, limit, protected).runtimes ==>
              x in c.runtimes && Trimmed(c, limit, protected).runtimes[x] == c.runtimes[x]
    decreases |c.keys|
  {
    if !(limit < 0 || |c.keys| <= limit) {
      var i := FirstOther(c.keys, protected, 0);
      if i < |c.keys| {
        TrimmedKeepsRuntimes(Evicted(c, i), limit, protected, x);
      }
    }
  }

  /** The caller of a create gets a runtime that nobody else has, in every interleaving, closes included. */
  lemma StepDistinguishes(s: State, a: Action, limit: int)
    requires Enabled(s, a) && Distinguished(s)
    ensures Distinguished(Apply(s, a, limit))
  {
    hide Inserted, Touched, EvictedBy, Acquired, Released, Distinguished;
    if a.Insert? {
      InsertDistinguishes(s, a.t, limit);
    } else if a.Create? {
      CreateDistinguishes(s, a.t, a.ok, limit);
    } else {
      OtherDistinguishes(s, a, limit);
    }
  }

  lemma CreateDistinguishes(s: State, t: Thread, ok: bool, limit: int)
    requires Enabled(s, Create(t, ok)) && Distinguished(s)
    ensures Distinguished(Apply(s, Create(t, ok), limit))
  {
  }

  lemma OtherDistinguishes(s: State, a: Action, limit: int)
    requires Enabled(s, a) && !a.Insert? && !a.Create? && Distinguished(s)
    ensures Distinguished(Apply(s, a, limit))
  {
    hide Without, Acquired, Released;
  }

  lemma InsertDistinguishes(s: State, t: Thread, limit: int)
    requires Enabled(s, Insert(t)) && Distinguished(s)
    ensures Distinguished(Apply(s, Insert(t), limit))
  {
    hide Trimmed, Without, EvictedBy;
    var (key, r) := (s.calls[t].key, s.calls[t].phase.runtime);
    var s' := Apply(s, Insert(t), limit);
    if key !in s.cache.runtimes {
      var a := Appended(s.cache, key, r);
      forall k ensures k in s'.cache.runtimes ==> k in a.runtimes && s'.cache.runtimes[k] == a.runtimes[k] {
        TrimmedKeepsRuntimes(a, limit, key, k);
      }
    }
  }

  lemma {:induction false} RunDistinguishes(actions: seq<Action>, limit: int)
    requires Run(START, actions, limit).Some?
    ensures Distinguished(Run(START, actions, limit).value)
  {
    hide Apply, Enabled, Distinguished;
    if actions == [] {
      StartDistinguished();
    } else {
      RunDistinguishes(actions[..|actions| - 1], limit);
      StepDistinguishes(Run(START, actions[..|actions| - 1], limit).value, actions[|actions| - 1], limit);
    }
  }

  lemma StartDistinguished()
    ensures Distinguished(START)
  {
  }

  /** While calls are in flight, one of them can move on: the locks never deadlock. */
  lemma SomeCallCanMove(actions: seq<Action>, limit: int)
    requires Run(START, actions, limit).Some? && ClosesQuietly(actions, limit)
    requires Run(START, actions, limit).value.calls != map[]
    ensures var s := Run(START, actions, limit).value;
            exists a: Action :: !a.Close? && !a.Lookup? && Enabled(s, a)
  {
    hide Run, ClosesQuietly, Counted, Shared, Awaited, Accounted;
    var s := Run(START, actions, limit).value;
    ReachableInv(actions, limit);
    var t :| t in s.calls;
    if s.calls[t].phase == Waiting && s.calls[t].lock in s.holders {
      HoldingCanMove(s, s.holders[s.calls[t].lock]);
    } else if s.calls[t].phase == Waiting {
      assert Enabled(s, TakeLock(t));
    } else if s.calls[t].phase == Dropping {
      assert Enabled(s, Drop(t));
    } else {
      HoldingCanMove(s, t);
    }
  }

  lemma HoldingCanMove(s: State, t: Thread)
    requires t in s.calls && Holding(s.calls[t].phase)
    ensures exists a: Action :: !a.Close? && !a.Lookup? && Enabled(s, a)
  {
    match s.calls[t].phase {
      case Locked => assert Enabled(s, Recheck(t));
      case Creating => assert Enabled(s, Create(t, false));
      case Created(_) => assert Enabled(s, Insert(t));
      case Unlocking => assert Enabled(s, Unlock(t));
    }
  }

  /** Thread 0 is creating a runtime for key 7; then the cache is closed, or not. */
  const ONE_CREATING := START.(
    table := LockTable(map[7 := 0], map[7 := 1]), holders := map[0 := 0],
    calls := map[0 := Call(7, 0, Creating)], nextLock := 1)

  const CLOSED_UNDER_IT := ONE_CREATING.(table := EMPTY_TABLE)

  lemma FirstCreates()
    ensures Enabled(START, Lookup(0, 7))
    ensures Enabled(Apply(START, Lookup(0, 7), 1), TakeLock(0))
    ensures Enabled(Apply(Apply(START, Lookup(0, 7), 1), TakeLock(0), 1), Recheck(0))
    ensures Apply(Apply(Apply(START, Lookup(0, 7), 1), TakeLock(0), 1), Recheck(0), 1) == ONE_CREATING
  {
    var s1 := Apply(START, Lookup(0, 7), 1);
    var s2 := Apply(s1, TakeLock(0), 1);
    var s3 := Apply(s2, Recheck(0), 1);
    assert s1.calls == map[0 := Call(7, 0, Waiting)] && s1.table == ONE_CREATING.table;
    assert s2.calls == map[0 := Call(7, 0, Locked)] && s2.holders == ONE_CREATING.holders;
    assert s3.calls == ONE_CREATING.calls;
  }

  lemma ReachesOneCreating()
    ensures Run(START, [Lookup(0, 7), TakeLock(0), Recheck(0)], 1) == Some(ONE_CREATING)
  {
    hide Run, Apply, Enabled;
    var (a, b, c) := (Lookup(0, 7), TakeLock(0), Recheck(0));
    FirstCreates();
    RunNothing();
    RunSnoc(START, [], a, 1);
    RunSnoc(START, [a], b, 1);
    RunSnoc(START, [a, b], c, 1);
    assert [] + [a] == [a] && [a] + [b] == [a, b] && [a, b] + [c] == [a, b, c];
  }

  lemma RunNothing()
    ensures Run(START, [], 1) == Some(START)
  {
  }

  lemma SecondAlsoCreates(s: State)
    requires s == CLOSED_UNDER_IT
    ensures Enabled(s, Lookup(1, 7))
    ensures Enabled(Apply(s, Lookup(1, 7), 1), TakeLock(1))
    ensures Enabled(Apply(Apply(s, Lookup(1, 7), 1), TakeLock(1), 1), Recheck(1))
    ensures Apply(Apply(Apply(s, Lookup(1, 7), 1), TakeLock(1), 1), Recheck(1), 1).calls
         == map[0 := Call(7, 0, Creating), 1 := Call(7, 1, Creating)]
  {
  }

  /** Closing under a call in flight breaks single flight: two threads create for one key. */
  lemma CloseBreaksSingleFlight()
    ensures exists actions :: Run(START, actions, 1).Some? &&
              Run(START, actions, 1).value.calls == map[0 := Call(7, 0, Creating), 1 := Call(7, 1, Creating)]
  {
    hide Run, Apply, Enabled;
    var a3 := [Lookup(0, 7), TakeLock(0), Recheck(0)];
    var a4 := a3 + [Close];
    var a5 := a4 + [Lookup(1, 7)];
    var a6 := a5 + [TakeLock(1)];
    ReachesOneCreating();
    RunSnoc(START, a3, Close, 1);
    CloseAlwaysEnabled();
    SecondAlsoCreates(CLOSED_UNDER_IT);
    RunSnoc(START, a4, Lookup(1, 7), 1);
    RunSnoc(START, a5, TakeLock(1), 1);
    RunSnoc(START, a6, Recheck(1), 1);
    assert Run(START, a6 + [Recheck(1)], 1).Some?;
  }

  lemma CloseAlwaysEnabled()
    ensures Enabled(ONE_CREATING, Close) && Apply(ONE_CREATING, Close, 1) == CLOSED_UNDER_IT
  {
  }

  lemma RunSnoc(s: State, actions: seq<Action>, a: Action, limit: int)
    ensures Run(s, actions + [a], limit)
         == var before := Run(s, actions, limit);
            if before.Some? && Enabled(before.value, a) then Some(Apply(before.value, a, limit)) else None
  {
    assert (actions + [a])[..|actions|] == actions;
  }

  // ---------- when a close can break single flight ----------

  /** Two calls hold a lock of one key. */
  ghost predicate Broken(s: State) {
    exists t, u :: t in s.calls && u in s.calls && t != u && TwoHolders(s.calls[t], s.calls[u])
  }

  predicate TwoHolders(c: Call, d: Call) { c.key == d.key && Holding(c.phase) && Holding(d.phase) }

  /** Some run from here, without another close, gets there. */
  ghost predicate CanBreak(s: State, limit: int) {
    exists actions :: Close !in actions && Run(s, actions, limit).Some? && Broken(Run(s, actions, limit).value)
  }

  lemma BrokenCanBreak(s: State, limit: int)
    requires Broken(s)
    ensures CanBreak(s, limit)
  {
    hide Broken;
    assert Run(s, [], limit) == Some(s);
  }

  lemma {:induction false} RunCons(s: State, a: Action, rest: seq<Action>, limit: int)
    requires Enabled(s, a)
    ensures Run(s, [a] + rest, limit) == Run(Apply(s, a, limit), rest, limit)
  {
    hide Enabled, Apply;
    if rest == [] {
      RunSnoc(s, [], a, limit);
      assert [] + [a] == [a] && [a] + rest == [a];
    } else {
      var (init, b) := (rest[..|rest| - 1], rest[|rest| - 1]);
      RunCons(s, a, init, limit);
      RunSnoc(s, [a] + init, b, limit);
      assert [a] + init + [b] == [a] + rest;
    }
  }

  lemma BreaksAfter(s: State, a: Action, limit: int)
    requires Enabled(s, a) && a != Close && CanBreak(Apply(s, a, limit), limit)
    ensures CanBreak(s, limit)
  {
    hide Enabled, Apply, Run, Broken;
    var s' := Apply(s, a, limit);
    var rest :| Close !in rest && Run(s', rest, limit).Some? && Broken(Run(s', rest, limit).value);
    RunCons(s, a, rest, limit);
    assert Close !in [a] + rest;
  }

  lemma {:induction false} RunKeepsInv(s: State, actions: seq<Action>, limit: int)
    requires Inv(s, limit) && Close !in actions && Run(s, actions, limit).Some?
    ensures Inv(Run(s, actions, limit).value, limit)
  {
    hide Inv, Apply, Enabled;
    if actions != [] {
      var init, a := actions[..|actions| - 1], actions[|actions| - 1];
      RunKeepsInv(s, init, limit);
      assert a in actions;
      InvKept(Run(s, init, limit).value, a, limit);
    }
  }

  lemma InvCannotBreak(s: State, limit: int)
    requires Inv(s, limit)
    ensures !CanBreak(s, limit)
  {
    hide Apply, Enabled, Run, Awaited, Accounted, Counted;
    forall actions | Close !in actions && Run(s, actions, limit).Some?
      ensures !Broken(Run(s, actions, limit).value)
    {
      var s' := Run(s, actions, limit).value;
      RunKeepsInv(s, actions, limit);
      forall t, u | t in s'.calls && u in s'.calls && TwoHolders(s'.calls[t], s'.calls[u]) ensures t == u {
        OneHolderPerKey(s', t, u);
      }
    }
  }

  lemma {:induction false} Crowded(threads: set<Thread>, n: nat)
    requires forall t: nat :: t < n ==> t in threads
    ensures |threads| >= n
  {
    if n > 0 {
      Crowded(threads - {n - 1}, n - 1);
    }
  }

  /** Some thread has no call. */
  lemma FreshThread(threads: set<Thread>) returns (u: Thread)
    ensures u !in threads
  {
    if forall t: nat :: t <= |threads| ==> t in threads {
      Crowded(threads, |threads| + 1);
      assert false;
    }
    u :| u !in threads;
  }

  /** The key has no lock in the table and no cached runtime, and the next lock is not held. */
  predicate Unknown(s: State, key: Key) {
    key !in s.table.locks && key !in s.table.users && key !in s.cache.runtimes && s.nextLock !in s.holders
  }

  /** A fresh thread then gets a lock of its own. */
  lemma FreshHolds(s: State, u: Thread, key: Key, limit: int)
    requires u !in s.calls && Unknown(s, key)
    ensures Enabled(s, Lookup(u, key))
    ensures var s1 := Apply(s, Lookup(u, key), limit);
            && Enabled(s1, TakeLock(u))
            && Apply(s1, TakeLock(u), limit) == s.(
                 table := Acquired(s.table, key, s.nextLock), nextLock := s.nextLock + 1,
                 holders := s.holders[s.nextLock := u], calls := s.calls[u := Call(key, s.nextLock, Locked)])
  {
    var s1 := Apply(s, Lookup(u, key), limit);
    assert s1.calls[u] == Call(key, s.nextLock, Waiting);
  }

  lemma HolderBreaks(s: State, t: Thread, limit: int)
    requires t in s.calls && Holding(s.calls[t].phase) && Unknown(s, s.calls[t].key)
    ensures CanBreak(s, limit)
  {
    hide Unknown, CanBreak, Enabled, Apply;
    var key := s.calls[t].key;
    var u := FreshThread(s.calls.Keys);
    assert u !in s.calls.Keys;
    FreshHolds(s, u, key, limit);
    var s1 := Apply(s, Lookup(u, key), limit);
    var s2 := Apply(s1, TakeLock(u), limit);
    assert TwoHolders(s2.calls[t], s2.calls[u]);
    BrokenCanBreak(s2, limit);
    BreaksAfter(s1, TakeLock(u), limit);
    BreaksAfter(s, Lookup(u, key), limit);
  }

  lemma WaiterBreaks(s: State, t: Thread, limit: int)
    requires t in s.calls && s.calls[t].phase == Waiting && Unknown(s, s.calls[t].key)
    requires s.calls[t].lock !in s.holders && s.calls[t].lock != s.nextLock
    ensures CanBreak(s, limit)
  {
    hide CanBreak;
    var s' := Apply(s, TakeLock(t), limit);
    HolderBreaks(s', t, limit);
    BreaksAfter(s, TakeLock(t), limit);
  }

  lemma DropperBreaks(s: State, t: Thread, limit: int)
    requires t in s.calls && s.calls[t].phase == Dropping && Unknown(s, s.calls[t].key)
    requires forall l :: l in s.holders ==> l < s.nextLock
    ensures CanBreak(s, limit)
  {
    hide CanBreak;
    var key := s.calls[t].key;
    var u := FreshThread(s.calls.Keys);
    assert u !in s.calls.Keys;
    FreshHolds(s, u, key, limit);
    var s1 := Apply(s, Lookup(u, key), limit);
    var s2 := Apply(s1, TakeLock(u), limit);
    var s3 := Apply(s2, Drop(t), limit);
    assert u != t && s3.calls[u] == Call(key, s.nextLock, Locked);
    HolderBreaks(s3, u, limit);
    BreaksAfter(s2, Drop(t), limit);
    BreaksAfter(s1, TakeLock(u), limit);
    BreaksAfter(s, Lookup(u, key), limit);
  }

  /** After a close nothing is known of any key; the locks still held are all old ones. */
  lemma AfterClose(s: State, t: Thread, limit: int)
    requires Inv(s, limit) && t in s.calls
    ensures var s' := Apply(s, Close, limit);
            && s'.calls == s.calls && Unknown(s', s.calls[t].key) && s.calls[t].lock < s'.nextLock
            && (forall l :: l in s'.holders ==> l < s'.nextLock)
            && (s.calls[t].lock in s'.holders ==>
                  s'.holders[s.calls[t].lock] in s.calls && Holding(s.calls[s'.holders[s.calls[t].lock]].phase))
  {
    hide Counted, Awaited, Accounted;
  }

  /**
    A close lets two calls hold locks of one key, in some run that follows, if and only if a call
    is in flight: a holding call meets a fresh one, a waiting call can become a holding one, and
    a dropping call drops the lock entry of a fresh one.
   */
  lemma CloseBreaksIff(s: State, limit: int)
    requires Inv(s, limit)
    ensures CanBreak(Apply(s, Close, limit), limit) <==> s.calls != map[]
  {
    hide Inv, CanBreak, Unknown, Apply;
    var s' := Apply(s, Close, limit);
    if s.calls == map[] {
      CloseKeepsInvIffQuiet(s, limit);
      InvCannotBreak(s', limit);
    } else {
      var t :| t in s.calls;
      AfterClose(s, t, limit);
      if Holding(s.calls[t].phase) {
        HolderBreaks(s', t, limit);
      } else if s.calls[t].phase == Dropping {
        DropperBreaks(s', t, limit);
      } else if s.calls[t].lock in s'.holders {
        var h := s'.holders[s.calls[t].lock];
        AfterClose(s, h, limit);
        HolderBreaks(s', h, limit);
      } else {
        WaiterBreaks(s', t, limit);
      }
    }
  }
}
