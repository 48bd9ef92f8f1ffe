/**
  The executor's direct-runtime cache. An ordered dictionary is a list of keys, oldest
  first, with a map of values. Keys, runtimes and lock objects are identities.
  Every public method of the class is one section run under the cache lock.
 */
module RuntimeCaches {
  import opened Common
  import opened Recency

  type Key = int
  type Runtime = int
  type LockId = nat

  const RECORD_LIMIT := 8

  datatype Cache = Cache(keys: seq<Key>, runtimes: map<Key, Runtime>, evictions: nat, record: seq<Key>)

  datatype LockTable = LockTable(locks: map<Key, LockId>, users: map<Key, int>)

  const EMPTY_CACHE := Cache([], map[], 0, [])

  const EMPTY_TABLE := LockTable(map[], map[])

  // ---------- specification ----------

  function Touched(c: Cache, k: Key): Cache {
    c.(keys := Without(c.keys, k) + [k])
  }

  function Recorded(record: seq<Key>, k: Key): seq<Key> {
    LastN(Without(record, k) + [k], RECORD_LIMIT)
  }

  function FirstOther(keys: seq<Key>, k: Key, from: nat): (i: nat)
    requires from <= |keys|
    ensures from <= i <= |keys| && (i < |keys| ==> keys[i] != k)
    ensures forall j :: from <= j < i ==> keys[j] == k
    decreases |keys| - from
  {
    if from == |keys| || keys[from] != k then from else FirstOther(keys, k, from + 1)
  }

  function Evicted(c: Cache, i: nat): Cache
    requires i < |c.keys|
  {
    Cache(c.keys[..i] + c.keys[i + 1..], c.runtimes - {c.keys[i]}, c.evictions + 1, Recorded(c.record, c.keys[i]))
  }

  function Trimmed(c: Cache, limit: int, protected: Key): Cache
    decreases |c.keys|
  {
    if limit < 0 || |c.keys| <= limit then c
    else
      var i := FirstOther(c.keys, protected, 0);
      if i == |c.keys| then c else Trimmed(Evicted(c, i), limit, protected)
  }

  function Appended(c: Cache, k: Key, r: Runtime): Cache {
    c.(keys := c.keys + [k], runtimes := c.runtimes[k := r])
  }

  function Inserted(c: Cache, k: Key, r: Runtime, limit: int): Cache {
    Trimmed(Appended(c, k, r), limit, k)
  }

  function AcquiredLock(t: LockTable, k: Key, spare: LockId): LockId {
    if k in t.locks then t.locks[k] else spare
  }

  function Acquired(t: LockTable, k: Key, spare: LockId): LockTable {
    LockTable(t.locks[k := AcquiredLock(t, k, spare)], t.users[k := (if k in t.users then t.users[k] else 0) + 1])
  }

  function Released(t: LockTable, k: Key): LockTable {
    var users := (if k in t.users then t.users[k] else 0) - 1;
    if users > 0 then t.(users := t.users[k := users])
    else LockTable(t.locks - {k}, t.users - {k})
  }

  // ---------- the cache refines plain LRU ----------

  /** What a cache with this limit holds after a history of touches; a negative limit means no limit. */
  ghost function Kept(touches: seq<Key>, limit: int): seq<Key> {
    if limit < 0 then ByLastTouch(touches) else LastDistinct(touches, limit)
  }

  ghost predicate WellKept(c: Cache) {
    NoRepeats(c.keys) && forall k :: k in c.keys <==> k in c.runtimes
  }

  ghost predicate Refines(c: Cache, touches: seq<Key>, evicted: seq<Key>, insertions: nat, limit: int) {
    && WellKept(c)
    && c.keys == Kept(touches, limit)
    && c.record == LastDistinct(evicted, 8)
    && c.evictions == |evicted|
    && insertions == c.evictions + |c.keys|
  }

  lemma CachedKeys(c: Cache, touches: seq<Key>, evicted: seq<Key>, insertions: nat, limit: int, k: Key)
    requires Refines(c, touches, evicted, insertions, limit)
    ensures k in c.keys <==> k in c.runtimes
  {
  }

  lemma KeptNoRepeats(touches: seq<Key>, limit: int)
    ensures NoRepeats(Kept(touches, limit))
    ensures limit >= 0 ==> |Kept(touches, limit)| <= limit
  {
    ByLastTouchNoRepeats(touches);
  }

  /** A lookup that hits only moves its key to the end, as plain LRU does. */
  lemma TouchRefines(c: Cache, touches: seq<Key>, evicted: seq<Key>, insertions: nat, limit: int, k: Key)
    requires Refines(c, touches, evicted, insertions, limit) && k in c.keys
    ensures Refines(Touched(c, k), touches + [k], evicted, insertions, limit)
  {
    hide ByLastTouch, LastDistinct, LastN;
    if limit < 0 {
      ByLastTouchSnoc(touches, k);
    } else {
      TouchHit(touches, limit, k);
    }
    KeptNoRepeats(touches + [k], limit);
    WithoutSize(c.keys, k);
    forall x ensures x in Touched(c, k).keys <==> x in c.keys {
      WithoutMembers(c.keys, k, x);
    }
  }

  lemma RecordStep(evicted: seq<Key>, k: Key)
    ensures Recorded(LastDistinct(evicted, 8), k) == LastDistinct(evicted + [k], 8)
  {
    hide ByLastTouch, Without, LastN;
    var record := LastDistinct(evicted, RECORD_LIMIT);
    LastDistinctNoRepeats(evicted, RECORD_LIMIT);
    if k in record {
      TouchHit(evicted, RECORD_LIMIT, k);
      RecordShort(evicted, k);
    } else {
      TouchMiss(evicted, RECORD_LIMIT, k);
      WithoutAbsent(record, k);
    }
  }

  lemma RecordShort(evicted: seq<Key>, k: Key)
    ensures LastN(LastDistinct(evicted + [k], RECORD_LIMIT), RECORD_LIMIT) == LastDistinct(evicted + [k], RECORD_LIMIT)
  {
  }

  lemma TrimStep(c: Cache, limit: int, k: Key)
    requires limit >= 1 && |c.keys| > limit && NoRepeats(c.keys) && c.keys[|c.keys| - 1] == k
    ensures Trimmed(c, limit, k) == Trimmed(Evicted(c, 0), limit, k)
    ensures Evicted(c, 0).keys == c.keys[1..] && NoRepeats(c.keys[1..]) && Evicted(c, 0).evictions == c.evictions + 1
  {
  }

  /**
    Insertion of a new key with limit other than 0: at most the oldest key goes, the new key
    stays, and the result is the plain LRU list of the longer history.
   */
  lemma InsertRefines(c: Cache, touches: seq<Key>, evicted: seq<Key>, insertions: nat, limit: int, k: Key, r: Runtime)
    requires Refines(c, touches, evicted, insertions, limit) && k !in c.keys && limit != 0
    ensures var c' := Inserted(c, k, r, limit);
            && Refines(c', touches + [k], evicted + EvictedBy(c, limit), insertions + 1, limit)
            && k in c'.keys && c'.runtimes[k] == r
  {
    hide ByLastTouch, LastDistinct, Without, LastN;
    var a := Appended(c, k, r);
    KeptNoRepeats(touches, limit);
    KeptNoRepeats(touches + [k], limit);
    if limit < 0 {
      ByLastTouchSnoc(touches, k);
      WithoutAbsent(c.keys, k);
      assert evicted + EvictedBy(c, limit) == evicted;
    } else {
      TouchMiss(touches, limit, k);
      InsertWithinLimit(c, limit, k, r);
      if |c.keys| == limit {
        RecordStep(evicted, c.keys[0]);
      } else {
        assert evicted + EvictedBy(c, limit) == evicted;
      }
    }
    assert k in Kept(touches + [k], limit) by {
      KeptHasLast(touches, limit, k);
    }
  }

  lemma KeptHasLast(touches: seq<Key>, limit: int, k: Key)
    requires limit != 0
    ensures k in Kept(touches + [k], limit)
  {
    ByLastTouchSnoc(touches, k);
    var kept := Kept(touches + [k], limit);
    assert kept[|kept| - 1] == k;
  }

  function EvictedBy(c: Cache, limit: int): seq<Key> {
    if limit >= 1 && |c.keys| == limit then [c.keys[0]] else []
  }

  lemma InsertWithinLimit(c: Cache, limit: int, k: Key, r: Runtime)
    requires WellKept(c) && limit >= 1 && |c.keys| <= limit && k !in c.keys
    ensures var c' := Inserted(c, k, r, limit);
            && c'.keys == LastN(c.keys + [k], limit)
            && (|c.keys| < limit ==> c' == Appended(c, k, r))
            && (|c.keys| == limit ==> c' == Evicted(Appended(c, k, r), 0))
            && WellKept(c')
  {
    hide FirstOther, Recorded;
    var a := Appended(c, k, r);
    assert NoRepeats(a.keys);
    if |c.keys| == limit {
      TrimStep(a, limit, k);
      WellKeptAfterEviction(a);
    }
  }

  lemma WellKeptAfterEviction(c: Cache)
    requires WellKept(c) && c.keys != []
    ensures WellKept(Evicted(c, 0))
  {
    var e := Evicted(c, 0);
    assert e.keys == c.keys[1..] && c.keys == [c.keys[0]] + e.keys;
  }

  /** Trimming any over-full cache at once keeps exactly the last `limit` keys. */
  lemma {:induction false} TrimKeepsLast(c: Cache, limit: int, k: Key)
    requires limit >= 1 && NoRepeats(c.keys) && c.keys != [] && c.keys[|c.keys| - 1] == k
    ensures Trimmed(c, limit, k).keys == LastN(c.keys, limit)
    ensures Trimmed(c, limit, k).evictions == c.evictions + |c.keys| - |LastN(c.keys, limit)|
    decreases |c.keys|
  {
    hide FirstOther, Recorded, Evicted;
    if |c.keys| > limit {
      TrimStep(c, limit, k);
      TrimKeepsLast(Evicted(c, 0), limit, k);
    }
  }

  // ---------- the class ----------

  class RuntimeCache {
    const limit: int
    var keys: seq<Key>
    var runtimes: map<Key, Runtime>
    var evictions: nat
    var record: seq<Key>
    var keyLocks: map<Key, LockId>
    var lockUsers: map<Key, int>
    var nextLock: LockId

    ghost var touches: seq<Key>
    ghost var evicted: seq<Key>
    ghost var insertions: nat

    ghost function View(): Cache
      reads this
    {
      Cache(keys, runtimes, evictions, record)
    }

    ghost function Locks(): LockTable
      reads this
    {
      LockTable(keyLocks, lockUsers)
    }

    /** The cache is the plain LRU list of its own touch history. */
    ghost predicate Valid()
      reads this
    {
      Refines(View(), touches, evicted, insertions, limit)
    }

    constructor (limit: int)
      ensures Valid() && this.limit == limit && View() == EMPTY_CACHE && Locks() == EMPTY_TABLE
    {
      this.limit := limit;
      keys, runtimes, evictions, record := [], map[], 0, [];
      keyLocks, lockUsers, nextLock := map[], map[], 0;
      touches, evicted, insertions := [], [], 0;
      new;
    }

    method MoveToEnd(key: Key)
      requires Valid() && key in keys
      modifies `keys, `touches
      ensures Valid() && View() == Touched(old(View()), key) && touches == old(touches) + [key]
    {
      TouchRefines(View(), touches, evicted, insertions, limit, key);
      keys := Without(keys, key) + [key];
      touches := touches + [key];
    }

    /** The first section: a hit returns the runtime, a miss takes a reference to the key's lock. */
    method LookupOrAcquire(key: Key) returns (runtime: Option<Runtime>, lock: LockId)
      requires Valid()
      modifies this
      ensures Valid() && touches == old(touches) + if key in old(runtimes) then [key] else []
      ensures key in old(runtimes) ==>
                runtime == Some(old(runtimes)[key]) && View() == Touched(old(View()), key) && Locks() == old(Locks())
      ensures key !in old(runtimes) ==>
                && runtime == None && View() == old(View()) && Locks() == Acquired(old(Locks()), key, old(nextLock))
                && lock == AcquiredLock(old(Locks()), key, old(nextLock))
    {
      lock := nextLock;
      if key in runtimes {
        runtime := Some(runtimes[key]);
        MoveToEnd(key);
      } else {
        runtime := None;
        lock := AcquireKeyLock(key);
      }
    }

    /** The second section, run while holding the key lock. */
    method Recheck(key: Key) returns (runtime: Option<Runtime>)
      requires Valid()
      modifies this
      ensures Valid() && Locks() == old(Locks())
      ensures touches == old(touches) + if key in old(runtimes) then [key] else []
      ensures key in old(runtimes) ==> runtime == Some(old(runtimes)[key]) && View() == Touched(old(View()), key)
      ensures key !in old(runtimes) ==> runtime == None && View() == old(View())
    {
      if key in runtimes {
        runtime := Some(runtimes[key]);
        MoveToEnd(key);
      } else {
        runtime := None;
      }
    }

    /** The third section: insert a freshly created runtime and trim, unless the key is there by now. */
    method InsertRuntime(key: Key, created: Runtime) returns (runtime: Runtime, reused: bool)
      requires Valid() && limit != 0
      modifies this
      ensures Valid() && Locks() == old(Locks()) && touches == old(touches) + [key]
      ensures reused <==> key in old(runtimes)
      ensures reused ==> runtime == old(runtimes)[key] && View() == Touched(old(View()), key)
      ensures !reused ==> runtime == created && View() == Inserted(old(View()), key, created, limit)
      ensures key in keys && runtimes[key] == runtime
    {
      hide Refines, Trimmed, EvictedBy, Without;
      CachedKeys(View(), touches, evicted, insertions, limit, key);
      if key in runtimes {
        runtime, reused := runtimes[key], true;
        MoveToEnd(key);
      } else {
        InsertRefines(View(), touches, evicted, insertions, limit, key, created);
        ghost var fallen := EvictedBy(View(), limit);
        runtime, reused := created, false;
        keys := keys + [key];
        runtimes := runtimes[key := created];
        Trim(key);
        touches := touches + [key];
        evicted := evicted + fallen;
        insertions := insertions + 1;
      }
    }

    /** The trimming loop: drop the oldest unprotected key until the limit is met. */
    method Trim(protected: Key)
      modifies `keys, `runtimes, `evictions, `record
      ensures View() == Trimmed(old(View()), limit, protected)
    {
      if limit < 0 {
        return;
      }
      while |keys| > limit
        invariant Trimmed(View(), limit, protected) == Trimmed(old(View()), limit, protected)
        decreases |keys|
      {
        var i := 0;
        while i < |keys| && keys[i] == protected
          invariant i <= |keys|
          invariant FirstOther(keys, protected, 0) == FirstOther(keys, protected, i)
        {
          i := i + 1;
        }
        if i == |keys| {
          break;
        }
        var key := keys[i];
        ghost var before := View();
        keys := keys[..i] + keys[i + 1..];
        runtimes := runtimes - {key};
        evictions := evictions + 1;
        RecordEviction(key);
        assert View() == Evicted(before, i);
      }
    }

    method RecordEviction(key: Key)
      modifies `record
      ensures record == Recorded(old(record), key)
    {
      record := Without(record, key) + [key];
      ghost var longer := record;
      while |record| > RECORD_LIMIT
        invariant LastN(record, RECORD_LIMIT) == LastN(longer, RECORD_LIMIT)
        decreases |record|
      {
        record := record[1..];
      }
    }

    method AcquireKeyLock(key: Key) returns (lock: LockId)
      modifies `keyLocks, `lockUsers, `nextLock
      ensures Locks() == Acquired(old(Locks()), key, old(nextLock)) && nextLock == old(nextLock) + 1
      ensures lock == AcquiredLock(old(Locks()), key, old(nextLock))
    {
      lock := if key in keyLocks then keyLocks[key] else nextLock;
      nextLock := nextLock + 1;
      keyLocks := keyLocks[key := lock];
      lockUsers := lockUsers[key := (if key in lockUsers then lockUsers[key] else 0) + 1];
    }

    /** The last section: drop the reference, and the lock with it when nobody else refers to it. */
    method ReleaseKeyLock(key: Key)
      modifies `keyLocks, `lockUsers
      ensures Locks() == Released(old(Locks()), key)
    {
      var users := (if key in lockUsers then lockUsers[key] else 0) - 1;
      if users > 0 {
        lockUsers := lockUsers[key := users];
        return;
      }
      lockUsers := lockUsers - {key};
      keyLocks := keyLocks - {key};
    }

    /** Closing clears the cache and the lock tables, whoever may still hold a lock. */
    method Close()
      requires Valid()
      modifies this
      ensures Valid() && touches == []
      ensures View() == old(View()).(keys := [], runtimes := map[]) && Locks() == EMPTY_TABLE
    {
      keys, runtimes := [], map[];
      keyLocks, lockUsers := map[], map[];
      touches, insertions := [], evictions;
    }
  }
}
