/**
  The saved-prefix store: an ordered dictionary from store keys to prefixes, with an optional
  capacity. A list of keys, oldest first, and a map of values stand for the dictionary.
 */
module PrefixStores {
  import opened Common
  import opened Recency

  const NUL := '\0'

  /** A group of CPU backings: one buffer per layer, told apart by an identity. */
  datatype Group = Group(id: nat, sizes: seq<int>)

  datatype Prefix = Prefix(key: string, jobId: string, sessionId: string, blockCount: int, backings: Group,
                           sourceRequestId: string)

  datatype StoreError = EmptyKey | ForeignJob

  // ---------- store keys ----------

  function StoreKey(key: string, sessionId: string, jobId: string): string {
    jobId + [NUL] + sessionId + [NUL] + key
  }

  function KeyOf(p: Prefix): string { StoreKey(p.key, p.sessionId, p.jobId) }

  /** The part of a text in front of its first NUL. */
  function BeforeNul(s: string): string {
    if s == [] || s[0] == NUL then [] else [s[0]] + BeforeNul(s[1..])
  }

  lemma {:induction false} BeforeNulOf(head: string, tail: string)
    ensures NUL !in head ==> BeforeNul(head + [NUL] + tail) == head
    ensures NUL !in head ==> BeforeNul(head) == head
    ensures NUL in head ==> BeforeNul(head + [NUL] + tail) == BeforeNul(head)
  {
    if head == [] {
      assert head + [NUL] + tail == [NUL] + tail;
    } else {
      BeforeNulOf(head[1..], tail);
      assert (head + [NUL] + tail)[1..] == head[1..] + [NUL] + tail;
      assert head == [head[0]] + head[1..];
    }
  }

  /** Job and session ids without NUL make store keys unambiguous; the prefix key may hold anything. */
  lemma StoreKeyInjective(key: string, session: string, job: string, key': string, session': string, job': string)
    requires NUL !in job && NUL !in job' && NUL !in session && NUL !in session'
    ensures StoreKey(key, session, job) == StoreKey(key', session', job')
       <==> key == key' && session == session' && job == job'
  {
    hide BeforeNul;
    if StoreKey(key, session, job) == StoreKey(key', session', job') {
      Regroup(job, session, key);
      Regroup(job', session', key');
      BeforeNulOf(job, session + [NUL] + key);
      BeforeNulOf(job', session' + [NUL] + key');
      Cancel(job + [NUL], session + [NUL] + key, session' + [NUL] + key');
      BeforeNulOf(session, key);
      BeforeNulOf(session', key');
      Cancel(session + [NUL], key, key');
    }
  }

  lemma Regroup(job: string, session: string, key: string)
    ensures StoreKey(key, session, job) == job + [NUL] + (session + [NUL] + key)
  {
  }

  lemma Cancel(a: string, b: string, c: string)
    requires a + b == a + c
    ensures b == c
  {
    assert (a + b)[|a|..] == b && (a + c)[|a|..] == c;
  }

  function Nuls(s: string): nat {
    if s == [] then 0 else (if s[0] == NUL then 1 else 0) + Nuls(s[1..])
  }

  lemma {:induction false} NulsAppend(a: string, b: string)
    ensures Nuls(a + b) == Nuls(a) + Nuls(b)
  {
    if a == [] {
      assert a + b == b;
    } else {
      assert (a + b)[1..] == a[1..] + b;
      NulsAppend(a[1..], b);
    }
  }

  lemma {:induction false} NoNuls(s: string)
    ensures Nuls(s) == 0 <==> NUL !in s
  {
    if s != [] {
      NoNuls(s[1..]);
      assert s == [s[0]] + s[1..];
    }
  }

  lemma StoreKeyNuls(key: string, session: string, job: string)
    ensures Nuls(StoreKey(key, session, job)) == Nuls(job) + Nuls(session) + Nuls(key) + 2
  {
    NulsAppend(job + [NUL] + session + [NUL], key);
    NulsAppend(job + [NUL] + session, [NUL]);
    NulsAppend(job + [NUL], session);
    NulsAppend(job, [NUL]);
  }

  ghost predicate Unambiguous(key: string, session: string, job: string) {
    forall key', session', job' ::
      StoreKey(key', session', job') == StoreKey(key, session, job) ==>
        key' == key && session' == session && job' == job
  }

  /** Splitting a text at one of its NULs. */
  lemma SplitAtNul(s: string) returns (a: string, b: string)
    requires NUL in s
    ensures s == a + [NUL] + b
  {
    var i :| 0 <= i < |s| && s[i] == NUL;
    a, b := s[..i], s[i + 1..];
  }

  lemma SharedBy(key: string, session: string, job: string, key': string, session': string, job': string)
    requires StoreKey(key', session', job') == StoreKey(key, session, job) && |job'| != |job|
    ensures !Unambiguous(key, session, job)
  {
  }

  /** Over arbitrary texts a store key means one triple only if and only if none of its three parts holds a NUL. */
  lemma UnambiguousIff(key: string, session: string, job: string)
    ensures Unambiguous(key, session, job) <==> NUL !in key && NUL !in session && NUL !in job
  {
    hide Unambiguous, StoreKey;
    if NUL in job {
      var a, b := SplitAtNul(job);
      Reread(a, b, session, key);
      SharedBy(key, session, job, session + [NUL] + key, b, a);
    } else if NUL in session {
      var a, b := SplitAtNul(session);
      Reread(job, a, b, key);
      SharedBy(key, session, job, key, b, job + [NUL] + a);
    } else if NUL in key {
      var a, b := SplitAtNul(key);
      Reread(job, session, a, b);
      SharedBy(key, session, job, b, a, job + [NUL] + session);
    } else {
      NoNulsUnambiguous(key, session, job);
    }
  }

  /** Four texts joined by NULs read as store keys in three ways. */
  lemma Reread(a: string, b: string, c: string, d: string)
    ensures StoreKey(d, c, a + [NUL] + b) == StoreKey(c + [NUL] + d, b, a) == StoreKey(d, b + [NUL] + c, a)
  {
  }

  lemma NoNulsUnambiguous(key: string, session: string, job: string)
    requires NUL !in key && NUL !in session && NUL !in job
    ensures Unambiguous(key, session, job)
  {
    hide StoreKey, Nuls;
    forall key', session', job' | StoreKey(key', session', job') == StoreKey(key, session, job)
      ensures key' == key && session' == session && job' == job
    {
      StoreKeyNuls(key, session, job);
      StoreKeyNuls(key', session', job');
      NoNuls(key);
      NoNuls(session);
      NoNuls(job);
      NoNuls(session');
      NoNuls(job');
      StoreKeyInjective(key', session', job', key, session, job);
    }
  }

  /** The job id and a NUL begin the other job id, or run past it and its NUL into the session and the key. */
  predicate Clashes(job: string, p: Prefix) {
    || job + [NUL] <= p.jobId
    || (p.jobId + [NUL] <= job && job[|p.jobId| + 1..] + [NUL] <= p.sessionId + [NUL] + p.key)
  }

  lemma PrefixOfLonger(a: string, b: string, c: string)
    requires |a| <= |b|
    ensures a <= b + c <==> a <= b
  {
    assert (b + c)[..|a|] == b[..|a|];
  }

  lemma PrefixOfBoth(a: string, b: string, c: string)
    ensures a + b <= a + c <==> b <= c
  {
    if b <= c {
      assert a + c == a + b + c[|b|..];
    }
    if a + b <= a + c {
      assert (a + c)[|a|..] == c && (a + c)[..|a + b|][|a|..] == b;
    }
  }

  /** The textual filter of drain agrees with comparing job ids exactly when the two do not clash. */
  lemma DrainFilterIff(job: string, p: Prefix)
    ensures (job + [NUL] <= KeyOf(p) <==> p.jobId == job) <==> !Clashes(job, p)
    ensures NUL !in job ==> (Clashes(job, p) <==> job + [NUL] <= p.jobId)
  {
    hide StoreKey;
    var rest := p.sessionId + [NUL] + p.key;
    Regroup(p.jobId, p.sessionId, p.key);
    assert KeyOf(p) == p.jobId + ([NUL] + rest) == (p.jobId + [NUL]) + rest;
    PrefixHasNul(p.jobId, job);
    if |job| < |p.jobId| {
      PrefixOfLonger(job + [NUL], p.jobId, [NUL] + rest);
    } else if |job| == |p.jobId| {
      PrefixOfLonger(job + [NUL], p.jobId + [NUL], rest);
      assert job + [NUL] <= p.jobId + [NUL] ==> (p.jobId + [NUL])[..|job|] == job;
    } else {
      LongerJob(job, p.jobId, rest);
    }
  }

  lemma LongerJob(job: string, other: string, rest: string)
    requires |job| > |other|
    ensures job + [NUL] <= other + [NUL] + rest <==> other + [NUL] <= job && job[|other| + 1..] + [NUL] <= rest
  {
    var head := other + [NUL];
    if job + [NUL] <= head + rest {
      ShorterPrefix(job + [NUL], head, head + rest);
      PrefixOfLonger(head, job, [NUL]);
    }
    if head <= job {
      assert job + [NUL] == head + (job[|head|..] + [NUL]);
      PrefixOfBoth(head, job[|head|..] + [NUL], rest);
    }
  }

  lemma ShorterPrefix(a: string, b: string, whole: string)
    requires a <= whole && b <= whole && |b| <= |a|
    ensures b <= a
  {
  }

  // ---------- specification ----------

  datatype Store = Store(keys: seq<string>, prefixes: map<string, Prefix>)

  datatype Reason = Replaced | CapacityEvicted | Drained

  datatype Removal = Removal(prefix: Prefix, reason: Reason)

  ghost predicate WellFormed(s: Store) {
    && NoRepeats(s.keys)
    && (forall k :: k in s.keys <==> k in s.prefixes)
    && (forall k :: k in s.prefixes ==> k == KeyOf(s.prefixes[k]))
  }

  function Popped(s: Store, k: string): Store { Store(Without(s.keys, k), s.prefixes - {k}) }

  function Placed(s: Store, p: Prefix): Store {
    Store(Without(s.keys, KeyOf(p)) + [KeyOf(p)], s.prefixes[KeyOf(p) := p])
  }

  /** The oldest prefixes go until the capacity is met; a capacity of 0 is no bound. */
  function Shrunk(s: Store, capacity: nat): Store
    decreases |s.keys|
  {
    if capacity == 0 || |s.keys| <= capacity then s
    else Shrunk(Store(s.keys[1..], s.prefixes - {s.keys[0]}), capacity)
  }

  function AfterPut(s: Store, p: Prefix, capacity: nat): Store { Shrunk(Placed(s, p), capacity) }

  /** What one put removes: the prefix it replaces, or the oldest one a full store has no room for. */
  function PutRemovals(s: Store, p: Prefix, capacity: nat): seq<Removal> {
    if KeyOf(p) in s.prefixes then [Removal(s.prefixes[KeyOf(p)], Replaced)]
    else if capacity > 0 && |s.keys| == capacity && s.keys[0] in s.prefixes then
      [Removal(s.prefixes[s.keys[0]], CapacityEvicted)]
    else []
  }

  function Prefixes(removals: seq<Removal>): (ps: seq<Prefix>)
    ensures |ps| == |removals| && forall i :: 0 <= i < |removals| ==> ps[i] == removals[i].prefix
  {
    seq(|removals|, i requires 0 <= i < |removals| => removals[i].prefix)
  }

  lemma PlacedWellFormed(s: Store, p: Prefix)
    requires WellFormed(s)
    ensures WellFormed(Placed(s, p))
    ensures |Placed(s, p).keys| == if KeyOf(p) in s.prefixes then |s.keys| else |s.keys| + 1
  {
    hide StoreKey, Without;
    var k := KeyOf(p);
    WithoutNoRepeats(s.keys, k);
    forall x ensures x in Without(s.keys, k) <==> x in s.keys && x != k {
      WithoutMembers(s.keys, k, x);
    }
    if k in s.prefixes {
      WithoutSize(s.keys, k);
    } else {
      WithoutAbsent(s.keys, k);
    }
  }

  lemma FrontGone(s: Store)
    requires WellFormed(s) && s.keys != []
    ensures WellFormed(Store(s.keys[1..], s.prefixes - {s.keys[0]}))
    ensures Without(s.keys, s.keys[0]) == s.keys[1..]
  {
    hide StoreKey, Without;
    assert s.keys == [s.keys[0]] + s.keys[1..];
    WithoutAt(s.keys, 0);
    assert s.keys[..0] + s.keys[1..] == s.keys[1..];
  }

  lemma ShrunkByOne(s: Store, capacity: nat)
    requires capacity > 0 && |s.keys| == capacity + 1
    ensures Shrunk(s, capacity) == Store(s.keys[1..], s.prefixes - {s.keys[0]})
  {
    assert |s.keys[1..]| == capacity;
  }

  /** The bound is respected and a put drops at most one prefix, whichever way it is removed. */
  lemma PutDropsAtMostOne(s: Store, p: Prefix, capacity: nat)
    requires WellFormed(s) && (capacity > 0 ==> |s.keys| <= capacity)
    ensures var s' := AfterPut(s, p, capacity);
            && WellFormed(s') && (capacity > 0 ==> |s'.keys| <= capacity)
            && KeyOf(p) in s'.prefixes && s'.prefixes[KeyOf(p)] == p
            && (KeyOf(p) !in s.prefixes && capacity > 0 && |s.keys| == capacity ==>
                  s' == Popped(Placed(s, p), s.keys[0]) && s.keys[0] != KeyOf(p))
            && (KeyOf(p) in s.prefixes || capacity == 0 || |s.keys| < capacity ==> s' == Placed(s, p))
  {
    hide KeyOf, Without;
    PlacedWellFormed(s, p);
    if KeyOf(p) !in s.prefixes && capacity > 0 && |s.keys| == capacity {
      var placed := Placed(s, p);
      WithoutAbsent(s.keys, KeyOf(p));
      assert placed.keys[0] == s.keys[0];
      FrontGone(placed);
      ShrunkByOne(placed, capacity);
    }
  }

  // ---------- what a run of puts leaves ----------

  function KeysOf(history: seq<Prefix>): seq<string> {
    if history == [] then [] else KeysOf(history[..|history| - 1]) + [KeyOf(history[|history| - 1])]
  }

  /** The last `capacity` distinct keys put, or all of them when there is no capacity. */
  function Held(history: seq<Prefix>, capacity: nat): seq<string> {
    if capacity == 0 then ByLastTouch(KeysOf(history)) else LastDistinct(KeysOf(history), capacity)
  }

  function AfterPuts(history: seq<Prefix>, capacity: nat): Store {
    if history == [] then Store([], map[])
    else AfterPut(AfterPuts(history[..|history| - 1], capacity), history[|history| - 1], capacity)
  }

  ghost predicate IsLatest(history: seq<Prefix>, k: string, p: Prefix) {
    exists i :: 0 <= i < |history| && history[i] == p && KeyOf(p) == k
                && forall j :: i < j < |history| ==> KeyOf(history[j]) != k
  }

  lemma HeldStep(history: seq<Prefix>, p: Prefix, capacity: nat, s: Store)
    requires WellFormed(s) && s.keys == Held(history, capacity) && (capacity > 0 ==> |s.keys| <= capacity)
    ensures AfterPut(s, p, capacity).keys == Held(history + [p], capacity)
  {
    hide KeyOf, Without, ByLastTouch, LastN, Shrunk;
    var k := KeyOf(p);
    assert (history + [p])[..|history|] == history;
    PutDropsAtMostOne(s, p, capacity);
    PlacedWellFormed(s, p);
    if capacity == 0 {
      ByLastTouchSnoc(KeysOf(history), k);
    } else if k in s.prefixes {
      TouchHit(KeysOf(history), capacity, k);
    } else {
      TouchMiss(KeysOf(history), capacity, k);
      WithoutAbsent(s.keys, k);
      LastOfMiss(s.keys, k, capacity);
      if |s.keys| == capacity {
        FrontGone(Placed(s, p));
      }
    }
  }

  lemma LastOfMiss(keys: seq<string>, k: string, capacity: nat)
    requires 0 < capacity && |keys| <= capacity
    ensures LastN(keys + [k], capacity) == if |keys| == capacity then (keys + [k])[1..] else keys + [k]
  {
  }

  /** From an empty store, after any puts: exactly the last `capacity` distinct keys, each with its latest prefix. */
  lemma {:induction false} PutsHoldLastDistinct(history: seq<Prefix>, capacity: nat)
    ensures WellFormed(AfterPuts(history, capacity))
    ensures AfterPuts(history, capacity).keys == Held(history, capacity)
    ensures capacity > 0 ==> |AfterPuts(history, capacity).keys| <= capacity
    ensures forall k :: k in AfterPuts(history, capacity).prefixes ==>
              IsLatest(history, k, AfterPuts(history, capacity).prefixes[k])
  {
    hide KeyOf, AfterPut, WellFormed, Held;
    if history == [] {
      NothingHeld(capacity);
    } else {
      var (init, p) := (history[..|history| - 1], history[|history| - 1]);
      var s := AfterPuts(init, capacity);
      PutsHoldLastDistinct(init, capacity);
      assert history == init + [p];
      HeldStep(init, p, capacity, s);
      PutDropsAtMostOne(s, p, capacity);
      LatestStep(init, p, capacity, s);
    }
  }

  lemma NothingHeld(capacity: nat)
    ensures Held([], capacity) == [] && WellFormed(Store([], map[]))
  {
  }

  lemma LatestStep(history: seq<Prefix>, p: Prefix, capacity: nat, s: Store)
    requires WellFormed(s) && (capacity > 0 ==> |s.keys| <= capacity)
    requires forall k :: k in s.prefixes ==> IsLatest(history, k, s.prefixes[k])
    ensures forall k :: k in AfterPut(s, p, capacity).prefixes ==>
              IsLatest(history + [p], k, AfterPut(s, p, capacity).prefixes[k])
  {
    hide KeyOf, Without, Shrunk, WellFormed;
    PutDropsAtMostOne(s, p, capacity);
    var s' := AfterPut(s, p, capacity);
    forall k | k in s'.prefixes ensures IsLatest(history + [p], k, s'.prefixes[k]) {
      if k == KeyOf(p) {
        assert (history + [p])[|history|] == p;
      } else {
        var i :| 0 <= i < |history| && history[i] == s.prefixes[k] && KeyOf(s.prefixes[k]) == k
                 && forall j :: i < j < |history| ==> KeyOf(history[j]) != k;
        assert (history + [p])[i] == s.prefixes[k];
      }
    }
  }

  // ---------- lookups and drains ----------

  /** The keys of `chosen`, in list order. */
  function Filtered(keys: seq<string>, chosen: set<string>): seq<string> {
    if keys == [] then []
    else Filtered(keys[..|keys| - 1], chosen) + if keys[|keys| - 1] in chosen then [keys[|keys| - 1]] else []
  }

  lemma {:induction false} FilteredMembers(keys: seq<string>, chosen: set<string>, k: string)
    ensures k in Filtered(keys, chosen) <==> k in keys && k in chosen
  {
    if keys != [] {
      FilteredMembers(keys[..|keys| - 1], chosen, k);
      assert keys == keys[..|keys| - 1] + [keys[|keys| - 1]];
    }
  }

  lemma {:induction false} FilteredNoRepeats(keys: seq<string>, chosen: set<string>)
    requires NoRepeats(keys)
    ensures NoRepeats(Filtered(keys, chosen))
  {
    if keys != [] {
      FilteredNoRepeats(keys[..|keys| - 1], chosen);
      FilteredMembers(keys[..|keys| - 1], chosen, keys[|keys| - 1]);
    }
  }

  lemma {:induction false} FilteredSize(keys: seq<string>, chosen: set<string>)
    ensures |Filtered(keys, chosen)| <= |keys|
  {
    if keys != [] {
      FilteredSize(keys[..|keys| - 1], chosen);
    }
  }

  predicate Matches(p: Prefix, key: string, sessionId: string) { p.key == key && p.sessionId == sessionId }

  function MatchingKeys(s: Store, key: string, sessionId: string): set<string> {
    set k | k in s.prefixes && Matches(s.prefixes[k], key, sessionId)
  }

  /** The store key a lookup means: the exact one with a job, without a job the only match, if there is only one. */
  function Located(s: Store, key: string, sessionId: string, jobId: Option<string>): Option<string> {
    match jobId
    case Some(job) =>
      if StoreKey(key, sessionId, job) in s.prefixes then Some(StoreKey(key, sessionId, job)) else None
    case None =>
      var found := Filtered(s.keys, MatchingKeys(s, key, sessionId));
      if |found| == 1 then Some(found[0]) else None
  }

  /** The entries a drain selects; the job test alone is a test on the text of the store key. */
  predicate Selects(k: string, p: Prefix, sessionId: Option<string>, jobId: Option<string>) {
    match sessionId
    case None => jobId.Some? ==> jobId.value + [NUL] <= k
    case Some(session) => p.sessionId == session && (jobId.Some? ==> p.jobId == jobId.value)
  }

  predicate SelectsByIds(p: Prefix, sessionId: Option<string>, jobId: Option<string>) {
    (sessionId.Some? ==> p.sessionId == sessionId.value) && (jobId.Some? ==> p.jobId == jobId.value)
  }

  lemma PrefixHasNul(job: string, id: string)
    ensures job + [NUL] <= id ==> NUL in id
  {
    if job + [NUL] <= id {
      assert id[|job|] == NUL;
    }
  }

  /** With NUL-free job ids a drain selects by ids, whichever of its two forms runs. */
  lemma SelectsAgree(p: Prefix, sessionId: Option<string>, jobId: Option<string>)
    requires NUL !in p.jobId && (jobId.Some? ==> NUL !in jobId.value)
    ensures Selects(KeyOf(p), p, sessionId, jobId) <==> SelectsByIds(p, sessionId, jobId)
  {
    if sessionId == None && jobId.Some? {
      DrainFilterIff(jobId.value, p);
      PrefixHasNul(jobId.value, p.jobId);
    }
  }

  function SelectedKeys(s: Store, sessionId: Option<string>, jobId: Option<string>): set<string> {
    set k | k in s.prefixes && Selects(k, s.prefixes[k], sessionId, jobId)
  }

  function PrefixesAt(s: Store, keys: seq<string>): (ps: seq<Prefix>)
    requires forall k :: k in keys ==> k in s.prefixes
    ensures |ps| == |keys| && forall i :: 0 <= i < |keys| ==> ps[i] == s.prefixes[keys[i]]
  {
    seq(|keys|, i requires 0 <= i < |keys| => s.prefixes[keys[i]])
  }

  function DrainedKeys(s: Store, sessionId: Option<string>, jobId: Option<string>): (drained: seq<string>)
    ensures forall k :: k in drained ==> k in s.prefixes
  {
    DrainedAreHeld(s, sessionId, jobId);
    Filtered(s.keys, SelectedKeys(s, sessionId, jobId))
  }

  lemma DrainedAreHeld(s: Store, sessionId: Option<string>, jobId: Option<string>)
    ensures forall k :: k in Filtered(s.keys, SelectedKeys(s, sessionId, jobId)) ==> k in s.prefixes
  {
    forall k | k in Filtered(s.keys, SelectedKeys(s, sessionId, jobId)) ensures k in s.prefixes {
      FilteredMembers(s.keys, SelectedKeys(s, sessionId, jobId), k);
    }
  }

  function AfterDrain(s: Store, sessionId: Option<string>, jobId: Option<string>): Store {
    var gone := SelectedKeys(s, sessionId, jobId);
    Store(Filtered(s.keys, s.prefixes.Keys - gone), s.prefixes - gone)
  }

  lemma DrainKeepsTheRest(s: Store, sessionId: Option<string>, jobId: Option<string>)
    requires WellFormed(s)
    ensures WellFormed(AfterDrain(s, sessionId, jobId)) && |AfterDrain(s, sessionId, jobId).keys| <= |s.keys|
  {
    hide Filtered, KeyOf, Selects;
    var gone := SelectedKeys(s, sessionId, jobId);
    FilteredNoRepeats(s.keys, s.prefixes.Keys - gone);
    FilteredSize(s.keys, s.prefixes.Keys - gone);
    forall k ensures k in Filtered(s.keys, s.prefixes.Keys - gone) <==> k in s.prefixes - gone {
      FilteredMembers(s.keys, s.prefixes.Keys - gone, k);
    }
  }

  lemma FilterNone(keys: seq<string>)
    ensures Filtered(keys, {}) == []
  {
  }

  lemma {:induction false} FilterAll(keys: seq<string>, chosen: set<string>)
    requires forall k :: k in keys ==> k in chosen
    ensures Filtered(keys, chosen) == keys
  {
    if keys != [] {
      FilterAll(keys[..|keys| - 1], chosen);
    }
  }

  // ---------- the class ----------

  class PrefixStore {
    const maxPrefixes: nat
    var keys: seq<string>
    var prefixes: map<string, Prefix>
    var generation: nat

    ghost function View(): Store
      reads this
    {
      Store(keys, prefixes)
    }

    ghost predicate Valid()
      reads this
    {
      WellFormed(View()) && (maxPrefixes > 0 ==> |keys| <= maxPrefixes)
    }

    /** A negative capacity is taken as none. */
    constructor (capacity: int)
      ensures Valid() && maxPrefixes == Max(0, capacity) && View() == Store([], map[]) && generation == 0
    {
      maxPrefixes := Max(0, capacity);
      keys, prefixes, generation := [], map[], 0;
    }

    /** Pop, append, and drop from the front while over the capacity. */
    method Place(p: Prefix) returns (previous: Option<Prefix>, dropped: seq<Prefix>)
      requires Valid()
      modifies `keys, `prefixes
      ensures Valid() && View() == AfterPut(old(View()), p, maxPrefixes)
      ensures previous == if KeyOf(p) in old(prefixes) then Some(old(prefixes)[KeyOf(p)]) else None
      ensures dropped == if previous == None && maxPrefixes > 0 && |old(keys)| == maxPrefixes
                         then [old(prefixes)[old(keys)[0]]] else []
    {
      hide KeyOf, Without;
      ghost var before := View();
      PutDropsAtMostOne(before, p, maxPrefixes);
      PlacedWellFormed(before, p);
      var k := KeyOf(p);
      previous := if k in prefixes then Some(prefixes[k]) else None;
      keys := Without(keys, k) + [k];
      prefixes := prefixes[k := p];
      dropped := [];
      ghost var placed := View();
      assert placed == Placed(before, p);
      if previous == None {
        WithoutAbsent(before.keys, k);
      }
      while maxPrefixes > 0 && |keys| > maxPrefixes
        invariant WellFormed(View())
        invariant Shrunk(View(), maxPrefixes) == Shrunk(placed, maxPrefixes)
        invariant |keys| == |placed.keys| ==> View() == placed && dropped == []
        invariant |keys| != |placed.keys| ==>
                    && previous == None && |before.keys| == maxPrefixes > 0 && |keys| == maxPrefixes
                    && dropped == [before.prefixes[before.keys[0]]]
        decreases |keys|
      {
        FrontGone(View());
        dropped := dropped + [prefixes[keys[0]]];
        prefixes := prefixes - {keys[0]};
        keys := keys[1..];
      }
    }

    method Put(p: Prefix) returns (r: Result<seq<Prefix>, StoreError>)
      requires Valid()
      modifies `keys, `prefixes
      ensures Valid()
      ensures p.key == [] ==> r == Err(EmptyKey) && View() == old(View())
      ensures p.key != [] ==> View() == AfterPut(old(View()), p, maxPrefixes)
      ensures p.key != [] ==> r == Ok(Prefixes(PutRemovals(old(View()), p, maxPrefixes)))
    {
      if p.key == [] {
        return Err(EmptyKey);
      }
      ghost var removals := PutRemovals(View(), p, maxPrefixes);
      assert keys != [] ==> keys[0] in keys;
      var previous, dropped := Place(p);
      var evicted := (if previous.Some? then [previous.value] else []) + dropped;
      assert evicted == Prefixes(removals);
      return Ok(evicted);
    }

    method PutWithLifecycle(p: Prefix) returns (r: Result<seq<Removal>, StoreError>)
      requires Valid()
      modifies this
      ensures Valid()
      ensures p.key == [] ==> r == Err(EmptyKey) && View() == old(View()) && generation == old(generation)
      ensures p.key != [] ==>
                && View() == AfterPut(old(View()), p, maxPrefixes) && generation == old(generation) + 1
                && r == Ok(PutRemovals(old(View()), p, maxPrefixes))
    {
      if p.key == [] {
        return Err(EmptyKey);
      }
      generation := generation + 1;
      ghost var expected := PutRemovals(View(), p, maxPrefixes);
      assert keys != [] ==> keys[0] in keys;
      var previous, dropped := Place(p);
      var removals := if previous.Some? then [Removal(previous.value, Replaced)] else [];
      for i := 0 to |dropped|
        invariant |removals| == i + if previous.Some? then 1 else 0
        invariant previous.Some? ==> removals[0] == Removal(previous.value, Replaced)
        invariant previous == None ==> forall j :: 0 <= j < i ==> removals[j] == Removal(dropped[j], CapacityEvicted)
      {
        removals := removals + [Removal(dropped[i], CapacityEvicted)];
      }
      assert removals == expected;
      return Ok(removals);
    }

    method Locate(key: string, sessionId: string, jobId: Option<string>) returns (found: Option<string>)
      requires Valid()
      ensures found == Located(View(), key, sessionId, jobId)
      ensures found.Some? ==> found.value in prefixes
    {
      if jobId.Some? {
        var k := StoreKey(key, sessionId, jobId.value);
        return if k in prefixes then Some(k) else None;
      }
      var matches := [];
      ghost var chosen := MatchingKeys(View(), key, sessionId);
      for i := 0 to |keys|
        invariant matches == Filtered(keys[..i], chosen)
        invariant forall k :: k in matches ==> k in prefixes
      {
        assert keys[..i + 1][..i] == keys[..i];
        assert keys[i] in keys;
        if Matches(prefixes[keys[i]], key, sessionId) {
          matches := matches + [keys[i]];
        }
      }
      assert keys[..|keys|] == keys;
      return if |matches| == 1 then Some(matches[0]) else None;
    }

    method Get(key: string, sessionId: string, jobId: Option<string>) returns (r: Option<Prefix>)
      requires Valid()
      ensures Located(View(), key, sessionId, jobId) == None ==> r == None
      ensures Located(View(), key, sessionId, jobId).Some? ==>
                var k := Located(View(), key, sessionId, jobId).value; k in prefixes && r == Some(prefixes[k])
    {
      var found := Locate(key, sessionId, jobId);
      return if found.Some? then Some(prefixes[found.value]) else None;
    }

    method Remove(key: string, sessionId: string, jobId: Option<string>) returns (r: Option<Prefix>)
      requires Valid()
      modifies `keys, `prefixes
      ensures Valid()
      ensures Located(old(View()), key, sessionId, jobId) == None ==> r == None && View() == old(View())
      ensures Located(old(View()), key, sessionId, jobId).Some? ==>
                var k := Located(old(View()), key, sessionId, jobId).value;
                k in old(prefixes) && r == Some(old(prefixes)[k]) && View() == Popped(old(View()), k)
    {
      hide KeyOf, Without, Located;
      var found := Locate(key, sessionId, jobId);
      if found == None {
        return None;
      }
      PopKeeps(View(), found.value);
      r := Some(prefixes[found.value]);
      keys := Without(keys, found.value);
      prefixes := prefixes - {found.value};
    }

    method Drain(sessionId: Option<string>, jobId: Option<string>) returns (removed: seq<Prefix>)
      requires Valid()
      modifies `keys, `prefixes
      ensures Valid() && View() == AfterDrain(old(View()), sessionId, jobId)
      ensures removed == PrefixesAt(old(View()), DrainedKeys(old(View()), sessionId, jobId))
    {
      hide KeyOf, Selects, Without, Filtered, WellFormed, DrainedUpTo, AfterDrain, DrainedKeys;
      ghost var before := View();
      ghost var gone := SelectedKeys(before, sessionId, jobId);
      ghost var stay := before.prefixes.Keys - gone;
      DrainKeepsTheRest(before, sessionId, jobId);
      if sessionId == None && jobId == None {
        DrainOfAll(before);
        removed := PrefixesAt(Store(keys, prefixes), keys);
        keys, prefixes := [], map[];
        return;
      }
      var snapshot := keys;
      removed := [];
      StartOfDrain(before, gone, stay);
      for i := 0 to |snapshot|
        invariant DrainedUpTo(before, gone, stay, i, View(), removed)
      {
        var k := snapshot[i];
        DrainStep(before, gone, stay, i, View(), removed);
        if Selects(k, prefixes[k], sessionId, jobId) {
          removed := removed + [prefixes[k]];
          keys := Without(keys, k);
          prefixes := prefixes - {k};
        }
      }
      EndOfDrain(before, sessionId, jobId, View(), removed);
    }
  }

  lemma PopKeeps(s: Store, k: string)
    requires WellFormed(s) && k in s.prefixes
    ensures WellFormed(Popped(s, k)) && |Popped(s, k).keys| == |s.keys| - 1
  {
    hide KeyOf, Without;
    WithoutNoRepeats(s.keys, k);
    WithoutSize(s.keys, k);
    forall x ensures x in Without(s.keys, k) <==> x in s.keys && x != k {
      WithoutMembers(s.keys, k, x);
    }
  }

  lemma DrainOfAll(s: Store)
    requires WellFormed(s)
    ensures AfterDrain(s, None, None) == Store([], map[]) && DrainedKeys(s, None, None) == s.keys
  {
    var gone := SelectedKeys(s, None, None);
    assert gone == s.prefixes.Keys;
    FilterAll(s.keys, gone);
    assert s.prefixes.Keys - gone == {};
    FilterNone(s.keys);
  }

  /** After the first i keys: what is gone has been returned, what stays is in place, the rest is untouched. */
  ghost predicate DrainedUpTo(before: Store, gone: set<string>, stay: set<string>, i: nat, s: Store,
                              removed: seq<Prefix>) {
    && i <= |before.keys|
    && s.keys == Filtered(before.keys[..i], stay) + before.keys[i..]
    && (forall k :: k in s.prefixes <==> k in before.prefixes && (k in before.keys[..i] ==> k !in gone))
    && (forall k :: k in s.prefixes ==> s.prefixes[k] == before.prefixes[k])
    && (forall k :: k in Filtered(before.keys[..i], gone) ==> k in before.prefixes)
    && removed == PrefixesAt(before, Filtered(before.keys[..i], gone))
  }

  lemma StartOfDrain(before: Store, gone: set<string>, stay: set<string>)
    ensures DrainedUpTo(before, gone, stay, 0, before, [])
  {
    assert before.keys[..0] == [] && [] + before.keys[0..] == before.keys;
  }

  lemma FilteredNext(keys: seq<string>, i: nat, chosen: set<string>)
    requires i < |keys|
    ensures Filtered(keys[..i + 1], chosen) == Filtered(keys[..i], chosen) + if keys[i] in chosen then [keys[i]] else []
  {
    assert keys[..i + 1][..i] == keys[..i];
  }

  lemma DrainStep(before: Store, gone: set<string>, stay: set<string>, i: nat, s: Store, removed: seq<Prefix>)
    requires WellFormed(before) && DrainedUpTo(before, gone, stay, i, s, removed) && i < |before.keys|
    requires gone <= before.prefixes.Keys && stay == before.prefixes.Keys - gone
    ensures var k := before.keys[i];
            && k in s.prefixes && k in before.prefixes && s.prefixes[k] == before.prefixes[k]
            && (k in gone ==> DrainedUpTo(before, gone, stay, i + 1, Popped(s, k), removed + [before.prefixes[k]]))
            && (k !in gone ==> DrainedUpTo(before, gone, stay, i + 1, s, removed))
  {
    hide KeyOf, Without, Filtered;
    var k := before.keys[i];
    assert k in before.keys && k !in before.keys[..i];
    assert before.keys[..i + 1] == before.keys[..i] + [k];
    FilteredNext(before.keys, i, gone);
    FilteredNext(before.keys, i, stay);
    SplitAt(before, stay, i);
  }

  lemma SplitAt(before: Store, stay: set<string>, i: nat)
    requires WellFormed(before) && i < |before.keys|
    ensures var (k, kept) := (before.keys[i], Filtered(before.keys[..i], stay));
            && kept + before.keys[i..] == kept + [k] + before.keys[i + 1..]
            && (k !in stay ==> Without(kept + before.keys[i..], k) == kept + before.keys[i + 1..])
  {
    hide KeyOf, Without, Filtered;
    var (k, kept) := (before.keys[i], Filtered(before.keys[..i], stay));
    assert before.keys[i..] == [k] + before.keys[i + 1..];
    assert kept + ([k] + before.keys[i + 1..]) == kept + [k] + before.keys[i + 1..];
    if k !in stay {
      FilteredMembers(before.keys[..i], stay, k);
      assert k !in before.keys[i + 1..];
      WithoutMiddle(kept, k, before.keys[i + 1..]);
    }
  }

  lemma EndOfDrain(before: Store, sessionId: Option<string>, jobId: Option<string>, s: Store, removed: seq<Prefix>)
    requires WellFormed(before)
    requires var gone := SelectedKeys(before, sessionId, jobId);
             DrainedUpTo(before, gone, before.prefixes.Keys - gone, |before.keys|, s, removed)
    ensures s == AfterDrain(before, sessionId, jobId)
    ensures removed == PrefixesAt(before, DrainedKeys(before, sessionId, jobId))
  {
    hide KeyOf, Selects, Filtered;
    assert before.keys[..|before.keys|] == before.keys;
    var gone := SelectedKeys(before, sessionId, jobId);
    assert s.keys == Filtered(before.keys, before.prefixes.Keys - gone);
    assert s.prefixes == before.prefixes - gone;
  }

  // ---------- what lookups and drains mean ----------

  predicate IdsWithoutNul(p: Prefix) { NUL !in p.jobId && NUL !in p.sessionId }

  /** With NUL-free ids a lookup with a job finds exactly the prefix saved under these ids, if there is one. */
  lemma LookupFindsIds(s: Store, key: string, sessionId: string, jobId: string)
    requires WellFormed(s) && NUL !in sessionId && NUL !in jobId
    requires forall k :: k in s.prefixes ==> IdsWithoutNul(s.prefixes[k])
    ensures var found := Located(s, key, sessionId, Some(jobId));
            && (found.Some? ==> found.value in s.prefixes)
            && (forall k :: k in s.prefixes ==>
                  (found == Some(k) <==>
                    s.prefixes[k].key == key && s.prefixes[k].sessionId == sessionId && s.prefixes[k].jobId == jobId))
  {
    forall k | k in s.prefixes
      ensures k == StoreKey(key, sessionId, jobId) <==>
                s.prefixes[k].key == key && s.prefixes[k].sessionId == sessionId && s.prefixes[k].jobId == jobId
    {
      var p := s.prefixes[k];
      StoreKeyInjective(p.key, p.sessionId, p.jobId, key, sessionId, jobId);
    }
  }

  /** Without a job a lookup answers exactly when one entry has this key and session, and then with that entry. */
  lemma LookupWithoutJob(s: Store, key: string, sessionId: string, k: string)
    requires WellFormed(s)
    ensures Located(s, key, sessionId, None) == Some(k) <==>
              && k in s.prefixes && s.prefixes[k].key == key && s.prefixes[k].sessionId == sessionId
              && forall x :: x in s.prefixes && s.prefixes[x].key == key && s.prefixes[x].sessionId == sessionId ==>
                x == k
  {
    hide KeyOf;
    var chosen := MatchingKeys(s, key, sessionId);
    var found := Filtered(s.keys, chosen);
    FilteredNoRepeats(s.keys, chosen);
    forall x ensures x in found <==> x in s.prefixes && Matches(s.prefixes[x], key, sessionId) {
      FilteredMembers(s.keys, chosen, x);
    }
    if |found| >= 2 {
      assert found[0] in found && found[1] in found && found[0] != found[1];
    } else if |found| == 1 {
      assert found[0] in found;
    }
  }

  /** With NUL-free job ids a drain takes exactly the prefixes with the given ids and leaves all others, in order. */
  lemma DrainTakesIds(s: Store, sessionId: Option<string>, jobId: Option<string>)
    requires WellFormed(s) && (jobId.Some? ==> NUL !in jobId.value)
    requires forall k :: k in s.prefixes ==> IdsWithoutNul(s.prefixes[k])
    ensures forall k :: k in AfterDrain(s, sessionId, jobId).prefixes <==>
                          k in s.prefixes && !SelectsByIds(s.prefixes[k], sessionId, jobId)
    ensures forall k :: k in DrainedKeys(s, sessionId, jobId) <==>
                          k in s.prefixes && SelectsByIds(s.prefixes[k], sessionId, jobId)
  {
    hide KeyOf, Filtered, Selects, SelectsByIds;
    forall k | k in s.prefixes
      ensures Selects(k, s.prefixes[k], sessionId, jobId) <==> SelectsByIds(s.prefixes[k], sessionId, jobId)
    {
      SelectsAgree(s.prefixes[k], sessionId, jobId);
    }
    forall k ensures k in DrainedKeys(s, sessionId, jobId) <==> k in s.keys && k in SelectedKeys(s, sessionId, jobId) {
      FilteredMembers(s.keys, SelectedKeys(s, sessionId, jobId), k);
    }
  }
}
