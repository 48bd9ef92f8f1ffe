/**
  A connector keeps its saved prefixes twice: in its own bounded store and in the unbounded
  store all connectors of the process share. After every successful save the shared entries
  of its job and session are exactly its own, in the same order.
 */
module GlobalPrefixes {
  import opened Common
  import opened Recency
  import opened PrefixStores

  /** How the store keys of one job and session begin. */
  function Head(jobId: string, sessionId: string): string { jobId + [NUL] + sessionId + [NUL] }

  predicate Ours(p: Prefix, jobId: string, sessionId: string) { p.jobId == jobId && p.sessionId == sessionId }

  function OurKeys(keys: seq<string>, head: string): seq<string> {
    if keys == [] then []
    else OurKeys(keys[..|keys| - 1], head) + if head <= keys[|keys| - 1] then [keys[|keys| - 1]] else []
  }

  /** The shared entries of this job and session are the connector's own, with the same prefixes, in the same order. */
  ghost predicate Agree(own: Store, shared: Store, jobId: string, sessionId: string) {
    && own.keys == OurKeys(shared.keys, Head(jobId, sessionId))
    && forall k :: k in own.prefixes ==> k in shared.prefixes && shared.prefixes[k] == own.prefixes[k]
  }

  ghost predicate AllOurs(own: Store, jobId: string, sessionId: string) {
    forall k :: k in own.prefixes ==> Ours(own.prefixes[k], jobId, sessionId)
  }

  // ---------- specification ----------

  /** A removal is passed on unless it was the saved key itself. */
  function Forgotten(shared: Store, p: Prefix, removal: Removal): Store {
    var q := removal.prefix;
    if q.key == p.key || KeyOf(q) !in shared.prefixes then shared else Popped(shared, KeyOf(q))
  }

  function AllForgotten(shared: Store, p: Prefix, removals: seq<Removal>): Store {
    if removals == [] then shared
    else Forgotten(AllForgotten(shared, p, removals[..|removals| - 1]), p, removals[|removals| - 1])
  }

  /** The shared store after a save that removed `removals` from the connector's own store. */
  function Published(shared: Store, p: Prefix, removals: seq<Removal>): Store {
    AllForgotten(Placed(shared, p), p, removals)
  }

  // ---------- filtering by job and session ----------

  lemma {:induction false} OurKeysAppend(a: seq<string>, b: seq<string>, head: string)
    ensures OurKeys(a + b, head) == OurKeys(a, head) + OurKeys(b, head)
  {
    if b == [] {
      assert a + b == a;
    } else {
      assert (a + b)[..|a + b| - 1] == a + b[..|b| - 1];
      OurKeysAppend(a, b[..|b| - 1], head);
    }
  }

  lemma {:induction false} OurKeysMembers(keys: seq<string>, head: string, k: string)
    ensures k in OurKeys(keys, head) <==> k in keys && head <= k
  {
    if keys != [] {
      OurKeysMembers(keys[..|keys| - 1], head, k);
      assert keys == keys[..|keys| - 1] + [keys[|keys| - 1]];
    }
  }

  lemma {:induction false} OurKeysWithout(keys: seq<string>, head: string, k: string)
    ensures OurKeys(Without(keys, k), head) == Without(OurKeys(keys, head), k)
  {
    if keys != [] {
      var (init, last) := (keys[..|keys| - 1], keys[|keys| - 1]);
      OurKeysWithout(init, head, k);
      OneKey(last, head);
      WithoutOne(last, k);
      if last != k {
        OurKeysAppend(Without(init, k), [last], head);
      }
      WithoutConcat(OurKeys(init, head), if head <= last then [last] else [], k);
      assert Without(init, k) + [] == Without(init, k);
      assert Without(OurKeys(init, head), k) + [] == Without(OurKeys(init, head), k);
      assert OurKeys(Without(init, k), head) + [] == OurKeys(Without(init, k), head);
    }
  }

  lemma OneKey(k: string, head: string)
    ensures OurKeys([k], head) == if head <= k then [k] else []
  {
    assert [k][..0] == [];
  }

  lemma WithoutOne(x: string, k: string)
    ensures Without([x], k) == if x == k then [] else [x]
    ensures Without([], k) == []
  {
    assert [x][..0] == [];
  }

  lemma OursHasHead(p: Prefix, jobId: string, sessionId: string)
    requires Ours(p, jobId, sessionId)
    ensures KeyOf(p) == Head(jobId, sessionId) + p.key && Head(jobId, sessionId) <= KeyOf(p)
  {
  }

  // ---------- one save ----------

  lemma PlacedAgrees(own: Store, shared: Store, p: Prefix, jobId: string, sessionId: string)
    requires WellFormed(own) && WellFormed(shared) && Agree(own, shared, jobId, sessionId) && Ours(p, jobId, sessionId)
    ensures Agree(Placed(own, p), Placed(shared, p), jobId, sessionId)
  {
    hide KeyOf, Without, OurKeys, Head;
    var (k, head) := (KeyOf(p), Head(jobId, sessionId));
    OursHasHead(p, jobId, sessionId);
    OurKeysAppend(Without(shared.keys, k), [k], head);
    OneKey(k, head);
    OurKeysWithout(shared.keys, head, k);
  }

  lemma PoppedAgrees(own: Store, shared: Store, k: string, jobId: string, sessionId: string)
    requires Agree(own, shared, jobId, sessionId)
    ensures Agree(Popped(own, k), Popped(shared, k), jobId, sessionId)
  {
    hide Without, OurKeys, Head;
    OurKeysWithout(shared.keys, Head(jobId, sessionId), k);
  }

  lemma OneForgotten(shared: Store, p: Prefix, removal: Removal)
    ensures AllForgotten(shared, p, [removal]) == Forgotten(shared, p, removal)
  {
    assert [removal][..0] == [];
  }

  /** After the save of a prefix of this job and session both stores agree again. */
  lemma SaveAgrees(own: Store, shared: Store, p: Prefix, capacity: nat, jobId: string, sessionId: string)
    requires WellFormed(own) && WellFormed(shared) && (capacity > 0 ==> |own.keys| <= capacity)
    requires AllOurs(own, jobId, sessionId) && Agree(own, shared, jobId, sessionId) && Ours(p, jobId, sessionId)
    ensures Agree(AfterPut(own, p, capacity), Published(shared, p, PutRemovals(own, p, capacity)), jobId, sessionId)
    ensures AllOurs(AfterPut(own, p, capacity), jobId, sessionId)
  {
    hide KeyOf, Agree, Without, Shrunk, Head;
    PutDropsAtMostOne(own, p, capacity);
    PlacedAgrees(own, shared, p, jobId, sessionId);
    if KeyOf(p) in own.prefixes {
      SameKeySaved(own, p);
      OneForgotten(Placed(shared, p), p, Removal(own.prefixes[KeyOf(p)], Replaced));
    } else if capacity > 0 && |own.keys| == capacity {
      OldestForgotten(own, shared, p, jobId, sessionId);
      PoppedAgrees(Placed(own, p), Placed(shared, p), own.keys[0], jobId, sessionId);
    }
  }

  lemma SameKeySaved(own: Store, p: Prefix)
    requires WellFormed(own) && KeyOf(p) in own.prefixes && Ours(own.prefixes[KeyOf(p)], p.jobId, p.sessionId)
    ensures own.prefixes[KeyOf(p)].key == p.key
  {
    var q := own.prefixes[KeyOf(p)];
    OursHasHead(p, p.jobId, p.sessionId);
    OursHasHead(q, p.jobId, p.sessionId);
    Cancel(Head(p.jobId, p.sessionId), q.key, p.key);
  }

  /** The evicted prefix has another key than the saved one, and the shared store has it. */
  lemma OldestForgotten(own: Store, shared: Store, p: Prefix, jobId: string, sessionId: string)
    requires WellFormed(own) && WellFormed(shared) && own.keys != []
    requires AllOurs(own, jobId, sessionId) && Agree(own, shared, jobId, sessionId) && Ours(p, jobId, sessionId)
    requires KeyOf(p) !in own.prefixes
    ensures own.keys[0] in own.prefixes
    ensures var removal := Removal(own.prefixes[own.keys[0]], CapacityEvicted);
            AllForgotten(Placed(shared, p), p, [removal]) == Popped(Placed(shared, p), own.keys[0])
  {
    hide Without, OurKeys, Head, StoreKey;
    assert own.keys[0] in own.keys;
    var q := own.prefixes[own.keys[0]];
    assert q.key == p.key ==> KeyOf(q) == KeyOf(p);
    OneForgotten(Placed(shared, p), p, Removal(q, CapacityEvicted));
  }

  /** What other jobs and sessions have in the shared store stays. */
  lemma OthersUntouched(own: Store, shared: Store, p: Prefix, capacity: nat, jobId: string, sessionId: string,
                        k: string)
    requires WellFormed(own) && AllOurs(own, jobId, sessionId) && Ours(p, jobId, sessionId)
    requires !(Head(jobId, sessionId) <= k)
    ensures var shared' := Published(shared, p, PutRemovals(own, p, capacity));
            && (k in shared'.prefixes <==> k in shared.prefixes)
            && (k in shared.prefixes ==> shared'.prefixes[k] == shared.prefixes[k])
            && (k in shared'.keys <==> k in shared.keys)
  {
    hide KeyOf, Without, Head;
    OursHasHead(p, jobId, sessionId);
    var placed := Placed(shared, p);
    WithoutMembers(shared.keys, KeyOf(p), k);
    var removals := PutRemovals(own, p, capacity);
    if removals != [] {
      assert removals == [removals[0]];
      var q := removals[0].prefix;
      OursHasHead(q, jobId, sessionId);
      OneForgotten(placed, p, removals[0]);
      WithoutMembers(placed.keys, KeyOf(q), k);
    }
  }

  /** With NUL-free ids, a store key begins this way exactly when it belongs to this job and session. */
  lemma HeadMeansIds(p: Prefix, jobId: string, sessionId: string)
    requires IdsWithoutNul(p) && NUL !in jobId && NUL !in sessionId
    ensures Head(jobId, sessionId) <= KeyOf(p) <==> Ours(p, jobId, sessionId)
  {
    if Head(jobId, sessionId) <= KeyOf(p) {
      var key := KeyOf(p)[|Head(jobId, sessionId)|..];
      assert KeyOf(p) == StoreKey(key, sessionId, jobId);
      assert KeyOf(p) == StoreKey(p.key, p.sessionId, p.jobId);
      StoreKeyInjective(p.key, p.sessionId, p.jobId, key, sessionId, jobId);
    } else if Ours(p, jobId, sessionId) {
      OursHasHead(p, jobId, sessionId);
    }
  }

  /** So, as ids: a prefix of the shared store is the connector's if and only if the connector's own store has it. */
  lemma AgreementByIds(own: Store, shared: Store, jobId: string, sessionId: string, k: string)
    requires WellFormed(own) && WellFormed(shared) && Agree(own, shared, jobId, sessionId)
    requires NUL !in jobId && NUL !in sessionId && k in shared.prefixes && IdsWithoutNul(shared.prefixes[k])
    ensures Ours(shared.prefixes[k], jobId, sessionId) <==> k in own.prefixes
    ensures k in own.prefixes ==> own.prefixes[k] == shared.prefixes[k]
  {
    hide KeyOf, Head;
    HeadMeansIds(shared.prefixes[k], jobId, sessionId);
    OurKeysMembers(shared.keys, Head(jobId, sessionId), k);
  }

  // ---------- runs of saves ----------

  /** One connector saves, in order, and everyone else may change the shared store's other entries in between. */
  datatype SaveStep = Saved(prefix: Prefix) | OthersChanged(shared: Store)

  datatype Pair = Pair(own: Store, shared: Store)

  ghost predicate OthersOnly(before: Store, after: Store, head: string) {
    && WellFormed(after) && OurKeys(after.keys, head) == OurKeys(before.keys, head)
    && forall k :: head <= k && k in before.prefixes ==> k in after.prefixes && after.prefixes[k] == before.prefixes[k]
  }

  ghost predicate Allowed(s: Pair, step: SaveStep, jobId: string, sessionId: string) {
    match step
    case Saved(p) => Ours(p, jobId, sessionId)
    case OthersChanged(shared) => OthersOnly(s.shared, shared, Head(jobId, sessionId))
  }

  function NextPair(s: Pair, step: SaveStep, capacity: nat): Pair {
    match step
    case Saved(p) => Pair(AfterPut(s.own, p, capacity), Published(s.shared, p, PutRemovals(s.own, p, capacity)))
    case OthersChanged(shared) => Pair(s.own, shared)
  }

  ghost predicate PairInv(s: Pair, capacity: nat, jobId: string, sessionId: string) {
    && WellFormed(s.own) && WellFormed(s.shared) && (capacity > 0 ==> |s.own.keys| <= capacity)
    && AllOurs(s.own, jobId, sessionId) && Agree(s.own, s.shared, jobId, sessionId)
  }

  lemma PublishedWellFormed(own: Store, shared: Store, p: Prefix, capacity: nat)
    requires WellFormed(own) && WellFormed(shared)
    ensures WellFormed(Published(shared, p, PutRemovals(own, p, capacity)))
  {
    hide KeyOf, Without, Placed, Popped, WellFormed;
    PlacedWellFormed(shared, p);
    var removals := PutRemovals(own, p, capacity);
    if removals != [] {
      assert removals == [removals[0]];
      OneForgotten(Placed(shared, p), p, removals[0]);
      if KeyOf(removals[0].prefix) in Placed(shared, p).prefixes {
        PopKeeps(Placed(shared, p), KeyOf(removals[0].prefix));
      }
    }
  }

  lemma StepKeepsPair(s: Pair, step: SaveStep, capacity: nat, jobId: string, sessionId: string)
    requires PairInv(s, capacity, jobId, sessionId) && Allowed(s, step, jobId, sessionId)
    ensures PairInv(NextPair(s, step, capacity), capacity, jobId, sessionId)
  {
    hide KeyOf, Published, WellFormed, AfterPut;
    match step {
      case Saved(p) =>
        hide Agree, AllOurs;
        SaveAgrees(s.own, s.shared, p, capacity, jobId, sessionId);
        PutDropsAtMostOne(s.own, p, capacity);
        PublishedWellFormed(s.own, s.shared, p, capacity);
      case OthersChanged(shared) =>
        OurOwnHaveHead(s.own, jobId, sessionId);
    }
  }

  lemma OurOwnHaveHead(own: Store, jobId: string, sessionId: string)
    requires WellFormed(own) && AllOurs(own, jobId, sessionId)
    ensures forall k :: k in own.prefixes ==> Head(jobId, sessionId) <= k
  {
    forall k | k in own.prefixes ensures Head(jobId, sessionId) <= k {
      OursHasHead(own.prefixes[k], jobId, sessionId);
    }
  }

  ghost predicate IsRun(states: seq<Pair>, steps: seq<SaveStep>, capacity: nat, jobId: string, sessionId: string) {
    && |states| == |steps| + 1
    && states[0] == Pair(Store([], map[]), Store([], map[]))
    && forall i :: 0 <= i < |steps| ==>
         Allowed(states[i], steps[i], jobId, sessionId) && states[i + 1] == NextPair(states[i], steps[i], capacity)
  }

  /** In every state of every run the shared entries of this job and session are exactly the connector's own. */
  lemma {:induction false} RunAgrees(states: seq<Pair>, steps: seq<SaveStep>, capacity: nat, jobId: string,
                                     sessionId: string, n: nat)
    requires IsRun(states, steps, capacity, jobId, sessionId) && n <= |steps|
    ensures PairInv(states[n], capacity, jobId, sessionId)
  {
    hide PairInv, NextPair, Allowed;
    if n == 0 {
      EmptyPair(capacity, jobId, sessionId);
    } else {
      RunAgrees(states, steps, capacity, jobId, sessionId, n - 1);
      StepKeepsPair(states[n - 1], steps[n - 1], capacity, jobId, sessionId);
    }
  }

  lemma EmptyPair(capacity: nat, jobId: string, sessionId: string)
    ensures PairInv(Pair(Store([], map[]), Store([], map[])), capacity, jobId, sessionId)
  {
  }

  // ---------- the connector's code ----------

  /** Publishing a save: put the prefix into the shared store and pass its removals on. */
  method Publish(shared: PrefixStore, p: Prefix, removals: seq<Removal>)
    requires shared.Valid() && shared.maxPrefixes == 0 && p.key != []
    modifies shared
    ensures shared.Valid() && shared.View() == Published(old(shared.View()), p, removals)
  {
    hide StoreKey, Without, WellFormed;
    ghost var placed := Placed(shared.View(), p);
    var stored := shared.Put(p);
    for i := 0 to |removals|
      invariant shared.Valid() && shared.View() == AllForgotten(placed, p, removals[..i])
    {
      assert removals[..i + 1][..i] == removals[..i];
      var q := removals[i].prefix;
      if q.key != p.key {
        var removed := shared.Remove(q.key, q.sessionId, Some(q.jobId));
      }
    }
    assert removals[..|removals|] == removals;
  }
}
