/**
  The worker side of saving: layers of a request become ready one by one, a finished request is
  transferred, stored as a prefix and reported to vLLM. The transfers, the integration and the
  allocator are the environment: each may fail at each call.
 */
module SaveWorkers {
  import opened Common
  import opened Recency
  import opened PrefixStores
  import opened GlobalPrefixes
  import opened SaveScheduling
  import opened VllmRanges
  import opened VllmTiling
  import opened BackingOwnership

  datatype SaveError =
    | UnshapedCache | AllocationFailed | StartFailed | NoCaches | UnknownLayer
    | LayersMissing | TransferFailed | EmptyPrefixKey | RestoreFailed

  predicate AllShaped(caches: seq<Tensor>) {
    forall k :: 0 <= k < |caches| ==> caches[k].dims >= 2
  }

  // ---------- a finished save, as one move ----------

  function AllReturned(free: map<Sig, seq<Group>>, removals: seq<Removal>, caches: seq<Tensor>): map<Sig, seq<Group>> {
    if removals == [] then free
    else
      var p := removals[|removals| - 1].prefix;
      Returned(AllReturned(free, removals[..|removals| - 1], caches), Signature(p.blockCount, caches), p.backings)
  }

  /** The context's group becomes the prefix's, and the groups of removed prefixes go back to the pool. */
  function Finished(h: Holdings, id: string, p: Prefix, own: Store, capacity: nat, caches: seq<Tensor>): Holdings {
    h.(open := h.open - {id}, stored := AfterPut(own, p, capacity).prefixes,
       free := AllReturned(h.free, PutRemovals(own, p, capacity), caches))
  }

  lemma OneReturned(free: map<Sig, seq<Group>>, removal: Removal, caches: seq<Tensor>)
    ensures AllReturned(free, [removal], caches)
         == Returned(free, Signature(removal.prefix.blockCount, caches), removal.prefix.backings)
  {
    assert [removal][..0] == [];
  }

  /** Popping the context and storing its group, with the removed prefix (if any) in hand. */
  lemma StoreMoves(h: Holdings, place: map<nat, Place>, caches: seq<Tensor>, id: string, p: Prefix)
    returns (h': Holdings, place': map<nat, Place>)
    requires Owned(h, place, caches) && h.hand == map[] && id in h.open
    requires p.backings == h.open[id].group && p.blockCount == h.open[id].request.blockCount
    ensures Owned(h', place', caches) && StillClosed(place, place')
    ensures h'.free == h.free && h'.open == h.open - {id} && h'.stored == h.stored[KeyOf(p) := p] && h'.next == h.next
    ensures h'.hand == if KeyOf(p) in h.stored then HandOf(h.stored[KeyOf(p)]) else map[]
  {
    hide Owned, KeyOf;
    var (k, n) := (KeyOf(p), p.backings.id);
    CloseKeeps(h, place, caches, id);
    var (h1, place1) := (ClosedContext(h, id), place[n := InHand]);
    if k in h.stored {
      UnstoreKeeps(h1, place1, caches, k);
      var (h2, place2) := (Unstored(h1, k), place1[h1.stored[k].backings.id := InHand]);
      Apart(h, place, caches, id, k);
      StoreKeeps(h2, place2, caches, n, k, p);
      h', place' := StoredUnder(h2, n, k, p), place2[n := InStore(k)];
    } else {
      StoreKeeps(h1, place1, caches, n, k, p);
      h', place' := StoredUnder(h1, n, k, p), place1[n := InStore(k)];
    }
  }

  function HandOf(p: Prefix): map<nat, HeldGroup> { map[p.backings.id := HeldGroup(p.backings, p.blockCount)] }

  lemma Apart(h: Holdings, place: map<nat, Place>, caches: seq<Tensor>, id: string, k: string)
    requires Owned(h, place, caches) && id in h.open && k in h.stored
    ensures h.open[id].group.id != h.stored[k].backings.id
  {
    OwnedMeansNoSharing(h, place, caches);
  }

  lemma ReturnOne(h: Holdings, place: map<nat, Place>, caches: seq<Tensor>, p: Prefix) returns (place': map<nat, Place>)
    requires Owned(h, place, caches) && h.hand == HandOf(p)
    ensures var free := Returned(h.free, Signature(p.blockCount, caches), p.backings);
            Owned(h.(hand := map[], free := free), place', caches)
    ensures StillClosed(place, place')
  {
    hide Owned, Signature;
    var n := p.backings.id;
    ReturnKeeps(h, place, caches, n);
    var sig := Signature(p.blockCount, caches);
    place' := place[n := InPool(sig, if sig in h.free then |h.free[sig]| else 0)];
    assert h.hand - {n} == map[];
  }

  /** A finished save keeps every group in one place, whichever prefix it replaces or evicts. */
  lemma FinishKeeps(h: Holdings, place: map<nat, Place>, caches: seq<Tensor>, id: string, p: Prefix, own: Store,
                    capacity: nat)
    returns (place': map<nat, Place>)
    requires Owned(h, place, caches) && h.hand == map[] && id in h.open && h.stored == own.prefixes
    requires p.backings == h.open[id].group && p.blockCount == h.open[id].request.blockCount
    requires WellFormed(own) && (capacity > 0 ==> |own.keys| <= capacity)
    ensures Owned(Finished(h, id, p, own, capacity, caches), place', caches) && StillClosed(place, place')
  {
    hide Owned, KeyOf, Signature, Returned, Shrunk;
    PutDropsAtMostOne(own, p, capacity);
    var h1, place1 := StoreMoves(h, place, caches, id, p);
    if KeyOf(p) in own.prefixes {
      OneReturned(h.free, Removal(own.prefixes[KeyOf(p)], Replaced), caches);
      place' := ReturnOne(h1, place1, caches, own.prefixes[KeyOf(p)]);
    } else if capacity > 0 && |own.keys| == capacity {
      assert own.keys[0] in own.keys;
      var oldest := own.prefixes[own.keys[0]];
      OneReturned(h.free, Removal(oldest, CapacityEvicted), caches);
      UnstoreKeeps(h1, place1, caches, own.keys[0]);
      place' := ReturnOne(Unstored(h1, own.keys[0]), place1[oldest.backings.id := InHand], caches, oldest);
    } else {
      place' := place1;
    }
  }

  // ---------- what a save leaves in the stores ----------

  /** The prefix a context becomes. */
  predicate IsSaved(p: Prefix, c: Context, id: string, jobId: string, sessionId: string) {
    && p.key == c.request.prefixKey && p.jobId == jobId && p.sessionId == sessionId
    && p.backings == c.group && p.blockCount == c.request.blockCount && p.sourceRequestId == id
  }

  predicate IsPooled(free: map<Sig, seq<Group>>, p: Prefix, caches: seq<Tensor>) {
    Signature(p.blockCount, caches) in free && p.backings in free[Signature(p.blockCount, caches)]
  }

  /**
    The prefix is the newest entry. Only the one it replaces and, in a full store, the oldest one are
    gone, and their groups are free again; every other entry stays as it was.
   */
  ghost predicate StoredNewest(before: Store, after: Store, p: Prefix, capacity: nat, free: map<Sig, seq<Group>>,
                               caches: seq<Tensor>)
  {
    && after.keys != [] && after.keys[|after.keys| - 1] == KeyOf(p)
    && KeyOf(p) in after.prefixes && after.prefixes[KeyOf(p)] == p
    && (KeyOf(p) in before.prefixes ==> IsPooled(free, before.prefixes[KeyOf(p)], caches))
    && (forall k :: k in after.prefixes && k != KeyOf(p) ==>
          k in before.prefixes && after.prefixes[k] == before.prefixes[k])
    && (forall k :: k in before.prefixes && k !in after.prefixes ==>
          && KeyOf(p) !in before.prefixes && |before.keys| == capacity > 0 && k == before.keys[0]
          && IsPooled(free, before.prefixes[k], caches))
  }

  lemma PutStoresNewest(before: Store, p: Prefix, capacity: nat, free: map<Sig, seq<Group>>, caches: seq<Tensor>)
    requires WellFormed(before) && (capacity > 0 ==> |before.keys| <= capacity)
    ensures StoredNewest(before, AfterPut(before, p, capacity), p, capacity,
                         AllReturned(free, PutRemovals(before, p, capacity), caches), caches)
  {
    hide KeyOf, Signature, AfterPut, Without, WellFormed, Popped, StoredNewest, IsPooled;
    PutDropsAtMostOne(before, p, capacity);
    if KeyOf(p) in before.prefixes {
      OneReturned(free, Removal(before.prefixes[KeyOf(p)], Replaced), caches);
      PlacedStoresNewest(before, p, capacity, AllReturned(free, PutRemovals(before, p, capacity), caches), caches);
    } else if capacity > 0 && |before.keys| == capacity {
      OldestKey(before);
      OneReturned(free, Removal(before.prefixes[before.keys[0]], CapacityEvicted), caches);
      PoppedStoresNewest(before, p, capacity, AllReturned(free, PutRemovals(before, p, capacity), caches), caches);
    } else {
      PlacedStoresNewest(before, p, capacity, free, caches);
    }
  }

  lemma OldestKey(s: Store)
    requires WellFormed(s) && s.keys != []
    ensures s.keys[0] in s.prefixes
  {
    assert s.keys[0] in s.keys;
  }

  lemma PlacedStoresNewest(before: Store, p: Prefix, capacity: nat, free: map<Sig, seq<Group>>, caches: seq<Tensor>)
    requires KeyOf(p) in before.prefixes ==> AfterReturn(free, before.prefixes[KeyOf(p)], caches)
    ensures StoredNewest(before, Placed(before, p), p, capacity, free, caches)
  {
    hide KeyOf, Signature, Without;
  }

  /** The group was just returned under its signature. */
  ghost predicate AfterReturn(free: map<Sig, seq<Group>>, p: Prefix, caches: seq<Tensor>) {
    exists was :: free == Returned(was, Signature(p.blockCount, caches), p.backings)
  }

  lemma PoppedStoresNewest(before: Store, p: Prefix, capacity: nat, free: map<Sig, seq<Group>>, caches: seq<Tensor>)
    requires WellFormed(before) && KeyOf(p) !in before.prefixes && |before.keys| == capacity > 0
    requires before.keys[0] in before.prefixes && before.keys[0] != KeyOf(p)
    requires AfterReturn(free, before.prefixes[before.keys[0]], caches)
    ensures StoredNewest(before, Popped(Placed(before, p), before.keys[0]), p, capacity, free, caches)
  {
    hide KeyOf, Signature, Without;
    NewestStays(Placed(before, p), before.keys[0], KeyOf(p));
  }

  lemma NewestStays(s: Store, k: string, newest: string)
    requires s.keys != [] && s.keys[|s.keys| - 1] == newest && k != newest
    ensures Popped(s, k).keys != [] && Popped(s, k).keys[|Popped(s, k).keys| - 1] == newest
  {
    var init := s.keys[..|s.keys| - 1];
    assert Without(s.keys, k) == Without(init, k) + [newest];
  }

  /** The own store is what putting the logged prefixes left, one for every saved request. */
  ghost predicate Logged(own: Store, capacity: nat, saved: seq<string>, stored: seq<Prefix>, jobId: string,
                         sessionId: string)
  {
    && own == AfterPuts(stored, capacity) && |stored| == |saved|
    && forall i :: 0 <= i < |stored| ==>
         && stored[i].sourceRequestId == saved[i] && stored[i].jobId == jobId && stored[i].sessionId == sessionId
         && stored[i].key != []
  }

  lemma LoggedOnceMore(own: Store, capacity: nat, saved: seq<string>, stored: seq<Prefix>, jobId: string,
                       sessionId: string, p: Prefix)
    requires Logged(own, capacity, saved, stored, jobId, sessionId)
    requires p.jobId == jobId && p.sessionId == sessionId && p.key != []
    ensures Logged(AfterPut(own, p, capacity), capacity, saved + [p.sourceRequestId], stored + [p], jobId, sessionId)
  {
    assert (stored + [p])[..|stored|] == stored;
  }

  lemma NothingLogged(capacity: nat, jobId: string, sessionId: string)
    ensures Logged(Store([], map[]), capacity, [], [], jobId, sessionId)
  {
  }

  // ---------- the pool ----------

  class BackingPool {
    var free: map<Sig, seq<Group>>
    var next: nat

    constructor ()
      ensures free == map[] && next == 0
    {
      free, next := map[], 0;
    }

    /** The last free group of the signature, or a new one; `allocates` says whether the allocator succeeds. */
    method Acquire(blockCount: int, caches: seq<Tensor>, allocates: bool) returns (r: Result<(Group, bool), SaveError>)
      modifies this
      ensures (exists k :: 0 <= k < |caches| && caches[k].dims < 2) ==> r == Err(UnshapedCache)
      ensures !(exists k :: 0 <= k < |caches| && caches[k].dims < 2) ==> r != Err(UnshapedCache)
      ensures r.Err? ==> free == old(free) && next == old(next)
      ensures AllShaped(caches) ==>
                var sig := Signature(blockCount, caches);
                if sig in old(free) && old(free)[sig] != [] then
                  var m := |old(free)[sig]| - 1;
                  r == Ok((old(free)[sig][m], true)) && free == old(free)[sig := old(free)[sig][..m]]
                    && next == old(next)
                else if !allocates then r == Err(AllocationFailed)
                else r == Ok((Group(old(next), SizesOf(sig)), false)) && free == old(free) && next == old(next) + 1
    {
      if !AllShaped(caches) {
        return Err(UnshapedCache);
      }
      var sig := Signature(blockCount, caches);
      if sig in free && free[sig] != [] {
        var group := free[sig][|free[sig]| - 1];
        free := free[sig := free[sig][..|free[sig]| - 1]];
        return Ok((group, true));
      }
      if !allocates {
        return Err(AllocationFailed);
      }
      next := next + 1;
      return Ok((Group(next - 1, SizesOf(sig)), false));
    }

    method Release(blockCount: int, caches: seq<Tensor>, group: Group)
      requires AllShaped(caches)
      modifies `free
      ensures free == Returned(old(free), Signature(blockCount, caches), group)
    {
      var sig := Signature(blockCount, caches);
      free := free[sig := (if sig in free then free[sig] else []) + [group]];
    }
  }

  // ---------- reports to vLLM ----------

  /**
    Every id is saved at most once and reported at most once, and only after it was saved;
    what waits to be reported is exactly what was saved and not yet reported.
   */
  ghost predicate Reports(saved: seq<string>, reported: seq<string>, waiting: set<string>) {
    && Distinct(saved) && Distinct(reported)
    && (forall id :: id in reported ==> id in saved)
    && (forall id :: id in waiting <==> id in saved && id !in reported)
  }

  lemma SavedOnceMore(saved: seq<string>, reported: seq<string>, waiting: set<string>, id: string)
    requires Reports(saved, reported, waiting) && id !in saved
    ensures Reports(saved + [id], reported, waiting + {id})
  {
  }

  lemma ReportedOnceMore(saved: seq<string>, reported: seq<string>, waiting: set<string>, more: seq<string>)
    requires Reports(saved, reported, waiting) && Distinct(more) && forall id :: id in more ==> id in waiting
    ensures Reports(saved, reported + more, waiting - (set id | id in more))
  {
    forall i, j | 0 <= i < j < |reported + more| ensures (reported + more)[i] != (reported + more)[j] {
      assert j >= |reported| ==> (reported + more)[j] in more && (reported + more)[j] !in reported;
      assert i < |reported| ==> (reported + more)[i] in reported;
    }
  }

  lemma ReportedNow(saved: seq<string>, reported: seq<string>, waiting: set<string>, more: seq<string>,
                    finished: set<string>)
    requires Reports(saved, reported, waiting) && forall id :: id in more <==> id in waiting * finished
    ensures Reports(saved, reported + more, waiting - finished) <== Distinct(more)
    ensures (reported + more)[|reported|..] == more
    ensures forall id :: id in saved && id in finished ==> id in reported + more
  {
    if Distinct(more) {
      ReportedOnceMore(saved, reported, waiting, more);
      assert waiting - (set id | id in more) == waiting - finished;
    }
  }

  /** Some enumeration of a set. */
  lemma {:induction false} Listing(ids: set<string>) returns (s: seq<string>)
    ensures Distinct(s) && forall id :: id in s <==> id in ids
    decreases |ids|
  {
    if ids == {} {
      s := [];
    } else {
      var id :| id in ids;
      var rest := Listing(ids - {id});
      s := rest + [id];
    }
  }

  // ---------- the worker ----------

  lemma {:induction false} FullSet(s: set<nat>, n: nat)
    requires forall k :: k in s ==> k < n
    ensures |s| <= n && (|s| == n <==> forall k: nat :: k < n ==> k in s)
  {
    if n > 0 {
      if n - 1 in s {
        FullSet(s - {n - 1}, n - 1);
      } else {
        FullSet(s, n - 1);
      }
    }
  }

  function IdsOf(saves: seq<Request>): (ids: seq<string>)
    ensures |ids| == |saves| && forall i :: 0 <= i < |saves| ==> ids[i] == saves[i].requestId
  {
    seq(|saves|, i requires 0 <= i < |saves| => saves[i].requestId)
  }

  predicate NoneIn(saves: seq<Request>, ids: set<string>) {
    forall i :: 0 <= i < |saves| ==> saves[i].requestId !in ids
  }

  predicate AllReady(ready: set<nat>, caches: seq<Tensor>) { forall k: nat :: k < |caches| ==> k in ready }

  /** What the layer reports said: a pair for every request and layer that was reported ready. */
  function SeenIds(seen: set<(string, nat)>): set<string> { set p | p in seen :: p.0 }

  ghost predicate AllSeen(seen: set<(string, nat)>, id: string, n: nat) {
    n > 0 && forall k: nat :: k < n ==> (id, k) in seen
  }

  /** Contexts know only reported layers, and what was saved had all of its layers reported. */
  ghost predicate SeenFirst(contexts: map<string, Context>, saved: seq<string>, seen: set<(string, nat)>, n: nat) {
    && (forall id, k :: id in contexts && k in contexts[id].ready ==> (id, k) in seen)
    && (forall id :: id in saved ==> AllSeen(seen, id, n))
  }

  ghost predicate ContextsMade(contexts: map<string, Context>, caches: seq<Tensor>) {
    && (contexts != map[] ==> AllShaped(caches))
    && forall id :: id in contexts ==>
         contexts[id].request.requestId == id && forall k :: k in contexts[id].ready ==> k < |caches|
  }

  function FinishOutcome(context: Context, caches: seq<Tensor>, transfers: bool): Result<(), SaveError> {
    if context.ready == {} || !AllReady(context.ready, caches) then Err(LayersMissing)
    else if !transfers then Err(TransferFailed)
    else if context.request.prefixKey == [] then Err(EmptyPrefixKey)
    else Ok(())
  }

  /** How wait_for_save ends for a request. */
  function FinishResult(contexts: map<string, Context>, request: Request, caches: seq<Tensor>, transfers: bool)
    : Result<(), SaveError>
  {
    if request.requestId !in contexts then Err(LayersMissing)
    else FinishOutcome(contexts[request.requestId], caches, transfers)
  }

  /** A layer is missing, or else the transfer failed, or else the request has no prefix key, or else all is well. */
  ghost predicate EndsWith(r: Result<(), SaveError>, contexts: map<string, Context>, id: string, caches: seq<Tensor>,
                           transfers: bool)
  {
    var complete :=
      id in contexts && contexts[id].ready != {} && forall k: nat :: k < |caches| ==> k in contexts[id].ready;
    && (!complete ==> r == Err(LayersMissing))
    && (complete && !transfers ==> r == Err(TransferFailed))
    && (complete && transfers && contexts[id].request.prefixKey == [] ==> r == Err(EmptyPrefixKey))
    && (complete && transfers && contexts[id].request.prefixKey != [] ==> r.Ok?)
  }

  lemma EndsWithResult(contexts: map<string, Context>, request: Request, caches: seq<Tensor>, transfers: bool)
    ensures EndsWith(FinishResult(contexts, request, caches, transfers), contexts, request.requestId, caches, transfers)
  {
  }

  lemma ReadyIsSeen(contexts: map<string, Context>, saved: seq<string>, seen: set<(string, nat)>, caches: seq<Tensor>,
                    id: string)
    requires SeenFirst(contexts, saved, seen, |caches|) && ContextsMade(contexts, caches) && id in contexts
    requires contexts[id].ready != {} && AllReady(contexts[id].ready, caches)
    ensures AllSeen(seen, id, |caches|)
  {
    var k :| k in contexts[id].ready;
  }

  /** What a layer report does to the contexts: it marks the listed requests, each in its context or in a new one. */
  ghost predicate Marked(before: map<string, Context>, after: map<string, Context>, saves: seq<Request>, layer: nat) {
    && (forall i :: 0 <= i < |saves| ==> saves[i].requestId in after && layer in after[saves[i].requestId].ready)
    && (forall id :: id in before ==>
          id in after && after[id] == before[id].(ready := after[id].ready) && before[id].ready <= after[id].ready)
    && (forall id :: id in after && id !in before ==>
          exists i :: 0 <= i < |saves| && saves[i].requestId == id && after[id].request == saves[i])
    && (forall id, k :: id in after && k in after[id].ready ==>
          (k == layer && id in IdsOf(saves)) || (id in before && k in before[id].ready))
  }

  lemma NothingMarked(contexts: map<string, Context>, layer: nat)
    ensures Marked(contexts, contexts, [], layer)
  {
  }

  /** One request's context is marked, in place or just opened. */
  ghost predicate MarksOne(now: map<string, Context>, after: map<string, Context>, request: Request, layer: nat) {
    var id := request.requestId;
    && id in after && layer in after[id].ready && after == now[id := after[id]]
    && (if id in now then after[id] == now[id].(ready := now[id].ready + {layer})
        else after[id].request == request && after[id].ready == {layer})
  }

  lemma IdsOfSnoc(saves: seq<Request>, request: Request)
    ensures IdsOf(saves + [request]) == IdsOf(saves) + [request.requestId]
  {
  }

  /** The next request, whose context is there or was just opened. */
  lemma MarkedOneMore(before: map<string, Context>, now: map<string, Context>, after: map<string, Context>,
                      saves: seq<Request>, request: Request, layer: nat)
    requires Marked(before, now, saves, layer) && MarksOne(now, after, request, layer)
    ensures Marked(before, after, saves + [request], layer)
  {
    hide IdsOf;
    var more := saves + [request];
    IdsOfSnoc(saves, request);
    assert more[|saves|] == request;
    forall i | 0 <= i < |more| ensures more[i].requestId in after && layer in after[more[i].requestId].ready {
      if i < |saves| {
        assert saves[i].requestId in now;
      }
    }
    forall id | id in after && id !in before
      ensures exists i :: 0 <= i < |more| && more[i].requestId == id && after[id].request == more[i]
    {
      if id in now {
        var i :| 0 <= i < |saves| && saves[i].requestId == id && now[id].request == saves[i];
        assert more[i] == saves[i];
      }
    }
  }

  lemma SeenMore(contexts: map<string, Context>, contexts': map<string, Context>, saved: seq<string>,
                 seen: set<(string, nat)>, caches: seq<Tensor>, id: string, layer: nat)
    requires SeenFirst(contexts, saved, seen, |caches|) && id in contexts && id in contexts'
    requires contexts' == contexts[id := contexts'[id]] && contexts'[id].ready == contexts[id].ready + {layer}
    ensures SeenFirst(contexts', saved, seen + {(id, layer)}, |caches|)
  {
    var seen' := seen + {(id, layer)};
    forall x | x in saved ensures AllSeen(seen', x, |caches|) {
      assert AllSeen(seen, x, |caches|);
    }
  }

  /** Entries of other jobs and sessions in the shared store. */
  predicate OthersStay(before: map<string, Prefix>, after: map<string, Prefix>, head: string) {
    forall k :: k in before.Keys + after.Keys && !(head <= k) ==> k in before && k in after && after[k] == before[k]
  }

  lemma OthersPublished(own: Store, shared: Store, p: Prefix, capacity: nat, jobId: string, sessionId: string)
    requires WellFormed(own) && AllOurs(own, jobId, sessionId) && Ours(p, jobId, sessionId)
    ensures OthersStay(shared.prefixes, Published(shared, p, PutRemovals(own, p, capacity)).prefixes,
                       Head(jobId, sessionId))
  {
    hide KeyOf, Head, Published;
    var shared' := Published(shared, p, PutRemovals(own, p, capacity));
    forall k | k in shared.prefixes.Keys + shared'.prefixes.Keys && !(Head(jobId, sessionId) <= k)
      ensures k in shared.prefixes && k in shared'.prefixes && shared'.prefixes[k] == shared.prefixes[k]
    {
      OthersUntouched(own, shared, p, capacity, jobId, sessionId, k);
    }
  }

  /** Taking a group changes the pool at its end, or only the counter. */
  predicate TakenFrom(free: map<Sig, seq<Group>>, next: nat, free': map<Sig, seq<Group>>, next': nat, blockCount: int,
                      caches: seq<Tensor>, group: Group)
  {
    var sig := Signature(blockCount, caches);
    if sig in free && free[sig] != [] then
      var m := |free[sig]| - 1;
      group == free[sig][m] && free' == free[sig := free[sig][..m]] && next' == next
    else group == Group(next, SizesOf(sig)) && free' == free && next' == next + 1
  }

  /** Nothing was lost: the pool is as before, or holds one new group more. */
  predicate GivenBack(free: map<Sig, seq<Group>>, free': map<Sig, seq<Group>>, blockCount: int, caches: seq<Tensor>) {
    var sig := Signature(blockCount, caches);
    || free' == free
    || ((sig !in free || free[sig] == []) && sig in free' && |free'[sig]| == 1 && free' == free[sig := free'[sig]])
  }

  lemma ReturnOfNothing(free: map<Sig, seq<Group>>, blockCount: int, caches: seq<Tensor>)
    ensures GivenBack(free, free, blockCount, caches)
  {
  }

  lemma TakenGivenBack(free: map<Sig, seq<Group>>, next: nat, free': map<Sig, seq<Group>>, next': nat, blockCount: int,
                       caches: seq<Tensor>, group: Group)
    requires TakenFrom(free, next, free', next', blockCount, caches, group)
    ensures GivenBack(free, Returned(free', Signature(blockCount, caches), group), blockCount, caches)
  {
    var sig := Signature(blockCount, caches);
    if sig in free && free[sig] != [] {
      assert free[sig][..|free[sig]| - 1] + [group] == free[sig];
      assert free == free[sig := free[sig]];
    }
  }

  class SaveWorker {
    const jobId: string
    const sessionId: string
    const caches: seq<Tensor>
    const pool: BackingPool
    const own: PrefixStore
    const shared: PrefixStore
    var contexts: map<string, Context>
    var savedIds: set<string>
    var finishedSending: set<string>
    var finishedReceiving: set<string>

    ghost var place: map<nat, Place>
    ghost var savedLog: seq<string>
    ghost var storedLog: seq<Prefix>
    ghost var reportedLog: seq<string>
    ghost var seen: set<(string, nat)>
    ghost var closed: set<nat>
    ghost var receivedLog: set<string>

    ghost function View(): Holdings
      reads this, pool, own
    {
      Holdings(pool.free, map[], contexts, own.prefixes, pool.next)
    }

    ghost predicate StoresValid()
      reads own, shared
    {
      && own != shared && own.Valid() && shared.Valid() && shared.maxPrefixes == 0
      && PairInv(Pair(own.View(), shared.View()), own.maxPrefixes, jobId, sessionId)
    }

    ghost predicate Valid()
      reads this, pool, own, shared
    {
      && StoresValid()
      && Owned(View(), place, caches)
      && AreClosed(closed, place)
      && ContextsMade(contexts, caches) && SeenFirst(contexts, savedLog, seen, |caches|)
      && finishedSending == {} && Reports(savedLog, reportedLog, savedIds)
      && Logged(own.View(), own.maxPrefixes, savedLog, storedLog, jobId, sessionId)
    }

    /** The requests the layer reports or an open context have named. */
    ghost function Known(): set<string>
      reads this
    {
      SeenIds(seen) + contexts.Keys
    }

    /** The shared store may already hold other connectors' prefixes, but none of this job and session. */
    constructor (jobId: string, sessionId: string, caches: seq<Tensor>, maxPrefixes: int, shared: PrefixStore)
      requires shared.Valid() && shared.maxPrefixes == 0 && OurKeys(shared.keys, Head(jobId, sessionId)) == []
      ensures Valid() && fresh(pool) && fresh(own) && this.shared == shared && savedLog == [] && reportedLog == []
      ensures seen == {} && contexts == map[] && storedLog == [] && own.View() == Store([], map[])
      ensures receivedLog == {} && finishedReceiving == {}
      ensures this.jobId == jobId && this.sessionId == sessionId && this.caches == caches
    {
      this.jobId, this.sessionId, this.caches, this.shared := jobId, sessionId, caches, shared;
      pool := new BackingPool();
      own := new PrefixStore(maxPrefixes);
      contexts, savedIds, finishedSending, finishedReceiving := map[], {}, {}, {};
      place, savedLog, reportedLog, seen, closed := map[], [], [], {}, {};
      storedLog, receivedLog := [], {};
      new;
      NothingLogged(own.maxPrefixes, jobId, sessionId);
    }

    /** A group from the pool, free or new, with the sizes the block count asks for. */
    method TakeGroup(blockCount: int, allocates: bool) returns (r: Result<Group, SaveError>, ghost held: Holdings)
      requires Owned(View(), place, caches)
      modifies this`place, pool
      ensures r.Err? ==> View() == old(View()) && place == old(place)
      ensures (exists k :: 0 <= k < |caches| && caches[k].dims < 2) ==> r == Err(UnshapedCache)
      ensures r == Err(AllocationFailed) ==> AllShaped(caches) && !allocates
      ensures r.Err? ==> r.error in {UnshapedCache, AllocationFailed}
      ensures AllShaped(caches) && allocates ==> r.Ok?
      ensures r.Ok? ==> AllShaped(caches) && Sized(r.value, blockCount, caches)
      ensures r.Ok? ==> TakenFrom(old(pool.free), old(pool.next), pool.free, pool.next, blockCount, caches, r.value)
      ensures r.Ok? ==> View() == held.(hand := map[]) && held.hand == map[r.value.id := HeldGroup(r.value, blockCount)]
      ensures r.Ok? ==> held.open == contexts && held.stored == own.prefixes && Owned(held, place, caches)
      ensures r.Ok? ==> r.value.id in place && place[r.value.id] == InHand && StillClosed(old(place), place)
    {
      hide Owned, Sized, StillClosed;
      ghost var before := View();
      held := before;
      var acquired := pool.Acquire(blockCount, caches, allocates);
      if acquired.Err? {
        return Err(acquired.error), held;
      }
      var (group, reused) := acquired.value;
      held := TakeInHand(before, place, caches, blockCount, group, reused);
      place := place[group.id := InHand];
      return Ok(group), held;
    }

    /** The integration is set up on the group; when that fails the group goes back to the pool. */
    method StartContext(request: Request, allocates: bool, starts: bool) returns (r: Result<Context, SaveError>)
      requires Valid() && request.requestId !in contexts
      modifies this`contexts, this`place, pool
      ensures Valid()
      ensures (exists k :: 0 <= k < |caches| && caches[k].dims < 2) ==> r == Err(UnshapedCache)
      ensures AllShaped(caches) && allocates && starts ==> r.Ok?
      ensures r == Err(AllocationFailed) ==> AllShaped(caches) && !allocates
      ensures r == Err(StartFailed) ==> AllShaped(caches) && !starts
      ensures r.Err? ==> r.error in {UnshapedCache, AllocationFailed, StartFailed}
      ensures r.Ok? ==> starts
      ensures r.Err? ==> contexts == old(contexts) && GivenBack(old(pool.free), pool.free, request.blockCount, caches)
      ensures r.Ok? ==> contexts == old(contexts)[request.requestId := r.value]
      ensures r.Ok? ==> r.value.request == request && r.value.ready == {}
      ensures r.Ok? ==> Sized(r.value.group, request.blockCount, caches)
    {
      hide Owned, Reports, AllSeen, Sized, StoresValid, Logged, GivenBack, TakenFrom;
      ReturnOfNothing(pool.free, request.blockCount, caches);
      var taken, held := TakeGroup(request.blockCount, allocates);
      if taken.Err? {
        return Err(taken.error);
      }
      var group := taken.value;
      ghost var sig := Signature(request.blockCount, caches);
      if !starts {
        ReturnKeeps(held, place, caches, group.id);
        place := place[group.id := InPool(sig, if sig in held.free then |held.free[sig]| else 0)];
        pool.Release(request.blockCount, caches, group);
        assert View() == ReturnedToPool(held, group.id, sig);
        TakenGivenBack(old(pool.free), old(pool.next), held.free, pool.next, request.blockCount, caches, group);
        return Err(StartFailed);
      }
      OpenKeeps(held, place, caches, group.id, request);
      place := place[group.id := InContext(request.requestId)];
      var context := Context(request, group, {});
      contexts := contexts[request.requestId := context];
      assert View() == Opened(held, group.id, request);
      return Ok(context);
    }

    /** A layer is ready for every request of the step; the first ready layer starts a request's context. */
    method SaveKvLayer(saves: seq<Request>, layer: Option<nat>, allocationFails: set<string>, startFails: set<string>)
      returns (r: Result<(), SaveError>)
      requires Valid() && (layer.Some? ==> layer.value < |caches|)
      modifies this`contexts, this`place, this`seen, pool
      ensures Valid()
      ensures saves == [] ==> r == Ok(()) && contexts == old(contexts)
      ensures saves != [] && caches == [] ==> r == Err(NoCaches)
      ensures saves != [] && caches != [] && layer == None ==> r == Err(UnknownLayer)
      ensures r.Ok? && saves != [] ==> layer.Some? && Marked(old(contexts), contexts, saves, layer.value)
      ensures r.Err? && saves != [] && caches != [] && layer.Some? ==>
                exists n :: 0 <= n < |saves| && Marked(old(contexts), contexts, saves[..n], layer.value)
      ensures saves == [] || caches == [] || layer == None ==> contexts == old(contexts)
      ensures old(seen) <= seen
      ensures forall p :: p in seen ==> p in old(seen) || (p.0 in IdsOf(saves) && Some(p.1) == layer)
      ensures AllShaped(caches) && layer.Some? && NoneIn(saves, allocationFails + startFails) ==> r.Ok?
      ensures r == Err(AllocationFailed) ==> !NoneIn(saves, allocationFails)
      ensures r == Err(StartFailed) ==> !NoneIn(saves, startFails)
      ensures forall id :: id in contexts && id !in old(contexts) ==> id !in startFails
    {
      hide Valid, AllShaped, GivenBack, Marked;
      if saves == [] {
        return Ok(());
      }
      if caches == [] {
        return Err(NoCaches);
      }
      if layer == None {
        return Err(UnknownLayer);
      }
      NothingMarked(contexts, layer.value);
      assert saves[..0] == [] && saves[..|saves|] == saves;
      for i := 0 to |saves|
        invariant Valid()
        invariant Marked(old(contexts), contexts, saves[..i], layer.value)
        invariant forall id :: id in contexts && id !in old(contexts) ==> id !in startFails
        invariant old(seen) <= seen
        invariant forall p :: p in seen ==> p in old(seen) || (p.0 in IdsOf(saves) && p.1 == layer.value)
      {
        var id := saves[i].requestId;
        assert IdsOf(saves)[i] == id;
        assert saves[..i + 1] == saves[..i] + [saves[i]];
        ghost var before := contexts;
        if id !in contexts {
          var started := StartContext(saves[i], id !in allocationFails, id !in startFails);
          if started.Err? {
            return Err(started.error);
          }
        }
        SaveRequestLayer(id, layer.value);
        MarkedOneMore(old(contexts), before, contexts, saves[..i], saves[i], layer.value);
      }
      return Ok(());
    }

    method SaveRequestLayer(id: string, layer: nat)
      requires Valid() && id in contexts && layer < |caches|
      modifies this`contexts, this`seen
      ensures Valid() && seen == old(seen) + {(id, layer)}
      ensures id in contexts && contexts == old(contexts)[id := contexts[id]]
      ensures contexts[id] == old(contexts)[id].(ready := old(contexts)[id].ready + {layer})
    {
      hide Owned, Reports, StoresValid, AllSeen, Logged;
      var context := contexts[id];
      seen := seen + {(id, layer)};
      if layer !in context.ready {
        ReadyKeeps(View(), place, caches, id, layer);
        contexts := contexts[id := context.(ready := context.ready + {layer})];
      }
      SeenMore(old(contexts), contexts, savedLog, old(seen), caches, id, layer);
    }

    method ReleaseRemoved(removals: seq<Removal>)
      requires AllShaped(caches)
      modifies pool`free
      ensures pool.free == AllReturned(old(pool.free), removals, caches)
    {
      hide Returned, Signature;
      for i := 0 to |removals|
        invariant pool.free == AllReturned(old(pool.free), removals[..i], caches)
      {
        assert removals[..i + 1][..i] == removals[..i];
        var removed := removals[i].prefix;
        pool.Release(removed.blockCount, caches, removed.backings);
      }
      assert removals[..|removals|] == removals;
    }

    /** The prefix replaces or evicts at most one other, whose group goes back to the pool; the shared store follows. */
    method StorePrefix(id: string, p: Prefix)
      requires Valid() && id in contexts && p.key != []
      requires p.jobId == jobId && p.sessionId == sessionId
      requires p.backings == contexts[id].group && p.blockCount == contexts[id].request.blockCount
      modifies this`contexts, this`place, pool, own, shared
      ensures Owned(View(), place, caches) && StoresValid() && AreClosed(closed, place)
      ensures contexts == old(contexts) - {id}
      ensures own.View() == AfterPut(old(own.View()), p, own.maxPrefixes)
      ensures shared.View() == Published(old(shared.View()), p, PutRemovals(old(own.View()), p, own.maxPrefixes))
      ensures pool.free == AllReturned(old(pool.free), PutRemovals(old(own.View()), p, own.maxPrefixes), caches)
    {
      hide Owned, Returned, AfterPut, Published, PairInv, Logged;
      ghost var (before, shelf, capacity) := (View(), own.View(), own.maxPrefixes);
      ghost var pair := Pair(own.View(), shared.View());
      place := FinishKeeps(before, place, caches, id, p, shelf, capacity);
      StepKeepsPair(pair, Saved(p), capacity, jobId, sessionId);
      contexts := contexts - {id};
      var removals := own.PutWithLifecycle(p);
      ReleaseRemoved(removals.value);
      Publish(shared, p, removals.value);
    }

    /**
      One request of wait_for_save: only a request whose layers were all seen is transferred and
      stored. When that fails its group is closed; when a layer is missing its group is just dropped.
     */
    method FinishRequest(request: Request, transfers: bool) returns (r: Result<(), SaveError>)
      requires Valid() && request.requestId !in savedLog
      modifies this, pool, own, shared
      ensures Valid() && reportedLog == old(reportedLog) && seen == old(seen)
      ensures receivedLog == old(receivedLog) && finishedReceiving == old(finishedReceiving)
      ensures contexts == old(contexts) - {request.requestId}
      ensures r == FinishResult(old(contexts), request, caches, transfers)
      ensures EndsWith(r, old(contexts), request.requestId, caches, transfers)
      ensures r.Ok? ==> savedLog == old(savedLog) + [request.requestId] && AllSeen(seen, request.requestId, |caches|)
      ensures r.Ok? ==> storedLog == old(storedLog) + [storedLog[|storedLog| - 1]]
      ensures r.Ok? ==>
                var p := storedLog[|storedLog| - 1];
                && IsSaved(p, old(contexts)[request.requestId], request.requestId, jobId, sessionId)
                && StoredNewest(old(own.View()), own.View(), p, own.maxPrefixes, pool.free, caches)
                && KeyOf(p) in shared.prefixes && shared.prefixes[KeyOf(p)] == p
                && OthersStay(old(shared.prefixes), shared.prefixes, Head(jobId, sessionId))
      ensures r.Err? ==> storedLog == old(storedLog) && pool.free == old(pool.free)
      ensures r.Err? ==>
                savedLog == old(savedLog) && own.View() == old(own.View()) && shared.View() == old(shared.View())
      ensures r.Ok? || r.error == LayersMissing ==> closed == old(closed)
      ensures r.Err? && r.error != LayersMissing ==>
                closed == old(closed) + {old(contexts)[request.requestId].group.id}
    {
      hide Valid, AllSeen, StoredNewest, OthersStay, KeyOf, Head, EndsWith;
      EndsWithResult(contexts, request, caches, transfers);
      var id := request.requestId;
      if id !in contexts {
        assert contexts == contexts - {id};
        return Err(LayersMissing);
      }
      var context := contexts[id];
      CountsReady(id);
      if context.ready == {} || |context.ready| != |caches| {
        Forget(id, false);
        return Err(LayersMissing);
      }
      if !transfers || context.request.prefixKey == [] {
        Forget(id, true);
        return Err(if !transfers then TransferFailed else EmptyPrefixKey);
      }
      Register(id);
      return Ok(());
    }

    lemma CountsReady(id: string)
      requires Valid() && id in contexts
      ensures |contexts[id].ready| == |caches| <==> AllReady(contexts[id].ready, caches)
    {
      hide Owned, Reports, StoresValid, AllSeen, Logged;
      FullSet(contexts[id].ready, |caches|);
    }

    /** The context goes, and its group with it: closed, or just dropped. */
    method Forget(id: string, closes: bool)
      requires Valid() && id in contexts
      modifies this`contexts, this`place, this`closed
      ensures Valid() && contexts == old(contexts) - {id}
      ensures closed == if closes then old(closed) + {old(contexts)[id].group.id} else old(closed)
    {
      hide Owned, Reports, StoresValid, AllSeen, Logged;
      if closes {
        EndKeeps(View(), place, caches, id);
        ghost var n := contexts[id].group.id;
        place, closed := place[n := Closed], closed + {n};
      } else {
        LoseKeeps(View(), place, caches, id);
      }
      contexts := contexts - {id};
    }

    /** The context of a transferred request becomes a stored prefix. */
    method Register(id: string)
      requires Valid() && id in contexts && id !in savedLog
      requires contexts[id].ready != {} && AllReady(contexts[id].ready, caches) && contexts[id].request.prefixKey != []
      modifies this`contexts, this`place, this`savedIds, this`savedLog, this`storedLog, pool, own, shared
      ensures Valid() && contexts == old(contexts) - {id}
      ensures savedLog == old(savedLog) + [id] && AllSeen(seen, id, |caches|)
      ensures storedLog == old(storedLog) + [storedLog[|storedLog| - 1]]
      ensures var p := storedLog[|storedLog| - 1];
              && IsSaved(p, old(contexts)[id], id, jobId, sessionId)
              && StoredNewest(old(own.View()), own.View(), p, own.maxPrefixes, pool.free, caches)
              && KeyOf(p) in shared.prefixes && shared.prefixes[KeyOf(p)] == p
              && OthersStay(old(shared.prefixes), shared.prefixes, Head(jobId, sessionId))
    {
      hide Owned, Reports, StoresValid, AllSeen, Logged, StoredNewest, OthersStay, KeyOf, Head, AfterPut, Published,
        AllReturned;
      var context := contexts[id];
      ReadyIsSeen(contexts, savedLog, seen, caches, id);
      var prefix := Prefix(context.request.prefixKey, jobId, sessionId, context.request.blockCount, context.group, id);
      StoresAfter(prefix);
      LoggedOnceMore(own.View(), own.maxPrefixes, savedLog, storedLog, jobId, sessionId, prefix);
      StorePrefix(id, prefix);
      SharedHasNewest(old(own.View()), prefix);
      SavedOnceMore(savedLog, reportedLog, savedIds, id);
      savedIds, savedLog, storedLog := savedIds + {id}, savedLog + [id], storedLog + [prefix];
    }

    /** What storing a prefix will do to both stores and the pool. */
    lemma StoresAfter(p: Prefix)
      requires StoresValid() && p.jobId == jobId && p.sessionId == sessionId
      ensures var (shelf, capacity) := (own.View(), own.maxPrefixes);
              var removals := PutRemovals(shelf, p, capacity);
              && StoredNewest(shelf, AfterPut(shelf, p, capacity), p, capacity,
                              AllReturned(pool.free, removals, caches), caches)
              && OthersStay(shared.prefixes, Published(shared.View(), p, removals).prefixes, Head(jobId, sessionId))
    {
      hide StoredNewest, KeyOf, Head, AfterPut, Published, AllReturned, Agree;
      PutStoresNewest(own.View(), p, own.maxPrefixes, pool.free, caches);
      OthersPublished(own.View(), shared.View(), p, own.maxPrefixes, jobId, sessionId);
    }

    lemma SharedHasNewest(before: Store, p: Prefix)
      requires StoresValid() && StoredNewest(before, own.View(), p, own.maxPrefixes, pool.free, caches)
      ensures KeyOf(p) in shared.prefixes && shared.prefixes[KeyOf(p)] == p
    {
      hide KeyOf, Head, OurKeys, IsPooled;
    }

    /** The requests of a step, in order, up to the first that fails. */
    method WaitForSave(saves: seq<Request>, transferFails: set<string>)
      returns (r: Result<(), SaveError>, ghost done: nat)
      requires Valid() && Distinct(IdsOf(saves)) && forall i :: 0 <= i < |saves| ==> saves[i].requestId !in savedLog
      modifies this, pool, own, shared
      ensures Valid() && reportedLog == old(reportedLog) && seen == old(seen) && old(closed) <= closed
      ensures receivedLog == old(receivedLog) && finishedReceiving == old(finishedReceiving)
      ensures done <= |saves| && (r.Ok? <==> done == |saves|)
      ensures savedLog == old(savedLog) + IdsOf(saves)[..done]
      ensures |storedLog| == |old(storedLog)| + done && old(storedLog) <= storedLog
      ensures forall i :: 0 <= i < done ==>
                && saves[i].requestId in old(contexts)
                && IsSaved(storedLog[|old(storedLog)| + i], old(contexts)[saves[i].requestId], saves[i].requestId,
                           jobId, sessionId)
      ensures r.Err? ==> r == FinishResult(old(contexts), saves[done], caches, saves[done].requestId !in transferFails)
      ensures forall id :: id in contexts ==> id in old(contexts) && contexts[id] == old(contexts)[id]
      ensures forall i :: 0 <= i < done ==>
                && saves[i].requestId !in transferFails && AllSeen(seen, saves[i].requestId, |caches|)
                && saves[i].requestId in old(contexts) && AllReady(old(contexts)[saves[i].requestId].ready, caches)
    {
      hide Valid, AllReady, AllSeen, StoredNewest, OthersStay, KeyOf, Head, IsSaved, EndsWith;
      done := 0;
      ghost var ids := IdsOf(saves);
      assert old(savedLog) + ids[..0] == old(savedLog);
      for i := 0 to |saves|
        invariant Valid() && reportedLog == old(reportedLog) && seen == old(seen) && old(closed) <= closed && done == i
        invariant receivedLog == old(receivedLog) && finishedReceiving == old(finishedReceiving)
        invariant savedLog == old(savedLog) + ids[..i]
        invariant |storedLog| == |old(storedLog)| + i && old(storedLog) <= storedLog
        invariant forall j :: 0 <= j < i ==>
                    && ids[j] in old(contexts)
                    && IsSaved(storedLog[|old(storedLog)| + j], old(contexts)[ids[j]], ids[j], jobId, sessionId)
        invariant forall id :: id in old(contexts) && id !in ids[..i] ==> id in contexts
        invariant forall id :: id in contexts ==> id in old(contexts) && contexts[id] == old(contexts)[id]
        invariant forall j :: 0 <= j < i ==>
                    && ids[j] !in transferFails && AllSeen(seen, ids[j], |caches|)
                    && ids[j] in old(contexts) && AllReady(old(contexts)[ids[j]].ready, caches)
      {
        assert ids[i] !in ids[..i];
        var finished := FinishRequest(saves[i], saves[i].requestId !in transferFails);
        if finished.Err? {
          return Err(finished.error), i;
        }
        done := i + 1;
        assert ids[..i + 1] == ids[..i] + [ids[i]];
      }
      return Ok(()), done;
    }

    /** Loads the requests of a step in order; only the first `restored` restores succeed. */
    method StartLoadKv(ids: seq<string>, restored: nat)
      requires Valid()
      modifies `finishedReceiving
      ensures Valid() && finishedReceiving == old(finishedReceiving) + set id | id in ids[..Min(restored, |ids|)]
    {
      hide Owned, StoresValid, Reports, AllSeen, Logged;
      ghost var n := Min(restored, |ids|);
      for i := 0 to |ids|
        invariant i <= n && finishedReceiving == old(finishedReceiving) + set id | id in ids[..i]
      {
        if i >= restored {
          return;
        }
        finishedReceiving := finishedReceiving + {ids[i]};
      }
      assert ids[..|ids|] == ids;
    }

    /**
      Reports the finished requests that were saved and forgets them. With nothing finished the
      set is subtracted from itself in place, so even waiting entries of it would be dropped.
     */
    method GetFinished(finished: set<string>) returns (sending: Option<set<string>>, receiving: Option<set<string>>)
      requires Valid()
      modifies this
      ensures Valid() && savedLog == old(savedLog) && seen == old(seen) && closed == old(closed)
      ensures contexts == old(contexts) && place == old(place) && storedLog == old(storedLog) && finishedReceiving == {}
      ensures sending == if old(savedIds) * finished == {} then None else Some(old(savedIds) * finished)
      ensures receiving == if old(finishedReceiving) == {} then None else Some(old(finishedReceiving))
      ensures receivedLog == old(receivedLog) + old(finishedReceiving)
      ensures old(reportedLog) <= reportedLog
      ensures forall id :: id in reportedLog[|old(reportedLog)|..] <==> id in old(savedIds) && id in finished
      ensures forall id :: id in savedLog && id in finished ==> id in reportedLog
    {
      hide Owned, StoresValid, Reports, Logged, ContextsMade, SeenFirst, AreClosed, Distinct;
      var reported := finishedSending;
      ghost var more := Listing(savedIds * finished);
      ReportedNow(savedLog, reportedLog, savedIds, more, finished);
      if finished == {} {
        reported := {};
        finishedSending := {};
        assert savedIds - finished == savedIds;
      } else {
        reported := finishedSending + savedIds * finished;
        assert savedIds - finished == savedIds - reported;
        savedIds := savedIds - reported;
        finishedSending := finishedSending - reported;
      }
      reportedLog := reportedLog + more;
      assert reported == old(savedIds) * finished;
      receiving := if finishedReceiving == {} then None else Some(finishedReceiving);
      receivedLog, finishedReceiving := receivedLog + finishedReceiving, {};
      sending := if reported == {} then None else Some(reported);
    }
  }

  /** What the pool handed out is in hand. */
  lemma TakeInHand(before: Holdings, place: map<nat, Place>, caches: seq<Tensor>, blockCount: int, group: Group,
                   reused: bool)
    returns (held: Holdings)
    requires Owned(before, place, caches) && before.hand == map[]
    requires var sig := Signature(blockCount, caches);
             if reused then
               sig in before.free && before.free[sig] != [] && group == before.free[sig][|before.free[sig]| - 1]
             else group == Group(before.next, SizesOf(sig))
    ensures var sig := Signature(blockCount, caches);
            held == if reused then TakenFromPool(before, sig, blockCount) else Allocated(before, sig, blockCount)
    ensures held.hand == map[group.id := HeldGroup(group, blockCount)] && held.open == before.open
    ensures held.stored == before.stored
    ensures Owned(held, place[group.id := InHand], caches) && Sized(group, blockCount, caches)
    ensures StillClosed(place, place[group.id := InHand])
  {
    hide Owned;
    var sig := Signature(blockCount, caches);
    if reused {
      TakeKeeps(before, place, caches, blockCount);
      held := TakenFromPool(before, sig, blockCount);
    } else {
      AllocateKeeps(before, place, caches, blockCount);
      held := Allocated(before, sig, blockCount);
    }
  }

  lemma ReadyKeeps(h: Holdings, place: map<nat, Place>, caches: seq<Tensor>, id: string, layer: nat)
    requires Owned(h, place, caches) && id in h.open
    ensures Owned(h.(open := h.open[id := h.open[id].(ready := h.open[id].ready + {layer})]), place, caches)
  {
    hide Sized;
  }
}
