/**
  Where the groups of CPU backings are: free in the pool, in the hands of the code that runs,
  in an open save context, or in a stored prefix. No group is in two places, and every group
  has the sizes its block count promises.
 */
module BackingOwnership {
  import opened Common
  import opened PrefixStores
  import opened SaveScheduling
  import opened VllmRanges
  import opened VllmTiling

  type Sig = seq<(int, int)>

  datatype Context = Context(request: Request, group: Group, ready: set<nat>)

  /** A group somebody holds, with the block count it was acquired for. */
  datatype HeldGroup = HeldGroup(group: Group, blockCount: int)

  datatype Holdings = Holdings(
    free: map<Sig, seq<Group>>, hand: map<nat, HeldGroup>, open: map<string, Context>, stored: map<string, Prefix>,
    next: nat)

  datatype Place = InPool(sig: Sig, index: int) | InHand | InContext(requestId: string) | InStore(key: string) | Closed

  predicate Sized(group: Group, blockCount: int, caches: seq<Tensor>) {
    group.sizes == SizesOf(Signature(blockCount, caches))
  }

  // ---------- the invariant ----------

  predicate IsFree(free: map<Sig, seq<Group>>, sig: Sig, i: int) { sig in free && 0 <= i < |free[sig]| }

  ghost predicate PoolOwned(h: Holdings, place: map<nat, Place>) {
    forall sig, i :: IsFree(h.free, sig, i) ==>
      var g := h.free[sig][i];
      g.id in place && place[g.id] == InPool(sig, i) && g.sizes == SizesOf(sig)
  }

  ghost predicate HandOwned(h: Holdings, place: map<nat, Place>, caches: seq<Tensor>) {
    forall n :: n in h.hand ==>
      n in place && place[n] == InHand && h.hand[n].group.id == n
      && Sized(h.hand[n].group, h.hand[n].blockCount, caches)
  }

  ghost predicate ContextsOwned(h: Holdings, place: map<nat, Place>, caches: seq<Tensor>) {
    forall id :: id in h.open ==>
      var c := h.open[id];
      c.group.id in place && place[c.group.id] == InContext(id) && Sized(c.group, c.request.blockCount, caches)
  }

  ghost predicate StoreOwned(h: Holdings, place: map<nat, Place>, caches: seq<Tensor>) {
    forall k :: k in h.stored ==>
      var g := h.stored[k].backings;
      g.id in place && place[g.id] == InStore(k) && Sized(g, h.stored[k].blockCount, caches)
  }

  /** `place` says where each group is; being a function, it puts each group in one place at most. */
  ghost predicate Owned(h: Holdings, place: map<nat, Place>, caches: seq<Tensor>) {
    && PoolOwned(h, place) && HandOwned(h, place, caches)
    && ContextsOwned(h, place, caches) && StoreOwned(h, place, caches)
    && forall n :: n in place ==> n < h.next
  }

  /** The same, spelled out: free lists, open contexts and stored prefixes share no group and repeat none. */
  ghost predicate NoSharing(free: map<Sig, seq<Group>>, open: map<string, Context>, stored: map<string, Prefix>) {
    && (forall sig, i, sig', i' ::
          IsFree(free, sig, i) && IsFree(free, sig', i') && free[sig][i].id == free[sig'][i'].id ==>
            sig == sig' && i == i')
    && (forall id, id' :: id in open && id' in open && open[id].group.id == open[id'].group.id ==> id == id')
    && (forall k, k' :: k in stored && k' in stored && stored[k].backings.id == stored[k'].backings.id ==> k == k')
    && (forall sig, i, id :: IsFree(free, sig, i) && id in open ==> free[sig][i].id != open[id].group.id)
    && (forall sig, i, k :: IsFree(free, sig, i) && k in stored ==> free[sig][i].id != stored[k].backings.id)
    && (forall id, k :: id in open && k in stored ==> open[id].group.id != stored[k].backings.id)
  }

  lemma OwnedMeansNoSharing(h: Holdings, place: map<nat, Place>, caches: seq<Tensor>)
    requires Owned(h, place, caches)
    ensures NoSharing(h.free, h.open, h.stored)
    ensures forall sig, i :: IsFree(h.free, sig, i) ==> h.free[sig][i].sizes == SizesOf(sig)
  {
    hide Sized;
    assert forall sig, i :: IsFree(h.free, sig, i) ==> place[h.free[sig][i].id] == InPool(sig, i);
    assert forall id :: id in h.open ==> place[h.open[id].group.id] == InContext(id);
    assert forall k :: k in h.stored ==> place[h.stored[k].backings.id] == InStore(k);
  }

  /** What was closed stays closed, so it is never free, in a context or in a prefix again. */
  ghost predicate StillClosed(place: map<nat, Place>, place': map<nat, Place>) {
    forall n :: n in place && place[n] == Closed ==> n in place' && place'[n] == Closed
  }

  ghost predicate AreClosed(closed: set<nat>, place: map<nat, Place>) {
    forall n :: n in closed ==> n in place && place[n] == Closed
  }

  ghost predicate NoneUsed(closed: set<nat>, free: map<Sig, seq<Group>>, open: map<string, Context>,
                           stored: map<string, Prefix>) {
    && (forall sig, i :: IsFree(free, sig, i) ==> free[sig][i].id !in closed)
    && (forall id :: id in open ==> open[id].group.id !in closed)
    && (forall k :: k in stored ==> stored[k].backings.id !in closed)
  }

  /** No closed group is free, open or stored. */
  lemma ClosedAreUnused(h: Holdings, place: map<nat, Place>, caches: seq<Tensor>, closed: set<nat>)
    requires Owned(h, place, caches) && AreClosed(closed, place)
    ensures NoneUsed(closed, h.free, h.open, h.stored)
  {
    hide Sized;
    assert forall sig, i :: IsFree(h.free, sig, i) ==> place[h.free[sig][i].id] == InPool(sig, i);
    assert forall id :: id in h.open ==> place[h.open[id].group.id] == InContext(id);
    assert forall k :: k in h.stored ==> place[h.stored[k].backings.id] == InStore(k);
  }

  // ---------- moves ----------

  /** The pool hands out the last group released for this signature. */
  function TakenFromPool(h: Holdings, sig: Sig, blockCount: int): Holdings
    requires sig in h.free && h.free[sig] != []
  {
    var (m, group) := (|h.free[sig]| - 1, h.free[sig][|h.free[sig]| - 1]);
    h.(free := h.free[sig := h.free[sig][..m]], hand := h.hand[group.id := HeldGroup(group, blockCount)])
  }

  function Allocated(h: Holdings, sig: Sig, blockCount: int): Holdings {
    h.(hand := h.hand[h.next := HeldGroup(Group(h.next, SizesOf(sig)), blockCount)], next := h.next + 1)
  }

  function Returned(free: map<Sig, seq<Group>>, sig: Sig, group: Group): map<Sig, seq<Group>> {
    free[sig := (if sig in free then free[sig] else []) + [group]]
  }

  function ReturnedToPool(h: Holdings, n: nat, sig: Sig): Holdings
    requires n in h.hand
  {
    h.(free := Returned(h.free, sig, h.hand[n].group), hand := h.hand - {n})
  }

  function Opened(h: Holdings, n: nat, request: Request): Holdings
    requires n in h.hand
  {
    h.(hand := h.hand - {n}, open := h.open[request.requestId := Context(request, h.hand[n].group, {})])
  }

  function ClosedContext(h: Holdings, id: string): Holdings
    requires id in h.open
  {
    h.(open := h.open - {id},
       hand := h.hand[h.open[id].group.id := HeldGroup(h.open[id].group, h.open[id].request.blockCount)])
  }

  /** A stored prefix leaves the store. */
  function Unstored(h: Holdings, k: string): Holdings
    requires k in h.stored
  {
    var p := h.stored[k];
    h.(stored := h.stored - {k}, hand := h.hand[p.backings.id := HeldGroup(p.backings, p.blockCount)])
  }

  function StoredUnder(h: Holdings, n: nat, k: string, p: Prefix): Holdings {
    h.(hand := h.hand - {n}, stored := h.stored[k := p])
  }

  // ---------- every move keeps the invariant ----------

  lemma TakeKeeps(h: Holdings, place: map<nat, Place>, caches: seq<Tensor>, blockCount: int)
    requires Owned(h, place, caches)
    requires Signature(blockCount, caches) in h.free && h.free[Signature(blockCount, caches)] != []
    ensures var sig := Signature(blockCount, caches);
            var group := h.free[sig][|h.free[sig]| - 1];
            && Owned(TakenFromPool(h, sig, blockCount), place[group.id := InHand], caches)
            && Sized(group, blockCount, caches) && StillClosed(place, place[group.id := InHand])
  {
  }

  lemma AllocateKeeps(h: Holdings, place: map<nat, Place>, caches: seq<Tensor>, blockCount: int)
    requires Owned(h, place, caches)
    ensures Owned(Allocated(h, Signature(blockCount, caches), blockCount), place[h.next := InHand], caches)
    ensures StillClosed(place, place[h.next := InHand])
  {
  }

  lemma ReturnKeeps(h: Holdings, place: map<nat, Place>, caches: seq<Tensor>, n: nat)
    requires Owned(h, place, caches) && n in h.hand
    ensures var sig := Signature(h.hand[n].blockCount, caches);
            var index := if sig in h.free then |h.free[sig]| else 0;
            Owned(ReturnedToPool(h, n, sig), place[n := InPool(sig, index)], caches)
    ensures n in place && place[n] == InHand
  {
    hide SizesOf;
  }

  lemma OpenKeeps(h: Holdings, place: map<nat, Place>, caches: seq<Tensor>, n: nat, request: Request)
    requires Owned(h, place, caches) && n in h.hand && h.hand[n].blockCount == request.blockCount
    ensures Owned(Opened(h, n, request), place[n := InContext(request.requestId)], caches)
    ensures n in place && place[n] == InHand
  {
    hide Sized;
  }

  lemma CloseKeeps(h: Holdings, place: map<nat, Place>, caches: seq<Tensor>, id: string)
    requires Owned(h, place, caches) && id in h.open
    ensures Owned(ClosedContext(h, id), place[h.open[id].group.id := InHand], caches)
    ensures StillClosed(place, place[h.open[id].group.id := InHand])
  {
    hide Sized;
  }

  lemma UnstoreKeeps(h: Holdings, place: map<nat, Place>, caches: seq<Tensor>, k: string)
    requires Owned(h, place, caches) && k in h.stored
    ensures Owned(Unstored(h, k), place[h.stored[k].backings.id := InHand], caches)
    ensures StillClosed(place, place[h.stored[k].backings.id := InHand])
  {
    hide Sized;
  }

  lemma StoreKeeps(h: Holdings, place: map<nat, Place>, caches: seq<Tensor>, n: nat, k: string, p: Prefix)
    requires Owned(h, place, caches) && n in h.hand && p.backings == h.hand[n].group
    requires p.blockCount == h.hand[n].blockCount
    ensures Owned(StoredUnder(h, n, k, p), place[n := InStore(k)], caches)
    ensures n in place && place[n] == InHand
  {
    hide Sized;
  }

  /** A context that is lost just leaves; nobody else had its group. */
  lemma LoseKeeps(h: Holdings, place: map<nat, Place>, caches: seq<Tensor>, id: string)
    requires Owned(h, place, caches) && id in h.open
    ensures Owned(h.(open := h.open - {id}), place, caches)
  {
    hide Sized;
  }

  /** A context that ends with its group closed. */
  lemma EndKeeps(h: Holdings, place: map<nat, Place>, caches: seq<Tensor>, id: string)
    requires Owned(h, place, caches) && id in h.open
    ensures Owned(h.(open := h.open - {id}), place[h.open[id].group.id := Closed], caches)
    ensures StillClosed(place, place[h.open[id].group.id := Closed])
  {
    hide Sized;
  }
}
