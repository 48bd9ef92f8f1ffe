/**
  The check that an execution ticket's ranges cover the intent: every ticket range lies
  inside some intent range, in source and in destination space, and the byte totals agree.
  What acceptance implies, and what it does not.
 */
module TicketCoverage {
  import opened Common
  import opened Transfers
  import opened Chunking
  import opened Planner

  predicate Contains(outer: Chunk, inner: Chunk) {
    outer.src <= inner.src && outer.dst <= inner.dst
    && inner.src + inner.bytes <= outer.src + outer.bytes
    && inner.dst + inner.bytes <= outer.dst + outer.bytes
  }

  ghost predicate Inside(t: Chunk, ranges: seq<Chunk>) {
    exists r :: r in ranges && Contains(r, t)
  }

  ghost predicate Accepts(ticket: seq<Chunk>, ranges: seq<Chunk>, total: int) {
    && ranges != []
    && (forall t :: t in ticket ==> Inside(t, ranges))
    && TotalBytes(ticket) == total
  }

  method TicketRangesCoverIntent(ticket: seq<Chunk>, ranges: seq<Chunk>, total: int) returns (accepted: bool)
    ensures accepted <==> Accepts(ticket, ranges, total)
  {
    if ranges == [] {
      return false;
    }
    var sum := 0;
    for i := 0 to |ticket|
      invariant sum == TotalBytes(ticket[..i])
      invariant forall t :: t in ticket[..i] ==> Inside(t, ranges)
    {
      assert ticket[..i + 1][..i] == ticket[..i];
      sum := sum + ticket[i].bytes;
      var found := false;
      for j := 0 to |ranges|
        invariant found <==> Inside(ticket[i], ranges[..j])
      {
        assert ranges[..j + 1] == ranges[..j] + [ranges[j]];
        if Contains(ranges[j], ticket[i]) {
          assert ranges[j] in ranges[..j + 1];
          found := true;
        }
      }
      assert ranges[..|ranges|] == ranges;
      if !found {
        assert ticket[i] in ticket;
        return false;
      }
    }
    assert ticket[..|ticket|] == ticket;
    return sum == total;
  }

  // ---------- intervals on one side ----------

  datatype Interval = Interval(lo: int, bytes: int)

  function Sources(cs: seq<Chunk>): (s: seq<Interval>)
    ensures |s| == |cs| && forall i :: 0 <= i < |cs| ==> s[i] == Interval(cs[i].src, cs[i].bytes)
  {
    seq(|cs|, i requires 0 <= i < |cs| => Interval(cs[i].src, cs[i].bytes))
  }

  function Targets(cs: seq<Chunk>): (s: seq<Interval>)
    ensures |s| == |cs| && forall i :: 0 <= i < |cs| ==> s[i] == Interval(cs[i].dst, cs[i].bytes)
  {
    seq(|cs|, i requires 0 <= i < |cs| => Interval(cs[i].dst, cs[i].bytes))
  }

  predicate In(x: int, v: Interval) { v.lo <= x < v.lo + v.bytes }

  /** How many intervals hold byte x. */
  function Hits(s: seq<Interval>, x: int): nat {
    if s == [] then 0 else Hits(s[..|s| - 1], x) + if In(x, s[|s| - 1]) then 1 else 0
  }

  function Bytes(s: seq<Interval>): int {
    if s == [] then 0 else Bytes(s[..|s| - 1]) + s[|s| - 1].bytes
  }

  predicate Disjoint(s: seq<Interval>) {
    forall i, j :: 0 <= i < j < |s| ==> s[i].lo + s[i].bytes <= s[j].lo || s[j].lo + s[j].bytes <= s[i].lo
  }

  predicate AllPositive(s: seq<Interval>) {
    forall v :: v in s ==> v.bytes > 0
  }

  function Span(lo: int, n: nat): (s: set<int>)
    ensures forall x :: x in s <==> lo <= x < lo + n
    ensures |s| == n
  {
    if n == 0 then {} else Span(lo, n - 1) + {lo + n - 1}
  }

  function Covered(s: seq<Interval>): (c: set<int>)
    requires AllPositive(s)
    ensures forall x :: x in c <==> exists v :: v in s && In(x, v)
  {
    if s == [] then {}
    else
      var k := |s| - 1;
      assert s == s[..k] + [s[k]];
      assert s[k] in s;
      Covered(s[..k]) + Span(s[k].lo, s[k].bytes)
  }

  lemma {:induction false} HitsPositive(s: seq<Interval>, x: int)
    ensures Hits(s, x) > 0 <==> exists v :: v in s && In(x, v)
  {
    if s != [] {
      var k := |s| - 1;
      HitsPositive(s[..k], x);
      assert s == s[..k] + [s[k]];
      assert s[k] in s;
    }
  }

  lemma {:induction false} DisjointHitsOnce(s: seq<Interval>, x: int)
    requires Disjoint(s)
    ensures Hits(s, x) <= 1
  {
    if s != [] {
      var k := |s| - 1;
      DisjointHitsOnce(s[..k], x);
      HitsPositive(s[..k], x);
    }
  }

  lemma {:induction false} OverlapHitsTwice(s: seq<Interval>, i: nat, j: nat, x: int)
    requires i < j < |s| && In(x, s[i]) && In(x, s[j])
    ensures Hits(s, x) >= 2
  {
    var k := |s| - 1;
    if j == k {
      HitsPositive(s[..k], x);
      assert s[..k][i] == s[i];
    } else {
      OverlapHitsTwice(s[..k], i, j, x);
    }
  }

  lemma PrefixApart(s: seq<Interval>, x: int)
    requires s != [] && Disjoint(s) && AllPositive(s) && exists v :: v in s[..|s| - 1] && In(x, v)
    ensures !In(x, s[|s| - 1])
  {
    var k := |s| - 1;
    var v :| v in s[..k] && In(x, v);
    var i :| 0 <= i < k && s[..k][i] == v;
    assert s[i] == v;
  }

  lemma PrefixKeeps(s: seq<Interval>)
    requires s != [] && Disjoint(s) && AllPositive(s)
    ensures AllPositive(s[..|s| - 1]) && Disjoint(s[..|s| - 1]) && s[|s| - 1].bytes > 0
  {
    assert s[|s| - 1] in s;
    assert forall v :: v in s[..|s| - 1] ==> v in s;
  }

  lemma LastIsApart(s: seq<Interval>)
    requires s != [] && Disjoint(s) && AllPositive(s)
    ensures var k := |s| - 1;
            && AllPositive(s[..k]) && Disjoint(s[..k]) && s[k].bytes > 0
            && forall x :: !(x in Covered(s[..k]) && x in Span(s[k].lo, s[k].bytes))
  {
    hide Covered, Span, Disjoint, AllPositive;
    var k := |s| - 1;
    PrefixKeeps(s);
    forall x ensures !(x in Covered(s[..k]) && x in Span(s[k].lo, s[k].bytes)) {
      if x in Covered(s[..k]) {
        PrefixApart(s, x);
      }
    }
  }

  lemma ApartSizes<T>(a: set<T>, b: set<T>)
    requires forall x :: !(x in a && x in b)
    ensures |a + b| == |a| + |b|
  {
    assert a !! b;
  }

  lemma {:induction false} DisjointSize(s: seq<Interval>)
    requires Disjoint(s) && AllPositive(s)
    ensures |Covered(s)| == Bytes(s)
  {
    hide Disjoint;
    if s != [] {
      var k := |s| - 1;
      LastIsApart(s);
      DisjointSize(s[..k]);
      ApartSizes(Covered(s[..k]), Span(s[k].lo, s[k].bytes));
    }
  }

  lemma SubsetOfSameSize(a: set<int>, b: set<int>)
    requires a <= b && |a| == |b|
    ensures a == b
  {
    assert |b - a| == |b| - |a|;
    assert b == a + (b - a);
  }

  ghost predicate Under(v: Interval, outer: seq<Interval>) {
    exists w :: w in outer && w.lo <= v.lo && v.lo + v.bytes <= w.lo + w.bytes
  }

  lemma SameCover(inner: seq<Interval>, outer: seq<Interval>)
    requires AllPositive(inner) && AllPositive(outer) && Disjoint(inner) && Disjoint(outer)
    requires forall v :: v in inner ==> Under(v, outer)
    requires Bytes(inner) == Bytes(outer)
    ensures Covered(inner) == Covered(outer)
  {
    hide Disjoint, Bytes;
    DisjointSize(inner);
    DisjointSize(outer);
    forall y | y in Covered(inner) ensures y in Covered(outer) {
      var v :| v in inner && In(y, v);
      var w :| w in outer && w.lo <= v.lo && v.lo + v.bytes <= w.lo + w.bytes;
      assert In(y, w);
    }
    SubsetOfSameSize(Covered(inner), Covered(outer));
  }

  /** Disjoint intervals inside disjoint intervals, with the same number of bytes: they tile them. */
  lemma TilesExactly(inner: seq<Interval>, outer: seq<Interval>, x: int)
    requires AllPositive(inner) && AllPositive(outer) && Disjoint(inner) && Disjoint(outer)
    requires forall v :: v in inner ==> Under(v, outer)
    requires Bytes(inner) == Bytes(outer)
    ensures Hits(inner, x) == Hits(outer, x)
  {
    hide Disjoint, Under;
    SameCover(inner, outer);
    assert x in Covered(inner) <==> x in Covered(outer);
    DisjointHitsOnce(inner, x);
    DisjointHitsOnce(outer, x);
    HitsPositive(inner, x);
    HitsPositive(outer, x);
  }

  /** Exact tiling of disjoint intervals forces the tiles to be disjoint. */
  lemma TilesAreDisjoint(inner: seq<Interval>, outer: seq<Interval>)
    requires AllPositive(inner) && Disjoint(outer)
    requires forall x :: Hits(inner, x) == Hits(outer, x)
    ensures Disjoint(inner)
  {
    forall i, j | 0 <= i < j < |inner|
      ensures inner[i].lo + inner[i].bytes <= inner[j].lo || inner[j].lo + inner[j].bytes <= inner[i].lo
    {
      assert inner[i] in inner && inner[j] in inner;
      if inner[i].lo + inner[i].bytes > inner[j].lo && inner[j].lo + inner[j].bytes > inner[i].lo {
        var x := Max(inner[i].lo, inner[j].lo);
        OverlapHitsTwice(inner, i, j, x);
        DisjointHitsOnce(outer, x);
        assert false;
      }
    }
  }

  // ---------- what acceptance means ----------

  /** What the schema enforces on the ranges of intents and of tickets. */
  predicate WellFormed(cs: seq<Chunk>) {
    forall c :: c in cs ==> c.src >= 0 && c.dst >= 0 && c.bytes > 0
  }

  lemma {:induction false} BytesOfSides(cs: seq<Chunk>)
    ensures Bytes(Sources(cs)) == TotalBytes(cs) && Bytes(Targets(cs)) == TotalBytes(cs)
  {
    if cs != [] {
      var k := |cs| - 1;
      BytesOfSides(cs[..k]);
      assert Sources(cs)[..k] == Sources(cs[..k]) && Targets(cs)[..k] == Targets(cs[..k]);
    }
  }

  lemma SidesWellFormed(cs: seq<Chunk>)
    requires WellFormed(cs)
    ensures AllPositive(Sources(cs)) && AllPositive(Targets(cs))
    ensures Disjoint(Sources(cs)) <==> DisjointSources(cs)
    ensures Disjoint(Targets(cs)) <==> DisjointTargets(cs)
  {
    assert forall i :: 0 <= i < |cs| ==> cs[i] in cs;
  }

  lemma ContainedSides(ticket: seq<Chunk>, ranges: seq<Chunk>, i: nat)
    requires i < |ticket| && Inside(ticket[i], ranges)
    ensures Under(Sources(ticket)[i], Sources(ranges)) && Under(Targets(ticket)[i], Targets(ranges))
  {
    var r :| r in ranges && Contains(r, ticket[i]);
    var j :| 0 <= j < |ranges| && ranges[j] == r;
    assert Sources(ranges)[j] in Sources(ranges);
    assert Targets(ranges)[j] in Targets(ranges);
  }

  ghost predicate CoversExactly(ticket: seq<Chunk>, ranges: seq<Chunk>) {
    && (forall x :: Hits(Sources(ticket), x) == Hits(Sources(ranges), x))
    && (forall x :: Hits(Targets(ticket), x) == Hits(Targets(ranges), x))
  }

  /**
    For an intent with disjoint ranges, an accepted ticket reads and writes every intent
    byte exactly once if and only if its own ranges are disjoint on both sides.
   */
  lemma AcceptedTicketCovers(ticket: seq<Chunk>, ranges: seq<Chunk>)
    requires WellFormed(ticket) && WellFormed(ranges)
    requires DisjointSources(ranges) && DisjointTargets(ranges)
    requires Accepts(ticket, ranges, TotalBytes(ranges))
    ensures CoversExactly(ticket, ranges) <==> DisjointSources(ticket) && DisjointTargets(ticket)
  {
    hide Disjoint, Under, Inside, WellFormed, DisjointSources, DisjointTargets;
    SidesWellFormed(ticket);
    SidesWellFormed(ranges);
    BytesOfSides(ticket);
    BytesOfSides(ranges);
    forall i | 0 <= i < |ticket|
      ensures Under(Sources(ticket)[i], Sources(ranges)) && Under(Targets(ticket)[i], Targets(ranges))
    {
      assert ticket[i] in ticket;
      ContainedSides(ticket, ranges, i);
    }
    if DisjointSources(ticket) && DisjointTargets(ticket) {
      forall x ensures Hits(Sources(ticket), x) == Hits(Sources(ranges), x)
               ensures Hits(Targets(ticket), x) == Hits(Targets(ranges), x)
      {
        TilesExactly(Sources(ticket), Sources(ranges), x);
        TilesExactly(Targets(ticket), Targets(ranges), x);
      }
    }
    if CoversExactly(ticket, ranges) {
      TilesAreDisjoint(Sources(ticket), Sources(ranges));
      TilesAreDisjoint(Targets(ticket), Targets(ranges));
    }
  }

  const FIRST := Chunk(0, 0, 1, None)

  const SECOND := Chunk(1, 1, 1, None)

  /** Two equal ticket ranges pass the check and leave the second intent range uncovered. */
  lemma RepeatedRangePasses()
    ensures WellFormed([FIRST, FIRST]) && WellFormed([FIRST, SECOND])
    ensures DisjointSources([FIRST, SECOND]) && DisjointTargets([FIRST, SECOND])
    ensures Accepts([FIRST, FIRST], [FIRST, SECOND], TotalBytes([FIRST, SECOND]))
    ensures Hits(Sources([FIRST, FIRST]), 1) == 0
  {
    assert FIRST in [FIRST, SECOND] && Contains(FIRST, FIRST);
    PairTotal(FIRST, FIRST);
    PairTotal(FIRST, SECOND);
    HitsPositive(Sources([FIRST, FIRST]), 1);
  }

  /** The ticket range keeps the distance between source and destination of a range around it. */
  ghost predicate Aligned(t: Chunk, ranges: seq<Chunk>) {
    exists r :: r in ranges && Contains(r, t) && t.dst - t.src == r.dst - r.src
  }

  lemma SameSourceSameRange(ranges: seq<Chunk>, r: Chunk, r': Chunk, s: int)
    requires WellFormed(ranges) && DisjointSources(ranges) && r in ranges && r' in ranges
    requires r.src <= s < r.src + r.bytes && r'.src <= s < r'.src + r'.bytes
    ensures r == r'
  {
    var i :| 0 <= i < |ranges| && ranges[i] == r;
    var j :| 0 <= j < |ranges| && ranges[j] == r';
  }

  lemma {:induction false} DisjointCopiesOnce(cs: seq<Chunk>, s: int, d: int)
    requires WellFormed(cs) && DisjointSources(cs)
    ensures Copies(cs, s, d) <= 1
  {
    if cs != [] {
      var k := |cs| - 1;
      DisjointCopiesOnce(cs[..k], s, d);
      CopiesPositive(cs[..k], s, d);
      assert cs[k] in cs;
    }
  }

  lemma SourceCovered(ticket: seq<Chunk>, ranges: seq<Chunk>, s: int) returns (t: Chunk)
    requires forall x :: Hits(Sources(ticket), x) == Hits(Sources(ranges), x)
    requires exists r :: r in ranges && r.src <= s < r.src + r.bytes
    ensures t in ticket && t.src <= s < t.src + t.bytes
  {
    var r :| r in ranges && r.src <= s < r.src + r.bytes;
    var j :| 0 <= j < |ranges| && ranges[j] == r;
    assert Sources(ranges)[j] in Sources(ranges) && In(s, Sources(ranges)[j]);
    HitsPositive(Sources(ranges), s);
    HitsPositive(Sources(ticket), s);
    assert Hits(Sources(ticket), s) == Hits(Sources(ranges), s);
    var v :| v in Sources(ticket) && In(s, v);
    var i :| 0 <= i < |ticket| && Sources(ticket)[i] == v;
    t := ticket[i];
  }

  /**
    Acceptance compares source and destination separately, so it does not fix which byte goes
    where: a disjoint accepted ticket transfers what the intent asks for if and only if every
    ticket range is aligned with an intent range.
   */
  lemma AcceptedTicketMeaning(ticket: seq<Chunk>, ranges: seq<Chunk>)
    requires WellFormed(ticket) && WellFormed(ranges)
    requires DisjointSources(ranges) && DisjointTargets(ranges) && DisjointSources(ticket) && DisjointTargets(ticket)
    requires Accepts(ticket, ranges, TotalBytes(ranges))
    ensures SameMeaning(ticket, ranges) <==> forall t :: t in ticket ==> Aligned(t, ranges)
  {
    AcceptedTicketCovers(ticket, ranges);
    hide Aligned, Inside, DisjointSources, DisjointTargets;
    if SameMeaning(ticket, ranges) {
      forall t | t in ticket ensures Aligned(t, ranges) {
        assert Moves(t, t.src, t.dst);
        CopiesPositive(ticket, t.src, t.dst);
        assert Copies(ticket, t.src, t.dst) == Copies(ranges, t.src, t.dst);
        AlignedIfMoved(t, ranges);
      }
    }
    if forall t :: t in ticket ==> Aligned(t, ranges) {
      forall s, d ensures Copies(ticket, s, d) == Copies(ranges, s, d) {
        DisjointCopiesOnce(ticket, s, d);
        DisjointCopiesOnce(ranges, s, d);
        if Copies(ticket, s, d) > 0 {
          AlignedMovesAreAsked(ticket, ranges, s, d);
        }
        if Copies(ranges, s, d) > 0 {
          AskedMovesAreMade(ticket, ranges, s, d);
        }
      }
    }
  }

  lemma AlignedIfMoved(t: Chunk, ranges: seq<Chunk>)
    requires WellFormed(ranges) && DisjointSources(ranges) && Inside(t, ranges) && t.bytes > 0
    requires Copies(ranges, t.src, t.dst) > 0
    ensures Aligned(t, ranges)
  {
    hide WellFormed, DisjointSources;
    CopiesPositive(ranges, t.src, t.dst);
    var r :| r in ranges && Moves(r, t.src, t.dst);
    var r' :| r' in ranges && Contains(r', t);
    SameSourceSameRange(ranges, r, r', t.src);
  }

  lemma AlignedMovesAreAsked(ticket: seq<Chunk>, ranges: seq<Chunk>, s: int, d: int)
    requires (forall t :: t in ticket ==> Aligned(t, ranges)) && Copies(ticket, s, d) > 0
    ensures Copies(ranges, s, d) > 0
  {
    CopiesPositive(ticket, s, d);
    var t :| t in ticket && Moves(t, s, d);
    var r :| r in ranges && Contains(r, t) && t.dst - t.src == r.dst - r.src;
    assert Moves(r, s, d);
    CopiesPositive(ranges, s, d);
  }

  lemma AskedMovesAreMade(ticket: seq<Chunk>, ranges: seq<Chunk>, s: int, d: int)
    requires WellFormed(ranges) && DisjointSources(ranges) && CoversExactly(ticket, ranges)
    requires (forall t :: t in ticket ==> Aligned(t, ranges)) && Copies(ranges, s, d) > 0
    ensures Copies(ticket, s, d) > 0
  {
    hide WellFormed, DisjointSources;
    CopiesPositive(ranges, s, d);
    var r :| r in ranges && Moves(r, s, d);
    var t := SourceCovered(ticket, ranges, s);
    assert Aligned(t, ranges);
    var r' :| r' in ranges && Contains(r', t) && t.dst - t.src == r'.dst - r'.src;
    SameSourceSameRange(ranges, r, r', s);
    assert Moves(t, s, d);
    CopiesPositive(ticket, s, d);
  }

  const WHOLE := Chunk(0, 0, 2, None)

  const LEFT := Chunk(0, 1, 1, None)

  const RIGHT := Chunk(1, 0, 1, None)

  /** A ticket that swaps two bytes of the intent is accepted. */
  lemma SwappedBytesPass()
    ensures WellFormed([LEFT, RIGHT]) && WellFormed([WHOLE]) && DisjointSources([LEFT, RIGHT])
    ensures DisjointTargets([LEFT, RIGHT])
    ensures Accepts([LEFT, RIGHT], [WHOLE], TotalBytes([WHOLE])) && !SameMeaning([LEFT, RIGHT], [WHOLE])
  {
    assert WHOLE in [WHOLE];
    assert Contains(WHOLE, LEFT) && Contains(WHOLE, RIGHT);
    hide Copies, SameMeaning, TotalBytes;
    PairTotal(LEFT, RIGHT);
    PairTotal(WHOLE, WHOLE);
    MovesElsewhere([LEFT, RIGHT], [WHOLE], LEFT, 0, 1);
  }

  lemma PairTotal(a: Chunk, b: Chunk)
    ensures TotalBytes([a]) == a.bytes && TotalBytes([a, b]) == a.bytes + b.bytes
  {
    assert [a][..0] == [] && [a, b][..1] == [a];
    assert TotalBytes([a]) == a.bytes;
  }

  lemma MovesElsewhere(a: seq<Chunk>, b: seq<Chunk>, c: Chunk, s: int, d: int)
    requires c in a && Moves(c, s, d) && forall x :: x in b ==> !Moves(x, s, d)
    ensures !SameMeaning(a, b)
  {
    CopiesPositive(a, s, d);
    CopiesPositive(b, s, d);
  }

  /** The chunks of any plan for an intent pass the check, and move what the intent asks for. */
  lemma PlannerTicketAccepted(o: Options, ranges: seq<Chunk>, size: int, p: Profile, mode: Mode, direction: Direction)
    requires WellFormed(ranges) && ranges != []
    requires RangesPlan(o, ranges, size, p, mode, direction).Ok?
    ensures var ticket := AssignedChunks(RangesPlan(o, ranges, size, p, mode, direction).value.assignments);
            Accepts(ticket, ranges, TotalBytes(ranges)) && SameMeaning(ranges, ticket)
  {
    hide RangesPlan;
    var ticket := AssignedChunks(RangesPlan(o, ranges, size, p, mode, direction).value.assignments);
    PlanOutcome(o, ranges, size, p, mode, direction);
    var chunks := ChunksOf(ranges, size);
    PlanMeansItsRanges(o, ranges, size, p, mode, direction);
    ChunksOfShape(ranges, size);
    SamePermutationSameTotal(ticket, chunks);
    PositiveIsTotal(ranges);
    forall t | t in ticket ensures Inside(t, ranges) {
      assert t in multiset(ticket);
      assert t in chunks;
      var r :| r in ranges && Within(t, r);
      assert Contains(r, t);
    }
  }

  lemma {:induction false} PositiveIsTotal(rs: seq<Chunk>)
    requires WellFormed(rs)
    ensures PositiveBytes(rs) == TotalBytes(rs)
  {
    if rs != [] {
      assert rs[|rs| - 1] in rs;
      PositiveIsTotal(rs[..|rs| - 1]);
    }
  }

  lemma {:induction false} SamePermutationSameTotal(a: seq<Chunk>, b: seq<Chunk>)
    requires multiset(a) == multiset(b)
    ensures TotalBytes(a) == TotalBytes(b)
    decreases |a|
  {
    if a == [] {
      assert |multiset(b)| == 0;
    } else {
      var k := |a| - 1;
      assert a[k] in multiset(b);
      var j :| 0 <= j < |b| && b[j] == a[k];
      WithoutOne(a, k);
      WithoutOne(b, j);
      assert a[..k] + a[k + 1..] == a[..k];
      hide TotalBytes;
      SamePermutationSameTotal(a[..k], b[..j] + b[j + 1..]);
      TotalWithoutOne(a, k);
      TotalWithoutOne(b, j);
    }
  }

  lemma TotalWithoutOne(b: seq<Chunk>, j: nat)
    requires j < |b|
    ensures TotalBytes(b) == TotalBytes(b[..j] + b[j + 1..]) + b[j].bytes
  {
    TotalAppend(b[..j + 1], b[j + 1..]);
    TotalAppend(b[..j], b[j + 1..]);
    assert b == b[..j + 1] + b[j + 1..] && b[..j + 1][..j] == b[..j];
  }
}
