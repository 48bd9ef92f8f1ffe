/** Cutting byte ranges into chunks, and gluing contiguous chunks together again. */
module Chunking {
  import opened Common
  import opened Transfers

  /** What one range contributes, from `consumed` bytes on. */
  function ChunksFrom(r: Chunk, size: int, consumed: int): (cs: seq<Chunk>)
    requires size > 0
    decreases r.bytes - consumed
  {
    if consumed >= r.bytes then []
    else
      var n := Min(size, r.bytes - consumed);
      [Chunk(r.src + consumed, r.dst + consumed, n, None)] + ChunksFrom(r, size, consumed + n)
  }

  function ChunksOf(rs: seq<Chunk>, size: int): seq<Chunk>
    requires size > 0
  {
    if rs == [] then []
    else
      var r := rs[|rs| - 1];
      ChunksOf(rs[..|rs| - 1], size) + if r.bytes <= 0 then [] else ChunksFrom(r, size, 0)
  }

  /** The bytes the planner counts: ranges without bytes are skipped. */
  function PositiveBytes(rs: seq<Chunk>): nat {
    if rs == [] then 0 else PositiveBytes(rs[..|rs| - 1]) + Max(0, rs[|rs| - 1].bytes)
  }

  lemma {:induction false} ChunksFromCopies(r: Chunk, size: int, consumed: int, s: int, d: int)
    requires size > 0 && 0 <= consumed
    ensures Copies(ChunksFrom(r, size, consumed), s, d)
         == if Moves(r, s, d) && r.src + consumed <= s then 1 else 0
    decreases r.bytes - consumed
  {
    if consumed < r.bytes {
      var n := Min(size, r.bytes - consumed);
      var head := Chunk(r.src + consumed, r.dst + consumed, n, None);
      var rest := ChunksFrom(r, size, consumed + n);
      ChunksFromCopies(r, size, consumed + n, s, d);
      CopiesAppend([head], rest, s, d);
      assert Copies([head], s, d) == if Moves(head, s, d) then 1 else 0 by {
        assert [head][..0] == [];
      }
    }
  }

  /** Chunking moves exactly the bytes of the ranges, each exactly as often. */
  lemma {:induction false} ChunksOfCopies(rs: seq<Chunk>, size: int, s: int, d: int)
    requires size > 0
    ensures Copies(ChunksOf(rs, size), s, d) == Copies(rs, s, d)
  {
    if rs != [] {
      var init, r := rs[..|rs| - 1], rs[|rs| - 1];
      ChunksOfCopies(init, size, s, d);
      if r.bytes > 0 {
        CopiesAppend(ChunksOf(init, size), ChunksFrom(r, size, 0), s, d);
        ChunksFromCopies(r, size, 0, s, d);
      } else {
        assert ChunksOf(rs, size) == ChunksOf(init, size);
      }
    }
  }

  // ---------- which chunks, exactly ----------

  /** How many chunks a range takes. */
  function PieceCount(bytes: int, size: int): nat
    requires size > 0
  {
    if bytes <= 0 then 0 else (bytes + size - 1) / size
  }

  function PiecesOf(rs: seq<Chunk>, size: int): nat
    requires size > 0
  {
    if rs == [] then 0 else PiecesOf(rs[..|rs| - 1], size) + PieceCount(rs[|rs| - 1].bytes, size)
  }

  /** The j-th chunk of a range starts j chunk sizes in; all but the last are full, and the last ends the range. */
  predicate IsPiece(c: Chunk, r: Chunk, size: int, j: int) {
    && c.src == r.src + j * size && c.dst == r.dst + j * size && c.relay == None
    && (if (j + 1) * size <= r.bytes then c.bytes == size else c.bytes == r.bytes - j * size)
  }

  lemma CountAfterOne(bytes: int, size: int)
    requires size > 0 && bytes > size
    ensures PieceCount(bytes, size) == PieceCount(bytes - size, size) + 1
  {
    assert bytes + size - 1 == (bytes - size + size - 1) + size;
    var (q, d) := ((bytes - 1) / size, (bytes - 1) % size);
    assert bytes + size - 1 == (q + 1) * size + d;
    QuotientIs(bytes + size - 1, size, q + 1, d);
  }

  lemma QuotientIs(n: int, size: int, q: int, d: int)
    requires size > 0 && 0 <= d < size && n == q * size + d
    ensures n / size == q
  {
    var e := n / size - q;
    assert n == (n / size) * size + n % size;
    assert e * size == d - n % size;
    MultipleOf(e, size);
  }

  lemma MultipleOf(e: int, size: int)
    requires size > 0
    ensures e >= 1 ==> e * size >= size
    ensures e <= -1 ==> e * size <= -size
  {
  }

  lemma {:induction false} ChunksFromPieces(r: Chunk, size: int, k: nat)
    requires size > 0 && (k == 0 || k * size < r.bytes + size)
    ensures var cs := ChunksFrom(r, size, k * size);
            && |cs| == PieceCount(r.bytes - k * size, size)
            && forall j :: 0 <= j < |cs| ==> IsPiece(cs[j], r, size, k + j)
    decreases r.bytes - k * size
  {
    var rest := r.bytes - k * size;
    if rest > size {
      assert (k + 1) * size == k * size + size;
      ChunksFromPieces(r, size, k + 1);
      CountAfterOne(rest, size);
    } else if rest > 0 {
      assert ChunksFrom(r, size, r.bytes) == [];
      assert (k + 1) * size == k * size + size;
      QuotientIs(rest + size - 1, size, 1, rest - 1);
    }
  }

  /** Every chunk of the list is the expected piece of the expected range, in order, and there are no others. */
  lemma {:induction false} ChunksOfPieces(rs: seq<Chunk>, size: int, q: nat, j: nat)
    requires size > 0 && q < |rs| && j < PieceCount(rs[q].bytes, size)
    ensures |ChunksOf(rs, size)| == PiecesOf(rs, size)
    ensures PiecesOf(rs[..q], size) + j < |ChunksOf(rs, size)|
    ensures IsPiece(ChunksOf(rs, size)[PiecesOf(rs[..q], size) + j], rs[q], size, j)
  {
    var m := |rs| - 1;
    ChunkCount(rs, size);
    ChunkCount(rs[..m], size);
    if q < m {
      assert rs[..m][..q] == rs[..q] && rs[..m][q] == rs[q];
      ChunksOfPieces(rs[..m], size, q, j);
    } else {
      ChunksFromPieces(rs[m], size, 0);
    }
  }

  lemma {:induction false} ChunkCount(rs: seq<Chunk>, size: int)
    requires size > 0
    ensures |ChunksOf(rs, size)| == PiecesOf(rs, size)
  {
    if rs != [] {
      ChunkCount(rs[..|rs| - 1], size);
      if rs[|rs| - 1].bytes > 0 {
        ChunksFromPieces(rs[|rs| - 1], size, 0);
      }
    }
  }

  ghost predicate Within(c: Chunk, r: Chunk) {
    r.src <= c.src && r.dst <= c.dst
    && c.src + c.bytes <= r.src + r.bytes && c.dst + c.bytes <= r.dst + r.bytes
  }

  ghost predicate PieceOf(c: Chunk, r: Chunk, size: int) { 0 < c.bytes <= size && c.relay == None && Within(c, r) }

  lemma {:induction false} ChunksFromShape(r: Chunk, size: int, consumed: int)
    requires size > 0 && 0 <= consumed <= r.bytes
    ensures forall c :: c in ChunksFrom(r, size, consumed) ==> PieceOf(c, r, size)
    ensures TotalBytes(ChunksFrom(r, size, consumed)) == r.bytes - consumed
    decreases r.bytes - consumed
  {
    hide PieceOf;
    if consumed < r.bytes {
      var n := Min(size, r.bytes - consumed);
      var head := Chunk(r.src + consumed, r.dst + consumed, n, None);
      ChunksFromShape(r, size, consumed + n);
      TotalAppend([head], ChunksFrom(r, size, consumed + n));
      assert TotalBytes([head]) == n by { assert [head][..0] == []; }
      NextPiece(r, size, consumed);
    }
  }

  lemma NextPiece(r: Chunk, size: int, consumed: int)
    requires size > 0 && 0 <= consumed < r.bytes
    ensures PieceOf(Chunk(r.src + consumed, r.dst + consumed, Min(size, r.bytes - consumed), None), r, size)
  {
  }

  lemma {:induction false} ChunksOfShape(rs: seq<Chunk>, size: int)
    requires size > 0
    ensures forall c :: c in ChunksOf(rs, size) ==>
              0 < c.bytes <= size && c.relay == None && exists r :: r in rs && Within(c, r)
    ensures TotalBytes(ChunksOf(rs, size)) == PositiveBytes(rs)
  {
    if rs != [] {
      var init, r := rs[..|rs| - 1], rs[|rs| - 1];
      ChunksOfShape(init, size);
      if r.bytes > 0 {
        ChunksFromShape(r, size, 0);
        TotalAppend(ChunksOf(init, size), ChunksFrom(r, size, 0));
        forall c | c in ChunksFrom(r, size, 0) ensures exists r' :: r' in rs && Within(c, r') {
          assert r in rs && Within(c, r);
        }
      } else {
        assert ChunksOf(rs, size) == ChunksOf(init, size);
      }
      assert forall q :: q in init ==> q in rs;
    }
  }

  lemma NextChunk(chunks: seq<Chunk>, r: Chunk, size: int, consumed: int)
    requires size > 0 && 0 <= consumed < r.bytes
    ensures var n := Min(size, r.bytes - consumed);
            chunks + ChunksFrom(r, size, consumed)
              == chunks + [Chunk(r.src + consumed, r.dst + consumed, n, None)] + ChunksFrom(r, size, consumed + n)
  {
    hide TotalBytes;
  }

  lemma NoChunksLeft(chunks: seq<Chunk>, r: Chunk, size: int)
    requires size > 0 && r.bytes >= 0
    ensures chunks + ChunksFrom(r, size, r.bytes) == chunks
  {
  }

  /** The chunking loop of plan_ranges: chunks and the running total. */
  method CutRanges(rs: seq<Chunk>, size: int) returns (chunks: seq<Chunk>, total: int)
    requires size > 0
    ensures chunks == ChunksOf(rs, size)
    ensures total == PositiveBytes(rs)
  {
    hide ChunksFrom;
    chunks, total := [], 0;
    for i := 0 to |rs|
      invariant chunks == ChunksOf(rs[..i], size)
      invariant total == PositiveBytes(rs[..i])
    {
      var r := rs[i];
      assert rs[..i + 1][..i] == rs[..i];
      if r.bytes > 0 {
        ghost var before := chunks;
        total := total + r.bytes;
        var consumed := 0;
        while consumed < r.bytes
          invariant 0 <= consumed <= r.bytes
          invariant chunks + ChunksFrom(r, size, consumed) == before + ChunksFrom(r, size, 0)
        {
          var n := Min(size, r.bytes - consumed);
          NextChunk(chunks, r, size, consumed);
          chunks := chunks + [Chunk(r.src + consumed, r.dst + consumed, n, None)];
          consumed := consumed + n;
        }
        NoChunksLeft(chunks, r, size);
      }
    }
    assert rs[..|rs|] == rs;
  }

  /** The loop of _make_chunks: offsets 0, size, 2*size, ... below the total. */
  method MakeChunks(total: int, size: int) returns (chunks: seq<Chunk>)
    requires size > 0
    ensures chunks == ChunksFrom(Chunk(0, 0, total, None), size, 0)
  {
    chunks := [];
    var offset := 0;
    ghost var whole := Chunk(0, 0, total, None);
    while offset < total
      invariant offset >= 0
      invariant chunks + ChunksFrom(whole, size, offset) == ChunksFrom(whole, size, 0)
      decreases total - offset
    {
      var n := Min(size, total - offset);
      chunks := chunks + [Chunk(offset, offset, n, None)];
      if n < size {
        assert ChunksFrom(whole, size, total) == [] == ChunksFrom(whole, size, offset + size);
      }
      offset := offset + size;
    }
  }

  // ---------- coalescing ----------

  predicate Contiguous(left: Chunk, right: Chunk) {
    left.relay == right.relay && left.src + left.bytes == right.src && left.dst + left.bytes == right.dst
  }

  function Glue(left: Chunk, right: Chunk): Chunk {
    Chunk(left.src, left.dst, left.bytes + right.bytes, left.relay)
  }

  function Absorb(m: seq<Chunk>, c: Chunk): seq<Chunk> {
    if m == [] || !Contiguous(m[|m| - 1], c) then m + [c]
    else m[..|m| - 1] + [Glue(m[|m| - 1], c)]
  }

  function Coalesced(cs: seq<Chunk>): seq<Chunk> {
    if cs == [] then [] else Absorb(Coalesced(cs[..|cs| - 1]), cs[|cs| - 1])
  }

  method CoalescedPathChunks(direct: bool, chunks: seq<Chunk>) returns (merged: seq<Chunk>)
    ensures merged == if direct then Coalesced(chunks) else chunks
  {
    if !direct {
      return chunks;
    }
    merged := [];
    for i := 0 to |chunks|
      invariant merged == Coalesced(chunks[..i])
    {
      assert chunks[..i + 1] == chunks[..i] + [chunks[i]];
      if merged == [] || !Contiguous(merged[|merged| - 1], chunks[i]) {
        merged := merged + [chunks[i]];
      } else {
        merged := merged[..|merged| - 1] + [Glue(merged[|merged| - 1], chunks[i])];
      }
    }
    assert chunks[..|chunks|] == chunks;
  }

  lemma {:induction false} CoalescedNonNegative(cs: seq<Chunk>)
    requires forall c :: c in cs ==> c.bytes >= 0
    ensures forall c :: c in Coalesced(cs) ==> c.bytes >= 0
  {
    if cs != [] {
      CoalescedNonNegative(cs[..|cs| - 1]);
    }
  }

  /** Coalescing changes neither what is moved nor how often, and leaves nothing to merge. */
  lemma {:induction false} CoalescingKeepsMeaning(cs: seq<Chunk>, s: int, d: int)
    requires forall c :: c in cs ==> c.bytes >= 0
    ensures Copies(Coalesced(cs), s, d) == Copies(cs, s, d)
  {
    if cs != [] {
      var init, c := cs[..|cs| - 1], cs[|cs| - 1];
      var m := Coalesced(init);
      CoalescingKeepsMeaning(init, s, d);
      CoalescedNonNegative(init);
      if m == [] || !Contiguous(m[|m| - 1], c) {
        assert (m + [c])[..|m|] == m;
      } else {
        var front, left := m[..|m| - 1], m[|m| - 1];
        assert (front + [Glue(left, c)])[..|front|] == front;
        assert left in m;
      }
    }
  }

  lemma {:induction false} CoalescedIsMaximal(cs: seq<Chunk>, i: nat)
    requires i + 1 < |Coalesced(cs)|
    ensures !Contiguous(Coalesced(cs)[i], Coalesced(cs)[i + 1])
  {
    var m, c := Coalesced(cs[..|cs| - 1]), cs[|cs| - 1];
    if i + 1 < |m| {
      CoalescedIsMaximal(cs[..|cs| - 1], i);
    }
  }

  /** The same merge, seen from the front: absorb the chunks of `cs` into `m` one by one. */
  function AbsorbAll(m: seq<Chunk>, cs: seq<Chunk>): seq<Chunk>
    decreases |cs|
  {
    if cs == [] then m else AbsorbAll(Absorb(m, cs[0]), cs[1..])
  }

  lemma {:induction false} CoalescedFromFront(done: seq<Chunk>, cs: seq<Chunk>)
    ensures Coalesced(done + cs) == AbsorbAll(Coalesced(done), cs)
    decreases |cs|
  {
    if cs == [] {
      assert done + cs == done;
    } else {
      hide Coalesced, Absorb;
      CoalescedFromFront(done + [cs[0]], cs[1..]);
      assert done + cs == done + [cs[0]] + cs[1..];
    }
  }

  /** Gluing the rest of a range onto the part already rebuilt gives the whole range. */
  lemma {:induction false} AbsorbRest(r: Chunk, size: int, consumed: int)
    requires size > 0 && r.relay == None && 0 < consumed <= r.bytes
    ensures AbsorbAll([Chunk(r.src, r.dst, consumed, None)], ChunksFrom(r, size, consumed)) == [r]
    decreases r.bytes - consumed
  {
    if consumed < r.bytes {
      var n := Min(size, r.bytes - consumed);
      var left := Chunk(r.src, r.dst, consumed, None);
      var next := Chunk(r.src + consumed, r.dst + consumed, n, None);
      assert Absorb([left], next) == [Chunk(r.src, r.dst, consumed + n, None)];
      assert ChunksFrom(r, size, consumed)[1..] == ChunksFrom(r, size, consumed + n);
      AbsorbRest(r, size, consumed + n);
    }
  }

  lemma AbsorbWholeRange(r: Chunk, size: int)
    requires size > 0 && r.bytes > 0 && r.relay == None
    ensures AbsorbAll([], ChunksFrom(r, size, 0)) == [r]
  {
    var n := Min(size, r.bytes);
    var first := Chunk(r.src, r.dst, n, None);
    assert ChunksFrom(r, size, 0) == [first] + ChunksFrom(r, size, n);
    assert Absorb([], first) == [first];
    AbsorbRest(r, size, n);
  }

  /** Cutting one range up and coalescing the pieces gives back that range. */
  lemma CoalescingUndoesCutting(r: Chunk, size: int)
    requires size > 0 && r.bytes > 0 && r.relay == None
    ensures Coalesced(ChunksOf([r], size)) == [r]
  {
    var cs := ChunksFrom(r, size, 0);
    AbsorbWholeRange(r, size);
    CoalescedFromFront([], cs);
    assert [] + cs == cs;
    assert ChunksOf([r], size) == ChunksOf([r][..0], size) + cs;
  }
}
