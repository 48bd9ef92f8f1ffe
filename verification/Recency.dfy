/**
  Plain LRU, stated on a history of touches: the keys in order of their last touch, and
  the last n of them. The runtime cache, its eviction record and the prefix store all keep
  their own ordered dictionaries; each is proved to hold exactly such a list.
 */
module Recency {

  function Without<K(==)>(s: seq<K>, k: K): seq<K> {
    if s == [] then []
    else Without(s[..|s| - 1], k) + if s[|s| - 1] == k then [] else [s[|s| - 1]]
  }

  function LastN<K>(s: seq<K>, n: nat): (last: seq<K>)
    ensures |last| == if |s| <= n then |s| else n
  {
    if |s| <= n then s else s[|s| - n..]
  }

  /** The distinct keys of a history, ordered by their last touch, oldest first. */
  function ByLastTouch<K(==)>(history: seq<K>): seq<K> {
    if history == [] then []
    else
      var k := history[|history| - 1];
      Without(ByLastTouch(history[..|history| - 1]), k) + [k]
  }

  /** What a plain LRU cache of n entries holds after `history`. */
  function LastDistinct<K(==)>(history: seq<K>, n: nat): seq<K> {
    LastN(ByLastTouch(history), n)
  }

  ghost predicate NoRepeats<K>(s: seq<K>) {
    forall i, j :: 0 <= i < j < |s| ==> s[i] != s[j]
  }

  // ---------- Without ----------

  lemma {:induction false} WithoutMembers<K>(s: seq<K>, k: K, x: K)
    ensures x in Without(s, k) <==> x in s && x != k
  {
    if s != [] {
      WithoutMembers(s[..|s| - 1], k, x);
      assert s == s[..|s| - 1] + [s[|s| - 1]];
    }
  }

  lemma {:induction false} WithoutAbsent<K>(s: seq<K>, k: K)
    requires k !in s
    ensures Without(s, k) == s
  {
    if s != [] {
      WithoutAbsent(s[..|s| - 1], k);
    }
  }

  lemma {:induction false} WithoutConcat<K>(a: seq<K>, b: seq<K>, k: K)
    ensures Without(a + b, k) == Without(a, k) + Without(b, k)
  {
    if b == [] {
      assert a + b == a;
    } else {
      assert (a + b)[..|a + b| - 1] == a + b[..|b| - 1];
      WithoutConcat(a, b[..|b| - 1], k);
    }
  }

  lemma {:induction false} WithoutNoRepeats<K>(s: seq<K>, k: K)
    requires NoRepeats(s)
    ensures NoRepeats(Without(s, k))
  {
    if s != [] {
      var init, last := s[..|s| - 1], s[|s| - 1];
      WithoutNoRepeats(init, k);
      WithoutMembers(init, k, last);
    }
  }

  lemma WithoutMiddle<K>(a: seq<K>, k: K, b: seq<K>)
    requires k !in a && k !in b
    ensures Without(a + [k] + b, k) == a + b
  {
    hide Without;
    WithoutConcat(a + [k], b, k);
    WithoutConcat(a, [k], k);
    WithoutAbsent(a, k);
    WithoutAbsent(b, k);
    WithoutOnly(k);
    assert a + [] == a;
  }

  lemma WithoutOnly<K>(k: K)
    ensures Without([k], k) == []
  {
    assert [k][..0] == [];
  }

  /** Removing one occurrence by position is Without, when keys do not repeat. */
  lemma WithoutAt<K>(s: seq<K>, i: nat)
    requires i < |s| && NoRepeats(s)
    ensures Without(s, s[i]) == s[..i] + s[i + 1..]
  {
    hide Without;
    assert s == s[..i] + [s[i]] + s[i + 1..];
    WithoutMiddle(s[..i], s[i], s[i + 1..]);
  }

  // ---------- ByLastTouch ----------

  lemma ByLastTouchSnoc<K>(history: seq<K>, k: K)
    ensures ByLastTouch(history + [k]) == Without(ByLastTouch(history), k) + [k]
  {
    assert (history + [k])[..|history|] == history;
  }

  lemma {:induction false} ByLastTouchNoRepeats<K>(history: seq<K>)
    ensures NoRepeats(ByLastTouch(history))
  {
    if history != [] {
      var init, k := history[..|history| - 1], history[|history| - 1];
      ByLastTouchNoRepeats(init);
      WithoutNoRepeats(ByLastTouch(init), k);
      WithoutMembers(ByLastTouch(init), k, k);
    }
  }

  lemma {:induction false} ByLastTouchMembers<K>(history: seq<K>, x: K)
    ensures x in ByLastTouch(history) <==> x in history
  {
    if history != [] {
      var init, k := history[..|history| - 1], history[|history| - 1];
      ByLastTouchMembers(init, x);
      WithoutMembers(ByLastTouch(init), k, x);
      assert history == init + [k];
    }
  }

  // ---------- one LRU step ----------

  /** The part of `s` in front of its last n elements. */
  function Dropped<K>(s: seq<K>, n: nat): seq<K> {
    s[..|s| - |LastN(s, n)|]
  }

  lemma DroppedAndLast<K>(s: seq<K>, n: nat)
    ensures s == Dropped(s, n) + LastN(s, n)
    ensures Dropped(s, n) == [] || |LastN(s, n)| == n
  {
  }

  lemma LastNOfConcat<K>(p: seq<K>, c: seq<K>, n: nat)
    requires |c| == n || (p == [] && |c| <= n)
    ensures LastN(p + c, n) == c
  {
  }

  lemma ApartWhenNoRepeats<K>(p: seq<K>, c: seq<K>, k: K)
    requires NoRepeats(p + c) && k in c
    ensures k !in p && NoRepeats(c)
  {
    var j :| 0 <= j < |c| && c[j] == k;
    assert (p + c)[|p| + j] == k;
    forall i | 0 <= i < |p| ensures p[i] != k {
      assert (p + c)[i] == p[i];
    }
    forall i, j | 0 <= i < j < |c| ensures c[i] != c[j] {
      assert (p + c)[|p| + i] == c[i] && (p + c)[|p| + j] == c[j];
    }
  }

  lemma WithoutSize<K>(s: seq<K>, k: K)
    requires NoRepeats(s) && k in s
    ensures |Without(s, k)| == |s| - 1
  {
    hide Without;
    var i :| 0 <= i < |s| && s[i] == k;
    WithoutAt(s, i);
  }

  /** A hit: the key moves to the end, and the list is still the plain LRU list. */
  lemma TouchHit<K>(history: seq<K>, n: nat, k: K)
    requires k in LastDistinct(history, n)
    ensures Without(LastDistinct(history, n), k) + [k] == LastDistinct(history + [k], n)
  {
    hide Without, ByLastTouch, LastN, Dropped;
    var r, c := ByLastTouch(history), LastDistinct(history, n);
    var p := Dropped(r, n);
    DroppedAndLast(r, n);
    ByLastTouchNoRepeats(history);
    ApartWhenNoRepeats(p, c, k);
    WithoutConcat(p, c, k);
    WithoutAbsent(p, k);
    WithoutSize(c, k);
    ByLastTouchSnoc(history, k);
    var c' := Without(c, k) + [k];
    assert p + Without(c, k) + [k] == p + c';
    LastNOfConcat(p, c', n);
  }

  /** A miss: the key is appended, and dropping from the front gives the plain LRU list. */
  lemma TouchMiss<K>(history: seq<K>, n: nat, k: K)
    requires n >= 1 && k !in LastDistinct(history, n)
    ensures LastN(LastDistinct(history, n) + [k], n) == LastDistinct(history + [k], n)
  {
    hide Without, ByLastTouch, LastN, Dropped;
    var r, c := ByLastTouch(history), LastDistinct(history, n);
    var p := Dropped(r, n);
    DroppedAndLast(r, n);
    WithoutConcat(p, c, k);
    WithoutAbsent(c, k);
    ByLastTouchSnoc(history, k);
    assert Without(p, k) + c + [k] == Without(p, k) + (c + [k]);
    if p == [] {
      WithoutAbsent(p, k);
      assert [] + (c + [k]) == c + [k];
    } else {
      LastNOfExtension(Without(p, k), c + [k], n);
    }
  }

  lemma LastNOfExtension<K>(p: seq<K>, c: seq<K>, n: nat)
    requires |c| >= n
    ensures LastN(p + c, n) == LastN(c, n)
  {
  }

  lemma LastDistinctNoRepeats<K>(history: seq<K>, n: nat)
    ensures NoRepeats(LastDistinct(history, n))
  {
    ByLastTouchNoRepeats(history);
  }

  // ---------- reuse distance ----------

  /** Keys of `s` that are not touched in `b`. */
  function Untouched<K(==)>(s: seq<K>, b: seq<K>): seq<K> {
    if b == [] then s else Without(Untouched(s, b[..|b| - 1]), b[|b| - 1])
  }

  lemma SplitStep<K>(a: seq<K>, init: seq<K>, k: K)
    requires ByLastTouch(a + init) == Untouched(ByLastTouch(a), init) + ByLastTouch(init)
    ensures ByLastTouch(a + (init + [k])) == Untouched(ByLastTouch(a), init + [k]) + ByLastTouch(init + [k])
  {
    hide Without, ByLastTouch;
    var older := Untouched(ByLastTouch(a), init);
    assert a + (init + [k]) == (a + init) + [k];
    ByLastTouchSnoc(a + init, k);
    ByLastTouchSnoc(init, k);
    WithoutConcat(older, ByLastTouch(init), k);
    assert (init + [k])[..|init|] == init;
    assert Without(older, k) + Without(ByLastTouch(init), k) + [k]
        == Without(older, k) + (Without(ByLastTouch(init), k) + [k]);
  }

  lemma {:induction false} ByLastTouchSplit<K>(a: seq<K>, b: seq<K>)
    ensures ByLastTouch(a + b) == Untouched(ByLastTouch(a), b) + ByLastTouch(b)
  {
    if b == [] {
      assert a + b == a;
    } else {
      var init, k := b[..|b| - 1], b[|b| - 1];
      assert b == init + [k];
      hide ByLastTouch, Untouched;
      ByLastTouchSplit(a, init);
      SplitStep(a, init, k);
    }
  }

  lemma {:induction false} UntouchedKeepsLast<K>(s: seq<K>, k: K, b: seq<K>)
    requires k !in b
    ensures Untouched(s + [k], b) == Untouched(s, b) + [k]
  {
    if b != [] {
      var init, x := b[..|b| - 1], b[|b| - 1];
      UntouchedKeepsLast(s, k, init);
      WithoutConcat(Untouched(s, init), [k], x);
      assert Without([k], x) == [k] by { WithoutAbsent([k], x); }
    }
  }

  function Distinctly<K>(s: seq<K>): set<K> { set x | x in s }

  lemma {:induction false} ByLastTouchSize<K>(s: seq<K>)
    ensures |ByLastTouch(s)| == |Distinctly(s)|
  {
    ByLastTouchNoRepeats(s);
    NoRepeatsSize(ByLastTouch(s));
    forall x ensures x in ByLastTouch(s) <==> x in s {
      ByLastTouchMembers(s, x);
    }
    assert Distinctly(ByLastTouch(s)) == Distinctly(s);
  }

  lemma {:induction false} NoRepeatsSize<K>(s: seq<K>)
    requires NoRepeats(s)
    ensures |Distinctly(s)| == |s|
  {
    if s != [] {
      var init, k := s[..|s| - 1], s[|s| - 1];
      NoRepeatsSize(init);
      assert s == init + [k];
      assert Distinctly(s) == Distinctly(init) + {k};
    }
  }

  /**
    An independent reading of LRU: a key touched last before `since` is still held if and
    only if fewer than n distinct keys were touched since.
   */
  lemma HeldIffFewDistinctSince<K>(before: seq<K>, k: K, since: seq<K>, n: nat)
    requires k !in since
    ensures k in LastDistinct(before + [k] + since, n) <==> |Distinctly(since)| < n
  {
    hide Without, ByLastTouch, Untouched, LastN;
    ByLastTouchSplit(before + [k], since);
    ByLastTouchSnoc(before, k);
    var older := Without(ByLastTouch(before), k);
    UntouchedKeepsLast(older, k, since);
    ByLastTouchSize(since);
    ByLastTouchNoRepeats(before + [k] + since);
    AmongLastN(Untouched(older, since), k, ByLastTouch(since), n);
  }

  lemma AmongLastN<K>(a: seq<K>, k: K, b: seq<K>, n: nat)
    requires NoRepeats(a + [k] + b)
    ensures k in LastN(a + [k] + b, n) <==> |b| < n
  {
    var r := a + [k] + b;
    var held := LastN(r, n);
    assert r[|a|] == k;
    if k in held {
      var i :| 0 <= i < |held| && held[i] == k;
      assert r[|r| - |held| + i] == k;
    }
    if |b| < n {
      assert held[|a| - (|r| - |held|)] == k;
    }
  }
}
