/** Small datatypes and sequence facts shared by every component. */
module Common {

  datatype Option<+T> = None | Some(value: T)

  datatype Result<+T, +E> = Ok(value: T) | Err(error: E)

  function Max(a: int, b: int): int { if a >= b then a else b }

  function Min(a: int, b: int): int { if a <= b then a else b }

  function MaxReal(a: real, b: real): real { if a >= b then a else b }

  function MinReal(a: real, b: real): real { if a <= b then a else b }

  predicate Distinct<T(==)>(s: seq<T>) {
    forall i, j :: 0 <= i < j < |s| ==> s[i] != s[j]
  }

  /** Python's order of texts, by code points. */
  predicate TextLess(a: string, b: string) {
    b != [] && (a == [] || a[0] < b[0] || (a[0] == b[0] && TextLess(a[1..], b[1..])))
  }

  lemma {:induction false} TextLessTotal(a: string, b: string)
    ensures a == b <==> !TextLess(a, b) && !TextLess(b, a)
    ensures !(TextLess(a, b) && TextLess(b, a))
  {
    if a != [] && b != [] {
      TextLessTotal(a[1..], b[1..]);
      assert a == [a[0]] + a[1..] && b == [b[0]] + b[1..];
    }
  }

  lemma {:induction false} TextLessTransitive(a: string, b: string, c: string)
    requires TextLess(a, b) && TextLess(b, c)
    ensures TextLess(a, c)
  {
    if a != [] && a[0] == b[0] == c[0] {
      TextLessTransitive(a[1..], b[1..], c[1..]);
    }
  }

  predicate InOrder(texts: seq<string>) {
    forall i, j :: 0 <= i < j < |texts| ==> TextLess(texts[i], texts[j])
  }

  lemma InOrderDistinct(texts: seq<string>)
    requires InOrder(texts)
    ensures Distinct(texts)
  {
    forall i, j | 0 <= i < j < |texts| ensures texts[i] != texts[j] {
      TextLessTotal(texts[i], texts[j]);
    }
  }

  method Least(texts: set<string>) returns (least: string)
    requires texts != {}
    ensures least in texts && forall t :: t in texts && t != least ==> TextLess(least, t)
  {
    least :| least in texts;
    var rest := texts - {least};
    while rest != {}
      invariant least in texts && rest <= texts
      invariant forall t :: t in texts - rest && t != least ==> TextLess(least, t)
      decreases |rest|
    {
      var t :| t in rest;
      TextLessTotal(t, least);
      if TextLess(t, least) {
        forall x | x in texts - rest && x != least ensures TextLess(t, x) {
          TextLessTransitive(t, least, x);
        }
        least := t;
      }
      rest := rest - {t};
    }
  }

  /** Python's sorted() of a set of texts. */
  method SortedTexts(texts: set<string>) returns (sorted: seq<string>)
    ensures InOrder(sorted) && forall t :: t in sorted <==> t in texts
  {
    hide TextLess;
    sorted := [];
    var rest := texts;
    while rest != {}
      invariant rest <= texts && InOrder(sorted)
      invariant forall t :: t in sorted <==> t in texts && t !in rest
      invariant forall i, t :: 0 <= i < |sorted| && t in rest ==> TextLess(sorted[i], t)
      decreases |rest|
    {
      var t := Least(rest);
      sorted := sorted + [t];
      rest := rest - {t};
    }
  }
}
