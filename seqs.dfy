/** Order-preserving filtering of move lists (square indices): the model of `Array.prototype.filter`. */
module Seqs {

  /** The elements of `s` that satisfy `p`, in their original order. */
  function Filter(s: seq<int>, p: int -> bool): (r: seq<int>)
    ensures |r| <= |s|
    ensures forall x :: x in r <==> x in s && p(x)
    ensures forall x :: multiset(r)[x] == if p(x) then multiset(s)[x] else 0
  {
    if s == [] then []
    else
      assert s == [s[0]] + s[1..];
      (if p(s[0]) then [s[0]] else []) + Filter(s[1..], p)
  }

  /** A single element survives exactly when it passes the test. */
  lemma FilterSingleton(x: int, p: int -> bool)
    ensures Filter([x], p) == if p(x) then [x] else []
  {
    assert [x][1..] == [];
  }

  /**
   * Concatenation is associative. Stated over plain parameters so that using it
   * on filtered lists does not bring in the contract of `Filter`.
   */
  lemma AppendAssoc(a: seq<int>, b: seq<int>, c: seq<int>)
    ensures (a + b) + c == a + (b + c)
  {
  }

  /** Filtering a list with a given first element. */
  lemma FilterCons(x: int, s: seq<int>, p: int -> bool)
    ensures Filter([x] + s, p) == (if p(x) then [x] else []) + Filter(s, p)
  {
    assert ([x] + s)[0] == x && ([x] + s)[1..] == s;
  }

  /**
   * Filtering distributes over concatenation. With `FilterSingleton` this pins
   * `Filter` down as the order-preserving filter: the survivors of each part
   * appear in the order of their parts.
   */
  lemma {:induction false} FilterConcat(a: seq<int>, c: seq<int>, p: int -> bool)
    ensures Filter(a + c, p) == Filter(a, p) + Filter(c, p)
  {
    if a == [] {
      assert a + c == c;
    } else {
      var x, rest := a[0], a[1..];
      assert a == [x] + rest;
      assert a + c == [x] + (rest + c);
      FilterCons(x, rest, p);
      FilterCons(x, rest + c, p);
      FilterConcat(rest, c, p);
      AppendAssoc(if p(x) then [x] else [], Filter(rest, p), Filter(c, p));
    }
  }

  /** A filtered sequence is non-empty exactly when some element passes the test. */
  lemma FilterNonEmpty(s: seq<int>, p: int -> bool)
    ensures |Filter(s, p)| > 0 <==> exists x :: x in s && p(x)
  {
    var r := Filter(s, p);
    if |r| > 0 {
      var y := r[0];
      assert y in r;
      assert y in s && p(y);
    }
  }
}
