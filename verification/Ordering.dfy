/** `sorted(set(...))` over integers: ascending, without duplicates. */
module Ordering {

  predicate Ascending(s: seq<int>) {
    forall i, j :: 0 <= i < j < |s| ==> s[i] < s[j]
  }

  /** Membership by position. */
  predicate Has(s: seq<int>, x: int) {
    exists i :: 0 <= i < |s| && s[i] == x
  }

  function Insert(s: seq<int>, x: int): seq<int> {
    if s == [] then [x]
    else if x < s[0] then [x] + s
    else if x == s[0] then s
    else [s[0]] + Insert(s[1..], x)
  }

  lemma {:induction false} InsertAscends(s: seq<int>, x: int)
    requires Ascending(s)
    ensures Ascending(Insert(s, x)) && |Insert(s, x)| <= |s| + 1
    ensures forall i :: 0 <= i < |Insert(s, x)| ==> Insert(s, x)[i] == x || (s != [] && s[0] <= Insert(s, x)[i])
  {
    if s != [] && x > s[0] {
      InsertAscends(s[1..], x);
    }
  }

  lemma HasCons(h: int, t: seq<int>, y: int)
    ensures Has([h] + t, y) <==> y == h || Has(t, y)
  {
    var s := [h] + t;
    assert s[0] == h;
    if Has(t, y) {
      var i :| 0 <= i < |t| && t[i] == y;
      assert s[i + 1] == y;
    }
    if Has(s, y) && y != h {
      var i :| 0 <= i < |s| && s[i] == y;
      assert t[i - 1] == y;
    }
  }

  lemma {:induction false} InsertHas(s: seq<int>, x: int, y: int)
    ensures Has(Insert(s, x), y) <==> y == x || Has(s, y)
  {
    hide Has;
    if s == [] {
      assert [x] == [x] + [];
      HasCons(x, [], y);
      HasNone(y);
    } else {
      assert s == [s[0]] + s[1..];
      HasCons(s[0], s[1..], y);
      if x < s[0] {
        HasCons(x, s, y);
      } else if x > s[0] {
        InsertHas(s[1..], x, y);
        HasCons(s[0], Insert(s[1..], x), y);
      }
    }
  }

  lemma HasNone(y: int)
    ensures !Has([], y)
  {
  }

  /** The distinct values of `xs` in ascending order. */
  function Sorted(xs: seq<int>): seq<int> {
    if xs == [] then [] else Insert(Sorted(xs[..|xs| - 1]), xs[|xs| - 1])
  }

  lemma {:induction false} SortedIsSorted(xs: seq<int>)
    ensures Ascending(Sorted(xs)) && |Sorted(xs)| <= |xs|
    ensures forall y :: Has(Sorted(xs), y) <==> Has(xs, y)
  {
    if xs != [] {
      var (front, last) := (xs[..|xs| - 1], xs[|xs| - 1]);
      SortedIsSorted(front);
      InsertAscends(Sorted(front), last);
      forall y
        ensures Has(Sorted(xs), y) <==> Has(xs, y)
      {
        HasLast(xs, y);
        InsertHas(Sorted(front), last, y);
      }
    }
  }

  lemma HasLast(xs: seq<int>, y: int)
    requires xs != []
    ensures Has(xs, y) <==> y == xs[|xs| - 1] || Has(xs[..|xs| - 1], y)
  {
  }

  lemma {:induction false} InsertLargest(s: seq<int>, x: int)
    requires forall i :: 0 <= i < |s| ==> s[i] < x
    ensures Insert(s, x) == s + [x]
  {
    if s != [] {
      InsertLargest(s[1..], x);
      assert s == [s[0]] + s[1..];
    }
  }

  lemma {:induction false} AscendingIsSorted(xs: seq<int>)
    requires Ascending(xs)
    ensures Sorted(xs) == xs
  {
    if xs != [] {
      var front := xs[..|xs| - 1];
      AscendingIsSorted(front);
      InsertLargest(front, xs[|xs| - 1]);
      assert xs == front + [xs[|xs| - 1]];
    }
  }
}
