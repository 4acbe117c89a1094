/** Sequences without repetition, and finding and dropping elements. */
module Sequences {
  predicate Distinct<T(==)>(s: seq<T>) { forall i, j :: 0 <= i < j < |s| ==> s[i] != s[j] }

  /** Drop `x` wherever it is. */
  function Without<T(==, !new)>(s: seq<T>, x: T): (r: seq<T>)
    ensures |r| <= |s| && (x in s ==> |r| < |s|) && (x !in s ==> r == s)
    ensures Distinct(s) ==> Distinct(r)
    ensures forall y :: y in r <==> y in s && y != x
  {
    if s == [] then []
    else
      var rest := Without(s[1..], x);
      assert Distinct(s) ==> Distinct(s[1..]) && s[0] !in s[1..];
      if s[0] == x then rest else [s[0]] + rest
  }

  /** The first position of `x`; the length when there is none. */
  function IndexOf<T(==)>(s: seq<T>, x: T): (i: nat)
    ensures i <= |s| && (i < |s| ==> s[i] == x) && (x in s ==> i < |s|)
    ensures forall j :: 0 <= j < i ==> s[j] != x
  {
    if s == [] || s[0] == x then 0 else 1 + IndexOf(s[1..], x)
  }

  lemma {:induction false} DistinctSize<T>(s: seq<T>)
    requires Distinct(s)
    ensures |set x | x in s| == |s|
  {
    if s != [] {
      var rest := s[..|s| - 1];
      DistinctSize(rest);
      assert (set x | x in s) == (set x | x in rest) + {s[|s| - 1]};
    }
  }

  lemma {:induction false} SubsetSize<T>(a: set<T>, b: set<T>)
    requires a <= b
    ensures |a| <= |b|
  {
    if a != {} {
      var x :| x in a;
      SubsetSize(a - {x}, b - {x});
    }
  }
}

/** Rounding up. */
module Rounding {
  function Ceil(x: real): (n: int)
    ensures n as real - 1.0 < x <= n as real
  {
    if x == x.Floor as real then x.Floor else x.Floor + 1
  }
}
