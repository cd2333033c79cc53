/** Searching and regrouping sequences, and counting sets, for the other modules. */
module Sequences {

  /** The first index where `p` holds, or -1. */
  function First<T>(ts: seq<T>, p: T -> bool): (r: int)
    ensures -1 <= r < |ts|
    ensures r >= 0 ==> p(ts[r]) && forall j | 0 <= j < r :: !p(ts[j])
    ensures r == -1 ==> forall j | 0 <= j < |ts| :: !p(ts[j])
  {
    if ts == [] then -1
    else if p(ts[0]) then 0
    else var r := First(ts[1..], p); if r == -1 then -1 else r + 1
  }

  /** The first position of `x`, or -1. */
  function IndexOf<T(==)>(s: seq<T>, x: T): (r: int)
    ensures -1 <= r < |s|
    ensures r >= 0 ==> s[r] == x && forall j | 0 <= j < r :: s[j] != x
    ensures r == -1 ==> x !in s
  {
    First(s, (y: T) => y == x)
  }

  lemma IndexOfIs<T>(a: seq<T>, x: T, b: seq<T>)
    requires x !in a
    ensures IndexOf(a + [x] + b, x) == |a|
  {
    hide IndexOf;
    var s := a + [x] + b;
    assert s[|a|] == x && forall j | 0 <= j < |a| :: s[j] == a[j];
  }

  lemma Regroup<T>(a: seq<T>, b: seq<T>, c: seq<T>, d: seq<T>)
    ensures a + b + c + d == a + b + (c + d)
    ensures a + (b + c) == a + b + c
  {
  }

  lemma SameTail<T>(a: seq<T>, b: seq<T>, c: seq<T>, d: seq<T>, tail: seq<T>)
    requires a + b == c + d
    ensures a + (b + tail) == c + (d + tail)
  {
    assert a + (b + tail) == (a + b) + tail;
    assert c + (d + tail) == (c + d) + tail;
  }

  lemma SubsetCount<T>(a: set<T>, b: set<T>)
    requires a <= b
    ensures |a| <= |b|
  {
    assert b == a + (b - a);
  }
}
