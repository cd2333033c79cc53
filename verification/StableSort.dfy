/**
Stable sorting by a real-valued key, as an insertion sort that scans from the right.

The order is pinned down by two facts: the result is ascending, and for every key the
elements with that key are the ones of the input in their input order.
*/
module StableSort {

  ghost predicate Ascending<T>(key: T -> real, s: seq<T>) {
    forall i, j | 0 <= i < j < |s| :: key(s[i]) <= key(s[j])
  }

  /** Inserts `x` after every element whose key is not greater. */
  function Insert<T>(key: T -> real, s: seq<T>, x: T): (r: seq<T>)
    ensures |r| == |s| + 1
  {
    if s == [] || key(s[|s| - 1]) <= key(x) then s + [x]
    else Insert(key, s[..|s| - 1], x) + [s[|s| - 1]]
  }

  function Sort<T>(key: T -> real, s: seq<T>): (r: seq<T>)
    ensures |r| == |s|
  {
    if s == [] then [] else Insert(key, Sort(key, s[..|s| - 1]), s[|s| - 1])
  }

  /** The elements with key `k`, in order. */
  function WithKey<T>(key: T -> real, s: seq<T>, k: real): seq<T> {
    if s == [] then []
    else WithKey(key, s[..|s| - 1], k) + (if key(s[|s| - 1]) == k then [s[|s| - 1]] else [])
  }

  lemma WithKeySnoc<T>(key: T -> real, s: seq<T>, x: T, k: real)
    ensures key(x) == k ==> WithKey(key, s + [x], k) == WithKey(key, s, k) + [x]
    ensures key(x) != k ==> WithKey(key, s + [x], k) == WithKey(key, s, k)
  {
    assert (s + [x])[..|s|] == s;
  }

  lemma {:induction false} InsertPermutes<T>(key: T -> real, s: seq<T>, x: T)
    ensures multiset(Insert(key, s, x)) == multiset(s) + multiset{x}
  {
    if s != [] && key(s[|s| - 1]) > key(x) {
      InsertPermutes(key, s[..|s| - 1], x);
      assert s == s[..|s| - 1] + [s[|s| - 1]];
    }
  }

  lemma {:induction false} InsertAscends<T>(key: T -> real, s: seq<T>, x: T)
    requires Ascending(key, s)
    ensures Ascending(key, Insert(key, s, x))
  {
    if s != [] && key(s[|s| - 1]) > key(x) {
      var front, last := s[..|s| - 1], s[|s| - 1];
      InsertAscends(key, front, x);
      InsertPermutes(key, front, x);
      var r := Insert(key, front, x);
      forall i | 0 <= i < |r| ensures key(r[i]) <= key(last) {
        assert r[i] in multiset(r);
        assert r[i] == x || r[i] in multiset(front);
      }
    }
  }

  lemma {:induction false} InsertKeepsKeyOrder<T>(key: T -> real, s: seq<T>, x: T, k: real)
    ensures WithKey(key, Insert(key, s, x), k) == WithKey(key, s + [x], k)
  {
    if s != [] && key(s[|s| - 1]) > key(x) {
      var front, last := s[..|s| - 1], s[|s| - 1];
      assert s == front + [last];
      InsertKeepsKeyOrder(key, front, x, k);
      WithKeySnoc(key, front, x, k);
      WithKeySnoc(key, s, x, k);
      WithKeySnoc(key, front, last, k);
      WithKeySnoc(key, Insert(key, front, x), last, k);
    }
  }

  lemma {:induction false} SortIsStable<T>(key: T -> real, s: seq<T>)
    ensures Ascending(key, Sort(key, s))
    ensures multiset(Sort(key, s)) == multiset(s)
    ensures forall k :: WithKey(key, Sort(key, s), k) == WithKey(key, s, k)
  {
    if s != [] {
      var front, last := s[..|s| - 1], s[|s| - 1];
      var r := Sort(key, front);
      SortIsStable(key, front);
      InsertAscends(key, r, last);
      InsertPermutes(key, r, last);
      assert s == front + [last];
      forall k ensures WithKey(key, Sort(key, s), k) == WithKey(key, s, k) {
        InsertKeepsKeyOrder(key, r, last, k);
        WithKeySnoc(key, r, last, k);
        WithKeySnoc(key, front, last, k);
      }
    }
  }

  lemma {:induction false} WithKeyMember<T>(key: T -> real, s: seq<T>, i: nat)
    requires i < |s|
    ensures WithKey(key, s, key(s[i])) != []
  {
    if i < |s| - 1 {
      WithKeyMember(key, s[..|s| - 1], i);
    }
  }

  lemma {:induction false} WithKeyFrom<T>(key: T -> real, s: seq<T>, k: real)
    requires WithKey(key, s, k) != []
    ensures exists i :: 0 <= i < |s| && key(s[i]) == k
  {
    if key(s[|s| - 1]) != k {
      WithKeyFrom(key, s[..|s| - 1], k);
      var i :| 0 <= i < |s| - 1 && key(s[..|s| - 1][i]) == k;
      assert key(s[i]) == k;
    }
  }

  lemma SnocInjective<T>(a: seq<T>, x: T, b: seq<T>, y: T)
    requires a + [x] == b + [y]
    ensures a == b && x == y
  {
    assert |a| == |b|;
    assert (a + [x])[..|a|] == a && (b + [y])[..|b|] == b;
    assert (a + [x])[|a|] == x && (b + [y])[|b|] == y;
  }

  /** Two ascending sequences with the same order within each key end in the same element. */
  lemma SameLast<T>(key: T -> real, s: seq<T>, x: T, t: seq<T>, y: T)
    requires Ascending(key, s + [x]) && Ascending(key, t + [y])
    requires forall k :: WithKey(key, s + [x], k) == WithKey(key, t + [y], k)
    ensures x == y
    ensures forall k :: WithKey(key, s, k) == WithKey(key, t, k)
  {
    WithKeyMember(key, s + [x], |s|);
    WithKeyMember(key, t + [y], |t|);
    WithKeyFrom(key, t + [y], key(x));
    WithKeyFrom(key, s + [x], key(y));
    assert key(x) == key(y);
    WithKeySnoc(key, s, x, key(x));
    WithKeySnoc(key, t, y, key(x));
    SnocInjective(WithKey(key, s, key(x)), x, WithKey(key, t, key(x)), y);
    forall k ensures WithKey(key, s, k) == WithKey(key, t, k) {
      WithKeySnoc(key, s, x, k);
      WithKeySnoc(key, t, y, k);
      assert WithKey(key, s + [x], k) == WithKey(key, t + [y], k);
      if k == key(x) {
        SnocInjective(WithKey(key, s, k), x, WithKey(key, t, k), y);
      }
    }
  }

  /** Ascending order and the order within each key leave no choice: there is one stable sort. */
  lemma {:induction false} StableSortIsUnique<T>(key: T -> real, s: seq<T>, t: seq<T>)
    requires Ascending(key, s) && Ascending(key, t)
    requires forall k :: WithKey(key, s, k) == WithKey(key, t, k)
    ensures s == t
  {
    if s == [] || t == [] {
      if s != [] {
        assert WithKey(key, t, key(s[0])) == [];
        WithKeyMember(key, s, 0);
      } else if t != [] {
        assert WithKey(key, s, key(t[0])) == [];
        WithKeyMember(key, t, 0);
      }
    } else {
      var s', x, t', y := s[..|s| - 1], s[|s| - 1], t[..|t| - 1], t[|t| - 1];
      assert s == s' + [x] && t == t' + [y];
      SameLast(key, s', x, t', y);
      StableSortIsUnique(key, s', t');
    }
  }

  /** The stable sort of an ascending sequence is itself. */
  lemma SortAscending<T>(key: T -> real, s: seq<T>)
    requires Ascending(key, s)
    ensures Sort(key, s) == s
  {
    SortIsStable(key, s);
    StableSortIsUnique(key, Sort(key, s), s);
  }

  /** Where an element goes: after the last one that is not greater. */
  lemma {:induction false} InsertPosition<T>(key: T -> real, a: seq<T>, b: seq<T>, x: T)
    requires a != [] ==> key(a[|a| - 1]) <= key(x)
    requires forall i | 0 <= i < |b| :: key(x) < key(b[i])
    ensures Insert(key, a + b, x) == a + [x] + b
  {
    if b == [] {
      assert a + b == a;
    } else {
      var b', y := b[..|b| - 1], b[|b| - 1];
      assert (a + b)[..|a + b| - 1] == a + b';
      assert (a + b)[|a + b| - 1] == y;
      InsertPosition(key, a, b', x);
      assert a + [x] + b == (a + [x] + b') + [y];
    }
  }

  // ---------- Merging, for sorts of concatenations

  /** Merges two sequences from their ends; on equal keys the elements of `a` come first. */
  function Merge<T>(key: T -> real, a: seq<T>, b: seq<T>): (r: seq<T>)
    ensures |r| == |a| + |b|
    decreases |a| + |b|
  {
    if a == [] then b
    else if b == [] then a
    else if key(a[|a| - 1]) <= key(b[|b| - 1]) then Merge(key, a, b[..|b| - 1]) + [b[|b| - 1]]
    else Merge(key, a[..|a| - 1], b) + [a[|a| - 1]]
  }

  lemma MergeLast<T>(key: T -> real, a: seq<T>, b: seq<T>, x: T)
    requires a != [] ==> key(a[|a| - 1]) <= key(x)
    ensures Merge(key, a, b + [x]) == Merge(key, a, b) + [x]
  {
    assert (b + [x])[..|b|] == b;
  }

  lemma InsertedLast<T>(key: T -> real, s: seq<T>, x: T)
    ensures
      var last := Insert(key, s, x)[|s|];
      last == if s == [] || key(s[|s| - 1]) <= key(x) then x else s[|s| - 1]
  {
  }

  lemma {:induction false} InsertIntoMerge<T>(key: T -> real, a: seq<T>, b: seq<T>, x: T)
    requires Ascending(key, a) && Ascending(key, b)
    ensures Insert(key, Merge(key, a, b), x) == Merge(key, a, Insert(key, b, x))
    decreases |a| + |b|
  {
    var m := Merge(key, a, b);
    if a == [] {
    } else if b == [] {
      if key(a[|a| - 1]) > key(x) {
        InsertIntoMerge(key, a[..|a| - 1], [], x);
        assert Insert(key, b, x) == [x];
      } else {
        assert [x][..0] == [];
        assert Insert(key, b, x) == [x];
      }
    } else if key(a[|a| - 1]) <= key(b[|b| - 1]) {
      var y, b' := b[|b| - 1], b[..|b| - 1];
      assert m == Merge(key, a, b') + [y];
      assert (Merge(key, a, b') + [y])[..|m| - 1] == Merge(key, a, b');
      if key(y) <= key(x) {
        MergeLast(key, a, b, x);
      } else {
        InsertIntoMerge(key, a, b', x);
        MergeLast(key, a, Insert(key, b', x), y);
      }
    } else {
      var y, a' := a[|a| - 1], a[..|a| - 1];
      assert m == Merge(key, a', b) + [y];
      assert (Merge(key, a', b) + [y])[..|m| - 1] == Merge(key, a', b);
      if key(y) <= key(x) {
        assert key(b[|b| - 1]) <= key(x);
        MergeLast(key, a, b, x);
      } else {
        InsertIntoMerge(key, a', b, x);
        var c := Insert(key, b, x);
        InsertedLast(key, b, x);
        assert Merge(key, a, c) == Merge(key, a', c) + [y];
      }
    }
  }

  lemma {:induction false} SortConcat<T>(key: T -> real, s: seq<T>, t: seq<T>)
    ensures Sort(key, s + t) == Merge(key, Sort(key, s), Sort(key, t))
    decreases |t|
  {
    if t == [] {
      assert s + t == s;
    } else {
      var front, last := t[..|t| - 1], t[|t| - 1];
      assert (s + t)[..|s + t| - 1] == s + front;
      SortConcat(key, s, front);
      SortIsStable(key, s);
      SortIsStable(key, front);
      InsertIntoMerge(key, Sort(key, s), Sort(key, front), last);
    }
  }

  function Take<T>(s: seq<T>, k: nat): (r: seq<T>)
    ensures |r| == if |s| <= k then |s| else k
    ensures r <= s
  {
    if |s| <= k then s else s[..k]
  }

  /** The last element of a part that alone has more than `k` cannot be among the first `k` of the merge. */
  lemma {:induction false} MergeDropsLeft<T>(key: T -> real, a: seq<T>, b: seq<T>, k: nat)
    requires Ascending(key, a) && Ascending(key, b) && |a| > k
    ensures Take(Merge(key, a, b), k) == Take(Merge(key, a[..|a| - 1], b), k)
    decreases |b|
  {
    if b != [] && key(a[|a| - 1]) <= key(b[|b| - 1]) {
      var b' := b[..|b| - 1];
      MergeDropsLeft(key, a, b', k);
      MergeLast(key, a[..|a| - 1], b', b[|b| - 1]);
      assert b == b' + [b[|b| - 1]];
      MergeLast(key, a, b', b[|b| - 1]);
    } else if b == [] {
      assert Merge(key, a[..|a| - 1], b) == a[..|a| - 1];
    }
  }

  lemma {:induction false} MergeDropsRight<T>(key: T -> real, a: seq<T>, b: seq<T>, k: nat)
    requires Ascending(key, a) && Ascending(key, b) && |b| > k
    ensures Take(Merge(key, a, b), k) == Take(Merge(key, a, b[..|b| - 1]), k)
    decreases |a|
  {
    if a != [] && key(a[|a| - 1]) > key(b[|b| - 1]) {
      var a', b' := a[..|a| - 1], b[..|b| - 1];
      MergeDropsRight(key, a', b, k);
      assert Merge(key, a, b) == Merge(key, a', b) + [a[|a| - 1]];
      if b' != [] {
        assert Merge(key, a, b') == Merge(key, a', b') + [a[|a| - 1]];
      }
    } else if a == [] {
      assert Merge(key, a, b[..|b| - 1]) == b[..|b| - 1];
    }
  }

  /** The first `k` of a merge depend only on the first `k` of each part. */
  lemma {:induction false} TakeMerge<T>(key: T -> real, a: seq<T>, b: seq<T>, k: nat)
    requires Ascending(key, a) && Ascending(key, b)
    ensures Take(Merge(key, Take(a, k), Take(b, k)), k) == Take(Merge(key, a, b), k)
    decreases |a| + |b|
  {
    if |a| > k {
      MergeDropsLeft(key, a, b, k);
      assert Take(a[..|a| - 1], k) == Take(a, k);
      TakeMerge(key, a[..|a| - 1], b, k);
    } else if |b| > k {
      MergeDropsRight(key, a, b, k);
      assert Take(b[..|b| - 1], k) == Take(b, k);
      TakeMerge(key, a, b[..|b| - 1], k);
    }
  }

  /** The first `k` of a sorted concatenation depend only on the first `k` of each sorted part. */
  lemma TakeSortConcat<T>(key: T -> real, a: seq<T>, c: seq<T>, x: seq<T>, y: seq<T>, k: nat)
    requires Take(Sort(key, a), k) == Take(Sort(key, c), k)
    requires Take(Sort(key, x), k) == Take(Sort(key, y), k)
    ensures Take(Sort(key, a + x), k) == Take(Sort(key, c + y), k)
  {
    SortIsStable(key, a);
    SortIsStable(key, c);
    SortIsStable(key, x);
    SortIsStable(key, y);
    SortConcat(key, a, x);
    SortConcat(key, c, y);
    TakeMerge(key, Sort(key, a), Sort(key, x), k);
    TakeMerge(key, Sort(key, c), Sort(key, y), k);
  }

  function Concat<T>(parts: seq<seq<T>>): seq<T> {
    if parts == [] then [] else Concat(parts[..|parts| - 1]) + parts[|parts| - 1]
  }

  lemma {:induction false} TakeSortConcatAll<T>(key: T -> real, ps: seq<seq<T>>, qs: seq<seq<T>>, k: nat)
    requires |ps| == |qs|
    requires forall i | 0 <= i < |ps| :: Take(Sort(key, ps[i]), k) == Take(Sort(key, qs[i]), k)
    ensures Take(Sort(key, Concat(ps)), k) == Take(Sort(key, Concat(qs)), k)
  {
    if ps != [] {
      var n := |ps| - 1;
      TakeSortConcatAll(key, ps[..n], qs[..n], k);
      TakeSortConcat(key, Concat(ps[..n]), Concat(qs[..n]), ps[n], qs[n], k);
    }
  }

  lemma TakeAscends<T>(key: T -> real, s: seq<T>, k: nat)
    requires Ascending(key, s)
    ensures Ascending(key, Take(s, k))
  {
  }

  /** The first `k` of the sort are in order and among `s`, and nothing left out comes before any of them. */
  lemma TakeSortIsBest<T>(key: T -> real, s: seq<T>, k: nat)
    ensures Ascending(key, Take(Sort(key, s), k))
    ensures multiset(Take(Sort(key, s), k)) <= multiset(s)
    ensures forall out, kept |
              out in multiset(s) - multiset(Take(Sort(key, s), k)) && kept in Take(Sort(key, s), k) ::
              key(kept) <= key(out)
  {
    var sorted := Sort(key, s);
    var best := Take(sorted, k);
    var rest := sorted[|best|..];
    SortIsStable(key, s);
    TakeAscends(key, sorted, k);
    assert sorted == best + rest;
    assert multiset(s) == multiset(best) + multiset(rest);
    forall out, kept | out in multiset(s) - multiset(best) && kept in best ensures key(kept) <= key(out) {
      assert out in multiset(rest);
      SplitOrdered(key, sorted, |best|, kept, out);
    }
  }

  lemma SplitOrdered<T>(key: T -> real, s: seq<T>, n: nat, x: T, y: T)
    requires Ascending(key, s) && n <= |s| && x in s[..n] && y in s[n..]
    ensures key(x) <= key(y)
  {
    var i :| 0 <= i < n && s[..n][i] == x;
    var j :| 0 <= j < |s| - n && s[n..][j] == y;
    assert s[i] == x && s[n + j] == y;
  }

  /** `s` with `x` put in at position `j`. */
  ghost function With<T>(s: seq<T>, j: nat, x: T): seq<T>
    requires j <= |s|
  {
    s[..j] + [x] + s[j..]
  }

  lemma SwapDown<T>(s: seq<T>, j: nat, x: T)
    requires 0 < j <= |s|
    ensures With(s, j, x)[j] == x && With(s, j, x)[j - 1] == s[j - 1]
    ensures With(s, j, x)[j := s[j - 1]][j - 1 := x] == With(s, j - 1, x)
  {
  }

  /** Moves `a[i]` down past the greater elements before it, which are in ascending order. */
  method SinkInto<T>(key: T -> real, a: array<T>, i: nat)
    requires i < a.Length && Ascending(key, a[..i])
    modifies a
    ensures a[..i + 1] == Insert(key, old(a[..i]), old(a[i]))
    ensures a[i + 1..] == old(a[i + 1..])
  {
    hide Ascending, Insert;
    ghost var s, x := a[..i], a[i];
    var j := i;
    while j > 0 && key(a[j]) < key(a[j - 1])
      invariant 0 <= j <= i
      invariant a[..i + 1] == With(s, j, x)
      invariant a[i + 1..] == old(a[i + 1..])
      invariant j < i ==> key(x) < key(s[j])
    {
      ghost var before := a[..i + 1];
      SwapDown(s, j, x);
      assert a[j] == before[j] && a[j - 1] == before[j - 1];
      a[j], a[j - 1] := a[j - 1], a[j];
      assert a[..i + 1] == before[j := s[j - 1]][j - 1 := x];
      j := j - 1;
    }
    if j > 0 {
      SwapDown(s, j, x);
      assert a[j] == a[..i + 1][j] && a[j - 1] == a[..i + 1][j - 1];
    }
    AllGreater(key, s, j, x);
    assert s == s[..j] + s[j..];
    InsertPosition(key, s[..j], s[j..], x);
  }

  lemma AllGreater<T>(key: T -> real, s: seq<T>, j: nat, x: T)
    requires j <= |s| && Ascending(key, s) && (j < |s| ==> key(x) < key(s[j]))
    ensures forall k | 0 <= k < |s[j..]| :: key(x) < key(s[j..][k])
  {
  }

  lemma SortNone<T>(key: T -> real, s: seq<T>)
    requires |s| == 0
    ensures Sort(key, s) == s
  {
  }

  lemma SortOne<T>(key: T -> real, x: T)
    ensures Sort(key, [x]) == [x]
  {
    assert [x][..0] == [];
  }

  lemma SortNext<T>(key: T -> real, s: seq<T>, i: nat)
    requires i < |s|
    ensures Sort(key, s[..i + 1]) == Insert(key, Sort(key, s[..i]), s[i])
  {
    assert s[..i + 1][..i] == s[..i];
  }

  /** In-place insertion sort by adjacent swaps. */
  method InsertionSort<T>(key: T -> real, a: array<T>)
    modifies a
    ensures a[..] == Sort(key, old(a[..]))
  {
    hide Ascending, Insert, Sort;
    ghost var was := a[..];
    var i := 1;
    if a.Length > 0 {
      SortOne(key, was[0]);
      assert was[..1] == [was[0]];
    }
    while i < a.Length
      invariant 1 <= i
      invariant a.Length > 0 ==> i <= a.Length && a[..i] == Sort(key, was[..i]) && a[i..] == was[i..]
    {
      SortIsStable(key, was[..i]);
      assert a[i] == a[i..][0] == was[i] && a[i + 1..] == a[i..][1..];
      SinkInto(key, a, i);
      SortNext(key, was, i);
      i := i + 1;
    }
    if a.Length > 0 {
      assert was[..i] == was && a[..i] == a[..];
    } else {
      SortNone(key, was);
    }
  }
}
