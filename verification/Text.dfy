/**
The text functions that the skill files rely on, with the laws that pin them down. A string is
a sequence of Unicode code points.
*/
module Text {
  import opened Sequences

  /** The Unicode white space of Go's `unicode.IsSpace`. */
  predicate IsSpace(c: char) {
    || '\t' <= c <= '\r' || c == ' ' || c == '\U{0085}' || c == '\U{00A0}' || c == '\U{1680}'
    || '\U{2000}' <= c <= '\U{200A}' || c == '\U{2028}' || c == '\U{2029}' || c == '\U{202F}'
    || c == '\U{205F}' || c == '\U{3000}'
  }

  /** The characters that count as white space, one by one. */
  lemma SpacesAre(c: char)
    ensures IsSpace(c)
       <==> c in {'\t', '\n', '\U{000B}', '\U{000C}', '\r', ' ', '\U{0085}', '\U{00A0}', '\U{1680}', '\U{2000}',
                  '\U{2001}', '\U{2002}', '\U{2003}', '\U{2004}', '\U{2005}', '\U{2006}', '\U{2007}', '\U{2008}',
                  '\U{2009}', '\U{200A}', '\U{2028}', '\U{2029}', '\U{202F}', '\U{205F}', '\U{3000}'}
  {
  }

  predicate AllSpace(s: string) {
    forall i | 0 <= i < |s| :: IsSpace(s[i])
  }

  predicate IsTrimmed(s: string) {
    s == "" || (!IsSpace(s[0]) && !IsSpace(s[|s| - 1]))
  }

  /** The text without the white space at its ends. */
  function Trim(s: string): string {
    if s != "" && IsSpace(s[0]) then Trim(s[1..])
    else if s != "" && IsSpace(s[|s| - 1]) then Trim(s[..|s| - 1])
    else s
  }

  /** Whatever the white space around it, a trimmed text is what trimming leaves. */
  lemma {:induction false} TrimIs(x: string, t: string, y: string)
    requires AllSpace(x) && IsTrimmed(t) && AllSpace(y)
    ensures Trim(x + t + y) == t
    decreases |x| + |y|
  {
    hide IsSpace;
    var s := x + t + y;
    if x != "" {
      TrimIs(x[1..], t, y);
      assert s[1..] == x[1..] + t + y;
    } else if y != "" {
      TrimIs(x, t, y[..|y| - 1]);
      if t == "" {
        TrimIs(x, t, y[1..]);
        assert s[1..] == x + t + y[1..];
      } else {
        assert s[..|s| - 1] == x + t + y[..|y| - 1];
      }
    } else {
      assert s == t;
    }
  }

  /** Trimming takes away white space at both ends and leaves a trimmed text. */
  lemma {:induction false} TrimSplits(s: string) returns (x: string, y: string)
    ensures s == x + Trim(s) + y && AllSpace(x) && AllSpace(y) && IsTrimmed(Trim(s))
  {
    hide IsSpace;
    x, y := "", "";
    if s != "" && IsSpace(s[0]) {
      x, y := TrimSplits(s[1..]);
      x := [s[0]] + x;
    } else if s != "" && IsSpace(s[|s| - 1]) {
      x, y := TrimSplits(s[..|s| - 1]);
      y := y + [s[|s| - 1]];
    }
  }

  lemma TrimKeeps(s: string, c: char)
    requires c !in s
    ensures c !in Trim(s)
  {
    hide Trim;
    var x, y := TrimSplits(s);
    forall i | 0 <= i < |Trim(s)| ensures Trim(s)[i] != c {
      assert (x + Trim(s) + y)[|x| + i] == Trim(s)[i];
    }
  }

  lemma TrimOfTrimmed(s: string)
    ensures Trim(s) == s <==> IsTrimmed(s)
    ensures |Trim(s)| < |s| || Trim(s) == s
  {
    hide Trim;
    var x, y := TrimSplits(s);
    if IsTrimmed(s) {
      TrimIs("", s, "");
      assert "" + s + "" == s;
    }
  }

  /** White space around a text does not change what trimming leaves. */
  lemma TrimAround(x: string, s: string, y: string)
    requires AllSpace(x) && AllSpace(y)
    ensures Trim(x + s + y) == Trim(s)
  {
    hide Trim;
    var a, b := TrimSplits(s);
    assert x + s + y == (x + a) + Trim(s) + (b + y);
    TrimIs(x + a, Trim(s), b + y);
  }

  lemma VisibleIsInside(x: string, t: string, y: string, i: nat)
    requires AllSpace(x) && AllSpace(y) && i < |x + t + y| && !IsSpace((x + t + y)[i])
    ensures |x| <= i < |x| + |t|
  {
  }

  /** Trimming keeps everything between two visible characters. */
  lemma TrimSpans(s: string, i: nat, j: nat)
    requires i <= j < |s| && !IsSpace(s[i]) && !IsSpace(s[j])
    ensures |Trim(s)| > j - i
  {
    hide Trim, IsSpace;
    var x, y := TrimSplits(s);
    VisibleIsInside(x, Trim(s), y, i);
    VisibleIsInside(x, Trim(s), y, j);
  }

  /** A prefix that starts and ends with a visible character survives trimming. */
  lemma {:induction false} TrimKeepsPrefix(p: string, s: string)
    requires p != "" && IsTrimmed(p)
    ensures p <= Trim(p + s)
  {
    hide IsSpace;
    if s == "" {
      assert p + s == p;
    } else {
      TrimKeepsPrefix(p, s[..|s| - 1]);
      assert (p + s)[..|p + s| - 1] == p + s[..|s| - 1];
    }
  }

  // ---------- Splitting at a separator

  function Split(s: string, c: char): (r: seq<string>)
    ensures |r| >= 1
    decreases |s|
  {
    var i := IndexOf(s, c);
    if i < 0 then [s] else [s[..i]] + Split(s[i + 1..], c)
  }

  function Join(parts: seq<string>, sep: string): string {
    if parts == [] then ""
    else if |parts| == 1 then parts[0]
    else parts[0] + sep + Join(parts[1..], sep)
  }

  lemma SplitAt(a: string, c: char, b: string)
    requires c !in a
    ensures Split(a + [c] + b, c) == [a] + Split(b, c)
  {
    IndexOfIs(a, c, b);
    assert (a + [c] + b)[..|a|] == a;
    assert (a + [c] + b)[|a| + 1..] == b;
  }

  lemma SplitWhole(s: string, c: char)
    requires c !in s
    ensures Split(s, c) == [s]
  {
  }

  predicate NoneHas(parts: seq<string>, c: char) {
    forall i | 0 <= i < |parts| :: c !in parts[i]
  }

  lemma SliceHasNot(s: string, i: nat, c: char)
    requires i < |s| && c !in s
    ensures c !in s[..i] && c !in s[i + 1..]
  {
  }

  lemma {:induction false} SplitParts(s: string, c: char, d: char)
    ensures NoneHas(Split(s, c), c)
    ensures d !in s ==> NoneHas(Split(s, c), d)
    decreases |s|
  {
    var i := IndexOf(s, c);
    if i >= 0 {
      hide IndexOf;
      SplitParts(s[i + 1..], c, d);
      assert c !in s[..i];
      if d !in s {
        SliceHasNot(s, i, d);
      }
    }
  }

  lemma JoinCons(first: string, parts: seq<string>, sep: string)
    requires parts != []
    ensures Join([first] + parts, sep) == first + sep + Join(parts, sep)
  {
  }

  /** Joining undoes splitting. */
  lemma {:induction false} JoinSplit(s: string, c: char)
    ensures Join(Split(s, c), [c]) == s
    decreases |s|
  {
    hide IndexOf, Join;
    var i := IndexOf(s, c);
    if i >= 0 {
      JoinSplit(s[i + 1..], c);
      JoinCons(s[..i], Split(s[i + 1..], c), [c]);
      assert s == s[..i] + [c] + s[i + 1..];
    } else {
      JoinOne(s, [c]);
    }
  }

  lemma JoinOne(s: string, sep: string)
    ensures Join([s], sep) == s
  {
  }

  /** Each line with its line end. */
  function Unlines(ls: seq<string>): string {
    if ls == [] then "" else ls[0] + "\n" + Unlines(ls[1..])
  }

  lemma {:induction false} SplitUnlines(ls: seq<string>, rest: string)
    requires forall i | 0 <= i < |ls| :: '\n' !in ls[i]
    ensures Split(Unlines(ls) + rest, '\n') == ls + Split(rest, '\n')
  {
    hide Split;
    if ls == [] {
      assert Unlines(ls) + rest == rest;
      assert ls + Split(rest, '\n') == Split(rest, '\n');
    } else {
      SplitUnlines(ls[1..], rest);
      Regroup(ls[0], "\n", Unlines(ls[1..]), rest);
      SplitAt(ls[0], '\n', Unlines(ls[1..]) + rest);
      Regroup([ls[0]], ls[1..], Split(rest, '\n'), []);
      assert [ls[0]] + ls[1..] == ls;
    }
  }

  /** Splitting a text into lines and writing them adds one line end. */
  lemma {:induction false} UnlinesSplit(s: string)
    ensures Unlines(Split(s, '\n')) == s + "\n"
    decreases |s|
  {
    hide IndexOf;
    var i := IndexOf(s, '\n');
    if i < 0 {
      assert [s][1..] == [] && s + "\n" + "" == s + "\n";
    } else {
      var rest := s[i + 1..];
      UnlinesSplit(rest);
      assert Split(s, '\n')[1..] == Split(rest, '\n');
      assert s == s[..i] + "\n" + rest;
      Regroup(s[..i], "\n", rest, "\n");
    }
  }

  lemma {:induction false} UnlinesConcat(a: seq<string>, b: seq<string>)
    ensures Unlines(a + b) == Unlines(a) + Unlines(b)
  {
    if a == [] {
      assert a + b == b;
    } else {
      UnlinesConcat(a[1..], b);
      assert (a + b)[1..] == a[1..] + b;
      Regroup(a[0], "\n", Unlines(a[1..]), Unlines(b));
    }
  }
}
