/**
Reading back what the importer of skill files printed: when parsing undoes printing, and when
enriching a file a second time leaves it as it is.
*/
module SkillRoundTrip {
  import opened Sequences
  import opened Text
  import opened SkillFile

  // ---------- Reading a printed header

  lemma KeyIsPlain(f: Field)
    ensures KeyName(f) != "" && ':' !in KeyName(f) && '\n' !in KeyName(f)
    ensures IsTrimmed(KeyName(f)) && KeyName(f)[0] != '-'
  {
  }

  lemma LineReads(f: Field, v: string)
    ensures Key(Line(f, v)) == KeyName(f) && Value(Line(f, v)) == Stored(v) && !IsFence(Line(f, v))
    ensures '\n' !in v ==> '\n' !in Line(f, v)
  {
    hide KeyName, Trim, IndexOf, IsTrimmed, IsSpace;
    KeyIsPlain(f);
    var k, line := KeyName(f), Line(f, v);
    assert line == k + [':'] + (" " + v);
    IndexOfIs(k, ':', " " + v);
    assert line[..|k|] == k && line[|k| + 1..] == " " + v;
    TrimOfTrimmed(k);
    SpaceIsSpace();
    assert " " + v + "" == " " + v;
    TrimAround(" ", v, "");
    TrimKeepsPrefix(k, [':'] + (" " + v));
    assert k + ([':'] + (" " + v)) == line;
    assert Trim(line)[0] == k[0];
  }

  lemma SpaceIsSpace()
    ensures AllSpace(" ") && AllSpace("")
  {
  }

  /** Reading `value` into a field. */
  function Set(r: Skill, f: Field, value: string): Skill {
    match f
    case NameKey => r.(name := value)
    case DescriptionKey => r.(description := value)
    case VersionKey => r.(version := value)
    case TriggersKey => r.(triggers := r.triggers + Listed(value))
    case TierKey => r.(tier := value)
    case SourceKey => r
  }

  lemma LineFields(front: seq<string>, f: Field, v: string)
    ensures Fields(front + [Line(f, v)]) == Set(Fields(front), f, Stored(v))
  {
    hide Key, Value, Line, Listed, Stored, Fields;
    LineReads(f, v);
    FieldsNext(front, Line(f, v));
  }

  lemma LineForFields(front: seq<string>, f: Field, v: string)
    ensures Fields(front + LineFor(f, v)) == if v == "" then Fields(front) else Set(Fields(front), f, Stored(v))
  {
    hide Fields, Stored, Line, Set;
    if v == "" {
      assert front + [] == front;
    } else {
      LineFields(front, f, v);
    }
  }

  lemma NothingStored()
    ensures Stored("") == ""
  {
  }

  /** What the parser finds in a printed header. */
  lemma HeaderReads(r: Skill)
    ensures Fields(Header(r, ""))
         == Skill(Stored(r.name), Stored(r.description), Stored(r.version),
                  if r.triggers == [] then [] else Listed(Stored(Bracketed(r.triggers))), Stored(r.tier), "")
  {
    hide Fields, Stored, Listed, Line, LineFor, Join;
    NothingStored();
    FieldsOfNone();
    var f1 := [Line(NameKey, r.name)];
    assert [] + f1 == f1;
    LineFields([], NameKey, r.name);
    LineForFields(f1, DescriptionKey, r.description);
    var f2 := f1 + LineFor(DescriptionKey, r.description);
    LineForFields(f2, VersionKey, r.version);
    var f3 := f2 + LineFor(VersionKey, r.version);
    LineForFields(f3, TriggersKey, Bracketed(r.triggers));
    var f4 := f3 + LineFor(TriggersKey, Bracketed(r.triggers));
    LineForFields(f4, TierKey, r.tier);
    LineForFields(f4 + LineFor(TierKey, r.tier), SourceKey, "");
    assert r.triggers != [] ==>
        [] + Listed(Stored(Bracketed(r.triggers))) == Listed(Stored(Bracketed(r.triggers)));
  }

  // ---------- The lines of a printed file

  predicate IsOneLine(s: string) {
    '\n' !in s
  }

  predicate AllOneLine(ls: seq<string>) {
    forall i | 0 <= i < |ls| :: IsOneLine(ls[i])
  }

  /** Every value of the block fits on its line. */
  predicate IsOneLiner(r: Skill) {
    && IsOneLine(r.name) && IsOneLine(r.description) && IsOneLine(r.version) && IsOneLine(r.tier)
    && AllOneLine(r.triggers)
  }

  lemma {:induction false} JoinIsOneLine(parts: seq<string>, sep: string)
    requires IsOneLine(sep) && AllOneLine(parts)
    ensures IsOneLine(Join(parts, sep))
  {
    if |parts| > 1 {
      JoinIsOneLine(parts[1..], sep);
    }
  }

  /** A line of the block: on one line, and not a fence. */
  predicate IsInner(line: string) {
    IsOneLine(line) && !IsFence(line)
  }

  predicate AllInner(ls: seq<string>) {
    forall i | 0 <= i < |ls| :: IsInner(ls[i])
  }

  lemma LineForIsInner(f: Field, v: string)
    requires IsOneLine(v)
    ensures AllInner([Line(f, v)]) && AllInner(LineFor(f, v))
  {
    LineReads(f, v);
  }

  lemma HeaderIsInner(r: Skill)
    requires IsOneLiner(r)
    ensures AllInner(Header(r, ""))
  {
    hide Line, LineFor, IsInner, Join;
    JoinIsOneLine(r.triggers, ", ");
    LineForIsInner(NameKey, r.name);
    LineForIsInner(DescriptionKey, r.description);
    LineForIsInner(VersionKey, r.version);
    LineForIsInner(TriggersKey, Bracketed(r.triggers));
    LineForIsInner(TierKey, r.tier);
    LineForIsInner(SourceKey, "");
  }

  /** The lines that the source label takes up: none if it is empty, and more than one if it has line breaks. */
  function SourceLines(source: string): seq<string> {
    if source == "" then [] else Split(Line(SourceKey, source), '\n')
  }

  lemma SourceIsWritten(source: string)
    ensures Unlines(SourceLines(source)) == Unlines(LineFor(SourceKey, source))
    ensures AllOneLine(SourceLines(source))
  {
    hide Split, Line;
    if source != "" {
      var line := Line(SourceKey, source);
      UnlinesSplit(line);
      SplitParts(line, '\n', '\n');
      assert [line][1..] == [];
      assert line + "\n" + "" == line + "\n";
    }
  }

  /** The last lines of a printed file: its closing fence, and the body. */
  function Tail(body: string): seq<string> {
    ["---", ""] + Split(body + "\n", '\n')
  }

  lemma HeaderEndsInSource(r: Skill, source: string)
    ensures Header(r, source) == Header(r, "") + LineFor(SourceKey, source)
  {
    hide Line, Bracketed;
  }

  lemma RenderIsUnlines(r: Skill, source: string)
    ensures Render(r, source)
         == Unlines(["---"] + Header(r, "") + SourceLines(source) + ["---", ""]) + (r.body + "\n")
  {
    hide Header, LineFor, Unlines, SourceLines;
    HeaderEndsInSource(r, source);
    SourceIsWritten(source);
    var h := ["---"] + Header(r, "");
    Regroup(["---"], Header(r, ""), LineFor(SourceKey, source), []);
    UnlinesConcat(h, LineFor(SourceKey, source));
    UnlinesConcat(h, SourceLines(source));
    UnlinesConcat(h + LineFor(SourceKey, source), ["---", ""]);
    UnlinesConcat(h + SourceLines(source), ["---", ""]);
    Regroup([], Unlines(h + SourceLines(source) + ["---", ""]), r.body, "\n");
    assert [] + Unlines(h + SourceLines(source) + ["---", ""]) == Unlines(h + SourceLines(source) + ["---", ""]);
  }

  /** A printed record whose values fit on their lines, line by line. */
  lemma RenderedLines(r: Skill, source: string)
    requires IsOneLiner(r)
    ensures Split(Render(r, source), '\n') == ["---"] + (Header(r, "") + SourceLines(source)) + Tail(r.body)
  {
    hide Header, Split, Unlines, SourceLines, Render;
    RenderIsUnlines(r, source);
    HeaderIsInner(r);
    SourceIsWritten(source);
    var h, s := Header(r, ""), SourceLines(source);
    var ls := ["---"] + h + s + ["---", ""];
    forall i | 0 <= i < |ls| ensures '\n' !in ls[i] {
      if 1 <= i <= |h| {
        assert ls[i] == h[i - 1] && IsInner(h[i - 1]);
      } else if |h| < i <= |h| + |s| {
        assert ls[i] == s[i - 1 - |h|];
      }
    }
    SplitUnlines(ls, r.body + "\n");
    assert ls + Split(r.body + "\n", '\n') == ["---"] + (h + s) + Tail(r.body);
  }

  lemma {:induction false} FenceAfter(lines: seq<string>, from: nat, to: nat)
    requires from <= to < |lines| && IsFence(lines[to])
    requires forall i | from <= i < to :: !IsFence(lines[i])
    ensures Fence(lines, from) == to
    decreases |lines| - from
  {
    if from < to {
      FenceAfter(lines, from + 1, to);
    }
  }

  lemma DashesAreFence()
    ensures IsFence("---") && IsTrimmed("---")
  {
    TrimOfTrimmed("---");
  }

  /** Lines that open and close a block without fences are parsed as that block and the rest. */
  lemma FencedLines(h: seq<string>, fence: string, rest: seq<string>)
    requires (forall i | 0 <= i < |h| :: !IsFence(h[i])) && IsFence(fence) && rest != []
    ensures
      var lines := ["---"] + h + [fence] + rest;
      && Fence(lines, 1) == 1 + |h|
      && Front(lines) == h && forall text :: BodyOf(text, lines) == Trim(Join(rest, "\n"))
  {
    hide IsFence, Trim, Join;
    DashesAreFence();
    var lines := ["---"] + h + [fence] + rest;
    FenceAfter(lines, 0, 0);
    assert forall i | 1 <= i < 1 + |h| :: lines[i] == h[i - 1];
    FenceAfter(lines, 1, 1 + |h|);
    assert lines[1..1 + |h|] == h;
    assert lines[2 + |h|..] == rest;
  }

  lemma BodyReads(body: string)
    ensures Trim(Join([""] + Split(body + "\n", '\n'), "\n")) == Trim(body)
  {
    hide Split, Join, Trim;
    JoinSplit(body + "\n", '\n');
    JoinCons("", Split(body + "\n", '\n'), "\n");
    assert "" + "\n" + (body + "\n") == "\n" + body + "\n";
    LineEndIsSpace();
    TrimAround("\n", body, "\n");
  }

  lemma LineEndIsSpace()
    ensures AllSpace("\n")
  {
  }

  lemma RenderStarts(r: Skill, source: string)
    ensures WithoutBom(Render(r, source)) == Render(r, source)
    ensures "---" <= Trim(Render(r, source))
  {
    hide Trim, Header, IsTrimmed;
    DashesAreFence();
    var ls := ["---"] + Header(r, source) + ["---", ""];
    var rest := "\n" + Unlines(ls[1..]) + r.body + "\n";
    assert Render(r, source) == "---" + rest;
    TrimKeepsPrefix("---", rest);
  }

  // ---------- What the parser makes of a printed file

  predicate Assigns(ls: seq<string>, key: string) {
    exists i :: 0 <= i < |ls| && Key(ls[i]) == key
  }

  predicate HasFence(ls: seq<string>) {
    exists i :: 0 <= i < |ls| && IsFence(ls[i])
  }

  lemma {:induction false} LaterLinesWin(a: seq<string>, b: seq<string>, key: string)
    ensures Assigned(a + b, key) == if Assigns(b, key) then Assigned(b, key) else Assigned(a, key)
  {
    hide Key, Value;
    if b == [] {
      assert a + b == a;
    } else {
      var n := |b| - 1;
      assert (a + b)[..|a + b| - 1] == a + b[..n];
      LaterLinesWin(a, b[..n], key);
      assert forall i | 0 <= i < n :: b[..n][i] == b[i];
      assert Assigns(b, key) <==> Assigns(b[..n], key) || Key(b[n]) == key;
    }
  }

  lemma {:induction false} TriggersConcat(a: seq<string>, b: seq<string>)
    ensures Triggers(a + b) == Triggers(a) + Triggers(b)
  {
    hide Key, Value, Listed;
    if b == [] {
      assert a + b == a && Triggers(a) + [] == Triggers(a);
    } else {
      assert (a + b)[..|a + b| - 1] == a + b[..|b| - 1];
      TriggersConcat(a, b[..|b| - 1]);
    }
  }

  /** A printed value as it is read back when the lines `after` follow it in the block. */
  function ReadBack(value: string, key: string, after: seq<string>): string {
    if Assigns(after, key) then Assigned(after, key) else Stored(value)
  }

  function TriggersBack(triggers: seq<string>): seq<string> {
    if triggers == [] then [] else Listed(Stored(Bracketed(triggers)))
  }

  function Reread(r: Skill, after: seq<string>): Skill {
    Skill(ReadBack(r.name, "name", after), ReadBack(r.description, "description", after),
          ReadBack(r.version, "version", after), TriggersBack(r.triggers) + Triggers(after),
          ReadBack(r.tier, "tier", after), Trim(r.body))
  }

  lemma BlockReads(r: Skill, after: seq<string>)
    ensures Fields(Header(r, "") + after).(body := Trim(r.body)) == Reread(r, after)
  {
    hide Header, Assigned, Triggers, Assigns, Stored, Listed, Bracketed, Trim;
    var h := Header(r, "");
    HeaderReads(r);
    LaterLinesWin(h, after, "name");
    LaterLinesWin(h, after, "description");
    LaterLinesWin(h, after, "version");
    LaterLinesWin(h, after, "tier");
    TriggersConcat(h, after);
  }

  lemma BlockHasNoFence(r: Skill, after: seq<string>)
    requires IsOneLiner(r) && !HasFence(after)
    ensures forall i | 0 <= i < |Header(r, "") + after| :: !IsFence((Header(r, "") + after)[i])
  {
    hide Header, IsFence;
    HeaderIsInner(r);
    var h := Header(r, "");
    forall i | 0 <= i < |h + after| ensures !IsFence((h + after)[i]) {
      if i < |h| {
        assert IsInner(h[i]);
      }
    }
  }

  /**
  A record whose values fit on their lines, printed with a source label that holds no fence, is
  read back value by value.
  */
  lemma RenderedParses(r: Skill, source: string)
    requires IsOneLiner(r) && !HasFence(SourceLines(source))
    ensures Parsed(Render(r, source)) == Reread(r, SourceLines(source))
  {
    hide Split, Join, Trim, Header, Render, Fields, Front, BodyOf, WithoutBom, Reread, SourceLines, HasFence;
    RenderStarts(r, source);
    RenderedLines(r, source);
    var h := Header(r, "") + SourceLines(source);
    var rest := [""] + Split(r.body + "\n", '\n');
    BlockHasNoFence(r, SourceLines(source));
    DashesAreFence();
    FencedLines(h, "---", rest);
    assert ["---"] + h + Tail(r.body) == ["---"] + h + ["---"] + rest;
    BodyReads(r.body);
    BlockReads(r, SourceLines(source));
  }

  /** Where the block of a file ends when the source label holds a fence. */
  lemma FenceCutsBlock(r: Skill, source: string) returns (p: nat, lines: seq<string>)
    requires IsOneLiner(r) && HasFence(SourceLines(source))
    ensures p < |SourceLines(source)| && p == Fence(SourceLines(source), 0)
    ensures lines == ["---"] + (Header(r, "") + SourceLines(source)) + Tail(r.body)
    ensures Fence(lines, 1) == 1 + |Header(r, "")| + p
    ensures forall text :: BodyOf(text, lines) == Trim(Join(SourceLines(source)[p + 1..] + Tail(r.body), "\n"))
  {
    hide Split, Join, Trim, Header, Front, BodyOf, SourceLines, IsFence;
    var h, s := Header(r, ""), SourceLines(source);
    var i :| 0 <= i < |s| && IsFence(s[i]);
    FirstFence(s, 0, i);
    p := Fence(s, 0);
    assert !HasFence(s[..p]);
    BlockHasNoFence(r, s[..p]);
    lines := ["---"] + (h + s) + Tail(r.body);
    FencedLines(h + s[..p], s[p], s[p + 1..] + Tail(r.body));
    assert s == s[..p] + [s[p]] + s[p + 1..];
    assert lines == ["---"] + (h + s[..p]) + [s[p]] + (s[p + 1..] + Tail(r.body));
  }

  lemma {:induction false} FirstFence(ls: seq<string>, from: nat, i: nat)
    requires from <= i < |ls| && IsFence(ls[i])
    ensures Fence(ls, from) <= i && forall j | from <= j < Fence(ls, from) :: !IsFence(ls[j])
    decreases i - from
  {
    hide IsFence;
    if !IsFence(ls[from]) {
      FirstFence(ls, from + 1, i);
    }
  }

  /** A fence in the source label leaves the closing fence, and all before it, in the body. */
  lemma FenceGrowsBody(r: Skill, source: string)
    requires IsOneLiner(r) && HasFence(SourceLines(source)) && IsTrimmed(r.body)
    ensures |Parsed(Render(r, source)).body| > |r.body|
  {
    hide Split, Join, Trim, Header, Render, Fields, Front, BodyOf, WithoutBom;
    hide SourceLines, HasFence, IsTrimmed, Unlines;
    RenderStarts(r, source);
    RenderedLines(r, source);
    var p, lines := FenceCutsBlock(r, source);
    var more := SourceLines(source)[p + 1..];
    SourceIsWritten(source);
    TailJoins(more, r.body);
    TailIsLonger(Unlines(more), r.body);
  }

  lemma TailJoins(more: seq<string>, body: string)
    requires AllOneLine(more)
    ensures Join(more + Tail(body), "\n") == Unlines(more) + "---\n\n" + body + "\n"
  {
    hide Split, Join, Unlines;
    var ls := more + ["---", ""];
    SplitUnlines(ls, body + "\n");
    assert ls + Split(body + "\n", '\n') == more + Tail(body);
    JoinSplit(Unlines(ls) + (body + "\n"), '\n');
    UnlinesConcat(more, ["---", ""]);
    FenceAndBlank();
    Regroup(Unlines(more), "---\n\n", body, "\n");
    assert Unlines(ls) + (body + "\n") == Unlines(more) + "---\n\n" + body + "\n";
  }

  lemma FenceAndBlank()
    ensures Unlines(["---", ""]) == "---\n\n"
  {
    assert ["---", ""][1..] == [""] && [""][1..] == [];
    assert Unlines([""]) == "\n";
  }

  lemma TailIsLonger(before: string, body: string)
    requires IsTrimmed(body)
    ensures |Trim(before + "---\n\n" + body + "\n")| > |body|
  {
    hide Trim;
    var s := before + "---\n\n" + body + "\n";
    var i := |before|;
    assert s[i] == '-' && !IsSpace(s[i]);
    if body == "" {
      TrimSpans(s, i, i);
    } else {
      var j := i + 4 + |body|;
      assert s[j] == body[|body| - 1];
      TrimSpans(s, i, j);
    }
  }

  // ---------- The round trip

  /** A value that survives being printed and read. */
  predicate IsPlain(s: string) {
    IsOneLine(s) && IsTrimmed(s) && !IsQuoted(s)
  }

  predicate IsTrigger(s: string) {
    IsOneLine(s) && IsTrimmed(s) && s != "" && ',' !in s
  }

  predicate AllTriggers(ts: seq<string>) {
    forall i | 0 <= i < |ts| :: IsTrigger(ts[i])
  }

  predicate IsClean(r: Skill) {
    && IsPlain(r.name) && IsPlain(r.description) && IsPlain(r.version) && IsPlain(r.tier)
    && AllTriggers(r.triggers) && IsTrimmed(r.body)
  }

  lemma StoredOfPlain(s: string)
    requires IsOneLine(s)
    ensures Stored(s) == s <==> IsPlain(s)
  {
    hide Trim, IsTrimmed;
    TrimOfTrimmed(s);
  }

  lemma StoredIsOneLine(s: string)
    requires IsOneLine(s)
    ensures IsOneLine(Stored(s))
  {
    hide Trim;
    TrimKeeps(s, '\n');
  }

  lemma ItemsCons(first: string, rest: seq<string>)
    requires Trim(first) != ""
    ensures Items([first] + rest) == [Trim(first)] + Items(rest)
  {
    hide Trim;
    assert ([first] + rest)[1..] == rest;
  }

  lemma NoItems()
    ensures Items([]) == []
  {
  }

  /** The items of a joined list are the list. */
  lemma {:induction false} ItemsOfJoined(pad: string, ts: seq<string>)
    requires AllSpace(pad) && ',' !in pad && AllTriggers(ts) && ts != []
    ensures Items(Split(pad + Join(ts, ", "), ',')) == ts
    decreases |ts|
  {
    hide Trim, IsTrimmed, AllSpace, Split, IsOneLine, Join, Items;
    var first := pad + ts[0];
    assert IsTrigger(ts[0]) && ts == [ts[0]] + ts[1..];
    SpaceIsSpace();
    assert first + "" == first;
    TrimIs(pad, ts[0], "");
    if |ts| == 1 {
      SplitWhole(first, ',');
      JoinOne(ts[0], ", ");
      ItemsCons(first, []);
      NoItems();
      assert [first] + [] == [first] && [ts[0]] == ts;
    } else {
      var rest := " " + Join(ts[1..], ", ");
      ItemsOfJoined(" ", ts[1..]);
      JoinCons(ts[0], ts[1..], ", ");
      assert pad + (ts[0] + ", " + Join(ts[1..], ", ")) == first + [','] + rest;
      SplitAt(first, ',', rest);
      ItemsCons(first, Split(rest, ','));
    }
  }

  lemma BracketsTrimmed(s: string)
    ensures Stored("[" + s + "]") == "[" + s + "]" && Unbracketed("[" + s + "]") == s
  {
    hide Trim;
    var b := "[" + s + "]";
    assert b[0] == '[' && b[|b| - 1] == ']';
    TrimOfTrimmed(b);
    assert b[1..] == s + "]";
  }

  lemma TriggersRoundTrip(ts: seq<string>)
    requires AllTriggers(ts)
    ensures ts == if ts == [] then [] else Listed(Stored(Bracketed(ts)))
  {
    hide Stored, Unbracketed, Split, Items, Join, AllSpace, AllTriggers;
    if ts != [] {
      BracketsTrimmed(Join(ts, ", "));
      SpaceIsSpace();
      ItemsOfJoined("", ts);
      assert "" + Join(ts, ", ") == Join(ts, ", ");
    }
  }

  lemma {:induction false} ItemsAreTriggers(parts: seq<string>)
    requires forall i | 0 <= i < |parts| :: IsOneLine(parts[i]) && ',' !in parts[i]
    ensures AllTriggers(Items(parts))
  {
    hide Trim, IsTrimmed;
    if parts != [] {
      ItemsAreTriggers(parts[1..]);
      TrimKeeps(parts[0], '\n');
      TrimKeeps(parts[0], ',');
      var x, y := TrimSplits(parts[0]);
    }
  }

  lemma ListedAreTriggers(value: string)
    requires IsOneLine(value)
    ensures AllTriggers(Listed(value))
  {
    hide Items, Split, AllTriggers;
    SplitParts(Unbracketed(value), ',', '\n');
    ItemsAreTriggers(Split(Unbracketed(value), ','));
  }

  lemma ValueIsOneLine(line: string)
    requires IsOneLine(line)
    ensures IsOneLine(Value(line))
  {
    hide Stored;
    var i := IndexOf(line, ':');
    if i > 0 {
      StoredIsOneLine(line[i + 1..]);
    }
  }

  lemma {:induction false} AssignedIsOneLine(front: seq<string>, key: string)
    requires AllOneLine(front)
    ensures IsOneLine(Assigned(front, key))
  {
    hide Key, Value;
    if front != [] {
      ValueIsOneLine(front[|front| - 1]);
      AssignedIsOneLine(front[..|front| - 1], key);
    }
  }

  lemma {:induction false} TriggersAreTriggers(front: seq<string>)
    requires AllOneLine(front)
    ensures AllTriggers(Triggers(front))
  {
    hide Key, Value, Listed, IsTrigger;
    if front != [] {
      ValueIsOneLine(front[|front| - 1]);
      ListedAreTriggers(Value(front[|front| - 1]));
      TriggersAreTriggers(front[..|front| - 1]);
    }
  }

  lemma FrontIsOneLiner(text: string)
    ensures AllOneLine(Front(Split(text, '\n')))
  {
    hide Split, Fence;
    SplitParts(text, '\n', '\n');
  }

  /** Whatever the file: parsed values fit on a line, parsed triggers are proper ones, and the body is trimmed. */
  lemma ParsedIsBare(content: string)
    ensures
      var r := Parsed(content);
      && IsOneLine(r.name) && IsOneLine(r.description) && IsOneLine(r.version) && IsOneLine(r.tier)
      && AllTriggers(r.triggers) && IsTrimmed(r.body)
  {
    hide Front, Split, Trim, IsTrimmed, IsOneLine, AllOneLine, Join, AllTriggers, Assigned, Triggers;
    var text := WithoutBom(content);
    var lines := Split(text, '\n');
    var x, y := TrimSplits(text);
    if "---" <= Trim(text) {
      FrontIsOneLiner(text);
      var front := Front(lines);
      AssignedIsOneLine(front, "name");
      AssignedIsOneLine(front, "description");
      AssignedIsOneLine(front, "version");
      AssignedIsOneLine(front, "tier");
      TriggersAreTriggers(front);
      BodyIsTrimmed(text, lines);
    } else {
      BlankIsBare();
    }
  }

  lemma BlankIsBare()
    ensures IsOneLine("") && AllTriggers([])
  {
  }

  lemma BodyIsTrimmed(text: string, lines: seq<string>)
    ensures IsTrimmed(BodyOf(text, lines))
  {
    hide Trim, IsTrimmed, Fence;
    var x, y := TrimSplits(text);
    if BodyOf(text, lines) != Trim(text) {
      x, y := TrimSplits(Join(lines[Fence(lines, Fence(lines, 0) + 1) + 1..], "\n"));
    }
  }

  /**
  A printed value is kept if the lines after it leave it alone and it is plain, or if they
  happen to assign it again.
  */
  predicate Keeps(value: string, key: string, after: seq<string>) {
    if Assigns(after, key) then Assigned(after, key) == value else IsPlain(value)
  }

  /**
  The record survives with this source label: no line of the label is a fence or adds
  triggers, each value is kept, and triggers and body are of the form that parsing gives.
  */
  predicate Survives(r: Skill, source: string) {
    var after := SourceLines(source);
    && !HasFence(after) && Triggers(after) == []
    && Keeps(r.name, "name", after) && Keeps(r.description, "description", after)
    && Keeps(r.version, "version", after) && Keeps(r.tier, "tier", after)
    && AllTriggers(r.triggers) && IsTrimmed(r.body)
  }

  lemma KeepsIsReadBack(value: string, key: string, after: seq<string>)
    requires IsOneLine(value)
    ensures Keeps(value, key, after) <==> ReadBack(value, key, after) == value
  {
    hide Assigns, Assigned, Stored, IsPlain;
    StoredOfPlain(value);
  }

  lemma KeptIsOneLine(value: string, key: string, after: seq<string>)
    requires Keeps(value, key, after) && AllOneLine(after)
    ensures IsOneLine(value)
  {
    hide Assigns, Assigned;
    AssignedIsOneLine(after, key);
  }

  lemma TriggersAreOneLiners(r: Skill)
    requires IsOneLine(r.name) && IsOneLine(r.description) && IsOneLine(r.version) && IsOneLine(r.tier)
    requires AllTriggers(r.triggers)
    ensures IsOneLiner(r)
  {
    forall i | 0 <= i < |r.triggers| ensures IsOneLine(r.triggers[i]) {
      assert IsTrigger(r.triggers[i]);
    }
  }

  lemma SurvivesIsReread(r: Skill, source: string)
    requires IsOneLiner(r) && AllTriggers(r.triggers) && IsTrimmed(r.body) && !HasFence(SourceLines(source))
    ensures Reread(r, SourceLines(source)) == r <==> Survives(r, source)
  {
    hide Keeps, ReadBack, SourceLines, HasFence, TriggersBack, Triggers, AllTriggers, Trim, IsTrimmed, IsOneLine;
    var after := SourceLines(source);
    KeepsIsReadBack(r.name, "name", after);
    KeepsIsReadBack(r.description, "description", after);
    KeepsIsReadBack(r.version, "version", after);
    KeepsIsReadBack(r.tier, "tier", after);
    TriggersRoundTrip(r.triggers);
    TriggersComeBack(r.triggers);
    TrimOfTrimmed(r.body);
    assert r.triggers + Triggers(after) == r.triggers <==> Triggers(after) == [];
  }

  lemma TriggersComeBack(triggers: seq<string>)
    requires AllTriggers(triggers)
    ensures TriggersBack(triggers) == triggers
  {
    hide Stored, Listed, Bracketed, AllTriggers;
    TriggersRoundTrip(triggers);
  }

  lemma SurvivorIsOneLiner(r: Skill, source: string)
    requires Survives(r, source)
    ensures IsOneLiner(r)
  {
    hide Keeps, SourceLines, HasFence, IsOneLine, AllOneLine, AllTriggers, Triggers, IsTrimmed;
    var after := SourceLines(source);
    SourceIsWritten(source);
    KeptIsOneLine(r.name, "name", after);
    KeptIsOneLine(r.description, "description", after);
    KeptIsOneLine(r.version, "version", after);
    KeptIsOneLine(r.tier, "tier", after);
    TriggersAreOneLiners(r);
  }

  /**
  Parsing undoes printing, for any record and any source label, exactly when the record survives
  with that label.
  */
  lemma ParseUndoesPrint(r: Skill, source: string)
    ensures Parsed(Render(r, source)) == r <==> Survives(r, source)
  {
    hide Parsed, Render, IsOneLine, IsTrimmed, AllTriggers, Reread, Survives, HasFence, SourceLines;
    ParsedIsBare(Render(r, source));
    if Survives(r, source) {
      SurvivorIsOneLiner(r, source);
      SurvivorIsBare(r, source);
    }
    if Survives(r, source) || Parsed(Render(r, source)) == r {
      TriggersAreOneLiners(r);
      if HasFence(SourceLines(source)) {
        FenceGrowsBody(r, source);
        FencedDoesNotSurvive(r, source);
      } else {
        RenderedParses(r, source);
        SurvivesIsReread(r, source);
      }
    }
  }

  lemma SurvivorIsBare(r: Skill, source: string)
    requires Survives(r, source)
    ensures AllTriggers(r.triggers) && IsTrimmed(r.body) && !HasFence(SourceLines(source))
  {
  }

  lemma FencedDoesNotSurvive(r: Skill, source: string)
    requires HasFence(SourceLines(source))
    ensures !Survives(r, source)
  {
  }

  /**
  With a source label on one line, the records that survive are the clean ones: values on one
  line, trimmed and not in quotes; triggers on one line, trimmed, not empty and without
  commas; the body trimmed.
  */
  lemma CleanSurvives(r: Skill, source: string)
    requires IsOneLine(source)
    ensures Survives(r, source) <==> IsClean(r)
  {
    hide IsPlain, AllTriggers, IsTrimmed, Line, Stored, Key, IsFence, Split, IsOneLine;
    OneSourceLine(source);
    LineReads(SourceKey, source);
    var after := SourceLines(source);
    if source == "" {
      assert after == [] && Triggers(after) == [];
    } else {
      assert after == [Line(SourceKey, source)] && after[..0] == [];
      assert Key(after[0]) == "source" && !IsFence(after[0]);
      assert Triggers(after[..0]) == [] && Triggers(after) == [];
    }
  }

  lemma OneSourceLine(source: string)
    requires IsOneLine(source)
    ensures SourceLines(source) == LineFor(SourceKey, source)
  {
    hide Split;
    LineReads(SourceKey, source);
    SplitWhole(Line(SourceKey, source), '\n');
  }

  /** Enriching: the file that is written parses as the merged record exactly when that record survives. */
  method EnrichAndReread(content: string, name: string, triggers: string, tier: string, source: string)
    returns (again: Skill)
    ensures again == Parsed(Render(Merged(Parsed(content), name, triggers, tier), source))
    ensures again == Merged(Parsed(content), name, triggers, tier)
       <==> Survives(Merged(Parsed(content), name, triggers, tier), source)
  {
    hide Parsed, Render, Merged, Survives;
    var out := BuildEnriched(content, name, triggers, tier, source);
    again := ParseFrontmatter(out);
    ParseUndoesPrint(Merged(Parsed(content), name, triggers, tier), source);
  }

  /** What the caller can check: the file's own values without quotes left in them, and the supplied ones clean. */
  lemma MergedIsClean(content: string, name: string, triggers: string, tier: string)
    ensures
      var s := Parsed(content);
      IsClean(Merged(s, name, triggers, tier)) <==>
      && IsPlain(if s.name == "" then name else s.name) && IsPlain(s.description) && IsPlain(s.version)
      && IsPlain(if tier == "" then s.tier else tier)
      && (triggers != "" ==> AllTriggers(Items(Split(triggers, ','))))
  {
    hide Parsed, IsPlain, AllTriggers, Items, Split, IsTrimmed;
    ParsedIsBare(content);
  }

  // ---------- Enriching twice

  /** The value that the last line for a key carries, as it is written. */
  function Written(ls: seq<string>, f: Field): string {
    if ls == [] then ""
    else
      var line := ls[|ls| - 1];
      if Key(line) == KeyName(f) && |KeyName(f)| + 2 <= |line| then line[|KeyName(f)| + 2..]
      else Written(ls[..|ls| - 1], f)
  }

  lemma KeysDiffer(f: Field, g: Field)
    ensures KeyName(f) == KeyName(g) <==> f == g
  {
  }

  lemma LineIsWritten(ls: seq<string>, f: Field, v: string, g: Field)
    ensures Written(ls + [Line(f, v)], g) == if f == g then v else Written(ls, g)
  {
    hide Key, KeyName, Stored, Value;
    LineReads(f, v);
    KeysDiffer(f, g);
    assert (ls + [Line(f, v)])[..|ls|] == ls;
    assert Line(f, v)[|KeyName(f)| + 2..] == v;
  }

  lemma LineForIsWritten(ls: seq<string>, f: Field, v: string, g: Field)
    requires f == g ==> Written(ls, g) == ""
    ensures Written(ls + LineFor(f, v), g) == if f == g then v else Written(ls, g)
  {
    hide Written, Line;
    if v == "" {
      assert ls + [] == ls;
    } else {
      LineIsWritten(ls, f, v, g);
    }
  }

  function ValueOf(r: Skill, f: Field): string {
    match f
    case NameKey => r.name
    case DescriptionKey => r.description
    case VersionKey => r.version
    case TriggersKey => Bracketed(r.triggers)
    case TierKey => r.tier
    case SourceKey => ""
  }

  /** A printed header shows every value as it was. */
  lemma HeaderTells(r: Skill, f: Field)
    ensures Written(Header(r, ""), f) == ValueOf(r, f)
  {
    hide Line, LineFor, Bracketed, Written;
    NothingWritten(f);
    var f1 := [Line(NameKey, r.name)];
    assert [] + f1 == f1;
    LineIsWritten([], NameKey, r.name, f);
    LineForIsWritten(f1, DescriptionKey, r.description, f);
    var f2 := f1 + LineFor(DescriptionKey, r.description);
    LineForIsWritten(f2, VersionKey, r.version, f);
    var f3 := f2 + LineFor(VersionKey, r.version);
    LineForIsWritten(f3, TriggersKey, Bracketed(r.triggers), f);
    var f4 := f3 + LineFor(TriggersKey, Bracketed(r.triggers));
    LineForIsWritten(f4, TierKey, r.tier, f);
    LineForIsWritten(f4 + LineFor(TierKey, r.tier), SourceKey, "", f);
  }

  lemma NothingWritten(f: Field)
    ensures Written([], f) == ""
  {
  }

  lemma SameHeaderSameRecord(a: Skill, b: Skill)
    requires Header(a, "") == Header(b, "") && AllTriggers(a.triggers) && AllTriggers(b.triggers)
    ensures a.(body := b.body) == b
  {
    hide Header, Written, Bracketed, Stored, Listed, AllTriggers;
    forall f: Field ensures ValueOf(a, f) == ValueOf(b, f) {
      HeaderTells(a, f);
      HeaderTells(b, f);
    }
    assert ValueOf(a, NameKey) == a.name && ValueOf(a, DescriptionKey) == a.description;
    assert ValueOf(a, VersionKey) == a.version && ValueOf(a, TierKey) == a.tier;
    assert ValueOf(a, TriggersKey) == Bracketed(a.triggers);
    NoBrackets(a.triggers);
    NoBrackets(b.triggers);
    TriggersRoundTrip(a.triggers);
    TriggersRoundTrip(b.triggers);
  }

  lemma NoBrackets(ts: seq<string>)
    ensures Bracketed(ts) == "" <==> ts == []
  {
  }

  /** The position of the fence that closes the block of a printed file. */
  lemma BlockLength(r: Skill, source: string)
    requires IsOneLiner(r)
    ensures Fence(Split(Render(r, source), '\n'), 1) == 1 + |Header(r, "")| + Fence(SourceLines(source), 0)
  {
    hide Split, Join, Trim, Header, Render, Front, BodyOf, SourceLines, IsFence;
    RenderedLines(r, source);
    var s := SourceLines(source);
    if HasFence(s) {
      var p, lines := FenceCutsBlock(r, source);
    } else {
      BlockHasNoFence(r, s);
      DashesAreFence();
      FencedLines(Header(r, "") + s, "---", [""] + Split(r.body + "\n", '\n'));
      assert ["---"] + (Header(r, "") + s) + Tail(r.body)
          == ["---"] + (Header(r, "") + s) + ["---"] + ([""] + Split(r.body + "\n", '\n'));
      NoFence(s, 0);
    }
  }

  lemma {:induction false} NoFence(ls: seq<string>, from: nat)
    requires from <= |ls| && !HasFence(ls)
    ensures Fence(ls, from) == |ls|
    decreases |ls| - from
  {
    hide IsFence;
    if from < |ls| {
      assert !IsFence(ls[from]);
      NoFence(ls, from + 1);
    }
  }

  lemma SameParts<T>(x: T, a: seq<T>, b: seq<T>, s: seq<T>, c: seq<T>, d: seq<T>)
    requires [x] + (a + s) + c == [x] + (b + s) + d && |a| == |b|
    ensures a == b && c == d
  {
    var n := 1 + |a| + |s|;
    var l, m := [x] + (a + s) + c, [x] + (b + s) + d;
    assert l[1..1 + |a|] == a && m[1..1 + |a|] == b;
    assert l[n..] == c && m[n..] == d;
  }

  lemma TailTellsBody(a: string, b: string)
    requires Tail(a) == Tail(b)
    ensures a == b
  {
    hide Split;
    assert Tail(a)[2..] == Split(a + "\n", '\n') && Tail(b)[2..] == Split(b + "\n", '\n');
    JoinSplit(a + "\n", '\n');
    JoinSplit(b + "\n", '\n');
    assert (a + "\n")[..|a + "\n"| - 1] == a && (b + "\n")[..|b + "\n"| - 1] == b;
  }

  /** Printing tells records apart, as long as their values fit on their lines. */
  lemma PrintIsInjective(a: Skill, b: Skill, source: string)
    requires IsOneLiner(a) && IsOneLiner(b) && AllTriggers(a.triggers) && AllTriggers(b.triggers)
    requires Render(a, source) == Render(b, source)
    ensures a == b
  {
    hide Header, Render, Split, SourceLines, Tail, IsOneLiner, AllTriggers, Fence;
    RenderedLines(a, source);
    RenderedLines(b, source);
    BlockLength(a, source);
    BlockLength(b, source);
    SameParts("---", Header(a, ""), Header(b, ""), SourceLines(source), Tail(a.body), Tail(b.body));
    TailTellsBody(a.body, b.body);
    SameHeaderSameRecord(a, b);
  }

  lemma SuppliedAreTriggers(triggers: string)
    requires IsOneLine(triggers)
    ensures AllTriggers(Items(Split(triggers, ',')))
  {
    hide Items, Split, AllTriggers;
    SplitParts(triggers, ',', '\n');
    ItemsAreTriggers(Split(triggers, ','));
  }

  /** Supplied values on one line make a merged record whose values fit on their lines. */
  lemma MergedIsBare(content: string, name: string, triggers: string, tier: string)
    requires IsOneLine(name) && IsOneLine(triggers) && IsOneLine(tier)
    ensures
      var m := Merged(Parsed(content), name, triggers, tier);
      IsOneLiner(m) && AllTriggers(m.triggers) && IsTrimmed(m.body) && (m.name == "" ==> name == "")
  {
    hide Parsed, Items, Split, IsOneLine, AllOneLine, AllTriggers, IsTrimmed;
    ParsedIsBare(content);
    if triggers != "" {
      SuppliedAreTriggers(triggers);
    }
    TriggersAreOneLiners(Merged(Parsed(content), name, triggers, tier));
  }

  /** The name is kept, or it is the supplied one, reads as no name at all, and is supplied again. */
  predicate NameStays(name: string, supplied: string, after: seq<string>) {
    Keeps(name, "name", after) || (name == supplied && ReadBack(name, "name", after) == "")
  }

  /** What a second enriching with the same arguments starts from is what the first one wrote. */
  predicate Settles(m: Skill, name: string, triggers: string, tier: string, source: string) {
    var after := SourceLines(source);
    && !HasFence(after)
    && NameStays(m.name, name, after)
    && Keeps(m.description, "description", after) && Keeps(m.version, "version", after)
    && (tier != "" || Keeps(m.tier, "tier", after))
    && (triggers != "" || Triggers(after) == [])
  }

  lemma SettlesIsMergedAgain(content: string, m: Skill, name: string, triggers: string, tier: string, source: string)
    requires IsOneLine(name) && IsOneLine(triggers) && IsOneLine(tier) && !HasFence(SourceLines(source))
    requires m == Merged(Parsed(content), name, triggers, tier)
    ensures Merged(Reread(m, SourceLines(source)), name, triggers, tier) == m
       <==> Settles(m, name, triggers, tier, source)
  {
    hide Keeps, ReadBack, SourceLines, HasFence, TriggersBack, Triggers, AllTriggers;
    hide Trim, IsTrimmed, IsOneLine, Parsed;
    hide Items, Split;
    var after := SourceLines(source);
    MergedIsBare(content, name, triggers, tier);
    KeepsIsReadBack(m.name, "name", after);
    KeepsIsReadBack(m.description, "description", after);
    KeepsIsReadBack(m.version, "version", after);
    KeepsIsReadBack(m.tier, "tier", after);
    TriggersComeBack(m.triggers);
    TrimOfTrimmed(m.body);
    assert m.triggers + Triggers(after) == m.triggers <==> Triggers(after) == [];
  }

  /**
  Enriching a second time with the same arguments writes the same file, for any source label,
  exactly when the label holds no fence and each value that is not supplied again is kept.
  */
  lemma EnrichingTwice(content: string, name: string, triggers: string, tier: string, source: string)
    requires IsOneLine(name) && IsOneLine(triggers) && IsOneLine(tier)
    ensures
      var m := Merged(Parsed(content), name, triggers, tier);
      var out := Render(m, source);
      Render(Merged(Parsed(out), name, triggers, tier), source) == out <==> Settles(m, name, triggers, tier, source)
  {
    hide Parsed, Render, IsOneLine, IsOneLiner, AllTriggers, IsTrimmed;
    hide SourceLines, HasFence, Reread, NameStays, Keeps;
    var m := Merged(Parsed(content), name, triggers, tier);
    var out := Render(m, source);
    var again := Merged(Parsed(out), name, triggers, tier);
    MergedIsBare(content, name, triggers, tier);
    MergedIsBare(out, name, triggers, tier);
    if Render(again, source) == out {
      PrintIsInjective(again, m, source);
    }
    if HasFence(SourceLines(source)) {
      FenceGrowsBody(m, source);
    } else {
      RenderedParses(m, source);
      SettlesIsMergedAgain(content, m, name, triggers, tier, source);
    }
  }

  lemma OnePairIsStripped()
    ensures Stored("'\"a\"'") == "\"a\"" && Stored("\"a\"") == "a" && Stored("n") == "n" && Stored("") == ""
  {
    hide Trim;
    TrimOfTrimmed("'\"a\"'");
    TrimOfTrimmed("\"a\"");
    TrimOfTrimmed("n");
    TrimOfTrimmed("");
  }

  /** A description in nested quotes loses one pair each time the file is enriched. */
  lemma NestedQuotesAreLost()
    ensures
      var content := Render(Skill("n", "'\"a\"'", "", [], "", ""), "");
      && Parsed(content).description == "\"a\""
      && Parsed(Render(Merged(Parsed(content), "n", "", ""), "")).description == "a"
  {
    hide Parsed, Render, Trim, Stored, Items, Split;
    var r := Skill("n", "'\"a\"'", "", [], "", "");
    RenderedParses(r, "");
    OnePairIsStripped();
    TrimOfTrimmed("");
    assert Triggers([]) == [];
    var once := Parsed(Render(r, ""));
    assert Merged(once, "n", "", "") == once;
    RenderedParses(once, "");
  }

  /** A source label of two lines can name the skill anew. */
  lemma SourceCanRename(name: string, other: string)
    requires IsPlain(name) && IsPlain(other)
    ensures Parsed(Render(Skill(name, "", "", [], "", ""), "x\nname: " + other)).name == other
  {
    hide Key, Value, Line, IsFence, IsTrimmed, Triggers, Assigned, Stored, Parsed, Render, Split, Trim;
    var source := "x\nname: " + other;
    RenamingLine(other);
    StoredOfPlain(other);
    LineReads(SourceKey, "x");
    LineReads(NameKey, other);
    assert Key(SourceLines(source)[1]) == "name";
    RenderedParses(Skill(name, "", "", [], "", ""), source);
  }

  lemma RenamingLine(other: string)
    requires IsOneLine(other)
    ensures SourceLines("x\nname: " + other) == [Line(SourceKey, "x"), Line(NameKey, other)]
    ensures Assigned(SourceLines("x\nname: " + other), "name") == Stored(other)
  {
    hide Split, Stored, Key, Value;
    LineReads(SourceKey, "x");
    LineReads(NameKey, other);
    assert Line(SourceKey, "x\nname: " + other) == Line(SourceKey, "x") + ['\n'] + Line(NameKey, other);
    SplitAt(Line(SourceKey, "x"), '\n', Line(NameKey, other));
    SplitWhole(Line(NameKey, other), '\n');
  }
}
