/**
What the parser reads from a skill file that anybody wrote, line by line and in terms of the
characters of each line.
*/
module SkillReading {
  import opened Sequences
  import opened Text
  import opened SkillFile

  // ---------- One line

  /** A value without the quotes around it, if it has a pair of them. */
  function Unquoted(s: string): string {
    if |s| >= 2 && ((s[0] == '"' && s[|s| - 1] == '"') || (s[0] == '\'' && s[|s| - 1] == '\''))
    then s[1..|s| - 1] else s
  }

  /** What stands before the first colon of the line is `key`, up to the white space around it. */
  ghost predicate Sets(line: string, key: string) {
    exists a, b :: line == a + ":" + b && a != "" && ':' !in a && Trim(a) == key
  }

  /** It is `key`, and what stands behind that colon is `value`, up to white space and then quotes around it. */
  ghost predicate Says(line: string, key: string, value: string) {
    exists a, b :: line == a + ":" + b && a != "" && ':' !in a && Trim(a) == key && Unquoted(Trim(b)) == value
  }

  lemma ColonSplits(a: string, b: string)
    requires a != "" && ':' !in a
    ensures Key(a + ":" + b) == Trim(a) && Value(a + ":" + b) == Unquoted(Trim(b))
  {
    hide Trim;
    IndexOfIs(a, ':', b);
    var line := a + [':'] + b;
    assert line == a + ":" + b && line[..|a|] == a && line[|a| + 1..] == b;
  }

  lemma SetsIs(line: string, key: string)
    requires key != ""
    ensures Sets(line, key) <==> Key(line) == key
    ensures forall v :: Says(line, key, v) <==> Key(line) == key && Value(line) == v
  {
    hide Trim, Key, Value, Unquoted;
    if a, b :| line == a + ":" + b && a != "" && ':' !in a && Trim(a) == key {
      ColonSplits(a, b);
    }
    forall v | Says(line, key, v) ensures Key(line) == key && Value(line) == v {
      var a, b :| line == a + ":" + b && a != "" && ':' !in a && Trim(a) == key && Unquoted(Trim(b)) == v;
      ColonSplits(a, b);
    }
    if Key(line) == key {
      var i := KeyEnds(line);
      ColonSplits(line[..i], line[i + 1..]);
      assert line == line[..i] + ":" + line[i + 1..];
    }
  }

  lemma KeyEnds(line: string) returns (i: nat)
    requires Key(line) != ""
    ensures 0 < i < |line| && line[i] == ':' && ':' !in line[..i]
  {
    i := IndexOf(line, ':');
  }

  // ---------- A block

  /** The last line that sets a key gives its value. */
  lemma {:induction false} LastLineWins(front: seq<string>, key: string)
    requires key != ""
    ensures (forall i | 0 <= i < |front| :: !Sets(front[i], key)) ==> Assigned(front, key) == ""
    ensures forall i, v | 0 <= i < |front| && Says(front[i], key, v)
                          && (forall j | i < j < |front| :: !Sets(front[j], key)) ::
              Assigned(front, key) == v
  {
    hide Key, Value, Sets, Says;
    if front != [] {
      var n, line := |front| - 1, front[|front| - 1];
      LastLineWins(front[..n], key);
      SetsIs(line, key);
      assert forall i | 0 <= i < n :: front[..n][i] == front[i];
      forall i, v | 0 <= i < |front| && Says(front[i], key, v) && (forall j | i < j < |front| :: !Sets(front[j], key))
        ensures Assigned(front, key) == v
      {
        if i < n {
          assert !Sets(front[n], key);
          assert Says(front[..n][i], key, v);
        }
      }
    }
  }

  // ---------- A list

  lemma {:induction false} SplitJoin(parts: seq<string>)
    requires parts != [] && NoneHas(parts, ',')
    ensures Split(Join(parts, ","), ',') == parts
  {
    hide Split, Join;
    if |parts| == 1 {
      JoinOne(parts[0], ",");
      assert parts == [parts[0]];
      SplitWhole(parts[0], ',');
    } else {
      SplitJoin(parts[1..]);
      assert parts == [parts[0]] + parts[1..];
      JoinCons(parts[0], parts[1..], ",");
      assert parts[0] + "," + Join(parts[1..], ",") == parts[0] + [','] + Join(parts[1..], ",");
      SplitAt(parts[0], ',', Join(parts[1..], ","));
    }
  }

  lemma {:induction false} ItemsConcat(a: seq<string>, b: seq<string>)
    ensures Items(a + b) == Items(a) + Items(b)
  {
    hide Trim;
    if a == [] {
      assert a + b == b;
    } else {
      assert (a + b)[1..] == a[1..] + b;
      ItemsConcat(a[1..], b);
    }
  }

  /** `items` holds those of the first `n` parts that are not blank, trimmed and in order; `at` says where they are. */
  ghost predicate Lists(parts: seq<string>, n: nat, items: seq<string>, at: seq<nat>) {
    && n <= |parts| && |at| == |items|
    && (forall k | 0 <= k < |at| :: at[k] < n && items[k] == Trim(parts[at[k]]) != "")
    && (forall k, m | 0 <= k < m < |at| :: at[k] < at[m])
    && (forall i | 0 <= i < n && Trim(parts[i]) != "" :: i in at)
  }

  lemma ListsNext(parts: seq<string>, n: nat, items: seq<string>, at: seq<nat>)
    requires n < |parts| && Lists(parts, n, items, at)
    ensures if Trim(parts[n]) == "" then Lists(parts, n + 1, items, at)
            else Lists(parts, n + 1, items + [Trim(parts[n])], at + [n])
  {
    hide Trim;
  }

  lemma NothingListed(parts: seq<string>)
    ensures Lists(parts, 0, Items(parts[..0]), [])
  {
  }

  /** The items of the first `n` parts. */
  lemma {:induction false} ItemsAre(parts: seq<string>, n: nat) returns (at: seq<nat>)
    requires n <= |parts|
    ensures Lists(parts, n, Items(parts[..n]), at)
  {
    hide Trim, Items, Lists;
    if n == 0 {
      at := [];
      NothingListed(parts);
    } else {
      var front, part := parts[..n - 1], parts[n - 1];
      at := ItemsAre(parts, n - 1);
      ListsNext(parts, n - 1, Items(front), at);
      assert parts[..n] == front + [part];
      ItemsConcat(front, [part]);
      ItemsOne(part);
      if Trim(part) != "" {
        at := at + [n - 1];
      } else {
        assert Items(front) + [] == Items(front);
      }
    }
  }

  lemma ItemsOne(part: string)
    ensures Items([part]) == if Trim(part) == "" then [] else [Trim(part)]
  {
    hide Trim;
    assert [part][1..] == [] && Items([]) == [];
  }

  /** A list is read with or without each of its brackets. */
  lemma ListIsRead(parts: seq<string>, s: string)
    requires parts != [] && NoneHas(parts, ',') && s == Join(parts, ",")
    ensures Listed("[" + s + "]") == Items(parts)
    ensures s == "" || s[0] != '[' ==> Listed(s + "]") == Items(parts)
    ensures s == "" || s[|s| - 1] != ']' ==> Listed("[" + s) == Items(parts)
    ensures s == "" || (s[0] != '[' && s[|s| - 1] != ']') ==> Listed(s) == Items(parts)
  {
    hide Join, Split, Items, Unbracketed, WithoutRight;
    SplitJoin(parts);
    RightGoes(s);
    LeftGoes(s);
    LeftGoes(s + "]");
    NoneGoes(s);
    NoneGoes(s + "]");
    assert "[" + s + "]" == "[" + (s + "]");
    assert (s + "]")[0] == if s == "" then ']' else s[0];
  }

  function WithoutRight(t: string): string {
    if t != "" && t[|t| - 1] == ']' then t[..|t| - 1] else t
  }

  lemma RightGoes(s: string)
    ensures WithoutRight(s + "]") == s
    ensures s == "" || s[|s| - 1] != ']' ==> WithoutRight(s) == s
  {
    assert (s + "]")[..|s|] == s;
  }

  lemma LeftGoes(t: string)
    ensures Unbracketed("[" + t) == WithoutRight(t)
  {
    assert ("[" + t)[1..] == t;
  }

  lemma NoneGoes(t: string)
    ensures t == "" || t[0] != '[' ==> Unbracketed(t) == WithoutRight(t)
  {
  }

  // ---------- A file

  /** Byte order marks at the start are skipped, and nothing else. */
  lemma BomIsSkipped(content: string)
    ensures Parsed(['\U{FEFF}'] + content) == Parsed(content)
    ensures content == "" || content[0] != '\U{FEFF}' ==> WithoutBom(content) == content
  {
    hide Trim, Split, Fields;
    var c := ['\U{FEFF}'] + content;
    assert c[1..] == content;
  }

  /** A text that does not begin with three dashes is all body. */
  lemma PlainText(content: string)
    requires content == "" || content[0] != '\U{FEFF}'
    requires !("---" <= Trim(content))
    ensures Parsed(content) == Skill("", "", "", [], "", Trim(content))
  {
    hide Trim, Split, Fields;
  }

  /** Lines `open` and `close` are the first two that hold three dashes and nothing else, as far as there are such. */
  ghost predicate IsBlock(lines: seq<string>, open: nat, close: nat) {
    && open < close <= |lines|
    && Trim(lines[open]) == "---" && (forall i | 0 <= i < open :: Trim(lines[i]) != "---")
    && (close < |lines| ==> Trim(lines[close]) == "---") && (forall i | open < i < close :: Trim(lines[i]) != "---")
  }

  /** The value of a field: what the last line of the block that sets it says. */
  ghost predicate IsField(lines: seq<string>, open: nat, close: nat, key: string, value: string)
    requires open < close <= |lines|
  {
    && ((forall i | open < i < close :: !Sets(lines[i], key)) ==> value == "")
    && forall i, v | open < i < close && Says(lines[i], key, v) && (forall j | i < j < close :: !Sets(lines[j], key)) ::
         value == v
  }

  lemma FieldIs(lines: seq<string>, open: nat, close: nat, key: string)
    requires key != "" && open < close <= |lines|
    ensures IsField(lines, open, close, key, Assigned(lines[open + 1..close], key))
  {
    hide Sets, Says;
    var front := lines[open + 1..close];
    LastLineWins(front, key);
    assert forall i | open < i < close :: lines[i] == front[i - open - 1];
    forall i, v | open < i < close && Says(lines[i], key, v) && (forall j | i < j < close :: !Sets(lines[j], key))
      ensures Assigned(front, key) == v
    {
      assert front[i - open - 1] == lines[i];
    }
    if forall i | open < i < close :: !Sets(lines[i], key) {
      forall k | 0 <= k < |front| ensures !Sets(front[k], key) {
        assert front[k] == lines[open + 1 + k];
      }
    }
  }

  lemma {:induction false} NextFence(lines: seq<string>, from: nat, to: nat)
    requires from <= to <= |lines| && (to < |lines| ==> Trim(lines[to]) == "---")
    requires forall i | from <= i < to :: Trim(lines[i]) != "---"
    ensures Fence(lines, from) == to
    decreases |lines| - from
  {
    hide Trim;
    if from < to {
      NextFence(lines, from + 1, to);
    }
  }

  /** No line sets the triggers. */
  lemma {:induction false} NoTriggers(front: seq<string>)
    requires forall i | 0 <= i < |front| :: !Sets(front[i], "triggers")
    ensures Triggers(front) == []
  {
    hide Key, Value, Sets, Listed;
    if front != [] {
      SetsIs(front[|front| - 1], "triggers");
      NoTriggers(front[..|front| - 1]);
    }
  }

  /** The triggers of the lines that set them, one list after the other. */
  lemma {:induction false} TriggersSay(front: seq<string>, i: nat, v: string)
    requires i < |front| && Says(front[i], "triggers", v) && forall j | i < j < |front| :: !Sets(front[j], "triggers")
    ensures Triggers(front) == Triggers(front[..i]) + Listed(v)
  {
    hide Key, Value, Sets, Says, Listed;
    var n := |front| - 1;
    SetsIs(front[n], "triggers");
    if i < n {
      TriggersSay(front[..n], i, v);
      assert front[..n][..i] == front[..i];
    }
  }

  lemma BlockIsParsed(text: string, open: nat, close: nat)
    requires text == "" || text[0] != '\U{FEFF}'
    requires "---" <= Trim(text) && IsBlock(Split(text, '\n'), open, close)
    ensures
      var lines := Split(text, '\n');
      Parsed(text) == Fields(lines[open + 1..close]).(body :=
        if close + 1 < |lines| then Trim(Join(lines[close + 1..], "\n")) else Trim(text))
  {
    hide Trim, Split, Join, Fields, Fence;
    var lines := Split(text, '\n');
    BomIsSkipped(text);
    NextFence(lines, 0, open);
    NextFence(lines, open + 1, close);
  }

  /**
  What a file says whose text begins with three dashes: each field is given by the last line of
  the block that sets it, and the body is what follows the block, or the whole text if the
  block has no end or ends the text.
  */
  lemma BlockSays(text: string, open: nat, close: nat)
    requires text == "" || text[0] != '\U{FEFF}'
    requires "---" <= Trim(text) && IsBlock(Split(text, '\n'), open, close)
    ensures
      var lines, r := Split(text, '\n'), Parsed(text);
      && IsField(lines, open, close, "name", r.name)
      && IsField(lines, open, close, "description", r.description)
      && IsField(lines, open, close, "version", r.version)
      && IsField(lines, open, close, "tier", r.tier)
      && r.triggers == Triggers(lines[open + 1..close])
      && r.body == if close + 1 < |lines| then Trim(Join(lines[close + 1..], "\n")) else Trim(text)
  {
    hide Trim, Split, Join, IsField, Assigned, Triggers, Parsed;
    var lines := Split(text, '\n');
    BlockIsParsed(text, open, close);
    FieldIs(lines, open, close, "name");
    FieldIs(lines, open, close, "description");
    FieldIs(lines, open, close, "version");
    FieldIs(lines, open, close, "tier");
  }

  /** Three dashes that begin a line but do not make it up open no block. */
  lemma NoBlock(text: string)
    requires text == "" || text[0] != '\U{FEFF}'
    requires forall i | 0 <= i < |Split(text, '\n')| :: Trim(Split(text, '\n')[i]) != "---"
    ensures Parsed(text) == Skill("", "", "", [], "", Trim(text))
  {
    hide Trim, Split, Join;
    var lines := Split(text, '\n');
    BomIsSkipped(text);
    NextFence(lines, 0, |lines|);
  }
}
