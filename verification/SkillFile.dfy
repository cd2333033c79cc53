/**
Skill files: a block of `key: value` lines between two fences, and a body. The importer parses
a file, merges what the user supplied into it, and prints it again.
*/
module SkillFile {
  import opened Sequences
  import opened Text

  datatype Skill = Skill(
    name: string, description: string, version: string, triggers: seq<string>, tier: string, body: string)

  /** The keys that the printer writes; the parser knows all but the last. */
  datatype Field = NameKey | DescriptionKey | VersionKey | TriggersKey | TierKey | SourceKey

  function KeyName(f: Field): string {
    match f
    case NameKey => "name"
    case DescriptionKey => "description"
    case VersionKey => "version"
    case TriggersKey => "triggers"
    case TierKey => "tier"
    case SourceKey => "source"
  }

  const BLANK := Skill("", "", "", [], "", "")

  // ---------- What a file says

  predicate IsFence(line: string) {
    Trim(line) == "---"
  }

  /** The first fence at or after `from`, or the number of lines. */
  function Fence(lines: seq<string>, from: nat): (r: nat)
    requires from <= |lines|
    ensures from <= r <= |lines| && (r < |lines| ==> IsFence(lines[r]))
    decreases |lines| - from
  {
    if from == |lines| || IsFence(lines[from]) then from else Fence(lines, from + 1)
  }

  /** The lines after the first fence, up to the second one if there is one. */
  function Front(lines: seq<string>): seq<string> {
    var open := Fence(lines, 0);
    if open == |lines| then [] else lines[open + 1..Fence(lines, open + 1)]
  }

  /** What follows the second fence; everything when there is none, or nothing behind it. */
  function BodyOf(text: string, lines: seq<string>): string {
    var open := Fence(lines, 0);
    if open < |lines| && Fence(lines, open + 1) + 1 < |lines|
    then Trim(Join(lines[Fence(lines, open + 1) + 1..], "\n"))
    else Trim(text)
  }

  /** The key that a line assigns to; empty when it assigns to none. */
  function Key(line: string): string {
    var i := IndexOf(line, ':');
    if i > 0 then Trim(line[..i]) else ""
  }

  predicate IsQuoted(s: string) {
    |s| >= 2 && s[0] == s[|s| - 1] && (s[0] == '"' || s[0] == '\'')
  }

  /** How a value is read: trimmed, and without one pair of quotes. */
  function Stored(raw: string): string {
    var s := Trim(raw);
    if IsQuoted(s) then s[1..|s| - 1] else s
  }

  function Value(line: string): string {
    var i := IndexOf(line, ':');
    if i > 0 then Stored(line[i + 1..]) else ""
  }

  /** The last value assigned to `key`. */
  function Assigned(front: seq<string>, key: string): string {
    if front == [] then ""
    else
      var line := front[|front| - 1];
      if Key(line) == key then Value(line) else Assigned(front[..|front| - 1], key)
  }

  /** The non-empty trimmed parts. */
  function Items(parts: seq<string>): seq<string> {
    if parts == [] then []
    else (if Trim(parts[0]) == "" then [] else [Trim(parts[0])]) + Items(parts[1..])
  }

  function Unbracketed(s: string): string {
    var t := if "[" <= s then s[1..] else s;
    if t != "" && t[|t| - 1] == ']' then t[..|t| - 1] else t
  }

  function Listed(value: string): seq<string> {
    Items(Split(Unbracketed(value), ','))
  }

  /** The triggers of all lines that assign some. */
  function Triggers(front: seq<string>): seq<string> {
    if front == [] then []
    else
      var line := front[|front| - 1];
      Triggers(front[..|front| - 1]) + (if Key(line) == "triggers" then Listed(Value(line)) else [])
  }

  function Fields(front: seq<string>): Skill {
    Skill(Assigned(front, "name"), Assigned(front, "description"), Assigned(front, "version"),
          Triggers(front), Assigned(front, "tier"), "")
  }

  function WithoutBom(s: string): string {
    if s != "" && s[0] == '\U{FEFF}' then WithoutBom(s[1..]) else s
  }

  function Parsed(content: string): Skill {
    var text := WithoutBom(content);
    var lines := Split(text, '\n');
    if "---" <= Trim(text) then Fields(Front(lines)).(body := BodyOf(text, lines))
    else BLANK.(body := Trim(text))
  }

  // ---------- The parser

  method ListItems(list: string) returns (items: seq<string>)
    ensures items == Items(Split(list, ','))
  {
    hide Split, Trim;
    var parts := Split(list, ',');
    items := [];
    var i := 0;
    while i < |parts|
      invariant i <= |parts|
      invariant items + Items(parts[i..]) == Items(parts)
    {
      assert parts[i..][1..] == parts[i + 1..];
      var s := Trim(parts[i]);
      if s != "" {
        Regroup(items, [s], Items(parts[i + 1..]), []);
        items := items + [s];
      } else {
        assert [] + Items(parts[i + 1..]) == Items(parts[i + 1..]);
      }
      i := i + 1;
    }
  }

  /** The items of a list in brackets. */
  method ListTriggers(value: string) returns (items: seq<string>)
    ensures items == Listed(value)
  {
    hide Items, Split;
    var val := value;
    if "[" <= val {
      val := val[1..];
    }
    if val != "" && val[|val| - 1] == ']' {
      val := val[..|val| - 1];
    }
    items := ListItems(val);
  }

  lemma FieldsNext(front: seq<string>, line: string)
    ensures
      var r, key, val := Fields(front), Key(line), Value(line);
      Fields(front + [line]) ==
      if key == "name" then r.(name := val)
      else if key == "description" then r.(description := val)
      else if key == "version" then r.(version := val)
      else if key == "tier" then r.(tier := val)
      else if key == "triggers" then r.(triggers := r.triggers + Listed(val))
      else r
  {
    hide Key, Value, Listed;
    assert (front + [line])[..|front|] == front;
    assert Triggers(front) + [] == Triggers(front);
  }

  /** One line of the block: `val` is stripped of quotes and assigned to the field that `key` names. */
  method ParseLine(line: string, was: Skill, ghost front: seq<string>) returns (r: Skill)
    requires was == Fields(front)
    ensures r == Fields(front + [line])
  {
    hide Fields, Trim, IndexOf, Listed;
    FieldsNext(front, line);
    r := was;
    var idx := IndexOf(line, ':');
    if idx > 0 {
      var key, val := Trim(line[..idx]), Trim(line[idx + 1..]);
      if |val| >= 2 && ((val[0] == '"' && val[|val| - 1] == '"') || (val[0] == '\'' && val[|val| - 1] == '\'')) {
        val := val[1..|val| - 1];
      }
      match key
      case "name" => r := r.(name := val);
      case "description" => r := r.(description := val);
      case "version" => r := r.(version := val);
      case "tier" => r := r.(tier := val);
      case "triggers" =>
        var items := ListTriggers(val);
        r := r.(triggers := r.triggers + items);
      case _ =>
    }
  }

  method ParseFrontmatter(content: string) returns (r: Skill)
    ensures r == Parsed(content)
  {
    hide Split, Trim, Fields, WithoutBom, Join;
    var text := WithoutBom(content);
    var trimmed := Trim(text);
    if !("---" <= trimmed) {
      return BLANK.(body := trimmed);
    }
    var lines := Split(text, '\n');
    ghost var open := Fence(lines, 0);
    var inFront, frontEnd := false, -1;
    r := BLANK;
    FieldsOfNone();
    var i := 0;
    while i < |lines|
      invariant i <= |lines| && frontEnd == -1
      invariant !inFront ==> i <= open == Fence(lines, i) && r == BLANK
      invariant inFront ==> open < i && i <= Fence(lines, open + 1) == Fence(lines, i)
      invariant inFront ==> r == Fields(lines[open + 1..i])
    {
      if Trim(lines[i]) == "---" {
        if !inFront {
          inFront := true;
          i := i + 1;
          assert lines[open + 1..i] == [];
          continue;
        }
        frontEnd := i;
        break;
      }
      if inFront {
        r := ParseLine(lines[i], r, lines[open + 1..i]);
        assert lines[open + 1..i + 1] == lines[open + 1..i] + [lines[i]];
      }
      i := i + 1;
    }
    FieldsKeepNoBody(Front(lines));
    if frontEnd > 0 && frontEnd + 1 < |lines| {
      r := r.(body := Trim(Join(lines[frontEnd + 1..], "\n")));
    } else {
      r := r.(body := trimmed);
    }
  }

  lemma FieldsOfNone()
    ensures Fields([]) == BLANK
  {
  }

  lemma FieldsKeepNoBody(front: seq<string>)
    ensures Fields(front).body == ""
  {
  }

  // ---------- The printer

  function Line(f: Field, value: string): string {
    KeyName(f) + ": " + value
  }

  /** A line for a value that is there. */
  function LineFor(f: Field, value: string): seq<string> {
    if value == "" then [] else [Line(f, value)]
  }

  function Bracketed(triggers: seq<string>): string {
    if triggers == [] then "" else "[" + Join(triggers, ", ") + "]"
  }

  function Header(r: Skill, source: string): seq<string> {
    [Line(NameKey, r.name)] + LineFor(DescriptionKey, r.description) + LineFor(VersionKey, r.version)
    + LineFor(TriggersKey, Bracketed(r.triggers)) + LineFor(TierKey, r.tier) + LineFor(SourceKey, source)
  }

  function Render(r: Skill, source: string): string {
    Unlines(["---"] + Header(r, source) + ["---", ""]) + r.body + "\n"
  }

  /** What the user supplies wins over the file, except for the name. */
  function Merged(s: Skill, name: string, triggers: string, tier: string): Skill {
    Skill(if s.name == "" then name else s.name, s.description, s.version,
          if triggers == "" then s.triggers else Items(Split(triggers, ',')),
          if tier == "" then s.tier else tier, s.body)
  }

  /** The text of a printed file, written out. */
  ghost function FileText(name: string, description: string, version: string, triggers: seq<string>, tier: string,
                         source: string, body: string): string
  {
    "---\nname: " + name + "\n"
    + (if description == "" then "" else "description: " + description + "\n")
    + (if version == "" then "" else "version: " + version + "\n")
    + (if triggers == [] then "" else "triggers: [" + Join(triggers, ", ") + "]\n")
    + (if tier == "" then "" else "tier: " + tier + "\n")
    + (if source == "" then "" else "source: " + source + "\n")
    + "---\n\n" + body + "\n"
  }

  lemma RenderIsText(r: Skill, source: string)
    ensures Render(r, source) == FileText(r.name, r.description, r.version, r.triggers, r.tier, source, r.body)
  {
    hide Unlines, Join, Line, LineFor, Opened;
    var list := Join(r.triggers, ", ");
    var h1 := [] + [Line(NameKey, r.name)];
    var h2 := h1 + LineFor(DescriptionKey, r.description);
    var h3 := h2 + LineFor(VersionKey, r.version);
    var h4 := h3 + LineFor(TriggersKey, Bracketed(r.triggers));
    var h5 := h4 + LineFor(TierKey, r.tier);
    NameWritten(r.name);
    ValueWritten(h1, DescriptionKey, r.description, "description: " + r.description + "\n");
    ValueWritten(h2, VersionKey, r.version, "version: " + r.version + "\n");
    ValueWritten(h3, TriggersKey, Bracketed(r.triggers), "triggers: [" + list + "]\n");
    ValueWritten(h4, TierKey, r.tier, "tier: " + r.tier + "\n");
    ValueWritten(h5, SourceKey, source, "source: " + source + "\n");
    EndWritten(h5 + LineFor(SourceKey, source));
    assert [Line(NameKey, r.name)] == h1;
  }

  lemma NameWritten(name: string)
    ensures Opened([] + [Line(NameKey, name)]) == "---\nname: " + name + "\n"
  {
    hide Opened;
    LineWritten([], Line(NameKey, name));
    FenceWritten();
    assert "---\n" + ("name: " + name + "\n") == "---\nname: " + name + "\n";
  }

  lemma ValueWritten(h: seq<string>, f: Field, value: string, text: string)
    requires value != "" ==> text == KeyName(f) + ": " + value + "\n"
    ensures Opened(h + LineFor(f, value)) == Opened(h) + (if value == "" then "" else text)
  {
    hide Opened;
    LineForWritten(h, f, value);
    assert Opened(h) + "" == Opened(h);
  }

  function Opened(h: seq<string>): string {
    Unlines(["---"] + h)
  }

  lemma LineWritten(h: seq<string>, line: string)
    ensures Opened(h + [line]) == Opened(h) + (line + "\n")
  {
    Regroup(["---"], h, [line], []);
    UnlinesConcat(["---"] + h, [line]);
    assert [line][1..] == [];
    assert line + "\n" + "" == line + "\n";
  }

  lemma LineForWritten(h: seq<string>, f: Field, value: string)
    ensures Opened(h + LineFor(f, value)) == if value == "" then Opened(h) else Opened(h) + (Line(f, value) + "\n")
  {
    hide Opened, Line;
    if value == "" {
      assert h + [] == h;
    } else {
      LineWritten(h, Line(f, value));
    }
  }

  method BuildEnriched(content: string, name: string, triggers: string, tier: string, source: string)
    returns (out: string)
    ensures out == Render(Merged(Parsed(content), name, triggers, tier), source)
    ensures
      var s := Parsed(content);
      out == FileText(if s.name == "" then name else s.name, s.description, s.version,
                     if triggers == "" then s.triggers else Items(Split(triggers, ',')),
                     if tier == "" then s.tier else tier, source, s.body)
  {
    hide Parsed, Items, Split, Unlines, Join, FileText;
    var r := ParseFrontmatter(content);
    if r.name == "" {
      r := r.(name := name);
    }
    if triggers != "" {
      var items := ListItems(triggers);
      r := r.(triggers := items);
    }
    if tier != "" {
      r := r.(tier := tier);
    }
    out := Print(r, source);
  }

  method Print(r: Skill, source: string) returns (fm: string)
    ensures fm == Render(r, source)
    ensures fm == FileText(r.name, r.description, r.version, r.triggers, r.tier, source, r.body)
  {
    hide Unlines, Join, Line, LineFor, Opened, FileText;
    RenderIsText(r, source);
    FenceWritten();
    fm := "---\n";
    ghost var h := [Line(NameKey, r.name)];
    fm := fm + (Line(NameKey, r.name) + "\n");
    LineWritten([], Line(NameKey, r.name));
    assert [] + h == h;
    LineForWritten(h, DescriptionKey, r.description);
    h := h + LineFor(DescriptionKey, r.description);
    if r.description != "" {
      fm := fm + (Line(DescriptionKey, r.description) + "\n");
    }
    LineForWritten(h, VersionKey, r.version);
    h := h + LineFor(VersionKey, r.version);
    if r.version != "" {
      fm := fm + (Line(VersionKey, r.version) + "\n");
    }
    LineForWritten(h, TriggersKey, Bracketed(r.triggers));
    h := h + LineFor(TriggersKey, Bracketed(r.triggers));
    if |r.triggers| > 0 {
      fm := fm + (Line(TriggersKey, "[" + Join(r.triggers, ", ") + "]") + "\n");
    }
    LineForWritten(h, TierKey, r.tier);
    h := h + LineFor(TierKey, r.tier);
    if r.tier != "" {
      fm := fm + (Line(TierKey, r.tier) + "\n");
    }
    LineForWritten(h, SourceKey, source);
    h := h + LineFor(SourceKey, source);
    if source != "" {
      fm := fm + (Line(SourceKey, source) + "\n");
    }
    EndWritten(h);
    fm := fm + "---\n\n";
    fm := fm + r.body;
    fm := fm + "\n";
  }

  lemma FenceWritten()
    ensures Opened([]) == "---\n"
  {
    assert ["---"] + [] == ["---"] && ["---"][1..] == [];
  }

  lemma EndWritten(h: seq<string>)
    ensures Unlines(["---"] + h + ["---", ""]) == Opened(h) + "---\n\n"
  {
    UnlinesConcat(["---"] + h, ["---", ""]);
    assert ["---", ""][1..] == [""] && [""][1..] == [];
    assert Unlines([""]) == "\n";
  }
}
