/**
The stream accumulator: a state machine that turns interleaved text, thinking and tool
events into content blocks.

`Accumulator` keeps the three in-progress buffers and updates them event by event.  `Step`
is its transition function on an abstract state with one open run, and `Runs` is the
independent reference: it cuts the whole event list into runs and emits one block a run.
Strings stand for byte strings, one `char` a byte.
*/
module Accumulator {
  import opened Sequences

  const MAX_TOOL_RESULT_BYTES := 2048
  const MAX_THINKING_BYTES := 1024

  datatype StreamEvent =
    | Thinking(text: string)
    | TextDelta(text: string)
    | ToolUse(name: string)
    | ToolInput(tool: string, text: string)
    | ToolResult(toolID: string, text: string)
    | BlockStop
    | Other(kind: string)

  datatype Block =
    | TextBlock(text: string)
    | ThinkingBlock(text: string)
    | ToolUseBlock(name: string, input: string, toolID: string)
    | ToolResultBlock(toolID: string, output: string)

  function Truncated(s: string, limit: nat): (t: string)
    ensures |s| <= limit ==> t == s
    ensures |s| > limit ==> |t| == limit + 3 && s[..limit] <= t
  {
    if |s| > limit then s[..limit] + "..." else s
  }

  function ResultOf(id: string, output: string): Block {
    ToolResultBlock(id, Truncated(output, MAX_TOOL_RESULT_BYTES))
  }

  // ---------- The transition function

  /** The run in progress, if any. */
  datatype Open = Idle | OpenText(text: string) | OpenThinking(text: string) | OpenTool(name: string, input: string)

  datatype View = View(blocks: seq<Block>, open: Open)

  const START := View([], Idle)

  /** The block that the open run becomes when something other than its tool result ends it. */
  function Closed(open: Open): seq<Block> {
    match open
    case Idle => []
    case OpenText(t) => if t == "" then [] else [TextBlock(t)]
    case OpenThinking(t) => if t == "" then [] else [ThinkingBlock(Truncated(t, MAX_THINKING_BYTES))]
    case OpenTool(name, input) => [ToolUseBlock(name, input, "")]
  }

  /** The blocks that event `e` completes when `open` is in progress. */
  function Emitted(open: Open, e: StreamEvent): seq<Block> {
    match e
    case Thinking(_) => if open.OpenThinking? then [] else Closed(open)
    case TextDelta(_) => if open.OpenText? then [] else Closed(open)
    case ToolUse(_) => Closed(open)
    case ToolResult(id, t) =>
      if open.OpenTool? then [ToolUseBlock(open.name, open.input, id), ResultOf(id, t)] else [ResultOf(id, t)]
    case BlockStop => if open.OpenTool? then [] else Closed(open)
    case _ => []
  }

  /** The run in progress after event `e`. */
  function Next(open: Open, e: StreamEvent): Open {
    match e
    case Thinking(t) => if open.OpenThinking? then OpenThinking(open.text + t) else OpenThinking(t)
    case TextDelta(t) => if open.OpenText? then OpenText(open.text + t) else OpenText(t)
    case ToolUse(name) => if name == "" then Idle else OpenTool(name, "")
    case ToolInput(_, t) => if open.OpenTool? then OpenTool(open.name, open.input + t) else open
    case ToolResult(_, _) => if open.OpenTool? then Idle else open
    case BlockStop => if open.OpenTool? then open else Idle
    case Other(_) => open
  }

  function Step(v: View, e: StreamEvent): View {
    View(v.blocks + Emitted(v.open, e), Next(v.open, e))
  }

  function Fold(v: View, es: seq<StreamEvent>): View {
    if es == [] then v else Step(Fold(v, es[..|es| - 1]), es[|es| - 1])
  }

  /** What `Blocks` reports. */
  function Flushed(v: View): seq<Block> {
    v.blocks + Closed(v.open)
  }

  /** The blocks of a whole stream: feed every event to a new accumulator, then flush it. */
  function BlocksOf(es: seq<StreamEvent>): seq<Block> {
    Flushed(Fold(START, es))
  }

  /** All blocks that `es` adds, flush included, when `open` is in progress. */
  function Emits(open: Open, es: seq<StreamEvent>): seq<Block>
    decreases |es|
  {
    if es == [] then Closed(open) else Emitted(open, es[0]) + Emits(Next(open, es[0]), es[1..])
  }

  lemma {:induction false} FoldFirst(v: View, es: seq<StreamEvent>)
    requires es != []
    ensures Fold(v, es) == Fold(Step(v, es[0]), es[1..])
  {
    if |es| == 1 {
      assert es[..0] == [] && es[1..] == [];
    } else {
      var prefix := es[..|es| - 1];
      FoldFirst(v, prefix);
      assert prefix[1..] == es[1..][..|es[1..]| - 1];
    }
  }

  lemma {:induction false} FlushedEmits(blocks: seq<Block>, open: Open, es: seq<StreamEvent>)
    ensures Flushed(Fold(View(blocks, open), es)) == blocks + Emits(open, es)
    decreases |es|
  {
    hide Emitted, Next, Closed;
    if es != [] {
      FoldFirst(View(blocks, open), es);
      FlushedEmits(blocks + Emitted(open, es[0]), Next(open, es[0]), es[1..]);
    }
  }

  // ---------- The object

  class Accumulator {
    var blocks: seq<Block>
    var curText: string
    var curThinking: string
    var curToolName: string
    var curToolID: string
    var curToolInput: string
    var inThinking: bool
    var inText: bool

    /** At most one run is open, a buffer is empty when its run is not open, and an open tool has no ID yet. */
    ghost predicate Valid()
      reads this
    {
      && !(inText && inThinking)
      && (curToolName != "" ==> !inText && !inThinking && curToolID == "")
      && (!inText ==> curText == "")
      && (!inThinking ==> curThinking == "")
    }

    ghost function State(): View
      reads this
      requires Valid()
    {
      View(blocks,
           if inText then OpenText(curText)
           else if inThinking then OpenThinking(curThinking)
           else if curToolName != "" then OpenTool(curToolName, curToolInput)
           else Idle)
    }

    constructor ()
      ensures Valid() && State() == START
    {
      blocks, curText, curThinking := [], "", "";
      curToolName, curToolID, curToolInput := "", "", "";
      inThinking, inText := false, false;
    }

    method ProcessEvent(event: StreamEvent)
      requires Valid()
      modifies this
      ensures Valid()
      ensures State() == Step(old(State()), event)
    {
      match event
      case Thinking(text) =>
        OnThinking(text);
      case TextDelta(text) =>
        if inThinking {
          FlushThinking();
        }
        FlushTool();
        if !inText {
          inText := true;
          assert curText + text == text;
        }
        curText := curText + text;
      case ToolUse(name) =>
        FlushThinking();
        FlushText();
        FlushTool();
        curToolName := name;
        curToolID := "";
        curToolInput := "";
      case ToolInput(_, text) =>
        curToolInput := curToolInput + text;
      case ToolResult(toolID, text) =>
        OnToolResult(toolID, text);
      case BlockStop =>
        FlushThinking();
        FlushText();
      case Other(_) =>
    }

    /** A piece of a thought, or, without text, the start of one. */
    method OnThinking(text: string)
      requires Valid()
      modifies this
      ensures Valid()
      ensures State() == Step(old(State()), Thinking(text))
    {
      if text != "" {
        if !inThinking {
          FlushText();
          FlushTool();
          inThinking := true;
          assert curThinking + text == text;
        }
        curThinking := curThinking + text;
      } else {
        FlushText();
        FlushTool();
        inThinking := true;
        assert curThinking + text == curThinking;
      }
    }

    /** Completes the open tool run, if any, and adds the result. */
    method OnToolResult(toolID: string, text: string)
      requires Valid()
      modifies this`blocks, this`curToolName, this`curToolID, this`curToolInput
      ensures Valid()
      ensures State() == Step(old(State()), ToolResult(toolID, text))
      ensures blocks == old(blocks) +
                        (if old(curToolName) == "" then []
                         else [ToolUseBlock(old(curToolName), old(curToolInput), toolID)]) +
                        [ToolResultBlock(toolID, if |text| <= 2048 then text else text[..2048] + "...")]
    {
      if curToolName != "" {
        if curToolID == "" {
          curToolID := toolID;
        }
        blocks := blocks + [ToolUseBlock(curToolName, curToolInput, curToolID)];
        curToolName := "";
        curToolInput := "";
      }
      var output := text;
      if |output| > MAX_TOOL_RESULT_BYTES {
        output := output[..MAX_TOOL_RESULT_BYTES] + "...";
      }
      blocks := blocks + [ToolResultBlock(toolID, output)];
    }

    method FlushThinking()
      requires Valid()
      modifies this`blocks, this`curThinking, this`inThinking
      ensures Valid() && !inThinking
      ensures State() == if old(inThinking) then View(old(Flushed(State())), Idle) else old(State())
      ensures blocks == old(blocks) +
                        if !old(inThinking) || old(curThinking) == "" then []
                        else if |old(curThinking)| <= 1024 then [ThinkingBlock(old(curThinking))]
                        else [ThinkingBlock(old(curThinking)[..1024] + "...")]
    {
      if !inThinking {
        return;
      }
      var text := curThinking;
      if text != "" {
        if |text| > MAX_THINKING_BYTES {
          text := text[..MAX_THINKING_BYTES] + "...";
        }
        blocks := blocks + [ThinkingBlock(text)];
      }
      curThinking := "";
      inThinking := false;
    }

    method FlushText()
      requires Valid()
      modifies this`blocks, this`curText, this`inText
      ensures Valid() && !inText
      ensures State() == if old(inText) then View(old(Flushed(State())), Idle) else old(State())
      ensures blocks == old(blocks) + if old(inText) && old(curText) != "" then [TextBlock(old(curText))] else []
    {
      if !inText {
        return;
      }
      var text := curText;
      if text != "" {
        blocks := blocks + [TextBlock(text)];
      }
      curText := "";
      inText := false;
    }

    method FlushTool()
      requires Valid()
      modifies this`blocks, this`curToolName, this`curToolInput
      ensures Valid() && curToolName == ""
      ensures State() == if old(curToolName) != "" then View(old(Flushed(State())), Idle) else old(State())
      ensures blocks == old(blocks) +
                        if old(curToolName) == "" then []
                        else [ToolUseBlock(old(curToolName), old(curToolInput), "")]
    {
      if curToolName != "" {
        blocks := blocks + [ToolUseBlock(curToolName, curToolInput, curToolID)];
        curToolName := "";
        curToolInput := "";
      }
    }

    /**
    Flushes what is pending and returns a copy: calling it again reports the same, and writing
    to the copy changes nothing here.
    */
    method Blocks() returns (result: array<Block>)
      requires Valid()
      modifies this
      ensures Valid() && State() == View(old(Flushed(State())), Idle)
      ensures fresh(result) && result[..] == old(Flushed(State())) == Flushed(State())
      ensures result[..] == old(blocks) + old(
                if inThinking then RunBlock(ThinkingRun, curThinking)
                else if inText then RunBlock(TextRun, curText)
                else if curToolName != "" then [ToolUseBlock(curToolName, curToolInput, "")]
                else [])
    {
      FlushThinking();
      FlushText();
      FlushTool();
      result := new Block[|blocks|](i requires 0 <= i < |blocks| reads this => blocks[i]);
      assert result[..] == blocks;
    }
  }

  // ---------- The reference: cut the event list into runs

  predicate EndsText(e: StreamEvent) {
    e.Thinking? || e.ToolUse? || e.BlockStop?
  }

  predicate EndsThinking(e: StreamEvent) {
    e.TextDelta? || e.ToolUse? || e.BlockStop?
  }

  predicate EndsTool(e: StreamEvent) {
    e.TextDelta? || e.Thinking? || e.ToolUse? || e.ToolResult?
  }

  datatype Kind = TextRun | ThinkingRun | ToolRun

  predicate Ends(k: Kind, e: StreamEvent) {
    match k
    case TextRun => EndsText(e)
    case ThinkingRun => EndsThinking(e)
    case ToolRun => EndsTool(e)
  }

  /** The number of leading events that belong to a run of kind `k`. */
  function RunLength(k: Kind, es: seq<StreamEvent>): (n: nat)
    ensures n <= |es|
    ensures forall i | 0 <= i < n :: !Ends(k, es[i])
    ensures n < |es| ==> Ends(k, es[n])
  {
    if es == [] || Ends(k, es[0]) then 0 else 1 + RunLength(k, es[1..])
  }

  predicate Feeds(k: Kind, e: StreamEvent) {
    match k
    case TextRun => e.TextDelta?
    case ThinkingRun => e.Thinking?
    case ToolRun => e.ToolInput?
  }

  /** The payloads of the events that feed a run of kind `k`, concatenated. */
  function Payload(k: Kind, es: seq<StreamEvent>): string {
    if es == [] then "" else (if Feeds(k, es[0]) then es[0].text else "") + Payload(k, es[1..])
  }

  /** The block of a tool result: at most 2048 bytes of it, and a mark if there were more. */
  function ResultBlock(id: string, output: string): Block {
    ToolResultBlock(id, if |output| <= 2048 then output else output[..2048] + "...")
  }

  /** The block of an event that is a tool result. */
  function Lone(e: StreamEvent): seq<Block> {
    if e.ToolResult? then [ResultBlock(e.toolID, e.text)] else []
  }

  /** The block of a text or thinking run: its whole payload, or 1024 bytes of a longer thought and a mark. */
  function RunBlock(k: Kind, payload: string): seq<Block>
    requires !k.ToolRun?
  {
    if payload == "" then []
    else if k.TextRun? then [TextBlock(payload)]
    else [ThinkingBlock(if |payload| <= 1024 then payload else payload[..1024] + "...")]
  }

  /** The result blocks of the tool results in `es`. */
  function Results(es: seq<StreamEvent>): seq<Block> {
    if es == [] then [] else Lone(es[0]) + Results(es[1..])
  }

  /** The ID that a tool run gets from the result that ends it. */
  function ResultID(es: seq<StreamEvent>): string {
    if es != [] && es[0].ToolResult? then es[0].toolID else ""
  }

  function OpenRun(k: Kind, name: string, s: string): Open {
    match k
    case TextRun => OpenText(s)
    case ThinkingRun => OpenThinking(s)
    case ToolRun => OpenTool(name, s)
  }

  predicate IsTextual(e: StreamEvent) {
    e.TextDelta? || e.Thinking?
  }

  function KindOf(e: StreamEvent): (k: Kind)
    requires IsTextual(e)
    ensures Feeds(k, e) && !Ends(k, e) && !k.ToolRun?
  {
    if e.TextDelta? then TextRun else ThinkingRun
  }

  predicate BeginsTool(e: StreamEvent) {
    e.ToolUse? && e.name != ""
  }

  /**
  The reference: each text or thinking run becomes one block, after the results that came in
  while it was open; each named tool run becomes one block carrying the ID of the result
  that ends it; results outside a run stand for themselves.
  */
  function Runs(es: seq<StreamEvent>): seq<Block>
    decreases |es|
  {
    if es == [] then []
    else if IsTextual(es[0]) then
      var k, n := KindOf(es[0]), RunLength(KindOf(es[0]), es);
      Results(es[..n]) + RunBlock(k, Payload(k, es[..n])) + Runs(es[n..])
    else if BeginsTool(es[0]) then
      var n := RunLength(ToolRun, es[1..]);
      [ToolUseBlock(es[0].name, Payload(ToolRun, es[1..][..n]), ResultID(es[1..][n..]))] + Runs(es[1..][n..])
    else
      Lone(es[0]) + Runs(es[1..])
  }

  /** Inside a run only its payload grows, and results pass by. */
  lemma {:induction false} EmitsRun(k: Kind, name: string, s: string, run: seq<StreamEvent>, rest: seq<StreamEvent>)
    requires forall i | 0 <= i < |run| :: !Ends(k, run[i])
    ensures Emits(OpenRun(k, name, s), run + rest)
         == Results(run) + Emits(OpenRun(k, name, s + Payload(k, run)), rest)
    decreases |run|
  {
    hide Emits, Emitted, Next, Ends, Closed, Results, Payload, OpenRun;
    RunParts(k, s, run);
    if run == [] {
      assert run + rest == rest;
    } else {
      var e := run[0];
      var s' := if Feeds(k, e) then s + e.text else s;
      var more := run[1..] + rest;
      assert run + rest == [e] + more;
      EmitsCons(OpenRun(k, name, s), e, more);
      EventInRun(k, name, s, e);
      EmitsRun(k, name, s', run[1..], rest);
    }
  }

  lemma EmitsCons(open: Open, e: StreamEvent, rest: seq<StreamEvent>)
    ensures Emits(open, [e] + rest) == Emitted(open, e) + Emits(Next(open, e), rest)
  {
    assert ([e] + rest)[1..] == rest;
  }

  /** The payload and the results of a run, by its first event. */
  lemma RunParts(k: Kind, s: string, run: seq<StreamEvent>)
    ensures run == [] ==> s + Payload(k, run) == s && Results(run) == []
    ensures run != [] ==> Results(run) == Lone(run[0]) + Results(run[1..])
    ensures run != [] ==>
              s + Payload(k, run) == (if Feeds(k, run[0]) then s + run[0].text else s) + Payload(k, run[1..])
  {
    if run != [] && Feeds(k, run[0]) {
      assert s + (run[0].text + Payload(k, run[1..])) == (s + run[0].text) + Payload(k, run[1..]);
    } else if run != [] {
      assert "" + Payload(k, run[1..]) == Payload(k, run[1..]);
    } else {
      assert s + "" == s;
    }
  }

  lemma EventInRun(k: Kind, name: string, s: string, e: StreamEvent)
    requires !Ends(k, e)
    ensures Emitted(OpenRun(k, name, s), e) == Lone(e)
    ensures Next(OpenRun(k, name, s), e) == OpenRun(k, name, if Feeds(k, e) then s + e.text else s)
  {
  }

  lemma {:induction false} NoResultInToolRun(es: seq<StreamEvent>)
    requires forall i | 0 <= i < |es| :: !EndsTool(es[i])
    ensures Results(es) == []
  {
    if es != [] {
      NoResultInToolRun(es[1..]);
    }
  }

  /** An event that ends a run does what it would do after the run had been closed. */
  lemma EventEndsRun(k: Kind, name: string, s: string, e: StreamEvent)
    requires Ends(k, e)
    ensures
      var closed := if k == ToolRun then [ToolUseBlock(name, s, ResultID([e]))] else Closed(OpenRun(k, name, s));
      Emitted(OpenRun(k, name, s), e) == closed + Emitted(Idle, e)
    ensures Next(OpenRun(k, name, s), e) == Next(Idle, e)
  {
  }

  lemma EmitsEnd(k: Kind, name: string, s: string, es: seq<StreamEvent>)
    requires es != [] ==> Ends(k, es[0])
    ensures
      var closed := if k == ToolRun then [ToolUseBlock(name, s, ResultID(es))] else Closed(OpenRun(k, name, s));
      Emits(OpenRun(k, name, s), es) == closed + Emits(Idle, es)
  {
    var closed := if k == ToolRun then [ToolUseBlock(name, s, ResultID(es))] else Closed(OpenRun(k, name, s));
    if es == [] {
      assert Emits(OpenRun(k, name, s), es) == closed;
    } else {
      EventEndsRun(k, name, s, es[0]);
      var rest := Emits(Next(Idle, es[0]), es[1..]);
      assert Emits(OpenRun(k, name, s), es) == (closed + Emitted(Idle, es[0])) + rest;
      assert Emits(Idle, es) == Emitted(Idle, es[0]) + rest;
    }
  }

  /** A run that begins with an event of its kind: its payload and results, given by the event and what follows. */
  lemma FirstOfRun(k: Kind, run: seq<StreamEvent>)
    requires run != [] && Feeds(k, run[0])
    ensures Payload(k, run) == run[0].text + Payload(k, run[1..])
    ensures Results(run) == Results(run[1..])
  {
  }

  lemma FirstFromIdle(es: seq<StreamEvent>)
    requires es != [] && IsTextual(es[0])
    ensures Emits(Idle, es) == Emits(OpenRun(KindOf(es[0]), "", es[0].text), es[1..])
  {
  }

  lemma EmitsTextual(es: seq<StreamEvent>)
    requires es != [] && IsTextual(es[0])
    ensures
      var k, n := KindOf(es[0]), RunLength(KindOf(es[0]), es);
      Emits(Idle, es) == Results(es[..n]) + RunBlock(k, Payload(k, es[..n])) + Emits(Idle, es[n..])
  {
    hide Emits, Closed, Payload, Results;
    var k, n := KindOf(es[0]), RunLength(KindOf(es[0]), es);
    var run, mid, rest := es[..n], es[1..n], es[n..];
    assert run[1..] == mid && es[1..] == mid + rest;
    EmitsRun(k, "", es[0].text, mid, rest);
    FirstOfRun(k, run);
    EmitsEnd(k, "", Payload(k, run), rest);
    FirstFromIdle(es);
    ClosedIsRunBlock(k, Payload(k, run));
  }

  lemma ClosedIsRunBlock(k: Kind, payload: string)
    requires !k.ToolRun?
    ensures Closed(OpenRun(k, "", payload)) == RunBlock(k, payload)
  {
  }

  lemma EmitsTool(es: seq<StreamEvent>)
    requires es != [] && BeginsTool(es[0])
    ensures
      var n := RunLength(ToolRun, es[1..]);
      var rest := es[1..][n..];
      Emits(Idle, es)
      == [ToolUseBlock(es[0].name, Payload(ToolRun, es[1..][..n]), ResultID(rest))] + Emits(Idle, rest)
  {
    var n := RunLength(ToolRun, es[1..]);
    var run, rest := es[1..][..n], es[1..][n..];
    assert es[1..] == run + rest;
    EmitsRun(ToolRun, es[0].name, "", run, rest);
    NoResultInToolRun(run);
    assert "" + Payload(ToolRun, run) == Payload(ToolRun, run);
    EmitsEnd(ToolRun, es[0].name, Payload(ToolRun, run), rest);
    assert Emits(Idle, es) == Emits(OpenRun(ToolRun, es[0].name, ""), run + rest);
  }

  lemma {:induction false} EmitsAreRuns(es: seq<StreamEvent>)
    ensures Emits(Idle, es) == Runs(es)
    decreases |es|
  {
    if es != [] {
      if IsTextual(es[0]) {
        EmitsTextual(es);
        EmitsAreRuns(es[RunLength(KindOf(es[0]), es)..]);
      } else if BeginsTool(es[0]) {
        EmitsTool(es);
        EmitsAreRuns(es[1..][RunLength(ToolRun, es[1..])..]);
      } else {
        EmitsAreRuns(es[1..]);
      }
    }
  }

  /** The state machine refines the reference on every event sequence. */
  lemma BlocksAreRuns(es: seq<StreamEvent>)
    ensures BlocksOf(es) == Runs(es)
  {
    FlushedEmits([], Idle, es);
    EmitsAreRuns(es);
  }

  // ---------- What lies between two events

  lemma EmitsThree(a: StreamEvent, b: StreamEvent, c: StreamEvent)
    ensures
      var o1 := Next(Idle, a);
      var o2 := Next(o1, b);
      BlocksOf([a, b, c]) == Emitted(Idle, a) + Emitted(o1, b) + Emitted(o2, c) + Closed(Next(o2, c))
  {
    hide Emitted, Next, Closed;
    var es := [a, b, c];
    FlushedEmits([], Idle, es);
    var o1 := Next(Idle, a);
    var o2 := Next(o1, b);
    EmitsCons(Idle, a, [b, c]);
    EmitsCons(o1, b, [c]);
    EmitsCons(o2, c, []);
    assert es == [a] + [b, c] && [b, c] == [b] + [c] && [c] == [c] + [];
    assert Emits(Next(o2, c), []) == Closed(Next(o2, c));
  }

  /** What becomes of two pieces of text, by the event that comes between them. */
  lemma BetweenTexts(a: string, e: StreamEvent, b: string)
    requires a != "" && b != ""
    ensures
      BlocksOf([TextDelta(a), e, TextDelta(b)]) ==
      match e
      case TextDelta(t) => [TextBlock(a + t + b)]
      case Thinking(t) =>
        if t == "" then [TextBlock(a), TextBlock(b)]
        else if |t| <= 1024 then [TextBlock(a), ThinkingBlock(t), TextBlock(b)]
        else [TextBlock(a), ThinkingBlock(t[..1024] + "..."), TextBlock(b)]
      case ToolUse(name) =>
        if name == "" then [TextBlock(a), TextBlock(b)] else [TextBlock(a), ToolUseBlock(name, "", ""), TextBlock(b)]
      case ToolResult(id, output) => [ResultBlock(id, output), TextBlock(a + b)]
      case BlockStop => [TextBlock(a), TextBlock(b)]
      case _ => [TextBlock(a + b)]
  {
    EmitsThree(TextDelta(a), e, TextDelta(b));
  }

  /** The same for two thoughts that are short enough together to be kept whole. */
  lemma BetweenThoughts(a: string, e: StreamEvent, b: string)
    requires a != "" && b != "" && |a| + |b| <= 1024
    ensures
      BlocksOf([Thinking(a), e, Thinking(b)]) ==
      match e
      case Thinking(t) =>
        if |a + t + b| <= 1024 then [ThinkingBlock(a + t + b)] else [ThinkingBlock((a + t + b)[..1024] + "...")]
      case TextDelta(t) =>
        if t == "" then [ThinkingBlock(a), ThinkingBlock(b)] else [ThinkingBlock(a), TextBlock(t), ThinkingBlock(b)]
      case ToolUse(name) =>
        if name == "" then [ThinkingBlock(a), ThinkingBlock(b)]
        else [ThinkingBlock(a), ToolUseBlock(name, "", ""), ThinkingBlock(b)]
      case ToolResult(id, output) => [ResultBlock(id, output), ThinkingBlock(a + b)]
      case BlockStop => [ThinkingBlock(a), ThinkingBlock(b)]
      case _ => [ThinkingBlock(a + b)]
  {
    EmitsThree(Thinking(a), e, Thinking(b));
  }

  /** What becomes of a tool call and a result, by the event that comes between them. */
  lemma BetweenToolAndResult(name: string, e: StreamEvent, id: string, output: string)
    requires name != ""
    ensures
      var result := ResultBlock(id, output);
      var lost := ToolUseBlock(name, "", "");
      BlocksOf([ToolUse(name), e, ToolResult(id, output)]) ==
      match e
      case ToolInput(_, t) => [ToolUseBlock(name, t, id), result]
      case ToolUse(other) => if other == "" then [lost, result] else [lost, ToolUseBlock(other, "", id), result]
      case ToolResult(i, o) => [ToolUseBlock(name, "", i), ResultBlock(i, o), result]
      case TextDelta(t) => if t == "" then [lost, result] else [lost, result, TextBlock(t)]
      case Thinking(t) =>
        if t == "" then [lost, result]
        else if |t| <= 1024 then [lost, result, ThinkingBlock(t)]
        else [lost, result, ThinkingBlock(t[..1024] + "...")]
      case _ => [ToolUseBlock(name, "", id), result]
  {
    EmitsThree(ToolUse(name), e, ToolResult(id, output));
    assert e.ToolInput? ==> "" + e.text == e.text;
  }

  /** A single event. */
  lemma OneEvent(e: StreamEvent)
    ensures
      BlocksOf([e]) ==
      match e
      case Thinking(t) =>
        if t == "" then []
        else if |t| <= 1024 then [ThinkingBlock(t)]
        else [ThinkingBlock(t[..1024] + "...")]
      case TextDelta(t) => if t == "" then [] else [TextBlock(t)]
      case ToolUse(name) => if name == "" then [] else [ToolUseBlock(name, "", "")]
      case ToolResult(id, output) => [ResultBlock(id, output)]
      case _ => []
  {
    FlushedEmits([], Idle, [e]);
    EmitsCons(Idle, e, []);
    assert [e] == [e] + [];
  }

  // ---------- Conservation

  /** The text of all text blocks, concatenated. */
  function TextIn(bs: seq<Block>): string {
    if bs == [] then "" else (if bs[0].TextBlock? then bs[0].text else "") + TextIn(bs[1..])
  }

  function CountToolUse(bs: seq<Block>): nat {
    if bs == [] then 0 else (if bs[0].ToolUseBlock? then 1 else 0) + CountToolUse(bs[1..])
  }

  function CountNamed(es: seq<StreamEvent>): nat {
    if es == [] then 0 else (if es[0].ToolUse? && es[0].name != "" then 1 else 0) + CountNamed(es[1..])
  }

  /** The result blocks, in order. */
  function ResultsIn(bs: seq<Block>): seq<Block> {
    if bs == [] then [] else (if bs[0].ToolResultBlock? then [bs[0]] else []) + ResultsIn(bs[1..])
  }

  lemma {:induction false} TextInAppend(a: seq<Block>, b: seq<Block>)
    ensures TextIn(a + b) == TextIn(a) + TextIn(b)
  {
    if a == [] {
      assert a + b == b;
    } else {
      var head := if a[0].TextBlock? then a[0].text else "";
      assert (a + b)[1..] == a[1..] + b;
      TextInAppend(a[1..], b);
      assert head + (TextIn(a[1..]) + TextIn(b)) == (head + TextIn(a[1..])) + TextIn(b);
    }
  }

  lemma {:induction false} CountToolUseAppend(a: seq<Block>, b: seq<Block>)
    ensures CountToolUse(a + b) == CountToolUse(a) + CountToolUse(b)
  {
    if a == [] {
      assert a + b == b;
    } else {
      assert (a + b)[1..] == a[1..] + b;
      CountToolUseAppend(a[1..], b);
    }
  }

  lemma {:induction false} ResultsInAppend(a: seq<Block>, b: seq<Block>)
    ensures ResultsIn(a + b) == ResultsIn(a) + ResultsIn(b)
  {
    if a == [] {
      assert a + b == b;
    } else {
      var head := if a[0].ToolResultBlock? then [a[0]] else [];
      assert (a + b)[1..] == a[1..] + b;
      ResultsInAppend(a[1..], b);
      assert head + (ResultsIn(a[1..]) + ResultsIn(b)) == (head + ResultsIn(a[1..])) + ResultsIn(b);
    }
  }

  lemma MeasuresAppend(a: seq<Block>, b: seq<Block>)
    ensures TextIn(a + b) == TextIn(a) + TextIn(b)
    ensures CountToolUse(a + b) == CountToolUse(a) + CountToolUse(b)
    ensures ResultsIn(a + b) == ResultsIn(a) + ResultsIn(b)
  {
    hide TextIn, CountToolUse, ResultsIn;
    TextInAppend(a, b);
    CountToolUseAppend(a, b);
    ResultsInAppend(a, b);
  }

  lemma MeasuresOne(b: Block)
    ensures TextIn([b]) == (if b.TextBlock? then b.text else "")
    ensures CountToolUse([b]) == (if b.ToolUseBlock? then 1 else 0)
    ensures ResultsIn([b]) == (if b.ToolResultBlock? then [b] else [])
  {
  }

  lemma MeasuresClosed(open: Open)
    ensures TextIn(Closed(open)) == (if open.OpenText? then open.text else "")
    ensures CountToolUse(Closed(open)) == (if open.OpenTool? then 1 else 0)
    ensures ResultsIn(Closed(open)) == []
  {
    if Closed(open) != [] {
      MeasuresOne(Closed(open)[0]);
    }
  }

  /** What an event completes and what it leaves open add up to what was open and what it brings. */
  lemma EventConserves(open: Open, e: StreamEvent)
    ensures
      var out, left := Emitted(open, e), Closed(Next(open, e));
      && TextIn(out) + TextIn(left) == TextIn(Closed(open)) + (if e.TextDelta? then e.text else "")
      && CountToolUse(out) + CountToolUse(left)
         == CountToolUse(Closed(open)) + (if e.ToolUse? && e.name != "" then 1 else 0)
      && ResultsIn(out) == Lone(e)
  {
    MeasuresClosed(open);
    MeasuresClosed(Next(open, e));
    if e.ToolResult? {
      MeasuresOne(ResultOf(e.toolID, e.text));
      if open.OpenTool? {
        var use := ToolUseBlock(open.name, open.input, e.toolID);
        MeasuresOne(use);
        MeasuresAppend([use], [ResultOf(e.toolID, e.text)]);
        assert Emitted(open, e) == [use] + [ResultOf(e.toolID, e.text)];
      }
    }
  }

  lemma {:induction false} EmitsConserveText(open: Open, es: seq<StreamEvent>)
    ensures TextIn(Emits(open, es)) == TextIn(Closed(open)) + Payload(TextRun, es)
    decreases |es|
  {
    if es == [] {
      assert Payload(TextRun, es) == "";
    } else {
      var out, next, tail := Emitted(open, es[0]), Next(open, es[0]), Payload(TextRun, es[1..]);
      EventConserves(open, es[0]);
      EmitsConserveText(next, es[1..]);
      MeasuresAppend(out, Emits(next, es[1..]));
      var brought := if es[0].TextDelta? then es[0].text else "";
      SameTail(TextIn(out), TextIn(Closed(next)), TextIn(Closed(open)), brought, tail);
    }
  }

  lemma {:induction false} EmitsConserveTools(open: Open, es: seq<StreamEvent>)
    ensures CountToolUse(Emits(open, es)) == CountToolUse(Closed(open)) + CountNamed(es)
    decreases |es|
  {
    if es != [] {
      EventConserves(open, es[0]);
      EmitsConserveTools(Next(open, es[0]), es[1..]);
      MeasuresAppend(Emitted(open, es[0]), Emits(Next(open, es[0]), es[1..]));
    }
  }

  lemma {:induction false} EmitsConserveResults(open: Open, es: seq<StreamEvent>)
    ensures ResultsIn(Emits(open, es)) == Results(es)
    decreases |es|
  {
    if es == [] {
      MeasuresClosed(open);
    } else {
      EventConserves(open, es[0]);
      EmitsConserveResults(Next(open, es[0]), es[1..]);
      MeasuresAppend(Emitted(open, es[0]), Emits(Next(open, es[0]), es[1..]));
    }
  }

  /** No text is lost, repeated or reordered: the text blocks concatenate to the text deltas. */
  lemma TextIsConserved(es: seq<StreamEvent>)
    ensures TextIn(BlocksOf(es)) == Payload(TextRun, es)
  {
    FlushedEmits([], Idle, es);
    EmitsConserveText(Idle, es);
    assert BlocksOf(es) == Emits(Idle, es);
  }

  /** One tool-use block for each named tool_use event, and exactly the tool results, in order and truncated. */
  lemma ToolsAreConserved(es: seq<StreamEvent>)
    ensures CountToolUse(BlocksOf(es)) == CountNamed(es)
    ensures ResultsIn(BlocksOf(es)) == Results(es)
  {
    FlushedEmits([], Idle, es);
    EmitsConserveTools(Idle, es);
    EmitsConserveResults(Idle, es);
    assert BlocksOf(es) == Emits(Idle, es);
  }

  // ---------- Tool pairing

  /** Each tool-use block has no ID or is followed at once by the result block that carries its ID. */
  ghost predicate Paired(bs: seq<Block>) {
    forall i | 0 <= i < |bs| && bs[i].ToolUseBlock? && bs[i].toolID != "" ::
      i + 1 < |bs| && bs[i + 1].ToolResultBlock? && bs[i + 1].toolID == bs[i].toolID
  }

  lemma {:induction false} EmitsPaired(open: Open, es: seq<StreamEvent>)
    ensures Paired(Emits(open, es))
    decreases |es|
  {
    if es != [] {
      hide Emitted, Next, Closed, Paired;
      EmitsPaired(Next(open, es[0]), es[1..]);
      EmittedPaired(open, es[0]);
      PairedAppend(Emitted(open, es[0]), Emits(Next(open, es[0]), es[1..]));
    }
  }

  lemma EmittedPaired(open: Open, e: StreamEvent)
    ensures Paired(Emitted(open, e))
  {
  }

  lemma PairedAppend(a: seq<Block>, b: seq<Block>)
    requires Paired(a) && Paired(b)
    ensures Paired(a + b)
  {
  }

  /**
  On every stream, whatever results it drops, repeats or misplaces, a tool use is paired with
  its result or has no ID.
  */
  lemma ToolUsesArePaired(es: seq<StreamEvent>)
    ensures Paired(BlocksOf(es))
  {
    FlushedEmits([], Idle, es);
    EmitsPaired(Idle, es);
  }

  // ---------- Chunk boundaries

  /** `pieces` carries the payload of `e` in one or more consecutive pieces, empty ones included. */
  ghost predicate IsSplit(e: StreamEvent, pieces: seq<StreamEvent>) {
    || pieces == [e]
    || (pieces != [] && exists k: Kind ::
          Feeds(k, e) && (forall p | p in pieces :: Feeds(k, p)) && Payload(k, pieces) == e.text)
  }

  function Flatten(ess: seq<seq<StreamEvent>>): seq<StreamEvent> {
    if ess == [] then [] else ess[0] + Flatten(ess[1..])
  }

  /** Two consecutive pieces do what their concatenation does. */
  lemma TwoPieces(open: Open, k: Kind, p: StreamEvent, q: StreamEvent, e: StreamEvent)
    requires Feeds(k, p) && Feeds(k, q) && Feeds(k, e) && e.text == p.text + q.text
    ensures Next(Next(open, p), q) == Next(open, e)
    ensures Emitted(open, p) == Emitted(open, e) && Emitted(Next(open, p), q) == []
  {
    if open != Idle {
      var before := match open case OpenText(t) => t case OpenThinking(t) => t case OpenTool(_, t) => t;
      assert before + e.text == (before + p.text) + q.text;
    }
  }

  function Piece(k: Kind, text: string): (e: StreamEvent)
    ensures Feeds(k, e) && e.text == text
  {
    match k
    case TextRun => TextDelta(text)
    case ThinkingRun => Thinking(text)
    case ToolRun => ToolInput("", text)
  }

  lemma SameText(open: Open, k: Kind, p: StreamEvent, e: StreamEvent)
    requires Feeds(k, p) && Feeds(k, e) && p.text == e.text
    ensures Next(open, p) == Next(open, e) && Emitted(open, p) == Emitted(open, e)
  {
  }

  lemma {:induction false} EmitsSplit(open: Open, k: Kind, e: StreamEvent, pieces: seq<StreamEvent>,
                                      rest: seq<StreamEvent>)
    requires Feeds(k, e) && pieces != [] && (forall p | p in pieces :: Feeds(k, p)) && Payload(k, pieces) == e.text
    ensures Emits(open, pieces + rest) == Emits(open, [e] + rest)
    decreases |pieces|
  {
    hide Emits, Emitted, Next, Piece;
    var p, more := pieces[0], pieces[1..];
    EmitsCons(open, e, rest);
    EmitsCons(open, p, more + rest);
    assert pieces + rest == [p] + (more + rest);
    if more == [] {
      assert Payload(k, more) == "" && p.text + "" == p.text;
      assert more + rest == rest;
      SameText(open, k, p, e);
    } else {
      var q := Piece(k, Payload(k, more));
      EmitsSplit(Next(open, p), k, q, more, rest);
      EmitsCons(Next(open, p), q, rest);
      TwoPieces(open, k, p, q, e);
    }
  }

  lemma {:induction false} EmitsChunked(open: Open, es: seq<StreamEvent>, ess: seq<seq<StreamEvent>>)
    requires |ess| == |es| && forall i | 0 <= i < |es| :: IsSplit(es[i], ess[i])
    ensures Emits(open, Flatten(ess)) == Emits(open, es)
    decreases |es|
  {
    if es != [] {
      var rest := Flatten(ess[1..]);
      assert IsSplit(es[0], ess[0]);
      if ess[0] != [es[0]] {
        var k: Kind :| Feeds(k, es[0]) && (forall p | p in ess[0] :: Feeds(k, p)) && Payload(k, ess[0]) == es[0].text;
        EmitsSplit(open, k, es[0], ess[0], rest);
      }
      assert ([es[0]] + rest)[1..] == rest;
      EmitsChunked(Next(open, es[0]), es[1..], ess[1..]);
    }
  }

  /**
  Where the provider cuts its payloads makes no difference, however many events are cut and into
  however many pieces.
  */
  lemma ChunkingIsInvisible(es: seq<StreamEvent>, ess: seq<seq<StreamEvent>>)
    requires |ess| == |es| && forall i | 0 <= i < |es| :: IsSplit(es[i], ess[i])
    ensures BlocksOf(Flatten(ess)) == BlocksOf(es)
  {
    FlushedEmits([], Idle, es);
    FlushedEmits([], Idle, Flatten(ess));
    EmitsChunked(Idle, es, ess);
  }

  // ---------- Block order

  /** The indices, from `now` on, of the tool results in `es`. */
  function ResultTimes(es: seq<StreamEvent>, now: nat): seq<nat> {
    if es == [] then [] else (if es[0].ToolResult? then [now] else []) + ResultTimes(es[1..], now + 1)
  }

  /** The birth of a run that begins at `now`, if it gives a block. */
  function OwnTime(payload: string, now: nat): seq<nat> {
    if payload == "" then [] else [now]
  }

  /** For each block of `Runs(es)`, the index of the first event of its run. */
  function Births(es: seq<StreamEvent>, now: nat): seq<nat>
    decreases |es|
  {
    if es == [] then []
    else if IsTextual(es[0]) then
      var k, n := KindOf(es[0]), RunLength(KindOf(es[0]), es);
      ResultTimes(es[..n], now) + OwnTime(Payload(k, es[..n]), now) + Births(es[n..], now + n)
    else if BeginsTool(es[0]) then
      var n := RunLength(ToolRun, es[1..]);
      [now] + Births(es[1..][n..], now + 1 + n)
    else
      ResultTimes([es[0]], now) + Births(es[1..], now + 1)
  }

  /** Some text or thinking run that is not empty has a tool result inside it. */
  predicate Interrupted(es: seq<StreamEvent>)
    decreases |es|
  {
    if es == [] then false
    else if IsTextual(es[0]) then
      var k, n := KindOf(es[0]), RunLength(KindOf(es[0]), es);
      (Results(es[..n]) != [] && Payload(k, es[..n]) != "") || Interrupted(es[n..])
    else
      Interrupted(es[1..])
  }

  ghost predicate Increasing(ns: seq<nat>) {
    forall i, j | 0 <= i < j < |ns| :: ns[i] < ns[j]
  }

  ghost predicate Within(ns: seq<nat>, lo: nat, hi: nat) {
    forall i | 0 <= i < |ns| :: lo <= ns[i] < hi
  }

  lemma {:induction false} ResultTimesIncrease(es: seq<StreamEvent>, now: nat)
    ensures Within(ResultTimes(es, now), now, now + |es|)
    ensures Increasing(ResultTimes(es, now))
    ensures |ResultTimes(es, now)| == |Results(es)|
  {
    if es != [] {
      ResultTimesIncrease(es[1..], now + 1);
      var own := if es[0].ToolResult? then [now] else [];
      JoinIncreasing(own, ResultTimes(es[1..], now + 1), now, now + 1, now + |es|);
    }
  }

  lemma JoinIncreasing(a: seq<nat>, b: seq<nat>, lo: nat, mid: nat, hi: nat)
    requires lo <= mid <= hi && Within(a, lo, mid) && Within(b, mid, hi)
    ensures Increasing(a + b) <==> Increasing(a) && Increasing(b)
    ensures Within(a + b, lo, hi)
  {
    if Increasing(a + b) {
      forall i, j | 0 <= i < j < |a| ensures a[i] < a[j] {
        assert (a + b)[i] < (a + b)[j];
      }
      forall i, j | 0 <= i < j < |b| ensures b[i] < b[j] {
        assert (a + b)[|a| + i] < (a + b)[|a| + j];
      }
    }
  }

  /** A tool run is not interrupted, so skipping it does not change the verdict. */
  lemma {:induction false} ToolRunNotInterrupted(es: seq<StreamEvent>, n: nat)
    requires n <= |es| && forall i | 0 <= i < n :: !EndsTool(es[i])
    ensures Interrupted(es) <==> Interrupted(es[n..])
  {
    if n > 0 {
      ToolRunNotInterrupted(es[1..], n - 1);
      assert es[1..][n - 1..] == es[n..];
    }
  }

  lemma FirstTimesOfRun(k: Kind, run: seq<StreamEvent>, now: nat)
    requires run != [] && Feeds(k, run[0])
    ensures ResultTimes(run, now) == ResultTimes(run[1..], now + 1)
  {
  }

  /** Within one text or thinking run, the births are in order unless it has both text and results. */
  lemma RunBirths(k: Kind, run: seq<StreamEvent>, now: nat)
    requires run != [] && Feeds(k, run[0])
    ensures
      var head := ResultTimes(run, now) + OwnTime(Payload(k, run), now);
      && Within(head, now, now + |run|)
      && (Increasing(head) <==> !(Results(run) != [] && Payload(k, run) != ""))
  {
    hide Payload, Results, OwnTime, Increasing, Within, ResultTimes;
    FirstOfRun(k, run);
    FirstTimesOfRun(k, run, now);
    ResultTimesIncrease(run[1..], now + 1);
    OwnTimeLast(ResultTimes(run[1..], now + 1), Payload(k, run), now, now + |run|);
  }

  lemma OwnTimeLast(times: seq<nat>, payload: string, now: nat, hi: nat)
    requires now < hi && Within(times, now + 1, hi) && Increasing(times)
    ensures Within(times + OwnTime(payload, now), now, hi)
    ensures Increasing(times + OwnTime(payload, now)) <==> times == [] || payload == ""
  {
    var head := times + OwnTime(payload, now);
    if times != [] && payload != "" {
      assert head[0] > head[|times|];
    }
  }

  lemma {:induction false} BirthsInOrder(es: seq<StreamEvent>, now: nat)
    ensures Within(Births(es, now), now, now + |es|)
    ensures Increasing(Births(es, now)) <==> !Interrupted(es)
    decreases |es|, 1
  {
    hide RunLength, Results, ResultTimes, Payload, OwnTime;
    if es != [] {
      if IsTextual(es[0]) {
        TextualBirthsInOrder(es, now);
      } else if BeginsTool(es[0]) {
        ToolBirthsInOrder(es, now);
      } else {
        OtherBirthsInOrder(es, now);
      }
    }
  }

  lemma UnfoldOther(es: seq<StreamEvent>, now: nat)
    requires es != [] && !IsTextual(es[0]) && !BeginsTool(es[0])
    ensures Births(es, now) == ResultTimes([es[0]], now) + Births(es[1..], now + 1)
    ensures Interrupted(es) == Interrupted(es[1..])
  {
    hide RunLength, Results, ResultTimes, Payload, OwnTime;
  }

  lemma {:induction false} OtherBirthsInOrder(es: seq<StreamEvent>, now: nat)
    requires es != [] && !IsTextual(es[0]) && !BeginsTool(es[0])
    ensures Within(Births(es, now), now, now + |es|)
    ensures Increasing(Births(es, now)) <==> !Interrupted(es)
    decreases |es|, 0
  {
    hide Births, Interrupted, Increasing, Within, ResultTimes, Results;
    BirthsInOrder(es[1..], now + 1);
    ResultTimesIncrease([es[0]], now);
    UnfoldOther(es, now);
    JoinVerdicts(ResultTimes([es[0]], now), Births(es[1..], now + 1), false, Interrupted(es[1..]),
                 now, now + 1, now + |es|);
  }

  /** Two consecutive pieces of a birth list are in order together exactly when neither has a verdict against it. */
  lemma JoinVerdicts(a: seq<nat>, b: seq<nat>, badA: bool, badB: bool, lo: nat, mid: nat, hi: nat)
    requires lo <= mid <= hi && Within(a, lo, mid) && Within(b, mid, hi)
    requires (Increasing(a) <==> !badA) && (Increasing(b) <==> !badB)
    ensures Within(a + b, lo, hi)
    ensures Increasing(a + b) <==> !(badA || badB)
  {
    JoinIncreasing(a, b, lo, mid, hi);
  }

  lemma UnfoldTextual(es: seq<StreamEvent>, now: nat)
    requires es != [] && IsTextual(es[0])
    ensures
      var k, n := KindOf(es[0]), RunLength(KindOf(es[0]), es);
      Births(es, now) == (ResultTimes(es[..n], now) + OwnTime(Payload(k, es[..n]), now)) + Births(es[n..], now + n)
    ensures
      var k, n := KindOf(es[0]), RunLength(KindOf(es[0]), es);
      Interrupted(es) == ((Results(es[..n]) != [] && Payload(k, es[..n]) != "") || Interrupted(es[n..]))
  {
  }

  lemma {:induction false} TextualBirthsInOrder(es: seq<StreamEvent>, now: nat)
    requires es != [] && IsTextual(es[0])
    ensures Within(Births(es, now), now, now + |es|)
    ensures Increasing(Births(es, now)) <==> !Interrupted(es)
    decreases |es|, 0
  {
    hide Births, Interrupted, Increasing, Within, ResultTimes, Payload, Results, OwnTime;
    var k, n := KindOf(es[0]), RunLength(KindOf(es[0]), es);
    var run, rest := es[..n], es[n..];
    var head := ResultTimes(run, now) + OwnTime(Payload(k, run), now);
    var bad := Results(run) != [] && Payload(k, run) != "";
    RunBirths(k, run, now);
    BirthsInOrder(rest, now + n);
    var tail, worse := Births(rest, now + n), Interrupted(rest);
    JoinVerdicts(head, tail, bad, worse, now, now + n, now + |es|);
    UnfoldTextual(es, now);
    assert Births(es, now) == head + tail;
    assert Interrupted(es) == (bad || worse);
  }

  lemma UnfoldTool(es: seq<StreamEvent>, now: nat)
    requires es != [] && BeginsTool(es[0])
    ensures
      var n := RunLength(ToolRun, es[1..]);
      Births(es, now) == [now] + Births(es[1..][n..], now + 1 + n)
    ensures Interrupted(es) == Interrupted(es[1..])
  {
    hide RunLength, Results, ResultTimes, Payload, OwnTime;
  }

  lemma OneBirth(now: nat, hi: nat)
    requires now < hi
    ensures Within([now], now, hi) && Increasing([now])
  {
  }

  lemma {:induction false} ToolBirthsInOrder(es: seq<StreamEvent>, now: nat)
    requires es != [] && BeginsTool(es[0])
    ensures Within(Births(es, now), now, now + |es|)
    ensures Increasing(Births(es, now)) <==> !Interrupted(es)
    decreases |es|, 0
  {
    hide Births, Interrupted, Increasing, Within;
    var n := RunLength(ToolRun, es[1..]);
    var rest := es[1..][n..];
    BirthsInOrder(rest, now + 1 + n);
    ToolRunNotInterrupted(es[1..], n);
    OneBirth(now, now + 1 + n);
    JoinVerdicts([now], Births(rest, now + 1 + n), false, Interrupted(rest), now, now + 1 + n, now + |es|);
    UnfoldTool(es, now);
  }

  /** Block `b` can be the block of a run that event `e` begins. */
  predicate Begins(e: StreamEvent, b: Block) {
    match b
    case TextBlock(_) => e.TextDelta?
    case ThinkingBlock(_) => e.Thinking?
    case ToolUseBlock(name, _, _) => e == ToolUse(name)
    case ToolResultBlock(_, _) => Lone(e) == [b]
  }

  ghost predicate BirthsFit(es: seq<StreamEvent>, bs: seq<Block>, births: seq<nat>, now: nat) {
    && |births| == |bs|
    && forall i | 0 <= i < |bs| :: now <= births[i] < now + |es| && Begins(es[births[i] - now], bs[i])
  }

  lemma JoinFits(es: seq<StreamEvent>, n: nat, bs: seq<Block>, births: seq<nat>, cs: seq<Block>, later: seq<nat>,
                 now: nat)
    requires n <= |es|
    requires BirthsFit(es[..n], bs, births, now) && BirthsFit(es[n..], cs, later, now + n)
    ensures BirthsFit(es, bs + cs, births + later, now)
  {
    forall i | 0 <= i < |cs| ensures Begins(es[later[i] - now], cs[i]) {
      assert es[n..][later[i] - (now + n)] == es[later[i] - now];
    }
  }

  /** The block and the birth that the first event adds, if it is a result. */
  lemma FirstResultFits(es: seq<StreamEvent>, now: nat)
    requires es != []
    ensures
      var own := if es[0].ToolResult? then [now] else [];
      && Results(es) == Lone(es[0]) + Results(es[1..])
      && ResultTimes(es, now) == own + ResultTimes(es[1..], now + 1)
      && BirthsFit(es[..1], Lone(es[0]), own, now)
  {
  }

  lemma NothingFits(now: nat)
    ensures BirthsFit([], Results([]), ResultTimes([], now), now)
  {
  }

  lemma {:induction false} ResultsFit(es: seq<StreamEvent>, now: nat)
    ensures BirthsFit(es, Results(es), ResultTimes(es, now), now)
  {
    hide BirthsFit, Results, ResultTimes, Lone;
    if es == [] {
      NothingFits(now);
    } else {
      ResultsFit(es[1..], now + 1);
      FirstResultFits(es, now);
      var own := if es[0].ToolResult? then [now] else [];
      JoinFits(es, 1, Lone(es[0]), own, Results(es[1..]), ResultTimes(es[1..], now + 1), now);
    }
  }

  lemma {:induction false} RunsHaveBirths(es: seq<StreamEvent>, now: nat)
    ensures BirthsFit(es, Runs(es), Births(es, now), now)
    decreases |es|, 1
  {
    if es != [] {
      if IsTextual(es[0]) {
        TextualHaveBirths(es, now);
      } else if BeginsTool(es[0]) {
        ToolHasBirth(es, now);
      } else {
        RunsHaveBirths(es[1..], now + 1);
        ResultsFit(es[..1], now);
        assert es[..1] == [es[0]] && Results([es[0]]) == Lone(es[0]);
        JoinFits(es, 1, Lone(es[0]), ResultTimes([es[0]], now), Runs(es[1..]), Births(es[1..], now + 1), now);
      }
    }
  }

  lemma UnfoldTextualRuns(es: seq<StreamEvent>)
    requires es != [] && IsTextual(es[0])
    ensures
      var k, n := KindOf(es[0]), RunLength(KindOf(es[0]), es);
      Runs(es) == (Results(es[..n]) + RunBlock(k, Payload(k, es[..n]))) + Runs(es[n..])
  {
  }

  lemma UnfoldToolRuns(es: seq<StreamEvent>)
    requires es != [] && BeginsTool(es[0])
    ensures
      var n := RunLength(ToolRun, es[1..]);
      Runs(es)
      == [ToolUseBlock(es[0].name, Payload(ToolRun, es[1..][..n]), ResultID(es[1..][n..]))] + Runs(es[1..][n..])
  {
  }

  lemma {:induction false} TextualHaveBirths(es: seq<StreamEvent>, now: nat)
    requires es != [] && IsTextual(es[0])
    ensures BirthsFit(es, Runs(es), Births(es, now), now)
    decreases |es|, 0
  {
    hide Runs, Births, BirthsFit, Results, RunBlock, Payload, ResultTimes, OwnTime, Interrupted;
    var k, n := KindOf(es[0]), RunLength(KindOf(es[0]), es);
    RunsHaveBirths(es[n..], now + n);
    RunFits(k, es[..n], now);
    var head := Results(es[..n]) + RunBlock(k, Payload(k, es[..n]));
    var times := ResultTimes(es[..n], now) + OwnTime(Payload(k, es[..n]), now);
    JoinFits(es, n, head, times, Runs(es[n..]), Births(es[n..], now + n), now);
    UnfoldTextualRuns(es);
    UnfoldTextual(es, now);
  }

  lemma RunFits(k: Kind, run: seq<StreamEvent>, now: nat)
    requires run != [] && Feeds(k, run[0]) && !k.ToolRun?
    ensures BirthsFit(run, Results(run) + RunBlock(k, Payload(k, run)),
                      ResultTimes(run, now) + OwnTime(Payload(k, run), now), now)
  {
    hide Results, ResultTimes, Payload;
    ResultsFit(run, now);
    var text := Payload(k, run);
    var block := RunBlock(k, text);
    assert |block| == |OwnTime(text, now)|;
    assert block != [] ==> Begins(run[0], block[0]);
  }

  lemma FirstFits(es: seq<StreamEvent>, b: Block, now: nat)
    requires es != [] && Begins(es[0], b)
    ensures BirthsFit(es, [b], [now], now)
  {
  }

  lemma {:induction false} ToolHasBirth(es: seq<StreamEvent>, now: nat)
    requires es != [] && BeginsTool(es[0])
    ensures BirthsFit(es, Runs(es), Births(es, now), now)
    decreases |es|, 0
  {
    hide Runs, Births, BirthsFit, Payload, Interrupted;
    var n := RunLength(ToolRun, es[1..]);
    var rest := es[1..][n..];
    var block := ToolUseBlock(es[0].name, Payload(ToolRun, es[1..][..n]), ResultID(rest));
    RunsHaveBirths(rest, now + 1 + n);
    assert rest == es[1 + n..];
    FirstFits(es[..1 + n], block, now);
    JoinFits(es, 1 + n, [block], [now], Runs(rest), Births(rest, now + 1 + n), now);
    UnfoldToolRuns(es);
    UnfoldTool(es, now);
  }

  /**
  Every block traces back to the event that began it, and the blocks are in the order of
  those events exactly when no tool result arrived inside a text or thinking run that
  produced a block.
  */
  lemma BlocksInOrderOfRuns(es: seq<StreamEvent>)
    ensures BirthsFit(es, BlocksOf(es), Births(es, 0), 0)
    ensures Increasing(Births(es, 0)) <==> !Interrupted(es)
  {
    BlocksAreRuns(es);
    RunsHaveBirths(es, 0);
    BirthsInOrder(es, 0);
  }

  /** A result that arrives inside a text run comes out before the text that began earlier. */
  lemma ResultOvertakesText(text: string, id: string, output: string)
    requires text != "" && |output| <= MAX_TOOL_RESULT_BYTES
    ensures BlocksOf([TextDelta(text), ToolResult(id, output)]) == [ToolResultBlock(id, output), TextBlock(text)]
  {
    var es := [TextDelta(text), ToolResult(id, output)];
    hide Emits;
    FlushedEmits([], Idle, es);
    EmitsCons(Idle, TextDelta(text), [ToolResult(id, output)]);
    EmitsCons(OpenText(text), ToolResult(id, output), []);
    assert es == [TextDelta(text)] + [ToolResult(id, output)] == es[..1] + (es[1..] + []);
    EmitsNothing(OpenText(text));
  }

  lemma EmitsNothing(open: Open)
    ensures Emits(open, []) == Closed(open)
  {
  }
}
