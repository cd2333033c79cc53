/**
One answer, through a resume retry and the fallback chain: the result text that the stream
fold builds and the content blocks that the accumulator builds are two records of the same
events, and both come from the attempt that succeeded.
*/
module Invocation {
  import opened Sequences
  import opened Wrappers
  import opened Accumulator
  import opened Tiers

  datatype Usage = Usage(model: string, sessionID: string)

  datatype RuntimeEvent =
    | TokenEvent(token: string)
    | ThinkingEvent(text: string)
    | ToolUseEvent(toolName: string)
    | ToolInputEvent(toolName: string, text: string)
    | ToolOutputEvent(toolID: string, text: string)
    | ErrorEvent(err: Option<string>)
    | DoneEvent(usage: Option<Usage>)

  /** What one provider turn does; `ctxErr` is the state of the request context when it is over. */
  datatype Attempt =
    | Refused(err: string, ctxErr: Option<string>)
    | Streamed(events: seq<RuntimeEvent>, ctxErr: Option<string>)

  datatype ProviderResult = ProviderResult(text: string, usage: Option<Usage>)

  // ---------- One attempt

  /** The progress event that a runtime event is translated to, if any. */
  function Translated(ev: RuntimeEvent): seq<StreamEvent> {
    match ev
    case TokenEvent(t) => [TextDelta(t)]
    case ThinkingEvent(t) => [Thinking(t)]
    case ToolUseEvent(n) => [ToolUse(n)]
    case ToolInputEvent(n, t) => [ToolInput(n, t)]
    case ToolOutputEvent(id, t) => [ToolResult(id, t)]
    case _ => []
  }

  function Progress(events: seq<RuntimeEvent>): seq<StreamEvent> {
    if events == [] then [] else Progress(events[..|events| - 1]) + Translated(events[|events| - 1])
  }

  function ProgressOf(a: Attempt): seq<StreamEvent> {
    if a.Refused? then [] else Progress(a.events)
  }

  function Tokens(events: seq<RuntimeEvent>): string {
    if events == [] then ""
    else
      var last := events[|events| - 1];
      Tokens(events[..|events| - 1]) + (if last.TokenEvent? then last.token else "")
  }

  /** The last error reported in the stream. */
  function StreamError(events: seq<RuntimeEvent>): Option<string> {
    if events == [] then None
    else
      var last := events[|events| - 1];
      if last.ErrorEvent? then last.err else StreamError(events[..|events| - 1])
  }

  function LastUsage(events: seq<RuntimeEvent>): Option<Usage> {
    if events == [] then None
    else
      var last := events[|events| - 1];
      if last.DoneEvent? then last.usage else LastUsage(events[..|events| - 1])
  }

  function OutcomeOf(a: Attempt): Result<ProviderResult, string> {
    match a
    case Refused(err, _) => Failure(err)
    case Streamed(events, ctxErr) =>
      if StreamError(events).Some? then Failure(StreamError(events).value)
      else if ctxErr.Some? then Failure(ctxErr.value)
      else Success(ProviderResult(Tokens(events), LastUsage(events)))
  }

  /** Event `i` is the last of those that report an error, or that none is left. */
  ghost predicate IsLastError(events: seq<RuntimeEvent>, i: nat) {
    i < |events| && events[i].ErrorEvent? && forall j | i < j < |events| :: !events[j].ErrorEvent?
  }

  ghost predicate IsLastDone(events: seq<RuntimeEvent>, i: nat) {
    i < |events| && events[i].DoneEvent? && forall j | i < j < |events| :: !events[j].DoneEvent?
  }

  lemma {:induction false} LastError(events: seq<RuntimeEvent>)
    ensures forall i: nat | IsLastError(events, i) :: StreamError(events) == events[i].err
    ensures StreamError(events).Some? ==> exists i: nat :: IsLastError(events, i)
  {
    if events != [] {
      var front, n := events[..|events| - 1], |events| - 1;
      LastError(front);
      forall i: nat | IsLastError(events, i) ensures StreamError(events) == events[i].err {
        assert i < n ==> IsLastError(front, i);
      }
      if events[n].ErrorEvent? {
        assert IsLastError(events, n);
      } else if StreamError(front).Some? {
        var i: nat :| IsLastError(front, i);
        assert IsLastError(events, i);
      }
    }
  }

  lemma {:induction false} LastDone(events: seq<RuntimeEvent>)
    ensures forall i: nat | IsLastDone(events, i) :: LastUsage(events) == events[i].usage
    ensures (forall i | 0 <= i < |events| :: !events[i].DoneEvent?) ==> LastUsage(events) == None
  {
    if events != [] {
      var front, n := events[..|events| - 1], |events| - 1;
      LastDone(front);
      forall i: nat | IsLastDone(events, i) ensures LastUsage(events) == events[i].usage {
        assert i < n ==> IsLastDone(front, i);
      }
    }
  }

  /**
  What a turn comes to: refused, or failed by the last error of its stream, or failed by the end
  of the request, or a success with the usage reported last.
  */
  lemma OutcomeIs(a: Attempt)
    ensures a.Refused? ==> OutcomeOf(a) == Failure(a.err)
    ensures a.Streamed? ==>
              && (OutcomeOf(a).Success?
                  <==> a.ctxErr.None? && forall i: nat | IsLastError(a.events, i) :: a.events[i].err.None?)
              && (forall i: nat | IsLastError(a.events, i) && a.events[i].err.Some? ::
                    OutcomeOf(a) == Failure(a.events[i].err.value))
              && ((forall i: nat | IsLastError(a.events, i) :: a.events[i].err.None?) && a.ctxErr.Some? ==>
                    OutcomeOf(a) == Failure(a.ctxErr.value))
              && (OutcomeOf(a).Success? ==>
                    && (forall i: nat | IsLastDone(a.events, i) :: OutcomeOf(a).value.usage == a.events[i].usage)
                    && ((forall i | 0 <= i < |a.events| :: !a.events[i].DoneEvent?) ==>
                          OutcomeOf(a).value.usage == None))
  {
    if a.Streamed? {
      LastError(a.events);
      LastDone(a.events);
    }
  }

  lemma FoldMore(v: View, before: seq<StreamEvent>, now: seq<StreamEvent>)
    requires |now| <= 1
    ensures Fold(v, before + now) == if now == [] then Fold(v, before) else Step(Fold(v, before), now[0])
  {
    if now == [] {
      assert before + now == before;
    } else {
      assert (before + now)[..|before|] == before && (before + now)[|before|] == now[0];
    }
  }

  /** What one more event of the stream does to the four quantities that the loop builds. */
  lemma NextEvent(v: View, events: seq<RuntimeEvent>, i: nat)
    requires i < |events|
    ensures
      var ev, was := events[i], Fold(v, Progress(events[..i]));
      Fold(v, Progress(events[..i + 1])) == if Translated(ev) == [] then was else Step(was, Translated(ev)[0])
    ensures
      var ev := events[i];
      && Tokens(events[..i + 1]) == Tokens(events[..i]) + (if ev.TokenEvent? then ev.token else "")
      && StreamError(events[..i + 1]) == (if ev.ErrorEvent? then ev.err else StreamError(events[..i]))
      && LastUsage(events[..i + 1]) == (if ev.DoneEvent? then ev.usage else LastUsage(events[..i]))
  {
    hide Fold, Step;
    assert events[..i + 1][..i] == events[..i];
    FoldMore(v, Progress(events[..i]), Translated(events[i]));
  }

  lemma FoldNothing(v: View)
    ensures Fold(v, Progress([])) == v
  {
  }

  method InvokeViaRuntime(a: Attempt, acc: Accumulator) returns (r: Result<ProviderResult, string>)
    requires acc.Valid()
    modifies acc
    ensures acc.Valid() && acc.State() == Fold(old(acc.State()), ProgressOf(a))
    ensures r == OutcomeOf(a)
  {
    hide Fold, Step;
    FoldNothing(acc.State());
    if a.Refused? {
      return Failure(a.err);
    }
    var text, usage, streamErr := "", None, None;
    var i := 0;
    ghost var v := acc.State();
    FoldNothing(v);
    assert a.events[..0] == [];
    while i < |a.events|
      invariant i <= |a.events|
      invariant acc.Valid() && acc.State() == Fold(v, Progress(a.events[..i]))
      invariant text == Tokens(a.events[..i])
      invariant streamErr == StreamError(a.events[..i])
      invariant usage == LastUsage(a.events[..i])
    {
      var ev := a.events[i];
      NextEvent(v, a.events, i);
      match ev {
        case TokenEvent(t) =>
          text := text + t;
          acc.ProcessEvent(TextDelta(t));
        case ThinkingEvent(t) => acc.ProcessEvent(Thinking(t));
        case ToolUseEvent(n) => acc.ProcessEvent(ToolUse(n));
        case ToolInputEvent(n, t) => acc.ProcessEvent(ToolInput(n, t));
        case ToolOutputEvent(id, t) => acc.ProcessEvent(ToolResult(id, t));
        case ErrorEvent(e) => streamErr := e;
        case DoneEvent(u) => usage := u;
      }
      i := i + 1;
    }
    assert a.events[..i] == a.events;
    if streamErr.Some? {
      return Failure(streamErr.value);
    }
    if a.ctxErr.Some? {
      return Failure(a.ctxErr.value);
    }
    r := Success(ProviderResult(text, usage));
  }

  lemma {:induction false} PayloadAppend(k: Kind, a: seq<StreamEvent>, b: seq<StreamEvent>)
    ensures Payload(k, a + b) == Payload(k, a) + Payload(k, b)
  {
    if a == [] {
      assert a + b == b;
    } else {
      assert (a + b)[1..] == a[1..] + b;
      PayloadAppend(k, a[1..], b);
    }
  }

  lemma {:induction false} TokensAreDeltas(events: seq<RuntimeEvent>)
    ensures Payload(TextRun, Progress(events)) == Tokens(events)
  {
    if events != [] {
      var front, last := events[..|events| - 1], events[|events| - 1];
      TokensAreDeltas(front);
      PayloadAppend(TextRun, Progress(front), Translated(last));
      if Translated(last) != [] {
        assert Translated(last)[1..] == [];
        assert Payload(TextRun, Translated(last)) == (if last.TokenEvent? then last.token else "") + "";
      }
    }
  }

  /** The two records of one attempt agree: its result text is the concatenation of its text blocks. */
  lemma RecordsAgree(a: Attempt)
    ensures OutcomeOf(a).Success? ==> OutcomeOf(a).value.text == TextIn(BlocksOf(ProgressOf(a)))
  {
    if OutcomeOf(a).Success? {
      TokensAreDeltas(a.events);
      TextIsConserved(Progress(a.events));
    }
  }

  lemma ProgressNext(front: seq<RuntimeEvent>, ev: RuntimeEvent)
    ensures Progress(front + [ev]) == Progress(front) + Translated(ev)
  {
    hide Translated;
    assert (front + [ev])[..|front|] == front;
  }

  /** The blocks that a turn of a single event leaves. */
  lemma OneEventTurn(ev: RuntimeEvent)
    ensures
      BlocksOf(Progress([ev])) ==
      match ev
      case TokenEvent(t) => if t == "" then [] else [TextBlock(t)]
      case ThinkingEvent(t) =>
        if t == "" then []
        else if |t| <= 1024 then [ThinkingBlock(t)]
        else [ThinkingBlock(t[..1024] + "...")]
      case ToolUseEvent(name) => if name == "" then [] else [ToolUseBlock(name, "", "")]
      case ToolOutputEvent(id, t) => [ResultBlock(id, t)]
      case _ => []
  {
    hide BlocksOf, Progress;
    ProgressNext([], ev);
    NoProgress();
    assert [] + [ev] == [ev];
    assert [] + Translated(ev) == Translated(ev);
    if Translated(ev) != [] {
      OneEvent(Translated(ev)[0]);
    }
  }

  lemma NoProgress()
    ensures Progress([]) == [] && BlocksOf([]) == []
  {
  }

  /** A tool call leaves its input and its result under one ID. */
  lemma ToolTurn(name: string, tool: string, input: string, id: string, output: string)
    requires name != ""
    ensures BlocksOf(Progress([ToolUseEvent(name), ToolInputEvent(tool, input), ToolOutputEvent(id, output)]))
         == [ToolUseBlock(name, input, id), ResultBlock(id, output)]
  {
    hide BlocksOf, Progress;
    var a, b, c := ToolUseEvent(name), ToolInputEvent(tool, input), ToolOutputEvent(id, output);
    NoProgress();
    ProgressNext([], a);
    ProgressNext([a], b);
    ProgressNext([a, b], c);
    assert [] + [a] == [a] && [a] + [b] == [a, b] && [a, b] + [c] == [a, b, c];
    assert Progress([a, b, c]) == [ToolUse(name), ToolInput(tool, input), ToolResult(id, output)];
    BetweenToolAndResult(name, ToolInput(tool, input), id, output);
  }

  // ---------- Retry and fallback

  /** A fallback is tried if its name is listed, some tier of that name is enabled, and its backend can be reached. */
  predicate Eligible(ts: seq<TierInfo>, registered: set<string>, name: string)
    ensures Eligible(ts, registered, name)
       <==> && (exists j :: 0 <= j < |ts| && ts[j].name == name && ts[j].enabled)
            && (exists j :: 0 <= j < |ts| && ts[j].name == name && (forall m | 0 <= m < j :: ts[m].name != name)
                            && (ts[j].backend == "" || ts[j].backend == "cli" || ts[j].backend in registered))
  {
    var i := First(ts, Named(name));
    && i >= 0
    && (exists j :: 0 <= j < |ts| && ts[j].name == name && ts[j].enabled)
    && (ts[i].backend == "" || ts[i].backend == "cli" || ts[i].backend in registered)
  }

  function EligibleOf(ts: seq<TierInfo>, registered: set<string>, chain: seq<string>): (r: seq<string>)
    ensures |r| <= |chain|
    ensures forall i | 0 <= i < |r| :: Eligible(ts, registered, r[i]) && r[i] in chain
  {
    if chain == [] then []
    else
      var last := chain[|chain| - 1];
      EligibleOf(ts, registered, chain[..|chain| - 1]) + (if Eligible(ts, registered, last) then [last] else [])
  }

  lemma {:induction false} EligibleOfDistinct(ts: seq<TierInfo>, registered: set<string>, chain: seq<string>)
    requires forall i, j | 0 <= i < j < |chain| :: chain[i] != chain[j]
    ensures
      var r := EligibleOf(ts, registered, chain);
      forall i, j | 0 <= i < j < |r| :: r[i] != r[j]
  {
    hide Eligible;
    if chain != [] {
      var front := chain[..|chain| - 1];
      EligibleOfDistinct(ts, registered, front);
      assert forall x | x in front :: x != chain[|chain| - 1];
      assert forall i | 0 <= i < |EligibleOf(ts, registered, front)| :: EligibleOf(ts, registered, front)[i] in front;
    }
  }

  lemma {:induction false} EligibleOfPrefix(ts: seq<TierInfo>, registered: set<string>, chain: seq<string>, n: nat)
    requires n <= |chain|
    ensures EligibleOf(ts, registered, chain[..n]) <= EligibleOf(ts, registered, chain)
  {
    if n < |chain| {
      EligibleOfPrefix(ts, registered, chain[..|chain| - 1], n);
      assert chain[..|chain| - 1][..n] == chain[..n];
    } else {
      assert chain[..n] == chain;
    }
  }

  lemma {:induction false} EligibleOfHasAll(ts: seq<TierInfo>, registered: set<string>, chain: seq<string>,
                                            name: string)
    requires name in chain && Eligible(ts, registered, name)
    ensures name in EligibleOf(ts, registered, chain)
  {
    hide Eligible;
    var front, last := chain[..|chain| - 1], chain[|chain| - 1];
    if name != last {
      assert name in front;
      EligibleOfHasAll(ts, registered, front, name);
    }
  }

  /** Each name tried is one of the chain; some tier of that name is enabled, and the first has a backend at hand. */
  ghost predicate CanAnswer(ts: seq<TierInfo>, registered: set<string>, chain: seq<string>, tried: seq<string>) {
    forall name | name in tried ::
      && name in chain
      && (exists j :: 0 <= j < |ts| && ts[j].name == name && ts[j].enabled)
      && (exists j :: 0 <= j < |ts| && ts[j].name == name && (forall m | 0 <= m < j :: ts[m].name != name)
                      && (ts[j].backend == "" || ts[j].backend == "cli" || ts[j].backend in registered))
  }

  /** Each name of the chain not tried has no enabled tier, or its first tier has a backend that is not at hand. */
  ghost predicate NoneLeftOut(ts: seq<TierInfo>, registered: set<string>, chain: seq<string>, tried: seq<string>) {
    forall name | name in chain && name !in tried ::
      || (forall j | 0 <= j < |ts| && ts[j].name == name :: !ts[j].enabled)
      || (exists j :: 0 <= j < |ts| && ts[j].name == name && (forall m | 0 <= m < j :: ts[m].name != name)
                      && ts[j].backend != "" && ts[j].backend != "cli" && ts[j].backend !in registered)
  }

  lemma TriedCanAnswer(ts: seq<TierInfo>, registered: set<string>, chain: seq<string>, tried: seq<string>)
    requires tried <= EligibleOf(ts, registered, chain)
    ensures CanAnswer(ts, registered, chain, tried)
    ensures tried == EligibleOf(ts, registered, chain) ==> NoneLeftOut(ts, registered, chain, tried)
  {
    hide Eligible, EligibleOf;
    forall name | name in tried ensures name in chain && Eligible(ts, registered, name) {
      assert name in EligibleOf(ts, registered, chain);
    }
    if tried == EligibleOf(ts, registered, chain) {
      forall name | name in chain && name !in tried ensures !Eligible(ts, registered, name) {
        if Eligible(ts, registered, name) {
          EligibleOfHasAll(ts, registered, chain, name);
        }
      }
      forall name | name in chain && name !in tried
        ensures
          || (forall j | 0 <= j < |ts| && ts[j].name == name :: !ts[j].enabled)
          || (exists j :: 0 <= j < |ts| && ts[j].name == name && (forall m | 0 <= m < j :: ts[m].name != name)
                          && ts[j].backend != "" && ts[j].backend != "cli" && ts[j].backend !in registered)
      {
        IneligibleIs(ts, registered, name);
      }
    }
  }

  lemma NobodyTried(ts: seq<TierInfo>, registered: set<string>)
    ensures CanAnswer(ts, registered, [], []) && NoneLeftOut(ts, registered, [], [])
  {
  }

  lemma IneligibleIs(ts: seq<TierInfo>, registered: set<string>, name: string)
    requires !Eligible(ts, registered, name)
    ensures || (forall j | 0 <= j < |ts| && ts[j].name == name :: !ts[j].enabled)
            || (exists j :: 0 <= j < |ts| && ts[j].name == name && (forall m | 0 <= m < j :: ts[m].name != name)
                            && ts[j].backend != "" && ts[j].backend != "cli" && ts[j].backend !in registered)
  {
    var i := First(ts, Named(name));
    if i >= 0 {
      assert Named(name)(ts[i]);
      assert forall m | 0 <= m < i :: !Named(name)(ts[m]);
    } else {
      assert forall m | 0 <= m < |ts| :: !Named(name)(ts[m]);
    }
  }

  predicate Fails(runtime: nat -> Attempt, k: nat) {
    OutcomeOf(runtime(k)).Failure?
  }

  lemma FailsIs(runtime: nat -> Attempt, k: nat)
    ensures Fails(runtime, k) <==> OutcomeOf(runtime(k)).Failure?
  {
  }

  lemma PrefixOfEligible(start: string, ts: seq<TierInfo>, registered: set<string>, chain: seq<string>,
                         tried: seq<string>)
    requires IsFallbackChain(start, ts, chain) && tried <= EligibleOf(ts, registered, chain)
    ensures start !in tried
    ensures forall i, j | 0 <= i < j < |tried| :: tried[i] != tried[j]
  {
    hide Eligible;
    EligibleOfDistinct(ts, registered, chain);
    var eligible := EligibleOf(ts, registered, chain);
    assert forall i | 0 <= i < |tried| :: tried[i] == eligible[i];
  }

  lemma EligibleOfNext(ts: seq<TierInfo>, registered: set<string>, chain: seq<string>, i: nat)
    requires i < |chain|
    ensures EligibleOf(ts, registered, chain[..i + 1])
         == EligibleOf(ts, registered, chain[..i]) + (if Eligible(ts, registered, chain[i]) then [chain[i]] else [])
    ensures EligibleOf(ts, registered, chain[..i + 1]) <= EligibleOf(ts, registered, chain)
  {
    hide Eligible;
    assert chain[..i + 1][..i] == chain[..i];
    EligibleOfPrefix(ts, registered, chain, i + 1);
  }

  /** The accumulator holds the record of attempt `k` and `r` is its outcome. */
  ghost predicate Recorded(runtime: nat -> Attempt, k: nat, r: Result<ProviderResult, string>, acc: Accumulator)
    reads acc
  {
    acc.Valid() && acc.State() == Fold(START, ProgressOf(runtime(k))) && r == OutcomeOf(runtime(k))
  }

  method TryOnce(runtime: nat -> Attempt, k: nat) returns (r: Result<ProviderResult, string>, acc: Accumulator)
    ensures fresh(acc) && Recorded(runtime, k, r, acc)
    ensures r.Failure? <==> Fails(runtime, k)
  {
    acc := new Accumulator();
    r := InvokeViaRuntime(runtime(k), acc);
  }

  /** The turn on the tier itself: a failed first attempt that resumed a session is repeated without it. */
  method TryStart(resumeID: string, isAPITier: bool, runtime: nat -> Attempt)
    returns (r: Result<ProviderResult, string>, acc: Accumulator, last: nat)
    ensures fresh(acc) && Recorded(runtime, last, r, acc)
    ensures forall k | 0 <= k < last :: Fails(runtime, k)
    ensures r.Failure? <==> Fails(runtime, last)
    ensures
      var retried := resumeID != "" && !isAPITier && OutcomeOf(runtime(0)).Failure? && runtime(0).ctxErr.None?;
      last == if retried then 1 else 0
  {
    hide OutcomeOf, Recorded;
    last := 0;
    r, acc := TryOnce(runtime, 0);
    if r.Failure? && resumeID != "" && !isAPITier && runtime(0).ctxErr.None? {
      last := 1;
      r, acc := TryOnce(runtime, last);
    }
  }

  /** The fallback loop, entered with failed attempt number `from`. */
  method TryFallbacks(start: string, chain: seq<string>, ts: seq<TierInfo>, registered: set<string>,
                      runtime: nat -> Attempt, from: nat, acc0: Accumulator, r0: Result<ProviderResult, string>)
    returns (r: Result<ProviderResult, string>, tier: string, acc: Accumulator, last: nat, tried: seq<string>)
    requires r0.Failure? && Fails(runtime, from) && Recorded(runtime, from, r0, acc0)
    ensures (acc == acc0 || fresh(acc)) && Recorded(runtime, last, r, acc)
    ensures last == from + |tried| && forall k | from <= k < last :: Fails(runtime, k)
    ensures tried <= EligibleOf(ts, registered, chain)
    ensures r.Failure? ==> tried == EligibleOf(ts, registered, chain)
    ensures CanAnswer(ts, registered, chain, tried)
    ensures r.Failure? ==> NoneLeftOut(ts, registered, chain, tried)
    ensures tier == if r.Success? && tried != [] then tried[|tried| - 1] else start
  {
    hide Recorded, Fails, Eligible, CanAnswer, NoneLeftOut;
    r, tier, acc, last, tried := r0, start, acc0, from, [];
    var i := 0;
    while i < |chain|
      invariant i <= |chain|
      invariant (acc == acc0 || fresh(acc)) && Recorded(runtime, last, r, acc)
      invariant r.Failure? && Fails(runtime, last) && tier == start
      invariant last == from + |tried| && forall k | from <= k < last :: Fails(runtime, k)
      invariant tried == EligibleOf(ts, registered, chain[..i]) && tried <= EligibleOf(ts, registered, chain)
    {
      EligibleOfNext(ts, registered, chain, i);
      var fbName := chain[i];
      i := i + 1;
      if !Eligible(ts, registered, fbName) {
        continue;
      }
      last := last + 1;
      tried := tried + [fbName];
      r, acc := TryOnce(runtime, last);
      if r.Success? {
        tier := fbName;
        TriedCanAnswer(ts, registered, chain, tried);
        return;
      }
    }
    assert chain[..i] == chain;
    TriedCanAnswer(ts, registered, chain, tried);
  }

  /**
  The invocation part of a standard turn on tier `start`: `runtime(k)` is what the k-th
  provider turn does.  `last` is the number of the last attempt made, and `tried` are the
  fallback tiers that got one.
  */
  method Answer(start: string, resumeID: string, isAPITier: bool, ts: seq<TierInfo>, registered: set<string>,
                runtime: nat -> Attempt)
    returns (r: Result<ProviderResult, string>, tier: string, acc: Accumulator, last: nat, chain: seq<string>,
        tried: seq<string>)
    ensures fresh(acc) && acc.Valid()
    // both records are those of the last attempt
    ensures r == OutcomeOf(runtime(last))
    ensures acc.State() == Fold(START, ProgressOf(runtime(last)))
    ensures r.Success? ==> r.value.text == TextIn(Flushed(acc.State()))
    // every earlier attempt failed
    ensures forall k | 0 <= k < last :: OutcomeOf(runtime(k)).Failure?
    // the attempts are the first, the retry when due, and one for each fallback tried
    ensures
      var retried := resumeID != "" && !isAPITier && OutcomeOf(runtime(0)).Failure? && runtime(0).ctxErr.None?;
      var base := if retried then 1 else 0;
      && last == base + |tried|
      && (OutcomeOf(runtime(base)).Failure? && runtime(base).ctxErr.None? ==>
            IsFallbackChain(start, ts, chain) && tried <= EligibleOf(ts, registered, chain))
      && (OutcomeOf(runtime(base)).Success? || runtime(base).ctxErr.Some? ==> chain == tried == [])
    // a fallback is tried at most once and only if it can answer, and none that can is left out
    ensures CanAnswer(ts, registered, chain, tried) && start !in tried
    ensures r.Failure? ==> NoneLeftOut(ts, registered, chain, tried)
    ensures forall i, j | 0 <= i < j < |tried| :: tried[i] != tried[j]
    // the tier reported is the one that answered
    ensures tier == if r.Success? && tried != [] then tried[|tried| - 1] else start
  {
    hide CanAnswer, NoneLeftOut, Fold, Flushed, TextIn, EligibleOf, OutcomeOf, ProgressOf, IsFallbackChain, Fails;
    tier, chain, tried := start, [], [];
    NobodyTried(ts, registered);
    r, acc, last := TryStart(resumeID, isAPITier, runtime);
    if r.Failure? && runtime(last).ctxErr.None? {
      chain := ResolveFallbackChain(start, ts);
      r, tier, acc, last, tried := TryFallbacks(start, chain, ts, registered, runtime, last, acc, r);
      PrefixOfEligible(start, ts, registered, chain, tried);
    }
    forall k: nat | k < last ensures OutcomeOf(runtime(k)).Failure? {
      FailsIs(runtime, k);
    }
    RecordsAgree(runtime(last));
  }
}
