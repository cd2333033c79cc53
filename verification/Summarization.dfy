/**
Progressive summarisation of one conversation: a trigger reads the timeline and the ids that
the latest summary covers, in two separate reads, picks the oldest uncovered messages, tries
to take the single-flight slot of its channel, and lets a background task append a summary.

The store is append-only with unique ids and lists messages in order.
*/
module Summarization {
  import opened Sequences
  import opened Wrappers

  type MsgId = nat
  type Channel = string
  type TaskId = nat

  /** A message; a summary carries the ids it covers. */
  datatype Message = Message(id: MsgId, covers: Option<seq<MsgId>>)

  const DEFAULT_THRESHOLD := 20
  const DEFAULT_KEEP_LAST := 10

  datatype Config = Config(enabled: bool, threshold: int, keepLast: int) {
    function Threshold(): nat {
      if threshold <= 0 then DEFAULT_THRESHOLD else threshold
    }

    function KeepLast(): nat {
      if keepLast <= 0 then DEFAULT_KEEP_LAST else keepLast
    }

    predicate Active() {
      enabled && KeepLast() < Threshold()
    }
  }

  // ---------- Reading a timeline

  /** The ids of the messages that are not summaries. */
  function Plain(msgs: seq<Message>): seq<MsgId> {
    if msgs == [] then []
    else Plain(msgs[..|msgs| - 1]) + (if msgs[|msgs| - 1].covers.None? then [msgs[|msgs| - 1].id] else [])
  }

  function SummaryCount(msgs: seq<Message>): nat {
    if msgs == [] then 0 else SummaryCount(msgs[..|msgs| - 1]) + (if msgs[|msgs| - 1].covers.Some? then 1 else 0)
  }

  /** What the latest summary covers; nothing when there is none. */
  function LatestCovered(msgs: seq<Message>): seq<MsgId> {
    if msgs == [] then []
    else if msgs[|msgs| - 1].covers.Some? then msgs[|msgs| - 1].covers.value
    else LatestCovered(msgs[..|msgs| - 1])
  }

  function Without(ids: seq<MsgId>, skip: set<MsgId>): seq<MsgId> {
    if ids == [] then []
    else Without(ids[..|ids| - 1], skip) + (if ids[|ids| - 1] in skip then [] else [ids[|ids| - 1]])
  }

  function Ids(s: seq<MsgId>): set<MsgId> {
    set i | i in s
  }

  ghost predicate Distinct(s: seq<MsgId>) {
    forall i, j | 0 <= i < j < |s| :: s[i] != s[j]
  }

  function Last(ids: seq<MsgId>, n: nat): seq<MsgId> {
    if n <= |ids| then ids[|ids| - n..] else ids
  }

  /** The messages to summarise, or `None` when the trigger does nothing. */
  function Decide(raw: seq<Message>, seen: seq<MsgId>, c: Config): Option<seq<MsgId>> {
    var uncovered := Without(Plain(raw), Ids(seen));
    var visible := |uncovered| + (if SummaryCount(raw) > 0 then 1 else 0);
    if !c.Active() || visible < c.Threshold() || |uncovered| <= c.KeepLast() then None
    else Some(uncovered[..|uncovered| - c.KeepLast()])
  }

  /** `covered` lists what was covered already, in any order and once each, and then what is about to be. */
  ghost predicate IsPlan(raw: seq<Message>, seen: seq<MsgId>, c: Config, covered: seq<MsgId>) {
    && Decide(raw, seen, c).Some?
    && var chosen := Decide(raw, seen, c).value;
    && |chosen| <= |covered|
    && var prior := covered[..|covered| - |chosen|];
    && covered == prior + chosen && Distinct(prior) && Ids(prior) == Ids(seen)
  }

  lemma NextRead(raw: seq<Message>, i: nat, skip: set<MsgId>)
    requires i < |raw|
    ensures Without(Plain(raw[..i + 1]), skip)
         == Without(Plain(raw[..i]), skip) + (if raw[i].covers.Some? || raw[i].id in skip then [] else [raw[i].id])
    ensures SummaryCount(raw[..i + 1]) == SummaryCount(raw[..i]) + (if raw[i].covers.Some? then 1 else 0)
  {
    assert raw[..i + 1][..i] == raw[..i];
    var before := Plain(raw[..i]);
    if raw[i].covers.Some? {
      assert before + [] == before;
    } else {
      assert (before + [raw[i].id])[..|before|] == before;
    }
  }

  lemma FirstRead(raw: seq<Message>, skip: set<MsgId>)
    ensures Without(Plain(raw[..0]), skip) == [] && SummaryCount(raw[..0]) == 0
  {
  }

  /** The positions before `n` of the messages that are no summaries and not covered. */
  ghost function Uncovered(raw: seq<Message>, seen: seq<MsgId>, n: nat): set<int>
    requires n <= |raw|
  {
    set i | 0 <= i < n && raw[i].covers.None? && raw[i].id !in seen
  }

  ghost predicate HasSummary(raw: seq<Message>) {
    exists i :: 0 <= i < |raw| && raw[i].covers.Some?
  }

  /** Each uncovered message is listed behind as many as there are uncovered ones before it. */
  ghost predicate ListsUncovered(raw: seq<Message>, seen: seq<MsgId>, n: nat, ids: seq<MsgId>)
    requires n <= |raw|
  {
    && |ids| == |Uncovered(raw, seen, n)|
    && forall p | 0 <= p < n && raw[p].covers.None? && raw[p].id !in seen ::
         |Uncovered(raw, seen, p)| < |ids| && ids[|Uncovered(raw, seen, p)|] == raw[p].id
  }

  lemma UncoveredNext(raw: seq<Message>, seen: seq<MsgId>, n: nat)
    requires n < |raw|
    ensures Uncovered(raw, seen, n + 1)
         == Uncovered(raw, seen, n) + if raw[n].covers.None? && raw[n].id !in seen then {n} else {}
  {
  }

  lemma {:induction false} ReadLists(raw: seq<Message>, seen: seq<MsgId>, n: nat)
    requires n <= |raw|
    ensures ListsUncovered(raw, seen, n, Without(Plain(raw[..n]), Ids(seen)))
    ensures SummaryCount(raw[..n]) > 0 <==> HasSummary(raw[..n])
  {
    hide Without, Plain, SummaryCount, Uncovered;
    if n == 0 {
      FirstRead(raw, Ids(seen));
      assert Uncovered(raw, seen, 0) == {} by {
        NoneUncovered(raw, seen);
      }
    } else {
      ReadLists(raw, seen, n - 1);
      NextRead(raw, n - 1, Ids(seen));
      UncoveredNext(raw, seen, n - 1);
      NewUncovered(raw, seen, n - 1);
      assert forall i | 0 <= i < n - 1 :: raw[..n][i] == raw[..n - 1][i];
      assert raw[..n][n - 1] == raw[n - 1];
    }
  }

  lemma NoneUncovered(raw: seq<Message>, seen: seq<MsgId>)
    ensures Uncovered(raw, seen, 0) == {}
  {
  }

  lemma NewUncovered(raw: seq<Message>, seen: seq<MsgId>, n: nat)
    requires n <= |raw|
    ensures n !in Uncovered(raw, seen, n)
  {
  }

  /** When the trigger acts, by the messages of its read. */
  lemma DecideIs(raw: seq<Message>, seen: seq<MsgId>, c: Config)
    ensures
      var t := if c.threshold <= 0 then 20 else c.threshold;
      var k := if c.keepLast <= 0 then 10 else c.keepLast;
      var n := |Uncovered(raw, seen, |raw|)|;
      && (Decide(raw, seen, c).Some?
          <==> c.enabled && k < t && k < n && t <= n + (if HasSummary(raw) then 1 else 0))
      && (Decide(raw, seen, c).Some? ==> OldestUncovered(raw, seen, n - k, Decide(raw, seen, c).value))
  {
    hide Without, Plain, SummaryCount, Uncovered, HasSummary;
    assert raw[..|raw|] == raw;
    ReadLists(raw, seen, |raw|);
  }

  /** `chosen` holds the ids of the oldest `count` uncovered messages, in order. */
  ghost predicate OldestUncovered(raw: seq<Message>, seen: seq<MsgId>, count: int, chosen: seq<MsgId>) {
    && |chosen| == count
    && forall p | 0 <= p < |raw| && raw[p].covers.None? && raw[p].id !in seen && |Uncovered(raw, seen, p)| < count ::
         chosen[|Uncovered(raw, seen, p)|] == raw[p].id
  }

  /** `covered` holds each id of `seen` once, in any order, and then `chosen`. */
  ghost predicate JoinsSeen(seen: seq<MsgId>, chosen: seq<MsgId>, covered: seq<MsgId>) {
    && |chosen| <= |covered| && covered[|covered| - |chosen|..] == chosen
    && var prior := covered[..|covered| - |chosen|];
    && (forall id :: id in prior <==> id in seen)
    && (forall i, j | 0 <= i < j < |prior| :: prior[i] != prior[j])
  }

  lemma PlanJoinsSeen(raw: seq<Message>, seen: seq<MsgId>, c: Config, covered: seq<MsgId>)
    requires IsPlan(raw, seen, c, covered)
    ensures JoinsSeen(seen, Decide(raw, seen, c).value, covered)
  {
    hide Decide;
    var chosen := Decide(raw, seen, c).value;
    var prior := covered[..|covered| - |chosen|];
    forall id ensures id in prior <==> id in seen {
      assert id in Ids(prior) <==> id in Ids(seen);
    }
  }

  /** The synchronous part of the trigger. */
  method MaybeSummarize(raw: seq<Message>, seen: seq<MsgId>, c: Config)
    returns (plan: Option<(seq<MsgId>, seq<MsgId>)>)
    ensures plan.None? <==> Decide(raw, seen, c).None?
    ensures plan.Some? ==> Some(plan.value.0) == Decide(raw, seen, c) && IsPlan(raw, seen, c, plan.value.1)
    // it acts if it is enabled, the settings make sense, and enough messages are uncovered
    ensures
      var t := if c.threshold <= 0 then 20 else c.threshold;
      var k := if c.keepLast <= 0 then 10 else c.keepLast;
      var n := |Uncovered(raw, seen, |raw|)|;
      && (plan.Some? <==> c.enabled && k < t && k < n && t <= n + (if HasSummary(raw) then 1 else 0))
      && (plan.Some? ==>
            && OldestUncovered(raw, seen, n - k, plan.value.0)
            && JoinsSeen(seen, plan.value.0, plan.value.1))
  {
    hide Without, Plain, SummaryCount, Distinct, Uncovered, HasSummary, OldestUncovered, JoinsSeen;
    DecideIs(raw, seen, c);
    if !c.enabled {
      return None;
    }
    var threshold, keepLast := c.threshold, c.keepLast;
    if threshold <= 0 {
      threshold := DEFAULT_THRESHOLD;
    }
    if keepLast <= 0 {
      keepLast := DEFAULT_KEEP_LAST;
    }
    if keepLast >= threshold {
      return None;
    }
    var already: set<MsgId> := {};
    var i := 0;
    while i < |seen|
      invariant i <= |seen|
      invariant already == Ids(seen[..i])
    {
      already := already + {seen[i]};
      assert seen[..i + 1] == seen[..i] + [seen[i]];
      i := i + 1;
    }
    assert seen[..i] == seen;
    var uncovered: seq<MsgId>, hasSummary := [], false;
    i := 0;
    FirstRead(raw, already);
    while i < |raw|
      invariant i <= |raw|
      invariant uncovered == Without(Plain(raw[..i]), already)
      invariant hasSummary <==> SummaryCount(raw[..i]) > 0
    {
      var m := raw[i];
      NextRead(raw, i, already);
      i := i + 1;
      if m.covers.Some? {
        hasSummary := true;
        continue;
      }
      if m.id in already {
        continue;
      }
      uncovered := uncovered + [m.id];
    }
    assert raw[..i] == raw;
    var visible := |uncovered|;
    if hasSummary {
      visible := visible + 1;
    }
    if visible < threshold {
      return None;
    }
    if |uncovered| <= keepLast {
      return None;
    }
    var cutoff := |uncovered| - keepLast;
    var covered := ListOnce(already);
    plan := Some((uncovered[..cutoff], covered + uncovered[..cutoff]));
    assert plan.value.1[..|plan.value.1| - cutoff] == covered;
    PlanJoinsSeen(raw, seen, c, plan.value.1);
  }

  /** A set in some order, as ranging over a map gives it. */
  method ListOnce(ids: set<MsgId>) returns (r: seq<MsgId>)
    ensures Distinct(r) && Ids(r) == ids
  {
    r := [];
    var rest := ids;
    while rest != {}
      invariant Distinct(r) && Ids(r) + rest == ids && Ids(r) !! rest
      decreases rest
    {
      var id :| id in rest;
      assert id !in Ids(r);
      assert Ids(r + [id]) == Ids(r) + {id};
      r := r + [id];
      rest := rest - {id};
    }
  }

  // ---------- What a plan covers

  /** `ids` lists, once each, exactly the first `|ids|` of `plain`. */
  ghost predicate CoversPrefix(ids: seq<MsgId>, plain: seq<MsgId>) {
    |ids| <= |plain| && Distinct(ids) && Ids(ids) == Ids(plain[..|ids|])
  }

  lemma {:induction false} DistinctCount(s: seq<MsgId>)
    requires Distinct(s)
    ensures |Ids(s)| == |s|
  {
    if s != [] {
      var front := s[..|s| - 1];
      DistinctCount(front);
      assert Ids(s) == Ids(front) + {s[|s| - 1]};
    }
  }

  lemma {:induction false} WithoutPrefix(plain: seq<MsgId>, n: nat, skip: set<MsgId>)
    requires Distinct(plain) && n <= |plain| && skip == Ids(plain[..n])
    ensures Without(plain, skip) == plain[n..]
  {
    if n < |plain| {
      var front := plain[..|plain| - 1];
      assert front[..n] == plain[..n];
      WithoutPrefix(front, n, skip);
      assert plain[|plain| - 1] !in skip;
    } else {
      assert plain[..n] == plain;
      WithoutAll(plain, skip);
    }
  }

  lemma {:induction false} WithoutAll(ids: seq<MsgId>, skip: set<MsgId>)
    requires forall i | 0 <= i < |ids| :: ids[i] in skip
    ensures Without(ids, skip) == []
  {
    if ids != [] {
      WithoutAll(ids[..|ids| - 1], skip);
    }
  }

  /**
  With the covered ids a prefix of the timeline, the uncovered messages of an earlier read are
  what follows that prefix.
  */
  lemma UncoveredIsRest(plain: seq<MsgId>, read: nat, seen: seq<MsgId>)
    requires Distinct(plain) && read <= |plain| && CoversPrefix(seen, plain)
    ensures Without(plain[..read], Ids(seen)) == if |seen| <= read then plain[|seen|..read] else []
  {
    if |seen| <= read {
      assert plain[..read][..|seen|] == plain[..|seen|];
      WithoutPrefix(plain[..read], |seen|, Ids(seen));
    } else {
      forall i | 0 <= i < read ensures plain[..read][i] in Ids(seen) {
        assert plain[i] == plain[..|seen|][i];
      }
      WithoutAll(plain[..read], Ids(seen));
    }
  }

  lemma JoinPrefixes(prior: seq<MsgId>, plain: seq<MsgId>, n: nat, m: nat)
    requires Distinct(plain) && n <= m <= |plain|
    requires Distinct(prior) && Ids(prior) == Ids(plain[..n])
    ensures CoversPrefix(prior + plain[n..m], plain) && |prior| == n
  {
    DistinctCount(prior);
    DistinctCount(plain[..n]);
    var ids := prior + plain[n..m];
    forall i, j | 0 <= i < j < |ids| ensures ids[i] != ids[j] {
      if i < n <= j {
        assert prior[i] in Ids(plain[..n]);
        assert ids[j] == plain[j];
      }
    }
    assert plain[..m] == plain[..n] + plain[n..m];
    assert Ids(ids) == Ids(prior) + Ids(plain[n..m]);
    assert Ids(plain[..m]) == Ids(plain[..n]) + Ids(plain[n..m]);
  }

  /**
  A plan made from an earlier read of the timeline covers a prefix of it, without repeats;
  it extends what was covered, and it leaves out the last `keepLast` messages of the read.
  */
  lemma PlanCovers(plain: seq<MsgId>, raw: seq<Message>, seen: seq<MsgId>, c: Config,
                                      covered: seq<MsgId>)
    requires Distinct(plain) && Plain(raw) <= plain && CoversPrefix(seen, plain)
    requires IsPlan(raw, seen, c, covered)
    ensures CoversPrefix(covered, plain)
    ensures |seen| < |covered| == |Plain(raw)| - c.KeepLast()
    ensures Ids(seen) <= Ids(covered)
    ensures forall id | id in Last(Plain(raw), c.KeepLast()) :: id !in covered
  {
    hide Without, Plain, SummaryCount, Distinct;
    var read := |Plain(raw)|;
    assert Plain(raw) == plain[..read];
    UncoveredIsRest(plain, read, seen);
    var chosen := Decide(raw, seen, c).value;
    var prior := covered[..|covered| - |chosen|];
    var end := read - c.KeepLast();
    assert chosen == plain[|seen|..end];
    JoinPrefixes(prior, plain, |seen|, end);
    LastNotCovered(plain, read, c.KeepLast(), covered);
  }

  lemma LastNotCovered(plain: seq<MsgId>, read: nat, keep: nat, covered: seq<MsgId>)
    requires Distinct(plain) && read <= |plain| && CoversPrefix(covered, plain) && |covered| + keep == read
    ensures forall id | id in Last(plain[..read], keep) :: id !in covered
  {
    forall id | id in Last(plain[..read], keep) ensures id !in covered {
      var i :| |covered| <= i < read && plain[i] == id;
      assert plain[i] !in Ids(plain[..|covered|]);
      assert id !in Ids(covered);
    }
  }

  // ---------- The protocol

  datatype Stage =
    | HasRead(raw: seq<Message>)
    | Planned(raw: seq<Message>, seen: seq<MsgId>, covered: seq<MsgId>, epoch: nat)
    | Running(raw: seq<Message>, seen: seq<MsgId>, covered: seq<MsgId>, epoch: nat)
    | Ended

  datatype Task = Task(channel: Channel, stage: Stage)

  /** `epoch` of a task is the number of summaries in the store when it read what was covered. */
  datatype State = State(store: seq<Message>, next: MsgId, inFlight: set<Channel>, tasks: map<TaskId, Task>)

  datatype Label =
    | AddMessage
    | ReadMessages(t: TaskId, channel: Channel)
    | ReadCovered(t: TaskId, covered: seq<MsgId>)
    | TakeSlot(t: TaskId)
    | Land(t: TaskId)
    | Fail(t: TaskId)
    | Release(t: TaskId)

  const INIT := State([], 0, {}, map[])

  ghost predicate Enabled(s: State, l: Label, c: Config) {
    match l
    case AddMessage => true
    case ReadMessages(t, _) => t !in s.tasks && c.Active()
    case ReadCovered(t, covered) =>
      && t in s.tasks && s.tasks[t].stage.HasRead?
      && var seen := LatestCovered(s.store);
      && (Decide(s.tasks[t].stage.raw, seen, c).Some? ==> IsPlan(s.tasks[t].stage.raw, seen, c, covered))
    case TakeSlot(t) => t in s.tasks && s.tasks[t].stage.Planned?
    case Land(t) => t in s.tasks && s.tasks[t].stage.Running?
    case Fail(t) => t in s.tasks && s.tasks[t].stage.Running?
    case Release(t) => t in s.tasks && s.tasks[t].stage.Ended?
  }

  function Appended(s: State, covers: Option<seq<MsgId>>): State {
    s.(store := s.store + [Message(s.next, covers)], next := s.next + 1)
  }

  ghost function Apply(s: State, l: Label, c: Config): State {
    if !Enabled(s, l, c) then s else
    match l
    case AddMessage => Appended(s, None)
    case ReadMessages(t, channel) => s.(tasks := s.tasks[t := Task(channel, HasRead(s.store))])
    case ReadCovered(t, covered) =>
      var raw, seen := s.tasks[t].stage.raw, LatestCovered(s.store);
      if Decide(raw, seen, c).None? then s.(tasks := s.tasks - {t})
      else s.(tasks := s.tasks[t := s.tasks[t].(stage := Planned(raw, seen, covered, SummaryCount(s.store)))])
    case TakeSlot(t) =>
      var task := s.tasks[t];
      if task.channel in s.inFlight then s.(tasks := s.tasks - {t})
      else
        var p := task.stage;
        s.(inFlight := s.inFlight + {task.channel},
           tasks := s.tasks[t := task.(stage := Running(p.raw, p.seen, p.covered, p.epoch))])
    case Land(t) =>
      Appended(s, Some(s.tasks[t].stage.covered)).(tasks := s.tasks[t := s.tasks[t].(stage := Ended)])
    case Fail(t) => s.(tasks := s.tasks[t := s.tasks[t].(stage := Ended)])
    case Release(t) => s.(inFlight := s.inFlight - {s.tasks[t].channel}, tasks := s.tasks - {t})
  }

  ghost function Exec(run: seq<Label>, c: Config): State {
    if run == [] then INIT else Apply(Exec(run[..|run| - 1], c), run[|run| - 1], c)
  }

  // ---------- What every step keeps

  ghost predicate StoreOk(s: State) {
    && Distinct(Plain(s.store))
    && (forall i | 0 <= i < |s.store| :: s.store[i].id < s.next)
    && (forall i | 0 <= i < |s.store| && s.store[i].covers.Some? ::
          CoversPrefix(s.store[i].covers.value, Plain(s.store)))
  }

  ghost predicate HasPlan(st: Stage) {
    st.Planned? || st.Running?
  }

  ghost predicate TaskOk(s: State, st: Stage, c: Config) {
    && (st.HasRead? || HasPlan(st) ==> st.raw <= s.store)
    && (HasPlan(st) ==>
          && CoversPrefix(st.seen, Plain(s.store)) && CoversPrefix(st.covered, Plain(s.store))
          && |st.seen| < |st.covered| && Ids(st.seen) <= Ids(st.covered)
          && |st.covered| + c.KeepLast() == |Plain(st.raw)|)
  }

  /** The task holds the slot of its channel. */
  ghost predicate Holds(t: Task) {
    t.stage.Running? || t.stage.Ended?
  }

  ghost predicate SlotsOk(s: State) {
    && (forall t | t in s.tasks && Holds(s.tasks[t]) :: s.tasks[t].channel in s.inFlight)
    && (forall t, u | t in s.tasks && u in s.tasks && t != u && Holds(s.tasks[t]) && Holds(s.tasks[u]) ::
          s.tasks[t].channel != s.tasks[u].channel)
  }

  ghost predicate Inv(s: State, c: Config) {
    && StoreOk(s)
    && (forall t | t in s.tasks :: TaskOk(s, s.tasks[t].stage, c))
    && SlotsOk(s)
  }

  lemma {:induction false} PlainPrefix(a: seq<Message>, b: seq<Message>)
    requires a <= b
    ensures Plain(a) <= Plain(b)
  {
    if a != b {
      PlainPrefix(a, b[..|b| - 1]);
    }
  }

  lemma {:induction false} PlainFromStore(msgs: seq<Message>, bound: nat)
    requires forall i | 0 <= i < |msgs| :: msgs[i].id < bound
    ensures forall i | 0 <= i < |Plain(msgs)| :: Plain(msgs)[i] < bound
  {
    if msgs != [] {
      PlainFromStore(msgs[..|msgs| - 1], bound);
    }
  }

  lemma CoversMore(ids: seq<MsgId>, plain: seq<MsgId>, more: seq<MsgId>)
    requires CoversPrefix(ids, plain) && plain <= more
    ensures CoversPrefix(ids, more)
  {
    assert more[..|ids|] == plain[..|ids|];
  }

  lemma AppendKeepsStore(s: State, covers: Option<seq<MsgId>>)
    requires StoreOk(s) && (covers.Some? ==> CoversPrefix(covers.value, Plain(s.store)))
    ensures StoreOk(Appended(s, covers)) && Plain(s.store) <= Plain(Appended(s, covers).store)
  {
    var t := Appended(s, covers);
    PlainFromStore(s.store, s.next);
    assert t.store[..|s.store|] == s.store;
    var plain, more := Plain(s.store), Plain(t.store);
    forall i | 0 <= i < |t.store| && t.store[i].covers.Some?
      ensures CoversPrefix(t.store[i].covers.value, more)
    {
      CoversMore(t.store[i].covers.value, plain, more);
    }
  }

  lemma TaskKept(s: State, t: State, st: Stage, c: Config)
    requires TaskOk(s, st, c) && s.store <= t.store
    ensures TaskOk(t, st, c)
  {
    PlainPrefix(s.store, t.store);
    if HasPlan(st) {
      CoversMore(st.seen, Plain(s.store), Plain(t.store));
      CoversMore(st.covered, Plain(s.store), Plain(t.store));
    }
  }

  lemma {:induction false} LatestIsCovered(store: seq<Message>, plain: seq<MsgId>)
    requires forall i | 0 <= i < |store| && store[i].covers.Some? :: CoversPrefix(store[i].covers.value, plain)
    ensures CoversPrefix(LatestCovered(store), plain)
  {
    if store != [] && store[|store| - 1].covers.None? {
      LatestIsCovered(store[..|store| - 1], plain);
    }
  }

  /** What is covered is said by the last summary of the timeline. */
  lemma {:induction false} LatestIs(store: seq<Message>)
    ensures !HasSummary(store) ==> LatestCovered(store) == []
    ensures forall i | 0 <= i < |store| && store[i].covers.Some?
                       && (forall j | i < j < |store| :: store[j].covers.None?) ::
              LatestCovered(store) == store[i].covers.value
  {
    if store != [] && store[|store| - 1].covers.None? {
      var front := store[..|store| - 1];
      LatestIs(front);
      assert forall j | 0 <= j < |front| :: front[j] == store[j];
    }
  }

  lemma NewPlanOk(s: State, raw: seq<Message>, covered: seq<MsgId>, c: Config)
    requires StoreOk(s) && raw <= s.store && IsPlan(raw, LatestCovered(s.store), c, covered)
    ensures TaskOk(s, Planned(raw, LatestCovered(s.store), covered, SummaryCount(s.store)), c)
  {
    LatestIsCovered(s.store, Plain(s.store));
    PlainPrefix(raw, s.store);
    PlanCovers(Plain(s.store), raw, LatestCovered(s.store), c, covered);
  }

  lemma StepKeepsStore(s: State, l: Label, c: Config)
    requires Inv(s, c)
    ensures StoreOk(Apply(s, l, c)) && s.store <= Apply(s, l, c).store
  {
    if Enabled(s, l, c) {
      if l.AddMessage? {
        AppendKeepsStore(s, None);
      } else if l.Land? {
        assert TaskOk(s, s.tasks[l.t].stage, c);
        AppendKeepsStore(s, Some(s.tasks[l.t].stage.covered));
      }
    }
  }

  lemma StepKeepsTasks(s: State, l: Label, c: Config)
    requires Inv(s, c)
    ensures forall t | t in Apply(s, l, c).tasks :: TaskOk(Apply(s, l, c), Apply(s, l, c).tasks[t].stage, c)
  {
    hide StoreOk, SlotsOk, CoversPrefix, Plain, LatestCovered, SummaryCount, Decide, IsPlan;
    var s' := Apply(s, l, c);
    StepKeepsStore(s, l, c);
    forall t | t in s'.tasks ensures TaskOk(s', s'.tasks[t].stage, c) {
      if t in s.tasks {
        var was := s.tasks[t].stage;
        assert TaskOk(s, was, c);
        if l.ReadCovered? && l.t == t && Enabled(s, l, c) {
          NewPlanOk(s, was.raw, l.covered, c);
        } else {
          TaskKept(s, s', was, c);
        }
      }
    }
  }

  lemma StepKeepsSlots(s: State, l: Label, c: Config)
    requires SlotsOk(s)
    ensures SlotsOk(Apply(s, l, c))
  {
  }

  lemma {:induction false} RunKeepsInv(run: seq<Label>, c: Config)
    ensures Inv(Exec(run, c), c)
  {
    if run != [] {
      var s, l := Exec(run[..|run| - 1], c), run[|run| - 1];
      RunKeepsInv(run[..|run| - 1], c);
      StepKeepsStore(s, l, c);
      StepKeepsTasks(s, l, c);
      StepKeepsSlots(s, l, c);
    }
  }

  lemma PlanIsOk(s: State, st: Stage, c: Config)
    requires StoreOk(s) && TaskOk(s, st, c) && HasPlan(st)
    ensures forall id | id in Last(Plain(st.raw), c.KeepLast()) :: id !in st.covered
  {
    hide Plain, CoversPrefix, Last;
    PlainPrefix(st.raw, s.store);
    assert Plain(st.raw) == Plain(s.store)[..|Plain(st.raw)|];
    LastNotCovered(Plain(s.store), |Plain(st.raw)|, c.KeepLast(), st.covered);
  }

  /**
  In every run, whatever its interleaving, each summary covers a prefix of the messages,
  without repeats and without summaries; so does what any task is about to record, which
  leaves out the last `keepLast` messages of its read.
  */
  lemma CoveredIsPrefix(run: seq<Label>, c: Config)
    ensures
      var s := Exec(run, c);
      && (forall i | 0 <= i < |s.store|
          && s.store[i].covers.Some? :: CoversPrefix(s.store[i].covers.value, Plain(s.store)))
      && (forall t | t in s.tasks && HasPlan(s.tasks[t].stage) ::
            var st := s.tasks[t].stage;
            && CoversPrefix(st.covered, Plain(s.store)) && Ids(st.seen) <= Ids(st.covered)
            && (forall id | id in Last(Plain(st.raw), c.KeepLast()) :: id !in st.covered))
  {
    var s := Exec(run, c);
    RunKeepsInv(run, c);
    forall t | t in s.tasks && HasPlan(s.tasks[t].stage)
      ensures forall id | id in Last(Plain(s.tasks[t].stage.raw), c.KeepLast()) :: id !in s.tasks[t].stage.covered
    {
      assert TaskOk(s, s.tasks[t].stage, c);
      PlanIsOk(s, s.tasks[t].stage, c);
    }
  }

  /** At most one summarisation runs per channel. */
  lemma SingleFlight(run: seq<Label>, c: Config, t: TaskId, u: TaskId)
    requires t in Exec(run, c).tasks && u in Exec(run, c).tasks
    requires Exec(run, c).tasks[t].stage.Running? && Exec(run, c).tasks[u].stage.Running?
    requires Exec(run, c).tasks[t].channel == Exec(run, c).tasks[u].channel
    ensures t == u
  {
    RunKeepsInv(run, c);
  }

  // ---------- Growing coverage

  /** Two covered prefixes are comparable: the longer contains the shorter. */
  lemma PrefixesCompare(a: seq<MsgId>, b: seq<MsgId>, plain: seq<MsgId>)
    requires Distinct(plain) && CoversPrefix(a, plain) && CoversPrefix(b, plain)
    ensures Ids(a) <= Ids(b) <==> |a| <= |b|
  {
    DistinctCount(a);
    DistinctCount(b);
    if |a| <= |b| {
      assert plain[..|a|] == plain[..|b|][..|a|];
    } else {
      NotSubset(Ids(a), Ids(b));
    }
  }

  lemma NotSubset(a: set<MsgId>, b: set<MsgId>)
    requires |a| > |b|
    ensures !(a <= b)
  {
    if a <= b {
      SubsetCount(a, b);
    }
  }

  /**
  When a task lands, its summary contains all that the latest one covers exactly if the task
  had read enough messages for both that coverage and the `keepLast` it leaves out.
  */
  lemma LandingContainsLatest(run: seq<Label>, c: Config, t: TaskId)
    requires t in Exec(run, c).tasks && Exec(run, c).tasks[t].stage.Running?
    ensures
      var s := Exec(run, c);
      var st := s.tasks[t].stage;
      Ids(LatestCovered(s.store)) <= Ids(st.covered) <==> |LatestCovered(s.store)| + c.KeepLast() <= |Plain(st.raw)|
  {
    hide Plain, LatestCovered, CoversPrefix;
    var s := Exec(run, c);
    RunKeepsInv(run, c);
    assert TaskOk(s, s.tasks[t].stage, c);
    LatestIsCovered(s.store, Plain(s.store));
    PrefixesCompare(LatestCovered(s.store), s.tasks[t].stage.covered, Plain(s.store));
  }

  /** Task `t` has read enough messages to cover strictly more than the latest summary does. */
  ghost predicate ReadMore(s: State, t: TaskId, c: Config)
    requires t in s.tasks && s.tasks[t].stage.Running?
  {
    |LatestCovered(s.store)| + c.KeepLast() < |Plain(s.tasks[t].stage.raw)|
  }

  ghost predicate LandsMore(s: State, l: Label, c: Config) {
    l.Land? && Enabled(s, l, c) ==> ReadMore(s, l.t, c)
  }

  /** Each later summary covers strictly more than each earlier one. */
  ghost predicate Growing(store: seq<Message>) {
    forall i, j | 0 <= i < j < |store| && store[i].covers.Some? && store[j].covers.Some? ::
      Ids(store[i].covers.value) < Ids(store[j].covers.value)
  }

  lemma GrowingNext(store: seq<Message>, m: Message)
    ensures m.covers.None? ==> (Growing(store + [m]) <==> Growing(store))
    ensures m.covers.Some? ==>
              (Growing(store + [m]) <==>
                 Growing(store) && forall i | 0 <= i < |store| && store[i].covers.Some? ::
                                     Ids(store[i].covers.value) < Ids(m.covers.value))
  {
    var more := store + [m];
    assert forall i | 0 <= i < |store| :: more[i] == store[i];
    assert more[|store|] == m;
  }

  /** With growing summaries, the next one covers more than all of them exactly if it covers more than the latest. */
  lemma MoreThanLatest(store: seq<Message>, ids: seq<MsgId>)
    requires Growing(store) && ids != []
    ensures (forall i | 0 <= i < |store| && store[i].covers.Some? :: Ids(store[i].covers.value) < Ids(ids))
       <==> Ids(LatestCovered(store)) < Ids(ids)
  {
    hide Growing;
    assert ids[0] in Ids(ids);
    LatestIsListed(store);
    forall i | 0 <= i < |store| && store[i].covers.Some?
      ensures Ids(store[i].covers.value) <= Ids(LatestCovered(store))
    {
      LatestIsLargest(store, i);
    }
  }

  lemma {:induction false} LatestIsListed(store: seq<Message>)
    ensures LatestCovered(store) == []
            || exists i :: 0 <= i < |store| && store[i].covers == Some(LatestCovered(store))
  {
    if store != [] && store[|store| - 1].covers.None? {
      LatestIsListed(store[..|store| - 1]);
      if LatestCovered(store) != [] {
        var i :| 0 <= i < |store| - 1 && store[..|store| - 1][i].covers == Some(LatestCovered(store[..|store| - 1]));
        assert store[i].covers == Some(LatestCovered(store));
      }
    }
  }

  /** One prefix is covered strictly by another exactly if it is shorter. */
  lemma PrefixesCompareStrictly(a: seq<MsgId>, b: seq<MsgId>, plain: seq<MsgId>)
    requires Distinct(plain) && CoversPrefix(a, plain) && CoversPrefix(b, plain)
    ensures Ids(a) < Ids(b) <==> |a| < |b|
  {
    hide CoversPrefix;
    PrefixesCompare(a, b, plain);
    PrefixesCompare(b, a, plain);
  }

  lemma StepGrowing(s: State, l: Label, c: Config)
    requires Inv(s, c)
    ensures Growing(Apply(s, l, c).store) <==> Growing(s.store) && LandsMore(s, l, c)
  {
    hide Growing, Plain, LatestCovered, CoversPrefix, SlotsOk, Decide, IsPlan, Distinct;
    if Enabled(s, l, c) && l.AddMessage? {
      GrowingNext(s.store, Message(s.next, None));
    } else if Enabled(s, l, c) && l.Land? {
      var st := s.tasks[l.t].stage;
      assert TaskOk(s, st, c);
      GrowingNext(s.store, Message(s.next, Some(st.covered)));
      LatestIsCovered(s.store, Plain(s.store));
      PrefixesCompareStrictly(LatestCovered(s.store), st.covered, Plain(s.store));
      if Growing(s.store) {
        MoreThanLatest(s.store, st.covered);
      }
    }
  }

  /** Every task that lands in the run had read enough to cover more than the latest summary at that moment. */
  ghost predicate AllLandMore(run: seq<Label>, c: Config) {
    forall k | 0 <= k < |run| :: LandsMore(Exec(run[..k], c), run[k], c)
  }

  lemma AllLandMoreNext(run: seq<Label>, c: Config)
    requires run != []
    ensures AllLandMore(run, c)
       <==> AllLandMore(run[..|run| - 1], c) && LandsMore(Exec(run[..|run| - 1], c), run[|run| - 1], c)
  {
    hide LandsMore, Exec;
    var prefix, n := run[..|run| - 1], |run| - 1;
    assert run[..n] == prefix;
    assert forall k | 0 <= k < n :: run[..k] == prefix[..k] && run[k] == prefix[k];
  }

  /**
  In every run, over any number of channels, the coverage of successive summaries grows
  strictly exactly if every task that lands had read enough messages.
  */
  lemma {:induction false} CoverageGrowsIff(run: seq<Label>, c: Config)
    ensures Growing(Exec(run, c).store) <==> AllLandMore(run, c)
  {
    hide LandsMore, Growing, Inv, Apply;
    if run == [] {
      NothingGrows();
    } else {
      var prefix := run[..|run| - 1];
      hide AllLandMore;
      CoverageGrowsIff(prefix, c);
      RunKeepsInv(prefix, c);
      StepGrowing(Exec(prefix, c), run[|run| - 1], c);
      AllLandMoreNext(run, c);
    }
  }

  lemma NothingGrows()
    ensures Growing(INIT.store)
  {
  }

  lemma {:induction false} LatestIsLargest(store: seq<Message>, i: nat)
    requires Growing(store) && i < |store| && store[i].covers.Some?
    ensures Ids(store[i].covers.value) <= Ids(LatestCovered(store))
  {
    if store[|store| - 1].covers.None? {
      LatestIsLargest(store[..|store| - 1], i);
    }
  }

  lemma AppendReads(s: State, covers: Option<seq<MsgId>>)
    ensures
      var store := Appended(s, covers).store;
      && SummaryCount(store) == SummaryCount(s.store) + (if covers.Some? then 1 else 0)
      && LatestCovered(store) == if covers.Some? then covers.value else LatestCovered(s.store)
  {
    assert Appended(s, covers).store[..|s.store|] == s.store;
  }

  /**
  A plan was made from what the latest summary covered then, and from what it covers now if none
  has landed since.
  */
  ghost predicate EpochOk(s: State, st: Stage) {
    HasPlan(st) ==>
      st.epoch <= SummaryCount(s.store) && (st.epoch == SummaryCount(s.store) ==> st.seen == LatestCovered(s.store))
  }

  lemma StepKeepsEpochs(s: State, l: Label, c: Config)
    requires forall t | t in s.tasks :: EpochOk(s, s.tasks[t].stage)
    ensures forall t | t in Apply(s, l, c).tasks :: EpochOk(Apply(s, l, c), Apply(s, l, c).tasks[t].stage)
  {
    hide Decide, IsPlan, LatestCovered, SummaryCount;
    AppendReads(s, None);
    if Enabled(s, l, c) && l.Land? {
      AppendReads(s, Some(s.tasks[l.t].stage.covered));
    }
    var s' := Apply(s, l, c);
    forall t | t in s'.tasks ensures EpochOk(s', s'.tasks[t].stage) {
      assert t in s.tasks ==> EpochOk(s, s.tasks[t].stage);
    }
  }

  lemma {:induction false} RunKeepsEpochs(run: seq<Label>, c: Config)
    ensures forall t | t in Exec(run, c).tasks :: EpochOk(Exec(run, c), Exec(run, c).tasks[t].stage)
  {
    hide EpochOk, Apply;
    if run == [] {
      assert Exec(run, c).tasks == map[];
    } else {
      RunKeepsEpochs(run[..|run| - 1], c);
      StepKeepsEpochs(Exec(run[..|run| - 1], c), run[|run| - 1], c);
    }
  }

  /** No summary has landed since the running task read what was covered. */
  ghost predicate IsFresh(s: State, t: TaskId)
    requires t in s.tasks && s.tasks[t].stage.Running?
  {
    s.tasks[t].stage.epoch == SummaryCount(s.store)
  }

  /** In every run, a task that lands with no summary in between covers strictly more than the latest one. */
  lemma FreshReadMore(run: seq<Label>, c: Config, t: TaskId)
    requires t in Exec(run, c).tasks && Exec(run, c).tasks[t].stage.Running? && IsFresh(Exec(run, c), t)
    ensures ReadMore(Exec(run, c), t, c)
  {
    hide Plain, LatestCovered, SummaryCount, CoversPrefix;
    RunKeepsEpochs(run, c);
    RunKeepsInv(run, c);
    assert EpochOk(Exec(run, c), Exec(run, c).tasks[t].stage);
    assert TaskOk(Exec(run, c), Exec(run, c).tasks[t].stage, c);
  }

  /**
  All triggers come from one channel, and none takes the slot after a summary has landed since
  it read what was covered.
  */
  ghost predicate Quiet(run: seq<Label>, c: Config, channel: Channel) {
    forall k | 0 <= k < |run| :: QuietStep(Exec(run[..k], c), run[k], c, channel)
  }

  ghost predicate QuietStep(s: State, l: Label, c: Config, channel: Channel) {
    && (l.ReadMessages? ==> l.channel == channel)
    && (l.TakeSlot? && Enabled(s, l, c) && channel !in s.inFlight ==>
        s.tasks[l.t].stage.epoch == SummaryCount(s.store))
  }

  ghost predicate AllFresh(s: State, channel: Channel) {
    && (forall t | t in s.tasks :: s.tasks[t].channel == channel)
    && (forall t | t in s.tasks && s.tasks[t].stage.Running? :: IsFresh(s, t))
  }

  lemma StepKeepsFresh(s: State, l: Label, c: Config, channel: Channel)
    requires SlotsOk(s) && AllFresh(s, channel) && QuietStep(s, l, c, channel)
    ensures AllFresh(Apply(s, l, c), channel)
  {
    hide Decide, IsPlan, LatestCovered, SummaryCount;
    AppendReads(s, None);
    if Enabled(s, l, c) && l.Land? {
      forall u | u in s.tasks && u != l.t ensures !s.tasks[u].stage.Running? {
        assert s.tasks[u].channel == s.tasks[l.t].channel;
      }
    }
  }

  lemma QuietPrefix(run: seq<Label>, c: Config, channel: Channel)
    requires run != [] && Quiet(run, c, channel)
    ensures Quiet(run[..|run| - 1], c, channel) && QuietStep(Exec(run[..|run| - 1], c), run[|run| - 1], c, channel)
  {
    hide QuietStep, Exec;
    var prefix := run[..|run| - 1];
    forall k | 0 <= k < |prefix| ensures prefix[..k] == run[..k] && prefix[k] == run[k] {
    }
  }

  lemma {:induction false} QuietKeepsFresh(run: seq<Label>, c: Config, channel: Channel)
    requires Quiet(run, c, channel)
    ensures AllFresh(Exec(run, c), channel)
  {
    hide QuietStep, Quiet, Apply, IsFresh;
    if run == [] {
      assert Exec(run, c).tasks == map[];
    } else {
      QuietPrefix(run, c, channel);
      QuietKeepsFresh(run[..|run| - 1], c, channel);
      RunKeepsInv(run[..|run| - 1], c);
      StepKeepsFresh(Exec(run[..|run| - 1], c), run[|run| - 1], c, channel);
    }
  }

  /**
  The single-flight slot carries freshness through to the landing: with one channel and no
  summary between the read and winning the slot, the coverage of successive summaries grows
  strictly.
  */
  lemma {:induction false} CoverageGrows(run: seq<Label>, c: Config, channel: Channel)
    requires Quiet(run, c, channel)
    ensures Growing(Exec(run, c).store) && AllLandMore(run, c)
  {
    hide QuietStep, Quiet, Growing, Apply, ReadMore;
    CoverageGrowsIff(run, c);
    if run != [] {
      var prefix, l := run[..|run| - 1], run[|run| - 1];
      hide AllLandMore;
      QuietPrefix(run, c, channel);
      CoverageGrows(prefix, c, channel);
      QuietKeepsFresh(prefix, c, channel);
      if l.Land? && Enabled(Exec(prefix, c), l, c) {
        FreshReadMore(prefix, c, l.t);
      }
      AllLandMoreNext(run, c);
    }
  }

  // ---------- When nothing is summarised

  lemma StepKeepsIdle(s: State, l: Label, c: Config)
    requires !c.Active() && s.tasks == map[] && forall i | 0 <= i < |s.store| :: s.store[i].covers.None?
    ensures Apply(s, l, c).tasks == map[]
    ensures forall i | 0 <= i < |Apply(s, l, c).store| :: Apply(s, l, c).store[i].covers.None?
  {
  }

  /** Disabled, or told to keep as many messages as it takes to start, it never starts a task nor leaves a summary. */
  lemma {:induction false} IdleUnlessActive(run: seq<Label>, c: Config)
    requires
      var t := if c.threshold <= 0 then 20 else c.threshold;
      var k := if c.keepLast <= 0 then 10 else c.keepLast;
      !c.enabled || k >= t
    ensures Exec(run, c).tasks == map[]
    ensures forall i | 0 <= i < |Exec(run, c).store| :: Exec(run, c).store[i].covers.None?
  {
    hide Apply;
    if run != [] {
      IdleUnlessActive(run[..|run| - 1], c);
      StepKeepsIdle(Exec(run[..|run| - 1], c), run[|run| - 1], c);
    }
  }

  // ---------- After a summary has landed

  /** A timeline whose latest summary covers all but `rest` of its messages: whether a trigger does nothing. */
  lemma TriggerOnRest(now: seq<Message>, covered: seq<MsgId>, rest: nat, c: Config)
    requires Distinct(Plain(now)) && CoversPrefix(covered, Plain(now)) && |covered| + rest == |Plain(now)|
    requires c.Active() && LatestCovered(now) == covered && SummaryCount(now) > 0
    ensures Decide(now, LatestCovered(now), c).None? <==> rest <= c.KeepLast() || rest + 1 < c.Threshold()
  {
    hide Plain, Without, SummaryCount, LatestCovered, CoversPrefix, Distinct;
    UncoveredIsRest(Plain(now), |Plain(now)|, covered);
    assert Plain(now)[..|Plain(now)|] == Plain(now);
  }

  /**
  Whenever a summary lands, in any run, a trigger that reads right after it does nothing
  exactly when no message came in since the summary's own read, or too few to reach the
  threshold again.
  */
  lemma TriggerAfterLanding(run: seq<Label>, c: Config, t: TaskId)
    requires t in Exec(run, c).tasks && Exec(run, c).tasks[t].stage.Running?
    ensures
      var s := Exec(run, c);
      var now := Apply(s, Land(t), c).store;
      var added := |Plain(now)| - |Plain(s.tasks[t].stage.raw)|;
      && added >= 0
      && (Decide(now, LatestCovered(now), c).None? <==> added == 0 || c.KeepLast() + added + 1 < c.Threshold())
  {
    hide Decide, CoversPrefix, Distinct, Plain, SummaryCount, LatestCovered;
    var s := Exec(run, c);
    var st := s.tasks[t].stage;
    if !c.Active() {
      IdleUnlessActive(run, c);
      assert false;
    }
    RunKeepsInv(run, c);
    assert TaskOk(s, st, c);
    AppendReads(s, Some(st.covered));
    AppendKeepsStore(s, Some(st.covered));
    var now := Apply(s, Land(t), c).store;
    assert now == Appended(s, Some(st.covered)).store;
    CoversMore(st.covered, Plain(s.store), Plain(now));
    PlainPrefix(st.raw, s.store);
    TriggerOnRest(now, st.covered, |Plain(now)| - |st.covered|, c);
  }

  // ---------- A run in which coverage shrinks

  const SMALL := Config(true, 2, 1)

  function Add(id: MsgId): Message {
    Message(id, None)
  }

  /** Task 1 plans from two messages, task 0 from three; task 0 lands first, and task 1 then lands its older plan. */
  function StaleRun(): seq<Label> {
    [AddMessage, AddMessage, ReadMessages(1, "cc"), ReadCovered(1, [0]),
     AddMessage, ReadMessages(0, "cc"), ReadCovered(0, [0, 1]),
     TakeSlot(0), Land(0), Release(0), TakeSlot(1), Land(1)]
  }

  lemma Next(run: seq<Label>, i: nat, s: State, c: Config, l: Label)
    requires i < |run| && run[i] == l && Exec(run[..i], c) == s
    ensures Exec(run[..i + 1], c) == Apply(s, l, c)
  {
    hide Apply;
    assert run[..i + 1][..i] == run[..i];
  }

  const M2 := [Add(0), Add(1)]
  const M3 := [Add(0), Add(1), Add(2)]
  const M4 := M3 + [Message(3, Some([0, 1]))]
  const STALE := Task("cc", Planned(M2, [], [0], 0))
  const FRESH := Task("cc", Planned(M3, [], [0, 1], 0))

  lemma {:induction false} NoSummaries(raw: seq<Message>)
    requires forall i | 0 <= i < |raw| :: raw[i].covers.None?
    ensures |Plain(raw)| == |raw| && forall i | 0 <= i < |raw| :: Plain(raw)[i] == raw[i].id
    ensures SummaryCount(raw) == 0 && LatestCovered(raw) == []
  {
    if raw != [] {
      NoSummaries(raw[..|raw| - 1]);
    }
  }

  lemma {:induction false} WithoutNothing(ids: seq<MsgId>)
    ensures Without(ids, {}) == ids
  {
    if ids != [] {
      WithoutNothing(ids[..|ids| - 1]);
      assert ids == ids[..|ids| - 1] + [ids[|ids| - 1]];
    }
  }

  lemma PlanOf(raw: seq<Message>, chosen: seq<MsgId>)
    requires forall i | 0 <= i < |raw| :: raw[i].covers.None?
    requires |raw| == |chosen| + 1 >= 2 && forall i | 0 <= i < |chosen| :: chosen[i] == raw[i].id
    ensures Decide(raw, [], SMALL) == Some(chosen) && IsPlan(raw, [], SMALL, chosen)
  {
    hide Plain, SummaryCount, LatestCovered, Without;
    NoSummaries(raw);
    WithoutNothing(Plain(raw));
    assert Ids([]) == {};
    assert Plain(raw)[..|chosen|] == chosen;
    assert chosen[..0] + chosen == chosen;
  }

  lemma FirstPlans()
    ensures Exec(StaleRun()[..4], SMALL) == State(M2, 2, {}, map[1 := STALE])
  {
    hide IsPlan, Decide, Exec, Ids, Plain, Without, LatestCovered, SummaryCount;
    var run := StaleRun();
    StartOfRun(run, SMALL);
    Next(run, 0, INIT, SMALL, AddMessage);
    Next(run, 1, State([Add(0)], 1, {}, map[]), SMALL, AddMessage);
    Next(run, 2, State(M2, 2, {}, map[]), SMALL, ReadMessages(1, "cc"));
    PlanOf(M2, [0]);
    NoSummaries(M2);
    Next(run, 3, State(M2, 2, {}, map[1 := Task("cc", HasRead(M2))]), SMALL, ReadCovered(1, [0]));
  }

  /** The first half of the run: both tasks have planned. */
  lemma BothPlan()
    ensures Exec(StaleRun()[..7], SMALL) == State(M3, 3, {}, map[1 := STALE, 0 := FRESH])
  {
    hide IsPlan, Decide, Exec, Ids, Plain, Without, LatestCovered, SummaryCount;
    var run := StaleRun();
    FirstPlans();
    Next(run, 4, State(M2, 2, {}, map[1 := STALE]), SMALL, AddMessage);
    Next(run, 5, State(M3, 3, {}, map[1 := STALE]), SMALL, ReadMessages(0, "cc"));
    PlanOf(M3, [0, 1]);
    NoSummaries(M3);
    Next(run, 6, State(M3, 3, {}, map[1 := STALE, 0 := Task("cc", HasRead(M3))]), SMALL, ReadCovered(0, [0, 1]));
  }

  lemma StartOfRun(run: seq<Label>, c: Config)
    ensures Exec(run[..0], c) == INIT
  {
  }

  /** Without the proviso of `CoverageGrows`, a later summary can cover less than an earlier one. */
  lemma CoverageCanShrink()
    ensures
      var store := Exec(StaleRun(), SMALL).store;
      |store| == 5 && store[3].covers == Some([0, 1]) && store[4].covers == Some([0])
  {
    hide IsPlan, Decide, Exec;
    var run := StaleRun();
    BothPlan();
    var r0 := Task("cc", Running(M3, [], [0, 1], 0));
    var r1 := Task("cc", Running(M2, [], [0], 0));
    Next(run, 7, State(M3, 3, {}, map[1 := STALE, 0 := FRESH]), SMALL, TakeSlot(0));
    Next(run, 8, State(M3, 3, {"cc"}, map[1 := STALE, 0 := r0]), SMALL, Land(0));
    Next(run, 9, State(M4, 4, {"cc"}, map[1 := STALE, 0 := Task("cc", Ended)]), SMALL, Release(0));
    Next(run, 10, State(M4, 4, {}, map[1 := STALE]), SMALL, TakeSlot(1));
    Next(run, 11, State(M4, 4, {"cc"}, map[1 := r1]), SMALL, Land(1));
    assert run[..12] == run;
  }
}
