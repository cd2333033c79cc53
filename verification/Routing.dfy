/**
The route decision of one message: a chain of stages, each of which may replace the route
that the classifier chose.  The classifier is any function of the message it is given.
*/
module Routing {
  import opened Integers
  import opened Sequences
  import opened Wrappers
  import opened Tiers

  datatype RouteResult = RouteResult(tier: string, response: string, react: string) {
    /** The router answered by itself and chose no tier. */
    predicate IsDirect() {
      response != "" && tier == ""
    }
  }

  function ToTier(tier: string): RouteResult {
    RouteResult(tier, "", "")
  }

  datatype InMessage = InMessage(text: string, routerText: string, isReply: bool, replyTo: string, hasMedia: bool) {
    function ForRouter(): string {
      if routerText == "" then text else routerText
    }
  }

  datatype RecallResult = RecallResult(block: string, bestDist: real) {
    predicate Escalates() {
      block != "" && bestDist < 0.6
    }
  }

  /**
  What the rest of the engine supplies: `minTier` is the tier that the active skills require,
  `hasTeams` is `None` without an orchestrator.
  */
  datatype Context = Context(
    snap: Snapshot, classify: string -> RouteResult, recall: RecallResult, minTier: string, onboarding: bool,
    hasTeams: Option<bool>, modelOf: string -> string, cancelledEarly: bool, cancelledLate: bool)

  datatype Outcome =
    | Cancelled
    | Direct(response: string, react: string)
    | NoModel(tier: string)
    | Agent(tier: string)
    | Standard(tier: string)

  // ---------- Stages

  /** A forced tier counts only while some tier of that name is enabled or can be forced. */
  predicate IsForceable(name: string, s: Snapshot) {
    exists i :: 0 <= i < |s.tiers| && s.tiers[i].name == name && (s.tiers[i].enabled || s.tiers[i].forceCommand)
  }

  method CheckForced(forced: string, snap: Snapshot) returns (r: string)
    ensures r == if IsForceable(forced, snap) then forced else ""
    ensures r != "" <==> forced != "" && exists i :: 0 <= i < |snap.tiers| && snap.tiers[i].name == forced
                                                     && (snap.tiers[i].enabled || snap.tiers[i].forceCommand)
    ensures r != "" ==> r == forced
  {
    r := forced;
    if forced != "" {
      var i := 0;
      while i < |snap.tiers|
        invariant i <= |snap.tiers|
        invariant forall j | 0 <= j < i ::
                    !(snap.tiers[j].name == forced && (snap.tiers[j].enabled || snap.tiers[j].forceCommand))
      {
        if snap.tiers[i].name == forced && (snap.tiers[i].enabled || snap.tiers[i].forceCommand) {
          return;
        }
        i := i + 1;
      }
      r := "";
    }
  }

  /**
  The router's choice will do for media: it names a tier, carries no answer, and every tier of
  that name has the Read tool.
  */
  predicate SuitsMedia(route: RouteResult, s: Snapshot) {
    && route.tier != "" && route.response == ""
    && forall i | 0 <= i < |s.tiers| && s.tiers[i].name == route.tier :: TierHasRead(s.tiers[i])
  }

  /** Media with a caption keep the router's choice if it will do; all other media go to the media tier. */
  function MediaRoute(routerMsg: string, s: Snapshot, classify: string -> RouteResult): RouteResult {
    if routerMsg != "" && SuitsMedia(classify(routerMsg), s) then classify(routerMsg) else ToTier(MediaTier(s))
  }

  method RouteMedia(routerMsg: string, snap: Snapshot, classify: string -> RouteResult) returns (route: RouteResult)
    ensures route == MediaRoute(routerMsg, snap, classify)
    ensures
      var choice := classify(routerMsg);
      var suits := && routerMsg != "" && choice.tier != "" && choice.response == ""
                   && forall i | 0 <= i < |snap.tiers| && snap.tiers[i].name == choice.tier ::
                        snap.tiers[i].writeCapable || "*" in snap.tiers[i].tools || "Read" in snap.tiers[i].tools;
      route == if suits then choice else RouteResult(MediaTier(snap), "", "")
  {
    if routerMsg != "" {
      route := classify(routerMsg);
      var needsUpgrade := false;
      if route.tier == "" || route.response != "" {
        needsUpgrade := true;
      } else {
        var i := 0;
        while i < |snap.tiers|
          invariant i <= |snap.tiers| && !needsUpgrade
          invariant forall j | 0 <= j < i && snap.tiers[j].name == route.tier :: TierHasRead(snap.tiers[j])
        {
          if snap.tiers[i].name == route.tier && !TierHasRead(snap.tiers[i]) {
            needsUpgrade := true;
            break;
          }
          i := i + 1;
        }
      }
      if needsUpgrade {
        var upgraded := LowestMediaTier(snap);
        return ToTier(upgraded);
      }
      return;
    }
    var name := LowestMediaTier(snap);
    route := ToTier(name);
  }

  /** The priority of the last tier of this name, or -1. */
  function LastPriority(ts: seq<TierInfo>, name: string): int {
    if ts == [] then -1
    else if ts[|ts| - 1].name == name then ts[|ts| - 1].priority
    else LastPriority(ts[..|ts| - 1], name)
  }

  function SkillTier(route: RouteResult, minTier: string, ts: seq<TierInfo>): RouteResult {
    if route.IsDirect() then ToTier(minTier)
    else if route.tier != "" && route.tier != minTier
            && LastPriority(ts, minTier) >= 0
            && LastPriority(ts, route.tier) < LastPriority(ts, minTier) then ToTier(minTier)
    else route
  }

  method ApplySkillTierOverride(route: RouteResult, minTier: string, snap: Snapshot) returns (r: RouteResult)
    ensures r == SkillTier(route, minTier, snap.tiers)
    ensures r == route || r == RouteResult(minTier, "", "")
    ensures route.response != "" && route.tier == "" ==> r == RouteResult(minTier, "", "")
  {
    if route.response != "" && route.tier == "" {
      return ToTier(minTier);
    }
    if route.tier != "" && route.tier != minTier {
      var currentPri, requiredPri := -1, -1;
      var i := 0;
      while i < |snap.tiers|
        invariant i <= |snap.tiers|
        invariant currentPri == LastPriority(snap.tiers[..i], route.tier)
        invariant requiredPri == LastPriority(snap.tiers[..i], minTier)
      {
        assert snap.tiers[..i + 1][..i] == snap.tiers[..i];
        if snap.tiers[i].name == route.tier {
          currentPri := snap.tiers[i].priority;
        }
        if snap.tiers[i].name == minTier {
          requiredPri := snap.tiers[i].priority;
        }
        i := i + 1;
      }
      assert snap.tiers[..i] == snap.tiers;
      if requiredPri >= 0 && currentPri < requiredPri {
        return ToTier(minTier);
      }
    }
    r := route;
  }

  ghost predicate UniqueNames(ts: seq<TierInfo>) {
    forall i, j | 0 <= i < j < |ts| :: ts[i].name != ts[j].name
  }

  lemma {:induction false} LastPriorityIs(ts: seq<TierInfo>, i: nat)
    requires i < |ts| && forall j | i < j < |ts| :: ts[j].name != ts[i].name
    ensures LastPriority(ts, ts[i].name) == ts[i].priority
  {
    if i < |ts| - 1 {
      LastPriorityIs(ts[..|ts| - 1], i);
    }
  }

  lemma {:induction false} LastPriorityMissing(ts: seq<TierInfo>, name: string)
    requires forall i | 0 <= i < |ts| :: ts[i].name != name
    ensures LastPriority(ts, name) == -1
  {
    if ts != [] {
      LastPriorityMissing(ts[..|ts| - 1], name);
    }
  }

  /** The priority of the last tier of this name; -1 for a name that is not listed. */
  ghost predicate HasPriority(ts: seq<TierInfo>, name: string, priority: int) {
    || (exists i :: 0 <= i < |ts| && ts[i].name == name && ts[i].priority == priority
                    && forall j | i < j < |ts| :: ts[j].name != name)
    || ((forall i | 0 <= i < |ts| :: ts[i].name != name) && priority == -1)
  }

  lemma PriorityIsLast(ts: seq<TierInfo>, name: string, priority: int)
    requires HasPriority(ts, name, priority)
    ensures LastPriority(ts, name) == priority
  {
    if i :| 0 <= i < |ts| && ts[i].name == name && ts[i].priority == priority
            && forall j | i < j < |ts| :: ts[j].name != name
    {
      LastPriorityIs(ts, i);
    } else {
      LastPriorityMissing(ts, name);
    }
  }

  /**
  The skill override takes the higher of the two priorities, which are those of the last tier
  of each name, so it never lowers one; a required tier that is not listed or has a negative priority never
  displaces another, and a tier that is not listed gives way to any other.
  */
  lemma SkillOverrideTakesMaximum(ts: seq<TierInfo>, route: RouteResult, required: string,
                                                     p: int, q: int)
    requires route.tier != "" && HasPriority(ts, route.tier, p) && HasPriority(ts, required, q)
    ensures
      var r := SkillTier(route, required, ts);
      && (q >= 0 && p < q ==> r == ToTier(required))
      && (q < 0 || q <= p ==> r == route)
      && LastPriority(ts, r.tier) == (if q >= 0 && p < q then q else p) >= p
  {
    PriorityIsLast(ts, route.tier, p);
    PriorityIsLast(ts, required, q);
  }

  // ---------- The composition

  function ReplyHint(msg: InMessage): string {
    (if msg.replyTo != "" then "[The user is replying to:\n---\n" + msg.replyTo + "\n---\n]\n" + msg.text else msg.text)
    + "\n[CONTEXT: This is a reply to a previous assistant message."
    + " Route to an appropriate tier - do not respond directly.]"
  }

  /** Everything that keeps the router's own answer from being sent. */
  predicate NeedsTier(msg: InMessage, forced: string, c: Context) {
    forced != "" || msg.hasMedia || msg.isReply || c.recall.Escalates() || c.minTier != "" || c.onboarding
  }

  /** The second opinion on a reply that the router wanted to answer itself. */
  function Reclassified(msg: InMessage, c: Context): RouteResult {
    var again := c.classify(ReplyHint(msg));
    if again.tier != "" then again else ToTier(FirstFallbackTier(c.snap))
  }

  /** The route before skills and onboarding: the first of these that applies. */
  function BaseRoute(msg: InMessage, forced: string, c: Context): RouteResult {
    var first := c.classify(msg.ForRouter());
    if forced != "" then ToTier(forced)
    else if msg.hasMedia then MediaRoute(msg.ForRouter(), c.snap, c.classify)
    else if !first.IsDirect() then first
    else if msg.isReply then Reclassified(msg, c)
    else if c.recall.Escalates() then ToTier(FirstFallbackTier(c.snap))
    else first
  }

  function ChosenRoute(msg: InMessage, forced: string, c: Context): RouteResult {
    if c.onboarding then ToTier(OnboardingPick(c.snap))
    else if c.minTier != "" then SkillTier(BaseRoute(msg, forced, c), c.minTier, c.snap.tiers)
    else BaseRoute(msg, forced, c)
  }

  /**
  The stages up to the point where the router's own answer may be sent; `None` when the request
  was cancelled on the way.
  */
  method ChooseRoute(msg: InMessage, forced: string, c: Context) returns (r: Option<RouteResult>)
    ensures r == if c.cancelledEarly then None else Some(ChosenRoute(msg, forced, c))
    ensures r.Some? ==> (r.value.IsDirect() <==> !NeedsTier(msg, forced, c) && c.classify(msg.ForRouter()).IsDirect())
    ensures r.Some? && r.value.IsDirect() ==> r.value == c.classify(msg.ForRouter())
    ensures r.Some? && forced != "" && c.minTier == "" && !c.onboarding ==> r.value == RouteResult(forced, "", "")
  {
    DirectIff(msg, forced, c);
    hide MediaTier, FirstFallbackTier, OnboardingPick, LastPriority, ReplyHint, SuitsMedia;
    var route;
    if forced != "" {
      route := ToTier(forced);
    } else if msg.hasMedia {
      route := RouteMedia(msg.ForRouter(), c.snap, c.classify);
    } else {
      route := c.classify(msg.ForRouter());
    }
    if c.cancelledEarly {
      return None;
    }
    if msg.isReply && forced == "" && route.response != "" && route.tier == "" {
      var reclassified := c.classify(ReplyHint(msg));
      if reclassified.tier != "" {
        route := reclassified;
      } else {
        route := ToTier(FirstFallbackTier(c.snap));
      }
    }
    if c.recall.block != "" && c.recall.bestDist < 0.6 && route.response != "" && route.tier == "" {
      route := ToTier(FirstFallbackTier(c.snap));
    }
    if c.minTier != "" {
      route := ApplySkillTierOverride(route, c.minTier, c.snap);
    }
    if c.onboarding {
      var name := OnboardingTier(c.snap);
      route := ToTier(name);
    }
    r := Some(route);
  }

  /** A direct answer comes out exactly when the router gave one and nothing asks for a tier. */
  lemma DirectIff(msg: InMessage, forced: string, c: Context)
    ensures ChosenRoute(msg, forced, c).IsDirect()
       <==> !NeedsTier(msg, forced, c) && c.classify(msg.ForRouter()).IsDirect()
    ensures ChosenRoute(msg, forced, c).IsDirect() ==> ChosenRoute(msg, forced, c) == c.classify(msg.ForRouter())
  {
    hide MediaTier, FirstFallbackTier, OnboardingPick, LastPriority, ReplyHint;
  }

  /** What each thing that asks for a tier gets, in turn. */
  lemma StagesApply(msg: InMessage, forced: string, c: Context)
    ensures
      var route := ChosenRoute(msg, forced, c);
      var first := c.classify(if msg.routerText == "" then msg.text else msg.routerText);
      var quoted := if msg.replyTo == "" then "" else "[The user is replying to:\n---\n" + msg.replyTo + "\n---\n]\n";
      var again := c.classify(quoted + msg.text + "\n[CONTEXT: This is a reply to a previous assistant message."
                              + " Route to an appropriate tier - do not respond directly.]");
      var fallback := RouteResult(FirstFallbackTier(c.snap), "", "");
      var plain := forced == "" && !msg.hasMedia && !c.onboarding && c.minTier == "";
      var answered := first.response != "" && first.tier == "";
      && (c.onboarding ==> route == RouteResult(OnboardingPick(c.snap), "", ""))
      && (plain && !answered ==> route == first)
      && (plain && answered && msg.isReply ==> route == if again.tier != "" then again else fallback)
      && (plain && answered && !msg.isReply && c.recall.block != "" && c.recall.bestDist < 0.6 ==> route == fallback)
      && (!c.onboarding && c.minTier != "" && forced == "" && !msg.hasMedia && answered && !msg.isReply ==>
            c.recall.block == "" || c.recall.bestDist >= 0.6 ==> route == RouteResult(c.minTier, "", ""))
  {
    hide FirstFallbackTier, OnboardingPick, LastPriority, MediaTier, ReplyHint, SuitsMedia;
    HintIs(msg);
  }

  lemma HintIs(msg: InMessage)
    ensures
      var quoted := if msg.replyTo == "" then "" else "[The user is replying to:\n---\n" + msg.replyTo + "\n---\n]\n";
      ReplyHint(msg) == quoted + msg.text + "\n[CONTEXT: This is a reply to a previous assistant message."
                        + " Route to an appropriate tier - do not respond directly.]"
  {
    assert "" + msg.text == msg.text;
  }

  // ---------- From the route to the invocation

  /** The tier that serves a route: a tier that nobody forced gives way to the first fallback if it cannot serve. */
  function ServingTier(tier: string, forced: string, s: Snapshot): string {
    if forced == "" && tier != "" && !IsTierValid(tier, s) then FirstFallbackTier(s) else tier
  }

  /** How a serving tier is dispatched: to the agents, if it is an orchestrator that can work. */
  function Dispatched(tier: string, c: Context): Outcome {
    if !IsOrchestratorTier(tier, c.snap) || c.hasTeams.None? then Standard(tier)
    else if c.modelOf(tier) == "" then NoModel(tier)
    else if c.hasTeams.value then Agent(tier)
    else Standard(FirstFallbackTier(c.snap))
  }

  function Decision(msg: InMessage, forced: string, c: Context): Outcome {
    var route := ChosenRoute(msg, forced, c);
    if c.cancelledEarly then Cancelled
    else if route.IsDirect() then Direct(route.response, route.react)
    else if c.cancelledLate then Cancelled
    else Dispatched(ServingTier(route.tier, forced, c.snap), c)
  }

  /**
  What the composition comes to.  The router's own answer is sent exactly when it gave one and
  nothing asks for a tier, and then unchanged; apart from that only cancellation keeps a
  message from a tier.  A tier that nobody forced reaches invocation only if it is empty,
  valid, or the first fallback tier; a forced one is kept unless a skill, onboarding or an
  orchestrator without teams displaces it; and agents get only orchestrators that can work.
  */
  ghost predicate IsSound(out: Outcome, msg: InMessage, forced: string, c: Context) {
    var first := c.classify(if msg.routerText == "" then msg.text else msg.routerText);
    var direct := && first.response != "" && first.tier == ""
                  && forced == "" && !msg.hasMedia && !msg.isReply && c.minTier == "" && !c.onboarding
                  && !(c.recall.block != "" && c.recall.bestDist < 0.6);
    && (out.Direct? <==> direct && !c.cancelledEarly)
    && (out.Direct? ==> out == Direct(first.response, first.react))
    && (out.Cancelled? <==> c.cancelledEarly || (c.cancelledLate && !direct))
    && (!out.Direct? && !out.Cancelled? ==>
          && (forced == "" ==>
                || out.tier == "" || out.tier == FirstFallbackTier(c.snap)
                || exists i :: 0 <= i < |c.snap.tiers| && c.snap.tiers[i].name == out.tier
                               && c.snap.tiers[i].enabled && (c.snap.tiers[i].routable || c.snap.tiers[i].forceCommand))
          && (forced != "" && c.minTier == "" && !c.onboarding ==>
                || out.tier == forced
                || (out.Standard? && Orchestrates(forced, c.snap.tiers) && c.hasTeams == Some(false)
                    && out.tier == FirstFallbackTier(c.snap)))
          && (out.Agent?
              <==> Orchestrates(out.tier, c.snap.tiers) && c.hasTeams == Some(true) && c.modelOf(out.tier) != "")
          && (out.NoModel? ==> Orchestrates(out.tier, c.snap.tiers) && c.hasTeams.Some? && c.modelOf(out.tier) == ""))
  }

  /** The first tier of the name is an orchestrator. */
  ghost predicate Orchestrates(name: string, ts: seq<TierInfo>) {
    exists i :: 0 <= i < |ts| && ts[i].name == name && ts[i].role == "orchestrator"
                && forall j | 0 <= j < i :: ts[j].name != name
  }

  lemma OrchestratorsAre(name: string, s: Snapshot)
    ensures IsOrchestratorTier(name, s) <==> Orchestrates(name, s.tiers)
  {
  }

  lemma DecisionIsSound(msg: InMessage, forced: string, c: Context)
    ensures IsSound(Decision(msg, forced, c), msg, forced, c)
  {
    hide FirstFallbackTier, IsOrchestratorTier, OnboardingPick, LastPriority, ChosenRoute, Orchestrates;
    hide MediaTier, ReplyHint, SuitsMedia;
    DirectIff(msg, forced, c);
    ForcedStays(msg, forced, c);
    OrchestratorsAre(forced, c.snap);
    if Decision(msg, forced, c).Agent? || Decision(msg, forced, c).NoModel? || Decision(msg, forced, c).Standard? {
      OrchestratorsAre(Decision(msg, forced, c).tier, c.snap);
    }
  }

  lemma ForcedStays(msg: InMessage, forced: string, c: Context)
    ensures forced != "" && c.minTier == "" && !c.onboarding ==>
              ChosenRoute(msg, forced, c) == RouteResult(forced, "", "")
  {
    hide FirstFallbackTier, OnboardingPick, LastPriority, MediaTier, ReplyHint, SuitsMedia;
  }

  /** The whole decision. */
  method Route(msg: InMessage, requested: string, c: Context) returns (out: Outcome, forced: string)
    ensures forced == if IsForceable(requested, c.snap) then requested else ""
    ensures forced != ""
       <==> requested != "" && exists i :: 0 <= i < |c.snap.tiers| && c.snap.tiers[i].name == requested
                                           && (c.snap.tiers[i].enabled || c.snap.tiers[i].forceCommand)
    ensures out == Decision(msg, forced, c)
    ensures IsSound(out, msg, forced, c)
  {
    hide FirstFallbackTier, IsTierValid, IsOrchestratorTier, IsForceable, ChosenRoute;
    forced := CheckForced(requested, c.snap);
    DecisionIsSound(msg, forced, c);
    hide IsSound;
    var chosen := ChooseRoute(msg, forced, c);
    if chosen.None? {
      return Cancelled, forced;
    }
    var route := chosen.value;
    if route.response != "" && route.tier == "" {
      return Direct(route.response, route.react), forced;
    }
    if route.tier != "" && forced == "" {
      if !IsTierValid(route.tier, c.snap) {
        route := ToTier(FirstFallbackTier(c.snap));
      }
    }
    if c.cancelledLate {
      return Cancelled, forced;
    }
    if IsOrchestratorTier(route.tier, c.snap) && c.hasTeams.Some? {
      if c.modelOf(route.tier) == "" {
        return NoModel(route.tier), forced;
      }
      if !c.hasTeams.value {
        route := ToTier(FirstFallbackTier(c.snap));
      } else {
        return Agent(route.tier), forced;
      }
    }
    out := Standard(route.tier);
  }

  /**
  A message that nothing overrides is served by the classifier's tier exactly when that tier can
  serve or is the fallback.
  */
  lemma PlainMessageGetsItsTier(msg: InMessage, c: Context)
    requires !NeedsTier(msg, "", c) && !c.cancelledEarly && !c.cancelledLate
    requires c.classify(msg.ForRouter()).tier != ""
    ensures
      var tier := c.classify(msg.ForRouter()).tier;
      && Decision(msg, "", c) == Dispatched(if IsTierValid(tier, c.snap) then tier else FirstFallbackTier(c.snap), c)
      && (IsTierValid(tier, c.snap) && !IsOrchestratorTier(tier, c.snap) ==> Decision(msg, "", c) == Standard(tier))
  {
    hide FirstFallbackTier, IsTierValid, IsOrchestratorTier;
  }

  // ---------- What the serving tier can do

  /** Invocation on this name can read files: it takes the first tier of the name. */
  predicate CanRead(name: string, s: Snapshot) {
    var i := First(s.tiers, Named(name));
    i >= 0 && TierHasRead(s.tiers[i])
  }

  lemma NamedTierIsListed(name: string, s: Snapshot)
    requires IsTierValid(name, s)
    ensures First(s.tiers, Named(name)) >= 0 && s.tiers[First(s.tiers, Named(name))].name == name
  {
    var i :| 0 <= i < |s.tiers| && s.tiers[i].name == name;
    assert Named(name)(s.tiers[i]);
    assert Named(name)(s.tiers[First(s.tiers, Named(name))]);
  }

  /** Whether the tier that serves media can read, in terms of the tier chosen for them. */
  lemma MediaReads(msg: InMessage, c: Context)
    requires msg.hasMedia && c.minTier == "" && !c.onboarding
    ensures
      var s, chosen := c.snap, ChosenRoute(msg, "", c).tier;
      var kept := msg.ForRouter() != "" && SuitsMedia(c.classify(msg.ForRouter()), s);
      CanRead(ServingTier(chosen, "", s), s)
      <==> if chosen == "" || IsTierValid(chosen, s) then kept || CanRead(MediaTier(s), s)
           else CanRead(FirstFallbackTier(s), s)
  {
    hide MediaTier, FirstFallbackTier, TierHasRead, IsTierValid;
    var s := c.snap;
    var first := c.classify(msg.ForRouter());
    if msg.ForRouter() != "" && SuitsMedia(first, s) && IsTierValid(first.tier, s) {
      NamedTierIsListed(first.tier, s);
    }
  }

  lemma MediaTierIsListed(s: Snapshot)
    requires UniqueNames(s.tiers) && forall i | 0 <= i < |s.tiers| :: s.tiers[i].name != ""
    requires exists i :: 0 <= i < |s.tiers| && Reads(s.tiers[i]) && s.tiers[i].priority < MAX_INT
    ensures MediaTier(s) != "" && CanRead(MediaTier(s), s)
  {
    hide MediaTier, TierHasRead;
    ReadersAre(s.tiers);
    MediaTierReads(s);
    var i :| 0 <= i < |s.tiers| && s.tiers[i].name == MediaTier(s) && Reads(s.tiers[i]);
    assert Named(MediaTier(s))(s.tiers[i]);
    var k := First(s.tiers, Named(MediaTier(s)));
    assert Named(MediaTier(s))(s.tiers[k]);
    assert i == k;
  }

  /** The message is handed on, to a provider or to the agents, on a tier that can read. */
  predicate EndsOnReader(out: Outcome, s: Snapshot) {
    (out.Standard? || out.Agent?) && CanRead(out.tier, s)
  }

  /** The serving tier is an orchestrator in an engine that has one. */
  predicate GoesToAgents(tier: string, c: Context) {
    IsOrchestratorTier(tier, c.snap) && c.hasTeams.Some?
  }

  /**
  The chosen tier is not the one the message ends on: it cannot serve, or it serves as an
  orchestrator without teams.
  */
  predicate IsDisplaced(chosen: string, c: Context) {
    || (chosen != "" && !IsTierValid(chosen, c.snap))
    || (GoesToAgents(ServingTier(chosen, "", c.snap), c) && c.hasTeams == Some(false))
  }

  /** The message is not handed on: it was cancelled, or its serving tier is an orchestrator without a model. */
  predicate IsDropped(chosen: string, c: Context) {
    var t := ServingTier(chosen, "", c.snap);
    c.cancelledEarly || c.cancelledLate || (GoesToAgents(t, c) && c.modelOf(t) == "")
  }

  /** Where a route that is not a direct answer ends. */
  lemma RouteEnds(msg: InMessage, c: Context)
    requires !ChosenRoute(msg, "", c).IsDirect()
    ensures
      var chosen := ChosenRoute(msg, "", c).tier;
      var out := Decision(msg, "", c);
      && (IsDropped(chosen, c) <==> !(out.Standard? || out.Agent?))
      && (out.Agent? ==> c.hasTeams == Some(true))
      && (!IsDropped(chosen, c) ==> out.tier == if IsDisplaced(chosen, c) then FirstFallbackTier(c.snap) else chosen)
  {
    hide ChosenRoute, FirstFallbackTier, IsTierValid, IsOrchestratorTier;
  }

  /**
  Media that nobody forced anywhere, without skill or onboarding, end on a tier that can read,
  in any catalogue, exactly when they are handed on and the tier they end on can read: the
  first fallback tier if the chosen one is displaced, and else the router's choice, which
  suits media, or the media tier.
  */
  lemma MediaEndOnReader(msg: InMessage, c: Context)
    requires msg.hasMedia && c.minTier == "" && !c.onboarding
    ensures
      var s, chosen := c.snap, ChosenRoute(msg, "", c).tier;
      var kept := msg.ForRouter() != "" && SuitsMedia(c.classify(msg.ForRouter()), s);
      EndsOnReader(Decision(msg, "", c), s)
      <==> !IsDropped(chosen, c)
           && if IsDisplaced(chosen, c) then CanRead(FirstFallbackTier(s), s) else kept || CanRead(MediaTier(s), s)
  {
    hide MediaTier, FirstFallbackTier, IsTierValid, IsOrchestratorTier, CanRead, SuitsMedia, Decision;
    DirectIff(msg, "", c);
    RouteEnds(msg, c);
    MediaReads(msg, c);
  }

  /**
  With unique names and a reader for the scan to find: exactly when they are handed on, and
  the first fallback tier can read or the chosen tier is valid and no orchestrator without
  teams.
  */
  lemma MediaEndOnReaderIff(msg: InMessage, c: Context)
    requires msg.hasMedia && c.minTier == "" && !c.onboarding && UniqueNames(c.snap.tiers)
    requires forall i | 0 <= i < |c.snap.tiers| :: c.snap.tiers[i].name != ""
    requires exists i :: 0 <= i < |c.snap.tiers|
                         && Reads(c.snap.tiers[i]) && c.snap.tiers[i].priority < MAX_INT
    ensures
      var s, chosen := c.snap, ChosenRoute(msg, "", c).tier;
      var t := if IsTierValid(chosen, s) then chosen else FirstFallbackTier(s);
      var agents := IsOrchestratorTier(t, s) && c.hasTeams.Some?;
      EndsOnReader(Decision(msg, "", c), s)
      <==> && !c.cancelledEarly && !c.cancelledLate && !(agents && c.modelOf(t) == "")
           && (|| CanRead(FirstFallbackTier(s), s)
               || (IsTierValid(chosen, s) && !(agents && c.hasTeams == Some(false))))
  {
    hide MediaTier, FirstFallbackTier, TierHasRead, IsTierValid, IsOrchestratorTier, Decision, CanRead;
    MediaEndOnReader(msg, c);
    MediaTierIsListed(c.snap);
    KeptChoiceReads(msg, c);
  }

  /** A choice of the router that suits media can read if it is valid. */
  lemma KeptChoiceReads(msg: InMessage, c: Context)
    ensures
      var first := c.classify(msg.ForRouter());
      SuitsMedia(first, c.snap) && IsTierValid(first.tier, c.snap) ==> CanRead(first.tier, c.snap)
  {
    hide TierHasRead;
    var first := c.classify(msg.ForRouter());
    if SuitsMedia(first, c.snap) && IsTierValid(first.tier, c.snap) {
      NamedTierIsListed(first.tier, c.snap);
    }
  }

  /** A reader "r" below a fallback that cannot read. */
  function ReaderAndFallback(routable: bool, role: string): Snapshot {
    Snapshot([TierInfo("r", "", 0, true, routable, false, [], true, "", "full", "", role),
              TierInfo("f", "", 1, true, true, false, [], false, "", "full", "", "")], "f")
  }

  lemma ReaderIsPicked(routable: bool, role: string)
    ensures
      var s := ReaderAndFallback(routable, role);
      && MediaTier(s) == "r" && CanRead("r", s) && !CanRead("f", s)
      && (IsTierValid("r", s) <==> routable) && (IsOrchestratorTier("r", s) <==> role == "orchestrator")
  {
    hide MediaTier;
    var s := ReaderAndFallback(routable, role);
    assert Reads(s.tiers[0]) && !Reads(s.tiers[1]);
    MediaTierReads(s);
    OnlyTierOfName(s, 0);
    OnlyTierOfName(s, 1);
    assert s.tiers[0].name == "r" && s.tiers[0].enabled;
  }

  function MediaContext(s: Snapshot, classify: string -> RouteResult, hasTeams: Option<bool>): Context {
    Context(s, classify, RecallResult("", 1.0), "", false, hasTeams, (t: string) => "m", false, false)
  }

  /** Media without a caption. */
  const PICTURE := InMessage("", "", false, "", true)

  /**
  A reader that is enabled but neither routable nor forceable is chosen for media, and then
  displaced by a tier that cannot read.
  */
  lemma MediaMayMissTheReader(classify: string -> RouteResult)
    ensures
      var c := MediaContext(ReaderAndFallback(false, ""), classify, None);
      && ChosenRoute(PICTURE, "", c).tier == "r" && CanRead("r", c.snap)
      && Decision(PICTURE, "", c) == Standard("f") && !CanRead("f", c.snap)
  {
    hide MediaTier, CanRead, IsTierValid, IsOrchestratorTier;
    ReaderIsPicked(false, "");
    NotAnOrchestrator(ReaderAndFallback(false, ""), 1);
  }

  lemma NotAnOrchestrator(s: Snapshot, i: nat)
    requires UniqueNames(s.tiers) && i < |s.tiers| && s.tiers[i].role != "orchestrator"
    ensures !IsOrchestratorTier(s.tiers[i].name, s)
  {
    OnlyTierOfName(s, i);
  }

  /** So is a reader that is an orchestrator without teams, although it is valid and serves. */
  lemma OrchestratorMayMissTheReader(classify: string -> RouteResult)
    ensures
      var c := MediaContext(ReaderAndFallback(true, "orchestrator"), classify, Some(false));
      && ChosenRoute(PICTURE, "", c).tier == "r" && CanRead("r", c.snap) && IsTierValid("r", c.snap)
      && Decision(PICTURE, "", c) == Standard("f") && !CanRead("f", c.snap)
  {
    hide MediaTier, CanRead, IsTierValid, IsOrchestratorTier;
    ReaderIsPicked(true, "orchestrator");
  }

  /** The message is handed on, on a tier of at least the priority of the other. */
  predicate EndsNoLower(out: Outcome, tier: string, s: Snapshot) {
    (out.Standard? || out.Agent?) && LastPriority(s.tiers, out.tier) >= LastPriority(s.tiers, tier)
  }

  /**
  A message with a skill that requires a tier ends no lower than the tier it was routed to,
  in any catalogue, exactly when it is handed on, and the first fallback tier is high enough
  or the override's result is valid and no orchestrator without teams.
  */
  lemma SkillEndsNoLowerIff(msg: InMessage, c: Context)
    requires c.minTier != "" && !c.onboarding && BaseRoute(msg, "", c).tier != ""
    ensures
      var s, base := c.snap, BaseRoute(msg, "", c);
      var chosen := SkillTier(base, c.minTier, s.tiers).tier;
      var t := if IsTierValid(chosen, s) then chosen else FirstFallbackTier(s);
      var agents := IsOrchestratorTier(t, s) && c.hasTeams.Some?;
      EndsNoLower(Decision(msg, "", c), base.tier, s)
      <==> && !c.cancelledEarly && !c.cancelledLate && !(agents && c.modelOf(t) == "")
           && (|| LastPriority(s.tiers, FirstFallbackTier(s)) >= LastPriority(s.tiers, base.tier)
               || (IsTierValid(chosen, s) && !(agents && c.hasTeams == Some(false))))
  {
    hide BaseRoute, LastPriority, FirstFallbackTier, IsTierValid, IsOrchestratorTier, Decision;
    RouteEnds(msg, c);
  }

  /** A fallback below the tier "a", and a tier "b" above both. */
  function ThreeTiers(routable: bool, role: string): Snapshot {
    Snapshot([TierInfo("f", "", 0, true, true, false, [], false, "", "full", "", ""),
              TierInfo("a", "", 1, true, true, false, [], false, "", "full", "", ""),
              TierInfo("b", "", 5, true, routable, false, [], false, "", "full", "", role)], "f")
  }

  lemma ThreePriorities(routable: bool, role: string)
    ensures
      var ts := ThreeTiers(routable, role).tiers;
      LastPriority(ts, "f") == 0 && LastPriority(ts, "a") == 1 && LastPriority(ts, "b") == 5
  {
    var ts := ThreeTiers(routable, role).tiers;
    LastPriorityIs(ts, 0);
    LastPriorityIs(ts, 1);
    LastPriorityIs(ts, 2);
  }

  lemma ThirdTier(routable: bool, role: string)
    ensures IsTierValid("b", ThreeTiers(routable, role)) <==> routable
    ensures IsOrchestratorTier("b", ThreeTiers(routable, role)) <==> role == "orchestrator"
  {
    var s := ThreeTiers(routable, role);
    assert s.tiers[2].name == "b" && s.tiers[2].enabled;
    OnlyTierOfName(s, 2);
  }

  /** A message that the router sends to "a", with a skill that requires "b". */
  function SkillContext(s: Snapshot, hasTeams: Option<bool>): Context {
    Context(s, (m: string) => ToTier("a"), RecallResult("", 1.0), "b", false, hasTeams,
            (t: string) => "m", false, false)
  }

  const HELLO := InMessage("hello", "", false, "", false)

  lemma SkillPicksThird(routable: bool, role: string, hasTeams: Option<bool>)
    ensures
      var c := SkillContext(ThreeTiers(routable, role), hasTeams);
      BaseRoute(HELLO, "", c) == ToTier("a") && ChosenRoute(HELLO, "", c) == ToTier("b")
  {
    hide LastPriority;
    ThreePriorities(routable, role);
  }

  /** A required tier that cannot serve makes the message end below the tier it was routed to. */
  lemma SkillMayLower()
    ensures
      var c := SkillContext(ThreeTiers(false, ""), None);
      && BaseRoute(HELLO, "", c).tier == "a" && Decision(HELLO, "", c) == Standard("f")
      && LastPriority(c.snap.tiers, "f") < LastPriority(c.snap.tiers, "a")
  {
    hide LastPriority, IsTierValid, IsOrchestratorTier, ChosenRoute, BaseRoute;
    ThreePriorities(false, "");
    ThirdTier(false, "");
    SkillPicksThird(false, "", None);
  }

  /** So does a required tier that is an orchestrator without teams, although it is valid. */
  lemma OrchestratorMayLower()
    ensures
      var c := SkillContext(ThreeTiers(true, "orchestrator"), Some(false));
      && BaseRoute(HELLO, "", c).tier == "a" && IsTierValid(ChosenRoute(HELLO, "", c).tier, c.snap)
      && Decision(HELLO, "", c) == Standard("f")
      && LastPriority(c.snap.tiers, "f") < LastPriority(c.snap.tiers, "a")
  {
    hide LastPriority, IsTierValid, IsOrchestratorTier, ChosenRoute, BaseRoute;
    ThreePriorities(true, "orchestrator");
    ThirdTier(true, "orchestrator");
    SkillPicksThird(true, "orchestrator", Some(false));
  }

  lemma OnlyTierOfName(s: Snapshot, i: nat)
    requires UniqueNames(s.tiers) && i < |s.tiers|
    ensures First(s.tiers, Named(s.tiers[i].name)) == i
  {
    var p := Named(s.tiers[i].name);
    assert p(s.tiers[i]);
    assert p(s.tiers[First(s.tiers, p)]);
  }
}
