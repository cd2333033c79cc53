/**
Tier selection: the default fallback model (implemented twice in the source), the first
fallback tier, the media tier, the onboarding tier and the fallback chain.
*/
module Tiers {
  import opened Integers
  import opened Sequences
  import opened Wrappers
  import opened StableSort

  datatype TierInfo = TierInfo(
    name: string, model: string, priority: Int64, enabled: bool, routable: bool, forceCommand: bool,
    tools: seq<string>, writeCapable: bool, backend: string, contextWeight: string, fallback: string, role: string)

  datatype Snapshot = Snapshot(tiers: seq<TierInfo>, defaultFallback: string)

  // ---------- Searches

  /**
  The first of the lowest-priority elements where `p` holds, or -1; the scan starts from
  `MAX_INT`, so that priority never wins.
  */
  function Lowest<T>(ts: seq<T>, p: T -> bool, pri: T -> Int64): (r: int)
    ensures -1 <= r < |ts|
    ensures r >= 0 ==> p(ts[r])
  {
    if ts == [] then -1 else
    var n := |ts| - 1;
    var r := Lowest(ts[..n], p, pri);
    if p(ts[n]) && pri(ts[n]) < (if r == -1 then MAX_INT else pri(ts[r])) then n else r
  }

  ghost predicate IsLowest<T>(ts: seq<T>, p: T -> bool, pri: T -> Int64, r: int) {
    && -1 <= r < |ts|
    && (r >= 0 ==> p(ts[r]) && pri(ts[r]) < MAX_INT)
    && (r >= 0 ==>
          forall j | 0 <= j < |ts| && p(ts[j]) :: pri(ts[r]) <= pri(ts[j]) && (j < r ==> pri(ts[r]) < pri(ts[j])))
    && (r == -1 ==> forall j | 0 <= j < |ts| && p(ts[j]) :: pri(ts[j]) == MAX_INT)
  }

  lemma {:induction false} LowestIs<T>(ts: seq<T>, p: T -> bool, pri: T -> Int64)
    ensures IsLowest(ts, p, pri, Lowest(ts, p, pri))
  {
    if ts != [] {
      LowestIs(ts[..|ts| - 1], p, pri);
    }
  }

  lemma OneLowest<T>(ts: seq<T>, p: T -> bool, pri: T -> Int64, a: int, b: int)
    requires IsLowest(ts, p, pri, a) && IsLowest(ts, p, pri, b)
    ensures a == b
  {
  }

  lemma LowestNext<T>(ts: seq<T>, i: nat, p: T -> bool, pri: T -> Int64)
    requires i < |ts|
    ensures
      var r := Lowest(ts[..i], p, pri);
      Lowest(ts[..i + 1], p, pri)
      == if p(ts[i]) && pri(ts[i]) < (if r == -1 then MAX_INT else pri(ts[r])) then i else r
  {
    assert ts[..i + 1][..i] == ts[..i];
  }

  function Projected<S, T>(ts: seq<S>, f: S -> T): (r: seq<T>)
    ensures |r| == |ts| && forall i | 0 <= i < |ts| :: r[i] == f(ts[i])
  {
    seq(|ts|, i requires 0 <= i < |ts| => f(ts[i]))
  }

  function Named(name: string): TierInfo -> bool {
    (t: TierInfo) => t.name == name
  }

  function NamedEnabled(name: string): TierInfo -> bool {
    (t: TierInfo) => t.name == name && t.enabled
  }

  function EnabledRoutable(): TierInfo -> bool {
    (t: TierInfo) => t.enabled && t.routable
  }

  function EnabledOnly(): TierInfo -> bool {
    (t: TierInfo) => t.enabled
  }

  function EnabledReader(): TierInfo -> bool {
    (t: TierInfo) => t.enabled && TierHasRead(t)
  }

  function PriorityOf(): TierInfo -> Int64 {
    (t: TierInfo) => t.priority
  }

  predicate TierHasRead(t: TierInfo)
    ensures TierHasRead(t) <==> t.writeCapable || "*" in t.tools || "Read" in t.tools
  {
    t.writeCapable || exists i :: 0 <= i < |t.tools| && (t.tools[i] == "*" || t.tools[i] == "Read")
  }

  // ---------- The default fallback model, twice

  /**
  The index of the default fallback: the named tier if enabled, else the lowest enabled routable
  one, else any enabled one.
  */
  function DefaultPick(s: Snapshot): (r: int)
    ensures -1 <= r < |s.tiers|
    ensures r >= 0 ==> s.tiers[r].enabled
    ensures r == -1 <==> forall i | 0 <= i < |s.tiers| :: !s.tiers[i].enabled
  {
    var named := if s.defaultFallback == "" then -1 else First(s.tiers, NamedEnabled(s.defaultFallback));
    var lowest := Lowest(s.tiers, EnabledRoutable(), PriorityOf());
    if named >= 0 then named else if lowest >= 0 then lowest else First(s.tiers, EnabledOnly())
  }

  ghost predicate NoneNamed(s: Snapshot, n: nat) {
    s.defaultFallback == ""
    || forall j | 0 <= j < n && j < |s.tiers| :: !(s.tiers[j].name == s.defaultFallback && s.tiers[j].enabled)
  }

  /** `best` is the first lowest-priority enabled routable tier among the first `n`, or -1. */
  ghost predicate BestRoutable(ts: seq<TierInfo>, n: nat, best: int, priority: int) {
    && n <= |ts| && -1 <= best < n
    && (best == -1 ==> priority == MAX_INT)
    && (best >= 0 ==> ts[best].enabled && ts[best].routable && priority == ts[best].priority < MAX_INT)
    && (forall j | 0 <= j < n && ts[j].enabled && ts[j].routable ::
          priority <= ts[j].priority && (j < best ==> priority < ts[j].priority))
  }

  lemma NamedPick(s: Snapshot, i: nat)
    requires i < |s.tiers| && s.defaultFallback != "" && s.tiers[i].name == s.defaultFallback && s.tiers[i].enabled
    requires NoneNamed(s, i)
    ensures DefaultPick(s) == i
  {
    var p := NamedEnabled(s.defaultFallback);
    assert p(s.tiers[i]);
    var r := First(s.tiers, p);
    assert p(s.tiers[r]);
  }

  lemma NotNamed(s: Snapshot)
    requires NoneNamed(s, |s.tiers|)
    ensures s.defaultFallback == "" || First(s.tiers, NamedEnabled(s.defaultFallback)) == -1
  {
    if s.defaultFallback != "" {
      var p := NamedEnabled(s.defaultFallback);
      assert forall j | 0 <= j < |s.tiers| :: !p(s.tiers[j]);
    }
  }

  lemma BestIsLowest(ts: seq<TierInfo>, best: int, priority: int)
    requires BestRoutable(ts, |ts|, best, priority)
    ensures Lowest(ts, EnabledRoutable(), PriorityOf()) == best
  {
    hide Lowest;
    var p, pri := EnabledRoutable(), PriorityOf();
    LowestIs(ts, p, pri);
    assert IsLowest(ts, p, pri, best);
    OneLowest(ts, p, pri, best, Lowest(ts, p, pri));
  }

  lemma BestPick(s: Snapshot, best: nat, priority: int)
    requires NoneNamed(s, |s.tiers|) && BestRoutable(s.tiers, |s.tiers|, best, priority)
    ensures DefaultPick(s) == best
  {
    NotNamed(s);
    BestIsLowest(s.tiers, best, priority);
  }

  lemma AnyPick(s: Snapshot, i: nat, priority: int)
    requires NoneNamed(s, |s.tiers|) && BestRoutable(s.tiers, |s.tiers|, -1, priority)
    requires i < |s.tiers| && s.tiers[i].enabled && forall j | 0 <= j < i :: !s.tiers[j].enabled
    ensures DefaultPick(s) == i
  {
    NotNamed(s);
    BestIsLowest(s.tiers, -1, priority);
    var p := EnabledOnly();
    assert p(s.tiers[i]);
    var r := First(s.tiers, p);
    assert p(s.tiers[r]);
  }

  /** The named tier is enabled. */
  ghost predicate HasNamed(s: Snapshot) {
    exists i :: 0 <= i < |s.tiers| && s.tiers[i].name == s.defaultFallback != "" && s.tiers[i].enabled
  }

  /** Some enabled routable tier is below the priority that the scan starts from. */
  ghost predicate HasRoutable(s: Snapshot) {
    exists i :: 0 <= i < |s.tiers| && s.tiers[i].enabled && s.tiers[i].routable
                && s.tiers[i].priority < 0x7FFF_FFFF_FFFF_FFFF
  }

  /** What the default fallback is: the first of the best of the three kinds. */
  lemma DefaultPickIs(s: Snapshot)
    ensures
      var r, ts := DefaultPick(s), s.tiers;
      && (HasNamed(s) ==>
            && r >= 0 && ts[r].enabled && ts[r].name == s.defaultFallback
            && forall i | 0 <= i < r :: ts[i].name != s.defaultFallback || !ts[i].enabled)
      && (!HasNamed(s) && HasRoutable(s) ==>
            && r >= 0 && ts[r].enabled && ts[r].routable
            && forall i | 0 <= i < |ts| && ts[i].enabled && ts[i].routable ::
                 ts[r].priority <= ts[i].priority && (i < r ==> ts[r].priority < ts[i].priority))
      && (!HasNamed(s) && !HasRoutable(s) ==>
            if r >= 0 then ts[r].enabled && forall i | 0 <= i < r :: !ts[i].enabled
            else forall i | 0 <= i < |ts| :: !ts[i].enabled)
  {
    hide Lowest, First;
    LowestIs(s.tiers, EnabledRoutable(), PriorityOf());
  }

  /** An alias expander whose empty answer means "keep the name". */
  function Resolved(resolve: Option<string -> string>, raw: string): string {
    if resolve.Some? && resolve.value(raw) != "" then resolve.value(raw) else raw
  }

  function DefaultModel(s: Snapshot, resolve: Option<string -> string>): string {
    if DefaultPick(s) == -1 then "" else Resolved(resolve, s.tiers[DefaultPick(s)].model)
  }

  /** The chat engine's implementation, on a snapshot. */
  method EngineFallbackModel(snap: Snapshot, resolve: Option<string -> string>) returns (model: string)
    ensures model == DefaultModel(snap, resolve)
    ensures DefaultPick(snap) == -1 ==> model == ""
    ensures
      DefaultPick(snap) >= 0 ==>
        var raw := snap.tiers[DefaultPick(snap)].model;
        model == if resolve.None? || resolve.value(raw) == "" then raw else resolve.value(raw)
  {
    var ts := snap.tiers;
    if snap.defaultFallback != "" {
      var i := 0;
      while i < |ts|
        invariant i <= |ts|
        invariant NoneNamed(snap, i)
      {
        if ts[i].name == snap.defaultFallback && ts[i].enabled {
          NamedPick(snap, i);
          return Resolved(resolve, ts[i].model);
        }
        i := i + 1;
      }
    }
    var bestIdx, bestPriority := -1, MAX_INT;
    var i := 0;
    while i < |ts|
      invariant i <= |ts|
      invariant BestRoutable(ts, i, bestIdx, bestPriority)
    {
      if ts[i].enabled && ts[i].routable && ts[i].priority < bestPriority {
        bestIdx, bestPriority := i, ts[i].priority;
      }
      i := i + 1;
    }
    if bestIdx >= 0 {
      BestPick(snap, bestIdx, bestPriority);
      return Resolved(resolve, ts[bestIdx].model);
    }
    i := 0;
    while i < |ts|
      invariant i <= |ts|
      invariant forall j | 0 <= j < i :: !ts[j].enabled
    {
      if ts[i].enabled {
        AnyPick(snap, i, bestPriority);
        return Resolved(resolve, ts[i].model);
      }
      i := i + 1;
    }
    model := "";
  }

  /** The control centre's own tier record, of which a snapshot is a projection. */
  datatype ConfigTier = ConfigTier(
    name: string, model: string, priority: Int64, enabled: bool, routable: bool, routerLabel: string,
        description: string,
    writeCapable: bool, tools: seq<string>, forceCommand: bool, backend: string, contextWeight: string,
    fallback: string, role: string)

  datatype Config = Config(tiers: seq<ConfigTier>, defaultFallback: string)

  function EffectiveContextWeight(t: ConfigTier): string {
    if t.contextWeight == "light" || t.contextWeight == "standard" || t.contextWeight == "full"
    then t.contextWeight else "full"
  }

  function ProjectTier(): ConfigTier -> TierInfo {
    (t: ConfigTier) =>
      TierInfo(t.name, t.model, t.priority, t.enabled, t.routable, t.forceCommand, t.tools, t.writeCapable,
               t.backend, EffectiveContextWeight(t), t.fallback, t.role)
  }

  function SnapshotOf(c: Config): Snapshot {
    Snapshot(Projected(c.tiers, ProjectTier()), c.defaultFallback)
  }

  /** The snapshot has the tiers of the configuration in order, with a context weight that is one of the three. */
  lemma SnapshotKeeps(c: Config)
    ensures
      var s := SnapshotOf(c);
      && |s.tiers| == |c.tiers| && s.defaultFallback == c.defaultFallback
      && forall i | 0 <= i < |c.tiers| ::
           var t, u := c.tiers[i], s.tiers[i];
           && u.name == t.name && u.model == t.model && u.backend == t.backend
           && u.priority == t.priority && u.enabled == t.enabled && u.routable == t.routable
           && u.forceCommand == t.forceCommand && u.tools == t.tools && u.writeCapable == t.writeCapable
           && u.fallback == t.fallback && u.role == t.role
           && u.contextWeight in ["light", "standard", "full"]
           && (t.contextWeight in ["light", "standard"] <==> u.contextWeight != "full")
           && (u.contextWeight != "full" ==> u.contextWeight == t.contextWeight)
  {
  }

  /** The control centre's implementation, on its own configuration; `None` is a nil configuration. */
  method ControlFallbackTier(config: Option<Config>, aliases: string -> string)
    returns (model: string, backend: string, ok: bool)
    ensures config.None? ==> model == "" && backend == "" && !ok
    ensures config.Some? ==>
      var s := SnapshotOf(config.value);
      var pick := DefaultPick(s);
      && ok == (pick >= 0)
      && model == DefaultModel(s, Some(aliases))
      && backend == if ok then config.value.tiers[pick].backend else ""
  {
    hide First, Lowest, DefaultPick, Resolved, EffectiveContextWeight;
    if config.None? {
      return "", "", false;
    }
    var ts, name := config.value.tiers, config.value.defaultFallback;
    ghost var snap := SnapshotOf(config.value);
    assert forall j | 0 <= j < |ts| :: snap.tiers[j] == ProjectTier()(ts[j]);
    if name != "" {
      var i := 0;
      while i < |ts|
        invariant i <= |ts|
        invariant NoneNamed(snap, i)
      {
        if ts[i].name == name && ts[i].enabled {
          NamedPick(snap, i);
          return Resolved(Some(aliases), ts[i].model), ts[i].backend, true;
        }
        i := i + 1;
      }
    }
    var bestIdx, bestPriority := -1, MAX_INT;
    var i := 0;
    while i < |ts|
      invariant i <= |ts|
      invariant BestRoutable(snap.tiers, i, bestIdx, bestPriority)
    {
      if ts[i].enabled && ts[i].routable {
        if ts[i].priority < bestPriority {
          bestPriority := ts[i].priority;
          bestIdx := i;
        }
      }
      i := i + 1;
    }
    if bestIdx >= 0 {
      BestPick(snap, bestIdx, bestPriority);
      return Resolved(Some(aliases), ts[bestIdx].model), ts[bestIdx].backend, true;
    }
    i := 0;
    while i < |ts|
      invariant i <= |ts|
      invariant forall j | 0 <= j < i :: !snap.tiers[j].enabled
    {
      if ts[i].enabled {
        AnyPick(snap, i, bestPriority);
        return Resolved(Some(aliases), ts[i].model), ts[i].backend, true;
      }
      i := i + 1;
    }
    return "", "", false;
  }

  /** The two implementations give the same model for every configuration. */
  method FallbackModelsAgree(config: Config, aliases: string -> string) returns (engine: string, control: string)
    ensures engine == control == DefaultModel(SnapshotOf(config), Some(aliases))
    ensures control != "" ==>
              exists i :: 0 <= i < |config.tiers| && config.tiers[i].enabled
                          && control == Resolved(Some(aliases), config.tiers[i].model)
  {
    engine := EngineFallbackModel(SnapshotOf(config), Some(aliases));
    var backend, ok;
    control, backend, ok := ControlFallbackTier(Some(config), aliases);
    ghost var pick := DefaultPick(SnapshotOf(config));
    if pick >= 0 {
      assert SnapshotOf(config).tiers[pick] == ProjectTier()(config.tiers[pick]);
    }
  }

  // ---------- Fixed choices

  function FirstFallbackTier(s: Snapshot): (name: string)
    ensures s.defaultFallback != "" ==> name == s.defaultFallback
    ensures s.defaultFallback == "" ==>
              forall i | 0 <= i < |s.tiers| && s.tiers[i].enabled && (forall j | 0 <= j < i :: !s.tiers[j].enabled) ::
                name == s.tiers[i].name
    ensures s.defaultFallback == "" && s.tiers != [] && (forall i | 0 <= i < |s.tiers| :: !s.tiers[i].enabled) ==>
              name == s.tiers[0].name
    ensures s.defaultFallback == "" && s.tiers == [] ==> name == ""
  {
    if s.defaultFallback != "" then s.defaultFallback
    else
      var enabled := First(s.tiers, EnabledOnly());
      if enabled >= 0 then s.tiers[enabled].name
      else if s.tiers != [] then s.tiers[0].name
      else ""
  }

  predicate IsTierValid(name: string, s: Snapshot)
    ensures !IsTierValid(name, s)
       <==> forall i | 0 <= i < |s.tiers| && s.tiers[i].name == name ::
              !s.tiers[i].enabled || (!s.tiers[i].routable && !s.tiers[i].forceCommand)
  {
    exists i :: 0 <= i < |s.tiers| && s.tiers[i].name == name && s.tiers[i].enabled
                && (s.tiers[i].routable || s.tiers[i].forceCommand)
  }

  predicate IsOrchestratorTier(name: string, s: Snapshot)
    ensures IsOrchestratorTier(name, s)
       <==> exists i :: 0 <= i < |s.tiers| && s.tiers[i].name == name && s.tiers[i].role == "orchestrator"
                        && forall j | 0 <= j < i :: s.tiers[j].name != name
  {
    var i := First(s.tiers, Named(name));
    i >= 0 && s.tiers[i].role == "orchestrator"
  }

  /** The name at the lowest-priority tier where `p` holds; an empty name counts as no tier. */
  function LowestName(ts: seq<TierInfo>, p: TierInfo -> bool): string {
    var r := Lowest(ts, p, PriorityOf());
    if r == -1 then "" else ts[r].name
  }

  function MediaTier(s: Snapshot): string {
    if LowestName(s.tiers, EnabledReader()) != "" then LowestName(s.tiers, EnabledReader())
    else if LowestName(s.tiers, EnabledOnly()) != "" then LowestName(s.tiers, EnabledOnly())
    else if s.tiers != [] then s.tiers[0].name
    else ""
  }

  method LowestMediaTier(s: Snapshot) returns (name: string)
    ensures name == MediaTier(s)
  {
    hide Lowest, TierHasRead;
    var ts := s.tiers;
    var bestName, bestPriority := "", MAX_INT;
    var i := 0;
    ghost var best := -1;
    while i < |ts|
      invariant i <= |ts|
      invariant best == Lowest(ts[..i], EnabledReader(), PriorityOf())
      invariant bestPriority == if best == -1 then MAX_INT else ts[best].priority
      invariant bestName == if best == -1 then "" else ts[best].name
    {
      LowestNext(ts, i, EnabledReader(), PriorityOf());
      if ts[i].enabled && TierHasRead(ts[i]) && ts[i].priority < bestPriority {
        bestName, bestPriority, best := ts[i].name, ts[i].priority, i;
      }
      i := i + 1;
    }
    assert ts[..i] == ts;
    if bestName != "" {
      return bestName;
    }
    bestPriority, best, i := MAX_INT, -1, 0;
    while i < |ts|
      invariant i <= |ts|
      invariant best == Lowest(ts[..i], EnabledOnly(), PriorityOf())
      invariant bestPriority == if best == -1 then MAX_INT else ts[best].priority
      invariant bestName == if best == -1 then "" else ts[best].name
    {
      LowestNext(ts, i, EnabledOnly(), PriorityOf());
      if ts[i].enabled && ts[i].priority < bestPriority {
        bestName, bestPriority, best := ts[i].name, ts[i].priority, i;
      }
      i := i + 1;
    }
    assert ts[..i] == ts;
    if bestName != "" {
      return bestName;
    }
    if |ts| > 0 {
      return ts[0].name;
    }
    name := "";
  }

  /** The tier is enabled and may read files. */
  ghost predicate Reads(t: TierInfo) {
    t.enabled && (t.writeCapable || "*" in t.tools || "Read" in t.tools)
  }

  /**
  Media goes to an enabled tier with the Read tool, the cheapest one, whenever the scan can find
  one and readers have names.
  */
  lemma MediaTierReads(s: Snapshot)
    requires forall i | 0 <= i < |s.tiers| && Reads(s.tiers[i]) :: s.tiers[i].name != ""
    requires exists i :: 0 <= i < |s.tiers| && Reads(s.tiers[i]) && s.tiers[i].priority < MAX_INT
    ensures exists i :: 0 <= i < |s.tiers| && s.tiers[i].name == MediaTier(s) && Reads(s.tiers[i])
                        && forall j | 0 <= j < |s.tiers| && Reads(s.tiers[j]) ::
                             s.tiers[i].priority <= s.tiers[j].priority
  {
    hide Lowest, TierHasRead, Reads;
    var ts := s.tiers;
    ReadersAre(ts);
    var r := Lowest(ts, EnabledReader(), PriorityOf());
    LowestIs(ts, EnabledReader(), PriorityOf());
    assert MediaTier(s) == ts[r].name;
  }

  lemma ReadersAre(ts: seq<TierInfo>)
    ensures forall i | 0 <= i < |ts| :: Reads(ts[i]) <==> EnabledReader()(ts[i])
  {
  }

  /**
  Without an enabled reader, media go to the cheapest enabled tier if those have names and the
  scan can find one, and to the first tier if there is no enabled one.
  */
  lemma MediaTierWithoutReaders(s: Snapshot)
    requires forall i | 0 <= i < |s.tiers| :: !Reads(s.tiers[i])
    ensures
      var ts := s.tiers;
      && (ts == [] ==> MediaTier(s) == "")
      && (ts != [] && (forall i | 0 <= i < |ts| :: !ts[i].enabled) ==> MediaTier(s) == ts[0].name)
      && ((forall i | 0 <= i < |ts| && ts[i].enabled :: ts[i].name != "")
          && (exists i :: 0 <= i < |ts| && ts[i].enabled && ts[i].priority < 0x7FFF_FFFF_FFFF_FFFF) ==>
            exists i :: 0 <= i < |ts| && ts[i].name == MediaTier(s) && ts[i].enabled
                        && forall j | 0 <= j < |ts| && ts[j].enabled :: ts[i].priority <= ts[j].priority)
  {
    hide Lowest, TierHasRead, Reads;
    var ts := s.tiers;
    ReadersAre(ts);
    LowestIs(ts, EnabledReader(), PriorityOf());
    LowestIs(ts, EnabledOnly(), PriorityOf());
    assert Lowest(ts, EnabledReader(), PriorityOf()) == -1;
  }

  // ---------- The onboarding tier

  datatype Candidate = Candidate(name: string, priority: Int64)

  function ByPriority(): Candidate -> real {
    (c: Candidate) => c.priority as real
  }

  function Candidates(ts: seq<TierInfo>): seq<Candidate> {
    if ts == [] then []
    else
      var t := ts[|ts| - 1];
      Candidates(ts[..|ts| - 1])
      + (if t.enabled && t.role != "orchestrator" then [Candidate(t.name, t.priority)] else [])
  }

  lemma FirstOfInsert(s: seq<Candidate>, c: Candidate)
    requires |s| >= 1 && Ascending(ByPriority(), s) && c.priority < s[0].priority
    ensures Insert(ByPriority(), s, c) == [c] + s
  {
    hide Ascending, Insert;
    var key := ByPriority();
    AllGreater(key, s, 0, c);
    assert s[0..] == s && [] + s == s && [] + [c] + s == [c] + s;
    InsertPosition(key, [], s, c);
  }

  lemma SecondOfInsert(s: seq<Candidate>, c: Candidate)
    requires |s| >= 2 && Ascending(ByPriority(), s) && s[0].priority <= c.priority < s[1].priority
    ensures Insert(ByPriority(), s, c) == [s[0], c] + s[1..]
  {
    hide Ascending, Insert;
    var key := ByPriority();
    var rest := s[1..];
    AllGreater(key, s, 1, c);
    InsertPosition(key, [s[0]], rest, c);
    assert [s[0]] + rest == s;
    assert [s[0]] + [c] + rest == [s[0], c] + rest;
  }

  /** What one more element does to the two smallest of a stable sort. */
  lemma FirstTwoOfInsert(s: seq<Candidate>, c: Candidate)
    requires |s| >= 2 && Ascending(ByPriority(), s)
    ensures
      var r := Insert(ByPriority(), s, c);
      r[..2] == if c.priority < s[0].priority then [c, s[0]]
                else if c.priority < s[1].priority then [s[0], c]
                else s[..2]
  {
    if c.priority < s[0].priority {
      FirstOfInsert(s, c);
    } else if c.priority < s[1].priority {
      SecondOfInsert(s, c);
    } else {
      FirstTwoKept(s, c);
    }
  }

  lemma {:induction false} FirstTwoKept(s: seq<Candidate>, c: Candidate)
    requires |s| >= 2 && c.priority >= s[1].priority
    ensures Insert(ByPriority(), s, c)[..2] == s[..2]
  {
    var key := ByPriority();
    if key(s[|s| - 1]) > key(c) {
      if |s| > 2 {
        FirstTwoKept(s[..|s| - 1], c);
      }
    }
  }

  lemma FirstTwoOfSort(cs: seq<Candidate>, i: nat, best: Candidate, second: Candidate)
    requires 2 <= i < |cs| && Sort(ByPriority(), cs[..i])[..2] == [best, second]
    ensures
      var c := cs[i];
      Sort(ByPriority(), cs[..i + 1])[..2]
      == if c.priority < best.priority then [c, best]
         else if c.priority < second.priority then [best, c] else [best, second]
  {
    hide Insert, Ascending;
    var sorted := Sort(ByPriority(), cs[..i]);
    SortIsStable(ByPriority(), cs[..i]);
    FirstTwoOfInsert(sorted, cs[i]);
    assert cs[..i + 1][..i] == cs[..i];
    assert sorted[0] == sorted[..2][0] && sorted[1] == sorted[..2][1];
  }

  /**
  The second of the candidates in priority order, ties in catalogue order; the first fallback
  tier if there are not two.
  */
  function OnboardingPick(s: Snapshot): string {
    var cs := Candidates(s.tiers);
    if |cs| >= 2 then Sort(ByPriority(), cs)[1].name else FirstFallbackTier(s)
  }

  method OnboardingTier(s: Snapshot) returns (name: string)
    ensures name == OnboardingPick(s)
  {
    hide Insert, Sort, Ascending, FirstFallbackTier;
    var cs: seq<Candidate> := [];
    var i := 0;
    while i < |s.tiers|
      invariant i <= |s.tiers|
      invariant cs == Candidates(s.tiers[..i])
    {
      assert s.tiers[..i + 1][..i] == s.tiers[..i];
      if s.tiers[i].enabled && s.tiers[i].role != "orchestrator" {
        cs := cs + [Candidate(s.tiers[i].name, s.tiers[i].priority)];
      }
      i := i + 1;
    }
    assert s.tiers[..i] == s.tiers;
    if |cs| >= 2 {
      var best, second := cs[0], cs[1];
      if second.priority < best.priority {
        best, second := second, best;
      }
      SortTwo(cs);
      i := 2;
      while i < |cs|
        invariant 2 <= i <= |cs|
        invariant Sort(ByPriority(), cs[..i])[..2] == [best, second]
      {
        var c := cs[i];
        FirstTwoOfSort(cs, i, best, second);
        if c.priority < best.priority {
          second := best;
          best := c;
        } else if c.priority < second.priority {
          second := c;
        }
        i := i + 1;
      }
      assert cs[..i] == cs;
      assert Sort(ByPriority(), cs)[1] == Sort(ByPriority(), cs)[..2][1];
      return second.name;
    }
    name := FirstFallbackTier(s);
  }

  lemma SortTwo(cs: seq<Candidate>)
    requires |cs| >= 2
    ensures Sort(ByPriority(), cs[..2])[..2]
         == if cs[1].priority < cs[0].priority then [cs[1], cs[0]] else [cs[0], cs[1]]
  {
    var key := ByPriority();
    assert cs[..2][..1] == [cs[0]] && [cs[0]][..0] == [];
    assert Sort(key, [cs[0]]) == [cs[0]];
    assert Sort(key, cs[..2]) == Insert(key, [cs[0]], cs[1]);
    if key(cs[0]) > key(cs[1]) {
      assert Insert(key, [], cs[1]) == [cs[1]];
    }
  }

  /** Tier `i` comes before tier `j` in priority order, ties in catalogue order. */
  ghost predicate IsBefore(ts: seq<TierInfo>, i: nat, j: nat)
    requires i < |ts| && j < |ts|
  {
    ts[i].priority < ts[j].priority || (ts[i].priority == ts[j].priority && i < j)
  }

  /** Tier `k` is the second of the enabled tiers that are no orchestrators: exactly `b` comes before it. */
  ghost predicate IsSecond(ts: seq<TierInfo>, b: nat, k: nat) {
    && b < |ts| && ts[b].enabled && ts[b].role != "orchestrator"
    && k < |ts| && ts[k].enabled && ts[k].role != "orchestrator"
    && IsBefore(ts, b, k)
    && forall i | 0 <= i < |ts| && ts[i].enabled && ts[i].role != "orchestrator" && i != b && i != k ::
         IsBefore(ts, k, i)
  }

  /** `at` holds the positions of the candidates among the first `n` tiers, in order. */
  ghost predicate Listed(ts: seq<TierInfo>, n: nat, cs: seq<Candidate>, at: seq<nat>) {
    && n <= |ts| && |at| == |cs|
    && (forall k | 0 <= k < |at| ::
          && at[k] < n && ts[at[k]].enabled && ts[at[k]].role != "orchestrator"
          && cs[k] == Candidate(ts[at[k]].name, ts[at[k]].priority))
    && (forall k, m | 0 <= k < m < |at| :: at[k] < at[m])
    && (forall i | 0 <= i < n && ts[i].enabled && ts[i].role != "orchestrator" :: i in at)
  }

  lemma ListNext(ts: seq<TierInfo>, n: nat, cs: seq<Candidate>, at: seq<nat>)
    requires n < |ts| && Listed(ts, n, cs, at)
    ensures if ts[n].enabled && ts[n].role != "orchestrator"
            then Listed(ts, n + 1, cs + [Candidate(ts[n].name, ts[n].priority)], at + [n])
            else Listed(ts, n + 1, cs, at)
  {
    if ts[n].enabled && ts[n].role != "orchestrator" {
      var more := at + [n];
      forall i | 0 <= i < n + 1 && ts[i].enabled && ts[i].role != "orchestrator" ensures i in more {
        assert i < n ==> i in at;
      }
    }
  }

  lemma SecondIsListed(ts: seq<TierInfo>, cs: seq<Candidate>, at: seq<nat>, b: nat, k: nat)
    requires Listed(ts, |ts|, cs, at) && IsSecondListed(cs, |cs|, b, k)
    ensures b < |at| && k < |at| && IsSecond(ts, at[b], at[k]) && ts[at[k]].name == cs[k].name
  {
    forall i | 0 <= i < |ts| && ts[i].enabled && ts[i].role != "orchestrator" && i != at[b] && i != at[k]
      ensures IsBefore(ts, at[k], i)
    {
      var m :| 0 <= m < |at| && at[m] == i;
      assert IsBeforeListed(cs, k, m);
    }
    assert IsBeforeListed(cs, b, k);
  }

  ghost predicate IsBeforeListed(cs: seq<Candidate>, i: nat, j: nat)
    requires i < |cs| && j < |cs|
  {
    cs[i].priority < cs[j].priority || (cs[i].priority == cs[j].priority && i < j)
  }

  /** Of the first `n` candidates, `k` is the second and `b` the first. */
  ghost predicate IsSecondListed(cs: seq<Candidate>, n: nat, b: nat, k: nat) {
    && b < n <= |cs| && k < n && IsBeforeListed(cs, b, k)
    && forall m | 0 <= m < n && m != b && m != k :: IsBeforeListed(cs, k, m)
  }

  /** One more candidate comes first, second, or behind the two. */
  lemma SecondNext(cs: seq<Candidate>, n: nat, b: nat, k: nat)
    requires n < |cs| && IsSecondListed(cs, n, b, k)
    ensures if cs[n].priority < cs[b].priority then IsSecondListed(cs, n + 1, n, b)
            else if cs[n].priority < cs[k].priority then IsSecondListed(cs, n + 1, b, n)
            else IsSecondListed(cs, n + 1, b, k)
  {
    forall m | 0 <= m < n && m != b && m != k
      ensures IsBeforeListed(cs, k, m) && IsBeforeListed(cs, b, m)
      ensures cs[n].priority < cs[k].priority ==> IsBeforeListed(cs, n, m)
    {
    }
  }

  lemma FewListed(ts: seq<TierInfo>, cs: seq<Candidate>, at: seq<nat>)
    requires Listed(ts, |ts|, cs, at) && |cs| < 2
    ensures NotTwo(ts)
  {
    assert forall i, j | i in at && j in at :: i == j;
  }

  /** There are no two enabled tiers that are no orchestrators. */
  ghost predicate NotTwo(ts: seq<TierInfo>) {
    forall i, j | 0 <= i < j < |ts| && ts[i].enabled && ts[j].enabled ::
      ts[i].role == "orchestrator" || ts[j].role == "orchestrator"
  }

  lemma {:induction false} CandidatesListed(ts: seq<TierInfo>, n: nat) returns (at: seq<nat>)
    requires n <= |ts|
    ensures Listed(ts, n, Candidates(ts[..n]), at)
  {
    hide Listed;
    if n == 0 {
      at := [];
      NoneListed(ts);
    } else {
      at := CandidatesListed(ts, n - 1);
      ListNext(ts, n - 1, Candidates(ts[..n - 1]), at);
      assert ts[..n][..n - 1] == ts[..n - 1];
      if ts[n - 1].enabled && ts[n - 1].role != "orchestrator" {
        at := at + [n - 1];
      } else {
        assert Candidates(ts[..n]) == Candidates(ts[..n - 1]);
      }
    }
  }

  lemma NoneListed(ts: seq<TierInfo>)
    ensures Listed(ts, 0, Candidates(ts[..0]), [])
  {
  }

  lemma {:induction false} SortedSecond(cs: seq<Candidate>, n: nat) returns (b: nat, k: nat)
    requires 2 <= n <= |cs|
    ensures IsSecondListed(cs, n, b, k) && Sort(ByPriority(), cs[..n])[..2] == [cs[b], cs[k]]
  {
    hide Sort, Insert;
    if n == 2 {
      SortTwo(cs);
      b, k := if cs[1].priority < cs[0].priority then 1 else 0, if cs[1].priority < cs[0].priority then 0 else 1;
    } else {
      var b0, k0 := SortedSecond(cs, n - 1);
      FirstTwoOfSort(cs, n - 1, cs[b0], cs[k0]);
      SecondNext(cs, n - 1, b0, k0);
      b, k := b0, k0;
      if cs[n - 1].priority < cs[b0].priority {
        b, k := n - 1, b0;
      } else if cs[n - 1].priority < cs[k0].priority {
        k := n - 1;
      }
    }
  }

  /** The pick is the enabled tier with exactly one other before it, orchestrators aside. */
  lemma OnboardingPickIs(s: Snapshot)
    ensures if NotTwo(s.tiers) then OnboardingPick(s) == FirstFallbackTier(s)
            else exists b: nat, k: nat :: IsSecond(s.tiers, b, k) && OnboardingPick(s) == s.tiers[k].name
  {
    hide Sort, FirstFallbackTier, Listed, IsSecond, IsSecondListed, NotTwo;
    var ts, cs := s.tiers, Candidates(s.tiers);
    var at := CandidatesListed(ts, |ts|);
    assert ts[..|ts|] == ts;
    if |cs| < 2 {
      FewListed(ts, cs, at);
    } else {
      TwoListed(ts, cs, at);
      var b, k := SortedSecond(cs, |cs|);
      assert cs[..|cs|] == cs;
      assert Sort(ByPriority(), cs)[1] == Sort(ByPriority(), cs)[..2][1];
      SecondIsListed(ts, cs, at, b, k);
      assert IsSecond(ts, at[b], at[k]);
    }
  }

  lemma TwoListed(ts: seq<TierInfo>, cs: seq<Candidate>, at: seq<nat>)
    requires Listed(ts, |ts|, cs, at) && |cs| >= 2
    ensures !NotTwo(ts)
  {
    assert at[0] < at[1];
  }

  // ---------- The fallback chain

  /** The fallback of the first tier with this name; empty when it has none or there is no such tier. */
  function Link(ts: seq<TierInfo>, name: string): (fallback: string)
    ensures forall i | 0 <= i < |ts| && ts[i].name == name && (forall j | 0 <= j < i :: ts[j].name != name) ::
              fallback == ts[i].fallback
    ensures (forall i | 0 <= i < |ts| :: ts[i].name != name) ==> fallback == ""
  {
    var i := First(ts, Named(name));
    if i == -1 then "" else ts[i].fallback
  }

  ghost function Links(ts: seq<TierInfo>): set<string> {
    set t | t in ts :: t.fallback
  }

  lemma LinkIsListed(ts: seq<TierInfo>, name: string)
    ensures Link(ts, name) == "" || Link(ts, name) in Links(ts)
  {
    var i := First(ts, Named(name));
    if i >= 0 {
      assert ts[i] in ts;
    }
  }

  /** The tier that leads to position `i` of the chain. */
  function Before(start: string, chain: seq<string>, i: nat): string
    requires i <= |chain|
  {
    if i == 0 then start else chain[i - 1]
  }

  /** Position `i` of the chain is the link of the tier before it. */
  ghost predicate LinkedAt(start: string, ts: seq<TierInfo>, chain: seq<string>, i: nat)
    requires i < |chain|
  {
    chain[i] != "" && chain[i] == Link(ts, Before(start, chain, i))
  }

  /** `chain` follows the links from `start` and visits nothing twice. */
  ghost predicate IsPath(start: string, ts: seq<TierInfo>, chain: seq<string>) {
    && (forall i | 0 <= i < |chain| :: LinkedAt(start, ts, chain, i))
    && start !in chain
    && (forall i, j | 0 <= i < j < |chain| :: chain[i] != chain[j])
  }

  /** The link at the end of a path. */
  function EndLink(start: string, ts: seq<TierInfo>, chain: seq<string>): string {
    Link(ts, Before(start, chain, |chain|))
  }

  /** A path that cannot be continued: its last tier has no fallback, or one that has been visited. */
  ghost predicate IsFallbackChain(start: string, ts: seq<TierInfo>, chain: seq<string>) {
    && IsPath(start, ts, chain)
    && var next := EndLink(start, ts, chain);
       next == "" || next == start || next in chain
  }

  lemma ExtendPath(start: string, ts: seq<TierInfo>, chain: seq<string>, fb: string)
    requires IsPath(start, ts, chain) && fb == EndLink(start, ts, chain)
    requires fb != "" && fb != start && fb !in chain
    ensures IsPath(start, ts, chain + [fb])
  {
    var next := chain + [fb];
    forall i | 0 <= i < |next| ensures LinkedAt(start, ts, next, i) {
      assert i < |chain| ==> LinkedAt(start, ts, chain, i);
      assert Before(start, next, i) == Before(start, chain, i);
    }
  }

  lemma LinkIs(ts: seq<TierInfo>, name: string, i: nat)
    requires i <= |ts| && forall j | 0 <= j < i :: ts[j].name != name
    requires i < |ts| ==> ts[i].name == name
    ensures Link(ts, name) == if i < |ts| then ts[i].fallback else ""
  {
    var p := Named(name);
    var r := First(ts, p);
    if r >= 0 {
      assert p(ts[r]);
    }
    if i < |ts| {
      assert p(ts[i]);
    }
  }

  /** Terminates on every configuration, cyclic and dangling ones included. */
  method ResolveFallbackChain(start: string, ts: seq<TierInfo>) returns (chain: seq<string>)
    ensures IsFallbackChain(start, ts, chain)
    ensures |chain| <= |ts|
  {
    var visited := {start};
    var current := start;
    chain := [];
    while true
      invariant current == Before(start, chain, |chain|)
      invariant visited == {start} + set c | c in chain
      invariant IsPath(start, ts, chain)
      decreases Links(ts) - visited
    {
      var fb := "";
      var i := 0;
      while i < |ts|
        invariant i <= |ts| && fb == ""
        invariant forall j | 0 <= j < i :: ts[j].name != current
      {
        if ts[i].name == current {
          fb := ts[i].fallback;
          break;
        }
        i := i + 1;
      }
      LinkIs(ts, current, i);
      LinkIsListed(ts, current);
      if fb == "" || fb in visited {
        break;
      }
      ExtendPath(start, ts, chain, fb);
      visited := visited + {fb};
      chain := chain + [fb];
      current := fb;
    }
    ChainIsShort(start, ts, chain);
  }

  lemma {:induction false} PathsAgree(start: string, ts: seq<TierInfo>, a: seq<string>, b: seq<string>, n: nat)
    requires IsPath(start, ts, a) && IsPath(start, ts, b) && n <= |a| && n <= |b|
    ensures forall i | 0 <= i < n :: a[i] == b[i]
  {
    if n > 0 {
      PathsAgree(start, ts, a, b, n - 1);
      assert Before(start, a, n - 1) == Before(start, b, n - 1);
      assert LinkedAt(start, ts, a, n - 1) && LinkedAt(start, ts, b, n - 1);
    }
  }

  lemma PathGoesOn(start: string, ts: seq<TierInfo>, a: seq<string>, b: seq<string>)
    requires IsPath(start, ts, b) && |a| < |b| && a == b[..|a|]
    ensures EndLink(start, ts, a) == b[|a|] != "" && b[|a|] != start && b[|a|] !in a
  {
    assert LinkedAt(start, ts, b, |a|);
    assert Before(start, b, |a|) == Before(start, a, |a|);
    assert forall i | 0 <= i < |a| :: a[i] == b[i];
    assert b[|a|] in b;
  }

  lemma ChainIsNotShorter(start: string, ts: seq<TierInfo>, a: seq<string>, b: seq<string>)
    requires IsFallbackChain(start, ts, a) && IsPath(start, ts, b)
    ensures |b| <= |a|
  {
    if |a| < |b| {
      PathsAgree(start, ts, a, b, |a|);
      PathGoesOn(start, ts, a, b);
    }
  }

  /** The links leave no choice: there is one fallback chain. */
  lemma ChainIsUnique(start: string, ts: seq<TierInfo>, a: seq<string>, b: seq<string>)
    requires IsFallbackChain(start, ts, a) && IsFallbackChain(start, ts, b)
    ensures a == b
  {
    ChainIsNotShorter(start, ts, a, b);
    ChainIsNotShorter(start, ts, b, a);
    PathsAgree(start, ts, a, b, |a|);
  }

  ghost function Names(ts: seq<TierInfo>): set<string> {
    set t | t in ts :: t.name
  }

  lemma {:induction false} FewNames(ts: seq<TierInfo>)
    ensures |Names(ts)| <= |ts|
  {
    if ts != [] {
      var front, last := ts[..|ts| - 1], ts[|ts| - 1];
      FewNames(front);
      assert ts == front + [last];
      assert Names(ts) == Names(front) + {last.name};
    }
  }

  ghost function Reached(start: string, chain: seq<string>, n: nat): set<string>
    requires n <= |chain|
  {
    if n == 0 then {} else Reached(start, chain, n - 1) + {Before(start, chain, n - 1)}
  }

  lemma {:induction false} ReachedMember(start: string, chain: seq<string>, n: nat, name: string)
    requires n <= |chain| && name in Reached(start, chain, n)
    ensures exists i :: 0 <= i < n && name == Before(start, chain, i)
  {
    if name in Reached(start, chain, n - 1) {
      ReachedMember(start, chain, n - 1, name);
    }
  }

  /** The tiers that a path leaves by a link are different tiers of the list. */
  lemma {:induction false} ReachedNames(start: string, ts: seq<TierInfo>, chain: seq<string>, n: nat)
    requires n <= |chain| && IsPath(start, ts, chain)
    ensures Reached(start, chain, n) <= Names(ts)
    ensures |Reached(start, chain, n)| == n
  {
    hide IsPath, Before, Names;
    if n > 0 {
      ReachedNames(start, ts, chain, n - 1);
      NotReachedBefore(start, ts, chain, n - 1);
      LeavesATier(start, ts, chain, n - 1);
      AddOne(Reached(start, chain, n - 1), Before(start, chain, n - 1), Names(ts));
    }
  }

  lemma AddOne<T>(s: set<T>, x: T, bound: set<T>)
    requires x !in s && s <= bound && x in bound
    ensures |s + {x}| == |s| + 1 && s + {x} <= bound
  {
  }

  lemma LeavesATier(start: string, ts: seq<TierInfo>, chain: seq<string>, i: nat)
    requires i < |chain| && IsPath(start, ts, chain)
    ensures Before(start, chain, i) in Names(ts)
  {
    assert LinkedAt(start, ts, chain, i);
    LinkNamesATier(ts, Before(start, chain, i));
  }

  lemma NotReachedBefore(start: string, ts: seq<TierInfo>, chain: seq<string>, n: nat)
    requires n <= |chain| && IsPath(start, ts, chain)
    ensures Before(start, chain, n) !in Reached(start, chain, n)
  {
    forall i | 0 <= i < n ensures Before(start, chain, i) != Before(start, chain, n) {
      assert chain[n - 1] in chain;
    }
    if Before(start, chain, n) in Reached(start, chain, n) {
      ReachedMember(start, chain, n, Before(start, chain, n));
    }
  }

  lemma LinkNamesATier(ts: seq<TierInfo>, name: string)
    requires Link(ts, name) != ""
    ensures name in Names(ts)
  {
    var k := First(ts, Named(name));
    assert Named(name)(ts[k]) && ts[k] in ts;
  }

  lemma ChainIsShort(start: string, ts: seq<TierInfo>, chain: seq<string>)
    requires IsPath(start, ts, chain)
    ensures |chain| <= |ts|
  {
    ReachedNames(start, ts, chain, |chain|);
    FewNames(ts);
    SubsetCount(Reached(start, chain, |chain|), Names(ts));
  }
}
