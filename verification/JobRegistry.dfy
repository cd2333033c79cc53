/**
At most one live job per conversation.

`ChatService` is the object with its map of jobs.  `Apply` below is the same `StartJob` taken
apart into the steps between which a stop or a finish, which do not take the service's lock,
can come in.
*/
module JobRegistry {
  import opened Wrappers
  import opened ChatJob

  type ConvId = string

  datatype Request = Request(conv: ConvId, message: string, hasMedia: bool) {
    /** Whether the user message is stored before the job starts; slash commands store their own. */
    predicate Persists() {
      && conv != ""
      && !(message != "" && message[0] == '/')
      && (message != "" || hasMedia)
    }
  }

  // ---------- The object

  class ChatService {
    var activeJobs: map<ConvId, ChatJob>
    var persisted: seq<Request>

    constructor ()
      ensures activeJobs == map[] && persisted == []
    {
      activeJobs, persisted := map[], [];
    }

    /** The job that runs for a conversation. */
    function ActiveJob(conv: ConvId): (job: Option<ChatJob>)
      reads this, activeJobs.Values
      ensures job.Some? <==> conv in activeJobs && !activeJobs[conv].done && !activeJobs[conv].cancelled
      ensures job.Some? ==> job.value == activeJobs[conv]
    {
      if conv in activeJobs && !activeJobs[conv].IsDone() then Some(activeJobs[conv]) else None
    }

    /** `storeFails` says that the store refuses the user message, which does not keep the job from starting. */
    method StartJob(req: Request, storeFails: bool) returns (job: ChatJob)
      modifies this
      ensures !job.done && !job.cancelled && req.conv in activeJobs && activeJobs[req.conv] == job
      ensures fresh(job)
         <==> !old(req.conv in activeJobs && !activeJobs[req.conv].done && !activeJobs[req.conv].cancelled)
      ensures !fresh(job) ==>
                job == old(activeJobs)[req.conv] && activeJobs == old(activeJobs) && persisted == old(persisted)
      ensures fresh(job) ==>
                && job.convID == req.conv && job.events == [] && job.err == None && !job.notify.closed
                && persisted == old(persisted) +
                     (if && req.conv != "" && !storeFails
                         && (if req.message == "" then req.hasMedia else req.message[0] != '/')
                      then [req] else [])
                && activeJobs == (map k | k in old(activeJobs) && k != req.conv
                                          && !old(activeJobs[k].done) && !old(activeJobs[k].cancelled)
                                        :: old(activeJobs)[k])[req.conv := job]
    {
      if req.conv in activeJobs && !activeJobs[req.conv].IsDone() {
        return activeJobs[req.conv];
      }
      if req.Persists() && !storeFails {
        persisted := persisted + [req];
      }
      job := new ChatJob(req.conv);
      activeJobs := activeJobs[req.conv := job];
      Prune(req.conv);
    }

    /** Drops the completed jobs of the other conversations. */
    method Prune(conv: ConvId)
      modifies this`activeJobs
      ensures activeJobs ==
              map k | k in old(activeJobs)
                      && (k == conv || (!old(activeJobs[k].done) && !old(activeJobs[k].cancelled)))
                    :: old(activeJobs)[k]
    {
      ghost var all := activeJobs;
      var rest := activeJobs.Keys;
      while rest != {}
        invariant rest <= activeJobs.Keys
        invariant activeJobs == map k | k in all && (k in rest || k == conv || !all[k].IsDone()) :: all[k]
        decreases rest
      {
        var k :| k in rest;
        if activeJobs[k].IsDone() && k != conv {
          activeJobs := activeJobs - {k};
        }
        rest := rest - {k};
      }
    }
  }

  // ---------- StartJob against concurrent stops and finishes

  type JobId = nat
  type Caller = nat

  datatype Job = Job(owner: Caller, request: Request, done: bool, cancelled: bool) {
    predicate Live() {
      !done && !cancelled
    }
  }

  datatype UserMessage = UserMessage(caller: Caller, request: Request)

  /** Where the caller that holds the service's lock is. */
  datatype Phase =
    | Checking
    | Passed
    | Persisted
    | Pruning(job: JobId, todo: set<ConvId>)

  datatype Holder = Holder(caller: Caller, request: Request, phase: Phase)

  /** `requests` holds what each caller asked for, `refused` the callers whose message the store did not take. */
  datatype State = State(
    jobs: map<JobId, Job>, next: JobId, active: map<ConvId, JobId>,
    messages: seq<UserMessage>, refused: set<Caller>,
    lock: Option<Holder>, requests: map<Caller, Request>, returned: map<Caller, JobId>)

  datatype Label =
    | Lock(caller: Caller, request: Request)
    | Check
    | Persist(refuses: bool)
    | Insert
    | Prune(conv: ConvId)
    | Unlock
    | Stop(job: JobId)
    | Finish(job: JobId)

  const INIT := State(map[], 0, map[], [], {}, None, map[], map[])

  predicate Enabled(s: State, l: Label) {
    match l
    case Lock(caller, _) => s.lock.None? && caller !in s.requests
    case Check => s.lock.Some? && s.lock.value.phase.Checking?
    case Persist(_) => s.lock.Some? && s.lock.value.phase.Passed?
    case Insert => s.lock.Some? && s.lock.value.phase.Persisted?
    case Prune(conv) => s.lock.Some? && s.lock.value.phase.Pruning? && conv in s.lock.value.phase.todo
    case Unlock => s.lock.Some? && s.lock.value.phase.Pruning? && s.lock.value.phase.todo == {}
    case Stop(job) => job in s.jobs
    case Finish(job) => job in s.jobs
  }

  predicate IsLive(s: State, job: JobId) {
    job in s.jobs && s.jobs[job].Live()
  }

  /** The lock holder moves on to the next phase. */
  function Move(s: State, phase: Phase): State
    requires s.lock.Some?
  {
    s.(lock := Some(s.lock.value.(phase := phase)))
  }

  /** The lock holder is answered with a job and lets go of the lock. */
  function Answer(s: State, job: JobId): State
    requires s.lock.Some?
  {
    s.(lock := None, returned := s.returned[s.lock.value.caller := job])
  }

  function Apply(s: State, l: Label): State {
    if !Enabled(s, l) then s else
    match l
    case Lock(caller, request) =>
      s.(lock := Some(Holder(caller, request, Checking)), requests := s.requests[caller := request])
    case Check =>
      var conv := s.lock.value.request.conv;
      if conv in s.active && IsLive(s, s.active[conv]) then Answer(s, s.active[conv]) else Move(s, Passed)
    case Persist(refuses) =>
      var h := s.lock.value;
      if !h.request.Persists() then Move(s, Persisted)
      else if refuses then Move(s, Persisted).(refused := s.refused + {h.caller})
      else Move(s, Persisted).(messages := s.messages + [UserMessage(h.caller, h.request)])
    case Insert =>
      var h := s.lock.value;
      var active := s.active[h.request.conv := s.next];
      Move(s, Pruning(s.next, active.Keys))
        .(jobs := s.jobs[s.next := Job(h.caller, h.request, false, false)], next := s.next + 1, active := active)
    case Prune(conv) =>
      var h := s.lock.value;
      var t := Move(s, h.phase.(todo := h.phase.todo - {conv}));
      if conv in s.active && !IsLive(s, s.active[conv]) && conv != h.request.conv
      then t.(active := s.active - {conv})
      else t
    case Unlock => Answer(s, s.lock.value.phase.job)
    case Stop(job) => s.(jobs := s.jobs[job := s.jobs[job].(cancelled := true)])
    case Finish(job) => s.(jobs := s.jobs[job := s.jobs[job].(done := true)])
  }

  function Exec(run: seq<Label>): State {
    if run == [] then INIT else Apply(Exec(run[..|run| - 1]), run[|run| - 1])
  }

  // ---------- Jobs and their slots

  predicate ActiveFor(s: State, conv: ConvId, job: JobId) {
    conv in s.active && s.active[conv] == job
  }

  /** Every live job is the active job of its own conversation. */
  ghost predicate LiveIsActive(s: State) {
    forall j | IsLive(s, j) :: ActiveFor(s, s.jobs[j].request.conv, j)
  }

  predicate ActiveOk(s: State) {
    forall k | k in s.active :: s.active[k] in s.jobs && s.jobs[s.active[k]].request.conv == k
  }

  predicate HasPassed(p: Phase) {
    p.Passed? || p.Persisted?
  }

  /** A caller that got past the check found no live job, and none can have started since. */
  predicate LockOk(s: State) {
    s.lock.Some? ==>
      var conv, phase := s.lock.value.request.conv, s.lock.value.phase;
      && (HasPassed(phase) && conv in s.active ==> !IsLive(s, s.active[conv]))
      && (phase.Pruning? ==> ActiveFor(s, conv, phase.job))
  }

  predicate NextOk(s: State) {
    forall j | j in s.jobs :: j < s.next
  }

  ghost predicate SlotsOk(s: State) {
    LiveIsActive(s) && ActiveOk(s) && NextOk(s) && LockOk(s)
  }

  lemma InsertKeepsSlots(s: State)
    requires SlotsOk(s) && Enabled(s, Insert)
    ensures SlotsOk(Apply(s, Insert))
  {
    var t := Apply(s, Insert);
    forall j | IsLive(t, j) ensures ActiveFor(t, t.jobs[j].request.conv, j) {
      if j != s.next {
        assert IsLive(s, j) && ActiveFor(s, s.jobs[j].request.conv, j);
      }
    }
  }

  lemma PruneKeepsSlots(s: State, conv: ConvId)
    requires SlotsOk(s) && Enabled(s, Prune(conv))
    ensures SlotsOk(Apply(s, Prune(conv)))
  {
    var t := Apply(s, Prune(conv));
    forall j | IsLive(t, j) ensures ActiveFor(t, t.jobs[j].request.conv, j) {
      assert IsLive(s, j) && ActiveFor(s, s.jobs[j].request.conv, j);
    }
  }

  /** Stopping or finishing a job takes liveness away and changes nothing else. */
  lemma FlagKeepsSlots(s: State, job: JobId, flagged: Job)
    requires SlotsOk(s) && job in s.jobs && !flagged.Live() && flagged.request == s.jobs[job].request
    ensures SlotsOk(s.(jobs := s.jobs[job := flagged]))
  {
    var t := s.(jobs := s.jobs[job := flagged]);
    forall j | IsLive(t, j) ensures ActiveFor(t, t.jobs[j].request.conv, j) {
      assert IsLive(s, j) && ActiveFor(s, s.jobs[j].request.conv, j);
    }
    assert forall j | j in s.jobs :: t.jobs[j].request == s.jobs[j].request;
  }

  /** Taking and leaving the lock, the check and the storing of a message touch neither jobs nor slots. */
  lemma HolderMoves(s: State, l: Label)
    requires LockOk(s) && Enabled(s, l) && (l.Lock? || l.Check? || l.Persist? || l.Unlock?)
    ensures
      var t := Apply(s, l);
      t.jobs == s.jobs && t.active == s.active && t.next == s.next && LockOk(t)
  {
  }

  lemma SameSlots(s: State, t: State)
    requires SlotsOk(s) && LockOk(t) && t.jobs == s.jobs && t.active == s.active && t.next == s.next
    ensures SlotsOk(t)
  {
    hide LockOk;
    forall j | IsLive(t, j) ensures ActiveFor(t, t.jobs[j].request.conv, j) {
      assert IsLive(s, j) && ActiveFor(s, s.jobs[j].request.conv, j);
    }
  }

  lemma HolderKeepsSlots(s: State, l: Label)
    requires SlotsOk(s) && Enabled(s, l) && (l.Lock? || l.Check? || l.Persist? || l.Unlock?)
    ensures SlotsOk(Apply(s, l))
  {
    hide Apply, LiveIsActive, LockOk, NextOk, ActiveOk;
    HolderMoves(s, l);
    SameSlots(s, Apply(s, l));
  }

  lemma StepKeepsSlots(s: State, l: Label)
    requires SlotsOk(s)
    ensures SlotsOk(Apply(s, l))
  {
    hide SlotsOk, IsLive;
    if Enabled(s, l) {
      match l
      case Insert => InsertKeepsSlots(s);
      case Prune(conv) => PruneKeepsSlots(s, conv);
      case Stop(job) => FlagKeepsSlots(s, job, s.jobs[job].(cancelled := true));
      case Finish(job) => FlagKeepsSlots(s, job, s.jobs[job].(done := true));
      case _ => HolderKeepsSlots(s, l);
    }
  }

  lemma {:induction false} RunKeepsSlots(run: seq<Label>)
    ensures SlotsOk(Exec(run))
  {
    if run != [] {
      RunKeepsSlots(run[..|run| - 1]);
      StepKeepsSlots(Exec(run[..|run| - 1]), run[|run| - 1]);
    }
  }

  function ActiveJob(s: State, conv: ConvId): Option<JobId> {
    if conv in s.active && IsLive(s, s.active[conv]) then Some(s.active[conv]) else None
  }

  /**
  In every run a conversation has at most one live job, and it is the one that lookup by
  conversation finds; in particular no live job is ever pruned.
  */
  lemma OneLiveJobPerConversation(run: seq<Label>, j: JobId)
    requires j in Exec(run).jobs
    ensures
      var s := Exec(run);
      var job := s.jobs[j];
      && (!job.done && !job.cancelled <==> ActiveJob(s, job.request.conv) == Some(j))
      && (!job.done && !job.cancelled ==>
            forall k | k in s.jobs && k != j && s.jobs[k].request.conv == job.request.conv ::
              s.jobs[k].done || s.jobs[k].cancelled)
  {
    RunKeepsSlots(run);
    var s := Exec(run);
    forall k | k in s.jobs && k != j && s.jobs[k].request.conv == s.jobs[j].request.conv
      ensures !IsLive(s, j) || !IsLive(s, k)
    {
      assert IsLive(s, j) ==> ActiveFor(s, s.jobs[j].request.conv, j);
    }
  }

  lemma StepFlags(s: State, l: Label, j: JobId)
    requires NextOk(s) && j in s.jobs
    ensures
      var t := Apply(s, l);
      && j in t.jobs && t.jobs[j].request == s.jobs[j].request
      && (t.jobs[j].cancelled <==> s.jobs[j].cancelled || l == Stop(j))
      && (t.jobs[j].done <==> s.jobs[j].done || l == Finish(j))
  {
    hide IsLive, Request.Persists;
  }

  lemma InsertStartsJob(s: State)
    requires Enabled(s, Insert)
    ensures
      var t := Apply(s, Insert);
      s.next in t.jobs && t.jobs[s.next] == Job(s.lock.value.caller, s.lock.value.request, false, false)
  {
  }

  /** A job is for the request that started it, and is cancelled or done exactly if it was stopped or finished since. */
  lemma {:induction false} JobOfRun(run: seq<Label>, n: nat)
    requires n < |run| && run[n] == Insert && Enabled(Exec(run[..n]), Insert)
    ensures
      var j := Exec(run[..n]).next;
      && j in Exec(run).jobs
      && var job := Exec(run).jobs[j];
      && job.request == Exec(run[..n]).lock.value.request
      && (job.cancelled <==> exists k :: n < k < |run| && run[k] == Stop(j))
      && (job.done <==> exists k :: n < k < |run| && run[k] == Finish(j))
  {
    hide Apply, SlotsOk, Enabled;
    var last, j := |run| - 1, Exec(run[..n]).next;
    if n == last {
      InsertStartsJob(Exec(run[..n]));
    } else {
      var prefix := run[..last];
      assert prefix[..n] == run[..n];
      JobOfRun(prefix, n);
      RunKeepsSlots(prefix);
      SlotsBoundNext(Exec(prefix));
      StepFlags(Exec(prefix), run[last], j);
      assert forall k | 0 <= k < last :: run[k] == prefix[k];
    }
  }

  // ---------- Callers, their answers and their messages

  /** The messages stored for a caller, in order. */
  function MessagesOf(ms: seq<UserMessage>, caller: Caller): seq<Request> {
    if ms == [] then []
    else
      var last := ms[|ms| - 1];
      MessagesOf(ms[..|ms| - 1], caller) + (if last.caller == caller then [last.request] else [])
  }

  /** The caller holds the lock and has been through the storing of its message. */
  predicate IsPast(s: State, caller: Caller) {
    s.lock.Some? && s.lock.value.caller == caller && (s.lock.value.phase.Persisted? || s.lock.value.phase.Pruning?)
  }

  predicate IsPruning(s: State, caller: Caller, job: JobId) {
    s.lock.Some? && s.lock.value.caller == caller && s.lock.value.phase.Pruning? && s.lock.value.phase.job == job
  }

  /** The caller has started the job it was answered with, or is about to. */
  predicate Starts(s: State, caller: Caller) {
    || IsPast(s, caller)
    || (caller in s.returned && s.returned[caller] in s.jobs && s.jobs[s.returned[caller]].owner == caller)
  }

  /**
  What the store should hold for a caller: its message if it starts a job, asks for storing and
  was not refused.
  */
  function DueTo(s: State, caller: Caller): seq<Request> {
    if Starts(s, caller) && caller in s.requests && s.requests[caller].Persists() && caller !in s.refused
    then [s.requests[caller]] else []
  }

  /** A job belongs to the caller that is answered with it, or that will be once its pruning is over. */
  predicate OwnerOk(s: State, j: JobId)
    requires j in s.jobs
  {
    var owner := s.jobs[j].owner;
    && owner in s.requests && s.jobs[j].request == s.requests[owner]
    && ((owner in s.returned && s.returned[owner] == j) || IsPruning(s, owner, j))
  }

  predicate AnswerOk(s: State, caller: Caller)
    requires caller in s.returned
  {
    var j := s.returned[caller];
    && caller in s.requests && j in s.jobs && s.jobs[j].request.conv == s.requests[caller].conv
  }

  predicate HolderOk(s: State) {
    s.lock.Some? ==>
      && s.lock.value.caller !in s.returned && s.lock.value.caller in s.requests
      && s.requests[s.lock.value.caller] == s.lock.value.request
      && (s.lock.value.phase.Pruning? ==>
            s.lock.value.phase.job in s.jobs && s.jobs[s.lock.value.phase.job].owner == s.lock.value.caller)
  }

  ghost predicate CallersOk(s: State) {
    && (forall j | j in s.jobs :: OwnerOk(s, j))
    && (forall c | c in s.returned :: AnswerOk(s, c))
    && (forall c | c in s.refused :: Starts(s, c))
    && HolderOk(s)
  }

  ghost predicate MessagesOk(s: State) {
    forall c :: MessagesOf(s.messages, c) == DueTo(s, c)
  }

  /** Requests and answers are kept, and so are jobs up to their flags. */
  ghost predicate Extends(s: State, t: State) {
    && (forall c | c in s.requests :: c in t.requests && t.requests[c] == s.requests[c])
    && (forall c | c in s.returned :: c in t.returned && t.returned[c] == s.returned[c])
    && (forall j | j in s.jobs ::
          j in t.jobs && t.jobs[j].owner == s.jobs[j].owner && t.jobs[j].request == s.jobs[j].request)
  }

  lemma StepExtends(s: State, l: Label)
    requires NextOk(s) && HolderOk(s)
    ensures Extends(s, Apply(s, l))
  {
    hide IsLive;
  }

  /** What a step can add: a job of the lock holder, and an answer to it. */
  lemma StepAdds(s: State, l: Label)
    ensures
      var t := Apply(s, l);
      && (forall j | j in t.jobs && j !in s.jobs ::
            Enabled(s, l) && l.Insert? && t.jobs[j] == Job(s.lock.value.caller, s.lock.value.request, false, false)
            && IsPruning(t, s.lock.value.caller, j))
      && (forall c | c in t.returned && c !in s.returned ::
            && Enabled(s, l) && (l.Check? || l.Unlock?) && c == s.lock.value.caller
            && (l.Check? ==> ActiveFor(s, s.lock.value.request.conv, t.returned[c]))
            && (l.Unlock? ==> t.returned[c] == s.lock.value.phase.job))
  {
    hide IsLive;
  }

  lemma PruningNext(s: State, l: Label, caller: Caller, j: JobId)
    requires IsPruning(s, caller, j)
    ensures IsPruning(Apply(s, l), caller, j) || (caller in Apply(s, l).returned && Apply(s, l).returned[caller] == j)
  {
    hide IsLive;
  }

  lemma StepKeepsOwners(s: State, l: Label)
    requires CallersOk(s) && NextOk(s)
    ensures forall j | j in Apply(s, l).jobs :: OwnerOk(Apply(s, l), j)
  {
    hide AnswerOk, Starts, Apply, NextOk;
    StepExtends(s, l);
    StepAdds(s, l);
    var t := Apply(s, l);
    forall j | j in t.jobs ensures OwnerOk(t, j) {
      if j in s.jobs {
        assert OwnerOk(s, j);
        if IsPruning(s, s.jobs[j].owner, j) {
          PruningNext(s, l, s.jobs[j].owner, j);
        }
      } else {
        assert s.lock.value.caller in s.requests;
      }
    }
  }

  lemma StepKeepsAnswers(s: State, l: Label)
    requires CallersOk(s) && ActiveOk(s) && NextOk(s)
    ensures forall c | c in Apply(s, l).returned :: AnswerOk(Apply(s, l), c)
  {
    hide Starts, IsPruning, Apply, NextOk;
    StepExtends(s, l);
    StepAdds(s, l);
    var t := Apply(s, l);
    forall c | c in t.returned ensures AnswerOk(t, c) {
      if c in s.returned {
        assert AnswerOk(s, c);
      } else if l.Unlock? {
        assert OwnerOk(s, s.lock.value.phase.job);
      }
    }
  }

  /** A caller counts as starting a job from the moment its message has been dealt with. */
  lemma StartsNext(s: State, l: Label, caller: Caller)
    requires CallersOk(s) && NextOk(s)
    ensures Starts(Apply(s, l), caller)
       <==> Starts(s, caller) || (Enabled(s, l) && l.Persist? && s.lock.value.caller == caller)
  {
    hide IsLive, OwnerOk, LiveIsActive;
    assert caller in s.returned ==> AnswerOk(s, caller);
    if Enabled(s, l) && l.Check? {
      CheckBorrows(s);
    }
  }

  /** The job that the check finds is not the caller's own. */
  lemma CheckBorrows(s: State)
    requires CallersOk(s) && Enabled(s, Check)
    ensures forall j | j in s.jobs :: s.jobs[j].owner != s.lock.value.caller
  {
    forall j | j in s.jobs ensures s.jobs[j].owner != s.lock.value.caller {
      assert OwnerOk(s, j);
    }
  }

  lemma StepKeepsRefused(s: State, l: Label)
    requires CallersOk(s) && NextOk(s)
    ensures forall c | c in Apply(s, l).refused :: Starts(Apply(s, l), c)
  {
    hide OwnerOk, IsLive, IsPruning, AnswerOk, Starts, HolderOk;
    var t := Apply(s, l);
    forall c | c in t.refused ensures Starts(t, c) {
      StartsNext(s, l, c);
      assert c in s.refused ==> Starts(s, c);
    }
  }

  lemma StepKeepsHolder(s: State, l: Label)
    requires CallersOk(s)
    ensures HolderOk(Apply(s, l))
  {
    hide OwnerOk, IsLive, IsPruning, Starts;
    if Enabled(s, l) && l.Lock? {
      assert l.caller in s.returned ==> AnswerOk(s, l.caller);
    }
  }

  lemma StepKeepsCallers(s: State, l: Label)
    requires SlotsOk(s) && CallersOk(s)
    ensures CallersOk(Apply(s, l))
  {
    hide Apply, OwnerOk, AnswerOk, Starts, HolderOk, LiveIsActive, LockOk, NextOk;
    StepKeepsOwners(s, l);
    StepKeepsAnswers(s, l);
    StepKeepsRefused(s, l);
    StepKeepsHolder(s, l);
  }

  lemma MessagesNext(ms: seq<UserMessage>, m: UserMessage, caller: Caller)
    ensures MessagesOf(ms + [m], caller) == MessagesOf(ms, caller) + if m.caller == caller then [m.request] else []
  {
    assert (ms + [m])[..|ms|] == ms;
  }

  /** The step stores the message of `caller`. */
  predicate Stores(s: State, l: Label, caller: Caller) {
    && Enabled(s, l) && l.Persist? && s.lock.value.caller == caller
    && s.lock.value.request.Persists() && !l.refuses
  }

  lemma DueNext(s: State, l: Label, caller: Caller)
    requires NextOk(s) && CallersOk(s)
    ensures Stores(s, l, caller) ==> DueTo(s, caller) == [] && DueTo(Apply(s, l), caller) == [s.lock.value.request]
    ensures !Stores(s, l, caller) ==> DueTo(Apply(s, l), caller) == DueTo(s, caller)
  {
    hide Starts, OwnerOk, AnswerOk, IsLive;
    StartsNext(s, l, caller);
    StepExtends(s, l);
    if Starts(s, caller) {
      StarterAsked(s, caller);
    }
    PassedHasNotStarted(s);
  }

  lemma StarterAsked(s: State, caller: Caller)
    requires CallersOk(s) && Starts(s, caller)
    ensures caller in s.requests
  {
    assert caller in s.returned ==> AnswerOk(s, caller);
  }

  lemma PassedHasNotStarted(s: State)
    requires CallersOk(s)
    ensures s.lock.Some? && s.lock.value.phase.Passed? ==> !Starts(s, s.lock.value.caller)
  {
  }

  lemma MessagesAfter(s: State, l: Label)
    ensures s.lock.Some? && Stores(s, l, s.lock.value.caller) ==>
              Apply(s, l).messages == s.messages + [UserMessage(s.lock.value.caller, s.lock.value.request)]
    ensures (forall c :: !Stores(s, l, c)) ==> Apply(s, l).messages == s.messages
  {
    assert s.lock.Some? ==> (Stores(s, l, s.lock.value.caller) <==> exists c :: Stores(s, l, c));
  }

  lemma StepKeepsMessages(s: State, l: Label)
    requires NextOk(s) && CallersOk(s) && MessagesOk(s)
    ensures MessagesOk(Apply(s, l))
  {
    hide MessagesOf, DueTo, CallersOk, NextOk, Apply;
    MessagesAfter(s, l);
    forall c ensures MessagesOf(Apply(s, l).messages, c) == DueTo(Apply(s, l), c) {
      assert MessagesOf(s.messages, c) == DueTo(s, c);
      DueNext(s, l, c);
      if s.lock.Some? && Stores(s, l, s.lock.value.caller) {
        MessagesNext(s.messages, UserMessage(s.lock.value.caller, s.lock.value.request), c);
        assert MessagesOf(s.messages, c) + [] == MessagesOf(s.messages, c);
        assert [] + [s.lock.value.request] == [s.lock.value.request];
      }
    }
  }

  lemma {:induction false} RunKeepsCallers(run: seq<Label>)
    ensures CallersOk(Exec(run)) && MessagesOk(Exec(run))
  {
    hide Apply, CallersOk, MessagesOk;
    if run == [] {
      NothingStored();
    } else {
      var s := Exec(run[..|run| - 1]);
      RunKeepsCallers(run[..|run| - 1]);
      RunKeepsSlots(run[..|run| - 1]);
      StepKeepsCallers(s, run[|run| - 1]);
      StepKeepsMessages(s, run[|run| - 1]);
    }
  }

  lemma NothingStored()
    ensures CallersOk(INIT) && MessagesOk(INIT)
  {
  }

  /**
  Whatever the interleaving, every caller is answered with a job of the conversation it asked
  for.  A caller that was answered with another caller's job has left no message in the store;
  one that started its job has left exactly its own, if that was to be stored and the store
  took it.
  */
  lemma OneMessagePerJob(run: seq<Label>, caller: Caller)
    requires caller in Exec(run).returned
    ensures
      var s := Exec(run);
      var j := s.returned[caller];
      && caller in s.requests && j in s.jobs && s.jobs[j].request.conv == s.requests[caller].conv
      && (s.jobs[j].owner != caller ==> MessagesOf(s.messages, caller) == [])
      && (s.jobs[j].owner == caller ==>
            && s.jobs[j].request == s.requests[caller]
            && var request := s.requests[caller];
            && (MessagesOf(s.messages, caller) ==
                if request.conv != "" && caller !in s.refused
                   && (if request.message == "" then request.hasMedia else request.message[0] != '/')
                then [request] else []))
  {
    hide MessagesOf;
    var s := Exec(run);
    RunKeepsCallers(run);
    assert AnswerOk(s, caller) && OwnerOk(s, s.returned[caller]);
    assert MessagesOf(s.messages, caller) == DueTo(s, caller);
  }

  /** A caller that has not been answered has left a message only while it holds the lock. */
  lemma UnansweredLeaveNothing(run: seq<Label>, caller: Caller)
    requires caller !in Exec(run).returned
    requires Exec(run).lock.None? || Exec(run).lock.value.caller != caller
    ensures MessagesOf(Exec(run).messages, caller) == []
  {
    hide MessagesOf;
    RunKeepsCallers(run);
    assert MessagesOf(Exec(run).messages, caller) == DueTo(Exec(run), caller);
  }

  /** The step is the store's refusal of the message of `caller`: one that has a conversation, and text or media. */
  predicate Refuses(s: State, l: Label, caller: Caller) {
    && Enabled(s, l) && l == Persist(true) && s.lock.value.caller == caller
    && var request := s.lock.value.request;
    && request.conv != "" && (if request.message == "" then request.hasMedia else request.message[0] != '/')
  }

  lemma StepRefuses(s: State, l: Label, caller: Caller)
    ensures caller in Apply(s, l).refused <==> caller in s.refused || Refuses(s, l, caller)
    ensures caller in Apply(s, l).requests && caller !in s.requests ==>
              l == Lock(caller, Apply(s, l).requests[caller])
    ensures caller in s.requests ==>
              caller in Apply(s, l).requests && Apply(s, l).requests[caller] == s.requests[caller]
  {
    hide IsLive;
  }

  /** Over all runs: a request is what its caller asked for, and counts as refused exactly if the store refused it. */
  lemma {:induction false} RequestsOfRun(run: seq<Label>, caller: Caller)
    ensures caller in Exec(run).requests ==> Lock(caller, Exec(run).requests[caller]) in run
    ensures caller in Exec(run).refused <==> WasRefused(run, caller)
  {
    hide Apply, Refuses, WasRefused;
    if run == [] {
      NobodyRefused(caller);
    } else {
      var prefix, last := run[..|run| - 1], run[|run| - 1];
      StepRefuses(Exec(prefix), last, caller);
      RequestsOfRun(prefix, caller);
      WasRefusedNext(run, caller);
    }
  }

  /** Some step of the run is the store's refusal of the message of `caller`. */
  ghost predicate WasRefused(run: seq<Label>, caller: Caller) {
    exists k :: 0 <= k < |run| && Refuses(Exec(run[..k]), run[k], caller)
  }

  lemma WasRefusedNext(run: seq<Label>, caller: Caller)
    requires run != []
    ensures
      var prefix, last := run[..|run| - 1], run[|run| - 1];
      WasRefused(run, caller) <==> WasRefused(prefix, caller) || Refuses(Exec(prefix), last, caller)
  {
    hide Refuses, Exec;
    var n := |run| - 1;
    forall k | 0 <= k < n ensures run[..n][..k] == run[..k] && run[..n][k] == run[k] {
    }
    if k :| 0 <= k < n && Refuses(Exec(run[..n][..k]), run[..n][k], caller) {
      assert Refuses(Exec(run[..k]), run[k], caller);
    }
    if k :| 0 <= k < |run| && Refuses(Exec(run[..k]), run[k], caller) {
      if k < n {
        assert Refuses(Exec(run[..n][..k]), run[..n][k], caller);
      }
    }
  }

  lemma NobodyRefused(caller: Caller)
    ensures !WasRefused([], caller) && caller !in INIT.requests && caller !in INIT.refused
  {
  }

  // ---------- The order of the messages

  /** Callers whose messages are stored in this order own jobs created in this order. */
  ghost predicate InOrder(s: State) {
    forall i, j, a, b |
      && 0 <= i < j < |s.messages| && a in s.jobs && b in s.jobs
      && s.jobs[a].owner == s.messages[i].caller && s.jobs[b].owner == s.messages[j].caller :: a < b
  }

  /** What the lock holder has stored, it has stored last. */
  predicate HolderLast(s: State) {
    forall i | 0 <= i < |s.messages| && IsPast(s, s.messages[i].caller) :: i == |s.messages| - 1
  }

  lemma {:induction false} MessageIsListed(ms: seq<UserMessage>, i: nat)
    requires i < |ms|
    ensures MessagesOf(ms, ms[i].caller) != []
  {
    if i < |ms| - 1 {
      MessageIsListed(ms[..|ms| - 1], i);
    }
  }

  lemma PersistKeepsOrder(s: State, refuses: bool)
    requires CallersOk(s) && MessagesOk(s) && InOrder(s) && Enabled(s, Persist(refuses))
    ensures InOrder(Apply(s, Persist(refuses))) && HolderLast(Apply(s, Persist(refuses)))
  {
    hide MessagesOf, OwnerOk, AnswerOk;
    var c := s.lock.value.caller;
    assert MessagesOf(s.messages, c) == DueTo(s, c) == [];
    forall i | 0 <= i < |s.messages| ensures s.messages[i].caller != c {
      MessageIsListed(s.messages, i);
    }
    PassedOwnsNothing(s);
  }

  lemma PassedOwnsNothing(s: State)
    requires CallersOk(s) && s.lock.Some? && s.lock.value.phase.Passed?
    ensures forall j | j in s.jobs :: s.jobs[j].owner != s.lock.value.caller
  {
    forall j | j in s.jobs ensures s.jobs[j].owner != s.lock.value.caller {
      assert OwnerOk(s, j);
    }
  }

  lemma InsertKeepsOrder(s: State)
    requires NextOk(s) && InOrder(s) && HolderLast(s) && Enabled(s, Insert)
    ensures InOrder(Apply(s, Insert)) && HolderLast(Apply(s, Insert))
  {
    hide IsLive;
  }

  lemma SameOrder(s: State, t: State)
    requires InOrder(s) && HolderLast(s) && t.messages == s.messages
    requires forall j | j in t.jobs :: j in s.jobs && t.jobs[j].owner == s.jobs[j].owner
    requires forall c | IsPast(t, c) :: IsPast(s, c)
    ensures InOrder(t) && HolderLast(t)
  {
    hide IsPast;
  }

  lemma OthersKeepOrder(s: State, l: Label)
    requires InOrder(s) && HolderLast(s) && !l.Persist? && !l.Insert?
    ensures InOrder(Apply(s, l)) && HolderLast(Apply(s, l))
  {
    hide IsLive, InOrder, HolderLast;
    SameOrder(s, Apply(s, l));
  }

  /** In every run the messages are stored in the order in which the jobs they started were created. */
  lemma {:induction false} MessagesInJobOrder(run: seq<Label>)
    ensures InOrder(Exec(run)) && HolderLast(Exec(run))
  {
    hide Apply, CallersOk, MessagesOk, InOrder, HolderLast, SlotsOk, NextOk;
    if run == [] {
      NoneInOrder();
    } else {
      var s, l := Exec(run[..|run| - 1]), run[|run| - 1];
      MessagesInJobOrder(run[..|run| - 1]);
      RunKeepsCallers(run[..|run| - 1]);
      RunKeepsSlots(run[..|run| - 1]);
      SlotsBoundNext(s);
      if l.Persist? {
        if Enabled(s, l) {
          PersistKeepsOrder(s, l.refuses);
        } else {
          DisabledStays(s, l);
        }
      } else if l.Insert? {
        if Enabled(s, l) {
          InsertKeepsOrder(s);
        } else {
          DisabledStays(s, l);
        }
      } else {
        OthersKeepOrder(s, l);
      }
    }
  }

  lemma DisabledStays(s: State, l: Label)
    requires !Enabled(s, l)
    ensures Apply(s, l) == s
  {
  }

  lemma NoneInOrder()
    ensures InOrder(INIT) && HolderLast(INIT)
  {
  }

  // ---------- Who gets whose job

  /** The caller is past the check on the way to a job of its own, or has been answered with one. */
  predicate GetsOwnJob(s: State, caller: Caller) {
    || (s.lock.Some? && s.lock.value.caller == caller && !s.lock.value.phase.Checking?)
    || (caller in s.returned && s.returned[caller] in s.jobs && s.jobs[s.returned[caller]].owner == caller)
  }

  /** The caller has been answered with job `j` of another caller. */
  predicate GotOtherJob(s: State, caller: Caller, j: JobId) {
    caller in s.returned && s.returned[caller] == j && j in s.jobs && s.jobs[j].owner != caller
  }

  lemma CheckDecides(s: State)
    requires SlotsOk(s) && CallersOk(s) && Enabled(s, Check)
    ensures
      var caller := s.lock.value.caller;
      var live := ActiveJob(s, s.lock.value.request.conv);
      if live.Some? then GotOtherJob(Apply(s, Check), caller, live.value) else GetsOwnJob(Apply(s, Check), caller)
  {
    hide LiveIsActive, NextOk;
    var live := ActiveJob(s, s.lock.value.request.conv);
    if live.Some? {
      assert OwnerOk(s, live.value);
    }
  }

  lemma StepKeepsAnswer(s: State, l: Label, caller: Caller, j: JobId)
    requires NextOk(s) && CallersOk(s)
    ensures GotOtherJob(s, caller, j) ==> GotOtherJob(Apply(s, l), caller, j)
    ensures GetsOwnJob(s, caller) ==> GetsOwnJob(Apply(s, l), caller)
  {
    hide OwnerOk, AnswerOk, Starts, IsLive;
    StepExtends(s, l);
  }

  /** What the check decides stays decided, whatever else happens. */
  lemma {:induction false} AnswerStays(run: seq<Label>, k: nat)
    requires k < |run| && run[k] == Check && Enabled(Exec(run[..k]), Check)
    ensures
      var s := Exec(run[..k]);
      var caller := s.lock.value.caller;
      var live := ActiveJob(s, s.lock.value.request.conv);
      if live.Some? then GotOtherJob(Exec(run), caller, live.value) else GetsOwnJob(Exec(run), caller)
  {
    hide Apply, CallersOk, MessagesOk, SlotsOk, GotOtherJob, GetsOwnJob;
    var n := |run| - 1;
    RunKeepsCallers(run[..n]);
    RunKeepsSlots(run[..n]);
    if k == n {
      CheckDecides(Exec(run[..n]));
    } else {
      assert run[..n][..k] == run[..k];
      AnswerStays(run[..n], k);
      var s := Exec(run[..k]);
      var live := ActiveJob(s, s.lock.value.request.conv);
      SlotsBoundNext(Exec(run[..n]));
      StepKeepsAnswer(Exec(run[..n]), run[n], s.lock.value.caller, if live.Some? then live.value else 0);
    }
  }

  lemma SlotsBoundNext(s: State)
    requires SlotsOk(s)
    ensures NextOk(s)
  {
  }

  /**
  In every run, a caller that has been answered shares another caller's job exactly if its
  conversation had a live job when the caller came to the check, and then it shares that one;
  so a request that finds a live job creates none, and leaves no message in the store.
  */
  lemma LiveJobIsReused(run: seq<Label>, k: nat)
    requires k < |run| && run[k] == Check && Enabled(Exec(run[..k]), Check)
    requires Exec(run[..k]).lock.value.caller in Exec(run).returned
    ensures
      var s, t := Exec(run[..k]), Exec(run);
      var caller := s.lock.value.caller;
      && t.returned[caller] in t.jobs
      && (t.jobs[t.returned[caller]].owner != caller
          <==> exists j | j in s.jobs && s.jobs[j].request.conv == s.lock.value.request.conv ::
                 !s.jobs[j].done && !s.jobs[j].cancelled)
      && (forall j | j in s.jobs && s.jobs[j].request.conv == s.lock.value.request.conv
                     && !s.jobs[j].done && !s.jobs[j].cancelled ::
            && t.returned[caller] == j
            && MessagesOf(t.messages, caller) == []
            && (forall own | own in t.jobs :: t.jobs[own].owner != caller))
  {
    hide MessagesOf;
    AnswerStays(run, k);
    var s := Exec(run[..k]);
    var caller := s.lock.value.caller;
    LiveIffFound(run[..k], s.lock.value.request.conv);
    OneMessagePerJob(run, caller);
    RunKeepsCallers(run);
    forall j | j in Exec(run).jobs ensures OwnerOk(Exec(run), j) {
    }
  }

  /** Lookup by conversation finds the live job that is for the conversation, if there is one. */
  lemma LiveIffFound(run: seq<Label>, conv: ConvId)
    ensures
      var s := Exec(run);
      var found := ActiveJob(s, conv);
      && (found.Some? ==>
            && found.value in s.jobs && s.jobs[found.value].request.conv == conv
            && !s.jobs[found.value].done && !s.jobs[found.value].cancelled)
      && (forall j | j in s.jobs && s.jobs[j].request.conv == conv && !s.jobs[j].done && !s.jobs[j].cancelled ::
            found == Some(j))
  {
    RunKeepsSlots(run);
    var s := Exec(run);
    forall j | j in s.jobs && s.jobs[j].request.conv == conv && !s.jobs[j].done && !s.jobs[j].cancelled
      ensures ActiveJob(s, conv) == Some(j)
    {
      assert IsLive(s, j) ==> ActiveFor(s, conv, j);
    }
  }

  // ---------- Finding a job again

  /** Lookup by job finds it: it still has a slot, whether it is over or not. */
  predicate IsFound(s: State, j: JobId) {
    exists k :: k in s.active && s.active[k] == j
  }

  /**
  The step takes the slot of job `j` away: the next job of its conversation is inserted, or
  the starter of a job of another conversation prunes this one and finds it over.
  */
  predicate Drops(s: State, l: Label, j: JobId) {
    && j in s.jobs && Enabled(s, l)
    && var conv := s.jobs[j].request.conv;
    && (|| (l.Insert? && s.lock.value.request.conv == conv)
        || (l.Prune? && l.conv == conv && s.lock.value.request.conv != conv
            && (s.jobs[j].done || s.jobs[j].cancelled)))
  }

  lemma FoundInOwnSlot(s: State, j: JobId)
    requires ActiveOk(s) && j in s.jobs
    ensures IsFound(s, j) <==> ActiveFor(s, s.jobs[j].request.conv, j)
  {
  }

  lemma StepKeepsSlot(s: State, l: Label, j: JobId)
    requires NextOk(s) && j in s.jobs
    ensures
      var conv := s.jobs[j].request.conv;
      ActiveFor(Apply(s, l), conv, j) <==> ActiveFor(s, conv, j) && !Drops(s, l, j)
  {
  }

  lemma StepFinds(s: State, l: Label, j: JobId)
    requires SlotsOk(s) && j in s.jobs
    ensures j in Apply(s, l).jobs
    ensures IsFound(Apply(s, l), j) <==> IsFound(s, j) && !Drops(s, l, j)
  {
    hide Apply, IsFound, Drops, ActiveFor;
    StepKeepsSlots(s, l);
    SlotsBoundNext(s);
    StepFlags(s, l, j);
    StepKeepsSlot(s, l, j);
    FoundInOwnSlot(s, j);
    FoundInOwnSlot(Apply(s, l), j);
  }

  /** No step of the run after the first `n` takes the slot of job `j` away. */
  ghost predicate KeepsSlot(run: seq<Label>, n: nat, j: JobId) {
    forall k | n <= k < |run| :: !Drops(Exec(run[..k]), run[k], j)
  }

  lemma KeepsSlotNext(run: seq<Label>, n: nat, j: JobId)
    requires n < |run|
    ensures KeepsSlot(run, n, j)
       <==> KeepsSlot(run[..|run| - 1], n, j) && !Drops(Exec(run[..|run| - 1]), run[|run| - 1], j)
  {
    hide Drops, Exec;
    var last := |run| - 1;
    assert forall k | n <= k < last :: run[..last][..k] == run[..k] && run[..last][k] == run[k];
  }

  /**
  A client that reconnects finds its job, in every run, exactly if since the job was inserted
  no further job of its conversation was, and no starter of another conversation's job pruned
  its slot after it was over.
  */
  lemma {:induction false} FoundUntilDropped(run: seq<Label>, n: nat)
    requires n < |run| && run[n] == Insert && Enabled(Exec(run[..n]), Insert)
    ensures
      var j := Exec(run[..n]).next;
      j in Exec(run).jobs && (IsFound(Exec(run), j) <==> KeepsSlot(run, n + 1, j))
  {
    hide Apply, SlotsOk, IsFound, Drops, KeepsSlot;
    var last, j := |run| - 1, Exec(run[..n]).next;
    RunKeepsSlots(run[..last]);
    if n == last {
      assert run[..n] == run[..last];
      InsertedIsFound(Exec(run[..n]));
      NothingAfter(run, j);
    } else {
      assert run[..last][..n] == run[..n];
      FoundUntilDropped(run[..last], n);
      StepFinds(Exec(run[..last]), run[last], j);
      KeepsSlotNext(run, n + 1, j);
    }
  }

  lemma InsertedIsFound(s: State)
    requires Enabled(s, Insert)
    ensures s.next in Apply(s, Insert).jobs && IsFound(Apply(s, Insert), s.next)
  {
    assert Apply(s, Insert).active[s.lock.value.request.conv] == s.next;
  }

  lemma NothingAfter(run: seq<Label>, j: JobId)
    ensures KeepsSlot(run, |run|, j)
  {
  }

  /** A live job is always found. */
  lemma LiveJobIsFound(run: seq<Label>, j: JobId)
    requires j in Exec(run).jobs && !Exec(run).jobs[j].done && !Exec(run).jobs[j].cancelled
    ensures IsFound(Exec(run), j)
  {
    RunKeepsSlots(run);
    assert ActiveFor(Exec(run), Exec(run).jobs[j].request.conv, j);
  }

  // ---------- A finished job that is gone

  const FIRST := Request("a", "hello", false)
  const SECOND := Request("b", "hello", false)

  /** The job of "a" finishes, and a message to "b" prunes it. */
  function ForgettingRun(): seq<Label> {
    [Lock(0, FIRST), Check, Persist(false), Insert, Prune("a"), Unlock, Finish(0),
     Lock(1, SECOND), Check, Persist(false), Insert, Prune("a")]
  }

  lemma Next(run: seq<Label>, i: nat, s: State, l: Label, t: State)
    requires i < |run| && run[i] == l && Exec(run[..i]) == s && Apply(s, l) == t
    ensures Exec(run[..i + 1]) == t
  {
    hide Apply;
    assert run[..i + 1][..i] == run[..i];
  }

  const FIRST_JOB := Job(0, FIRST, false, false)
  const FIRST_MESSAGE := UserMessage(0, FIRST)

  lemma FirstJobStarts()
    ensures Exec(ForgettingRun()[..6])
         == State(map[0 := FIRST_JOB], 1, map["a" := 0], [FIRST_MESSAGE], {}, None, map[0 := FIRST], map[0 := 0])
  {
    hide Exec;
    var run := ForgettingRun();
    NothingRun(run);
    var asked := map[0 := FIRST];
    var s1 := State(map[], 0, map[], [], {}, Some(Holder(0, FIRST, Checking)), asked, map[]);
    var s2 := s1.(lock := Some(Holder(0, FIRST, Passed)));
    var s3 := s1.(lock := Some(Holder(0, FIRST, Persisted)), messages := [FIRST_MESSAGE]);
    var s4 := State(map[0 := FIRST_JOB], 1, map["a" := 0], [FIRST_MESSAGE], {},
                    Some(Holder(0, FIRST, Pruning(0, {"a"}))), asked, map[]);
    Next(run, 0, INIT, Lock(0, FIRST), s1);
    Next(run, 1, s1, Check, s2);
    Next(run, 2, s2, Persist(false), s3);
    assert map["a" := 0].Keys == {"a"};
    Next(run, 3, s3, Insert, s4);
    assert {"a"} - {"a"} == {};
    var s5 := s4.(lock := Some(Holder(0, FIRST, Pruning(0, {}))));
    Next(run, 4, s4, Prune("a"), s5);
    Next(run, 5, s5, Unlock, s5.(lock := None, returned := map[0 := 0]));
  }

  lemma NothingRun(run: seq<Label>)
    ensures Exec(run[..0]) == INIT
  {
  }

  /** Before the second job is inserted: the first is over, and its caller has been answered with it. */
  function BeforeInsert(): State {
    State(map[0 := FIRST_JOB.(done := true)], 1, map["a" := 0], [FIRST_MESSAGE, UserMessage(1, SECOND)], {},
          Some(Holder(1, SECOND, Persisted)), map[0 := FIRST, 1 := SECOND], map[0 := 0])
  }

  lemma SecondMessageIsStored()
    ensures Exec(ForgettingRun()[..10]) == BeforeInsert()
  {
    hide Exec;
    var run := ForgettingRun();
    FirstJobStarts();
    var over := FIRST_JOB.(done := true);
    var s6 := State(map[0 := FIRST_JOB], 1, map["a" := 0], [FIRST_MESSAGE], {}, None, map[0 := FIRST], map[0 := 0]);
    var s7 := s6.(jobs := map[0 := over]);
    var s8 := s7.(lock := Some(Holder(1, SECOND, Checking)), requests := map[0 := FIRST, 1 := SECOND]);
    var s9 := s8.(lock := Some(Holder(1, SECOND, Passed)));
    Next(run, 6, s6, Finish(0), s7);
    Next(run, 7, s7, Lock(1, SECOND), s8);
    Next(run, 8, s8, Check, s9);
    Next(run, 9, s9, Persist(false), BeforeInsert());
  }

  lemma InsertThenPrune(s: State)
    requires s == BeforeInsert()
    ensures
      var t := Apply(Apply(s, Insert), Prune("a"));
      0 in t.jobs && t.jobs[0].done && t.returned == s.returned && t.active == map["b" := 1]
  {
    var t := Apply(s, Insert);
    assert t.active == map["a" := 0, "b" := 1];
    assert "a" in t.active.Keys;
    assert t.active - {"a"} == map["b" := 1];
  }

  /** The client of the finished job of "a" that reconnects after that no longer finds it. */
  lemma FinishedJobIsForgotten()
    ensures
      var s := Exec(ForgettingRun());
      0 in s.jobs && s.jobs[0].done && s.returned == map[0 := 0] && !IsFound(s, 0)
  {
    hide Exec, Apply;
    var run := ForgettingRun();
    SecondMessageIsStored();
    var s := BeforeInsert();
    Next(run, 10, s, Insert, Apply(s, Insert));
    Next(run, 11, Apply(s, Insert), Prune("a"), Apply(Apply(s, Insert), Prune("a")));
    InsertThenPrune(s);
    assert run[..12] == run;
  }
}
