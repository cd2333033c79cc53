/**
Every interleaving of a job's writers with any number of stream readers.

The locked section of a writer and the close that follows it outside the lock are separate
steps, so a channel can be taken and not yet closed.  A run is any sequence of labels: a
label that is not enabled when its turn comes leaves the state as it is, which makes every
theorem below a statement about all sequences of labels.
*/
module JobStream {
  import opened Wrappers
  import opened ChatJob

  type Chan = nat
  type ReaderId = nat

  datatype Pc =
    | Snap
    | Send(batch: seq<ChatEvent>, sawDone: bool, jobErr: Option<string>, wait: Chan)
    | Wait(ch: Chan)
    | ReturnedDone(result: Option<string>)
    | Disconnected

  /** A connection opened at `start`; `sent` is all that was written to it. */
  datatype Reader = Reader(start: nat, offset: nat, sent: seq<ChatEvent>, pc: Pc)

  /**
  `pending` holds the channels that a writer has taken under the lock and not closed yet,
  `closed` counts the closes that have happened; `next` is the first unused channel.
  */
  datatype State = State(
    view: JobView, notify: Chan, next: Chan,
    pending: multiset<Chan>, closed: multiset<Chan>,
    readers: map<ReaderId, Reader>)
  {
    function Taken(): multiset<Chan> {
      pending + closed
    }
  }

  datatype Label =
    | LockPush(evt: ChatEvent)
    | LockStop
    | LockFinish(err: Option<string>)
    | Close(ch: Chan)
    | Connect(id: ReaderId, offset: nat)
    | Snapshot(id: ReaderId)
    | SendOne(id: ReaderId)
    | EndBatch(id: ReaderId)
    | Wake(id: ReaderId)
    | ClientGone(id: ReaderId)
  {
    /** The label is the locked section of push, stop or finish. */
    predicate Writes() {
      LockPush? || LockStop? || LockFinish?
    }

    /** The label is a step of reader `r`. */
    predicate StepOf(r: ReaderId) {
      (Snapshot? || SendOne? || EndBatch? || Wake?) && id == r
    }
  }

  const INIT := State(EMPTY_VIEW, 0, 1, multiset{}, multiset{}, map[])

  predicate Enabled(s: State, l: Label) {
    match l
    case LockPush(_) => true
    case LockStop => true
    case LockFinish(_) => true
    case Close(ch) => ch in s.pending
    case Connect(id, _) => id !in s.readers
    case Snapshot(id) => id in s.readers && s.readers[id].pc.Snap?
    case SendOne(id) => id in s.readers && s.readers[id].pc.Send? && s.readers[id].pc.batch != []
    case EndBatch(id) => id in s.readers && s.readers[id].pc.Send? && s.readers[id].pc.batch == []
    case Wake(id) => id in s.readers && s.readers[id].pc.Wait? && s.readers[id].pc.ch in s.closed
    case ClientGone(id) => id in s.readers && s.readers[id].pc.Wait?
  }

  /** What one step of the streaming loop does to its reader. */
  function MoveReader(s: State, r: Reader, l: Label): Reader {
    match l
    case Snapshot(_) => r.(pc := Send(s.view.Unread(r.offset), s.view.Finished(), s.view.err, s.notify))
    case SendOne(_) =>
      if r.pc.Send? && r.pc.batch != [] then
        r.(sent := r.sent + [r.pc.batch[0]], offset := r.offset + 1, pc := r.pc.(batch := r.pc.batch[1..]))
      else r
    case EndBatch(_) =>
      if r.pc.Send? then r.(pc := if r.pc.sawDone then ReturnedDone(r.pc.jobErr) else Wait(r.pc.wait)) else r
    case Wake(_) => r.(pc := Snap)
    case ClientGone(_) => r.(pc := Disconnected)
    case _ => r
  }

  function Apply(s: State, l: Label): State {
    if !Enabled(s, l) then s else
    match l
    case LockPush(evt) =>
      s.(view := AfterPush(s.view, evt), pending := s.pending + multiset{s.notify},
         notify := s.next, next := s.next + 1)
    case LockStop =>
      s.(view := AfterStop(s.view), pending := s.pending + multiset{s.notify}, notify := s.next, next := s.next + 1)
    case LockFinish(err) =>
      s.(view := AfterFinish(s.view, err), pending := s.pending + multiset{s.notify})
    case Close(ch) =>
      s.(pending := s.pending - multiset{ch}, closed := s.closed + multiset{ch})
    case Connect(id, offset) =>
      s.(readers := s.readers[id := Reader(offset, offset, [], Snap)])
    case _ =>
      s.(readers := s.readers[l.id := MoveReader(s, s.readers[l.id], l)])
  }

  function Exec(s: State, run: seq<Label>): State {
    if run == [] then s else Apply(Exec(s, run[..|run| - 1]), run[|run| - 1])
  }

  lemma {:induction false} ExecAppend(s: State, a: seq<Label>, b: seq<Label>)
    ensures Exec(s, a + b) == Exec(Exec(s, a), b)
  {
    if b == [] {
      assert a + b == a;
    } else {
      assert (a + b)[..|a + b| - 1] == a + b[..|b| - 1];
      ExecAppend(s, a, b[..|b| - 1]);
    }
  }

  // ---------- What every step keeps

  /**
  `ch` cannot be slept on for ever by a reader that has consumed `target` events: it is the
  job's current channel with nothing left to read and the job still live, or a writer has
  already taken it.
  */
  predicate WakeIsSafe(s: State, ch: Chan, target: nat) {
    || (ch == s.notify && |s.view.events| <= target && !s.view.Finished())
    || ch in s.Taken()
  }

  predicate ReaderOk(s: State, r: Reader) {
    && r.offset == r.start + |r.sent|
    && (r.sent != [] ==> r.offset <= |s.view.events| && r.sent == s.view.events[r.start..r.offset])
    && match r.pc {
      case Snap => true
      case Send(batch, sawDone, _, wait) =>
        && (batch != [] ==> r.offset + |batch| <= |s.view.events|
                            && batch == s.view.events[r.offset..r.offset + |batch|])
        && (sawDone ==> s.view.Finished())
        && (!sawDone ==> WakeIsSafe(s, wait, r.offset + |batch|))
      case Wait(ch) => WakeIsSafe(s, ch, r.offset)
      case ReturnedDone(_) => s.view.Finished()
      case Disconnected => true
    }
  }

  /** Taken channels are not reused, and only a finish leaves its channel in place. */
  predicate ChannelsOk(s: State) {
    && s.notify < s.next
    && (forall ch | ch in s.Taken() :: ch < s.next)
    && (s.notify in s.Taken() ==> s.view.done)
  }

  predicate ReadersOk(s: State) {
    forall id | id in s.readers :: ReaderOk(s, s.readers[id])
  }

  predicate Inv(s: State) {
    ChannelsOk(s) && ReadersOk(s)
  }

  /**
  The log only grows, taken channels stay taken, and a channel that is replaced or whose job
  ends has been taken.
  */
  ghost predicate Grows(s: State, t: State) {
    && s.view.events <= t.view.events
    && (s.view.Finished() ==> t.view.Finished())
    && (forall ch | ch in s.Taken() :: ch in t.Taken())
    && (s.notify in t.Taken() || (t.notify == s.notify && t.view == s.view))
  }

  lemma StepGrows(s: State, l: Label)
    ensures Grows(s, Apply(s, l))
  {
    hide MoveReader;
  }

  /** A step that does not move `r` keeps what is known about it. */
  lemma StepKeepsOtherReader(s: State, l: Label, r: Reader)
    requires ReaderOk(s, r)
    ensures ReaderOk(Apply(s, l), r)
  {
    hide Apply;
    StepGrows(s, l);
  }

  lemma MoveKeepsReader(s: State, l: Label)
    requires Inv(s) && Enabled(s, l) && !l.Writes() && !l.Close? && !l.Connect?
    ensures ReaderOk(s, MoveReader(s, s.readers[l.id], l))
  {
    var r := s.readers[l.id];
    assert ReaderOk(s, r);
    if l.SendOne? {
      var m := MoveReader(s, r, l);
      assert r.pc.batch[0] == s.view.events[r.offset];
      assert m.sent == s.view.events[m.start..m.offset];
    }
  }

  lemma ConnectedReaderOk(s: State, offset: nat)
    ensures ReaderOk(s, Reader(offset, offset, [], Snap))
  {
  }

  lemma StepTakes(s: State, l: Label)
    ensures Apply(s, l).view.done <==> s.view.done || l.LockFinish?
    ensures Apply(s, l).Taken() == if l.Writes() then s.Taken() + multiset{s.notify} else s.Taken()
    ensures l.LockFinish? || !l.Writes() ==> Apply(s, l).notify == s.notify && Apply(s, l).next == s.next
    ensures l.LockPush? || l.LockStop? ==> Apply(s, l).notify == s.next && Apply(s, l).next == s.next + 1
  {
    hide MoveReader;
  }

  lemma StepKeepsChannels(s: State, l: Label)
    requires ChannelsOk(s)
    ensures ChannelsOk(Apply(s, l))
  {
    hide Apply, State.Taken;
    StepTakes(s, l);
  }

  lemma StepKeepsReaders(s: State, l: Label)
    requires Inv(s)
    ensures ReadersOk(Apply(s, l))
  {
    hide ReaderOk, MoveReader;
    var t := Apply(s, l);
    forall id | id in t.readers ensures ReaderOk(t, t.readers[id]) {
      if id in s.readers && t.readers[id] == s.readers[id] {
        StepKeepsOtherReader(s, l, s.readers[id]);
      } else if l.Connect? {
        ConnectedReaderOk(t, l.offset);
      } else {
        MoveKeepsReader(s, l);
        StepKeepsOtherReader(s, l, t.readers[id]);
      }
    }
  }

  lemma StepKeepsInv(s: State, l: Label)
    requires Inv(s)
    ensures Inv(Apply(s, l))
  {
    hide Apply, ChannelsOk, ReadersOk;
    StepKeepsChannels(s, l);
    StepKeepsReaders(s, l);
  }

  lemma {:induction false} RunKeepsInv(run: seq<Label>)
    ensures Inv(Exec(INIT, run))
  {
    if run != [] {
      RunKeepsInv(run[..|run| - 1]);
      StepKeepsInv(Exec(INIT, run[..|run| - 1]), run[|run| - 1]);
    }
  }

  /**
  No lost wake-up: in every reachable state a reader asleep on an open channel is either up
  to date with a live job whose current channel it holds, or some writer has already taken
  that channel and has its close still to do.
  */
  lemma NoLostWakeup(run: seq<Label>, id: ReaderId)
    requires id in Exec(INIT, run).readers
    ensures
      var s := Exec(INIT, run);
      var r := s.readers[id];
      r.pc.Wait? && r.pc.ch !in s.closed ==>
        || (r.pc.ch == s.notify && |s.view.events| <= r.offset && !s.view.Finished())
        || r.pc.ch in s.pending
  {
    RunKeepsInv(run);
    assert ReaderOk(Exec(INIT, run), Exec(INIT, run).readers[id]);
  }

  /**
  Ordered, exactly-once delivery: what a reader has been sent is the contiguous piece of the log
  from its start.
  */
  lemma SentIsContiguous(run: seq<Label>, id: ReaderId)
    requires id in Exec(INIT, run).readers
    ensures
      var s := Exec(INIT, run);
      var r := s.readers[id];
      && r.offset == r.start + |r.sent|
      && (r.start <= |s.view.events| ==> r.offset <= |s.view.events| && r.sent == s.view.events[r.start..r.offset])
      && (r.start > |s.view.events| ==> r.sent == [])
  {
    RunKeepsInv(run);
    assert ReaderOk(Exec(INIT, run), Exec(INIT, run).readers[id]);
  }

  lemma StepStarts(s: State, l: Label, id: ReaderId)
    ensures id in Apply(s, l).readers <==> id in s.readers || (l.Connect? && l.id == id)
    ensures id in s.readers ==> Apply(s, l).readers[id].start == s.readers[id].start
    ensures id !in s.readers && id in Apply(s, l).readers ==> l == Connect(id, Apply(s, l).readers[id].start)
  {
  }

  /** Exactly the clients that connected are readers, and each starts at the offset it asked for. */
  lemma {:induction false} StartsWhereAsked(run: seq<Label>, id: ReaderId)
    ensures id in Exec(INIT, run).readers <==> exists i :: 0 <= i < |run| && run[i].Connect? && run[i].id == id
    ensures id in Exec(INIT, run).readers ==> Connect(id, Exec(INIT, run).readers[id].start) in run
  {
    hide Apply;
    if run != [] {
      var prefix, last := run[..|run| - 1], run[|run| - 1];
      StepStarts(Exec(INIT, prefix), last, id);
      StartsWhereAsked(prefix, id);
      assert forall i | 0 <= i < |prefix| :: run[i] == prefix[i];
      assert run[|prefix|] == last;
    }
  }

  /** A reader has a step to take unless it has ended, or sleeps on a channel that is still open. */
  lemma ReaderMoves(s: State, id: ReaderId)
    requires id in s.readers
    ensures (exists l: Label :: l.StepOf(id) && Enabled(s, l))
       <==> match s.readers[id].pc
            case Wait(ch) => ch in s.closed
            case ReturnedDone(_) => false
            case Disconnected => false
            case _ => true
  {
    match s.readers[id].pc
    case Snap => assert Snapshot(id).StepOf(id) && Enabled(s, Snapshot(id));
    case Send(batch, _, _, _) =>
      var l := if batch == [] then EndBatch(id) else SendOne(id);
      assert l.StepOf(id) && Enabled(s, l);
    case Wait(ch) => assert ch in s.closed ==> Wake(id).StepOf(id) && Enabled(s, Wake(id));
    case _ =>
  }

  // ---------- Closing a channel once

  /** No push, stop or finish enters its locked section after a finish has. */
  ghost predicate NoWriteAfterFinish(run: seq<Label>) {
    forall i, j | 0 <= i < j < |run| :: run[i].LockFinish? ==> !run[j].Writes()
  }

  ghost predicate EachTakenOnce(s: State) {
    forall ch :: s.Taken()[ch] <= 1
  }

  ghost predicate HasFinish(run: seq<Label>) {
    exists i :: 0 <= i < |run| && run[i].LockFinish?
  }

  lemma SplitLast(run: seq<Label>)
    requires run != []
    ensures
      var prefix, last := run[..|run| - 1], run[|run| - 1];
      && (HasFinish(run) <==> HasFinish(prefix) || last.LockFinish?)
      && (NoWriteAfterFinish(run) <==> NoWriteAfterFinish(prefix) && (HasFinish(prefix) ==> !last.Writes()))
  {
    var prefix, last := run[..|run| - 1], run[|run| - 1];
    assert forall i | 0 <= i < |prefix| :: run[i] == prefix[i];
  }

  /** The job is done exactly from its first finish on; until something is written after it, its channel is taken. */
  lemma {:induction false} DoneIffFinishRan(run: seq<Label>)
    ensures Exec(INIT, run).view.done <==> HasFinish(run)
    ensures NoWriteAfterFinish(run) && HasFinish(run) ==> Exec(INIT, run).notify in Exec(INIT, run).Taken()
  {
    if run != [] {
      var prefix, last := run[..|run| - 1], run[|run| - 1];
      DoneIffFinishRan(prefix);
      SplitLast(run);
      StepTakes(Exec(INIT, prefix), last);
    }
  }

  /** The events of a run's pushes, in order. */
  function Pushed(run: seq<Label>): seq<ChatEvent> {
    if run == [] then []
    else Pushed(run[..|run| - 1]) + match run[|run| - 1] { case LockPush(evt) => [evt] case _ => [] }
  }

  /** Position `i` of the run holds its last finish. */
  ghost predicate IsLastFinish(run: seq<Label>, i: nat) {
    i < |run| && run[i].LockFinish? && forall j | i < j < |run| :: !run[j].LockFinish?
  }

  lemma LastFinishNext(run: seq<Label>, i: nat)
    requires run != [] && IsLastFinish(run, i)
    ensures i < |run| - 1 ==> !run[|run| - 1].LockFinish? && IsLastFinish(run[..|run| - 1], i)
  {
  }

  lemma StepWrites(s: State, l: Label)
    ensures
      var v, w := s.view, Apply(s, l).view;
      && w.events == v.events + (match l { case LockPush(evt) => [evt] case _ => [] })
      && (w.cancelled <==> v.cancelled || l == LockStop)
      && w.err == match l { case LockFinish(err) => err case _ => v.err }
  {
    hide MoveReader;
    assert s.view.events + [] == s.view.events;
  }

  /**
  What a run leaves in the job: the events of its pushes in order, cancelled exactly if a stop
  ran, done exactly if a finish ran, and the error of the last finish.
  */
  lemma {:induction false} JobOfRun(run: seq<Label>)
    ensures
      var v := Exec(INIT, run).view;
      && v.events == Pushed(run)
      && (v.cancelled <==> exists i :: 0 <= i < |run| && run[i] == LockStop)
      && (v.done <==> exists i :: 0 <= i < |run| && run[i].LockFinish?)
      && (!v.done ==> v.err == None)
      && (forall i: nat | IsLastFinish(run, i) :: run[i].err == v.err)
  {
    hide Apply;
    DoneIffFinishRan(run);
    if run != [] {
      var prefix, last := run[..|run| - 1], run[|run| - 1];
      JobOfRun(prefix);
      StepWrites(Exec(INIT, prefix), last);
      StepTakes(Exec(INIT, prefix), last);
      assert forall i | 0 <= i < |prefix| :: run[i] == prefix[i];
      assert run[|prefix|] == last;
      forall i: nat | IsLastFinish(run, i) ensures run[i].err == Exec(INIT, run).view.err {
        LastFinishNext(run, i);
      }
    }
  }

  /** Each channel is taken by at most one writer exactly in the runs where nothing is written after a finish. */
  lemma {:induction false} TakenOnceIffNoWriteAfterFinish(run: seq<Label>)
    ensures EachTakenOnce(Exec(INIT, run)) <==> NoWriteAfterFinish(run)
  {
    if run != [] {
      var prefix, last := run[..|run| - 1], run[|run| - 1];
      var s := Exec(INIT, prefix);
      TakenOnceIffNoWriteAfterFinish(prefix);
      RunKeepsInv(prefix);
      DoneIffFinishRan(prefix);
      SplitLast(run);
      StepTakes(s, last);
      TakeOne(s, Exec(INIT, run), last);
    }
  }

  lemma TakeOne(s: State, t: State, l: Label)
    requires t.Taken() == if l.Writes() then s.Taken() + multiset{s.notify} else s.Taken()
    ensures EachTakenOnce(t) <==> EachTakenOnce(s) && (l.Writes() ==> s.notify !in s.Taken())
  {
    if !EachTakenOnce(s) {
      var ch :| s.Taken()[ch] > 1;
      assert t.Taken()[ch] > 1;
    } else if l.Writes() && s.notify in s.Taken() {
      assert t.Taken()[s.notify] > 1;
    }
  }

  /** Writers never wait, so every close still due can be carried out. */
  lemma {:induction false} Drain(s: State) returns (closes: seq<Label>)
    ensures forall l | l in closes :: l.Close?
    ensures Exec(s, closes) == s.(pending := multiset{}, closed := s.Taken())
    decreases |s.pending|
  {
    if s.pending == multiset{} {
      closes := [];
      assert s.Taken() == s.closed;
    } else {
      var ch :| ch in s.pending;
      var t := Apply(s, Close(ch));
      assert t.Taken() == s.Taken();
      var rest := Drain(t);
      closes := [Close(ch)] + rest;
      assert Exec(s, [Close(ch)]) == t by {
        assert [Close(ch)][..0] == [];
      }
      ExecAppend(s, [Close(ch)], rest);
    }
  }

  /** Some channel has been closed twice, which is a run-time panic. */
  ghost predicate Panicked(s: State) {
    exists ch :: s.closed[ch] > 1
  }

  /**
  The exact condition for no double close: a run leads to a panic, at once or when its due
  closes are carried out, exactly when something is pushed, stopped or finished after a finish.
  */
  lemma PanicIffWriteAfterFinish(run: seq<Label>)
    ensures (exists closes: seq<Label> :: (forall l | l in closes :: l.Close?) && Panicked(Exec(INIT, run + closes)))
            <==> !NoWriteAfterFinish(run)
  {
    TakenOnceIffNoWriteAfterFinish(run);
    var s := Exec(INIT, run);
    if !NoWriteAfterFinish(run) {
      var closes := Drain(s);
      ExecAppend(INIT, run, closes);
      var ch :| s.Taken()[ch] > 1;
      assert Exec(INIT, run + closes).closed[ch] > 1;
    } else {
      forall closes: seq<Label> | forall l | l in closes :: l.Close?
        ensures !Panicked(Exec(INIT, run + closes))
      {
        assert NoWriteAfterFinish(run + closes) by {
          forall i, j | 0 <= i < j < |run + closes| && (run + closes)[i].LockFinish?
            ensures !(run + closes)[j].Writes()
          {
            if |run| <= j {
              assert closes[j - |run|] in closes;
            }
          }
        }
        TakenOnceIffNoWriteAfterFinish(run + closes);
        var t := Exec(INIT, run + closes);
        forall ch ensures t.closed[ch] <= 1 {
          assert t.Taken()[ch] <= 1;
        }
      }
    }
  }

  /**
  The stop that the cancel handler issues after its liveness check can come after the
  finish; the same channel is then closed twice.
  */
  lemma StopAfterFinishPanics()
    ensures Panicked(Exec(INIT, [LockFinish(None), LockStop, Close(0), Close(0)]))
  {
    var run := [LockFinish(None), LockStop, Close(0), Close(0)];
    assert run[..1][..0] == [];
    var s1 := Exec(INIT, run[..1]);
    assert s1 == Apply(Exec(INIT, run[..1][..0]), LockFinish(None));
    assert run[..2][..1] == run[..1];
    var s2 := Exec(INIT, run[..2]);
    assert s2 == Apply(s1, LockStop);
    assert s2.pending == multiset{0, 0};
    assert run[..3][..2] == run[..2];
    var s3 := Exec(INIT, run[..3]);
    assert s3 == Apply(s2, Close(0));
    assert Exec(INIT, run) == Apply(s3, Close(0));
    assert Exec(INIT, run).closed[0] == 2;
  }

  // ---------- Complete delivery

  /** A reader that has seen the end of an uncancelled job has its error and has, or is about to have, sent the log. */
  ghost predicate Complete(s: State, r: Reader) {
    s.view.cancelled ||
    match r.pc
    case Send(batch, sawDone, jobErr, _) =>
      sawDone ==> |s.view.events| <= r.offset + |batch| && jobErr == s.view.err
    case ReturnedDone(result) => |s.view.events| <= r.offset && result == s.view.err
    case _ => true
  }

  ghost predicate AllComplete(s: State) {
    forall id | id in s.readers :: Complete(s, s.readers[id])
  }

  lemma StepKeepsComplete(s: State, l: Label)
    requires Inv(s) && AllComplete(s)
    requires s.view.done ==> !l.Writes()
    ensures AllComplete(Apply(s, l))
  {
    var t := Apply(s, l);
    forall id | id in t.readers ensures Complete(t, t.readers[id]) {
      if id in s.readers {
        assert ReaderOk(s, s.readers[id]) && Complete(s, s.readers[id]);
      }
    }
  }

  lemma {:induction false} RunKeepsComplete(run: seq<Label>)
    requires NoWriteAfterFinish(run)
    ensures AllComplete(Exec(INIT, run))
  {
    if run != [] {
      var prefix, last := run[..|run| - 1], run[|run| - 1];
      SplitLast(run);
      RunKeepsComplete(prefix);
      RunKeepsInv(prefix);
      DoneIffFinishRan(prefix);
      StepKeepsComplete(Exec(INIT, prefix), last);
    }
  }

  /** A stream that ends by itself on an uncancelled job carried all from its start and ends with the job's error. */
  lemma ReturnedReaderSentEverything(run: seq<Label>, id: ReaderId)
    requires NoWriteAfterFinish(run)
    requires id in Exec(INIT, run).readers && Exec(INIT, run).readers[id].pc.ReturnedDone?
    ensures
      var s := Exec(INIT, run);
      var r := s.readers[id];
      && s.view.Finished()
      && (!s.view.cancelled ==> r.pc.result == s.view.err)
      && (!s.view.cancelled && r.start <= |s.view.events| ==> r.sent == s.view.events[r.start..])
  {
    RunKeepsComplete(run);
    RunKeepsInv(run);
    SentIsContiguous(run, id);
    var s := Exec(INIT, run);
    assert ReaderOk(s, s.readers[id]) && Complete(s, s.readers[id]);
  }

  /** Steps a reader of a finished job can still take before it returns. */
  function StepsLeft(s: State, r: Reader): nat {
    var unread := |s.view.Unread(r.offset)|;
    match r.pc
    case Snap => 2 + unread
    case Send(batch, sawDone, _, _) =>
      if sawDone then 1 + |batch| else 4 + |batch| + |s.view.Unread(r.offset + |batch|)|
    case Wait(_) => 3 + unread
    case ReturnedDone(_) => 0
    case Disconnected => 0
  }

  /**
  Once the job is over and its closes have happened no reader is stuck: each one that has
  not ended has a step to take, and every step it takes brings it closer to its end.
  */
  lemma ReaderAdvances(s: State, id: ReaderId) returns (l: Label)
    requires Inv(s) && s.view.Finished() && s.pending == multiset{}
    requires id in s.readers && StepsLeft(s, s.readers[id]) > 0
    ensures l.StepOf(id) && Enabled(s, l)
    ensures forall m: Label | m.StepOf(id) && Enabled(s, m) ::
              StepsLeft(s, Apply(s, m).readers[id]) < StepsLeft(s, s.readers[id])
  {
    var r := s.readers[id];
    assert ReaderOk(s, r);
    match r.pc {
      case Snap => l := Snapshot(id);
      case Send(batch, _, _, _) => l := if batch == [] then EndBatch(id) else SendOne(id);
      case Wait(ch) =>
        l := Wake(id);
        assert ch in s.closed;
    }
    forall m: Label | m.StepOf(id) && Enabled(s, m)
      ensures StepsLeft(s, Apply(s, m).readers[id]) < StepsLeft(s, s.readers[id])
    {
    }
  }

  /** Each reader of a finished job can run to the end of its stream on its own steps. */
  lemma {:induction false} ReaderCompletes(s: State, id: ReaderId) returns (steps: seq<Label>)
    requires Inv(s) && s.view.Finished() && s.pending == multiset{}
    requires id in s.readers && !s.readers[id].pc.Disconnected?
    ensures forall l | l in steps :: l.StepOf(id)
    ensures
      var t := Exec(s, steps);
      t.view == s.view && id in t.readers && t.readers[id].pc.ReturnedDone?
    decreases StepsLeft(s, s.readers[id])
  {
    if StepsLeft(s, s.readers[id]) == 0 {
      steps := [];
    } else {
      var l := ReaderAdvances(s, id);
      var t := Apply(s, l);
      StepKeepsInv(s, l);
      assert StepsLeft(t, t.readers[id]) == StepsLeft(s, t.readers[id]);
      var rest := ReaderCompletes(t, id);
      steps := [l] + rest;
      assert Exec(s, [l]) == t by {
        assert [l][..0] == [];
      }
      ExecAppend(s, [l], rest);
    }
  }

  // ---------- Reconnecting clients

  /** One connection of a client, of whose stream it received the first `got` events before it was cut. */
  datatype Visit = Visit(id: ReaderId, got: nat)

  ghost predicate IsVisit(s: State, v: Visit) {
    v.id in s.readers && v.got <= |s.readers[v.id].sent|
  }

  /** The first connection starts at `from`, and each later one at the count the client has received by then. */
  ghost predicate IsSession(s: State, visits: seq<Visit>, from: nat) {
    visits == [] ||
    (&& IsVisit(s, visits[0])
     && s.readers[visits[0].id].start == from
     && IsSession(s, visits[1..], from + visits[0].got))
  }

  /** All that reached the client over its connections, in order. */
  ghost function Received(s: State, visits: seq<Visit>, from: nat): seq<ChatEvent>
    requires IsSession(s, visits, from)
  {
    if visits == [] then [] else
    s.readers[visits[0].id].sent[..visits[0].got] + Received(s, visits[1..], from + visits[0].got)
  }

  /** The client's last stream ended by itself and none of it was lost on the way. */
  ghost predicate EndsByItself(s: State, visits: seq<Visit>) {
    && visits != []
    && var v := visits[|visits| - 1];
    && v.id in s.readers
    && s.readers[v.id].pc.ReturnedDone? && v.got == |s.readers[v.id].sent|
  }

  lemma JoinSlices<T>(s: seq<T>, a: nat, b: nat, c: nat)
    requires a <= b <= c <= |s|
    ensures s[a..b] + s[b..c] == s[a..c]
  {
  }

  lemma FirstVisit(s: State, v: Visit, from: nat)
    requires Inv(s) && IsVisit(s, v) && s.readers[v.id].start == from <= |s.view.events|
    ensures
      var r := s.readers[v.id];
      && from + v.got <= |s.view.events| && r.sent[..v.got] == s.view.events[from..from + v.got]
      && r.offset == from + |r.sent|
  {
    assert ReaderOk(s, s.readers[v.id]);
  }

  lemma {:induction false} ReceivedIsContiguous(s: State, visits: seq<Visit>, from: nat)
    requires Inv(s) && IsSession(s, visits, from) && from <= |s.view.events|
    ensures
      var got := Received(s, visits, from);
      && from + |got| <= |s.view.events|
      && got == s.view.events[from..from + |got|]
      && (EndsByItself(s, visits) ==> from + |got| == s.readers[visits[|visits| - 1].id].offset)
  {
    hide ReaderOk, ReadersOk, ChannelsOk;
    if visits != [] {
      var mid := from + visits[0].got;
      FirstVisit(s, visits[0], from);
      ReceivedIsContiguous(s, visits[1..], mid);
      JoinSlices(s.view.events, from, mid, mid + |Received(s, visits[1..], mid)|);
      if |visits| > 1 {
        assert visits[1..][|visits| - 2] == visits[|visits| - 1];
      } else {
        assert Received(s, visits[1..], mid) == [];
      }
    }
  }

  /**
  However often a client is cut off and reconnects with the number of events it has, it
  receives the log in order with no gap and no repeat; and if its last stream ended by
  itself on an uncancelled job, it has all of it.
  */
  lemma ReconnectSeesWholeLog(run: seq<Label>, visits: seq<Visit>)
    requires IsSession(Exec(INIT, run), visits, 0)
    ensures
      var s := Exec(INIT, run);
      && Received(s, visits, 0) <= s.view.events
      && (NoWriteAfterFinish(run) && EndsByItself(s, visits) && !s.view.cancelled ==>
            Received(s, visits, 0) == s.view.events)
  {
    var s := Exec(INIT, run);
    RunKeepsInv(run);
    ReceivedIsContiguous(s, visits, 0);
    if NoWriteAfterFinish(run) && EndsByItself(s, visits) {
      var r := s.readers[visits[|visits| - 1].id];
      RunKeepsComplete(run);
      assert Complete(s, r) && ReaderOk(s, r);
    }
  }
}
