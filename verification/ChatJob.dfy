/**
A background chat request: an append-only event log, a completion status, and a
notification channel that every writer takes, replaces and then closes.

`JobView` is what one lock acquisition can observe, and the functions on it say what the
locked section of each operation does.  `ChatJob` is the mutable object; the interleavings
of its operations are the subject of module `JobStream`, which is built from the same
functions.
*/
module ChatJob {
  import opened Wrappers

  datatype ChatEvent = ChatEvent(kind: string, data: string)

  datatype JobView = JobView(events: seq<ChatEvent>, done: bool, cancelled: bool, err: Option<string>) {
    /** What status checks and readers call "done". */
    predicate Finished() {
      done || cancelled
    }

    /** The events a reader that has already seen `offset` of them still has to get. */
    function Unread(offset: nat): seq<ChatEvent> {
      if offset < |events| then events[offset..] else []
    }
  }

  const EMPTY_VIEW := JobView([], false, false, None)

  function AfterPush(v: JobView, evt: ChatEvent): JobView {
    v.(events := v.events + [evt])
  }

  function AfterFinish(v: JobView, err: Option<string>): JobView {
    v.(done := true, err := err)
  }

  function AfterStop(v: JobView): JobView {
    v.(cancelled := true)
  }

  /** A Go channel that carries no values: closing it wakes every receiver, and closing it twice panics. */
  class Channel {
    var closed: bool

    constructor ()
      ensures !closed
    {
      closed := false;
    }

    method Close() returns (panicked: bool)
      modifies this
      ensures closed && panicked == old(closed)
    {
      panicked := closed;
      closed := true;
    }
  }

  class ChatJob {
    const convID: string
    var events: seq<ChatEvent>
    var done: bool
    var cancelled: bool
    var err: Option<string>
    var notify: Channel

    ghost function View(): JobView
      reads this
    {
      JobView(events, done, cancelled, err)
    }

    /** Between operations the current channel is open unless the job has finished. */
    ghost predicate Valid()
      reads this, notify
    {
      notify.closed ==> done
    }

    constructor (convID: string)
      ensures Valid() && View() == EMPTY_VIEW && this.convID == convID
      ensures events == [] && !IsDone() && !done && !cancelled && err == None
      ensures fresh(notify) && !notify.closed
    {
      this.convID := convID;
      events, done, cancelled, err := [], false, false, None;
      notify := new Channel();
    }

    /** The part of `push` that runs under the lock. */
    method LockedPush(evt: ChatEvent) returns (ch: Channel)
      modifies this
      ensures View() == AfterPush(old(View()), evt)
      ensures events == old(events) + [evt]
      ensures done == old(done) && cancelled == old(cancelled) && err == old(err)
      ensures ch == old(notify) && fresh(notify) && !notify.closed
    {
      events := events + [evt];
      ch := notify;
      notify := new Channel();
    }

    /** The part of `finish` that runs under the lock: the channel is taken but not replaced. */
    method LockedFinish(e: Option<string>) returns (ch: Channel)
      modifies this
      ensures View() == AfterFinish(old(View()), e)
      ensures done && IsDone() && err == e
      ensures events == old(events) && cancelled == old(cancelled)
      ensures ch == old(notify) && notify == old(notify)
    {
      done := true;
      err := e;
      ch := notify;
    }

    /** The part of `stop` that runs under the lock. */
    method LockedStop() returns (ch: Channel)
      modifies this
      ensures View() == AfterStop(old(View()))
      ensures cancelled && IsDone()
      ensures events == old(events) && done == old(done) && err == old(err)
      ensures ch == old(notify) && fresh(notify) && !notify.closed
    {
      cancelled := true;
      ch := notify;
      notify := new Channel();
    }

    method Push(evt: ChatEvent) returns (panicked: bool)
      requires Valid()
      modifies this, notify
      ensures panicked == old(notify.closed) && (panicked ==> old(done))
      ensures Valid() && View() == AfterPush(old(View()), evt)
      ensures events == old(events) + [evt]
      ensures done == old(done) && cancelled == old(cancelled) && err == old(err)
      ensures old(notify).closed && fresh(notify) && !notify.closed
    {
      var ch := LockedPush(evt);
      panicked := ch.Close();
    }

    method Finish(e: Option<string>) returns (panicked: bool)
      requires Valid()
      modifies this, notify
      ensures panicked == old(notify.closed) && (panicked ==> old(done))
      ensures Valid() && View() == AfterFinish(old(View()), e)
      ensures done && IsDone() && err == e
      ensures events == old(events) && cancelled == old(cancelled)
      ensures notify == old(notify) && notify.closed
    {
      var ch := LockedFinish(e);
      panicked := ch.Close();
    }

    method Stop() returns (panicked: bool)
      requires Valid()
      modifies this, notify
      ensures panicked == old(notify.closed) && (panicked ==> old(done))
      ensures Valid() && View() == AfterStop(old(View()))
      ensures cancelled && IsDone()
      ensures events == old(events) && done == old(done) && err == old(err)
      ensures old(notify).closed && fresh(notify) && !notify.closed
    {
      var ch := LockedStop();
      panicked := ch.Close();
    }

    predicate IsDone()
      reads this
      ensures IsDone() <==> View().Finished()
      ensures done || cancelled <==> IsDone()
    {
      done || cancelled
    }

    method Snapshot(offset: nat) returns (batch: seq<ChatEvent>, isDone: bool, jobErr: Option<string>, wait: Channel)
      ensures batch == View().Unread(offset)
      ensures batch == (if offset < |events| then events[offset..] else [])
      ensures isDone == View().Finished() && jobErr == err && wait == notify
      ensures isDone <==> done || cancelled
    {
      batch := [];
      if offset < |events| {
        batch := events[offset..];
      }
      isDone, jobErr, wait := done || cancelled, err, notify;
    }
  }

  datatype Outcome = Returned(err: Option<string>) | WaitFor(ch: Channel)

  /** One client connection: the offset it has reached and everything written to it. */
  class Connection {
    var offset: nat
    var sent: seq<ChatEvent>

    constructor (start: nat)
      ensures offset == start && sent == []
    {
      offset, sent := start, [];
    }

    /** One turn of the streaming loop: take a snapshot, write it out, then return or pick the channel to sleep on. */
    method Round(job: ChatJob) returns (out: Outcome)
      modifies this
      ensures sent == old(sent) + (if old(offset) < |job.events| then job.events[old(offset)..] else [])
      ensures offset == if old(offset) < |job.events| then |job.events| else old(offset)
      ensures out == if job.done || job.cancelled then Returned(job.err) else WaitFor(job.notify)
    {
      var batch, isDone, jobErr, wait := job.Snapshot(offset);
      var i := 0;
      while i < |batch|
        invariant i <= |batch|
        invariant offset == old(offset) + i
        invariant sent == old(sent) + batch[..i]
      {
        sent := sent + [batch[i]];
        offset := offset + 1;
        i := i + 1;
      }
      assert batch[..i] == batch;
      out := if isDone then Returned(jobErr) else WaitFor(wait);
    }
  }
}
