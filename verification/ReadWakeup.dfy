/**
 The wakeup protocol of one socket: a single reader polls, any number of threads push
 or abort. Steps are the lock regions and the calls on the waker; every interleaving
 of them is a schedule.
 */
module ReadWakeup {
  import opened Prelude
  import opened SocketStream

  // Where the reader is.
  datatype Reader =
    | Running     // scheduled, outside poll_read
    | Polling     // in poll_read, waker not yet registered
    | Registered  // in poll_read, waker registered, read lock not yet taken
    | Parked      // poll_read answered Pending

  datatype Change = Data(bytes: seq<Byte>) | Eof | Error(message: string) | Aborted(message: string)

  // `armed`: the waker slot holds the reader's waker; `notified`: it has been woken
  // since it was last scheduled; `waking`: threads between their change and their wake.
  datatype Sys = Sys(stream: Stream, reader: Reader, armed: bool, notified: bool, waking: set<nat>)

  const INIT := Sys(EMPTY, Running, false, false, {})

  datatype Action =
    | Schedule                 // the executor runs the reader, on a notification or on its own
    | RegisterWaker
    | LockAndRead(room: nat)
    | Change(change: Change)   // lock region of push_data, push_eof, push_error or abort
    | Wake

  function Changed(s: Stream, c: Change): Stream {
    match c
    case Data(bytes) => PushData(s, bytes)
    case Eof => PushEof(s)
    case Error(message) => PushError(s, message)
    case Aborted(message) => Abort(s, message)
  }

  // A rejected push returns before it would wake; abort wakes in any case.
  predicate Wakes(s: Stream, c: Change) {
    c.Data? ==> TakesData(s)
  }

  // What a change leaves, field by field.
  lemma ChangeIsSeen(s: Stream, c: Change)
    ensures Changed(s, c).unread == s.unread + (if c.Data? && !s.eof && s.err.None? then c.bytes else [])
    ensures Changed(s, c).eof == (s.eof || c.Eof?)
    ensures Changed(s, c).err ==
            if c.Error? then Some(c.message)
            else if c.Aborted? && !s.eof && s.err.None? then Some(c.message)
            else s.err
    ensures Wakes(s, c) <==> !c.Data? || (!s.eof && s.err.None?)
  {
  }

  function Step(s: Sys, t: nat, a: Action): Sys {
    match a
    case Schedule =>
      if s.reader.Running? || s.reader.Parked? then s.(reader := Polling, notified := false) else s
    case RegisterWaker =>
      if s.reader.Polling? then s.(reader := Registered, armed := true) else s
    case LockAndRead(room) =>
      if s.reader.Registered? && room > 0 then
        s.(stream := AfterRead(s.stream, room),
           reader := if Answer(s.stream, 0, room).Pending? then Parked else Running)
      else s
    case Change(change) =>
      if t in s.waking then s
      else s.(stream := Changed(s.stream, change),
              waking := if Wakes(s.stream, change) then s.waking + {t} else s.waking)
    case Wake =>
      if t in s.waking then s.(armed := false, notified := s.notified || s.armed, waking := s.waking - {t}) else s
  }

  function Run(schedule: seq<(nat, Action)>): Sys
    decreases |schedule|
  {
    if schedule == [] then INIT
    else
      var (t, a) := schedule[|schedule| - 1];
      Step(Run(schedule[..|schedule| - 1]), t, a)
  }

  predicate Inv(s: Sys) {
    && (s.reader.Parked? ==> s.armed || s.notified)
    && (s.reader.Registered? ==> s.armed || s.notified)
    && (s.reader.Parked? && Readable(s.stream) ==> s.notified || s.waking != {})
  }

  lemma StepKeeps(s: Sys, t: nat, a: Action)
    requires Inv(s)
    ensures Inv(Step(s, t, a))
  {
    var s' := Step(s, t, a);
    match a
    case Change(change) =>
      if t !in s.waking && Wakes(s.stream, change) {
        assert t in s'.waking;
      }
    case Wake =>
    case _ =>
  }

  // No wakeup is lost: a parked reader with bytes, eof or an error to report has been
  // notified, or some thread is between its change and its wake.
  lemma {:induction false} NoLostWakeup(schedule: seq<(nat, Action)>)
    ensures var s := Run(schedule);
            && Inv(s)
            && (s.reader.Parked? && Readable(s.stream) ==> s.notified || s.waking != {})
    decreases |schedule|
  {
    if schedule != [] {
      NoLostWakeup(schedule[..|schedule| - 1]);
      var (t, a) := schedule[|schedule| - 1];
      StepKeeps(Run(schedule[..|schedule| - 1]), t, a);
    }
  }

  function WakeAll(s: Sys, threads: seq<nat>): Sys
    decreases |threads|
  {
    if threads == [] then s else WakeAll(Step(s, threads[0], Wake), threads[1..])
  }

  // Letting the pushers in progress finish is enough: then the reader has been notified.
  lemma {:induction false} PendingWakesSuffice(s: Sys, threads: seq<nat>)
    requires Inv(s) && s.reader.Parked? && Readable(s.stream)
    requires forall t :: t in s.waking ==> t in threads
    ensures WakeAll(s, threads).notified && WakeAll(s, threads).waking == {}
    ensures WakeAll(s, threads).reader == s.reader && WakeAll(s, threads).stream == s.stream
    decreases |threads|
  {
    if threads == [] {
    } else {
      var s1 := Step(s, threads[0], Wake);
      StepKeeps(s, threads[0], Wake);
      assert forall t :: t in s1.waking ==> t in s.waking && t != threads[0];
      assert threads == [threads[0]] + threads[1..];
      PendingWakesSuffice(s1, threads[1..]);
    }
  }

  // And then its next poll, whatever the buffer's size, answers instead of parking again.
  lemma ParkedReaderIsServed(s: Sys, threads: seq<nat>, t: nat, room: nat)
    requires Inv(s) && s.reader.Parked? && Readable(s.stream) && room > 0
    requires forall u :: u in s.waking ==> u in threads
    ensures var w := WakeAll(s, threads);
            w.notified && Step(Step(Step(w, t, Schedule), t, RegisterWaker), t, LockAndRead(room)).reader == Running
  {
    PendingWakesSuffice(s, threads);
  }
}
