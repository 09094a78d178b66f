/**
 The registry together with its sockets' wakers: each change of a socket's stream is
 followed by a wake, a step of its own, and each reader registers its waker before it reads.
 */
module RegistryWakeup {
  import opened Prelude
  import opened Registry
  import opened RegistryInvariant
  import opened RegistryRuns
  import opened RegistryStreams
  import RW = ReadWakeup
  import SS = SocketStream

  // The reader of one socket, its waker slot, and whether it was woken since it last ran.
  datatype Waker = Waker(reader: RW.Reader, armed: bool, notified: bool)

  const FRESH := Waker(RW.Running, false, false)

  // `owes`: the threads between a change of a socket's stream and the wake that follows.
  datatype Joint = Joint(reg: Sys, wakers: map<Id, Waker>, owes: map<nat, Id>)

  const START := Joint(INIT, map[], map[])

  datatype Move =
    | Act(action: Action)       // a registry step; a read only by a registered reader
    | Wake
    | Schedule(id: Id)          // the executor runs the socket's reader
    | RegisterWaker(id: Id)

  function WakerOf(j: Joint, id: Id): Waker {
    if id in j.wakers then j.wakers[id] else FRESH
  }

  // The socket a registry step leaves the thread owing a wake to: abort wakes in any case, a
  // push unless its data was refused.
  function Owed(s: Sys, t: nat, a: Action): Option<Id> {
    if !a.Advance? then None
    else match PcAt(s, t)
      case Deactivating(step, _, id, _, _) => if step.AbortLock? then Some(id) else None
      case Pushing(locking, id, ev) =>
        if locking && (ev.Data? ==> SS.TakesData(StreamOf(s, id))) then Some(id) else None
      case _ => None
  }

  function SetWaker(j: Joint, id: Id, w: Waker): Joint {
    j.(wakers := j.wakers[id := w])
  }

  function Registered(j: Joint, t: nat, id: Id): bool {
    PcAt(j.reg, t).Idle? && id in j.reg.handles && WakerOf(j, id).reader.Registered?
  }

  function ReadStep(j: Joint, t: nat, a: Action): Joint
    requires a.Read?
  {
    if Registered(j, t, a.id) && a.held == 0 && a.room > 0 then
      var pending := SS.Answer(StreamOf(j.reg, a.id), 0, a.room).Pending?;
      var w := WakerOf(j, a.id).(reader := if pending then RW.Parked else RW.Running);
      SetWaker(j.(reg := Step(j.reg, t, a)), a.id, w)
    else j
  }

  function ActMove(j: Joint, t: nat, m: Registry.Move, owed: Option<Id>): Joint {
    j.(reg := After(j.reg, t, m), owes := if owed.Some? then j.owes[t := owed.value] else j.owes)
  }

  function ActStep(j: Joint, t: nat, a: Action): Joint {
    ActMove(j, t, Decide(j.reg, t, a), Owed(j.reg, t, a))
  }

  function JointStep(j: Joint, t: nat, m: Move): Joint {
    match m
    case Act(a) => if t in j.owes then j else if a.Read? then ReadStep(j, t, a) else ActStep(j, t, a)
    case Wake =>
      if t in j.owes then
        var w := WakerOf(j, j.owes[t]);
        SetWaker(j, j.owes[t], w.(armed := false, notified := w.notified || w.armed)).(owes := j.owes - {t})
      else j
    case Schedule(id) =>
      var w := WakerOf(j, id);
      if w.reader.Running? || w.reader.Parked? then SetWaker(j, id, w.(reader := RW.Polling, notified := false)) else j
    case RegisterWaker(id) =>
      var w := WakerOf(j, id);
      if w.reader.Polling? then SetWaker(j, id, w.(reader := RW.Registered, armed := true)) else j
  }

  function JointRun(moves: seq<(nat, Move)>): Joint
    decreases |moves|
  {
    if moves == [] then START
    else
      var (t, m) := moves[|moves| - 1];
      JointStep(JointRun(moves[..|moves| - 1]), t, m)
  }

  // ---------- the invariant ----------

  predicate SomeOwes(j: Joint, id: Id) {
    exists t :: t in j.owes && j.owes[t] == id
  }

  predicate WakerOk(j: Joint, id: Id) {
    var w := WakerOf(j, id);
    && (w.reader.Parked? || w.reader.Registered? ==> w.armed || w.notified)
    && (w.reader.Parked? && SS.Readable(StreamOf(j.reg, id)) ==> w.notified || SomeOwes(j, id))
  }

  lemma PutsAreOwed(s: Sys, t: nat, a: Action)
    requires !a.Read?
    ensures var e := Decide(s, t, a).effect;
            e.PutSock? ==> e.sock.stream == StreamOf(s, e.id) || Owed(s, t, a) == Some(e.id)
  {
  }

  // A registry step other than a read leaves a stream as it was, empty, or owed a wake.
  lemma ChangesAreOwed(s: Sys, t: nat, a: Action, id: Id)
    requires !a.Read?
    ensures || StreamOf(Step(s, t, a), id) == StreamOf(s, id)
            || !SS.Readable(StreamOf(Step(s, t, a), id))
            || Owed(s, t, a) == Some(id)
  {
    SockAfter(s, t, Decide(s, t, a), id);
    PutsAreOwed(s, t, a);
  }

  lemma ReadsOnlyItsOwn(s: Sys, t: nat, a: Action, id: Id)
    requires a.Read? && PcAt(s, t).Idle? && a.id in s.handles
    ensures StreamOf(Step(s, t, a), id) ==
            if id == a.id then SS.AfterRead(StreamOf(s, id), a.room) else StreamOf(s, id)
  {
    SockAfter(s, t, Decide(s, t, a), id);
  }

  lemma ActKeeps(j: Joint, t: nat, a: Action, id: Id)
    requires WakerOk(j, id) && t !in j.owes && !a.Read?
    ensures WakerOk(ActStep(j, t, a), id)
  {
    var j' := ActStep(j, t, a);
    ChangesAreOwed(j.reg, t, a, id);
    if Owed(j.reg, t, a) == Some(id) {
      assert j'.owes[t] == id;
    } else if SomeOwes(j, id) {
      var u :| u in j.owes && j.owes[u] == id;
      assert j'.owes[u] == id;
    }
  }

  lemma ReadKeeps(j: Joint, t: nat, a: Action, id: Id)
    requires WakerOk(j, id) && a.Read?
    ensures WakerOk(ReadStep(j, t, a), id)
  {
    var j' := ReadStep(j, t, a);
    assert j'.owes == j.owes && SomeOwes(j, id) == SomeOwes(j', id);
    if Registered(j, t, a.id) && a.held == 0 && a.room > 0 {
      ReadsOnlyItsOwn(j.reg, t, a, id);
    }
  }

  lemma WakeKeeps(j: Joint, t: nat, id: Id)
    requires WakerOk(j, id)
    ensures WakerOk(JointStep(j, t, Wake), id)
  {
    var j' := JointStep(j, t, Wake);
    if t in j.owes && id != j.owes[t] && SomeOwes(j, id) {
      var u :| u in j.owes && j.owes[u] == id;
      assert u in j'.owes && j'.owes[u] == id;
    }
  }

  lemma ReaderKeeps(j: Joint, t: nat, m: Move, id: Id)
    requires WakerOk(j, id) && (m.Schedule? || m.RegisterWaker?)
    ensures WakerOk(JointStep(j, t, m), id)
  {
    assert SomeOwes(j, id) == SomeOwes(JointStep(j, t, m), id);
  }

  lemma WakerStepKeeps(j: Joint, t: nat, m: Move, id: Id)
    requires WakerOk(j, id)
    ensures WakerOk(JointStep(j, t, m), id)
  {
    match m
    case Act(a) =>
      if t !in j.owes {
        if a.Read? { ReadKeeps(j, t, a, id); } else { ActKeeps(j, t, a, id); }
      }
    case Wake => WakeKeeps(j, t, id);
    case Schedule(_) => ReaderKeeps(j, t, m, id);
    case RegisterWaker(_) => ReaderKeeps(j, t, m, id);
  }

  // The wakers never steer the registry.
  lemma RegSteps(j: Joint, t: nat, m: Move)
    ensures JointStep(j, t, m).reg == j.reg || (m.Act? && JointStep(j, t, m).reg == Step(j.reg, t, m.action))
  {
  }

  lemma {:induction false} RegReachable(moves: seq<(nat, Move)>)
    ensures Inv(JointRun(moves).reg)
    decreases |moves|
  {
    if moves != [] {
      var (t, m) := moves[|moves| - 1];
      var j := JointRun(moves[..|moves| - 1]);
      RegReachable(moves[..|moves| - 1]);
      RegSteps(j, t, m);
      if m.Act? {
        StepKeeps(j.reg, t, m.action);
      }
    }
  }

  lemma {:induction false} WakerReachable(moves: seq<(nat, Move)>, id: Id)
    ensures WakerOk(JointRun(moves), id)
    decreases |moves|
  {
    if moves != [] {
      var (t, m) := moves[|moves| - 1];
      WakerReachable(moves[..|moves| - 1], id);
      WakerStepKeeps(JointRun(moves[..|moves| - 1]), t, m, id);
    }
  }

  // ---------- what it gives ----------

  // In every interleaving of all operations, on all sockets at once, no wakeup is lost.
  lemma NoSocketLosesAWakeup(moves: seq<(nat, Move)>, id: Id)
    ensures var j := JointRun(moves);
            WakerOf(j, id).reader.Parked? && SS.Readable(StreamOf(j.reg, id)) ==>
              WakerOf(j, id).notified || SomeOwes(j, id)
  {
    WakerReachable(moves, id);
  }
}
