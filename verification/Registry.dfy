/**
 The virtual listener registry as a step system: any number of threads, each at a
 program counter inside one operation, take turns at atomic steps. One step is one
 lock region, one atomic load or store, or one call on the socket table. A socket
 state is named by its connection id, which `RegistryTheorems.IdsAreNeverReused`
 justifies; a listener instance (an `Arc<Listener>`) is an index into `cells`.
 */
module Registry {
  import opened Prelude
  import opened ConnIds
  import SS = SocketStream

  type Id = string

  // Listener: `conns` are the ids in its map of weak references.
  datatype Cell = Cell(key: string, active: bool, conns: set<Id>)

  // VirtualJsSocketState with the listener it was created for. `handed` and `shut`
  // record history: a socket was handed out, and `poll_shutdown` was called on it.
  datatype Sock = Sock(owner: nat, stream: SS.Stream, closed: bool, handed: bool, shut: bool)

  datatype Event = Data(bytes: seq<Byte>) | Eof | Error(message: string)

  // What a call of the JS callback may answer.
  datatype Callback = CallOk | CallClosed | CallFailed

  // What the caller of `deactivate_listener_instance` does afterwards.
  datatype Cont = Return | FailConnect(id: Id)

  // connect, with init_connect inlined, from the moment its id is drawn
  datatype ConnStage = Attach | Insert | Recheck | Open | Still | Fetch

  // deactivate_listener_instance, deactivate_listener and abort
  datatype DeactStage = Unpublish | ClearActive | Drain | Loop | AbortClose | AbortLock | LoopEntry | LoopWeak

  // poll_write and on_write, poll_shutdown and on_close, deactivate_socket_listener
  datatype CallStage = WriteClosed | WriteActive | WriteCall | ShutMark | ShutActive | ShutCall | Lookup

  datatype Pc =
    | Idle
    | Starting(l: nat, checked: bool)
    | Connecting(stage: ConnStage, l: nat, id: Id)
    // detach_socket_state: table removal, then removal of the weak reference held by the
    // removed entry's listener, which is the socket's owner
    | Detaching(removed: bool, id: Id, failing: bool)
    | Deactivating(step: DeactStage, l: nat, id: Id, todo: set<Id>, k: Cont)
    | Calling(call: CallStage, id: Id)
    // push_event after its table lookup
    | Pushing(locking: bool, id: Id, ev: Event)

  datatype Sys = Sys(
    published: map<string, nat>,
    cells: seq<Cell>,
    table: map<Id, nat>,
    next: nat,
    socks: map<Id, Sock>,
    handles: set<Id>,
    ops: map<nat, Pc>)

  const INIT := Sys(map[], [], map[], 0, map[], {}, map[])

  datatype Action =
    | Register(key: string)
    | Unregister(key: string)
    | Connect(l: nat)
    | CancelConnect
    | Write(id: Id)
    | Shutdown(id: Id)
    | Push(id: Id, ev: Event)
    | Read(id: Id, held: nat, room: nat)
    | DropSocket(id: Id)
    | Advance(answer: Callback)
    | Pick(id: Id)

  // ---------- views ----------

  predicate IsActive(s: Sys, l: nat) {
    l < |s.cells| && s.cells[l].active
  }

  function Conns(s: Sys, l: nat): set<Id> {
    if l < |s.cells| then s.cells[l].conns else {}
  }

  function KeyOf(s: Sys, l: nat): string {
    if l < |s.cells| then s.cells[l].key else ""
  }

  // Every id an operation works on names a state (`RegistryInvariant.Typed`).
  function SockOf(s: Sys, id: Id): Sock {
    if id in s.socks then s.socks[id] else Sock(0, SS.EMPTY, false, false, false)
  }

  // `id` names a socket state created for listener `l`.
  predicate Known(s: Sys, id: Id, l: nat) {
    id in s.socks && SockOf(s, id).owner == l
  }

  function PcAt(s: Sys, t: nat): Pc {
    if t in s.ops then s.ops[t] else Idle
  }

  // The id an operation is working on right now, if it has one.
  function WorksOn(pc: Pc): Id {
    match pc
    case Idle => ""
    case Starting(_, _) => ""
    case Connecting(_, _, id) => id
    case Detaching(_, id, _) => id
    case Deactivating(_, _, id, _, _) => id
    case Calling(_, id) => id
    case Pushing(_, id, _) => id
  }

  // ---------- what operations in progress owe ----------

  // A deactivation working through what it drained.
  predicate InLoop(pc: Pc) {
    pc.Deactivating? && (pc.step.Loop? || HasCurrent(pc))
  }

  predicate HasCurrent(pc: Pc) {
    pc.Deactivating? && (pc.step.AbortClose? || pc.step.AbortLock? || pc.step.LoopEntry? || pc.step.LoopWeak?)
  }

  // The connect operation that drew this id is still responsible for it.
  predicate Owns(pc: Pc, id: Id) {
    match pc
    case Connecting(_, _, c) => c == id
    case Detaching(_, c, failing) => failing && c == id
    case Deactivating(_, _, _, _, k) => k == FailConnect(id)
    case _ => false
  }

  // Drained by a deactivation, its error not yet set.
  predicate Holds(pc: Pc, id: Id) {
    InLoop(pc) && (id in pc.todo || ((pc.step.AbortClose? || pc.step.AbortLock?) && pc.id == id))
  }

  // Drained by a deactivation, its table entry not yet removed.
  predicate Clears(pc: Pc, id: Id) {
    Holds(pc, id) || (pc.Deactivating? && pc.step.LoopEntry? && pc.id == id)
  }

  // A connect before its table insert.
  predicate Inserts(pc: Pc, id: Id) {
    pc.Connecting? && (pc.stage.Attach? || pc.stage.Insert?) && pc.id == id
  }

  // Removed from the table, its weak reference about to go.
  predicate DropsWeak(pc: Pc, id: Id) {
    || (pc.Detaching? && pc.removed && pc.id == id)
    || (pc.Deactivating? && pc.step.LoopWeak? && pc.id == id)
  }

  // An init_connect before its re-check, or undoing its insert after it.
  predicate Rechecks(pc: Pc, id: Id) {
    || (pc.Connecting? && (pc.stage.Insert? || pc.stage.Recheck?) && pc.id == id)
    || (pc.Detaching? && !pc.removed && pc.failing && pc.id == id)
  }

  predicate Draining(pc: Pc, l: nat) {
    pc.Deactivating? && pc.step.Drain? && pc.l == l
  }

  predicate SomeHolds(s: Sys, id: Id) { exists t :: t in s.ops && Holds(s.ops[t], id) }
  predicate SomeClears(s: Sys, id: Id) { exists t :: t in s.ops && Clears(s.ops[t], id) }
  predicate SomeInserts(s: Sys, id: Id) { exists t :: t in s.ops && Inserts(s.ops[t], id) }
  predicate SomeDropsWeak(s: Sys, id: Id) { exists t :: t in s.ops && DropsWeak(s.ops[t], id) }
  predicate SomeRechecks(s: Sys, id: Id) { exists t :: t in s.ops && Rechecks(s.ops[t], id) }
  predicate SomeDrain(s: Sys, l: nat) { exists t :: t in s.ops && Draining(s.ops[t], l) }

  // Program counters at which the operation keeps a strong reference to the state.
  predicate KeepsAlive(pc: Pc, id: Id) {
    match pc
    case Connecting(stage, _, c) => c == id && (stage.Attach? || stage.Insert?)
    case Detaching(removed, c, _) => c == id && removed
    case Deactivating(_, _, c, todo, _) => InLoop(pc) && (id in todo || (c == id && HasCurrent(pc)))
    case Pushing(_, c, _) => c == id
    case _ => false
  }

  // Weak::upgrade succeeds.
  predicate Alive(s: Sys, id: Id) {
    id in s.table || id in s.handles || exists t :: t in s.ops && KeepsAlive(s.ops[t], id)
  }

  // ---------- one atomic step: decide, then at most one write ----------

  datatype Effect =
    | Nothing
    | NewListener(key: string)
    | Retract(key: string, l: nat)      // published map without this very instance
    | ClearFlag(l: nat)                 // active.store(false)
    | AddWeak(l: nat, id: Id)
    | DropWeak(l: nat, id: Id)
    | TakeAll(l: nat)                   // connections.drain()
    | NewSock(id: Id, l: nat)           // seq.fetch_add and VirtualJsSocketState::new
    | PutSock(id: Id, sock: Sock)
    | HandOut(id: Id)                   // VirtualJsSocket::new
    | DropHandle(id: Id)
    | AddEntry(id: Id, l: nat)
    | DropEntry(id: Id)

  // What a thread writes, and where it goes next.
  datatype Move = Move(effect: Effect, next: Pc)

  function Quiet(pc: Pc): Move {
    Move(Nothing, pc)
  }

  const STOP := Move(Nothing, Idle)

  function DecideStarting(s: Sys, l: nat, checked: bool): Move {
    if !checked then
      if IsActive(s, l) then Quiet(Starting(l, true)) else STOP
    else
      var id := ConnId(KeyOf(s, l), s.next);
      Move(NewSock(id, l), Connecting(Attach, l, id))
  }

  function DecideConnecting(s: Sys, stage: ConnStage, l: nat, id: Id, answer: Callback): Move {
    match stage
    case Attach =>
      if IsActive(s, l) then Move(AddWeak(l, id), Connecting(Insert, l, id)) else STOP
    case Insert =>
      Move(AddEntry(id, l), Connecting(Recheck, l, id))
    case Recheck =>
      if id in s.table && IsActive(s, s.table[id])
      then Quiet(Connecting(Open, l, id))
      else Quiet(Detaching(false, id, true))
    case Open =>
      (match answer
       case CallOk => Quiet(Connecting(Still, l, id))
       case CallClosed => Quiet(Deactivating(Unpublish, l, id, {}, FailConnect(id)))
       case CallFailed => Quiet(Detaching(false, id, true)))
    case Still =>
      if IsActive(s, l) then Quiet(Connecting(Fetch, l, id)) else Quiet(Detaching(false, id, true))
    case Fetch =>
      if id in s.table then Move(HandOut(id), Idle) else STOP
  }

  function DecideDetaching(s: Sys, removed: bool, id: Id, failing: bool): Move {
    if removed then Move(DropWeak(SockOf(s, id).owner, id), Idle)
    else if id in s.table then Move(DropEntry(id), Detaching(true, id, failing))
    else STOP
  }

  function AbortMessage(key: string): string {
    "virtual listener '" + key + "' was unregistered"
  }

  // What follows the end of a deactivation.
  function Resume(k: Cont): Move {
    match k
    case Return => STOP
    case FailConnect(id) => Quiet(Detaching(false, id, true))
  }

  function DecideDeactivating(s: Sys, pc: Pc): Move
    requires pc.Deactivating?
  {
    var Deactivating(step, l, id, todo, k) := pc;
    match step
    case Unpublish => Move(Retract(KeyOf(s, l), l), pc.(step := ClearActive))
    case ClearActive => Move(ClearFlag(l), pc.(step := Drain))
    case Drain =>
      Move(TakeAll(l), pc.(step := Loop, todo := set c | c in Conns(s, l) && Alive(s, c)))
    case Loop => if todo == {} then Resume(k) else Quiet(pc)
    case AbortClose =>
      Move(PutSock(id, SockOf(s, id).(closed := true)), pc.(step := AbortLock))
    case AbortLock =>
      var aborted := SS.Abort(SockOf(s, id).stream, AbortMessage(KeyOf(s, l)));
      Move(PutSock(id, SockOf(s, id).(stream := aborted)), pc.(step := LoopEntry))
    case LoopEntry =>
      if id in s.table then Move(DropEntry(id), pc.(step := LoopWeak)) else Quiet(pc.(step := Loop))
    case LoopWeak => Move(DropWeak(l, id), pc.(step := Loop))
  }

  function DecideCalling(s: Sys, call: CallStage, id: Id, answer: Callback): Move {
    match call
    case WriteClosed =>
      if SockOf(s, id).closed then STOP else Quiet(Calling(WriteActive, id))
    case WriteActive =>
      if IsActive(s, SockOf(s, id).owner) then Quiet(Calling(WriteCall, id)) else STOP
    case WriteCall =>
      if answer.CallClosed? then Quiet(Calling(Lookup, id)) else STOP
    case ShutMark =>
      Move(PutSock(id, SockOf(s, id).(closed := true, shut := true)), Calling(ShutActive, id))
    case ShutActive =>
      if IsActive(s, SockOf(s, id).owner) then Quiet(Calling(ShutCall, id)) else Quiet(Detaching(false, id, false))
    case ShutCall =>
      (match answer
       case CallOk => Quiet(Detaching(false, id, false))
       case CallClosed => Quiet(Calling(Lookup, id))
       case CallFailed => STOP)
    case Lookup =>
      if id in s.table then Quiet(Deactivating(Unpublish, s.table[id], id, {}, Return)) else STOP
  }

  function Receive(k: SS.Stream, ev: Event): SS.Stream {
    match ev
    case Data(bytes) => SS.PushData(k, bytes)
    case Eof => SS.PushEof(k)
    case Error(message) => SS.PushError(k, message)
  }

  function DecidePushing(s: Sys, locking: bool, id: Id, ev: Event): Move {
    var next := if ev.Data? then Idle else Detaching(false, id, false);
    if locking then Move(PutSock(id, SockOf(s, id).(stream := Receive(SockOf(s, id).stream, ev))), next)
    else if SockOf(s, id).closed then Move(Nothing, next)
    else Quiet(Pushing(true, id, ev))
  }

  // Actions that start an operation, or are one step long.
  function DecideBegin(s: Sys, a: Action): Move {
    match a
    case Register(key) =>
      if key in s.published then STOP else Move(NewListener(key), Idle)
    case Unregister(key) =>
      if key in s.published
      then Move(Retract(key, s.published[key]), Deactivating(ClearActive, s.published[key], "", {}, Return))
      else STOP
    case Connect(l) =>
      if l < |s.cells| then Quiet(Starting(l, false)) else STOP
    case Write(id) =>
      if id in s.handles then Quiet(Calling(WriteClosed, id)) else STOP
    case Shutdown(id) =>
      if id in s.handles then Quiet(Calling(ShutMark, id)) else STOP
    case Push(id, ev) =>
      if id in s.table then Quiet(Pushing(false, id, ev)) else STOP
    case Read(id, held, room) =>
      var k := SockOf(s, id);
      var read := k.(stream := SS.AfterRead(k.stream, room), closed := k.closed || SS.Closes(k.stream, held, room));
      if id in s.handles then Move(PutSock(id, read), Idle) else STOP
    case DropSocket(id) => Move(DropHandle(id), Idle)
    case CancelConnect => STOP
    case Advance(_) => STOP
    case Pick(_) => STOP
  }

  // The next step of an operation in progress.
  function DecideAdvance(s: Sys, pc: Pc, answer: Callback): Move {
    match pc
    case Idle => STOP
    case Starting(l, checked) => DecideStarting(s, l, checked)
    case Connecting(stage, l, id) => DecideConnecting(s, stage, l, id, answer)
    case Detaching(removed, id, failing) => DecideDetaching(s, removed, id, failing)
    case Deactivating(_, _, _, _, _) => DecideDeactivating(s, pc)
    case Calling(call, id) => DecideCalling(s, call, id, answer)
    case Pushing(locking, id, ev) => DecidePushing(s, locking, id, ev)
  }

  // The order of the drained connections and the dropping of a connect future are the
  // scheduler's choice; an action that is not enabled leaves the thread where it is.
  function DecideOther(pc: Pc, a: Action): Move {
    if a.Pick? && pc.Deactivating? && pc.step.Loop? && a.id in pc.todo then
      Quiet(pc.(step := AbortClose, id := a.id, todo := pc.todo - {a.id}))
    else if a.CancelConnect? && pc.Connecting? && pc.stage.Open? then STOP
    else Quiet(pc)
  }

  function Decide(s: Sys, t: nat, a: Action): Move {
    var pc := PcAt(s, t);
    if pc.Idle? then DecideBegin(s, a)
    else if a.Advance? then DecideAdvance(s, pc, a.answer)
    else DecideOther(pc, a)
  }

  function SetConns(s: Sys, l: nat, conns: set<Id>): Sys {
    if l < |s.cells| then s.(cells := s.cells[l := s.cells[l].(conns := conns)]) else s
  }

  function Perform(s: Sys, e: Effect): Sys {
    match e
    case Nothing => s
    case NewListener(key) =>
      s.(cells := s.cells + [Cell(key, true, {})], published := s.published[key := |s.cells|])
    case Retract(key, l) =>
      if key in s.published && s.published[key] == l then s.(published := s.published - {key}) else s
    case ClearFlag(l) =>
      if l < |s.cells| then s.(cells := s.cells[l := s.cells[l].(active := false)]) else s
    case AddWeak(l, id) => SetConns(s, l, Conns(s, l) + {id})
    case DropWeak(l, id) => SetConns(s, l, Conns(s, l) - {id})
    case TakeAll(l) => SetConns(s, l, {})
    case NewSock(id, l) =>
      s.(socks := s.socks[id := Sock(l, SS.EMPTY, false, false, false)], next := s.next + 1)
    case PutSock(id, k) => s.(socks := s.socks[id := k])
    case HandOut(id) =>
      s.(socks := s.socks[id := SockOf(s, id).(handed := true)], handles := s.handles + {id})
    case DropHandle(id) => s.(handles := s.handles - {id})
    case AddEntry(id, l) => s.(table := s.table[id := l])
    case DropEntry(id) => s.(table := s.table - {id})
  }

  function MoveTo(s: Sys, t: nat, next: Pc): Sys {
    s.(ops := s.ops[t := next])
  }

  function After(s: Sys, t: nat, m: Move): Sys {
    MoveTo(Perform(s, m.effect), t, m.next)
  }

  function Step(s: Sys, t: nat, a: Action): Sys {
    After(s, t, Decide(s, t, a))
  }
}
