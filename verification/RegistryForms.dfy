/**
 Closed forms: what the atomic steps of one operation, taken by one thread with nothing in
 between, make of the registry.
 */
module RegistryForms {
  import opened Prelude
  import opened ConnIds
  import opened Registry
  import opened RegistryInvariant
  import opened RegistrySteps
  import opened RegistryRuns
  import opened RegistryTheorems
  import SS = SocketStream

  const NEXT := Advance(CallOk)

  // Thread 0 takes its next step.
  function Next(s: Sys): Sys {
    Step(s, 0, NEXT)
  }

  // ---------- closed forms of the deactivation's steps ----------

  // Closed, and with the reason to read unless it had ended or failed before.
  function Aborted(k: Sock, key: string): Sock {
    var reason := "virtual listener '" + key + "' was unregistered";
    var live := !k.stream.eof && k.stream.err.None?;
    k.(closed := true, stream := k.stream.(err := if live then Some(reason) else k.stream.err))
  }

  // One drained connection dealt with.
  function Turned(s: Sys, l: nat, id: Id, todo: set<Id>, k: Cont): Sys {
    var done := s.(socks := s.socks[id := Aborted(SockOf(s, id), KeyOf(s, l))], table := s.table - {id});
    MoveTo(SetConns(done, l, Conns(s, l) - {id}), 0, Deactivating(Loop, l, id, todo - {id}, k))
  }

  lemma PickStep(s: Sys, l: nat, c: Id, todo: set<Id>, id: Id, k: Cont)
    requires PcAt(s, 0) == Deactivating(Loop, l, c, todo, k) && id in todo
    ensures Step(s, 0, Pick(id)) == MoveTo(s, 0, Deactivating(AbortClose, l, id, todo - {id}, k))
  {
  }

  lemma CloseStep(s: Sys, l: nat, id: Id, todo: set<Id>, k: Cont)
    requires PcAt(s, 0) == Deactivating(AbortClose, l, id, todo, k)
    ensures Next(s) == MoveTo(s.(socks := s.socks[id := SockOf(s, id).(closed := true)]), 0,
                              Deactivating(AbortLock, l, id, todo, k))
  {
  }

  lemma LockStep(s: Sys, l: nat, id: Id, todo: set<Id>, k: Cont)
    requires PcAt(s, 0) == Deactivating(AbortLock, l, id, todo, k)
    ensures var sock := SockOf(s, id);
            var aborted := sock.(stream := SS.Abort(sock.stream, AbortMessage(KeyOf(s, l))));
            Next(s) == MoveTo(s.(socks := s.socks[id := aborted]), 0, Deactivating(LoopEntry, l, id, todo, k))
  {
  }

  lemma EntryStep(s: Sys, l: nat, id: Id, todo: set<Id>, k: Cont)
    requires PcAt(s, 0) == Deactivating(LoopEntry, l, id, todo, k) && id in s.table
    ensures Next(s) == MoveTo(s.(table := s.table - {id}), 0, Deactivating(LoopWeak, l, id, todo, k))
  {
  }

  lemma WeakStep(s: Sys, l: nat, id: Id, todo: set<Id>, k: Cont)
    requires PcAt(s, 0) == Deactivating(LoopWeak, l, id, todo, k)
    ensures Next(s) == MoveTo(SetConns(s, l, Conns(s, l) - {id}), 0, Deactivating(Loop, l, id, todo, k))
  {
  }

  lemma MoveTwice(s: Sys, p: Pc, q: Pc)
    ensures MoveTo(MoveTo(s, 0, p), 0, q) == MoveTo(s, 0, q) && PcAt(MoveTo(s, 0, p), 0) == p
  {
    assert s.ops[0 := p][0 := q] == s.ops[0 := q];
  }

  // Close and abort: one state.
  lemma AbortIs(s: Sys, l: nat, id: Id, todo: set<Id>, k: Cont)
    requires PcAt(s, 0) == Deactivating(AbortClose, l, id, todo, k)
    ensures Next(Next(s)) == MoveTo(s.(socks := s.socks[id := Aborted(SockOf(s, id), KeyOf(s, l))]), 0,
                                    Deactivating(LoopEntry, l, id, todo, k))
  {
    var closed := SockOf(s, id).(closed := true);
    var s1 := s.(socks := s.socks[id := closed]);
    CloseStep(s, l, id, todo, k);
    MoveTwice(s1, Deactivating(AbortLock, l, id, todo, k), Deactivating(LoopEntry, l, id, todo, k));
    LockStep(Next(s), l, id, todo, k);
    var aborted := Aborted(SockOf(s, id), KeyOf(s, l));
    assert s.socks[id := closed][id := aborted] == s.socks[id := aborted];
  }

  // Table entry and weak reference: both gone.
  lemma DetachIs(s: Sys, l: nat, id: Id, todo: set<Id>, k: Cont)
    requires PcAt(s, 0) == Deactivating(LoopEntry, l, id, todo, k) && id in s.table
    ensures Next(Next(s)) == MoveTo(SetConns(s.(table := s.table - {id}), l, Conns(s, l) - {id}), 0,
                                    Deactivating(Loop, l, id, todo, k))
  {
    EntryStep(s, l, id, todo, k);
    WeakStep(Next(s), l, id, todo, k);
    assert s.ops[0 := Deactivating(LoopWeak, l, id, todo, k)][0 := Deactivating(Loop, l, id, todo, k)]
        == s.ops[0 := Deactivating(Loop, l, id, todo, k)];
  }

  lemma TurnIs(s: Sys, l: nat, c: Id, todo: set<Id>, id: Id, k: Cont)
    requires PcAt(s, 0) == Deactivating(Loop, l, c, todo, k) && id in todo && id in s.table
    ensures Next(Next(Next(Next(Step(s, 0, Pick(id)))))) == Turned(s, l, id, todo, k)
  {
    var rest := todo - {id};
    var s1 := Step(s, 0, Pick(id));
    PickStep(s, l, c, todo, id, k);
    AbortIs(s1, l, id, rest, k);
    DetachIs(Next(Next(s1)), l, id, rest, k);
    var p, q, r := Deactivating(AbortClose, l, id, rest, k), Deactivating(LoopEntry, l, id, rest, k),
                   Deactivating(Loop, l, id, rest, k);
    assert s.ops[0 := p][0 := q][0 := r] == s.ops[0 := r];
  }

  lemma FiveKeep(s: Sys, a: Action)
    requires Inv(s)
    ensures Inv(Next(Next(Next(Next(Step(s, 0, a))))))
  {
    FourKeep(s, a);
    StepKeeps(Next(Next(Next(Step(s, 0, a)))), 0, NEXT);
  }

  lemma TwoKeep(s: Sys, a: Action)
    requires Inv(s)
    ensures Inv(Next(Step(s, 0, a)))
  {
    StepKeeps(s, 0, a);
    StepKeeps(Step(s, 0, a), 0, NEXT);
  }

  lemma SixKeep(s: Sys, a: Action)
    requires Inv(s)
    ensures Inv(Next(Next(Next(Next(Next(Step(s, 0, a)))))))
  {
    FiveKeep(s, a);
    StepKeeps(Next(Next(Next(Next(Step(s, 0, a))))), 0, NEXT);
  }

  lemma FourKeep(s: Sys, a: Action)
    requires Inv(s)
    ensures Inv(Next(Next(Next(Step(s, 0, a)))))
  {
    TwoKeep(s, a);
    TwoKeep(Next(Step(s, 0, a)), NEXT);
  }

  // ---------- a whole deactivation ----------

  // Nobody but thread 0 is in an operation.
  predicate Solo(s: Sys) {
    forall t :: t in s.ops && t != 0 ==> s.ops[t].Idle?
  }

  // A deactivation of l, begun at s, with these connections left to deal with: exactly the
  // table entries of the others went, their sockets are aborted, nothing else changed.
  ghost predicate Midway(s: Sys, s': Sys, l: nat, todo: set<Id>) {
    && |s'.cells| == |s.cells| && !IsActive(s', l) && Conns(s', l) == {} && KeyOf(s', l) == KeyOf(s, l)
    && (forall id :: id in s'.table <==> id in s.table && (s.table[id] != l || id in todo))
    && (forall id :: id in s'.table ==> s'.table[id] == s.table[id])
    && (forall k: nat :: k < |s.cells| && k != l ==> s'.cells[k] == s.cells[k])
    && s'.handles == s.handles && s'.next == s.next
    && SocksMidway(s, s', l, todo)
  }

  ghost predicate SocksMidway(s: Sys, s': Sys, l: nat, todo: set<Id>) {
    && s'.socks.Keys == s.socks.Keys
    && forall id :: id in s.socks ==>
         s'.socks[id] == if id in Conns(s, l) && id !in todo then Aborted(s.socks[id], KeyOf(s, l)) else s.socks[id]
  }

  // The tables agree about l.
  ghost predicate Agrees(s: Sys, l: nat) {
    && l < |s.cells|
    && (forall id :: id in Conns(s, l) <==> id in s.table && s.table[id] == l)
    && (forall id :: id in Conns(s, l) ==> id in s.socks)
  }

  lemma TurnMidway(s: Sys, s': Sys, l: nat, id: Id, todo: set<Id>, k: Cont)
    requires Agrees(s, l) && Midway(s, s', l, todo) && id in todo && todo <= Conns(s, l)
    ensures Midway(s, Turned(s', l, id, todo, k), l, todo - {id})
  {
    var s2 := Turned(s', l, id, todo, k);
    assert Conns(s', l) - {id} == {} == s'.cells[l].conns;
    assert s2.cells == s'.cells;
    assert SocksMidway(s, s2, l, todo - {id});
  }

  // Flag cleared and connections drained.
  function Drained(s: Sys, l: nat, c: Id, k: Cont): Sys
    requires l < |s.cells|
  {
    MoveTo(s.(cells := s.cells[l := Cell(s.cells[l].key, false, {})]), 0, Deactivating(Loop, l, c, s.cells[l].conns, k))
  }

  lemma ClearStep(s: Sys, l: nat, c: Id, k: Cont)
    requires PcAt(s, 0) == Deactivating(ClearActive, l, c, {}, k) && l < |s.cells|
    ensures Next(s) == MoveTo(s.(cells := s.cells[l := s.cells[l].(active := false)]), 0,
                              Deactivating(Drain, l, c, {}, k))
  {
  }

  // Every weak reference upgrades, since every id is in the table.
  lemma DrainStep(s: Sys, l: nat, c: Id, k: Cont)
    requires PcAt(s, 0) == Deactivating(Drain, l, c, {}, k) && l < |s.cells|
    requires forall id :: id in s.cells[l].conns ==> id in s.table
    ensures Next(s) == MoveTo(s.(cells := s.cells[l := s.cells[l].(conns := {})]), 0,
                              Deactivating(Loop, l, c, s.cells[l].conns, k))
  {
    assert (set c | c in Conns(s, l) && Alive(s, c)) == s.cells[l].conns;
  }

  lemma DrainIs(s: Sys, l: nat, c: Id, k: Cont)
    requires PcAt(s, 0) == Deactivating(ClearActive, l, c, {}, k) && Agrees(s, l)
    ensures Next(Next(s)) == Drained(s, l, c, k)
  {
    ClearStep(s, l, c, k);
    DrainStep(Next(s), l, c, k);
    assert s.cells[l := s.cells[l].(active := false)][l := Cell(s.cells[l].key, false, {})]
        == s.cells[l := Cell(s.cells[l].key, false, {})];
    assert Next(Next(s)).ops == s.ops[0 := Deactivating(Loop, l, c, s.cells[l].conns, k)];
  }

  // From a state that agrees with s but for what is published and what thread 0 does.
  lemma DrainLeft(s: Sys, s1: Sys, l: nat, c: Id, k: Cont)
    requires Agrees(s, l) && Solo(s) && PcAt(s1, 0) == Deactivating(ClearActive, l, c, {}, k)
    requires s1 == s.(published := s1.published, ops := s.ops[0 := s1.ops[0]])
    ensures Left(s, Next(Next(s1)), l, k) && Next(Next(s1)).published == s1.published
  {
    DrainIs(s1, l, c, k);
  }

  lemma QuietAgrees(s: Sys, l: nat)
    requires Inv(s) && Roleless(s) && l < |s.cells|
    ensures Agrees(s, l)
  {
    QuietTables(s, l);
  }

  // What is published once this very instance is retracted.
  function Without(s: Sys, l: nat): map<string, nat> {
    var key := KeyOf(s, l);
    if key in s.published && s.published[key] == l then s.published - {key} else s.published
  }

  lemma OpenedAgrees(s: Sys, l: nat)
    requires Agrees(s, l) && Quiescent(s)
    ensures Agrees(Opened(s, l), l) && Solo(Opened(s, l))
    ensures Opened(s, l).published == s.published && Without(Opened(s, l), l) == Without(s, l)
    ensures NewId(s, l) in Opened(s, l).table && Opened(s, l).table[NewId(s, l)] == l
  {
  }

  // The answer "closed", then the instance's own retraction.
  lemma ClosedIs(s: Sys, l: nat, id: Id)
    requires PcAt(s, 0) == Connecting(Open, l, id)
    ensures Next(Step(s, 0, Advance(CallClosed))) ==
            MoveTo(s.(published := Without(s, l)), 0, Deactivating(ClearActive, l, id, {}, FailConnect(id)))
  {
    var s1 := MoveTo(s, 0, Deactivating(Unpublish, l, id, {}, FailConnect(id)));
    assert Step(s, 0, Advance(CallClosed)) == s1;
    var next := Deactivating(ClearActive, l, id, {}, FailConnect(id));
    assert s1.ops[0 := next] == s.ops[0 := next];
  }

  // A fresh, active, bare listener under a key that has none.
  function Registered(s: Sys, key: string): Sys {
    if key in s.published then s
    else s.(cells := s.cells + [Cell(key, true, {})], published := s.published[key := |s.cells|])
  }

  lemma RegisterIs(s: Sys, key: string)
    requires Inv(s) && Quiescent(s)
    ensures Step(s, 0, Register(key)) == MoveTo(Registered(s, key), 0, Idle)
    ensures Inv(Step(s, 0, Register(key))) && Quiescent(Step(s, 0, Register(key)))
  {
    StepKeeps(s, 0, Register(key));
  }

  // ---------- a whole connect ----------

  function NewId(s: Sys, l: nat): Id {
    ConnId(KeyOf(s, l), s.next)
  }

  // The new socket state, known to its listener and in the table, before the open callback.
  function Opened(s: Sys, l: nat): Sys {
    var id := NewId(s, l);
    var sock := Sock(l, SS.EMPTY, false, false, false);
    var made := s.(socks := s.socks[id := sock], next := s.next + 1, table := s.table[id := l]);
    MoveTo(SetConns(made, l, Conns(s, l) + {id}), 0, Connecting(Open, l, id))
  }

  lemma RefusedIs(s: Sys, l: nat)
    requires PcAt(s, 0).Idle? && l < |s.cells| && !IsActive(s, l)
    ensures Next(Step(s, 0, Connect(l))) == MoveTo(s, 0, Idle)
  {
    var s1 := MoveTo(s, 0, Starting(l, false));
    assert Step(s, 0, Connect(l)) == s1;
    StartStep(s1, l);
    MoveTwice(s, Starting(l, false), Idle);
  }

  lemma StartStep(s: Sys, l: nat)
    requires PcAt(s, 0) == Starting(l, false)
    ensures Next(s) == MoveTo(s, 0, if IsActive(s, l) then Starting(l, true) else Idle)
  {
  }

  lemma DrawStep(s: Sys, l: nat)
    requires PcAt(s, 0) == Starting(l, true)
    ensures var id := NewId(s, l);
            Next(s) == MoveTo(s.(socks := s.socks[id := Sock(l, SS.EMPTY, false, false, false)], next := s.next + 1), 0,
                              Connecting(Attach, l, id))
  {
  }

  lemma AttachStep(s: Sys, l: nat, id: Id)
    requires PcAt(s, 0) == Connecting(Attach, l, id) && IsActive(s, l)
    ensures Next(s) == MoveTo(SetConns(s, l, Conns(s, l) + {id}), 0, Connecting(Insert, l, id))
  {
  }

  lemma InsertStep(s: Sys, l: nat, id: Id)
    requires PcAt(s, 0) == Connecting(Insert, l, id)
    ensures Next(s) == MoveTo(s.(table := s.table[id := l]), 0, Connecting(Recheck, l, id))
  {
  }

  lemma RecheckStep(s: Sys, l: nat, id: Id)
    requires PcAt(s, 0) == Connecting(Recheck, l, id) && id in s.table && s.table[id] == l && IsActive(s, l)
    ensures Next(s) == MoveTo(s, 0, Connecting(Open, l, id))
  {
  }

  lemma DrawnIs(s: Sys, l: nat)
    requires PcAt(s, 0).Idle? && IsActive(s, l)
    ensures var id := NewId(s, l);
            Next(Next(Step(s, 0, Connect(l)))) ==
            MoveTo(s.(socks := s.socks[id := Sock(l, SS.EMPTY, false, false, false)], next := s.next + 1), 0,
                   Connecting(Attach, l, id))
  {
    var s1 := MoveTo(s, 0, Starting(l, false));
    assert Step(s, 0, Connect(l)) == s1;
    StartStep(s1, l);
    MoveTwice(s, Starting(l, false), Starting(l, true));
    DrawStep(MoveTo(s, 0, Starting(l, true)), l);
    var next := Connecting(Attach, l, NewId(s, l));
    assert s.ops[0 := Starting(l, true)][0 := next] == s.ops[0 := next];
  }

  lemma InsertedIs(s: Sys, l: nat, id: Id)
    requires PcAt(s, 0) == Connecting(Attach, l, id) && IsActive(s, l)
    ensures Next(Next(Next(s))) ==
            MoveTo(SetConns(s.(table := s.table[id := l]), l, Conns(s, l) + {id}), 0, Connecting(Open, l, id))
  {
    AttachStep(s, l, id);
    InsertStep(Next(s), l, id);
    RecheckStep(Next(Next(s)), l, id);
    assert s.ops[0 := Connecting(Insert, l, id)][0 := Connecting(Recheck, l, id)][0 := Connecting(Open, l, id)]
        == s.ops[0 := Connecting(Open, l, id)];
  }

  lemma OpenedIs(s: Sys, l: nat)
    requires PcAt(s, 0).Idle? && IsActive(s, l)
    ensures Next(Next(Next(Next(Next(Step(s, 0, Connect(l))))))) == Opened(s, l)
  {
    var id := NewId(s, l);
    DrawnIs(s, l);
    InsertedIs(Next(Next(Step(s, 0, Connect(l)))), l, id);
    assert s.ops[0 := Connecting(Attach, l, id)][0 := Connecting(Open, l, id)] == s.ops[0 := Connecting(Open, l, id)];
  }

  lemma IdIsNew(s: Sys, l: nat)
    requires Inv(s)
    ensures NewId(s, l) !in s.socks && NewId(s, l) !in s.table && NewId(s, l) !in Conns(s, l)
  {
    DrawnIdIsNew(s, l);
  }

  lemma AcceptSteps(s: Sys, l: nat, id: Id)
    requires PcAt(s, 0) == Connecting(Open, l, id) && IsActive(s, l) && id in s.table
    ensures Next(Next(Step(s, 0, Advance(CallOk)))) ==
            MoveTo(s.(socks := s.socks[id := SockOf(s, id).(handed := true)], handles := s.handles + {id}), 0, Idle)
  {
    var s1 := MoveTo(s, 0, Connecting(Still, l, id));
    var s2 := MoveTo(s1, 0, Connecting(Fetch, l, id));
    assert Step(s, 0, Advance(CallOk)) == s1;
    assert Next(s1) == s2;
    assert s2.ops[0 := Idle] == s.ops[0 := Idle];
  }

  lemma UndoSteps(s: Sys, l: nat, id: Id)
    requires PcAt(s, 0) == Connecting(Open, l, id) && id in s.table && SockOf(s, id).owner == l
    ensures Next(Next(Step(s, 0, Advance(CallFailed)))) ==
            MoveTo(SetConns(s.(table := s.table - {id}), l, Conns(s, l) - {id}), 0, Idle)
  {
    var s1 := MoveTo(s, 0, Detaching(false, id, true));
    var s2 := MoveTo(s1.(table := s.table - {id}), 0, Detaching(true, id, true));
    assert Step(s, 0, Advance(CallFailed)) == s1;
    assert Next(s1) == s2;
    assert s2.ops[0 := Idle] == s.ops[0 := Idle];
  }

  // A new socket in both tables and handed out.
  predicate Accepted(s: Sys, s': Sys, l: nat) {
    var id := NewId(s, l);
    && s'.table == s.table[id := l] && Conns(s', l) == Conns(s, l) + {id} && s'.handles == s.handles + {id}
    && s'.socks == s.socks[id := Sock(l, SS.EMPTY, false, true, false)]
  }

  lemma AcceptIs(s: Sys, l: nat)
    requires IsActive(s, l) && Quiescent(s)
    ensures var s' := Next(Next(Step(Opened(s, l), 0, Advance(CallOk))));
            Quiescent(s') && s'.published == s.published && Accepted(s, s', l)
  {
    AcceptSteps(Opened(s, l), l, NewId(s, l));
  }

  lemma UndoIs(s: Sys, l: nat)
    requires IsActive(s, l) && Quiescent(s) && NewId(s, l) !in s.table && NewId(s, l) !in Conns(s, l)
    ensures var s' := Next(Next(Step(Opened(s, l), 0, Advance(CallFailed))));
            && Quiescent(s') && s'.published == s.published
            && s'.table == s.table && s'.cells == s.cells && s'.handles == s.handles
  {
    var id := NewId(s, l);
    UndoSteps(Opened(s, l), l, id);
    assert Conns(s, l) + {id} - {id} == Conns(s, l);
    assert s.table[id := l] - {id} == s.table;
  }

  predicate AtLoop(pc: Pc, l: nat, k: Cont) {
    pc.Deactivating? && pc.step.Loop? && pc.l == l && pc.k == k
  }

  // Thread 0 alone, at the head of the loop, with what its program counter says left to do.
  ghost predicate Left(s: Sys, s': Sys, l: nat, k: Cont) {
    && Solo(s') && AtLoop(PcAt(s', 0), l, k)
    && PcAt(s', 0).todo <= Conns(s, l) && Midway(s, s', l, PcAt(s', 0).todo)
  }

  lemma UnpublishIs(s: Sys, key: string, l: nat)
    requires PcAt(s, 0).Idle? && key in s.published && s.published[key] == l
    ensures Step(s, 0, Unregister(key)) ==
            MoveTo(s.(published := s.published - {key}), 0, Deactivating(ClearActive, l, "", {}, Return))
  {
  }

  lemma TurnedLeft(s: Sys, s': Sys, l: nat, id: Id, k: Cont)
    requires Left(s, s', l, k) && Agrees(s, l) && id in PcAt(s', 0).todo
    ensures Left(s, Turned(s', l, id, PcAt(s', 0).todo, k), l, k)
    ensures Turned(s', l, id, PcAt(s', 0).todo, k).published == s'.published
    ensures |PcAt(Turned(s', l, id, PcAt(s', 0).todo, k), 0).todo| < |PcAt(s', 0).todo|
    ensures id in s'.table
  {
    var todo := PcAt(s', 0).todo;
    TurnMidway(s, s', l, id, todo, k);
    assert |todo - {id}| == |todo| - 1;
  }

  lemma TurnLeft(s: Sys, s': Sys, l: nat, id: Id, k: Cont)
    requires Left(s, s', l, k) && Agrees(s, l) && id in PcAt(s', 0).todo
    ensures var s2 := Next(Next(Next(Next(Step(s', 0, Pick(id))))));
            && Left(s, s2, l, k) && s2.published == s'.published
            && |PcAt(s2, 0).todo| < |PcAt(s', 0).todo|
  {
    TurnedLeft(s, s', l, id, k);
    TurnIs(s', l, PcAt(s', 0).id, PcAt(s', 0).todo, id, k);
  }

  lemma EndLeft(s: Sys, s': Sys, l: nat)
    requires Left(s, s', l, Return) && PcAt(s', 0).todo == {}
    ensures Quiescent(Next(s')) && Midway(s, Next(s'), l, {}) && Next(s').published == s'.published
  {
    assert Next(s') == MoveTo(s', 0, Idle);
  }

  // A connect that ended in a deactivation finds its own entry gone.
  lemma EndFailed(s: Sys, s': Sys, l: nat, id: Id)
    requires Left(s, s', l, FailConnect(id)) && PcAt(s', 0).todo == {} && id !in s'.table
    ensures Quiescent(Next(Next(s'))) && Midway(s, Next(Next(s')), l, {}) && Next(Next(s')).published == s'.published
  {
    var s1 := MoveTo(s', 0, Detaching(false, id, true));
    assert Next(s') == s1;
    assert Next(s1) == MoveTo(s1, 0, Idle);
  }

  lemma ThreeKeep(s: Sys, a: Action)
    requires Inv(s)
    ensures Inv(Next(Next(Step(s, 0, a))))
  {
    StepKeeps(s, 0, a);
    TwoKeep(Step(s, 0, a), NEXT);
  }

  // A connect whose future is dropped while it waits for the open callback stops there: its
  // entry and its weak reference stay, although no socket was handed out.
  lemma CancelledConnectStays(s: Sys, l: nat)
    requires IsActive(s, l) && Quiescent(s)
    ensures var s' := Step(Opened(s, l), 0, CancelConnect); var id := NewId(s, l);
            && Quiescent(s') && id in s'.table && id in Conns(s', l)
            && !s'.socks[id].handed && s'.handles == s.handles
  {
  }

  // ---------- detaching ----------

  // Neither in the table nor in its listener's map.
  function Detached(s: Sys, id: Id): Sys {
    var l := SockOf(s, id).owner;
    if id in s.table then SetConns(s.(table := s.table - {id}), l, Conns(s, l) - {id}) else s
  }

  // Alone a detach takes two steps, or one when the entry is gone already.
  lemma DetachSteps(s: Sys, id: Id, failing: bool)
    requires PcAt(s, 0) == Detaching(false, id, failing)
    ensures Next(Next(s)) == MoveTo(Detached(s, id), 0, Idle)
  {
    if id in s.table {
      var s1 := MoveTo(s.(table := s.table - {id}), 0, Detaching(true, id, failing));
      assert Next(s) == s1;
      assert s1.ops[0 := Idle] == s.ops[0 := Idle];
    } else {
      var s1 := MoveTo(s, 0, Idle);
      assert Next(s) == s1;
      assert s1.ops[0 := Idle] == s.ops[0 := Idle];
    }
  }

  // ---------- a whole push ----------

  // What an event makes of an open socket's stream.
  function PushedStream(k: SS.Stream, ev: Event): SS.Stream {
    SS.Stream(k.unread + (if ev.Data? && !k.eof && k.err.None? then ev.bytes else []),
              k.eof || ev.Eof?,
              if ev.Error? then Some(ev.message) else k.err)
  }

  // The socket's stream takes the event unless it is closed; eof and error also detach it.
  function Pushed(s: Sys, id: Id, ev: Event): Sys {
    var k := SockOf(s, id);
    var s1 := if k.closed then s else s.(socks := s.socks[id := k.(stream := PushedStream(k.stream, ev))]);
    if ev.Data? then s1 else Detached(s1, id)
  }

  lemma PushBegins(s: Sys, id: Id, ev: Event)
    requires PcAt(s, 0).Idle? && id in s.table
    ensures Step(s, 0, Push(id, ev)) == MoveTo(s, 0, Pushing(false, id, ev))
  {
  }

  lemma PushChecks(s: Sys, id: Id, ev: Event)
    requires PcAt(s, 0) == Pushing(false, id, ev)
    ensures Next(s) == MoveTo(s, 0, if !SockOf(s, id).closed then Pushing(true, id, ev)
                                    else if ev.Data? then Idle else Detaching(false, id, false))
  {
  }

  lemma PushLocks(s: Sys, id: Id, ev: Event)
    requires PcAt(s, 0) == Pushing(true, id, ev)
    ensures var k := SockOf(s, id);
            Next(s) == MoveTo(s.(socks := s.socks[id := k.(stream := PushedStream(k.stream, ev))]), 0,
                              if ev.Data? then Idle else Detaching(false, id, false))
  {
    assert SockOf(s, id).stream.unread + [] == SockOf(s, id).stream.unread;
  }

  // ---------- writes and shutdowns ----------

  lemma Begins(s: Sys, id: Id)
    requires PcAt(s, 0).Idle? && id in s.handles
    ensures Step(s, 0, Write(id)) == MoveTo(s, 0, Calling(WriteClosed, id))
    ensures Step(s, 0, Shutdown(id)) == MoveTo(s, 0, Calling(ShutMark, id))
  {
  }

  lemma WriteChecks(s: Sys, id: Id)
    ensures Next(MoveTo(s, 0, Calling(WriteClosed, id))) ==
            MoveTo(s, 0, if SockOf(s, id).closed then Idle else Calling(WriteActive, id))
  {
    MoveTwice(s, Calling(WriteClosed, id), Idle);
    MoveTwice(s, Calling(WriteClosed, id), Calling(WriteActive, id));
  }

  lemma WriteLooks(s: Sys, id: Id)
    ensures Next(MoveTo(s, 0, Calling(WriteActive, id))) ==
            MoveTo(s, 0, if IsActive(s, SockOf(s, id).owner) then Calling(WriteCall, id) else Idle)
  {
    MoveTwice(s, Calling(WriteActive, id), Idle);
    MoveTwice(s, Calling(WriteActive, id), Calling(WriteCall, id));
  }

  lemma WriteAsks(s: Sys, id: Id, answer: Callback)
    ensures Step(MoveTo(s, 0, Calling(WriteCall, id)), 0, Advance(answer)) ==
            MoveTo(s, 0, if answer.CallClosed? then Calling(Lookup, id) else Idle)
  {
    MoveTwice(s, Calling(WriteCall, id), Idle);
    MoveTwice(s, Calling(WriteCall, id), Calling(Lookup, id));
  }

  // Closed by its own side.
  function Shut(s: Sys, id: Id): Sys {
    s.(socks := s.socks[id := SockOf(s, id).(closed := true, shut := true)])
  }

  lemma ShutMarks(s: Sys, id: Id)
    ensures Next(MoveTo(s, 0, Calling(ShutMark, id))) == MoveTo(Shut(s, id), 0, Calling(ShutActive, id))
  {
    assert s.ops[0 := Calling(ShutMark, id)][0 := Calling(ShutActive, id)] == s.ops[0 := Calling(ShutActive, id)];
  }

  lemma ShutLooks(s: Sys, id: Id)
    ensures Next(MoveTo(s, 0, Calling(ShutActive, id))) ==
            MoveTo(s, 0, if IsActive(s, SockOf(s, id).owner) then Calling(ShutCall, id)
                         else Detaching(false, id, false))
  {
    MoveTwice(s, Calling(ShutActive, id), Calling(ShutCall, id));
    MoveTwice(s, Calling(ShutActive, id), Detaching(false, id, false));
  }

  lemma ShutAsks(s: Sys, id: Id, answer: Callback)
    ensures Step(MoveTo(s, 0, Calling(ShutCall, id)), 0, Advance(answer)) == MoveTo(s, 0, ShutNext(id, answer))
  {
    MoveTwice(s, Calling(ShutCall, id), ShutNext(id, answer));
  }

  // Where a shutdown goes after the callback's answer.
  function ShutNext(id: Id, answer: Callback): Pc {
    match answer
    case CallOk => Detaching(false, id, false)
    case CallClosed => Calling(Lookup, id)
    case CallFailed => Idle
  }

  lemma LookupIs(s: Sys, id: Id)
    requires PcAt(s, 0) == Calling(Lookup, id)
    ensures id !in s.table ==> Next(s) == MoveTo(s, 0, Idle)
    ensures id in s.table ==>
              var l := s.table[id];
              Next(Next(s)) == MoveTo(s.(published := Without(s, l)), 0, Deactivating(ClearActive, l, id, {}, Return))
  {
    if id in s.table {
      var l := s.table[id];
      var s1 := MoveTo(s, 0, Deactivating(Unpublish, l, id, {}, Return));
      var next := Deactivating(ClearActive, l, id, {}, Return);
      assert Next(s) == s1;
      assert s1.ops[0 := next] == s.ops[0 := next];
    }
  }

  // ---------- from beginning to end ----------

  // A thread with nothing to do ignores its turns.
  lemma IdleTurn(s: Sys, answer: Callback)
    requires 0 in s.ops && s.ops[0].Idle?
    ensures Step(s, 0, Advance(answer)) == s
  {
    assert s.ops[0 := Idle] == s.ops;
  }

  lemma MovedPushed(s: Sys, p: Pc, id: Id)
    ensures MoveTo(Detached(MoveTo(s, 0, p), id), 0, Idle) == MoveTo(Detached(s, id), 0, Idle)
  {
    assert s.ops[0 := p][0 := Idle] == s.ops[0 := Idle];
  }

  // What is left of a push after its stream was seen to: two turns at most.
  lemma PushEnds(s: Sys, id: Id, ev: Event)
    ensures var p := if ev.Data? then Idle else Detaching(false, id, false);
            Next(Next(MoveTo(s, 0, p))) == MoveTo(if ev.Data? then s else Detached(s, id), 0, Idle)
  {
    if ev.Data? {
      IdleTurn(MoveTo(s, 0, Idle), CallOk);
    } else {
      DetachSteps(MoveTo(s, 0, Detaching(false, id, false)), id, false);
      MovedPushed(s, Detaching(false, id, false), id);
    }
  }

  lemma PushChecked(s: Sys, id: Id, ev: Event)
    requires PcAt(s, 0).Idle? && id in s.table
    ensures Next(Step(s, 0, Push(id, ev))) ==
            MoveTo(s, 0, if !SockOf(s, id).closed then Pushing(true, id, ev)
                         else if ev.Data? then Idle else Detaching(false, id, false))
  {
    var p := Pushing(false, id, ev);
    PushBegins(s, id, ev);
    PushChecks(MoveTo(s, 0, p), id, ev);
    MoveTwice(s, p, Pushing(true, id, ev));
    MoveTwice(s, p, Idle);
    MoveTwice(s, p, Detaching(false, id, false));
  }

  lemma PushLocked(s: Sys, id: Id, ev: Event)
    ensures var k := SockOf(s, id);
            Next(MoveTo(s, 0, Pushing(true, id, ev))) ==
            MoveTo(s.(socks := s.socks[id := k.(stream := PushedStream(k.stream, ev))]), 0,
                   if ev.Data? then Idle else Detaching(false, id, false))
  {
    var p := Pushing(true, id, ev);
    PushLocks(MoveTo(s, 0, p), id, ev);
    assert s.ops[0 := p][0 := Idle] == s.ops[0 := Idle];
    assert s.ops[0 := p][0 := Detaching(false, id, false)] == s.ops[0 := Detaching(false, id, false)];
  }

  // The four or five turns of a push, whichever it is.
  lemma PushIs(s: Sys, id: Id, ev: Event)
    requires PcAt(s, 0).Idle? && id in s.table
    ensures var checked := Next(Step(s, 0, Push(id, ev)));
            var seen := if SockOf(s, id).closed then checked else Next(checked);
            Next(Next(seen)) == MoveTo(Pushed(s, id, ev), 0, Idle)
  {
    var k := SockOf(s, id);
    var s1 := if k.closed then s else s.(socks := s.socks[id := k.(stream := PushedStream(k.stream, ev))]);
    PushChecked(s, id, ev);
    PushLocked(s, id, ev);
    PushEnds(s1, id, ev);
  }

  function PushRun(s: Sys, id: Id, ev: Event): Sys {
    var checked := Next(Step(s, 0, Push(id, ev)));
    if SockOf(s, id).closed then Next(Next(checked)) else Next(Next(Next(checked)))
  }

  lemma PushKeeps(s: Sys, id: Id, ev: Event)
    requires Inv(s)
    ensures Inv(PushRun(s, id, ev))
  {
    if SockOf(s, id).closed {
      FourKeep(s, Push(id, ev));
    } else {
      FiveKeep(s, Push(id, ev));
    }
  }

  lemma PushedQuiet(s: Sys, id: Id, ev: Event)
    requires Quiescent(s)
    ensures Quiescent(MoveTo(Pushed(s, id, ev), 0, Idle))
  {
    assert Pushed(s, id, ev).ops == s.ops;
  }

  lemma PushDone(s: Sys, id: Id, ev: Event)
    requires Inv(s) && Quiescent(s) && id in s.table
    ensures Inv(PushRun(s, id, ev)) && Quiescent(PushRun(s, id, ev))
    ensures PushRun(s, id, ev) == MoveTo(Pushed(s, id, ev), 0, Idle)
  {
    PushKeeps(s, id, ev);
    PushedQuiet(s, id, ev);
    PushIs(s, id, ev);
  }

  // The turns of a write up to the callback's answer.
  lemma WriteIs(s: Sys, id: Id, answer: Callback)
    requires PcAt(s, 0).Idle? && id in s.handles
    ensures var open := !SockOf(s, id).closed;
            var active := IsActive(s, SockOf(s, id).owner);
            var one := Next(Step(s, 0, Write(id)));
            && one == MoveTo(s, 0, if open then Calling(WriteActive, id) else Idle)
            && Next(one) == MoveTo(s, 0, if open && active then Calling(WriteCall, id) else Idle)
            && Step(Next(one), 0, Advance(answer)) ==
               MoveTo(s, 0, if open && active && answer.CallClosed? then Calling(Lookup, id) else Idle)
  {
    Begins(s, id);
    WriteChecks(s, id);
    WriteLooks(s, id);
    WriteAsks(s, id, answer);
    IdleTurn(MoveTo(s, 0, Idle), CallOk);
    IdleTurn(MoveTo(s, 0, Idle), answer);
  }

  // The turns of a shutdown up to the callback, and its answer.
  lemma ShutIs(s: Sys, id: Id, answer: Callback)
    requires PcAt(s, 0).Idle? && id in s.handles
    ensures var active := IsActive(s, SockOf(s, id).owner);
            var two := Next(Next(Step(s, 0, Shutdown(id))));
            && two == MoveTo(Shut(s, id), 0, if active then Calling(ShutCall, id) else Detaching(false, id, false))
            && (active ==> Step(two, 0, Advance(answer)) == MoveTo(Shut(s, id), 0, ShutNext(id, answer)))
  {
    Begins(s, id);
    ShutMarks(s, id);
    ShutLooks(Shut(s, id), id);
    ShutAsks(Shut(s, id), id, answer);
    assert SockOf(Shut(s, id), id).owner == SockOf(s, id).owner;
  }

  // The accounts of a deactivation do not look at what thread 0 was doing.
  lemma MidwayMoved(s: Sys, p: Pc, s': Sys, l: nat)
    requires Midway(MoveTo(s, 0, p), s', l, {})
    ensures Midway(s, s', l, {})
  {
    assert Conns(MoveTo(s, 0, p), l) == Conns(s, l) && KeyOf(MoveTo(s, 0, p), l) == KeyOf(s, l);
  }
}
