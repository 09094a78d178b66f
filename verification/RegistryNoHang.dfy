/**
 Nobody hangs on a dead listener: what lets a socket leave its listener is always preceded
 by a wake, so a reader still parked afterwards has been notified.
 */
module RegistryNoHang {
  import opened Prelude
  import opened Registry
  import opened RegistryInvariant
  import opened RegistryTableSteps
  import opened RegistryRuns
  import opened RegistryTheorems
  import opened RegistryStreams
  import opened RegistryWakeup
  import SS = SocketStream

  // Parked, and nobody has woken it.
  predicate Hanging(j: Joint, id: Id) {
    WakerOf(j, id).reader.Parked? && !WakerOf(j, id).notified
  }

  predicate Owes(j: Joint, t: nat, id: Id) {
    t in j.owes && j.owes[t] == id
  }

  // A deactivation that has still to wake the socket's reader.
  predicate WillWake(j: Joint, t: nat, pc: Pc, id: Id) {
    Holds(pc, id) || (Owes(j, t, id) && pc.Deactivating? && pc.step.LoopEntry? && pc.id == id)
  }

  predicate SomeWillWake(j: Joint, id: Id) {
    exists t :: t in j.reg.ops && WillWake(j, t, j.reg.ops[t], id)
  }

  // On the way to taking the socket out of the tables, its change already made.
  predicate Leaving(pc: Pc, id: Id) {
    || (pc.Detaching? && pc.id == id && !pc.failing)
    || (pc.Deactivating? && (pc.step.LoopEntry? || pc.step.LoopWeak?) && pc.id == id)
  }

  // Attached and open, and whoever is about to take it out still owes the wake.
  predicate Attached(j: Joint, id: Id) {
    && id in Conns(j.reg, SockOf(j.reg, id).owner) && !SockOf(j.reg, id).closed
    && forall t :: t in j.reg.ops && Leaving(j.reg.ops[t], id) ==> Owes(j, t, id)
  }

  predicate Excused(j: Joint, id: Id) {
    SockOf(j.reg, id).shut || SomeWillWake(j, id) || Attached(j, id)
  }

  predicate HangOk(j: Joint, id: Id) {
    Hanging(j, id) ==> id in j.reg.socks && SockOf(j.reg, id).handed && Excused(j, id)
  }

  // A shutdown past its mark has marked.
  predicate ShutOk(s: Sys) {
    forall t :: t in s.ops ==> ShutMarked(s, s.ops[t])
  }

  predicate ShutMarked(s: Sys, pc: Pc) {
    pc.Calling? && (pc.call.ShutActive? || pc.call.ShutCall?) ==> pc.id in s.socks && s.socks[pc.id].shut
  }

  // ---------- shutdowns ----------

  lemma EffectKeepsShut(s: Sys, e: Effect, id: Id)
    requires id in s.socks && s.socks[id].shut
    requires e.PutSock? && e.id == id ==> e.sock.shut
    requires e.NewSock? ==> e.id !in s.socks
    ensures id in Perform(s, e).socks && Perform(s, e).socks[id].shut
  {
  }

  lemma PutsKeepShut(s: Sys, t: nat, a: Action)
    ensures var e := Decide(s, t, a).effect; e.PutSock? ==> SockOf(s, e.id).shut ==> e.sock.shut
  {
  }

  lemma ShutStays(s: Sys, t: nat, a: Action, id: Id)
    requires IdsOk(s) && id in s.socks && s.socks[id].shut
    ensures id in Step(s, t, a).socks && Step(s, t, a).socks[id].shut
  {
    PutsKeepShut(s, t, a);
    NewIsNew(s, t, a);
    EffectKeepsShut(s, Decide(s, t, a).effect, id);
  }

  lemma OwnShutMark(s: Sys, t: nat, a: Action)
    requires ShutMarked(s, PcAt(s, t))
    ensures var m := Decide(s, t, a);
            m.next.Calling? && (m.next.call.ShutActive? || m.next.call.ShutCall?) ==>
              || (m.effect.PutSock? && m.effect.id == m.next.id && m.effect.sock.shut)
              || (m.effect.Nothing? && m.next.id in s.socks && s.socks[m.next.id].shut)
  {
  }

  lemma ShutKeeps(s: Sys, t: nat, a: Action)
    requires IdsOk(s) && ShutOk(s)
    ensures ShutOk(Step(s, t, a))
  {
    OwnShutMark(s, t, a);
    forall id | id in s.socks && s.socks[id].shut ensures id in Step(s, t, a).socks && Step(s, t, a).socks[id].shut {
      ShutStays(s, t, a, id);
    }
    ShutMove(s, t, Decide(s, t, a));
  }

  lemma ShutMove(s: Sys, t: nat, m: Registry.Move)
    requires ShutOk(s)
    requires forall id :: id in s.socks && s.socks[id].shut ==>
               id in After(s, t, m).socks && After(s, t, m).socks[id].shut
    requires m.next.Calling? && (m.next.call.ShutActive? || m.next.call.ShutCall?) ==>
               || (m.effect.PutSock? && m.effect.id == m.next.id && m.effect.sock.shut)
               || (m.effect.Nothing? && m.next.id in s.socks && s.socks[m.next.id].shut)
    ensures ShutOk(After(s, t, m))
  {
    OpsAfter(s, t, m);
    var s' := After(s, t, m);
    forall u | u in s'.ops ensures ShutMarked(s', s'.ops[u]) {
      assert u in s.ops ==> ShutMarked(s, s.ops[u]);
    }
  }

  // ---------- readers ----------

  // While there is nothing to read, the registry's own invariant excuses a parked reader.
  lemma UnreadIsExcused(j: Joint, id: Id)
    requires Inv(j.reg) && id in j.reg.socks && j.reg.socks[id].handed && !SS.Readable(StreamOf(j.reg, id))
    ensures Excused(j, id)
  {
    var s := j.reg;
    if SomeHolds(s, id) {
      var t :| t in s.ops && Holds(s.ops[t], id);
      assert WillWake(j, t, s.ops[t], id);
    } else if !s.socks[id].shut {
      assert !Doomed(s, id);
      forall t | t in s.ops ensures !Leaving(s.ops[t], id) {
        assert DetachOk(s, s.ops[t]);
      }
    }
  }

  lemma ReadHangs(j: Joint, t: nat, a: Action)
    requires Inv(j.reg) && a.Read? && Registered(j, t, a.id) && a.held == 0 && a.room > 0
    ensures Hanging(ReadStep(j, t, a), a.id) ==> Excused(ReadStep(j, t, a), a.id)
    ensures a.id in ReadStep(j, t, a).reg.socks && SockOf(ReadStep(j, t, a).reg, a.id).handed
  {
    var j' := ReadStep(j, t, a);
    StepKeeps(j.reg, t, a);
    assert a.id in j.reg.socks && j.reg.socks[a.id].handed;
    StepIsLater(j.reg, t, a);
    HandedStays(j.reg, t, a, a.id);
    ReadsOnlyItsOwn(j.reg, t, a, a.id);
    if Hanging(j', a.id) {
      assert !SS.Readable(StreamOf(j'.reg, a.id));
      UnreadIsExcused(j', a.id);
    }
  }

  // ---------- what a step does to a socket's excuse ----------

  // A deactivation goes on holding a socket until it owes the wake.
  lemma HoldsGoOn(s: Sys, t: nat, a: Action, id: Id)
    requires Holds(PcAt(s, t), id)
    ensures var next := Decide(s, t, a).next;
            || Holds(next, id)
            || (Owed(s, t, a) == Some(id) && next.Deactivating? && next.step.LoopEntry? && next.id == id)
  {
  }

  // Somebody sets out to take a socket away only after a change it owes the wake for, when
  // the socket is closed already, or on behalf of its own side.
  lemma StartsLeaving(s: Sys, t: nat, a: Action, id: Id)
    requires Leaving(Decide(s, t, a).next, id)
    ensures var pc := PcAt(s, t);
            || Leaving(pc, id) || SockOf(s, id).closed || Owed(s, t, a) == Some(id)
            || (pc.Calling? && (pc.call.ShutActive? || pc.call.ShutCall?) && pc.id == id)
  {
  }

  lemma ClosesBy(s: Sys, t: nat, a: Action)
    requires !a.Read?
    ensures var e := Decide(s, t, a).effect;
            e.PutSock? ==> e.sock.closed ==> SockOf(s, e.id).closed || e.sock.shut || Holds(PcAt(s, t), e.id)
  {
  }

  lemma DropsBy(s: Sys, t: nat, a: Action)
    ensures var e := Decide(s, t, a).effect; var pc := PcAt(s, t);
            && (e.DropWeak? ==> Leaving(pc, e.id) || Owns(pc, e.id))
            && (e.TakeAll? ==> pc.Deactivating? && pc.l == e.l
                               && forall c :: c in Conns(s, e.l) && Alive(s, c) ==> Holds(Decide(s, t, a).next, c))
  {
  }

  lemma EffectConns(s: Sys, e: Effect, l: nat, id: Id)
    requires id in Conns(s, l)
    ensures id in Conns(Perform(s, e), l) || (e.DropWeak? && e.id == id) || (e.TakeAll? && e.l == l)
  {
  }

  lemma EffectCloses(s: Sys, e: Effect, id: Id)
    requires !SockOf(s, id).closed
    ensures SockOf(Perform(s, e), id).closed ==> e.PutSock? && e.id == id && e.sock.closed
    ensures e.PutSock? && e.id == id ==> SockOf(Perform(s, e), id) == e.sock
  {
  }

  lemma WillWakeMove(j: Joint, t: nat, m: Registry.Move, owed: Option<Id>, id: Id)
    requires t !in j.owes && SomeWillWake(j, id)
    requires Holds(PcAt(j.reg, t), id) ==>
               || Holds(m.next, id)
               || (owed == Some(id) && m.next.Deactivating? && m.next.step.LoopEntry? && m.next.id == id)
    ensures SomeWillWake(ActMove(j, t, m, owed), id)
  {
    var j' := ActMove(j, t, m, owed);
    OpsAfter(j.reg, t, m);
    var u :| u in j.reg.ops && WillWake(j, u, j.reg.ops[u], id);
    assert WillWake(j', u, j'.reg.ops[u], id);
  }

  lemma WillWakeStays(j: Joint, t: nat, a: Action, id: Id)
    requires t !in j.owes && SomeWillWake(j, id)
    ensures SomeWillWake(ActStep(j, t, a), id)
  {
    if Holds(PcAt(j.reg, t), id) {
      HoldsGoOn(j.reg, t, a, id);
    }
    WillWakeMove(j, t, Decide(j.reg, t, a), Owed(j.reg, t, a), id);
  }

  lemma StepHolds(j: Joint, t: nat, a: Action, id: Id)
    requires Holds(Decide(j.reg, t, a).next, id)
    ensures SomeWillWake(ActStep(j, t, a), id)
  {
    var j' := ActStep(j, t, a);
    assert j'.reg.ops[t] == Decide(j.reg, t, a).next;
    assert WillWake(j', t, j'.reg.ops[t], id);
  }

  // An attached socket stays in its listener's map, or is drained by somebody who will wake.
  lemma ConnsStay(j: Joint, t: nat, a: Action, id: Id)
    requires Inv(j.reg) && t !in j.owes && Attached(j, id) && id in j.reg.socks && j.reg.socks[id].handed
    ensures id in Conns(Step(j.reg, t, a), j.reg.socks[id].owner) || Holds(Decide(j.reg, t, a).next, id)
  {
    var s, e, l := j.reg, Decide(j.reg, t, a).effect, j.reg.socks[id].owner;
    EffectConns(s, e, l, id);
    DropsBy(s, t, a);
    WeaksUpgrade(s, l);
    assert !Owns(PcAt(s, t), id);
    assert !Leaving(PcAt(s, t), id);
  }

  lemma OpenStays(j: Joint, t: nat, a: Action, id: Id)
    requires t !in j.owes && !a.Read? && !SockOf(j.reg, id).closed
    ensures var s' := Step(j.reg, t, a);
            SockOf(s', id).closed ==> SockOf(s', id).shut || Holds(PcAt(j.reg, t), id)
  {
    EffectCloses(j.reg, Decide(j.reg, t, a).effect, id);
    ClosesBy(j.reg, t, a);
  }

  lemma LeaversOwe(j: Joint, t: nat, a: Action, id: Id)
    requires ShutOk(j.reg) && t !in j.owes && Attached(j, id) && !SockOf(j.reg, id).shut
    ensures var j' := ActStep(j, t, a);
            forall u :: u in j'.reg.ops && Leaving(j'.reg.ops[u], id) ==> Owes(j', u, id)
  {
    if Leaving(Decide(j.reg, t, a).next, id) {
      StartsLeaving(j.reg, t, a, id);
      assert t in j.reg.ops ==> ShutMarked(j.reg, j.reg.ops[t]);
    }
    LeaversMove(j, t, Decide(j.reg, t, a), Owed(j.reg, t, a), id);
  }

  lemma LeaversMove(j: Joint, t: nat, m: Registry.Move, owed: Option<Id>, id: Id)
    requires Attached(j, id) && (Leaving(m.next, id) ==> owed == Some(id))
    requires t !in j.owes
    ensures var j' := ActMove(j, t, m, owed);
            forall u :: u in j'.reg.ops && Leaving(j'.reg.ops[u], id) ==> Owes(j', u, id)
  {
    var j' := ActMove(j, t, m, owed);
    OpsAfter(j.reg, t, m);
    forall u | u in j'.reg.ops && Leaving(j'.reg.ops[u], id) ensures Owes(j', u, id) {
      assert u != t ==> Owes(j, u, id);
    }
  }

  lemma ActExcused(j: Joint, t: nat, a: Action, id: Id)
    requires Inv(j.reg) && ShutOk(j.reg) && t !in j.owes && !a.Read?
    requires id in j.reg.socks && j.reg.socks[id].handed && Excused(j, id)
    ensures Excused(ActStep(j, t, a), id)
  {
    var j' := ActStep(j, t, a);
    if j.reg.socks[id].shut {
      ShutStays(j.reg, t, a, id);
    } else if SomeWillWake(j, id) {
      WillWakeStays(j, t, a, id);
    } else {
      ConnsStay(j, t, a, id);
      OpenStays(j, t, a, id);
      LeaversOwe(j, t, a, id);
      StepIsLater(j.reg, t, a);
      if Holds(Decide(j.reg, t, a).next, id) {
        StepHolds(j, t, a, id);
      }
      NoHolder(j, t, id);
    }
  }

  lemma NoHolder(j: Joint, t: nat, id: Id)
    requires !SomeWillWake(j, id)
    ensures !Holds(PcAt(j.reg, t), id)
  {
    assert t in j.reg.ops ==> !WillWake(j, t, j.reg.ops[t], id);
  }

  // ---------- every step, every run ----------

  lemma ActHangs(j: Joint, t: nat, a: Action, id: Id)
    requires Inv(j.reg) && ShutOk(j.reg) && HangOk(j, id) && t !in j.owes && !a.Read?
    ensures HangOk(ActStep(j, t, a), id)
  {
    if Hanging(j, id) {
      HandedStays(j.reg, t, a, id);
      ActExcused(j, t, a, id);
    }
  }

  lemma ReadExcuses(j: Joint, t: nat, a: Action, id: Id)
    requires a.Read? && Registered(j, t, a.id) && a.held == 0 && a.room > 0 && id != a.id
    requires id in j.reg.socks && Excused(j, id)
    ensures Excused(ReadStep(j, t, a), id)
  {
    var j' := ReadStep(j, t, a);
    assert Decide(j.reg, t, a).effect.PutSock? && Decide(j.reg, t, a).next.Idle?;
    ReadMove(j, t, Decide(j.reg, t, a), id, j');
  }

  // A read changes one socket and starts no operation.
  lemma ReadMove(j: Joint, t: nat, m: Registry.Move, id: Id, j': Joint)
    requires PcAt(j.reg, t).Idle? && m.next.Idle? && m.effect.PutSock? && m.effect.id != id
    requires j'.reg == After(j.reg, t, m) && j'.owes == j.owes && id in j.reg.socks && Excused(j, id)
    ensures Excused(j', id)
  {
    OpsAfter(j.reg, t, m);
    if SomeWillWake(j, id) {
      var u :| u in j.reg.ops && WillWake(j, u, j.reg.ops[u], id);
      assert WillWake(j', u, j'.reg.ops[u], id);
    } else if Attached(j, id) {
      forall u | u in j'.reg.ops && Leaving(j'.reg.ops[u], id) ensures Owes(j', u, id) {
        assert Owes(j, u, id);
      }
    }
  }

  lemma ReadHangOk(j: Joint, t: nat, a: Action, id: Id)
    requires Inv(j.reg) && HangOk(j, id) && a.Read?
    ensures HangOk(ReadStep(j, t, a), id)
  {
    if Registered(j, t, a.id) && a.held == 0 && a.room > 0 {
      if id == a.id {
        ReadHangs(j, t, a);
      } else if Hanging(j, id) {
        HandedStays(j.reg, t, a, id);
        ReadExcuses(j, t, a, id);
      }
    }
  }

  // A wake leaves its socket's reader notified, and the others' excuses as they were.
  lemma WakeHangs(j: Joint, t: nat, id: Id)
    requires WakerOk(j, id) && HangOk(j, id) && t in j.owes
    ensures HangOk(JointStep(j, t, Wake), id)
  {
    if id != j.owes[t] && Hanging(j, id) {
      SameExcuse(j, JointStep(j, t, Wake), id);
    }
  }

  lemma SameExcuse(j: Joint, j': Joint, id: Id)
    requires j'.reg == j.reg && (forall u :: Owes(j', u, id) == Owes(j, u, id)) && Excused(j, id)
    ensures Excused(j', id)
  {
    if SomeWillWake(j, id) {
      var u :| u in j.reg.ops && WillWake(j, u, j.reg.ops[u], id);
      assert WillWake(j', u, j'.reg.ops[u], id);
    }
  }

  lemma ReaderHangs(j: Joint, t: nat, m: RegistryWakeup.Move, id: Id)
    requires HangOk(j, id) && (m.Schedule? || m.RegisterWaker?)
    ensures HangOk(JointStep(j, t, m), id)
  {
    if Hanging(j, id) {
      SameExcuse(j, JointStep(j, t, m), id);
    }
  }

  lemma HangKeeps(j: Joint, t: nat, m: RegistryWakeup.Move, id: Id)
    requires Inv(j.reg) && ShutOk(j.reg) && WakerOk(j, id) && HangOk(j, id)
    ensures HangOk(JointStep(j, t, m), id)
  {
    match m
    case Act(a) =>
      if t !in j.owes {
        if a.Read? { ReadHangOk(j, t, a, id); } else { ActHangs(j, t, a, id); }
      }
    case Wake => if t in j.owes { WakeHangs(j, t, id); }
    case Schedule(_) => ReaderHangs(j, t, m, id);
    case RegisterWaker(_) => ReaderHangs(j, t, m, id);
  }

  lemma ShutStepKeeps(j: Joint, t: nat, m: RegistryWakeup.Move)
    requires IdsOk(j.reg) && ShutOk(j.reg)
    ensures ShutOk(JointStep(j, t, m).reg)
  {
    if m.Act? && t !in j.owes {
      ShutKeeps(j.reg, t, m.action);
    }
  }

  lemma {:induction false} ShutReachable(moves: seq<(nat, RegistryWakeup.Move)>)
    ensures ShutOk(JointRun(moves).reg)
    decreases |moves|
  {
    if moves != [] {
      var (t, m) := moves[|moves| - 1];
      RegReachable(moves[..|moves| - 1]);
      ShutReachable(moves[..|moves| - 1]);
      ShutStepKeeps(JointRun(moves[..|moves| - 1]), t, m);
    }
  }

  lemma {:induction false} HangReachable(moves: seq<(nat, RegistryWakeup.Move)>, id: Id)
    ensures HangOk(JointRun(moves), id)
    decreases |moves|
  {
    if moves != [] {
      var init := moves[..|moves| - 1];
      var (t, m) := moves[|moves| - 1];
      RegReachable(init);
      ShutReachable(init);
      WakerReachable(init, id);
      HangReachable(init, id);
      HangKeeps(JointRun(init), t, m, id);
    }
  }

  // ---------- after a deactivation ----------

  // Dead, and no deactivation of the instance is busy with a socket.
  ghost predicate Over(s: Sys, l: nat) {
    Dead(s, l) && forall t :: t in s.ops && HasCurrent(s.ops[t]) ==> s.ops[t].l != l
  }

  lemma CurrentFrom(s: Sys, t: nat, a: Action, l: nat)
    requires HasCurrent(Decide(s, t, a).next) && Decide(s, t, a).next.l == l
    ensures var pc := PcAt(s, t);
            pc.Deactivating? && pc.l == l && (HasCurrent(pc) || exists id :: id in pc.todo && Holds(pc, id))
  {
    var pc := PcAt(s, t);
    if !HasCurrent(pc) {
      assert a.Pick? && a.id in pc.todo && Holds(pc, a.id);
    }
  }

  lemma NobodyStarts(s: Sys, t: nat, a: Action, l: nat)
    requires Typed(s) && Over(s, l)
    ensures HasCurrent(Decide(s, t, a).next) ==> Decide(s, t, a).next.l != l
  {
    assert t in s.ops ==> PcTyped(s, s.ops[t]);
    if HasCurrent(Decide(s, t, a).next) && Decide(s, t, a).next.l == l {
      CurrentFrom(s, t, a, l);
    }
  }

  lemma OverStays(s: Sys, t: nat, a: Action, l: nat)
    requires Inv(s) && Over(s, l)
    ensures Over(Step(s, t, a), l)
  {
    DeadStays(s, t, a, l);
    NobodyStarts(s, t, a, l);
    OpsAfter(s, t, Decide(s, t, a));
  }

  lemma {:induction false} OverForever(moves: seq<(nat, RegistryWakeup.Move)>, n: nat, l: nat)
    requires n <= |moves| && Over(JointRun(moves[..n]).reg, l)
    ensures Over(JointRun(moves).reg, l)
    decreases |moves|
  {
    if n == |moves| {
      assert moves[..n] == moves;
    } else {
      var init := moves[..|moves| - 1];
      var (t, m) := moves[|moves| - 1];
      assert init[..n] == moves[..n];
      OverForever(init, n, l);
      RegReachable(init);
      RegSteps(JointRun(init), t, m);
      if m.Act? {
        OverStays(JointRun(init).reg, t, m.action, l);
      }
    }
  }

  lemma FinishedIsOver(s: Sys, l: nat)
    requires Typed(s) && TablesOk(s) && Finished(s, l)
    ensures Over(s, l)
  {
    FinishedIsDead(s, l);
  }

  lemma OverHasNoExcuse(j: Joint, l: nat, id: Id)
    requires Inv(j.reg) && Over(j.reg, l) && Known(j.reg, id, l) && !SockOf(j.reg, id).shut
    ensures !Excused(j, id)
  {
    forall t | t in j.reg.ops ensures !WillWake(j, t, j.reg.ops[t], id) {
      assert PcTyped(j.reg, j.reg.ops[t]);
    }
  }

  // Once the deactivation of a listener instance has finished, then for ever after and in
  // every interleaving, a reader parked on one of its sockets, unless the socket was shut
  // down locally, has been notified.
  lemma NobodyHangsOnADeadListener(moves: seq<(nat, RegistryWakeup.Move)>, n: nat, l: nat, id: Id)
    requires n <= |moves| && Finished(JointRun(moves[..n]).reg, l)
    requires Known(JointRun(moves).reg, id, l) && !SockOf(JointRun(moves).reg, id).shut
    requires WakerOf(JointRun(moves), id).reader.Parked?
    ensures WakerOf(JointRun(moves), id).notified
  {
    RegReachable(moves[..n]);
    FinishedIsOver(JointRun(moves[..n]).reg, l);
    OverForever(moves, n, l);
    RegReachable(moves);
    HangReachable(moves, id);
    OverHasNoExcuse(JointRun(moves), l, id);
  }
}
