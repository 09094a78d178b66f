/** What the invariant means: the promises of the registry over every interleaving. */
module RegistryTheorems {
  import opened ConnIds
  import opened Registry
  import opened RegistryInvariant
  import opened RegistrySteps
  import opened RegistryRuns
  import SS = SocketStream

  type Schedule = seq<(nat, Action)>

  lemma Reachable(schedule: Schedule)
    ensures Inv(Run(INIT, schedule))
  {
    RunKeeps(INIT, schedule);
  }

  // ---------- the tables ----------

  // A table entry of an inactive listener is owed to an operation in progress: a
  // deactivation that has not drained yet or still holds the id, or an init_connect
  // that has not finished its re-check.
  lemma OrphansAreOwed(schedule: Schedule, id: Id)
    requires id in Run(INIT, schedule).table
    ensures var s := Run(INIT, schedule);
            var l := s.table[id];
            !IsActive(s, l) ==>
              || (SomeDrain(s, l) && id in Conns(s, l))
              || SomeClears(s, id)
              || SomeRechecks(s, id)
  {
    Reachable(schedule);
  }

  predicate Quiescent(s: Sys) {
    forall t :: t in s.ops ==> s.ops[t].Idle?
  }

  // With nothing in flight the two sides agree exactly, and inactive listeners are bare.
  lemma QuiescentTablesAgree(schedule: Schedule, l: nat)
    requires Quiescent(Run(INIT, schedule))
    ensures var s := Run(INIT, schedule);
            && Conns(s, l) == (set id | id in s.table && s.table[id] == l)
            && (!IsActive(s, l) ==> Conns(s, l) == {})
  {
    Reachable(schedule);
    QuietTables(Run(INIT, schedule), l);
  }

  // Writes and shutdowns before they detach anything owe the tables nothing.
  predicate Roleless(s: Sys) {
    forall t :: t in s.ops ==> s.ops[t].Idle? || s.ops[t].Calling?
  }

  lemma QuietTables(s: Sys, l: nat)
    requires Typed(s) && TablesOk(s) && Roleless(s)
    ensures Conns(s, l) == (set id | id in s.table && s.table[id] == l)
    ensures !IsActive(s, l) ==> Conns(s, l) == {}
  {
    forall id ensures id in Conns(s, l) <==> id in s.table && s.table[id] == l {
      if id in s.table {
        assert !SomeClears(s, id) && !SomeRechecks(s, id);
      }
      if id in Conns(s, l) {
        assert !SomeInserts(s, id) && !SomeDropsWeak(s, id);
      }
    }
    assert !SomeDrain(s, l);
  }

  // ---------- registrations ----------

  lemma PublishedAreActive(schedule: Schedule, key: string)
    requires key in Run(INIT, schedule).published
    ensures var s := Run(INIT, schedule); IsActive(s, s.published[key]) && KeyOf(s, s.published[key]) == key
  {
    Reachable(schedule);
  }

  predicate Kept(s: Sys, key: string, l: nat) {
    key in s.published && s.published[key] == l
  }

  // The step unregisters the key, or is the first of a deactivation of that very instance.
  predicate Retracts(s: Sys, t: nat, a: Action, key: string, l: nat) {
    var pc := PcAt(s, t);
    || (pc.Idle? && a == Unregister(key))
    || (a.Advance? && pc.Deactivating? && pc.step.Unpublish? && pc.l == l)
  }

  lemma RetractedBy(s: Sys, t: nat, a: Action, key: string, l: nat)
    requires Kept(s, key, l) && KeyOf(s, l) == key
    ensures match Decide(s, t, a).effect
            case Retract(k, m) => k == key && m == l <==> Retracts(s, t, a, key, l)
            case NewListener(k) => k != key && !Retracts(s, t, a, key, l)
            case _ => !Retracts(s, t, a, key, l)
  {
  }

  lemma StepRetracts(s: Sys, t: nat, a: Action, key: string, l: nat)
    requires PublishedOk(s) && Kept(s, key, l)
    ensures Kept(Step(s, t, a), key, l) <==> !Retracts(s, t, a, key, l)
  {
    RetractedBy(s, t, a, key, l);
  }

  lemma GoneStaysGone(s: Sys, t: nat, a: Action, key: string, l: nat)
    requires l < |s.cells| && !Kept(s, key, l)
    ensures l < |Step(s, t, a).cells| && !Kept(Step(s, t, a), key, l)
  {
    EffectGone(s, Decide(s, t, a).effect, key, l);
  }

  // A new listener is a new instance.
  lemma EffectGone(s: Sys, e: Effect, key: string, l: nat)
    requires l < |s.cells| && !Kept(s, key, l)
    ensures l < |Perform(s, e).cells| && !Kept(Perform(s, e), key, l)
  {
  }

  lemma KeptStep(s: Sys, t: nat, a: Action, key: string, l: nat)
    requires Inv(s) && l < |s.cells|
    ensures l < |Step(s, t, a).cells|
    ensures Kept(Step(s, t, a), key, l) <==> Kept(s, key, l) && !Retracts(s, t, a, key, l)
  {
    if Kept(s, key, l) {
      StepRetracts(s, t, a, key, l);
      StepIsLater(s, t, a);
    } else {
      GoneStaysGone(s, t, a, key, l);
    }
  }

  // Some step of the schedule retracts the instance.
  predicate SomeRetracts(s: Sys, later: Schedule, key: string, l: nat)
    decreases |later|
  {
    later != [] &&
    var init, last := later[..|later| - 1], later[|later| - 1];
    SomeRetracts(s, init, key, l) || Retracts(Run(s, init), last.0, last.1, key, l)
  }

  lemma {:induction false} KeptIff(s: Sys, later: Schedule, key: string, l: nat)
    requires Inv(s) && Kept(s, key, l)
    ensures l < |Run(s, later).cells|
    ensures Kept(Run(s, later), key, l) <==> !SomeRetracts(s, later, key, l)
    decreases |later|
  {
    if later != [] {
      var init, last := later[..|later| - 1], later[|later| - 1];
      KeptIff(s, init, key, l);
      RunKeeps(s, init);
      KeptStep(Run(s, init), last.0, last.1, key, l);
    }
  }

  // Over every later schedule a registration lasts exactly until its key is unregistered or
  // that very instance is deactivated; deactivating a stale instance spares a newer one.
  lemma RegistrationLastsIff(schedule: Schedule, later: Schedule, key: string)
    requires key in Run(INIT, schedule).published
    ensures var s := Run(INIT, schedule);
            Kept(Run(s, later), key, s.published[key]) <==> !SomeRetracts(s, later, key, s.published[key])
  {
    Reachable(schedule);
    KeptIff(Run(INIT, schedule), later, key, Run(INIT, schedule).published[key]);
  }

  // ---------- connection ids ----------

  // An id drawn anywhere, under any key, is none that was ever drawn before; so a
  // socket state can be named by its id, and a table insert never overwrites.
  lemma IdsAreNeverReused(schedule: Schedule, l: nat)
    ensures var s := Run(INIT, schedule); ConnId(KeyOf(s, l), s.next) !in s.socks
  {
    Reachable(schedule);
    DrawnIdIsNew(Run(INIT, schedule), l);
  }

  lemma InsertNeverOverwrites(schedule: Schedule, t: nat)
    requires var pc := PcAt(Run(INIT, schedule), t); pc.Connecting? && pc.stage.Insert?
    ensures var s := Run(INIT, schedule); PcAt(s, t).id !in s.table
  {
    Reachable(schedule);
    assert EntryOk(Run(INIT, schedule), Run(INIT, schedule).ops[t]);
  }

  // ---------- after a deactivation ----------

  // Inactive, and no deactivation of this instance is still at work.
  predicate Finished(s: Sys, l: nat) {
    && l < |s.cells| && !IsActive(s, l)
    && forall t :: t in s.ops && s.ops[t].Deactivating? && s.ops[t].l == l ==>
         !s.ops[t].step.Drain? && !InLoop(s.ops[t])
  }

  // Nothing is attached to the instance and nobody holds one of its sockets unsettled.
  ghost predicate Dead(s: Sys, l: nat) {
    && l < |s.cells| && !IsActive(s, l) && Conns(s, l) == {}
    && forall t, id :: t in s.ops && Holds(s.ops[t], id) ==> !Known(s, id, l)
  }

  lemma FinishedIsDead(s: Sys, l: nat)
    requires Typed(s) && TablesOk(s) && Finished(s, l)
    ensures Dead(s, l)
  {
    forall t, id | t in s.ops && Holds(s.ops[t], id) ensures !Known(s, id, l) {
      assert PcTyped(s, s.ops[t]);
    }
  }

  // A thread comes to hold an id only by draining it.
  lemma HoldsFrom(s: Sys, t: nat, a: Action, id: Id)
    requires Holds(Decide(s, t, a).next, id)
    ensures var pc := PcAt(s, t);
            Holds(pc, id) || (pc.Deactivating? && pc.step.Drain? && id in Conns(s, pc.l))
  {
  }

  // Listeners never come back to life, and states keep their owner and stay settled.
  ghost predicate Later(s: Sys, s': Sys) {
    && |s.cells| <= |s'.cells|
    && (forall l: nat :: l < |s.cells| && !IsActive(s, l) ==> !IsActive(s', l))
    && (forall id :: id in s.socks ==>
          && id in s'.socks
          && s'.socks[id].owner == s.socks[id].owner
          && (Settled(s.socks[id]) ==> Settled(s'.socks[id])))
  }

  lemma EffectIsLater(s: Sys, e: Effect)
    requires e.PutSock? ==>
               e.sock.owner == SockOf(s, e.id).owner && (Settled(SockOf(s, e.id)) ==> Settled(e.sock))
    requires e.NewSock? ==> e.id !in s.socks
    ensures Later(s, Perform(s, e))
  {
  }

  lemma PutsKeepOwner(s: Sys, t: nat, a: Action)
    ensures var e := Decide(s, t, a).effect;
            e.PutSock? ==> e.sock.owner == SockOf(s, e.id).owner && (Settled(SockOf(s, e.id)) ==> Settled(e.sock))
  {
  }

  lemma EffectLater(s: Sys, t: nat, a: Action)
    requires IdsOk(s)
    ensures Later(s, Perform(s, Decide(s, t, a).effect))
  {
    PutsKeepOwner(s, t, a);
    var e := Decide(s, t, a).effect;
    if e.NewSock? {
      DrawnIdIsNew(s, e.l);
      DrawsFromSeq(s, t, a);
    }
    EffectIsLater(s, e);
  }

  lemma StepIsLater(s: Sys, t: nat, a: Action)
    requires IdsOk(s)
    ensures Later(s, Step(s, t, a))
  {
    EffectLater(s, t, a);
  }

  lemma DrawsFromSeq(s: Sys, t: nat, a: Action)
    ensures var e := Decide(s, t, a).effect; e.NewSock? ==> e.id == ConnId(KeyOf(s, e.l), s.next)
  {
  }

  lemma AttachesOnlyToActive(s: Sys, t: nat, a: Action)
    ensures var e := Decide(s, t, a).effect; e.AddWeak? ==> IsActive(s, e.l)
  {
  }

  lemma DeadConns(s: Sys, e: Effect, l: nat)
    requires Conns(s, l) == {} && (e.AddWeak? ==> e.l != l)
    ensures Conns(Perform(s, e), l) == {}
  {
  }

  lemma DeadMove(s: Sys, t: nat, m: Move, l: nat)
    requires Typed(s) && Dead(s, l) && Later(s, Perform(s, m.effect)) && (m.effect.AddWeak? ==> m.effect.l != l)
    requires forall id :: Holds(m.next, id) ==>
               var pc := PcAt(s, t); Holds(pc, id) || (pc.Deactivating? && id in Conns(s, pc.l))
    ensures Dead(After(s, t, m), l)
  {
    DeadConns(s, m.effect, l);
    DeadHolders(s, t, m, l);
  }

  lemma DeadHolders(s: Sys, t: nat, m: Move, l: nat)
    requires Typed(s) && Dead(s, l) && Later(s, Perform(s, m.effect))
    requires forall id :: Holds(m.next, id) ==>
               var pc := PcAt(s, t); Holds(pc, id) || (pc.Deactivating? && id in Conns(s, pc.l))
    ensures var s' := After(s, t, m);
            forall u, id :: u in s'.ops && Holds(s'.ops[u], id) ==> !Known(s', id, l)
  {
    var s' := After(s, t, m);
    assert s'.ops == s.ops[t := m.next];
    forall u, id | u in s'.ops && Holds(s'.ops[u], id) ensures !Known(s', id, l) {
      var pc := PcAt(s, u);
      assert PcTyped(s, pc);
      assert Holds(pc, id) || (pc.Deactivating? && id in Conns(s, pc.l));
    }
  }

  lemma DeadStays(s: Sys, t: nat, a: Action, l: nat)
    requires Typed(s) && IdsOk(s) && Dead(s, l)
    ensures Dead(Step(s, t, a), l)
  {
    forall id | Holds(Decide(s, t, a).next, id)
      ensures var pc := PcAt(s, t); Holds(pc, id) || (pc.Deactivating? && id in Conns(s, pc.l))
    {
      HoldsFrom(s, t, a, id);
    }
    EffectLater(s, t, a);
    AttachesOnlyToActive(s, t, a);
    DeadMove(s, t, Decide(s, t, a), l);
  }

  lemma {:induction false} DeadForever(s: Sys, later: Schedule, l: nat)
    requires Inv(s) && Dead(s, l)
    ensures Inv(Run(s, later)) && Dead(Run(s, later), l)
    decreases |later|
  {
    if later != [] {
      var rest := later[..|later| - 1];
      DeadForever(s, rest, l);
      var (t, a) := later[|later| - 1];
      StepKeeps(Run(s, rest), t, a);
      DeadStays(Run(s, rest), t, a, l);
    }
  }

  predicate IsReusable(s: Sys, id: Id)
    requires id in s.socks
  {
    IsActive(s, s.socks[id].owner) && !s.socks[id].closed
  }

  // Once the deactivation of an instance has finished, then for ever after, whatever
  // is registered under its key: a socket of the instance that was not shut down
  // locally answers every read at once, and none of its sockets is reusable.
  lemma DeactivationIsFinal(schedule: Schedule, later: Schedule, l: nat, id: Id)
    requires Finished(Run(INIT, schedule), l)
    requires Known(Run(Run(INIT, schedule), later), id, l) && Run(Run(INIT, schedule), later).socks[id].handed
    ensures var s := Run(Run(INIT, schedule), later);
            && !IsReusable(s, id)
            && (!s.socks[id].shut ==>
                  forall held: nat, room: nat :: SS.Answer(s.socks[id].stream, held, room) != SS.Pending)
  {
    var s0 := Run(INIT, schedule);
    Reachable(schedule);
    FinishedIsDead(s0, l);
    DeadForever(s0, later, l);
    DeadIsSettled(Run(s0, later), l, id);
  }

  lemma DeadIsSettled(s: Sys, l: nat, id: Id)
    requires SettlingOk(s) && Dead(s, l) && Known(s, id, l) && s.socks[id].handed
    ensures Settled(s.socks[id])
  {
    assert Doomed(s, id);
  }

  // A write passes the active check only while the socket's listener is active.
  lemma WritesNeedActive(s: Sys, t: nat, a: Action, id: Id)
    requires Decide(s, t, a).next == Calling(WriteCall, id)
    ensures PcAt(s, t) == Calling(WriteCall, id) || IsActive(s, SockOf(s, id).owner)
    ensures PcAt(s, t).Calling? && PcAt(s, t).id == id
  {
  }

  lemma WriteStaysOut(s: Sys, u: nat, a: Action, t: nat, l: nat, id: Id)
    requires Typed(s) && IdsOk(s) && l < |s.cells| && !IsActive(s, l)
    requires !(PcAt(s, t) == Calling(WriteCall, id) && Known(s, id, l))
    ensures !(PcAt(Step(s, u, a), t) == Calling(WriteCall, id) && Known(Step(s, u, a), id, l))
  {
    var m := Decide(s, u, a);
    EffectLater(s, u, a);
    if u == t && m.next == Calling(WriteCall, id) {
      WritesNeedActive(s, t, a, id);
    }
    WriteMove(s, u, m, t, l, id);
  }

  lemma WriteMove(s: Sys, u: nat, m: Move, t: nat, l: nat, id: Id)
    requires Typed(s) && Later(s, Perform(s, m.effect)) && l < |s.cells| && !IsActive(s, l)
    requires !(PcAt(s, t) == Calling(WriteCall, id) && Known(s, id, l))
    requires u == t && m.next == Calling(WriteCall, id) ==>
               && PcAt(s, t).Calling? && PcAt(s, t).id == id
               && (PcAt(s, t) == m.next || IsActive(s, SockOf(s, id).owner))
    ensures var s' := After(s, u, m); !(PcAt(s', t) == Calling(WriteCall, id) && Known(s', id, l))
  {
    assert t in s.ops ==> PcTyped(s, s.ops[t]);
  }

  // From the moment a listener instance is inactive, no write on one of its sockets
  // that was not already past its check ever reaches the callback, so it fails.
  lemma {:induction false} WritesFailAfterwards(schedule: Schedule, later: Schedule, t: nat, l: nat, id: Id)
    requires var s := Run(INIT, schedule);
             l < |s.cells| && !IsActive(s, l) && !(PcAt(s, t) == Calling(WriteCall, id) && Known(s, id, l))
    ensures var s := Run(Run(INIT, schedule), later);
            !(PcAt(s, t) == Calling(WriteCall, id) && Known(s, id, l)) && l < |s.cells| && !IsActive(s, l)
    decreases |later|
  {
    if later != [] {
      var s0 := Run(INIT, schedule);
      var rest := later[..|later| - 1];
      var (u, a) := later[|later| - 1];
      WritesFailAfterwards(schedule, rest, t, l, id);
      Reachable(schedule);
      RunKeeps(s0, rest);
      WriteStaysOut(Run(s0, rest), u, a, t, l, id);
      StepIsLater(Run(s0, rest), u, a);
    }
  }
}
