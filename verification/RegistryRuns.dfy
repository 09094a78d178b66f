/** Each kind of operation takes only steps that keep the invariant; so does every run. */
module RegistryRuns {
  import opened Registry
  import opened RegistryInvariant
  import opened RegistrySteps
  import opened RegistryTableSteps

  // Program counters without a duty of the kind only some steps may give up.
  predicate Plain(pc: Pc) {
    && !(pc.Connecting? && (pc.stage.Attach? || pc.stage.Insert?))
    && !(pc.Detaching? && pc.removed)
    && !(pc.Deactivating? && (pc.step.Drain? || pc.step.LoopWeak?))
  }

  lemma PlainMove(s: Sys, t: nat, next: Pc)
    requires OwnersOk(s) && PcTyped(s, next) && LateDeactivation(s, next) && DetachOk(s, next)
    requires Plain(PcAt(s, t)) && Plain(next)
    requires forall id :: Owns(next, id) ==> t in s.ops && Owns(s.ops[t], id)
    requires forall id :: Holds(PcAt(s, t), id) ==> Holds(next, id) || (id in s.socks && Settled(s.socks[id]))
    requires forall id :: Clears(PcAt(s, t), id) ==> Clears(next, id) || id !in s.table
    requires forall id :: Rechecks(PcAt(s, t), id) ==>
               Rechecks(next, id) || id !in s.table || id in Conns(s, s.table[id])
    ensures QuietMove(s, t, next)
  {
    MoveViews(s, t, next);
  }

  // The listener went inactive before the attach: the new state is left to nobody.
  lemma AttachRefused(s: Sys, t: nat)
    requires Typed(s) && TablesOk(s) && OwnersOk(s) && EntriesOk(s)
    requires t in s.ops && s.ops[t].Connecting? && s.ops[t].stage.Attach?
    ensures QuietMove(s, t, Idle)
  {
    var pc := s.ops[t];
    assert PcTyped(s, pc) && EntryOk(s, pc);
    MoveViews(s, t, Idle);
    assert forall m: nat :: pc.id !in Conns(s, m);
  }

  lemma ConnectingQuiet(s: Sys, t: nat, answer: Callback)
    requires Typed(s) && TablesOk(s) && OwnersOk(s) && EntriesOk(s)
    requires t in s.ops && s.ops[t].Connecting? && !s.ops[t].stage.Attach?
    requires DecideConnecting(s, s.ops[t].stage, s.ops[t].l, s.ops[t].id, answer).effect.Nothing?
    ensures QuietMove(s, t, DecideConnecting(s, s.ops[t].stage, s.ops[t].l, s.ops[t].id, answer).next)
  {
    var pc := s.ops[t];
    var next := DecideConnecting(s, pc.stage, pc.l, pc.id, answer).next;
    assert PcTyped(s, pc) && EntryOk(s, pc);
    PlainMove(s, t, next);
  }

  lemma RefusalKeeps(s: Sys, t: nat)
    requires Inv(s) && t in s.ops && s.ops[t].Connecting? && s.ops[t].stage.Attach?
    ensures Inv(MoveTo(s, t, Idle))
  {
    AttachRefused(s, t);
    QuietKeeps(s, t, Idle);
  }

  lemma WaitingConnectKeeps(s: Sys, t: nat, answer: Callback)
    requires Inv(s) && t in s.ops && s.ops[t].Connecting? && !s.ops[t].stage.Attach?
    requires DecideConnecting(s, s.ops[t].stage, s.ops[t].l, s.ops[t].id, answer).effect.Nothing?
    ensures Inv(MoveTo(s, t, DecideConnecting(s, s.ops[t].stage, s.ops[t].l, s.ops[t].id, answer).next))
  {
    ConnectingQuiet(s, t, answer);
    QuietKeeps(s, t, DecideConnecting(s, s.ops[t].stage, s.ops[t].l, s.ops[t].id, answer).next);
  }

  // What each stage does, apart from why it keeps the invariant.
  lemma ConnectingMoves(s: Sys, stage: ConnStage, l: nat, id: Id, answer: Callback)
    ensures var m := DecideConnecting(s, stage, l, id, answer);
            if stage.Attach? then m == if IsActive(s, l) then Move(AddWeak(l, id), Connecting(Insert, l, id)) else STOP
            else if stage.Insert? then m == Move(AddEntry(id, l), Connecting(Recheck, l, id))
            else if stage.Fetch? && id in s.table then m == Move(HandOut(id), Idle)
            else m.effect.Nothing?
  {
  }

  lemma ConnectingKeeps(s: Sys, t: nat, stage: ConnStage, l: nat, id: Id, answer: Callback)
    requires Inv(s) && t in s.ops && s.ops[t] == Connecting(stage, l, id)
    ensures Inv(After(s, t, DecideConnecting(s, stage, l, id, answer)))
  {
    ConnectingMoves(s, stage, l, id, answer);
    if stage.Attach? {
      if IsActive(s, l) {
        AttachKeeps(s, t, l, id);
      } else {
        RefusalKeeps(s, t);
      }
    } else if stage.Insert? {
      InsertKeeps(s, t, l, id);
    } else if stage.Fetch? && id in s.table {
      FetchKeeps(s, t, l, id);
    } else {
      WaitingConnectKeeps(s, t, answer);
    }
  }

  lemma StayKeeps(s: Sys, t: nat)
    requires Inv(s) && t in s.ops
    ensures Inv(After(s, t, Quiet(s.ops[t])))
  {
    assert s.ops[t := s.ops[t]] == s.ops;
  }

  // ---------- connect before it has an id, detach_socket_state ----------

  lemma StartingKeeps(s: Sys, t: nat, l: nat, checked: bool)
    requires Inv(s) && t in s.ops && s.ops[t] == Starting(l, checked)
    ensures Inv(After(s, t, DecideStarting(s, l, checked)))
  {
    if checked {
      NewSockKeeps(s, t, l);
    } else {
      var next := DecideStarting(s, l, checked).next;
      assert PcTyped(s, s.ops[t]);
      PlainMove(s, t, next);
      QuietKeeps(s, t, next);
    }
  }

  lemma DetachingKeeps(s: Sys, t: nat, removed: bool, id: Id, failing: bool)
    requires Inv(s) && t in s.ops && s.ops[t] == Detaching(removed, id, failing)
    ensures Inv(After(s, t, DecideDetaching(s, removed, id, failing)))
  {
    assert PcTyped(s, s.ops[t]);
    if removed {
      DropKeeps(s, t, Idle, s.socks[id].owner, id);
    } else if id in s.table {
      RemoveKeeps(s, t, Detaching(true, id, failing), id);
    } else {
      PlainMove(s, t, Idle);
      QuietKeeps(s, t, Idle);
    }
  }

  // ---------- deactivation ----------

  lemma UnpublishMove(s: Sys, t: nat)
    requires Typed(s) && PublishedOk(s) && OwnersOk(s)
    requires t in s.ops && s.ops[t].Deactivating? && s.ops[t].step.Unpublish?
    ensures QuietMove(Perform(s, Retract(KeyOf(s, s.ops[t].l), s.ops[t].l)), t, s.ops[t].(step := ClearActive))
  {
    var pc := s.ops[t];
    var s1 := Perform(s, Retract(KeyOf(s, pc.l), pc.l));
    assert PcTyped(s, pc);
    PlainMove(s1, t, pc.(step := ClearActive));
  }

  lemma AbortMove(s: Sys, t: nat, k: Sock, next: Pc)
    requires Typed(s) && PublishedOk(s) && OwnersOk(s) && t in s.ops && s.ops[t].Deactivating?
    requires var pc := s.ops[t];
             || (pc.step.AbortClose? && next == pc.(step := AbortLock))
             || (pc.step.AbortLock? && next == pc.(step := LoopEntry) && Settled(k))
    requires s.ops[t].id in s.socks && SockStep(s, s.ops[t].id, k) && k.handed == s.socks[s.ops[t].id].handed
    ensures QuietMove(Perform(s, PutSock(s.ops[t].id, k)), t, next)
  {
    var s1 := Perform(s, PutSock(s.ops[t].id, k));
    assert PcTyped(s, s.ops[t]) && LateDeactivation(s, s.ops[t]);
    assert OwnersOk(s1);
    PlainMove(s1, t, next);
  }

  lemma AbortKeeps(s: Sys, t: nat)
    requires Inv(s) && t in s.ops && s.ops[t].Deactivating? && (s.ops[t].step.AbortClose? || s.ops[t].step.AbortLock?)
    ensures Inv(After(s, t, DecideDeactivating(s, s.ops[t])))
  {
    var m := DecideDeactivating(s, s.ops[t]);
    var id := s.ops[t].id;
    assert PcTyped(s, s.ops[t]);
    assert SomeHolds(s, id) by { assert Holds(s.ops[t], id); }
    EffectKeeps(s, m.effect);
    AbortMove(s, t, m.effect.sock, m.next);
    QuietKeeps(Perform(s, m.effect), t, m.next);
  }

  lemma ResumeKeeps(s: Sys, t: nat)
    requires Inv(s) && t in s.ops && s.ops[t].Deactivating? && s.ops[t].step.Loop? && s.ops[t].todo == {}
    ensures Inv(After(s, t, Resume(s.ops[t].k)))
  {
    assert PcTyped(s, s.ops[t]);
    PlainMove(s, t, Resume(s.ops[t].k).next);
    QuietKeeps(s, t, Resume(s.ops[t].k).next);
  }

  lemma SkipEntryKeeps(s: Sys, t: nat)
    requires Inv(s) && t in s.ops && s.ops[t].Deactivating? && s.ops[t].step.LoopEntry? && s.ops[t].id !in s.table
    ensures Inv(MoveTo(s, t, s.ops[t].(step := Loop)))
  {
    assert PcTyped(s, s.ops[t]) && LateDeactivation(s, s.ops[t]);
    PlainMove(s, t, s.ops[t].(step := Loop));
    QuietKeeps(s, t, s.ops[t].(step := Loop));
  }

  lemma DeactivatingKeeps(s: Sys, t: nat)
    requires Inv(s) && t in s.ops && s.ops[t].Deactivating?
    ensures Inv(After(s, t, DecideDeactivating(s, s.ops[t])))
  {
    var pc := s.ops[t];
    match pc.step
    case Unpublish =>
      EffectKeeps(s, Retract(KeyOf(s, pc.l), pc.l));
      UnpublishMove(s, t);
      QuietKeeps(Perform(s, Retract(KeyOf(s, pc.l), pc.l)), t, pc.(step := ClearActive));
    case ClearActive => FlagKeeps(s, t);
    case Drain =>
      WeaksUpgrade(s, pc.l);
      assert (set c | c in Conns(s, pc.l) && Alive(s, c)) == Conns(s, pc.l);
      DrainKeeps(s, t, DecideDeactivating(s, pc).next);
    case Loop => if pc.todo == {} { ResumeKeeps(s, t); } else { StayKeeps(s, t); }
    case AbortClose => AbortKeeps(s, t);
    case AbortLock => AbortKeeps(s, t);
    case LoopEntry =>
      if pc.id in s.table { RemoveKeeps(s, t, pc.(step := LoopWeak), pc.id); } else { SkipEntryKeeps(s, t); }
    case LoopWeak =>
      assert PcTyped(s, pc);
      DropKeeps(s, t, pc.(step := Loop), pc.l, pc.id);
  }

  lemma PickKeeps(s: Sys, t: nat, id: Id)
    requires Inv(s) && t in s.ops && s.ops[t].Deactivating? && s.ops[t].step.Loop? && id in s.ops[t].todo
    ensures Inv(MoveTo(s, t, s.ops[t].(step := AbortClose, id := id, todo := s.ops[t].todo - {id})))
  {
    var next := s.ops[t].(step := AbortClose, id := id, todo := s.ops[t].todo - {id});
    PickMove(s, t, id, next);
    QuietKeeps(s, t, next);
  }

  lemma PickMove(s: Sys, t: nat, id: Id, next: Pc)
    requires Typed(s) && PublishedOk(s) && OwnersOk(s) && SettlingOk(s)
    requires t in s.ops && s.ops[t].Deactivating? && s.ops[t].step.Loop? && id in s.ops[t].todo
    requires next == s.ops[t].(step := AbortClose, id := id, todo := s.ops[t].todo - {id})
    ensures QuietMove(s, t, next)
  {
    assert PcTyped(s, s.ops[t]) && LateDeactivation(s, s.ops[t]);
    PlainMove(s, t, next);
  }

  // ---------- socket operations and pushes ----------

  lemma CallingQuiet(s: Sys, t: nat, call: CallStage, id: Id, answer: Callback)
    requires Typed(s) && PublishedOk(s) && OwnersOk(s) && SettlingOk(s)
    requires t in s.ops && s.ops[t] == Calling(call, id) && !call.ShutMark?
    ensures QuietMove(s, t, DecideCalling(s, call, id, answer).next)
  {
    assert PcTyped(s, s.ops[t]) && DetachOk(s, s.ops[t]);
    PlainMove(s, t, DecideCalling(s, call, id, answer).next);
  }

  // A state changed in place, on the way to a program counter without duties.
  lemma PutMove(s: Sys, t: nat, id: Id, k: Sock, next: Pc)
    requires OwnersOk(s) && SettlingOk(s) && id in s.socks && SockStep(s, id, k) && k.handed == s.socks[id].handed
    requires PcAt(s, t).Calling? || PcAt(s, t).Pushing?
    requires next.Idle? || (next == Detaching(false, id, false) && Settled(k))
             || (next.Calling? && next.id == id && Settled(k))
    ensures QuietMove(Perform(s, PutSock(id, k)), t, next)
  {
    var s1 := Perform(s, PutSock(id, k));
    assert OwnersOk(s1);
    PlainMove(s1, t, next);
  }

  lemma ShutMarkKeeps(s: Sys, t: nat, id: Id)
    requires Inv(s) && t in s.ops && s.ops[t] == Calling(ShutMark, id)
    ensures Inv(After(s, t, DecideCalling(s, ShutMark, id, CallOk)))
  {
    var m := DecideCalling(s, ShutMark, id, CallOk);
    assert PcTyped(s, s.ops[t]);
    EffectKeeps(s, m.effect);
    PutMove(s, t, id, m.effect.sock, m.next);
    QuietKeeps(Perform(s, m.effect), t, m.next);
  }

  lemma CallingKeeps(s: Sys, t: nat, call: CallStage, id: Id, answer: Callback)
    requires Inv(s) && t in s.ops && s.ops[t] == Calling(call, id)
    ensures Inv(After(s, t, DecideCalling(s, call, id, answer)))
  {
    if call.ShutMark? {
      ShutMarkKeeps(s, t, id);
    } else {
      CallingQuiet(s, t, call, id, answer);
      QuietKeeps(s, t, DecideCalling(s, call, id, answer).next);
    }
  }

  lemma PushingKeeps(s: Sys, t: nat, locking: bool, id: Id, ev: Event)
    requires Inv(s) && t in s.ops && s.ops[t] == Pushing(locking, id, ev)
    ensures Inv(After(s, t, DecidePushing(s, locking, id, ev)))
  {
    var m := DecidePushing(s, locking, id, ev);
    assert PcTyped(s, s.ops[t]);
    if locking {
      EffectKeeps(s, m.effect);
      PutMove(s, t, id, m.effect.sock, m.next);
      QuietKeeps(Perform(s, m.effect), t, m.next);
    } else {
      PushQuiet(s, t, id, ev);
      QuietKeeps(s, t, m.next);
    }
  }

  lemma PushQuiet(s: Sys, t: nat, id: Id, ev: Event)
    requires Typed(s) && PublishedOk(s) && OwnersOk(s) && SettlingOk(s)
    requires t in s.ops && s.ops[t] == Pushing(false, id, ev)
    ensures QuietMove(s, t, DecidePushing(s, false, id, ev).next)
  {
    assert PcTyped(s, s.ops[t]);
    PlainMove(s, t, DecidePushing(s, false, id, ev).next);
  }

  // ---------- beginnings ----------

  lemma BeginQuiet(s: Sys, t: nat, a: Action)
    requires Typed(s) && PublishedOk(s) && OwnersOk(s)
    requires PcAt(s, t).Idle? && DecideBegin(s, a).effect.Nothing?
    ensures QuietMove(s, t, DecideBegin(s, a).next)
  {
    PlainMove(s, t, DecideBegin(s, a).next);
  }

  lemma UnregisterKeeps(s: Sys, t: nat, key: string)
    requires Inv(s) && PcAt(s, t).Idle? && key in s.published
    ensures Inv(After(s, t, DecideBegin(s, Unregister(key))))
  {
    var m := DecideBegin(s, Unregister(key));
    EffectKeeps(s, m.effect);
    UnregisterMove(s, t, key);
    QuietKeeps(Perform(s, m.effect), t, m.next);
  }

  lemma UnregisterMove(s: Sys, t: nat, key: string)
    requires Typed(s) && PublishedOk(s) && OwnersOk(s) && PcAt(s, t).Idle? && key in s.published
    ensures QuietMove(Perform(s, Retract(key, s.published[key])), t, DecideBegin(s, Unregister(key)).next)
  {
    PlainMove(Perform(s, Retract(key, s.published[key])), t, DecideBegin(s, Unregister(key)).next);
  }

  // One-step actions: they write, and their thread stays idle.
  lemma AtOnceKeeps(s: Sys, t: nat, a: Action)
    requires Inv(s) && PcAt(s, t).Idle? && (a.Register? || a.Read? || a.DropSocket?)
    ensures Inv(After(s, t, DecideBegin(s, a)))
  {
    var m := DecideBegin(s, a);
    if !m.effect.Nothing? {
      assert a.Read? ==> a.id in s.socks;
      EffectKeeps(s, m.effect);
    }
    IdleMove(Perform(s, m.effect), t);
    QuietKeeps(Perform(s, m.effect), t, Idle);
  }

  lemma IdleMove(s: Sys, t: nat)
    requires OwnersOk(s) && PcAt(s, t).Idle?
    ensures QuietMove(s, t, Idle)
  {
    PlainMove(s, t, Idle);
  }

  lemma BeginKeeps(s: Sys, t: nat, a: Action)
    requires Inv(s) && PcAt(s, t).Idle?
    ensures Inv(After(s, t, DecideBegin(s, a)))
  {
    if a.Register? || a.Read? || a.DropSocket? {
      AtOnceKeeps(s, t, a);
    } else if a.Unregister? && a.key in s.published {
      UnregisterKeeps(s, t, a.key);
    } else {
      BeginQuiet(s, t, a);
      QuietKeeps(s, t, DecideBegin(s, a).next);
    }
  }

  // ---------- every step, every run ----------

  lemma CancelKeeps(s: Sys, t: nat)
    requires Inv(s) && t in s.ops && s.ops[t].Connecting? && s.ops[t].stage.Open?
    ensures Inv(MoveTo(s, t, Idle))
  {
    PlainMove(s, t, Idle);
    QuietKeeps(s, t, Idle);
  }

  lemma AdvanceKeeps(s: Sys, t: nat, answer: Callback)
    requires Inv(s) && t in s.ops && !s.ops[t].Idle?
    ensures Inv(After(s, t, DecideAdvance(s, s.ops[t], answer)))
  {
    match s.ops[t]
    case Starting(l, checked) => StartingKeeps(s, t, l, checked);
    case Connecting(stage, l, id) => ConnectingKeeps(s, t, stage, l, id, answer);
    case Detaching(removed, id, failing) => DetachingKeeps(s, t, removed, id, failing);
    case Deactivating(_, _, _, _, _) => DeactivatingKeeps(s, t);
    case Calling(call, id) => CallingKeeps(s, t, call, id, answer);
    case Pushing(locking, id, ev) => PushingKeeps(s, t, locking, id, ev);
  }

  lemma OtherKeeps(s: Sys, t: nat, a: Action)
    requires Inv(s) && t in s.ops && !s.ops[t].Idle?
    ensures Inv(After(s, t, DecideOther(s.ops[t], a)))
  {
    var pc := s.ops[t];
    if a.Pick? && pc.Deactivating? && pc.step.Loop? && a.id in pc.todo {
      PickKeeps(s, t, a.id);
    } else if a.CancelConnect? && pc.Connecting? && pc.stage.Open? {
      CancelKeeps(s, t);
    } else {
      StayKeeps(s, t);
    }
  }

  lemma StepKeeps(s: Sys, t: nat, a: Action)
    requires Inv(s)
    ensures Inv(Step(s, t, a))
  {
    if PcAt(s, t).Idle? {
      BeginKeeps(s, t, a);
    } else if a.Advance? {
      AdvanceKeeps(s, t, a.answer);
    } else {
      OtherKeeps(s, t, a);
    }
  }

  // The state after a schedule: which thread moves, and what it does.
  function Run(s: Sys, schedule: seq<(nat, Action)>): Sys
    decreases |schedule|
  {
    if schedule == [] then s
    else
      var rest := schedule[..|schedule| - 1];
      var (t, a) := schedule[|schedule| - 1];
      Step(Run(s, rest), t, a)
  }

  lemma {:induction false} RunKeeps(s: Sys, schedule: seq<(nat, Action)>)
    requires Inv(s)
    ensures Inv(Run(s, schedule))
    decreases |schedule|
  {
    if schedule != [] {
      RunKeeps(s, schedule[..|schedule| - 1]);
      var (t, a) := schedule[|schedule| - 1];
      StepKeeps(Run(s, schedule[..|schedule| - 1]), t, a);
    }
  }
}
