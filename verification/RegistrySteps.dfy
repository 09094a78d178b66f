/** Every atomic step of the registry protocol keeps the invariant. */
module RegistrySteps {
  import opened ConnIds
  import opened Registry
  import opened RegistryInvariant

  // ---------- roles under the move of one thread ----------

  lemma RolesMove(s: Sys, s': Sys, t: nat)
    requires t in s'.ops && s'.ops == s.ops[t := s'.ops[t]]
    ensures forall id :: SomeHolds(s, id) ==> SomeHolds(s', id) || Holds(PcAt(s, t), id)
    ensures forall id :: SomeClears(s, id) ==> SomeClears(s', id) || Clears(PcAt(s, t), id)
    ensures forall id :: SomeInserts(s, id) ==> SomeInserts(s', id) || Inserts(PcAt(s, t), id)
    ensures forall id :: SomeInserts(s', id) ==> SomeInserts(s, id) || Inserts(s'.ops[t], id)
    ensures forall id :: SomeDropsWeak(s, id) ==> SomeDropsWeak(s', id) || DropsWeak(PcAt(s, t), id)
    ensures forall id :: SomeRechecks(s, id) ==> SomeRechecks(s', id) || Rechecks(PcAt(s, t), id)
    ensures forall l: nat :: SomeDrain(s, l) ==> SomeDrain(s', l) || Draining(PcAt(s, t), l)
  {
    forall id | SomeHolds(s, id) && !SomeHolds(s', id) ensures Holds(PcAt(s, t), id) {
      var u :| u in s.ops && Holds(s.ops[u], id);
      assert u in s'.ops;
    }
    forall id | SomeClears(s, id) && !SomeClears(s', id) ensures Clears(PcAt(s, t), id) {
      var u :| u in s.ops && Clears(s.ops[u], id);
      assert u in s'.ops;
    }
    forall id | SomeInserts(s, id) && !SomeInserts(s', id) ensures Inserts(PcAt(s, t), id) {
      var u :| u in s.ops && Inserts(s.ops[u], id);
      assert u in s'.ops;
    }
    forall id | SomeInserts(s', id) && !SomeInserts(s, id) ensures Inserts(s'.ops[t], id) {
      var u :| u in s'.ops && Inserts(s'.ops[u], id);
      assert u != t ==> u in s.ops;
    }
    forall id | SomeDropsWeak(s, id) && !SomeDropsWeak(s', id) ensures DropsWeak(PcAt(s, t), id) {
      var u :| u in s.ops && DropsWeak(s.ops[u], id);
      assert u in s'.ops;
    }
    forall id | SomeRechecks(s, id) && !SomeRechecks(s', id) ensures Rechecks(PcAt(s, t), id) {
      var u :| u in s.ops && Rechecks(s.ops[u], id);
      assert u in s'.ops;
    }
    forall l: nat | SomeDrain(s, l) && !SomeDrain(s', l) ensures Draining(PcAt(s, t), l) {
      var u :| u in s.ops && Draining(s.ops[u], l);
      assert u in s'.ops;
    }
  }

  // A move changes no view of the shared state.
  lemma MoveViews(s: Sys, t: nat, next: Pc)
    ensures var s' := MoveTo(s, t, next);
            && (forall l: nat :: Conns(s', l) == Conns(s, l))
            && (forall l: nat :: IsActive(s', l) == IsActive(s, l))
            && (forall l: nat, id :: Known(s', id, l) == Known(s, id, l))
            && s'.ops == s.ops[t := next]
  {
  }

  // A write that is no move changes no role.
  lemma SameRoles(s: Sys, s': Sys)
    requires s'.ops == s.ops
    ensures forall c :: SomeHolds(s', c) == SomeHolds(s, c)
    ensures forall c :: SomeClears(s', c) == SomeClears(s, c)
    ensures forall c :: SomeInserts(s', c) == SomeInserts(s, c)
    ensures forall c :: SomeDropsWeak(s', c) == SomeDropsWeak(s, c)
    ensures forall c :: SomeRechecks(s', c) == SomeRechecks(s, c)
    ensures forall l: nat :: SomeDrain(s', l) == SomeDrain(s, l)
  {
  }

  lemma IdsKept(s: Sys, s': Sys)
    requires IdsOk(s) && s.next <= s'.next && s'.socks.Keys == s.socks.Keys
    requires forall id :: id in s.socks ==> s'.socks[id].owner == s.socks[id].owner
    requires forall id :: id in s.socks ==> s.socks[id].owner < |s.cells|
    requires forall l: nat :: l < |s.cells| ==> KeyOf(s', l) == KeyOf(s, l)
    ensures IdsOk(s')
  {
    forall id | id in s'.socks ensures IdDrawn(s', id) {
      assert IdDrawn(s, id);
      var n: nat :| n < s.next && id == ConnId(KeyOf(s, s.socks[id].owner), n);
      assert n < s'.next && id == ConnId(KeyOf(s', s'.socks[id].owner), n);
    }
  }

  // ---------- moves: what each part of the invariant asks of them ----------

  // The duties the tables rely on are kept or no longer needed.
  ghost predicate TablesMove(s: Sys, pc: Pc, next: Pc) {
    && (forall id :: Clears(pc, id) ==> Clears(next, id) || id !in s.table)
    && (forall id :: Rechecks(pc, id) ==> Rechecks(next, id) || id !in s.table || id in Conns(s, s.table[id]))
    && (forall id, l: nat :: Inserts(pc, id) && id in Conns(s, l) ==> Inserts(next, id) || id in s.table)
    && (forall id, l: nat :: DropsWeak(pc, id) && id in Conns(s, l) ==> DropsWeak(next, id) || id in s.table)
    && (forall l: nat :: !Draining(pc, l))
  }

  ghost predicate OwnersMove(s: Sys, t: nat, next: Pc) {
    forall id :: Owns(next, id) ==>
      && id in s.socks && !s.socks[id].handed
      && forall u :: u in s.ops && u != t ==> !Owns(s.ops[u], id)
  }

  ghost predicate EntriesMove(s: Sys, t: nat, next: Pc) {
    && EntryOk(MoveTo(s, t, next), next)
    && (forall id, u :: Inserts(next, id) && u in s.ops && u != t ==> !DropsWeak(s.ops[u], id))
  }

  ghost predicate SettlingMove(s: Sys, pc: Pc, next: Pc) {
    && DetachOk(s, next)
    && (forall id :: Holds(pc, id) ==> Holds(next, id) || (id in s.socks && Settled(s.socks[id])))
  }

  lemma MoveTyped(s: Sys, t: nat, next: Pc)
    requires Typed(s) && PcTyped(s, next)
    ensures Typed(MoveTo(s, t, next))
  {
    var s' := MoveTo(s, t, next);
    MoveViews(s, t, next);
    forall u | u in s'.ops ensures PcTyped(s', s'.ops[u]) {
      assert PcTyped(s, s'.ops[u]);
    }
  }

  lemma MovePublished(s: Sys, t: nat, next: Pc)
    requires PublishedOk(s) && LateDeactivation(s, next)
    ensures PublishedOk(MoveTo(s, t, next))
  {
    var s' := MoveTo(s, t, next);
    forall u | u in s'.ops ensures LateDeactivation(s', s'.ops[u]) {
      assert LateDeactivation(s, s'.ops[u]);
    }
  }

  lemma MoveTables(s: Sys, t: nat, next: Pc)
    requires TablesOk(s) && TablesMove(s, PcAt(s, t), next)
    ensures TablesOk(MoveTo(s, t, next))
  {
    MoveViews(s, t, next);
    RolesMove(s, MoveTo(s, t, next), t);
  }

  lemma MoveOwners(s: Sys, t: nat, next: Pc)
    requires OwnersOk(s) && OwnersMove(s, t, next)
    ensures OwnersOk(MoveTo(s, t, next))
  {
  }

  lemma MoveEntries(s: Sys, t: nat, next: Pc)
    requires EntriesMove(s, t, next)
    requires forall u :: u in s.ops && u != t ==> EntryOk(s, s.ops[u])
    ensures EntriesOk(MoveTo(s, t, next))
  {
    var s' := MoveTo(s, t, next);
    MoveViews(s, t, next);
    RolesMove(s, s', t);
    forall u | u in s'.ops ensures EntryOk(s', s'.ops[u]) {
      assert u != t ==> EntryOk(s, s.ops[u]);
    }
  }

  lemma MoveSettling(s: Sys, t: nat, next: Pc)
    requires SettlingOk(s) && SettlingMove(s, PcAt(s, t), next)
    ensures SettlingOk(MoveTo(s, t, next))
  {
    MoveViews(s, t, next);
    RolesMove(s, MoveTo(s, t, next), t);
  }

  ghost predicate QuietMove(s: Sys, t: nat, next: Pc) {
    && PcTyped(s, next) && LateDeactivation(s, next)
    && TablesMove(s, PcAt(s, t), next) && OwnersMove(s, t, next)
    && EntriesMove(s, t, next) && SettlingMove(s, PcAt(s, t), next)
  }

  // The invariant, except that thread `t` may be halfway between two program counters.
  ghost predicate InvBut(s: Sys, t: nat) {
    && Typed(s) && PublishedOk(s) && TablesOk(s) && OwnersOk(s) && SettlingOk(s) && IdsOk(s)
    && (forall u :: u in s.ops && u != t ==> EntryOk(s, s.ops[u]))
  }

  lemma MoveIds(s: Sys, t: nat, next: Pc)
    requires Typed(s) && IdsOk(s)
    ensures IdsOk(MoveTo(s, t, next))
  {
    IdsKept(s, MoveTo(s, t, next));
  }

  lemma QuietKeeps(s: Sys, t: nat, next: Pc)
    requires InvBut(s, t) && QuietMove(s, t, next)
    ensures Inv(MoveTo(s, t, next))
  {
    MoveTyped(s, t, next);
    MovePublished(s, t, next);
    MoveTables(s, t, next);
    MoveOwners(s, t, next);
    MoveEntries(s, t, next);
    MoveSettling(s, t, next);
    MoveIds(s, t, next);
  }

  // ---------- writes that leave the listeners' maps and the table alone ----------

  // States keep their identity and stay settled, and are closed only with a reason;
  // new states and new listeners start out blank.
  ghost predicate Grown(s: Sys, s': Sys) {
    && s'.ops == s.ops && s'.table == s.table && s.next <= s'.next
    && |s.cells| <= |s'.cells|
    && (forall l: nat :: Conns(s', l) == Conns(s, l))
    && (forall l: nat :: l < |s.cells| ==> IsActive(s', l) == IsActive(s, l) && KeyOf(s', l) == KeyOf(s, l))
    && (forall id :: id in s.socks ==> id in s'.socks && SockStep(s, id, s'.socks[id]))
    && (forall id :: id in s'.socks && id !in s.socks ==>
          !s'.socks[id].closed && !s'.socks[id].handed && s'.socks[id].owner < |s.cells|)
    && (forall id :: id in s'.handles ==> id in s.handles || (id in s'.socks && s'.socks[id].handed))
    && (forall k :: k in s'.published ==>
          || (k in s.published && s'.published[k] == s.published[k])
          || (|s.cells| == s'.published[k] < |s'.cells| && IsActive(s', |s.cells|) && KeyOf(s', |s.cells|) == k))
  }

  // No connect is responsible for the socket any more, and its listener knows it.
  ghost predicate Deliverable(s: Sys, id: Id) {
    && id in s.socks
    && (forall u :: u in s.ops ==> !Owns(s.ops[u], id))
    && (Doomed(s, id) || id in Conns(s, s.socks[id].owner))
  }

  ghost predicate SockStep(s: Sys, id: Id, k: Sock)
    requires id in s.socks
  {
    && k.owner == s.socks[id].owner
    && (s.socks[id].handed ==> k.handed)
    && (k.handed ==> s.socks[id].handed || Deliverable(s, id))
    && (Settled(s.socks[id]) ==> Settled(k))
    && (k.closed ==> s.socks[id].closed || Settled(k) || SomeHolds(s, id))
  }

  lemma GrownFrame(s: Sys, s': Sys)
    requires Typed(s) && PublishedOk(s) && Grown(s, s')
    ensures Typed(s') && PublishedOk(s')
  {
    assert forall l: nat, c :: Known(s, c, l) ==> Known(s', c, l);
    forall u | u in s'.ops ensures PcTyped(s', s'.ops[u]) && LateDeactivation(s', s'.ops[u]) {
      assert PcTyped(s, s.ops[u]) && LateDeactivation(s, s.ops[u]);
    }
  }

  lemma GrownTables(s: Sys, s': Sys)
    requires Typed(s) && TablesOk(s) && OwnersOk(s) && EntriesOk(s) && Grown(s, s')
    ensures TablesOk(s') && OwnersOk(s') && EntriesOk(s')
  {
    SameRoles(s, s');
    assert forall id :: id in s.table ==> Known(s, id, s.table[id]) && s.table[id] < |s.cells|;
    forall u | u in s'.ops ensures EntryOk(s', s'.ops[u]) {
      assert EntryOk(s, s.ops[u]) && PcTyped(s, s.ops[u]);
    }
  }

  lemma GrownSettling(s: Sys, s': Sys)
    requires SettlingOk(s) && Grown(s, s')
    ensures SettlingOk(s')
  {
    SameRoles(s, s');
    assert forall c :: Doomed(s, c) ==> Doomed(s', c);
    forall u | u in s'.ops ensures DetachOk(s', s'.ops[u]) {
      assert DetachOk(s, s.ops[u]);
    }
  }

  lemma GrownKeeps(s: Sys, s': Sys)
    requires Inv(s) && Grown(s, s') && IdsOk(s')
    ensures Inv(s')
  {
    GrownFrame(s, s');
    GrownTables(s, s');
    GrownSettling(s, s');
  }

  // The effects that grow a state without drawing an id.
  ghost predicate Grows(s: Sys, e: Effect) {
    match e
    case PutSock(id, k) => id in s.socks && SockStep(s, id, k)
    case Retract(_, _) => true
    case DropHandle(_) => true
    case HandOut(id) => Deliverable(s, id)
    case NewListener(_) => true
    case _ => false
  }

  lemma EffectGrows(s: Sys, e: Effect)
    requires Grows(s, e)
    ensures Grown(s, Perform(s, e)) && Perform(s, e).socks.Keys == s.socks.Keys
  {
  }

  lemma EffectKeeps(s: Sys, e: Effect)
    requires Inv(s) && Grows(s, e)
    ensures Inv(Perform(s, e))
  {
    EffectGrows(s, e);
    IdsKept(s, Perform(s, e));
    GrownKeeps(s, Perform(s, e));
  }

  // ---------- drawing an id ----------

  // The sequence number makes a drawn id new, whatever the keys are.
  lemma DrawnIdIsNew(s: Sys, l: nat)
    requires IdsOk(s)
    ensures ConnId(KeyOf(s, l), s.next) !in s.socks
  {
    var id := ConnId(KeyOf(s, l), s.next);
    if id in s.socks {
      assert IdDrawn(s, id);
      var n: nat :| n < s.next && id == ConnId(KeyOf(s, s.socks[id].owner), n);
      ConnIdInjective(KeyOf(s, l), s.next, KeyOf(s, s.socks[id].owner), n);
    }
  }

  lemma NewSockIds(s: Sys, l: nat)
    requires IdsOk(s)
    ensures IdsOk(Perform(s, NewSock(ConnId(KeyOf(s, l), s.next), l)))
  {
    var id := ConnId(KeyOf(s, l), s.next);
    var s' := Perform(s, NewSock(id, l));
    forall c | c in s'.socks ensures IdDrawn(s', c) {
      if c == id {
        assert s.next < s'.next && id == ConnId(KeyOf(s', s'.socks[c].owner), s.next);
      } else {
        assert IdDrawn(s, c);
        var n: nat :| n < s.next && c == ConnId(KeyOf(s, s.socks[c].owner), n);
        assert n < s'.next && c == ConnId(KeyOf(s', s'.socks[c].owner), n);
      }
    }
  }

  lemma NewSockMove(s: Sys, t: nat, l: nat, id: Id)
    requires Typed(s) && id !in s.socks
    requires t in s.ops && s.ops[t] == Starting(l, true)
    ensures QuietMove(Perform(s, NewSock(id, l)), t, Connecting(Attach, l, id))
  {
    var s1 := Perform(s, NewSock(id, l));
    MoveViews(s1, t, Connecting(Attach, l, id));
    assert forall m: nat :: Conns(s1, m) == Conns(s, m);
    forall u | u in s.ops ensures !Owns(s.ops[u], id) && !DropsWeak(s.ops[u], id) {
      assert PcTyped(s, s.ops[u]);
    }
  }

  lemma NewSockGrows(s: Sys, id: Id, l: nat)
    requires id !in s.socks && l < |s.cells|
    ensures Grown(s, Perform(s, NewSock(id, l)))
  {
  }

  lemma NewSockKeeps(s: Sys, t: nat, l: nat)
    requires Inv(s) && t in s.ops && s.ops[t] == Starting(l, true)
    ensures var id := ConnId(KeyOf(s, l), s.next);
            Inv(MoveTo(Perform(s, NewSock(id, l)), t, Connecting(Attach, l, id)))
  {
    var id := ConnId(KeyOf(s, l), s.next);
    var s1 := Perform(s, NewSock(id, l));
    DrawnIdIsNew(s, l);
    NewSockIds(s, l);
    assert PcTyped(s, s.ops[t]);
    NewSockGrows(s, id, l);
    GrownKeeps(s, s1);
    NewSockMove(s, t, l, id);
    QuietKeeps(s1, t, Connecting(Attach, l, id));
  }
}
