/** The steps that write a listener's connection map, its active flag or the socket table. */
module RegistryTableSteps {
  import opened Registry
  import opened RegistryInvariant
  import opened RegistrySteps

  lemma ConnsViews(s: Sys, l: nat, conns: set<Id>)
    requires l < |s.cells|
    ensures var s' := SetConns(s, l, conns);
            && (forall m: nat :: Conns(s', m) == if m == l then conns else Conns(s, m))
            && (forall m: nat :: IsActive(s', m) == IsActive(s, m))
            && (forall m: nat :: KeyOf(s', m) == KeyOf(s, m))
            && (forall m: nat, c :: Known(s', c, m) == Known(s, c, m))
            && s' == s.(cells := s'.cells) && |s'.cells| == |s.cells|
  {
  }

  lemma ConnsFrame(s: Sys, l: nat, conns: set<Id>)
    requires Typed(s) && PublishedOk(s) && OwnersOk(s) && IdsOk(s) && l < |s.cells|
    requires forall c :: c in conns ==> Known(s, c, l)
    ensures var s' := SetConns(s, l, conns); Typed(s') && PublishedOk(s') && OwnersOk(s') && IdsOk(s')
  {
    var s' := SetConns(s, l, conns);
    ConnsViews(s, l, conns);
    forall u | u in s'.ops ensures PcTyped(s', s'.ops[u]) && LateDeactivation(s', s'.ops[u]) {
      assert PcTyped(s, s.ops[u]) && LateDeactivation(s, s.ops[u]);
    }
    IdsKept(s, s');
  }

  // ---------- attach_connection ----------

  lemma AttachParts(s: Sys, t: nat, l: nat, id: Id)
    requires Typed(s) && TablesOk(s) && OwnersOk(s) && EntriesOk(s) && SettlingOk(s)
    requires t in s.ops && s.ops[t] == Connecting(Attach, l, id) && IsActive(s, l)
    ensures var s' := Perform(s, AddWeak(l, id));
            && TablesOk(s') && SettlingOk(s')
            && (forall u :: u in s'.ops && u != t ==> EntryOk(s', s'.ops[u]))
  {
    var s' := Perform(s, AddWeak(l, id));
    ConnsViews(s, l, Conns(s, l) + {id});
    SameRoles(s, s');
    assert SomeInserts(s, id);
    assert forall c :: Doomed(s, c) ==> Doomed(s', c);
    forall u | u in s.ops ensures DetachOk(s', s.ops[u]) {
      assert DetachOk(s, s.ops[u]);
    }
    forall u | u in s.ops && u != t ensures EntryOk(s', s.ops[u]) {
      assert EntryOk(s, s.ops[u]);
      assert Owns(s.ops[t], id) && !Owns(s.ops[u], id);
    }
  }

  lemma AttachMove(s: Sys, t: nat, l: nat, id: Id)
    requires Typed(s) && TablesOk(s) && OwnersOk(s) && EntriesOk(s)
    requires t in s.ops && s.ops[t] == Connecting(Attach, l, id) && IsActive(s, l)
    ensures QuietMove(Perform(s, AddWeak(l, id)), t, Connecting(Insert, l, id))
  {
    var s' := Perform(s, AddWeak(l, id));
    ConnsViews(s, l, Conns(s, l) + {id});
    MoveViews(s', t, Connecting(Insert, l, id));
    assert PcTyped(s, s.ops[t]) && EntryOk(s, s.ops[t]);
    assert Owns(s.ops[t], id);
    assert SomeInserts(s, id);
    forall u | u in s.ops && u != t ensures !DropsWeak(s.ops[u], id) && !Owns(s.ops[u], id) {
      assert EntryOk(s, s.ops[u]);
    }
  }

  lemma AttachFrame(s: Sys, t: nat, l: nat, id: Id)
    requires Typed(s) && PublishedOk(s) && OwnersOk(s) && IdsOk(s)
    requires t in s.ops && s.ops[t] == Connecting(Attach, l, id) && IsActive(s, l)
    ensures var s' := Perform(s, AddWeak(l, id)); Typed(s') && PublishedOk(s') && OwnersOk(s') && IdsOk(s')
  {
    assert PcTyped(s, s.ops[t]);
    ConnsFrame(s, l, Conns(s, l) + {id});
  }

  lemma AttachKeeps(s: Sys, t: nat, l: nat, id: Id)
    requires Inv(s) && t in s.ops && s.ops[t] == Connecting(Attach, l, id) && IsActive(s, l)
    ensures Inv(MoveTo(Perform(s, AddWeak(l, id)), t, Connecting(Insert, l, id)))
  {
    AttachFrame(s, t, l, id);
    AttachParts(s, t, l, id);
    AttachMove(s, t, l, id);
    QuietKeeps(Perform(s, AddWeak(l, id)), t, Connecting(Insert, l, id));
  }

  // ---------- the socket table ----------

  ghost predicate TableEffect(s: Sys, e: Effect) {
    (e.AddEntry? && Known(s, e.id, e.l)) || e.DropEntry?
  }

  lemma TableViews(s: Sys, e: Effect)
    requires TableEffect(s, e)
    ensures var s' := Perform(s, e);
            && s' == s.(table := s'.table)
            && (forall m: nat :: Conns(s', m) == Conns(s, m))
            && (forall m: nat :: IsActive(s', m) == IsActive(s, m))
            && (forall m: nat, c :: Known(s', c, m) == Known(s, c, m))
            && (forall c :: c in s'.table ==> (c in s.table && s'.table[c] == s.table[c]) || Known(s, c, s'.table[c]))
  {
  }

  lemma TableTyped(s: Sys, e: Effect)
    requires Typed(s) && TableEffect(s, e)
    ensures Typed(Perform(s, e))
  {
    var s' := Perform(s, e);
    TableViews(s, e);
    forall u | u in s'.ops ensures PcTyped(s', s'.ops[u]) {
      assert PcTyped(s, s.ops[u]);
    }
  }

  lemma TableFrame(s: Sys, e: Effect)
    requires Typed(s) && PublishedOk(s) && OwnersOk(s) && IdsOk(s) && TableEffect(s, e)
    ensures var s' := Perform(s, e); PublishedOk(s') && OwnersOk(s') && IdsOk(s')
  {
    var s' := Perform(s, e);
    TableViews(s, e);
    TableIds(s, e);
    forall u | u in s'.ops ensures LateDeactivation(s', s'.ops[u]) {
      assert LateDeactivation(s, s.ops[u]);
    }
  }

  lemma TableIds(s: Sys, e: Effect)
    requires Typed(s) && IdsOk(s) && TableEffect(s, e)
    ensures IdsOk(Perform(s, e))
  {
    TableViews(s, e);
    IdsKept(s, Perform(s, e));
  }

  lemma TableSettling(s: Sys, e: Effect)
    requires SettlingOk(s) && TableEffect(s, e)
    ensures SettlingOk(Perform(s, e))
  {
    var s' := Perform(s, e);
    TableViews(s, e);
    SameRoles(s, s');
    assert forall c :: Doomed(s, c) ==> Doomed(s', c);
    forall u | u in s'.ops ensures DetachOk(s', s'.ops[u]) {
      assert DetachOk(s, s.ops[u]);
    }
  }

  lemma InsertTables(s: Sys, t: nat, l: nat, id: Id)
    requires TablesOk(s) && EntriesOk(s) && Known(s, id, l)
    requires t in s.ops && s.ops[t] == Connecting(Insert, l, id)
    ensures TablesOk(Perform(s, AddEntry(id, l)))
  {
    var s' := Perform(s, AddEntry(id, l));
    assert EntryOk(s, s.ops[t]);
    TableViews(s, AddEntry(id, l));
    SameRoles(s, s');
    assert Rechecks(s.ops[t], id);
  }

  lemma InsertEntries(s: Sys, t: nat, l: nat, id: Id)
    requires OwnersOk(s) && EntriesOk(s) && Known(s, id, l)
    requires t in s.ops && s.ops[t] == Connecting(Insert, l, id)
    ensures var s' := Perform(s, AddEntry(id, l)); forall u :: u in s'.ops && u != t ==> EntryOk(s', s'.ops[u])
  {
    var s' := Perform(s, AddEntry(id, l));
    TableViews(s, AddEntry(id, l));
    SameRoles(s, s');
    assert Inserts(s.ops[t], id) && SomeInserts(s, id);
    forall u | u in s'.ops && u != t ensures EntryOk(s', s'.ops[u]) {
      assert EntryOk(s, s.ops[u]);
      assert Owns(s.ops[t], id) && !Owns(s.ops[u], id);
    }
  }

  lemma InsertMove(s: Sys, t: nat, l: nat, id: Id)
    requires Typed(s) && OwnersOk(s)
    requires t in s.ops && s.ops[t] == Connecting(Insert, l, id)
    ensures QuietMove(Perform(s, AddEntry(id, l)), t, Connecting(Recheck, l, id))
  {
    var s' := Perform(s, AddEntry(id, l));
    assert PcTyped(s, s.ops[t]);
    TableViews(s, AddEntry(id, l));
    MoveViews(s', t, Connecting(Recheck, l, id));
    assert Owns(s.ops[t], id);
  }

  lemma InsertKeeps(s: Sys, t: nat, l: nat, id: Id)
    requires Inv(s) && t in s.ops && s.ops[t] == Connecting(Insert, l, id)
    ensures Inv(MoveTo(Perform(s, AddEntry(id, l)), t, Connecting(Recheck, l, id)))
  {
    assert PcTyped(s, s.ops[t]);
    TableTyped(s, AddEntry(id, l));
    TableFrame(s, AddEntry(id, l));
    TableSettling(s, AddEntry(id, l));
    InsertTables(s, t, l, id);
    InsertEntries(s, t, l, id);
    InsertMove(s, t, l, id);
    assert InvBut(Perform(s, AddEntry(id, l)), t);
    QuietKeeps(Perform(s, AddEntry(id, l)), t, Connecting(Recheck, l, id));
  }

  // The removal of an entry hands its weak reference to the removing thread.
  ghost predicate Removing(pc: Pc, next: Pc, id: Id) {
    || (exists failing :: pc == Detaching(false, id, failing) && next == Detaching(true, id, failing))
    || (pc.Deactivating? && pc.step.LoopEntry? && pc.id == id && next == pc.(step := LoopWeak))
  }

  lemma RemoveTableSide(s: Sys, t: nat, next: Pc, id: Id)
    requires TableSideOk(s) && t in s.ops && Removing(s.ops[t], next, id)
    ensures TableSideOk(MoveTo(Perform(s, DropEntry(id)), t, next))
  {
    var s1 := Perform(s, DropEntry(id));
    var s' := MoveTo(s1, t, next);
    TableViews(s, DropEntry(id));
    MoveViews(s1, t, next);
    RolesMove(s, s', t);
    assert forall c :: c != id && Clears(s.ops[t], c) ==> Clears(s'.ops[t], c);
    assert forall c :: c != id ==> !Rechecks(s.ops[t], c);
  }

  lemma RemoveListenerSide(s: Sys, t: nat, next: Pc, id: Id)
    requires ListenerSideOk(s) && t in s.ops && Removing(s.ops[t], next, id)
    ensures ListenerSideOk(MoveTo(Perform(s, DropEntry(id)), t, next))
  {
    var s1 := Perform(s, DropEntry(id));
    var s' := MoveTo(s1, t, next);
    TableViews(s, DropEntry(id));
    MoveViews(s1, t, next);
    RolesMove(s, s', t);
    assert SomeDropsWeak(s', id) by { assert DropsWeak(s'.ops[t], id); }
  }

  lemma RemoveInactive(s: Sys, t: nat, next: Pc, id: Id)
    requires InactiveOk(s) && t in s.ops && Removing(s.ops[t], next, id)
    ensures InactiveOk(MoveTo(Perform(s, DropEntry(id)), t, next))
  {
    var s1 := Perform(s, DropEntry(id));
    TableViews(s, DropEntry(id));
    MoveViews(s1, t, next);
    RolesMove(s, MoveTo(s1, t, next), t);
  }

  lemma RemoveEntries(s: Sys, t: nat, next: Pc, id: Id)
    requires EntriesOk(s) && t in s.ops && id in s.table && Removing(s.ops[t], next, id)
    ensures EntriesOk(MoveTo(Perform(s, DropEntry(id)), t, next))
  {
    var s1 := Perform(s, DropEntry(id));
    var s' := MoveTo(s1, t, next);
    TableViews(s, DropEntry(id));
    MoveViews(s1, t, next);
    RolesMove(s, s', t);
    forall u | u in s.ops ensures !Inserts(s.ops[u], id) {
      assert EntryOk(s, s.ops[u]);
    }
    forall u | u in s'.ops ensures EntryOk(s', s'.ops[u]) {
      assert u != t ==> EntryOk(s, s.ops[u]);
    }
  }

  lemma RemoveRest(s: Sys, t: nat, next: Pc, id: Id)
    requires Typed(s) && PublishedOk(s) && OwnersOk(s) && SettlingOk(s)
    requires t in s.ops && Removing(s.ops[t], next, id)
    ensures var s1 := Perform(s, DropEntry(id));
            && PcTyped(s1, next) && LateDeactivation(s1, next)
            && OwnersMove(s1, t, next) && SettlingMove(s1, PcAt(s1, t), next)
  {
    var s1 := Perform(s, DropEntry(id));
    TableViews(s, DropEntry(id));
    SameRoles(s, s1);
    assert PcTyped(s, s.ops[t]) && LateDeactivation(s, s.ops[t]) && DetachOk(s, s.ops[t]);
    assert forall c :: Owns(next, c) ==> Owns(s.ops[t], c);
  }

  lemma RemoveKeeps(s: Sys, t: nat, next: Pc, id: Id)
    requires Inv(s) && t in s.ops && id in s.table && Removing(s.ops[t], next, id)
    ensures Inv(MoveTo(Perform(s, DropEntry(id)), t, next))
  {
    var s1 := Perform(s, DropEntry(id));
    TableTyped(s, DropEntry(id));
    TableFrame(s, DropEntry(id));
    TableSettling(s, DropEntry(id));
    RemoveRest(s, t, next, id);
    RemoveTableSide(s, t, next, id);
    RemoveListenerSide(s, t, next, id);
    RemoveInactive(s, t, next, id);
    RemoveEntries(s, t, next, id);
    MoveTyped(s1, t, next);
    MovePublished(s1, t, next);
    MoveOwners(s1, t, next);
    MoveSettling(s1, t, next);
    MoveIds(s1, t, next);
  }

  // ---------- detach_connection ----------

  ghost predicate Dropping(pc: Pc, next: Pc, l: nat, id: Id) {
    || (exists failing :: pc == Detaching(true, id, failing) && next == Idle)
    || (pc.Deactivating? && pc.step.LoopWeak? && pc.l == l && pc.id == id && next == pc.(step := Loop))
  }

  lemma DropTables(s: Sys, t: nat, l: nat, id: Id)
    requires TablesOk(s) && EntriesOk(s) && l < |s.cells|
    requires t in s.ops && DropsWeak(s.ops[t], id)
    ensures TablesOk(Perform(s, DropWeak(l, id))) && EntriesOk(Perform(s, DropWeak(l, id)))
  {
    var s' := Perform(s, DropWeak(l, id));
    ConnsViews(s, l, Conns(s, l) - {id});
    SameRoles(s, s');
    assert EntryOk(s, s.ops[t]);
    forall u | u in s'.ops ensures EntryOk(s', s'.ops[u]) {
      assert EntryOk(s, s.ops[u]);
      assert !Inserts(s.ops[u], id);
    }
  }

  lemma DropSettling(s: Sys, t: nat, next: Pc, l: nat, id: Id)
    requires OwnersOk(s) && SettlingOk(s) && l < |s.cells|
    requires t in s.ops && Dropping(s.ops[t], next, l, id)
    ensures SettlingOk(Perform(s, DropWeak(l, id)))
  {
    var s' := Perform(s, DropWeak(l, id));
    ConnsViews(s, l, Conns(s, l) - {id});
    SameRoles(s, s');
    assert forall c :: Doomed(s, c) ==> Doomed(s', c);
    assert DetachOk(s, s.ops[t]);
    assert s.ops[t].Detaching? && s.ops[t].failing ==> Owns(s.ops[t], id);
    forall u | u in s'.ops ensures DetachOk(s', s'.ops[u]) {
      assert DetachOk(s, s.ops[u]);
    }
  }

  lemma DropFrame(s: Sys, l: nat, id: Id)
    requires Typed(s) && PublishedOk(s) && OwnersOk(s) && IdsOk(s) && l < |s.cells|
    ensures var s' := Perform(s, DropWeak(l, id)); Typed(s') && PublishedOk(s') && OwnersOk(s') && IdsOk(s')
  {
    ConnsFrame(s, l, Conns(s, l) - {id});
  }

  lemma DropTablesMove(s: Sys, t: nat, next: Pc, l: nat, id: Id)
    requires Typed(s) && Known(s, id, l) && t in s.ops && Dropping(s.ops[t], next, l, id)
    ensures TablesMove(Perform(s, DropWeak(l, id)), s.ops[t], next)
  {
    var s' := Perform(s, DropWeak(l, id));
    ConnsViews(s, l, Conns(s, l) - {id});
    assert forall m: nat :: id !in Conns(s', m);
  }

  lemma DropMove(s: Sys, t: nat, next: Pc, l: nat, id: Id)
    requires Typed(s) && PublishedOk(s) && OwnersOk(s) && Known(s, id, l)
    requires t in s.ops && Dropping(s.ops[t], next, l, id)
    ensures QuietMove(Perform(s, DropWeak(l, id)), t, next)
  {
    var s' := Perform(s, DropWeak(l, id));
    DropTablesMove(s, t, next, l, id);
    ConnsViews(s, l, Conns(s, l) - {id});
    assert PcTyped(s, s.ops[t]) && LateDeactivation(s, s.ops[t]);
    assert forall c :: Owns(next, c) ==> Owns(s.ops[t], c);
  }

  lemma DropKeeps(s: Sys, t: nat, next: Pc, l: nat, id: Id)
    requires Inv(s) && Known(s, id, l) && t in s.ops && Dropping(s.ops[t], next, l, id)
    ensures Inv(MoveTo(Perform(s, DropWeak(l, id)), t, next))
  {
    DropFrame(s, l, id);
    DropTables(s, t, l, id);
    DropSettling(s, t, next, l, id);
    DropMove(s, t, next, l, id);
    QuietKeeps(Perform(s, DropWeak(l, id)), t, next);
  }

  // ---------- active.store(false), then connections.drain() ----------

  lemma FlagViews(s: Sys, l: nat)
    requires l < |s.cells|
    ensures var s' := Perform(s, ClearFlag(l));
            && s' == s.(cells := s'.cells) && |s'.cells| == |s.cells|
            && (forall m: nat :: Conns(s', m) == Conns(s, m))
            && (forall m: nat :: IsActive(s', m) == (IsActive(s, m) && m != l))
            && (forall m: nat :: KeyOf(s', m) == KeyOf(s, m))
            && (forall m: nat, c :: Known(s', c, m) == Known(s, c, m))
  {
  }

  lemma FlagFrame(s: Sys, t: nat)
    requires Typed(s) && PublishedOk(s) && OwnersOk(s) && EntriesOk(s)
    requires t in s.ops && s.ops[t].Deactivating? && s.ops[t].step.ClearActive?
    ensures var s' := Perform(s, ClearFlag(s.ops[t].l));
            Typed(s') && PublishedOk(s') && OwnersOk(s') && EntriesOk(s')
  {
    var l := s.ops[t].l;
    var s' := Perform(s, ClearFlag(l));
    assert PcTyped(s, s.ops[t]) && LateDeactivation(s, s.ops[t]);
    FlagViews(s, l);
    SameRoles(s, s');
    forall u | u in s'.ops ensures PcTyped(s', s'.ops[u]) && LateDeactivation(s', s'.ops[u]) && EntryOk(s', s'.ops[u]) {
      assert PcTyped(s, s.ops[u]) && LateDeactivation(s, s.ops[u]) && EntryOk(s, s.ops[u]);
    }
  }

  lemma FlagSettling(s: Sys, l: nat)
    requires Typed(s) && SettlingOk(s) && IdsOk(s) && l < |s.cells|
    ensures SettlingOk(Perform(s, ClearFlag(l))) && IdsOk(Perform(s, ClearFlag(l)))
  {
    var s' := Perform(s, ClearFlag(l));
    FlagViews(s, l);
    SameRoles(s, s');
    assert forall c :: Doomed(s, c) ==> Doomed(s', c);
    forall u | u in s'.ops ensures DetachOk(s', s'.ops[u]) {
      assert DetachOk(s, s.ops[u]);
    }
    IdsKept(s, s');
  }

  lemma FlagTables(s: Sys, t: nat)
    requires TablesOk(s)
    requires t in s.ops && s.ops[t].Deactivating? && s.ops[t].step.ClearActive? && s.ops[t].l < |s.cells|
    ensures TablesOk(MoveTo(Perform(s, ClearFlag(s.ops[t].l)), t, s.ops[t].(step := Drain)))
  {
    var l, next := s.ops[t].l, s.ops[t].(step := Drain);
    var s1 := Perform(s, ClearFlag(l));
    var s' := MoveTo(s1, t, next);
    FlagViews(s, l);
    MoveViews(s1, t, next);
    RolesMove(s, s', t);
    assert SomeDrain(s', l) by { assert Draining(s'.ops[t], l); }
  }

  lemma FlagMove(s: Sys, t: nat)
    requires Typed(s) && PublishedOk(s) && OwnersOk(s)
    requires t in s.ops && s.ops[t].Deactivating? && s.ops[t].step.ClearActive?
    ensures var s1 := Perform(s, ClearFlag(s.ops[t].l));
            var next := s.ops[t].(step := Drain);
            && PcTyped(s1, next) && LateDeactivation(s1, next) && OwnersMove(s1, t, next)
            && EntriesMove(s1, t, next) && SettlingMove(s1, PcAt(s1, t), next)
  {
    assert PcTyped(s, s.ops[t]) && LateDeactivation(s, s.ops[t]);
    FlagViews(s, s.ops[t].l);
    assert forall c :: Owns(s.ops[t].(step := Drain), c) ==> Owns(s.ops[t], c);
  }

  lemma FlagKeeps(s: Sys, t: nat)
    requires Inv(s) && t in s.ops && s.ops[t].Deactivating? && s.ops[t].step.ClearActive?
    ensures Inv(MoveTo(Perform(s, ClearFlag(s.ops[t].l)), t, s.ops[t].(step := Drain)))
  {
    var l, next := s.ops[t].l, s.ops[t].(step := Drain);
    var s1 := Perform(s, ClearFlag(l));
    assert PcTyped(s, s.ops[t]);
    FlagFrame(s, t);
    FlagSettling(s, l);
    FlagTables(s, t);
    FlagMove(s, t);
    MoveTyped(s1, t, next);
    MovePublished(s1, t, next);
    MoveOwners(s1, t, next);
    MoveEntries(s1, t, next);
    MoveSettling(s1, t, next);
    MoveIds(s1, t, next);
  }

  // Every weak reference in a listener's map can be upgraded: its entry, or the
  // operation that is adding or removing it, still holds the state.
  lemma WeaksUpgrade(s: Sys, l: nat)
    requires TablesOk(s)
    ensures forall c :: c in Conns(s, l) ==> Alive(s, c)
  {
    forall c | c in Conns(s, l) && c !in s.table ensures Alive(s, c) {
      if SomeInserts(s, c) {
        var u :| u in s.ops && Inserts(s.ops[u], c);
        assert KeepsAlive(s.ops[u], c);
      } else {
        var u :| u in s.ops && DropsWeak(s.ops[u], c);
        assert KeepsAlive(s.ops[u], c);
      }
    }
  }

  ghost predicate DrainTo(s: Sys, pc: Pc, next: Pc) {
    pc.Deactivating? && pc.step.Drain? && next == pc.(step := Loop, todo := Conns(s, pc.l))
  }

  lemma DrainTables(s: Sys, t: nat, next: Pc)
    requires Typed(s) && PublishedOk(s) && TablesOk(s) && t in s.ops && DrainTo(s, s.ops[t], next)
    ensures TablesOk(MoveTo(Perform(s, TakeAll(next.l)), t, next))
  {
    var l := next.l;
    var s1 := Perform(s, TakeAll(l));
    var s' := MoveTo(s1, t, next);
    assert PcTyped(s, s.ops[t]) && LateDeactivation(s, s.ops[t]);
    ConnsViews(s, l, {});
    MoveViews(s1, t, next);
    RolesMove(s, s', t);
    assert forall c :: c in next.todo ==> Clears(s'.ops[t], c) && SomeClears(s', c);
  }

  lemma DrainSettling(s: Sys, t: nat, next: Pc)
    requires Typed(s) && SettlingOk(s) && t in s.ops && DrainTo(s, s.ops[t], next)
    ensures SettlingOk(MoveTo(Perform(s, TakeAll(next.l)), t, next))
  {
    var l := next.l;
    var s1 := Perform(s, TakeAll(l));
    var s' := MoveTo(s1, t, next);
    assert PcTyped(s, s.ops[t]);
    ConnsViews(s, l, {});
    MoveViews(s1, t, next);
    RolesMove(s, s', t);
    assert forall c :: c in next.todo ==> Holds(s'.ops[t], c) && SomeHolds(s', c);
    assert forall c :: Doomed(s, c) ==> Doomed(s', c);
    forall u | u in s'.ops ensures DetachOk(s', s'.ops[u]) {
      assert u != t ==> DetachOk(s, s.ops[u]);
    }
  }

  lemma DrainEntries(s: Sys, t: nat, next: Pc)
    requires Typed(s) && PublishedOk(s) && EntriesOk(s) && t in s.ops && DrainTo(s, s.ops[t], next)
    ensures EntriesOk(MoveTo(Perform(s, TakeAll(next.l)), t, next))
  {
    var l := next.l;
    var s1 := Perform(s, TakeAll(l));
    var s' := MoveTo(s1, t, next);
    assert PcTyped(s, s.ops[t]) && LateDeactivation(s, s.ops[t]);
    ConnsViews(s, l, {});
    MoveViews(s1, t, next);
    RolesMove(s, s', t);
    forall u | u in s'.ops ensures EntryOk(s', s'.ops[u]) {
      assert u != t ==> EntryOk(s, s.ops[u]);
    }
  }

  lemma DrainRest(s: Sys, t: nat, next: Pc)
    requires Typed(s) && PublishedOk(s) && OwnersOk(s) && IdsOk(s) && t in s.ops && DrainTo(s, s.ops[t], next)
    ensures var s' := MoveTo(Perform(s, TakeAll(next.l)), t, next);
            Typed(s') && PublishedOk(s') && OwnersOk(s') && IdsOk(s')
  {
    var s1 := Perform(s, TakeAll(next.l));
    assert PcTyped(s, s.ops[t]) && LateDeactivation(s, s.ops[t]);
    ConnsViews(s, next.l, {});
    ConnsFrame(s, next.l, {});
    assert forall c :: Owns(next, c) ==> Owns(s.ops[t], c);
    MoveTyped(s1, t, next);
    MovePublished(s1, t, next);
    MoveOwners(s1, t, next);
    MoveIds(s1, t, next);
  }

  lemma DrainKeeps(s: Sys, t: nat, next: Pc)
    requires Inv(s) && t in s.ops && DrainTo(s, s.ops[t], next)
    ensures Inv(MoveTo(Perform(s, TakeAll(next.l)), t, next))
  {
    DrainRest(s, t, next);
    DrainTables(s, t, next);
    DrainSettling(s, t, next);
    DrainEntries(s, t, next);
  }

  // ---------- the socket handed out by connect ----------

  lemma FetchDeliverable(s: Sys, t: nat, l: nat, id: Id)
    requires Typed(s) && TablesOk(s) && OwnersOk(s) && SettlingOk(s)
    requires t in s.ops && s.ops[t] == Connecting(Fetch, l, id) && id in s.table
    ensures Deliverable(MoveTo(s, t, Idle), id)
  {
    var s0 := MoveTo(s, t, Idle);
    MoveViews(s, t, Idle);
    RolesMove(s, s0, t);
    assert Owns(s.ops[t], id) && PcTyped(s, s.ops[t]);
    forall u | u in s.ops && u != t ensures !Rechecks(s.ops[u], id) {
      assert !Owns(s.ops[u], id);
    }
    if id !in Conns(s, l) {
      var u :| u in s.ops && Clears(s.ops[u], id);
      assert DetachOk(s, s.ops[u]);
      assert Holds(s.ops[u], id) ==> SomeHolds(s, id);
    }
  }

  lemma FetchMove(s: Sys, t: nat)
    requires t in s.ops && s.ops[t].Connecting? && s.ops[t].stage.Fetch?
    ensures QuietMove(s, t, Idle)
  {
  }

  lemma FetchCommutes(s: Sys, t: nat, id: Id)
    ensures Perform(MoveTo(s, t, Idle), HandOut(id)) == MoveTo(Perform(s, HandOut(id)), t, Idle)
  {
  }

  lemma FetchKeeps(s: Sys, t: nat, l: nat, id: Id)
    requires Inv(s) && t in s.ops && s.ops[t] == Connecting(Fetch, l, id) && id in s.table
    ensures Inv(MoveTo(Perform(s, HandOut(id)), t, Idle))
  {
    FetchMove(s, t);
    QuietKeeps(s, t, Idle);
    FetchDeliverable(s, t, l, id);
    EffectKeeps(MoveTo(s, t, Idle), HandOut(id));
    FetchCommutes(s, t, id);
  }
}
