/** The inductive invariant of the registry protocol. */
module RegistryInvariant {
  import opened ConnIds
  import opened Registry

  // ---------- the invariant ----------

  predicate PcTyped(s: Sys, pc: Pc) {
    match pc
    case Idle => true
    case Starting(l, _) => l < |s.cells|
    case Connecting(_, l, id) => Known(s, id, l)
    case Detaching(_, id, _) => id in s.socks
    case Deactivating(_, l, id, todo, k) =>
      && l < |s.cells|
      && (HasCurrent(pc) ==> Known(s, id, l))
      && (forall c :: c in todo ==> Known(s, c, l))
      && (k.FailConnect? ==> k.id in s.socks)
      && (todo != {} ==> InLoop(pc))
    case Calling(_, id) => id in s.socks
    case Pushing(_, id, _) => id in s.socks
  }

  // References lead somewhere, and always to the socket's own listener.
  ghost predicate Typed(s: Sys) {
    && (forall k :: k in s.published ==> s.published[k] < |s.cells|)
    && (forall id :: id in s.socks ==> s.socks[id].owner < |s.cells|)
    && (forall id :: id in s.table ==> Known(s, id, s.table[id]))
    && (forall l: nat, id :: id in Conns(s, l) ==> Known(s, id, l))
    && (forall id :: id in s.handles ==> id in s.socks && s.socks[id].handed)
    && (forall t :: t in s.ops ==> PcTyped(s, s.ops[t]))
  }

  // A deactivation past its first step works on an unpublished listener, past its
  // second on an inactive one.
  predicate LateDeactivation(s: Sys, pc: Pc) {
    pc.Deactivating? ==>
      && (!pc.step.Unpublish? ==> forall k :: k in s.published ==> s.published[k] != pc.l)
      && (pc.step.Drain? || InLoop(pc) ==> !IsActive(s, pc.l))
  }

  predicate PublishedOk(s: Sys) {
    && (forall k :: k in s.published ==> IsActive(s, s.published[k]) && KeyOf(s, s.published[k]) == k)
    && (forall t :: t in s.ops ==> LateDeactivation(s, s.ops[t]))
  }

  // An inactive listener has connections only until it is drained.
  ghost predicate InactiveOk(s: Sys) {
    forall l: nat :: Conns(s, l) == {} || IsActive(s, l) || SomeDrain(s, l)
  }

  ghost predicate TableSideOk(s: Sys) {
    forall id :: id in s.table ==>
      || id in Conns(s, s.table[id])
      || (!IsActive(s, s.table[id]) && (SomeClears(s, id) || SomeRechecks(s, id)))
  }

  ghost predicate ListenerSideOk(s: Sys) {
    forall l: nat, id :: id in Conns(s, l) ==> id in s.table || SomeInserts(s, id) || SomeDropsWeak(s, id)
  }

  // The listener side and the table side agree up to what operations in progress owe.
  ghost predicate TablesOk(s: Sys) {
    InactiveOk(s) && TableSideOk(s) && ListenerSideOk(s)
  }

  // Each id belongs to at most one connect, which has not handed out its socket.
  ghost predicate OwnersOk(s: Sys) {
    && (forall t, u, id :: t in s.ops && u in s.ops && Owns(s.ops[t], id) && Owns(s.ops[u], id) ==> t == u)
    && (forall t, id :: t in s.ops && Owns(s.ops[t], id) ==> id in s.socks && !s.socks[id].handed)
  }

  // Before its insert an id is nowhere in the table, and after its removal never again.
  ghost predicate EntryOk(s: Sys, pc: Pc) {
    && (DropsWeak(pc, WorksOn(pc)) ==> WorksOn(pc) !in s.table && !SomeInserts(s, WorksOn(pc)))
    && (Inserts(pc, WorksOn(pc)) ==> WorksOn(pc) !in s.table)
    && (pc.Connecting? && pc.stage.Attach? ==> pc.id !in Conns(s, pc.l))
    && (pc.Connecting? && pc.stage.Insert? && IsActive(s, pc.l) ==> pc.id in Conns(s, pc.l))
  }

  ghost predicate EntriesOk(s: Sys) {
    forall t :: t in s.ops ==> EntryOk(s, s.ops[t])
  }

  // Reads of the socket can no longer stay pending, or its own side shut it down.
  predicate Settled(k: Sock) {
    k.stream.eof || k.stream.err.Some? || k.shut
  }

  // Settled, or held by a deactivation that will settle it.
  predicate Doomed(s: Sys, id: Id) {
    id in s.socks && (Settled(s.socks[id]) || SomeHolds(s, id))
  }

  predicate DetachOk(s: Sys, pc: Pc) {
    && (pc.Detaching? && !pc.failing ==> Doomed(s, pc.id))
    && (pc.Deactivating? && (pc.step.LoopEntry? || pc.step.LoopWeak?) ==>
          pc.id in s.socks && Settled(s.socks[pc.id]))
    && (pc.Calling? && (pc.call.ShutActive? || pc.call.ShutCall?) ==>
          pc.id in s.socks && Settled(s.socks[pc.id]))
  }

  // A socket leaves its listener's map only once it is settled or about to be.
  predicate SettlingOk(s: Sys) {
    && (forall id :: id in s.socks && s.socks[id].closed ==> Doomed(s, id))
    && (forall id :: id in s.socks && s.socks[id].handed ==> Doomed(s, id) || id in Conns(s, s.socks[id].owner))
    && (forall t :: t in s.ops ==> DetachOk(s, s.ops[t]))
  }

  ghost predicate IdDrawn(s: Sys, id: Id)
    requires id in s.socks
  {
    exists n: nat :: n < s.next && id == ConnId(KeyOf(s, s.socks[id].owner), n)
  }

  ghost predicate IdsOk(s: Sys) {
    forall id :: id in s.socks ==> IdDrawn(s, id)
  }

  ghost predicate Inv(s: Sys) {
    && Typed(s) && PublishedOk(s) && TablesOk(s) && OwnersOk(s) && EntriesOk(s) && SettlingOk(s) && IdsOk(s)
  }
}
