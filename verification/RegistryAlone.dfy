/**
 The registry's operations run one at a time: each method takes the atomic steps of its
 operation in their order, with nothing in between, and says what the whole of it does.
 */
module RegistryAlone {
  import opened Prelude
  import opened Registry
  import opened RegistryInvariant
  import opened RegistryRuns
  import opened RegistryTheorems
  import opened RegistryForms

  class SoloRegistry {
    var sys: Sys

    ghost predicate Valid() reads this {
      Inv(sys) && Quiescent(sys)
    }

    constructor ()
      ensures Valid() && sys == INIT
    {
      sys := INIT;
    }

    method RegisterListener(key: string) returns (r: bool)
      requires Valid()
      modifies this
      ensures Valid() && (r <==> key !in old(sys.published))
      ensures sys == MoveTo(Registered(old(sys), key), 0, Idle)
    {
      r := key !in sys.published;
      RegisterIs(sys, key);
      sys := Step(sys, 0, Register(key));
    }

    // One turn of the loop over the drained connections.
    method AbortOne(ghost s: Sys, ghost l: nat, ghost k: Cont)
      requires Inv(sys) && Left(s, sys, l, k) && Agrees(s, l) && PcAt(sys, 0).todo != {}
      modifies this
      ensures Inv(sys) && Left(s, sys, l, k) && sys.published == old(sys.published)
      ensures |PcAt(sys, 0).todo| < |PcAt(old(sys), 0).todo|
    {
      var pc := PcAt(sys, 0);
      var id :| id in pc.todo;
      FiveKeep(sys, Pick(id));
      TurnLeft(s, sys, l, id, k);
      sys := Step(sys, 0, Pick(id));
      sys := Step(sys, 0, NEXT);
      sys := Step(sys, 0, NEXT);
      sys := Step(sys, 0, NEXT);
      sys := Step(sys, 0, NEXT);
    }

    method DeactivateListener(ghost s: Sys, ghost l: nat, ghost k: Cont)
      requires Inv(sys) && Left(s, sys, l, k) && Agrees(s, l)
      modifies this
      ensures Inv(sys) && Left(s, sys, l, k) && PcAt(sys, 0).todo == {} && sys.published == old(sys.published)
    {
      while PcAt(sys, 0).todo != {}
        invariant Inv(sys) && Left(s, sys, l, k) && sys.published == old(sys.published)
        decreases |PcAt(sys, 0).todo|
      {
        AbortOne(s, l, k);
      }
    }

    // Alone, an unregistration takes the key's listener out of everything: its map is
    // empty, its table entries are gone, its sockets are closed with the reason to read.
    method UnregisterListener(key: string) returns (r: bool)
      requires Valid()
      modifies this
      ensures Valid() && (r <==> key in old(sys.published)) && sys.published == old(sys.published) - {key}
      ensures !r ==> sys == old(sys)
      ensures r ==> Midway(old(sys), sys, old(sys.published)[key], {})
    {
      if key !in sys.published {
        return false;
      }
      ghost var s, l := sys, sys.published[key];
      assert l < |s.cells|;
      QuietAgrees(s, l);
      UnpublishIs(s, key, l);
      DrainLeft(s, Step(s, 0, Unregister(key)), l, "", Return);
      ThreeKeep(s, Unregister(key));
      sys := Step(sys, 0, Unregister(key));
      sys := Step(sys, 0, NEXT);
      sys := Step(sys, 0, NEXT);
      DeactivateListener(s, l, Return);
      EndLeft(s, sys, l);
      StepKeeps(sys, 0, NEXT);
      sys := Step(sys, 0, NEXT);
      r := true;
    }

    // init_connect: attach to the listener, insert in the table, re-check.
    method InitConnect(l: nat) returns (r: Option<Id>)
      requires Valid() && l < |sys.cells|
      modifies this
      ensures Inv(sys) && (r.Some? <==> IsActive(old(sys), l))
      ensures r.None? ==> sys == MoveTo(old(sys), 0, Idle)
      ensures r.Some? ==> r.value == NewId(old(sys), l) && sys == Opened(old(sys), l)
    {
      ghost var s := sys;
      if !IsActive(sys, l) {
        RefusedIs(s, l);
        TwoKeep(s, Connect(l));
        sys := Step(sys, 0, Connect(l));
        sys := Step(sys, 0, NEXT);
        return None;
      }
      OpenedIs(s, l);
      SixKeep(s, Connect(l));
      sys := Step(sys, 0, Connect(l));
      sys := Step(sys, 0, NEXT);
      sys := Step(sys, 0, NEXT);
      sys := Step(sys, 0, NEXT);
      sys := Step(sys, 0, NEXT);
      sys := Step(sys, 0, NEXT);
      r := Some(sys.ops[0].id);
    }

    // connect: with the open callback's answer, hand the socket out or undo the connect. A
    // failed one leaves the listener's map and the table as they were; one that finds the
    // callback closed deactivates the listener, the new connection included.
    method ConnectTo(l: nat, answer: Callback) returns (r: Option<Id>)
      requires Valid() && l < |sys.cells|
      modifies this
      ensures Valid() && (r.Some? <==> IsActive(old(sys), l) && answer.CallOk?)
      ensures r.Some? ==> r.value == NewId(old(sys), l) && r.value !in old(sys.socks) && Accepted(old(sys), sys, l)
      ensures r.None? && (answer.CallClosed? ==> !IsActive(old(sys), l)) ==>
                sys.table == old(sys.table) && sys.cells == old(sys.cells) && sys.handles == old(sys.handles)
      ensures IsActive(old(sys), l) && answer.CallClosed? ==> Midway(Opened(old(sys), l), sys, l, {})
      ensures sys.published ==
              if IsActive(old(sys), l) && answer.CallClosed? then Without(old(sys), l) else old(sys.published)
    {
      ghost var s := sys;
      IdIsNew(s, l);
      QuietAgrees(s, l);
      var id := InitConnect(l);
      if id.None? {
        return None;
      }
      if answer.CallClosed? {
        ClosedAnswer(s, l);
        return None;
      }
      Answer(s, l, answer.CallOk?);
      r := if answer.CallOk? then id else None;
    }

    // From the callback's answer to the end.
    method Answer(ghost s: Sys, ghost l: nat, opens: bool)
      requires Inv(sys) && Quiescent(s) && IsActive(s, l) && sys == Opened(s, l)
      requires NewId(s, l) !in s.table && NewId(s, l) !in Conns(s, l)
      modifies this
      ensures Valid() && sys.published == s.published
      ensures !opens ==> sys.table == s.table && sys.cells == s.cells && sys.handles == s.handles
      ensures opens ==> Accepted(s, sys, l)
    {
      var answer := if opens then CallOk else CallFailed;
      ThreeKeep(sys, Advance(answer));
      if opens {
        AcceptIs(s, l);
      } else {
        UndoIs(s, l);
      }
      sys := Step(sys, 0, Advance(answer));
      sys := Step(sys, 0, NEXT);
      sys := Step(sys, 0, NEXT);
    }

    method ClosedAnswer(ghost s: Sys, ghost l: nat)
      requires Inv(sys) && Quiescent(s) && IsActive(s, l) && Agrees(s, l) && sys == Opened(s, l)
      requires NewId(s, l) !in s.table && NewId(s, l) !in Conns(s, l)
      modifies this
      ensures Valid() && Midway(Opened(s, l), sys, l, {}) && sys.published == Without(s, l)
    {
      ghost var o, id := Opened(s, l), NewId(s, l);
      OpenedAgrees(s, l);
      ClosedIs(o, l, id);
      TwoKeep(o, Advance(CallClosed));
      sys := Step(sys, 0, Advance(CallClosed));
      sys := Step(sys, 0, NEXT);
      DrainLeft(o, sys, l, id, FailConnect(id));
      TwoKeep(sys, NEXT);
      sys := Step(sys, 0, NEXT);
      sys := Step(sys, 0, NEXT);
      DeactivateListener(o, l, FailConnect(id));
      EndFailed(o, sys, l, id);
      TwoKeep(sys, NEXT);
      sys := Step(sys, 0, NEXT);
      sys := Step(sys, 0, NEXT);
    }

    // The two steps of a detach.
    method Detach(ghost id: Id, ghost failing: bool)
      requires Inv(sys) && Solo(sys) && PcAt(sys, 0) == Detaching(false, id, failing)
      modifies this
      ensures Valid() && sys == MoveTo(Detached(old(sys), id), 0, Idle)
    {
      DetachSteps(sys, id, failing);
      TwoKeep(sys, NEXT);
      sys := Step(sys, 0, NEXT);
      sys := Step(sys, 0, NEXT);
    }

    // push_event: an unknown socket is refused; data is taken by an open, live stream only;
    // eof and error reach an open socket's stream and detach it in any case. No other socket
    // changes.
    method PushEvent(id: Id, ev: Event) returns (r: Result<()>)
      requires Valid()
      modifies this
      ensures Valid()
      ensures id !in old(sys.table) ==> r.Err? && sys == old(sys)
      ensures id in old(sys.table) ==>
                var k := old(SockOf(sys, id));
                && (r.Ok? <==> !ev.Data? || (!k.closed && !k.stream.eof && k.stream.err.None?))
                && sys == MoveTo(Pushed(old(sys), id, ev), 0, Idle)
    {
      if id !in sys.table {
        return Err("socket not found");
      }
      var k := SockOf(sys, id);
      PushDone(sys, id, ev);
      sys := Step(sys, 0, Push(id, ev));
      sys := Step(sys, 0, NEXT);
      if !k.closed {
        sys := Step(sys, 0, NEXT);
      }
      sys := Step(sys, 0, NEXT);
      sys := Step(sys, 0, NEXT);
      var refused := ev.Data? && (k.closed || k.stream.eof || k.stream.err.Some?);
      r := if refused then Err("socket does not accept data") else Ok(());
    }

    // A deactivation from the flag on.
    method DeactivateFrom(ghost s: Sys, ghost l: nat, ghost c: Id)
      requires Inv(sys) && Agrees(s, l) && Solo(s) && PcAt(sys, 0) == Deactivating(ClearActive, l, c, {}, Return)
      requires sys == s.(published := sys.published, ops := s.ops[0 := sys.ops[0]])
      modifies this
      ensures Valid() && Midway(s, sys, l, {}) && sys.published == old(sys.published)
    {
      DrainLeft(s, sys, l, c, Return);
      TwoKeep(sys, NEXT);
      sys := Step(sys, 0, NEXT);
      sys := Step(sys, 0, NEXT);
      DeactivateListener(s, l, Return);
      EndLeft(s, sys, l);
      StepKeeps(sys, 0, NEXT);
      sys := Step(sys, 0, NEXT);
    }

    // deactivate_socket_listener: the listener of the socket's entry, if it still has one.
    method DeactivateSocketListener(id: Id)
      requires Inv(sys) && Solo(sys) && PcAt(sys, 0) == Calling(Lookup, id)
      modifies this
      ensures Valid()
      ensures id !in old(sys.table) ==> sys == MoveTo(old(sys), 0, Idle)
      ensures id in old(sys.table) ==>
                var l := old(sys.table)[id];
                Midway(old(sys), sys, l, {}) && sys.published == Without(old(sys), l)
    {
      ghost var s := sys;
      LookupIs(sys, id);
      if id !in sys.table {
        StepKeeps(sys, 0, NEXT);
        sys := Step(sys, 0, NEXT);
        return;
      }
      LookupAgrees(s, id);
      TwoKeep(sys, NEXT);
      sys := Step(sys, 0, NEXT);
      sys := Step(sys, 0, NEXT);
      DeactivateFrom(s, s.table[id], id);
    }

    // poll_write and on_write: a closed socket is a broken pipe, an inactive listener an
    // error; only then is the callback asked. Nothing changes unless it turns out closed, in
    // which case the socket's listener is deactivated.
    method WriteTo(id: Id, answer: Callback) returns (r: WriteResult)
      requires Valid() && id in sys.handles
      modifies this
      ensures Valid()
      ensures var k := old(SockOf(sys, id));
              r == if k.closed then BrokenPipe
                   else if !IsActive(old(sys), k.owner) then Inactive
                   else if answer.CallOk? then Wrote else CallbackFailed
      ensures if r.CallbackFailed? && answer.CallClosed? then Looked(old(sys), sys, id)
              else sys == MoveTo(old(sys), 0, Idle)
    {
      ghost var s := sys;
      WriteIs(s, id, answer);
      FourStepsKeep(s, Write(id), answer);
      sys := Step(sys, 0, Write(id));
      sys := Step(sys, 0, NEXT);
      var open := !PcAt(sys, 0).Idle?;
      sys := Step(sys, 0, NEXT);
      var asked := !PcAt(sys, 0).Idle?;
      sys := Step(sys, 0, Advance(answer));
      EndWrite(s, id);
      r := if !open then BrokenPipe else if !asked then Inactive else if answer.CallOk? then Wrote else CallbackFailed;
    }

    method EndWrite(ghost s: Sys, id: Id)
      requires Inv(sys) && Quiescent(s) && 0 in sys.ops && sys == MoveTo(s, 0, sys.ops[0])
      requires sys.ops[0] == Calling(Lookup, id) || sys.ops[0] == Idle
      modifies this
      ensures Valid()
      ensures old(sys.ops)[0].Idle? ==> sys == MoveTo(s, 0, Idle)
      ensures old(sys.ops)[0].Calling? ==> Looked(s, sys, id)
    {
      if PcAt(sys, 0).Calling? {
        DeactivateSocketListener(id);
        LookedUp(s, Calling(Lookup, id), sys, id);
      }
    }

    // poll_shutdown and on_close: the socket is closed whatever follows; it is detached when
    // its listener is inactive or takes the news, its listener is deactivated when the
    // callback turns out closed, and only another failure is reported.
    method ShutDown(id: Id, answer: Callback) returns (ok: bool)
      requires Valid() && id in sys.handles
      modifies this
      ensures Valid()
      ensures ok <==> !(IsActive(old(sys), old(SockOf(sys, id)).owner) && answer.CallFailed?)
      ensures ShutEnds(old(sys), sys, id, IsActive(old(sys), old(SockOf(sys, id)).owner), answer)
    {
      ghost var s := sys;
      ShutIs(s, id, answer);
      FourStepsKeep(s, Shutdown(id), answer);
      ThreeKeep(s, Shutdown(id));
      sys := Step(sys, 0, Shutdown(id));
      sys := Step(sys, 0, NEXT);
      sys := Step(sys, 0, NEXT);
      if PcAt(sys, 0).Calling? {
        sys := Step(sys, 0, Advance(answer));
      }
      ok := EndShutdown(Shut(s, id), id);
    }

    method EndShutdown(ghost s1: Sys, id: Id) returns (ok: bool)
      requires Inv(sys) && Quiescent(s1) && 0 in sys.ops && sys == MoveTo(s1, 0, sys.ops[0])
      requires sys.ops[0] == Detaching(false, id, false) || sys.ops[0] == Calling(Lookup, id) || sys.ops[0] == Idle
      modifies this
      ensures Valid() && (ok <==> !old(sys.ops)[0].Idle?)
      ensures old(sys.ops)[0].Detaching? ==> sys == MoveTo(Detached(s1, id), 0, Idle)
      ensures old(sys.ops)[0].Idle? ==> sys == MoveTo(s1, 0, Idle)
      ensures old(sys.ops)[0].Calling? ==> Looked(s1, sys, id)
    {
      ghost var p := sys.ops[0];
      ok := !PcAt(sys, 0).Idle?;
      if PcAt(sys, 0).Detaching? {
        MovedPushed(s1, p, id);
        Detach(id, false);
      } else if PcAt(sys, 0).Calling? {
        DeactivateSocketListener(id);
        LookedUp(s1, p, sys, id);
      }
    }
  }

  datatype WriteResult = Wrote | BrokenPipe | Inactive | CallbackFailed

  // The socket's listener is deactivated if the socket still had an entry.
  ghost predicate Looked(s: Sys, s': Sys, id: Id) {
    if id in s.table then Midway(s, s', s.table[id], {}) && s'.published == Without(s, s.table[id])
    else s' == MoveTo(s, 0, Idle)
  }

  lemma LookedUp(s: Sys, p: Pc, s': Sys, id: Id)
    requires Looked(MoveTo(s, 0, p), s', id)
    ensures Looked(s, s', id)
  {
    if id in s.table {
      MidwayMoved(s, p, s', s.table[id]);
    } else {
      assert s.ops[0 := p][0 := Idle] == s.ops[0 := Idle];
    }
  }

  // Where a shutdown leaves things, by the listener's state and the callback's answer.
  ghost predicate ShutEnds(s: Sys, s': Sys, id: Id, active: bool, answer: Callback) {
    var s1 := Shut(s, id);
    if !active || answer.CallOk? then s' == MoveTo(Detached(s1, id), 0, Idle)
    else if answer.CallClosed? then Looked(s1, s', id)
    else s' == MoveTo(s1, 0, Idle)
  }

  lemma LookupAgrees(s: Sys, id: Id)
    requires Inv(s) && Solo(s) && PcAt(s, 0) == Calling(Lookup, id) && id in s.table
    ensures Agrees(s, s.table[id])
  {
    QuietAgrees(s, s.table[id]);
  }

  lemma FourStepsKeep(s: Sys, a: Action, answer: Callback)
    requires Inv(s)
    ensures Inv(Step(Next(Next(Step(s, 0, a))), 0, Advance(answer)))
  {
    ThreeKeep(s, a);
    StepKeeps(Next(Next(Step(s, 0, a))), 0, Advance(answer));
  }
}
