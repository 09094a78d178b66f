/**
 What the registry's steps do to each socket's bytes and flags, over every schedule: reads
 deliver what pushes gave, the end stays, and a closed socket stays closed.
 */
module RegistryStreams {
  import opened Prelude
  import opened Registry
  import opened RegistryInvariant
  import opened RegistrySteps
  import opened RegistryRuns
  import opened RegistryTheorems
  import SS = SocketStream

  function StreamOf(s: Sys, id: Id): SS.Stream {
    SockOf(s, id).stream
  }

  // ---------- one write at a time ----------

  // The socket as an effect leaves it.
  function Written(s: Sys, e: Effect, id: Id): Sock {
    if e.NewSock? && e.id == id then Sock(e.l, SS.EMPTY, false, false, false)
    else if e.PutSock? && e.id == id then e.sock
    else if e.HandOut? && e.id == id then SockOf(s, id).(handed := true)
    else SockOf(s, id)
  }

  lemma EffectWrites(s: Sys, e: Effect, id: Id)
    ensures SockOf(Perform(s, e), id) == Written(s, e, id)
  {
  }

  lemma SockAfter(s: Sys, t: nat, m: Move, id: Id)
    ensures SockOf(After(s, t, m), id) == Written(s, m.effect, id)
  {
    EffectWrites(s, m.effect, id);
  }

  lemma NewIsNew(s: Sys, t: nat, a: Action)
    requires IdsOk(s)
    ensures var e := Decide(s, t, a).effect; e.NewSock? ==> e.id !in s.socks
  {
    DrawsFromSeq(s, t, a);
    var e := Decide(s, t, a).effect;
    if e.NewSock? {
      DrawnIdIsNew(s, e.l);
    }
  }

  // ---------- bytes ----------

  // The bytes a step hands to the socket's reader.
  function Took(s: Sys, t: nat, a: Action, id: Id): seq<Byte> {
    var k := StreamOf(s, id);
    if PcAt(s, t).Idle? && a.Read? && a.id == id && id in s.handles && k.err.None?
    then k.unread[..if a.room <= |k.unread| then a.room else |k.unread|] else []
  }

  // The bytes a step takes in: those of a data push that holds the lock and finds the stream
  // neither ended nor failed.
  function Gave(s: Sys, t: nat, a: Action, id: Id): seq<Byte> {
    var k := StreamOf(s, id);
    match PcAt(s, t)
    case Pushing(locking, c, ev) =>
      if locking && c == id && a.Advance? && ev.Data? && !k.eof && k.err.None? then ev.bytes else []
    case _ => []
  }

  lemma PutsConserve(s: Sys, t: nat, a: Action, id: Id)
    ensures var e := Decide(s, t, a).effect;
            if e.PutSock? && e.id == id
            then Took(s, t, a, id) + e.sock.stream.unread == StreamOf(s, id).unread + Gave(s, t, a, id)
            else Took(s, t, a, id) == [] && Gave(s, t, a, id) == []
  {
  }

  lemma StepConserves(s: Sys, t: nat, a: Action, id: Id)
    requires IdsOk(s)
    ensures Took(s, t, a, id) + StreamOf(Step(s, t, a), id).unread == StreamOf(s, id).unread + Gave(s, t, a, id)
  {
    var e := Decide(s, t, a).effect;
    PutsConserve(s, t, a, id);
    NewIsNew(s, t, a);
    SockAfter(s, t, Decide(s, t, a), id);
    if !(e.PutSock? && e.id == id) {
      assert StreamOf(Step(s, t, a), id) == StreamOf(s, id);
    }
  }

  function Delivered(schedule: Schedule, id: Id): seq<Byte>
    decreases |schedule|
  {
    if schedule == [] then []
    else
      var init, last := schedule[..|schedule| - 1], schedule[|schedule| - 1];
      Delivered(init, id) + Took(Run(INIT, init), last.0, last.1, id)
  }

  function Accepted(schedule: Schedule, id: Id): seq<Byte>
    decreases |schedule|
  {
    if schedule == [] then []
    else
      var init, last := schedule[..|schedule| - 1], schedule[|schedule| - 1];
      Accepted(init, id) + Gave(Run(INIT, init), last.0, last.1, id)
  }

  lemma Chain(d: seq<Byte>, took: seq<Byte>, left': seq<Byte>, left: seq<Byte>, gave: seq<Byte>, acc: seq<Byte>)
    requires took + left' == left + gave && d + left == acc
    ensures d + took + left' == acc + gave
  {
    assert d + took + left' == d + (took + left');
    assert d + (left + gave) == d + left + gave;
  }

  // Over every schedule and for every socket: the bytes its reads took, followed by those
  // still unread, are the bytes of its accepted pushes, in order.
  lemma {:induction false} BytesAreConserved(schedule: Schedule, id: Id)
    ensures Delivered(schedule, id) + StreamOf(Run(INIT, schedule), id).unread == Accepted(schedule, id)
    decreases |schedule|
  {
    if schedule != [] {
      var init, last := schedule[..|schedule| - 1], schedule[|schedule| - 1];
      var s := Run(INIT, init);
      BytesAreConserved(init, id);
      Reachable(init);
      StepConserves(s, last.0, last.1, id);
      Chain(Delivered(init, id), Took(s, last.0, last.1, id), StreamOf(Run(INIT, schedule), id).unread,
            StreamOf(s, id).unread, Gave(s, last.0, last.1, id), Accepted(init, id));
    }
  }

  // ---------- pushes ----------

  // A push that holds the lock does exactly this to the socket it names, and nothing to any
  // other: data is appended to a live stream, eof ends it, an error is recorded.
  lemma PushLands(s: Sys, t: nat, id: Id, ev: Event, answer: Callback)
    requires PcAt(s, t) == Pushing(true, id, ev)
    ensures var k := SockOf(s, id); var s' := Step(s, t, Advance(answer));
            && SockOf(s', id).stream.unread ==
               k.stream.unread + (if ev.Data? && !k.stream.eof && k.stream.err.None? then ev.bytes else [])
            && SockOf(s', id).stream.eof == (k.stream.eof || ev.Eof?)
            && SockOf(s', id).stream.err == (if ev.Error? then Some(ev.message) else k.stream.err)
            && SockOf(s', id) == k.(stream := SockOf(s', id).stream)
            && (forall c :: c != id ==> SockOf(s', c) == SockOf(s, c))
            && PcAt(s', t) == if ev.Data? then Idle else Detaching(false, id, false)
  {
    forall c ensures SockOf(Step(s, t, Advance(answer)), c) == Written(s, Decide(s, t, Advance(answer)).effect, c) {
      SockAfter(s, t, Decide(s, t, Advance(answer)), c);
    }
  }

  // The end, once there, stays under every schedule.
  lemma PutsKeepEnd(s: Sys, t: nat, a: Action)
    ensures var e := Decide(s, t, a).effect;
            e.PutSock? ==>
              && (StreamOf(s, e.id).eof ==> e.sock.stream.eof)
              && (StreamOf(s, e.id).err.Some? ==> e.sock.stream.err.Some?)
  {
  }

  lemma EndStays(s: Sys, t: nat, a: Action, id: Id)
    requires IdsOk(s) && id in s.socks
    ensures id in Step(s, t, a).socks
    ensures StreamOf(s, id).eof ==> StreamOf(Step(s, t, a), id).eof
    ensures StreamOf(s, id).err.Some? ==> StreamOf(Step(s, t, a), id).err.Some?
  {
    PutsKeepEnd(s, t, a);
    NewIsNew(s, t, a);
    SockAfter(s, t, Decide(s, t, a), id);
    StepIsLater(s, t, a);
  }

  lemma {:induction false} EndIsFinal(s: Sys, later: Schedule, id: Id)
    requires Inv(s) && id in s.socks
    ensures id in Run(s, later).socks
    ensures StreamOf(s, id).eof ==> StreamOf(Run(s, later), id).eof
    ensures StreamOf(s, id).err.Some? ==> StreamOf(Run(s, later), id).err.Some?
    decreases |later|
  {
    if later != [] {
      var init, last := later[..|later| - 1], later[|later| - 1];
      EndIsFinal(s, init, id);
      RunKeeps(s, init);
      EndStays(Run(s, init), last.0, last.1, id);
    }
  }

  // ---------- closing ----------

  // A read that meets an error, or one into an empty buffer that finds the end and moves
  // nothing.
  predicate ClosingRead(s: Sys, t: nat, a: Action, id: Id) {
    var k := StreamOf(s, id);
    && PcAt(s, t).Idle? && a.Read? && a.id == id && id in s.handles
    && (k.err.Some? || (a.held == 0 && k.eof && (a.room == 0 || k.unread == [])))
  }

  // The other two ways: the first half of an abort, and the mark of a shutdown.
  predicate ClosingStep(s: Sys, t: nat, a: Action, id: Id) {
    a.Advance? &&
    match PcAt(s, t)
    case Deactivating(step, _, c, _, _) => step.AbortClose? && c == id
    case Calling(call, c) => call.ShutMark? && c == id
    case _ => false
  }

  predicate CloseNow(s: Sys, t: nat, a: Action, id: Id) {
    ClosingRead(s, t, a, id) || ClosingStep(s, t, a, id)
  }

  lemma PutsClose(s: Sys, t: nat, a: Action, id: Id)
    ensures var e := Decide(s, t, a).effect;
            if e.PutSock? && e.id == id then e.sock.closed <==> SockOf(s, id).closed || CloseNow(s, t, a, id)
            else !CloseNow(s, t, a, id)
  {
  }

  lemma StepCloses(s: Sys, t: nat, a: Action, id: Id)
    requires IdsOk(s)
    ensures SockOf(Step(s, t, a), id).closed <==> SockOf(s, id).closed || CloseNow(s, t, a, id)
  {
    PutsClose(s, t, a, id);
    NewIsNew(s, t, a);
    SockAfter(s, t, Decide(s, t, a), id);
  }

  predicate SomeCloses(schedule: Schedule, id: Id)
    decreases |schedule|
  {
    schedule != [] &&
    var init, last := schedule[..|schedule| - 1], schedule[|schedule| - 1];
    SomeCloses(init, id) || CloseNow(Run(INIT, init), last.0, last.1, id)
  }

  // Over every schedule a socket is closed exactly when some step of it closed the socket.
  lemma {:induction false} ClosedIff(schedule: Schedule, id: Id)
    ensures SockOf(Run(INIT, schedule), id).closed <==> SomeCloses(schedule, id)
    decreases |schedule|
  {
    if schedule != [] {
      var init, last := schedule[..|schedule| - 1], schedule[|schedule| - 1];
      ClosedIff(init, id);
      Reachable(init);
      StepCloses(Run(INIT, init), last.0, last.1, id);
    }
  }

  // A write on the socket past its closed check.
  predicate Writing(s: Sys, t: nat, id: Id) {
    PcAt(s, t) == Calling(WriteActive, id) || PcAt(s, t) == Calling(WriteCall, id)
  }

  lemma WritesNeedOpen(s: Sys, t: nat, a: Action, id: Id)
    requires SockOf(s, id).closed && !Writing(s, t, id)
    ensures var next := Decide(s, t, a).next; next != Calling(WriteActive, id) && next != Calling(WriteCall, id)
  {
  }

  lemma NotWritingStep(s: Sys, u: nat, a: Action, t: nat, id: Id)
    requires SockOf(s, id).closed && !Writing(s, t, id)
    ensures !Writing(Step(s, u, a), t, id)
  {
    if u == t {
      WritesNeedOpen(s, t, a, id);
    }
    NotWritingMove(s, u, Decide(s, u, a), t, id);
  }

  lemma NotWritingMove(s: Sys, u: nat, m: Move, t: nat, id: Id)
    requires !Writing(s, t, id)
    requires u == t ==> m.next != Calling(WriteActive, id) && m.next != Calling(WriteCall, id)
    ensures !Writing(After(s, u, m), t, id)
  {
  }

  // Once closed, for ever: not reusable, and a write that was not already past the check never
  // gets past it.
  lemma {:induction false} ClosedIsFinal(s: Sys, later: Schedule, t: nat, id: Id)
    requires Inv(s) && id in s.socks && s.socks[id].closed && !Writing(s, t, id)
    ensures var s' := Run(s, later);
            id in s'.socks && s'.socks[id].closed && !IsReusable(s', id) && !Writing(s', t, id)
    decreases |later|
  {
    if later != [] {
      var init, last := later[..|later| - 1], later[|later| - 1];
      var s1 := Run(s, init);
      ClosedIsFinal(s, init, t, id);
      RunKeeps(s, init);
      StepCloses(s1, last.0, last.1, id);
      StepIsLater(s1, last.0, last.1);
      NotWritingStep(s1, last.0, last.1, t, id);
    }
  }

  // In particular after a read that met the end or an error: the socket is never reusable
  // again and no write that starts later passes.
  lemma ReadToTheEndCloses(schedule: Schedule, u: nat, a: Action, id: Id, later: Schedule, t: nat)
    requires ClosingRead(Run(INIT, schedule), u, a, id) && !Writing(Run(INIT, schedule), t, id)
    ensures var s' := Run(Step(Run(INIT, schedule), u, a), later);
            id in s'.socks && !IsReusable(s', id) && !Writing(s', t, id)
  {
    var s := Run(INIT, schedule);
    Reachable(schedule);
    StepKeeps(s, u, a);
    StepCloses(s, u, a, id);
    StepIsLater(s, u, a);
    NotWritingMove(s, u, Decide(s, u, a), t, id);
    ClosedIsFinal(Step(s, u, a), later, t, id);
  }

  // ---------- handing out ----------

  // Nobody is about to hand the socket out.
  predicate NoFetch(s: Sys, id: Id) {
    forall t :: t in s.ops ==> !(s.ops[t].Connecting? && s.ops[t].stage.Fetch? && s.ops[t].id == id)
  }

  lemma FetchNeedsActive(s: Sys, t: nat, a: Action, l: nat, id: Id)
    requires PcTyped(s, PcAt(s, t)) && Known(s, id, l) && !IsActive(s, l)
    ensures var next := Decide(s, t, a).next;
            next.Connecting? && next.stage.Fetch? && next.id == id ==>
              PcAt(s, t).Connecting? && PcAt(s, t).stage.Fetch? && PcAt(s, t).id == id
  {
  }

  lemma HandsOutOnlyFetched(s: Sys, t: nat, a: Action, id: Id)
    ensures var e := Decide(s, t, a).effect;
            && (e == HandOut(id) ==> PcAt(s, t).Connecting? && PcAt(s, t).stage.Fetch? && PcAt(s, t).id == id)
            && (e.PutSock? ==> e.sock.handed == SockOf(s, e.id).handed)
  {
  }

  lemma NoFetchStep(s: Sys, t: nat, a: Action, l: nat, id: Id)
    requires Typed(s) && IdsOk(s) && Known(s, id, l) && !IsActive(s, l) && NoFetch(s, id) && !s.socks[id].handed
    ensures NoFetch(Step(s, t, a), id) && !SockOf(Step(s, t, a), id).handed
  {
    assert t in s.ops ==> PcTyped(s, s.ops[t]);
    FetchNeedsActive(s, t, a, l, id);
    HandsOutOnlyFetched(s, t, a, id);
    NewIsNew(s, t, a);
    SockAfter(s, t, Decide(s, t, a), id);
    OpsAfter(s, t, Decide(s, t, a));
  }

  lemma OpsAfter(s: Sys, t: nat, m: Move)
    ensures After(s, t, m).ops == s.ops[t := m.next]
  {
  }

  // A connect that has not passed its last check when its listener goes inactive never hands
  // its socket out.
  lemma {:induction false} InactiveHandsOutNothing(s: Sys, later: Schedule, l: nat, id: Id)
    requires Inv(s) && Known(s, id, l) && !IsActive(s, l) && NoFetch(s, id) && !s.socks[id].handed
    ensures var s' := Run(s, later);
            Known(s', id, l) && !IsActive(s', l) && NoFetch(s', id) && !s'.socks[id].handed
    decreases |later|
  {
    if later != [] {
      var init, last := later[..|later| - 1], later[|later| - 1];
      InactiveHandsOutNothing(s, init, l, id);
      RunKeeps(s, init);
      NoFetchStep(Run(s, init), last.0, last.1, l, id);
      StepIsLater(Run(s, init), last.0, last.1);
    }
  }

  lemma HandedStays(s: Sys, t: nat, a: Action, id: Id)
    requires IdsOk(s) && id in s.socks && s.socks[id].handed
    ensures id in Step(s, t, a).socks && Step(s, t, a).socks[id].handed
  {
    HandsOutOnlyFetched(s, t, a, id);
    NewIsNew(s, t, a);
    SockAfter(s, t, Decide(s, t, a), id);
    StepIsLater(s, t, a);
  }

  // ---------- dropping ----------

  lemma EffectHandles(s: Sys, e: Effect, id: Id)
    ensures id in Perform(s, e).handles <==> e == HandOut(id) || (id in s.handles && e != DropHandle(id))
  {
  }

  lemma DroppedStep(s: Sys, t: nat, a: Action, id: Id)
    requires OwnersOk(s) && id in s.socks && s.socks[id].handed && id !in s.handles
    ensures id !in Step(s, t, a).handles
  {
    HandsOutOnlyFetched(s, t, a, id);
    EffectHandles(s, Decide(s, t, a).effect, id);
    assert forall u :: u in s.ops ==> !Owns(s.ops[u], id);
  }

  // A dropped socket is gone for good: no read, write or shutdown ever starts on it again.
  lemma {:induction false} DroppedIsGone(s: Sys, later: Schedule, id: Id)
    requires Inv(s) && id in s.socks && s.socks[id].handed && id !in s.handles
    ensures var s' := Run(s, later); id in s'.socks && s'.socks[id].handed && id !in s'.handles
    decreases |later|
  {
    if later != [] {
      var init, last := later[..|later| - 1], later[|later| - 1];
      var s1 := Run(s, init);
      DroppedIsGone(s, init, id);
      RunKeeps(s, init);
      DroppedStep(s1, last.0, last.1, id);
      HandedStays(s1, last.0, last.1, id);
    }
  }

  lemma DropDrops(s: Sys, t: nat, id: Id)
    requires PcAt(s, t).Idle?
    ensures Step(s, t, DropSocket(id)).handles == s.handles - {id}
    ensures Step(s, t, DropSocket(id)) == MoveTo(s.(handles := s.handles - {id}), t, Idle)
  {
  }
}
