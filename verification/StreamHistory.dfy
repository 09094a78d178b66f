/** Whole histories of one socket's read side: nothing is lost, invented or reordered. */
module StreamHistory {
  import opened Prelude
  import opened SocketStream
  import opened SocketState

  // Calls as the class `SocketState.VirtualJsSocketState` specifies them; a read names
  // how many bytes its buffer holds already and how many more fit.
  datatype Call =
    | Data(bytes: seq<Byte>)
    | Eof
    | Error(message: string)
    | Aborted(message: string)
    | Read(held: nat, room: nat)

  // The stream, the closed flag, and what was accepted and delivered so far.
  datatype History = History(stream: Stream, closed: bool, accepted: seq<Byte>, delivered: seq<Byte>)

  const START := History(EMPTY, false, [], [])

  predicate Accepts(h: History) {
    !h.closed && TakesData(h.stream)
  }

  function Do(h: History, call: Call): History {
    match call
    case Data(bytes) =>
      if Accepts(h) then h.(stream := PushData(h.stream, bytes), accepted := h.accepted + bytes) else h
    case Eof => if h.closed then h else h.(stream := PushEof(h.stream))
    case Error(message) => if h.closed then h else h.(stream := PushError(h.stream, message))
    case Aborted(message) => h.(stream := Abort(h.stream, message), closed := true)
    case Read(held, room) =>
      h.(stream := AfterRead(h.stream, room),
         closed := h.closed || Closes(h.stream, held, room),
         delivered := h.delivered + h.stream.unread[..Taken(h.stream, room)])
  }

  function Play(h: History, calls: seq<Call>): History
    decreases |calls|
  {
    if calls == [] then h else Do(Play(h, calls[..|calls| - 1]), calls[|calls| - 1])
  }

  // Whatever the order and the sizes: delivered bytes, then bytes still pending, are
  // exactly the accepted bytes in the order they were pushed. Errors drop nothing.
  lemma {:induction false} BytesAreConserved(calls: seq<Call>)
    ensures var h := Play(START, calls); h.delivered + h.stream.unread == h.accepted
    decreases |calls|
  {
    if calls != [] {
      var h := Play(START, calls[..|calls| - 1]);
      BytesAreConserved(calls[..|calls| - 1]);
      match calls[|calls| - 1]
      case Data(bytes) => assert h.delivered + (h.stream.unread + bytes) == h.accepted + bytes;
      case Read(_, room) =>
        var n := Taken(h.stream, room);
        assert (h.delivered + h.stream.unread[..n]) + h.stream.unread[n..] == h.delivered + h.stream.unread;
      case _ =>
    }
  }

  // Once eof or an error is recorded nothing more is accepted, and it stays recorded.
  lemma {:induction false} EndIsFinal(h: History, calls: seq<Call>)
    requires h.stream.eof || h.stream.err.Some?
    ensures Play(h, calls).accepted == h.accepted
    ensures h.stream.eof ==> Play(h, calls).stream.eof
    ensures h.stream.err.Some? ==> Play(h, calls).stream.err.Some?
    decreases |calls|
  {
    if calls != [] {
      EndIsFinal(h, calls[..|calls| - 1]);
    }
  }

  // Call i aborts, or is a read that meets an error, or one into an empty buffer that finds
  // the end and moves nothing.
  predicate ClosingCall(calls: seq<Call>, i: nat)
    requires i < |calls|
  {
    var before := Play(START, calls[..i]).stream;
    match calls[i]
    case Aborted(_) => true
    case Read(held, room) =>
      before.err.Some? || (held == 0 && before.eof && (room == 0 || before.unread == []))
    case _ => false
  }

  // A socket is closed exactly when some call of its history closed it.
  lemma {:induction false} ClosedIff(calls: seq<Call>)
    ensures Play(START, calls).closed <==> exists i :: 0 <= i < |calls| && ClosingCall(calls, i)
    decreases |calls|
  {
    if calls != [] {
      var n := |calls| - 1;
      var init := calls[..n];
      ClosedIff(init);
      assert forall i :: 0 <= i < n ==> init[..i] == calls[..i] && init[i] == calls[i];
      forall i | 0 <= i < n ensures ClosingCall(init, i) == ClosingCall(calls, i) {
      }
      assert Play(START, calls).closed <==> Play(START, init).closed || ClosingCall(calls, n);
      if Play(START, init).closed {
        var i :| 0 <= i < n && ClosingCall(init, i);
        assert ClosingCall(calls, i);
      }
    }
  }

  // The class makes every call as the history says; `moved` is what it accepted or delivered.
  method Replay(state: VirtualJsSocketState, ghost h: History, call: Call) returns (moved: seq<Byte>)
    requires state.View() == h.stream && state.closed == h.closed
    modifies state
    ensures state.View() == Do(h, call).stream && state.closed == Do(h, call).closed
    ensures Do(h, call).accepted == h.accepted + (if call.Data? then moved else [])
    ensures Do(h, call).delivered == h.delivered + (if call.Read? then moved else [])
  {
    moved := [];
    match call
    case Data(bytes) =>
      var accepted := state.PushData(bytes);
      moved := if accepted then bytes else [];
    case Eof => state.PushEof();
    case Error(message) => state.PushError(message);
    case Aborted(message) => state.Abort(message);
    case Read(held, room) =>
      var poll;
      moved, poll := ReplayRead(state, h, held, room);
  }

  // A read also answers as the history's stream does.
  method ReplayRead(state: VirtualJsSocketState, ghost h: History, held: nat, room: nat)
    returns (moved: seq<Byte>, poll: Poll)
    requires state.View() == h.stream && state.closed == h.closed
    modifies state
    ensures var h' := Do(h, Read(held, room));
            state.View() == h'.stream && state.closed == h'.closed && h'.delivered == h.delivered + moved
    ensures poll == Answer(h.stream, held, room)
  {
    var filled := Zeroes(held);
    var buf;
    poll, buf := state.PollRead(filled, held + room);
    moved := buf[held..];
    MovedIsTaken(h.stream, filled, buf, state.View().unread, room);
  }

  function Zeroes(n: nat): (r: seq<Byte>)
    ensures |r| == n
  {
    seq(n, _ => 0)
  }

  lemma MovedIsTaken(s: Stream, filled: seq<Byte>, buf: seq<Byte>, left: seq<Byte>, room: nat)
    requires s.err.None? ==> Moved(filled, s.unread, buf, left, |filled| + room)
    requires s.err.Some? ==> buf == filled && left == s.unread
    ensures |buf| == |filled| + Taken(s, room)
    ensures buf[|filled|..] == s.unread[..Taken(s, room)] && left == s.unread[Taken(s, room)..]
  {
  }

  // A successful read that adds nothing means the end: eof, and everything delivered.
  lemma EmptyReadIsTheEnd(calls: seq<Call>, room: nat)
    requires room > 0
    requires var s := Play(START, calls).stream; Answer(s, 0, room) == Ready && Taken(s, room) == 0
    ensures var h := Play(START, calls); h.stream.eof && h.delivered == h.accepted
  {
    BytesAreConserved(calls);
  }

  // That reading is sound exactly for buffers that start empty and have room: a buffer
  // that already holds bytes makes an idle stream look ended, and a full one hides bytes.
  lemma EmptyReadIsSoundIff(held: nat, room: nat)
    ensures (forall s: Stream :: Answer(s, held, room) == Ready && Taken(s, room) == 0 ==> s.eof && s.unread == [])
            <==> held == 0 && room > 0
  {
    if held > 0 {
      assert Answer(EMPTY, held, room) == Ready && Taken(EMPTY, room) == 0;
    } else if room == 0 {
      var s := Stream([0], true, None);
      assert Answer(s, held, room) == Ready && Taken(s, room) == 0;
    }
  }

  // With such a buffer, pending is the answer exactly when there is nothing to report.
  lemma PendingIffNothing(s: Stream, room: nat)
    requires room > 0
    ensures Answer(s, 0, room) == Pending <==> !Readable(s)
  {
  }

  function ReadAll(s: Stream, rooms: seq<nat>): Stream
    decreases |rooms|
  {
    if rooms == [] then s else ReadAll(AfterRead(s, rooms[0]), rooms[1..])
  }

  // As many reads of any positive size as there are bytes empty a stream without an error.
  lemma {:induction false} ReadsDrain(s: Stream, rooms: seq<nat>)
    requires s.err.None? && (forall i :: 0 <= i < |rooms| ==> rooms[i] > 0) && |s.unread| <= |rooms|
    ensures ReadAll(s, rooms).unread == []
    decreases |rooms|
  {
    if rooms != [] {
      ReadsDrain(AfterRead(s, rooms[0]), rooms[1..]);
    }
  }
}
