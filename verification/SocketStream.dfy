/**
 The read side of a virtual socket as a value: what one lock region on
 `VirtualJsSocketState::read` does to the bytes not yet delivered, the eof mark
 and the error.
 */
module SocketStream {
  import opened Prelude

  datatype Stream = Stream(unread: seq<Byte>, eof: bool, err: Option<string>)

  const EMPTY := Stream([], false, None)

  // Something a parked reader would want to know about.
  predicate Readable(s: Stream) {
    s.unread != [] || s.eof || s.err.Some?
  }

  predicate TakesData(s: Stream) {
    !s.eof && s.err.None?
  }

  function PushData(s: Stream, data: seq<Byte>): Stream {
    if TakesData(s) then s.(unread := s.unread + data) else s
  }

  function PushEof(s: Stream): Stream {
    s.(eof := true)
  }

  function PushError(s: Stream, message: string): Stream {
    s.(err := Some(message))
  }

  function Abort(s: Stream, message: string): Stream {
    if TakesData(s) then s.(err := Some(message)) else s
  }

  datatype Poll = Pending | Failed(message: string) | Ready

  function Min(a: nat, b: nat): nat {
    if a <= b then a else b
  }

  // How many bytes one poll moves into a buffer with `room` bytes left.
  function Taken(s: Stream, room: nat): nat {
    if s.err.Some? then 0 else Min(room, |s.unread|)
  }

  function AfterRead(s: Stream, room: nat): Stream {
    s.(unread := s.unread[Taken(s, room)..])
  }

  // The answer of one poll whose buffer already held `held` bytes: the emptiness
  // test looks at the whole filled part, not only at what this poll added.
  function Answer(s: Stream, held: nat, room: nat): Poll {
    if s.err.Some? then Failed(s.err.value)
    else if held + Taken(s, room) == 0 && !s.eof then Pending
    else Ready
  }

  // Whether that poll marks the socket closed.
  predicate Closes(s: Stream, held: nat, room: nat) {
    s.err.Some? || (held + Taken(s, room) == 0 && s.eof)
  }
}
