/**
 `VirtualJsSocketState` and the read half of `VirtualJsSocket`: a queue of chunks,
 each with the offset already delivered, refines the byte stream of `SocketStream`.
 */
module SocketState {
  import opened Prelude
  import opened SocketStream

  datatype Chunk = Chunk(bytes: seq<Byte>, offset: nat)

  // What is left of a chunk; `saturating_sub` makes an offset past the end harmless.
  function Rest(c: Chunk): seq<Byte> {
    if c.offset <= |c.bytes| then c.bytes[c.offset..] else []
  }

  function Unread(pending: seq<Chunk>): seq<Byte> {
    if pending == [] then [] else Rest(pending[0]) + Unread(pending[1..])
  }

  lemma {:induction false} UnreadAppend(pending: seq<Chunk>, c: Chunk)
    ensures Unread(pending + [c]) == Unread(pending) + Rest(c)
  {
    if pending == [] {
      assert (pending + [c])[1..] == [];
    } else {
      assert (pending + [c])[1..] == pending[1..] + [c];
      UnreadAppend(pending[1..], c);
    }
  }

  lemma UnreadFront(c: Chunk, rest: seq<Chunk>)
    ensures Unread([c] + rest) == Rest(c) + Unread(rest)
  {
    assert ([c] + rest)[1..] == rest;
  }

  lemma RestSplits(c: Chunk, k: nat)
    requires c.offset <= |c.bytes| && k <= |Rest(c)|
    ensures Rest(c) == c.bytes[c.offset..c.offset + k] + Rest(Chunk(c.bytes, c.offset + k))
  {
  }

  // What is pushed back: the front chunk while it has bytes left.
  function AfterRound(c: Chunk, rest: seq<Chunk>, k: nat): seq<Chunk> {
    if c.offset + k < |c.bytes| then [Chunk(c.bytes, c.offset + k)] + rest else rest
  }

  lemma UnreadAfterRound(c: Chunk, rest: seq<Chunk>, k: nat)
    requires c.offset <= |c.bytes| && k <= |Rest(c)|
    ensures Unread(AfterRound(c, rest, k)) == Rest(Chunk(c.bytes, c.offset + k)) + Unread(rest)
  {
    var d := Chunk(c.bytes, c.offset + k);
    if c.offset + k < |c.bytes| {
      UnreadFront(d, rest);
    } else {
      assert Rest(d) == [];
    }
  }

  // One round of the copy loop conserves the bytes.
  lemma RoundConserves(buf: seq<Byte>, c: Chunk, rest: seq<Chunk>, k: nat)
    requires c.offset <= |c.bytes| && k <= |Rest(c)|
    ensures buf + Unread([c] + rest) == buf + c.bytes[c.offset..c.offset + k] + Unread(AfterRound(c, rest, k))
  {
    var slice, left := c.bytes[c.offset..c.offset + k], Rest(Chunk(c.bytes, c.offset + k));
    UnreadFront(c, rest);
    RestSplits(c, k);
    UnreadAfterRound(c, rest, k);
    Regroup(slice, left, Unread(rest));
    Regroup(buf, slice, left + Unread(rest));
  }

  lemma Regroup(a: seq<Byte>, b: seq<Byte>, c: seq<Byte>)
    ensures a + (b + c) == a + b + c
  {
  }

  // As many bytes as fit went from the front of `all` behind `filled`; `left` is the rest.
  predicate Moved(filled: seq<Byte>, all: seq<Byte>, buf: seq<Byte>, left: seq<Byte>, capacity: nat)
    requires |filled| <= capacity
  {
    var n := if capacity - |filled| <= |all| then capacity - |filled| else |all|;
    buf == filled + all[..n] && left == all[n..]
  }

  // A full buffer or an empty queue fixes how much was moved.
  lemma MovedExactly(filled: seq<Byte>, all: seq<Byte>, buf: seq<Byte>, left: seq<Byte>, capacity: nat)
    requires buf + left == filled + all && |filled| <= |buf| <= capacity
    requires |buf| < capacity ==> left == []
    ensures Moved(filled, all, buf, left, capacity)
  {
    var n := Min(capacity - |filled|, |all|);
    assert |buf| == |filled| + n;
    assert (buf + left)[..|buf|] == buf && (buf + left)[|buf|..] == left;
    assert (filled + all)[..|buf|] == filled + all[..n];
    assert (filled + all)[|buf|..] == all[n..];
  }

  class VirtualJsSocketState {
    var pending: seq<Chunk>
    var eof: bool
    var err: Option<string>
    var closed: bool

    // The stream this queue stands for.
    function View(): Stream
      reads this
    {
      Stream(Unread(pending), eof, err)
    }

    constructor ()
      ensures View() == EMPTY && !closed
    {
      pending, eof, err, closed := [], false, None, false;
    }

    method PushData(data: seq<Byte>) returns (accepted: bool)
      modifies this
      ensures accepted <==> !old(closed) && !old(eof) && old(err).None?
      ensures Unread(pending) == old(Unread(pending)) + (if accepted then data else [])
      ensures eof == old(eof) && err == old(err) && closed == old(closed)
      ensures View() == if accepted then SocketStream.PushData(old(View()), data) else old(View())
    {
      if closed { return false; }
      if eof { return false; }
      if err.Some? { return false; }
      UnreadAppend(pending, Chunk(data, 0));
      pending := pending + [Chunk(data, 0)];
      return true;
    }

    method PushEof()
      modifies this
      ensures eof == (old(eof) || !old(closed))
      ensures Unread(pending) == old(Unread(pending)) && err == old(err) && closed == old(closed)
      ensures View() == if old(closed) then old(View()) else SocketStream.PushEof(old(View()))
    {
      if closed { return; }
      eof := true;
    }

    method PushError(message: string)
      modifies this
      ensures err == if old(closed) then old(err) else Some(message)
      ensures Unread(pending) == old(Unread(pending)) && eof == old(eof) && closed == old(closed)
      ensures View() == if old(closed) then old(View()) else SocketStream.PushError(old(View()), message)
    {
      if closed { return; }
      err := Some(message);
    }

    method Abort(message: string)
      modifies this
      ensures closed && err == if !old(eof) && old(err).None? then Some(message) else old(err)
      ensures Unread(pending) == old(Unread(pending)) && eof == old(eof)
      ensures View() == SocketStream.Abort(old(View()), message)
    {
      closed := true;
      if !eof && err.None? {
        err := Some(message);
      }
    }

    // One round of the copy loop: copy from the front chunk, and put back what is left of it.
    method CopyFront(held: seq<Byte>, capacity: nat) returns (buf: seq<Byte>)
      requires |held| < capacity && pending != []
      modifies this`pending
      ensures buf + Unread(pending) == held + old(Unread(pending))
      ensures |held| <= |buf| <= capacity
      ensures |buf| == capacity || pending == old(pending)[1..]
    {
      var c, rest := pending[0], pending[1..];
      assert pending == [c] + rest;
      var remain := |Rest(c)|;
      if remain == 0 {
        UnreadFront(c, rest);
        pending := rest;
        return held;
      }
      var toCopy := Min(remain, capacity - |held|);
      RoundConserves(held, c, rest, toCopy);
      buf := held + c.bytes[c.offset..c.offset + toCopy];
      pending := AfterRound(c, rest, toCopy);
    }

    // The copy loop of poll_read: fill the buffer from the front of the queue.
    method CopyOut(filled: seq<Byte>, capacity: nat) returns (buf: seq<Byte>)
      requires |filled| <= capacity
      modifies this`pending
      ensures buf + Unread(pending) == filled + old(Unread(pending))
      ensures |filled| <= |buf| <= capacity
      ensures |buf| < capacity ==> Unread(pending) == []
    {
      buf := filled;
      while |buf| < capacity && pending != []
        invariant buf + Unread(pending) == filled + old(Unread(pending))
        invariant |filled| <= |buf| <= capacity
        decreases capacity - |buf| > 0, |pending|
      {
        buf := CopyFront(buf, capacity);
      }
    }

    // poll_read into a buffer that already holds `filled` out of `capacity` bytes.
    method PollRead(filled: seq<Byte>, capacity: nat) returns (poll: Poll, buf: seq<Byte>)
      requires |filled| <= capacity
      modifies this
      ensures eof == old(eof) && err == old(err)
      // an error is reported at once and closes the socket; no byte moves
      ensures old(err).Some? ==> poll == Failed(old(err).value) && closed
      ensures old(err).Some? ==> buf == filled && View().unread == old(View()).unread
      // otherwise as many bytes move as fit, and an empty result is the end, which closes the
      // socket, or not yet anything
      ensures old(err).None? ==> Moved(filled, old(View()).unread, buf, View().unread, capacity)
      ensures old(err).None? ==> poll == if |buf| == 0 && !old(eof) then Pending else Ready
      ensures old(err).None? ==> (closed <==> old(closed) || (|buf| == 0 && old(eof)))
    {
      buf := filled;
      if err.Some? {
        closed := true;
        poll := Failed(err.value);
        return;
      }
      buf := CopyOut(filled, capacity);
      MovedExactly(filled, old(View()).unread, buf, View().unread, capacity);
      if |buf| == 0 {
        if eof {
          closed := true;
          poll := Ready;
          return;
        }
        poll := Pending;
        return;
      }
      poll := Ready;
    }
  }
}
