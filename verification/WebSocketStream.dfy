/**
  A WebSocket connection over the bytes that arrive: frames are dispatched as soon
  as they are whole, up to the first Close
  (HTTPServer/HttpServer/src/websocket/WebSocketServer.cpp).
 */
module WebSocketStream {
  import opened Common
  import opened WebSocketFrame

  /** What the server does for a frame: bytes sent and handler calls made. */
  datatype Event = Sent(wire: Bytes) | OnMessage(payload: Bytes) | OnPing(payload: Bytes) | OnPong(payload: Bytes) | OnClose

  const NoKey: Bytes := [0, 0, 0, 0]

  function Dispatch(f: Frame): seq<Event> {
    if f.opcode == Text || f.opcode == Binary then [OnMessage(f.payload)]
    else if f.opcode == Ping then [Sent(Encode(CreateFrame(Pong, f.payload, false, NoKey))), OnPing(f.payload)]
    else if f.opcode == Pong then [OnPong(f.payload)]
    else if f.opcode == Close then [Sent(Encode(CreateFrame(Close, [], false, NoKey))), OnClose]
    else []
  }

  /** A connection: registered until its first Close; bytes not yet taken; what was done so far. */
  datatype Conn = Conn(registered: bool, buffer: Bytes, log: seq<Event>)

  /** The dispatch loop of processFrame. */
  function Drain(c: Conn): Conn
    decreases |c.buffer|
  {
    if !c.registered || !Complete(c.buffer) then c
    else
      var f := Parsed(c.buffer);
      Drain(Conn(f.opcode != Close, c.buffer[WireSize(c.buffer)..], c.log + Dispatch(f)))
  }

  function Arrive(c: Conn, bytes: Bytes): Conn { Drain(c.(buffer := c.buffer + bytes)) }

  function Feed(c: Conn, chunks: seq<Bytes>): Conn {
    if chunks == [] then c else Arrive(Feed(c, chunks[..|chunks| - 1]), chunks[|chunks| - 1])
  }

  // ------------------------------------------------------------------- splitting

  /** Draining early does not change what draining everything gives. */
  lemma {:induction false} DrainEarly(c: Conn, more: Bytes)
    ensures Arrive(Drain(c), more) == Arrive(c, more)
    decreases |c.buffer|
  {
    if c.registered && Complete(c.buffer) {
      var f, n := Parsed(c.buffer), WireSize(c.buffer);
      var next := Conn(f.opcode != Close, c.buffer[n..], c.log + Dispatch(f));
      ParseStable(c.buffer, more);
      DrainEarly(next, more);
      assert (c.buffer + more)[n..] == c.buffer[n..] + more;
    }
  }

  lemma ArriveTwice(c: Conn, x: Bytes, y: Bytes)
    ensures Arrive(Arrive(c, x), y) == Arrive(c, x + y)
  {
    DrainEarly(c.(buffer := c.buffer + x), y);
    assert c.buffer + x + y == c.buffer + (x + y);
  }

  /** However the bytes are split into arrivals, the same frames are dispatched, the
      same bytes are left and the connection ends in the same state. */
  lemma {:induction false} SplitIsIrrelevant(c: Conn, chunks: seq<Bytes>)
    requires Drain(c) == c
    ensures Feed(c, chunks) == Arrive(c, Concat(chunks))
  {
    if chunks == [] {
      assert c.buffer + [] == c.buffer;
    } else {
      var front := chunks[..|chunks| - 1];
      SplitIsIrrelevant(c, front);
      ArriveTwice(c, Concat(front), chunks[|chunks| - 1]);
    }
  }

  // ----------------------------------------------------------------- frame lists

  predicate Sendable(f: Frame) { |f.key| == 4 && |f.payload| < Pow256(8) && f.opcode < 16 }

  predicate AllSendable(fs: seq<Frame>) { forall k | 0 <= k < |fs| :: Sendable(fs[k]) }

  function EncodeAll(fs: seq<Frame>): Bytes
    requires AllSendable(fs)
  {
    if fs == [] then [] else Encode(fs[0]) + EncodeAll(fs[1..])
  }

  /** The number of frames up to and including the first Close. */
  function Taken(fs: seq<Frame>): (n: nat)
    ensures n <= |fs|
  {
    if fs == [] then 0 else if fs[0].opcode == Close then 1 else 1 + Taken(fs[1..])
  }

  function DispatchAll(fs: seq<Frame>): seq<Event>
    requires AllSendable(fs)
  {
    if fs == [] then [] else Dispatch(Received(fs[0])) + DispatchAll(fs[1..])
  }

  ghost predicate HasClose(fs: seq<Frame>) { exists f :: f in fs && f.opcode == Close }

  /** One whole frame in front is dispatched and its bytes are taken. */
  lemma DrainFrame(log: seq<Event>, f: Frame, rest: Bytes)
    requires Sendable(f)
    ensures Drain(Conn(true, Encode(f) + rest, log)) == Drain(Conn(f.opcode != Close, rest, log + Dispatch(Received(f))))
  {
    EncodeParses(f, rest);
    assert (Encode(f) + rest)[|Encode(f)|..] == rest;
  }

  lemma {:induction false} DrainFrames(fs: seq<Frame>, log: seq<Event>)
    requires AllSendable(fs)
    ensures Drain(Conn(true, EncodeAll(fs), log)) ==
      Conn(!HasClose(fs), EncodeAll(fs[Taken(fs)..]), log + DispatchAll(fs[..Taken(fs)]))
  {
    if fs == [] {
      assert !Complete([]);
    } else {
      var f, tail := fs[0], fs[1..];
      DrainFrame(log, f, EncodeAll(tail));
      assert f in fs && forall g | g in tail :: g in fs;
      if f.opcode == Close {
        assert fs[..1][1..] == [];
      } else {
        DrainFrames(tail, log + Dispatch(Received(f)));
        SameTaken(fs, log);
      }
    }
  }

  lemma SameTaken(fs: seq<Frame>, log: seq<Event>)
    requires fs != [] && fs[0].opcode != Close && AllSendable(fs)
    ensures var n := Taken(fs[1..]);
      && fs[Taken(fs)..] == fs[1..][n..]
      && log + DispatchAll(fs[..Taken(fs)]) == log + Dispatch(Received(fs[0])) + DispatchAll(fs[1..][..n])
      && (HasClose(fs) <==> HasClose(fs[1..]))
  {
    DispatchedFirst(fs, log, Taken(fs[1..]));
    CloseBehind(fs);
  }

  lemma DispatchedFirst(fs: seq<Frame>, log: seq<Event>, n: nat)
    requires fs != [] && AllSendable(fs) && n < |fs|
    ensures log + DispatchAll(fs[..n + 1]) == log + Dispatch(Received(fs[0])) + DispatchAll(fs[1..][..n])
  {
    assert fs[..n + 1][1..] == fs[1..][..n];
  }

  lemma CloseBehind(fs: seq<Frame>)
    requires fs != [] && fs[0].opcode != Close
    ensures HasClose(fs) <==> HasClose(fs[1..])
  {
    assert fs == [fs[0]] + fs[1..];
  }

  /** Streaming: for every list of frames and every split of its bytes, the frames up to
      the first Close are dispatched in order and exactly their bytes are taken. */
  lemma Streaming(fs: seq<Frame>, chunks: seq<Bytes>)
    requires AllSendable(fs) && Concat(chunks) == EncodeAll(fs)
    ensures Feed(Conn(true, [], []), chunks) ==
      Conn(!HasClose(fs), EncodeAll(fs[Taken(fs)..]), DispatchAll(fs[..Taken(fs)]))
  {
    var c := Conn(true, [], []);
    assert !Complete([]);
    SplitIsIrrelevant(c, chunks);
    assert c.buffer + Concat(chunks) == EncodeAll(fs);
    DrainFrames(fs, []);
  }

  /** A ping is answered by a pong that carries its payload. */
  lemma PingIsAnswered(payload: Bytes, mask: bool, key: Bytes)
    requires |key| == 4 && |payload| < Pow256(8)
    ensures var events := Dispatch(Received(CreateFrame(Ping, payload, mask, key)));
      && |events| == 2 && events[0].Sent? && events[1] == OnPing(payload)
      && ParseFrame(events[0].wire) == Some(Frame(true, Pong, false, |payload|, NoKey, payload))
  {
    if mask { MaskedTwice(payload, key); }
    var wire := Encode(CreateFrame(Pong, payload, false, NoKey));
    CreatedFrameArrives(Pong, payload, false, NoKey, []);
    assert wire + [] == wire;
  }
}
