/**
  The frame codec, the connection context and the dispatch loop, step by step
  (HTTPServer/HttpServer/src/websocket/).
 */
module WebSocketObject {
  import opened Common
  import opened WebSocketFrame
  import opened WebSocketStream

  /** The loops that mask or unmask a payload in place. */
  method ApplyMask(payload: array<Byte>, key: Bytes)
    requires |key| == 4
    modifies payload
    ensures payload[..] == Masked(old(payload[..]), key)
  {
    for i := 0 to payload.Length
      invariant forall k | 0 <= k < i :: payload[k] == XorByte(old(payload[k]), key[k % 4])
      invariant forall k | i <= k < payload.Length :: payload[k] == old(payload[k])
    {
      payload[i] := XorByte(payload[i], key[i % 4]);
    }
    assert payload[..] == Masked(old(payload[..]), key);
  }

  /** A copy of the payload, masked in place when there is a key. */
  method MaskIf(mask: bool, raw: Bytes, key: Bytes) returns (payload: Bytes)
    requires |key| == 4
    ensures payload == if mask then Masked(raw, key) else raw
  {
    var copy := new Byte[|raw|](i requires 0 <= i < |raw| => raw[i]);
    assert copy[..] == raw;
    if mask { ApplyMask(copy, key); }
    payload := copy[..];
  }

  /** The payload length in its three forms, and how many bytes it takes with the two first ones. */
  method ReadLength(data: Bytes) returns (payloadLen: nat, offset: nat)
    requires |data| >= 2
    ensures offset == 2 + ExtBytes(data[1])
    ensures |data| >= offset ==> payloadLen == PayloadLen(data)
  {
    payloadLen, offset := data[1] % 128, 2;
    if payloadLen == 126 {
      offset := offset + 2;
      if |data| >= 4 { payloadLen := FromBE(data[2..4]); }
    } else if payloadLen == 127 {
      offset := offset + 8;
      if |data| >= 10 { payloadLen := FromBE(data[2..10]); }
    }
  }

  /** The masking key, and the place of the payload; bytes may be missing. */
  method ReadKey(data: Bytes, mask: bool, at: nat) returns (whole: bool, key: Bytes, offset: nat)
    requires |data| >= at
    ensures offset == at + (if mask then 4 else 0) && (whole <==> |data| >= offset) && |key| == 4
    ensures whole ==> key == if mask then data[at..at + 4] else NoKey
  {
    whole, key, offset := true, NoKey, at;
    if mask {
      offset := offset + 4;
      whole := |data| >= offset;
      if whole { key := data[at..at + 4]; }
    }
  }

  /** WebSocketFrame::parseFrame */
  method Parse(data: Bytes) returns (frame: Option<Frame>)
    ensures frame == ParseFrame(data)
  {
    if |data| < 2 { return None; }
    var fin, op := data[0] / 128 == 1, data[0] % 16;
    var mask := data[1] / 128 == 1;
    var payloadLen, at := ReadLength(data);
    if |data| < at { return None; }
    var whole, key, offset := ReadKey(data, mask, at);
    if !whole || |data| < offset + payloadLen { return None; }
    assert Complete(data) && offset == HeaderSize(data[1]);
    var payload := MaskIf(mask, data[offset..offset + payloadLen], key);
    return Some(Frame(fin, op, mask, payloadLen, key, payload));
  }

  /** WebSocketFrame::createFrame, given the random key. */
  method Create(op: nat, payload: Bytes, mask: bool, key: Bytes) returns (frame: Frame)
    requires |key| == 4
    ensures frame == CreateFrame(op, payload, mask, key)
  {
    frame := Frame(true, op, mask, |payload|, NoKey, []);
    if mask {
      var masked := MaskIf(true, payload, key);
      frame := frame.(key := key, payload := masked);
    } else {
      frame := frame.(payload := payload);
    }
  }

  /** WebSocketFrame::encodeToString */
  method EncodeToString(f: Frame) returns (wire: Bytes)
    requires |f.key| == 4
    ensures wire == Encode(f)
  {
    wire := [(if f.fin then 0x80 else 0) + f.opcode % 16];
    var len, bit := |f.payload|, if f.mask then 0x80 else 0;
    if len <= 125 {
      wire := wire + [bit + len];
    } else if len <= 0xFFFF {
      wire := wire + [bit + 126];
      wire := wire + ToBE(len, 2);
    } else {
      wire := wire + [bit + 127];
      wire := wire + ToBE(len, 8);
    }
    if f.mask { wire := wire + f.key; }
    wire := wire + f.payload;
  }

  class Buffer {
    var data: Bytes

    constructor ()
      ensures data == []
    {
      data := [];
    }
  }

  datatype State = Connecting | Open | Closing | Closed

  class WebSocketContext {
    var state: State
    var currentFrame: Option<Frame>

    constructor ()
      ensures state == Connecting && currentFrame == None
    {
      state, currentFrame := Connecting, None;
    }

    /** parseFrame: takes one whole frame from the buffer; the bytes to take are
        worked out again from the header. */
    method ParseFrom(buf: Buffer) returns (whole: bool)
      modifies this, buf
      ensures whole <==> Complete(old(buf.data))
      ensures !whole ==> buf.data == old(buf.data) && state == old(state) && currentFrame == old(currentFrame)
      ensures whole ==>
        && currentFrame == Some(Parsed(old(buf.data)))
        && WireSize(old(buf.data)) <= |old(buf.data)| && buf.data == old(buf.data)[WireSize(old(buf.data))..]
        && state == if Parsed(old(buf.data)).opcode == Close then Closing else old(state)
    {
      if |buf.data| == 0 { return false; }
      var frame := Parse(buf.data);
      if frame.None? { return false; }
      ParseStable(buf.data, []);
      var raw := buf.data;
      var offset := 2;
      var firstLen := raw[1] % 128;
      if firstLen == 126 { offset := offset + 2; } else if firstLen == 127 { offset := offset + 8; }
      if raw[1] / 128 == 1 { offset := offset + 4; }
      offset := offset + |frame.value.payload|;
      if frame.value.opcode == Close { state := Closing; }
      currentFrame := frame;
      buf.data := buf.data[offset..];
      return true;
    }
  }

  class WebSocketServer {
    var contexts: map<string, WebSocketContext>
    var handlers: set<string>
    /** Bytes sent and handler calls, per connection, in order. */
    ghost var log: map<string, seq<Event>>

    constructor ()
      ensures contexts == map[] && handlers == {} && log == map[]
    {
      contexts, handlers, log := map[], {}, map[];
    }

    /** The connection as the dispatch loop sees it. */
    ghost function ConnOf(name: string, buf: Buffer): Conn
      reads this, buf
    {
      Conn(name in contexts && name in handlers, buf.data, if name in log then log[name] else [])
    }

    method RemoveConnection(name: string)
      modifies this`contexts, this`handlers
      ensures contexts == old(contexts) - {name} && handlers == old(handlers) - {name}
    {
      contexts, handlers := contexts - {name}, handlers - {name};
    }

    /** The calls made for one frame; the result tells whether the connection was closed. */
    method Handle(name: string, frame: Frame) returns (closed: bool)
      modifies this
      ensures closed <==> frame.opcode == Close
      ensures log == old(log)[name := (if name in old(log) then old(log)[name] else []) + Dispatch(frame)]
      ensures contexts == if closed then old(contexts) - {name} else old(contexts)
      ensures handlers == if closed then old(handlers) - {name} else old(handlers)
    {
      ghost var before := if name in log then log[name] else [];
      closed := false;
      if frame.opcode == Text || frame.opcode == Binary {
        log := log[name := before + [OnMessage(frame.payload)]];
      } else if frame.opcode == Ping {
        var pong := Create(Pong, frame.payload, false, NoKey);
        var wire := EncodeToString(pong);
        log := log[name := before + [Sent(wire), OnPing(frame.payload)]];
      } else if frame.opcode == Pong {
        log := log[name := before + [OnPong(frame.payload)]];
      } else if frame.opcode == Close {
        var reply := Create(Close, [], false, NoKey);
        var wire := EncodeToString(reply);
        log := log[name := before + [Sent(wire), OnClose]];
        RemoveConnection(name);
        closed := true;
      } else {
        log := log[name := before + []];
      }
    }

    /** processFrame */
    method ProcessFrame(name: string, buf: Buffer)
      modifies this, buf, if name in contexts then {contexts[name]} else {}
      ensures ConnOf(name, buf) == Drain(old(ConnOf(name, buf)))
      ensures forall other | other != name :: other in contexts <==> other in old(contexts)
      ensures forall other | other != name :: other in handlers <==> other in old(handlers)
      ensures forall other | other != name && other in log :: other in old(log) && log[other] == old(log)[other]
    {
      if name !in contexts || name !in handlers { return; }
      var ctx := contexts[name];
      while |buf.data| > 0
        invariant name in contexts && name in handlers && contexts[name] == ctx
        invariant Drain(ConnOf(name, buf)) == Drain(old(ConnOf(name, buf)))
        invariant contexts == old(contexts) && handlers == old(handlers)
        invariant forall other | other != name && other in log :: other in old(log) && log[other] == old(log)[other]
        decreases |buf.data|
      {
        ghost var before := buf.data;
        var whole := ctx.ParseFrom(buf);
        if !whole { break; }
        var closed := Handle(name, ctx.currentFrame.value);
        if closed { return; }
      }
    }
  }
}
