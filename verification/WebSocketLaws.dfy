/**
  The wire format in numbers, as sections 5.2, 5.3 and 5.7 of RFC 6455 give it, and
  what the server does for each opcode
  (HTTPServer/HttpServer/src/websocket/WebSocketFrame.cpp,
  HTTPServer/HttpServer/src/websocket/WebSocketServer.cpp).
 */
module WebSocketLaws {
  import opened Common
  import opened WebSocketFrame
  import opened WebSocketStream

  // ------------------------------------------------------------------------ bits

  lemma HalfThenDivide(x: nat, p: nat)
    requires p > 0
    ensures x / (2 * p) == (x / 2) / p
  {
    var q, r := x / (2 * p), x % (2 * p);
    assert x == (2 * p) * q + r;
    assert x / 2 == p * q + r / 2 by {
      assert (2 * p) * q == 2 * (p * q);
    }
    assert 0 <= r / 2 < p;
    QuotientIs(x / 2, p, q, r / 2);
  }

  lemma QuotientIs(x: nat, p: nat, q: nat, r: nat)
    requires p > 0 && x == p * q + r && r < p
    ensures x / p == q
  {
    StepsApart(p, x / p, q);
    StepsApart(p, q, x / p);
  }

  lemma StepsApart(p: nat, a: nat, b: nat)
    ensures a < b ==> p * (a + 1) <= p * b
  {
  }

  lemma Pow2Positive(n: nat)
    ensures Pow2(n) > 0
  {
  }

  /** Bit by bit, Xor is one exactly where its arguments differ. */
  lemma {:induction false} XorBits(a: nat, b: nat, bits: nat, i: nat)
    requires i < bits
    ensures Pow2(i) > 0
    ensures (Xor(a, b, bits) / Pow2(i)) % 2 == 1 <==> (a / Pow2(i)) % 2 != (b / Pow2(i)) % 2
  {
    Pow2Positive(i);
    if i > 0 {
      Pow2Positive(i - 1);
      XorBits(a / 2, b / 2, bits - 1, i - 1);
      HalfThenDivide(Xor(a, b, bits), Pow2(i - 1));
      HalfThenDivide(a, Pow2(i - 1));
      HalfThenDivide(b, Pow2(i - 1));
      assert Xor(a, b, bits) / 2 == Xor(a / 2, b / 2, bits - 1);
    }
  }

  /** Masking changes bit j of octet i exactly when bit j of octet i MOD 4 of the key is set. */
  lemma MaskedBits(payload: Bytes, key: Bytes, i: nat, j: nat)
    requires |key| == 4 && i < |payload| && j < 8
    ensures |Masked(payload, key)| == |payload| && Pow2(j) > 0
    ensures (Masked(payload, key)[i] / Pow2(j)) % 2 == 1 <==> (payload[i] / Pow2(j)) % 2 != (key[i % 4] / Pow2(j)) % 2
  {
    XorBits(payload[i], key[i % 4], 8, j);
  }

  // --------------------------------------------------------------------- lengths

  /** The number two, or eight, bytes stand for in network order. */
  function Two(s: Bytes): nat
    requires |s| == 2
  {
    256 * (s[0] as int) + (s[1] as int)
  }

  function Four(s: Bytes): nat
    requires |s| == 4
  {
    0x1_0000 * Two(s[..2]) + Two(s[2..])
  }

  function Eight(s: Bytes): nat
    requires |s| == 8
  {
    0x1_0000_0000 * Four(s[..4]) + Four(s[4..])
  }

  lemma ReadsTwo(s: Bytes)
    requires |s| == 2
    ensures FromBE(s) == Two(s)
  {
    ReadsLast(s);
    ReadsLast(s[..1]);
  }

  lemma ReadsLast(s: Bytes)
    requires s != []
    ensures FromBE(s) == 256 * FromBE(s[..|s| - 1]) + s[|s| - 1]
  {
  }

  /** Numbers of two parts are read part by part. */
  lemma {:induction false} ReadsParts(s: Bytes, t: Bytes)
    ensures FromBE(s + t) == FromBE(s) * Pow256(|t|) + FromBE(t)
  {
    if t == [] {
      assert s + t == s;
    } else {
      var front, b := t[..|t| - 1], t[|t| - 1];
      assert (s + t)[..|s + t| - 1] == s + front;
      ReadsParts(s, front);
      ReadsLast(s + t);
      ReadsLast(t);
      PartsShift(FromBE(s), Pow256(|front|), FromBE(front), b as int);
    }
  }

  lemma PartsShift(x: nat, p: nat, y: nat, b: nat)
    ensures 256 * (x * p + y) + b == x * (256 * p) + (256 * y + b)
  {
  }

  lemma ReadsFour(s: Bytes)
    requires |s| == 4
    ensures FromBE(s) == Four(s)
  {
    assert Pow256(2) == 0x1_0000 && s == s[..2] + s[2..];
    ReadsParts(s[..2], s[2..]);
    ReadsTwo(s[..2]);
    ReadsTwo(s[2..]);
  }

  lemma ReadsEight(s: Bytes)
    requires |s| == 8
    ensures FromBE(s) == Eight(s)
  {
    assert Pow256(4) == 0x1_0000_0000 && s == s[..4] + s[4..];
    ReadsParts(s[..4], s[4..]);
    ReadsFour(s[..4]);
    ReadsFour(s[4..]);
  }

  /** The payload length that the bytes announce, and where the masking key or the payload starts. */
  ghost predicate Announces(data: Bytes, len: nat, at: nat) {
    && |data| >= 2
    && (data[1] % 128 < 126 ==> len == data[1] % 128 && at == 2)
    && (data[1] % 128 == 126 ==> |data| >= 4 && len == Two(data[2..4]) && at == 4)
    && (data[1] % 128 == 127 ==> |data| >= 10 && len == Eight(data[2..10]) && at == 10)
  }

  // ----------------------------------------------------------------------- parsing

  lemma AnnouncedLength(data: Bytes)
    requires |data| >= 2 && |data| >= 2 + ExtBytes(data[1])
    ensures Announces(data, PayloadLen(data), 2 + ExtBytes(data[1]))
  {
    if data[1] % 128 == 126 { ReadsTwo(data[2..4]); }
    if data[1] % 128 == 127 { ReadsEight(data[2..10]); }
  }

  lemma OneAnnouncement(data: Bytes, len: nat, at: nat)
    requires Announces(data, len, at)
    ensures |data| >= 2 + ExtBytes(data[1]) && at == 2 + ExtBytes(data[1]) && len == PayloadLen(data)
  {
    AnnouncedLength(data);
  }

  /** A frame is parsed exactly when all the bytes it announces are there. */
  lemma ParsesWhenWhole(data: Bytes)
    ensures ParseFrame(data).Some? <==>
      exists len: nat, at: nat :: Announces(data, len, at) && |data| >= at + (if data[1] >= 128 then 4 else 0) + len
  {
    if Complete(data) { AnnouncedLength(data); }
    if len: nat, at: nat :| Announces(data, len, at) && |data| >= at + (if data[1] >= 128 then 4 else 0) + len {
      OneAnnouncement(data, len, at);
    }
  }

  /** The bits and bytes a parsed frame is made of. */
  lemma ParsedMeans(data: Bytes, len: nat, at: nat)
    requires Announces(data, len, at) && |data| >= at + (if data[1] >= 128 then 4 else 0) + len
    ensures var f := ParseFrame(data);
      && f.Some? && f.value.payloadLen == |f.value.payload| == len
      && (f.value.fin <==> data[0] >= 128) && f.value.opcode == data[0] % 16 && (f.value.mask <==> data[1] >= 128)
      && (data[1] < 128 ==> f.value.key == [0, 0, 0, 0] && forall i | 0 <= i < len :: f.value.payload[i] == data[at + i])
      && (data[1] >= 128 ==> f.value.key == data[at..at + 4] && f.value.payload == Masked(data[at + 4..at + 4 + len], data[at..at + 4]))
  {
    OneAnnouncement(data, len, at);
  }

  function HelloFrame(): Bytes { [0x81, 0x85, 0x37, 0xfa, 0x21, 0x3d, 0x7f, 0x9f, 0x4d, 0x51, 0x58] }

  function HelloKey(): Bytes { [0x37, 0xfa, 0x21, 0x3d] }

  function HelloMasked(): Bytes { [0x7f, 0x9f, 0x4d, 0x51, 0x58] }

  function Hello(): Bytes { [0x48, 0x65, 0x6c, 0x6c, 0x6f] }

  lemma HelloSlices()
    ensures HelloFrame()[2..6] == HelloKey() && HelloFrame()[6..11] == HelloMasked()
  {
  }

  /** A masked frame with the text Hello. */
  lemma MaskedHello()
    ensures ParseFrame(HelloFrame()) == Some(Frame(true, 1, true, 5, HelloKey(), Hello()))
  {
    ParsedMeans(HelloFrame(), 5, 2);
    HelloSlices();
    HelloUnmasked();
  }

  lemma HelloUnmasked()
    ensures Masked(HelloMasked(), HelloKey()) == Hello()
  {
    MaskedFive(HelloMasked(), HelloKey());
    HelloBytes();
  }

  lemma HelloBytes()
    ensures XorByte(0x7f, 0x37) == 0x48 && XorByte(0x9f, 0xfa) == 0x65 && XorByte(0x4d, 0x21) == 0x6c
    ensures XorByte(0x51, 0x3d) == 0x6c && XorByte(0x58, 0x37) == 0x6f
  {
    XorByteIs(0x7f, 0x37);
    XorByteIs(0x9f, 0xfa);
    XorByteIs(0x4d, 0x21);
    XorByteIs(0x51, 0x3d);
    XorByteIs(0x58, 0x37);
  }

  lemma MaskedFive(p: Bytes, k: Bytes)
    requires |p| == 5 && |k| == 4
    ensures Masked(p, k) == [XorByte(p[0], k[0]), XorByte(p[1], k[1]), XorByte(p[2], k[2]), XorByte(p[3], k[3]), XorByte(p[4], k[0])]
  {
  }

  function Differ(x: nat, y: nat): nat { if x % 2 == y % 2 then 0 else 1 }

  /** The sum of the four lowest bits that differ. */
  function DifferFour(x: nat, y: nat): nat {
    Differ(x, y) + 2 * Differ(x / 2, y / 2) + 4 * Differ(x / 4, y / 4) + 8 * Differ(x / 8, y / 8)
  }

  lemma XorByteIs(a: Byte, b: Byte)
    ensures XorByte(a, b) == DifferFour(a, b) + 16 * DifferFour(a / 16, b / 16)
  {
    XorFour(a, b, 8);
    XorFour(a / 16, b / 16, 4);
  }

  lemma XorFour(a: nat, b: nat, bits: nat)
    requires bits >= 4
    ensures Xor(a, b, bits) == DifferFour(a, b) + 16 * Xor(a / 16, b / 16, bits - 4)
  {
    XorTwo(a, b, bits);
    Quarter(a);
    Quarter(b);
    XorTwo(a / 4, b / 4, bits - 2);
  }

  lemma Quarter(a: nat)
    ensures a / 4 / 2 == a / 8 && a / 4 / 4 == a / 16
  {
  }

  lemma XorTwo(a: nat, b: nat, bits: nat)
    requires bits >= 2
    ensures Xor(a, b, bits) == Differ(a, b) + 2 * Differ(a / 2, b / 2) + 4 * Xor(a / 4, b / 4, bits - 2)
  {
    XorStep(a, b, bits);
    XorStep(a / 2, b / 2, bits - 1);
  }

  lemma XorStep(a: nat, b: nat, bits: nat)
    requires bits > 0
    ensures Xor(a, b, bits) == Differ(a, b) + 2 * Xor(a / 2, b / 2, bits - 1)
  {
  }

  /** An unmasked frame of 256 bytes. */
  lemma LongFrame(payload: Bytes)
    requires |payload| == 256
    ensures ParseFrame([0x82, 0x7E, 0x01, 0x00] + payload) == Some(Frame(true, 2, false, 256, [0, 0, 0, 0], payload))
  {
    var data: Bytes := [0x82, 0x7E, 0x01, 0x00] + payload;
    assert data[2..4] == [0x01, 0x00];
    ParsedMeans(data, 256, 4);
    assert ParseFrame(data).value.payload == payload;
  }

  // ---------------------------------------------------------------------- encoding

  /** The bytes of an encoded frame: the shortest of the three length forms, the key when there is one, the payload. */
  lemma EncodedMeans(f: Frame)
    requires |f.key| == 4 && |f.payload| < Pow256(8) && f.opcode < 16
    ensures var w, n, at := Encode(f), |f.payload|, if |f.payload| <= 125 then 2 else if |f.payload| <= 65535 then 4 else 10;
      && |w| == at + (if f.mask then 4 else 0) + n && Announces(w, n, at)
      && w[0] == (if f.fin then 128 else 0) + f.opcode && (w[1] >= 128 <==> f.mask)
      && (f.mask ==> w[at..at + 4] == f.key) && w[|w| - n..] == f.payload
  {
    var w, h := Encode(f), |Header(f)|;
    assert w[..h] == Header(f);
    HeaderParts(f, Header(f), w);
    LengthForms(|f.payload|, f.mask);
    HeaderIs(f, w);
    AnnouncedLength(w);
  }

  // --------------------------------------------------------------------- dispatching

  /** What is done for each opcode: text and binary are messages, a ping is answered by a pong with its
      payload, a Close by an empty Close, and everything else is passed over. */
  lemma DispatchIs(f: Frame)
    ensures (f.opcode == 1 || f.opcode == 2) ==> Dispatch(f) == [OnMessage(f.payload)]
    ensures f.opcode == 10 ==> Dispatch(f) == [OnPong(f.payload)]
    ensures f.opcode == 8 ==> Dispatch(f) == [Sent([0x88, 0x00]), OnClose]
    ensures f.opcode == 9 && |f.payload| <= 125 ==> Dispatch(f) == [Sent([0x8A, |f.payload|] + f.payload), OnPing(f.payload)]
    ensures f.opcode !in {1, 2, 8, 9, 10} ==> Dispatch(f) == []
  {
    ShortWire(Close, []);
    assert [0x88, 0x00] + [] == [0x88, 0x00];
    if |f.payload| <= 125 { ShortWire(Pong, f.payload); }
  }

  lemma ShortWire(op: nat, payload: Bytes)
    requires |payload| <= 125 && op < 16
    ensures Encode(CreateFrame(op, payload, false, NoKey)) == [128 + op, |payload|] + payload
  {
    var w := Encode(CreateFrame(op, payload, false, NoKey));
    EncodedMeans(CreateFrame(op, payload, false, NoKey));
    assert w == w[..2] + w[2..];
  }

  /** A frame that is whole is dispatched, and the connection stays registered unless it is a Close. */
  lemma DrainTakes(c: Conn)
    requires c.registered && ParseFrame(c.buffer).Some? && WireSize(c.buffer) <= |c.buffer|
    ensures var f := ParseFrame(c.buffer).value;
      Drain(c) == Drain(Conn(f.opcode != 8, c.buffer[WireSize(c.buffer)..], c.log + Dispatch(f)))
  {
  }

  lemma DrainWaits(c: Conn)
    requires !c.registered || ParseFrame(c.buffer).None?
    ensures Drain(c) == c
  {
  }
}
