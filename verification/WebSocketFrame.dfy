/**
  WebSocket frames on the wire (HTTPServer/HttpServer/src/websocket/WebSocketFrame.cpp),
  the base framing protocol of sections 5.2 and 5.3 of RFC 6455.
 */
module WebSocketFrame {
  import opened Common

  type Byte = b: int | 0 <= b < 256

  type Bytes = seq<Byte>

  /** Opcodes are the four bits on the wire; `key` is the masking key as four bytes, zero when there is none. */
  datatype Frame = Frame(fin: bool, opcode: nat, mask: bool, payloadLen: nat, key: Bytes, payload: Bytes)

  const Text := 1
  const Binary := 2
  const Close := 8
  const Ping := 9
  const Pong := 10

  // ------------------------------------------------------------------ masking

  /** Bitwise exclusive or of two numbers below 2^bits. */
  function Xor(a: nat, b: nat, bits: nat): nat {
    if bits == 0 then 0 else 2 * Xor(a / 2, b / 2, bits - 1) + if a % 2 == b % 2 then 0 else 1
  }

  function Pow2(n: nat): nat { if n == 0 then 1 else 2 * Pow2(n - 1) }

  lemma {:induction false} XorTwice(a: nat, b: nat, bits: nat)
    requires a < Pow2(bits)
    ensures Xor(a, b, bits) < Pow2(bits) && Xor(Xor(a, b, bits), b, bits) == a
  {
    if bits > 0 { XorTwice(a / 2, b / 2, bits - 1); }
  }

  function XorByte(a: Byte, b: Byte): Byte {
    assert Pow2(8) == 256;
    XorTwice(a, b, 8);
    Xor(a, b, 8)
  }

  lemma XorByteTwice(a: Byte, b: Byte)
    ensures XorByte(XorByte(a, b), b) == a
  {
    assert Pow2(8) == 256;
    XorTwice(a, b, 8);
  }

  /** Section 5.3 of RFC 6455: octet i is combined with octet i MOD 4 of the key. */
  function Masked(payload: Bytes, key: Bytes): Bytes
    requires |key| == 4
  {
    seq(|payload|, i requires 0 <= i < |payload| => XorByte(payload[i], key[i % 4]))
  }

  lemma MaskedTwice(payload: Bytes, key: Bytes)
    requires |key| == 4
    ensures Masked(Masked(payload, key), key) == payload
  {
    forall i | 0 <= i < |payload| ensures Masked(Masked(payload, key), key)[i] == payload[i] { XorByteTwice(payload[i], key[i % 4]); }
  }

  // ---------------------------------------------------------- network byte order

  function FromBE(s: Bytes): nat { if s == [] then 0 else 256 * FromBE(s[..|s| - 1]) + s[|s| - 1] }

  function ToBE(n: nat, k: nat): (s: Bytes)
    ensures |s| == k
  {
    if k == 0 then [] else ToBE(n / 256, k - 1) + [n % 256]
  }

  function Pow256(k: nat): nat { if k == 0 then 1 else 256 * Pow256(k - 1) }

  lemma {:induction false} ReadsBackBE(n: nat, k: nat)
    requires n < Pow256(k)
    ensures FromBE(ToBE(n, k)) == n
  {
    if k > 0 {
      ReadsBackBE(n / 256, k - 1);
      assert ToBE(n, k)[..k - 1] == ToBE(n / 256, k - 1);
    }
  }

  // --------------------------------------------------------------------- parsing

  /** Bytes of extended payload length that the second byte announces. */
  function ExtBytes(b1: Byte): nat { if b1 % 128 == 126 then 2 else if b1 % 128 == 127 then 8 else 0 }

  function KeyBytes(b1: Byte): nat { if b1 / 128 == 1 then 4 else 0 }

  function HeaderSize(b1: Byte): nat { 2 + ExtBytes(b1) + KeyBytes(b1) }

  function PayloadLen(data: Bytes): nat
    requires |data| >= 2 && |data| >= 2 + ExtBytes(data[1])
  {
    if ExtBytes(data[1]) == 0 then data[1] % 128 else FromBE(data[2..2 + ExtBytes(data[1])])
  }

  /** A whole frame is at hand. */
  predicate Complete(data: Bytes) {
    |data| >= 2 && |data| >= HeaderSize(data[1]) && |data| >= HeaderSize(data[1]) + PayloadLen(data)
  }

  function Key(data: Bytes): (key: Bytes)
    requires Complete(data)
    ensures |key| == 4
  {
    var at := 2 + ExtBytes(data[1]);
    if KeyBytes(data[1]) == 4 then data[at..at + 4] else [0, 0, 0, 0]
  }

  function Raw(data: Bytes): Bytes
    requires Complete(data)
  {
    data[HeaderSize(data[1])..HeaderSize(data[1]) + PayloadLen(data)]
  }

  function Parsed(data: Bytes): Frame
    requires Complete(data)
  {
    var mask := data[1] / 128 == 1;
    Frame(data[0] / 128 == 1, data[0] % 16, mask, PayloadLen(data), Key(data),
          if mask then Masked(Raw(data), Key(data)) else Raw(data))
  }

  function ParseFrame(data: Bytes): Option<Frame> { if Complete(data) then Some(Parsed(data)) else None }

  /** What one frame takes of the stream. */
  function WireSize(data: Bytes): nat
    requires Complete(data)
  {
    HeaderSize(data[1]) + PayloadLen(data)
  }

  lemma SliceStable(data: Bytes, more: Bytes, from: nat, to: nat)
    requires from <= to <= |data|
    ensures (data + more)[from..to] == data[from..to]
  {
  }

  lemma LenStable(data: Bytes, more: Bytes)
    requires |data| >= 2 && |data| >= 2 + ExtBytes(data[1])
    ensures PayloadLen(data + more) == PayloadLen(data) && (data + more)[1] == data[1] && (data + more)[0] == data[0]
  {
    SliceStable(data, more, 2, 2 + ExtBytes(data[1]));
  }

  lemma KeyStable(data: Bytes, more: Bytes)
    requires Complete(data) && Complete(data + more) && (data + more)[1] == data[1]
    ensures Key(data + more) == Key(data)
  {
    var at := 2 + ExtBytes(data[1]);
    if KeyBytes(data[1]) == 4 { SliceStable(data, more, at, at + 4); }
  }

  /** More bytes behind a complete frame change nothing. */
  lemma ParseStable(data: Bytes, more: Bytes)
    requires Complete(data)
    ensures Complete(data + more) && Parsed(data + more) == Parsed(data) && WireSize(data + more) == WireSize(data)
    ensures WireSize(data) <= |data|
  {
    LenStable(data, more);
    KeyStable(data, more);
    SliceStable(data, more, HeaderSize(data[1]), WireSize(data));
  }

  // -------------------------------------------------------------------- encoding

  function CreateFrame(op: nat, payload: Bytes, mask: bool, key: Bytes): Frame
    requires |key| == 4
  {
    Frame(true, op, mask, |payload|, if mask then key else [0, 0, 0, 0], if mask then Masked(payload, key) else payload)
  }

  function LenByte(n: nat): nat { if n <= 125 then n else if n <= 0xFFFF then 126 else 127 }

  function LenExt(n: nat): Bytes { if n <= 125 then [] else if n <= 0xFFFF then ToBE(n, 2) else ToBE(n, 8) }

  function Header(f: Frame): (h: Bytes)
    requires |f.key| == 4
    ensures |h| >= 2
  {
    [(if f.fin then 128 else 0) + f.opcode % 16, (if f.mask then 128 else 0) + LenByte(|f.payload|)]
    + LenExt(|f.payload|) + if f.mask then f.key else []
  }

  function Encode(f: Frame): Bytes
    requires |f.key| == 4
  {
    Header(f) + f.payload
  }

  /** The three length forms read back. */
  lemma LengthForms(n: nat, mask: bool)
    requires n < Pow256(8)
    ensures var b1 := (if mask then 128 else 0) + LenByte(n);
      && 0 <= b1 < 256 && ExtBytes(b1) == |LenExt(n)| && KeyBytes(b1) == (if mask then 4 else 0)
      && (n <= 125 ==> b1 % 128 == n) && (n > 125 ==> FromBE(LenExt(n)) == n && |LenExt(n)| > 0)
  {
    assert Pow256(2) == 0x1_0000;
    if n > 0xFFFF { ReadsBackBE(n, 8); } else if n > 125 { ReadsBackBE(n, 2); }
  }

  lemma HeaderParts(f: Frame, h: Bytes, data: Bytes)
    requires |f.key| == 4 && h == Header(f) && |data| >= |h| && data[..|h|] == h
    ensures data[0] == (if f.fin then 128 else 0) + f.opcode % 16
    ensures data[1] == (if f.mask then 128 else 0) + LenByte(|f.payload|)
    ensures var e := 2 + |LenExt(|f.payload|)|;
      && |h| == e + (if f.mask then 4 else 0) && data[2..e] == LenExt(|f.payload|)
      && (f.mask ==> data[e..e + 4] == f.key)
  {
    var e := 2 + |LenExt(|f.payload|)|;
    assert data[0] == h[0] && data[1] == h[1];
    assert data[2..e] == h[2..e] == LenExt(|f.payload|);
    if f.mask { assert data[e..e + 4] == h[e..e + 4] == f.key; }
  }

  lemma HeaderIs(f: Frame, data: Bytes)
    requires |f.key| == 4 && |f.payload| < Pow256(8) && f.opcode < 16
    requires |data| >= |Header(f)| && data[..|Header(f)|] == Header(f)
    ensures data[0] / 128 == 1 <==> f.fin
    ensures data[0] % 16 == f.opcode && (data[1] / 128 == 1 <==> f.mask) && |Header(f)| == HeaderSize(data[1])
    ensures PayloadLen(data) == |f.payload|
    ensures f.mask ==> data[2 + ExtBytes(data[1])..HeaderSize(data[1])] == f.key
  {
    HeaderParts(f, Header(f), data);
    LengthForms(|f.payload|, f.mask);
  }

  /** What parsing an encoded frame gives: the frame with its payload unmasked. */
  function Received(f: Frame): Frame
    requires |f.key| == 4
  {
    Frame(f.fin, f.opcode, f.mask, |f.payload|, if f.mask then f.key else [0, 0, 0, 0],
          if f.mask then Masked(f.payload, f.key) else f.payload)
  }

  /** Parsing the bytes of an encoded frame, whatever follows them, gives it back in
      any of the three length forms, and takes exactly those bytes. */
  lemma EncodeParses(f: Frame, rest: Bytes)
    requires |f.key| == 4 && |f.payload| < Pow256(8) && f.opcode < 16
    ensures ParseFrame(Encode(f) + rest) == Some(Received(f))
    ensures WireSize(Encode(f) + rest) == |Encode(f)|
  {
    var data, h := Encode(f) + rest, |Header(f)|;
    assert data[..h] == Header(f);
    HeaderIs(f, data);
    assert data[h..h + |f.payload|] == f.payload;
  }

  /** Round trip: the payload, opcode and fin of a created frame arrive. */
  lemma CreatedFrameArrives(op: nat, payload: Bytes, mask: bool, key: Bytes, rest: Bytes)
    requires |key| == 4 && |payload| < Pow256(8) && op < 16
    ensures var data := Encode(CreateFrame(op, payload, mask, key)) + rest;
      && Complete(data) && WireSize(data) == |data| - |rest|
      && Parsed(data) == Frame(true, op, mask, |payload|, if mask then key else [0, 0, 0, 0], payload)
  {
    EncodeParses(CreateFrame(op, payload, mask, key), rest);
    if mask { MaskedTwice(payload, key); }
  }
}
