/**
  What the parts of an HTTP request mean: the request line, header fields, query
  parameters and Content-Length, as the setters of HttpRequest and
  processRequestLine read them (HTTPServer/HttpServer/src/http/HttpRequest.cpp,
  HTTPServer/HttpServer/src/http/HttpContext.cpp; sections 3 and 5 of RFC 9112).
 */
module HttpRequest {
  import opened Common

  datatype Method = Invalid | Get | Post | Put | Delete | Options

  /** All of a request but its receive time. */
  datatype Request = Request(
    verb: Method, version: string, path: string, query: map<string, string>, queryString: string,
    headers: map<string, string>, content: string, contentLength: nat)

  const NewRequest := Request(Invalid, "Unknown", "", map[], "", map[], "", 0)

  // ------------------------------------------------------------------ searching

  /** The first place of `c` in s, or |s|. */
  function Find(s: string, c: char): (i: nat)
    ensures i <= |s| && (i < |s| ==> s[i] == c) && forall k | 0 <= k < i :: s[k] != c
  {
    if s == [] then 0 else if s[0] == c then 0 else 1 + Find(s[1..], c)
  }

  lemma FindIs(s: string, c: char, i: nat)
    requires i <= |s| && (i < |s| ==> s[i] == c) && forall k | 0 <= k < i :: s[k] != c
    ensures Find(s, c) == i
  {
  }

  predicate CrlfAt(s: string, i: nat) { i + 1 < |s| && s[i] == '\r' && s[i + 1] == '\n' }

  /** The place of the first CRLF; `None` when there is none yet. */
  function FindCrlf(s: string): (r: Option<nat>)
    ensures r.Some? ==> CrlfAt(s, r.value) && forall k: nat | k < r.value :: !CrlfAt(s, k)
    ensures r.None? ==> forall k: nat :: !CrlfAt(s, k)
  {
    if |s| < 2 then None
    else if CrlfAt(s, 0) then Some(0)
    else
      var r := FindCrlf(s[1..]);
      assert forall k: nat | k > 0 :: CrlfAt(s, k) <==> CrlfAt(s[1..], k - 1);
      if r.Some? then Some(r.value + 1) else None
  }

  /** Bytes that arrive behind a CRLF do not move the first one. */
  lemma CrlfStable(s: string, more: string)
    requires FindCrlf(s).Some?
    ensures FindCrlf(s + more) == FindCrlf(s)
  {
    var i := FindCrlf(s).value;
    assert CrlfAt(s + more, i);
    forall k: nat | k < i ensures !CrlfAt(s + more, k) { assert !CrlfAt(s, k); }
  }

  // --------------------------------------------------------------- header fields

  predicate Space(c: char) { c == ' ' || ('\t' <= c <= '\r') }

  function TrimLeft(s: string): string { if s != [] && Space(s[0]) then TrimLeft(s[1..]) else s }

  function TrimRight(s: string): string { if s != [] && Space(s[|s| - 1]) then TrimRight(s[..|s| - 1]) else s }

  /** addHeader on a line whose first colon is at `colon`. */
  function AddHeader(r: Request, line: string, colon: nat): Request
    requires colon < |line|
  {
    r.(headers := r.headers[line[..colon] := TrimRight(TrimLeft(line[colon + 1..]))])
  }

  // ------------------------------------------------------------ query parameters

  function AddPair(m: map<string, string>, pair: string): map<string, string> {
    var eq := Find(pair, '=');
    if eq < |pair| then m[pair[..eq] := pair[eq + 1..]] else m
  }

  function AddQuery(m: map<string, string>, s: string): map<string, string>
    decreases |s|
  {
    var amp := Find(s, '&');
    if amp < |s| then AddQuery(AddPair(m, s[..amp]), s[amp + 1..]) else AddPair(m, s)
  }

  function SetQuery(r: Request, s: string): Request { r.(queryString := s, query := AddQuery(r.query, s)) }

  // ---------------------------------------------------------------- request line

  function MethodOf(name: string): Method {
    if name == "GET" then Get else if name == "POST" then Post else if name == "PUT" then Put
    else if name == "DELETE" then Delete else if name == "OPTIONS" then Options else Invalid
  }

  /** The request target: a path and, behind '?', parameters. */
  function SetTarget(r: Request, target: string): Request {
    var mark := Find(target, '?');
    if mark < |target| then SetQuery(r.(path := target[..mark]), target[mark + 1..]) else r.(path := target)
  }

  predicate GoodVersion(v: string) { v == "HTTP/1.1" || v == "HTTP/1.0" }

  /** processRequestLine: what was read before a failure stays in the request. */
  function RequestLine(r: Request, line: string): (Request, bool) {
    var sp := Find(line, ' ');
    if sp == |line| then (r, false)
    else
      var r1 := r.(verb := MethodOf(line[..sp]));
      if r1.verb == Invalid then (r1, false) else AfterMethod(r1, line[sp + 1..])
  }

  /** The request target and the version. */
  function AfterMethod(r: Request, rest: string): (Request, bool) {
    var sp := Find(rest, ' ');
    if sp == |rest| then (r, false)
    else
      var r1 := SetTarget(r, rest[..sp]);
      var version := rest[sp + 1..];
      if GoodVersion(version) then (r1.(version := version), true) else (r1, false)
  }

  // -------------------------------------------------------------- Content-Length

  predicate IsDigit(c: char) { '0' <= c <= '9' }

  function DigitsEnd(s: string): (n: nat)
    ensures n <= |s|
  {
    if s != [] && IsDigit(s[0]) then 1 + DigitsEnd(s[1..]) else 0
  }

  function DigitsValue(s: string): nat {
    if s == [] then 0 else 10 * DigitsValue(s[..|s| - 1]) + if IsDigit(s[|s| - 1]) then s[|s| - 1] as int - '0' as int else 0
  }

  /** std::stoi: spaces, a sign, digits; what follows is ignored.  `None` when it
      throws, for want of digits or because the value is no 32-bit int. */
  function Stoi(s: string): Option<int> {
    var t := TrimLeft(s);
    var neg := t != [] && t[0] == '-';
    var body := if t != [] && (t[0] == '-' || t[0] == '+') then t[1..] else t;
    var n := DigitsEnd(body);
    var v: int := if neg then 0 - DigitsValue(body[..n]) else DigitsValue(body[..n]);
    if n == 0 || v < -0x8000_0000 || v > 0x7FFF_FFFF then None else Some(v)
  }

  /** An int stored as a 64-bit unsigned length. */
  function AsLength(v: int): nat
    requires -0x8000_0000 <= v <= 0x7FFF_FFFF
  {
    if v < 0 then v + 0x1_0000_0000_0000_0000 else v
  }
}
