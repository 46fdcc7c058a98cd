/**
  Requests as text, and that the parser reads them back: the request line, the
  header fields and the body of section 2.1 of RFC 9112.
 */
module HttpRoundTrip {
  import opened Common
  import opened HttpRequest
  import opened HttpText
  import opened HttpParser

  /** A request as a client means it: parameters and header fields as they are written. */
  datatype Message = Message(
    verb: Method, path: string, query: Option<seq<Item>>, version: string, fields: seq<Field>, body: string)

  function VerbName(m: Method): string {
    match m
    case Get => "GET"
    case Post => "POST"
    case Put => "PUT"
    case Delete => "DELETE"
    case Options => "OPTIONS"
    case Invalid => ""
  }

  function Target(m: Message): string { m.path + if m.query.Some? then "?" + QueryText(m.query.value) else "" }

  function StartLine(m: Message): string { VerbName(m.verb) + " " + Target(m) + " " + m.version }

  function FieldLines(fields: seq<Field>): string {
    if fields == [] then "" else FieldLine(fields[0]) + Crlf + FieldLines(fields[1..])
  }

  function Text(m: Message): string { StartLine(m) + Crlf + (FieldLines(m.fields) + (Crlf + m.body)) }

  function HeaderMap(h: map<string, string>, fields: seq<Field>): map<string, string>
    decreases |fields|
  {
    if fields == [] then h else HeaderMap(h[fields[0].name := fields[0].value], fields[1..])
  }

  predicate HasBody(m: Message) { m.verb == Post || m.verb == Put }

  /** The grammar a request text keeps to.  The Content-Length of a body is its length in
      decimal, behind a sign or in front of other text if need be. */
  ghost predicate WellFormed(m: Message) {
    && m.verb != Invalid && (m.version == "HTTP/1.1" || m.version == "HTTP/1.0") && LacksCrlf(StartLine(m))
    && Lacks(m.path, ' ') && Lacks(m.path, '?')
    && (m.query.Some? ==> GoodItems(m.query.value) && Lacks(QueryText(m.query.value), ' '))
    && (forall k | 0 <= k < |m.fields| :: GoodField(m.fields[k]) && LacksCrlf(FieldLine(m.fields[k])))
    && (var h := HeaderMap(map[], m.fields);
        if HasBody(m) then "Content-Length" in h && WritesNumber(h["Content-Length"], |m.body|) && |m.body| <= 0x7FFF_FFFF
        else m.body == "")
  }

  /** What the parser should make of it. */
  function Meant(m: Message): Request {
    Request(m.verb, m.version, m.path, if m.query.Some? then PairMap(map[], m.query.value) else map[],
            if m.query.Some? then QueryText(m.query.value) else "", HeaderMap(map[], m.fields), m.body, |m.body|)
  }

  // ----------------------------------------------------------------------- lines

  lemma VerbReads(m: Method)
    requires m != Invalid
    ensures MethodOf(VerbName(m)) == m && Lacks(VerbName(m), ' ') && VerbName(m) in {"GET", "POST", "PUT", "DELETE", "OPTIONS"}
  {
  }

  lemma MessageTargetReads(r: Request, m: Message)
    requires Lacks(m.path, '?') && (m.query.Some? ==> GoodItems(m.query.value))
    ensures SetTarget(r, Target(m)) ==
      if m.query.Some?
      then r.(path := m.path, queryString := QueryText(m.query.value), query := PairMap(r.query, m.query.value))
      else r.(path := m.path)
  {
    if m.query.Some? {
      TargetReads(r, m.path, m.query.value);
      Asks(m.path, QueryText(m.query.value));
    } else {
      TargetReads(r, m.path, []);
      assert Target(m) == m.path;
    }
  }

  lemma Asks(path: string, query: string)
    ensures path + ("?" + query) == path + ['?'] + query
  {
  }

  lemma StartLineWords(m: Message)
    ensures StartLine(m) == VerbName(m.verb) + [' '] + (Target(m) + [' '] + m.version)
  {
  }

  lemma TargetLacksSpace(m: Message)
    requires Lacks(m.path, ' ') && (m.query.Some? ==> Lacks(QueryText(m.query.value), ' '))
    ensures Lacks(Target(m), ' ')
  {
  }

  lemma StartLineReads(m: Message)
    requires WellFormed(m)
    ensures RequestLine(NewRequest, StartLine(m)) == (Started(m), true)
  {
    VerbReads(m.verb);
    TargetLacksSpace(m);
    StartLineWords(m);
    WordsRead(NewRequest, StartLine(m), VerbName(m.verb), Target(m), m.version);
    MessageTargetReads(NewRequest.(verb := m.verb), m);
  }

  lemma ParseOne(c: Context)
    requires !c.Settled() && Turn(c) != c
    ensures Parse(c) == Parse(Turn(c))
  {
  }

  lemma ParseLine(state: State, r: Request, line: string, rest: string)
    requires (state == ExpectRequestLine || state == ExpectHeaders) && LacksCrlf(line)
    ensures var c := Context(state, r, line + Crlf + rest, Fine); Turn(c) == OnLine(c, line, rest)
  {
    LineEndsAt(line, rest);
  }

  // --------------------------------------------------------------------- messages

  lemma {:induction false} FieldsRead(r: Request, fields: seq<Field>, rest: string)
    requires forall k | 0 <= k < |fields| :: GoodField(fields[k]) && LacksCrlf(FieldLine(fields[k]))
    ensures Parse(Context(ExpectHeaders, r, FieldLines(fields) + rest, Fine)) ==
      Parse(Context(ExpectHeaders, r.(headers := HeaderMap(r.headers, fields)), rest, Fine))
    decreases |fields|
  {
    if fields == [] {
      assert FieldLines(fields) + rest == rest;
    } else {
      var f, tail := fields[0], FieldLines(fields[1..]) + rest;
      var c := Context(ExpectHeaders, r, FieldLines(fields) + rest, Fine);
      assert c.buffer == FieldLine(f) + Crlf + tail;
      ParseLine(ExpectHeaders, r, FieldLine(f), tail);
      FieldReads(r, f);
      ParseOne(c);
      FieldsRead(r.(headers := r.headers[f.name := f.value]), fields[1..], rest);
    }
  }

  lemma EndReads(r: Request, m: Message, rest: string)
    requires WellFormed(m) && r == Meant(m).(content := "", contentLength := 0)
    ensures Parse(Context(ExpectHeaders, r, Crlf + m.body + rest, Fine)) == Context(GotAll, Meant(m), rest, Fine)
  {
    var c := Context(ExpectHeaders, r, Crlf + m.body + rest, Fine);
    assert "" + Crlf + (m.body + rest) == c.buffer;
    ParseLine(ExpectHeaders, r, "", m.body + rest);
    ParseOne(c);
    if HasBody(m) {
      NumberReads(HeaderMap(map[], m.fields)["Content-Length"], |m.body|);
      assert (m.body + rest)[..|m.body|] == m.body && (m.body + rest)[|m.body|..] == rest;
      BodyReads(r.(contentLength := |m.body|), m.body, rest);
    } else {
      assert m.body + rest == rest;
    }
  }

  lemma BodyReads(r: Request, body: string, rest: string)
    requires r.contentLength == |body| && r.content == ""
    ensures Parse(Context(ExpectBody, r, body + rest, Fine)) == Context(GotAll, r.(content := body), rest, Fine)
  {
    assert (body + rest)[..|body|] == body && (body + rest)[|body|..] == rest;
  }

  /** Meant(m) once only its request line has been read. */
  function Started(m: Message): Request { Meant(m).(headers := map[], content := "", contentLength := 0) }

  lemma StartReads(m: Message, behind: string)
    requires WellFormed(m)
    ensures Parse(Context(ExpectRequestLine, NewRequest, StartLine(m) + Crlf + behind, Fine)) ==
      Parse(Context(ExpectHeaders, Started(m), behind, Fine))
  {
    StartLineReads(m);
    ParseLine(ExpectRequestLine, NewRequest, StartLine(m), behind);
    ParseOne(Context(ExpectRequestLine, NewRequest, StartLine(m) + Crlf + behind, Fine));
  }

  lemma TextParts(m: Message, rest: string)
    ensures NewContext.buffer + (Text(m) + rest) == StartLine(m) + Crlf + (FieldLines(m.fields) + (Crlf + m.body + rest))
  {
  }

  /** Every well-formed request is read as it was meant, and not a byte more is taken. */
  lemma MessageReads(m: Message, rest: string)
    requires WellFormed(m)
    ensures Call(NewContext, Text(m) + rest) == Context(GotAll, Meant(m), rest, Fine)
  {
    TextParts(m, rest);
    StartReads(m, FieldLines(m.fields) + (Crlf + m.body + rest));
    FieldsRead(Started(m), m.fields, Crlf + m.body + rest);
    EndReads(Started(m).(headers := HeaderMap(map[], m.fields)), m, rest);
  }

  /** Together with the splitting theorem: a well-formed request is read as it was meant
      however its bytes arrive. */
  lemma MessageArrives(m: Message, rest: string, chunks: seq<string>)
    requires WellFormed(m) && Concat(chunks) == Text(m) + rest
    ensures Feed(NewContext, chunks) == Context(GotAll, Meant(m), rest, Fine)
  {
    MessageReads(m, rest);
    SplitIsIrrelevant(chunks);
  }

  // ----------------------------------------------------------- headers, case by case

  /** A line behind the request line: a field when it has a colon, the end of the headers when it is empty,
      and otherwise the end of the call. */
  lemma HeaderLineIs(c: Context, line: string, rest: string)
    requires c.state == ExpectHeaders && c.verdict == Fine
    ensures !Lacks(line, ':') ==> OnHeader(c, line, rest).verdict == Fine && OnHeader(c, line, rest).state == ExpectHeaders
    ensures line == "" ==> OnHeader(c, line, rest) == EndOfHeaders(c, rest)
    ensures line != "" && Lacks(line, ':') ==> OnHeader(c, line, rest) == c.(buffer := rest, verdict := Bad)
  {
    if Lacks(line, ':') { FindBehind(line, ':', ""); }
  }

  /** The end of the headers: POST and PUT need a Content-Length, whose number decides whether a body follows;
      a negative one counts as the 64-bit number it is stored as; all other methods are complete. */
  lemma HeadersEnd(c: Context, rest: string, before: string, sign: string, n: nat, tail: string)
    requires c.verdict == Fine && White(before) && Sign(sign) && NoDigit(tail)
    ensures var o, r, text := EndOfHeaders(c, rest), c.request, before + (sign + (Digits(n) + tail));
      var needs := r.verb == Post || r.verb == Put;
      var v: int := if sign == "-" then 0 - n else n;
      && (!needs ==> o == c.(buffer := rest, state := GotAll))
      && (needs && ("Content-Length" !in r.headers || r.headers["Content-Length"] == "") ==> o == c.(buffer := rest, verdict := Bad))
      && (needs && "Content-Length" in r.headers && r.headers["Content-Length"] == text ==>
          if v < -0x8000_0000 || v > 0x7FFF_FFFF then o == c.(verdict := Threw)
          else o == c.(
            buffer := rest, state := if v == 0 then GotAll else ExpectBody,
            request := r.(contentLength := if v < 0 then 0x1_0000_0000_0000_0000 + v else v)))
  {
    StoiReads(before, sign, n, tail);
    DecimalReads(n);
    assert before + (sign + (Digits(n) + tail)) != "";
  }

  // -------------------------------------------------- inputs whose result depends on the split

  lemma TwoChunks(x: string, y: string)
    ensures Feed(NewContext, [x]) == Call(NewContext, x) && Feed(NewContext, [x, y]) == Call(Call(NewContext, x), y)
    ensures Concat([x, y]) == x + y
  {
    assert [x, y][..1] == [x] && [x][..0] == [];
    assert Concat([x]) == "" + x == x;
  }

  /** A line that is no header field. */
  predicate BadField(h: string) { h != "" && Lacks(h, ':') && LacksCrlf(h) }

  /** A request without fields up to a bad header line. */
  function BadStart(m: Message, h: string): string { StartLine(m) + Crlf + (h + Crlf) }

  lemma BadStartReads(m: Message, h: string, rest: string)
    requires WellFormed(m) && BadField(h)
    ensures Parse(Context(ExpectRequestLine, NewRequest, StartLine(m) + Crlf + (h + Crlf + rest), Fine)) ==
      Context(ExpectHeaders, Started(m), rest, Bad)
  {
    StartReads(m, h + Crlf + rest);
    FindBehind(h, ':', "");
    ParseLine(ExpectHeaders, Started(m), h, rest);
  }

  lemma EmptyLineEnds(m: Message)
    requires WellFormed(m) && !HasBody(m)
    ensures Parse(Context(ExpectHeaders, Started(m), Crlf, Fine)) == Context(GotAll, Started(m), "", Fine)
  {
    assert "" + Crlf + "" == Crlf;
    ParseLine(ExpectHeaders, Started(m), "", "");
  }

  /** A bad header line is taken from the buffer, so the call that brings the empty line completes a request
      that was refused; in one piece it is refused for good. */
  lemma RefusedRequestCompletes(m: Message, h: string)
    requires WellFormed(m) && m.fields == [] && !HasBody(m) && BadField(h)
    ensures Feed(NewContext, [BadStart(m, h)]).verdict == Bad
    ensures Feed(NewContext, [BadStart(m, h), Crlf]) == Context(GotAll, Started(m), "", Fine)
    ensures Whole([BadStart(m, h), Crlf]) == Context(ExpectHeaders, Started(m), Crlf, Bad)
  {
    TwoChunks(BadStart(m, h), Crlf);
    BadStartReads(m, h, "");
    BadStartReads(m, h, Crlf);
    EmptyLineEnds(m);
    BadStartIs(m, h);
  }

  lemma BadStartIs(m: Message, h: string)
    ensures "" + BadStart(m, h) == StartLine(m) + Crlf + (h + Crlf + "")
    ensures "" + (BadStart(m, h) + Crlf) == StartLine(m) + Crlf + (h + Crlf + Crlf)
    ensures "" + Crlf == Crlf
  {
  }

  /** The smallest such request. */
  function Plain(): Message { Message(Get, "/", None, "HTTP/1.1", [], "") }

  lemma PlainLine()
    ensures StartLine(Plain()) == "GET / HTTP/1.1" && LacksCrlf("GET / HTTP/1.1")
  {
    assert Target(Plain()) == "/";
    assert "GET" + " " + "/" + " " + "HTTP/1.1" == "GET / HTTP/1.1";
  }

  lemma PlainIsWellFormed()
    ensures WellFormed(Plain()) && StartLine(Plain()) == "GET / HTTP/1.1" && BadField("bad")
  {
    PlainLine();
  }

  /** "GET / HTTP/1.1", "bad" and then an empty line: refused in one piece, executed in two arrivals. */
  lemma BadHeaderExample()
    ensures var x, y := "GET / HTTP/1.1" + Crlf + ("bad" + Crlf), Crlf;
      && Feed(NewContext, [x, y]).state == GotAll && Feed(NewContext, [x, y]).verdict == Fine
      && Whole([x, y]).verdict == Bad && !AllRepeatable([x, y])
  {
    PlainIsWellFormed();
    RefusedRequestCompletes(Plain(), "bad");
    SplitIsExact([BadStart(Plain(), "bad"), Crlf]);
  }

  lemma WrongVersion(verb: string, target: string, version: string)
    requires Lacks(verb, ' ') && Lacks(target, ' ') && MethodOf(verb) != Invalid && version != "HTTP/1.1" && version != "HTTP/1.0"
    ensures var (r, ok) := RequestLine(NewRequest, verb + [' '] + (target + [' '] + version)); !ok && r.verb == MethodOf(verb)
  {
    FindBehind(verb, ' ', target + [' '] + version);
    FindBehind(target, ' ', version);
  }

  /** A request line refused for its version is left in the buffer: the next call, whatever it brings,
      fails the assertion of setMethod. */
  lemma RefusedVersionAborts(verb: string, target: string, version: string, y: string)
    requires Lacks(verb, ' ') && Lacks(target, ' ') && MethodOf(verb) != Invalid && version != "HTTP/1.1" && version != "HTTP/1.0"
    requires LacksCrlf(verb + [' '] + (target + [' '] + version))
    ensures var x := verb + [' '] + (target + [' '] + version) + Crlf;
      && RefusedLate(Feed(NewContext, [x])) && Feed(NewContext, [x, y]).verdict == Aborted
  {
    WrongVersion(verb, target, version);
    RefusedLineAborts(verb + [' '] + (target + [' '] + version), y);
  }

  lemma RefusedLineAborts(line: string, y: string)
    requires LacksCrlf(line) && !RequestLine(NewRequest, line).1 && RequestLine(NewRequest, line).0.verb != Invalid
    ensures RefusedLate(Feed(NewContext, [line + Crlf])) && Feed(NewContext, [line + Crlf, y]).verdict == Aborted
  {
    var x := line + Crlf;
    LineRefused(line);
    TwoChunks(x, y);
    assert [x] + [y] == [x, y];
    LateCallAborts([x], y);
  }

  lemma LineRefused(line: string)
    requires LacksCrlf(line) && !RequestLine(NewRequest, line).1 && RequestLine(NewRequest, line).0.verb != Invalid
    ensures RefusedLate(Call(NewContext, line + Crlf))
  {
    assert "" + (line + Crlf) == line + Crlf + "";
    ParseLine(ExpectRequestLine, NewRequest, line, "");
  }

  /** "GET / HTTP/2.0" and then any bytes. */
  lemma WrongVersionExample(y: string)
    ensures Feed(NewContext, ["GET / HTTP/2.0" + Crlf, y]).verdict == Aborted
  {
    var line := "GET" + [' '] + ("/" + [' '] + "HTTP/2.0");
    assert line == "GET / HTTP/2.0";
    RefusedVersionAborts("GET", "/", "HTTP/2.0", y);
  }
}
