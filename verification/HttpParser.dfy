/**
  The request parser as a state machine over the bytes that arrive
  (HTTPServer/HttpServer/src/http/HttpContext.cpp; sections 2, 3, 5 and 6.2 of RFC 9112).
 */
module HttpParser {
  import opened Common
  import opened HttpRequest

  datatype State = ExpectRequestLine | ExpectHeaders | ExpectBody | GotAll

  /** How one call of parseRequest ends: true, false, std::stoi throwing on the
      Content-Length, or the assertion of setMethod failing, which ends the process. */
  datatype Verdict = Fine | Bad | Threw | Aborted

  /** The context, the bytes not read yet, and how the last call ended. */
  datatype Context = Context(state: State, request: Request, buffer: string, verdict: Verdict) {
    /** The call is over. */
    predicate Settled() { state == GotAll || verdict != Fine }
  }

  const NewContext := Context(ExpectRequestLine, NewRequest, "", Fine)

  /** The empty line that ends the headers. */
  function EndOfHeaders(c: Context, rest: string): Context {
    var r := c.request;
    if r.verb == Post || r.verb == Put then
      var field := if "Content-Length" in r.headers then r.headers["Content-Length"] else "";
      if field == "" then c.(buffer := rest, verdict := Bad)
      else if Stoi(field).None? then c.(verdict := Threw)
      else
        var length := AsLength(Stoi(field).value);
        c.(buffer := rest, request := r.(contentLength := length), state := if length > 0 then ExpectBody else GotAll)
    else c.(buffer := rest, state := GotAll)
  }

  /** A header line, up to its CRLF; a bad one is taken from the buffer too. */
  function OnHeader(c: Context, line: string, rest: string): Context {
    var colon := Find(line, ':');
    if colon < |line| then c.(request := AddHeader(c.request, line, colon), buffer := rest)
    else if line == "" then EndOfHeaders(c, rest)
    else c.(buffer := rest, verdict := Bad)
  }

  /** The request line; a bad one is left in the buffer.  setMethod asserts that no
      method has been read before. */
  function OnRequestLine(c: Context, line: string, rest: string): Context {
    var (r, ok) := RequestLine(c.request, line);
    if Find(line, ' ') < |line| && c.request.verb != Invalid then c.(verdict := Aborted)
    else if ok then c.(request := r, buffer := rest, state := ExpectHeaders) else c.(request := r, verdict := Bad)
  }

  function OnLine(c: Context, line: string, rest: string): Context {
    if c.state == ExpectRequestLine then OnRequestLine(c, line, rest) else OnHeader(c, line, rest)
  }

  /** One turn of the loop in parseRequest; it does nothing while bytes are missing. */
  function Turn(c: Context): Context
    requires !c.Settled()
  {
    if c.state == ExpectBody then
      var n := c.request.contentLength;
      if |c.buffer| < n then c
      else c.(request := c.request.(content := c.buffer[..n]), buffer := c.buffer[n..], state := GotAll)
    else
      var crlf := FindCrlf(c.buffer);
      if crlf.None? then c else OnLine(c, c.buffer[..crlf.value], c.buffer[crlf.value + 2..])
  }

  /** parseRequest: turns until bytes are missing or the request is settled. */
  function Parse(c: Context): Context
    decreases |c.buffer|, if c.Settled() then 0 else 1
  {
    if c.Settled() || Turn(c) == c then c else if Turn(c).Settled() then Turn(c) else Parse(Turn(c))
  }

  function More(c: Context, bytes: string): Context { c.(buffer := c.buffer + bytes) }

  /** The next call, after `bytes` have arrived: it knows nothing of how the last one ended.
      Bytes behind a complete request queue up, and nothing follows the end of the process. */
  function Call(c: Context, bytes: string): Context {
    if c.verdict == Aborted then c
    else if c.state == GotAll then More(c, bytes)
    else Parse(More(c, bytes).(verdict := Fine))
  }

  function Feed(c: Context, chunks: seq<string>): Context {
    if chunks == [] then c else Call(Feed(c, chunks[..|chunks| - 1]), chunks[|chunks| - 1])
  }

  // -------------------------------------------------------------------- one turn

  /** What the object starts from: a method is read at most once before the headers. */
  predicate Unread(c: Context) { c.state == ExpectRequestLine ==> c.request.verb == Invalid }

  lemma OnLineStable(c: Context, line: string, rest: string, more: string)
    ensures OnLine(More(c, more), line, rest + more) == More(OnLine(c, line, rest), more)
  {
  }

  lemma CutStable(s: string, more: string, i: nat)
    requires i <= |s|
    ensures (s + more)[..i] == s[..i] && (s + more)[i..] == s[i..] + more
  {
  }

  /** A turn that has what it needs does the same when more bytes are queued behind. */
  lemma TurnStable(c: Context, more: string)
    requires !c.Settled() && Turn(c) != c
    ensures Turn(More(c, more)) == More(Turn(c), more)
  {
    if c.state == ExpectBody {
      var n := c.request.contentLength;
      CutStable(c.buffer, more, n);
    } else {
      CrlfStable(c.buffer, more);
      var i := FindCrlf(c.buffer).value;
      CutStable(c.buffer, more, i);
      CutStable(c.buffer, more, i + 2);
      OnLineStable(c, c.buffer[..i], c.buffer[i + 2..], more);
    }
  }

  /** The next call would do again what this one did: it ended well, it threw, or the
      request line was refused before its method was read. */
  predicate Repeatable(c: Context) {
    c.verdict != Aborted && (c.verdict == Bad ==> c.state == ExpectRequestLine && c.request.verb == Invalid)
  }

  /** A repeatable failure leaves everything as it was. */
  lemma TurnFails(c: Context)
    requires !c.Settled() && Unread(c)
    ensures Turn(c).verdict != Aborted
    ensures Turn(c).verdict != Fine && Repeatable(Turn(c)) ==> Turn(c) == c.(verdict := Turn(c).verdict)
    ensures Turn(c).verdict == Fine ==> Unread(Turn(c))
  {
  }

  // ------------------------------------------------------------------- splitting

  /** A call in two halves, unless the first half ends in a failure that cannot be repeated. */
  lemma {:induction false} ParseEarly(c: Context, more: string)
    requires c.verdict == Fine && Unread(c) && Repeatable(Parse(c))
    ensures Call(Parse(c), more) == Parse(More(c, more))
    decreases |c.buffer|
  {
    if !c.Settled() && Turn(c) != c {
      TurnStable(c, more);
      TurnFails(c);
      if !Turn(c).Settled() { ParseEarly(Turn(c), more); }
    }
  }

  /** A call that has ended in failure ends so whatever is queued behind. */
  lemma {:induction false} FailureStable(c: Context, more: string)
    requires c.verdict == Fine && Parse(c).verdict != Fine
    ensures Parse(More(c, more)) == More(Parse(c), more)
    decreases |c.buffer|
  {
    TurnStable(c, more);
    if !Turn(c).Settled() { FailureStable(Turn(c), more); }
  }

  lemma {:induction false} ParseUnread(c: Context)
    requires c.verdict == Fine && Unread(c)
    ensures Parse(c).verdict != Aborted && (Parse(c).verdict == Fine ==> Unread(Parse(c)))
    ensures Repeatable(Parse(c)) ==> Unread(Parse(c))
    decreases |c.buffer|
  {
    if !c.Settled() && Turn(c) != c {
      TurnFails(c);
      if !Turn(c).Settled() { ParseUnread(Turn(c)); }
    }
  }

  /** All the bytes in one call. */
  function Whole(chunks: seq<string>): Context { Call(NewContext, Concat(chunks)) }

  /** No call but the last ended in a failure that cannot be repeated. */
  predicate AllRepeatable(chunks: seq<string>) {
    forall k | 0 <= k < |chunks| :: Repeatable(Feed(NewContext, chunks[..k]))
  }

  lemma AllButLast(chunks: seq<string>)
    requires chunks != []
    ensures var front := chunks[..|chunks| - 1];
      AllRepeatable(chunks) <==> AllRepeatable(front) && Repeatable(Feed(NewContext, front))
  {
    var n := |chunks| - 1;
    forall k | 0 <= k <= n ensures chunks[..n][..k] == chunks[..k] { }
    if AllRepeatable(chunks[..n]) && Repeatable(Feed(NewContext, chunks[..n])) {
      forall k | 0 <= k < |chunks| ensures Repeatable(Feed(NewContext, chunks[..k])) {
        if k < n { assert Repeatable(Feed(NewContext, chunks[..n][..k])); }
      }
    }
    if AllRepeatable(chunks) {
      forall k | 0 <= k < n ensures Repeatable(Feed(NewContext, chunks[..n][..k])) { assert Repeatable(Feed(NewContext, chunks[..k])); }
    }
  }

  /** The context of the call in one piece, before it runs. */
  function Piece(chunks: seq<string>): Context { More(NewContext, Concat(chunks)) }

  lemma PieceGrows(front: seq<string>, last: string)
    ensures Piece(front + [last]) == More(Piece(front), last)
    ensures Feed(NewContext, front + [last]) == Call(Feed(NewContext, front), last)
  {
    assert (front + [last])[..|front|] == front;
  }

  lemma WholeIsParse(chunks: seq<string>)
    ensures Whole(chunks) == Parse(Piece(chunks)) && Piece(chunks).verdict == Fine && Unread(Piece(chunks))
  {
  }

  lemma WholeOfMore(front: seq<string>, last: string)
    requires Repeatable(Whole(front))
    ensures Call(Whole(front), last) == Whole(front + [last])
  {
    WholeIsParse(front);
    WholeIsParse(front + [last]);
    PieceGrows(front, last);
    ParseEarly(Piece(front), last);
  }

  lemma {:induction false} SplitWhenRepeatable(chunks: seq<string>)
    requires AllRepeatable(chunks)
    ensures Feed(NewContext, chunks) == Whole(chunks)
  {
    if chunks != [] {
      var front, last := chunks[..|chunks| - 1], chunks[|chunks| - 1];
      AllButLast(chunks);
      assert front + [last] == chunks;
      SplitWhenRepeatable(front);
      WholeOfMore(front, last);
      PieceGrows(front, last);
    }
  }

  // ----------------------------------------------------------- calls after a failure

  /** `c` has gone on where the call in one piece, which ended in `w`, had stopped. */
  predicate GoneOn(c: Context, w: Context) {
    c.verdict == Aborted ||
    (c.state != ExpectRequestLine && |c.buffer| <= |w.buffer| && (c.verdict == Bad ==> |c.buffer| < |w.buffer|))
  }

  /** Behind the request line a call never reads it again, and a failure takes its line. */
  lemma {:induction false} ParseTakes(c: Context)
    requires c.verdict == Fine && c.state != ExpectRequestLine
    ensures var r := Parse(c);
      r.verdict != Aborted && r.state != ExpectRequestLine && |r.buffer| <= |c.buffer| && (r.verdict == Bad ==> |r.buffer| < |c.buffer|)
    decreases |c.buffer|
  {
    if !c.Settled() && Turn(c) != c && !Turn(c).Settled() { ParseTakes(Turn(c)); }
  }

  lemma GoesOn(c: Context, w: Context, bytes: string)
    requires GoneOn(c, w)
    ensures GoneOn(Call(c, bytes), More(w, bytes))
  {
    if c.verdict != Aborted && c.state != GotAll { ParseTakes(More(c, bytes).(verdict := Fine)); }
  }

  /** The request line that stands first in the buffer was refused after its method was read. */
  predicate StuckOnLine(c: Context) {
    c.request.verb != Invalid && FindCrlf(c.buffer).Some? &&
    Find(c.buffer[..FindCrlf(c.buffer).value], ' ') < FindCrlf(c.buffer).value
  }

  lemma TurnStuck(c: Context)
    requires !c.Settled() && Unread(c) && !Repeatable(Turn(c))
    ensures var r := Turn(c); r.verdict == Bad && r.state != GotAll && (r.state == ExpectRequestLine ==> StuckOnLine(r))
  {
  }

  /** What a failure that cannot be repeated leaves. */
  lemma {:induction false} ParseStuck(c: Context)
    requires c.verdict == Fine && Unread(c) && !Repeatable(Parse(c))
    ensures var r := Parse(c); r.verdict == Bad && r.state != GotAll && (r.state == ExpectRequestLine ==> StuckOnLine(r))
    decreases |c.buffer|
  {
    if Turn(c).Settled() {
      TurnStuck(c);
    } else {
      TurnFails(c);
      ParseStuck(Turn(c));
    }
  }

  /** The call after it aborts when the request line was refused, and else goes on behind the bad line. */
  lemma NextCall(r: Context, bytes: string)
    requires r.verdict == Bad && r.state != GotAll
    requires r.state == ExpectRequestLine ==> StuckOnLine(r)
    ensures GoneOn(Call(r, bytes), More(r, bytes))
    ensures r.state == ExpectRequestLine ==> Call(r, bytes).verdict == Aborted
  {
    if r.state == ExpectRequestLine {
      CrlfStable(r.buffer, bytes);
      var i := FindCrlf(r.buffer).value;
      assert (r.buffer + bytes)[..i] == r.buffer[..i];
    } else {
      ParseTakes(More(r, bytes).(verdict := Fine));
    }
  }

  lemma WholeGrows(front: seq<string>, last: string)
    requires Whole(front).verdict == Bad
    ensures Whole(front + [last]) == More(Whole(front), last)
  {
    WholeIsParse(front);
    WholeIsParse(front + [last]);
    PieceGrows(front, last);
    FailureStable(Piece(front), last);
  }

  lemma StuckThen(front: seq<string>, last: string)
    requires AllRepeatable(front) && !Repeatable(Feed(NewContext, front))
    ensures Feed(NewContext, front) == Whole(front) && Whole(front).verdict == Bad
    ensures var r := Feed(NewContext, front);
      GoneOn(Call(r, last), More(r, last)) && (r.state == ExpectRequestLine ==> Call(r, last).verdict == Aborted)
  {
    SplitWhenRepeatable(front);
    WholeIsParse(front);
    ParseStuck(Piece(front));
    NextCall(Whole(front), last);
  }

  /** After a failure that cannot be repeated, the calls leave the one-piece result for good. */
  lemma {:induction false} CallsGoOn(chunks: seq<string>)
    requires !AllRepeatable(chunks)
    ensures Whole(chunks).verdict == Bad && GoneOn(Feed(NewContext, chunks), Whole(chunks))
  {
    var front, last := chunks[..|chunks| - 1], chunks[|chunks| - 1];
    AllButLast(chunks);
    assert front + [last] == chunks;
    if AllRepeatable(front) {
      StuckThen(front, last);
    } else {
      CallsGoOn(front);
      GoesOn(Feed(NewContext, front), Whole(front), last);
    }
    WholeGrows(front, last);
  }

  /** A byte string split into arrivals gives the verdict, the request and the unread bytes of
      the same bytes in one piece if and only if no call but the last ended in a failure that
      cannot be repeated: a bad header line, or a request line refused after its method was read. */
  lemma SplitIsExact(chunks: seq<string>)
    ensures Feed(NewContext, chunks) == Whole(chunks) <==> AllRepeatable(chunks)
  {
    if AllRepeatable(chunks) { SplitWhenRepeatable(chunks); } else { CallsGoOn(chunks); }
  }

  /** Bytes that are not refused in one piece are read alike however they arrive. */
  lemma SplitIsIrrelevant(chunks: seq<string>)
    requires Whole(chunks).verdict != Bad
    ensures Feed(NewContext, chunks) == Whole(chunks)
  {
    if AllRepeatable(chunks) { SplitWhenRepeatable(chunks); } else { CallsGoOn(chunks); }
  }

  // ------------------------------------------------------------- the assertion

  /** A request line was refused after its method had been read. */
  predicate RefusedLate(c: Context) { c.verdict == Bad && c.state == ExpectRequestLine && c.request.verb != Invalid }

  lemma {:induction false} AbortStays(chunks: seq<string>, k: nat, front: seq<string>)
    requires k <= |chunks| && front == chunks[..k] && Feed(NewContext, front).verdict == Aborted
    ensures Feed(NewContext, chunks).verdict == Aborted
  {
    if k < |chunks| {
      assert chunks[..|chunks| - 1][..k] == chunks[..k];
      AbortStays(chunks[..|chunks| - 1], k, front);
    } else {
      assert chunks[..k] == chunks;
    }
  }

  lemma LateIsStuck(chunks: seq<string>)
    requires RefusedLate(Feed(NewContext, chunks))
    ensures AllRepeatable(chunks)
  {
    if !AllRepeatable(chunks) { CallsGoOn(chunks); }
  }

  lemma LateThenAborts(chunks: seq<string>, k: nat, front: seq<string>)
    requires k < |chunks| && front == chunks[..k] && RefusedLate(Feed(NewContext, front))
    ensures Feed(NewContext, chunks).verdict == Aborted
  {
    var more := front + [chunks[k]];
    LateCallAborts(front, chunks[k]);
    FrontGrows(chunks, k, front, chunks[k]);
    AbortStays(chunks, k + 1, more);
  }

  lemma FrontGrows(chunks: seq<string>, k: nat, front: seq<string>, last: string)
    requires k < |chunks| && front == chunks[..k] && last == chunks[k]
    ensures chunks[..k + 1] == front + [last]
  {
  }

  lemma LateCallAborts(front: seq<string>, last: string)
    requires RefusedLate(Feed(NewContext, front))
    ensures Feed(NewContext, front + [last]).verdict == Aborted
  {
    LateIsStuck(front);
    StuckThen(front, last);
    PieceGrows(front, last);
  }

  /** Without such a refusal in front, a call does not abort. */
  lemma AbortsOnlyLate(front: seq<string>, last: string)
    requires Feed(NewContext, front).verdict != Aborted && Call(Feed(NewContext, front), last).verdict == Aborted
    ensures RefusedLate(Feed(NewContext, front))
  {
    var r := Feed(NewContext, front);
    if r.state == ExpectRequestLine {
      if !AllRepeatable(front) { CallsGoOn(front); }
      SplitWhenRepeatable(front);
      WholeIsParse(front);
      ParseUnread(Piece(front));
      if Repeatable(r) { ParseUnread(More(r, last).(verdict := Fine)); }
    } else if r.state != GotAll {
      ParseTakes(More(r, last).(verdict := Fine));
    }
  }

  /** The assertion of setMethod fails if and only if a request line was refused after its method
      had been read and another call follows. */
  lemma {:induction false} AbortsExactly(chunks: seq<string>)
    ensures Feed(NewContext, chunks).verdict == Aborted <==>
      exists k: nat | k < |chunks| :: RefusedLate(Feed(NewContext, chunks[..k]))
  {
    if k: nat :| k < |chunks| && RefusedLate(Feed(NewContext, chunks[..k])) {
      LateThenAborts(chunks, k, chunks[..k]);
    } else if chunks != [] {
      var n := |chunks| - 1;
      AbortsExactly(chunks[..n]);
      forall k: nat | k < n ensures !RefusedLate(Feed(NewContext, chunks[..n][..k])) { assert chunks[..n][..k] == chunks[..k]; }
      if Feed(NewContext, chunks).verdict == Aborted { AbortsOnlyLate(chunks[..n], chunks[n]); }
    }
  }
}
