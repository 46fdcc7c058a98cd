/**
  The request object and the parsing context, step by step
  (HTTPServer/HttpServer/src/http/HttpRequest.cpp,
  HTTPServer/HttpServer/src/http/HttpContext.cpp).
 */
module HttpObject {
  import opened Common
  import opened R = HttpRequest
  import P = HttpParser

  class Buffer {
    var data: string

    constructor ()
      ensures data == ""
    {
      data := "";
    }
  }

  /** The comparison of the version in two parts. */
  lemma VersionChars(v: string)
    ensures v == "HTTP/1.1" <==> |v| == 8 && v[..7] == "HTTP/1." && v[7] == '1'
    ensures v == "HTTP/1.0" <==> |v| == 8 && v[..7] == "HTTP/1." && v[7] == '0'
  {
    if |v| == 8 { assert v == v[..7] + [v[7]]; }
  }

  /** One parameter is split off. */
  lemma QueryStep(m: map<string, string>, s: string, prev: nat, pos: nat)
    requires prev <= pos < |s| && pos == prev + Find(s[prev..], '&')
    ensures AddQuery(m, s[prev..]) == AddQuery(AddPair(m, s[prev..pos]), s[pos + 1..])
  {
    AmpersandSplits(m, s[prev..], pos - prev);
    SliceParts(s, prev, pos);
  }

  lemma LastPair(m: map<string, string>, t: string)
    requires Find(t, '&') == |t|
    ensures AddQuery(m, t) == AddPair(m, t)
  {
  }

  lemma SliceParts(s: string, prev: nat, pos: nat)
    requires prev <= pos < |s|
    ensures s[prev..][..pos - prev] == s[prev..pos] && s[prev..][pos - prev + 1..] == s[pos + 1..]
  {
  }

  lemma AmpersandSplits(m: map<string, string>, t: string, amp: nat)
    requires amp < |t| && amp == Find(t, '&')
    ensures AddQuery(m, t) == AddQuery(AddPair(m, t[..amp]), t[amp + 1..])
  {
  }

  class HttpRequest {
    var verb: Method
    var version: string
    var path: string
    var query: map<string, string>
    var queryString: string
    var headers: map<string, string>
    var content: string
    var contentLength: nat

    function State(): Request
      reads this
    {
      Request(verb, version, path, query, queryString, headers, content, contentLength)
    }

    constructor ()
      ensures State() == NewRequest
    {
      verb, version, path, query, queryString := Invalid, "Unknown", "", map[], "";
      headers, content, contentLength := map[], "", 0;
    }

    method SetMethod(name: string) returns (ok: bool)
      requires verb == Invalid
      modifies this`verb
      ensures verb == MethodOf(name) && ok == (verb != Invalid)
    {
      if name == "GET" {
        verb := Get;
      } else if name == "POST" {
        verb := Post;
      } else if name == "PUT" {
        verb := Put;
      } else if name == "DELETE" {
        verb := Delete;
      } else if name == "OPTIONS" {
        verb := Options;
      }
      ok := verb != Invalid;
    }

    method SetPair(pair: string)
      modifies this`query
      ensures query == AddPair(old(query), pair)
    {
      var eq := Find(pair, '=');
      if eq < |pair| { query := query[pair[..eq] := pair[eq + 1..]]; }
    }

    method SetQueryParameters(s: string)
      modifies this`query, this`queryString
      ensures State() == SetQuery(old(State()), s)
    {
      queryString := s;
      var prev := 0;
      var pos := Find(s, '&');
      assert s[0..] == s;
      while pos < |s|
        invariant queryString == s && prev <= pos <= |s| && pos == prev + Find(s[prev..], '&')
        invariant AddQuery(query, s[prev..]) == AddQuery(old(query), s)
        decreases |s| - prev
      {
        QueryStep(query, s, prev, pos);
        SetPair(s[prev..pos]);
        prev := pos + 1;
        pos := prev + Find(s[prev..], '&');
      }
      LastPair(query, s[prev..]);
      SetPair(s[prev..]);
    }

    method SetHeader(line: string, colon: nat)
      requires colon < |line|
      modifies this`headers
      ensures State() == AddHeader(old(State()), line, colon)
    {
      var key, at := line[..colon], colon + 1;
      while at < |line| && Space(line[at])
        invariant at <= |line| && TrimLeft(line[at..]) == TrimLeft(line[colon + 1..])
      {
        at := at + 1;
      }
      var value := line[at..];
      while value != [] && Space(value[|value| - 1])
        invariant TrimRight(value) == TrimRight(line[at..])
        decreases |value|
      {
        value := value[..|value| - 1];
      }
      headers := headers[key := value];
    }
  }

  class HttpContext {
    const request: HttpRequest
    var state: P.State

    constructor ()
      ensures state == P.ExpectRequestLine && request.State() == NewRequest && fresh(request)
    {
      request := new HttpRequest();
      state := P.ExpectRequestLine;
    }

    ghost function ContextOf(buf: Buffer, verdict: P.Verdict): P.Context
      reads this, request, buf
    {
      P.Context(state, request.State(), buf.data, verdict)
    }

    /** The part of processRequestLine between the two spaces. */
    method ReadTarget(target: string)
      modifies request
      ensures request.State() == SetTarget(old(request.State()), target)
    {
      var mark := Find(target, '?');
      if mark < |target| {
        request.path := target[..mark];
        request.SetQueryParameters(target[mark + 1..]);
      } else {
        request.path := target;
      }
    }

    /** processRequestLine; `aborted` when the assertion at the head of setMethod fails. */
    method ProcessRequestLine(line: string) returns (ok: bool, aborted: bool)
      modifies request
      ensures aborted <==> Find(line, ' ') < |line| && old(request.verb) != Invalid
      ensures aborted ==> request.State() == old(request.State())
      ensures !aborted ==> (request.State(), ok) == RequestLine(old(request.State()), line)
    {
      aborted := false;
      var space := Find(line, ' ');
      if space == |line| { return false, false; }
      if request.verb != Invalid { return false, true; }
      var known := request.SetMethod(line[..space]);
      if !known { return false, false; }
      ok := ReadRest(line[space + 1..]);
    }

    /** The part of processRequestLine behind the method. */
    method ReadRest(rest: string) returns (ok: bool)
      modifies request
      ensures (request.State(), ok) == AfterMethod(old(request.State()), rest)
    {
      var space := Find(rest, ' ');
      if space == |rest| { return false; }
      ReadTarget(rest[..space]);
      var version := rest[space + 1..];
      VersionChars(version);
      if |version| == 8 && version[..7] == "HTTP/1." {
        if version[7] == '1' {
          request.version := "HTTP/1.1";
          return true;
        } else if version[7] == '0' {
          request.version := "HTTP/1.0";
          return true;
        }
      }
      return false;
    }

    /** The branch for an empty line: is a body to follow? */
    method FinishHeaders(buf: Buffer, rest: string) returns (verdict: P.Verdict)
      requires state == P.ExpectHeaders
      modifies this`state, request`contentLength, buf
      ensures ContextOf(buf, verdict) == P.EndOfHeaders(old(ContextOf(buf, P.Fine)), rest)
    {
      if request.verb == Post || request.verb == Put {
        var field := if "Content-Length" in request.headers then request.headers["Content-Length"] else "";
        if field == "" {
          buf.data := rest;
          return P.Bad;
        }
        var length := Stoi(field);
        if length.None? { return P.Threw; }
        request.contentLength := AsLength(length.value);
        state := if request.contentLength > 0 then P.ExpectBody else P.GotAll;
      } else {
        state := P.GotAll;
      }
      buf.data := rest;
      return P.Fine;
    }

    /** One turn of the loop; `hasMore` says whether another one follows. */
    method TurnOnce(buf: Buffer) returns (hasMore: bool, verdict: P.Verdict)
      requires state != P.GotAll
      modifies this`state, request, buf
      ensures ContextOf(buf, verdict) == P.Turn(old(ContextOf(buf, P.Fine)))
      ensures hasMore <==> !ContextOf(buf, verdict).Settled() && ContextOf(buf, verdict) != old(ContextOf(buf, P.Fine))
      ensures hasMore ==> |buf.data| < |old(buf.data)|
    {
      if state == P.ExpectBody {
        if |buf.data| < request.contentLength { return false, P.Fine; }
        request.content := buf.data[..request.contentLength];
        buf.data := buf.data[request.contentLength..];
        state := P.GotAll;
        return false, P.Fine;
      }
      var crlf := FindCrlf(buf.data);
      if crlf.None? { return false, P.Fine; }
      var line, rest := buf.data[..crlf.value], buf.data[crlf.value + 2..];
      if state == P.ExpectRequestLine {
        var ok, aborted := ProcessRequestLine(line);
        if aborted { return false, P.Aborted; }
        if !ok { return false, P.Bad; }
        buf.data := rest;
        state := P.ExpectHeaders;
        return true, P.Fine;
      }
      hasMore, verdict := TakeHeader(buf, line, rest);
    }

    /** The turn for one header line. */
    method TakeHeader(buf: Buffer, line: string, rest: string) returns (hasMore: bool, verdict: P.Verdict)
      requires state == P.ExpectHeaders
      modifies this`state, request, buf
      ensures ContextOf(buf, verdict) == P.OnHeader(old(ContextOf(buf, P.Fine)), line, rest)
      ensures hasMore <==> !ContextOf(buf, verdict).Settled()
      ensures hasMore ==> buf.data == rest
    {
      var colon := Find(line, ':');
      if colon < |line| {
        request.SetHeader(line, colon);
        buf.data := rest;
        return true, P.Fine;
      } else if line == "" {
        verdict := FinishHeaders(buf, rest);
        return verdict == P.Fine && state != P.GotAll, verdict;
      }
      buf.data := rest;
      return false, P.Bad;
    }

    /** parseRequest.  It ends for every context that has not got all yet. */
    method ParseRequest(buf: Buffer) returns (verdict: P.Verdict)
      requires state != P.GotAll
      modifies this`state, request, buf
      ensures ContextOf(buf, verdict) == P.Parse(old(ContextOf(buf, P.Fine)))
    {
      verdict := P.Fine;
      var hasMore := true;
      while hasMore
        invariant hasMore ==> verdict == P.Fine && state != P.GotAll
        invariant P.Parse(ContextOf(buf, verdict)) == P.Parse(old(ContextOf(buf, P.Fine)))
        invariant !hasMore ==> P.Parse(ContextOf(buf, verdict)) == ContextOf(buf, verdict)
        decreases hasMore, |buf.data|
      {
        hasMore, verdict := TurnOnce(buf);
      }
    }
  }
}
