/**
  The texts a request is made of, character by character, and what is read from
  them: lines, words, trimmed field values, parameters and numbers
  (HTTPServer/HttpServer/src/http/HttpRequest.cpp,
  HTTPServer/HttpServer/src/http/HttpContext.cpp).
 */
module HttpText {
  import opened Common
  import opened HttpRequest

  const Crlf := "\r\n"

  predicate Lacks(s: string, c: char) { forall k | 0 <= k < |s| :: s[k] != c }

  predicate LacksCrlf(s: string) { forall k | 0 <= k < |s| - 1 :: !(s[k] == '\r' && s[k + 1] == '\n') }

  lemma FindBehind(s: string, c: char, rest: string)
    requires Lacks(s, c)
    ensures Find(s + [c] + rest, c) == |s| && (s + [c] + rest)[..|s|] == s && (s + [c] + rest)[|s| + 1..] == rest
    ensures Find(s, c) == |s|
  {
    FindIs(s + [c] + rest, c, |s|);
    FindIs(s, c, |s|);
  }

  /** No line ends in a text exactly when carriage return and line feed nowhere stand together. */
  lemma NoLineEnds(s: string)
    ensures FindCrlf(s).None? <==> LacksCrlf(s)
  {
    forall k | 0 <= k < |s| - 1 ensures CrlfAt(s, k) <==> s[k] == '\r' && s[k + 1] == '\n' { }
  }

  /** A line ends at the first carriage return followed by a line feed. */
  lemma LineEndsAt(line: string, rest: string)
    requires LacksCrlf(line)
    ensures FindCrlf(line + Crlf + rest) == Some(|line|)
    ensures (line + Crlf + rest)[..|line|] == line && (line + Crlf + rest)[|line| + 2..] == rest
  {
    var s := line + Crlf + rest;
    assert CrlfAt(s, |line|);
    forall k: nat | k < |line| ensures !CrlfAt(s, k) { if k + 1 < |line| { assert s[k] == line[k] && s[k + 1] == line[k + 1]; } }
  }

  // --------------------------------------------------------------------- white space

  predicate White(s: string) {
    forall k | 0 <= k < |s| :: s[k] == ' ' || s[k] == '\t' || s[k] == '\n' || s[k] == '\U{B}' || s[k] == '\U{C}' || s[k] == '\r'
  }

  lemma SpaceIs(c: char)
    ensures Space(c) <==> White([c])
  {
    if White([c]) { assert [c][0] == c; }
  }

  /** A text that neither starts nor ends with white space. */
  predicate Tight(s: string) { s == "" || (!White([s[0]]) && !White([s[|s| - 1]])) }

  lemma {:induction false} TrimLeftSkips(before: string, s: string)
    requires White(before) && (s == "" || !White([s[0]]))
    ensures TrimLeft(before + s) == s
  {
    if before != "" {
      SpaceIs(before[0]);
      assert White(before[1..]) && (before + s)[1..] == before[1..] + s;
      TrimLeftSkips(before[1..], s);
    } else {
      assert before + s == s;
      if s != "" { SpaceIs(s[0]); }
    }
  }

  lemma {:induction false} TrimRightSkips(s: string, after: string)
    requires White(after) && (s == "" || !White([s[|s| - 1]]))
    ensures TrimRight(s + after) == s
  {
    if after != "" {
      var n := |after| - 1;
      SpaceIs(after[n]);
      assert White(after[..n]) && (s + after)[..|s + after| - 1] == s + after[..n];
      TrimRightSkips(s, after[..n]);
    } else {
      assert s + after == s;
      if s != "" { SpaceIs(s[|s| - 1]); }
    }
  }

  /** A header field as it is written: white space around the value does not belong to it. */
  datatype Field = Field(name: string, before: string, value: string, after: string)

  function FieldLine(f: Field): string { f.name + ":" + (f.before + f.value + f.after) }

  predicate GoodField(f: Field) { Lacks(f.name, ':') && White(f.before) && White(f.after) && Tight(f.value) }

  lemma ValueReads(f: Field)
    requires GoodField(f)
    ensures TrimRight(TrimLeft(f.before + f.value + f.after)) == f.value
  {
    if f.value == "" {
      assert f.before + f.value + f.after == (f.before + f.after) + "";
      TrimLeftSkips(f.before + f.after, "");
    } else {
      assert f.before + f.value + f.after == f.before + (f.value + f.after);
      TrimLeftSkips(f.before, f.value + f.after);
      TrimRightSkips(f.value, f.after);
    }
  }

  /** A header line is read as its name and its value without the white space around it. */
  lemma FieldReads(r: Request, f: Field)
    requires GoodField(f)
    ensures Find(FieldLine(f), ':') < |FieldLine(f)|
    ensures AddHeader(r, FieldLine(f), Find(FieldLine(f), ':')) == r.(headers := r.headers[f.name := f.value])
  {
    assert FieldLine(f) == f.name + [':'] + (f.before + f.value + f.after);
    FindBehind(f.name, ':', f.before + f.value + f.after);
    ValueReads(f);
  }

  // ---------------------------------------------------------------------- parameters

  /** A parameter with its value, or text without one. */
  datatype Item = Pair(name: string, value: string) | Bare(text: string)

  function ItemText(x: Item): string {
    match x
    case Pair(name, value) => name + "=" + value
    case Bare(text) => text
  }

  predicate GoodItem(x: Item) {
    match x
    case Pair(name, value) => Lacks(name, '=') && Lacks(name, '&') && Lacks(value, '&')
    case Bare(text) => Lacks(text, '=') && Lacks(text, '&')
  }

  predicate GoodItems(items: seq<Item>) { forall k | 0 <= k < |items| :: GoodItem(items[k]) }

  function QueryText(items: seq<Item>): string {
    if items == [] then ""
    else if |items| == 1 then ItemText(items[0])
    else ItemText(items[0]) + "&" + QueryText(items[1..])
  }

  /** The parameters that carry a value; of two with one name the later counts. */
  function PairMap(m: map<string, string>, items: seq<Item>): map<string, string>
    decreases |items|
  {
    if items == [] then m
    else PairMap(if items[0].Pair? then m[items[0].name := items[0].value] else m, items[1..])
  }

  lemma ItemReads(m: map<string, string>, x: Item)
    requires GoodItem(x)
    ensures AddPair(m, ItemText(x)) == (if x.Pair? then m[x.name := x.value] else m) && Lacks(ItemText(x), '&')
  {
    if x.Pair? {
      assert ItemText(x) == x.name + ['='] + x.value;
      FindBehind(x.name, '=', x.value);
    } else {
      FindBehind(x.text, '=', "");
    }
  }

  /** The parameters are read as they were written. */
  lemma {:induction false} QueryReads(m: map<string, string>, items: seq<Item>)
    requires GoodItems(items)
    ensures AddQuery(m, QueryText(items)) == PairMap(m, items)
    decreases |items|
  {
    if items == [] {
      assert Find("", '&') == 0;
    } else {
      var x, text := items[0], ItemText(items[0]);
      var m' := if x.Pair? then m[x.name := x.value] else m;
      ItemReads(m, x);
      if |items| == 1 {
        FindBehind(text, '&', "");
        assert PairMap(m', items[1..]) == m';
      } else {
        assert QueryText(items) == text + ['&'] + QueryText(items[1..]);
        FindBehind(text, '&', QueryText(items[1..]));
        QueryReads(m', items[1..]);
      }
    }
  }

  // -------------------------------------------------------------------------- numbers

  predicate AllDigits(s: string) { forall k | 0 <= k < |s| :: '0' <= s[k] <= '9' }

  lemma {:induction false} DecimalReads(n: nat)
    ensures Digits(n) != "" && AllDigits(Digits(n)) && DigitsValue(Digits(n)) == n
  {
    if n >= 10 {
      DecimalReads(n / 10);
      assert Digits(n)[..|Digits(n)| - 1] == Digits(n / 10);
    } else {
      assert Digits(n)[..0] == "";
    }
  }

  lemma {:induction false} DigitsEndIs(d: string, tail: string)
    requires AllDigits(d) && (tail == "" || !('0' <= tail[0] <= '9'))
    ensures DigitsEnd(d + tail) == |d| && (d + tail)[..|d|] == d
  {
    if d != "" {
      assert (d + tail)[1..] == d[1..] + tail;
      DigitsEndIs(d[1..], tail);
    } else {
      assert d + tail == tail;
    }
  }

  predicate Sign(s: string) { s == "" || s == "+" || s == "-" }

  predicate NoDigit(tail: string) { tail == "" || !('0' <= tail[0] <= '9') }

  lemma SignedStart(sign: string, rest: string)
    requires Sign(sign) && rest != "" && '0' <= rest[0] <= '9'
    ensures sign + rest != "" && !White([(sign + rest)[0]])
    ensures var t := sign + rest; (t[0] == '-' <==> sign == "-") && (if t[0] == '-' || t[0] == '+' then t[1..] else t) == rest
  {
    assert [(sign + rest)[0]][0] == (sign + rest)[0];
    if sign == "" { assert sign + rest == rest; } else { assert (sign + rest)[1..] == rest; }
  }

  /** White space, a sign, the decimal text of a number and anything behind it are read as the signed number;
      a number beyond 32 bits throws. */
  lemma StoiReads(before: string, sign: string, n: nat, tail: string)
    requires White(before) && Sign(sign) && NoDigit(tail)
    ensures var v: int := if sign == "-" then 0 - n else n;
      Stoi(before + (sign + (Digits(n) + tail))) == if -0x8000_0000 <= v <= 0x7FFF_FFFF then Some(v) else None
  {
    DecimalReads(n);
    DigitsEndIs(Digits(n), tail);
    SignedStart(sign, Digits(n) + tail);
    TrimLeftSkips(before, sign + (Digits(n) + tail));
  }

  /** Without a digit there, it throws. */
  lemma StoiThrows(before: string, sign: string, tail: string)
    requires White(before) && Sign(sign) && NoDigit(tail)
    requires tail == "" || (!White([tail[0]]) && tail[0] != '+' && tail[0] != '-') || sign != ""
    ensures Stoi(before + (sign + tail)) == None
  {
    if sign + tail == "" {
      TrimLeftSkips(before, "");
    } else if sign == "" {
      assert sign + tail == tail;
      TrimLeftSkips(before, tail);
    } else {
      assert (sign + tail)[1..] == tail && [(sign + tail)[0]][0] == sign[0];
      TrimLeftSkips(before, sign + tail);
    }
  }

  /** A text that std::stoi reads as `n`. */
  ghost predicate WritesNumber(s: string, n: nat) {
    exists sign: string, tail: string :: Writes(s, sign, n, tail)
  }

  predicate Writes(s: string, sign: string, n: nat, tail: string) {
    (sign == "" || sign == "+") && NoDigit(tail) && s == sign + (Digits(n) + tail)
  }

  lemma NumberReads(s: string, n: nat)
    requires WritesNumber(s, n) && n <= 0x7FFF_FFFF
    ensures Stoi(s) == Some(n) && s != ""
  {
    var sign: string, tail: string :| Writes(s, sign, n, tail);
    DecimalReads(n);
    StoiReads("", sign, n, tail);
    assert "" + s == s;
  }

  // ---------------------------------------------------------------------- request line

  /** Five methods are known, by these names and no others. */
  lemma MethodsAreFive(name: string)
    ensures MethodOf(name) == Get <==> name == "GET"
    ensures MethodOf(name) == Post <==> name == "POST"
    ensures MethodOf(name) == Put <==> name == "PUT"
    ensures MethodOf(name) == Delete <==> name == "DELETE"
    ensures MethodOf(name) == Options <==> name == "OPTIONS"
    ensures MethodOf(name) == Invalid <==> name !in {"GET", "POST", "PUT", "DELETE", "OPTIONS"}
  {
  }

  /** `line` is a method, a target and a version with single spaces between them. */
  predicate ThreeWords(line: string, verb: string, target: string, version: string) {
    && Lacks(verb, ' ') && Lacks(target, ' ') && (version == "HTTP/1.1" || version == "HTTP/1.0")
    && verb in {"GET", "POST", "PUT", "DELETE", "OPTIONS"}
    && line == verb + [' '] + (target + [' '] + version)
  }

  lemma WordsRead(r: Request, line: string, verb: string, target: string, version: string)
    requires ThreeWords(line, verb, target, version)
    ensures RequestLine(r, line) == (SetTarget(r.(verb := MethodOf(verb)), target).(version := version), true)
  {
    MethodsAreFive(verb);
    FindBehind(verb, ' ', target + [' '] + version);
    FindBehind(target, ' ', version);
  }

  /** A request line is accepted exactly when it is three such words. */
  lemma RequestLineExactly(r: Request, line: string)
    ensures RequestLine(r, line).1 <==> exists verb, target, version :: ThreeWords(line, verb, target, version)
  {
    if verb, target, version :| ThreeWords(line, verb, target, version) {
      WordsRead(r, line, verb, target, version);
    }
    if RequestLine(r, line).1 { AcceptedWords(r, line); }
  }

  lemma AcceptedWords(r: Request, line: string)
    requires RequestLine(r, line).1
    ensures exists verb, target, version :: ThreeWords(line, verb, target, version)
  {
    var verb, rest := CutAt(line, ' ');
    var target, version := CutAt(rest, ' ');
    MethodsAreFive(verb);
    assert ThreeWords(line, verb, target, version);
  }

  /** The text before and behind the first `c`. */
  lemma CutAt(s: string, c: char) returns (front: string, behind: string)
    requires Find(s, c) < |s|
    ensures front == s[..Find(s, c)] && behind == s[Find(s, c) + 1..] && Lacks(front, c) && s == front + [c] + behind
    ensures s == front + ([c] + behind)
  {
    front, behind := s[..Find(s, c)], s[Find(s, c) + 1..];
    assert s == front + [c] + behind;
  }

  /** A target is a path, and behind the first question mark the parameters. */
  lemma TargetReads(r: Request, path: string, items: seq<Item>)
    requires Lacks(path, '?') && GoodItems(items)
    ensures SetTarget(r, path) == r.(path := path)
    ensures SetTarget(r, path + ['?'] + QueryText(items)) ==
      r.(path := path, queryString := QueryText(items), query := PairMap(r.query, items))
  {
    FindBehind(path, '?', "");
    FindBehind(path, '?', QueryText(items));
    QueryReads(r.query, items);
  }
}
