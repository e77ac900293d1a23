/** The language of requests that the parser accepts, written down without reference to the parser:
    the parts of a message, when they are well formed, the text they stand for, and the request
    they describe. It is wider than RFC 9112, sections 3 and 5, where the code is. */
module HttpGrammar {
  import opened Bytes
  import opened HttpRequests
  import opened HttpMachine

  datatype Param = Param(key: string, value: string)

  /** `dropped` is the byte after the colon, which the parser always skips. */
  datatype Header = Header(key: string, dropped: char, value: string)

  datatype RequestLine = RequestLine(
    lead: string,          // line breaks and blanks before the method
    capitals: string,      // the method
    gap1: char,
    pad1: string,          // further blanks, which the parser stores as part of the URL
    target: string,
    query: seq<Param>,
    gap2: char,
    pad2: string,          // further blanks, which the parser stores as part of the protocol
    protocol: string,
    version: string)

  datatype Message = Message(line: RequestLine, headers: seq<Header>, rest: string)

  predicate InTarget(c: char) { c != '?' && !IsBlank(c) }
  predicate InKey(c: char) { c != '=' && !IsBlank(c) }
  predicate InValue(c: char) { c != '&' && !IsBlank(c) }
  predicate InProtocolName(c: char) { c != '/' }
  predicate InVersionText(c: char) { IsDigit(c) || c == '.' }
  predicate InHeaderKey(c: char) { c != ':' }
  predicate InHeaderValue(c: char) { c != CR }

  /** The first byte of a key or value is read in a state of its own, with its own rule. */
  predicate ValidParam(p: Param) {
    && p.key != "" && !IsLead(p.key[0]) && All(p.key[1..], InKey)
    && p.value != "" && !IsLead(p.value[0]) && All(p.value[1..], InValue)
  }

  predicate ValidHeaderKey(key: string) {
    key != "" && key[0] != CR && !IsBlank(key[0]) && All(key[1..], InHeaderKey)
  }

  predicate ValidHeader(h: Header) {
    ValidHeaderKey(h.key) && h.dropped != CR && All(h.value, InHeaderValue)
  }

  predicate ValidLine(l: RequestLine) {
    && All(l.lead, IsLead)
    && l.capitals != "" && All(l.capitals, IsUpper)
    && IsBlank(l.gap1)
    && All(l.pad1, IsBlank)
    && l.target != "" && l.target[0] == '/' && All(l.target, InTarget)
    && (forall i | 0 <= i < |l.query| :: ValidParam(l.query[i]))
    && IsBlank(l.gap2)
    && All(l.pad2, IsBlank)
    && l.protocol != "" && !IsBlank(l.protocol[0]) && All(l.protocol[1..], InProtocolName)
    && l.version != "" && IsDigit(l.version[0]) && All(l.version, InVersionText)
  }

  predicate ValidHeaders(hs: seq<Header>) {
    forall i | 0 <= i < |hs| :: ValidHeader(hs[i])
  }

  predicate Valid(m: Message) {
    ValidLine(m.line) && ValidHeaders(m.headers)
  }

  // Texts. Every text takes what follows it as its last argument.

  function ParamsText(q: seq<Param>, tail: string): string
    requires q != []
  {
    q[0].key + ("=" + (q[0].value + (if |q| == 1 then tail else "&" + ParamsText(q[1..], tail))))
  }

  function QueryText(q: seq<Param>, tail: string): string {
    if q == [] then tail else "?" + ParamsText(q, tail)
  }

  function ProtocolText(l: RequestLine, tail: string): string {
    l.pad2 + (l.protocol + ("/" + (l.version + (CRLF + tail))))
  }

  function LineText(l: RequestLine, tail: string): string {
    l.lead + (l.capitals + ([l.gap1] + (l.pad1 + (l.target +
      QueryText(l.query, [l.gap2] + ProtocolText(l, tail))))))
  }

  function HeadersText(hs: seq<Header>, tail: string): string {
    if hs == [] then tail
    else hs[0].key + (":" + ([hs[0].dropped] + (hs[0].value + (CRLF + HeadersText(hs[1..], tail)))))
  }

  function Text(m: Message): string {
    LineText(m.line, HeadersText(m.headers, CRLF + m.rest))
  }

  // Meanings.

  function ParamMap(q: seq<Param>, base: map<string, string>): map<string, string> {
    if q == [] then base else ParamMap(q[1..], base[q[0].key := q[0].value])
  }

  function HeaderMap(hs: seq<Header>, base: map<string, string>): map<string, string> {
    if hs == [] then base else HeaderMap(hs[1..], base[hs[0].key := hs[0].value])
  }

  function LineRequest(l: RequestLine): Request {
    FRESH.(verb := MethodOf(l.lead + l.capitals),
           url := l.pad1 + l.target,
           params := ParamMap(l.query, map[]),
           protocol := l.pad2 + l.protocol,
           version := VersionOf(l.version))
  }

  /** What is stored of the bytes after the blank line, and the state the parser ends in. */
  function BodyOutcome(headers: map<string, string>, rest: string): (State, string) {
    if AfterBlankLine(headers) == Complete then (Complete, "")
    else if rest == "" then (Body, "")
    else if EnoughBody(headers, |rest|) then (Complete, rest)
    else (Body, rest[..1])
  }

  function Meaning(m: Message): Request {
    var headers := HeaderMap(m.headers, map[]);
    LineRequest(m.line).(headers := headers, body := BodyOutcome(headers, m.rest).1)
  }

  function EndState(m: Message): State {
    BodyOutcome(HeaderMap(m.headers, map[]), m.rest).0
  }

  // Last write wins.

  lemma {:induction false} ParamMapLastWins(q: seq<Param>, base: map<string, string>, key: string)
    ensures key in ParamMap(q, base) <==> key in base || exists i | 0 <= i < |q| :: q[i].key == key
    ensures forall i | 0 <= i < |q| && q[i].key == key && (forall j | i < j < |q| :: q[j].key != key) ::
              key in ParamMap(q, base) && ParamMap(q, base)[key] == q[i].value
    ensures key in base && (forall i | 0 <= i < |q| :: q[i].key != key) ==>
              key in ParamMap(q, base) && ParamMap(q, base)[key] == base[key]
  {
    if q != [] {
      ParamMapLastWins(q[1..], base[q[0].key := q[0].value], key);
      assert forall i | 0 < i < |q| :: q[i] == q[1..][i - 1];
    }
  }

  lemma {:induction false} HeaderMapLastWins(hs: seq<Header>, base: map<string, string>, key: string)
    ensures key in HeaderMap(hs, base) <==> key in base || exists i | 0 <= i < |hs| :: hs[i].key == key
    ensures forall i | 0 <= i < |hs| && hs[i].key == key && (forall j | i < j < |hs| :: hs[j].key != key) ::
              key in HeaderMap(hs, base) && HeaderMap(hs, base)[key] == hs[i].value
    ensures key in base && (forall i | 0 <= i < |hs| :: hs[i].key != key) ==>
              key in HeaderMap(hs, base) && HeaderMap(hs, base)[key] == base[key]
  {
    if hs != [] {
      HeaderMapLastWins(hs[1..], base[hs[0].key := hs[0].value], key);
      assert forall i | 0 < i < |hs| :: hs[i] == hs[1..][i - 1];
    }
  }

  /** The stored body: always a prefix of what follows the blank line. With a positive
      Content-Length k the message is complete exactly when k bytes follow, and then the body is all of
      them. The whole rest is stored exactly in the cases listed; in the others only its first byte,
      or nothing, is kept. */
  lemma BodyLaw(headers: map<string, string>, rest: string)
    ensures BodyOutcome(headers, rest).1 <= rest
    ensures CONTENT_LENGTH in headers && Atoi(headers[CONTENT_LENGTH]) > 0 ==>
              (BodyOutcome(headers, rest).0 == Complete <==> |rest| >= Atoi(headers[CONTENT_LENGTH]))
    ensures CONTENT_LENGTH !in headers ==> BodyOutcome(headers, rest).0 == Body
    ensures BodyOutcome(headers, rest).1 == rest <==>
              || rest == ""
              || (CONTENT_LENGTH in headers && 0 < Atoi(headers[CONTENT_LENGTH]) <= |rest|)
              || (|rest| == 1 && (CONTENT_LENGTH !in headers || Atoi(headers[CONTENT_LENGTH]) > 0))
  {
  }

  lemma ExactBody(headers: map<string, string>, rest: string)
    requires CONTENT_LENGTH in headers && Atoi(headers[CONTENT_LENGTH]) == |rest|
    ensures BodyOutcome(headers, rest) == (Complete, rest)
  {
  }

  // Unique factorisation.

  /** A part of one byte class, followed by a byte of another class, is cut off in one way only;
      the part may begin with a byte that has a rule of its own. */
  lemma SplitHeadUnique(p: char -> bool, a: string, x: string, b: string, y: string)
    requires a != "" && b != "" && All(a[1..], p) && All(b[1..], p) && Stops(x, p) && Stops(y, p)
    requires a + x == b + y
    ensures a == b && x == y
  {
    assert a[1..] + x == (a + x)[1..] == (b + y)[1..] == b[1..] + y;
    SplitUnique(p, a[1..], x, b[1..], y);
    assert a[0] == (a + x)[0] == (b + y)[0] == b[0];
    assert a == [a[0]] + a[1..] && b == [b[0]] + b[1..];
  }

  lemma DropByte(a: char, x: string, b: char, y: string)
    requires [a] + x == [b] + y
    ensures a == b && x == y
  {
    assert a == ([a] + x)[0] && x == ([a] + x)[1..];
    assert b == ([b] + y)[0] && y == ([b] + y)[1..];
  }

  lemma DropCrlf(x: string, y: string)
    requires CRLF + x == CRLF + y
    ensures x == y
  {
    assert x == (CRLF + x)[2..] && y == (CRLF + y)[2..];
  }

  lemma {:induction false} ParamsUnique(q: seq<Param>, x: string, r: seq<Param>, y: string)
    requires q != [] && r != []
    requires forall i | 0 <= i < |q| :: ValidParam(q[i])
    requires forall i | 0 <= i < |r| :: ValidParam(r[i])
    requires x != "" && IsBlank(x[0]) && y != "" && IsBlank(y[0])
    requires ParamsText(q, x) == ParamsText(r, y)
    ensures q == r && x == y
    decreases |q|
  {
    var x1 := if |q| == 1 then x else "&" + ParamsText(q[1..], x);
    var y1 := if |r| == 1 then y else "&" + ParamsText(r[1..], y);
    SplitHeadUnique(InKey, q[0].key, "=" + (q[0].value + x1), r[0].key, "=" + (r[0].value + y1));
    DropByte('=', q[0].value + x1, '=', r[0].value + y1);
    SplitHeadUnique(InValue, q[0].value, x1, r[0].value, y1);
    assert x1[0] == '&' <==> |q| > 1;
    assert y1[0] == '&' <==> |r| > 1;
    if |q| > 1 {
      DropByte('&', ParamsText(q[1..], x), '&', ParamsText(r[1..], y));
      ParamsUnique(q[1..], x, r[1..], y);
      assert q == [q[0]] + q[1..] && r == [r[0]] + r[1..];
    }
  }

  lemma QueryUnique(q: seq<Param>, x: string, r: seq<Param>, y: string)
    requires forall i | 0 <= i < |q| :: ValidParam(q[i])
    requires forall i | 0 <= i < |r| :: ValidParam(r[i])
    requires x != "" && IsBlank(x[0]) && y != "" && IsBlank(y[0])
    requires QueryText(q, x) == QueryText(r, y)
    ensures q == r && x == y
  {
    assert (q != []) <==> QueryText(q, x)[0] == '?';
    assert (r != []) <==> QueryText(r, y)[0] == '?';
    if q != [] {
      DropByte('?', ParamsText(q, x), '?', ParamsText(r, y));
      ParamsUnique(q, x, r, y);
    }
  }

  lemma ProtocolUnique(l: RequestLine, x: string, k: RequestLine, y: string)
    requires ValidLine(l) && ValidLine(k)
    requires ProtocolText(l, x) == ProtocolText(k, y)
    ensures l.pad2 == k.pad2 && l.protocol == k.protocol && l.version == k.version && x == y
  {
    SplitUnique(IsBlank, l.pad2, l.protocol + ("/" + (l.version + (CRLF + x))),
                k.pad2, k.protocol + ("/" + (k.version + (CRLF + y))));
    SplitHeadUnique(InProtocolName, l.protocol, "/" + (l.version + (CRLF + x)),
                    k.protocol, "/" + (k.version + (CRLF + y)));
    DropByte('/', l.version + (CRLF + x), '/', k.version + (CRLF + y));
    SplitUnique(InVersionText, l.version, CRLF + x, k.version, CRLF + y);
    DropCrlf(x, y);
  }

  lemma LineUnique(l: RequestLine, x: string, k: RequestLine, y: string)
    requires ValidLine(l) && ValidLine(k)
    requires LineText(l, x) == LineText(k, y)
    ensures l == k && x == y
  {
    var x4, y4 := [l.gap2] + ProtocolText(l, x), [k.gap2] + ProtocolText(k, y);
    var x3, y3 := l.target + QueryText(l.query, x4), k.target + QueryText(k.query, y4);
    var x2, y2 := [l.gap1] + (l.pad1 + x3), [k.gap1] + (k.pad1 + y3);
    SplitUnique(IsLead, l.lead, l.capitals + x2, k.lead, k.capitals + y2);
    SplitUnique(IsUpper, l.capitals, x2, k.capitals, y2);
    DropByte(l.gap1, l.pad1 + x3, k.gap1, k.pad1 + y3);
    SplitUnique(IsBlank, l.pad1, x3, k.pad1, y3);
    SplitUnique(InTarget, l.target, QueryText(l.query, x4), k.target, QueryText(k.query, y4));
    QueryUnique(l.query, x4, k.query, y4);
    DropByte(l.gap2, ProtocolText(l, x), k.gap2, ProtocolText(k, y));
    ProtocolUnique(l, x, k, y);
  }

  lemma {:induction false} HeadersUnique(hs: seq<Header>, x: string, gs: seq<Header>, y: string)
    requires ValidHeaders(hs) && ValidHeaders(gs)
    requires HeadersText(hs, CRLF + x) == HeadersText(gs, CRLF + y)
    ensures hs == gs && x == y
    decreases |hs|
  {
    assert hs == [] <==> HeadersText(hs, CRLF + x)[0] == CR;
    assert gs == [] <==> HeadersText(gs, CRLF + y)[0] == CR;
    if hs == [] {
      DropCrlf(x, y);
    } else {
      var h, g := hs[0], gs[0];
      var x2, y2 := HeadersText(hs[1..], CRLF + x), HeadersText(gs[1..], CRLF + y);
      var x1, y1 := h.value + (CRLF + x2), g.value + (CRLF + y2);
      SplitHeadUnique(InHeaderKey, h.key, ":" + ([h.dropped] + x1), g.key, ":" + ([g.dropped] + y1));
      DropByte(':', [h.dropped] + x1, ':', [g.dropped] + y1);
      DropByte(h.dropped, x1, g.dropped, y1);
      SplitUnique(InHeaderValue, h.value, CRLF + x2, g.value, CRLF + y2);
      DropCrlf(x2, y2);
      HeadersUnique(hs[1..], x, gs[1..], y);
      assert hs == [h] + hs[1..] && gs == [g] + gs[1..];
    }
  }

  /** A text has at most one factorisation. */
  lemma TextUnique(m: Message, n: Message)
    requires Valid(m) && Valid(n) && Text(m) == Text(n)
    ensures m == n
  {
    LineUnique(m.line, HeadersText(m.headers, CRLF + m.rest),
               n.line, HeadersText(n.headers, CRLF + n.rest));
    HeadersUnique(m.headers, m.rest, n.headers, n.rest);
  }
}
