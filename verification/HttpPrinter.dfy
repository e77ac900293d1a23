/** Printing `key: value` lines and whole requests in the usual form, and reading them back. */
module HttpPrinter {
  import opened Bytes
  import opened HttpRequests
  import opened HttpMachine
  import opened HttpGrammar
  import opened HttpParser

  datatype Field = Field(key: string, value: string)

  predicate Printable(f: Field) {
    ValidHeaderKey(f.key) && All(f.value, InHeaderValue)
  }

  predicate AllPrintable(fs: seq<Field>) {
    forall i | 0 <= i < |fs| :: Printable(fs[i])
  }

  function FieldLine(f: Field): string { f.key + ": " + f.value + CRLF }

  function FieldLines(fs: seq<Field>): string {
    if fs == [] then "" else FieldLine(fs[0]) + FieldLines(fs[1..])
  }

  function FieldMap(fs: seq<Field>, base: map<string, string>): map<string, string> {
    if fs == [] then base else FieldMap(fs[1..], base[fs[0].key := fs[0].value])
  }

  lemma {:induction false} FieldLinesJoin(fs: seq<Field>, gs: seq<Field>)
    ensures FieldLines(fs + gs) == FieldLines(fs) + FieldLines(gs)
  {
    if fs == [] {
      assert fs + gs == gs;
    } else {
      assert (fs + gs)[1..] == fs[1..] + gs;
      FieldLinesJoin(fs[1..], gs);
    }
  }

  lemma {:induction false} FieldMapJoin(fs: seq<Field>, gs: seq<Field>, base: map<string, string>)
    ensures FieldMap(fs + gs, base) == FieldMap(gs, FieldMap(fs, base))
  {
    if fs == [] {
      assert fs + gs == gs;
    } else {
      assert (fs + gs)[1..] == fs[1..] + gs;
      FieldMapJoin(fs[1..], gs, base[fs[0].key := fs[0].value]);
    }
  }

  /** The grammar's header for a printed line: the dropped byte is the space. */
  function Headers(fs: seq<Field>): (hs: seq<Header>)
    ensures |hs| == |fs|
    ensures forall i | 0 <= i < |fs| :: hs[i] == Header(fs[i].key, ' ', fs[i].value)
  {
    seq(|fs|, i requires 0 <= i < |fs| => Header(fs[i].key, ' ', fs[i].value))
  }

  lemma HeadersTail(fs: seq<Field>)
    requires fs != []
    ensures Headers(fs)[0] == Header(fs[0].key, ' ', fs[0].value) && Headers(fs)[1..] == Headers(fs[1..])
  {
  }

  lemma FieldLineIsText(f: Field, tail: string)
    ensures FieldLine(f) + tail == f.key + (":" + ([' '] + (f.value + (CRLF + tail))))
  {
    assert FieldLine(f) + tail == f.key + ": " + (f.value + (CRLF + tail));
    assert ": " == ":" + [' '];
  }

  lemma {:induction false} FieldLinesAreText(fs: seq<Field>, tail: string)
    ensures FieldLines(fs) + tail == HeadersText(Headers(fs), tail)
  {
    if fs == [] {
      assert "" + tail == tail;
    } else {
      HeadersTail(fs);
      FieldLinesAreText(fs[1..], tail);
      FieldLineIsText(fs[0], FieldLines(fs[1..]) + tail);
      assert FieldLines(fs) + tail == FieldLine(fs[0]) + (FieldLines(fs[1..]) + tail);
    }
  }

  lemma {:induction false} FieldMapIsHeaderMap(fs: seq<Field>, base: map<string, string>)
    ensures FieldMap(fs, base) == HeaderMap(Headers(fs), base)
  {
    if fs != [] {
      HeadersTail(fs);
      FieldMapIsHeaderMap(fs[1..], base[fs[0].key := fs[0].value]);
    }
  }

  /** Printed lines, a blank line and a body, read back by the parser from its CrLf state. */
  lemma FieldsReadBack(input: string, c: Config, fs: seq<Field>, body: string)
    requires AllPrintable(fs) && c.state == CrLf && c.start == c.cur <= |input| && c.request.body == ""
    requires input[c.cur..] == FieldLines(fs) + (CRLF + body)
    ensures var e := Run(input, c);
            var headers := FieldMap(fs, c.request.headers);
            && Halted(input, e)
            && e.state == BodyOutcome(headers, body).0
            && e.request == c.request.(headers := headers, body := BodyOutcome(headers, body).1)
  {
    FieldLinesAreText(fs, CRLF + body);
    FieldMapIsHeaderMap(fs, c.request.headers);
    var d := RunHeaders(input, c, Headers(fs), CRLF + body);
    RunRest(input, d, body);
  }

  // Requests.

  /** A request as a client means it. */
  datatype PlainRequest = PlainRequest(
    verb: Method,
    target: string,
    query: seq<Param>,
    version: Version,
    fields: seq<Field>,
    body: string)

  predicate PrintableRequest(p: PlainRequest) {
    && p.verb != INVALID_METHOD && p.version != INVALID_VERSION
    && p.target != "" && p.target[0] == '/' && All(p.target, InTarget)
    && (forall i | 0 <= i < |p.query| :: ValidParam(p.query[i]))
    && AllPrintable(p.fields)
  }

  function MethodText(m: Method): string
    requires m != INVALID_METHOD
  {
    match m case GET => "GET" case POST => "POST" case HEAD => "HEAD" case PUT => "PUT" case DELETE => "DELETE"
  }

  function VersionText(v: Version): string
    requires v != INVALID_VERSION
  {
    match v case HTTP_1_0 => "1.0" case HTTP_1_1 => "1.1"
  }

  function ParamsPart(q: seq<Param>): string
    requires q != []
  {
    var first := q[0].key + "=" + q[0].value;
    if |q| == 1 then first else first + "&" + ParamsPart(q[1..])
  }

  function QueryPart(q: seq<Param>): string {
    if q == [] then "" else "?" + ParamsPart(q)
  }

  function Print(p: PlainRequest): string
    requires PrintableRequest(p)
  {
    MethodText(p.verb) + " " + p.target + QueryPart(p.query) + " HTTP/" + VersionText(p.version) + CRLF
    + FieldLines(p.fields) + CRLF + p.body
  }

  function LineOf(p: PlainRequest): RequestLine
    requires PrintableRequest(p)
  {
    RequestLine("", MethodText(p.verb), ' ', "", p.target, p.query, ' ', "", "HTTP", VersionText(p.version))
  }

  function MessageOf(p: PlainRequest): Message
    requires PrintableRequest(p)
  {
    Message(LineOf(p), Headers(p.fields), p.body)
  }

  lemma {:induction false} ParamsPartIsText(q: seq<Param>, tail: string)
    requires q != []
    ensures ParamsPart(q) + tail == ParamsText(q, tail)
  {
    if |q| > 1 {
      ParamsPartIsText(q[1..], tail);
      var k, v, more := q[0].key, q[0].value, ParamsPart(q[1..]);
      assert (k + "=" + v + "&" + more) + tail == k + ("=" + (v + ("&" + (more + tail))));
    } else {
      assert (q[0].key + "=" + q[0].value) + tail == q[0].key + ("=" + (q[0].value + tail));
    }
  }

  lemma QueryPartIsText(q: seq<Param>, tail: string)
    ensures QueryPart(q) + tail == QueryText(q, tail)
  {
    if q == [] {
      assert "" + tail == tail;
    } else {
      ParamsPartIsText(q, tail);
      assert ("?" + ParamsPart(q)) + tail == "?" + (ParamsPart(q) + tail);
    }
  }

  /** The usual form of a request line, `after` being everything behind it. */
  lemma PlainLineIsText(l: RequestLine, after: string)
    requires l.lead == "" && l.gap1 == ' ' && l.pad1 == "" && l.gap2 == ' ' && l.pad2 == "" && l.protocol == "HTTP"
    ensures l.capitals + " " + l.target + QueryPart(l.query) + " HTTP/" + (l.version + CRLF + after)
         == LineText(l, after)
  {
    var x := l.version + (CRLF + after);
    Assoc(l.version, CRLF, after);
    Regroup(l.capitals, " ", l.target, QueryPart(l.query), " HTTP/", x);
    ProtocolMark(x);
    QueryPartIsText(l.query, [' '] + ProtocolText(l, after));
    Empty(l.protocol + ("/" + x));
    var y := l.target + QueryText(l.query, [' '] + ProtocolText(l, after));
    Empty(y);
    Empty(l.capitals + ([' '] + y));
  }

  lemma ProtocolMark(x: string)
    ensures " HTTP/" + x == [' '] + ("HTTP" + ("/" + x))
  {
    assert " HTTP/" == [' '] + ("HTTP" + "/");
  }

  lemma Empty(x: string)
    ensures "" + x == x
  {
  }

  lemma PrintIsText(p: PlainRequest)
    requires PrintableRequest(p)
    ensures Valid(MessageOf(p)) && Print(p) == Text(MessageOf(p))
  {
    var l := LineOf(p);
    LineIsValid(p);
    var fields, end := FieldLines(p.fields), CRLF + p.body;
    FieldLinesAreText(p.fields, end);
    PlainLineIsText(l, fields + end);
    var front := l.capitals + " " + l.target + QueryPart(l.query) + " HTTP/";
    Regroup(front, l.version, CRLF, fields, CRLF, p.body);
    Assoc(l.version, CRLF, fields + end);
  }

  lemma LineIsValid(p: PlainRequest)
    requires PrintableRequest(p)
    ensures ValidLine(LineOf(p))
  {
    assert "HTTP"[1..] == "TTP";
    assert All("TTP", InProtocolName);
    assert All(VersionText(p.version), InVersionText);
    assert All(MethodText(p.verb), IsUpper);
  }

  /** Round trip: a printed request is accepted, and every field comes back; the two maps are the
      last-wins folds of the two lists. */
  lemma RoundTrip(p: PlainRequest)
    requires PrintableRequest(p)
    ensures Accepts(Print(p)) && !Breaks(Print(p))
    ensures var headers := FieldMap(p.fields, map[]);
            Final(Print(p)).request ==
            Request(p.verb, p.version, p.target, ParamMap(p.query, map[]), "HTTP", headers,
                    BodyOutcome(headers, p.body).1)
  {
    hide Run;
    hide Meaning;
    hide Text;
    PrintIsText(p);
    GrammarIsAccepted(MessageOf(p));
    PlainMeaning(p);
  }

  lemma PlainMeaning(p: PlainRequest)
    requires PrintableRequest(p)
    ensures var headers := FieldMap(p.fields, map[]);
            Meaning(MessageOf(p)) ==
            Request(p.verb, p.version, p.target, ParamMap(p.query, map[]), "HTTP", headers,
                    BodyOutcome(headers, p.body).1)
  {
    hide BodyOutcome;
    hide ParamMap;
    FieldMapIsHeaderMap(p.fields, map[]);
    Empty(MethodText(p.verb));
    Empty(p.target);
    Empty("HTTP");
  }

  /** The body comes back whole when the last Content-Length gives its length. */
  lemma RoundTripBody(p: PlainRequest)
    requires PrintableRequest(p)
    requires var headers := FieldMap(p.fields, map[]);
             CONTENT_LENGTH in headers && Atoi(headers[CONTENT_LENGTH]) == |p.body|
    ensures Final(Print(p)).request.body == p.body && Final(Print(p)).state == Complete
  {
    PrintIsText(p);
    GrammarIsAccepted(MessageOf(p));
    FieldMapIsHeaderMap(p.fields, map[]);
    ExactBody(FieldMap(p.fields, map[]), p.body);
  }

  // Two inputs that fare badly.

  function ExampleLine(verb: string): RequestLine {
    RequestLine("", verb, ' ', "", "/", [], ' ', "", "HTTP", "1.1")
  }

  lemma ExampleLineText(verb: string, after: string)
    requires verb != "" && All(verb, IsUpper)
    ensures ValidLine(ExampleLine(verb))
    ensures LineText(ExampleLine(verb), after) == verb + " / HTTP/1.1" + CRLF + after
  {
    assert "HTTP"[1..] == "TTP";
    assert All("TTP", InProtocolName) && All("1.1", InVersionText);
    PlainLineIsText(ExampleLine(verb), after);
    hide LineText;
    hide ValidLine;
    ExampleTarget(verb, "1.1" + CRLF + after);
    assert verb + " / HTTP/1.1" + CRLF + after == verb + " / HTTP/" + ("1.1" + CRLF + after);
  }

  lemma ExampleTarget(verb: string, x: string)
    ensures verb + " " + "/" + "" + " HTTP/" + x == verb + " / HTTP/" + x
  {
    assert " " + "/" + " HTTP/" == " / HTTP/";
    assert verb + " " + "/" + "" + " HTTP/" == verb + (" " + "/" + " HTTP/");
  }

  /** An input on which the parser comes to the malformed slice. */
  lemma BareColonExample()
    ensures Breaks("GET" + " / HTTP/1.1" + CRLF + ("Host:" + (CRLF + CRLF)))
  {
    hide Run;
    var key, tail := "Host", [LF] + CRLF;
    var x := key + (":" + ([CR] + tail));
    assert "Host:" + (CRLF + CRLF) == x by {
      assert "Host:" == "Host" + ":";
      assert CRLF + CRLF == [CR] + tail;
    }
    ExampleLineText("GET", x);
    assert key[1..] == "ost";
    assert HeadersText([], x) == x;
    var input := "GET" + " / HTTP/1.1" + CRLF + ("Host:" + (CRLF + CRLF));
    assert BareColon(input, ExampleLine("GET"), [], key, tail);
    hide *;
    BreaksIffBareColon(input);
  }

  /** A request whose body is cut to one byte, because it is shorter than its Content-Length says. */
  lemma ShortBodyExample()
    ensures var e := Final("POST" + " / HTTP/1.1" + CRLF + ("Content-Length: 5" + CRLF + (CRLF + "abc")));
            e.state == Body && e.request.body == "a"
  {
    hide Run;
    var f := Field("Content-Length", "5");
    var m := Message(ExampleLine("POST"), Headers([f]), "abc");
    ExampleField(f);
    FieldLinesAreText([f], CRLF + "abc");
    ExampleLineText("POST", FieldLines([f]) + (CRLF + "abc"));
    FieldMapIsHeaderMap([f], map[]);
    ExampleOutcome();
    hide *;
    GrammarIsAccepted(m);
  }

  lemma ExampleField(f: Field)
    requires f == Field("Content-Length", "5")
    ensures FieldLines([f]) == "Content-Length: 5" + CRLF && ValidHeaders(Headers([f]))
    ensures FieldMap([f], map[]) == map["Content-Length" := "5"]
  {
  }

  lemma ExampleOutcome()
    ensures BodyOutcome(map["Content-Length" := "5"], "abc") == (Body, "a")
  {
    assert "5"[1..] == "";
    assert Atoi("5") == DigitRun("5", 0) == 5;
    assert "abc"[..1] == "a";
  }
}
