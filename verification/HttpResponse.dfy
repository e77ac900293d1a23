/** The response object and its text (src/http/HttpResponse.cpp). `std::map` hands out its entries
    in ascending byte order of the keys, and so does the model. */
module HttpResponses {
  import opened Bytes
  import opened HttpRequests
  import opened HttpMachine
  import opened HttpGrammar
  import opened HttpPrinter

  datatype StatusCode =
    | Unknown
    | Continue
    | Ok
    | Moved301
    | Moved302
    | BadRequest
    | Forbidden
    | NotFound
    | InternalError

  function Number(code: StatusCode): nat {
    match code
    case Unknown => 1
    case Continue => 100
    case Ok => 200
    case Moved301 => 301
    case Moved302 => 302
    case BadRequest => 400
    case Forbidden => 403
    case NotFound => 404
    case InternalError => 500
  }

  function Reason(code: StatusCode): string {
    match code
    case Unknown => "Unknown"
    case Continue => "Continue"
    case Ok => "OK"
    case Moved301 => "Multiple Choices"
    case Moved302 => "Moved Permanently"
    case BadRequest => "Bad Request"
    case Forbidden => "Forbidden"
    case NotFound => "Not Found"
    case InternalError => "Internal Server Error"
  }

  // The order of `std::map<std::string, …>`.

  predicate Before(a: string, b: string) {
    if b == "" then false
    else if a == "" then true
    else a[0] < b[0] || (a[0] == b[0] && Before(a[1..], b[1..]))
  }

  predicate Least(k: string, keys: set<string>) {
    k in keys && forall j | j in keys && j != k :: Before(k, j)
  }

  /** At the first place where two keys differ the smaller byte decides; a key comes before its extensions. */
  lemma {:induction false} BeforeIs(a: string, b: string)
    ensures Before(a, b) <==>
            exists k :: 0 <= k <= |a| && k < |b| && a[..k] == b[..k] && (k == |a| || a[k] as int < b[k] as int)
  {
    if b == "" {
    } else if a == "" {
      assert a[..0] == b[..0];
    } else if a[0] == b[0] {
      BeforeIs(a[1..], b[1..]);
      if k :| 0 <= k <= |a[1..]| && k < |b[1..]| && a[1..][..k] == b[1..][..k]
              && (k == |a[1..]| || a[1..][k] as int < b[1..][k] as int) {
        assert a[..k + 1] == [a[0]] + a[1..][..k] && b[..k + 1] == [b[0]] + b[1..][..k];
      }
      if k :| 0 <= k <= |a| && k < |b| && a[..k] == b[..k] && (k == |a| || a[k] as int < b[k] as int) {
        assert k > 0;
        assert a[1..][..k - 1] == a[..k][1..] && b[1..][..k - 1] == b[..k][1..];
      }
    } else {
      assert a[..0] == b[..0];
      assert forall k | 0 < k <= |a| && k < |b| :: a[..k][0] == a[0] && b[..k][0] == b[0];
    }
  }

  lemma {:induction false} BeforeTotal(a: string, b: string)
    ensures a == b || Before(a, b) || Before(b, a)
    ensures !(Before(a, b) && (Before(b, a) || a == b))
  {
    if a != "" && b != "" {
      BeforeTotal(a[1..], b[1..]);
      assert a == [a[0]] + a[1..] && b == [b[0]] + b[1..];
    }
  }

  lemma {:induction false} BeforeTransitive(a: string, b: string, c: string)
    requires Before(a, b) && Before(b, c)
    ensures Before(a, c)
  {
    if a != "" && a[0] == b[0] == c[0] {
      BeforeTransitive(a[1..], b[1..], c[1..]);
    }
  }

  lemma {:induction false} LeastExists(keys: set<string>)
    requires keys != {}
    ensures exists k :: Least(k, keys)
    decreases |keys|
  {
    var k :| k in keys;
    if keys == {k} {
      assert Least(k, keys);
    } else {
      LeastExists(keys - {k});
      var l :| Least(l, keys - {k});
      BeforeTotal(k, l);
      if Before(k, l) {
        forall j | j in keys && j != k && j != l ensures Before(k, j) {
          BeforeTransitive(k, l, j);
        }
        assert Least(k, keys);
      } else {
        assert Least(l, keys);
      }
    }
  }

  lemma LeastUnique(j: string, k: string, keys: set<string>)
    requires Least(j, keys) && Least(k, keys)
    ensures j == k
  {
    BeforeTotal(j, k);
  }

  /** The entries of `m` for `keys`, as iterating over the map meets them. */
  ghost function Entries(m: map<string, string>, keys: set<string>): (fs: seq<Field>)
    requires keys <= m.Keys
    ensures forall i | 0 <= i < |fs| :: fs[i].key in keys && fs[i].value == m[fs[i].key]
    decreases |keys|
  {
    if keys == {} then []
    else
      LeastExists(keys);
      var k :| Least(k, keys);
      [Field(k, m[k])] + Entries(m, keys - {k})
  }

  lemma EntriesStep(m: map<string, string>, keys: set<string>, k: string)
    requires keys <= m.Keys && Least(k, keys)
    ensures Entries(m, keys) == [Field(k, m[k])] + Entries(m, keys - {k})
    ensures FieldLines(Entries(m, keys)) == FieldLine(Field(k, m[k])) + FieldLines(Entries(m, keys - {k}))
  {
    LeastExists(keys);
    var j :| Least(j, keys) && Entries(m, keys) == [Field(j, m[j])] + Entries(m, keys - {j});
    LeastUnique(j, k, keys);
    assert Entries(m, keys)[1..] == Entries(m, keys - {k});
  }

  /** The iteration meets every entry once, in strictly ascending order of the keys. */
  lemma {:induction false} EntriesAscend(m: map<string, string>, keys: set<string>)
    requires keys <= m.Keys
    ensures forall i, j | 0 <= i < j < |Entries(m, keys)| ::
              Before(Entries(m, keys)[i].key, Entries(m, keys)[j].key)
    ensures forall k | k in keys :: Field(k, m[k]) in Entries(m, keys)
    decreases |keys|
  {
    if keys != {} {
      LeastExists(keys);
      var k :| Least(k, keys);
      EntriesStep(m, keys, k);
      EntriesAscend(m, keys - {k});
    }
  }

  /** Reading the entries back in that order gives the map again. */
  lemma {:induction false} EntriesMap(m: map<string, string>, keys: set<string>, base: map<string, string>)
    requires keys <= m.Keys
    ensures FieldMap(Entries(m, keys), base) == base + (map k | k in keys :: m[k])
    decreases |keys|
  {
    if keys == {} {
      assert base + map[] == base;
    } else {
      LeastExists(keys);
      var k :| Least(k, keys);
      EntriesStep(m, keys, k);
      EntriesMap(m, keys - {k}, base[k := m[k]]);
      assert Entries(m, keys)[1..] == Entries(m, keys - {k});
      assert base[k := m[k]] + (map j | j in keys - {k} :: m[j]) == base + (map j | j in keys :: m[j]);
    }
  }

  // The text.

  /** The fields of one HttpResponse object that its text depends on. */
  datatype Response = Response(code: StatusCode, headers: map<string, string>, body: string)

  function StatusLine(code: StatusCode): string {
    "HTTP/1.0 " + Decimal(Number(code)) + " " + Reason(code) + CRLF
  }

  /** The status lines, in the form of RFC 1945, section 6.1, with the numbers and phrases of the server. */
  lemma StatusLines()
    ensures StatusLine(Continue) == "HTTP/1.0 " + "100" + " " + "Continue" + CRLF
    ensures StatusLine(Ok) == "HTTP/1.0 " + "200" + " " + "OK" + CRLF
    ensures StatusLine(Moved301) == "HTTP/1.0 " + "301" + " " + "Multiple Choices" + CRLF
    ensures StatusLine(Moved302) == "HTTP/1.0 " + "302" + " " + "Moved Permanently" + CRLF
    ensures StatusLine(BadRequest) == "HTTP/1.0 " + "400" + " " + "Bad Request" + CRLF
    ensures StatusLine(Forbidden) == "HTTP/1.0 " + "403" + " " + "Forbidden" + CRLF
    ensures StatusLine(NotFound) == "HTTP/1.0 " + "404" + " " + "Not Found" + CRLF
    ensures StatusLine(InternalError) == "HTTP/1.0 " + "500" + " " + "Internal Server Error" + CRLF
    ensures StatusLine(Unknown) == "HTTP/1.0 " + "1" + " " + "Unknown" + CRLF
  {
    Numbers();
    hide Decimal;
  }

  lemma Numbers()
    ensures Decimal(Number(Continue)) == "100"
    ensures Decimal(Number(Ok)) == "200"
    ensures Decimal(Number(Moved301)) == "301"
    ensures Decimal(Number(Moved302)) == "302"
    ensures Decimal(Number(BadRequest)) == "400"
    ensures Decimal(Number(Forbidden)) == "403"
    ensures Decimal(Number(NotFound)) == "404"
    ensures Decimal(Number(InternalError)) == "500"
    ensures Decimal(Number(Unknown)) == "1"
  {
    Hundreds(1, 0);
    Hundreds(2, 0);
    Hundreds(3, 1);
    Hundreds(3, 2);
    Hundreds(4, 0);
    Hundreds(4, 3);
    Hundreds(4, 4);
    Hundreds(5, 0);
    assert Decimal(1) == [DigitOf(1)];
    hide Decimal;
  }

  lemma Hundreds(a: nat, c: nat)
    requires 0 < a < 10 && c < 10
    ensures Decimal(100 * a + c) == [DigitOf(a), '0', DigitOf(c)]
  {
    assert Decimal(a) == [DigitOf(a)];
    hide Decimal;
    DecimalStep(a, 0);
    var tens := 10 * a;
    assert Decimal(tens) == [DigitOf(a)] + ['0'];
    DecimalStep(tens, c);
    assert 10 * tens + c == 100 * a + c;
  }

  lemma DecimalStep(m: nat, d: nat)
    requires m > 0 && d < 10
    ensures Decimal(10 * m + d) == Decimal(m) + [DigitOf(d)]
  {
    assert (10 * m + d) / 10 == m && (10 * m + d) % 10 == d;
  }

  /** The status line tells the two replies of the server apart. */
  lemma StatusPrefix(r: Response, text: string)
    requires text == HeaderPart(r) + r.body
    ensures r.code == Ok ==> "HTTP/1.0 200 OK\r\n" <= text && !("HTTP/1.0 400 " <= text)
    ensures r.code == BadRequest ==> "HTTP/1.0 400 Bad Request\r\n" <= text && !("HTTP/1.0 200 " <= text)
  {
    StatusLines();
    LineBegins(r, text);
    if r.code == Ok {
      OkLine();
      Differs("HTTP/1.0 200 OK\r\n", "HTTP/1.0 400 ", text);
    } else if r.code == BadRequest {
      BadLine();
      Differs("HTTP/1.0 400 Bad Request\r\n", "HTTP/1.0 200 ", text);
    }
    hide *;
  }

  lemma OkLine()
    ensures "HTTP/1.0 " + "200" + " " + "OK" + CRLF == "HTTP/1.0 200 OK\r\n"
  {
  }

  lemma BadLine()
    ensures "HTTP/1.0 " + "400" + " " + "Bad Request" + CRLF == "HTTP/1.0 400 Bad Request\r\n"
  {
  }

  lemma Differs(line: string, other: string, text: string)
    requires line <= text && 9 < |other| <= |line| && line[9] != other[9]
    ensures !(other <= text)
  {
  }

  lemma LineBegins(r: Response, text: string)
    requires text == HeaderPart(r) + r.body
    ensures StatusLine(r.code) <= text
  {
  }

  function FixedFields(length: nat): seq<Field> {
    [Field("Connection", "close"), Field(CONTENT_LENGTH, Decimal(length)), Field("Content-Type", "text/html")]
  }

  ghost function HeaderPart(r: Response): string {
    StatusLine(r.code) + FieldLines(FixedFields(|r.body|)) + FieldLines(Entries(r.headers, r.headers.Keys)) + CRLF
  }

  class HttpResponse {
    var headers: map<string, string>
    var statusCode: StatusCode
    var statusMessage: string
    var body: string

    function Value(): Response
      reads this
    {
      Response(statusCode, headers, body)
    }

    predicate Valid()
      reads this
    {
      statusMessage == Reason(statusCode)
    }

    constructor ()
      ensures Valid() && Value() == Response(Unknown, map[], "")
    {
      headers, body := map[], "";
      statusCode, statusMessage := Unknown, Reason(Unknown);
    }

    method SetStatusCode(code: StatusCode)
      modifies this
      ensures Valid() && Value() == old(Value()).(code := code)
    {
      statusCode := code;
      statusMessage := Reason(code);
    }

    method SetBody(text: string)
      requires Valid()
      modifies this
      ensures Valid() && Value() == old(Value()).(body := text)
    {
      body := text;
    }

    method SetHeader(key: string, value: string)
      requires Valid()
      modifies this
      ensures Valid() && Value() == old(Value()).(headers := old(headers)[key := value])
    {
      headers := headers[key := value];
    }

    method GetAsStringHeader() returns (os: string)
      requires Valid()
      ensures os == HeaderPart(Value())
    {
      os := "HTTP/1.0 " + Decimal(Number(statusCode)) + " " + statusMessage + CRLF;
      ghost var line := os;
      os := os + CONNECTION_LINE;
      os := os + (LENGTH_LABEL + Decimal(|body|) + CRLF);
      os := os + TYPE_LINE;
      FixedLines(line, |body|);
      var rest := headers.Keys;
      while rest != {}
        invariant rest <= headers.Keys
        invariant os + FieldLines(Entries(headers, rest))
               == StatusLine(statusCode) + FieldLines(FixedFields(|body|)) + FieldLines(Entries(headers, headers.Keys))
        decreases |rest|
      {
        LeastExists(rest);
        var key :| key in rest && Least(key, rest);
        EntriesStep(headers, rest, key);
        Assoc(os, FieldLine(Field(key, headers[key])), FieldLines(Entries(headers, rest - {key})));
        os := os + FieldLine(Field(key, headers[key]));
        rest := rest - {key};
      }
      Assoc(os, "", "");
      os := os + CRLF;
    }

    method GetAsString() returns (text: string)
      requires Valid()
      ensures text == HeaderPart(Value()) + body
    {
      var header := GetAsStringHeader();
      text := header + body;
    }
  }

  const CONNECTION_LINE := "Connection: close\r\n"
  const LENGTH_LABEL := "Content-Length: "
  const TYPE_LINE := "Content-Type: text/html\r\n"

  lemma FixedLines(line: string, length: nat)
    ensures line + CONNECTION_LINE + (LENGTH_LABEL + Decimal(length) + CRLF) + TYPE_LINE
         == line + FieldLines(FixedFields(length))
  {
    var fs := FixedFields(length);
    ConnectionLine();
    LengthLabel();
    TypeLine();
    ThreeLines(fs[0], fs[1], fs[2]);
    Assoc(line, FieldLine(fs[0]), FieldLine(fs[1]));
    Assoc(line, FieldLine(fs[0]) + FieldLine(fs[1]), FieldLine(fs[2]));
  }

  lemma ThreeLines(f: Field, g: Field, h: Field)
    ensures FieldLines([f, g, h]) == FieldLine(f) + FieldLine(g) + FieldLine(h)
  {
    assert [f, g, h][1..] == [g, h] && [g, h][1..] == [h] && [h][1..] == [];
    assert FieldLines([h]) == FieldLine(h) + "" == FieldLine(h);
    Assoc(FieldLine(f), FieldLine(g), FieldLine(h));
  }

  lemma ConnectionLine()
    ensures CONNECTION_LINE == FieldLine(Field("Connection", "close"))
  {
    assert "Connection" + ": " == "Connection: ";
    assert "Connection: " + "close" == "Connection: close";
  }

  lemma LengthLabel()
    ensures LENGTH_LABEL == CONTENT_LENGTH + ": "
  {
  }

  lemma TypeLine()
    ensures TYPE_LINE == FieldLine(Field("Content-Type", "text/html"))
  {
    assert "Content-Type" + ": " == "Content-Type: ";
    assert "Content-Type: " + "text/html" == "Content-Type: text/html";
  }

  // Reading the response back.

  predicate PrintableResponse(r: Response) {
    forall k | k in r.headers :: Printable(Field(k, r.headers[k]))
  }

  function FixedHeaders(length: nat): map<string, string> {
    map["Connection" := "close"][CONTENT_LENGTH := Decimal(length)]["Content-Type" := "text/html"]
  }

  /** The parser, put in its CrLf state behind the status line, reads a printed response back: the headers are the
      fixed ones updated by those of the response, and the body is what the Content-Length among them makes of it. It
      comes back whole exactly in the cases listed, always when the response does not set Content-Length itself. */
  lemma ResponseReadBack(r: Response, input: string, c: Config)
    requires PrintableResponse(r) && input == HeaderPart(r) + r.body
    requires c.state == CrLf && c.start == c.cur == |StatusLine(r.code)| && c.request == FRESH
    ensures Ordered(input, c)
    ensures var e, headers := Run(input, c), FixedHeaders(|r.body|) + r.headers;
            && e.state == BodyOutcome(headers, r.body).0
            && e.request == FRESH.(headers := headers, body := BodyOutcome(headers, r.body).1)
    ensures var headers := FixedHeaders(|r.body|) + r.headers;
            && CONTENT_LENGTH in headers
            && var length := Atoi(headers[CONTENT_LENGTH]);
               Run(input, c).request.body == r.body <==>
               r.body == "" || 0 < length <= |r.body| || (|r.body| == 1 && length > 0)
    ensures CONTENT_LENGTH !in r.headers ==>
              && Run(input, c).state == Complete && Run(input, c).request.body == r.body
              && Atoi((FixedHeaders(|r.body|) + r.headers)[CONTENT_LENGTH]) == |r.body|
  {
    hide *;
    var fs, gs := FixedFields(|r.body|), Entries(r.headers, r.headers.Keys);
    HeaderPartIs(r, fs, gs);
    Behind(input, StatusLine(r.code), FieldLines(fs + gs) + (CRLF + r.body));
    ResponsePrintable(r, fs, gs);
    ResponseFields(r, fs, gs);
    LinesReadBack(input, c, fs + gs, r.body);
    BodyLaw(FixedHeaders(|r.body|) + r.headers, r.body);
    if CONTENT_LENGTH !in r.headers {
      ExactBody(FixedHeaders(|r.body|) + r.headers, r.body);
    }
  }

  lemma ResponsePrintable(r: Response, fs: seq<Field>, gs: seq<Field>)
    requires PrintableResponse(r)
    requires fs == FixedFields(|r.body|) && gs == Entries(r.headers, r.headers.Keys)
    ensures AllPrintable(fs + gs)
  {
    hide Printable;
    FixedPrintable(|r.body|);
  }

  lemma LinesReadBack(input: string, c: Config, fs: seq<Field>, body: string)
    requires AllPrintable(fs) && c.state == CrLf && c.start == c.cur <= |input| && c.request == FRESH
    requires input[c.cur..] == FieldLines(fs) + (CRLF + body)
    ensures Ordered(input, c)
    ensures var outcome := BodyOutcome(FieldMap(fs, map[]), body);
            && Run(input, c).state == outcome.0
            && Run(input, c).request == FRESH.(headers := FieldMap(fs, map[]), body := outcome.1)
  {
    hide Run;
    FieldsReadBack(input, c, fs, body);
  }

  lemma Behind(input: string, a: string, b: string)
    requires input == a + b
    ensures |a| <= |input| && input[|a|..] == b
  {
  }

  lemma HeaderPartIs(r: Response, fs: seq<Field>, gs: seq<Field>)
    requires fs == FixedFields(|r.body|) && gs == Entries(r.headers, r.headers.Keys)
    ensures HeaderPart(r) + r.body == StatusLine(r.code) + (FieldLines(fs + gs) + (CRLF + r.body))
  {
    hide StatusLine;
    hide FieldLines;
    FieldLinesJoin(fs, gs);
    var a, b, c := StatusLine(r.code), FieldLines(fs), FieldLines(gs);
    Regroup(a, b, c, CRLF, r.body, "");
    Assoc(b, c, CRLF + r.body);
    assert r.body + "" == r.body;
    assert HeaderPart(r) + r.body + "" == HeaderPart(r) + r.body;
  }

  lemma ResponseFields(r: Response, fs: seq<Field>, gs: seq<Field>)
    requires fs == FixedFields(|r.body|) && gs == Entries(r.headers, r.headers.Keys)
    ensures FieldMap(fs + gs, map[]) == FixedHeaders(|r.body|) + r.headers
    ensures CONTENT_LENGTH in FieldMap(fs + gs, map[])
    ensures CONTENT_LENGTH !in r.headers ==>
              Atoi(FieldMap(fs + gs, map[])[CONTENT_LENGTH]) == |r.body|
  {
    FixedMap(|r.body|);
    FieldMapJoin(fs, gs, map[]);
    EntriesMap(r.headers, r.headers.Keys, FixedHeaders(|r.body|));
    assert (map k | k in r.headers.Keys :: r.headers[k]) == r.headers;
    AtoiDecimal(|r.body|);
  }

  lemma FixedMap(length: nat)
    ensures FieldMap(FixedFields(length), map[]) == FixedHeaders(length)
  {
    var fs := FixedFields(length);
    assert fs[1..] == [fs[1], fs[2]] && fs[1..][1..] == [fs[2]] && fs[1..][1..][1..] == [];
    var m1 := map["Connection" := "close"];
    var m2 := m1[CONTENT_LENGTH := Decimal(length)];
    var m3 := m2["Content-Type" := "text/html"];
    assert map[]["Connection" := "close"] == m1;
    assert FieldMap(fs, map[]) == FieldMap(fs[1..], m1) == FieldMap(fs[1..][1..], m2) == m3;
  }

  lemma FixedPrintable(length: nat)
    ensures AllPrintable(FixedFields(length))
  {
    var fs := FixedFields(length);
    DigitsPrintable(Decimal(length));
    assert Printable(fs[0]);
    assert Printable(fs[2]);
    assert ValidHeaderKey(CONTENT_LENGTH);
  }

  lemma DigitsPrintable(s: string)
    requires All(s, IsDigit)
    ensures All(s, InHeaderValue)
  {
  }
}
