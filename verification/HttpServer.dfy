/** The message callback of the HTTP server: parse, choose a reply (src/server/HttpServer.cpp). */
module HttpServer {
  import opened Bytes
  import opened HttpRequests
  import opened HttpMachine
  import opened HttpGrammar
  import opened HttpParser
  import opened HttpContexts
  import opened HttpResponses

  const PAGE := "hello world"

  /** The file is not opened: the content is fixed. */
  method RequestFile(filename: string) returns (response: HttpResponse)
    ensures fresh(response) && response.Valid()
    ensures response.Value() == Response(Unknown, map[], PAGE) && response.body == "hello world"
  {
    response := new HttpResponse();
    response.SetBody(PAGE);
  }

  predicate Served(verb: Method, url: string) {
    verb == GET && (url == "/" || url == "/index.html")
  }

  method Repaly(request: HttpRequest) returns (response: HttpResponse)
    ensures fresh(response) && response.Valid()
    ensures response.Value() ==
            Response(if Served(request.verb, request.url) then Ok else BadRequest, map[], PAGE)
  {
    if request.verb == GET {
      var url := request.url;
      if url == "/" || url == "/index.html" {
        url := "files/index.html";
        response := RequestFile(url);
        response.SetStatusCode(Ok);
        return;
      }
    }
    response := RequestFile("files/html404.html");
    response.SetStatusCode(BadRequest);
  }

  /** A request for one of the two pages, spelled without anything before the method or extra blanks. */
  ghost predicate AsksForPage(input: string) {
    exists m :: Valid(m) && Text(m) == input && NamesPage(m.line)
  }

  predicate NamesPage(l: RequestLine) {
    l.lead == "" && l.capitals == "GET" && l.pad1 == "" && (l.target == "/" || l.target == "/index.html")
  }

  /** The reply to one message: status 200 exactly for the requests for a page, 400 for every other input on which the
      parser does not come to a slice that is no range. In that case `malformed` says so, and there is no reply. */
  method HandleMessage(input: string) returns (reply: string, malformed: bool)
    ensures malformed <==> Breaks(input)
    ensures AsksForPage(input) ==> !malformed && reply == HeaderPart(Response(Ok, map[], PAGE)) + PAGE
    ensures !AsksForPage(input) && !malformed ==> reply == HeaderPart(Response(BadRequest, map[], PAGE)) + PAGE
    ensures !malformed ==> ("HTTP/1.0 200 " <= reply <==> AsksForPage(input))
    ensures !malformed ==> ("HTTP/1.0 400 " <= reply <==> !AsksForPage(input))
  {
    hide Run;
    hide Text;
    hide Meaning;
    hide EndState;
    hide HeaderPart;
    hide AsksForPage;
    PageIffServed(input);
    if Accepts(input) {
      AcceptedHalts(input);
    }
    var context := new HttpContext();
    var ok;
    ok, malformed := context.ParaseRequest(input);
    if malformed { return "", true; }
    var complete := context.GetCompleteRequest();
    var response;
    if !complete {
      response := RequestFile("files/html404.html");
      response.SetStatusCode(BadRequest);
    } else {
      response := Repaly(context.request);
    }
    reply := response.GetAsString();
    ReplyPrefix(response.Value(), reply);
  }

  function PageHeaders(): map<string, string> {
    map["Connection" := "close", "Content-Length" := "11", "Content-Type" := "text/html"]
  }

  /** What a client reads behind the status line of a reply. */
  lemma ReplyReadBack(code: StatusCode, reply: string, c: Config)
    requires reply == HeaderPart(Response(code, map[], PAGE)) + PAGE
    requires c.state == CrLf && c.start == c.cur == |StatusLine(code)| && c.request == FRESH
    ensures Ordered(reply, c)
    ensures var e := Run(reply, c);
            e.state == Complete && e.request == FRESH.(headers := PageHeaders(), body := "hello world")
  {
    var r := Response(code, map[], PAGE);
    assert |PAGE| == 11 && PAGE == "hello world";
    PageFields();
    hide *;
    ResponseReadBack(r, reply, c);
    assert FixedHeaders(11) + map[] == FixedHeaders(11);
    PageBody();
  }

  lemma PageBody()
    ensures CONTENT_LENGTH in PageHeaders()
    ensures BodyOutcome(PageHeaders(), PAGE) == (Complete, PAGE)
  {
    PageFields();
    AtoiDecimal(11);
    ExactBody(PageHeaders(), PAGE);
  }

  lemma PageFields()
    ensures FixedHeaders(11) == PageHeaders() && PageHeaders().Keys == {"Connection", CONTENT_LENGTH, "Content-Type"}
    ensures PageHeaders()[CONTENT_LENGTH] == Decimal(11)
  {
    assert |"Content-Length"| == 14 && |"Connection"| == 10 && |"Content-Type"| == 12;
    assert Decimal(1) == ['1'];
    assert Decimal(11) == Decimal(1) + [DigitOf(1)] == "11";
  }

  lemma ReplyPrefix(r: Response, reply: string)
    requires reply == HeaderPart(r) + r.body
    ensures r.code == Ok ==> "HTTP/1.0 200 " <= reply && !("HTTP/1.0 400 " <= reply)
    ensures r.code == BadRequest ==> "HTTP/1.0 400 " <= reply && !("HTTP/1.0 200 " <= reply)
  {
    StatusPrefix(r, reply);
    hide HeaderPart;
  }

  /** The stored method and URL are those of a page exactly when the text is. */
  lemma PageIffServed(input: string)
    ensures AsksForPage(input) <==>
            Accepts(input) && Served(Final(input).request.verb, Final(input).request.url)
  {
    if Accepts(input) {
      var m := AcceptedMeaning(input);
      NamesPageIffServed(m);
    }
    if m :| Valid(m) && Text(m) == input && NamesPage(m.line) {
      GrammarIsAccepted(m);
      NamesPageIffServed(m);
    }
  }

  lemma NamesPageIffServed(m: Message)
    requires Valid(m)
    ensures NamesPage(m.line) <==> Served(Meaning(m).verb, Meaning(m).url)
  {
    var l := m.line;
    assert l.lead != "" ==> (l.lead + l.capitals)[0] == l.lead[0] && IsLead(l.lead[0]);
    assert l.lead == "" ==> l.lead + l.capitals == l.capitals;
    assert MethodOf(l.lead + l.capitals) == GET ==> l.lead + l.capitals == "GET";
    assert l.pad1 != "" ==> (l.pad1 + l.target)[0] == l.pad1[0] && IsBlank(l.pad1[0]);
    assert l.pad1 == "" ==> l.pad1 + l.target == l.target;
  }
}
