/** The load generator against the server: which of its requests get the page. */
module EndToEnd {
  import opened Bytes
  import opened HttpRequests
  import opened HttpMachine
  import opened HttpGrammar
  import opened HttpServer
  import opened Webbench

  /** A request of webbench with an acceptable path gets the page exactly when it is a GET for one of the two
      targets, with any query. */
  lemma PathGetsPage(verb: Verb, path: string, target: string, q: seq<Param>, level: Level, host: string, reload: bool)
    requires level > 0 && PathForm(path, target, q) && All(host, InHeaderValue)
    ensures AsksForPage(RequestText(verb, path, level, FieldsSent(level, host, reload, false)))
            <==> verb == Get && (target == "/" || target == "/index.html")
  {
    hide Run;
    hide RequestText;
    hide FieldsSent;
    hide AsksForPage;
    hide PathForm;
    SentIsAccepted(verb, path, target, q, level, host, reload);
    PageIffServed(RequestText(verb, path, level, FieldsSent(level, host, reload, false)));
  }

  /** Which requests get the page, over all paths without blanks; every other one gets status 400. */
  lemma BenchGetsPageIff(verb: Verb, path: string, level: Level, host: string, reload: bool)
    requires path != "" && path[0] == '/' && All(path, NotBlank) && All(host, InHeaderValue)
    ensures AsksForPage(RequestText(verb, path, level, FieldsSent(level, host, reload, false)))
            <==> level > 0 && verb == Get && exists target, q :: PathForm(path, target, q) && Served(GET, target)
  {
    var text := RequestText(verb, path, level, FieldsSent(level, host, reload, false));
    hide Run;
    hide RequestText;
    hide FieldsSent;
    hide AsksForPage;
    hide PathForm;
    SentAcceptedIff(verb, path, level, host, reload);
    PageIffServed(text);
    if AsksForPage(text) {
      var target, q :| PathForm(path, target, q);
      PathGetsPage(verb, path, target, q, level, host, reload);
    }
    if target, q :| level > 0 && PathForm(path, target, q) && Served(GET, target) {
      PathGetsPage(verb, path, target, q, level, host, reload);
    }
  }
}
