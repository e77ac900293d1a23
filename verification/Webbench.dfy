/** The request that webbench sends (webbench-1.5/webbench-1.5/webbench.c:199-291), and what the
    server's parser makes of it. A C string is the text before its terminator. */
module Webbench {
  import opened Bytes
  import opened HttpRequests
  import opened HttpMachine
  import opened HttpGrammar
  import opened HttpParser
  import opened HttpPrinter

  datatype Verb = Get | Head | Options | Trace

  const REQUEST_SIZE := 2048
  const MAX_URL := 1500
  const MAX_HOST_NAME := 64   // MAXHOSTNAMELEN of Linux
  const PORT_SIZE := 10

  function VerbText(v: Verb): string {
    match v case Get => "GET" case Head => "HEAD" case Options => "OPTIONS" case Trace => "TRACE"
  }

  function NotSlash(): char -> bool { c => c != '/' }
  function NotColon(): char -> bool { c => c != ':' }

  /** `strstr(s, pattern)` as an offset, or the length of `s` when there is no match. */
  function Find(s: string, pattern: string): (n: nat)
    ensures n <= |s|
  {
    if s == "" || pattern <= s then 0 else 1 + Find(s[1..], pattern)
  }

  /** Find yields the first match. */
  lemma {:induction false} FindFirst(s: string, pattern: string)
    ensures Find(s, pattern) < |s| ==> pattern <= s[Find(s, pattern)..]
    ensures forall i | 0 <= i < Find(s, pattern) :: !(pattern <= s[i..])
  {
    if s != "" && !(pattern <= s) {
      FindFirst(s[1..], pattern);
      assert forall i | 1 <= i <= |s| :: s[i..] == s[1..][i - 1..];
    }
  }

  function Lower(c: char): char { if IsUpper(c) then c - 'A' + 'a' else c }

  const SCHEME := "http://"

  /** `strncasecmp("http://", url, 7) == 0` */
  predicate IsHttp(url: string) {
    |url| >= 7 && forall i | 0 <= i < 7 :: Lower(url[i]) == SCHEME[i]
  }

  /** The part of the URL behind "://". */
  function Behind(url: string): string
    requires Find(url, "://") < |url|
  {
    FindFirst(url, "://");
    url[Find(url, "://") + 3..]
  }

  /** Whether build_request goes on with this URL instead of ending the program. */
  predicate Usable(url: string, proxied: bool) {
    && Find(url, "://") < |url|
    && |url| <= MAX_URL
    && (!proxied ==> IsHttp(url))
    && Span(Behind(url), NotSlash()) < |Behind(url)|
  }

  /** Host and port, as far as the first '/'. */
  function Authority(url: string): string
    requires Usable(url, false)
  {
    Behind(url)[..Span(Behind(url), NotSlash())]
  }

  function Path(url: string): (path: string)
    requires Usable(url, false)
    ensures path != "" && path[0] == '/' && Behind(url) == Authority(url) + path
  {
    SpanSplits(Behind(url), NotSlash());
    Behind(url)[Span(Behind(url), NotSlash())..]
  }

  function HostOf(url: string): string
    requires Usable(url, false)
  {
    Authority(url)[..Span(Authority(url), NotColon())]
  }

  function PortTextOf(url: string): string
    requires Usable(url, false)
  {
    var n := Span(Authority(url), NotColon());
    if n < |Authority(url)| then Authority(url)[n + 1..] else ""
  }

  /** Host and port text leave room for a terminator in the buffers they are copied to. */
  predicate Fits(url: string)
    requires Usable(url, false)
  {
    |HostOf(url)| < MAX_HOST_NAME && |PortTextOf(url)| < PORT_SIZE
  }

  /** The request is there; or the program has ended with status 2; or host or port have been copied past their buffers,
      after which C gives the program no meaning. */
  datatype Outcome = Built | Exits | Overruns

  function OutcomeOf(url: string, proxied: bool): Outcome {
    if !Usable(url, proxied) then Exits else if !proxied && !Fits(url) then Overruns else Built
  }

  lemma LowerIs(c: char, small: char, capital: char)
    requires 'a' <= small <= 'z' && capital == small - 'a' + 'A'
    ensures Lower(c) == small <==> c == small || c == capital
  {
  }

  lemma LowerKeeps(c: char)
    ensures Lower(c) == ':' <==> c == ':'
    ensures Lower(c) == '/' <==> c == '/'
  {
  }

  /** The scheme is compared without regard to case. */
  lemma IsHttpIs(url: string)
    ensures IsHttp(url) <==>
              && |url| >= 7
              && url[0] in {'h', 'H'} && url[1] in {'t', 'T'} && url[2] in {'t', 'T'} && url[3] in {'p', 'P'}
              && url[4] == ':' && url[5] == '/' && url[6] == '/'
  {
    if |url| >= 7 {
      LowerIs(url[0], 'h', 'H');
      LowerIs(url[1], 't', 'T');
      LowerIs(url[2], 't', 'T');
      LowerIs(url[3], 'p', 'P');
      hide Lower;
      assert Lower(url[4]) == ':' <==> url[4] == ':' by { LowerKeeps(url[4]); }
      assert Lower(url[5]) == '/' <==> url[5] == '/' by { LowerKeeps(url[5]); }
      assert Lower(url[6]) == '/' <==> url[6] == '/' by { LowerKeeps(url[6]); }
    }
    assert SCHEME[0] == 'h' && SCHEME[1] == 't' && SCHEME[2] == 't' && SCHEME[3] == 'p';
    assert SCHEME[4] == ':' && SCHEME[5] == '/' && SCHEME[6] == '/';
  }

  /** Which URLs end the program: those without "://", without a '/' behind the first of these, longer than 1500, or of
      another scheme when there is no proxy; and which overrun the buffers of 64 and 10 bytes. */
  lemma OutcomeIs(url: string, proxied: bool)
    ensures OutcomeOf(url, proxied) == Exits <==>
              || (forall i | 0 <= i <= |url| :: !("://" <= url[i..]))
              || |url| > 1500
              || (!proxied && !IsHttp(url))
              || (forall i | 0 <= i <= |url| && "://" <= url[i..] && (forall j | 0 <= j < i :: !("://" <= url[j..])) ::
                    '/' !in url[i + 3..])
    ensures OutcomeOf(url, proxied) == Overruns ==> !proxied && (|HostOf(url)| >= 64 || |PortTextOf(url)| >= 10)
    ensures OutcomeOf(url, proxied) == Built && !proxied ==> |HostOf(url)| < 64 && |PortTextOf(url)| < 10
  {
    FindFirst(url, "://");
    var n := Find(url, "://");
    assert !("://" <= url[|url|..]);
    if n < |url| {
      SpanSplits(Behind(url), NotSlash());
      SlashBehind(Behind(url));
    }
    hide IsHttp;
    hide HostOf;
    hide PortTextOf;
    hide Find;
  }

  lemma SlashBehind(s: string)
    ensures Span(s, NotSlash()) < |s| <==> '/' in s
  {
    SpanSplits(s, NotSlash());
    var n := Span(s, NotSlash());
    assert s == s[..n] + s[n..];
    if n < |s| {
      assert s[n..][0] == '/';
    } else {
      assert s[..n] == s;
    }
  }

  function Agent(): Field { Field("User-Agent", "WebBench 1.5") }
  function NoCache(): Field { Field("Pragma", "no-cache") }
  function Close(): Field { Field("Connection", "close") }
  function AgentLine(): string { "User-Agent: WebBench 1.5\r\n" }
  function HostLabel(): string { "Host: " }
  function NoCacheLine(): string { "Pragma: no-cache\r\n" }
  function CloseLine(): string { "Connection: close\r\n" }

  /** 0, 1 and 2 stand for HTTP/0.9, HTTP/1.0 and HTTP/1.1. */
  type Level = n: int | 0 <= n <= 2

  function Max(a: Level, b: Level): Level { if a < b then b else a }

  /** The level that options and method force. */
  function EffectiveLevel(level: Level, verb: Verb, reload: bool, proxied: bool): Level {
    var reloaded := if reload && proxied then Max(level, 1) else level;
    match verb
    case Get => reloaded
    case Head => Max(reloaded, 1)
    case Options => Max(reloaded, 2)
    case Trace => Max(reloaded, 2)
  }

  function ProtocolPart(level: Level): string {
    if level == 1 then " HTTP/1.0" else if level == 2 then " HTTP/1.1" else ""
  }

  function FieldsSent(level: Level, host: string, reload: bool, proxied: bool): seq<Field> {
    if level == 0 then (if reload && proxied then [NoCache()] else [])
    else
      [Agent()]
      + (if proxied then [] else [Field("Host", host)])
      + (if reload && proxied then [NoCache()] else [])
      + (if level == 2 then [Close()] else [])
  }

  function RequestText(verb: Verb, where: string, level: Level, fields: seq<Field>): string {
    VerbText(verb) + " " + where + ProtocolPart(level) + CRLF + FieldLines(fields)
    + (if level > 0 then CRLF else "")
  }

  /** The port the program goes on with: 80 when the text is not a number. */
  function PortAfter(url: string, port: int): int
    requires Usable(url, false)
  {
    if Span(Authority(url), NotColon()) == |Authority(url)| then port
    else if Atoi(PortTextOf(url)) == 0 then 80
    else Atoi(PortTextOf(url))
  }

  class Bench {
    var level: Level
    var verb: Verb
    var forceReload: bool
    var proxied: bool
    var proxyport: int
    var host: string
    var request: string

    method BuildRequest(url: string) returns (outcome: Outcome)
      modifies this`level, this`proxyport, this`host, this`request
      ensures outcome == OutcomeOf(url, proxied)
      ensures level == EffectiveLevel(old(level), verb, forceReload, proxied)
      ensures verb == Options || verb == Trace ==> level == 2
      ensures verb == Head || (forceReload && proxied && verb == Get) ==>
                level == if old(level) == 0 then 1 else old(level)
      ensures verb == Get && !(forceReload && proxied) ==> level == old(level)
      ensures host == if outcome == Built && !proxied then HostOf(url) else ""
      ensures proxyport == if outcome == Built && !proxied then PortAfter(url, old(proxyport)) else old(proxyport)
      ensures outcome == Built ==>
                var where := if proxied then url else Path(url);
                request == RequestText(verb, where, level, FieldsSent(level, host, forceReload, proxied))
      ensures outcome == Built ==> |request| + 1 <= 2048
    {
      hide Find;
      hide Span;
      hide IsHttp;
      hide Behind;
      hide FieldLines;
      hide FieldsSent;
      hide HostOf;
      hide Path;
      hide PortAfter;
      hide EffectiveLevel;
      hide VerbText;
      Begin();
      if Find(url, "://") == |url| { return Exits; }
      if |url| > MAX_URL { return Exits; }
      if !proxied && !IsHttp(url) { return Exits; }
      if Span(Behind(url), NotSlash()) == |Behind(url)| { return Exits; }
      if !proxied && !Fits(url) { return Overruns; }
      AddTarget(url);
      AddRest();
      RequestFits(url, verb, level, forceReload, proxied);
      outcome := Built;
    }

    /** The level, the method and a space. */
    method Begin()
      modifies this`level, this`host, this`request
      ensures level == EffectiveLevel(old(level), verb, forceReload, proxied)
      ensures verb == Options || verb == Trace ==> level == 2
      ensures verb == Head || (forceReload && proxied && verb == Get) ==>
                level == if old(level) == 0 then 1 else old(level)
      ensures verb == Get && !(forceReload && proxied) ==> level == old(level)
      ensures host == "" && request == VerbText(verb) + " "
    {
      host := "";
      request := "";
      if forceReload && proxied && level < 1 { level := 1; }
      if verb == Head && level < 1 { level := 1; }
      if verb == Options && level < 2 { level := 2; }
      if verb == Trace && level < 2 { level := 2; }
      match verb {
        case Get => request := "GET";
        case Head => request := "HEAD";
        case Options => request := "OPTIONS";
        case Trace => request := "TRACE";
      }
      request := request + " ";
    }

    /** Host, port and path, or the whole URL for a proxy. */
    method AddTarget(url: string)
      requires Usable(url, proxied) && host == ""
      modifies this`proxyport, this`host, this`request
      ensures host == if proxied then "" else HostOf(url)
      ensures proxyport == if proxied then old(proxyport) else PortAfter(url, old(proxyport))
      ensures request == old(request) + if proxied then url else Path(url)
    {
      if proxied {
        request := request + url;
        return;
      }
      WhereColonIs(url);
      hide *;
      var rest := Behind(url);
      var slash, colon := Span(rest, NotSlash()), Span(rest, NotColon());
      if colon < |rest| && colon < slash {
        host := rest[..colon];
        proxyport := Atoi(rest[colon + 1..slash]);
        if proxyport == 0 { proxyport := 80; }
      } else {
        host := rest[..slash];
      }
      request := request + rest[slash..];
    }

    /** The protocol, the fields and the empty line. */
    method AddRest()
      modifies this`request
      ensures request == old(request) + ProtocolPart(level) + CRLF
                         + FieldLines(FieldsSent(level, host, forceReload, proxied))
                         + (if level > 0 then CRLF else "")
    {
      hide FieldLines;
      hide FieldsSent;
      Ended(request);
      if level == 1 {
        request := request + " HTTP/1.0";
      } else if level == 2 {
        request := request + " HTTP/1.1";
      }
      request := request + CRLF;
      AddFields();
      Ended(request);
      if level > 0 {
        request := request + CRLF;
      }
    }

    method AddFields()
      modifies this`request
      ensures request == old(request) + FieldLines(FieldsSent(level, host, forceReload, proxied))
    {
      KnownLines(host);
      hide *;
      ghost var sent: seq<Field> := [];
      NoLines(request);
      if level > 0 {
        AddLine(old(request), sent, Agent());
        request := request + AgentLine();
        sent := sent + [Agent()];
      }
      if !proxied && level > 0 {
        AddLine(old(request), sent, Field("Host", host));
        Regroup(request, HostLabel(), host, CRLF, "", "");
        request := request + HostLabel();
        request := request + host;
        request := request + CRLF;
        sent := sent + [Field("Host", host)];
      }
      if forceReload && proxied {
        AddLine(old(request), sent, NoCache());
        request := request + NoCacheLine();
        sent := sent + [NoCache()];
      }
      if level > 1 {
        AddLine(old(request), sent, Close());
        request := request + CloseLine();
        sent := sent + [Close()];
      }
      SentIs(sent, level, host, forceReload, proxied);
    }
  }

  lemma SentIs(sent: seq<Field>, level: Level, host: string, reload: bool, proxied: bool)
    requires sent ==
             [] + (if level > 0 then [Agent()] else [])
             + (if !proxied && level > 0 then [Field("Host", host)] else [])
             + (if reload && proxied then [NoCache()] else [])
             + (if level > 1 then [Close()] else [])
    ensures sent == FieldsSent(level, host, reload, proxied)
  {
  }

  lemma NoLines(x: string)
    ensures x + FieldLines([]) == x
  {
  }

  lemma AddLine(x: string, sent: seq<Field>, f: Field)
    ensures (x + FieldLines(sent)) + FieldLine(f) == x + FieldLines(sent + [f])
  {
    FieldLinesJoin(sent, [f]);
    assert [f][1..] == [];
    Assoc(FieldLine(f), "", "");
    Assoc(x, FieldLines(sent), FieldLine(f));
  }

  lemma KnownLines(host: string)
    ensures AgentLine() == FieldLine(Agent())
    ensures HostLabel() + (host + (CRLF + ("" + ""))) == FieldLine(Field("Host", host))
    ensures NoCacheLine() == FieldLine(NoCache())
    ensures CloseLine() == FieldLine(Close())
  {
    assert "User-Agent: " == "User-Agent" + ": ";
    assert AgentLine() == "User-Agent: " + "WebBench 1.5" + CRLF;
    assert HostLabel() == "Host" + ": ";
    Assoc(HostLabel(), host, CRLF);
    assert "Pragma: " == "Pragma" + ": ";
    assert NoCacheLine() == "Pragma: " + "no-cache" + CRLF;
    assert "Connection: " == "Connection" + ": ";
    assert CloseLine() == "Connection: " + "close" + CRLF;
  }

  /** The longest request leaves room for the terminator. */
  lemma RequestFits(url: string, verb: Verb, level: Level, reload: bool, proxied: bool)
    requires Usable(url, proxied)
    ensures var where := if proxied then url else Path(url);
            var host := if proxied then "" else HostOf(url);
            |RequestText(verb, where, level, FieldsSent(level, host, reload, proxied))| + 1 <= 2048 == REQUEST_SIZE
  {
    var host := if proxied then "" else HostOf(url);
    var where := if proxied then url else Path(url);
    if !proxied { HostAndPathLength(url); }
    assert |url| <= MAX_URL;
    FieldsLength(level, host, reload, proxied);
    TextLength(verb, where, level, FieldsSent(level, host, reload, proxied));
    hide *;
  }

  lemma HostAndPathLength(url: string)
    requires Usable(url, false)
    ensures |HostOf(url)| + |Path(url)| <= |url|
  {
    FindFirst(url, "://");
    assert |Behind(url)| == |Authority(url)| + |Path(url)|;
    assert |Behind(url)| == |url| - Find(url, "://") - 3;
  }

  lemma TextLength(verb: Verb, where: string, level: Level, fields: seq<Field>)
    ensures |RequestText(verb, where, level, fields)| <= |where| + |FieldLines(fields)| + 21
  {
    hide FieldLines;
    var v, p, f := VerbText(verb), ProtocolPart(level), FieldLines(fields);
    var end := if level > 0 then CRLF else "";
    assert |v| <= 7 && |p| <= 9 && |CRLF| == 2 && |end| <= 2;
    assert |v + " " + where + p + CRLF + f + end| == |v| + 1 + |where| + |p| + 2 + |f| + |end|;
  }

  lemma FieldsLength(level: Level, host: string, reload: bool, proxied: bool)
    ensures |FieldLines(FieldsSent(level, host, reload, proxied))| <= 80 + |host|
  {
    KnownLines(host);
    var agent := [Agent()];
    var hosts := if proxied then [] else [Field("Host", host)];
    var cache := if reload && proxied then [NoCache()] else [];
    var close := if level == 2 then [Close()] else [];
    OneLine(Agent());
    OneLine(Field("Host", host));
    OneLine(NoCache());
    OneLine(Close());
    FieldLinesJoin(agent, hosts);
    FieldLinesJoin(agent + hosts, cache);
    FieldLinesJoin(agent + hosts + cache, close);
  }

  lemma OneLine(f: Field)
    ensures FieldLines([f]) == FieldLine(f)
    ensures |FieldLine(f)| == |f.key| + |f.value| + 4
  {
    assert [f][1..] == [];
    Assoc(FieldLine(f), "", "");
  }

  lemma Ended(x: string)
    ensures x + "" == x
  {
  }

  /** The split in terms of the first slash and the first colon behind "://". */
  lemma WhereColonIs(url: string)
    requires Usable(url, false)
    ensures var rest := Behind(url);
            var slash, colon := Span(rest, NotSlash()), Span(rest, NotColon());
            && Path(url) == rest[slash..]
            && (colon < slash ==>
                  && HostOf(url) == rest[..colon] && PortTextOf(url) == rest[colon + 1..slash]
                  && (forall port :: PortAfter(url, port) ==
                        if Atoi(rest[colon + 1..slash]) == 0 then 80 else Atoi(rest[colon + 1..slash])))
            && (colon >= slash ==>
                  && HostOf(url) == rest[..slash] && PortTextOf(url) == ""
                  && (forall port :: PortAfter(url, port) == port))
  {
    var rest := Behind(url);
    var slash, colon := Span(rest, NotSlash()), Span(rest, NotColon());
    ColonBeforeSlash(rest);
    hide Find;
    hide Behind;
    hide Atoi;
    hide Span;
    if colon < slash {
      assert rest[..slash][colon + 1..] == rest[colon + 1..slash];
      assert rest[..slash][..colon] == rest[..colon];
    } else {
      assert rest[..slash][..slash] == rest[..slash];
    }
  }

  /** Looking for the colon before the slash in the whole rest, or only in the part before the slash. */
  lemma ColonBeforeSlash(rest: string)
    ensures var slash, colon := Span(rest, NotSlash()), Span(rest, NotColon());
            if colon < slash then Span(rest[..slash], NotColon()) == colon
            else Span(rest[..slash], NotColon()) == slash
  {
    var slash, colon := Span(rest, NotSlash()), Span(rest, NotColon());
    var part := rest[..slash];
    SpanSplits(rest, NotColon());
    if colon < slash {
      assert rest[colon..][0] == ':';
      assert part == part[..colon] + part[colon..];
      assert part[..colon] == rest[..colon];
      SpanIs(NotColon(), part[..colon], part[colon..]);
    } else {
      assert All(part, NotColon()) by {
        assert forall i | 0 <= i < slash :: part[i] == rest[..colon][i];
      }
      assert part + "" == part;
      SpanIs(NotColon(), part, "");
    }
  }

  /** The whole text, line by line. */
  lemma SentText(verb: Verb, where: string, level: Level, host: string, reload: bool, proxied: bool)
    ensures RequestText(verb, where, level, FieldsSent(level, host, reload, proxied))
         == (if verb == Get then "GET" else if verb == Head then "HEAD" else if verb == Options then "OPTIONS"
             else "TRACE") + " " + where
            + (if level == 0 then "" else if level == 1 then " HTTP/1.0" else " HTTP/1.1") + "\r\n"
            + ((if level > 0 then "User-Agent: WebBench 1.5\r\n" else "")
               + (if level > 0 && !proxied then "Host: " + host + "\r\n" else "")
               + (if reload && proxied then "Pragma: no-cache\r\n" else "")
               + (if level > 1 then "Connection: close\r\n" else ""))
            + (if level > 0 then "\r\n" else "")
  {
    SentLines(level, host, reload, proxied);
    hide FieldLines;
    hide FieldsSent;
  }

  lemma SentLines(level: Level, host: string, reload: bool, proxied: bool)
    ensures FieldLines(FieldsSent(level, host, reload, proxied))
         == (if level > 0 then "User-Agent: WebBench 1.5\r\n" else "")
            + (if level > 0 && !proxied then "Host: " + host + "\r\n" else "")
            + (if reload && proxied then "Pragma: no-cache\r\n" else "")
            + (if level > 1 then "Connection: close\r\n" else "")
  {
    var agent := if level > 0 then [Agent()] else [];
    var hosts := if level > 0 && !proxied then [Field("Host", host)] else [];
    var cache := if reload && proxied then [NoCache()] else [];
    var close := if level > 1 then [Close()] else [];
    SentIs(agent + hosts + cache + close, level, host, reload, proxied);
    KnownLines(host);
    OneLine(Agent());
    OneLine(Field("Host", host));
    OneLine(NoCache());
    OneLine(Close());
    assert FieldLines([]) == "";
    FieldLinesJoin(agent, hosts);
    FieldLinesJoin(agent + hosts, cache);
    FieldLinesJoin(agent + hosts + cache, close);
    HostLine(host);
    hide FieldLines;
    hide FieldLine;
    hide FieldsSent;
  }

  lemma HostLine(host: string)
    ensures FieldLine(Field("Host", host)) == "Host: " + host + "\r\n"
  {
    assert "Host" + ": " == "Host: ";
  }

  // What the server's parser makes of it.

  predicate NotBlank(c: char) { !IsBlank(c) }

  /** A path with its query, as the parser takes it apart. */
  ghost predicate PathForm(path: string, target: string, q: seq<Param>) {
    && path == target + QueryPart(q)
    && target != "" && target[0] == '/' && All(target, InTarget)
    && (forall i | 0 <= i < |q| :: ValidParam(q[i]))
  }

  function LineFor(verb: Verb, target: string, q: seq<Param>, level: Level): RequestLine {
    RequestLine("", VerbText(verb), ' ', "", target, q, ' ', "", "HTTP", if level == 1 then "1.0" else "1.1")
  }

  lemma LineForIsValid(verb: Verb, path: string, target: string, q: seq<Param>, level: Level)
    requires PathForm(path, target, q)
    ensures ValidLine(LineFor(verb, target, q, level))
  {
    assert "HTTP"[1..] == "TTP";
    assert All("TTP", InProtocolName);
    assert All("1.0", InVersionText) && All("1.1", InVersionText);
    assert All(VerbText(verb), IsUpper);
  }

  lemma RequestIsText(verb: Verb, path: string, target: string, q: seq<Param>, level: Level, fields: seq<Field>)
    requires level > 0 && PathForm(path, target, q)
    ensures RequestText(verb, path, level, fields)
         == Text(Message(LineFor(verb, target, q, level), Headers(fields), ""))
  {
    var l := LineFor(verb, target, q, level);
    var lines, end := FieldLines(fields), CRLF + "";
    FieldLinesAreText(fields, end);
    PlainLineIsText(l, lines + end);
    ProtocolParts(level);
    hide *;
    RegroupRequest(VerbText(verb), " ", target, QueryPart(q), " HTTP/", l.version, CRLF, lines);
  }

  lemma ProtocolParts(level: Level)
    requires level > 0
    ensures ProtocolPart(level) == " HTTP/" + (if level == 1 then "1.0" else "1.1")
  {
  }

  lemma RegroupRequest(a: string, b: string, c: string, d: string, e: string, v: string, f: string, g: string)
    ensures a + b + (c + d) + (e + v) + f + g + f == a + b + c + d + e + (v + f + (g + (f + "")))
  {
    Assoc(a + b, c, d);
    Assoc(a + b + c + d, e, v);
    var h := a + b + c + d + e;
    Regroup(h, v, f, g, f, "");
    Assoc(v, f, g + (f + ""));
  }

  lemma FieldsPrintable(level: Level, host: string, reload: bool)
    requires All(host, InHeaderValue)
    ensures AllPrintable(FieldsSent(level, host, reload, false))
  {
    OnePrintable("User-Agent", "WebBench 1.5");
    OnePrintable("Connection", "close");
    assert "Host"[1..] == "ost";
    assert Printable(Field("Host", host));
  }

  lemma OnePrintable(key: string, value: string)
    requires key in {"User-Agent", "Connection"} && value in {"WebBench 1.5", "close"}
    ensures Printable(Field(key, value))
  {
  }

  function MapSent(level: Level, host: string): map<string, string>
    requires level > 0
  {
    if level == 1 then map["User-Agent" := "WebBench 1.5"]["Host" := host]
    else map["User-Agent" := "WebBench 1.5"]["Host" := host]["Connection" := "close"]
  }

  lemma FieldsMap(level: Level, host: string, reload: bool)
    requires level > 0
    ensures FieldMap(FieldsSent(level, host, reload, false), map[]) == MapSent(level, host)
  {
    var fs := FieldsSent(level, host, reload, false);
    var a, b, c := Agent(), Field("Host", host), Close();
    var m1: map<string, string> := map[a.key := a.value];
    assert map[][a.key := a.value] == m1;
    if level == 1 {
      assert fs == [a, b] && fs[1..] == [b] && fs[1..][1..] == [];
      assert FieldMap(fs, map[]) == FieldMap(fs[1..], m1) == FieldMap([], m1[b.key := b.value]);
    } else {
      assert fs == [a, b, c] && fs[1..] == [b, c] && fs[1..][1..] == [c] && fs[1..][1..][1..] == [];
      assert FieldMap(fs, map[]) == FieldMap(fs[1..], m1) == FieldMap(fs[1..][1..], m1[b.key := b.value]);
    }
  }

  lemma NoLength(level: Level, host: string)
    requires level > 0
    ensures CONTENT_LENGTH !in MapSent(level, host)
  {
    assert |CONTENT_LENGTH| == 14 && |"User-Agent"| == 10 && |"Host"| == 4 && |"Connection"| == 10;
  }

  /** What becomes of the method: OPTIONS and TRACE are none of those the server knows. */
  function StoredVerb(verb: Verb): Method {
    match verb case Get => GET case Head => HEAD case Options => INVALID_METHOD case Trace => INVALID_METHOD
  }

  /** What is sent without a proxy, for a path with or without query: the parser accepts it and stores
      method, path, parameters, version and the headers, among them the host. OPTIONS and TRACE are
      accepted too, as an invalid method. */
  lemma SentIsAccepted(verb: Verb, path: string, target: string, q: seq<Param>, level: Level, host: string,
                       reload: bool)
    requires level > 0 && PathForm(path, target, q) && All(host, InHeaderValue)
    ensures var text := RequestText(verb, path, level, FieldsSent(level, host, reload, false));
            && Accepts(text) && !Breaks(text)
            && Final(text).request ==
               Request(StoredVerb(verb), if level == 1 then HTTP_1_0 else HTTP_1_1, target,
                       ParamMap(q, map[]), "HTTP", MapSent(level, host), "")
            && Final(text).request.headers["Host"] == host
  {
    hide Run;
    hide Text;
    hide Meaning;
    hide RequestText;
    hide FieldsSent;
    var fields := FieldsSent(level, host, reload, false);
    var m := Message(LineFor(verb, target, q, level), Headers(fields), "");
    LineForIsValid(verb, path, target, q, level);
    FieldsPrintable(level, host, reload);
    RequestIsText(verb, path, target, q, level, fields);
    GrammarIsAccepted(m);
    SentMeaning(verb, target, q, level, host, reload);
  }

  lemma VerbNames(verb: Verb)
    ensures verb == Get ==> VerbText(verb) == "GET"
    ensures verb == Head ==> VerbText(verb) == "HEAD"
    ensures verb == Options || verb == Trace ==> VerbText(verb) !in {"GET", "POST", "HEAD", "PUT", "DELETE"}
  {
    assert |"OPTIONS"| == 7 && |"TRACE"| == 5 && "TRACE"[0] == 'T';
  }

  lemma SentMeaning(verb: Verb, target: string, q: seq<Param>, level: Level, host: string, reload: bool)
    requires level > 0
    ensures Meaning(Message(LineFor(verb, target, q, level), Headers(FieldsSent(level, host, reload, false)), ""))
         == Request(StoredVerb(verb), if level == 1 then HTTP_1_0 else HTTP_1_1, target,
                    ParamMap(q, map[]), "HTTP", MapSent(level, host), "")
    ensures "Host" in MapSent(level, host) && MapSent(level, host)["Host"] == host
  {
    FieldMapIsHeaderMap(FieldsSent(level, host, reload, false), map[]);
    FieldsMap(level, host, reload);
    NoLength(level, host);
    Empty(VerbText(verb));
    NamesAre(VerbText(verb));
    VerbNames(verb);
    hide MethodOf;
    Empty(target);
    Empty("HTTP");
    assert "1.0" != "1.1";
  }

  lemma {:induction false} QueryPartNotBlank(q: seq<Param>)
    requires forall i | 0 <= i < |q| :: ValidParam(q[i])
    ensures All(QueryPart(q), NotBlank)
  {
    if q != [] {
      var k, v := q[0].key, q[0].value;
      assert All(k, NotBlank) by {
        assert forall i | 1 <= i < |k| :: k[i] == k[1..][i - 1];
      }
      assert All(v, NotBlank) by {
        assert forall i | 1 <= i < |v| :: v[i] == v[1..][i - 1];
      }
      if |q| > 1 {
        QueryPartNotBlank(q[1..]);
        assert QueryPart(q[1..])[1..] == ParamsPart(q[1..]);
      }
    }
  }

  /** For a path without blanks the parser accepts what is sent exactly when the request is not of
      level 0 and the path is a target with an optional well-formed query. */
  lemma SentAcceptedIff(verb: Verb, path: string, level: Level, host: string, reload: bool)
    requires path != "" && path[0] == '/' && All(path, NotBlank) && All(host, InHeaderValue)
    ensures Accepts(RequestText(verb, path, level, FieldsSent(level, host, reload, false))) <==>
            level > 0 && exists target, q :: PathForm(path, target, q)
  {
    var fields := FieldsSent(level, host, reload, false);
    var text := RequestText(verb, path, level, fields);
    hide Run;
    hide FieldsSent;
    if Accepts(text) {
      var m := AcceptedIsGrammar(text);
      var l := m.line;
      var x := HeadersText(m.headers, CRLF + m.rest);
      assert LineText(l, x) == text;
      var tail := ProtocolPart(level) + (CRLF + (FieldLines(fields) + (if level > 0 then CRLF else "")));
      TextFront(verb, path, level, fields);
      LinePath(l, x, VerbText(verb), path, tail);
      TailStops(level, fields, host, reload, path, l, x, tail);
    }
    if level > 0 {
      if target, q :| PathForm(path, target, q) {
        SentIsAccepted(verb, path, target, q, level, host, reload);
      }
    }
  }

  lemma TextFront(verb: Verb, path: string, level: Level, fields: seq<Field>)
    ensures RequestText(verb, path, level, fields)
         == VerbText(verb) + ([' '] + (path +
              (ProtocolPart(level) + (CRLF + (FieldLines(fields) + (if level > 0 then CRLF else ""))))))
  {
    var a, c, d, g := VerbText(verb), path, ProtocolPart(level), FieldLines(fields);
    var end := if level > 0 then CRLF else "";
    assert RequestText(verb, path, level, fields) == a + " " + c + d + CRLF + g + end;
    hide *;
    Regroup(a + " " + c, d, CRLF, g, end, "");
    Assoc(g, end, "");
    assert end + "" == end;
    Assoc(a + " " + c + d + CRLF + g, end, "");
    assert a + " " + c + d + CRLF + g + end + "" == a + " " + c + d + CRLF + g + end;
    Assoc(a, " ", c + (d + (CRLF + (g + end))));
    Assoc(a + " ", c, d + (CRLF + (g + end)));
  }

  /** The path in an accepted text is target and query. */
  lemma LinePath(l: RequestLine, x: string, verb: string, path: string, tail: string)
    requires ValidLine(l) && verb != "" && All(verb, IsUpper) && path != "" && path[0] == '/'
    requires LineText(l, x) == verb + ([' '] + (path + tail))
    ensures (l.target + QueryPart(l.query)) + ([l.gap2] + ProtocolText(l, x)) == path + tail
  {
    var y := [l.gap2] + ProtocolText(l, x);
    var t := l.target + QueryText(l.query, y);
    var u := [l.gap1] + (l.pad1 + t);
    var v := [' '] + (path + tail);
    Empty(verb + v);
    SplitUnique(IsLead, l.lead, l.capitals + u, "", verb + v);
    SplitUnique(IsUpper, l.capitals, u, verb, v);
    DropByte(l.gap1, l.pad1 + t, ' ', path + tail);
    Empty(path + tail);
    SplitUnique(IsBlank, l.pad1, t, "", path + tail);
    QueryPartIsText(l.query, y);
    Assoc(l.target, QueryPart(l.query), y);
  }

  lemma TailStops(level: Level, fields: seq<Field>, host: string, reload: bool, path: string,
                  l: RequestLine, x: string, tail: string)
    requires ValidLine(l) && All(path, NotBlank) && fields == FieldsSent(level, host, reload, false)
    requires tail == ProtocolPart(level) + (CRLF + (FieldLines(fields) + (if level > 0 then CRLF else "")))
    requires (l.target + QueryPart(l.query)) + ([l.gap2] + ProtocolText(l, x)) == path + tail
    ensures level > 0 && PathForm(path, l.target, l.query)
  {
    var whole := l.target + QueryPart(l.query);
    var y := [l.gap2] + ProtocolText(l, x);
    QueryPartNotBlank(l.query);
    assert All(whole, NotBlank);
    assert !NotBlank((path + tail)[|whole|]) by {
      assert (whole + y)[|whole|] == l.gap2;
    }
    assert level == 0 ==> tail == CRLF;
    assert level == 0 ==> All(path + tail, NotBlank);
    assert tail[0] == ' ';
    SplitUnique(NotBlank, whole, y, path, tail);
  }

  /** Agreement: for a usable URL whose path has neither blanks nor '?', the request is accepted with
      that path as URL, the version of the level, and the host of the URL as Host header. */
  lemma Agreement(url: string, verb: Verb, level: Level, reload: bool)
    requires Usable(url, false) && level > 0
    requires All(Path(url), InTarget) && All(HostOf(url), InHeaderValue)
    ensures var text := RequestText(verb, Path(url), level, FieldsSent(level, HostOf(url), reload, false));
            && Accepts(text) && !Breaks(text)
            && Final(text).request.url == Path(url)
            && Final(text).request.version == (if level == 1 then HTTP_1_0 else HTTP_1_1)
            && Final(text).request.params == map[]
            && "Host" in Final(text).request.headers && Final(text).request.headers["Host"] == HostOf(url)
  {
    assert Path(url) + "" == Path(url);
    assert PathForm(Path(url), Path(url), []);
    SentIsAccepted(verb, Path(url), Path(url), [], level, HostOf(url), reload);
  }

  /** The level asked for, and what the server stores: the method of GET and HEAD and none for OPTIONS and TRACE, and
      version 1.1 for these two whatever has been asked for. Only a GET of level 0 is not accepted. */
  lemma AskedIsStored(verb: Verb, path: string, target: string, q: seq<Param>, asked: Level, host: string, reload: bool)
    requires PathForm(path, target, q) && All(host, InHeaderValue) && (asked > 0 || verb != Get)
    ensures var level := EffectiveLevel(asked, verb, reload, false);
            var text := RequestText(verb, path, level, FieldsSent(level, host, reload, false));
            && Accepts(text) && !Breaks(text)
            && Final(text).request.url == target && Final(text).request.params == ParamMap(q, map[])
            && (verb == Get ==> Final(text).request.verb == GET)
            && (verb == Head ==> Final(text).request.verb == HEAD)
            && (verb == Options || verb == Trace ==> Final(text).request.verb == INVALID_METHOD)
            && (Final(text).request.version == HTTP_1_1 <==> verb == Options || verb == Trace || asked == 2)
            && (Final(text).request.version == HTTP_1_0 <==> (verb == Get || verb == Head) && asked != 2)
            && "Host" in Final(text).request.headers && Final(text).request.headers["Host"] == host
  {
    var level := EffectiveLevel(asked, verb, reload, false);
    hide Run;
    hide RequestText;
    hide FieldsSent;
    hide PathForm;
    hide ParamMap;
    hide MapSent;
    SentIsAccepted(verb, path, target, q, level, host, reload);
    HostSent(level, host);
  }

  lemma HostSent(level: Level, host: string)
    requires level > 0
    ensures "Host" in MapSent(level, host)
  {
  }
}
