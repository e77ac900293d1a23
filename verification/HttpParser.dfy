/** The parser accepts exactly the texts of the grammar and stores exactly what the parts of the
    text mean; it breaks on exactly the texts with a header line `key:` directly followed by CR. */
module HttpParser {
  import opened Bytes
  import opened HttpRequests
  import opened HttpMachine
  import opened HttpGrammar

  // Moving along the input.

  /** In state `s` the byte only advances `cur`. */
  predicate Stays(s: State, ch: char) {
    match s
    case Start => IsLead(ch)
    case InMethod => IsUpper(ch)
    case BeforeUrl => IsBlank(ch)
    case InUrl => InTarget(ch)
    case ParamKey => InKey(ch)
    case ParamValue => InValue(ch)
    case BeforeProtocol => IsBlank(ch)
    case InProtocol => InProtocolName(ch)
    case InVersion => InVersionText(ch)
    case HeaderKey => InHeaderKey(ch)
    case HeaderValue => InHeaderValue(ch)
    case _ => false
  }

  /** The state that reads the text after its first byte, and the first bytes it may have. */
  function Opened(s: State): State {
    match s
    case Start => InMethod
    case BeforeUrl => InUrl
    case BeforeParamKey => ParamKey
    case BeforeParamValue => ParamValue
    case BeforeProtocol => InProtocol
    case BeforeVersion => InVersion
    case CrLf => HeaderKey
    case _ => Invalid
  }

  predicate OpensOn(s: State, ch: char) {
    match s
    case Start => IsUpper(ch)
    case BeforeUrl => ch == '/'
    case BeforeParamKey => !IsLead(ch)
    case BeforeParamValue => !IsLead(ch)
    case BeforeProtocol => !IsBlank(ch)
    case BeforeVersion => IsDigit(ch)
    case CrLf => ch != CR && !IsBlank(ch)
    case _ => false
  }

  lemma OpensStep(input: string, c: Config)
    requires Ordered(input, c) && c.cur < |input| && Opened(c.state) != Invalid
    requires !Stays(c.state, input[c.cur]) && !(c.state == CrLf && input[c.cur] == CR)
    ensures !Halted(input, c) && !MalformedCut(input, c)
    ensures if OpensOn(c.state, input[c.cur]) then Step(input, c) == c.(state := Opened(c.state), cur := c.cur + 1)
            else Step(input, c).state == Invalid
  {
  }

  lemma StaysStep(input: string, c: Config)
    requires Ordered(input, c) && c.cur < |input| && Stays(c.state, input[c.cur])
    ensures !Halted(input, c) && !MalformedCut(input, c)
    ensures Step(input, c) == c.(cur := c.cur + 1)
    ensures Ordered(input, c.(cur := c.cur + 1)) && Run(input, c) == Run(input, c.(cur := c.cur + 1))
  {
  }

  /** `text` is skipped in one state. */
  lemma {:induction false} Skip(input: string, c: Config, text: string, tail: string)
    requires Ordered(input, c) && input[c.cur..] == text + tail
    requires forall i | 0 <= i < |text| :: Stays(c.state, text[i])
    ensures c.cur + |text| <= |input| && input[c.cur..c.cur + |text|] == text
    ensures input[c.cur + |text|..] == tail
    ensures Ordered(input, c.(cur := c.cur + |text|))
    ensures Run(input, c) == Run(input, c.(cur := c.cur + |text|))
    decreases |text|
  {
    hide Run;
    hide Step;
    Cut(input, c.cur, text, tail);
    if text != "" {
      StaysStep(input, c);
      Cut(input, c.cur, [text[0]], text[1..] + tail);
      Skip(input, c.(cur := c.cur + 1), text[1..], tail);
    }
  }

  /** The bytes ahead of position `p`. */
  lemma Cut(input: string, p: nat, a: string, b: string)
    requires p <= |input| && input[p..] == a + b
    ensures p + |a| <= |input| && input[p..p + |a|] == a && input[p + |a|..] == b
    ensures a != "" ==> input[p] == a[0] && input[p..] == [a[0]] + (a[1..] + b)
  {
    assert |input| - p == |a| + |b|;
    assert input[p..p + |a|] == input[p..][..|a|];
    assert input[p + |a|..] == input[p..][|a|..];
    assert a != "" ==> input[p] == input[p..][0];
  }

  /** `text` is skipped in one state and the byte `sep` after it ends the state. */
  lemma SkipTurn(input: string, c: Config, text: string, sep: char, tail: string) returns (b: Config, d: Config)
    requires Ordered(input, c) && input[c.cur..] == text + ([sep] + tail)
    requires forall i | 0 <= i < |text| :: Stays(c.state, text[i])
    requires c.state != Invalid && c.state != Complete
    requires c.state == HeaderValue && sep == CR ==> c.cur + |text| >= c.colon + 2
    ensures b == c.(cur := c.cur + |text|) && Ordered(input, b)
    ensures !Halted(input, b) && !MalformedCut(input, b) && input[b.cur] == sep
    ensures input[c.cur..b.cur] == text
    ensures input[c.start..b.cur] == input[c.start..c.cur] + text
    ensures d == Step(input, b) && d.cur == b.cur + 1 <= |input| && input[d.cur..] == tail
    ensures Ordered(input, d) && Run(input, c) == Run(input, d)
  {
    hide Run;
    hide Step;
    Skip(input, c, text, [sep] + tail);
    b := c.(cur := c.cur + |text|);
    Cut(input, b.cur, [sep], tail);
    Joined(input, c.start, c.cur, b.cur);
    TurnRun(input, b);
    d := Step(input, b);
  }

  lemma HaltedRun(input: string, c: Config)
    requires Ordered(input, c) && Halted(input, c)
    ensures Run(input, c) == c
  {
  }

  lemma TurnRun(input: string, c: Config)
    requires Ordered(input, c) && !Halted(input, c) && !MalformedCut(input, c)
    ensures Run(input, c) == Run(input, Step(input, c))
  {
  }

  /** The same, when the first byte of a text is read in one state and the others in the next. */
  lemma TurnSkipTurn(input: string, c: Config, text: string, sep: char, tail: string)
    returns (b: Config, d: Config)
    requires Ordered(input, c) && text != "" && input[c.cur..] == text + ([sep] + tail)
    requires OpensOn(c.state, text[0]) && (forall i | 1 <= i < |text| :: Stays(Opened(c.state), text[i]))
    ensures b == c.(state := Opened(c.state), cur := c.cur + |text|) && Ordered(input, b)
    ensures !Halted(input, b) && input[b.cur] == sep
    ensures input[c.cur..b.cur] == text
    ensures input[c.start..b.cur] == input[c.start..c.cur] + text
    ensures d == Step(input, b) && d.cur == b.cur + 1 <= |input| && input[d.cur..] == tail
    ensures Ordered(input, d) && Run(input, c) == Run(input, d)
  {
    hide Run;
    hide Step;
    Cut(input, c.cur, text, [sep] + tail);
    OpensStep(input, c);
    TurnRun(input, c);
    var a := c.(state := Opened(c.state), cur := c.cur + 1);
    Cut(input, c.cur, [text[0]], text[1..] + ([sep] + tail));
    b, d := SkipTurn(input, a, text[1..], sep, tail);
    Joined(input, c.start, c.cur, b.cur);
  }

  /** Two adjacent slices. */
  lemma Joined(input: string, i: nat, j: nat, k: nat)
    requires i <= j <= k <= |input|
    ensures input[i..k] == input[i..j] + input[j..k]
  {
  }

  /** The turns that end the parts of the request line and a header value. */
  lemma MethodTurn(input: string, b: Config)
    requires Ordered(input, b) && b.cur < |input| && b.state == InMethod && !Stays(b.state, input[b.cur])
    ensures !Halted(input, b) && !MalformedCut(input, b)
    ensures if IsBlank(input[b.cur]) then
              Step(input, b) == Config(BeforeUrl, b.cur + 1, b.colon, b.cur + 1,
                                       b.request.(verb := MethodOf(input[b.start..b.cur])))
            else Step(input, b).state == Invalid
  {
  }

  lemma TargetTurn(input: string, b: Config)
    requires Ordered(input, b) && b.cur < |input| && b.state == InUrl && !Stays(b.state, input[b.cur])
    ensures !Halted(input, b) && !MalformedCut(input, b) && (input[b.cur] == '?' || IsBlank(input[b.cur]))
    ensures Step(input, b) ==
            Config(if input[b.cur] == '?' then BeforeParamKey else BeforeProtocol, b.cur + 1, b.colon, b.cur + 1,
                   b.request.(url := input[b.start..b.cur]))
  {
  }

  lemma ProtocolTurn(input: string, b: Config)
    requires Ordered(input, b) && b.cur < |input| && b.state == InProtocol && !Stays(b.state, input[b.cur])
    ensures !Halted(input, b) && !MalformedCut(input, b) && input[b.cur] == '/'
    ensures Step(input, b) == Config(BeforeVersion, b.cur + 1, b.colon, b.cur + 1,
                                     b.request.(protocol := input[b.start..b.cur]))
  {
  }

  lemma VersionTurn(input: string, b: Config)
    requires Ordered(input, b) && b.cur < |input| && b.state == InVersion && !Stays(b.state, input[b.cur])
    ensures !Halted(input, b) && !MalformedCut(input, b)
    ensures if input[b.cur] == CR then
              Step(input, b) == Config(WhenCr, b.cur + 1, b.colon, b.cur + 1,
                                       b.request.(version := VersionOf(input[b.start..b.cur])))
            else Step(input, b).state == Invalid
  {
  }

  lemma ValueTurn(input: string, b: Config)
    requires Ordered(input, b) && b.cur < |input| && b.state == HeaderValue && input[b.cur] == CR
    requires b.colon + 2 <= b.cur
    ensures !Halted(input, b) && !MalformedCut(input, b)
    ensures Step(input, b) ==
            Config(WhenCr, b.cur + 1, b.colon, b.cur + 1,
                   b.request.(headers := b.request.headers[input[b.start..b.colon] := input[b.colon + 2..b.cur]]))
  {
  }

  // From text to run: the parser does what the grammar says.

  lemma RunMethod(input: string, l: RequestLine, tail: string) returns (d: Config)
    requires ValidLine(l) && input == l.lead + (l.capitals + ([l.gap1] + tail))
    ensures d == Config(BeforeUrl, d.cur, 0, d.cur, FRESH.(verb := MethodOf(l.lead + l.capitals)))
    ensures d.cur <= |input| && input[d.cur..] == tail
    ensures Ordered(input, INITIAL) && Run(input, INITIAL) == Run(input, d)
  {
    hide Run;
    assert input[0..] == input;
    Skip(input, INITIAL, l.lead, l.capitals + ([l.gap1] + tail));
    var c, b := INITIAL.(cur := |l.lead|), INITIAL;
    b, d := TurnSkipTurn(input, c, l.capitals, l.gap1, tail);
  }

  lemma RunTarget(input: string, c: Config, l: RequestLine, sep: char, tail: string) returns (d: Config)
    requires ValidLine(l) && c.state == BeforeUrl && c.start == c.cur <= |input|
    requires input[c.cur..] == l.pad1 + (l.target + ([sep] + tail))
    requires sep == '?' || IsBlank(sep)
    ensures d == Config(if sep == '?' then BeforeParamKey else BeforeProtocol, d.cur, c.colon, d.cur,
                        c.request.(url := l.pad1 + l.target))
    ensures d.cur <= |input| && input[d.cur..] == tail
    ensures Run(input, c) == Run(input, d)
  {
    hide Run;
    Skip(input, c, l.pad1, l.target + ([sep] + tail));
    var a, b := c.(cur := c.cur + |l.pad1|), c;
    b, d := TurnSkipTurn(input, a, l.target, sep, tail);
  }

  lemma RunParamKey(input: string, c: Config, p: Param, tail: string) returns (d: Config)
    requires ValidParam(p) && c.state == BeforeParamKey && c.start == c.cur <= |input|
    requires input[c.cur..] == p.key + ("=" + tail)
    ensures d == Config(BeforeParamValue, c.start, c.start + |p.key|, c.start + |p.key| + 1, c.request)
    ensures d.cur <= |input| && input[d.cur..] == tail && input[d.start..d.colon] == p.key
    ensures Ordered(input, d) && Run(input, c) == Run(input, d)
  {
    hide Run;
    var b;
    b, d := TurnSkipTurn(input, c, p.key, '=', tail);
  }

  lemma RunParamValue(input: string, c: Config, p: Param, sep: char, tail: string) returns (d: Config)
    requires ValidParam(p) && c.state == BeforeParamValue && Ordered(input, c) && c.cur == c.colon + 1
    requires input[c.start..c.colon] == p.key
    requires input[c.cur..] == p.value + ([sep] + tail)
    requires sep == '&' || IsBlank(sep)
    ensures d == Config(if sep == '&' then BeforeParamKey else BeforeProtocol, d.cur, c.colon, d.cur,
                        c.request.(params := c.request.params[p.key := p.value]))
    ensures d.cur <= |input| && input[d.cur..] == tail
    ensures Run(input, c) == Run(input, d)
  {
    hide Run;
    var b;
    b, d := TurnSkipTurn(input, c, p.value, sep, tail);
  }

  lemma {:induction false} RunParams(input: string, c: Config, q: seq<Param>, tail: string) returns (d: Config)
    requires q != [] && (forall i | 0 <= i < |q| :: ValidParam(q[i]))
    requires c.state == BeforeParamKey && c.start == c.cur <= |input|
    requires tail != "" && IsBlank(tail[0]) && input[c.cur..] == ParamsText(q, tail)
    ensures d.state == BeforeProtocol && d.start == d.cur <= |input| && input[d.cur..] == tail[1..]
    ensures d.request == c.request.(params := ParamMap(q, c.request.params))
    ensures Run(input, c) == Run(input, d)
    decreases |q|
  {
    hide Run;
    hide Step;
    var more := if |q| == 1 then tail else "&" + ParamsText(q[1..], tail);
    assert more == [more[0]] + more[1..];
    d := RunParamKey(input, c, q[0], q[0].value + more);
    d := RunParamValue(input, d, q[0], more[0], more[1..]);
    if |q| > 1 {
      d := RunParams(input, d, q[1..], tail);
    } else {
      assert q[1..] == [];
    }
  }

  lemma RunQuery(input: string, c: Config, l: RequestLine, tail: string) returns (d: Config)
    requires ValidLine(l) && c.state == BeforeUrl && c.start == c.cur <= |input|
    requires input[c.cur..] == l.pad1 + (l.target + QueryText(l.query, [l.gap2] + tail))
    ensures d.state == BeforeProtocol && d.start == d.cur <= |input| && input[d.cur..] == tail
    ensures d.request == c.request.(url := l.pad1 + l.target, params := ParamMap(l.query, c.request.params))
    ensures Run(input, c) == Run(input, d)
  {
    hide Run;
    hide Step;
    if l.query == [] {
      d := RunTarget(input, c, l, l.gap2, tail);
    } else {
      d := RunTarget(input, c, l, '?', ParamsText(l.query, [l.gap2] + tail));
      d := RunParams(input, d, l.query, [l.gap2] + tail);
    }
  }

  lemma RunProtocolName(input: string, c: Config, l: RequestLine, tail: string) returns (d: Config)
    requires ValidLine(l) && c.state == BeforeProtocol && c.start == c.cur <= |input|
    requires input[c.cur..] == l.pad2 + (l.protocol + ("/" + tail))
    ensures d == Config(BeforeVersion, d.cur, c.colon, d.cur,
                        c.request.(protocol := l.pad2 + l.protocol))
    ensures d.cur <= |input| && input[d.cur..] == tail
    ensures Run(input, c) == Run(input, d)
  {
    hide Run;
    Skip(input, c, l.pad2, l.protocol + ("/" + tail));
    var a, b := c.(cur := c.cur + |l.pad2|), c;
    b, d := TurnSkipTurn(input, a, l.protocol, '/', tail);
  }

  lemma RunLf(input: string, c: Config, tail: string) returns (d: Config)
    requires c.state == WhenCr && Ordered(input, c) && input[c.cur..] == [LF] + tail
    ensures d == Config(CrLf, c.cur + 1, c.colon, c.cur + 1, c.request)
    ensures d.cur <= |input| && input[d.cur..] == tail
    ensures Run(input, c) == Run(input, d)
  {
    hide Run;
    var b;
    assert [LF] + tail == "" + ([LF] + tail);
    b, d := SkipTurn(input, c, "", LF, tail);
  }

  lemma RunVersionText(input: string, c: Config, l: RequestLine, tail: string) returns (d: Config)
    requires ValidLine(l) && c.state == BeforeVersion && c.start == c.cur <= |input|
    requires input[c.cur..] == l.version + ([CR] + tail)
    ensures d == Config(WhenCr, d.cur, c.colon, d.cur, c.request.(version := VersionOf(l.version)))
    ensures d.cur <= |input| && input[d.cur..] == tail && Ordered(input, d)
    ensures Run(input, c) == Run(input, d)
  {
    hide Run;
    var b;
    b, d := TurnSkipTurn(input, c, l.version, CR, tail);
  }

  lemma RunVersion(input: string, c: Config, l: RequestLine, tail: string) returns (d: Config)
    requires ValidLine(l) && c.state == BeforeVersion && c.start == c.cur <= |input|
    requires input[c.cur..] == l.version + (CRLF + tail)
    ensures d.state == CrLf && d.start == d.cur <= |input| && input[d.cur..] == tail
    ensures d.request == c.request.(version := VersionOf(l.version))
    ensures Run(input, c) == Run(input, d)
  {
    hide Run;
    assert CRLF + tail == [CR] + ([LF] + tail);
    d := RunVersionText(input, c, l, [LF] + tail);
    d := RunLf(input, d, tail);
  }

  lemma RunLine(input: string, l: RequestLine, tail: string) returns (d: Config)
    requires ValidLine(l) && input == LineText(l, tail)
    ensures d.state == CrLf && d.start == d.cur <= |input| && input[d.cur..] == tail
    ensures d.request == LineRequest(l)
    ensures Ordered(input, INITIAL) && Run(input, INITIAL) == Run(input, d)
  {
    hide Run;
    hide Step;
    var after := [l.gap2] + ProtocolText(l, tail);
    d := RunMethod(input, l, l.pad1 + (l.target + QueryText(l.query, after)));
    d := RunQuery(input, d, l, ProtocolText(l, tail));
    d := RunProtocolName(input, d, l, l.version + (CRLF + tail));
    d := RunVersion(input, d, l, tail);
  }

  /** A header key and its colon. */
  lemma RunHeaderKey(input: string, c: Config, key: string, tail: string) returns (d: Config)
    requires ValidHeaderKey(key) && c.state == CrLf && c.start == c.cur <= |input|
    requires input[c.cur..] == key + (":" + tail)
    ensures d == Config(HeaderValue, c.start, c.cur + |key|, c.cur + |key| + 1, c.request)
    ensures d.cur <= |input| && input[d.cur..] == tail && input[d.start..d.colon] == key
    ensures Ordered(input, d) && Run(input, c) == Run(input, d)
  {
    hide Run;
    var b;
    b, d := TurnSkipTurn(input, c, key, ':', tail);
  }

  lemma RunValueText(input: string, c: Config, h: Header, tail: string) returns (d: Config)
    requires ValidHeader(h) && c.state == HeaderValue && Ordered(input, c) && c.cur == c.colon + 1
    requires input[c.start..c.colon] == h.key
    requires input[c.cur..] == [h.dropped] + (h.value + ([CR] + tail))
    ensures d == Config(WhenCr, d.cur, c.colon, d.cur,
                        c.request.(headers := c.request.headers[h.key := h.value]))
    ensures d.cur <= |input| && input[d.cur..] == tail
    ensures Run(input, c) == Run(input, d)
  {
    hide Run;
    hide Step;
    Skip(input, c, [h.dropped], h.value + ([CR] + tail));
    var b;
    b, d := SkipTurn(input, c.(cur := c.cur + 1), h.value, CR, tail);
    ValueTurn(input, b);
  }

  lemma RunHeaderValue(input: string, c: Config, h: Header, tail: string) returns (d: Config)
    requires ValidHeader(h) && c.state == HeaderValue && Ordered(input, c) && c.cur == c.colon + 1
    requires input[c.start..c.colon] == h.key
    requires input[c.cur..] == [h.dropped] + (h.value + (CRLF + tail))
    ensures d.state == CrLf && d.start == d.cur <= |input| && input[d.cur..] == tail
    ensures d.request == c.request.(headers := c.request.headers[h.key := h.value])
    ensures Run(input, c) == Run(input, d)
  {
    hide Run;
    assert CRLF + tail == [CR] + ([LF] + tail);
    d := RunValueText(input, c, h, [LF] + tail);
    d := RunLf(input, d, tail);
  }

  lemma {:induction false} RunHeaders(input: string, c: Config, hs: seq<Header>, tail: string) returns (d: Config)
    requires ValidHeaders(hs) && c.state == CrLf && c.start == c.cur <= |input|
    requires input[c.cur..] == HeadersText(hs, tail)
    ensures d.state == CrLf && d.start == d.cur <= |input| && input[d.cur..] == tail
    ensures d.request == c.request.(headers := HeaderMap(hs, c.request.headers))
    ensures Run(input, c) == Run(input, d)
    decreases |hs|
  {
    hide Run;
    hide Step;
    if hs == [] {
      d := c;
    } else {
      var more := HeadersText(hs[1..], tail);
      d := RunHeaderKey(input, c, hs[0].key, [hs[0].dropped] + (hs[0].value + (CRLF + more)));
      d := RunHeaderValue(input, d, hs[0], more);
      d := RunHeaders(input, d, hs[1..], tail);
    }
  }

  /** BODY with too few bytes: every turn stores a shorter prefix, the last one a single byte. */
  lemma {:induction false} RunShortBody(input: string, c: Config)
    requires c.state == Body && c.start <= c.cur < |input|
    requires !EnoughBody(c.request.headers, |input| - c.cur)
    ensures var e := Run(input, c);
            e.state == Body && e.request == c.request.(body := input[c.start..][..1])
    decreases |input| - c.cur
  {
    hide Run;
    TurnRun(input, c);
    var d := Step(input, c);
    if d.cur < |input| {
      RunShortBody(input, d);
    } else {
      HaltedRun(input, d);
      assert input[c.start..c.start + 1] == input[c.start..][..1];
    }
  }

  lemma RunBlankLine(input: string, c: Config, rest: string) returns (d: Config)
    requires c.state == CrLf && c.start == c.cur <= |input|
    requires input[c.cur..] == CRLF + rest
    ensures d == Config(AfterBlankLine(c.request.headers), d.cur, c.colon, d.cur, c.request)
    ensures d.cur <= |input| && input[d.cur..] == rest
    ensures Run(input, c) == Run(input, d)
  {
    hide Run;
    var b;
    assert CRLF + rest == "" + ([CR] + ([LF] + rest)) == [CR] + ("" + ([LF] + rest));
    b, d := SkipTurn(input, c, "", CR, [LF] + rest);
    b, d := SkipTurn(input, d, "", LF, rest);
  }

  /** Everything after the blank line. */
  lemma RunBody(input: string, c: Config, rest: string)
    requires c.state == AfterBlankLine(c.request.headers) && c.start == c.cur <= |input|
    requires input[c.cur..] == rest && c.request.body == ""
    ensures var e := Run(input, c);
            && Halted(input, e) && Accepting(e.state)
            && (e.state, e.request.body) == BodyOutcome(c.request.headers, rest)
            && e.request == c.request.(body := e.request.body)
  {
    hide Run;
    assert |rest| == |input| - c.cur;
    if c.state == Complete || rest == "" {
      HaltedRun(input, c);
    } else if EnoughBody(c.request.headers, |rest|) {
      WholeBody(input, c);
      TurnRun(input, c);
      hide Step;
      HaltedRun(input, Step(input, c));
    } else {
      RunShortBody(input, c);
    }
  }

  lemma WholeBody(input: string, c: Config)
    requires c.state == Body && c.start == c.cur < |input| && EnoughBody(c.request.headers, |input| - c.cur)
    ensures Step(input, c) == c.(state := State.Complete, cur := c.cur + 1,
                                request := c.request.(body := input[c.cur..]))
  {
  }

  lemma RunRest(input: string, c: Config, rest: string)
    requires c.state == CrLf && c.start == c.cur <= |input| && c.request.body == ""
    requires input[c.cur..] == CRLF + rest
    ensures var e := Run(input, c);
            && Halted(input, e) && Accepting(e.state)
            && (e.state, e.request.body) == BodyOutcome(c.request.headers, rest)
            && e.request == c.request.(body := e.request.body)
  {
    hide Run;
    hide Step;
    var d := RunBlankLine(input, c, rest);
    RunBody(input, d, rest);
  }

  /** Completeness: every text of the grammar is accepted and stored as it is meant. */
  lemma GrammarIsAccepted(m: Message)
    requires Valid(m)
    ensures Accepts(Text(m)) && !Breaks(Text(m))
    ensures Final(Text(m)).request == Meaning(m) && Final(Text(m)).state == EndState(m)
  {
    hide Run;
    hide Step;
    var input := Text(m);
    var c := RunLine(input, m.line, HeadersText(m.headers, CRLF + m.rest));
    var d := RunHeaders(input, c, m.headers, CRLF + m.rest);
    RunRest(input, d, m.rest);
  }

  // From run to text: what the parser accepts, the grammar generates.

  /** The run from `c` ends in acceptance or in the malformed cut. */
  predicate Alive(input: string, c: Config)
    requires Ordered(input, c)
  {
    var e := Run(input, c);
    Accepting(e.state) || !Halted(input, e)
  }

  /** The longest text that is skipped in one state, and the byte that ends it. */
  lemma {:induction false} Scan(input: string, c: Config) returns (text: string, d: Config)
    requires Ordered(input, c) && Alive(input, c) && !Accepting(c.state) && c.state != Invalid
    ensures d == c.(cur := c.cur + |text|) && d.cur < |input| && Ordered(input, d)
    ensures forall i | 0 <= i < |text| :: Stays(c.state, text[i])
    ensures text == input[c.cur..d.cur]
    ensures !Stays(c.state, input[d.cur])
    ensures Alive(input, d) && Run(input, c) == Run(input, d)
    decreases |input| - c.cur
  {
    NotAtEnd(input, c);
    hide Alive;
    hide Step;
    if Stays(c.state, input[c.cur]) {
      StaysStep(input, c);
      var a := c.(cur := c.cur + 1);
      StaysAlive(input, c, a);
      hide Run;
      hide Stays;
      var more;
      more, d := Scan(input, a);
      text := [input[c.cur]] + more;
    } else {
      text, d := "", c;
    }
  }

  lemma StaysAlive(input: string, c: Config, d: Config)
    requires Ordered(input, c) && Ordered(input, d) && Alive(input, c) && Run(input, c) == Run(input, d)
    ensures Alive(input, d)
  {
  }

  /** One turn from an alive configuration. */
  lemma Advance(input: string, c: Config) returns (sep: char, d: Config)
    requires Ordered(input, c) && Alive(input, c) && !Accepting(c.state) && c.state != Invalid
    requires c.state != HeaderValue
    ensures c.cur < |input| && !Halted(input, c) && sep == input[c.cur]
    ensures d == Step(input, c) && d.state != Invalid && d.cur == c.cur + 1
    ensures input[c.cur..] == [sep] + input[d.cur..]
    ensures Ordered(input, d) && Alive(input, d) && Run(input, c) == Run(input, d)
  {
    assert c.cur < |input|;
    sep, d := input[c.cur], Step(input, c);
    assert Run(input, c) == Run(input, d);
  }

  /** A stretch whose first byte is read in the state of `c` and the others in the state it opens. */
  lemma ScanSlice(input: string, c: Config) returns (b: Config)
    requires Ordered(input, c) && Alive(input, c) && Opened(c.state) != Invalid
    requires c.cur < |input| ==> !Stays(c.state, input[c.cur]) && !(c.state == CrLf && input[c.cur] == CR)
    ensures c.cur < b.cur < |input| && b == c.(state := Opened(c.state), cur := b.cur) && Ordered(input, b)
    ensures OpensOn(c.state, input[c.cur]) && !Stays(b.state, input[b.cur])
    ensures forall i | c.cur < i < b.cur :: Stays(b.state, input[i])
    ensures Alive(input, b) && Run(input, c) == Run(input, b)
  {
    hide Run;
    hide Step;
    hide Alive;
    var first, a := Advance(input, c);
    OpensStep(input, c);
    var more;
    more, b := Scan(input, a);
    assert forall i | a.cur <= i < b.cur :: input[i] == more[i - a.cur];
  }

  /** A text whose first byte is read in the state of `c` and the others in the state it opens, the byte that ends it,
      and the turn on that byte. */
  lemma ScanText(input: string, c: Config) returns (text: string, sep: char, b: Config, d: Config)
    requires Ordered(input, c) && Alive(input, c) && Opened(c.state) != Invalid
    requires c.cur < |input| ==> !Stays(c.state, input[c.cur]) && !(c.state == CrLf && input[c.cur] == CR)
    ensures text != "" && OpensOn(c.state, text[0])
    ensures forall i | 1 <= i < |text| :: Stays(Opened(c.state), text[i])
    ensures b == c.(state := Opened(c.state), cur := c.cur + |text|) && b.cur < |input| && Ordered(input, b)
    ensures sep == input[b.cur] && !Stays(b.state, sep)
    ensures input[c.start..b.cur] == input[c.start..c.cur] + text && input[c.cur..b.cur] == text
    ensures !Halted(input, b) && d == Step(input, b) && d.state != Invalid && d.cur == b.cur + 1
    ensures input[c.cur..] == text + ([sep] + input[d.cur..])
    ensures Ordered(input, d) && Alive(input, d) && Run(input, c) == Run(input, d)
  {
    b := ScanSlice(input, c);
    assert !Accepting(b.state) && b.state != Invalid && b.state != HeaderValue;
    text := input[c.cur..b.cur];
    Around(input, c.start, c.cur, b.cur);
    hide Run;
    hide Step;
    hide Alive;
    hide Opened;
    hide OpensOn;
    hide Stays;
    sep, d := Advance(input, b);
  }

  /** The bytes before, in and behind a slice. */
  lemma Around(input: string, i: nat, j: nat, k: nat)
    requires i <= j <= k < |input|
    ensures input[i..k] == input[i..j] + input[j..k]
    ensures input[j..] == input[j..k] + ([input[k]] + input[k + 1..])
  {
  }

  /** The bytes from a position on, cut at a later one. */
  lemma CutAt(input: string, i: nat, j: nat)
    requires i <= j <= |input|
    ensures input[i..] == input[i..j] + input[j..]
  {
  }

  lemma MethodBytes(lead: string, capitals: string)
    requires forall i | 0 <= i < |lead| :: Stays(Start, lead[i])
    requires capitals != "" && OpensOn(Start, capitals[0])
    requires forall i | 1 <= i < |capitals| :: Stays(InMethod, capitals[i])
    ensures All(lead, IsLead) && All(capitals, IsUpper)
  {
  }

  lemma ReadMethod(input: string) returns (lead: string, capitals: string, gap: char, d: Config)
    requires Alive(input, INITIAL)
    ensures All(lead, IsLead) && capitals != "" && All(capitals, IsUpper) && IsBlank(gap)
    ensures d == Config(BeforeUrl, d.cur, 0, d.cur, FRESH.(verb := MethodOf(lead + capitals)))
    ensures d.cur <= |input| && input == lead + (capitals + ([gap] + input[d.cur..]))
    ensures Alive(input, d) && Run(input, INITIAL) == Run(input, d)
  {
    hide Run;
    hide Alive;
    hide Step;
    var a, b;
    lead, a := Scan(input, INITIAL);
    capitals, gap, b, d := ScanText(input, a);
    MethodTurn(input, b);
    MethodBytes(lead, capitals);
    CutAt(input, 0, a.cur);
    assert input[0..] == input;
    hide MethodOf;
    hide All;
    hide Stays;
    hide OpensOn;
  }

  lemma TargetBytes(pad: string, target: string)
    requires forall i | 0 <= i < |pad| :: Stays(BeforeUrl, pad[i])
    requires target != "" && OpensOn(BeforeUrl, target[0])
    requires forall i | 1 <= i < |target| :: Stays(InUrl, target[i])
    ensures All(pad, IsBlank) && target[0] == '/' && All(target, InTarget)
  {
  }

  lemma ReadTarget(input: string, c: Config) returns (pad: string, target: string, sep: char, d: Config)
    requires c.state == BeforeUrl && c.start == c.cur <= |input| && Alive(input, c)
    ensures All(pad, IsBlank) && target != "" && target[0] == '/' && All(target, InTarget)
    ensures sep == '?' || IsBlank(sep)
    ensures d == Config(if sep == '?' then BeforeParamKey else BeforeProtocol, d.cur, c.colon, d.cur,
                        c.request.(url := pad + target))
    ensures d.cur <= |input| && input[c.cur..] == pad + (target + ([sep] + input[d.cur..]))
    ensures Alive(input, d) && Run(input, c) == Run(input, d)
  {
    hide Run;
    hide Alive;
    hide Step;
    var a, b;
    pad, a := Scan(input, c);
    target, sep, b, d := ScanText(input, a);
    TargetTurn(input, b);
    TargetBytes(pad, target);
    CutAt(input, c.cur, a.cur);
    hide All;
    hide Stays;
    hide OpensOn;
  }

  lemma ReadParamKey(input: string, c: Config) returns (key: string, d: Config)
    requires c.state == BeforeParamKey && c.start == c.cur <= |input| && Alive(input, c)
    ensures key != "" && !IsLead(key[0]) && All(key[1..], InKey)
    ensures d == Config(BeforeParamValue, c.start, c.start + |key|, c.start + |key| + 1, c.request)
    ensures Ordered(input, d) && input[d.start..d.colon] == key
    ensures input[c.cur..] == key + ("=" + input[d.cur..])
    ensures Alive(input, d) && Run(input, c) == Run(input, d)
  {
    hide Run;
    hide Alive;
    var sep, b;
    key, sep, b, d := ScanText(input, c);
  }

  lemma ReadParamValue(input: string, c: Config) returns (value: string, sep: char, d: Config)
    requires c.state == BeforeParamValue && Ordered(input, c) && c.cur == c.colon + 1 && Alive(input, c)
    ensures value != "" && !IsLead(value[0]) && All(value[1..], InValue)
    ensures sep == '&' || IsBlank(sep)
    ensures d == Config(if sep == '&' then BeforeParamKey else BeforeProtocol, d.cur, c.colon, d.cur,
                        c.request.(params := c.request.params[input[c.start..c.colon] := value]))
    ensures d.cur <= |input| && input[c.cur..] == value + ([sep] + input[d.cur..])
    ensures Alive(input, d) && Run(input, c) == Run(input, d)
  {
    hide Run;
    hide Alive;
    var b;
    value, sep, b, d := ScanText(input, c);
  }

  lemma {:induction false} ReadParams(input: string, c: Config) returns (q: seq<Param>, gap: char, d: Config)
    requires c.state == BeforeParamKey && c.start == c.cur <= |input| && Alive(input, c)
    ensures q != [] && (forall i | 0 <= i < |q| :: ValidParam(q[i])) && IsBlank(gap)
    ensures d.state == BeforeProtocol && c.cur < d.cur && d.start == d.cur <= |input|
    ensures input[c.cur..] == ParamsText(q, [gap] + input[d.cur..])
    ensures d.request == c.request.(params := ParamMap(q, c.request.params))
    ensures Alive(input, d) && Run(input, c) == Run(input, d)
    decreases |input| - c.cur
  {
    hide Run;
    hide Alive;
    hide Step;
    var key, b := ReadParamKey(input, c);
    var value;
    value, gap, d := ReadParamValue(input, b);
    var p := Param(key, value);
    if gap == '&' {
      var more;
      b := d;
      more, gap, d := ReadParams(input, b);
      q := [p] + more;
      assert q[1..] == more;
      assert "&" + ParamsText(more, [gap] + input[d.cur..]) == ['&'] + input[b.cur..];
    } else {
      q := [p];
      assert q[1..] == [];
    }
  }

  lemma ReadQuery(input: string, c: Config)
    returns (pad: string, target: string, q: seq<Param>, gap: char, d: Config)
    requires c.state == BeforeUrl && c.start == c.cur <= |input| && Alive(input, c)
    ensures All(pad, IsBlank) && target != "" && target[0] == '/' && All(target, InTarget)
    ensures (forall i | 0 <= i < |q| :: ValidParam(q[i])) && IsBlank(gap)
    ensures d.state == BeforeProtocol && d.start == d.cur <= |input|
    ensures input[c.cur..] == pad + (target + QueryText(q, [gap] + input[d.cur..]))
    ensures d.request == c.request.(url := pad + target, params := ParamMap(q, c.request.params))
    ensures Alive(input, d) && Run(input, c) == Run(input, d)
  {
    hide Run;
    hide Alive;
    hide Step;
    pad, target, gap, d := ReadTarget(input, c);
    if gap == '?' {
      var b := d;
      q, gap, d := ReadParams(input, b);
      assert QueryText(q, [gap] + input[d.cur..]) == ['?'] + input[b.cur..];
    } else {
      q := [];
    }
  }

  lemma ReadProtocolName(input: string, c: Config) returns (pad: string, name: string, d: Config)
    requires c.state == BeforeProtocol && c.start == c.cur <= |input| && Alive(input, c)
    ensures All(pad, IsBlank) && name != "" && !IsBlank(name[0]) && All(name[1..], InProtocolName)
    ensures d == Config(BeforeVersion, d.cur, c.colon, d.cur, c.request.(protocol := pad + name))
    ensures d.cur <= |input| && input[c.cur..] == pad + (name + ("/" + input[d.cur..]))
    ensures Alive(input, d) && Run(input, c) == Run(input, d)
  {
    hide Run;
    hide Alive;
    var sep, a, b;
    pad, a := Scan(input, c);
    name, sep, b, d := ScanText(input, a);
    ProtocolTurn(input, b);
    hide Step;
    CutAt(input, c.cur, a.cur);
  }

  lemma NotAtEnd(input: string, c: Config)
    requires Ordered(input, c) && Alive(input, c) && !Accepting(c.state)
    ensures c.cur < |input|
  {
  }

  lemma ReadLf(input: string, c: Config) returns (d: Config)
    requires c.state == WhenCr && Ordered(input, c) && Alive(input, c)
    ensures d == Config(CrLf, c.cur + 1, c.colon, c.cur + 1, c.request)
    ensures d.cur <= |input| && input[c.cur..] == [LF] + input[d.cur..]
    ensures Alive(input, d) && Run(input, c) == Run(input, d)
  {
    hide Run;
    hide Alive;
    var lf;
    lf, d := Advance(input, c);
  }

  lemma VersionBytes(version: string)
    requires version != "" && OpensOn(BeforeVersion, version[0])
    requires forall i | 1 <= i < |version| :: Stays(InVersion, version[i])
    ensures IsDigit(version[0]) && All(version, InVersionText)
  {
  }

  lemma ReadVersionText(input: string, c: Config) returns (version: string, d: Config)
    requires c.state == BeforeVersion && c.start == c.cur <= |input| && Alive(input, c)
    ensures version != "" && IsDigit(version[0]) && All(version, InVersionText)
    ensures d == Config(WhenCr, d.cur, c.colon, d.cur, c.request.(version := VersionOf(version)))
    ensures c.cur < d.cur <= |input| && input[c.cur..] == version + ([CR] + input[d.cur..])
    ensures Alive(input, d) && Run(input, c) == Run(input, d)
  {
    hide Run;
    hide Alive;
    hide Step;
    var sep, b;
    version, sep, b, d := ScanText(input, c);
    VersionTurn(input, b);
    VersionBytes(version);
    hide VersionOf;
    hide All;
    hide Stays;
    hide OpensOn;
    assert input[c.start..c.cur] + version == version;
  }

  lemma ReadVersion(input: string, c: Config) returns (version: string, d: Config)
    requires c.state == BeforeVersion && c.start == c.cur <= |input| && Alive(input, c)
    ensures version != "" && IsDigit(version[0]) && All(version, InVersionText)
    ensures d.state == CrLf && c.cur < d.cur && d.start == d.cur <= |input|
    ensures input[c.cur..] == version + (CRLF + input[d.cur..])
    ensures d.request == c.request.(version := VersionOf(version))
    ensures Alive(input, d) && Run(input, c) == Run(input, d)
  {
    hide Run;
    hide Alive;
    hide Step;
    var b;
    version, b := ReadVersionText(input, c);
    d := ReadLf(input, b);
    assert [CR] + ([LF] + input[d.cur..]) == CRLF + input[d.cur..];
  }

  lemma ReadLine(input: string) returns (l: RequestLine, d: Config)
    requires Alive(input, INITIAL)
    ensures ValidLine(l) && d.state == CrLf && d.start == d.cur <= |input|
    ensures input == LineText(l, input[d.cur..]) && d.request == LineRequest(l)
    ensures Alive(input, d) && Run(input, INITIAL) == Run(input, d)
  {
    hide Run;
    hide Alive;
    hide Step;
    var lead, capitals, gap1, c1 := ReadMethod(input);
    var pad1, target, query, gap2, c2 := ReadQuery(input, c1);
    var pad2, protocol, c3 := ReadProtocolName(input, c2);
    var version;
    version, d := ReadVersion(input, c3);
    l := RequestLine(lead, capitals, gap1, pad1, target, query, gap2, pad2, protocol, version);
  }

  lemma ReadHeaderKey(input: string, c: Config) returns (key: string, d: Config)
    requires c.state == CrLf && c.start == c.cur < |input| && input[c.cur] != CR && Alive(input, c)
    ensures ValidHeaderKey(key)
    ensures d == Config(HeaderValue, c.start, c.start + |key|, c.start + |key| + 1, c.request)
    ensures Ordered(input, d) && input[d.start..d.colon] == key
    ensures input[c.cur..] == key + (":" + input[d.cur..])
    ensures Alive(input, d) && Run(input, c) == Run(input, d)
  {
    hide Run;
    hide Alive;
    var sep, b;
    key, sep, b, d := ScanText(input, c);
  }

  lemma ReadHeaderValue(input: string, c: Config) returns (dropped: char, value: string, d: Config)
    requires c.state == HeaderValue && Ordered(input, c) && c.cur == c.colon + 1 && Alive(input, c)
    requires c.cur < |input| && input[c.cur] != CR
    ensures dropped != CR && All(value, InHeaderValue)
    ensures d.state == CrLf && c.cur < d.cur && d.start == d.cur <= |input|
    ensures input[c.cur..] == [dropped] + (value + (CRLF + input[d.cur..]))
    ensures d.request == c.request.(headers := c.request.headers[input[c.start..c.colon] := value])
    ensures Alive(input, d) && Run(input, c) == Run(input, d)
  {
    hide Run;
    hide Alive;
    hide Step;
    var b, e;
    dropped, b := ReadDropped(input, c);
    value, e := ReadValueText(input, b);
    d := ReadLf(input, e);
    assert [CR] + input[e.cur..] == CRLF + input[d.cur..];
  }

  lemma ReadDropped(input: string, c: Config) returns (dropped: char, d: Config)
    requires c.state == HeaderValue && Ordered(input, c) && Alive(input, c)
    requires c.cur < |input| && input[c.cur] != CR
    ensures d == c.(cur := c.cur + 1) && dropped == input[c.cur]
    ensures Ordered(input, d) && input[c.cur..] == [dropped] + input[d.cur..]
    ensures Alive(input, d) && Run(input, c) == Run(input, d)
  {
    StaysStep(input, c);
    dropped, d := input[c.cur], c.(cur := c.cur + 1);
  }

  lemma ScanValue(input: string, c: Config) returns (a: Config)
    requires c.state == HeaderValue && Ordered(input, c) && c.cur == c.colon + 2 && Alive(input, c)
    ensures c.cur <= a.cur < |input| && a == c.(cur := a.cur) && input[a.cur] == CR
    ensures All(input[c.cur..a.cur], InHeaderValue)
    ensures Ordered(input, a) && Alive(input, a) && Run(input, c) == Run(input, a)
  {
    hide Run;
    hide Alive;
    var value;
    value, a := Scan(input, c);
  }

  lemma ReadValueText(input: string, c: Config) returns (value: string, d: Config)
    requires c.state == HeaderValue && Ordered(input, c) && c.cur == c.colon + 2 && Alive(input, c)
    ensures All(value, InHeaderValue)
    ensures d == Config(WhenCr, d.cur, c.colon, d.cur,
                        c.request.(headers := c.request.headers[input[c.start..c.colon] := value]))
    ensures c.cur < d.cur <= |input| && input[c.cur..] == value + ([CR] + input[d.cur..])
    ensures Alive(input, d) && Run(input, c) == Run(input, d)
  {
    var a := ScanValue(input, c);
    value := input[c.cur..a.cur];
    ValueTurn(input, a);
    TurnRun(input, a);
    d := Step(input, a);
    StaysAlive(input, a, d);
    Around(input, c.cur, c.cur, a.cur);
    hide Run;
    hide Step;
    hide Alive;
  }

  /** The header lines, up to the blank line or to a colon directly followed by CR. */
  lemma {:induction false} ReadHeaders(input: string, c: Config) returns (hs: seq<Header>, d: Config)
    requires c.state == CrLf && c.start == c.cur <= |input| && Alive(input, c)
    ensures ValidHeaders(hs) && d.state == CrLf && d.start == d.cur < |input|
    ensures input[c.cur..] == HeadersText(hs, input[d.cur..])
    ensures d.request == c.request.(headers := HeaderMap(hs, c.request.headers))
    ensures input[d.cur] == CR || exists key, tail ::
              ValidHeaderKey(key) && input[d.cur..] == key + (":" + ([CR] + tail))
    ensures Alive(input, d) && Run(input, c) == Run(input, d)
    decreases |input| - c.cur
  {
    hide Run;
    hide Alive;
    hide Step;
    NotAtEnd(input, c);
    if input[c.cur] == CR {
      hs, d := [], c;
    } else {
      var key, b := ReadHeaderKey(input, c);
      NotAtEnd(input, b);
      if input[b.cur] == CR {
        hs, d := [], c;
        assert input[d.cur..] == key + (":" + ([CR] + input[b.cur + 1..]));
      } else {
        var dropped, value, e := ReadHeaderValue(input, b);
        var more;
        more, d := ReadHeaders(input, e);
        hs := [Header(key, dropped, value)] + more;
        assert hs[1..] == more;
      }
    }
  }

  lemma ReadBlankLine(input: string, c: Config) returns (rest: string)
    requires c.state == CrLf && c.start == c.cur < |input| && input[c.cur] == CR && Alive(input, c)
    ensures input[c.cur..] == CRLF + rest
  {
    hide Run;
    hide Alive;
    var cr, b := Advance(input, c);
    var lf, d := Advance(input, b);
    rest := input[d.cur..];
  }

  /** Soundness: whatever is accepted is a text of the grammar. */
  lemma AcceptedIsGrammar(input: string) returns (m: Message)
    requires Accepts(input)
    ensures Valid(m) && Text(m) == input
  {
    assert Alive(input, INITIAL);
    var l, c := ReadLine(input);
    var hs, d := ReadHeaders(input, c);
    if input[d.cur] != CR {
      var key, tail :| ValidHeaderKey(key) && input[d.cur..] == key + (":" + ([CR] + tail));
      BareColonBreaks(input, d, key, tail);
      assert false;
    }
    var rest := ReadBlankLine(input, d);
    m := Message(l, hs, rest);
  }

  /** A header key whose colon is directly followed by CR stops the run. */
  lemma BareColonBreaks(input: string, c: Config, key: string, tail: string)
    requires ValidHeaderKey(key) && c.state == CrLf && c.start == c.cur <= |input|
    requires input[c.cur..] == key + (":" + ([CR] + tail))
    ensures !Halted(input, Run(input, c)) && Run(input, c).state == HeaderValue
  {
    var d := RunHeaderKey(input, c, key, [CR] + tail);
    Cut(input, d.cur, [CR], tail);
    assert MalformedCut(input, d);
  }

  /** A request line and header lines, then a header key whose colon is directly followed by CR. */
  ghost predicate BareColon(input: string, l: RequestLine, hs: seq<Header>, key: string, tail: string) {
    && ValidLine(l) && ValidHeaders(hs) && ValidHeaderKey(key)
    && input == LineText(l, HeadersText(hs, key + (":" + ([CR] + tail))))
  }

  /** The parser breaks exactly on the inputs with such a header line. */
  lemma BreaksIffBareColon(input: string)
    ensures Breaks(input) <==> exists l, hs, key, tail :: BareColon(input, l, hs, key, tail)
  {
    if Breaks(input) {
      assert Alive(input, INITIAL);
      var l, c := ReadLine(input);
      var hs, d := ReadHeaders(input, c);
      if input[d.cur] == CR {
        var rest := ReadBlankLine(input, d);
        RunRest(input, d, rest);
        assert false;
      }
      var key, tail :| ValidHeaderKey(key) && input[d.cur..] == key + (":" + ([CR] + tail));
      assert BareColon(input, l, hs, key, tail);
    }
    if l, hs, key, tail :| BareColon(input, l, hs, key, tail) {
      var c := RunLine(input, l, HeadersText(hs, key + (":" + ([CR] + tail))));
      var d := RunHeaders(input, c, hs, key + (":" + ([CR] + tail)));
      BareColonBreaks(input, d, key, tail);
    }
  }

  /** The parser decides the grammar. */
  lemma AcceptsIffGrammar(input: string)
    ensures Accepts(input) <==> exists m :: Valid(m) && Text(m) == input
  {
    if Accepts(input) {
      var m := AcceptedIsGrammar(input);
    }
    if m :| Valid(m) && Text(m) == input {
      GrammarIsAccepted(m);
    }
  }

  /** An accepted input factors in exactly one way, and the parser stores what the factors mean. */
  lemma AcceptedMeaning(input: string) returns (m: Message)
    requires Accepts(input)
    ensures Valid(m) && Text(m) == input
    ensures forall n | Valid(n) && Text(n) == input :: n == m
    ensures Final(input).request == Meaning(m) && Final(input).state == EndState(m)
  {
    m := AcceptedIsGrammar(input);
    GrammarIsAccepted(m);
    forall n | Valid(n) && Text(n) == input ensures n == m {
      TextUnique(n, m);
    }
  }
}
