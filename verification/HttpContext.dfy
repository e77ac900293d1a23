/** The parsing loop itself, on the object whose state and request it updates
    (src/http/HttpContext.cpp). */
module HttpContexts {
  import opened Bytes
  import opened HttpRequests
  import opened HttpMachine
  import opened HttpGrammar
  import opened HttpParser

  class HttpContext {
    var request: HttpRequest
    var state: State

    /** No field of the request is set before the state leaves Start. */
    ghost predicate Valid()
      reads this, request
    {
      state == Start ==> request.Value() == FRESH
    }

    constructor ()
      ensures Valid() && state == Start && fresh(request)
    {
      request := new HttpRequest();
      state := Start;
    }

    /** One call. On a fresh context the answer and the stored request are those of the grammar. `malformed` says that
        the loop has come to a slice that is no range, where it stops. A context that is not fresh goes on in its state
        with the positions at the beginning of the input, which must be in order for that state. */
    method ParaseRequest(input: string) returns (ok: bool, malformed: bool)
      requires Valid() && Ordered(input, Now(0, 0, 0))
      modifies this`state, request
      ensures Valid()
      ensures var e := Run(input, old(Now(0, 0, 0)));
              && state == e.state && request.Value() == e.request
              && malformed == !Halted(input, e) && ok == (!malformed && Accepting(state))
      ensures old(state) == Start ==>
                && (malformed <==> Breaks(input))
                && (ok <==> exists m :: HttpGrammar.Valid(m) && Text(m) == input)
                && (forall m | HttpGrammar.Valid(m) && Text(m) == input ::
                      request.Value() == Meaning(m) && state == EndState(m))
    {
      hide Run;
      hide Step;
      hide HttpGrammar.Valid;
      hide Text;
      hide Meaning;
      hide EndState;
      var start, cur, colon: nat := 0, 0, 0;
      ghost var first := Now(0, 0, 0);
      FreshDecides(input, first);
      while state != Invalid && state != Complete && cur < |input|
        invariant Ordered(input, Now(start, colon, cur))
        invariant Run(input, Now(start, colon, cur)) == Run(input, first)
        invariant state == Start ==> request.Value() == FRESH
        decreases |input| - cur
      {
        ghost var c := Now(start, colon, cur);
        if state == HeaderValue && input[cur] == CR && cur < colon + 2 {
          MalformedRun(input, c);
          return false, true;
        }
        TurnRun(input, c);
        StartTurn(input, c);
        if BehindLine(state) {
          start, colon := HeaderTurn(input, start, colon, cur, c);
        } else {
          start, colon := LineTurn(input, start, colon, cur, c);
        }
        cur := cur + 1;
        assert Now(start, colon, cur) == Step(input, c);
      }
      HaltedRun(input, Now(start, colon, cur));
      ok, malformed := state == Complete || state == Body, false;
    }

    /** One turn of the loop in a state of the request line. */
    method LineTurn(input: string, start: nat, colon: nat, cur: nat, ghost c: Config)
      returns (start': nat, colon': nat)
      requires c == Now(start, colon, cur)
      requires Ordered(input, c) && !Halted(input, c) && !MalformedCut(input, c)
      requires !BehindLine(state)
      modifies this`state, request
      ensures Now(start', colon', cur + 1) == Step(input, c)
    {
      start', colon' := start, colon;
      var ch := input[cur];
      match state {
        case Start =>
          if ch == CR || ch == LF || IsBlank(ch) {
          } else if IsUpper(ch) {
            state := InMethod;
          } else {
            state := Invalid;
          }
        case InMethod =>
          if IsUpper(ch) {
          } else if IsBlank(ch) {
            request.SetMethod(input[start..cur]);
            state := BeforeUrl;
            start' := cur + 1;
          } else {
            state := Invalid;
          }
        case BeforeUrl =>
          if ch == '/' {
            state := InUrl;
          } else if IsBlank(ch) {
          } else {
            state := Invalid;
          }
        case InUrl =>
          if ch == '?' {
            request.SetUrl(input[start..cur]);
            start' := cur + 1;
            state := BeforeParamKey;
          } else if IsBlank(ch) {
            request.SetUrl(input[start..cur]);
            start' := cur + 1;
            state := BeforeProtocol;
          }
        case BeforeParamKey =>
          if IsBlank(ch) || ch == CR || ch == LF {
            state := Invalid;
          } else {
            state := ParamKey;
          }
        case ParamKey =>
          if ch == '=' {
            colon' := cur;
            state := BeforeParamValue;
          } else if IsBlank(ch) {
            state := Invalid;
          }
        case BeforeParamValue =>
          if IsBlank(ch) || ch == LF || ch == CR {
            state := Invalid;
          } else {
            state := ParamValue;
          }
        case ParamValue =>
          if ch == '&' {
            state := BeforeParamKey;
            request.SetRequestParams(input[start..colon], input[colon + 1..cur]);
            start' := cur + 1;
          }
          if IsBlank(ch) {
            request.SetRequestParams(input[start..colon], input[colon + 1..cur]);
            start' := cur + 1;
            state := BeforeProtocol;
          }
        case BeforeProtocol =>
          if IsBlank(ch) {
          } else {
            state := InProtocol;
          }
        case InProtocol =>
          if ch == '/' {
            request.SetProtocol(input[start..cur]);
            start' := cur + 1;
            state := BeforeVersion;
          }
        case BeforeVersion =>
          if IsDigit(ch) {
            state := InVersion;
          } else {
            state := Invalid;
          }
        case InVersion =>
          if ch == CR {
            request.SetVersion(input[start..cur]);
            start' := cur + 1;
            state := WhenCr;
          } else if IsDigit(ch) || ch == '.' {
          } else {
            state := Invalid;
          }
      }
    }

    /** One turn of the loop in a state of the header lines or the body. */
    method HeaderTurn(input: string, start: nat, colon: nat, cur: nat, ghost c: Config)
      returns (start': nat, colon': nat)
      requires c == Now(start, colon, cur)
      requires Ordered(input, c) && !Halted(input, c) && !MalformedCut(input, c)
      requires BehindLine(state)
      modifies this`state, request
      ensures Now(start', colon', cur + 1) == Step(input, c)
    {
      hide AfterBlankLine;
      hide EnoughBody;
      start', colon' := start, colon;
      var ch := input[cur];
      match state {
        case HeaderKey =>
          if ch == ':' {
            colon' := cur;
            state := HeaderValue;
          }
        case HeaderValue =>
          if IsBlank(ch) {
          } else if ch == CR {
            request.SetHeaders(input[start..colon], input[colon + 2..cur]);
            start' := cur + 1;
            state := WhenCr;
          }
        case WhenCr =>
          if ch == LF {
            start' := cur + 1;
            state := CrLf;
          } else {
            state := Invalid;
          }
        case CrLf =>
          if ch == CR {
            state := CrLfCr;
          } else if IsBlank(ch) {
            state := Invalid;
          } else {
            state := HeaderKey;
          }
        case CrLfCr =>
          if ch == LF {
            EndHeaders(cur < |input|);
            start' := cur + 1;
          } else {
            state := Invalid;
          }
        case Body =>
          var bodyLength := |input| - cur;
          StoreBody(input[start..start + bodyLength], bodyLength);
      }
    }

    /** The blank line: is there a body to wait for? */
    method EndHeaders(more: bool)
      requires more
      modifies this`state
      ensures state == AfterBlankLine(request.headers)
    {
      var found, length := request.GetHeaders(CONTENT_LENGTH);
      if found {
        if Atoi(length) > 0 {
          state := Body;
        } else {
          state := Complete;
        }
      } else {
        if more {
          state := Body;
        } else {
          assert false;  // the loop condition excludes it
        }
      }
    }

    method StoreBody(text: string, bodyLength: nat)
      requires state == Body
      modifies this`state, request
      ensures request.Value() == old(request.Value()).(body := text)
      ensures state == if EnoughBody(request.headers, bodyLength) then Complete else Body
    {
      request.SetBody(text);
      var found, length := request.GetHeaders(CONTENT_LENGTH);
      if found && bodyLength >= Atoi(length) {
        state := Complete;
      }
    }

    ghost function Now(start: nat, colon: nat, cur: nat): Config
      reads this, request
    {
      Config(state, start, colon, cur, request.Value())
    }

    method GetCompleteRequest() returns (ok: bool)
      ensures ok == Accepting(state)
    {
      ok := state == Complete || state == Body;
    }

    method ResetContextStatus()
      modifies this
      ensures Valid() && state == Start && fresh(request)
    {
      request := new HttpRequest();
      state := Start;
    }
  }

  /** No turn leads back to Start, and none stores anything in it. */
  lemma StartTurn(input: string, c: Config)
    requires Ordered(input, c) && !Halted(input, c) && !MalformedCut(input, c)
    ensures Step(input, c).state == Start ==> c.state == Start && Step(input, c).request == c.request
  {
  }

  lemma MalformedRun(input: string, c: Config)
    requires Ordered(input, c) && MalformedCut(input, c)
    ensures Run(input, c) == c
  {
  }

  lemma ParserDecides(input: string)
    ensures Accepts(input) <==> exists m :: HttpGrammar.Valid(m) && Text(m) == input
    ensures forall m | HttpGrammar.Valid(m) && Text(m) == input ::
              Final(input).request == Meaning(m) && Final(input).state == EndState(m)
  {
    AcceptsIffGrammar(input);
    if Accepts(input) {
      var m := AcceptedMeaning(input);
    }
  }

  /** A run that begins afresh decides the grammar. */
  lemma FreshDecides(input: string, first: Config)
    requires Ordered(input, first)
    ensures first == INITIAL ==>
              var e := Run(input, first);
              && (Halted(input, e) <==> !Breaks(input))
              && (Halted(input, e) && Accepting(e.state) <==> exists m :: HttpGrammar.Valid(m) && Text(m) == input)
              && (forall m | HttpGrammar.Valid(m) && Text(m) == input ::
                    e.request == Meaning(m) && e.state == EndState(m))
  {
    if first == INITIAL {
      ParserDecides(input);
      if Accepts(input) {
        AcceptedHalts(input);
      }
    }
  }

  lemma AcceptedHalts(input: string)
    requires Accepts(input)
    ensures !Breaks(input)
  {
    assert MalformedCut(input, Final(input)) || Halted(input, Final(input));
  }
}
