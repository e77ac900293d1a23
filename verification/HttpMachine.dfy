/** The control states of the request parser and one turn of its loop, as functions
    (src/http/HttpContext.cpp:17-258). Positions are offsets from `begin`. */
module HttpMachine {
  import opened Bytes
  import opened HttpRequests

  datatype State =
    | Invalid
    | Start
    | InMethod
    | BeforeUrl
    | InUrl
    | BeforeParamKey
    | ParamKey
    | BeforeParamValue
    | ParamValue
    | BeforeProtocol
    | InProtocol
    | BeforeVersion
    | InVersion
    | HeaderKey
    | HeaderValue
    | WhenCr
    | CrLf
    | CrLfCr
    | Body
    | Complete

  /** What the loop holds between two turns. */
  datatype Config = Config(state: State, start: nat, colon: nat, cur: nat, request: Request)

  const INITIAL := Config(Start, 0, 0, 0, FRESH)

  predicate IsLead(c: char) { c == CR || c == LF || IsBlank(c) }

  /** Tab, line feed, carriage return and space. */
  lemma LeadBytes(c: char)
    ensures IsLead(c) <==> c as int in {9, 10, 13, 32}
  {
  }

  predicate Accepting(s: State) { s == Complete || s == Body }

  /** The loop condition fails. */
  predicate Halted(input: string, c: Config) {
    c.state == Invalid || c.state == Complete || c.cur >= |input|
  }

  /** The next turn would build `std::string(colon + 2, cur)` with `colon + 2` behind `cur`,
      which C++ gives no meaning to. The model stops there. */
  predicate MalformedCut(input: string, c: Config) {
    c.state == HeaderValue && c.cur < |input| && input[c.cur] == CR && c.cur < c.colon + 2
  }

  /** The order of the three positions. */
  predicate Ordered(input: string, c: Config) {
    && c.start <= c.cur <= |input|
    && (c.state in {ParamKey, HeaderKey} ==> c.start < c.cur)
    && (c.state in {BeforeParamValue, ParamValue, HeaderValue} ==> c.start < c.colon < c.cur)
  }

  const CONTENT_LENGTH := "Content-Length"

  /** The states behind the request line. */
  predicate BehindLine(s: State) {
    s.HeaderKey? || s.HeaderValue? || s.WhenCr? || s.CrLf? || s.CrLfCr? || s.Body?
  }

  /** One turn of the loop. */
  function Step(input: string, c: Config): (d: Config)
    requires Ordered(input, c) && !Halted(input, c) && !MalformedCut(input, c)
    ensures Ordered(input, d) && d.cur == c.cur + 1
  {
    if BehindLine(c.state) then HeaderStep(input, c) else LineStep(input, c)
  }

  function LineStep(input: string, c: Config): (d: Config)
    requires Ordered(input, c) && c.cur < |input| && !BehindLine(c.state)
    ensures Ordered(input, d) && d.cur == c.cur + 1
  {
    var ch := input[c.cur];
    var d := c.(cur := c.cur + 1);
    var r := c.request;
    match c.state
    case Start =>
      if IsLead(ch) then d
      else if IsUpper(ch) then d.(state := InMethod)
      else d.(state := Invalid)
    case InMethod =>
      if IsUpper(ch) then d
      else if IsBlank(ch) then
        d.(state := BeforeUrl, start := d.cur, request := r.(verb := MethodOf(input[c.start..c.cur])))
      else d.(state := Invalid)
    case BeforeUrl =>
      if ch == '/' then d.(state := InUrl)
      else if IsBlank(ch) then d
      else d.(state := Invalid)
    case InUrl =>
      if ch == '?' then
        d.(state := BeforeParamKey, start := d.cur, request := r.(url := input[c.start..c.cur]))
      else if IsBlank(ch) then
        d.(state := BeforeProtocol, start := d.cur, request := r.(url := input[c.start..c.cur]))
      else d
    case BeforeParamKey =>
      if IsLead(ch) then d.(state := Invalid) else d.(state := ParamKey)
    case ParamKey =>
      if ch == '=' then d.(state := BeforeParamValue, colon := c.cur)
      else if IsBlank(ch) then d.(state := Invalid)
      else d
    case BeforeParamValue =>
      if IsLead(ch) then d.(state := Invalid) else d.(state := ParamValue)
    case ParamValue =>
      if ch == '&' || IsBlank(ch) then
        d.(state := if ch == '&' then BeforeParamKey else BeforeProtocol,
           start := d.cur,
           request := r.(params := r.params[input[c.start..c.colon] := input[c.colon + 1..c.cur]]))
      else d
    case BeforeProtocol =>
      if IsBlank(ch) then d else d.(state := InProtocol)
    case InProtocol =>
      if ch == '/' then
        d.(state := BeforeVersion, start := d.cur, request := r.(protocol := input[c.start..c.cur]))
      else d
    case BeforeVersion =>
      if IsDigit(ch) then d.(state := InVersion) else d.(state := Invalid)
    case InVersion =>
      if ch == CR then
        d.(state := WhenCr, start := d.cur, request := r.(version := VersionOf(input[c.start..c.cur])))
      else if IsDigit(ch) || ch == '.' then d
      else d.(state := Invalid)
    case _ => d.(state := Invalid)
  }

  function HeaderStep(input: string, c: Config): (d: Config)
    requires Ordered(input, c) && c.cur < |input| && BehindLine(c.state) && !MalformedCut(input, c)
    ensures Ordered(input, d) && d.cur == c.cur + 1
  {
    var ch := input[c.cur];
    var d := c.(cur := c.cur + 1);
    var r := c.request;
    match c.state
    case HeaderKey =>
      if ch == ':' then d.(state := HeaderValue, colon := c.cur) else d
    case HeaderValue =>
      if ch == CR then
        d.(state := WhenCr, start := d.cur,
           request := r.(headers := r.headers[input[c.start..c.colon] := input[c.colon + 2..c.cur]]))
      else d
    case WhenCr =>
      if ch == LF then d.(state := CrLf, start := d.cur) else d.(state := Invalid)
    case CrLf =>
      if ch == CR then d.(state := CrLfCr)
      else if IsBlank(ch) then d.(state := Invalid)
      else d.(state := HeaderKey)
    case CrLfCr =>
      if ch == LF then d.(state := AfterBlankLine(r.headers), start := d.cur)
      else d.(state := Invalid)
    case Body =>
      var length := |input| - c.cur;
      d.(state := if EnoughBody(r.headers, length) then Complete else Body,
         request := r.(body := input[c.start..c.start + length]))
  }

  /** Where the blank line leads: `cur < end` holds there, so only a Content-Length that is not
      positive completes the request at once. */
  function AfterBlankLine(headers: map<string, string>): State {
    if CONTENT_LENGTH in headers && Atoi(headers[CONTENT_LENGTH]) <= 0 then Complete else Body
  }

  predicate EnoughBody(headers: map<string, string>, length: nat) {
    CONTENT_LENGTH in headers && length >= Atoi(headers[CONTENT_LENGTH])
  }

  /** The whole loop: the configuration in which it ends, or the one whose next cut is malformed. */
  function Run(input: string, c: Config): (e: Config)
    requires Ordered(input, c)
    ensures Ordered(input, e) && (Halted(input, e) || MalformedCut(input, e))
    decreases |input| - c.cur
  {
    if Halted(input, c) || MalformedCut(input, c) then c else Run(input, Step(input, c))
  }

  function Final(input: string): Config { Run(input, INITIAL) }

  /** The parser returns true. */
  predicate Accepts(input: string) { Accepting(Final(input).state) }

  /** The parser meets a header line whose colon is directly followed by CR. */
  predicate Breaks(input: string) { !Halted(input, Final(input)) }

  /** The ranges `[from, to)` that the next turn hands to `std::string(from, to)`. */
  function Cuts(input: string, c: Config): seq<(int, int)>
    requires !Halted(input, c)
  {
    var ch := input[c.cur];
    match c.state
    case InMethod => if IsBlank(ch) then [(c.start, c.cur)] else []
    case InUrl => if ch == '?' || IsBlank(ch) then [(c.start, c.cur)] else []
    case ParamValue =>
      if ch == '&' || IsBlank(ch) then [(c.start, c.colon), (c.colon + 1, c.cur)] else []
    case InProtocol => if ch == '/' then [(c.start, c.cur)] else []
    case InVersion => if ch == CR then [(c.start, c.cur)] else []
    case HeaderValue => if ch == CR then [(c.start, c.colon), (c.colon + 2, c.cur)] else []
    case Body => [(c.start, c.start + (|input| - c.cur))]
    case _ => []
  }

  /** A configuration the loop passes through on `input`. */
  ghost predicate Reached(input: string, c: Config, turns: nat)
    decreases turns
  {
    if turns == 0 then c == INITIAL
    else exists b :: Reached(input, b, turns - 1) && Turns(input, b, c)
  }

  /** The loop makes one turn from `b` to `c`. */
  ghost predicate Turns(input: string, b: Config, c: Config) {
    Ordered(input, b) && !Halted(input, b) && !MalformedCut(input, b) && c == Step(input, b)
  }

  /** Slice order: the positions stay ordered in every turn, `turns` bytes have been read, and the
      cuts of a turn are ordered ranges inside the input exactly when the turn is not the malformed one. */
  lemma SliceOrder(input: string, c: Config, turns: nat)
    requires Reached(input, c, turns)
    ensures 0 <= c.start <= c.cur == turns <= |input|
    ensures c.state in {BeforeParamValue, ParamValue, HeaderValue} ==> c.start < c.colon < c.cur
    ensures !Halted(input, c) ==>
              ((forall i | 0 <= i < |Cuts(input, c)| ::
                 0 <= Cuts(input, c)[i].0 <= Cuts(input, c)[i].1 <= |input|)
               <==> !MalformedCut(input, c))
  {
    ReachedOrdered(input, c, turns);
    hide Reached;
    if !Halted(input, c) {
      CutsInOrder(input, c);
    }
  }

  lemma CutsInOrder(input: string, c: Config)
    requires Ordered(input, c) && !Halted(input, c)
    ensures (forall i | 0 <= i < |Cuts(input, c)| ::
               0 <= Cuts(input, c)[i].0 <= Cuts(input, c)[i].1 <= |input|)
            <==> !MalformedCut(input, c)
  {
    if MalformedCut(input, c) {
      assert Cuts(input, c)[1] == (c.colon + 2, c.cur);
    }
  }

  lemma {:induction false} ReachedOrdered(input: string, c: Config, turns: nat)
    requires Reached(input, c, turns)
    ensures Ordered(input, c) && c.cur == turns
    decreases turns
  {
    hide Step;
    if turns > 0 {
      var b :| Reached(input, b, turns - 1) && Turns(input, b, c);
      TurnKeepsOrder(input, b, c);
      ReachedOrdered(input, b, turns - 1);
    }
  }

  lemma TurnKeepsOrder(input: string, b: Config, c: Config)
    requires Turns(input, b, c)
    ensures Ordered(input, c) && c.cur == b.cur + 1
  {
  }
}
