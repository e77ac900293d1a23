/** Byte classes of the C library (in the "C" locale), decimal numbers, and splitting of strings.
    A byte is a `char`, a `std::string` is a `string`. */
module Bytes {

  const CR: char := '\r'
  const LF: char := '\n'
  const CRLF: string := "\r\n"

  predicate IsBlank(c: char) { c == ' ' || c == '\t' }

  predicate IsUpper(c: char) { 'A' <= c <= 'Z' }

  predicate IsDigit(c: char) { '0' <= c <= '9' }

  predicate IsSpace(c: char) { c == ' ' || ('\t' <= c <= '\r') }

  /** The byte classes by code, as ASCII has them. */
  lemma ByteClasses(c: char)
    ensures IsBlank(c) <==> c as int in {9, 32}
    ensures IsUpper(c) <==> 65 <= c as int <= 90
    ensures IsDigit(c) <==> 48 <= c as int <= 57
    ensures IsSpace(c) <==> c as int in {9, 10, 11, 12, 13, 32}
    ensures CR as int == 13 && LF as int == 10 && CRLF == [CR, LF]
  {
  }

  /** Every byte of `s` belongs to the class `p`. */
  predicate All(s: string, p: char -> bool) {
    forall i | 0 <= i < |s| :: p(s[i])
  }

  /** `s` does not begin with a byte of the class `p`. */
  predicate Stops(s: string, p: char -> bool) {
    s == "" || !p(s[0])
  }

  /** How many bytes of the class `p` the string begins with. */
  function Span(s: string, p: char -> bool): (n: nat)
    ensures n <= |s|
  {
    if Stops(s, p) then 0 else 1 + Span(s[1..], p)
  }

  lemma {:induction false} SpanSplits(s: string, p: char -> bool)
    ensures All(s[..Span(s, p)], p) && Stops(s[Span(s, p)..], p)
  {
    if !Stops(s, p) {
      var n := Span(s, p);
      SpanSplits(s[1..], p);
      assert s[..n] == [s[0]] + s[1..][..n - 1];
      assert s[n..] == s[1..][n - 1..];
    }
  }

  lemma {:induction false} SpanIs(p: char -> bool, a: string, x: string)
    requires All(a, p) && Stops(x, p)
    ensures Span(a + x, p) == |a|
  {
    if a == "" {
      assert a + x == x;
    } else {
      assert (a + x)[1..] == a[1..] + x;
      SpanIs(p, a[1..], x);
    }
  }

  /** A maximal run of one byte class can be split off a string in one way only. */
  lemma SplitUnique(p: char -> bool, a: string, x: string, b: string, y: string)
    requires All(a, p) && All(b, p) && Stops(x, p) && Stops(y, p)
    requires a + x == b + y
    ensures a == b && x == y
  {
    SpanIs(p, a, x);
    SpanIs(p, b, y);
    assert a == (a + x)[..|a|] && x == (a + x)[|a|..];
    assert b == (b + y)[..|b|] && y == (b + y)[|b|..];
  }

  /** `atoi` on values that fit its result type: optional space, optional sign, digits. */
  function Atoi(s: string): int {
    if s == "" then 0
    else if IsSpace(s[0]) then Atoi(s[1..])
    else if s[0] == '-' then 0 - DigitRun(s[1..], 0)
    else if s[0] == '+' then DigitRun(s[1..], 0)
    else DigitRun(s, 0)
  }

  function DigitRun(s: string, acc: nat): nat {
    if s == "" || !IsDigit(s[0]) then acc
    else DigitRun(s[1..], acc * 10 + (s[0] - '0') as nat)
  }

  /** The decimal text that `ostream << size_t` writes. */
  function Decimal(n: nat): (s: string)
    ensures s != "" && All(s, IsDigit)
  {
    if n < 10 then [DigitOf(n)] else Decimal(n / 10) + [DigitOf(n % 10)]
  }

  function DigitOf(d: nat): (c: char)
    requires d < 10
    ensures IsDigit(c) && (c - '0') as nat == d
  {
    '0' + d as char
  }

  lemma {:induction false} DigitRunAppend(s: string, d: char, acc: nat)
    requires All(s, IsDigit) && IsDigit(d)
    ensures DigitRun(s + [d], acc) == DigitRun(s, acc) * 10 + (d - '0') as nat
  {
    if s == "" {
      assert s + [d] == [d];
      assert [d][1..] == "";
    } else {
      assert (s + [d])[1..] == s[1..] + [d];
      DigitRunAppend(s[1..], d, acc * 10 + (s[0] - '0') as nat);
    }
  }

  lemma {:induction false} DigitRunDecimal(n: nat)
    ensures DigitRun(Decimal(n), 0) == n
  {
    if n < 10 {
      assert [DigitOf(n)][1..] == "";
    } else {
      DigitRunDecimal(n / 10);
      DigitRunAppend(Decimal(n / 10), DigitOf(n % 10), 0);
    }
  }

  /** A printed size reads back as itself. */
  lemma AtoiDecimal(n: nat)
    ensures Atoi(Decimal(n)) == n
  {
    DigitRunDecimal(n);
  }

  /** What `atoi` makes of spaces, a sign, digits and whatever follows them. */
  lemma {:induction false} AtoiText(spaces: string, sign: string, digits: string, tail: string)
    requires All(spaces, IsSpace) && sign in {"", "+", "-"} && All(digits, IsDigit) && Stops(tail, IsDigit)
    requires sign + digits == "" && tail != "" ==> !IsSpace(tail[0]) && tail[0] != '+' && tail[0] != '-'
    ensures Atoi(spaces + (sign + (digits + tail))) == (if sign == "-" then -1 else 1) * DigitRun(digits, 0)
    decreases |spaces|
  {
    var text := sign + (digits + tail);
    if spaces != "" {
      assert (spaces + text)[1..] == spaces[1..] + text;
      AtoiText(spaces[1..], sign, digits, tail);
    } else {
      assert spaces + text == text;
      DigitRunStops(digits, tail, 0);
      if sign != "" {
        assert text[1..] == digits + tail;
      } else {
        assert text == digits + tail;
      }
    }
  }

  /** The run of digits ends at the first byte that is none. */
  lemma {:induction false} DigitRunStops(digits: string, tail: string, acc: nat)
    requires All(digits, IsDigit) && Stops(tail, IsDigit)
    ensures DigitRun(digits + tail, acc) == DigitRun(digits, acc)
  {
    if digits == "" {
      assert digits + tail == tail;
    } else {
      assert (digits + tail)[1..] == digits[1..] + tail;
      DigitRunStops(digits[1..], tail, acc * 10 + (digits[0] - '0') as nat);
    }
  }

  lemma Assoc(a: string, b: string, c: string)
    ensures (a + b) + c == a + (b + c)
  {
  }

  /** Texts built from left to right, regrouped from right to left. */
  lemma {:induction false} Regroup(a: string, b: string, c: string, d: string, e: string, f: string)
    ensures a + b + c + d + e + f == a + (b + (c + (d + (e + f))))
  {
    Assoc(d, e, f);
    Assoc(c, d, e + f);
    Assoc(b, c, d + (e + f));
    Assoc(a, b, c + (d + (e + f)));
    Assoc(a + b, c, d + (e + f));
    Assoc(a + b + c, d, e + f);
    Assoc(a + b + c + d, e, f);
  }
}
