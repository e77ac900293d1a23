/** Placeholder substitution of the logger (src/log/Log.h:168-190). */
module LogFormat {

  const HOLE: string := "{}"

  predicate HoleAt(s: string, i: nat) {
    i + 1 < |s| && s[i] == '{' && s[i + 1] == '}'
  }

  /** `format.find("{}", pos)`, or the length when there is none. */
  function FindHole(s: string, pos: nat): (n: nat)
    requires pos <= |s|
    ensures pos <= n <= |s| && (n < |s| ==> HoleAt(s, n))
    ensures forall i | pos <= i < n :: !HoleAt(s, i)
    decreases |s| - pos
  {
    if pos == |s| || HoleAt(s, pos) then pos else FindHole(s, pos + 1)
  }

  function Concat(args: seq<string>): string {
    if args == [] then "" else args[0] + Concat(args[1..])
  }

  function TotalLength(args: seq<string>): nat {
    if args == [] then 0 else |args[0]| + TotalLength(args[1..])
  }

  /** What is still to be written when the format has been consumed up to `pos`. */
  function Rendered(s: string, pos: nat, args: seq<string>): string
    requires pos <= |s|
    decreases |s| - pos
  {
    var hole := FindHole(s, pos);
    if hole == |s| then s[pos..] + Concat(args)
    else if args == [] then s[pos..hole] + HOLE + Rendered(s, hole + 2, [])
    else s[pos..hole] + args[0] + Rendered(s, hole + 2, args[1..])
  }

  /** The loop: text up to the next placeholder, then the next argument or the placeholder itself;
      at the end the rest of the format and the surplus arguments. */
  lemma RenderedTurn(s: string, pos: nat, args: seq<string>)
    requires pos <= |s|
    ensures var hole := FindHole(s, pos);
            Rendered(s, pos, args) ==
              if hole == |s| then s[pos..] + Concat(args)
              else if args == [] then s[pos..hole] + HOLE + Rendered(s, hole + 2, [])
              else s[pos..hole] + args[0] + Rendered(s, hole + 2, args[1..])
  {
  }

  method FormatString(format: string, args: seq<string>) returns (os: string)
    ensures os == Rendered(format, 0, args)
  {
    hide Rendered;
    hide Concat;
    hide FindHole;
    os := "";
    var pos, argIndex := 0, 0;
    var placeHolder := FindHole(format, pos);
    LoopStart(format, args);
    while placeHolder != |format|
      invariant pos <= |format| && argIndex <= |args| && placeHolder == FindHole(format, pos)
      invariant os + Rendered(format, pos, args[argIndex..]) == Rendered(format, 0, args)
      decreases |format| - pos
    {
      LoopTurn(os, format, pos, args, argIndex);
      os := os + format[pos..placeHolder];
      if argIndex < |args| {
        os := os + args[argIndex];
        argIndex := argIndex + 1;
      } else {
        os := os + HOLE;
      }
      pos := placeHolder + 2;
      placeHolder := FindHole(format, pos);
    }
    LoopEnd(os, format, pos, args[argIndex..]);
    os := os + format[pos..];
    while argIndex < |args|
      invariant argIndex <= |args|
      invariant os + Concat(args[argIndex..]) == Rendered(format, 0, args)
    {
      SurplusTurn(os, args, argIndex);
      os := os + args[argIndex];
      argIndex := argIndex + 1;
    }
    SurplusEnd(os, args[argIndex..]);
  }

  lemma LoopStart(format: string, args: seq<string>)
    ensures args[0..] == args && "" + Rendered(format, 0, args) == Rendered(format, 0, args)
  {
  }

  lemma LoopEnd(os: string, format: string, pos: nat, rest: seq<string>)
    requires pos <= |format| && FindHole(format, pos) == |format|
    ensures os + Rendered(format, pos, rest) == os + format[pos..] + Concat(rest)
  {
    RenderedTurn(format, pos, rest);
    Prepend(os, format[pos..], "", Concat(rest));
  }

  lemma LoopTurn(os: string, format: string, pos: nat, args: seq<string>, argIndex: nat)
    requires pos <= |format| && argIndex <= |args| && FindHole(format, pos) < |format|
    ensures var hole := FindHole(format, pos);
            os + Rendered(format, pos, args[argIndex..]) ==
              if argIndex < |args| then
                os + format[pos..hole] + args[argIndex] + Rendered(format, hole + 2, args[argIndex + 1..])
              else os + format[pos..hole] + HOLE + Rendered(format, hole + 2, args[argIndex..])
  {
    RenderedTurn(format, pos, args[argIndex..]);
    ArgsFrom(args, argIndex);
    hide *;
    var hole := FindHole(format, pos);
    if argIndex < |args| {
      Prepend(os, format[pos..hole], args[argIndex], Rendered(format, hole + 2, args[argIndex + 1..]));
    } else {
      Prepend(os, format[pos..hole], HOLE, Rendered(format, hole + 2, []));
    }
  }

  lemma ArgsFrom(args: seq<string>, i: nat)
    requires i <= |args|
    ensures i == |args| ==> args[i..] == []
    ensures i < |args| ==> args[i..] != [] && args[i..][0] == args[i] && args[i..][1..] == args[i + 1..]
  {
  }

  lemma SurplusTurn(os: string, args: seq<string>, argIndex: nat)
    requires argIndex < |args|
    ensures os + args[argIndex] + Concat(args[argIndex + 1..]) == os + Concat(args[argIndex..])
  {
    assert args[argIndex..][1..] == args[argIndex + 1..];
    Prepend(os, args[argIndex], "", Concat(args[argIndex + 1..]));
  }

  lemma SurplusEnd(os: string, rest: seq<string>)
    requires rest == []
    ensures os + Concat(rest) == os
  {
  }

  lemma Prepend(a: string, b: string, c: string, d: string)
    ensures a + (b + c + d) == (a + b) + c + d
    ensures a + (b + d) == (a + b) + d
    ensures a + "" == a && "" + d == d
  {
  }

  // What the output is, said without the loop.

  predicate HasHole(s: string) {
    exists i | 0 <= i < |s| :: HoleAt(s, i)
  }

  /** No placeholder is left in a piece. */
  predicate HoleFree(pieces: seq<string>) {
    forall i | 0 <= i < |pieces| :: !HasHole(pieces[i])
  }

  /** The pieces with a placeholder between any two neighbours. */
  function Joined(pieces: seq<string>): string
    requires pieces != []
  {
    if |pieces| == 1 then pieces[0] else pieces[0] + HOLE + Joined(pieces[1..])
  }

  /** The pieces with the i-th argument between piece i and piece i + 1, the placeholder staying where
      the arguments have run out, and the surplus arguments behind the last piece. */
  function Filled(pieces: seq<string>, args: seq<string>): string
    requires pieces != []
  {
    if |pieces| == 1 then pieces[0] + Concat(args)
    else if args == [] then pieces[0] + HOLE + Filled(pieces[1..], [])
    else pieces[0] + args[0] + Filled(pieces[1..], args[1..])
  }

  function Pieces(s: string, pos: nat): (pieces: seq<string>)
    requires pos <= |s|
    ensures pieces != []
    decreases |s| - pos
  {
    var hole := FindHole(s, pos);
    if hole == |s| then [s[pos..]] else [s[pos..hole]] + Pieces(s, hole + 2)
  }

  lemma JoinFront(piece: string, rest: seq<string>)
    requires rest != [] && !HasHole(piece) && HoleFree(rest)
    ensures HoleFree([piece] + rest) && Joined([piece] + rest) == piece + HOLE + Joined(rest)
  {
    hide HasHole;
    assert ([piece] + rest)[1..] == rest;
  }

  lemma PiecesTurn(s: string, pos: nat)
    requires pos <= |s|
    ensures var hole := FindHole(s, pos);
            if hole == |s| then Pieces(s, pos) == [s[pos..]] else Pieces(s, pos) == [s[pos..hole]] + Pieces(s, hole + 2)
  {
    hide FindHole;
  }

  lemma AroundHole(s: string, pos: nat, hole: nat)
    requires pos <= hole <= |s| && (hole < |s| ==> HoleAt(s, hole))
    ensures hole == |s| ==> s[pos..hole] == s[pos..]
    ensures hole < |s| ==> s[pos..] == s[pos..hole] + HOLE + s[hole + 2..]
  {
    if hole < |s| {
      assert s[hole..] == HOLE + s[hole + 2..];
      assert s[pos..] == s[pos..hole] + s[hole..];
      Prepend(s[pos..hole], HOLE, "", s[hole + 2..]);
    }
  }

  /** Every format is made of hole-free pieces. */
  lemma {:induction false} PiecesJoin(s: string, pos: nat)
    requires pos <= |s|
    ensures HoleFree(Pieces(s, pos)) && Joined(Pieces(s, pos)) == s[pos..]
    decreases |s| - pos
  {
    var hole := FindHole(s, pos);
    PiecesTurn(s, pos);
    AroundHole(s, pos, hole);
    NoHoleBetween(s, pos, hole);
    if hole < |s| {
      hide *;
      PiecesJoin(s, hole + 2);
      JoinFront(s[pos..hole], Pieces(s, hole + 2));
    } else {
      hide FindHole;
      hide HasHole;
    }
  }

  lemma NoHoleBetween(s: string, i: nat, j: nat)
    requires i <= j <= |s| && forall k | i <= k < j :: !HoleAt(s, k)
    ensures !HasHole(s[i..j])
  {
    forall k | 0 <= k < j - i ensures !HoleAt(s[i..j], k) {
      assert !HoleAt(s, i + k);
    }
  }

  /** A hole-free piece before a placeholder or at the end is exactly what the search skips. */
  lemma HoleAfter(s: string, pos: nat, piece: string)
    requires pos <= |s| && !HasHole(piece) && pos + |piece| <= |s| && s[pos..pos + |piece|] == piece
    requires pos + |piece| == |s| || HoleAt(s, pos + |piece|)
    ensures FindHole(s, pos) == pos + |piece|
  {
    var e := pos + |piece|;
    forall k | pos <= k < e ensures !HoleAt(s, k) {
      assert s[k] == piece[k - pos];
      assert k + 1 < e ==> s[k + 1] == piece[k + 1 - pos];
      assert !HoleAt(piece, k - pos);
    }
  }

  /** The first piece of a format that is taken apart, and what follows it. */
  lemma FirstPiece(s: string, pos: nat, pieces: seq<string>)
    requires pos <= |s| && pieces != [] && !HasHole(pieces[0]) && s[pos..] == Joined(pieces)
    ensures var e := pos + |pieces[0]|;
            && e <= |s| && FindHole(s, pos) == e && s[pos..e] == pieces[0]
            && (|pieces| == 1 ==> e == |s| && s[pos..] == pieces[0])
            && (|pieces| > 1 ==> e + 2 <= |s| && s[e + 2..] == Joined(pieces[1..]))
  {
    var p, rest := pieces[0], s[pos..];
    var e := pos + |p|;
    assert |rest| == |s| - pos >= |p|;
    assert s[pos..e] == rest[..|p|] == p;
    if |pieces| > 1 {
      assert rest == p + (HOLE + Joined(pieces[1..]));
      assert s[e..] == rest[|p|..] == HOLE + Joined(pieces[1..]);
      assert s[e] == s[e..][0] == '{' && s[e + 1] == s[e..][1] == '}';
      assert s[e + 2..] == s[e..][2..];
    }
    HoleAfter(s, pos, p);
  }

  lemma {:induction false} RenderedFrom(s: string, pos: nat, pieces: seq<string>, args: seq<string>)
    requires pos <= |s| && pieces != [] && HoleFree(pieces) && s[pos..] == Joined(pieces)
    ensures Rendered(s, pos, args) == Filled(pieces, args)
    decreases |pieces|
  {
    hide HasHole;
    hide Joined;
    hide FindHole;
    hide Rendered;
    hide Concat;
    FirstPiece(s, pos, pieces);
    RenderedTurn(s, pos, args);
    if |pieces| > 1 {
      RenderedFrom(s, pos + |pieces[0]| + 2, pieces[1..], if args == [] then [] else args[1..]);
    }
  }

  /** What FormatString returns: for the hole-free pieces of the format, whichever way they are found,
      the arguments are put between them one by one. */
  lemma FormatMeaning(format: string, pieces: seq<string>, args: seq<string>)
    requires pieces != [] && HoleFree(pieces) && format == Joined(pieces)
    ensures Rendered(format, 0, args) == Filled(pieces, args)
  {
    assert format[0..] == format;
    RenderedFrom(format, 0, pieces, args);
  }

  /** There is one way to take a format apart. */
  lemma {:induction false} PiecesUnique(s: string, pos: nat, pieces: seq<string>)
    requires pos <= |s| && pieces != [] && HoleFree(pieces) && s[pos..] == Joined(pieces)
    ensures pieces == Pieces(s, pos)
    decreases |pieces|
  {
    hide HasHole;
    hide Joined;
    hide FindHole;
    FirstPiece(s, pos, pieces);
    if |pieces| > 1 {
      PiecesUnique(s, pos + |pieces[0]| + 2, pieces[1..]);
    }
    assert pieces == [pieces[0]] + pieces[1..];
  }

  function Min(a: nat, b: nat): nat { if a < b then a else b }

  lemma {:induction false} FilledLength(pieces: seq<string>, args: seq<string>)
    requires pieces != []
    ensures |Filled(pieces, args)| + 2 * Min(|pieces| - 1, |args|) == |Joined(pieces)| + TotalLength(args)
    decreases |pieces|
  {
    if |pieces| == 1 {
      ConcatLength(args);
    } else {
      FilledLength(pieces[1..], if args == [] then [] else args[1..]);
    }
  }

  lemma {:induction false} ConcatLength(args: seq<string>)
    ensures |Concat(args)| == TotalLength(args)
  {
    if args != [] {
      ConcatLength(args[1..]);
    }
  }

  /** The length law: every argument counts in full, every placeholder that got one loses its two bytes. */
  lemma FormatLength(format: string, args: seq<string>)
    ensures |Rendered(format, 0, args)| ==
            |format| + TotalLength(args) - 2 * Min(|Pieces(format, 0)| - 1, |args|)
  {
    PiecesJoin(format, 0);
    assert format[0..] == format;
    FormatMeaning(format, Pieces(format, 0), args);
    FilledLength(Pieces(format, 0), args);
  }

  /** Too few arguments. */
  lemma FewArguments()
    ensures Rendered("a{}b{}", 0, ["x"]) == "axb{}"
  {
    var p := ["a", "b", ""];
    assert p[1..] == ["b", ""] && p[1..][1..] == [""];
    assert Joined(p[1..]) == "b" + HOLE + "";
    assert Joined(p) == "a" + HOLE + ("b" + HOLE + "") == "a{}b{}";
    assert ["x"][1..] == [];
    assert Filled(p[1..], []) == "b" + HOLE + "";
    assert Filled(p, ["x"]) == "a" + "x" + ("b" + HOLE + "") == "axb{}";
    assert HoleFree(p);
    hide *;
    FormatMeaning("a{}b{}", p, ["x"]);
  }

  /** Too many. */
  lemma ManyArguments()
    ensures Rendered("{}-", 0, ["x", "y", "z"]) == "x-yz"
  {
    var q, args := ["", "-"], ["x", "y", "z"];
    assert q[1..] == ["-"];
    assert Joined(q) == "" + HOLE + "-" == "{}-";
    assert args[1..] == ["y", "z"] && ["y", "z"][1..] == ["z"] && ["z"][1..] == [];
    assert Concat(["z"]) == "z" + "" == "z";
    assert Concat(["y", "z"]) == "y" + "z" == "yz";
    assert Filled(["-"], ["y", "z"]) == "-" + "yz";
    assert Filled(q, args) == "" + "x" + ("-" + "yz") == "x-yz";
    assert HoleFree(q);
    hide *;
    FormatMeaning("{}-", q, args);
  }
}
