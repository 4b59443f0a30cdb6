/**
 * The lexical level of JSON (RFC 8259, sections 2, 6 and 7) over UTF-16 code units. A spelling records
 * every choice the grammar leaves open, so that a text and its spelling determine each other.
 */
module JsonLexical {
  import opened Wrappers
  import opened Octets

  datatype Error =
    | UnexpectedEnd
    | UnexpectedCharacter
    | InvalidLiteral
    | InvalidNumber
    | UnterminatedString
    | InvalidEscape
    | InvalidUnicodeEscape
    | ControlCharacter
    | DuplicateMember(name: Text)
    | Expected(unit: Unit)
    | TrailingContent

  /** What was read from the front of a text, and the text behind it. */
  datatype Read<+T> = Read(value: T, rest: Text)

  type Outcome<+T> = Result<Read<T>, Error>

  const QUOTE: Unit := 34
  const BACKSLASH: Unit := 92

  predicate StartsWith(s: Text, u: Unit) { s != [] && s[0] == u }

  function Prepend<T>(done: seq<T>, r: Outcome<seq<T>>): Outcome<seq<T>> {
    if r.Err? then r else Ok(Read(done + r.value.value, r.value.rest))
  }

  lemma PrependTwice<T>(done: seq<T>, x: T, r: Outcome<seq<T>>)
    ensures Prepend(done, Prepend([x], r)) == Prepend(done + [x], r)
  {
    if r.Ok? { assert done + ([x] + r.value.value) == done + [x] + r.value.value; }
  }

  lemma Regroup(a: Text, b: Text, c: Text)
    ensures a + (b + c) == a + b + c
  {
  }

  lemma Behind(a: Text, rest: Text)
    ensures (a + rest)[|a|..] == rest
  {
  }

  lemma PrependNothing<T>(r: Outcome<seq<T>>)
    ensures Prepend([], r) == r
  {
    if r.Ok? { assert [] + r.value.value == r.value.value; }
  }

  // ---- runs ----

  predicate All(p: Unit -> bool, s: Text) { forall i | 0 <= i < |s| :: p(s[i]) }

  /** The longest prefix whose units all satisfy `p`. */
  function Run(p: Unit -> bool, s: Text): (r: Text)
    ensures |r| <= |s|
  {
    if s != [] && p(s[0]) then [s[0]] + Run(p, s[1..]) else []
  }

  function AfterRun(p: Unit -> bool, s: Text): Text { s[|Run(p, s)|..] }

  lemma {:induction false} RunSplits(p: Unit -> bool, s: Text)
    ensures s == Run(p, s) + AfterRun(p, s) && All(p, Run(p, s))
    ensures AfterRun(p, s) != [] ==> !p(AfterRun(p, s)[0])
  {
    if s != [] && p(s[0]) {
      RunSplits(p, s[1..]);
      assert AfterRun(p, s) == AfterRun(p, s[1..]);
      assert s == [s[0]] + s[1..];
    }
  }

  lemma {:induction false} RunOf(p: Unit -> bool, run: Text, rest: Text)
    requires All(p, run) && (rest != [] ==> !p(rest[0]))
    ensures Run(p, run + rest) == run && AfterRun(p, run + rest) == rest
  {
    if run == [] {
      assert run + rest == rest;
    } else {
      RunOf(p, run[1..], rest);
      assert (run + rest)[1..] == run[1..] + rest;
    }
  }

  predicate IsSpace(u: Unit) { u == 32 || u == 9 || u == 10 || u == 13 }

  predicate IsDigit(u: Unit) { 48 <= u <= 57 }

  // ---- strings ----

  /** One unit of a string as it is spelled: itself, after a backslash, or as four hexadecimal digits. */
  datatype Piece = Plain(unit: Unit) | Escaped(letter: Unit) | Hex(digits: Text)

  /** The letters that may follow a backslash, other than u. */
  predicate IsEscape(u: Unit) { u in [34, 92, 47, 98, 102, 110, 114, 116] }

  function Unescape(letter: Unit): Unit {
    if letter == 98 then 8
    else if letter == 102 then 12
    else if letter == 110 then 10
    else if letter == 114 then 13
    else if letter == 116 then 9
    else letter
  }

  predicate IsHexDigit(u: Unit) { IsDigit(u) || 65 <= u <= 70 || 97 <= u <= 102 }

  function HexDigitValue(u: Unit): (v: nat)
    requires IsHexDigit(u)
    ensures v < 16
  {
    if u <= 57 then u - 48 else if u <= 70 then u - 55 else u - 87
  }

  predicate IsHex4(s: Text) { |s| == 4 && IsHexDigit(s[0]) && IsHexDigit(s[1]) && IsHexDigit(s[2]) && IsHexDigit(s[3]) }

  function HexValue(s: Text): Unit
    requires IsHex4(s)
  {
    HexDigitValue(s[0]) * 4096 + HexDigitValue(s[1]) * 256 + HexDigitValue(s[2]) * 16 + HexDigitValue(s[3])
  }

  predicate GoodPiece(p: Piece) {
    match p
    case Plain(u) => u >= 32 && u != QUOTE && u != BACKSLASH
    case Escaped(u) => IsEscape(u)
    case Hex(digits) => IsHex4(digits)
  }

  function PieceText(p: Piece): (r: Text)
    ensures r != []
  {
    match p
    case Plain(u) => [u]
    case Escaped(u) => [BACKSLASH, u]
    case Hex(digits) => [BACKSLASH, 117] + digits
  }

  function PieceValue(p: Piece): Unit {
    match p
    case Plain(u) => u
    case Escaped(u) => Unescape(u)
    case Hex(digits) => if IsHex4(digits) then HexValue(digits) else 0
  }

  predicate GoodPieces(ps: seq<Piece>) { forall i | 0 <= i < |ps| :: GoodPiece(ps[i]) }

  function PiecesText(ps: seq<Piece>): Text { if ps == [] then [] else PieceText(ps[0]) + PiecesText(ps[1..]) }

  /** The string a spelling stands for. */
  function PiecesValue(ps: seq<Piece>): (r: Text)
    ensures |r| == |ps| && forall i | 0 <= i < |ps| :: r[i] == PieceValue(ps[i])
  {
    seq(|ps|, i requires 0 <= i < |ps| => PieceValue(ps[i]))
  }

  function ReadPiece(s: Text): (r: Outcome<Piece>)
    requires s != []
    ensures r.Ok? ==> |r.value.rest| < |s|
  {
    if s[0] == BACKSLASH then
      if |s| >= 2 && IsEscape(s[1]) then Ok(Read(Escaped(s[1]), s[2..]))
      else if |s| >= 2 && s[1] == 117 then
        if |s| >= 6 && IsHex4(s[2..6]) then Ok(Read(Hex(s[2..6]), s[6..])) else Err(InvalidUnicodeEscape)
      else Err(InvalidEscape)
    else if s[0] < 32 then Err(ControlCharacter)
    else Ok(Read(Plain(s[0]), s[1..]))
  }

  /** Reads up to and over the closing quote. */
  function ReadPieces(s: Text): (r: Outcome<seq<Piece>>)
    ensures r.Ok? ==> |r.value.rest| < |s|
    decreases |s|
  {
    if s == [] then Err(UnterminatedString)
    else if s[0] == QUOTE then Ok(Read([], s[1..]))
    else
      var piece := ReadPiece(s);
      if piece.Err? then Err(piece.error) else Prepend([piece.value.value], ReadPieces(piece.value.rest))
  }

  lemma PieceSound(s: Text, p: Piece, rest: Text)
    requires s != [] && s[0] != QUOTE && ReadPiece(s) == Ok(Read(p, rest))
    ensures GoodPiece(p) && s == PieceText(p) + rest
  {
  }

  lemma PieceComplete(p: Piece, rest: Text)
    requires GoodPiece(p)
    ensures !StartsWith(PieceText(p) + rest, QUOTE) && ReadPiece(PieceText(p) + rest) == Ok(Read(p, rest))
  {
    var s := PieceText(p) + rest;
    match p {
      case Plain(u) => assert s[1..] == rest;
      case Escaped(u) => assert s[2..] == rest;
      case Hex(digits) =>
        assert s[2..6] == digits;
        assert s[6..] == rest;
    }
  }

  /** A string that is read is spelled by the pieces that are read. */
  lemma {:induction false} PiecesSound(s: Text, ps: seq<Piece>, rest: Text)
    requires ReadPieces(s) == Ok(Read(ps, rest))
    ensures GoodPieces(ps) && s == PiecesText(ps) + [QUOTE] + rest
    decreases |s|
  {
    if s[0] == QUOTE {
      assert s == [QUOTE] + rest;
    } else {
      var piece := ReadPiece(s).value;
      var tail := ReadPieces(piece.rest).value;
      assert ps == [piece.value] + tail.value;
      PieceSound(s, piece.value, piece.rest);
      PiecesSound(piece.rest, tail.value, rest);
      PiecesTextCons(piece.value, tail.value, rest);
    }
  }

  lemma PiecesTextCons(p: Piece, ps: seq<Piece>, rest: Text)
    ensures PiecesText([p] + ps) + [QUOTE] + rest == PieceText(p) + (PiecesText(ps) + [QUOTE] + rest)
  {
    assert ([p] + ps)[1..] == ps;
    Regroup(PieceText(p), PiecesText(ps) + [QUOTE], rest);
    Regroup(PieceText(p), PiecesText(ps), [QUOTE]);
  }

  /** Every spelling of a string is read back as itself. */
  lemma {:induction false} PiecesComplete(ps: seq<Piece>, rest: Text)
    requires GoodPieces(ps)
    ensures ReadPieces(PiecesText(ps) + [QUOTE] + rest) == Ok(Read(ps, rest))
  {
    if ps == [] {
      assert PiecesText(ps) + [QUOTE] + rest == [QUOTE] + rest;
      Behind([QUOTE], rest);
    } else {
      var tail := PiecesText(ps[1..]) + [QUOTE] + rest;
      assert [ps[0]] + ps[1..] == ps;
      PiecesTextCons(ps[0], ps[1..], rest);
      PieceComplete(ps[0], tail);
      PiecesComplete(ps[1..], rest);
    }
  }

  // ---- numbers ----

  /** The exponent's letter, its sign if any, and its digits. */
  datatype Exponent = Exponent(letter: Unit, sign: Text, digits: Text)

  /** A number as it is spelled; an empty fraction stands for none. */
  datatype Number = Number(minus: bool, whole: Text, fraction: Text, exponent: Option<Exponent>)

  predicate GoodExponent(e: Exponent) {
    && (e.letter == 101 || e.letter == 69) && (e.sign == [] || e.sign == [43] || e.sign == [45])
    && e.digits != [] && All(IsDigit, e.digits)
  }

  predicate GoodNumber(n: Number) {
    && n.whole != [] && All(IsDigit, n.whole) && (n.whole[0] == 48 ==> n.whole == [48])
    && All(IsDigit, n.fraction)
    && (n.exponent.Some? ==> GoodExponent(n.exponent.value))
  }

  function MinusText(minus: bool): Text { if minus then [45] else [] }

  function FractionText(fraction: Text): Text { if fraction == [] then [] else [46] + fraction }

  function ExponentText(e: Option<Exponent>): Text {
    if e.None? then [] else [e.value.letter] + e.value.sign + e.value.digits
  }

  function NumberText(n: Number): Text {
    MinusText(n.minus) + (n.whole + (FractionText(n.fraction) + ExponentText(n.exponent)))
  }

  /** `0` or a run of digits that does not start with it; empty if there is none. */
  function WholeRun(s: Text): (r: Text)
    ensures |r| <= |s|
  {
    if StartsWith(s, 48) then [48] else Run(IsDigit, s)
  }

  /** The digits of `.digits` in front, if there are any. */
  function FractionRun(s: Text): (r: Text)
    ensures r != [] ==> |r| + 1 <= |s|
  {
    if StartsWith(s, 46) then Run(IsDigit, s[1..]) else []
  }

  function SignRun(s: Text): (r: Text)
    ensures |r| <= |s|
  {
    if StartsWith(s, 43) || StartsWith(s, 45) then s[..1] else []
  }

  function ExponentRun(s: Text): (r: Option<Exponent>)
    ensures |ExponentText(r)| <= |s|
  {
    if s != [] && (s[0] == 101 || s[0] == 69) then
      var sign := SignRun(s[1..]);
      var digits := Run(IsDigit, s[1..][|sign|..]);
      if digits == [] then None else Some(Exponent(s[0], sign, digits))
    else None
  }

  /** The longest match of the number pattern in front of `s`. */
  function ReadNumber(s: Text): (r: Outcome<Number>)
    ensures r.Ok? ==> |r.value.rest| < |s|
  {
    var minus := StartsWith(s, 45);
    var s1 := if minus then s[1..] else s;
    var whole := WholeRun(s1);
    if whole == [] then Err(InvalidNumber)
    else
      var s2 := s1[|whole|..];
      var fraction := FractionRun(s2);
      var s3 := s2[|FractionText(fraction)|..];
      var exponent := ExponentRun(s3);
      Ok(Read(Number(minus, whole, fraction, exponent), s3[|ExponentText(exponent)|..]))
  }

  lemma WholeSound(s: Text)
    ensures s == WholeRun(s) + s[|WholeRun(s)|..] && All(IsDigit, WholeRun(s))
    ensures WholeRun(s) != [] && WholeRun(s)[0] == 48 ==> WholeRun(s) == [48]
  {
    RunSplits(IsDigit, s);
  }

  lemma FractionSound(s: Text)
    ensures s == FractionText(FractionRun(s)) + s[|FractionText(FractionRun(s))|..] && All(IsDigit, FractionRun(s))
  {
    if StartsWith(s, 46) { RunSplits(IsDigit, s[1..]); }
  }

  lemma ExponentSound(s: Text, e: Exponent)
    requires ExponentRun(s) == Some(e)
    ensures GoodExponent(e) && |ExponentText(Some(e))| <= |s| && s == ExponentText(Some(e)) + s[|ExponentText(Some(e))|..]
  {
    var digits := Run(IsDigit, s[1..][|e.sign|..]);
    RunSplits(IsDigit, s[1..][|e.sign|..]);
    assert s[1..] == e.sign + s[1..][|e.sign|..];
    assert s == [s[0]] + s[1..];
    Regroup([s[0]], e.sign, s[1..][|e.sign|..]);
    Regroup([s[0]] + e.sign, digits, AfterRun(IsDigit, s[1..][|e.sign|..]));
  }

  /** A number that is read is spelled by what is read. */
  lemma NumberSound(s: Text, n: Number, rest: Text)
    requires ReadNumber(s) == Ok(Read(n, rest))
    ensures GoodNumber(n) && s == NumberText(n) + rest
  {
    var s1 := if n.minus then s[1..] else s;
    WholeSound(s1);
    var s2 := s1[|n.whole|..];
    FractionSound(s2);
    var s3 := s2[|FractionText(n.fraction)|..];
    ExponentKept(s3, n.exponent);
    assert s3[|ExponentText(n.exponent)|..] == rest;
    MinusKept(s, n.minus);
    NumberParts(n, rest);
  }

  lemma ExponentKept(s: Text, e: Option<Exponent>)
    requires ExponentRun(s) == e
    ensures (e.Some? ==> GoodExponent(e.value)) && |ExponentText(e)| <= |s| && s == ExponentText(e) + s[|ExponentText(e)|..]
  {
    if e.Some? { ExponentSound(s, e.value); }
  }

  lemma MinusKept(s: Text, minus: bool)
    requires minus == StartsWith(s, 45)
    ensures s == MinusText(minus) + if minus then s[1..] else s
  {
  }

  lemma NumberParts(n: Number, rest: Text)
    ensures NumberText(n) + rest == MinusText(n.minus) + (n.whole + (FractionText(n.fraction) + (ExponentText(n.exponent) + rest)))
  {
    Regroup(FractionText(n.fraction), ExponentText(n.exponent), rest);
    Regroup(n.whole, FractionText(n.fraction) + ExponentText(n.exponent), rest);
    Regroup(MinusText(n.minus), n.whole + (FractionText(n.fraction) + ExponentText(n.exponent)), rest);
  }

  /** No unit that could make a number longer comes next. */
  predicate EndsNumber(rest: Text) { rest != [] ==> !IsDigit(rest[0]) && rest[0] != 46 && rest[0] != 101 && rest[0] != 69 }

  lemma ExponentComplete(e: Exponent, rest: Text)
    requires GoodExponent(e) && EndsNumber(rest)
    ensures ExponentRun(ExponentText(Some(e)) + rest) == Some(e)
  {
    var s := ExponentText(Some(e)) + rest;
    Regroup([e.letter] + e.sign, e.digits, rest);
    Regroup([e.letter], e.sign, e.digits + rest);
    Behind([e.letter], e.sign + (e.digits + rest));
    Behind(e.sign, e.digits + rest);
    SignOf(e, rest);
    RunOf(IsDigit, e.digits, rest);
  }

  lemma SignOf(e: Exponent, rest: Text)
    requires GoodExponent(e)
    ensures SignRun(e.sign + (e.digits + rest)) == e.sign
  {
  }

  lemma FractionComplete(fraction: Text, rest: Text)
    requires All(IsDigit, fraction) && (rest != [] ==> !IsDigit(rest[0]) && rest[0] != 46)
    ensures FractionRun(FractionText(fraction) + rest) == fraction
    ensures (FractionText(fraction) + rest)[|FractionText(fraction)|..] == rest
  {
    var s := FractionText(fraction) + rest;
    if fraction != [] {
      assert s[1..] == fraction + rest;
      RunOf(IsDigit, fraction, rest);
    } else {
      assert s == rest;
    }
  }

  lemma WholeComplete(whole: Text, rest: Text)
    requires whole != [] && All(IsDigit, whole) && (whole[0] == 48 ==> whole == [48]) && (rest != [] ==> !IsDigit(rest[0]))
    ensures WholeRun(whole + rest) == whole && (whole + rest)[|whole|..] == rest && IsDigit((whole + rest)[0])
  {
    if whole[0] != 48 { RunOf(IsDigit, whole, rest); }
  }

  lemma FollowedByExponent(e: Option<Exponent>, rest: Text)
    requires (e.Some? ==> GoodExponent(e.value)) && EndsNumber(rest)
    ensures var s := ExponentText(e) + rest; s != [] ==> !IsDigit(s[0]) && s[0] != 46
    ensures ExponentRun(ExponentText(e) + rest) == e
  {
    if e.Some? {
      ExponentComplete(e.value, rest);
    } else {
      assert ExponentText(e) + rest == rest;
    }
  }

  lemma FollowedByFraction(fraction: Text, s: Text)
    requires All(IsDigit, fraction) && (s != [] ==> !IsDigit(s[0]))
    ensures var t := FractionText(fraction) + s; t != [] ==> !IsDigit(t[0])
  {
    if fraction == [] { assert FractionText(fraction) + s == s; }
  }

  lemma Signed(minus: bool, s: Text)
    requires s != [] && IsDigit(s[0])
    ensures StartsWith(MinusText(minus) + s, 45) == minus && (MinusText(minus) + s)[|MinusText(minus)|..] == s
  {
  }

  /** Every spelling of a number is read back as itself, when nothing that could extend it follows. */
  lemma NumberComplete(n: Number, rest: Text)
    requires GoodNumber(n) && EndsNumber(rest)
    ensures ReadNumber(NumberText(n) + rest) == Ok(Read(n, rest))
  {
    var s3 := ExponentText(n.exponent) + rest;
    var s2 := FractionText(n.fraction) + s3;
    NumberParts(n, rest);
    FollowedByExponent(n.exponent, rest);
    FractionComplete(n.fraction, s3);
    FollowedByFraction(n.fraction, s3);
    WholeComplete(n.whole, s2);
    Signed(n.minus, n.whole + s2);
    Behind(ExponentText(n.exponent), rest);
  }
}
