/**
 * Go's `strconv.ParseInt(s, 10, 64)` and `strconv.FormatInt(n, 10)` (the latter is also
 * what `fmt.Sprintf("%d", n)` prints), plus the `strings` helpers the bot uses:
 * `SplitN(s, " ", 2)` and `Index(s, ":")` on command arguments, `Join` on message lines.
 */
module Strconv {
  import opened Basics

  const MaxUint64: int := 0xFFFF_FFFF_FFFF_FFFF
  const MaxInt64: int := 0x7FFF_FFFF_FFFF_FFFF
  const MinInt64: int := -0x8000_0000_0000_0000

  /** Go's base-10 cutoff: the smallest n with n * 10 > MaxUint64. */
  const Cutoff: int := MaxUint64 / 10 + 1

  predicate IsDigit(c: char) { '0' <= c <= '9' }

  function DigitValue(c: char): (d: nat)
    requires IsDigit(c)
    ensures d < 10
  {
    c as int - '0' as int
  }

  function DigitChar(d: nat): (c: char)
    requires d < 10
    ensures IsDigit(c) && DigitValue(c) == d
  {
    ('0' as int + d) as char
  }

  predicate AllDigits(s: string) {
    forall i :: 0 <= i < |s| ==> IsDigit(s[i])
  }

  /** Reference meaning of a digit string: the number it denotes, read left to right from `acc`. */
  function DecimalFrom(acc: nat, s: string): nat
    requires AllDigits(s)
    decreases |s|
  {
    if s == [] then acc else DecimalFrom(acc * 10 + DigitValue(s[0]), s[1..])
  }

  function Decimal(s: string): nat
    requires AllDigits(s)
  {
    DecimalFrom(0, s)
  }

  /** Outcome of the unsigned digit loop of `strconv.ParseUint`. */
  datatype UintParse = UParsed(n: nat) | USyntax | URange

  /**
   * The digit loop of `strconv.ParseUint` for base 10 and 64 bits: a non-digit is a syntax
   * error, and the first step that would overflow 64 bits is a range error, whatever follows.
   */
  function ParseDigits(n: nat, s: string): UintParse
    decreases |s|
  {
    if s == [] then UParsed(n)
    else if !IsDigit(s[0]) then USyntax
    else if n >= Cutoff then URange
    else if n * 10 + DigitValue(s[0]) > MaxUint64 then URange
    else ParseDigits(n * 10 + DigitValue(s[0]), s[1..])
  }

  lemma {:induction false} DecimalFromGrows(acc: nat, s: string)
    requires AllDigits(s)
    ensures DecimalFrom(acc, s) >= acc
    ensures s != [] ==> DecimalFrom(acc, s) >= acc * 10 + DigitValue(s[0])
    decreases |s|
  {
    if s != [] {
      DecimalFromGrows(acc * 10 + DigitValue(s[0]), s[1..]);
    }
  }

  /** The digit loop succeeds exactly on all-digit strings whose value fits in 64 bits. */
  lemma {:induction false} ParseDigitsMeaning(n: nat, s: string)
    requires n <= MaxUint64
    ensures ParseDigits(n, s).UParsed? <==> AllDigits(s) && DecimalFrom(n, s) <= MaxUint64
    ensures ParseDigits(n, s).UParsed? ==> ParseDigits(n, s).n == DecimalFrom(n, s)
    decreases |s|
  {
    if s != [] {
      if !IsDigit(s[0]) {
        assert !AllDigits(s);
      } else if n >= Cutoff || n * 10 + DigitValue(s[0]) > MaxUint64 {
        if AllDigits(s) {
          DecimalFromGrows(n, s);
        }
      } else {
        ParseDigitsMeaning(n * 10 + DigitValue(s[0]), s[1..]);
        assert AllDigits(s) <==> AllDigits(s[1..]) by {
          if AllDigits(s[1..]) {
            forall i | 0 <= i < |s| ensures IsDigit(s[i]) {
              if i > 0 { assert s[i] == s[1..][i - 1]; }
            }
          }
        }
      }
    }
  }

  /** What `strconv.ParseInt` returns: a value, or a syntax or range error. */
  datatype IntParse = Parsed(value: int) | SyntaxError | RangeError(clamped: int) {

    /** The integer Go hands back alongside the error: 0 for syntax errors, the clamp for range errors. */
    function GoValue(): int {
      match this
      case Parsed(v) => v
      case SyntaxError => 0
      case RangeError(c) => c
    }
  }

  /** The magnitude part of `s` after at most one leading sign. */
  function Unsigned(s: string): string {
    if |s| > 0 && (s[0] == '+' || s[0] == '-') then s[1..] else s
  }

  predicate Negative(s: string) { |s| > 0 && s[0] == '-' }

  /** `strconv.ParseInt(s, 10, 64)`. */
  function ParseInt(s: string): (r: IntParse)
    ensures r.Parsed? ==> MinInt64 <= r.value <= MaxInt64
    ensures r.RangeError? ==> r.clamped == (if Negative(s) then MinInt64 else MaxInt64)
  {
    if s == "" then SyntaxError
    else
      var neg := Negative(s);
      var digits := Unsigned(s);
      var un := if digits == "" then USyntax else ParseDigits(0, digits);
      match un
      case USyntax => SyntaxError
      case URange => if neg then RangeError(MinInt64) else RangeError(MaxInt64)
      case UParsed(u) =>
        if !neg && u >= -MinInt64 then RangeError(MaxInt64)
        else if neg && u > -MinInt64 then RangeError(MinInt64)
        else if neg then Parsed(-(u as int)) else Parsed(u)
  }

  /** Reference description of the strings ParseInt accepts: optional sign, then digits in range. */
  predicate DenotesInt64(s: string, v: int) {
    var d := Unsigned(s);
    && d != ""
    && AllDigits(d)
    && v == (if Negative(s) then -(Decimal(d) as int) else Decimal(d))
    && MinInt64 <= v <= MaxInt64
  }

  /** ParseInt succeeds exactly on the strings that denote a 64-bit integer, with that value. */
  lemma ParseIntMeaning(s: string)
    ensures ParseInt(s).Parsed? <==> exists v :: DenotesInt64(s, v)
    ensures ParseInt(s).Parsed? ==> DenotesInt64(s, ParseInt(s).value)
  {
    var d := Unsigned(s);
    if d == "" {
      assert forall v :: !DenotesInt64(s, v);
    } else {
      ParseDigitsMeaning(0, d);
      if ParseInt(s).Parsed? {
        assert DenotesInt64(s, ParseInt(s).value);
      } else {
        assert forall v :: !DenotesInt64(s, v);
      }
    }
  }

  /** ParseInt fails exactly on the strings that denote no 64-bit integer. */
  lemma ParseIntRejects(s: string)
    ensures !ParseInt(s).Parsed? <==> forall v :: !DenotesInt64(s, v)
  {
    ParseIntMeaning(s);
    if ParseInt(s).Parsed? {
      assert DenotesInt64(s, ParseInt(s).value);
    }
  }

  /** Decimal digits of a natural number, most significant first, without leading zeros. */
  function NatDigits(n: nat): (s: string)
    ensures |s| > 0 && AllDigits(s)
    ensures |s| > 1 ==> s[0] != '0'
  {
    if n < 10 then [DigitChar(n)] else NatDigits(n / 10) + [DigitChar(n % 10)]
  }

  /** `strconv.FormatInt(n, 10)`. */
  function FormatInt(n: int): (s: string)
    ensures |s| > 0 && (s[0] == '-' <==> n < 0)
    ensures AllDigits(if n < 0 then s[1..] else s) && |if n < 0 then s[1..] else s| > 0
    ensures |s| > 1 && n >= 0 ==> s[0] != '0'
  {
    if n < 0 then "-" + NatDigits(-n) else NatDigits(n)
  }

  lemma {:induction false} DecimalFromSnoc(acc: nat, s: string, c: char)
    requires AllDigits(s) && IsDigit(c)
    ensures AllDigits(s + [c])
    ensures DecimalFrom(acc, s + [c]) == DecimalFrom(acc, s) * 10 + DigitValue(c)
    decreases |s|
  {
    if s != [] {
      assert (s + [c])[1..] == s[1..] + [c];
      DecimalFromSnoc(acc * 10 + DigitValue(s[0]), s[1..], c);
    }
  }

  lemma {:induction false} NatDigitsValue(n: nat)
    ensures Decimal(NatDigits(n)) == n
  {
    if n >= 10 {
      var c := DigitChar(n % 10);
      assert NatDigits(n) == NatDigits(n / 10) + [c];
      NatDigitsValue(n / 10);
      DecimalFromSnoc(0, NatDigits(n / 10), c);
      assert Decimal(NatDigits(n)) == (n / 10) * 10 + n % 10;
    } else {
      var c := DigitChar(n);
      assert NatDigits(n) == [c] && [c][1..] == [];
      assert Decimal([c]) == DecimalFrom(n, []);
    }
  }

  /** Round trip: every 64-bit integer printed by FormatInt parses back to itself. */
  lemma FormatParseRoundTrip(n: int)
    requires MinInt64 <= n <= MaxInt64
    ensures ParseInt(FormatInt(n)) == Parsed(n)
  {
    var s := FormatInt(n);
    var m: nat := if n < 0 then -n else n;
    NatDigitsValue(m);
    assert Unsigned(s) == NatDigits(m);
    ParseDigitsMeaning(0, NatDigits(m));
  }

  /** `strings.SplitN(s, sep, 2)` for a one-character separator. */
  function SplitFirst(s: string, sep: char): (parts: seq<string>)
    ensures 1 <= |parts| <= 2
    ensures |parts| == 1 <==> sep !in s
    ensures |parts| == 1 ==> parts[0] == s
    ensures |parts| == 2 ==> parts[0] + [sep] + parts[1] == s && sep !in parts[0]
  {
    match IndexOf(s, sep)
    case None => [s]
    case Some(i) => [s[..i], s[i + 1..]]
  }

  /** `strings.Index(s, string(c))`: the first position of `c` in `s`, if any. */
  function IndexOf(s: string, c: char): (r: Option<nat>)
    ensures r.None? <==> c !in s
    ensures r.Some? ==> r.value < |s| && s[r.value] == c && c !in s[..r.value]
  {
    if s == [] then None
    else if s[0] == c then Some(0)
    else match IndexOf(s[1..], c)
      case None => None
      case Some(i) => assert s[..i + 1] == [s[0]] + s[1..][..i]; Some(i + 1)
  }

  /** `strings.Join(lines, sep)`. */
  function Join(lines: seq<string>, sep: string): string {
    if |lines| == 0 then ""
    else if |lines| == 1 then lines[0]
    else lines[0] + sep + Join(lines[1..], sep)
  }

  /** Joining two lines puts the separator between them. */
  lemma JoinTwo(a: string, b: string, sep: string)
    ensures Join([a, b], sep) == a + sep + b
  {
    assert [a, b][1..] == [b];
  }

  /** Joining three lines puts the separator between each neighbouring pair. */
  lemma JoinThree(a: string, b: string, c: string, sep: string)
    ensures Join([a, b, c], sep) == a + sep + b + sep + c
  {
    assert [a, b, c][1..] == [b, c];
    JoinTwo(b, c, sep);
  }

  /** A printed integer holds only digits and perhaps a leading minus sign. */
  lemma FormatIntChars(n: int, c: char)
    requires !IsDigit(c) && c != '-'
    ensures c !in FormatInt(n)
  {
    var m: nat := if n < 0 then -n else n;
    assert AllDigits(NatDigits(m));
  }

  /** `SplitN(w + sep + rest, sep, 2)` gives back `w` and `rest` when `w` holds no separator. */
  lemma SplitFirstOf(w: string, sep: char, rest: string)
    requires sep !in w
    ensures SplitFirst(w + [sep] + rest, sep) == [w, rest]
  {
    var s := w + [sep] + rest;
    assert s[|w|] == sep;
    var i := IndexOf(s, sep).value;
    assert i == |w|;
    assert s[..i] == w && s[i + 1..] == rest;
  }
}
