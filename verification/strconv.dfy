/** The parts of Go's `strconv` package the contract calls: `ParseUint(s, 10, 64)`
    for the owner's age and the capacity, `ParseInt(s, 10, 64)` for the amount
    deltas, and `Itoa` for owner keys. Parsing is modelled as Go performs it:
    one left-to-right scan that stops at the first bad digit or at the first
    overflow, whichever comes first. */
module Strconv {
  import opened GoInts

  predicate IsDigit(c: char) {
    '0' <= c <= '9'
  }

  function DigitValue(c: char): nat
    requires IsDigit(c)
  {
    c as int - '0' as int
  }

  function DigitChar(d: nat): (c: char)
    requires d < 10
    ensures IsDigit(c) && DigitValue(c) == d
  {
    ('0' as int + d) as char
  }

  predicate AllDigits(s: string) {
    forall i :: 0 <= i < |s| ==> IsDigit(s[i])
  }

  /** The number a digit string denotes, most significant digit first. */
  function DecimalValue(s: string): nat
    requires AllDigits(s)
  {
    if s == [] then 0 else 10 * DecimalValue(s[..|s| - 1]) + DigitValue(s[|s| - 1])
  }

  /** Outcome of `ParseUint(s, 10, 64)`: a value, or the kind of `*NumError`. */
  datatype UintParse = Parsed(value: Uint64) | SyntaxError | RangeError

  /** Go's `maxUint64/10 + 1`: from this accumulator on, `n*10` overflows. */
  const Cutoff: int := MaxUint64 / 10 + 1

  /** The digit loop of `ParseUint`, from position i with accumulator n. */
  function ScanUint(s: string, i: nat, n: Uint64): UintParse
    requires i <= |s|
    decreases |s| - i
  {
    if i == |s| then Parsed(n)
    else if !IsDigit(s[i]) then SyntaxError
    else if n >= Cutoff then RangeError
    else
      var n1 := n * 10 + DigitValue(s[i]);
      if n1 > MaxUint64 then RangeError else ScanUint(s, i + 1, n1)
  }

  /** `strconv.ParseUint(s, 10, 64)`: no sign, no underscores, no prefix. */
  function ParseUint(s: string): UintParse {
    if s == [] then SyntaxError else ScanUint(s, 0, 0)
  }

  /** Length of the longest all-digit prefix of s. */
  function DigitPrefixLength(s: string): (p: nat)
    ensures p <= |s| && AllDigits(s[..p])
    ensures p < |s| ==> !IsDigit(s[p])
  {
    if s == [] || !IsDigit(s[0]) then 0
    else
      var p' := DigitPrefixLength(s[1..]);
      assert s[..1 + p'] == [s[0]] + s[1..][..p'];
      1 + p'
  }

  /** Reference description of `ParseUint`, independent of the scan: a range
      error when the leading run of digits already exceeds 2^64-1, otherwise
      a syntax error when anything but digits follows (or s is empty),
      otherwise the decimal value. */
  function ParseUintSpec(s: string): UintParse {
    var p := DigitPrefixLength(s);
    if DecimalValue(s[..p]) > MaxUint64 then RangeError
    else if s == [] || p < |s| then SyntaxError
    else Parsed(DecimalValue(s[..p]))
  }

  /** Appending digits never makes the value smaller. */
  lemma {:induction false} DecimalValuePrefix(t: string, j: nat)
    requires AllDigits(t) && j <= |t|
    ensures AllDigits(t[..j]) && DecimalValue(t[..j]) <= DecimalValue(t)
    decreases |t|
  {
    if j < |t| {
      var t' := t[..|t| - 1];
      assert t'[..j] == t[..j];
      DecimalValuePrefix(t', j);
    } else {
      assert t[..j] == t;
    }
  }

  lemma DecimalValueSnoc(s: string, i: nat)
    requires i < |s| && AllDigits(s[..i]) && IsDigit(s[i])
    ensures AllDigits(s[..i + 1])
    ensures DecimalValue(s[..i + 1]) == 10 * DecimalValue(s[..i]) + DigitValue(s[i])
  {
    assert s[..i + 1][..i] == s[..i];
  }

  lemma {:induction false} ScanMatchesSpec(s: string, i: nat)
    requires i <= |s| && AllDigits(s[..i]) && DecimalValue(s[..i]) <= MaxUint64
    ensures var p := DigitPrefixLength(s);
            ScanUint(s, i, DecimalValue(s[..i])) ==
              if DecimalValue(s[..p]) > MaxUint64 then RangeError
              else if p < |s| then SyntaxError
              else Parsed(DecimalValue(s[..p]))
    decreases |s| - i
  {
    var p := DigitPrefixLength(s);
    var n := DecimalValue(s[..i]);
    assert i <= p;
    if i == |s| {
      assert s[..i] == s;
    } else if !IsDigit(s[i]) {
      assert p == i;
    } else {
      DecimalValueSnoc(s, i);
      var n1 := n * 10 + DigitValue(s[i]);
      assert i + 1 <= p;
      assert s[..p][..i + 1] == s[..i + 1];
      DecimalValuePrefix(s[..p], i + 1);
      if n >= Cutoff || n1 > MaxUint64 {
        assert n1 > MaxUint64;
      } else {
        ScanMatchesSpec(s, i + 1);
      }
    }
  }

  /** The scan Go performs agrees with the reference description on every string. */
  lemma ParseUintMeetsSpec(s: string)
    ensures ParseUint(s) == ParseUintSpec(s)
  {
    if s != [] {
      assert s[..0] == [];
      ScanMatchesSpec(s, 0);
    }
  }

  /** A non-empty digit string parses to its value exactly when that value fits. */
  lemma ParseUintDigits(s: string)
    requires s != [] && AllDigits(s)
    ensures DecimalValue(s) <= MaxUint64 ==> ParseUint(s) == Parsed(DecimalValue(s))
    ensures DecimalValue(s) > MaxUint64 ==> ParseUint(s) == RangeError
  {
    ParseUintMeetsSpec(s);
    var p := DigitPrefixLength(s);
    assert p == |s|;
    assert s[..p] == s;
  }

  /** The error part of `ParseInt`'s result, as far as the contract can tell. */
  datatype NumError = NoError | Syntax | Range

  datatype IntParse = IntParse(value: Int64, err: NumError)

  /** The text after an optional leading '+' or '-'. */
  function Unsigned(s: string): (body: string)
    ensures |body| <= |s|
  {
    if s != [] && (s[0] == '+' || s[0] == '-') then s[1..] else s
  }

  /** `strconv.ParseInt(s, 10, 64)`: an optional sign, then `ParseUint` on the
      rest; a syntax error yields 0, a range error yields the bound on the
      side of the sign, as Go returns it alongside the error. */
  function ParseInt(s: string): (r: IntParse)
    ensures r.err == Syntax ==> r.value == 0
    ensures r.err == Range ==> s != [] && r.value == (if s[0] == '-' then MinInt64 else MaxInt64)
    ensures r.err == NoError ==> s != [] && (s[0] == '-' ==> r.value <= 0) && (s[0] != '-' ==> r.value >= 0)
  {
    if s == [] then IntParse(0, Syntax)
    else
      var neg := s[0] == '-';
      var body := Unsigned(s);
      match ParseUint(body)
      case SyntaxError => IntParse(0, Syntax)
      case RangeError => if neg then IntParse(MinInt64, Range) else IntParse(MaxInt64, Range)
      case Parsed(un) =>
        if !neg && un >= -MinInt64 then IntParse(MaxInt64, Range)
        else if neg && un > -MinInt64 then IntParse(MinInt64, Range)
        else
          var v: int := un;
          IntParse(if neg then -v else v, NoError)
  }

  /** Reference description of `ParseInt`, in terms of the digits after the
      sign: their leading run decides a range error first (beyond 2^64-1),
      then anything else in the text is a syntax error, then a value outside
      int64 on the side of the sign is a range error, and otherwise the value
      is the signed decimal value of the digits. */
  function ParseIntSpec(s: string): IntParse {
    var body := Unsigned(s);
    var p := DigitPrefixLength(body);
    var mag: int := DecimalValue(body[..p]);
    var neg := s != [] && s[0] == '-';
    var bound := if neg then MinInt64 else MaxInt64;
    if mag > MaxUint64 then IntParse(bound, Range)
    else if body == [] || p < |body| then IntParse(0, Syntax)
    else if (neg && mag > -MinInt64) || (!neg && mag > MaxInt64) then IntParse(bound, Range)
    else IntParse(if neg then -mag else mag, NoError)
  }

  /** Go's `ParseInt` agrees with the reference description on every string,
      signed, unsigned, with leading zeros or not. */
  lemma ParseIntMeetsSpec(s: string)
    ensures ParseInt(s) == ParseIntSpec(s)
  {
    var body := Unsigned(s);
    ParseUintMeetsSpec(body);
  }

  /** A successful parse is the signed decimal value of the digits after the
      sign, which are non-empty and all digits; and such a text whose value
      fits in int64 always parses. */
  lemma ParseIntValue(s: string)
    ensures var body := Unsigned(s);
            ParseInt(s).err == NoError ==>
              && body != [] && AllDigits(body)
              && ParseInt(s).value == (if s[0] == '-' then -(DecimalValue(body) as int) else DecimalValue(body))
    ensures var body := Unsigned(s);
            body != [] && AllDigits(body) && (if s[0] == '-' then DecimalValue(body) <= -MinInt64 else DecimalValue(body) <= MaxInt64) ==>
              ParseInt(s) == IntParse(if s[0] == '-' then -(DecimalValue(body) as int) else DecimalValue(body), NoError)
  {
    var body := Unsigned(s);
    ParseIntMeetsSpec(s);
    if body != [] && AllDigits(body) {
      assert DigitPrefixLength(body) == |body|;
      assert body[..|body|] == body;
    }
  }

  /** Texts the amount deltas may carry that `Itoa` never produces. */
  lemma NonCanonicalDeltas()
    ensures ParseInt("+5") == IntParse(5, NoError)
    ensures ParseInt("007") == IntParse(7, NoError)
    ensures ParseInt("-0") == IntParse(0, NoError)
    ensures ParseInt("5a") == IntParse(0, Syntax)
    ensures ParseInt("-") == IntParse(0, Syntax)
  {
    ParseIntValue("+5");
    ParseIntValue("007");
    ParseIntValue("-0");
    ParseIntMeetsSpec("5a");
  }

  /** Decimal digits of n, without sign or leading zeros. */
  function Digits(n: nat): (r: string)
    ensures r != [] && AllDigits(r) && DecimalValue(r) == n
    ensures IsDigit(r[0])
    decreases n
  {
    if n < 10 then [DigitChar(n)]
    else
      var r := Digits(n / 10) + [DigitChar(n % 10)];
      assert r[..|r| - 1] == Digits(n / 10);
      r
  }

  /** `strconv.Itoa` on a 64-bit int. */
  function Itoa(n: Int64): string {
    var m: int := n;
    if m < 0 then "-" + Digits(-m) else Digits(m)
  }

  /** Itoa and ParseInt are inverse: every int64 survives formatting and parsing. */
  lemma ParseIntItoa(n: Int64)
    ensures ParseInt(Itoa(n)) == IntParse(n, NoError)
  {
    var s := Itoa(n);
    var m: int := n;
    if m < 0 {
      assert s[1..] == Digits(-m);
      ParseUintDigits(Digits(-m));
    } else {
      ParseUintDigits(Digits(n));
    }
  }

  /** Distinct owner ids never share a key string. */
  lemma ItoaInjective(m: Int64, n: Int64)
    requires Itoa(m) == Itoa(n)
    ensures m == n
  {
    ParseIntItoa(m);
    ParseIntItoa(n);
  }

  /** A digit string too large for int64 is clamped to MaxInt64, whose int32
      truncation is -1: an overlong positive delta acts as a decrement. */
  lemma OverlongPositiveIsMinusOne(s: string)
    requires s != [] && AllDigits(s) && DecimalValue(s) > MaxInt64
    ensures ParseInt(s) == IntParse(MaxInt64, Range)
    ensures Wrap32(ParseInt(s).value) == -1
  {
    assert IsDigit(s[0]);
    ParseUintDigits(s);
    MaxInt64TruncatesToMinusOne();
  }
}
