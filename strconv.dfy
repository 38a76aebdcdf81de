/**
 * Decimal integer syntax, as Go's strconv package reads it (`Atoi`,
 * `ParseUint(s, 10, 32)`) and writes it (`Itoa`, `%d`).
 */
module Strconv {
  import opened Wrappers

  const MinInt64: int := -0x8000_0000_0000_0000
  const MaxInt64: int := 0x7fff_ffff_ffff_ffff
  const MaxUint32: int := 0xffff_ffff

  /** Go's `int` on a 64-bit platform. */
  type Int64 = x: int | MinInt64 <= x <= MaxInt64

  predicate IsDigit(c: char) {
    '0' <= c <= '9'
  }

  predicate AllDigits(s: string) {
    forall i :: 0 <= i < |s| ==> IsDigit(s[i])
  }

  function DigitValue(c: char): nat
    requires IsDigit(c)
  {
    (c as int) - ('0' as int)
  }

  function DigitChar(d: nat): (c: char)
    requires d < 10
    ensures IsDigit(c) && DigitValue(c) == d
  {
    ('0' as int + d) as char
  }

  /** The value of a string of decimal digits, most significant digit first. */
  function DigitsValue(s: string): nat
    requires AllDigits(s)
  {
    if |s| == 0 then 0 else DigitsValue(s[..|s| - 1]) * 10 + DigitValue(s[|s| - 1])
  }

  /**
   * `strconv.Atoi`: an optional `+` or `-` followed by one or more ASCII
   * digits whose value fits in a 64-bit `int`; anything else is an error
   * (a syntax error or a range error), modelled as `None`.
   */
  function ParseInt(s: string): (r: Option<Int64>)
    ensures r.Some? ==> |s| > 0 && (s[0] == '+' || s[0] == '-' || IsDigit(s[0]))
    ensures r.Some? ==> forall i :: 0 < i < |s| ==> IsDigit(s[i])
    ensures r.Some? && r.value < 0 ==> s[0] == '-'
    ensures |s| > 0 && AllDigits(s) && DigitsValue(s) <= MaxInt64 ==> r == Some(DigitsValue(s))
    ensures (&& |s| > 1 && (s[0] == '+' || s[0] == '-') && AllDigits(s[1..])
             && DigitsValue(s[1..]) <= if s[0] == '-' then -MinInt64 else MaxInt64) ==>
      r == Some(if s[0] == '-' then 0 - DigitsValue(s[1..]) else DigitsValue(s[1..]))
  {
    var signed := |s| > 0 && (s[0] == '+' || s[0] == '-');
    var digits := if signed then s[1..] else s;
    if |digits| == 0 || !AllDigits(digits) then None
    else
      var magnitude: int := DigitsValue(digits);
      var v: int := if signed && s[0] == '-' then -magnitude else magnitude;
      if MinInt64 <= v <= MaxInt64 then Some(v) else None
  }

  /**
   * What `Atoi` accepts, as one condition: an optional sign, then one or
   * more digits whose signed value lies in the int64 range; everything
   * else (a bare sign, any other character, an out-of-range numeral with
   * or without leading zeros) is rejected.
   */
  lemma ParseIntIff(s: string)
    ensures ParseInt(s).Some? <==>
      var signed := |s| > 0 && (s[0] == '+' || s[0] == '-');
      var d := if signed then s[1..] else s;
      |d| > 0 && AllDigits(d) && DigitsValue(d) <= (if signed && s[0] == '-' then -MinInt64 else MaxInt64)
  {
  }

  /**
   * `strconv.ParseUint(s, 10, 32)`: one or more ASCII digits (no sign at
   * all) whose value is below 2^32.
   */
  function ParseUint32(s: string): (r: Option<nat>)
    ensures r.Some? <==> |s| > 0 && AllDigits(s) && DigitsValue(s) <= MaxUint32
    ensures r.Some? ==> r.value == DigitsValue(s)
    ensures r.Some? ==> ParseInt(s) == r
  {
    if |s| == 0 || !AllDigits(s) then None
    else if DigitsValue(s) <= MaxUint32 then Some(DigitsValue(s))
    else None
  }

  /** The shortest decimal form of a natural number (`strconv.Itoa` for n >= 0). */
  function FormatNat(n: nat): (s: string)
    ensures |s| > 0 && AllDigits(s)
    ensures |s| > 1 ==> s[0] != '0'
    decreases n
  {
    if n < 10 then [DigitChar(n)] else FormatNat(n / 10) + [DigitChar(n % 10)]
  }

  /** `strconv.Itoa`, which is also how `%d` prints an int. */
  function FormatInt(n: int): string {
    if n < 0 then "-" + FormatNat(-n) else FormatNat(n)
  }

  lemma {:induction false} ValueOfFormat(n: nat)
    ensures DigitsValue(FormatNat(n)) == n
    decreases n
  {
    if n >= 10 {
      var s := FormatNat(n);
      assert s[..|s| - 1] == FormatNat(n / 10);
      ValueOfFormat(n / 10);
    }
  }

  /** Round trip: `Atoi(Itoa(n)) == n` for every 64-bit int. */
  lemma ParseFormat(n: Int64)
    ensures ParseInt(FormatInt(n)) == Some(n)
  {
    if n < 0 {
      var m: nat := -(n as int);
      ValueOfFormat(m);
      assert FormatInt(n)[1..] == FormatNat(m);
    } else {
      ValueOfFormat(n);
    }
  }

  /** Round trip for the unsigned 32-bit parser. */
  lemma ParseUint32Format(n: nat)
    requires n <= MaxUint32
    ensures ParseUint32(FormatNat(n)) == Some(n)
  {
    ValueOfFormat(n);
  }

  /** A decimal numeral beyond the 64-bit range is a range error, not a wrap-around. */
  lemma ParseIntRejectsOverflow(n: nat)
    requires n > MaxInt64
    ensures ParseInt(FormatNat(n)) == None
    ensures ParseInt("-" + FormatNat(n + 1)) == None
  {
    RejectsAbove(n);
    RejectsBelow(n + 1);
  }

  lemma RejectsAbove(n: nat)
    requires n > MaxInt64
    ensures ParseInt(FormatNat(n)) == None
  {
    ValueOfFormat(n);
    ParseIntIff(FormatNat(n));
  }

  lemma RejectsBelow(m: nat)
    requires m > -MinInt64
    ensures ParseInt("-" + FormatNat(m)) == None
  {
    var t := "-" + FormatNat(m);
    ValueOfFormat(m);
    assert t[1..] == FormatNat(m);
    ParseIntIff(t);
  }

  /** Inputs that fail `Atoi`: empty, a bare sign, a stray character, a space. */
  lemma ParseIntRejects()
    ensures ParseInt("") == None
    ensures ParseInt("-") == None
    ensures ParseInt("12a") == None
    ensures ParseInt(" 7") == None
    ensures ParseInt("1.5") == None
  {
    assert !IsDigit("12a"[2]);
    assert !IsDigit("1.5"[1]);
  }

  /** Inputs `Atoi` accepts: a sign, leading zeros, negative zero. */
  lemma ParseIntAccepts()
    ensures ParseInt("+7") == Some(7)
    ensures ParseInt("-42") == Some(-42)
    ensures ParseInt("007") == Some(7)
    ensures ParseInt("-0") == Some(0)
  {
    assert "+7"[1..] == "7";
    assert "7"[..0] == "";
    assert "-42"[1..] == "42";
    assert "42"[..1] == "4";
    assert "007"[..2] == "00";
    assert "00"[..1] == "0";
    assert "-0"[1..] == "0";
  }

  /** `ParseUint` takes no sign, so a `+` that `Atoi` accepts is refused. */
  lemma ParseUint32RejectsSign()
    ensures ParseUint32("+7") == None
    ensures ParseInt("+7") == Some(7)
  {
    assert !IsDigit("+7"[0]);
    assert "+7"[1..] == "7";
    assert "7"[..0] == "";
  }
}
