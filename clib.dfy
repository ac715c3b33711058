/** The pieces of the C library and of the project's string utilities that the
    configuration code leans on: NUL-terminated strings, ASCII case-insensitive
    comparison (util::strieq), strchr, and the decimal conversions strtoul and
    strtol as glibc performs them on an LP64 platform.
 */
module CLib {

  datatype Option<+T> = None | Some(value: T)

  /* ---------------------------------------------------------------------------
   * NUL-terminated strings
   * ------------------------------------------------------------------------- */

  /** The contents of a `const char *`: text that holds no NUL, the NUL being
      the terminator. */
  predicate CString(s: string) {
    '\0' !in s
  }

  /** What a C function sees when it is handed a buffer holding `s`: everything
      before the first NUL (all of `s` when there is none). */
  function CStr(s: string): (r: string)
    ensures CString(r)
    ensures r <= s
    ensures |r| < |s| ==> s[|r|] == '\0'
  {
    if s == [] || s[0] == '\0' then [] else [s[0]] + CStr(s[1..])
  }

  /** strchr: the index of the first occurrence of `c` in `s`, if any. */
  function FirstIndex(s: string, c: char): (r: Option<nat>)
    ensures r.None? <==> c !in s
    ensures r.Some? ==> r.value < |s| && s[r.value] == c && c !in s[..r.value]
  {
    if s == [] then None
    else if s[0] == c then Some(0)
    else match FirstIndex(s[1..], c)
      case None => None
      case Some(k) => Some(k + 1)
  }

  /* ---------------------------------------------------------------------------
   * ASCII case-insensitive equality (util::strieq)
   * ------------------------------------------------------------------------- */

  /** tolower in the C locale. */
  function Lower(c: char): char {
    if 'A' <= c <= 'Z' then (c as int + ('a' as int - 'A' as int)) as char else c
  }

  /** util::strieq: equal length and equal character by character once both
      sides are folded to lower case. */
  function StrIEq(a: string, b: string): (r: bool)
    ensures r ==> |a| == |b|
    ensures a == b ==> r
  {
    |a| == |b| && (a == [] || (Lower(a[0]) == Lower(b[0]) && StrIEq(a[1..], b[1..])))
  }

  /** strieq compares position by position. */
  lemma {:induction false} StrIEqAt(a: string, b: string, i: nat)
    requires StrIEq(a, b) && i < |a|
    ensures Lower(a[i]) == Lower(b[i])
  {
    if i > 0 {
      StrIEqAt(a[1..], b[1..], i - 1);
    }
  }

  /** strieq holds exactly when the lengths agree and every position agrees
      once folded to lower case. */
  lemma {:induction false} StrIEqPointwise(a: string, b: string)
    ensures StrIEq(a, b) <==> |a| == |b| && forall i :: 0 <= i < |a| ==> Lower(a[i]) == Lower(b[i])
  {
    if StrIEq(a, b) {
      forall i | 0 <= i < |a| ensures Lower(a[i]) == Lower(b[i]) {
        StrIEqAt(a, b, i);
      }
    } else if |a| == |b| && a != [] {
      StrIEqPointwise(a[1..], b[1..]);
      if Lower(a[0]) == Lower(b[0]) {
        var i :| 0 <= i < |a| - 1 && Lower(a[1..][i]) != Lower(b[1..][i]);
        assert Lower(a[i + 1]) != Lower(b[i + 1]);
      }
    }
  }

  /* ---------------------------------------------------------------------------
   * strtoul / strtol with base 10
   * ------------------------------------------------------------------------- */

  const ULONG_MAX: nat := 0xFFFF_FFFF_FFFF_FFFF
  const LONG_MAX: int := 0x7FFF_FFFF_FFFF_FFFF
  const LONG_MIN: int := -0x8000_0000_0000_0000

  /** isspace in the C locale: the blank and the characters \t \n \v \f \r. */
  predicate IsSpace(c: char) {
    c == ' ' || '\t' <= c <= '\r'
  }

  predicate IsDigit(c: char) {
    '0' <= c <= '9'
  }

  predicate AllDigits(s: string) {
    forall i :: 0 <= i < |s| ==> IsDigit(s[i])
  }

  /** The longest run of decimal digits `s` starts with. */
  function DigitPrefix(s: string): (d: string)
    ensures d <= s
  {
    if s != [] && IsDigit(s[0]) then [s[0]] + DigitPrefix(s[1..]) else []
  }

  function DigitValue(c: char): nat {
    if IsDigit(c) then c as int - '0' as int else 0
  }

  /** The number a string of decimal digits denotes. */
  function DigitsValue(d: string): nat {
    if d == [] then 0 else DigitsValue(d[..|d| - 1]) * 10 + DigitValue(d[|d| - 1])
  }

  /** What strtoul and strtol read of their argument: leading white space is
      skipped, then one optional sign, then the longest run of digits, whose
      value is the magnitude (no digits at all read as 0); whatever follows
      is ignored. */
  datatype Reading = Reading(negative: bool, magnitude: nat)

  function Read(s: string): (r: Reading)
    ensures r.negative ==> '-' in s
    ensures r.magnitude > 0 ==> exists i :: 0 <= i < |s| && IsDigit(s[i])
  {
    if s != [] && IsSpace(s[0]) then Read(s[1..])
    else if s != [] && (s[0] == '+' || s[0] == '-') then Reading(s[0] == '-', DigitsValue(DigitPrefix(s[1..])))
    else Reading(false, DigitsValue(DigitPrefix(s)))
  }

  /** A conversion result together with whether errno was set to ERANGE. */
  datatype Conversion = Conversion(value: int, rangeError: bool)

  /** strtoul(s, 0, 10) on LP64: a magnitude above ULONG_MAX is a range error
      returning ULONG_MAX; a negative sign negates in unsigned arithmetic, so
      "-1" converts to ULONG_MAX without error. */
  function StrToUL(s: string): (r: Conversion)
    ensures 0 <= r.value <= ULONG_MAX
    ensures r.rangeError <==> Read(s).magnitude > ULONG_MAX
    ensures r.rangeError ==> r.value == ULONG_MAX
  {
    var n := Read(s);
    if n.magnitude > ULONG_MAX then Conversion(ULONG_MAX, true)
    else if n.negative && n.magnitude > 0 then Conversion(ULONG_MAX + 1 - n.magnitude, false)
    else Conversion(n.magnitude, false)
  }

  /** strtol(s, 0, 10) on LP64: the signed value, clamped to LONG_MIN or
      LONG_MAX with a range error when it does not fit. */
  function StrToL(s: string): (r: Conversion)
    ensures LONG_MIN <= r.value <= LONG_MAX
    ensures !r.rangeError ==> r.value == (if Read(s).negative then -(Read(s).magnitude as int) else Read(s).magnitude)
  {
    var n := Read(s);
    var m: int := n.magnitude;
    if n.negative then
      (if -m < LONG_MIN then Conversion(LONG_MIN, true) else Conversion(-m, false))
    else
      (if m > LONG_MAX then Conversion(LONG_MAX, true) else Conversion(m, false))
  }

  /* ---------------------------------------------------------------------------
   * Decimal rendering, the inverse of the digit reading above
   * ------------------------------------------------------------------------- */

  function DigitChar(d: nat): char
    requires d < 10
  {
    ('0' as int + d) as char
  }

  /** The shortest decimal rendering of `n`. */
  function Decimal(n: nat): (r: string)
    ensures r != [] && AllDigits(r)
  {
    if n < 10 then [DigitChar(n)] else Decimal(n / 10) + [DigitChar(n % 10)]
  }

  lemma {:induction false} DigitsValueOfDecimal(n: nat)
    ensures DigitsValue(Decimal(n)) == n
  {
    var d := Decimal(n);
    if n >= 10 {
      assert d[..|d| - 1] == Decimal(n / 10);
      DigitsValueOfDecimal(n / 10);
    } else {
      assert d[..|d| - 1] == [];
    }
  }

  /** The digit run of a string of digits followed by a non-digit is exactly
      those digits. */
  lemma {:induction false} DigitPrefixOf(d: string, rest: string)
    requires AllDigits(d)
    requires rest == [] || !IsDigit(rest[0])
    ensures DigitPrefix(d + rest) == d
  {
    if d == [] {
      assert d + rest == rest;
    } else {
      assert (d + rest)[0] == d[0];
      assert (d + rest)[1..] == d[1..] + rest;
      DigitPrefixOf(d[1..], rest);
    }
  }

  /** A run of digits followed by a non-digit reads as an unsigned number
      made of exactly that run. */
  lemma ReadOfDigits(d: string, rest: string)
    requires d != [] && AllDigits(d)
    requires rest == [] || !IsDigit(rest[0])
    ensures Read(d + rest) == Reading(false, DigitsValue(d))
  {
    assert IsDigit(d[0]) && (d + rest)[0] == d[0];
    DigitPrefixOf(d, rest);
  }

  /** Reading back a rendered number, whatever non-digit text follows it,
      gives the number back: "443abc" converts to 443. */
  lemma StrToULOfDecimal(n: nat, rest: string)
    requires n <= ULONG_MAX
    requires rest == [] || !IsDigit(rest[0])
    ensures StrToUL(Decimal(n) + rest) == Conversion(n, false)
  {
    ReadOfDigits(Decimal(n), rest);
    DigitsValueOfDecimal(n);
  }

  lemma StrToLOfDecimal(n: nat, rest: string)
    requires n <= LONG_MAX
    requires rest == [] || !IsDigit(rest[0])
    ensures StrToL(Decimal(n) + rest) == Conversion(n, false)
  {
    ReadOfDigits(Decimal(n), rest);
    DigitsValueOfDecimal(n);
  }

  /** Text with no digit at all converts to 0 without error. */
  lemma {:induction false} StrToULWithoutDigits(s: string)
    requires forall i :: 0 <= i < |s| ==> !IsDigit(s[i])
    ensures StrToUL(s) == Conversion(0, false)
  {
    if s != [] && IsSpace(s[0]) {
      StrToULWithoutDigits(s[1..]);
    } else if s != [] && (s[0] == '+' || s[0] == '-') {
      assert s[1..] == [] || !IsDigit(s[1..][0]);
    }
  }
}
