/**
 * The zod (version 4) schema building blocks the validators use, as
 * functions from the parsed JSON body (or path parameters) to the validated
 * value, `None` when the schema rejects the input. Lengths are JavaScript
 * string lengths (UTF-16 code units); `.trim()` transforms before the length
 * checks that follow it.
 */
module Zod {
  import opened Wrappers
  import opened JsValues
  import opened JsText

  /** `Number.MAX_SAFE_INTEGER`: zod's `.int()` accepts only safe integers. */
  const MaxSafeInteger: int := 9007199254740991

  // ---------------------------------------------------------------- strings

  /** `z.string()`, optionally `.trim()`, then `.min(min)` and, when given, `.max(max)`. */
  function ZString(v: JsValue, trim: bool, min: nat, max: Option<nat>): (r: Option<string>)
    ensures r.Some? <==> v.Str? && min <= Utf16Length(if trim then Trim(v.s) else v.s)
                         && (max.None? || Utf16Length(if trim then Trim(v.s) else v.s) <= max.value)
    ensures r.Some? ==> r.value == (if trim then Trim(v.s) else v.s)
  {
    if !v.Str? then None
    else
      var t := if trim then Trim(v.s) else v.s;
      if min <= Utf16Length(t) && (max.None? || Utf16Length(t) <= max.value) then Some(t) else None
  }

  /** `.optional()` around a schema: `undefined` is accepted as absent, anything else must pass. */
  function ZOptional<T>(v: JsValue, inner: Option<T>): (r: Option<Option<T>>)
    ensures v.Undefined? ==> r == Some(None)
    ensures !v.Undefined? ==> (r.Some? <==> inner.Some?) && (r.Some? ==> r.value == inner)
  {
    if v.Undefined? then Some(None) else if inner.Some? then Some(inner) else None
  }

  // ---------------------------------------------------------------- numbers

  /** The number has no fractional part. */
  predicate IsWhole(n: real)
  {
    n.Floor as real == n
  }

  /** `z.number().int()` with an optional lower bound: `.min(m)` (inclusive) or `.positive()` (`min = 1`). */
  function ZInt(v: JsValue, min: Option<int>): (r: Option<int>)
    ensures r.Some? <==> v.Num? && IsWhole(v.n) && -MaxSafeInteger <= v.n.Floor <= MaxSafeInteger
                         && (min.None? || min.value <= v.n.Floor)
    ensures r.Some? ==> r.value as real == v.n
    ensures r.Some? && min.Some? ==> min.value <= r.value
  {
    if v.Num? && IsWhole(v.n) && -MaxSafeInteger <= v.n.Floor <= MaxSafeInteger
       && (min.None? || min.value <= v.n.Floor)
    then Some(v.n.Floor)
    else None
  }

  /** The first index of `s` holding one of `marks`, or `|s|` when there is none. */
  function FirstOf(s: string, marks: set<char>): (i: nat)
    ensures i <= |s| && (i < |s| ==> s[i] in marks)
    ensures forall j :: 0 <= j < i ==> s[j] !in marks
  {
    if s == [] || s[0] in marks then 0
    else
      var k := FirstOf(s[1..], marks);
      assert forall j :: 1 <= j < 1 + k ==> s[j] == s[1..][j - 1];
      1 + k
  }

  predicate AllDigits(s: string)
  {
    forall i :: 0 <= i < |s| ==> IsDigit(s[i])
  }

  function Pow10(k: nat): (p: nat)
    ensures p >= 1
  {
    if k == 0 then 1 else 10 * Pow10(k - 1)
  }

  /** `m × 10^k` as an exact real. */
  function Scaled(m: nat, k: int): real
  {
    if k >= 0 then (m * Pow10(k)) as real else m as real / Pow10(-k) as real
  }

  /** An exponent's digits after `e`: an optional sign, then at least one decimal digit. */
  function SignedDigits(s: string): (r: Option<int>)
    ensures r.Some? ==> s != []
  {
    var digits := if s != [] && (s[0] == '+' || s[0] == '-') then s[1..] else s;
    if digits != [] && AllDigits(digits) then
      var m: int := DigitsValue(digits);
      Some(if s[0] == '-' then -m else m)
    else None
  }

  /**
   * An unsigned decimal literal of `Number`'s string grammar: digits with an
   * optional `.` and fraction (at least one digit on either side), then an
   * optional exponent `e`/`E` with an optional sign. Its exact value.
   */
  function UnsignedDecimal(t: string): (r: Option<real>)
  {
    var e := FirstOf(t, {'e', 'E'});
    var mantissa := t[..e];
    var dot := FirstOf(mantissa, {'.'});
    var whole := mantissa[..dot];
    var fraction := if dot < |mantissa| then mantissa[dot + 1..] else "";
    var exponent := if e < |t| then SignedDigits(t[e + 1..]) else Some(0);
    if AllDigits(whole) && AllDigits(fraction) && (whole != [] || fraction != []) && exponent.Some? then
      Some(Scaled(DigitsValue(whole + fraction), exponent.value - |fraction|))
    else None
  }

  /** The value of `c` as a digit of `radix` (2, 8, 10 or 16; hexadecimal letters in either case). */
  function RadixDigit(c: char, radix: nat): (d: Option<nat>)
    ensures d.Some? ==> d.value < radix
  {
    var v: int := if '0' <= c <= '9' then c as int - '0' as int
                  else if 'a' <= c <= 'f' then c as int - 'a' as int + 10
                  else if 'A' <= c <= 'F' then c as int - 'A' as int + 10
                  else radix;
    if 0 <= v < radix then Some(v) else None
  }

  predicate RadixDigits(s: string, radix: nat)
  {
    forall i :: 0 <= i < |s| ==> RadixDigit(s[i], radix).Some?
  }

  /** The value of digits of `radix`, most significant first. */
  function RadixValue(s: string, radix: nat): nat
    requires RadixDigits(s, radix)
  {
    if s == [] then 0 else radix * RadixValue(s[..|s| - 1], radix) + RadixDigit(s[|s| - 1], radix).value
  }

  /** The radix a `0x`, `0o` or `0b` prefix (either case) announces, if `t` starts with one. */
  function RadixPrefix(t: string): (radix: Option<nat>)
    ensures radix.Some? ==> |t| >= 2 && t[0] == '0'
  {
    if |t| < 2 || t[0] != '0' then None
    else if t[1] == 'x' || t[1] == 'X' then Some(16)
    else if t[1] == 'o' || t[1] == 'O' then Some(8)
    else if t[1] == 'b' || t[1] == 'B' then Some(2)
    else None
  }

  /**
   * `Number(s)` on a query string, as an exact value: surrounding whitespace
   * is ignored and the empty string is 0; a `0x`/`0o`/`0b` literal (no sign)
   * is read in its radix; otherwise an optional sign precedes a decimal
   * literal with optional fraction and exponent. `None` stands for `NaN` and
   * for `±Infinity`, neither of which is a finite number.
   */
  function NumberOfText(s: string): (r: Option<real>)
    ensures Trim(s) == "" ==> r == Some(0.0)
  {
    var t := Trim(s);
    if t == "" then Some(0.0)
    else if RadixPrefix(t).Some? then
      var digits := t[2..];
      if digits != [] && RadixDigits(digits, RadixPrefix(t).value) then Some(RadixValue(digits, RadixPrefix(t).value) as real)
      else None
    else
      var body := if t[0] == '-' || t[0] == '+' then t[1..] else t;
      if body == "Infinity" then None
      else match UnsignedDecimal(body)
        case None => None
        case Some(v) => Some(if t[0] == '-' then -v else v)
  }

  /** `z.coerce.number().int().positive()` applied to a query parameter. */
  function ZCoercePositiveInt(s: string): (r: Option<int>)
    ensures r.Some? <==> NumberOfText(s).Some? && IsWhole(NumberOfText(s).value)
                         && 1 <= NumberOfText(s).value.Floor <= MaxSafeInteger
    ensures r.Some? ==> r.value as real == NumberOfText(s).value
  {
    var n := NumberOfText(s);
    if n.Some? && IsWhole(n.value) && 1 <= n.value.Floor <= MaxSafeInteger then Some(n.value.Floor) else None
  }

  lemma TrimOfDigits(s: string)
    requires s != [] && forall i :: 0 <= i < |s| ==> IsDigit(s[i])
    ensures Trim(s) == s && s[0] != '-' && s[0] != '+'
  {
    assert IsDigit(s[0]) && IsDigit(s[|s| - 1]);
    TrimOfTrimmed(s);
  }

  /** Text starting with a digit and without a radix prefix is read as an unsigned decimal literal. */
  lemma NumberOfUnsigned(t: string)
    requires t != [] && IsDigit(t[0]) && Trim(t) == t && RadixPrefix(t).None?
    ensures NumberOfText(t) == UnsignedDecimal(t)
  {
    assert t != "Infinity" by {
      assert IsDigit(t[0]);
    }
  }

  /** Digits alone are an unsigned decimal literal of their own value. */
  lemma UnsignedOfDigits(d: string)
    requires d != [] && AllDigits(d)
    ensures UnsignedDecimal(d) == Some(DigitsValue(d) as real)
  {
    assert FirstOf(d, {'e', 'E'}) == |d|;
    assert d[..|d|] == d;
    assert FirstOf(d, {'.'}) == |d|;
    assert d + "" == d;
  }

  /** Digits, a point and more digits: the digits together, scaled down by the length of the fraction. */
  lemma UnsignedOfFraction(d: string, f: string)
    requires d != [] && AllDigits(d) && AllDigits(f)
    ensures UnsignedDecimal(d + "." + f) == Some(Scaled(DigitsValue(d + f), -|f|))
  {
    var t := d + "." + f;
    assert t[|d|] == '.';
    assert forall i :: 0 <= i < |d| ==> t[i] == d[i];
    assert forall i :: 0 <= i < |f| ==> t[|d| + 1 + i] == f[i];
    assert FirstOf(t, {'e', 'E'}) == |t|;
    assert t[..|t|] == t;
    assert FirstOf(t, {'.'}) == |d|;
    assert t[..|d|] == d && t[|d| + 1..] == f;
  }

  /** Plain decimal digits are read as their value. */
  lemma NumberOfDigits(s: string)
    requires s != [] && AllDigits(s)
    ensures NumberOfText(s) == Some(DigitsValue(s) as real)
  {
    TrimOfDigits(s);
    assert RadixPrefix(s).None? by {
      if |s| >= 2 {
        assert IsDigit(s[1]);
      }
    }
    NumberOfUnsigned(s);
    UnsignedOfDigits(s);
  }

  /** A decimal integer written out is coerced back to itself; the empty parameter is 0 and so not positive. */
  lemma CoerceOfNatToString(n: nat)
    requires 1 <= n <= MaxSafeInteger
    ensures ZCoercePositiveInt(NatToString(n)) == Some(n)
    ensures ZCoercePositiveInt("") == None
  {
    NumberOfDigits(NatToString(n));
    DigitsValueOfNatToString(n);
    assert Trim("") == "";
  }

  /** Text whose number is a positive safe integer is accepted as that integer. */
  lemma CoerceOfWholeValue(s: string, n: nat)
    requires 1 <= n <= MaxSafeInteger && NumberOfText(s) == Some(n as real)
    ensures ZCoercePositiveInt(s) == Some(n)
  {
    assert (n as real).Floor == n;
  }

  /** Text whose number lies halfway between two integers is refused. */
  lemma CoerceRefusesHalfValue(s: string, n: nat)
    requires NumberOfText(s) == Some(n as real + 0.5)
    ensures ZCoercePositiveInt(s) == None
  {
    assert (n as real + 0.5).Floor == n;
  }

  /** A hexadecimal literal is read in base 16. */
  lemma CoerceOfHexLiteral()
    ensures ZCoercePositiveInt("0x10") == Some(16)
  {
    var t := "0x10";
    assert Trim(t) == t by {
      TrimOfTrimmed(t);
    }
    assert RadixPrefix(t) == Some(16);
    assert RadixDigits(t[2..], 16) && RadixValue(t[2..], 16) == 16 by {
      assert t[2..] == "10" && "10"[..1] == "1" && "1"[..0] == "";
    }
    assert NumberOfText(t) == Some(16.0);
    CoerceOfWholeValue(t, 16);
  }

  /** `"1e3"` is an unsigned decimal literal worth 1000. */
  lemma UnsignedOfExponent()
    ensures UnsignedDecimal("1e3") == Some(1000.0)
  {
    var t := "1e3";
    assert FirstOf(t, {'e', 'E'}) == 1;
    assert t[..1] == "1" && t[2..] == "3";
    assert FirstOf("1", {'.'}) == 1 && "1"[..1] == "1";
    assert "1" + "" == "1";
    assert DigitsValue("1") == 1 && DigitsValue("3") == 3 by {
      assert "1"[..0] == "" && "3"[..0] == "";
    }
    assert SignedDigits("3") == Some(3);
    assert Pow10(3) == 1000;
  }

  /** A literal with an exponent is scaled by that power of ten. */
  lemma CoerceOfExponentLiteral()
    ensures ZCoercePositiveInt("1e3") == Some(1000)
  {
    var t := "1e3";
    assert Trim(t) == t by {
      TrimOfTrimmed(t);
    }
    assert IsDigit(t[0]) && RadixPrefix(t).None?;
    NumberOfUnsigned(t);
    UnsignedOfExponent();
    CoerceOfWholeValue(t, 1000);
  }

  /** A fraction with an exponent that makes it whole is accepted as that integer. */
  lemma UnsignedOfFractionExponent()
    ensures UnsignedDecimal("2.5e1") == Some(25.0)
  {
    var t := "2.5e1";
    assert FirstOf(t, {'e', 'E'}) == 3;
    assert t[..3] == "2.5" && t[4..] == "1";
    assert FirstOf("2.5", {'.'}) == 1 && "2.5"[..1] == "2" && "2.5"[2..] == "5";
    assert "2" + "5" == "25" && "25"[..1] == "2" && "2"[..0] == "" && "1"[..0] == "";
    assert DigitsValue("25") == 25 && DigitsValue("1") == 1;
    assert SignedDigits("1") == Some(1);
  }

  lemma CoerceOfFractionExponentLiteral()
    ensures ZCoercePositiveInt("2.5e1") == Some(25)
  {
    var t := "2.5e1";
    assert Trim(t) == t by {
      TrimOfTrimmed(t);
    }
    assert IsDigit(t[0]) && RadixPrefix(t).None?;
    NumberOfUnsigned(t);
    UnsignedOfFractionExponent();
    CoerceOfWholeValue(t, 25);
  }

  /** `"2.5"` is an unsigned decimal literal worth 2.5. */
  lemma UnsignedOfHalf()
    ensures UnsignedDecimal("2.5") == Some(2.5)
  {
    var t := "2.5";
    assert FirstOf(t, {'e', 'E'}) == 3;
    assert t[..3] == t;
    assert FirstOf(t, {'.'}) == 1 && t[..1] == "2" && t[2..] == "5";
    assert "2" + "5" == "25" && "25"[..1] == "2" && "2"[..0] == "";
    assert DigitsValue("25") == 25;
    assert Pow10(1) == 10;
    assert Scaled(25, -1) == 25.0 / 10.0;
  }

  /** A number with a fractional part, such as `"2.5"`, is refused. */
  lemma CoerceRefusesHalf()
    ensures ZCoercePositiveInt("2.5") == None
  {
    var t := "2.5";
    assert Trim(t) == t by {
      TrimOfTrimmed(t);
    }
    assert IsDigit(t[0]) && RadixPrefix(t).None?;
    NumberOfUnsigned(t);
    UnsignedOfHalf();
    CoerceRefusesHalfValue(t, 2);
  }

  // ---------------------------------------------------------------- other primitives

  /** `z.enum(names)`: the string must be one of `names`. */
  function ZEnum(v: JsValue, names: seq<string>): (r: Option<string>)
    ensures r.Some? <==> v.Str? && v.s in names
    ensures r.Some? ==> r.value == v.s
  {
    if v.Str? && v.s in names then Some(v.s) else None
  }

  /** `z.array(z.string())`. */
  function ZStringArray(v: JsValue): (r: Option<seq<string>>)
    ensures r.Some? <==> v.Arr? && forall i :: 0 <= i < |v.items| ==> v.items[i].Str?
    ensures r.Some? ==> |r.value| == |v.items| && forall i :: 0 <= i < |v.items| ==> v.items[i] == Str(r.value[i])
  {
    if v.Arr? && forall i :: 0 <= i < |v.items| ==> v.items[i].Str? then
      Some(seq(|v.items|, i requires 0 <= i < |v.items| => v.items[i].s))
    else None
  }

  // ---------------------------------------------------------------- uuid

  predicate IsHexDigit(c: char)
  {
    IsDigit(c) || 'a' <= c <= 'f' || 'A' <= c <= 'F'
  }

  /** Where the hyphens of the 8-4-4-4-12 layout go. */
  predicate IsUuidHyphenPosition(i: int)
  {
    i == 8 || i == 13 || i == 18 || i == 23
  }

  /** The 8-4-4-4-12 hexadecimal layout of RFC 9562 section 4. */
  predicate UuidLayout(s: string)
  {
    |s| == 36 && forall i :: 0 <= i < 36 ==> if IsUuidHyphenPosition(i) then s[i] == '-' else IsHexDigit(s[i])
  }

  const NilUuid: string := "00000000-0000-0000-0000-000000000000"
  const MaxUuid: string := "ffffffff-ffff-ffff-ffff-ffffffffffff"

  /**
   * `z.uuid()`: the layout with a version digit 1 to 8 and the RFC 9562
   * variant (8, 9, a or b), or the nil or max UUID.
   */
  predicate IsUuid(s: string)
  {
    UuidLayout(s) && (('1' <= s[14] <= '8' && s[19] in "89abAB") || s == NilUuid || s == MaxUuid)
  }

  /** A UUID has exactly 36 characters, all hexadecimal digits or hyphens, so an empty or bare numeric id is refused. */
  lemma UuidShape(s: string)
    requires IsUuid(s)
    ensures |s| == 36 && Utf16Length(s) == 36
    ensures s[8] == '-' && s[13] == '-' && s[18] == '-' && s[23] == '-'
    ensures forall i :: 0 <= i < |s| ==> IsHexDigit(s[i]) || s[i] == '-'
  {
    forall i | 0 <= i < |s| ensures s[i] as int <= 0xFFFF {
      if !IsUuidHyphenPosition(i) {
        assert IsHexDigit(s[i]);
      }
    }
    Utf16LengthOfBmp(s);
  }

  /** `z.uuid()` on a JSON value. */
  function ZUuid(v: JsValue): (r: Option<string>)
    ensures r.Some? <==> v.Str? && IsUuid(v.s)
    ensures r.Some? ==> r.value == v.s
  {
    if v.Str? && IsUuid(v.s) then Some(v.s) else None
  }

  // ---------------------------------------------------------------- ISO date-time

  /** `n` decimal digits starting at `i`. */
  predicate DigitsAt(s: string, i: nat, n: nat)
  {
    i + n <= |s| && forall k :: i <= k < i + n ==> IsDigit(s[k])
  }

  function TwoDigits(s: string, i: nat): (v: nat)
    requires DigitsAt(s, i, 2)
    ensures v < 100
  {
    10 * DigitValue(s[i]) + DigitValue(s[i + 1])
  }

  /** The Gregorian leap-year rule. */
  predicate IsLeapYear(y: nat)
  {
    y % 4 == 0 && (y % 100 != 0 || y % 400 == 0)
  }

  function DaysInMonth(y: nat, m: nat): (d: nat)
    requires 1 <= m <= 12
    ensures 28 <= d <= 31
  {
    if m == 2 then (if IsLeapYear(y) then 29 else 28)
    else if m == 4 || m == 6 || m == 9 || m == 11 then 30
    else 31
  }

  /** `YYYY-MM-DD` at the start of `s`, naming a day that exists. */
  predicate DateAt(s: string)
  {
    DigitsAt(s, 0, 4) && |s| >= 10 && s[4] == '-' && DigitsAt(s, 5, 2) && s[7] == '-' && DigitsAt(s, 8, 2)
    && 1 <= TwoDigits(s, 5) <= 12
    && 1 <= TwoDigits(s, 8) <= DaysInMonth(DigitsValue(s[..4]), TwoDigits(s, 5))
  }

  /** `HH:MM`, then optionally `:SS` and optionally a fraction of one or more digits. */
  predicate TimeOfDay(t: string)
  {
    DigitsAt(t, 0, 2) && TwoDigits(t, 0) <= 23 && |t| >= 5 && t[2] == ':' && DigitsAt(t, 3, 2) && TwoDigits(t, 3) <= 59
    && (|t| == 5
        || (t[5] == ':' && DigitsAt(t, 6, 2) && TwoDigits(t, 6) <= 59
            && (|t| == 8 || (|t| >= 10 && t[8] == '.' && DigitsAt(t, 9, |t| - 9)))))
  }

  /**
   * `z.iso.datetime()` (and the older spelling `z.string().datetime()`): a
   * date-time of RFC 3339 section 5.6 in UTC, written with `Z`; an offset such
   * as `+02:00` is refused.
   */
  predicate IsIsoDateTime(s: string)
  {
    |s| >= 17 && DateAt(s) && s[10] == 'T' && TimeOfDay(s[11..|s| - 1]) && s[|s| - 1] == 'Z'
  }

  /** A date-time names an existing day: February 29 only in a leap year. */
  lemma DateTimeDay(s: string)
    requires IsIsoDateTime(s)
    ensures 1 <= TwoDigits(s, 5) <= 12
    ensures TwoDigits(s, 5) == 2 ==> TwoDigits(s, 8) <= 28 || (TwoDigits(s, 8) == 29 && IsLeapYear(DigitsValue(s[..4])))
    ensures s[|s| - 1] == 'Z'
  {
  }

  /** `z.string().datetime()` on a JSON value. */
  function ZDateTime(v: JsValue): (r: Option<string>)
    ensures r.Some? <==> v.Str? && IsIsoDateTime(v.s)
    ensures r.Some? ==> r.value == v.s
  {
    if v.Str? && IsIsoDateTime(v.s) then Some(v.s) else None
  }
}
