/**
 * The parts of JavaScript's string and number-to-string semantics that the
 * backend and its web clients rely on: `String.prototype.trim`, the UTF-16
 * `length`, `indexOf`/`replace` with a string pattern, `split(sep).pop()`,
 * decimal rendering of integers and `Number.parseInt(s, 10)`.
 *
 * Dafny's `char` is a Unicode scalar value; a JavaScript string is a sequence
 * of UTF-16 code units. `Utf16Length` converts between the two counts.
 */
module JsText {
  import opened Wrappers

  // ---------------------------------------------------------------- whitespace

  /** WhiteSpace and LineTerminator code points of ECMA-262 (what `trim` removes). */
  predicate IsJsWhitespace(c: char)
  {
    c == '\t' || c == '\n' || c == '\U{000B}' || c == '\U{000C}' || c == '\r' || c == ' '
    || c == '\U{00A0}' || c == '\U{1680}' || ('\U{2000}' <= c <= '\U{200A}')
    || c == '\U{2028}' || c == '\U{2029}' || c == '\U{202F}' || c == '\U{205F}'
    || c == '\U{3000}' || c == '\U{FEFF}'
  }

  /** `s.trimStart()`: drops the leading whitespace and nothing else. */
  function TrimStart(s: string): (r: string)
    ensures |r| <= |s| && r == s[|s| - |r|..]
    ensures r == [] || !IsJsWhitespace(r[0])
    ensures forall i :: 0 <= i < |s| - |r| ==> IsJsWhitespace(s[i])
  {
    if s != [] && IsJsWhitespace(s[0]) then TrimStart(s[1..]) else s
  }

  /** `s.trimEnd()`: drops the trailing whitespace and nothing else. */
  function TrimEnd(s: string): (r: string)
    ensures |r| <= |s| && r == s[..|r|]
    ensures r == [] || !IsJsWhitespace(r[|r| - 1])
    ensures forall i :: |r| <= i < |s| ==> IsJsWhitespace(s[i])
  {
    if s != [] && IsJsWhitespace(s[|s| - 1]) then TrimEnd(s[..|s| - 1]) else s
  }

  /** `s.trim()`. */
  function Trim(s: string): (r: string)
    ensures |r| <= |s|
    ensures r == [] || (!IsJsWhitespace(r[0]) && !IsJsWhitespace(r[|r| - 1]))
  {
    var t := TrimStart(s);
    var r := TrimEnd(t);
    assert r == [] || r[0] == t[0];
    r
  }

  /** Trimming a string that starts and ends with a non-whitespace character changes nothing. */
  lemma TrimOfTrimmed(s: string)
    requires s == [] || (!IsJsWhitespace(s[0]) && !IsJsWhitespace(s[|s| - 1]))
    ensures Trim(s) == s
  {
  }

  /** `trim` is idempotent: a value a zod `.trim()` schema produced passes through it again unchanged. */
  lemma TrimIdempotent(s: string)
    ensures Trim(Trim(s)) == Trim(s)
  {
    TrimOfTrimmed(Trim(s));
  }

  // ---------------------------------------------------------------- length

  /** `s.length` in JavaScript: characters beyond the Basic Multilingual Plane take two code units. */
  function Utf16Length(s: string): (n: nat)
    ensures |s| <= n <= 2 * |s|
  {
    if s == [] then 0 else (if s[0] as int > 0xFFFF then 2 else 1) + Utf16Length(s[1..])
  }

  lemma {:induction false} Utf16LengthAppend(a: string, b: string)
    ensures Utf16Length(a + b) == Utf16Length(a) + Utf16Length(b)
  {
    if a == [] {
      assert a + b == b;
    } else {
      assert (a + b)[1..] == a[1..] + b;
      Utf16LengthAppend(a[1..], b);
    }
  }

  /** For text inside the Basic Multilingual Plane the JavaScript length is the character count. */
  lemma {:induction false} Utf16LengthOfBmp(s: string)
    requires forall i :: 0 <= i < |s| ==> s[i] as int <= 0xFFFF
    ensures Utf16Length(s) == |s|
  {
    if s != [] {
      Utf16LengthOfBmp(s[1..]);
    }
  }

  // ---------------------------------------------------------------- search and replace

  /** `p` occurs in `s` starting at index `i`. */
  predicate OccursAt(s: string, p: string, i: nat)
  {
    i + |p| <= |s| && s[i..i + |p|] == p
  }

  function IndexFrom(s: string, p: string, i: nat): (r: Option<nat>)
    requires i <= |s|
    ensures r.Some? ==> i <= r.value && OccursAt(s, p, r.value)
    ensures r.Some? ==> forall j :: i <= j < r.value ==> !OccursAt(s, p, j)
    ensures r.None? ==> forall j :: i <= j <= |s| ==> !OccursAt(s, p, j)
    decreases |s| - i
  {
    if OccursAt(s, p, i) then Some(i)
    else if i == |s| then None
    else IndexFrom(s, p, i + 1)
  }

  /** `s.indexOf(p)`, with `None` for -1: the first occurrence of `p`. */
  function IndexOf(s: string, p: string): (r: Option<nat>)
    ensures r.Some? ==> OccursAt(s, p, r.value)
    ensures r.Some? ==> forall j :: 0 <= j < r.value ==> !OccursAt(s, p, j)
    ensures r.None? ==> forall j :: 0 <= j <= |s| ==> !OccursAt(s, p, j)
  {
    IndexFrom(s, p, 0)
  }

  /** `s.replace(p, w)` with a string pattern: only the first occurrence is replaced. */
  function ReplaceFirst(s: string, p: string, w: string): string
  {
    match IndexOf(s, p)
    case None => s
    case Some(i) => s[..i] + w + s[i + |p|..]
  }

  /** Without an occurrence of the pattern, `replace` returns its input. */
  lemma ReplaceFirstAbsent(s: string, p: string, w: string)
    requires forall j :: 0 <= j <= |s| ==> !OccursAt(s, p, j)
    ensures ReplaceFirst(s, p, w) == s
  {
  }

  /** A character that occurs in `s` is found by `indexOf` at its first occurrence. */
  lemma FindChar(s: string, c: char)
    ensures c in s <==> IndexOf(s, [c]).Some?
    ensures c in s ==> IndexOf(s, [c]).value < |s| && s[IndexOf(s, [c]).value] == c
                       && c !in s[..IndexOf(s, [c]).value]
  {
    match IndexOf(s, [c])
    case Some(i) =>
      assert s[i..i + 1] == [c];
      assert s[i] == c;
      if c in s[..i] {
        var j :| 0 <= j < i && s[..i][j] == c;
        assert s[j..j + 1] == [c];
        assert OccursAt(s, [c], j);
      }
    case None =>
      if c in s {
        var k :| 0 <= k < |s| && s[k] == c;
        assert s[k..k + 1] == [c];
        assert OccursAt(s, [c], k);
      }
  }

  /**
   * Removing a one-character pattern: the result is the input with exactly its
   * first occurrence of `c` cut out, and the input itself when `c` does not occur.
   */
  lemma RemoveFirstChar(s: string, c: char)
    ensures c in s ==> exists i :: 0 <= i < |s| && s[i] == c && c !in s[..i]
                                   && ReplaceFirst(s, [c], "") == s[..i] + s[i + 1..]
    ensures c !in s ==> ReplaceFirst(s, [c], "") == s
  {
    FindChar(s, c);
    if c in s {
      var i := IndexOf(s, [c]).value;
      assert ReplaceFirst(s, [c], "") == s[..i] + s[i + 1..];
    }
  }

  // ---------------------------------------------------------------- split

  /** `s.split(sep)` for a one-character separator. */
  function Split(s: string, sep: char): (parts: seq<string>)
    ensures |parts| >= 1
    ensures forall k :: 0 <= k < |parts| ==> sep !in parts[k]
    decreases |s|
  {
    if sep !in s then [s]
    else
      FindChar(s, sep);
      var i := IndexOf(s, [sep]).value;
      [s[..i]] + Split(s[i + 1..], sep)
  }

  /** `parts.join(sep)`. */
  function Join(parts: seq<string>, sep: char): string
  {
    if parts == [] then ""
    else if |parts| == 1 then parts[0]
    else parts[0] + [sep] + Join(parts[1..], sep)
  }

  /** Splitting and re-joining on the same separator gives the input back. */
  lemma {:induction false} JoinSplit(s: string, sep: char)
    ensures Join(Split(s, sep), sep) == s
    decreases |s|
  {
    if sep in s {
      FindChar(s, sep);
      var i := IndexOf(s, [sep]).value;
      var rest := s[i + 1..];
      var tailParts := Split(rest, sep);
      assert Split(s, sep) == [s[..i]] + tailParts;
      assert ([s[..i]] + tailParts)[1..] == tailParts;
      assert Join(Split(s, sep), sep) == s[..i] + [sep] + Join(tailParts, sep);
      JoinSplit(rest, sep);
      assert s == s[..i] + [sep] + rest;
    }
  }

  /** Splitting a join of separator-free parts gives the parts back. */
  lemma {:induction false} SplitJoin(parts: seq<string>, sep: char)
    requires |parts| >= 1
    requires forall k :: 0 <= k < |parts| ==> sep !in parts[k]
    ensures Split(Join(parts, sep), sep) == parts
    decreases |parts|
  {
    if |parts| > 1 {
      var rest := parts[1..];
      var s := Join(parts, sep);
      assert s == parts[0] + [sep] + Join(rest, sep);
      var n := |parts[0]|;
      assert s[n] == sep;
      FindChar(s, sep);
      var i := IndexOf(s, [sep]).value;
      assert s[..i] == parts[0] && s[i + 1..] == Join(rest, sep);
      SplitJoin(rest, sep);
      assert parts == [parts[0]] + rest;
    }
  }

  /** `s.split(sep).pop() ?? ""`: the text after the last separator (split never yields an empty array). */
  function LastSegment(s: string, sep: char): (r: string)
    ensures sep !in r
  {
    var parts := Split(s, sep);
    parts[|parts| - 1]
  }

  /**
   * The last segment is a suffix of the input, and it is either the whole input
   * (no separator) or preceded by a separator.
   */
  lemma {:induction false} LastSegmentIsSuffix(s: string, sep: char)
    ensures |LastSegment(s, sep)| <= |s|
    ensures LastSegment(s, sep) == s[|s| - |LastSegment(s, sep)|..]
    ensures sep !in s ==> LastSegment(s, sep) == s
    ensures sep in s ==> |LastSegment(s, sep)| < |s| && s[|s| - |LastSegment(s, sep)| - 1] == sep
    decreases |s|
  {
    if sep in s {
      FindChar(s, sep);
      var i := IndexOf(s, [sep]).value;
      var rest := s[i + 1..];
      assert LastSegment(s, sep) == LastSegment(rest, sep);
      LastSegmentIsSuffix(rest, sep);
    }
  }

  /** Whatever precedes a final separator does not change the last segment. */
  lemma LastSegmentAfterSeparator(prefix: string, sep: char, tail: string)
    requires sep !in tail
    ensures LastSegment(prefix + [sep] + tail, sep) == tail
  {
    var s := prefix + [sep] + tail;
    assert s[|prefix|] == sep;
    LastSegmentIsSuffix(s, sep);
  }

  // ---------------------------------------------------------------- decimal numbers

  predicate IsDigit(c: char) { '0' <= c <= '9' }

  function DigitChar(d: nat): (c: char)
    requires d < 10
    ensures IsDigit(c)
  {
    "0123456789"[d]
  }

  function DigitValue(c: char): (d: nat)
    requires IsDigit(c)
    ensures d < 10 && DigitChar(d) == c
  {
    (c as int - '0' as int)
  }

  /** The value of a string of decimal digits, most significant first. */
  function DigitsValue(ds: string): nat
    requires forall i :: 0 <= i < |ds| ==> IsDigit(ds[i])
  {
    if ds == [] then 0 else 10 * DigitsValue(ds[..|ds| - 1]) + DigitValue(ds[|ds| - 1])
  }

  /** `String(n)` for a non-negative integer: shortest decimal form, no leading zero. */
  function NatToString(n: nat): (s: string)
    ensures 1 <= |s|
    ensures forall i :: 0 <= i < |s| ==> IsDigit(s[i])
    ensures |s| > 1 ==> s[0] != '0'
  {
    if n < 10 then [DigitChar(n)] else NatToString(n / 10) + [DigitChar(n % 10)]
  }

  lemma {:induction false} DigitsValueOfNatToString(n: nat)
    ensures DigitsValue(NatToString(n)) == n
  {
    if n >= 10 {
      var s := NatToString(n);
      assert s[..|s| - 1] == NatToString(n / 10);
      DigitsValueOfNatToString(n / 10);
    }
  }

  /** Different numbers are rendered differently. */
  lemma NatToStringInjective(m: nat, n: nat)
    requires NatToString(m) == NatToString(n)
    ensures m == n
  {
    DigitsValueOfNatToString(m);
    DigitsValueOfNatToString(n);
  }

  /** `String(i)` for any integer. */
  function IntToString(i: int): (s: string)
    ensures 1 <= |s|
    ensures i < 0 <==> s[0] == '-'
  {
    if i < 0 then "-" + NatToString(-i) else NatToString(i)
  }

  /** The longest prefix of decimal digits. */
  function DigitPrefix(s: string): (ds: string)
    ensures |ds| <= |s| && ds == s[..|ds|]
    ensures forall i :: 0 <= i < |ds| ==> IsDigit(s[i])
    ensures |ds| < |s| ==> !IsDigit(s[|ds|])
  {
    if s != [] && IsDigit(s[0]) then [s[0]] + DigitPrefix(s[1..]) else ""
  }

  /**
   * `Number.parseInt(s, 10)`: leading whitespace is skipped, an optional sign is
   * read, then the longest run of decimal digits; `None` stands for `NaN`
   * (no digit at that position).
   */
  function ParseIntPrefix(s: string): Option<int>
  {
    var t := TrimStart(s);
    var neg := t != [] && t[0] == '-';
    var body := if t != [] && (t[0] == '-' || t[0] == '+') then t[1..] else t;
    var ds := DigitPrefix(body);
    if ds == [] then None
    else
      var v: int := DigitsValue(ds);
      Some(if neg then -v else v)
  }

  lemma {:induction false} DigitPrefixOfDigits(ds: string, rest: string)
    requires forall i :: 0 <= i < |ds| ==> IsDigit(ds[i])
    requires rest == [] || !IsDigit(rest[0])
    ensures DigitPrefix(ds + rest) == ds
  {
    if ds != [] {
      assert (ds + rest)[1..] == ds[1..] + rest;
      DigitPrefixOfDigits(ds[1..], rest);
    }
  }

  /** `parseInt` of text that starts with no whitespace and no sign reads the leading digits. */
  lemma ParseIntUnsigned(s: string)
    requires s != [] && IsDigit(s[0])
    ensures ParseIntPrefix(s) == Some(DigitsValue(DigitPrefix(s)))
  {
    assert !IsJsWhitespace(s[0]);
    assert TrimStart(s) == s;
  }

  /** `parseInt` of text that starts with `-` and digits worth `v` is `-v`. */
  lemma ParseIntNegative(s: string, ds: string, v: int)
    requires |s| > 1 && s[0] == '-' && ds != [] && DigitPrefix(s[1..]) == ds
    requires forall k :: 0 <= k < |ds| ==> IsDigit(ds[k])
    requires DigitsValue(ds) == v
    ensures ParseIntPrefix(s) == Some(-v)
  {
    assert TrimStart(s) == s;
  }

  lemma NegativeParts(m: nat, rest: string)
    requires m > 0
    requires rest == [] || !IsDigit(rest[0])
    ensures var s := IntToString(-(m as int)) + rest;
            |s| > 1 && s[0] == '-' && DigitPrefix(s[1..]) == NatToString(m)
  {
    var ds := NatToString(m);
    DigitPrefixOfDigits(ds, rest);
    SignedText(IntToString(-(m as int)), ds, rest);
  }

  lemma SignedText(t: string, ds: string, rest: string)
    requires t == "-" + ds && ds != []
    ensures |t + rest| > 1 && (t + rest)[0] == '-' && (t + rest)[1..] == ds + rest
  {
  }

  lemma ParseIntOfNegative(m: nat, rest: string)
    requires m > 0
    requires rest == [] || !IsDigit(rest[0])
    ensures ParseIntPrefix(IntToString(-(m as int)) + rest) == Some(-(m as int))
  {
    var ds := NatToString(m);
    NegativeParts(m, rest);
    DigitsValueOfNatToString(m);
    ParseIntNegative(IntToString(-(m as int)) + rest, ds, m);
  }

  lemma ParseIntOfNonNegative(i: int, rest: string)
    requires i >= 0
    requires rest == [] || !IsDigit(rest[0])
    ensures ParseIntPrefix(IntToString(i) + rest) == Some(i)
  {
    var ds := NatToString(i);
    var s := IntToString(i) + rest;
    assert s == ds + rest;
    DigitPrefixOfDigits(ds, rest);
    DigitsValueOfNatToString(i);
    ParseIntUnsigned(s);
  }

  /**
   * `parseInt` reads back what `String` wrote, even when other text that does
   * not start with a digit follows the number ("120px" parses as 120).
   */
  lemma ParseIntOfIntToString(i: int, rest: string)
    requires rest == [] || !IsDigit(rest[0])
    ensures ParseIntPrefix(IntToString(i) + rest) == Some(i)
  {
    if i < 0 {
      ParseIntOfNegative(-i, rest);
    } else {
      ParseIntOfNonNegative(i, rest);
    }
  }

  /** Text without any digit after the optional sign is `NaN`. */
  lemma ParseIntOfNonNumeric(s: string)
    requires s == [] || (!IsDigit(s[0]) && !IsJsWhitespace(s[0]) && s[0] != '-' && s[0] != '+')
    ensures ParseIntPrefix(s) == None
  {
  }
}
