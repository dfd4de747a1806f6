/**
 * `URLSearchParams` as the web client uses it: an ordered list of name/value
 * pairs, `set`, and `toString`, which writes the pairs in the
 * `application/x-www-form-urlencoded` format of the WHATWG URL standard
 * (names and values as UTF-8, a space as `+`, every byte other than ASCII
 * letters, digits and `*-._` as `%XX`).
 */
module UrlSearch {
  import opened Wrappers
  import opened Utf8
  import opened JsText

  type Entries = seq<(string, string)>

  // ---------------------------------------------------------------- percent-encoding

  /** The bytes the serializer writes as they are: ASCII letters, digits and `*-._`. */
  predicate Unreserved(b: byte)
  {
    b == 0x2A || b == 0x2D || b == 0x2E || 0x30 <= b <= 0x39 || 0x41 <= b <= 0x5A || b == 0x5F || 0x61 <= b <= 0x7A
  }

  /** An upper-case hexadecimal digit. */
  function HexDigit(d: int): char
    requires 0 <= d < 16
  {
    if d < 10 then ('0' as int + d) as char else ('A' as int + d - 10) as char
  }

  /** The value of a hexadecimal digit of either case. */
  function HexValue(c: char): (r: Option<int>)
    ensures r.Some? ==> 0 <= r.value < 16
    ensures forall d :: 0 <= d < 16 && c == HexDigit(d) ==> r == Some(d)
  {
    if '0' <= c <= '9' then Some(c as int - '0' as int)
    else if 'A' <= c <= 'F' then Some(c as int - 'A' as int + 10)
    else if 'a' <= c <= 'f' then Some(c as int - 'a' as int + 10)
    else None
  }

  /** One byte of a name or value as it appears in a query string. */
  function EncodeByte(b: byte): (t: string)
    ensures 1 <= |t| <= 3
    ensures '&' !in t && '=' !in t
  {
    if b == 0x20 then "+"
    else if Unreserved(b) then [b as int as char]
    else ['%', HexDigit(b as int / 16), HexDigit(b as int % 16)]
  }

  function EncodeBytes(bs: seq<byte>): (t: string)
    ensures '&' !in t && '=' !in t
  {
    if bs == [] then "" else EncodeByte(bs[0]) + EncodeBytes(bs[1..])
  }

  /** A name or value, form-urlencoded: it never holds the separators `&` and `=`. */
  function FormEncode(s: string): (t: string)
    ensures '&' !in t && '=' !in t
    ensures s != [] ==> t != []
  {
    EncodeBytes(Utf8Encode(s))
  }

  function Cons(b: byte, r: Option<seq<byte>>): Option<seq<byte>>
  {
    match r
    case None => None
    case Some(bs) => Some([b] + bs)
  }

  /**
   * The bytes of an encoded name or value: `+` is a space, `%XX` a byte, any
   * other ASCII character itself; `None` for a malformed escape or a
   * character outside ASCII.
   */
  function DecodeBytes(t: string): Option<seq<byte>>
    decreases |t|
  {
    if t == [] then Some([])
    else if t[0] == '+' then Cons(0x20, DecodeBytes(t[1..]))
    else if t[0] == '%' then
      if |t| >= 3 && HexValue(t[1]).Some? && HexValue(t[2]).Some? then
        Cons((HexValue(t[1]).value * 16 + HexValue(t[2]).value) as byte, DecodeBytes(t[3..]))
      else None
    else if t[0] as int < 0x80 then Cons(t[0] as int as byte, DecodeBytes(t[1..]))
    else None
  }

  /** An encoded name or value read back as text. */
  function FormDecode(t: string): Option<string>
  {
    match DecodeBytes(t)
    case None => None
    case Some(bs) => Utf8Decode(bs)
  }

  lemma DecodeEncodedByte(b: byte, rest: string)
    ensures DecodeBytes(EncodeByte(b) + rest) == Cons(b, DecodeBytes(rest))
  {
    var t := EncodeByte(b) + rest;
    if b != 0x20 && !Unreserved(b) {
      assert t[0] == '%' && t[1] == HexDigit(b as int / 16) && t[2] == HexDigit(b as int % 16);
      assert t[3..] == rest;
    } else {
      assert t[1..] == rest;
    }
  }

  lemma {:induction false} EncodeBytesRoundTrip(bs: seq<byte>)
    ensures DecodeBytes(EncodeBytes(bs)) == Some(bs)
  {
    if bs != [] {
      DecodeEncodedByte(bs[0], EncodeBytes(bs[1..]));
      EncodeBytesRoundTrip(bs[1..]);
      assert [bs[0]] + bs[1..] == bs;
    }
  }

  /** Every name and value is read back from its encoded form. */
  lemma FormRoundTrip(s: string)
    ensures FormDecode(FormEncode(s)) == Some(s)
  {
    EncodeBytesRoundTrip(Utf8Encode(s));
    Utf8RoundTrip(s);
  }

  // ---------------------------------------------------------------- serializing and parsing

  /** `name=value` for each pair, both sides encoded. */
  function EncodedPairs(es: Entries): (ps: seq<string>)
    ensures |ps| == |es|
    ensures forall i :: 0 <= i < |es| ==> ps[i] == FormEncode(es[i].0) + "=" + FormEncode(es[i].1)
  {
    if es == [] then [] else [FormEncode(es[0].0) + "=" + FormEncode(es[0].1)] + EncodedPairs(es[1..])
  }

  /** `toString()`: the encoded pairs joined by `&`; empty exactly when there are no pairs. */
  function Serialize(es: Entries): (q: string)
    ensures q == "" <==> es == []
  {
    var ps := EncodedPairs(es);
    assert |ps| > 1 ==> Join(ps, '&') == ps[0] + ['&'] + Join(ps[1..], '&');
    Join(ps, '&')
  }

  /** One `name=value` piece; a piece without `=` is a name with an empty value. */
  function ParsePair(p: string): Option<(string, string)>
  {
    match IndexOf(p, "=")
    case None =>
      (match FormDecode(p)
       case None => None
       case Some(name) => Some((name, "")))
    case Some(i) =>
      match (FormDecode(p[..i]), FormDecode(p[i + 1..]))
      case (Some(name), Some(value)) => Some((name, value))
      case _ => None
  }

  /** The pairs of the `&`-separated pieces, empty pieces skipped. */
  function ParsePieces(ps: seq<string>): Option<Entries>
  {
    if ps == [] then Some([])
    else if ps[0] == "" then ParsePieces(ps[1..])
    else
      match (ParsePair(ps[0]), ParsePieces(ps[1..]))
      case (Some(e), Some(rest)) => Some([e] + rest)
      case _ => None
  }

  /** Parsing a query string (without `?`): a reference reading of what `toString` writes. */
  function ParseQuery(q: string): Option<Entries>
  {
    if q == "" then Some([]) else ParsePieces(Split(q, '&'))
  }

  lemma ParseEncodedPair(name: string, value: string)
    ensures ParsePair(FormEncode(name) + "=" + FormEncode(value)) == Some((name, value))
  {
    var n := FormEncode(name);
    var p := n + "=" + FormEncode(value);
    assert p[|n|] == '=';
    FindChar(p, '=');
    assert p[..|n|] == n && p[|n| + 1..] == FormEncode(value);
    FormRoundTrip(name);
    FormRoundTrip(value);
  }

  lemma {:induction false} ParseEncodedPairs(es: Entries)
    ensures ParsePieces(EncodedPairs(es)) == Some(es)
  {
    if es != [] {
      var ps := EncodedPairs(es);
      assert ps[0] == FormEncode(es[0].0) + "=" + FormEncode(es[0].1);
      assert |ps[0]| > 0;
      ParseEncodedPair(es[0].0, es[0].1);
      assert ParsePair(ps[0]) == Some(es[0]);
      assert ps[1..] == EncodedPairs(es[1..]);
      ParseEncodedPairs(es[1..]);
      assert ParsePieces(ps[1..]) == Some(es[1..]);
      assert es == [es[0]] + es[1..];
    }
  }

  /** What `toString` writes parses back to the same pairs, in the same order. */
  lemma ParseSerialize(es: Entries)
    ensures ParseQuery(Serialize(es)) == Some(es)
  {
    if es != [] {
      var ps := EncodedPairs(es);
      forall k | 0 <= k < |ps| ensures '&' !in ps[k] {
        assert ps[k] == FormEncode(es[k].0) + "=" + FormEncode(es[k].1);
      }
      SplitJoin(ps, '&');
      ParseEncodedPairs(es);
    }
  }

  // ---------------------------------------------------------------- set

  function Names(es: Entries): (ns: seq<string>)
    ensures |ns| == |es| && forall i :: 0 <= i < |es| ==> ns[i] == es[i].0
  {
    if es == [] then [] else [es[0].0] + Names(es[1..])
  }

  /** `getAll(name)`: the values of the pairs with that name, in order. */
  function ValuesOf(es: Entries, name: string): (vs: seq<string>)
    ensures name !in Names(es) ==> vs == []
  {
    if es == [] then []
    else (if es[0].0 == name then [es[0].1] else []) + ValuesOf(es[1..], name)
  }

  /** The pairs without any named `name`. */
  function RemoveAll(es: Entries, name: string): (r: Entries)
    ensures name !in Names(r)
  {
    if es == [] then []
    else if es[0].0 == name then RemoveAll(es[1..], name)
    else [es[0]] + RemoveAll(es[1..], name)
  }

  /**
   * `set(name, value)`: the first pair with that name takes the value and
   * the other pairs with that name go; without one, the pair is appended.
   */
  function SetEntry(es: Entries, name: string, value: string): Entries
  {
    if es == [] then [(name, value)]
    else if es[0].0 == name then [(name, value)] + RemoveAll(es[1..], name)
    else [es[0]] + SetEntry(es[1..], name, value)
  }

  lemma {:induction false} RemoveAllValues(es: Entries, name: string, m: string)
    ensures ValuesOf(RemoveAll(es, name), m) == if m == name then [] else ValuesOf(es, m)
  {
    if es != [] {
      RemoveAllValues(es[1..], name, m);
      if es[0].0 != name {
        assert ([es[0]] + RemoveAll(es[1..], name))[1..] == RemoveAll(es[1..], name);
      }
    }
  }

  /** After `set`, the name has exactly the new value and every other name keeps its values. */
  lemma {:induction false} SetEntryValues(es: Entries, name: string, value: string, m: string)
    ensures ValuesOf(SetEntry(es, name, value), m) == if m == name then [value] else ValuesOf(es, m)
  {
    if es == [] {
    } else if es[0].0 == name {
      RemoveAllValues(es[1..], name, m);
      assert ([(name, value)] + RemoveAll(es[1..], name))[1..] == RemoveAll(es[1..], name);
    } else {
      SetEntryValues(es[1..], name, value, m);
      assert ([es[0]] + SetEntry(es[1..], name, value))[1..] == SetEntry(es[1..], name, value);
    }
  }

  /** Setting a name not yet present appends one pair at the end. */
  lemma {:induction false} SetEntryAppends(es: Entries, name: string, value: string)
    requires name !in Names(es)
    ensures SetEntry(es, name, value) == es + [(name, value)]
  {
    if es != [] {
      assert Names(es) == [es[0].0] + Names(es[1..]);
      SetEntryAppends(es[1..], name, value);
      assert es == [es[0]] + es[1..];
    }
  }

  /** The builder object. */
  class UrlSearchParams {
    var entries: Entries

    constructor ()
      ensures entries == []
    {
      entries := [];
    }

    method Set(name: string, value: string)
      modifies this
      ensures entries == SetEntry(old(entries), name, value)
    {
      entries := SetEntry(entries, name, value);
    }

    /** `toString()`: a query string that parses back to exactly the pairs held. */
    function ToString(): (q: string)
      reads this
      ensures ParseQuery(q) == Some(entries)
      ensures q == "" <==> entries == []
    {
      ParseSerialize(entries);
      Serialize(entries)
    }
  }
}
