/**
 * Python's str() of a UUID (32 lower-case hex digits of the 128-bit value,
 * grouped 8-4-4-4-12 by hyphens) and of an absent value ("None"), with a
 * parser that inverts both: the string form loses nothing.
 */
module UuidText {
  import opened Wrappers

  function Pow16(n: nat): (p: nat)
    ensures p > 0
  {
    if n == 0 then 1 else 16 * Pow16(n - 1)
  }

  /** A UUID is a 128-bit integer. */
  type UuidInt = n: nat | n < Pow16(32)

  datatype Uuid = Uuid(value: UuidInt)

  predicate IsHexDigit(c: char)
  {
    '0' <= c <= '9' || 'a' <= c <= 'f'
  }

  function HexChar(d: nat): (c: char)
    requires d < 16
    ensures IsHexDigit(c)
  {
    if d < 10 then ('0' as int + d) as char else ('a' as int + d - 10) as char
  }

  function HexValue(c: char): (d: nat)
    ensures d < 16
  {
    if '0' <= c <= '9' then c as int - '0' as int
    else if 'a' <= c <= 'f' then c as int - 'a' as int + 10
    else 0
  }

  /** The low `width` hex digits of n, most significant first, zero-padded. */
  function HexDigits(n: nat, width: nat): (s: string)
    ensures |s| == width
    ensures forall i :: 0 <= i < |s| ==> IsHexDigit(s[i])
  {
    if width == 0 then [] else HexDigits(n / 16, width - 1) + [HexChar(n % 16)]
  }

  /** The number a string of hex digits denotes. */
  function ParseHex(s: string): nat
  {
    if s == [] then 0 else ParseHex(s[..|s| - 1]) * 16 + HexValue(s[|s| - 1])
  }

  lemma {:induction false} ParseHexDigits(n: nat, width: nat)
    requires n < Pow16(width)
    ensures ParseHex(HexDigits(n, width)) == n
  {
    if width > 0 {
      var s := HexDigits(n, width);
      assert s[..width - 1] == HexDigits(n / 16, width - 1);
      assert s[width - 1] == HexChar(n % 16);
      assert n / 16 < Pow16(width - 1);
      ParseHexDigits(n / 16, width - 1);
    }
  }

  /** str(uuid): 36 characters, hyphens at 8, 13, 18 and 23, hex digits elsewhere. */
  function UuidString(u: Uuid): (s: string)
    ensures |s| == 36
    ensures s[8] == '-' && s[13] == '-' && s[18] == '-' && s[23] == '-'
    ensures forall i :: 0 <= i < 36 && i != 8 && i != 13 && i != 18 && i != 23 ==> IsHexDigit(s[i])
  {
    var h := HexDigits(u.value, 32);
    h[..8] + "-" + h[8..12] + "-" + h[12..16] + "-" + h[16..20] + "-" + h[20..]
  }

  /** The canonical 8-4-4-4-12 form: hyphens at 8, 13, 18 and 23, hex digits elsewhere. */
  predicate IsUuidText(s: string)
  {
    && |s| == 36
    && s[8] == '-' && s[13] == '-' && s[18] == '-' && s[23] == '-'
    && forall i :: 0 <= i < 36 && i != 8 && i != 13 && i != 18 && i != 23 ==> IsHexDigit(s[i])
  }

  /** The 32 hex digits of a canonical UUID text, hyphens removed. */
  function Digits(s: string): (d: string)
    requires |s| == 36
    ensures |d| == 32
  {
    s[..8] + s[9..13] + s[14..18] + s[19..23] + s[24..]
  }

  /** Reads back the canonical form; anything else is rejected. */
  function ParseUuid(s: string): (r: Option<Uuid>)
    ensures r.Some? <==> IsUuidText(s)
  {
    if IsUuidText(s) then
      var d := Digits(s);
      ParseHexBound(d);
      Some(Uuid(ParseHex(d)))
    else None
  }

  lemma {:induction false} ParseHexBound(s: string)
    ensures ParseHex(s) < Pow16(|s|)
  {
    if s != [] {
      ParseHexBound(s[..|s| - 1]);
    }
  }

  lemma HexCharValue(c: char)
    requires IsHexDigit(c)
    ensures HexChar(HexValue(c)) == c
  {
  }

  /** Printing the number a string of hex digits denotes gives the string back. */
  lemma {:induction false} HexDigitsOfParse(s: string)
    requires forall i :: 0 <= i < |s| ==> IsHexDigit(s[i])
    ensures HexDigits(ParseHex(s), |s|) == s
  {
    if s != [] {
      var init, last := s[..|s| - 1], s[|s| - 1];
      var n, d := ParseHex(init), HexValue(last);
      assert ParseHex(s) == n * 16 + d;
      assert (n * 16 + d) / 16 == n && (n * 16 + d) % 16 == d;
      HexDigitsOfParse(init);
      HexCharValue(last);
      assert s == init + [last];
    }
  }

  lemma UuidRoundTrip(u: Uuid)
    ensures ParseUuid(UuidString(u)) == Some(u)
  {
    var h := HexDigits(u.value, 32);
    var s := UuidString(u);
    var d := Digits(s);
    forall i | 0 <= i < 32 ensures d[i] == h[i] {
      if i < 8 { assert d[i] == s[i]; }
      else if i < 12 { assert d[i] == s[i + 1]; }
      else if i < 16 { assert d[i] == s[i + 2]; }
      else if i < 20 { assert d[i] == s[i + 3]; }
      else { assert d[i] == s[i + 4]; }
    }
    assert d == h;
    ParseHexDigits(u.value, 32);
  }

  /** A parsed text is the string form of what it parses to. */
  lemma ParseUuidInverse(s: string)
    requires ParseUuid(s).Some?
    ensures UuidString(ParseUuid(s).value) == s
  {
    var d := Digits(s);
    assert forall i :: 0 <= i < 32 ==> IsHexDigit(d[i]) by {
      forall i | 0 <= i < 32 ensures IsHexDigit(d[i]) {
        if i < 8 { assert d[i] == s[i]; }
        else if i < 12 { assert d[i] == s[i + 1]; }
        else if i < 16 { assert d[i] == s[i + 2]; }
        else if i < 20 { assert d[i] == s[i + 3]; }
        else { assert d[i] == s[i + 4]; }
      }
    }
    HexDigitsOfParse(d);
    var t := UuidString(ParseUuid(s).value);
    assert HexDigits(ParseUuid(s).value.value, 32) == d;
    forall i | 0 <= i < 36 ensures t[i] == s[i] {
      if i < 8 { assert t[i] == d[i]; assert d[i] == s[i]; }
      else if i == 8 { }
      else if i < 13 { assert t[i] == d[i - 1]; assert d[i - 1] == s[i]; }
      else if i == 13 { }
      else if i < 18 { assert t[i] == d[i - 2]; assert d[i - 2] == s[i]; }
      else if i == 18 { }
      else if i < 23 { assert t[i] == d[i - 3]; assert d[i - 3] == s[i]; }
      else if i == 23 { }
      else { assert t[i] == d[i - 4]; assert d[i - 4] == s[i]; }
    }
  }

  /** Distinct UUIDs have distinct string forms. */
  lemma UuidStringInjective(a: Uuid, b: Uuid)
    ensures UuidString(a) == UuidString(b) ==> a == b
  {
    UuidRoundTrip(a);
    UuidRoundTrip(b);
  }

  /** str() of an optional UUID: Python renders an absent value as "None". */
  function PyStr(o: Option<Uuid>): string
  {
    match o
    case None => "None"
    case Some(u) => UuidString(u)
  }

  function ParsePyStr(s: string): Option<Option<Uuid>>
  {
    if s == "None" then Some(None)
    else match ParseUuid(s)
      case Some(u) => Some(Some(u))
      case None => None
  }

  lemma PyStrRoundTrip(o: Option<Uuid>)
    ensures ParsePyStr(PyStr(o)) == Some(o)
  {
    if o.Some? {
      UuidRoundTrip(o.value);
      assert |PyStr(o)| == 36;
    }
  }

  /** A parsed str() text is the rendering of what it parses to. */
  lemma ParsePyStrInverse(s: string)
    requires ParsePyStr(s).Some?
    ensures PyStr(ParsePyStr(s).value) == s
  {
    if s != "None" {
      ParseUuidInverse(s);
    }
  }
}
