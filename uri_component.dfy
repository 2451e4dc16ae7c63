/**
 * `encodeURIComponent` and `decodeURIComponent`: percent-encoding (section 2.1 of RFC 3986) of
 * the UTF-8 form (RFC 3629) of a string. Every character outside A-Z a-z 0-9 - _ . ! ~ * ' ( )
 * becomes one `%XX` triple per UTF-8 byte, with upper-case hexadecimal digits.
 */
module UriComponent {
  import opened Wrappers

  type Byte = b: int | 0 <= b < 256

  /** The characters `encodeURIComponent` leaves unescaped. */
  predicate IsUnreserved(c: char) {
    || ('A' <= c <= 'Z') || ('a' <= c <= 'z') || ('0' <= c <= '9')
    || c == '-' || c == '_' || c == '.' || c == '!' || c == '~' || c == '*' || c == '\'' || c == '(' || c == ')'
  }

  predicate IsHexDigit(c: char) {
    ('0' <= c <= '9') || ('A' <= c <= 'F') || ('a' <= c <= 'f')
  }

  predicate IsUpperHexDigit(c: char) {
    ('0' <= c <= '9') || ('A' <= c <= 'F')
  }

  function HexDigit(d: int): (c: char)
    requires 0 <= d < 16
    ensures IsUpperHexDigit(c)
  {
    if d < 10 then (48 + d) as char else (55 + d) as char
  }

  function HexValue(c: char): (d: int)
    requires IsHexDigit(c)
    ensures 0 <= d < 16
  {
    if c <= '9' then c as int - 48 else if c <= 'F' then c as int - 55 else c as int - 87
  }

  /** The UTF-8 encoding of one Unicode scalar value (RFC 3629, section 3). */
  function Utf8(c: char): (bs: seq<Byte>)
    ensures 1 <= |bs| <= 4
  {
    var cp := c as int;
    if cp < 0x80 then [cp]
    else if cp < 0x800 then [0xC0 + cp / 64, 0x80 + cp % 64]
    else if cp < 0x1_0000 then [0xE0 + cp / 4096, 0x80 + (cp / 64) % 64, 0x80 + cp % 64]
    else [0xF0 + cp / 262144, 0x80 + (cp / 4096) % 64, 0x80 + (cp / 64) % 64, 0x80 + cp % 64]
  }

  /** One byte as a `%XX` triple. */
  function Escape(b: Byte): (t: string)
    ensures |t| == 3 && t[0] == '%' && IsUpperHexDigit(t[1]) && IsUpperHexDigit(t[2])
  {
    ['%', HexDigit(b / 16), HexDigit(b % 16)]
  }

  function EscapeAll(bs: seq<Byte>): (t: string)
    ensures |t| == 3 * |bs|
  {
    if bs == [] then [] else Escape(bs[0]) + EscapeAll(bs[1..])
  }

  /** How `encodeURIComponent` writes one character. */
  function EncodeChar(c: char): string {
    if IsUnreserved(c) then [c] else EscapeAll(Utf8(c))
  }

  /** `encodeURIComponent(s)` */
  function Encode(s: string): string {
    if s == [] then [] else EncodeChar(s[0]) + Encode(s[1..])
  }

  /** Text made only of unreserved characters and `%XX` triples with upper-case digits. */
  predicate PercentForm(t: string)
    decreases |t|
  {
    || t == []
    || (IsUnreserved(t[0]) && PercentForm(t[1..]))
    || (|t| >= 3 && t[0] == '%' && IsUpperHexDigit(t[1]) && IsUpperHexDigit(t[2]) && PercentForm(t[3..]))
  }

  /** The byte written as `%XX` at offset `i` of `t`, if there is one. */
  function EscapedByte(t: string, i: nat): Option<Byte> {
    if i + 3 <= |t| && t[i] == '%' && IsHexDigit(t[i + 1]) && IsHexDigit(t[i + 2])
    then Some(HexValue(t[i + 1]) * 16 + HexValue(t[i + 2]))
    else None
  }

  predicate IsContinuation(b: Byte) {
    0x80 <= b < 0xC0
  }

  /**
   * Decodes the escape sequence at the start of `t` into one character and the number of
   * characters it used; `None` is the `URIError` of `decodeURIComponent` (a malformed triple,
   * a stray continuation byte, an overlong form, a surrogate or a value beyond U+10FFFF).
   */
  function DecodeEscape(t: string): (r: Option<(char, nat)>)
    ensures r.Some? ==> 3 <= r.value.1 <= |t|
  {
    match EscapedByte(t, 0)
    case None => None
    case Some(b0) =>
      if b0 < 0x80 then Some((b0 as char, 3))
      else if 0xC0 <= b0 < 0xE0 then
        match EscapedByte(t, 3)
        case Some(b1) =>
          if !IsContinuation(b1) then None
          else
            var cp := (b0 as int - 0xC0) * 64 + (b1 as int - 0x80);
            if cp < 0x80 then None else Some((cp as char, 6))
        case None => None
      else if 0xE0 <= b0 < 0xF0 then
        match (EscapedByte(t, 3), EscapedByte(t, 6))
        case (Some(b1), Some(b2)) =>
          if !IsContinuation(b1) || !IsContinuation(b2) then None
          else
            var cp := (b0 as int - 0xE0) * 4096 + (b1 as int - 0x80) * 64 + (b2 as int - 0x80);
            if cp < 0x800 || (0xD800 <= cp < 0xE000) then None else Some((cp as char, 9))
        case _ => None
      else if 0xF0 <= b0 < 0xF8 then
        match (EscapedByte(t, 3), EscapedByte(t, 6), EscapedByte(t, 9))
        case (Some(b1), Some(b2), Some(b3)) =>
          if !IsContinuation(b1) || !IsContinuation(b2) || !IsContinuation(b3) then None
          else
            var cp := (b0 as int - 0xF0) * 262144 + (b1 as int - 0x80) * 4096 + (b2 as int - 0x80) * 64 + (b3 as int - 0x80);
            if cp < 0x1_0000 || cp >= 0x11_0000 then None else Some((cp as char, 12))
        case _ => None
      else None
  }

  /** `decodeURIComponent(t)`; `None` when it would throw `URIError`. */
  function Decode(t: string): Option<string>
    decreases |t|
  {
    if t == [] then Some([])
    else if t[0] != '%' then
      match Decode(t[1..])
      case Some(rest) => Some([t[0]] + rest)
      case None => None
    else
      match DecodeEscape(t)
      case None => None
      case Some((c, n)) =>
        match Decode(t[n..])
        case Some(rest) => Some([c] + rest)
        case None => None
  }

  lemma HexDigitValue(d: int)
    requires 0 <= d < 16
    ensures IsHexDigit(HexDigit(d)) && HexValue(HexDigit(d)) == d
  {
  }

  /** A `%XX` triple written by `Escape` reads back as the same byte. */
  lemma EscapedByteOfEscape(b: Byte, rest: string)
    ensures EscapedByte(Escape(b) + rest, 0) == Some(b)
  {
    HexDigitValue(b / 16);
    HexDigitValue(b % 16);
  }

  lemma EscapedByteAt(bs: seq<Byte>, rest: string, k: nat)
    requires k < |bs|
    ensures EscapedByte(EscapeAll(bs) + rest, 3 * k) == Some(bs[k])
    decreases k
  {
    var t := EscapeAll(bs) + rest;
    if k == 0 {
      assert t == Escape(bs[0]) + (EscapeAll(bs[1..]) + rest);
      EscapedByteOfEscape(bs[0], EscapeAll(bs[1..]) + rest);
    } else {
      EscapedByteAt(bs[1..], rest, k - 1);
      var u := EscapeAll(bs[1..]) + rest;
      assert t == Escape(bs[0]) + u;
      assert t[3 * k..3 * k + 3] == u[3 * (k - 1)..3 * (k - 1) + 3];
    }
  }

  /** The leading byte and continuation bytes of `Utf8(c)` recombine to the code point of `c`. */
  lemma Utf8Recombines(c: char)
    ensures var cp, bs := c as int, Utf8(c);
      && (|bs| == 1 ==> cp < 0x80 && bs[0] == cp)
      && (|bs| == 2 ==> (0x80 <= cp < 0x800 && 0xC0 <= bs[0] < 0xE0 && IsContinuation(bs[1])
            && (bs[0] as int - 0xC0) * 64 + (bs[1] as int - 0x80) == cp))
      && (|bs| == 3 ==> (0x800 <= cp < 0x1_0000 && 0xE0 <= bs[0] < 0xF0 && IsContinuation(bs[1]) && IsContinuation(bs[2])
            && (bs[0] as int - 0xE0) * 4096 + (bs[1] as int - 0x80) * 64 + (bs[2] as int - 0x80) == cp))
      && (|bs| == 4 ==> (0x1_0000 <= cp < 0x11_0000 && 0xF0 <= bs[0] < 0xF8 && IsContinuation(bs[1])
            && IsContinuation(bs[2]) && IsContinuation(bs[3])
            && (bs[0] as int - 0xF0) * 262144 + (bs[1] as int - 0x80) * 4096 + (bs[2] as int - 0x80) * 64 + (bs[3] as int - 0x80) == cp))
  {
    var cp := c as int;
    if 0x800 <= cp < 0x1_0000 {
      var q := cp / 64;
      assert cp == q * 64 + cp % 64;
      assert q == (q / 64) * 64 + q % 64;
      assert q / 64 == cp / 4096;
    } else if cp >= 0x1_0000 {
      var q := cp / 64;
      var q2 := q / 64;
      assert cp == q * 64 + cp % 64;
      assert q == q2 * 64 + q % 64;
      assert q2 == (q2 / 64) * 64 + q2 % 64;
      assert q2 == cp / 4096;
      assert q2 / 64 == cp / 262144;
    }
  }

  /** `decodeURIComponent` reads the escapes of one non-unreserved character back as that character. */
  lemma DecodeEscapeOfChar(c: char, rest: string)
    requires !IsUnreserved(c)
    ensures DecodeEscape(EncodeChar(c) + rest) == Some((c, |EncodeChar(c)|))
  {
    var bs := Utf8(c);
    var t := EncodeChar(c) + rest;
    assert EncodeChar(c) == EscapeAll(bs);
    Utf8Recombines(c);
    EscapedByteAt(bs, rest, 0);
    if |bs| >= 2 {
      EscapedByteAt(bs, rest, 1);
    }
    if |bs| >= 3 {
      EscapedByteAt(bs, rest, 2);
    }
    if |bs| == 4 {
      EscapedByteAt(bs, rest, 3);
    }
  }

  /** `decodeURIComponent(encodeURIComponent(s)) == s` for every string. */
  lemma {:induction false} DecodeEncode(s: string)
    ensures Decode(Encode(s)) == Some(s)
  {
    if s != [] {
      var c := s[0];
      var rest := Encode(s[1..]);
      DecodeEncode(s[1..]);
      if IsUnreserved(c) {
        assert Encode(s) == [c] + rest;
        assert Encode(s)[1..] == rest;
      } else {
        DecodeEscapeOfChar(c, rest);
        var n := |EncodeChar(c)|;
        assert Encode(s)[n..] == rest;
      }
      assert s == [c] + s[1..];
    }
  }

  lemma {:induction false} PercentFormEscapes(bs: seq<Byte>, rest: string)
    requires PercentForm(rest)
    ensures PercentForm(EscapeAll(bs) + rest)
  {
    if bs != [] {
      PercentFormEscapes(bs[1..], rest);
      var t := EscapeAll(bs) + rest;
      assert t == Escape(bs[0]) + (EscapeAll(bs[1..]) + rest);
      assert t[3..] == EscapeAll(bs[1..]) + rest;
      assert t[..3] == Escape(bs[0]);
      assert t[0] == '%' && IsUpperHexDigit(t[1]) && IsUpperHexDigit(t[2]);
    } else {
      assert EscapeAll(bs) + rest == rest;
    }
  }

  /** The output of `encodeURIComponent` holds only unreserved characters and `%XX` triples. */
  lemma {:induction false} EncodeIsPercentForm(s: string)
    ensures PercentForm(Encode(s))
  {
    if s != [] {
      EncodeIsPercentForm(s[1..]);
      if IsUnreserved(s[0]) {
        assert Encode(s)[1..] == Encode(s[1..]);
      } else {
        PercentFormEscapes(Utf8(s[0]), Encode(s[1..]));
      }
    }
  }

  /** Every character of a percent-form text is unreserved, `%`, or an upper-case hexadecimal digit. */
  lemma {:induction false} PercentFormChars(t: string)
    requires PercentForm(t)
    ensures forall k :: 0 <= k < |t| ==> IsUnreserved(t[k]) || t[k] == '%' || IsUpperHexDigit(t[k])
    decreases |t|
  {
    if t != [] {
      if IsUnreserved(t[0]) && PercentForm(t[1..]) {
        PercentFormChars(t[1..]);
        assert forall k :: 1 <= k < |t| ==> t[k] == t[1..][k - 1];
      } else {
        PercentFormChars(t[3..]);
        assert forall k :: 3 <= k < |t| ==> t[k] == t[3..][k - 3];
      }
    }
  }

  /**
   * No raw space, line break, `&`, `#`, `=` or `?` survives `encodeURIComponent`, so the
   * encoded text cannot end or split a query-string value.
   */
  lemma EncodeHasNoDelimiters(s: string)
    ensures forall k :: 0 <= k < |Encode(s)| ==> Encode(s)[k] !in {' ', '\n', '&', '#', '=', '?'}
  {
    EncodeIsPercentForm(s);
    PercentFormChars(Encode(s));
  }
}
