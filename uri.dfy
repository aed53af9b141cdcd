/**
 * `encodeURIComponent` as section 18.2.6.5 of ECMA-262 (editions 2015 to
 * 2020) defines it: every code point outside `A-Z a-z 0-9 - _ . ! ~ * ' ( )`
 * is written as its UTF-8 bytes, each as `%XX` with upper-case hex digits
 * (section 2.1 of RFC 3986). A string here is a sequence of Unicode scalar
 * values, so the URIError for a lone surrogate cannot arise.
 * `DecodeComponent` is the matching decoder, used to state the round trip.
 */
module Uri {
  import opened Wrappers
  import opened Strings

  /** The characters `encodeURIComponent` leaves alone (uriUnreserved). */
  predicate Unescaped(c: char) {
    IsUpper(c) || IsLowerLetter(c) || IsDigit(c)
    || c == '-' || c == '_' || c == '.' || c == '!' || c == '~' || c == '*' || c == '\'' || c == '(' || c == ')'
  }

  const HexDigits := "0123456789ABCDEF"

  predicate IsHex(c: char) { IsDigit(c) || 'A' <= c <= 'F' || 'a' <= c <= 'f' }

  function HexValue(c: char): (v: nat)
    requires IsHex(c)
    ensures v < 16
  {
    if IsDigit(c) then c as int - '0' as int
    else if 'A' <= c <= 'F' then c as int - 'A' as int + 10
    else c as int - 'a' as int + 10
  }

  lemma HexDigitValue(d: nat)
    requires d < 16
    ensures IsHex(HexDigits[d]) && HexValue(HexDigits[d]) == d
  {
  }

  /** One byte as `%XX`. */
  function PercentByte(b: nat): (r: string)
    requires b < 256
    ensures |r| == 3 && r[0] == '%'
  {
    ['%', HexDigits[b / 16], HexDigits[b % 16]]
  }

  function PercentBytes(bs: seq<nat>): (r: string)
    requires forall i :: 0 <= i < |bs| ==> bs[i] < 256
    ensures |r| == 3 * |bs|
  {
    if bs == [] then [] else PercentByte(bs[0]) + PercentBytes(bs[1..])
  }

  /** The UTF-8 encoding of a code point (UTF8Encoding in ECMA-262, table 46). */
  function Utf8(cp: nat): (bs: seq<nat>)
    requires cp <= 0x10FFFF
    ensures 1 <= |bs| <= 4
    ensures forall i :: 0 <= i < |bs| ==> bs[i] < 256
  {
    if cp < 0x80 then [cp]
    else if cp < 0x800 then [0xC0 + cp / 64, 0x80 + cp % 64]
    else if cp < 0x10000 then [0xE0 + cp / 4096, 0x80 + (cp / 64) % 64, 0x80 + cp % 64]
    else [0xF0 + cp / 262144, 0x80 + (cp / 4096) % 64, 0x80 + (cp / 64) % 64, 0x80 + cp % 64]
  }

  function EncodeChar(c: char): (r: string)
    ensures |r| > 0
  {
    if Unescaped(c) then [c] else PercentBytes(Utf8(c as int))
  }

  /** `encodeURIComponent(s)`. */
  function EncodeComponent(s: string): string {
    if s == [] then [] else EncodeChar(s[0]) + EncodeComponent(s[1..])
  }

  // Decoding.

  /** The byte written as `%XX` at position `i` of `s`, if there is one. */
  function ByteAt(s: string, i: nat): Option<nat> {
    if i + 3 <= |s| && s[i] == '%' && IsHex(s[i + 1]) && IsHex(s[i + 2])
    then Some(HexValue(s[i + 1]) * 16 + HexValue(s[i + 2]))
    else None
  }

  predicate IsContinuation(b: Option<nat>) { b.Some? && 0x80 <= b.value < 0xC0 }

  predicate IsScalar(cp: int) { 0 <= cp < 0xD800 || 0xE000 <= cp <= 0x10FFFF }

  function ToChar(cp: int): Option<char> {
    if IsScalar(cp) then Some(cp as char) else None
  }

  /** Decodes the character at the front of `s` and says how much of `s` it used. */
  function DecodeOne(s: string): (r: Option<(char, nat)>)
    requires s != []
    ensures r.Some? ==> 1 <= r.value.1 <= |s|
  {
    if s[0] != '%' then Some((s[0], 1))
    else
      var b0 := ByteAt(s, 0);
      if b0.None? then None
      else if b0.value < 0x80 then Some((b0.value as char, 3))
      else if 0xC2 <= b0.value < 0xE0 then
        var b1 := ByteAt(s, 3);
        if !IsContinuation(b1) then None
        else match ToChar((b0.value - 0xC0) * 64 + (b1.value - 0x80))
          case Some(c) => Some((c, 6))
          case None => None
      else if 0xE0 <= b0.value < 0xF0 then
        var b1, b2 := ByteAt(s, 3), ByteAt(s, 6);
        if !IsContinuation(b1) || !IsContinuation(b2) then None
        else match ToChar((b0.value - 0xE0) * 4096 + (b1.value - 0x80) * 64 + (b2.value - 0x80))
          case Some(c) => Some((c, 9))
          case None => None
      else if 0xF0 <= b0.value < 0xF8 then
        var b1, b2, b3 := ByteAt(s, 3), ByteAt(s, 6), ByteAt(s, 9);
        if !IsContinuation(b1) || !IsContinuation(b2) || !IsContinuation(b3) then None
        else match ToChar((b0.value - 0xF0) * 262144 + (b1.value - 0x80) * 4096 + (b2.value - 0x80) * 64 + (b3.value - 0x80))
          case Some(c) => Some((c, 12))
          case None => None
      else None
  }

  /** `decodeURIComponent(s)`, `None` where it would throw. */
  function DecodeComponent(s: string): Option<string>
    decreases |s|
  {
    if s == [] then Some([])
    else match DecodeOne(s)
      case None => None
      case Some(p) =>
        match DecodeComponent(s[p.1..])
        case None => None
        case Some(rest) => Some([p.0] + rest)
  }

  // The round trip.

  /** A `%XX` triplet reads back as its byte. */
  lemma ByteAtTriplet(s: string, i: nat, b: nat)
    requires b < 256 && i + 3 <= |s| && s[i..i + 3] == PercentByte(b)
    ensures ByteAt(s, i) == Some(b)
  {
    assert s[i] == s[i..i + 3][0] && s[i + 1] == s[i..i + 3][1] && s[i + 2] == s[i..i + 3][2];
    HexDigitValue(b / 16);
    HexDigitValue(b % 16);
  }

  lemma {:induction false} PercentBytesSlice(bs: seq<nat>, i: nat)
    requires forall k :: 0 <= k < |bs| ==> bs[k] < 256
    requires i < |bs|
    ensures PercentBytes(bs)[3 * i..3 * i + 3] == PercentByte(bs[i])
  {
    var t := PercentBytes(bs[1..]);
    assert PercentBytes(bs) == PercentByte(bs[0]) + t;
    if i > 0 {
      PercentBytesSlice(bs[1..], i - 1);
      assert (PercentByte(bs[0]) + t)[3 * i..3 * i + 3] == t[3 * (i - 1)..3 * (i - 1) + 3];
    }
  }

  /** Byte `i` of the escaped code point reads back from the encoded text. */
  lemma ByteOfEscape(c: char, rest: string, i: nat)
    requires !Unescaped(c) && i < |Utf8(c as int)|
    ensures ByteAt(EncodeChar(c) + rest, 3 * i) == Some(Utf8(c as int)[i])
  {
    var bs := Utf8(c as int);
    var s := EncodeChar(c) + rest;
    PercentBytesSlice(bs, i);
    assert s[3 * i..3 * i + 3] == PercentBytes(bs)[3 * i..3 * i + 3];
    ByteAtTriplet(s, 3 * i, bs[i]);
  }

  lemma Split64(x: nat)
    ensures x == (x / 64) * 64 + x % 64
    ensures x / 4096 == (x / 64) / 64
    ensures x / 262144 == (x / 4096) / 64
  {
  }

  /** The escape of one character decodes back to it, whatever follows. */
  lemma DecodeOneEncoded(c: char, rest: string)
    ensures DecodeOne(EncodeChar(c) + rest) == Some((c, |EncodeChar(c)|))
  {
    var s := EncodeChar(c) + rest;
    if !Unescaped(c) {
      var cp := c as int;
      var bs := Utf8(cp);
      assert s[0] == PercentBytes(bs)[0] == '%';
      ByteOfEscape(c, rest, 0);
      if cp < 0x80 {
      } else if cp < 0x800 {
        DecodeTwo(c, rest);
      } else if cp < 0x10000 {
        DecodeThree(c, rest);
      } else {
        DecodeFour(c, rest);
      }
    }
  }

  /** The decoder's two-byte branch, on bytes already read. */
  lemma DecodeTwoBytes(s: string, b0: nat, b1: nat, c: char)
    requires s != [] && s[0] == '%' && ByteAt(s, 0) == Some(b0) && ByteAt(s, 3) == Some(b1)
    requires 0xC2 <= b0 < 0xE0 && 0x80 <= b1 < 0xC0
    requires (b0 - 0xC0) * 64 + (b1 - 0x80) == c as int
    ensures DecodeOne(s) == Some((c, 6))
  {
    assert ToChar(c as int) == Some(c);
  }

  /** The decoder's three-byte branch, on bytes already read. */
  lemma DecodeThreeBytes(s: string, b0: nat, b1: nat, b2: nat, c: char)
    requires s != [] && s[0] == '%' && ByteAt(s, 0) == Some(b0)
    requires ByteAt(s, 3) == Some(b1) && ByteAt(s, 6) == Some(b2)
    requires 0xE0 <= b0 < 0xF0 && 0x80 <= b1 < 0xC0 && 0x80 <= b2 < 0xC0
    requires (b0 - 0xE0) * 4096 + (b1 - 0x80) * 64 + (b2 - 0x80) == c as int
    ensures DecodeOne(s) == Some((c, 9))
  {
    assert ToChar(c as int) == Some(c);
  }

  /** The decoder's four-byte branch, on bytes already read. */
  lemma DecodeFourBytes(s: string, b0: nat, b1: nat, b2: nat, b3: nat, c: char)
    requires s != [] && s[0] == '%' && ByteAt(s, 0) == Some(b0)
    requires ByteAt(s, 3) == Some(b1) && ByteAt(s, 6) == Some(b2) && ByteAt(s, 9) == Some(b3)
    requires 0xF0 <= b0 < 0xF8 && 0x80 <= b1 < 0xC0 && 0x80 <= b2 < 0xC0 && 0x80 <= b3 < 0xC0
    requires (b0 - 0xF0) * 262144 + (b1 - 0x80) * 4096 + (b2 - 0x80) * 64 + (b3 - 0x80) == c as int
    ensures DecodeOne(s) == Some((c, 12))
  {
    assert ToChar(c as int) == Some(c);
  }

  lemma Utf8Two(cp: nat)
    requires 0x80 <= cp < 0x800
    ensures var bs := Utf8(cp);
      0xC2 <= bs[0] < 0xE0 && 0x80 <= bs[1] < 0xC0 && (bs[0] - 0xC0) * 64 + (bs[1] - 0x80) == cp
  {
    Split64(cp);
  }

  lemma DecodeTwo(c: char, rest: string)
    requires !Unescaped(c) && 0x80 <= c as int < 0x800
    ensures DecodeOne(EncodeChar(c) + rest) == Some((c, |EncodeChar(c)|))
  {
    var s := EncodeChar(c) + rest;
    var bs := Utf8(c as int);
    assert |bs| == 2;
    assert EncodeChar(c) == PercentBytes(bs) && |EncodeChar(c)| == 6;
    assert s[0] == PercentBytes(bs)[0] == '%';
    ByteOfEscape(c, rest, 0);
    ByteOfEscape(c, rest, 1);
    Utf8Two(c as int);
    DecodeTwoBytes(s, bs[0], bs[1], c);
  }

  lemma Utf8Three(cp: nat)
    requires 0x800 <= cp < 0x10000
    ensures var bs := Utf8(cp);
      0xE0 <= bs[0] < 0xF0 && 0x80 <= bs[1] < 0xC0 && 0x80 <= bs[2] < 0xC0
      && (bs[0] - 0xE0) * 4096 + (bs[1] - 0x80) * 64 + (bs[2] - 0x80) == cp
  {
    Split64(cp);
    Split64(cp / 64);
  }

  lemma Utf8Four(cp: nat)
    requires 0x10000 <= cp <= 0x10FFFF
    ensures var bs := Utf8(cp);
      0xF0 <= bs[0] < 0xF8 && 0x80 <= bs[1] < 0xC0 && 0x80 <= bs[2] < 0xC0 && 0x80 <= bs[3] < 0xC0
      && (bs[0] - 0xF0) * 262144 + (bs[1] - 0x80) * 4096 + (bs[2] - 0x80) * 64 + (bs[3] - 0x80) == cp
  {
    Split64(cp);
    Split64(cp / 64);
    Split64(cp / 4096);
  }

  lemma DecodeThree(c: char, rest: string)
    requires !Unescaped(c) && 0x800 <= c as int < 0x10000
    ensures DecodeOne(EncodeChar(c) + rest) == Some((c, |EncodeChar(c)|))
  {
    var s := EncodeChar(c) + rest;
    var bs := Utf8(c as int);
    assert |bs| == 3;
    assert EncodeChar(c) == PercentBytes(bs) && |EncodeChar(c)| == 9;
    assert s[0] == PercentBytes(bs)[0] == '%';
    ByteOfEscape(c, rest, 0);
    ByteOfEscape(c, rest, 1);
    ByteOfEscape(c, rest, 2);
    Utf8Three(c as int);
    DecodeThreeBytes(s, bs[0], bs[1], bs[2], c);
  }

  lemma DecodeFour(c: char, rest: string)
    requires !Unescaped(c) && 0x10000 <= c as int
    ensures DecodeOne(EncodeChar(c) + rest) == Some((c, |EncodeChar(c)|))
  {
    var s := EncodeChar(c) + rest;
    var bs := Utf8(c as int);
    assert |bs| == 4;
    assert EncodeChar(c) == PercentBytes(bs) && |EncodeChar(c)| == 12;
    assert s[0] == PercentBytes(bs)[0] == '%';
    ByteOfEscape(c, rest, 0);
    ByteOfEscape(c, rest, 1);
    ByteOfEscape(c, rest, 2);
    ByteOfEscape(c, rest, 3);
    Utf8Four(c as int);
    DecodeFourBytes(s, bs[0], bs[1], bs[2], bs[3], c);
  }

  lemma {:induction false} EncodeComponentAppend(c: char, s: string)
    ensures EncodeComponent([c] + s) == EncodeChar(c) + EncodeComponent(s)
  {
    assert ([c] + s)[1..] == s;
  }

  /** `decodeURIComponent(encodeURIComponent(s)) == s`. */
  lemma {:induction false} ComponentRoundTrip(s: string)
    ensures DecodeComponent(EncodeComponent(s)) == Some(s)
    decreases |s|
  {
    if s != [] {
      var e := EncodeChar(s[0]);
      var rest := EncodeComponent(s[1..]);
      DecodeOneEncoded(s[0], rest);
      assert (e + rest)[|e|..] == rest;
      ComponentRoundTrip(s[1..]);
      assert [s[0]] + s[1..] == s;
    }
  }

  /**
   * What `encodeURIComponent` emits: unescaped characters, `%` and upper-case
   * hex digits only, so no `&`, `=`, `+` or space survives raw.
   */
  predicate EncodedChar(c: char) { Unescaped(c) || c == '%' || IsDigit(c) || 'A' <= c <= 'F' }

  lemma {:induction false} EncodedChars(s: string)
    ensures forall i :: 0 <= i < |EncodeComponent(s)| ==> EncodedChar(EncodeComponent(s)[i])
  {
    if s != [] {
      EncodedChars(s[1..]);
      var e := EncodeChar(s[0]);
      if !Unescaped(s[0]) {
        PercentBytesChars(Utf8(s[0] as int));
      }
      assert forall i :: 0 <= i < |e| ==> EncodedChar(e[i]);
    }
  }

  lemma {:induction false} PercentBytesChars(bs: seq<nat>)
    requires forall i :: 0 <= i < |bs| ==> bs[i] < 256
    ensures forall i :: 0 <= i < |PercentBytes(bs)| ==> EncodedChar(PercentBytes(bs)[i])
  {
    if bs != [] {
      PercentBytesChars(bs[1..]);
      var p := PercentByte(bs[0]);
      assert forall i :: 0 <= i < 16 ==> EncodedChar(HexDigits[i]);
      assert EncodedChar(p[1]) && EncodedChar(p[2]);
    }
  }

  lemma NoSeparatorsInComponent(s: string)
    ensures '&' !in EncodeComponent(s) && '=' !in EncodeComponent(s)
  {
    EncodedChars(s);
  }
}
