/** encodeURIComponent of ECMA-262 (section 19.2.6.5 of the 2023 edition),
    which percent-encodes as in section 2.1 of RFC 3986: every character
    outside A-Z a-z 0-9 - _ . ! ~ * ' ( ) is written as its UTF-8 bytes,
    each as '%' followed by two upper-case hexadecimal digits.

    Characters here are Unicode scalar values, so the URIError that
    encodeURIComponent raises on a lone surrogate cannot arise.

    PercentDecode is the inverse used to show that the encoding loses
    nothing: PercentDecode(EncodeUriComponent(s)) == Some(s). */
module UriEncoding {
  import opened Text
  import opened Options

  /** Characters encodeURIComponent leaves as they are */
  predicate Unreserved(c: char) {
    ('A' <= c <= 'Z') || ('a' <= c <= 'z') || IsDigit(c) ||
    c == '-' || c == '_' || c == '.' || c == '!' || c == '~' ||
    c == '*' || c == '\'' || c == '(' || c == ')'
  }

  function HexDigit(d: nat): (c: char)
    requires d < 16
  {
    if d < 10 then DigitChar(d) else ('A' as int + d - 10) as char
  }

  predicate IsHexDigit(c: char) {
    IsDigit(c) || ('A' <= c <= 'F') || ('a' <= c <= 'f')
  }

  function HexValue(c: char): (d: nat)
    requires IsHexDigit(c)
    ensures d < 16
  {
    if IsDigit(c) then DigitValue(c)
    else if 'A' <= c <= 'F' then c as int - 'A' as int + 10
    else c as int - 'a' as int + 10
  }

  lemma HexValueOfHexDigit(d: nat)
    requires d < 16
    ensures IsHexDigit(HexDigit(d)) && HexValue(HexDigit(d)) == d
  {
  }

  /** The UTF-8 encoding of one code point (RFC 3629, section 3) */
  function Utf8(cp: nat): (bytes: seq<nat>)
    requires cp < 0x11_0000
    ensures 1 <= |bytes| <= 4
    ensures forall i :: 0 <= i < |bytes| ==> bytes[i] < 256
  {
    if cp < 0x80 then [cp]
    else if cp < 0x800 then [0xC0 + cp / 64, 0x80 + cp % 64]
    else if cp < 0x1_0000 then [0xE0 + cp / 4096, 0x80 + (cp / 64) % 64, 0x80 + cp % 64]
    else [0xF0 + cp / 262144, 0x80 + (cp / 4096) % 64, 0x80 + (cp / 64) % 64, 0x80 + cp % 64]
  }

  function PercentByte(b: nat): (s: string)
    requires b < 256
    ensures |s| == 3
  {
    ['%', HexDigit(b / 16), HexDigit(b % 16)]
  }

  function PercentBytes(bytes: seq<nat>): (s: string)
    requires forall i :: 0 <= i < |bytes| ==> bytes[i] < 256
    ensures |s| == 3 * |bytes|
  {
    if bytes == [] then [] else PercentByte(bytes[0]) + PercentBytes(bytes[1..])
  }

  function EncodeChar(c: char): string {
    if Unreserved(c) then [c] else PercentBytes(Utf8(c as int))
  }

  /** encodeURIComponent(s) */
  function EncodeUriComponent(s: string): string {
    if s == [] then [] else EncodeChar(s[0]) + EncodeUriComponent(s[1..])
  }

  /** Written only with unreserved characters, '%' and hexadecimal digits */
  predicate EncodedAlphabet(r: string) {
    forall i :: 0 <= i < |r| ==> Unreserved(r[i]) || r[i] == '%' || IsHexDigit(r[i])
  }

  /** Every encoding is in that alphabet */
  lemma {:induction false} EncodeAlphabet(s: string)
    ensures EncodedAlphabet(EncodeUriComponent(s))
    decreases |s|
  {
    if s != [] {
      EncodeAlphabet(s[1..]);
      var e, rest := EncodeChar(s[0]), EncodeUriComponent(s[1..]);
      if !Unreserved(s[0]) {
        PercentBytesChars(Utf8(s[0] as int));
      }
      assert EncodedAlphabet(e);
      var r := EncodeUriComponent(s);
      assert r == e + rest;
      forall i | 0 <= i < |r| ensures Unreserved(r[i]) || r[i] == '%' || IsHexDigit(r[i]) {
        if i < |e| {
          assert r[i] == e[i];
        } else {
          assert r[i] == rest[i - |e|];
        }
      }
    }
  }

  lemma {:induction false} PercentBytesChars(bytes: seq<nat>)
    requires forall i :: 0 <= i < |bytes| ==> bytes[i] < 256
    ensures forall i :: 0 <= i < |PercentBytes(bytes)| ==>
      PercentBytes(bytes)[i] == '%' || IsHexDigit(PercentBytes(bytes)[i])
    decreases |bytes|
  {
    if bytes != [] {
      PercentBytesChars(bytes[1..]);
      HexValueOfHexDigit(bytes[0] / 16);
      HexValueOfHexDigit(bytes[0] % 16);
    }
  }

  /** The byte written as "%XY" at position 3k of s, if there is one */
  function ByteAt(s: string, k: nat): Option<nat> {
    if 3 * k + 3 <= |s| && s[3 * k] == '%' && IsHexDigit(s[3 * k + 1]) && IsHexDigit(s[3 * k + 2])
    then Some(HexValue(s[3 * k + 1]) * 16 + HexValue(s[3 * k + 2]))
    else None
  }

  lemma {:induction false} ByteAtPercentBytes(bytes: seq<nat>, rest: string, k: nat)
    requires forall i :: 0 <= i < |bytes| ==> bytes[i] < 256
    requires k < |bytes|
    ensures ByteAt(PercentBytes(bytes) + rest, k) == Some(bytes[k])
    decreases |bytes|
  {
    var s := PercentBytes(bytes) + rest;
    if k == 0 {
      HexValueOfHexDigit(bytes[0] / 16);
      HexValueOfHexDigit(bytes[0] % 16);
      assert s[..3] == PercentByte(bytes[0]);
    } else {
      ByteAtPercentBytes(bytes[1..], rest, k - 1);
      assert s[3..] == PercentBytes(bytes[1..]) + rest;
      var t := s[3..];
      assert t[3 * (k - 1)] == s[3 * k];
      assert t[3 * (k - 1) + 1] == s[3 * k + 1];
      assert t[3 * (k - 1) + 2] == s[3 * k + 2];
    }
  }

  predicate IsContinuation(b: Option<nat>) {
    b.Some? && 0x80 <= b.value < 0xC0
  }

  function CodePoint(cp: int): Option<char> {
    if 0 <= cp < 0xD800 || 0xE000 <= cp < 0x11_0000 then Some(cp as char) else None
  }

  /** Decodes the character at the start of s; gives it and how many
      characters of s it took */
  function DecodeOne(s: string): Option<(char, nat)>
    requires s != []
    ensures DecodeOne(s).Some? ==> 0 < DecodeOne(s).value.1 <= |s|
  {
    if s[0] != '%' then Some((s[0], 1))
    else
      var b0 := ByteAt(s, 0);
      if b0.None? then None
      else if b0.value < 0x80 then
        match CodePoint(b0.value)
        case Some(c) => Some((c, 3))
        case None => None
      else if 0xC0 <= b0.value < 0xE0 then
        var b1 := ByteAt(s, 1);
        if !IsContinuation(b1) then None
        else match CodePoint((b0.value - 0xC0) * 64 + (b1.value - 0x80))
          case Some(c) => Some((c, 6))
          case None => None
      else if 0xE0 <= b0.value < 0xF0 then
        var b1, b2 := ByteAt(s, 1), ByteAt(s, 2);
        if !IsContinuation(b1) || !IsContinuation(b2) then None
        else match CodePoint((b0.value - 0xE0) * 4096 + (b1.value - 0x80) * 64 + (b2.value - 0x80))
          case Some(c) => Some((c, 9))
          case None => None
      else if 0xF0 <= b0.value < 0xF8 then
        var b1, b2, b3 := ByteAt(s, 1), ByteAt(s, 2), ByteAt(s, 3);
        if !IsContinuation(b1) || !IsContinuation(b2) || !IsContinuation(b3) then None
        else match CodePoint((b0.value - 0xF0) * 262144 + (b1.value - 0x80) * 4096
                             + (b2.value - 0x80) * 64 + (b3.value - 0x80))
          case Some(c) => Some((c, 12))
          case None => None
      else None
  }

  /** Percent-decoding, the inverse of EncodeUriComponent */
  function PercentDecode(s: string): Option<string>
    decreases |s|
  {
    if s == [] then Some([])
    else match DecodeOne(s)
      case None => None
      case Some((c, n)) =>
        match PercentDecode(s[n..])
        case None => None
        case Some(t) => Some([c] + t)
  }

  lemma DecodeOneUnreserved(c: char, rest: string)
    requires Unreserved(c)
    ensures DecodeOne([c] + rest) == Some((c, 1))
  {
  }

  lemma DivDiv64(n: nat)
    ensures (n / 64) / 64 == n / 4096
    ensures ((n / 64) / 64) / 64 == n / 262144
  {
    var q1, q2, q3 := n / 64, n / 64 / 64, n / 64 / 64 / 64;
    assert n == q1 * 64 + n % 64;
    assert q1 == q2 * 64 + q1 % 64;
    assert q2 == q3 * 64 + q2 % 64;
    assert n == q2 * 4096 + (q1 % 64) * 64 + n % 64;
    assert n == q3 * 262144 + (q2 % 64) * 4096 + (q1 % 64) * 64 + n % 64;
  }

  lemma Utf8Fields(cp: nat)
    requires 0x80 <= cp < 0x11_0000
    ensures var b := Utf8(cp);
      (|b| == 2 ==> 0xC0 <= b[0] < 0xE0 && 0x80 <= b[1] < 0xC0 &&
                    (b[0] - 0xC0) * 64 + (b[1] - 0x80) == cp) &&
      (|b| == 3 ==> 0xE0 <= b[0] < 0xF0 && 0x80 <= b[1] < 0xC0 && 0x80 <= b[2] < 0xC0 &&
                    (b[0] - 0xE0) * 4096 + (b[1] - 0x80) * 64 + (b[2] - 0x80) == cp) &&
      (|b| == 4 ==> 0xF0 <= b[0] < 0xF8 && 0x80 <= b[1] < 0xC0 && 0x80 <= b[2] < 0xC0 &&
                    0x80 <= b[3] < 0xC0 &&
                    (b[0] - 0xF0) * 262144 + (b[1] - 0x80) * 4096 + (b[2] - 0x80) * 64
                    + (b[3] - 0x80) == cp)
  {
    DivDiv64(cp);
    var q1 := cp / 64;
    var q2 := q1 / 64;
    var q3 := q2 / 64;
    assert cp == q1 * 64 + cp % 64;
    assert q1 == q2 * 64 + q1 % 64;
    assert q2 == q3 * 64 + q2 % 64;
  }

  /** DecodeOne on a percent-encoded one-byte character */
  lemma DecodeOneByte(s: string, b0: nat)
    requires s != [] && s[0] == '%' && ByteAt(s, 0) == Some(b0)
    requires b0 < 0x80
    ensures DecodeOne(s) == Some((b0 as char, 3))
  {
  }

  /** DecodeOne on a percent-encoded two-byte UTF-8 sequence */
  lemma DecodeTwoBytes(s: string, b0: nat, b1: nat, cp: nat)
    requires s != [] && s[0] == '%' && ByteAt(s, 0) == Some(b0) && ByteAt(s, 1) == Some(b1)
    requires 0xC0 <= b0 < 0xE0 && 0x80 <= b1 < 0xC0 && (b0 - 0xC0) * 64 + (b1 - 0x80) == cp
    requires CodePoint(cp).Some?
    ensures DecodeOne(s) == Some((CodePoint(cp).value, 6))
  {
  }

  /** DecodeOne on a percent-encoded three-byte UTF-8 sequence */
  lemma DecodeThreeBytes(s: string, b0: nat, b1: nat, b2: nat, cp: nat)
    requires s != [] && s[0] == '%' && ByteAt(s, 0) == Some(b0)
    requires ByteAt(s, 1) == Some(b1) && ByteAt(s, 2) == Some(b2)
    requires 0xE0 <= b0 < 0xF0 && 0x80 <= b1 < 0xC0 && 0x80 <= b2 < 0xC0
    requires (b0 - 0xE0) * 4096 + (b1 - 0x80) * 64 + (b2 - 0x80) == cp
    requires CodePoint(cp).Some?
    ensures DecodeOne(s) == Some((CodePoint(cp).value, 9))
  {
  }

  /** DecodeOne on a percent-encoded four-byte UTF-8 sequence */
  lemma DecodeFourBytes(s: string, b0: nat, b1: nat, b2: nat, b3: nat, cp: nat)
    requires s != [] && s[0] == '%' && ByteAt(s, 0) == Some(b0)
    requires ByteAt(s, 1) == Some(b1) && ByteAt(s, 2) == Some(b2) && ByteAt(s, 3) == Some(b3)
    requires 0xF0 <= b0 < 0xF8 && 0x80 <= b1 < 0xC0 && 0x80 <= b2 < 0xC0 && 0x80 <= b3 < 0xC0
    requires (b0 - 0xF0) * 262144 + (b1 - 0x80) * 4096 + (b2 - 0x80) * 64 + (b3 - 0x80) == cp
    requires CodePoint(cp).Some?
    ensures DecodeOne(s) == Some((CodePoint(cp).value, 12))
  {
  }

  lemma DecodeOneEncoded(c: char, rest: string)
    requires !Unreserved(c)
    ensures DecodeOne(EncodeChar(c) + rest) == Some((c, |EncodeChar(c)|))
  {
    var cp := c as int;
    var bytes := Utf8(cp);
    var s := PercentBytes(bytes) + rest;
    assert EncodeChar(c) == PercentBytes(bytes);
    assert s[0] == '%';
    forall k: nat | k < |bytes| ensures ByteAt(s, k) == Some(bytes[k]) {
      ByteAtPercentBytes(bytes, rest, k);
    }
    assert CodePoint(cp) == Some(c);
    if cp < 0x80 {
      DecodeOneByte(s, bytes[0]);
    } else {
      Utf8Fields(cp);
      if |bytes| == 2 {
        DecodeTwoBytes(s, bytes[0], bytes[1], cp);
      } else if |bytes| == 3 {
        DecodeThreeBytes(s, bytes[0], bytes[1], bytes[2], cp);
      } else {
        DecodeFourBytes(s, bytes[0], bytes[1], bytes[2], bytes[3], cp);
      }
    }
  }


  /** Nothing is lost by the encoding: decoding gives back the name */
  lemma {:induction false} DecodeEncode(s: string)
    ensures PercentDecode(EncodeUriComponent(s)) == Some(s)
    decreases |s|
  {
    if s != [] {
      var e := EncodeChar(s[0]);
      var rest := EncodeUriComponent(s[1..]);
      assert EncodeUriComponent(s) == e + rest;
      if Unreserved(s[0]) {
        DecodeOneUnreserved(s[0], rest);
      } else {
        DecodeOneEncoded(s[0], rest);
      }
      assert (e + rest)[|e|..] == rest;
      DecodeEncode(s[1..]);
      assert [s[0]] + s[1..] == s;
    }
  }

  /** Different names give different encodings */
  lemma EncodeInjective(s: string, t: string)
    requires EncodeUriComponent(s) == EncodeUriComponent(t)
    ensures s == t
  {
    DecodeEncode(s);
    DecodeEncode(t);
  }

  /** A name made only of unreserved characters appears verbatim */
  lemma {:induction false} EncodeUnreservedVerbatim(s: string)
    requires forall i :: 0 <= i < |s| ==> Unreserved(s[i])
    ensures EncodeUriComponent(s) == s
    decreases |s|
  {
    if s != [] {
      EncodeUnreservedVerbatim(s[1..]);
      assert [s[0]] + s[1..] == s;
    }
  }

  /** The encoding never contains '/', so it stays one path segment */
  lemma EncodeHasNoSlash(s: string)
    ensures '/' !in EncodeUriComponent(s)
  {
    EncodeAlphabet(s);
    var r := EncodeUriComponent(s);
    forall i | 0 <= i < |r| ensures r[i] != '/' {
    }
  }

  /** Encoding works character by character */
  lemma {:induction false} EncodeConcat(a: string, b: string)
    ensures EncodeUriComponent(a + b) == EncodeUriComponent(a) + EncodeUriComponent(b)
    decreases |a|
  {
    if a != [] {
      assert (a + b)[0] == a[0];
      assert (a + b)[1..] == a[1..] + b;
      EncodeConcat(a[1..], b);
    } else {
      assert a + b == b;
    }
  }

  /** A space between two unreserved words becomes "%20" */
  lemma EncodeTwoWords(a: string, b: string)
    requires forall i :: 0 <= i < |a| ==> Unreserved(a[i])
    requires forall i :: 0 <= i < |b| ==> Unreserved(b[i])
    ensures EncodeUriComponent(a + " " + b) == a + "%20" + b
  {
    EncodeUnreservedVerbatim(a);
    EncodeUnreservedVerbatim(b);
    EncodeSpace();
    EncodeConcat(a, " ");
    EncodeConcat(a + " ", b);
  }

  lemma EncodeSpace()
    ensures EncodeUriComponent(" ") == "%20"
  {
    assert !Unreserved(' ');
    assert Utf8(32) == [32];
    assert HexDigit(2) == '2' && HexDigit(0) == '0';
    assert PercentBytes([32]) == PercentByte(32) + PercentBytes([]);
    assert EncodeChar(' ') == "%20";
    assert EncodeUriComponent(" ") == EncodeChar(' ') + EncodeUriComponent([]);
  }

  /** "Foo Bar" becomes "Foo%20Bar" */
  lemma EncodeFooBar()
    ensures EncodeUriComponent("Foo Bar") == "Foo%20Bar"
  {
    EncodeTwoWords("Foo", "Bar");
    assert "Foo" + " " + "Bar" == "Foo Bar";
    assert "Foo" + "%20" + "Bar" == "Foo%20Bar";
  }
}
