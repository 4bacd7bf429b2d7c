/** UTF-8 as the platform's `TextEncoder` and `TextDecoder('utf-8', { fatal:
    true })` implement it: encoding a string to the octets of RFC 3629, and
    strict decoding, which fails on any ill-formed sequence (overlong forms,
    surrogates, code points past U+10FFFF, truncated sequences) and, as the
    decoder does by default, drops one leading byte order mark. */
module Utf8 {
  import opened Wrappers
  import opened Bytes

  /** U+FEFF and its encoding. */
  const ByteOrderMark: char := '\U{FEFF}'
  const Bom: seq<byte> := [0xEF, 0xBB, 0xBF]

  predicate IsContinuation(b: byte)
  {
    0x80 <= b <= 0xBF
  }

  /** The octets RFC 3629 assigns to one Unicode scalar value. */
  function EncodeChar(c: char): (b: seq<byte>)
    ensures 1 <= |b| <= 4
  {
    var cp := c as int;
    if cp < 0x80 then [cp]
    else if cp < 0x800 then [0xC0 + cp / 64, 0x80 + cp % 64]
    else if cp < 0x10000 then [0xE0 + cp / 4096, 0x80 + (cp / 64) % 64, 0x80 + cp % 64]
    else [0xF0 + cp / 262144, 0x80 + (cp / 4096) % 64, 0x80 + (cp / 64) % 64, 0x80 + cp % 64]
  }

  /** `new TextEncoder().encode(s)`. */
  function Encode(s: string): (b: seq<byte>)
    ensures |s| <= |b| <= 4 * |s|
  {
    if s == [] then [] else EncodeChar(s[0]) + Encode(s[1..])
  }

  /** The first scalar value of `b` and the number of octets it takes, or
      None when `b` does not start with a well-formed sequence. The second
      octet's range is narrowed after E0, ED, F0 and F4 so that overlong
      forms, surrogates and values past U+10FFFF are refused. */
  function DecodeFirst(b: seq<byte>): (r: Option<(char, nat)>)
    requires b != []
    ensures r.Some? ==> 1 <= r.value.1 <= |b| && r.value.1 <= 4
  {
    var b0: int := b[0];
    if b0 < 0x80 then Some((b0 as char, 1))
    else if 0xC2 <= b0 <= 0xDF then
      if |b| >= 2 && IsContinuation(b[1])
      then
        var b1: int := b[1];
        Some((((b0 - 0xC0) * 64 + (b1 - 0x80)) as char, 2))
      else None
    else if 0xE0 <= b0 <= 0xEF then
      var lo := if b0 == 0xE0 then 0xA0 else 0x80;
      var hi := if b0 == 0xED then 0x9F else 0xBF;
      if |b| >= 3 && lo <= b[1] <= hi && IsContinuation(b[2])
      then
        var b1: int, b2: int := b[1], b[2];
        Some((((b0 - 0xE0) * 4096 + (b1 - 0x80) * 64 + (b2 - 0x80)) as char, 3))
      else None
    else if 0xF0 <= b0 <= 0xF4 then
      var lo := if b0 == 0xF0 then 0x90 else 0x80;
      var hi := if b0 == 0xF4 then 0x8F else 0xBF;
      if |b| >= 4 && lo <= b[1] <= hi && IsContinuation(b[2]) && IsContinuation(b[3])
      then
        var b1: int, b2: int, b3: int := b[1], b[2], b[3];
        Some((((b0 - 0xF0) * 262144 + (b1 - 0x80) * 4096 + (b2 - 0x80) * 64 + (b3 - 0x80)) as char, 4))
      else None
    else None
  }

  /** Strict decoding of a whole octet sequence, without the BOM rule. */
  function DecodeScalars(b: seq<byte>): (r: Option<string>)
    ensures r.Some? ==> |r.value| <= |b|
    decreases |b|
  {
    if b == [] then Some([])
    else match DecodeFirst(b)
      case None => None
      case Some((c, n)) =>
        match DecodeScalars(b[n..])
        case None => None
        case Some(rest) => Some([c] + rest)
  }

  function StripBom(b: seq<byte>): seq<byte>
  {
    if |b| >= 3 && b[..3] == Bom then b[3..] else b
  }

  /** `new TextDecoder('utf-8', { fatal: true }).decode(b)`: None where the
      decoder throws. The decoder accepts only the canonical encoding: what
      it returns encodes back to exactly its input, less a leading BOM. */
  function Decode(b: seq<byte>): (r: Option<string>)
    ensures r.Some? ==> Encode(r.value) == StripBom(b)
  {
    var r := DecodeScalars(StripBom(b));
    if r.Some? then EncodeOfDecodeScalars(StripBom(b)); r else r
  }

  /** Base-64 digits of a code point (of the arithmetic kind, not the
      encoding): `cp` written as `p`, `q`, `m`, `r` has those digits. */
  lemma Digits(cp: int, p: int, q: int, m: int, r: int)
    requires 0 <= p && 0 <= q < 64 && 0 <= m < 64 && 0 <= r < 64
    requires cp == p * 262144 + q * 4096 + m * 64 + r
    ensures cp / 262144 == p && (cp / 4096) % 64 == q && (cp / 64) % 64 == m && cp % 64 == r
    ensures cp / 4096 == p * 64 + q && cp / 64 == p * 4096 + q * 64 + m
  {
    var a, b := p * 4096 + q * 64 + m, p * 64 + q;
    assert cp == a * 64 + r;
    assert cp / 64 == a && cp % 64 == r;
    assert a == b * 64 + m;
    assert a % 64 == m;
    assert cp == b * 4096 + (m * 64 + r);
    assert cp / 4096 == b;
    assert b % 64 == q;
    assert cp == p * 262144 + (q * 4096 + m * 64 + r);
  }

  /** Every non-negative code point has such digits. */
  lemma HasDigits(cp: int)
    requires 0 <= cp
    ensures cp == (cp / 262144) * 262144 + ((cp / 4096) % 64) * 4096 + ((cp / 64) % 64) * 64 + cp % 64
  {
    var a := cp / 64;
    var b := a / 64;
    var p := b / 64;
    assert cp == a * 64 + cp % 64;
    assert a == b * 64 + a % 64;
    assert b == p * 64 + b % 64;
    assert cp == p * 262144 + (b % 64) * 4096 + (a % 64) * 64 + cp % 64;
    Digits(cp, p, b % 64, a % 64, cp % 64);
  }

  lemma DecodeFirstOfEncodeChar(c: char, rest: seq<byte>)
    ensures DecodeFirst(EncodeChar(c) + rest) == Some((c, |EncodeChar(c)|))
  {
    var cp := c as int;
    HasDigits(cp);
    var p, q, m, r := cp / 262144, (cp / 4096) % 64, (cp / 64) % 64, cp % 64;
    Digits(cp, p, q, m, r);
    if cp < 0x80 {
    } else if cp < 0x800 {
      DecodeTwoOctets(c, rest, m, r);
    } else if cp < 0x10000 {
      DecodeThreeOctets(c, rest, q, m, r);
    } else {
      DecodeFourOctets(c, rest, p, q, m, r);
    }
  }

  lemma DecodeTwoOctets(c: char, rest: seq<byte>, m: int, r: int)
    requires 0x80 <= c as int < 0x800 && 0 <= m < 64 && 0 <= r < 64 && c as int == m * 64 + r
    requires c as int / 64 == m && c as int % 64 == r
    ensures DecodeFirst(EncodeChar(c) + rest) == Some((c, 2))
  {
    var b := EncodeChar(c) + rest;
    assert b[0] == 0xC0 + m && b[1] == 0x80 + r;
  }

  lemma DecodeThreeOctets(c: char, rest: seq<byte>, q: int, m: int, r: int)
    requires 0x800 <= c as int < 0x10000 && 0 <= q < 64 && 0 <= m < 64 && 0 <= r < 64
    requires c as int == q * 4096 + m * 64 + r
    requires c as int / 4096 == q && (c as int / 64) % 64 == m && c as int % 64 == r
    ensures DecodeFirst(EncodeChar(c) + rest) == Some((c, 3))
  {
    var b := EncodeChar(c) + rest;
    assert b[0] == 0xE0 + q && b[1] == 0x80 + m && b[2] == 0x80 + r;
  }

  lemma DecodeFourOctets(c: char, rest: seq<byte>, p: int, q: int, m: int, r: int)
    requires 0x10000 <= c as int && 0 <= p && 0 <= q < 64 && 0 <= m < 64 && 0 <= r < 64
    requires c as int == p * 262144 + q * 4096 + m * 64 + r
    requires c as int / 262144 == p && (c as int / 4096) % 64 == q && (c as int / 64) % 64 == m && c as int % 64 == r
    ensures DecodeFirst(EncodeChar(c) + rest) == Some((c, 4))
  {
    var b := EncodeChar(c) + rest;
    assert b[0] == 0xF0 + p && b[1] == 0x80 + q && b[2] == 0x80 + m && b[3] == 0x80 + r;
  }

  lemma {:induction false} DecodeScalarsOfEncode(s: string)
    ensures DecodeScalars(Encode(s)) == Some(s)
    decreases |s|
  {
    if s != [] {
      var e := EncodeChar(s[0]);
      DecodeFirstOfEncodeChar(s[0], Encode(s[1..]));
      assert (e + Encode(s[1..]))[|e|..] == Encode(s[1..]);
      DecodeScalarsOfEncode(s[1..]);
      assert s == [s[0]] + s[1..];
    }
  }

  /** Only U+FEFF encodes to octets that start like a byte order mark. */
  lemma NotBomPrefix(c: char, rest: seq<byte>)
    requires c != ByteOrderMark
    ensures var e := EncodeChar(c) + rest; !(|e| >= 3 && e[..3] == Bom)
  {
    var cp := c as int;
    HasDigits(cp);
    var p, q, m, r := cp / 262144, (cp / 4096) % 64, (cp / 64) % 64, cp % 64;
    Digits(cp, p, q, m, r);
    var e := EncodeChar(c) + rest;
    if cp < 0x80 {
      assert e[0] == cp;
    } else if cp < 0x800 {
      assert e[0] == 0xC0 + cp / 64;
    } else if cp < 0x10000 {
      assert e[0] == 0xE0 + q && e[1] == 0x80 + m && e[2] == 0x80 + r;
    } else {
      assert e[0] == 0xF0 + p;
    }
  }

  /** Encoding then decoding gives the string back, unless it starts with
      U+FEFF, which the decoder takes for a byte order mark and drops. */
  lemma RoundTrip(s: string)
    ensures s == [] || s[0] != ByteOrderMark ==> Decode(Encode(s)) == Some(s)
    ensures s != [] && s[0] == ByteOrderMark ==> Decode(Encode(s)) == Some(s[1..])
  {
    if s != [] {
      var e := Encode(s);
      assert e[..|EncodeChar(s[0])|] == EncodeChar(s[0]);
      if s[0] == ByteOrderMark {
        assert EncodeChar(s[0]) == Bom;
        assert StripBom(e) == Encode(s[1..]);
        DecodeScalarsOfEncode(s[1..]);
      } else {
        NotBomPrefix(s[0], Encode(s[1..]));
        assert StripBom(e) == e;
        DecodeScalarsOfEncode(s);
      }
    } else {
      DecodeScalarsOfEncode(s);
    }
  }

  lemma EncodeCharOfDecodeFirst(b: seq<byte>)
    requires b != [] && DecodeFirst(b).Some?
    ensures EncodeChar(DecodeFirst(b).value.0) == b[..DecodeFirst(b).value.1]
  {
    if b[0] < 0x80 {
      assert b[..1] == [b[0]];
    } else if b[0] <= 0xDF {
      EncodeTwoOctets(b);
    } else if b[0] <= 0xEF {
      EncodeThreeOctets(b);
    } else {
      EncodeFourOctets(b);
    }
  }

  lemma EncodeTwoOctets(b: seq<byte>)
    requires b != [] && DecodeFirst(b).Some? && 0x80 <= b[0] <= 0xDF
    ensures EncodeChar(DecodeFirst(b).value.0) == b[..2]
  {
    var b0: int, b1: int := b[0], b[1];
    var cp := (b0 - 0xC0) * 64 + (b1 - 0x80);
    assert DecodeFirst(b) == Some((cp as char, 2));
    Digits(cp, 0, 0, b0 - 0xC0, b1 - 0x80);
    assert EncodeChar(cp as char) == [b[0], b[1]];
  }

  lemma EncodeThreeOctets(b: seq<byte>)
    requires b != [] && DecodeFirst(b).Some? && 0xE0 <= b[0] <= 0xEF
    ensures EncodeChar(DecodeFirst(b).value.0) == b[..3]
  {
    var b0: int, b1: int, b2: int := b[0], b[1], b[2];
    var cp := (b0 - 0xE0) * 4096 + (b1 - 0x80) * 64 + (b2 - 0x80);
    assert DecodeFirst(b) == Some((cp as char, 3));
    Digits(cp, 0, b0 - 0xE0, b1 - 0x80, b2 - 0x80);
    assert EncodeChar(cp as char) == [b[0], b[1], b[2]];
  }

  lemma EncodeFourOctets(b: seq<byte>)
    requires b != [] && DecodeFirst(b).Some? && 0xF0 <= b[0]
    ensures EncodeChar(DecodeFirst(b).value.0) == b[..4]
  {
    var b0: int, b1: int, b2: int, b3: int := b[0], b[1], b[2], b[3];
    var cp := (b0 - 0xF0) * 262144 + (b1 - 0x80) * 4096 + (b2 - 0x80) * 64 + (b3 - 0x80);
    assert DecodeFirst(b) == Some((cp as char, 4));
    Digits(cp, b0 - 0xF0, b1 - 0x80, b2 - 0x80, b3 - 0x80);
    assert EncodeChar(cp as char) == [b[0], b[1], b[2], b[3]];
  }

  /** A decoding that succeeds is a first scalar value, encoded by the
      first `n` octets, followed by the decoding of the rest. */
  lemma DecodeScalarsStep(b: seq<byte>) returns (c: char, n: nat)
    requires b != [] && DecodeScalars(b).Some?
    ensures 1 <= n <= |b| && EncodeChar(c) == b[..n]
    ensures DecodeScalars(b[n..]).Some? && DecodeScalars(b).value == [c] + DecodeScalars(b[n..]).value
  {
    c, n := DecodeFirst(b).value.0, DecodeFirst(b).value.1;
    EncodeCharOfDecodeFirst(b);
  }

  lemma EncodeCons(c: char, rest: string)
    ensures Encode([c] + rest) == EncodeChar(c) + Encode(rest)
  {
    assert ([c] + rest)[1..] == rest;
  }

  lemma {:induction false} EncodeOfDecodeScalars(b: seq<byte>)
    requires DecodeScalars(b).Some?
    ensures Encode(DecodeScalars(b).value) == b
    decreases |b|
  {
    if b != [] {
      var c, n := DecodeScalarsStep(b);
      EncodeOfDecodeScalars(b[n..]);
      EncodeCons(c, DecodeScalars(b[n..]).value);
      assert b == b[..n] + b[n..];
    }
  }
}
