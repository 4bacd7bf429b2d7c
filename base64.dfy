/** The base64 codec of Node's `Buffer`: `buf.toString('base64')` encodes
    with the alphabet and padding of section 4 of RFC 4648, and
    `Buffer.from(s, 'base64')` decodes leniently: it also accepts the
    URL-safe alphabet of section 5, skips characters outside the alphabet,
    stops at the first '=' and never fails. */
module Base64 {
  import opened Wrappers
  import opened Bytes

  /** A 6-bit group, the value of one base64 character. */
  type Sextet = x: int | 0 <= x < 64

  /** The character section 4 of RFC 4648 assigns to a 6-bit value. */
  function SextetChar(v: Sextet): char
  {
    if v < 26 then ('A' as int + v) as char
    else if v < 52 then ('a' as int + (v - 26)) as char
    else if v < 62 then ('0' as int + (v - 52)) as char
    else if v == 62 then '+'
    else '/'
  }

  /** The value of a character when decoding; None for a character the
      decoder skips. '-' and '_' are the URL-safe spellings of 62 and 63. */
  function CharSextet(c: char): (r: Option<Sextet>)
    ensures r.Some? ==> c != '='
  {
    if 'A' <= c <= 'Z' then Some(c as int - 'A' as int)
    else if 'a' <= c <= 'z' then Some(c as int - 'a' as int + 26)
    else if '0' <= c <= '9' then Some(c as int - '0' as int + 52)
    else if c == '+' || c == '-' then Some(62)
    else if c == '/' || c == '_' then Some(63)
    else None
  }

  lemma CharOfSextet(v: Sextet)
    ensures CharSextet(SextetChar(v)) == Some(v)
  {
  }

  /** Splits the octets into 6-bit groups, three octets to four groups; a
      final one or two octets give two or three groups, the last one padded
      with zero bits. */
  function EncodeSextets(b: seq<byte>): seq<Sextet>
  {
    if |b| == 0 then []
    else if |b| == 1 then [b[0] / 4, (b[0] % 4) * 16]
    else if |b| == 2 then [b[0] / 4, (b[0] % 4) * 16 + b[1] / 16, (b[1] % 16) * 4]
    else [b[0] / 4, (b[0] % 4) * 16 + b[1] / 16, (b[1] % 16) * 4 + b[2] / 64, b[2] % 64]
         + EncodeSextets(b[3..])
  }

  /** The '=' characters that complete the last quantum of the encoding. */
  function Padding(n: nat): string
  {
    if n % 3 == 1 then "==" else if n % 3 == 2 then "=" else ""
  }

  function Chars(q: seq<Sextet>): (s: string)
    ensures |s| == |q|
  {
    seq(|q|, i requires 0 <= i < |q| => SextetChar(q[i]))
  }

  /** `Buffer.from(b).toString('base64')`. */
  function Encode(b: seq<byte>): (s: string)
    ensures |s| == 4 * ((|b| + 2) / 3)
  {
    EncodeSextetsLength(b);
    Chars(EncodeSextets(b)) + Padding(|b|)
  }

  lemma {:induction false} EncodeSextetsLength(b: seq<byte>)
    ensures |EncodeSextets(b)| == 4 * (|b| / 3) + (if |b| % 3 == 0 then 0 else |b| % 3 + 1)
    decreases |b|
  {
    if |b| >= 3 {
      EncodeSextetsLength(b[3..]);
    }
  }

  /** The values of the characters the lenient decoder keeps: those of the
      alphabet, up to the first '='. */
  function Sextets(s: string): (q: seq<Sextet>)
    ensures |q| <= |s|
  {
    if s == [] || s[0] == '=' then []
    else match CharSextet(s[0])
      case Some(v) => [v] + Sextets(s[1..])
      case None => Sextets(s[1..])
  }

  /** Reassembles octets from 6-bit groups, four groups to three octets; a
      final two or three groups give one or two octets, a final single group
      gives nothing. */
  function DecodeSextets(q: seq<Sextet>): (b: seq<byte>)
    ensures |b| == |q| * 3 / 4
  {
    if |q| < 2 then []
    else
      var s0: int, s1: int := q[0], q[1];
      if |q| == 2 then [s0 * 4 + s1 / 16]
      else
        var s2: int := q[2];
        if |q| == 3 then [s0 * 4 + s1 / 16, (s1 % 16) * 16 + s2 / 4]
        else [s0 * 4 + s1 / 16, (s1 % 16) * 16 + s2 / 4, (s2 % 4) * 64 + q[3]]
             + DecodeSextets(q[4..])
  }

  /** `Buffer.from(s, 'base64')`. */
  function Decode(s: string): (b: seq<byte>)
    ensures |b| <= |s|
  {
    DecodeSextets(Sextets(s))
  }

  lemma {:induction false} DecodeEncodeSextets(b: seq<byte>)
    ensures DecodeSextets(EncodeSextets(b)) == b
    decreases |b|
  {
    if |b| >= 3 {
      var q := EncodeSextets(b);
      DecodeEncodeSextets(b[3..]);
      assert q[4..] == EncodeSextets(b[3..]);
      assert b == b[..3] + b[3..];
    }
  }

  lemma {:induction false} SextetsOfChars(q: seq<Sextet>, pad: string)
    requires pad == [] || pad[0] == '='
    ensures Sextets(Chars(q) + pad) == q
    decreases |q|
  {
    if q == [] {
      assert Chars(q) + pad == pad;
    } else {
      var s := Chars(q) + pad;
      CharOfSextet(q[0]);
      assert s[0] == SextetChar(q[0]);
      assert s[1..] == Chars(q[1..]) + pad;
      SextetsOfChars(q[1..], pad);
    }
  }

  /** Decoding what `Encode` produced gives back the original octets. */
  lemma RoundTrip(b: seq<byte>)
    ensures Decode(Encode(b)) == b
  {
    SextetsOfChars(EncodeSextets(b), Padding(|b|));
    DecodeEncodeSextets(b);
  }
}
