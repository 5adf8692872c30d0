/** Base64 with the standard alphabet and `=` padding (section 4 of
    RFC 4648): `buf.toString('base64')` and a strict
    `Buffer.from(s, 'base64')`. */
module Base64 {
  import opened Wrappers
  import opened Utf8

  type sextet = x: int | 0 <= x < 64

  /** `A`–`Z`, `a`–`z`, `0`–`9`, `+`, `/`. */
  function Symbol(v: sextet): (c: char) {
    if v < 26 then ('A' as int + v) as char
    else if v < 52 then ('a' as int + v - 26) as char
    else if v < 62 then ('0' as int + v - 52) as char
    else if v == 62 then '+'
    else '/'
  }

  function SymbolValue(c: char): (r: Option<sextet>) {
    if 'A' <= c <= 'Z' then Some(c as int - 'A' as int)
    else if 'a' <= c <= 'z' then Some(c as int - 'a' as int + 26)
    else if '0' <= c <= '9' then Some(c as int - '0' as int + 52)
    else if c == '+' then Some(62)
    else if c == '/' then Some(63)
    else None
  }

  /** The alphabet is a bijection between sextets and its 64 symbols, none
      of which is the pad. */
  lemma SymbolBijective(v: sextet, c: char)
    ensures SymbolValue(Symbol(v)) == Some(v)
    ensures SymbolValue(c) == Some(v) ==> Symbol(v) == c
    ensures Symbol(v) != '='
  {
  }

  /** Three bytes as four symbols. */
  function Quad(b0: byte, b1: byte, b2: byte): (r: string)
    ensures |r| == 4
  {
    [Symbol(b0 / 4), Symbol((b0 % 4) * 16 + b1 / 16), Symbol((b1 % 16) * 4 + b2 / 64), Symbol(b2 % 64)]
  }

  /** A last group of one byte: two symbols and two pads. */
  function Quad1(b0: byte): (r: string)
    ensures |r| == 4
  {
    [Symbol(b0 / 4), Symbol((b0 % 4) * 16), '=', '=']
  }

  /** A last group of two bytes: three symbols and one pad. */
  function Quad2(b0: byte, b1: byte): (r: string)
    ensures |r| == 4
  {
    [Symbol(b0 / 4), Symbol((b0 % 4) * 16 + b1 / 16), Symbol((b1 % 16) * 4), '=']
  }

  function Encode(b: seq<byte>): (r: string)
    ensures |r| % 4 == 0
  {
    if |b| == 0 then []
    else if |b| == 1 then Quad1(b[0])
    else if |b| == 2 then Quad2(b[0], b[1])
    else Quad(b[0], b[1], b[2]) + Encode(b[3..])
  }

  /** Four symbols for every started group of three bytes. */
  lemma {:induction false} EncodeLength(b: seq<byte>)
    ensures |Encode(b)| == 4 * ((|b| + 2) / 3)
    decreases |b|
  {
    if |b| >= 3 {
      EncodeLength(b[3..]);
      assert (|b| + 2) / 3 == (|b| - 1) / 3 + 1;
    }
  }

  /** One group of four symbols. Pads are accepted only in the last group,
      and the bits a pad leaves over must be zero, so every accepted input
      is the encoding of what it decodes to. */
  function DecodeQuad(q: string, last: bool): (r: Option<seq<byte>>)
    requires |q| == 4
    ensures r.Some? ==> 1 <= |r.value| <= 3
    ensures r.Some? && !last ==> |r.value| == 3
  {
    var v0, v1, v2, v3 := SymbolValue(q[0]), SymbolValue(q[1]), SymbolValue(q[2]), SymbolValue(q[3]);
    if v0.None? || v1.None? then None
    else
      var a, b := v0.value, v1.value;
      if v2.Some? && v3.Some? then
        var c, d := v2.value, v3.value;
        Some([a * 4 + b / 16, (b % 16) * 16 + c / 4, (c % 4) * 64 + d])
      else if last && v2.Some? && q[3] == '=' && v2.value % 4 == 0 then
        Some([a * 4 + b / 16, (b % 16) * 16 + v2.value / 4])
      else if last && q[2] == '=' && q[3] == '=' && b % 16 == 0 then
        Some([a * 4 + b / 16])
      else None
  }

  function Decode(s: string): (r: Option<seq<byte>>)
    decreases |s|
  {
    if s == [] then Some([])
    else if |s| < 4 then None
    else
      match DecodeQuad(s[..4], |s| == 4)
      case None => None
      case Some(g) =>
        match Decode(s[4..])
        case None => None
        case Some(rest) => Some(g + rest)
  }

  lemma QuadRoundTrip(b0: byte, b1: byte, b2: byte, last: bool)
    ensures DecodeQuad(Quad(b0, b1, b2), last) == Some([b0, b1, b2])
  {
    var a, b, c, d := b0 / 4, (b0 % 4) * 16 + b1 / 16, (b1 % 16) * 4 + b2 / 64, b2 % 64;
    SymbolBijective(a, '=');
    SymbolBijective(b, '=');
    SymbolBijective(c, '=');
    SymbolBijective(d, '=');
    QuadBits(b0, b1, b2);
  }

  /** The four sextets of three bytes put back together give the bytes. */
  lemma QuadBits(b0: byte, b1: byte, b2: byte)
    ensures var a, b, c, d := b0 / 4, (b0 % 4) * 16 + b1 / 16, (b1 % 16) * 4 + b2 / 64, b2 % 64;
            a * 4 + b / 16 == b0 && (b % 16) * 16 + c / 4 == b1 && (c % 4) * 64 + d == b2
  {
  }

  lemma Quad1RoundTrip(b0: byte)
    ensures DecodeQuad(Quad1(b0), true) == Some([b0])
  {
    SymbolBijective(b0 / 4, '=');
    SymbolBijective((b0 % 4) * 16, '=');
  }

  lemma Quad2RoundTrip(b0: byte, b1: byte)
    ensures DecodeQuad(Quad2(b0, b1), true) == Some([b0, b1])
  {
    SymbolBijective(b0 / 4, '=');
    SymbolBijective((b0 % 4) * 16 + b1 / 16, '=');
    SymbolBijective((b1 % 16) * 4, '=');
  }

  /** A one- or two-byte input is a single padded group. */
  lemma DecodeEncodeShort(b: seq<byte>)
    requires 1 <= |b| <= 2
    ensures Decode(Encode(b)) == Some(b)
  {
    if |b| == 1 {
      Quad1RoundTrip(b[0]);
      DecodeOneGroup(Quad1(b[0]));
      assert [b[0]] == b;
    } else {
      Quad2RoundTrip(b[0], b[1]);
      DecodeOneGroup(Quad2(b[0], b[1]));
      assert [b[0], b[1]] == b;
    }
  }

  /** A text of one group decodes as that last group. */
  lemma DecodeOneGroup(s: string)
    requires |s| == 4
    ensures Decode(s) == DecodeQuad(s, true)
  {
    assert s[..4] == s && s[4..] == [];
    if DecodeQuad(s, true).Some? {
      var g := DecodeQuad(s, true).value;
      assert g + [] == g;
    }
  }

  /** Every byte string survives encoding and decoding. */
  lemma {:induction false} DecodeEncode(b: seq<byte>)
    ensures Decode(Encode(b)) == Some(b)
    decreases |b|
  {
    if 1 <= |b| <= 2 {
      DecodeEncodeShort(b);
    } else if |b| >= 3 {
      var q, rest := Quad(b[0], b[1], b[2]), Encode(b[3..]);
      var s := q + rest;
      assert s[..4] == q && s[4..] == rest;
      QuadRoundTrip(b[0], b[1], b[2], |s| == 4);
      DecodeEncode(b[3..]);
      assert b == [b[0], b[1], b[2]] + b[3..];
    }
  }

  /** The group a quad decodes to encodes back to the quad. */
  lemma QuadCanonical(q: string, last: bool)
    requires |q| == 4 && DecodeQuad(q, last).Some?
    ensures var g := DecodeQuad(q, last).value;
            (|g| == 3 ==> Quad(g[0], g[1], g[2]) == q)
            && (|g| == 2 ==> Quad2(g[0], g[1]) == q)
            && (|g| == 1 ==> Quad1(g[0]) == q)
  {
    var g := DecodeQuad(q, last).value;
    var a, b := SymbolValue(q[0]).value, SymbolValue(q[1]).value;
    SymbolBijective(a, q[0]);
    SymbolBijective(b, q[1]);
    if |g| == 3 {
      var c, d := SymbolValue(q[2]).value, SymbolValue(q[3]).value;
      SymbolBijective(c, q[2]);
      SymbolBijective(d, q[3]);
      assert g[0] / 4 == a && (g[0] % 4) * 16 + g[1] / 16 == b;
      assert (g[1] % 16) * 4 + g[2] / 64 == c && g[2] % 64 == d;
    } else if |g| == 2 {
      var c := SymbolValue(q[2]).value;
      SymbolBijective(c, q[2]);
      assert g[0] / 4 == a && (g[0] % 4) * 16 + g[1] / 16 == b;
      assert (g[1] % 16) * 4 == c;
    } else {
      assert g[0] / 4 == a && (g[0] % 4) * 16 == b;
    }
  }

  /** Decoding accepts only canonical encodings: an accepted text is the
      encoding of what it decodes to. */
  lemma {:induction false} EncodeDecode(s: string)
    requires Decode(s).Some?
    ensures Encode(Decode(s).value) == s
    decreases |s|
  {
    if s != [] {
      var g := DecodeQuad(s[..4], |s| == 4).value;
      QuadCanonical(s[..4], |s| == 4);
      EncodeDecode(s[4..]);
      var rest := Decode(s[4..]).value;
      var b := g + rest;
      assert Decode(s).value == b;
      if |s| == 4 {
        assert s[4..] == [] && rest == [];
        assert b == g;
      } else {
        assert |g| == 3;
        assert b[..3] == g && b[3..] == rest;
      }
      assert s == s[..4] + s[4..];
    }
  }
}
