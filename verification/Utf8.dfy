/** UTF-8 (RFC 3629): what `Buffer.from(s)` and `buf.toString('utf-8')`
    do to the stored IRZ+ password. A Dafny `char` is a Unicode scalar
    value, so every string has an encoding. */
module Utf8 {
  import opened Wrappers

  type byte = x: int | 0 <= x < 256

  predicate IsScalar(n: int) {
    0 <= n < 0xD800 || 0xE000 <= n < 0x11_0000
  }

  predicate IsCont(b: byte) {
    0x80 <= b < 0xC0
  }

  /** The shortest encoding of one scalar value: 1 to 4 bytes. */
  function EncodeChar(c: char): (r: seq<byte>)
    ensures 1 <= |r| <= 4
    ensures forall k :: 1 <= k < |r| ==> IsCont(r[k])
  {
    var n := c as int;
    if n < 0x80 then [n]
    else if n < 0x800 then [0xC0 + n / 64, 0x80 + n % 64]
    else if n < 0x1_0000 then [0xE0 + n / 4096, 0x80 + (n / 64) % 64, 0x80 + n % 64]
    else [0xF0 + n / 262144, 0x80 + (n / 4096) % 64, 0x80 + (n / 64) % 64, 0x80 + n % 64]
  }

  function Encode(s: string): (r: seq<byte>)
    ensures |r| >= |s|
  {
    if s == [] then [] else EncodeChar(s[0]) + Encode(s[1..])
  }

  /** The scalar value at the front of `b` and the number of bytes it
      takes; overlong forms, surrogates and values past U+10FFFF are
      rejected. */
  function DecodeFirst(b: seq<byte>): (r: Option<(char, nat)>)
    requires |b| > 0
    ensures r.Some? ==> 1 <= r.value.1 <= |b| && r.value.1 <= 4
  {
    var b0: int := b[0];
    if b0 < 0x80 then Some((b0 as char, 1))
    else if 0xC2 <= b0 < 0xE0 then
      if |b| >= 2 && IsCont(b[1]) then
        var n := (b0 - 0xC0) * 64 + (b[1] as int - 0x80);
        Some((n as char, 2))
      else None
    else if 0xE0 <= b0 < 0xF0 then
      if |b| >= 3 && IsCont(b[1]) && IsCont(b[2]) then
        var n := (b0 - 0xE0) * 4096 + (b[1] as int - 0x80) * 64 + (b[2] as int - 0x80);
        if 0x800 <= n && IsScalar(n) then Some((n as char, 3)) else None
      else None
    else if 0xF0 <= b0 < 0xF5 then
      if |b| >= 4 && IsCont(b[1]) && IsCont(b[2]) && IsCont(b[3]) then
        var n := (b0 - 0xF0) * 262144 + (b[1] as int - 0x80) * 4096 + (b[2] as int - 0x80) * 64 + (b[3] as int - 0x80);
        if 0x1_0000 <= n < 0x11_0000 then Some((n as char, 4)) else None
      else None
    else None
  }

  /** Strict decoding: the whole input must be well-formed UTF-8. */
  function Decode(b: seq<byte>): (r: Option<string>)
    decreases |b|
  {
    if b == [] then Some([])
    else
      match DecodeFirst(b)
      case None => None
      case Some((c, len)) =>
        match Decode(b[len..])
        case None => None
        case Some(rest) => Some([c] + rest)
  }

  /** Base-64 digits: `q * 64 + r` splits back into `q` and `r`. */
  lemma Digits64(q: int, r: int)
    requires 0 <= r < 64
    ensures (q * 64 + r) / 64 == q && (q * 64 + r) % 64 == r
  {
  }

  lemma EncodeChar2(c: char, rest: seq<byte>)
    requires 0x80 <= c as int < 0x800
    ensures DecodeFirst(EncodeChar(c) + rest) == Some((c, 2))
  {
    var n := c as int;
    var b := EncodeChar(c) + rest;
    assert b[0] as int - 0xC0 == n / 64 && b[1] as int - 0x80 == n % 64;
  }

  lemma EncodeChar3(c: char, rest: seq<byte>)
    requires 0x800 <= c as int < 0x1_0000
    ensures DecodeFirst(EncodeChar(c) + rest) == Some((c, 3))
  {
    var n := c as int;
    var b := EncodeChar(c) + rest;
    var d0, d1, d2 := n / 4096, (n / 64) % 64, n % 64;
    assert b[0] as int - 0xE0 == d0 && b[1] as int - 0x80 == d1 && b[2] as int - 0x80 == d2;
    assert n / 64 == d0 * 64 + d1;
    assert d0 * 4096 + d1 * 64 + d2 == n;
  }

  lemma EncodeChar4(c: char, rest: seq<byte>)
    requires 0x1_0000 <= c as int
    ensures DecodeFirst(EncodeChar(c) + rest) == Some((c, 4))
  {
    var n := c as int;
    var b := EncodeChar(c) + rest;
    var d0, d1, d2, d3 := n / 262144, (n / 4096) % 64, (n / 64) % 64, n % 64;
    assert b[0] as int - 0xF0 == d0 && b[1] as int - 0x80 == d1;
    assert b[2] as int - 0x80 == d2 && b[3] as int - 0x80 == d3;
    assert n / 4096 == d0 * 64 + d1;
    assert n / 64 == (d0 * 64 + d1) * 64 + d2;
    assert d0 * 262144 + d1 * 4096 + d2 * 64 + d3 == n;
  }

  /** Decoding reads back the character an encoding starts with, whatever
      follows it. */
  lemma DecodeFirstEncodeChar(c: char, rest: seq<byte>)
    ensures DecodeFirst(EncodeChar(c) + rest) == Some((c, |EncodeChar(c)|))
  {
    var n := c as int;
    if n < 0x80 {
    } else if n < 0x800 {
      EncodeChar2(c, rest);
    } else if n < 0x1_0000 {
      EncodeChar3(c, rest);
    } else {
      EncodeChar4(c, rest);
    }
  }

  lemma Decoded2(b: seq<byte>)
    requires |b| > 0 && DecodeFirst(b).Some? && DecodeFirst(b).value.1 == 2
    ensures EncodeChar(DecodeFirst(b).value.0) == b[..2]
  {
    var n := DecodeFirst(b).value.0 as int;
    var d0, d1 := b[0] as int - 0xC0, b[1] as int - 0x80;
    assert n == d0 * 64 + d1;
    Digits64(d0, d1);
  }

  lemma Decoded3(b: seq<byte>)
    requires |b| > 0 && DecodeFirst(b).Some? && DecodeFirst(b).value.1 == 3
    ensures EncodeChar(DecodeFirst(b).value.0) == b[..3]
  {
    var n := DecodeFirst(b).value.0 as int;
    var d0, d1, d2 := b[0] as int - 0xE0, b[1] as int - 0x80, b[2] as int - 0x80;
    assert n == (d0 * 64 + d1) * 64 + d2;
    Digits64(d0 * 64 + d1, d2);
    Digits64(d0, d1);
    assert n / 4096 == (n / 64) / 64;
  }

  lemma Decoded4(b: seq<byte>)
    requires |b| > 0 && DecodeFirst(b).Some? && DecodeFirst(b).value.1 == 4
    ensures EncodeChar(DecodeFirst(b).value.0) == b[..4]
  {
    var n := DecodeFirst(b).value.0 as int;
    var d0, d1, d2, d3 := b[0] as int - 0xF0, b[1] as int - 0x80, b[2] as int - 0x80, b[3] as int - 0x80;
    assert n == ((d0 * 64 + d1) * 64 + d2) * 64 + d3;
    Digits64((d0 * 64 + d1) * 64 + d2, d3);
    Digits64(d0 * 64 + d1, d2);
    Digits64(d0, d1);
    assert n / 4096 == (n / 64) / 64;
    assert n / 262144 == ((n / 64) / 64) / 64;
  }

  /** The encoding of a character is the only one decoding accepts for it. */
  lemma EncodeCharDecodeFirst(b: seq<byte>)
    requires |b| > 0 && DecodeFirst(b).Some?
    ensures var (c, len) := DecodeFirst(b).value; EncodeChar(c) == b[..len]
  {
    var len := DecodeFirst(b).value.1;
    if len == 2 {
      Decoded2(b);
    } else if len == 3 {
      Decoded3(b);
    } else if len == 4 {
      Decoded4(b);
    }
  }

  /** Every string survives encoding and decoding. */
  lemma {:induction false} DecodeEncode(s: string)
    ensures Decode(Encode(s)) == Some(s)
  {
    if s != [] {
      var e := EncodeChar(s[0]);
      DecodeFirstEncodeChar(s[0], Encode(s[1..]));
      assert (e + Encode(s[1..]))[|e|..] == Encode(s[1..]);
      DecodeEncode(s[1..]);
      assert s == [s[0]] + s[1..];
    }
  }

  /** Decoding accepts only encodings: well-formed input is the encoding of
      what it decodes to. */
  lemma {:induction false} EncodeDecode(b: seq<byte>)
    requires Decode(b).Some?
    ensures Encode(Decode(b).value) == b
    decreases |b|
  {
    if b != [] {
      DecodeStep(b);
      var first := DecodeFirst(b).value;
      var c, len := first.0, first.1;
      var rest := Decode(b[len..]).value;
      EncodeCharDecodeFirst(b);
      EncodeDecode(b[len..]);
      Reassemble(b, c, len, rest);
    }
  }

  /** A well-formed non-empty input is its first character followed by
      the decoding of the rest. */
  lemma DecodeStep(b: seq<byte>)
    requires b != [] && Decode(b).Some?
    ensures DecodeFirst(b).Some?
    ensures Decode(b[DecodeFirst(b).value.1..]).Some?
    ensures Decode(b).value == [DecodeFirst(b).value.0] + Decode(b[DecodeFirst(b).value.1..]).value
  {
  }

  /** An input split into the encoding of one character and the encoding
      of a string is the encoding of the joined string. */
  lemma Reassemble(b: seq<byte>, c: char, len: nat, rest: string)
    requires len <= |b| && EncodeChar(c) == b[..len] && Encode(rest) == b[len..]
    ensures Encode([c] + rest) == b
  {
    var s := [c] + rest;
    assert s[0] == c && s[1..] == rest;
    assert b == b[..len] + b[len..];
  }
}
