/** Well-formed text: the bytes `IsUtf8` accepts are the encodings of the Unicode scalar values, and only
    those (RFC 3629, sections 3 and 4). */
module Utf8 {
  import opened Common
  import opened Message

  /** A code point that is not a surrogate. */
  predicate IsScalar(c: nat) {
    c < 0xD800 || 0xE000 <= c < 0x110000
  }

  function Encode(c: nat): (b: Bytes)
    requires IsScalar(c)
    ensures b != []
  {
    if c < 0x80 then [c]
    else if c < 0x800 then [0xC0 + c / 0x40, 0x80 + c % 0x40]
    else if c < 0x10000 then [0xE0 + c / 0x1000, 0x80 + c / 0x40 % 0x40, 0x80 + c % 0x40]
    else [0xF0 + c / 0x40000, 0x80 + c / 0x1000 % 0x40, 0x80 + c / 0x40 % 0x40, 0x80 + c % 0x40]
  }

  predicate AllScalar(text: seq<nat>) {
    forall i :: 0 <= i < |text| ==> IsScalar(text[i])
  }

  function Encoded(text: seq<nat>): Bytes
    requires AllScalar(text)
  {
    if text == [] then [] else Encode(text[0]) + Encoded(text[1..])
  }

  /** The bytes of a three-byte character, and of a four-byte one, are where they have to be. */
  lemma ThreeBytes(c: nat)
    requires 0x800 <= c < 0x10000 && IsScalar(c)
    ensures var b0, b1 := 0xE0 + c / 0x1000, 0x80 + c / 0x40 % 0x40;
      (b0 == 0xE0 && 0xA0 <= b1 < 0xC0) || (0xE1 <= b0 < 0xED && Continues(b1)) ||
      (b0 == 0xED && 0x80 <= b1 < 0xA0) || (0xEE <= b0 < 0xF0 && Continues(b1))
  {
    TwiceDivided(c);
  }

  lemma FourBytes(c: nat)
    requires 0x10000 <= c < 0x110000
    ensures var b0, b1 := 0xF0 + c / 0x40000, 0x80 + c / 0x1000 % 0x40;
      (b0 == 0xF0 && 0x90 <= b1 < 0xC0) || (0xF1 <= b0 < 0xF4 && Continues(b1)) || (b0 == 0xF4 && 0x80 <= b1 < 0x90)
  {
    TwiceDivided(c);
  }

  /** The front of an encoded character is found, whatever follows it. */
  lemma FrontOfEncoded(c: nat, rest: Bytes)
    requires IsScalar(c)
    ensures FrontLength(Encode(c) + rest) == |Encode(c)|
  {
    var b := Encode(c) + rest;
    assert forall i :: 0 <= i < |Encode(c)| ==> b[i] == Encode(c)[i];
    if 0x800 <= c < 0x10000 {
      ThreeBytes(c);
    } else if c >= 0x10000 {
      FourBytes(c);
    }
  }

  lemma {:induction false} EncodedIsUtf8(text: seq<nat>)
    requires AllScalar(text)
    ensures IsUtf8(Encoded(text))
  {
    if text != [] {
      var rest := Encoded(text[1..]);
      EncodedIsUtf8(text[1..]);
      FrontOfEncoded(text[0], rest);
      assert (Encode(text[0]) + rest)[|Encode(text[0])|..] == rest;
    }
  }

  lemma Digits64(h: nat, l: nat)
    requires l < 0x40
    ensures (h * 0x40 + l) / 0x40 == h && (h * 0x40 + l) % 0x40 == l
  {
  }

  lemma TwiceDivided(c: nat)
    ensures c / 0x1000 == c / 0x40 / 0x40 && c / 0x40000 == c / 0x1000 / 0x40
  {
  }

  lemma DecodeTwo(b0: byte, b1: byte) returns (c: nat)
    requires 0xC2 <= b0 < 0xE0 && Continues(b1)
    ensures IsScalar(c) && Encode(c) == [b0, b1]
  {
    c := (b0 - 0xC0) * 0x40 + (b1 - 0x80);
  }

  lemma DecodeThree(b0: byte, b1: byte, b2: byte) returns (c: nat)
    requires Continues(b2)
    requires (b0 == 0xE0 && 0xA0 <= b1 < 0xC0) || (0xE1 <= b0 < 0xED && Continues(b1)) ||
      (b0 == 0xED && 0x80 <= b1 < 0xA0) || (0xEE <= b0 < 0xF0 && Continues(b1))
    ensures IsScalar(c) && Encode(c) == [b0, b1, b2]
  {
    var high := (b0 - 0xE0) * 0x40 + (b1 - 0x80);
    c := high * 0x40 + (b2 - 0x80);
    Digits64(b0 - 0xE0, b1 - 0x80);
    Digits64(high, b2 - 0x80);
    TwiceDivided(c);
    assert 0x20 <= high < 0x400 && (high < 0x360 || high >= 0x380);
  }

  lemma DecodeFour(b0: byte, b1: byte, b2: byte, b3: byte) returns (c: nat)
    requires Continues(b2) && Continues(b3)
    requires (b0 == 0xF0 && 0x90 <= b1 < 0xC0) || (0xF1 <= b0 < 0xF4 && Continues(b1)) || (b0 == 0xF4 && 0x80 <= b1 < 0x90)
    ensures IsScalar(c) && Encode(c) == [b0, b1, b2, b3]
  {
    var top := (b0 - 0xF0) * 0x40 + (b1 - 0x80);
    var high := top * 0x40 + (b2 - 0x80);
    c := high * 0x40 + (b3 - 0x80);
    Digits64(b0 - 0xF0, b1 - 0x80);
    Digits64(top, b2 - 0x80);
    Digits64(high, b3 - 0x80);
    TwiceDivided(c);
    assert 0x10 <= top < 0x110;
  }

  /** A front that is found is one encoded character. */
  lemma FrontDecodes(b: Bytes) returns (c: nat)
    requires b != [] && FrontLength(b) > 0
    ensures IsScalar(c) && Encode(c) == b[..FrontLength(b)]
  {
    var n := FrontLength(b);
    if n == 1 {
      c := b[0];
    } else if n == 2 {
      c := DecodeTwo(b[0], b[1]);
    } else if n == 3 {
      c := DecodeThree(b[0], b[1], b[2]);
    } else {
      c := DecodeFour(b[0], b[1], b[2], b[3]);
    }
  }

  lemma EncodedMore(c: nat, rest: seq<nat>)
    requires IsScalar(c) && AllScalar(rest)
    ensures AllScalar([c] + rest) && Encoded([c] + rest) == Encode(c) + Encoded(rest)
  {
    assert ([c] + rest)[1..] == rest;
  }

  lemma FrontAndRest(b: Bytes, n: nat)
    requires n <= |b|
    ensures b == b[..n] + b[n..]
  {
  }

  lemma {:induction false} Utf8Decodes(b: Bytes) returns (text: seq<nat>)
    requires IsUtf8(b)
    ensures AllScalar(text) && Encoded(text) == b
    decreases |b|
  {
    text := [];
    if b != [] {
      var n := FrontLength(b);
      var c := FrontDecodes(b);
      var rest := Utf8Decodes(b[n..]);
      text := [c] + rest;
      EncodedMore(c, rest);
      FrontAndRest(b, n);
    }
  }

  /** Bytes are text exactly if they encode a sequence of Unicode scalar values. */
  lemma {:induction false} Utf8Exactly(b: Bytes)
    ensures IsUtf8(b) <==> exists text: seq<nat> :: AllScalar(text) && Encoded(text) == b
  {
    if IsUtf8(b) {
      var text := Utf8Decodes(b);
    }
    if text: seq<nat> :| AllScalar(text) && Encoded(text) == b {
      EncodedIsUtf8(text);
    }
  }
}
