/** The texts that typed values of a foreign peer become as headers: each reads back as the value it was. */
module MessageText {
  import opened Common
  import opened Message

  predicate IsDigit(b: byte) {
    48 <= b < 58
  }

  /** A number is written in decimal digits, without a leading zero. */
  lemma {:induction false} DecimalIsCanonical(n: nat)
    ensures forall i :: 0 <= i < |Decimal(n)| ==> IsDigit(Decimal(n)[i])
    ensures Decimal(n)[0] == 48 <==> n == 0
  {
    if n >= 10 {
      DecimalIsCanonical(n / 10);
      assert Decimal(n)[0] == Decimal(n / 10)[0];
    }
  }

  function ParseSigned(b: Bytes): int {
    if b != [] && b[0] == 45 then -ParseDecimal(b[1..]) else ParseDecimal(b)
  }

  lemma SignedReadsBack(i: int)
    ensures ParseSigned(Signed(i)) == i
  {
    if i < 0 {
      DecimalReadsBack(-i);
      assert Signed(i)[1..] == Decimal(-i);
    } else {
      DecimalReadsBack(i);
      DecimalIsCanonical(i);
    }
  }

  /** The value of a lower-case hexadecimal digit, 16 for anything else. */
  function HexValue(b: byte): nat {
    if IsDigit(b) then b - 48 else if 97 <= b < 103 then b - 87 else 16
  }

  function ParseHex(h: Bytes): seq<nat> {
    if |h| < 2 then [] else [16 * HexValue(h[0]) + HexValue(h[1])] + ParseHex(h[2..])
  }

  lemma DigitReadsBack(d: nat)
    requires d < 16
    ensures HexValue(Digit(d)) == d
  {
  }

  lemma {:induction false} HexReadsBack(b: Bytes)
    ensures ParseHex(Hex(b)) == b
  {
    if b != [] {
      var high, low := b[0] / 16, b[0] % 16;
      DigitReadsBack(high);
      DigitReadsBack(low);
      HexReadsBack(b[1..]);
      assert Hex(b)[2..] == Hex(b[1..]);
      assert b == [b[0]] + b[1..];
    }
  }

  lemma {:induction false} HexAppend(a: Bytes, b: Bytes)
    ensures Hex(a + b) == Hex(a) + Hex(b)
  {
    if a == [] {
      assert a + b == b;
    } else {
      assert (a + b)[1..] == a[1..] + b;
      HexAppend(a[1..], b);
    }
  }

  /** A UUID is written as five groups of 8, 4, 4, 4 and 12 lower-case digits with hyphens in between. */
  predicate Hyphenated(t: Bytes) {
    |t| == 36 && t[8] == 45 && t[13] == 45 && t[18] == 45 && t[23] == 45
  }

  function WithoutHyphens(t: Bytes): Bytes
    requires Hyphenated(t)
  {
    t[..8] + t[9..13] + t[14..18] + t[19..23] + t[24..]
  }

  lemma UuidDigits(u: Uuid)
    ensures Hyphenated(UuidText(u))
    ensures WithoutHyphens(UuidText(u)) == Hex(u[..4]) + Hex(u[4..6]) + Hex(u[6..8]) + Hex(u[8..10]) + Hex(u[10..])
  {
    var t := UuidText(u);
    assert t[..8] == Hex(u[..4]) && t[9..13] == Hex(u[4..6]) && t[14..18] == Hex(u[6..8]);
    assert t[19..23] == Hex(u[8..10]) && t[24..] == Hex(u[10..]);
  }

  lemma UuidGroups(u: Uuid)
    ensures Hex(u[..4]) + Hex(u[4..6]) + Hex(u[6..8]) + Hex(u[8..10]) + Hex(u[10..]) == Hex(u)
  {
    HexAppend(u[..4], u[4..6]);
    HexAppend(u[..4] + u[4..6], u[6..8]);
    HexAppend(u[..4] + u[4..6] + u[6..8], u[8..10]);
    HexAppend(u[..4] + u[4..6] + u[6..8] + u[8..10], u[10..]);
    assert u[..4] + u[4..6] + u[6..8] + u[8..10] + u[10..] == u;
  }

  lemma UuidReadsBack(u: Uuid)
    ensures Hyphenated(UuidText(u)) && ParseHex(WithoutHyphens(UuidText(u))) == u
  {
    UuidDigits(u);
    UuidGroups(u);
    HexReadsBack(u);
  }

  function Ascii(s: string): Bytes {
    seq(|s|, i requires 0 <= i < |s| => if s[i] < 128 as char then s[i] as int else 0)
  }

  /** What a typed value reads as parses back to the value: an integer as its digits and sign, a UUID as
      its hyphenated digits, a boolean as its word; text, bytes and symbols are their own bytes, and
      nothing is no bytes. */
  lemma ValueReadsBack(v: SimpleValue)
    ensures match v
      case StringValue(text) => ValueBytes(v) == Some(text)
      case BinaryValue(bytes) => ValueBytes(v) == Some(bytes)
      case SymbolValue(symbol) => ValueBytes(v) == Some(symbol)
      case NullValue => ValueBytes(v) == Some([])
      case BoolValue(b) => ValueBytes(v) == Some(Ascii(if b then "true" else "false"))
      case IntegerValue(i) => ValueBytes(v).Some? && ParseSigned(ValueBytes(v).value) == i
      case UuidValue(u) => ValueBytes(v).Some? && Hyphenated(ValueBytes(v).value) && ParseHex(WithoutHyphens(ValueBytes(v).value)) == u
      case OtherValue(read) => ValueBytes(v) == read
  {
    match v
    case IntegerValue(i) => SignedReadsBack(i);
    case UuidValue(u) => UuidReadsBack(u);
    case BoolValue(b) => if b { TrueIsAscii(); } else { FalseIsAscii(); }
    case _ =>
  }

  lemma TrueIsAscii()
    ensures Ascii("true") == [116, 114, 117, 101]
  {
  }

  lemma FalseIsAscii()
    ensures Ascii("false") == [102, 97, 108, 115, 101]
  {
  }

  /** And so does an id of any of its forms. */
  lemma IdReadsBack(id: MessageId)
    ensures match id
      case StringId(text) => IdBytes(id) == text
      case BinaryId(bytes) => IdBytes(id) == bytes
      case UlongId(n) => ParseDecimal(IdBytes(id)) == n
      case UuidId(u) => Hyphenated(IdBytes(id)) && ParseHex(WithoutHyphens(IdBytes(id))) == u
  {
    match id
    case UlongId(n) => DecimalReadsBack(n);
    case UuidId(u) => UuidReadsBack(u);
    case _ =>
  }
}
