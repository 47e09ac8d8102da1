/**
 Event cursors: a version byte and a big-endian 64-bit sequence, in unpadded base64url
 (section 5 of RFC 4648).
 */
module Cursor {
  import opened Wrappers

  type Byte = x: int | 0 <= x < 256
  type Digit = x: int | 0 <= x < 64

  const CONTRACT_VERSION: Byte := 1
  const MAX_INT64 := 0x7FFF_FFFF_FFFF_FFFF
  const TWO_TO_THE_64 := 0x1_0000_0000_0000_0000

  datatype Error = InvalidCursor

  // ----- The base64url alphabet -----

  function DigitChar(d: Digit): (c: char)
    ensures CharDigit(c) == Some(d)
  {
    if d < 26 then ('A' as int + d) as char
    else if d < 52 then ('a' as int + d - 26) as char
    else if d < 62 then ('0' as int + d - 52) as char
    else if d == 62 then '-'
    else '_'
  }

  function CharDigit(c: char): (d: Option<Digit>)
    ensures d.Some? ==> !IsNewline(c)
  {
    if 'A' <= c <= 'Z' then Some(c as int - 'A' as int)
    else if 'a' <= c <= 'z' then Some(c as int - 'a' as int + 26)
    else if '0' <= c <= '9' then Some(c as int - '0' as int + 52)
    else if c == '-' then Some(62)
    else if c == '_' then Some(63)
    else None
  }

  lemma DigitCharIsOnto(c: char)
    requires CharDigit(c).Some?
    ensures DigitChar(CharDigit(c).value) == c
  {
  }

  /** The decoder skips carriage returns and line feeds wherever they occur. */
  predicate IsNewline(c: char) {
    c == '\r' || c == '\n'
  }

  function Strip(s: string): (t: string)
    ensures forall c | c in t :: !IsNewline(c)
    ensures (forall c | c in s :: !IsNewline(c)) ==> t == s
  {
    if s == "" then "" else (if IsNewline(s[0]) then "" else [s[0]]) + Strip(s[1..])
  }

  // ----- Bytes and digits -----

  function FirstDigit(b0: Byte): Digit { b0 / 4 }
  function SecondDigit(b0: Byte, b1: Byte): Digit { b0 % 4 * 16 + b1 / 16 }
  function ThirdDigit(b1: Byte, b2: Byte): Digit { b1 % 16 * 4 + b2 / 64 }
  function FourthDigit(b2: Byte): Digit { b2 % 64 }

  function FirstByte(d0: int, d1: int): Byte
    requires 0 <= d0 < 64 && 0 <= d1 < 64
  {
    d0 * 4 + d1 / 16
  }

  function SecondByte(d1: int, d2: int): Byte
    requires 0 <= d1 < 64 && 0 <= d2 < 64
  {
    d1 % 16 * 16 + d2 / 4
  }

  function ThirdByte(d2: int, d3: int): Byte
    requires 0 <= d2 < 64 && 0 <= d3 < 64
  {
    d2 % 4 * 64 + d3
  }

  lemma GroupOfBytes(b0: Byte, b1: Byte, b2: Byte)
    ensures FirstByte(FirstDigit(b0), SecondDigit(b0, b1)) == b0
    ensures SecondByte(SecondDigit(b0, b1), ThirdDigit(b1, b2)) == b1
    ensures ThirdByte(ThirdDigit(b1, b2), FourthDigit(b2)) == b2
  {
  }

  lemma GroupOfDigits(d0: Digit, d1: Digit, d2: Digit, d3: Digit)
    ensures FirstDigit(FirstByte(d0, d1)) == d0
    ensures SecondDigit(FirstByte(d0, d1), SecondByte(d1, d2)) == d1
    ensures ThirdDigit(SecondByte(d1, d2), ThirdByte(d2, d3)) == d2
    ensures FourthDigit(ThirdByte(d2, d3)) == d3
  {
  }

  function EncodeBytes(raw: seq<Byte>): (s: string)
    requires |raw| % 3 == 0
    ensures |s| == |raw| / 3 * 4
  {
    if |raw| == 0 then ""
    else
      [DigitChar(FirstDigit(raw[0])), DigitChar(SecondDigit(raw[0], raw[1])),
       DigitChar(ThirdDigit(raw[1], raw[2])), DigitChar(FourthDigit(raw[2]))] + EncodeBytes(raw[3..])
  }

  function Digits(s: string): (ds: Option<seq<Digit>>)
    ensures ds.Some? ==> |ds.value| == |s| && forall i | 0 <= i < |s| :: CharDigit(s[i]) == Some(ds.value[i])
    ensures ds.None? ==> exists i | 0 <= i < |s| :: CharDigit(s[i]).None?
  {
    if s == "" then Some([])
    else
      match (CharDigit(s[0]), Digits(s[1..]))
      case (Some(d), Some(rest)) => Some([d] + rest)
      case _ => None
  }

  /** Three bytes for every four digits; a short last group keeps its whole bytes and drops the rest. */
  function DigitsToBytes(ds: seq<Digit>): (raw: Option<seq<Byte>>)
    ensures raw.None? <==> |ds| % 4 == 1
    ensures raw.Some? ==> |raw.value| == |ds| * 3 / 4
  {
    if |ds| == 0 then Some([])
    else if |ds| == 1 then None
    else if |ds| == 2 then Some([FirstByte(ds[0], ds[1])])
    else if |ds| == 3 then Some([FirstByte(ds[0], ds[1]), SecondByte(ds[1], ds[2])])
    else
      match DigitsToBytes(ds[4..])
      case None => None
      case Some(rest) => Some([FirstByte(ds[0], ds[1]), SecondByte(ds[1], ds[2]), ThirdByte(ds[2], ds[3])] + rest)
  }

  function DecodeString(s: string): Option<seq<Byte>> {
    match Digits(Strip(s))
    case None => None
    case Some(ds) => DigitsToBytes(ds)
  }

  // ----- Big-endian numbers -----

  function BigEndian(raw: seq<Byte>): (n: nat) {
    if raw == [] then 0 else BigEndian(raw[..|raw| - 1]) * 256 + raw[|raw| - 1]
  }

  function ToBigEndian(n: nat, width: nat): (raw: seq<Byte>)
    ensures |raw| == width
  {
    if width == 0 then [] else ToBigEndian(n / 256, width - 1) + [n % 256]
  }

  function Power256(k: nat): (p: nat)
    ensures p >= 1
  {
    if k == 0 then 1 else 256 * Power256(k - 1)
  }

  lemma {:induction false} BigEndianRoundTrip(n: nat, width: nat)
    requires n < Power256(width)
    ensures BigEndian(ToBigEndian(n, width)) == n
  {
    if width > 0 {
      var raw := ToBigEndian(n, width);
      assert raw[..|raw| - 1] == ToBigEndian(n / 256, width - 1);
      BigEndianRoundTrip(n / 256, width - 1);
    }
  }

  lemma {:induction false} BigEndianIsOnto(raw: seq<Byte>)
    ensures BigEndian(raw) < Power256(|raw|)
    ensures ToBigEndian(BigEndian(raw), |raw|) == raw
  {
    if raw != [] {
      BigEndianIsOnto(raw[..|raw| - 1]);
      assert raw == raw[..|raw| - 1] + [raw[|raw| - 1]];
    }
  }

  lemma EightBytes()
    ensures Power256(8) == TWO_TO_THE_64
  {
    assert Power256(4) == 0x1_0000_0000;
  }

  // ----- Cursors -----

  /** A negative sequence is encoded as the unsigned 64-bit value with the same bits. */
  function Encode(sequence: int): (cursor: string)
    requires -MAX_INT64 - 1 <= sequence <= MAX_INT64
    ensures |cursor| == 12
  {
    var unsigned := if sequence < 0 then sequence + TWO_TO_THE_64 else sequence;
    EncodeBytes([CONTRACT_VERSION] + ToBigEndian(unsigned, 8))
  }

  function Decode(cursor: string): (r: Result<int, Error>)
    ensures r.Success? ==> 0 <= r.value <= MAX_INT64
  {
    if cursor == "" then Success(0)
    else
      match DecodeString(cursor)
      case None => Failure(InvalidCursor)
      case Some(raw) =>
        if |raw| != 9 || raw[0] != CONTRACT_VERSION then Failure(InvalidCursor)
        else if BigEndian(raw[1..]) > MAX_INT64 then Failure(InvalidCursor)
        else Success(BigEndian(raw[1..]))
  }

  // ----- Proofs -----

  lemma {:induction false} EncodedCharsAreDigits(raw: seq<Byte>)
    requires |raw| % 3 == 0
    ensures forall c | c in EncodeBytes(raw) :: CharDigit(c).Some?
    ensures Strip(EncodeBytes(raw)) == EncodeBytes(raw)
  {
    if |raw| > 0 {
      EncodedCharsAreDigits(raw[3..]);
    }
  }

  lemma DigitsAre(s: string, ds: seq<Digit>)
    requires |ds| == |s| && forall i | 0 <= i < |s| :: CharDigit(s[i]) == Some(ds[i])
    ensures Digits(s) == Some(ds)
  {
    assert Digits(s).Some?;
    assert Digits(s).value == ds;
  }

  lemma DecodeGroup(d0: Digit, d1: Digit, d2: Digit, d3: Digit, rest: seq<Digit>)
    requires DigitsToBytes(rest).Some?
    ensures DigitsToBytes([d0, d1, d2, d3] + rest)
            == Some([FirstByte(d0, d1), SecondByte(d1, d2), ThirdByte(d2, d3)] + DigitsToBytes(rest).value)
  {
    assert ([d0, d1, d2, d3] + rest)[4..] == rest;
  }

  lemma DigitsOfGroup(d0: Digit, d1: Digit, d2: Digit, d3: Digit, tail: string, rest: seq<Digit>)
    requires Digits(tail) == Some(rest)
    ensures Digits([DigitChar(d0), DigitChar(d1), DigitChar(d2), DigitChar(d3)] + tail) == Some([d0, d1, d2, d3] + rest)
  {
    DigitsAre([DigitChar(d0), DigitChar(d1), DigitChar(d2), DigitChar(d3)] + tail, [d0, d1, d2, d3] + rest);
  }

  /** Whole groups of bytes survive the trip through characters. */
  lemma {:induction false} BytesRoundTrip(raw: seq<Byte>, s: string) returns (ds: seq<Digit>)
    requires |raw| % 3 == 0 && s == EncodeBytes(raw)
    ensures Digits(s) == Some(ds) && DigitsToBytes(ds) == Some(raw)
  {
    if |raw| == 0 {
      ds := [];
    } else {
      var tail := EncodeBytes(raw[3..]);
      var rest := BytesRoundTrip(raw[3..], tail);
      GroupRoundTrip(raw[0], raw[1], raw[2], tail, rest);
      ds := Digits(s).value;
      assert raw == [raw[0], raw[1], raw[2]] + raw[3..];
    }
  }

  lemma GroupRoundTrip(b0: Byte, b1: Byte, b2: Byte, tail: string, rest: seq<Digit>)
    requires Digits(tail) == Some(rest) && DigitsToBytes(rest).Some?
    ensures var s := [DigitChar(FirstDigit(b0)), DigitChar(SecondDigit(b0, b1)), DigitChar(ThirdDigit(b1, b2)),
                      DigitChar(FourthDigit(b2))] + tail;
            && Digits(s).Some?
            && DigitsToBytes(Digits(s).value) == Some([b0, b1, b2] + DigitsToBytes(rest).value)
  {
    DigitsOfGroup(FirstDigit(b0), SecondDigit(b0, b1), ThirdDigit(b1, b2), FourthDigit(b2), tail, rest);
    DecodeGroup(FirstDigit(b0), SecondDigit(b0, b1), ThirdDigit(b1, b2), FourthDigit(b2), rest);
    GroupOfBytes(b0, b1, b2);
  }

  /** Whole groups of characters can only be the encoding of the bytes they decode to. */
  lemma {:induction false} CharsRoundTrip(s: string, ds: seq<Digit>) returns (raw: seq<Byte>)
    requires |s| % 4 == 0 && Digits(s) == Some(ds)
    ensures DigitsToBytes(ds) == Some(raw) && |raw| % 3 == 0 && EncodeBytes(raw) == s
  {
    if |s| == 0 {
      raw := [];
    } else {
      DigitsAre(s[4..], ds[4..]);
      var rest := CharsRoundTrip(s[4..], ds[4..]);
      raw := CharsOfGroup(s, ds, rest);
    }
  }

  lemma CharsOfGroup(s: string, ds: seq<Digit>, rest: seq<Byte>) returns (raw: seq<Byte>)
    requires |s| >= 4 && Digits(s) == Some(ds)
    requires DigitsToBytes(ds[4..]) == Some(rest) && |rest| % 3 == 0 && EncodeBytes(rest) == s[4..]
    ensures DigitsToBytes(ds) == Some(raw) && |raw| % 3 == 0 && EncodeBytes(raw) == s
  {
    var b0, b1, b2 := FirstByte(ds[0], ds[1]), SecondByte(ds[1], ds[2]), ThirdByte(ds[2], ds[3]);
    raw := [b0, b1, b2] + rest;
    assert ds == [ds[0], ds[1], ds[2], ds[3]] + ds[4..];
    DecodeGroup(ds[0], ds[1], ds[2], ds[3], ds[4..]);
    EncodeGroup(b0, b1, b2, rest);
    GroupOfChars(s, ds);
  }

  lemma EncodeGroup(b0: Byte, b1: Byte, b2: Byte, rest: seq<Byte>)
    requires |rest| % 3 == 0
    ensures EncodeBytes([b0, b1, b2] + rest)
            == [DigitChar(FirstDigit(b0)), DigitChar(SecondDigit(b0, b1)), DigitChar(ThirdDigit(b1, b2)),
                DigitChar(FourthDigit(b2))]
               + EncodeBytes(rest)
  {
    assert ([b0, b1, b2] + rest)[3..] == rest;
  }

  lemma GroupOfChars(s: string, ds: seq<Digit>)
    requires |s| >= 4 && Digits(s) == Some(ds)
    ensures var b0, b1, b2 := FirstByte(ds[0], ds[1]), SecondByte(ds[1], ds[2]), ThirdByte(ds[2], ds[3]);
            s == [DigitChar(FirstDigit(b0)), DigitChar(SecondDigit(b0, b1)), DigitChar(ThirdDigit(b1, b2)),
                DigitChar(FourthDigit(b2))] + s[4..]
  {
    GroupOfDigits(ds[0], ds[1], ds[2], ds[3]);
    forall i | 0 <= i < 4
      ensures DigitChar(ds[i]) == s[i]
    {
      DigitCharIsOnto(s[i]);
    }
    assert s == [s[0], s[1], s[2], s[3]] + s[4..];
  }

  lemma EncodedCursorIsClean(sequence: int)
    requires -MAX_INT64 - 1 <= sequence <= MAX_INT64
    ensures forall c | c in Encode(sequence) :: c != '\0' && !IsNewline(c)
  {
    var unsigned := if sequence < 0 then sequence + TWO_TO_THE_64 else sequence;
    EncodedCharsAreDigits([CONTRACT_VERSION] + ToBigEndian(unsigned, 8));
  }

  lemma EncodeThenDecode(sequence: int)
    requires -MAX_INT64 - 1 <= sequence <= MAX_INT64
    ensures Decode(Encode(sequence)) == if sequence < 0 then Failure(InvalidCursor) else Success(sequence)
  {
    var unsigned := if sequence < 0 then sequence + TWO_TO_THE_64 else sequence;
    var raw := [CONTRACT_VERSION] + ToBigEndian(unsigned, 8);
    var ds := BytesRoundTrip(raw, EncodeBytes(raw));
    EncodedCharsAreDigits(raw);
    assert raw[1..] == ToBigEndian(unsigned, 8);
    EightBytes();
    BigEndianRoundTrip(unsigned, 8);
  }

  /**
   Exactly which strings a cursor value is accepted under: the empty string for zero, and otherwise
   the canonical encoding, with newlines anywhere inside it.
   */
  lemma DecodeExactly(cursor: string, n: int)
    ensures Decode(cursor) == Success(n) <==>
            (cursor == "" && n == 0) || (0 <= n <= MAX_INT64 && Strip(cursor) == Encode(n))
  {
    if 0 <= n <= MAX_INT64 && Strip(cursor) == Encode(n) {
      EncodeThenDecode(n);
      assert cursor != "";
      assert Strip(Encode(n)) == Encode(n);
    }
    if cursor != "" && Decode(cursor) == Success(n) {
      AcceptedIsCanonical(cursor);
    }
  }

  lemma AcceptedIsCanonical(cursor: string)
    requires cursor != "" && Decode(cursor).Success?
    ensures Strip(cursor) == Encode(Decode(cursor).value)
  {
    var s := Strip(cursor);
    var raw := DecodeString(cursor).value;
    assert |s| == 12;
    var again := CharsRoundTrip(s, Digits(s).value);
    BigEndianIsOnto(raw[1..]);
    assert raw == [CONTRACT_VERSION] + raw[1..];
  }

  /** On the cursors an acknowledgement may carry, decoding is injective. */
  lemma DecodeIsInjective(a: string, b: string)
    requires a != "" && b != "" && (forall c | c in a + b :: !IsNewline(c))
    requires Decode(a).Success? && Decode(a) == Decode(b)
    ensures a == b
  {
    DecodeExactly(a, Decode(a).value);
    DecodeExactly(b, Decode(b).value);
    assert (forall c | c in a :: c in a + b) && (forall c | c in b :: c in a + b);
  }

  // ----- How cursors are spelled -----

  /** The alphabet of table 2 in section 5 of RFC 4648: capital letters, small letters, figures, minus, underline. */
  lemma AlphabetIsUrlSafe(d: Digit)
    ensures DigitChar(0) == 'A' && DigitChar(26) == 'a' && DigitChar(52) == '0' && DigitChar(62) == '-'
    ensures DigitChar(63) == '_'
    ensures d !in {0, 26, 52, 62, 63} ==> DigitChar(d) as int == DigitChar(d - 1) as int + 1
  {
  }

  lemma FirstByteLeads(raw: seq<Byte>)
    requires |raw| == 9
    ensures var s := EncodeBytes(raw);
            s[0] == DigitChar(raw[0] / 4) && s[1] == DigitChar(raw[0] % 4 * 16 + raw[1] / 16)
  {
  }

  /** A cursor begins with the version, which is one: six bits of nothing, then 01. */
  lemma VersionComesFirst(sequence: int)
    requires -MAX_INT64 - 1 <= sequence <= MAX_INT64
    ensures Encode(sequence)[0] == 'A' && CharDigit(Encode(sequence)[1]).Some?
    ensures CharDigit(Encode(sequence)[1]).value / 16 == 1
  {
    var unsigned := if sequence < 0 then sequence + TWO_TO_THE_64 else sequence;
    FirstByteLeads([CONTRACT_VERSION] + ToBigEndian(unsigned, 8));
  }
}
