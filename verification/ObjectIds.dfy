/** Mongo object ids: twelve bytes, sent to clients as hex text (section 8 of RFC 4648, lower case)
    and parsed back from what a client sends. */
module ObjectIds {
  import opened Wrappers
  import opened KeyNormaliser

  type Byte = b: int | 0 <= b < 256

  type ObjectId = bytes: seq<Byte> | |bytes| == 12 witness [0, 0, 0, 0, 0, 0, 0, 0, 0, 0, 0, 0]

  const LOWER_DIGITS: string := "0123456789abcdef"

  predicate IsHexDigit(c: char) {
    '0' <= c <= '9' || 'a' <= c <= 'f' || 'A' <= c <= 'F'
  }

  function DigitValue(c: char): (v: int)
    requires IsHexDigit(c)
    ensures 0 <= v < 16
  {
    if c <= '9' then c as int - '0' as int
    else if c <= 'F' then c as int - 'A' as int + 10
    else c as int - 'a' as int + 10
  }

  // hex.EncodeToString
  function Encode(bytes: seq<Byte>): string {
    if bytes == [] then ""
    else [LOWER_DIGITS[bytes[0] / 16], LOWER_DIGITS[bytes[0] % 16]] + Encode(bytes[1..])
  }

  // hex.Decode: both letter cases are accepted, an odd length or any other character is not.
  function Decode(text: string): Option<seq<Byte>> {
    if text == "" then Some([])
    else if |text| == 1 || !IsHexDigit(text[0]) || !IsHexDigit(text[1]) then None
    else
      match Decode(text[2..])
      case None => None
      case Some(rest) => Some([16 * DigitValue(text[0]) + DigitValue(text[1])] + rest)
  }

  // ObjectID.Hex
  function Hex(id: ObjectId): string {
    Encode(id)
  }

  // primitive.ObjectIDFromHex
  function FromHex(text: string): (r: Result<ObjectId>)
    ensures r.Ok? || r == Err(InvalidId)
  {
    if |text| != 24 then Err(InvalidId)
    else
      match Decode(text)
      case None => Err(InvalidId)
      case Some(bytes) =>
        DecodedLength(text);
        Ok(bytes)
  }

  // What the by-id operations make of the id text a client sends
  function ParseClientId(text: string): Result<ObjectId> {
    FromHex(Normalise(text))
  }

  function Lower(c: char): char {
    if 'A' <= c <= 'F' then ('a' as int + (c as int - 'A' as int)) as char else c
  }

  function LowerText(text: string): string {
    if text == "" then "" else [Lower(text[0])] + LowerText(text[1..])
  }

  lemma {:induction false} DecodedLength(text: string)
    ensures Decode(text).Some? ==> 2 * |Decode(text).value| == |text|
  {
    if |text| >= 2 {
      DecodedLength(text[2..]);
    }
  }

  lemma {:induction false} EncodeShape(bytes: seq<Byte>)
    ensures |Encode(bytes)| == 2 * |bytes|
    ensures forall i :: 0 <= i < |Encode(bytes)| ==> IsHexDigit(Encode(bytes)[i])
  {
    if bytes == [] {
    } else {
      EncodeShape(bytes[1..]);
      DigitOf(bytes[0] / 16);
      DigitOf(bytes[0] % 16);
    }
  }

  lemma {:induction false} EncodeDecodes(bytes: seq<Byte>)
    ensures Decode(Encode(bytes)) == Some(bytes)
  {
    if bytes == [] {
    } else {
      var rest := bytes[1..];
      EncodeDecodes(rest);
      DecodePair(bytes[0] / 16, bytes[0] % 16, Encode(rest), rest);
      assert 16 * (bytes[0] / 16) + bytes[0] % 16 == bytes[0];
      assert [bytes[0]] + rest == bytes;
    }
  }

  // Two digits in front are one byte in front.
  lemma DecodePair(hi: int, lo: int, text: string, bytes: seq<Byte>)
    requires 0 <= hi < 16 && 0 <= lo < 16 && Decode(text) == Some(bytes)
    ensures Decode([LOWER_DIGITS[hi], LOWER_DIGITS[lo]] + text) == Some([16 * hi + lo] + bytes)
  {
    DigitOf(hi);
    DigitOf(lo);
    assert ([LOWER_DIGITS[hi], LOWER_DIGITS[lo]] + text)[2..] == text;
  }

  lemma DigitOf(v: int)
    requires 0 <= v < 16
    ensures IsHexDigit(LOWER_DIGITS[v]) && DigitValue(LOWER_DIGITS[v]) == v
  {
  }

  // Byte by byte, the high half first
  lemma {:induction false} EncodeAt(bytes: seq<Byte>, i: nat)
    requires i < |bytes|
    ensures |Encode(bytes)| == 2 * |bytes|
    ensures Encode(bytes)[2 * i] == "0123456789abcdef"[bytes[i] / 16]
    ensures Encode(bytes)[2 * i + 1] == "0123456789abcdef"[bytes[i] % 16]
  {
    EncodeShape(bytes);
    EncodeShape(bytes[1..]);
    if i > 0 {
      EncodeAt(bytes[1..], i - 1);
      assert bytes[1..][i - 1] == bytes[i];
      assert Encode(bytes)[2..] == Encode(bytes[1..]);
    }
  }

  // The hex text of an id has two digits for each byte, in order, and parses back to it.
  lemma HexRoundTrip(id: ObjectId)
    ensures FromHex(Hex(id)) == Ok(id)
    ensures |Hex(id)| == 24 && forall i :: 0 <= i < 24 ==> IsHexDigit(Hex(id)[i])
    ensures forall i :: 0 <= i < 12 ==>
      Hex(id)[2 * i] == "0123456789abcdef"[id[i] / 16] && Hex(id)[2 * i + 1] == "0123456789abcdef"[id[i] % 16]
  {
    EncodeShape(id);
    EncodeDecodes(id);
    forall i | 0 <= i < 12
      ensures Hex(id)[2 * i] == "0123456789abcdef"[id[i] / 16] && Hex(id)[2 * i + 1] == "0123456789abcdef"[id[i] % 16]
    {
      EncodeAt(id, i);
    }
  }

  lemma HexInjective(a: ObjectId, b: ObjectId)
    requires Hex(a) == Hex(b)
    ensures a == b
  {
    HexRoundTrip(a);
    HexRoundTrip(b);
  }

  predicate AllHex(text: string) {
    forall i :: 0 <= i < |text| ==> IsHexDigit(text[i])
  }

  lemma HexDigits(c: char)
    ensures IsHexDigit(c) <==> c in "0123456789abcdefABCDEF"
  {
    assert "0123456789abcdefABCDEF"[..10] == "0123456789" && "0123456789abcdefABCDEF"[10..16] == "abcdef";
    if '0' <= c <= '9' {
      assert "0123456789abcdefABCDEF"[c as int - '0' as int] == c;
    } else if 'a' <= c <= 'f' {
      assert "0123456789abcdefABCDEF"[10 + (c as int - 'a' as int)] == c;
    } else if 'A' <= c <= 'F' {
      assert "0123456789abcdefABCDEF"[16 + (c as int - 'A' as int)] == c;
    }
  }

  lemma {:induction false} LowerTextAt(text: string)
    ensures |LowerText(text)| == |text|
    ensures forall i :: 0 <= i < |text| ==> LowerText(text)[i] == Lower(text[i])
  {
    if text == "" {
    } else {
      LowerTextAt(text[1..]);
    }
  }

  // The same digit, a letter in its lower case
  predicate SameDigit(c: char, lower: char) {
    if 'A' <= c <= 'F' then lower as int == c as int + 32 else lower == c
  }

  // Exactly the texts of 24 hex digits parse, and encoding the result lowers the letters.
  lemma ParsedTexts(text: string)
    ensures FromHex(text).Ok? <==> |text| == 24 && AllHex(text)
    ensures FromHex(text).Ok? ==> Hex(FromHex(text).value) == LowerText(text)
    ensures |LowerText(text)| == |text| && forall i :: 0 <= i < |text| ==> SameDigit(text[i], LowerText(text)[i])
  {
    LowerTextAt(text);
    DecodeDigits(text);
    if |text| == 24 && Decode(text).Some? {
      EncodeLowers(text);
    }
  }

  lemma AllHexSplits(text: string)
    requires |text| >= 2
    ensures AllHex(text) <==> IsHexDigit(text[0]) && IsHexDigit(text[1]) && AllHex(text[2..])
  {
  }

  lemma {:induction false} DecodeDigits(text: string)
    ensures Decode(text).Some? <==> |text| % 2 == 0 && AllHex(text)
  {
    if |text| >= 2 {
      DecodeDigits(text[2..]);
      AllHexSplits(text);
    }
  }

  lemma {:induction false} EncodeLowers(text: string)
    requires Decode(text).Some?
    ensures Encode(Decode(text).value) == LowerText(text)
  {
    if text == "" {
    } else {
      EncodeLowers(text[2..]);
      LowerFirstTwo(text, Decode(text[2..]).value);
    }
  }

  lemma LowerFirstTwo(text: string, rest: seq<Byte>)
    requires |text| >= 2 && IsHexDigit(text[0]) && IsHexDigit(text[1]) && Encode(rest) == LowerText(text[2..])
    ensures Encode([16 * DigitValue(text[0]) + DigitValue(text[1])] + rest) == LowerText(text)
  {
    EncodeByte(DigitValue(text[0]), DigitValue(text[1]), rest);
    LowerOfDigit(text[0]);
    LowerOfDigit(text[1]);
    LowerTextUnfolds(text);
  }

  lemma LowerTextUnfolds(text: string)
    requires |text| >= 2
    ensures LowerText(text) == [Lower(text[0]), Lower(text[1])] + LowerText(text[2..])
  {
  }

  lemma LowerOfDigit(c: char)
    requires IsHexDigit(c)
    ensures LOWER_DIGITS[DigitValue(c)] == Lower(c)
  {
  }

  lemma {:induction false} EncodeByte(hi: int, lo: int, rest: seq<Byte>)
    requires 0 <= hi < 16 && 0 <= lo < 16
    ensures Encode([16 * hi + lo] + rest) == [LOWER_DIGITS[hi], LOWER_DIGITS[lo]] + Encode(rest)
  {
    var bytes: seq<Byte> := [16 * hi + lo] + rest;
    assert bytes[0] / 16 == hi && bytes[0] % 16 == lo && bytes[1..] == rest;
  }

  lemma HexDigitsAreBare(c: char)
    requires IsHexDigit(c)
    ensures c !in SPACES + QUOTES
  {
  }

  // A client that sends back the id it was given, bare or inside quotes inside whitespace, names that id.
  lemma ClientIdRoundTrip(id: ObjectId, w1: string, q1: string, q2: string, w2: string)
    requires AllIn(w1, SPACES) && AllIn(w2, SPACES) && AllIn(q1, QUOTES) && AllIn(q2, QUOTES)
    ensures ParseClientId(w1 + (q1 + Hex(id) + q2) + w2) == Ok(id)
  {
    HexRoundTrip(id);
    HexDigitsAreBare(Hex(id)[0]);
    HexDigitsAreBare(Hex(id)[23]);
    PaddingIsUndone(w1, q1, Hex(id), q2, w2);
  }
}
