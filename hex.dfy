/** Base16 ("hex") as the `hex` crate implements it: section 8 of RFC 4648,
    decoding either letter case and encoding in lower case. */
module Hex {
  import opened Wrappers
  import opened Text

  /** `hex::FromHexError` */
  datatype HexError = OddLength | InvalidStringLength | InvalidHexCharacter(c: byte, index: nat)

  predicate IsHexDigit(b: byte) {
    || '0' as int <= b <= '9' as int
    || 'a' as int <= b <= 'f' as int
    || 'A' as int <= b <= 'F' as int
  }

  /** The value of one hex digit, either case. */
  function DigitValue(b: byte): (v: nat)
    requires IsHexDigit(b)
    ensures v < 16
  {
    if b <= '9' as int then b - '0' as int
    else if b >= 'a' as int then b - 'a' as int + 10
    else b - 'A' as int + 10
  }

  /** The lower-case digit for a value below 16. */
  function LowerDigit(v: nat): (c: char)
    requires v < 16
    ensures ('0' <= c <= '9' || 'a' <= c <= 'f') && IsHexDigit(c as int) && DigitValue(c as int) == v
  {
    if v < 10 then (48 + v) as char else (87 + v) as char
  }

  /** The first position at or after `from` that is not a hex digit, or
      `|data|` when there is none. */
  function FirstNonHex(data: seq<byte>, from: nat): (i: nat)
    requires from <= |data|
    ensures from <= i <= |data|
    ensures forall k :: from <= k < i ==> IsHexDigit(data[k])
    ensures i < |data| ==> !IsHexDigit(data[i])
    decreases |data| - from
  {
    if from == |data| || !IsHexDigit(data[from]) then from else FirstNonHex(data, from + 1)
  }

  /** `hex::decode_to_slice(data, out)` into an `out` of `size` bytes: the
      length is checked first (odd, then wrong), then the digits from left
      to right; byte `j` is the value of digits `2j` and `2j + 1`. */
  function DecodeToSlice(data: seq<byte>, size: nat): Result<seq<byte>, HexError>
  {
    if |data| % 2 != 0 then Failure(OddLength)
    else if |data| / 2 != size then Failure(InvalidStringLength)
    else
      var i := FirstNonHex(data, 0);
      if i < |data| then Failure(InvalidHexCharacter(data[i], i))
      else Success(seq(size, j requires 0 <= j < size => 16 * DigitValue(data[2 * j]) + DigitValue(data[2 * j + 1])))
  }

  /** `hex::encode`: two lower-case digits per byte, high nibble first. */
  function Encode(bytes: seq<byte>): (r: string)
    ensures |r| == 2 * |bytes|
  {
    if bytes == [] then [] else [LowerDigit(bytes[0] / 16), LowerDigit(bytes[0] % 16)] + Encode(bytes[1..])
  }

  /** Where each nibble of each byte lands in the encoding. */
  lemma {:induction false} EncodeAt(bytes: seq<byte>, j: nat)
    requires j < |bytes|
    ensures Encode(bytes)[2 * j] == LowerDigit(bytes[j] / 16)
    ensures Encode(bytes)[2 * j + 1] == LowerDigit(bytes[j] % 16)
  {
    if j > 0 {
      EncodeAt(bytes[1..], j - 1);
    }
  }

  /** Every character of the encoding is a lower-case hex digit. */
  lemma {:induction false} EncodeDigits(bytes: seq<byte>)
    ensures forall k :: 0 <= k < |Encode(bytes)| ==>
      ('0' <= Encode(bytes)[k] <= '9' || 'a' <= Encode(bytes)[k] <= 'f')
  {
    var s := Encode(bytes);
    forall k | 0 <= k < |s|
      ensures '0' <= s[k] <= '9' || 'a' <= s[k] <= 'f'
    {
      var j := k / 2;
      EncodeAt(bytes, j);
      if k % 2 == 0 {
        assert k == 2 * j;
      } else {
        assert k == 2 * j + 1;
      }
    }
  }

  /** The encoding is ASCII, lower case, and decodes back to the bytes. */
  lemma {:induction false} EncodeDecode(bytes: seq<byte>)
    ensures IsAscii(Encode(bytes))
    ensures forall k :: 0 <= k < |Encode(bytes)| ==> !('A' <= Encode(bytes)[k] <= 'Z')
    ensures DecodeToSlice(Utf8Encode(Encode(bytes)), |bytes|) == Success(bytes)
  {
    var s := Encode(bytes);
    EncodeDigits(bytes);
    AsciiUtf8(s);
    var data := Utf8Encode(s);
    forall j | 0 <= j < |bytes|
      ensures data[2 * j] == LowerDigit(bytes[j] / 16) as int
      ensures data[2 * j + 1] == LowerDigit(bytes[j] % 16) as int
    {
      EncodeAt(bytes, j);
    }
    DecodeDigits(bytes, data);
  }

  /** Two lower-case digits per byte, high nibble first, decode to the
      bytes. */
  lemma DecodeDigits(bytes: seq<byte>, data: seq<byte>)
    requires |data| == 2 * |bytes|
    requires forall j :: 0 <= j < |bytes| ==>
      data[2 * j] == LowerDigit(bytes[j] / 16) as int && data[2 * j + 1] == LowerDigit(bytes[j] % 16) as int
    ensures DecodeToSlice(data, |bytes|) == Success(bytes)
  {
    forall k | 0 <= k < |data| ensures IsHexDigit(data[k]) {
      var j := k / 2;
      assert k == 2 * j || k == 2 * j + 1;
      var b := bytes[j];
      assert data[2 * j] == LowerDigit(b / 16) as int && data[2 * j + 1] == LowerDigit(b % 16) as int;
    }
    assert FirstNonHex(data, 0) == |data|;
    var r := DecodeToSlice(data, |bytes|);
    forall j | 0 <= j < |bytes| ensures r.value[j] == bytes[j] {
      var b := bytes[j];
      assert data[2 * j] == LowerDigit(b / 16) as int && data[2 * j + 1] == LowerDigit(b % 16) as int;
    }
    assert r.value == bytes;
  }
}
