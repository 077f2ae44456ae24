/**
 * The hexadecimal helpers of the EVM utilities package: `to_hex` prefixes
 * the lowercase hex encoding of a byte string with "0x", and `from_hex`
 * drops the first two bytes of its text and hex-decodes the rest.
 *
 * Rust strings are UTF-8; the model works on their bytes, so the text
 * "0x" is the two bytes 0x30 0x78.  `hex::encode` writes lowercase digits;
 * `hex::decode` accepts both cases, reports an odd length before looking
 * at any digit, and otherwise reports the first byte that is not a digit
 * together with its position.
 */
module EthCall {
  import opened Wrappers
  import opened Primitives

  /** The error type of `hex::decode`. */
  datatype FromHexError = OddLength | InvalidHexCharacter(c: byte, index: nat)

  /** The bytes of the text "0x". */
  const ZERO_X: seq<byte> := [0x30, 0x78]

  /** The lowercase ASCII digit for a nibble. */
  function HexDigit(n: nat): (c: byte)
    requires n < 16
    ensures IsLowerHexDigit(c) && HexValue(c) == n
  {
    if n < 10 then 0x30 + n else 0x61 + (n - 10)
  }

  predicate IsLowerHexDigit(c: byte) {
    (0x30 <= c <= 0x39) || (0x61 <= c <= 0x66)
  }

  /** A byte `hex::decode` accepts: '0'-'9', 'A'-'F' or 'a'-'f'. */
  predicate IsHexDigit(c: byte) {
    (0x30 <= c <= 0x39) || (0x41 <= c <= 0x46) || (0x61 <= c <= 0x66)
  }

  function HexValue(c: byte): (n: nat)
    requires IsHexDigit(c)
    ensures n < 16
  {
    if c <= 0x39 then c - 0x30 else if c <= 0x46 then c - 0x41 + 10 else c - 0x61 + 10
  }

  /** `hex::encode`: two lowercase digits per byte, high nibble first. */
  function Encode(data: seq<byte>): (s: seq<byte>)
    ensures |s| == 2 * |data|
    ensures forall i :: 0 <= i < |data| ==>
              s[2 * i] == HexDigit(data[i] / 16) && s[2 * i + 1] == HexDigit(data[i] % 16)
    ensures forall j :: 0 <= j < |s| ==> IsLowerHexDigit(s[j])
  {
    if data == [] then []
    else [HexDigit(data[0] / 16), HexDigit(data[0] % 16)] + Encode(data[1..])
  }

  /** `hex::decode`: an odd length is refused first, then digit pairs are read from the front. */
  function Decode(s: seq<byte>): (r: Result<seq<byte>, FromHexError>)
    ensures r == Err(OddLength) <==> |s| % 2 == 1
    ensures r.Ok? <==> |s| % 2 == 0 && forall j :: 0 <= j < |s| ==> IsHexDigit(s[j])
    ensures r.Ok? ==> 2 * |r.value| == |s|
    ensures r.Ok? ==> forall k :: 0 <= k < |r.value| ==>
              r.value[k] == 16 * HexValue(s[2 * k]) + HexValue(s[2 * k + 1])
    ensures r.Err? && r.error.InvalidHexCharacter? ==> FirstInvalid(s, r.error)
  {
    if |s| % 2 == 1 then Err(OddLength) else DecodeFrom(s, 0)
  }

  /** `e` names the first byte of `s` that is not a hex digit, and its position. */
  ghost predicate FirstInvalid(s: seq<byte>, e: FromHexError)
    requires e.InvalidHexCharacter?
  {
    && e.index < |s|
    && s[e.index] == e.c
    && !IsHexDigit(e.c)
    && forall j :: 0 <= j < e.index ==> IsHexDigit(s[j])
  }

  /** Decodes the digit pairs of `s` from position `i` on. */
  function DecodeFrom(s: seq<byte>, i: nat): (r: Result<seq<byte>, FromHexError>)
    requires |s| % 2 == 0 && i <= |s| && i % 2 == 0
    requires forall j :: 0 <= j < i ==> IsHexDigit(s[j])
    decreases |s| - i
    ensures r.Ok? <==> forall j :: i <= j < |s| ==> IsHexDigit(s[j])
    ensures r.Ok? ==> 2 * |r.value| == |s| - i
    ensures r.Ok? ==> forall k :: 0 <= k < |r.value| ==>
              r.value[k] == 16 * HexValue(s[i + 2 * k]) + HexValue(s[i + 2 * k + 1])
    ensures r.Err? ==> r.error.InvalidHexCharacter? && i <= r.error.index && FirstInvalid(s, r.error)
  {
    if i == |s| then Ok([])
    else if !IsHexDigit(s[i]) then Err(InvalidHexCharacter(s[i], i))
    else if !IsHexDigit(s[i + 1]) then Err(InvalidHexCharacter(s[i + 1], i + 1))
    else
      match DecodeFrom(s, i + 2)
      case Err(e) => Err(e)
      case Ok(rest) => Ok([16 * HexValue(s[i]) + HexValue(s[i + 1])] + rest)
  }

  /** Rust's `str::is_char_boundary`: position `i` does not fall inside a UTF-8 sequence. */
  predicate IsCharBoundary(text: seq<byte>, i: nat)
    requires i <= |text|
  {
    i == |text| || !(0x80 <= text[i] < 0xC0)
  }

  /** `to_hex`: "0x" followed by the lowercase hex encoding of `data`. */
  function ToHex(data: seq<byte>): (text: seq<byte>)
    ensures |text| == 2 + 2 * |data|
    ensures text[..2] == ZERO_X
    ensures forall j :: 2 <= j < |text| ==> IsLowerHexDigit(text[j])
    ensures forall i :: 0 <= i < |data| ==>
              text[2 + 2 * i] == HexDigit(data[i] / 16) && text[3 + 2 * i] == HexDigit(data[i] % 16)
  {
    ZERO_X + Encode(data)
  }

  /**
   * `from_hex`: decodes everything after the first two bytes, whatever they
   * are.  The slice `&data[2..]` panics on a text shorter than two bytes
   * or when byte 2 is inside a multi-byte character: that outcome is `None`.
   */
  function FromHex(text: seq<byte>): (r: Option<Result<seq<byte>, FromHexError>>)
    ensures r.None? <==> |text| < 2 || !IsCharBoundary(text, 2)
    ensures r.Some? ==> (r.value == Err(OddLength) <==> |text| % 2 == 1)
    ensures r.Some? ==> (r.value.Ok? <==> |text| % 2 == 0 && forall j :: 2 <= j < |text| ==> IsHexDigit(text[j]))
    ensures r.Some? && r.value.Ok? ==> 2 * |r.value.value| + 2 == |text|
    ensures r.Some? && r.value.Ok? ==> forall k :: 0 <= k < |r.value.value| ==>
              r.value.value[k] == 16 * HexValue(text[2 + 2 * k]) + HexValue(text[3 + 2 * k])
    ensures r.Some? && r.value.Err? && r.value.error.InvalidHexCharacter? ==> FirstInvalid(text[2..], r.value.error)
  {
    if |text| < 2 || !IsCharBoundary(text, 2) then None
    else
      var digits := text[2..];
      assert forall j :: 2 <= j < |text| ==> text[j] == digits[j - 2];
      Some(Decode(digits))
  }

  /** Decoding what `to_hex` produced gives back the original bytes. */
  lemma RoundTrip(data: seq<byte>)
    ensures FromHex(ToHex(data)) == Some(Ok(data))
  {
    var text := ToHex(data);
    assert IsCharBoundary(text, 2);
    var r := FromHex(text).value;
    assert r.Ok?;
    assert |r.value| == |data|;
    forall k | 0 <= k < |data|
      ensures r.value[k] == data[k]
    {
      var hi, lo := data[k] / 16, data[k] % 16;
      assert text[2 + 2 * k] == HexDigit(hi) && text[3 + 2 * k] == HexDigit(lo);
      assert r.value[k] == 16 * hi + lo;
      assert data[k] == 16 * hi + lo;
    }
    assert r.value == data;
  }

  /**
   * The other direction holds only for lowercase digits, because
   * `hex::encode` never writes 'A'-'F': re-encoding what `from_hex` read
   * from such a text restores the text after its first two bytes.
   */
  lemma ReencodeLowercase(text: seq<byte>)
    requires |text| >= 2 && |text| % 2 == 0
    requires forall j :: 2 <= j < |text| ==> IsLowerHexDigit(text[j])
    ensures FromHex(text).Some? && FromHex(text).value.Ok?
    ensures ToHex(FromHex(text).value.value) == ZERO_X + text[2..]
  {
    assert IsCharBoundary(text, 2);
    var r := FromHex(text).value;
    assert r.Ok?;
    var d := r.value;
    var e := ToHex(d);
    var t := ZERO_X + text[2..];
    assert |e| == |t|;
    forall j | 2 <= j < |t|
      ensures e[j] == t[j]
    {
      PositionInPair(j);
      var k := (j - 2) / 2;
      PairRestored(text[2 + 2 * k], text[3 + 2 * k], d[k]);
    }
    assert e[..2] == t[..2];
  }

  lemma PositionInPair(j: int)
    requires j >= 2
    ensures 0 <= (j - 2) / 2 && (j == 2 + 2 * ((j - 2) / 2) || j == 3 + 2 * ((j - 2) / 2))
  {
  }

  /** A byte read from two lowercase digits is written back as the same two digits. */
  lemma PairRestored(hi: byte, lo: byte, b: byte)
    requires IsLowerHexDigit(hi) && IsLowerHexDigit(lo)
    requires b == 16 * HexValue(hi) + HexValue(lo)
    ensures HexDigit(b / 16) == hi && HexDigit(b % 16) == lo
  {
    assert b / 16 == HexValue(hi) && b % 16 == HexValue(lo);
    LowerDigitOfValue(hi);
    LowerDigitOfValue(lo);
  }

  lemma LowerDigitOfValue(c: byte)
    requires IsLowerHexDigit(c)
    ensures HexDigit(HexValue(c)) == c
  {
  }
}
