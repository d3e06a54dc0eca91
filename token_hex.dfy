/**
 * The device-token encoder of `didRegisterForRemoteNotificationsWithDeviceToken`:
 * every byte of the token is printed with the format `%02.2hhx` (an unsigned
 * char, lower-case hexadecimal, zero-padded to two digits) and the pieces are
 * joined with no separator. `DecodeToken` is its inverse, for the lemmas.
 */
module TokenHex {
  import opened Wrappers

  type Byte = b: int | 0 <= b < 256
  type Nibble = n: int | 0 <= n < 16

  predicate IsLowerHex(c: char) {
    '0' <= c <= '9' || 'a' <= c <= 'f'
  }

  /** The lower-case hexadecimal digit of a nibble. */
  function HexDigit(n: Nibble): (c: char)
    ensures IsLowerHex(c)
  {
    if n < 10 then (48 + n) as char else (87 + n) as char
  }

  /** The value of a lower-case hexadecimal digit; upper case is not produced by the encoder. */
  function HexValue(c: char): (r: Option<Nibble>)
    ensures r.Some? <==> IsLowerHex(c)
  {
    if '0' <= c <= '9' then Some(c as int - 48)
    else if 'a' <= c <= 'f' then Some(c as int - 87)
    else None
  }

  lemma HexValueOfDigit(n: Nibble)
    ensures HexValue(HexDigit(n)) == Some(n)
  {
  }

  lemma HexDigitOfValue(c: char)
    requires IsLowerHex(c)
    ensures HexDigit(HexValue(c).value) == c
  {
  }

  /** One byte as `%02.2hhx` prints it: high nibble first, then low nibble. */
  function EncodeByte(b: Byte): (s: string)
    ensures |s| == 2 && IsLowerHex(s[0]) && IsLowerHex(s[1])
    ensures HexValue(s[0]).value * 16 + HexValue(s[1]).value == b
  {
    HexValueOfDigit(b / 16);
    HexValueOfDigit(b % 16);
    [HexDigit(b / 16), HexDigit(b % 16)]
  }

  /** `deviceToken.map { String(format: "%02.2hhx", $0) }.joined()` */
  function EncodeToken(token: seq<Byte>): (s: string)
    ensures |s| == 2 * |token|
    ensures forall i :: 0 <= i < |s| ==> IsLowerHex(s[i])
  {
    if token == [] then "" else EncodeByte(token[0]) + EncodeToken(token[1..])
  }

  /** Reads consecutive pairs of lower-case hex digits back into bytes. */
  function DecodeToken(s: string): (r: Option<seq<Byte>>)
    decreases |s|
  {
    if |s| == 0 then Some([])
    else if |s| == 1 then None
    else
      match (HexValue(s[0]), HexValue(s[1]), DecodeToken(s[2..]))
      case (Some(hi), Some(lo), Some(rest)) => Some([hi as int * 16 + lo] + rest)
      case _ => None
  }

  /** The two digits at positions 2i and 2i+1 are exactly the encoding of byte i. */
  lemma {:induction false} EncodeTokenAt(token: seq<Byte>, i: nat)
    requires i < |token|
    ensures EncodeToken(token)[2 * i .. 2 * i + 2] == EncodeByte(token[i])
  {
    if i > 0 {
      EncodeTokenAt(token[1..], i - 1);
      assert EncodeToken(token) == EncodeByte(token[0]) + EncodeToken(token[1..]);
      assert EncodeToken(token)[2 * i .. 2 * i + 2] == EncodeToken(token[1..])[2 * (i - 1) .. 2 * (i - 1) + 2];
    }
  }

  /** Decoding the stored token recovers the original bytes. */
  lemma {:induction false} DecodeEncode(token: seq<Byte>)
    ensures DecodeToken(EncodeToken(token)) == Some(token)
  {
    if token != [] {
      var s := EncodeToken(token);
      DecodeEncode(token[1..]);
      assert s[..2] == EncodeByte(token[0]);
      assert s[2..] == EncodeToken(token[1..]);
      assert [token[0]] + token[1..] == token;
    }
  }

  /** Whatever decodes is exactly the encoding of what it decodes to. */
  lemma {:induction false} EncodeDecode(s: string)
    requires DecodeToken(s).Some?
    ensures EncodeToken(DecodeToken(s).value) == s
  {
    if |s| >= 2 {
      var token := DecodeToken(s).value;
      var hi, lo := HexValue(s[0]).value, HexValue(s[1]).value;
      EncodeDecode(s[2..]);
      assert token[0] == hi as int * 16 + lo && token[1..] == DecodeToken(s[2..]).value;
      assert token[0] / 16 == hi && token[0] % 16 == lo;
      HexDigitOfValue(s[0]);
      HexDigitOfValue(s[1]);
      assert EncodeByte(token[0]) == s[..2];
      assert s == s[..2] + s[2..];
    }
  }

  /** Decoding and encoding are inverse: a string decodes to `token` iff it is `token`'s encoding. */
  lemma DecodeIffEncode(s: string, token: seq<Byte>)
    ensures DecodeToken(s) == Some(token) <==> EncodeToken(token) == s
  {
    if DecodeToken(s) == Some(token) {
      EncodeDecode(s);
    }
    if EncodeToken(token) == s {
      DecodeEncode(token);
    }
  }

  /** Distinct tokens are stored as distinct strings. */
  lemma EncodeInjective(t1: seq<Byte>, t2: seq<Byte>)
    requires EncodeToken(t1) == EncodeToken(t2)
    ensures t1 == t2
  {
    DecodeEncode(t1);
    DecodeEncode(t2);
  }
}
