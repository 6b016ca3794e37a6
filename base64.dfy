/**
 * The standard base64 encoding with padding (section 4 of RFC 4648), as
 * Go's `base64.StdEncoding` applies it: encoding emits the standard
 * alphabet and pads the last group with `=`; decoding accepts groups of
 * four characters, padding only in the last group, and ignores the unused
 * low bits of a padded group (the non-strict mode of `StdEncoding`).
 */
module Base64 {
  import opened Wrappers

  newtype byte = x: int | 0 <= x < 256

  /** A six-bit group, the value one alphabet character stands for. */
  type sextet = v: int | 0 <= v < 64

  const PadChar: char := '='

  /** Characters of the alphabet of Table 1 of RFC 4648. */
  predicate IsAlphabetChar(c: char) {
    ('A' <= c <= 'Z') || ('a' <= c <= 'z') || ('0' <= c <= '9') || c == '+' || c == '/'
  }

  /** Table 1 of RFC 4648: 0..25 -> A..Z, 26..51 -> a..z, 52..61 -> 0..9, 62 -> +, 63 -> /. */
  function EncodeSextet(v: sextet): (c: char)
    ensures IsAlphabetChar(c)
  {
    if v < 26 then ('A' as int + v) as char
    else if v < 52 then ('a' as int + (v - 26)) as char
    else if v < 62 then ('0' as int + (v - 52)) as char
    else if v == 62 then '+'
    else '/'
  }

  /** The inverse of Table 1 of RFC 4648. */
  function DecodeChar(c: char): (v: sextet)
    requires IsAlphabetChar(c)
    ensures EncodeSextet(v) == c
  {
    if 'A' <= c <= 'Z' then c as int - 'A' as int
    else if 'a' <= c <= 'z' then c as int - 'a' as int + 26
    else if '0' <= c <= '9' then c as int - '0' as int + 52
    else if c == '+' then 62
    else 63
  }

  lemma DecodeEncodeSextet(v: sextet)
    ensures DecodeChar(EncodeSextet(v)) == v
  {
  }

  /** Three bytes as four characters. */
  function EncodeGroup(b0: byte, b1: byte, b2: byte): string {
    [EncodeSextet(b0 as int / 4),
     EncodeSextet((b0 as int % 4) * 16 + b1 as int / 16),
     EncodeSextet((b1 as int % 16) * 4 + b2 as int / 64),
     EncodeSextet(b2 as int % 64)]
  }

  /** Base64 text of `data`, e.g. `KeyBytesToString`. */
  function Encode(data: seq<byte>): string
    decreases |data|
  {
    if |data| == 0 then ""
    else if |data| == 1 then
      [EncodeSextet(data[0] as int / 4), EncodeSextet((data[0] as int % 4) * 16), PadChar, PadChar]
    else if |data| == 2 then
      [EncodeSextet(data[0] as int / 4),
       EncodeSextet((data[0] as int % 4) * 16 + data[1] as int / 16),
       EncodeSextet((data[1] as int % 16) * 4),
       PadChar]
    else
      EncodeGroup(data[0], data[1], data[2]) + Encode(data[3..])
  }

  /** Four alphabet characters as three bytes. */
  function DecodeGroup(c0: char, c1: char, c2: char, c3: char): seq<byte>
    requires IsAlphabetChar(c0) && IsAlphabetChar(c1) && IsAlphabetChar(c2) && IsAlphabetChar(c3)
  {
    var s0, s1, s2, s3 := DecodeChar(c0), DecodeChar(c1), DecodeChar(c2), DecodeChar(c3);
    [(s0 * 4 + s1 / 16) as byte, ((s1 % 16) * 16 + s2 / 4) as byte, ((s2 % 4) * 64 + s3) as byte]
  }

  /** The final group of four characters, which may end in one or two pad characters. */
  function DecodeLastGroup(c0: char, c1: char, c2: char, c3: char): Option<seq<byte>> {
    if !IsAlphabetChar(c0) || !IsAlphabetChar(c1) then None
    else if c2 == PadChar && c3 == PadChar then
      Some([(DecodeChar(c0) * 4 + DecodeChar(c1) / 16) as byte])
    else if IsAlphabetChar(c2) && c3 == PadChar then
      Some(DecodeGroup(c0, c1, c2, 'A')[..2])
    else if IsAlphabetChar(c2) && IsAlphabetChar(c3) then
      Some(DecodeGroup(c0, c1, c2, c3))
    else None
  }

  /**
   * The bytes `text` stands for, or None when it is not padded base64:
   * a length that is not a multiple of four, a character outside the
   * alphabet, or padding before the last group.
   */
  function Decode(text: string): (r: Option<seq<byte>>)
    ensures r.Some? ==> |text| == 4 * ((|r.value| + 2) / 3)
    decreases |text|
  {
    if |text| == 0 then Some([])
    else if |text| < 4 then None
    else if |text| == 4 then DecodeLastGroup(text[0], text[1], text[2], text[3])
    else if IsAlphabetChar(text[0]) && IsAlphabetChar(text[1]) && IsAlphabetChar(text[2]) && IsAlphabetChar(text[3]) then
      match Decode(text[4..])
      case None => None
      case Some(rest) => Some(DecodeGroup(text[0], text[1], text[2], text[3]) + rest)
    else None
  }

  /** Number of pad characters that close the encoding of `n` bytes. */
  function PadCount(n: nat): nat {
    (3 - n % 3) % 3
  }

  /** The encoding of `n` bytes has 4 * ceil(n / 3) characters. */
  lemma {:induction false} EncodeLength(data: seq<byte>)
    ensures |Encode(data)| == 4 * ((|data| + 2) / 3)
    decreases |data|
  {
    if |data| > 2 {
      EncodeLength(data[3..]);
    }
  }

  /**
   * Every character of an encoding is in the alphabet except the last
   * `PadCount(|data|)` ones, which are `=`.
   */
  lemma {:induction false} EncodeShape(data: seq<byte>)
    ensures |Encode(data)| == 4 * ((|data| + 2) / 3)
    ensures forall i :: 0 <= i < |Encode(data)| ==>
      if i < |Encode(data)| - PadCount(|data|) then IsAlphabetChar(Encode(data)[i])
      else Encode(data)[i] == PadChar
    decreases |data|
  {
    EncodeLength(data);
    if |data| > 2 {
      var rest := data[3..];
      EncodeShape(rest);
      var s := Encode(data);
      assert s == EncodeGroup(data[0], data[1], data[2]) + Encode(rest);
      assert PadCount(|data|) == PadCount(|rest|);
      forall i | 0 <= i < |s|
        ensures if i < |s| - PadCount(|data|) then IsAlphabetChar(s[i]) else s[i] == PadChar
      {
        if i >= 4 {
          assert s[i] == Encode(rest)[i - 4];
        }
      }
    }
  }

  /** Decoding undoes encoding: the round trip the key getters rely on. */
  lemma {:induction false} DecodeEncode(data: seq<byte>)
    ensures Decode(Encode(data)) == Some(data)
    decreases |data|
  {
    if |data| == 1 {
      DecodeEncodeOne(data[0]);
      assert data == [data[0]];
    } else if |data| == 2 {
      DecodeEncodeTwo(data[0], data[1]);
      assert data == [data[0], data[1]];
    } else if |data| > 2 {
      var rest := data[3..];
      DecodeEncodeGroup(data[0], data[1], data[2]);
      DecodeEncode(rest);
      EncodeLength(rest);
      var g, s := EncodeGroup(data[0], data[1], data[2]), Encode(data);
      assert s == g + Encode(rest);
      assert s[4..] == Encode(rest);
      assert s[0] == g[0] && s[1] == g[1] && s[2] == g[2] && s[3] == g[3];
      if |rest| == 0 {
        assert s == g;
        assert data == [data[0], data[1], data[2]];
      } else {
        assert |s| > 4;
        assert Decode(s) == Some(DecodeGroup(g[0], g[1], g[2], g[3]) + rest);
        assert data == [data[0], data[1], data[2]] + rest;
      }
    }
  }

  lemma DecodeEncodeOne(b0: byte)
    ensures Decode(Encode([b0])) == Some([b0])
  {
    var x0 := b0 as int;
    DecodeEncodeSextet(x0 / 4);
    DecodeEncodeSextet((x0 % 4) * 16);
  }

  lemma DecodeEncodeTwo(b0: byte, b1: byte)
    ensures Decode(Encode([b0, b1])) == Some([b0, b1])
  {
    var x0, x1 := b0 as int, b1 as int;
    DecodeEncodeSextet(x0 / 4);
    DecodeEncodeSextet((x0 % 4) * 16 + x1 / 16);
    DecodeEncodeSextet((x1 % 16) * 4);
    var s := Encode([b0, b1]);
    assert DecodeGroup(s[0], s[1], s[2], 'A')[..2] == [b0, b1];
  }

  lemma DecodeEncodeGroup(b0: byte, b1: byte, b2: byte)
    ensures var g := EncodeGroup(b0, b1, b2);
      IsAlphabetChar(g[0]) && IsAlphabetChar(g[1]) && IsAlphabetChar(g[2]) && IsAlphabetChar(g[3]) &&
      DecodeGroup(g[0], g[1], g[2], g[3]) == [b0, b1, b2]
      && DecodeLastGroup(g[0], g[1], g[2], g[3]) == Some([b0, b1, b2])
  {
    var x0, x1, x2 := b0 as int, b1 as int, b2 as int;
    DecodeEncodeSextet(x0 / 4);
    DecodeEncodeSextet((x0 % 4) * 16 + x1 / 16);
    DecodeEncodeSextet((x1 % 16) * 4 + x2 / 64);
    DecodeEncodeSextet(x2 % 64);
  }

  /** A WireGuard key of 32 bytes is 44 characters, the last one the only `=`. */
  lemma KeyEncodingShape(key: seq<byte>)
    requires |key| == 32
    ensures |Encode(key)| == 44
    ensures Encode(key)[43] == PadChar
    ensures forall i :: 0 <= i < 43 ==> IsAlphabetChar(Encode(key)[i])
  {
    EncodeShape(key);
  }
}
