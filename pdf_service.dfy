/** `computeImageHash` of services/pdfService.ts: base64 text to the lowercase hex SHA-256 of its bytes.
    `atob` and the digest are foreign calls and stay opaque (function parameters); the byte loop and
    the hex encoding are modelled. */
module PdfService {
  import opened Wrappers

  type byte = x: int | 0 <= x < 256

  /** `bytes[i] = binaryString.charCodeAt(i)` stores into a Uint8Array, which keeps the code modulo 256. */
  function ByteOf(c: char): byte {
    (c as int) % 256
  }

  /** The byte array the loop fills, as a sequence. */
  function CharCodes(binary: string): (bytes: seq<byte>)
    ensures |bytes| == |binary|
    ensures forall i :: 0 <= i < |binary| ==> bytes[i] == ByteOf(binary[i])
  {
    seq(|binary|, i requires 0 <= i < |binary| => ByteOf(binary[i]))
  }

  /** `atob` yields one character per byte, every code below 256; on such a string the loop is exact. */
  lemma CharCodesExact(binary: string, i: nat)
    requires i < |binary|
    requires binary[i] as int < 256
    ensures CharCodes(binary)[i] == binary[i] as int
  {
  }

  /** The decoding loop, filling a fresh Uint8Array. */
  method DecodeBytes(binary: string) returns (bytes: array<byte>)
    ensures fresh(bytes)
    ensures bytes[..] == CharCodes(binary)
  {
    bytes := new byte[|binary|];
    for i := 0 to |binary|
      invariant forall k :: 0 <= k < i ==> bytes[k] == ByteOf(binary[k])
    {
      bytes[i] := ByteOf(binary[i]);
    }
  }

  const HEX_DIGITS := "0123456789abcdef"

  function HexDigit(d: nat): char
    requires d < 16
  {
    HEX_DIGITS[d]
  }

  /** `b.toString(16)`: no leading zero, so one digit below 16. */
  function ToHexString(b: byte): string {
    if b < 16 then [HexDigit(b)] else [HexDigit(b / 16), HexDigit(b % 16)]
  }

  /** `s.padStart(2, '0')` */
  function PadStart2(s: string): string {
    if |s| < 2 then seq(2 - |s|, _ => '0') + s else s
  }

  /** One byte as it appears in the hash string. */
  function HexByte(b: byte): string {
    PadStart2(ToHexString(b))
  }

  /** `hashArray.map(b => b.toString(16).padStart(2, '0')).join('')` */
  function HexEncode(bytes: seq<byte>): string
    decreases |bytes|
  {
    if bytes == [] then "" else HexByte(bytes[0]) + HexEncode(bytes[1..])
  }

  /** Every byte becomes exactly two lowercase digits, high nibble first, zero-padded below 16. */
  lemma HexByteIsTwoDigits(b: byte)
    ensures HexByte(b) == [HexDigit(b / 16), HexDigit(b % 16)]
  {
    if b < 16 {
      assert b / 16 == 0 && b % 16 == b;
      assert seq(1, _ => '0') == ['0'];
    }
  }

  predicate IsHexChar(c: char) {
    '0' <= c <= '9' || 'a' <= c <= 'f'
  }

  /** Every digit the encoding uses is a lowercase hex digit. */
  lemma HexDigitIsHex(d: nat)
    requires d < 16
    ensures IsHexChar(HexDigit(d))
  {
  }

  /** The encoding has two characters per byte, the i-th byte at 2i and 2i+1. */
  lemma {:induction false} HexEncodeDigits(bytes: seq<byte>)
    ensures |HexEncode(bytes)| == 2 * |bytes|
    ensures forall i :: 0 <= i < |bytes| ==>
      HexEncode(bytes)[2 * i] == HexDigit(bytes[i] / 16) && HexEncode(bytes)[2 * i + 1] == HexDigit(bytes[i] % 16)
    decreases |bytes|
  {
    if bytes != [] {
      HexByteIsTwoDigits(bytes[0]);
      HexEncodeDigits(bytes[1..]);
      var e := HexEncode(bytes);
      var rest := HexEncode(bytes[1..]);
      assert e == HexByte(bytes[0]) + rest;
      forall i | 0 <= i < |bytes|
        ensures e[2 * i] == HexDigit(bytes[i] / 16) && e[2 * i + 1] == HexDigit(bytes[i] % 16)
      {
        if i > 0 {
          assert e[2 * i] == rest[2 * (i - 1)];
          assert e[2 * i + 1] == rest[2 * (i - 1) + 1];
        }
      }
    }
  }

  /** The encoding has two characters per byte, all of them in [0-9a-f], the i-th byte at 2i and 2i+1. */
  lemma HexEncodeShape(bytes: seq<byte>)
    ensures |HexEncode(bytes)| == 2 * |bytes|
    ensures forall i :: 0 <= i < |bytes| ==>
      HexEncode(bytes)[2 * i] == HexDigit(bytes[i] / 16) && HexEncode(bytes)[2 * i + 1] == HexDigit(bytes[i] % 16)
    ensures forall i :: 0 <= i < |HexEncode(bytes)| ==> IsHexChar(HexEncode(bytes)[i])
  {
    HexEncodeDigits(bytes);
    var e := HexEncode(bytes);
    forall j | 0 <= j < |e|
      ensures IsHexChar(e[j])
    {
      var i := j / 2;
      HexDigitIsHex(bytes[i] / 16);
      HexDigitIsHex(bytes[i] % 16);
      if j % 2 == 0 {
        assert j == 2 * i;
      } else {
        assert j == 2 * i + 1;
      }
    }
  }

  /** The position of a hex digit in "0123456789abcdef"; undoes `HexDigit`. */
  function HexValue(c: char): nat {
    if '0' <= c <= '9' then (c as int) - ('0' as int)
    else if 'a' <= c <= 'f' then (c as int) - ('a' as int) + 10
    else 0
  }

  lemma HexValueOfDigit(d: nat)
    requires d < 16
    ensures HexValue(HexDigit(d)) == d
  {
  }

  /** Reads a hash string back into its digest bytes. */
  function HexDecode(s: string): seq<byte>
    requires |s| % 2 == 0
    decreases |s|
  {
    if s == [] then []
    else
      var b := 16 * HexValue(s[0]) + HexValue(s[1]);
      [if b < 256 then b else 0] + HexDecode(s[2..])
  }

  /** Decoding undoes the encoding. */
  lemma {:induction false} HexRoundTrip(bytes: seq<byte>)
    ensures |HexEncode(bytes)| % 2 == 0
    ensures HexDecode(HexEncode(bytes)) == bytes
    decreases |bytes|
  {
    HexEncodeDigits(bytes);
    if bytes != [] {
      var e := HexEncode(bytes);
      HexByteIsTwoDigits(bytes[0]);
      HexValueOfDigit(bytes[0] / 16);
      HexValueOfDigit(bytes[0] % 16);
      HexRoundTrip(bytes[1..]);
      assert e[2..] == HexEncode(bytes[1..]);
    }
  }

  /** Equal digests, and only equal digests, give equal hash strings. */
  lemma HexEncodeInjective(a: seq<byte>, b: seq<byte>)
    ensures HexEncode(a) == HexEncode(b) <==> a == b
  {
    HexRoundTrip(a);
    HexRoundTrip(b);
  }

  /** A SHA-256 digest is 32 bytes (FIPS 180-4), so its hash string has 64 characters. */
  lemma Sha256HashLength(digest: seq<byte>)
    requires |digest| == 32
    ensures |HexEncode(digest)| == 64
  {
    HexEncodeDigits(digest);
  }

  /** `computeImageHash(base64)`: `atob` (None when it throws on text that is not base64),
      the byte loop, the opaque digest, then hex. */
  function ImageHash(atob: string -> Option<string>, digest: seq<byte> -> seq<byte>, base64: string): Option<string> {
    match atob(base64)
    case None => None
    case Some(binary) => Some(HexEncode(digest(CharCodes(binary))))
  }

  /** A page hash only ever holds hex digits: in particular no '_' that could blur a cache key. */
  lemma ImageHashIsHex(atob: string -> Option<string>, digest: seq<byte> -> seq<byte>, base64: string)
    requires ImageHash(atob, digest, base64).Some?
    ensures forall i :: 0 <= i < |ImageHash(atob, digest, base64).value| ==>
      IsHexChar(ImageHash(atob, digest, base64).value[i])
  {
    HexEncodeShape(digest(CharCodes(atob(base64).value)));
  }

  /** The imperative pipeline of `computeImageHash`; it yields `ImageHash`, so it is deterministic. */
  method ComputeImageHash(atob: string -> Option<string>, digest: seq<byte> -> seq<byte>, base64: string)
    returns (hash: Option<string>)
    ensures hash == ImageHash(atob, digest, base64)
  {
    var binary := atob(base64);
    if binary.None? {
      return None;
    }
    var bytes := DecodeBytes(binary.value);
    hash := Some(HexEncode(digest(bytes[..])));
  }
}
