/** Bytes and the two text codecs the client uses: UTF-8 (query encoding) and strict ASCII (signing). */
module Codecs {
  import opened Wrappers

  newtype byte = x: int | 0 <= x < 256

  const LowerHexDigits: string := "0123456789abcdef"
  const UpperHexDigits: string := "0123456789ABCDEF"

  /** The value of one hexadecimal digit of either case. */
  function HexValue(c: char): (r: Option<nat>)
    ensures r.Some? ==> r.value < 16
  {
    if '0' <= c <= '9' then Some(c as int - '0' as int)
    else if 'a' <= c <= 'f' then Some(c as int - 'a' as int + 10)
    else if 'A' <= c <= 'F' then Some(c as int - 'A' as int + 10)
    else None
  }

  /** Both digit alphabets are read back to the value they render. */
  lemma HexDigitsRoundTrip(n: nat)
    requires n < 16
    ensures HexValue(LowerHexDigits[n]) == Some(n)
    ensures HexValue(UpperHexDigits[n]) == Some(n)
  {
  }

  /** The UTF-8 encoding of one Unicode scalar value (RFC 3629, section 3). */
  function Utf8Encode(c: char): (r: seq<byte>)
    ensures 1 <= |r| <= 4
    ensures |r| == 1 <==> c as int < 0x80
    ensures |r| > 1 ==> forall i :: 0 <= i < |r| ==> r[i] >= 0x80
  {
    var n := c as int;
    if n < 0x80 then [n as byte]
    else if n < 0x800 then [(0xC0 + n / 64) as byte, (0x80 + n % 64) as byte]
    else if n < 0x10000 then
      [(0xE0 + n / 4096) as byte, (0x80 + (n / 64) % 64) as byte, (0x80 + n % 64) as byte]
    else
      [(0xF0 + n / 262144) as byte, (0x80 + (n / 4096) % 64) as byte,
       (0x80 + (n / 64) % 64) as byte, (0x80 + n % 64) as byte]
  }

  /** How many bytes a UTF-8 sequence starting with `lead` has; 0 for a byte that cannot start one. */
  function Utf8Width(lead: byte): nat
  {
    if lead < 0x80 then 1
    else if 0xC0 <= lead < 0xE0 then 2
    else if 0xE0 <= lead < 0xF0 then 3
    else if 0xF0 <= lead < 0xF8 then 4
    else 0
  }

  predicate IsContinuation(b: byte)
  {
    0x80 <= b < 0xC0
  }

  /** Decodes one complete UTF-8 sequence, or None when `bs` is not one. */
  function Utf8Decode(bs: seq<byte>): Option<char>
  {
    if |bs| == 0 || Utf8Width(bs[0]) != |bs| then None
    else if |bs| == 1 then Some(bs[0] as int as char)
    else if exists i :: 1 <= i < |bs| && !IsContinuation(bs[i]) then None
    else if |bs| == 2 then
      Some(((bs[0] as int - 0xC0) * 64 + (bs[1] as int - 0x80)) as char)
    else if |bs| == 3 then
      var n := (bs[0] as int - 0xE0) * 4096 + (bs[1] as int - 0x80) * 64 + (bs[2] as int - 0x80);
      if 0xD800 <= n < 0xE000 then None else Some(n as char)
    else
      var n := (bs[0] as int - 0xF0) * 262144 + (bs[1] as int - 0x80) * 4096
               + (bs[2] as int - 0x80) * 64 + (bs[3] as int - 0x80);
      if n >= 0x110000 || 0xD800 <= n < 0xE000 then None else Some(n as char)
  }

  lemma DivMod64(n: int)
    requires n >= 0
    ensures n == (n / 64) * 64 + n % 64
    ensures n / 64 / 64 == n / 4096
    ensures n / 4096 / 64 == n / 262144
  {
  }

  /** Decoding the encoding of a character gives the character back, and the lead byte announces the length. */
  lemma Utf8RoundTrip(c: char)
    ensures Utf8Width(Utf8Encode(c)[0]) == |Utf8Encode(c)|
    ensures Utf8Decode(Utf8Encode(c)) == Some(c)
  {
    var n := c as int;
    var r := Utf8Encode(c);
    DivMod64(n);
    DivMod64(n / 64);
    DivMod64(n / 4096);
    if n < 0x80 {
    } else if n < 0x800 {
      assert r[0] as int - 0xC0 == n / 64 && r[1] as int - 0x80 == n % 64;
    } else if n < 0x10000 {
      assert r[0] as int - 0xE0 == n / 4096;
      assert (r[0] as int - 0xE0) * 4096 + (r[1] as int - 0x80) * 64 + (r[2] as int - 0x80) == n;
    } else {
      assert r[0] as int - 0xF0 == n / 262144;
      assert (r[0] as int - 0xF0) * 262144 + (r[1] as int - 0x80) * 4096
             + (r[2] as int - 0x80) * 64 + (r[3] as int - 0x80) == n;
    }
  }

  /** `s.encode('ascii')` in strict mode: None (UnicodeEncodeError) as soon as a character is outside ASCII. */
  function AsciiEncode(s: string): (r: Option<seq<byte>>)
    ensures r.Some? <==> forall i :: 0 <= i < |s| ==> s[i] as int < 128
    ensures r.Some? ==> |r.value| == |s| && forall i :: 0 <= i < |s| ==> r.value[i] as int == s[i] as int
  {
    if s == [] then Some([])
    else if s[0] as int >= 128 then None
    else
      match AsciiEncode(s[1..])
      case None => None
      case Some(rest) => Some([s[0] as int as byte] + rest)
  }
}
