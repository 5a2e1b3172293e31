/**
 * The query-string encoding the client applies through `urllib.parse.urlencode` with the default
 * `quote_plus` quoting and UTF-8: each key and value is `str()`-ed, unreserved characters (RFC 3986,
 * section 2.3) stay, a space becomes `+`, every other character becomes the `%XX` escapes of its
 * UTF-8 bytes, and the `key=value` pairs are joined with `&`. A reference decoder, as the server
 * would apply it, shows that nothing is lost or reordered.
 */
module UrlEncoding {
  import opened Wrappers
  import opened Strings
  import opened Codecs
  import opened Json
  import opened Params

  /** The characters `quote` never escapes: RFC 3986 unreserved. */
  predicate IsUnreserved(c: char)
  {
    'A' <= c <= 'Z' || 'a' <= c <= 'z' || '0' <= c <= '9' || c == '-' || c == '.' || c == '_' || c == '~'
  }

  /** `%XY` with upper-case hexadecimal digits, once per byte. */
  function PercentEncode(bs: seq<byte>): (r: string)
    ensures |r| == 3 * |bs|
  {
    if bs == [] then ""
    else ['%', UpperHexDigits[bs[0] as int / 16], UpperHexDigits[bs[0] as int % 16]] + PercentEncode(bs[1..])
  }

  /** How `quote_plus(s, safe='')` renders one character. */
  function QuoteChar(c: char): string
  {
    if IsUnreserved(c) then [c]
    else if c == ' ' then "+"
    else PercentEncode(Utf8Encode(c))
  }

  /** `quote_plus(s)` with UTF-8. */
  function QuotePlus(s: string): string
  {
    if s == [] then "" else QuoteChar(s[0]) + QuotePlus(s[1..])
  }

  /** One `key=value` pair of `urlencode`. */
  function EncodePair(k: string, v: Json): string
  {
    QuotePlus(k) + "=" + QuotePlus(Str(v))
  }

  /** `urlencode(d)`: the encoded pairs in the dict's order, joined by `&`. */
  function Urlencode(p: Params): string
  {
    Join("&", EncodedPairs(p))
  }

  function EncodedPairs(p: Params): (r: seq<string>)
    ensures |r| == |p|
  {
    if p == [] then [] else [EncodePair(p[0].0, p[0].1)] + EncodedPairs(p[1..])
  }

  /** A string made of unreserved characters is sent as it is. */
  lemma {:induction false} QuoteUnreserved(s: string)
    requires forall i :: 0 <= i < |s| ==> IsUnreserved(s[i])
    ensures QuotePlus(s) == s
  {
    if s != [] {
      QuoteUnreserved(s[1..]);
      assert [s[0]] + s[1..] == s;
    }
  }

  /** A space is sent as `+`. */
  lemma QuoteSpace(s: string)
    ensures QuotePlus([' '] + s) == "+" + QuotePlus(s)
  {
    assert ([' '] + s)[1..] == s;
  }

  /** Percent escapes consist of `%` and upper-case hexadecimal digits only. */
  lemma {:induction false} PercentChars(bs: seq<byte>, c: char)
    requires c in PercentEncode(bs)
    ensures c == '%' || c in UpperHexDigits
  {
    if bs != [] {
      var head := ['%', UpperHexDigits[bs[0] as int / 16], UpperHexDigits[bs[0] as int % 16]];
      assert PercentEncode(bs) == head + PercentEncode(bs[1..]);
      if c !in head {
        PercentChars(bs[1..], c);
      }
    }
  }

  /** What `quote_plus` emits is unreserved, `+` or `%`: never a `&` or `=` that would split the query. */
  lemma {:induction false} QuoteChars(s: string, c: char)
    requires c in QuotePlus(s)
    ensures IsUnreserved(c) || c == '+' || c == '%'
    ensures c != '&' && c != '='
  {
    if s != [] {
      assert QuotePlus(s) == QuoteChar(s[0]) + QuotePlus(s[1..]);
      if c in QuoteChar(s[0]) {
        if !IsUnreserved(s[0]) && s[0] != ' ' {
          PercentChars(Utf8Encode(s[0]), c);
        }
      } else {
        QuoteChars(s[1..], c);
      }
    }
  }

  /** Reads `n` percent escapes from the front of `s`. */
  function ReadBytes(s: string, n: nat): Option<seq<byte>>
  {
    if n == 0 then Some([])
    else if |s| < 3 || s[0] != '%' || HexValue(s[1]).None? || HexValue(s[2]).None? then None
    else
      var b := (HexValue(s[1]).value * 16 + HexValue(s[2]).value) as byte;
      match ReadBytes(s[3..], n - 1)
      case Some(rest) => Some([b] + rest)
      case None => None
  }

  /** Decodes the percent-escaped UTF-8 sequence of one character at the front of `s`, and its length. */
  function ReadEscapedChar(s: string): Option<(char, nat)>
  {
    match ReadBytes(s, 1)
    case None => None
    case Some(lead) =>
      var w := Utf8Width(lead[0]);
      if w == 0 then None
      else
        match ReadBytes(s, w)
        case None => None
        case Some(bs) =>
          match Utf8Decode(bs)
          case None => None
          case Some(c) => Some((c, 3 * w))
  }

  function Prepend(c: char, r: Option<string>): Option<string>
  {
    match r
    case Some(s) => Some([c] + s)
    case None => None
  }

  /** The server's decoding of one query component: `+` is a space and escapes are UTF-8 bytes. */
  function UnquotePlus(s: string): Option<string>
    decreases |s|
  {
    if s == [] then Some([])
    else if s[0] == '+' then Prepend(' ', UnquotePlus(s[1..]))
    else if s[0] != '%' then Prepend(s[0], UnquotePlus(s[1..]))
    else
      match ReadEscapedChar(s)
      case None => None
      case Some((c, n)) => if 0 < n <= |s| then Prepend(c, UnquotePlus(s[n..])) else None
  }

  /** The escape `%XY` of one byte, and what it reads back as. */
  lemma EscapeOfByte(b: byte, rest: string, n: nat)
    requires n >= 1
    ensures var s := ['%', UpperHexDigits[b as int / 16], UpperHexDigits[b as int % 16]] + rest;
      ReadBytes(s, n) == (match ReadBytes(rest, n - 1)
                          case Some(tail) => Some([b] + tail)
                          case None => None)
  {
    var s := ['%', UpperHexDigits[b as int / 16], UpperHexDigits[b as int % 16]] + rest;
    HexDigitsRoundTrip(b as int / 16);
    HexDigitsRoundTrip(b as int % 16);
    assert s[1] == UpperHexDigits[b as int / 16] && s[2] == UpperHexDigits[b as int % 16];
    assert s[3..] == rest;
    assert ((b as int / 16) * 16 + b as int % 16) as byte == b;
  }

  lemma {:induction false} ReadBytesOfEncoding(bs: seq<byte>, rest: string)
    ensures ReadBytes(PercentEncode(bs) + rest, |bs|) == Some(bs)
  {
    if bs != [] {
      var b := bs[0];
      var head := ['%', UpperHexDigits[b as int / 16], UpperHexDigits[b as int % 16]];
      assert PercentEncode(bs) + rest == head + (PercentEncode(bs[1..]) + rest);
      ReadBytesOfEncoding(bs[1..], rest);
      EscapeOfByte(b, PercentEncode(bs[1..]) + rest, |bs|);
      assert [b] + bs[1..] == bs;
    }
  }

  lemma ReadBytesPrefix(s: string, n: nat)
    requires n >= 1 && ReadBytes(s, n).Some?
    ensures ReadBytes(s, 1) == Some([ReadBytes(s, n).value[0]])
  {
    var b := (HexValue(s[1]).value * 16 + HexValue(s[2]).value) as byte;
    assert ReadBytes(s[3..], 0) == Some([]);
    assert ReadBytes(s, 1) == Some([b] + []);
    var rest := ReadBytes(s[3..], n - 1).value;
    assert ReadBytes(s, n) == Some([b] + rest);
    assert ([b] + rest)[0] == b && [b] + [] == [b];
  }

  /** Decoding the quoting of one character gives it back and consumes exactly its quoting. */
  lemma QuoteCharRoundTrip(c: char, rest: string)
    ensures UnquotePlus(QuoteChar(c) + rest) == Prepend(c, UnquotePlus(rest))
  {
    var s := QuoteChar(c) + rest;
    if IsUnreserved(c) {
      assert s[0] == c && s[1..] == rest;
    } else if c == ' ' {
      assert s[0] == '+' && s[1..] == rest;
    } else {
      var bs := Utf8Encode(c);
      Utf8RoundTrip(c);
      ReadBytesOfEncoding(bs, rest);
      ReadBytesPrefix(s, |bs|);
      assert s[0] == '%';
      assert ReadEscapedChar(s) == Some((c, 3 * |bs|));
      assert s[3 * |bs|..] == rest;
    }
  }

  /** The server recovers exactly the string that was quoted. */
  lemma {:induction false} QuoteRoundTrip(s: string)
    ensures UnquotePlus(QuotePlus(s)) == Some(s)
  {
    if s != [] {
      QuoteRoundTrip(s[1..]);
      QuoteCharRoundTrip(s[0], QuotePlus(s[1..]));
      assert [s[0]] + s[1..] == s;
    }
  }

  /** Quoting is injective: different strings are never sent the same way. */
  lemma QuoteInjective(s: string, t: string)
    requires QuotePlus(s) == QuotePlus(t)
    ensures s == t
  {
    QuoteRoundTrip(s);
    QuoteRoundTrip(t);
  }

  /** The server's reading of one `key=value` piece. */
  function ParsePair(piece: string): Option<(string, string)>
  {
    var parts := Split(piece, '=');
    if |parts| != 2 then None
    else
      match (UnquotePlus(parts[0]), UnquotePlus(parts[1]))
      case (Some(k), Some(v)) => Some((k, v))
      case _ => None
  }

  function ParsePairs(pieces: seq<string>): Option<seq<(string, string)>>
  {
    if pieces == [] then Some([])
    else
      match (ParsePair(pieces[0]), ParsePairs(pieces[1..]))
      case (Some(kv), Some(rest)) => Some([kv] + rest)
      case _ => None
  }

  /** The server's reading of a whole query string. */
  function ParseQuery(q: string): Option<seq<(string, string)>>
  {
    if q == "" then Some([]) else ParsePairs(Split(q, '&'))
  }

  /** The parameters as the server sees them: each key with the `str()` of its value. */
  function Stringified(p: Params): (r: seq<(string, string)>)
    ensures |r| == |p|
  {
    if p == [] then [] else [(p[0].0, Str(p[0].1))] + Stringified(p[1..])
  }

  lemma NoSepInQuote(s: string)
    ensures '&' !in QuotePlus(s) && '=' !in QuotePlus(s)
  {
    if '&' in QuotePlus(s) { QuoteChars(s, '&'); }
    if '=' in QuotePlus(s) { QuoteChars(s, '='); }
  }

  lemma PairRoundTrip(k: string, v: Json)
    ensures '&' !in EncodePair(k, v)
    ensures ParsePair(EncodePair(k, v)) == Some((k, Str(v)))
  {
    var qk, qv := QuotePlus(k), QuotePlus(Str(v));
    NoSepInQuote(k);
    NoSepInQuote(Str(v));
    SplitPrefix(qk, '=', qv);
    SplitPrefix(qv, '=', "");
    assert EncodePair(k, v) == qk + ['='] + qv;
    QuoteRoundTrip(k);
    QuoteRoundTrip(Str(v));
  }

  lemma {:induction false} PairsRoundTrip(p: Params)
    ensures forall i :: 0 <= i < |p| ==> '&' !in EncodedPairs(p)[i]
    ensures ParsePairs(EncodedPairs(p)) == Some(Stringified(p))
  {
    if p != [] {
      PairRoundTrip(p[0].0, p[0].1);
      PairsRoundTrip(p[1..]);
      assert EncodedPairs(p)[1..] == EncodedPairs(p[1..]);
    }
  }

  /**
   * The encoded query is read back by the server as exactly the parameters sent, in the same
   * order, each value being its `str()`.
   */
  lemma UrlencodeRoundTrip(p: Params)
    ensures ParseQuery(Urlencode(p)) == Some(Stringified(p))
  {
    var xs := EncodedPairs(p);
    PairsRoundTrip(p);
    if p != [] {
      SplitJoin(xs, '&');
      assert '=' in xs[0];
      assert Urlencode(p) != "" by {
        if |xs| == 1 { assert Urlencode(p) == xs[0]; }
        else { assert Urlencode(p) == xs[0] + "&" + Join("&", xs[1..]); }
      }
    }
  }
}
