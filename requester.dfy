/**
 * The requester (requester.py): a formatter that also signs URLs with the game's private key
 * and posts them. The transport (`_post`) and the response decoder (`evaluate`) are abstract in
 * the client; here they are supplied from outside, and every `_post` call is recorded in `sent`.
 */
module Requests {
  import opened Wrappers
  import opened Codecs
  import opened Json
  import opened Errors
  import opened Params
  import opened Builtins
  import opened UrlEncoding
  import opened Endpoints

  /** An MD5 digest (RFC 1321): 16 bytes. */
  type Digest = d: seq<byte> | |d| == 16 witness [0, 0, 0, 0, 0, 0, 0, 0, 0, 0, 0, 0, 0, 0, 0, 0]

  /** `hexdigest()`: two lower-case hexadecimal digits per byte, high nibble first. */
  function Hex(bs: seq<byte>): (r: string)
    ensures |r| == 2 * |bs|
    ensures forall i :: 0 <= i < |r| ==> r[i] in LowerHexDigits
  {
    if bs == [] then ""
    else [LowerHexDigits[bs[0] as int / 16], LowerHexDigits[bs[0] as int % 16]] + Hex(bs[1..])
  }

  /** Reads a hexadecimal rendering back into bytes. */
  function ParseHex(s: string): Option<seq<byte>>
  {
    if s == [] then Some([])
    else if |s| < 2 || HexValue(s[0]).None? || HexValue(s[1]).None? then None
    else
      var b := (HexValue(s[0]).value * 16 + HexValue(s[1]).value) as byte;
      match ParseHex(s[2..])
      case Some(rest) => Some([b] + rest)
      case None => None
  }

  /** The two digits of one byte read back as that byte. */
  lemma HexOfByte(b: byte, rest: string)
    ensures var s := [LowerHexDigits[b as int / 16], LowerHexDigits[b as int % 16]] + rest;
      ParseHex(s) == (match ParseHex(rest) case Some(tail) => Some([b] + tail) case None => None)
  {
    var s := [LowerHexDigits[b as int / 16], LowerHexDigits[b as int % 16]] + rest;
    HexDigitsRoundTrip(b as int / 16);
    HexDigitsRoundTrip(b as int % 16);
    assert s[0] == LowerHexDigits[b as int / 16] && s[1] == LowerHexDigits[b as int % 16];
    assert s[2..] == rest;
    assert ((b as int / 16) * 16 + b as int % 16) as byte == b;
  }

  /** The hex rendering loses nothing: the signature determines the digest. */
  lemma {:induction false} HexRoundTrip(bs: seq<byte>)
    ensures ParseHex(Hex(bs)) == Some(bs)
  {
    if bs != [] {
      HexRoundTrip(bs[1..]);
      HexOfByte(bs[0], Hex(bs[1..]));
      assert [bs[0]] + bs[1..] == bs;
    }
  }

  /**
   * `generate_signature(url, key)`: the MD5 of the URL followed directly by the key, encoded as
   * ASCII, in lower-case hex. A character outside ASCII makes the encoding fail.
   */
  function GenerateSignature(md5: seq<byte> -> Digest, url: string, key: string): (r: Result<string>)
    ensures r.Success? <==> AsciiEncode(url + key).Some?
    ensures r.Failure? ==> r.error == UnicodeEncodeError
    ensures r.Success? ==> |r.value| == 32 && forall i :: 0 <= i < 32 ==> r.value[i] in LowerHexDigits
    ensures r.Success? ==> ParseHex(r.value) == Some(md5(AsciiEncode(url + key).value))
  {
    match AsciiEncode(url + key)
    case None => Failure(UnicodeEncodeError)
    case Some(bytes) =>
      HexRoundTrip(md5(bytes));
      Success(Hex(md5(bytes)))
  }

  /** The keywords `RequesterAbs.__init__` binds to its own parameters. */
  const RequesterParameters: seq<string> := ["self", "key", "game", "response_format"]

  /** The keywords the requester passes to the formatter itself. */
  const SeededParameters: seq<string> := ["game_id", "format"]

  /** `response_format in supported_formats`. */
  predicate IsSupportedFormat(responseFormat: Json)
  {
    responseFormat.JStr? && responseFormat.s in SupportedFormats
  }

  /**
   * What `RequesterAbs(key, game=game, response_format=responseFormat, **kwargs)` configures:
   * the formatter's settings, or the exception raised. `kwargs` are the further keywords of the
   * call; one naming a parameter of `__init__` is given that parameter twice.
   */
  function RequesterSettings(game: Json, responseFormat: Json, kwargs: Params): Result<(Json, Json, Params)>
  {
    match FirstKeyIn(kwargs, RequesterParameters)
    case Some(name) => Failure(TypeError(MultipleValues(name)))
    case None =>
      if !IsSupportedFormat(responseFormat) then Failure(ValueError(InvalidResponseFormat(Str(responseFormat))))
      else
        match FirstKeyIn(kwargs, SeededParameters)
        case Some(name) => Failure(TypeError(MultipleValues(name)))
        case None => FormatterSettings([("game_id", game), ("format", responseFormat)] + kwargs)
  }

  /**
   * A further keyword naming `self`, `key`, `game` or `response_format`, or the `game_id` and
   * `format` the constructor passes on, is a TypeError naming a keyword of the call that is given
   * twice; a call free of those is never refused that way.
   */
  lemma SettingsKeywordClash(game: Json, responseFormat: Json, kwargs: Params)
    ensures var r := RequesterSettings(game, responseFormat, kwargs);
      (exists i :: 0 <= i < |kwargs| && kwargs[i].0 in RequesterParameters) ==>
        r.Failure? && r.error.TypeError? && r.error.typeReason.MultipleValues? &&
        r.error.typeReason.name in RequesterParameters && r.error.typeReason.name in Keys(kwargs)
    ensures var r := RequesterSettings(game, responseFormat, kwargs);
      IsSupportedFormat(responseFormat) && (exists i :: 0 <= i < |kwargs| && kwargs[i].0 in SeededParameters) ==>
        r.Failure? && r.error.TypeError? && r.error.typeReason.MultipleValues? &&
        r.error.typeReason.name in RequesterParameters + SeededParameters && r.error.typeReason.name in Keys(kwargs)
    ensures var r := RequesterSettings(game, responseFormat, kwargs);
      (forall i :: 0 <= i < |kwargs| ==> kwargs[i].0 !in RequesterParameters + SeededParameters) ==>
        !(r.Failure? && r.error.TypeError? && r.error.typeReason.MultipleValues?)
  {
  }

  /** Construction rejects exactly the unsupported response formats (once the keywords bind). */
  lemma SettingsFormatCheck(game: Json, responseFormat: Json, kwargs: Params)
    requires FirstKeyIn(kwargs, RequesterParameters).None?
    ensures (RequesterSettings(game, responseFormat, kwargs).Failure? &&
             RequesterSettings(game, responseFormat, kwargs).error.ValueError?) <==> !IsSupportedFormat(responseFormat)
  {
  }

  /**
   * After construction the default parameters are `game_id`, then `format`, then the remaining
   * keywords in order, without `base` and `version`.
   */
  lemma SettingsSeedQueries(game: Json, responseFormat: Json, kwargs: Params)
    requires FirstKeyIn(kwargs, RequesterParameters).None? && FirstKeyIn(kwargs, SeededParameters).None?
    requires IsSupportedFormat(responseFormat)
    ensures RequesterSettings(game, responseFormat, kwargs).Success?
    ensures var q := RequesterSettings(game, responseFormat, kwargs).value.2;
      |q| >= 2 && q[0] == ("game_id", game) && q[1] == ("format", responseFormat) &&
      q[2..] == Without(kwargs, ["base", "version"])
  {
    var all := [("game_id", game), ("format", responseFormat)] + kwargs;
    assert all[2..] == kwargs && all[1..][1..] == kwargs;
    assert Without(all, ["base", "version"]) == [all[0], all[1]] + Without(kwargs, ["base", "version"]);
    assert "self" !in Keys(all) by {
      forall i | 0 <= i < |all| ensures all[i].0 != "self" {
        if i >= 2 { assert all[i] == kwargs[i - 2]; }
      }
    }
  }

  /** `Response(success=d["success"], response=d["response"])` of an evaluated response. */
  function ToResponse(evaluated: Json): (r: Result<Response>)
    ensures r.Success? <==> Item(evaluated, "success").Success? && Item(evaluated, "response").Success?
    ensures r.Success? ==> r.value == Response(Item(evaluated, "success").value, Item(evaluated, "response").value, None)
  {
    match Item(evaluated, "success")
    case Failure(e) => Failure(e)
    case Success(success) =>
      match Item(evaluated, "response")
      case Failure(e) => Failure(e)
      case Success(payload) => Success(Response(success, payload, None))
  }

  /** The query parameter that carries a signature. */
  const SignatureParameter: string := "signature"

  /** A signature is all hex digits, so its query is sent as it is. */
  lemma SignatureQuery(signature: string)
    requires forall i :: 0 <= i < |signature| ==> signature[i] in LowerHexDigits
    ensures FormatQueries("", [(SignatureParameter, JStr(signature))]) == SignatureParameter + "=" + signature
  {
    SignatureEncoded(signature);
  }

  lemma SignatureEncoded(signature: string)
    requires forall i :: 0 <= i < |signature| ==> signature[i] in LowerHexDigits
    ensures Urlencode([(SignatureParameter, JStr(signature))]) == SignatureParameter + "=" + signature
  {
    var p := [(SignatureParameter, JStr(signature))];
    SignaturePair(signature);
    assert EncodedPairs(p) == [EncodePair(SignatureParameter, JStr(signature))] by {
      assert p[1..] == [];
    }
  }

  lemma SignaturePair(signature: string)
    requires forall i :: 0 <= i < |signature| ==> signature[i] in LowerHexDigits
    ensures EncodePair(SignatureParameter, JStr(signature)) == SignatureParameter + "=" + signature
  {
    HexIsUnreserved(signature);
    QuoteUnreserved(signature);
    ParameterUnreserved();
    QuoteUnreserved(SignatureParameter);
  }

  /** The parameter name is plain lower-case letters. */
  lemma ParameterUnreserved()
    ensures forall i :: 0 <= i < |SignatureParameter| ==> IsUnreserved(SignatureParameter[i])
  {
    var s := SignatureParameter;
    assert s[0] == 's' && s[1] == 'i' && s[2] == 'g' && s[3] == 'n' && s[4] == 'a';
    assert s[5] == 't' && s[6] == 'u' && s[7] == 'r' && s[8] == 'e';
    forall i | 0 <= i < |s| ensures IsUnreserved(s[i]) {
      assert i in {0, 1, 2, 3, 4, 5, 6, 7, 8};
    }
  }

  lemma HexIsUnreserved(s: string)
    requires forall i :: 0 <= i < |s| ==> s[i] in LowerHexDigits
    ensures forall i :: 0 <= i < |s| ==> IsUnreserved(s[i])
  {
    forall i | 0 <= i < |s| ensures IsUnreserved(s[i]) {
      assert s[i] in LowerHexDigits;
    }
  }

  lemma JoinSignature(url: string, signature: string)
    ensures Strings.Join("&", [url, SignatureParameter + "=" + signature]) == url + "&signature=" + signature
  {
    var query := SignatureParameter + "=" + signature;
    assert Strings.Join("&", [url, query]) == url + "&" + query;
    assert "&" + SignatureParameter + "=" == "&signature=";
    assert url + "&" + query == url + ("&" + SignatureParameter + "=") + signature;
  }

  lemma SplitSigned(url: string, signature: string)
    ensures var signed := url + "&signature=" + signature;
      |signed| == |url| + 11 + |signature| && signed[..|url|] == url && signed[|url| + 11..] == signature
  {
  }

  /** A requester. It is a formatter (`formatter`), holds the private key, and logs each `_post` in `sent`. */
  class Requester {
    const formatter: Formatter
    const privateKey: string
    /** MD5, supplied from outside. */
    const md5: seq<byte> -> Digest
    /** `_post`: the raw response to a URL given the URLs posted before it; `None` for the abstract class. */
    const transport: Option<(seq<string>, string) -> Result<Json>>
    /** `evaluate`: the decoded form of a raw response; `None` for the abstract class. */
    const decoder: Option<Json -> Result<Json>>
    /** Every URL handed to `_post`, oldest first. */
    var sent: seq<string>

    constructor (formatter: Formatter, privateKey: string, md5: seq<byte> -> Digest,
                 transport: Option<(seq<string>, string) -> Result<Json>>, decoder: Option<Json -> Result<Json>>)
      ensures this.formatter == formatter && this.privateKey == privateKey && this.md5 == md5
      ensures this.transport == transport && this.decoder == decoder && sent == []
    {
      this.formatter := formatter;
      this.privateKey := privateKey;
      this.md5 := md5;
      this.transport := transport;
      this.decoder := decoder;
      sent := [];
    }

    /** `RequesterAbs(key, game=game, response_format=responseFormat, **kwargs)`. */
    static method Create(key: string, game: Json, responseFormat: Json, kwargs: Params, md5: seq<byte> -> Digest,
                         transport: Option<(seq<string>, string) -> Result<Json>>, decoder: Option<Json -> Result<Json>>)
      returns (r: Result<Requester>)
      ensures RequesterSettings(game, responseFormat, kwargs).Failure? ==>
        r == Failure(RequesterSettings(game, responseFormat, kwargs).error)
      ensures RequesterSettings(game, responseFormat, kwargs).Success? ==>
        && r.Success? && fresh(r.value) && fresh(r.value.formatter)
        && (r.value.formatter.baseUrl, r.value.formatter.apiVersion, r.value.formatter.queries)
           == RequesterSettings(game, responseFormat, kwargs).value
        && r.value.privateKey == key && r.value.md5 == md5 && r.value.transport == transport
        && r.value.decoder == decoder && r.value.sent == []
    {
      match RequesterSettings(game, responseFormat, kwargs)
      case Failure(e) =>
        r := Failure(e);
      case Success(settings) =>
        var f := new Formatter(settings.0, settings.1, settings.2);
        var q := new Requester(f, key, md5, transport, decoder);
        r := Success(q);
    }

    /** `self.generate_signature(url)`: signed with this requester's private key. */
    function Sign(url: string): Result<string>
    {
      GenerateSignature(md5, url, privateKey)
    }

    /** `format_signature(url)`: `url`, `&`, and the signature as a query of its own. */
    function FormatSignature(url: string): (r: Result<string>)
      ensures r.Failure? <==> Sign(url).Failure?
      ensures r.Failure? ==> r.error == UnicodeEncodeError
    {
      match Sign(url)
      case Failure(e) => Failure(e)
      case Success(signature) => Success(Strings.Join("&", [url, FormatQueries("", [(SignatureParameter, JStr(signature))])]))
    }

    lemma SignedQuery(url: string, signature: string)
      requires Sign(url) == Success(signature)
      ensures FormatSignature(url) == Success(Strings.Join("&", [url, FormatQueries("", [(SignatureParameter, JStr(signature))])]))
    {
    }

    /**
     * A signed URL is the URL, then `&signature=`, then the 32 hex digits of the MD5 of exactly
     * that URL followed by the key.
     */
    lemma FormatSignatureShape(url: string)
      requires Sign(url).Success?
      ensures FormatSignature(url) == Success(url + "&signature=" + Sign(url).value)
      ensures var signed := FormatSignature(url).value;
        && |signed| == |url| + 11 + 32 && signed[..|url|] == url
        && ParseHex(signed[|url| + 11..]) == Some(md5(AsciiEncode(url + privateKey).value))
    {
      var signature := Sign(url).value;
      SignatureQuery(signature);
      SignedQuery(url, signature);
      JoinSignature(url, signature);
      SplitSigned(url, signature);
    }

    /** What `post(url)` returns, given the URLs posted before. */
    function Exchange(history: seq<string>, url: string): (r: Result<Response>)
      ensures transport.None? ==> r == Failure(NotImplementedError)
      ensures r.Success? ==> r.value.message.None?
    {
      match transport
      case None => Failure(NotImplementedError)
      case Some(send) =>
        match send(history, url)
        case Failure(e) => Failure(e)
        case Success(raw) =>
          match decoder
          case None => Failure(NotImplementedError)
          case Some(decode) =>
            match decode(raw)
            case Failure(e) => Failure(e)
            case Success(evaluated) => ToResponse(evaluated)
    }

    /**
     * `post` hands the transport's answer to the decoder and returns its `success` and `response`
     * as they are: an unsuccessful call is returned, not raised.
     */
    lemma ExchangeDecoded(history: seq<string>, url: string, raw: Json, evaluated: Json)
      requires transport.Some? && transport.value(history, url) == Success(raw)
      requires decoder.Some? && decoder.value(raw) == Success(evaluated)
      ensures Exchange(history, url) == ToResponse(evaluated)
      ensures Item(evaluated, "success") == Success(JBool(false)) && Item(evaluated, "response").Success? ==>
        Exchange(history, url) == Success(Response(JBool(false), Item(evaluated, "response").value, None))
    {
    }

    /** `post(url)`: one `_post` call, recorded, then `evaluate`. */
    method Post(url: string) returns (r: Result<Response>)
      modifies this
      ensures sent == old(sent) + [url]
      ensures r == Exchange(old(sent), url)
    {
      var raw: Result<Json>;
      match transport {
        case None =>
          raw := Failure(NotImplementedError);
        case Some(send) =>
          raw := send(sent, url);
      }
      sent := sent + [url];
      match raw {
        case Failure(e) =>
          r := Failure(e);
        case Success(value) =>
          match decoder {
            case None =>
              r := Failure(NotImplementedError);
            case Some(decode) =>
              match decode(value) {
                case Failure(e) =>
                  r := Failure(e);
                case Success(evaluated) =>
                  r := ToResponse(evaluated);
              }
          }
      }
    }

    /** The URLs posted once `plan` is carried out: one more when it gives a URL, none when it fails first. */
    function SentAfter(history: seq<string>, plan: Result<string>): (r: seq<string>)
      ensures plan.Failure? ==> r == history
      ensures plan.Success? ==> r == history + [plan.value]
    {
      if plan.Success? then history + [plan.value] else history
    }

    /** The response of carrying out `plan`, or the exception raised before or by the request. */
    function Outcome(history: seq<string>, plan: Result<string>): (r: Result<Response>)
      ensures plan.Failure? ==> r == Failure(plan.error)
      ensures plan.Success? ==> r == Exchange(history, plan.value)
    {
      match plan
      case Failure(e) => Failure(e)
      case Success(url) => Exchange(history, url)
    }

    /** The URL `CATEGORY.OPERATION(**params)` formats, or the exception raised while building it. */
    function Plan(category: string, operation: string, params: Result<Params>): (r: Result<string>)
      requires params.Success? ==> EncodingIsUtf8(params.value)
      ensures params.Failure? ==> r == Failure(params.error)
      ensures params.Success? ==> r == Url(formatter, category, operation, [], params.value)
    {
      match params
      case Failure(e) => Failure(e)
      case Success(p) => Url(formatter, category, operation, [], p)
    }

    /**
     * `self.post(self.CATEGORY.OPERATION(**params))`, for parameters computed by the caller:
     * a failure in computing them, or in formatting, raises before any request.
     */
    method Request(category: string, operation: string, params: Result<Params>) returns (r: Result<Response>)
      requires params.Success? ==> EncodingIsUtf8(params.value)
      modifies this
      ensures sent == SentAfter(old(sent), Plan(category, operation, params))
      ensures r == Outcome(old(sent), Plan(category, operation, params))
    {
      match params {
        case Failure(e) =>
          r := Failure(e);
        case Success(p) =>
          var url := formatter.Endpoint(category, operation, [], p);
          match url {
            case Failure(e) =>
              r := Failure(e);
            case Success(u) =>
              r := Post(u);
          }
      }
    }
  }
}
