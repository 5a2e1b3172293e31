/**
 * The endpoint registry and the URL formatter (endpoints.py): a fixed table from category and
 * operation to a path, and a formatter that prefixes the base URL and API version and appends
 * the default and call-time query parameters.
 */
module Endpoints {
  import opened Wrappers
  import opened Json
  import opened Errors
  import opened Params
  import opened UrlEncoding
  import opened Strings

  const BaseUrl: string := "https://api.gamejolt.com/api/game/"
  const ApiVersion: string := "v1_2"

  /** The response formats the service offers. */
  const SupportedFormats: seq<string> := ["json", "keypair", "dump", "xml"]

  /** The operations of one category and their paths. */
  type Table = seq<(string, string)>

  /** The `Endpoints` table. */
  const Registry: seq<(string, Table)> := [
    ("USERS", [("FETCH", "/users"), ("AUTH", "/users/auth")]),
    ("SESSIONS", [("OPEN", "/sessions/open"), ("PING", "/sessions/ping"),
                  ("CHECK", "/sessions/check"), ("CLOSE", "/sessions/close")]),
    ("SCORES", [("FETCH", "/scores/"), ("ADD", "/scores/add"),
                ("GET_RANK", "/scores/get-rank"), ("TABLES", "/scores/tables")]),
    ("TROPHIES", [("FETCH", "/trophies"), ("ADD_ACHIEVED", "/trophies/add-achieved"),
                  ("REMOVE_ACHIEVED", "/trophies/remove-achieved")]),
    ("DATASTORE", [("FETCH", "/data-store/fetch"), ("GET_KEYS", "/data-store/get-keys"),
                   ("REMOVE", "/data-store/remove"), ("SET", "/data-store/set"),
                   ("UPDATE", "/data-store/update")]),
    ("FRIENDS", [("FETCH", "/friends")]),
    ("TIME", [("FETCH", "/time")])
  ]

  /** `name in d` then `d[name]` on a table of named entries. */
  function Lookup<T>(t: seq<(string, T)>, name: string): Option<T>
  {
    if t == [] then None else if t[0].0 == name then Some(t[0].1) else Lookup(t[1..], name)
  }

  /** A lookup succeeds exactly for a name in the table, and yields an entry of that name. */
  lemma {:induction false} LookupFound<T>(t: seq<(string, T)>, name: string)
    ensures Lookup(t, name).Some? <==> exists i :: 0 <= i < |t| && t[i].0 == name
    ensures Lookup(t, name).Some? ==> exists i :: 0 <= i < |t| && t[i] == (name, Lookup(t, name).value)
  {
    if t != [] && t[0].0 != name {
      LookupFound(t[1..], name);
      if Lookup(t, name).Some? {
        var i :| 0 <= i < |t[1..]| && t[1..][i] == (name, Lookup(t, name).value);
        assert t[i + 1] == (name, Lookup(t, name).value);
      }
      if exists i :: 0 <= i < |t| && t[i].0 == name {
        var i :| 0 <= i < |t| && t[i].0 == name;
        assert t[1..][i - 1].0 == name;
      }
    }
  }

  /** The path of an operation, if both names exist. */
  function Path(category: string, operation: string): Option<string>
  {
    match Lookup(Registry, category)
    case None => None
    case Some(ops) => Lookup(ops, operation)
  }

  /** Every path of a category's table starts with `/`. */
  predicate AbsoluteTable(ops: Table)
  {
    ops == [] || (|ops[0].1| >= 1 && ops[0].1[0] == '/' && AbsoluteTable(ops[1..]))
  }

  /** Every category's table has only absolute paths. */
  predicate AbsoluteRegistry(t: seq<(string, Table)>)
  {
    t == [] || (AbsoluteTable(t[0].1) && AbsoluteRegistry(t[1..]))
  }

  lemma {:induction false} LookupAbsolute(ops: Table, operation: string)
    requires AbsoluteTable(ops) && Lookup(ops, operation).Some?
    ensures |Lookup(ops, operation).value| >= 1 && Lookup(ops, operation).value[0] == '/'
  {
    if ops[0].0 != operation {
      LookupAbsolute(ops[1..], operation);
    }
  }

  lemma {:induction false} LookupAbsoluteTable(t: seq<(string, Table)>, category: string)
    requires AbsoluteRegistry(t) && Lookup(t, category).Some?
    ensures AbsoluteTable(Lookup(t, category).value)
  {
    if t[0].0 != category {
      LookupAbsoluteTable(t[1..], category);
    }
  }

  /** Each category's table, one at a time. */
  lemma AbsoluteCategory(i: nat)
    requires i < |Registry|
    ensures AbsoluteTable(Registry[i].1)
  {
    var ops := Registry[i].1;
    assert forall j :: 0 <= j < |ops| ==> ops[j].1[0] == '/';
    AbsoluteAll(ops);
  }

  /** A table whose every path starts with `/` is absolute. */
  lemma {:induction false} AbsoluteAll(ops: Table)
    requires forall j :: 0 <= j < |ops| ==> |ops[j].1| >= 1 && ops[j].1[0] == '/'
    ensures AbsoluteTable(ops)
  {
    if ops != [] {
      AbsoluteAll(ops[1..]);
    }
  }

  /** A registry whose every table is absolute is absolute. */
  lemma {:induction false} AbsoluteEach(t: seq<(string, Table)>)
    requires forall i :: 0 <= i < |t| ==> AbsoluteTable(t[i].1)
    ensures AbsoluteRegistry(t)
  {
    if t != [] {
      AbsoluteEach(t[1..]);
    }
  }

  /** Every path in the table starts with `/`: nothing normalises slashes, so the path decides what follows the version. */
  lemma PathsAreAbsolute(category: string, operation: string)
    requires Path(category, operation).Some?
    ensures |Path(category, operation).value| >= 1 && Path(category, operation).value[0] == '/'
  {
    assert AbsoluteRegistry(Registry) by {
      forall i | 0 <= i < |Registry| ensures AbsoluteTable(Registry[i].1) {
        AbsoluteCategory(i);
      }
      AbsoluteEach(Registry);
    }
    LookupAbsoluteTable(Registry, category);
    LookupAbsolute(Lookup(Registry, category).value, operation);
  }

  /** The seven categories, each with its operations. */
  lemma RegistryContents()
    ensures |Registry| == 7
    ensures Path("USERS", "FETCH") == Some("/users") && Path("USERS", "AUTH") == Some("/users/auth")
    ensures Path("SESSIONS", "OPEN") == Some("/sessions/open") && Path("SESSIONS", "PING") == Some("/sessions/ping")
    ensures Path("SESSIONS", "CHECK") == Some("/sessions/check") && Path("SESSIONS", "CLOSE") == Some("/sessions/close")
    ensures Path("SCORES", "FETCH") == Some("/scores/") && Path("SCORES", "ADD") == Some("/scores/add")
    ensures Path("SCORES", "GET_RANK") == Some("/scores/get-rank") && Path("SCORES", "TABLES") == Some("/scores/tables")
    ensures Path("TROPHIES", "FETCH") == Some("/trophies")
    ensures Path("TROPHIES", "ADD_ACHIEVED") == Some("/trophies/add-achieved")
    ensures Path("TROPHIES", "REMOVE_ACHIEVED") == Some("/trophies/remove-achieved")
    ensures Path("DATASTORE", "FETCH") == Some("/data-store/fetch")
    ensures Path("DATASTORE", "GET_KEYS") == Some("/data-store/get-keys")
    ensures Path("DATASTORE", "REMOVE") == Some("/data-store/remove")
    ensures Path("DATASTORE", "SET") == Some("/data-store/set")
    ensures Path("DATASTORE", "UPDATE") == Some("/data-store/update")
    ensures Path("FRIENDS", "FETCH") == Some("/friends") && Path("TIME", "FETCH") == Some("/time")
  {
  }

  /** `format_queries(url, **queries)`: the encoded query, after `url?` unless the URL is empty. */
  function FormatQueries(url: string, queries: Params): (r: string)
    ensures url == "" ==> r == Urlencode(queries)
    ensures url != "" ==> r == url + "?" + Urlencode(queries)
    ensures url == "" ==> ParseQuery(r) == Some(Stringified(queries))
    ensures url != "" ==>
      |r| > |url| && r[..|url| + 1] == url + "?" && ParseQuery(r[|url| + 1..]) == Some(Stringified(queries))
  {
    UrlencodeRoundTrip(queries);
    var r := (if url == "" then "" else url + "?") + Urlencode(queries);
    assert url != "" ==> r[|url| + 1..] == Urlencode(queries);
    r
  }

  /** With no parameters the query is empty, so a URL only gains a `?`. */
  lemma FormatQueriesEmpty(url: string)
    requires url != ""
    ensures FormatQueries(url, []) == url + "?"
  {
  }

  /** The keywords `format` binds to its own parameters (`self`, `endpoint`). */
  const FormatParameters: seq<string> := ["self", "endpoint"]

  /**
   * The `encoding` keyword of a call selects the codec of `urlencode`; only UTF-8, the default,
   * is modelled.
   */
  predicate EncodingIsUtf8(kwargs: Params)
  {
    Get(kwargs, "encoding").None? || Get(kwargs, "encoding") == Some(JStr("utf-8"))
  }

  /** `Get` with a default: `kwargs.pop(name, default)` as keyword binding does it. */
  function GetOr(kwargs: Params, name: string, default: Json): Json
  {
    match Get(kwargs, name)
    case Some(v) => v
    case None => default
  }

  /**
   * `FormatterAbstract.__init__(**kwargs)`: `base` and `version` are taken out (with the module
   * defaults), every other keyword becomes a default query parameter, in order. `self` cannot
   * be passed as a keyword.
   */
  function FormatterSettings(kwargs: Params): (r: Result<(Json, Json, Params)>)
    ensures r.Failure? <==> "self" in Keys(kwargs)
    ensures r.Success? ==> r.value.0 == GetOr(kwargs, "base", JStr(BaseUrl)) && r.value.1 == GetOr(kwargs, "version", JStr(ApiVersion))
    ensures r.Success? ==> r.value.2 == Without(kwargs, ["base", "version"])
  {
    if "self" in Keys(kwargs) then Failure(TypeError(MultipleValues("self")))
    else Success((GetOr(kwargs, "base", JStr(BaseUrl)), GetOr(kwargs, "version", JStr(ApiVersion)),
                  Without(kwargs, ["base", "version"])))
  }

  /** The default query parameters are the keywords minus `base` and `version`, each with its value. */
  lemma SettingsQueries(kwargs: Params, k: string)
    requires FormatterSettings(kwargs).Success?
    ensures Get(FormatterSettings(kwargs).value.2, k) == if k in ["base", "version"] then None else Get(kwargs, k)
  {
    WithoutGet(kwargs, ["base", "version"], k);
  }

  /** A `Formatter`: the base URL, the API version and the default query parameters, fixed at construction. */
  class Formatter {
    const baseUrl: Json
    const apiVersion: Json
    const queries: Params

    constructor (baseUrl: Json, apiVersion: Json, queries: Params)
      ensures this.baseUrl == baseUrl && this.apiVersion == apiVersion && this.queries == queries
    {
      this.baseUrl := baseUrl;
      this.apiVersion := apiVersion;
      this.queries := queries;
    }

    /** `Formatter(**kwargs)`. */
    static method Create(kwargs: Params) returns (r: Result<Formatter>)
      ensures FormatterSettings(kwargs).Failure? ==> r == Failure(FormatterSettings(kwargs).error)
      ensures FormatterSettings(kwargs).Success? ==>
        && r.Success? && fresh(r.value)
        && (r.value.baseUrl, r.value.apiVersion, r.value.queries) == FormatterSettings(kwargs).value
    {
      match FormatterSettings(kwargs)
      case Failure(e) =>
        r := Failure(e);
      case Success(settings) =>
        var f := new Formatter(settings.0, settings.1, settings.2);
        r := Success(f);
    }

    /** `format_url(endpoint)`: base, version and endpoint, one after another, each recoverable from its place with no slash added or removed. */
    function FormatUrl(endpoint: string): (r: string)
      ensures var b, v := Str(baseUrl), Str(apiVersion);
        && |r| == |b| + |v| + |endpoint|
        && r[..|b|] == b && r[|b|..|b| + |v|] == v && r[|b| + |v|..] == endpoint
    {
      Str(baseUrl) + Str(apiVersion) + endpoint
    }

    /**
     * `self.format_queries(url, **queries)`, `queries` being the keywords other than `url` and
     * `encoding`: the defaults updated with `queries`. A default named `encoding` collides with
     * the codec argument of the module function.
     */
    function FormatQueriesWith(url: string, queries: Params): (r: Result<string>)
      ensures r.Failure? <==> "encoding" in Keys(Merge(this.queries, queries))
      ensures r.Success? ==> r.value == FormatQueries(url, Merge(this.queries, queries))
    {
      var merged := Merge(this.queries, queries);
      if "encoding" in Keys(merged) then Failure(TypeError(MultipleValues("encoding")))
      else Success(FormatQueries(url, merged))
    }

    /**
     * `format(endpoint, **kwargs)`. Keywords naming `format`'s own parameters, or `url` (the
     * parameter of `format_queries`), make the call fail; `encoding` is taken as the codec.
     */
    function Format(endpoint: string, kwargs: Params): (r: Result<string>)
      requires EncodingIsUtf8(kwargs)
      ensures FirstKeyIn(kwargs, FormatParameters).Some? ==>
        r.Failure? && r.error.TypeError? && r.error.typeReason.MultipleValues? &&
        r.error.typeReason.name in FormatParameters && r.error.typeReason.name in Keys(kwargs)
      ensures FirstKeyIn(kwargs, FormatParameters).None? && "url" in Keys(kwargs) ==>
        r == Failure(TypeError(MultipleValues("url")))
      ensures FirstKeyIn(kwargs, FormatParameters).None? && "url" !in Keys(kwargs) ==>
        var merged := Merge(queries, Without(kwargs, ["encoding"]));
        && (r.Success? <==> "encoding" !in Keys(merged))
        && (r.Failure? ==> r.error == TypeError(MultipleValues("encoding")))
        && (r.Success? ==> r.value == FormatQueries(FormatUrl(endpoint), merged))
    {
      match FirstKeyIn(kwargs, FormatParameters)
      case Some(name) => Failure(TypeError(MultipleValues(name)))
      case None =>
        if "url" in Keys(kwargs) then Failure(TypeError(MultipleValues("url")))
        else FormatQueriesWith(FormatUrl(endpoint), Without(kwargs, ["encoding"]))
    }

    /** `formatter.CATEGORY`: the category's wrapper, bound to this formatter, or AttributeError. */
    method GetCategory(name: string) returns (r: Result<EndpointWrapper>)
      ensures r.Success? <==> Lookup(Registry, name).Some?
      ensures r.Failure? ==> r.error == AttributeError(name)
      ensures r.Success? ==> fresh(r.value) && r.value.formatter == this && r.value.endpoints == Lookup(Registry, name).value
    {
      match Lookup(Registry, name)
      case None =>
        r := Failure(AttributeError(name));
      case Some(ops) =>
        var w := new EndpointWrapper(this, ops);
        r := Success(w);
    }

    /** `formatter.CATEGORY.OPERATION(*args, **kwargs)`: the attribute lookups and then the call. */
    method Endpoint(category: string, operation: string, args: seq<Json>, kwargs: Params) returns (r: Result<string>)
      requires EncodingIsUtf8(kwargs)
      ensures r == Url(this, category, operation, args, kwargs)
    {
      var w := GetCategory(category);
      match w
      case Failure(e) =>
        r := Failure(e);
      case Success(wrapper) =>
        match wrapper.Operation(operation)
        case Failure(e) =>
          r := Failure(e);
        case Success(bound) =>
          r := bound.Call(args, kwargs);
    }
  }

  /** An `EndpointWrapper`: one category's operations, bound to a formatter. */
  class EndpointWrapper {
    const formatter: Formatter
    const endpoints: Table

    constructor (formatter: Formatter, endpoints: Table)
      ensures this.formatter == formatter && this.endpoints == endpoints
    {
      this.formatter := formatter;
      this.endpoints := endpoints;
    }

    /** `wrapper.OPERATION`: a callable formatting that operation's path, or AttributeError at lookup. */
    function Operation(name: string): (r: Result<BoundEndpoint>)
      ensures r.Success? <==> Lookup(endpoints, name).Some?
      ensures r.Failure? ==> r.error == AttributeError(name)
      ensures r.Success? ==> r.value == BoundEndpoint(formatter, Lookup(endpoints, name).value)
    {
      match Lookup(endpoints, name)
      case None => Failure(AttributeError(name))
      case Some(path) => Success(BoundEndpoint(formatter, path))
    }
  }

  /** The callable an `EndpointWrapper` hands out: `formatter.format(path, *args, **kwargs)`. */
  datatype BoundEndpoint = BoundEndpoint(formatter: Formatter, path: string)
  {
    /**
     * Calls `format(path, *args, **kwargs)`: `format` takes no positional argument after the path,
     * and Python reports a clashing keyword before surplus positionals.
     */
    function Call(args: seq<Json>, kwargs: Params): (r: Result<string>)
      requires EncodingIsUtf8(kwargs)
      ensures |args| == 0 ==> r == formatter.Format(path, kwargs)
      ensures |args| > 0 && FirstKeyIn(kwargs, FormatParameters).None? ==> r == Failure(TypeError(TooManyPositional))
    {
      if |args| > 0 && FirstKeyIn(kwargs, FormatParameters).None? then Failure(TypeError(TooManyPositional))
      else formatter.Format(path, kwargs)
    }
  }

  /** What `formatter.CATEGORY.OPERATION(*args, **kwargs)` evaluates to. */
  function Url(f: Formatter, category: string, operation: string, args: seq<Json>, kwargs: Params): Result<string>
    requires EncodingIsUtf8(kwargs)
  {
    match Lookup(Registry, category)
    case None => Failure(AttributeError(category))
    case Some(ops) =>
      match Lookup(ops, operation)
      case None => Failure(AttributeError(operation))
      case Some(path) => BoundEndpoint(f, path).Call(args, kwargs)
  }

  /** A known operation, called without positionals, formats its path; an unknown name fails at lookup. */
  lemma UrlOfOperation(f: Formatter, category: string, operation: string, kwargs: Params)
    requires EncodingIsUtf8(kwargs)
    ensures Path(category, operation).Some? ==> Url(f, category, operation, [], kwargs) == f.Format(Path(category, operation).value, kwargs)
    ensures Lookup(Registry, category).None? ==> Url(f, category, operation, [], kwargs) == Failure(AttributeError(category))
    ensures Lookup(Registry, category).Some? && Path(category, operation).None? ==>
      Url(f, category, operation, [], kwargs) == Failure(AttributeError(operation))
  {
  }

  /**
   * What `format` sends when no keyword clashes: the query holds the defaults updated with the
   * call-time parameters (call-time values win, a default key keeps its place, new keys follow
   * in call order), and the server reads back exactly those parameters.
   */
  lemma FormatSends(f: Formatter, endpoint: string, kwargs: Params)
    requires EncodingIsUtf8(kwargs) && Distinct(Keys(kwargs))
    requires FirstKeyIn(kwargs, FormatParameters).None? && "url" !in Keys(kwargs)
    requires "encoding" !in Keys(f.queries)
    requires f.FormatUrl(endpoint) != ""
    ensures var sent := Without(kwargs, ["encoding"]);
      var merged := Merge(f.queries, sent);
      && f.Format(endpoint, kwargs) == Success(f.FormatUrl(endpoint) + "?" + Urlencode(merged))
      && ParseQuery(Urlencode(merged)) == Some(Stringified(merged))
      && Keys(merged) == Keys(f.queries) + NewKeys(Keys(sent), Keys(f.queries))
      && forall k :: Get(merged, k) == if k in Keys(kwargs) && k != "encoding" then Get(kwargs, k) else Get(f.queries, k)
  {
    var sent := Without(kwargs, ["encoding"]);
    var merged := Merge(f.queries, sent);
    WithoutDistinct(kwargs, ["encoding"]);
    MergeKeys(f.queries, sent);
    WithoutGet(kwargs, ["encoding"], "encoding");
    NewKeysMembers(Keys(sent), Keys(f.queries), "encoding");
    assert "encoding" !in Keys(merged);
    UrlencodeRoundTrip(merged);
    forall k ensures Get(merged, k) == if k in Keys(kwargs) && k != "encoding" then Get(kwargs, k) else Get(f.queries, k) {
      MergeGet(f.queries, sent, k);
      WithoutGet(kwargs, ["encoding"], k);
    }
  }

  lemma ExamplePair(k: string, v: Json, text: string)
    requires forall i :: 0 <= i < |k| ==> IsUnreserved(k[i])
    requires Str(v) == text && forall i :: 0 <= i < |text| ==> IsUnreserved(text[i])
    ensures EncodePair(k, v) == k + "=" + text
  {
    QuoteUnreserved(k);
    QuoteUnreserved(text);
  }

  /** The literal steps of `FormatExample`, one fact each. */
  lemma ExampleGameId()
    ensures EncodePair("game_id", JInt(1)) == "game_id=1"
  {
    assert Str(JInt(1)) == "1";
    ExamplePair("game_id", JInt(1), "1");
  }

  lemma ExampleFormat()
    ensures EncodePair("format", JStr("json")) == "format=json"
  {
    ExamplePair("format", JStr("json"), "json");
  }

  lemma ExampleUserId()
    ensures EncodePair("user_id", JInt(5)) == "user_id=5"
  {
    assert Str(JInt(5)) == "5";
    ExamplePair("user_id", JInt(5), "5");
  }

  lemma ExampleEncodedPairs()
    ensures EncodedPairs([("game_id", JInt(1)), ("format", JStr("json")), ("user_id", JInt(5))]) ==
      ["game_id=1", "format=json", "user_id=5"]
  {
    EncodedThree(("game_id", JInt(1)), ("format", JStr("json")), ("user_id", JInt(5)));
    ExampleGameId();
    ExampleFormat();
    ExampleUserId();
  }

  lemma EncodedThree(a: (string, Json), b: (string, Json), c: (string, Json))
    ensures EncodedPairs([a, b, c]) == [EncodePair(a.0, a.1), EncodePair(b.0, b.1), EncodePair(c.0, c.1)]
  {
    assert [a, b, c][1..] == [b, c] && [b, c][1..] == [c] && [c][1..] == [];
    assert EncodedPairs([c]) == [EncodePair(c.0, c.1)];
    assert EncodedPairs([b, c]) == [EncodePair(b.0, b.1)] + EncodedPairs([c]);
    assert EncodedPairs([a, b, c]) == [EncodePair(a.0, a.1)] + EncodedPairs([b, c]);
  }

  lemma ExampleJoin()
    ensures Join("&", ["game_id=1", "format=json", "user_id=5"]) == "game_id=1&format=json&user_id=5"
  {
  }

  lemma ExampleQuery()
    ensures Urlencode([("game_id", JInt(1)), ("format", JStr("json")), ("user_id", JInt(5))]) == "game_id=1&format=json&user_id=5"
  {
    ExampleEncodedPairs();
    ExampleJoin();
  }

  lemma ExampleMerge()
    ensures Merge([("game_id", JInt(1)), ("format", JStr("json"))], [("user_id", JInt(5))]) ==
      [("game_id", JInt(1)), ("format", JStr("json")), ("user_id", JInt(5))]
  {
    var d := [("game_id", JInt(1)), ("format", JStr("json"))];
    assert Assign(d[2..], "user_id", JInt(5)) == [("user_id", JInt(5))];
    assert Assign(d[1..], "user_id", JInt(5)) == [("format", JStr("json")), ("user_id", JInt(5))];
  }

  lemma ExampleUrl(f: Formatter)
    requires f.baseUrl == JStr(BaseUrl) && f.apiVersion == JStr(ApiVersion)
    ensures f.FormatUrl("/users") == "https://api.gamejolt.com/api/game/v1_2/users"
  {
  }

  lemma ExampleClashFree(q: Params, d: Params)
    requires q == [("user_id", JInt(5))] && d == [("game_id", JInt(1)), ("format", JStr("json"))]
    ensures Distinct(Keys(q)) && FirstKeyIn(q, FormatParameters).None? && "url" !in Keys(q) && "encoding" !in Keys(d)
    ensures EncodingIsUtf8(q) && Without(q, ["encoding"]) == q
  {
    assert Keys(q) == ["user_id"];
    assert Keys(d) == ["game_id", "format"];
  }

  lemma ExampleConcat()
    ensures "https://api.gamejolt.com/api/game/v1_2/users" + "?" + "game_id=1&format=json&user_id=5" ==
      "https://api.gamejolt.com/api/game/v1_2/users?game_id=1&format=json&user_id=5"
  {
  }

  /** The default query of a requester for game 1 in JSON, with `user_id=5` on `/users`. */
  lemma FormatExample(f: Formatter)
    requires f.baseUrl == JStr(BaseUrl) && f.apiVersion == JStr(ApiVersion)
    requires f.queries == [("game_id", JInt(1)), ("format", JStr("json"))]
    ensures f.Format("/users", [("user_id", JInt(5))]) ==
      Success("https://api.gamejolt.com/api/game/v1_2/users?game_id=1&format=json&user_id=5")
  {
    var q := [("user_id", JInt(5))];
    ExampleClashFree(q, f.queries);
    ExampleUrl(f);
    ExampleMerge();
    ExampleQuery();
    ExampleConcat();
    FormatSends(f, "/users", q);
  }
}
