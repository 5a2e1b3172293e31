/**
 * The data-store component (subcomponents/data_store.py): fetching, setting, updating and
 * removing items, and listing keys, either for a user (with the user's token) or globally.
 */
module DataStore {
  import opened Wrappers
  import opened Json
  import opened Errors
  import opened Params
  import opened Builtins
  import opened UrlEncoding
  import opened Endpoints
  import opened Requests
  import opened Helpers
  import opened Calls

  /** The first argument of every call: a `User`, or anything else, which is then the key (or pattern). */
  datatype Target = ForUser(user: User) | Global(key: Json)

  /**
   * `__user_or_key_checker(target, key_value, key_name)`: for a user, the key and then the
   * user's name and token, refusing a `None` token and then a `None` key; globally, the target
   * itself is the key and `key_value` is ignored.
   */
  function CheckedParams(target: Target, keyValue: Json, keyName: string): (r: Result<Params>)
  {
    match target
    case ForUser(user) =>
      (match UsernameAndToken(user)
       case Failure(e) => Failure(e)
       case Success(credentials) =>
         if user.attrs["token"] == JNone then Failure(ValueError(UserTokenNotSet))
         else if keyValue == JNone then Failure(ValueError(ArgumentMissing(keyName)))
         else Success([(keyName, keyValue)] + credentials))
    case Global(key) =>
      if key == JNone then Failure(ValueError(ArgumentMissing(keyName))) else Success([(keyName, key)])
  }

  /** The keyword arguments of `set`: the checked ones and then `data`. */
  function SetParams(target: Target, keyOrData: Json, data: Json): (r: Result<Params>)
  {
    match CheckedParams(target, keyOrData, "key")
    case Failure(e) => Failure(e)
    case Success(p) => Success(p + [("data", if target.ForUser? then data else keyOrData)])
  }

  /**
   * The keyword arguments of `update`: the checked ones, then `operation` and `value` unpacked
   * from the remaining arguments (exactly two for a user; at least one globally, after the
   * operation).
   */
  function UpdateParams(target: Target, operationOrKey: Json, args: seq<Json>): (r: Result<Params>)
  {
    match CheckedParams(target, operationOrKey, "key")
    case Failure(e) => Failure(e)
    case Success(p) =>
      if target.ForUser? then
        if |args| < 2 then Failure(ValueError(NotEnoughValuesToUnpack))
        else if |args| > 2 then Failure(ValueError(TooManyValuesToUnpack))
        else Success(p + [("operation", args[0]), ("value", args[1])])
      else
        if |args| == 0 then Failure(ValueError(NotEnoughValuesToUnpack))
        else Success(p + [("operation", operationOrKey), ("value", args[0])])
  }

  /** The version check of `get_keys` for a pattern: the guard's lookups with its own message. */
  function PatternGuard(configured: Json): (r: Outcome)
  {
    match VersionRank(configured)
    case Failure(e) => Fail(e)
    case Success(have) =>
      match VersionRank(JStr("v1_2"))
      case Failure(e) => Fail(e)
      case Success(need) => if have < need then Fail(ValueError(PatternVersionMismatch("v1_2"))) else Pass
  }

  /** The keyword arguments of `get_keys`: the checked ones, after the version check for the pattern. */
  function GetKeysParams(configured: Json, target: Target, pattern: Json): (r: Result<Params>)
  {
    match CheckedParams(target, pattern, "pattern")
    case Failure(e) => Failure(e)
    case Success(p) => Guarded(PatternGuard(configured), Success(p))
  }

  /** `post(...).keys` as written: a `Response` has no `keys` attribute. */
  function KeysAttribute(outcome: Result<Response>): (r: Result<Json>)
  {
    match outcome
    case Failure(e) => Failure(e)
    case Success(_) => Failure(AttributeError("keys"))
  }

  /** `post(...).response["keys"]`: the list of keys the payload carries. */
  function KeyList(outcome: Result<Response>): (r: Result<Json>)
  {
    match outcome
    case Failure(e) => Failure(e)
    case Success(response) => Item(response.response, "keys")
  }

  /**
   * The checker's result, both forms: for a user, the attribute errors of reading the name and
   * token, then a `None` token, then a `None` key; otherwise the key, the name and the token.
   * Globally, only a `None` target is refused.
   */
  lemma CheckedParamsSpec(target: Target, keyValue: Json, keyName: string)
    requires keyName == "key" || keyName == "pattern"
    ensures target.ForUser? ==>
      var user := target.user;
      && (CheckedParams(target, keyValue, keyName).Success? <==>
            "username" in user.attrs && "token" in user.attrs && user.attrs["token"] != JNone && keyValue != JNone)
      && ("username" !in user.attrs ==> CheckedParams(target, keyValue, keyName) == Failure(AttributeError("username")))
      && ("username" in user.attrs && "token" !in user.attrs ==> CheckedParams(target, keyValue, keyName) == Failure(AttributeError("token")))
      && ("username" in user.attrs && "token" in user.attrs && user.attrs["token"] == JNone ==>
            CheckedParams(target, keyValue, keyName) == Failure(ValueError(UserTokenNotSet)))
      && (CheckedParams(target, keyValue, keyName).Success? ==>
            CheckedParams(target, keyValue, keyName).value == [(keyName, keyValue), ("username", user.attrs["username"]), ("user_token", user.attrs["token"])])
    ensures target.Global? ==>
      CheckedParams(target, keyValue, keyName) ==
        if target.key == JNone then Failure(ValueError(ArgumentMissing(keyName))) else Success([(keyName, target.key)])
    ensures CheckedParams(target, keyValue, keyName).Success? ==> Plain(CheckedParams(target, keyValue, keyName).value)
  {
    var r := CheckedParams(target, keyValue, keyName);
    if r.Success? {
      assert Keys(r.value) == if target.ForUser? then [keyName, "username", "user_token"] else [keyName];
    }
  }

  /** Globally the second argument plays no part: `fetch(key)` and `fetch(key, anything)` agree. */
  lemma GlobalIgnoresKeyValue(key: Json, a: Json, b: Json, keyName: string)
    ensures CheckedParams(Global(key), a, keyName) == CheckedParams(Global(key), b, keyName)
  {
  }

  /**
   * `set` sends `data` after the checked arguments: the third argument for a user, the second
   * globally; it is sent as given, `None` included.
   */
  lemma SetParamsSpec(target: Target, keyOrData: Json, data: Json)
    ensures SetParams(target, keyOrData, data).Success? <==> CheckedParams(target, keyOrData, "key").Success?
    ensures SetParams(target, keyOrData, data).Success? ==>
      var p := SetParams(target, keyOrData, data).value;
      && p == CheckedParams(target, keyOrData, "key").value + [("data", if target.ForUser? then data else keyOrData)]
      && Plain(p)
      && Get(p, "data") == Some(if target.ForUser? then data else keyOrData)
  {
    var c := CheckedParams(target, keyOrData, "key");
    if c.Success? {
      CheckedParamsSpec(target, keyOrData, "key");
      var d := [("data", if target.ForUser? then data else keyOrData)];
      assert Keys(c.value + d) == Keys(c.value) + ["data"];
      GetAppend(c.value, d, "data");
    }
  }

  /**
   * `update` unpacks the remaining arguments only once the checker passes: a user needs exactly
   * two (operation and value); globally the operation is the second argument and the value the
   * first remaining one, the rest being dropped.
   */
  lemma UpdateParamsSpec(target: Target, operationOrKey: Json, args: seq<Json>)
    requires CheckedParams(target, operationOrKey, "key").Success?
    ensures var c := CheckedParams(target, operationOrKey, "key").value;
      && (target.ForUser? && |args| < 2 ==> UpdateParams(target, operationOrKey, args) == Failure(ValueError(NotEnoughValuesToUnpack)))
      && (target.ForUser? && |args| > 2 ==> UpdateParams(target, operationOrKey, args) == Failure(ValueError(TooManyValuesToUnpack)))
      && (target.ForUser? && |args| == 2 ==> UpdateParams(target, operationOrKey, args) == Success(c + [("operation", args[0]), ("value", args[1])]))
      && (target.Global? && |args| == 0 ==> UpdateParams(target, operationOrKey, args) == Failure(ValueError(NotEnoughValuesToUnpack)))
      && (target.Global? && |args| >= 1 ==> UpdateParams(target, operationOrKey, args) == Success(c + [("operation", operationOrKey), ("value", args[0])]))
    ensures UpdateParams(target, operationOrKey, args).Success? ==> Plain(UpdateParams(target, operationOrKey, args).value)
  {
    var c := CheckedParams(target, operationOrKey, "key").value;
    CheckedParamsSpec(target, operationOrKey, "key");
    var r := UpdateParams(target, operationOrKey, args);
    if r.Success? {
      assert Keys(r.value) == Keys(c) + ["operation", "value"];
    }
  }

  /**
   * `get_keys(user)` without a pattern never reaches the server: the checker refuses a `None`
   * pattern for a user with a usable token, so the version check that follows sees a pattern on
   * every call. Globally the pattern is the first argument.
   */
  lemma GetKeysNeedsPattern(configured: Json, user: User, pattern: Json)
    ensures GetKeysParams(configured, ForUser(user), JNone).Failure?
    ensures "username" in user.attrs && "token" in user.attrs && user.attrs["token"] != JNone ==>
      GetKeysParams(configured, ForUser(user), JNone) == Failure(ValueError(ArgumentMissing("pattern")))
    ensures GetKeysParams(configured, Global(pattern), JNone) == GetKeysParams(configured, Global(pattern), pattern)
  {
  }

  /** The pattern check and the `v1_2` guard pass on the same versions and fail on the same lookups. */
  lemma PatternGuardAgrees(configured: Json)
    ensures PatternGuard(configured).Pass? <==> VersionGuard(configured, "v1_2").Pass?
    ensures PatternGuard(configured).Fail? && VersionRank(configured).Failure? ==> PatternGuard(configured) == VersionGuard(configured, "v1_2")
    ensures PatternGuard(configured).Fail? && VersionRank(configured).Success? ==>
      PatternGuard(configured) == Fail(ValueError(PatternVersionMismatch("v1_2")))
  {
    VersionOrder("v1_2");
  }

  /** As written, a `get_keys` that reaches the server raises AttributeError after the request. */
  lemma KeysAttributeFails(outcome: Result<Response>)
    requires outcome.Success?
    ensures KeysAttribute(outcome) == Failure(AttributeError("keys"))
    ensures Item(outcome.value.response, "keys").Success? ==> KeyList(outcome).Success?
  {
  }

  /** The intended result: the keys the payload lists, or KeyError when it lists none. */
  lemma KeyListSpec(success: Json, entries: Params)
    ensures KeyList(Success(Response(success, JObj(entries), None))).Success? <==> "keys" in Keys(entries)
    ensures KeyList(Success(Response(success, JObj(entries), None))).Success? ==>
      Get(entries, "keys") == Some(KeyList(Success(Response(success, JObj(entries), None))).value)
  {
  }

  /** The checked keyword arguments, looked up: the key (or pattern), and for a user the credentials. */
  lemma CheckedEntries(target: Target, keyValue: Json, keyName: string)
    requires keyName == "key" || keyName == "pattern"
    requires CheckedParams(target, keyValue, keyName).Success?
    ensures var p := CheckedParams(target, keyValue, keyName).value;
      && Plain(p) && Get(p, keyName) == Some(if target.ForUser? then keyValue else target.key)
      && (target.ForUser? ==>
            Get(p, "username") == Some(target.user.attrs["username"]) && Get(p, "user_token") == Some(target.user.attrs["token"]))
  {
    CheckedParamsSpec(target, keyValue, keyName);
    var p := CheckedParams(target, keyValue, keyName).value;
    if target.ForUser? {
      assert p == [(keyName, keyValue), ("username", target.user.attrs["username"]), ("user_token", target.user.attrs["token"])];
      assert Keys(p) == [keyName, "username", "user_token"];
      assert Get(p, "user_token") == Get(p[1..], "user_token") == Get(p[2..], "user_token");
    } else {
      assert p == [(keyName, target.key)];
    }
  }

  /**
   * A user's data-store call sends the key (or pattern) first and then the user's credentials;
   * a global one sends only the key.
   */
  lemma CheckedUrl(q: Requester, operation: string, target: Target, keyValue: Json, keyName: string)
    requires Path("DATASTORE", operation).Some?
    requires keyName == "key" || keyName == "pattern"
    requires "encoding" !in Keys(q.formatter.queries)
    requires CheckedParams(target, keyValue, keyName).Success?
    ensures var merged := Merge(q.formatter.queries, CheckedParams(target, keyValue, keyName).value);
      && q.Plan("DATASTORE", operation, CheckedParams(target, keyValue, keyName))
         == Success(q.formatter.FormatUrl(Path("DATASTORE", operation).value) + "?" + Urlencode(merged))
      && Get(merged, keyName) == Some(if target.ForUser? then keyValue else target.key)
      && (target.ForUser? ==> Get(merged, "username") == Some(target.user.attrs["username"])
                              && Get(merged, "user_token") == Some(target.user.attrs["token"]))
  {
    var p := CheckedParams(target, keyValue, keyName).value;
    CheckedEntries(target, keyValue, keyName);
    RequestSends(q, "DATASTORE", operation, p);
    MergeGet(q.formatter.queries, p, keyName);
    if target.ForUser? {
      MergeGet(q.formatter.queries, p, "username");
      MergeGet(q.formatter.queries, p, "user_token");
    }
  }

  class DataStoreComponent {
    const requester: Requester

    constructor (requester: Requester)
      ensures this.requester == requester
    {
      this.requester := requester;
    }

    /** `__user_or_key_checker`: `params` built entry by entry, then the `None` checks. */
    static method UserOrKeyChecker(target: Target, keyValue: Json, keyName: string) returns (r: Result<Params>)
      requires keyName == "key" || keyName == "pattern"
      ensures r == CheckedParams(target, keyValue, keyName)
    {
      var params: Params := [(keyName, keyValue)];
      match target {
        case ForUser(user) =>
          var username := Attr(user, "username");
          if username.Failure? {
            return Failure(username.error);
          }
          AssignNew(params, "username", username.value);
          params := Assign(params, "username", username.value);
          var token := Attr(user, "token");
          if token.Failure? {
            return Failure(token.error);
          }
          assert Keys(params) == [keyName, "username"];
          AssignNew(params, "user_token", token.value);
          params := Assign(params, "user_token", token.value);
          assert params == [(keyName, keyValue)] + UsernameAndToken(user).value;
          if token.value == JNone {
            return Failure(ValueError(UserTokenNotSet));
          }
        case Global(key) =>
          params := Assign(params, keyName, key);
          assert params == [(keyName, key)];
      }
      if params[0].1 == JNone {
        return Failure(ValueError(ArgumentMissing(keyName)));
      }
      r := Success(params);
    }

    /** `fetch(target, key)`. */
    method Fetch(target: Target, key: Json) returns (r: Result<Response>)
      modifies requester
      ensures var plan := requester.Plan("DATASTORE", "FETCH", CheckedParams(target, key, "key"));
        && requester.sent == requester.SentAfter(old(requester.sent), plan)
        && r == requester.Outcome(old(requester.sent), plan)
    {
      var params := UserOrKeyChecker(target, key, "key");
      CheckedParamsSpec(target, key, "key");
      if params.Success? { PlainEncoding(params.value); }
      r := requester.Request("DATASTORE", "FETCH", params);
    }

    /** `remove(target, key)`. */
    method Remove(target: Target, key: Json) returns (r: Result<Response>)
      modifies requester
      ensures var plan := requester.Plan("DATASTORE", "REMOVE", CheckedParams(target, key, "key"));
        && requester.sent == requester.SentAfter(old(requester.sent), plan)
        && r == requester.Outcome(old(requester.sent), plan)
    {
      var params := UserOrKeyChecker(target, key, "key");
      CheckedParamsSpec(target, key, "key");
      if params.Success? { PlainEncoding(params.value); }
      r := requester.Request("DATASTORE", "REMOVE", params);
    }

    /** `set(target, key_or_data, data)`: the response is discarded. */
    method Set(target: Target, keyOrData: Json, data: Json) returns (r: Outcome)
      modifies requester
      ensures var plan := requester.Plan("DATASTORE", "SET", SetParams(target, keyOrData, data));
        && requester.sent == requester.SentAfter(old(requester.sent), plan)
        && r == Completed(requester.Outcome(old(requester.sent), plan))
    {
      var checked := UserOrKeyChecker(target, keyOrData, "key");
      var params: Result<Params> := checked;
      if checked.Success? {
        var p := checked.value;
        CheckedParamsSpec(target, keyOrData, "key");
        assert "data" !in Keys(p);
        var value := if target.ForUser? then data else keyOrData;
        AssignNew(p, "data", value);
        p := Assign(p, "data", value);
        params := Success(p);
      }
      assert params == SetParams(target, keyOrData, data);
      SetParamsSpec(target, keyOrData, data);
      if params.Success? { PlainEncoding(params.value); }
      var response := requester.Request("DATASTORE", "SET", params);
      r := Completed(response);
    }

    /** `update(target, operation_or_key, *args)`. */
    method Update(target: Target, operationOrKey: Json, args: seq<Json>) returns (r: Result<Response>)
      modifies requester
      ensures var plan := requester.Plan("DATASTORE", "UPDATE", UpdateParams(target, operationOrKey, args));
        && requester.sent == requester.SentAfter(old(requester.sent), plan)
        && r == requester.Outcome(old(requester.sent), plan)
    {
      var params := UserOrKeyChecker(target, operationOrKey, "key");
      if params.Success? {
        var p := params.value;
        ghost var checked := p;
        CheckedParamsSpec(target, operationOrKey, "key");
        var operation: Json;
        var value: Json;
        if target.ForUser? {
          if |args| < 2 {
            params := Failure(ValueError(NotEnoughValuesToUnpack));
          } else if |args| > 2 {
            params := Failure(ValueError(TooManyValuesToUnpack));
          } else {
            operation, value := args[0], args[1];
          }
        } else if |args| == 0 {
          params := Failure(ValueError(NotEnoughValuesToUnpack));
        } else {
          operation, value := operationOrKey, args[0];
        }
        if params.Success? {
          assert "operation" !in Keys(p) && "value" !in Keys(p);
          AssignNew(p, "operation", operation);
          p := Assign(p, "operation", operation);
          assert Keys(p) == Keys(checked) + ["operation"];
          AssignNew(p, "value", value);
          p := Assign(p, "value", value);
          assert p == checked + [("operation", operation), ("value", value)];
          params := Success(p);
        }
      }
      assert params == UpdateParams(target, operationOrKey, args);
      if params.Success? {
        UpdateParamsSpec(target, operationOrKey, args);
        PlainEncoding(params.value);
      }
      r := requester.Request("DATASTORE", "UPDATE", params);
    }

    /** `get_keys(target, pattern)`, ending in the payload's key list (see `KeysAttribute` for the code as written). */
    method GetKeys(target: Target, pattern: Json) returns (r: Result<Json>)
      modifies requester
      ensures var plan := requester.Plan("DATASTORE", "GET_KEYS", GetKeysParams(requester.formatter.apiVersion, target, pattern));
        && requester.sent == requester.SentAfter(old(requester.sent), plan)
        && r == KeyList(requester.Outcome(old(requester.sent), plan))
    {
      var params := UserOrKeyChecker(target, pattern, "pattern");
      if params.Success? {
        var p := params.value;
        CheckedParamsSpec(target, pattern, "pattern");
        if target.ForUser? {
          assert Get(p, "pattern") == Some(pattern);
          AssignSame(p, "pattern", pattern);
          p := Assign(p, "pattern", pattern);
        }
        assert p[0].0 == "pattern" && p[0].1 != JNone;
        var guard := PatternGuard(requester.formatter.apiVersion);
        if guard.Fail? {
          params := Failure(guard.error);
        }
      }
      assert params == GetKeysParams(requester.formatter.apiVersion, target, pattern);
      if params.Success? { PlainEncoding(params.value); }
      var response := requester.Request("DATASTORE", "GET_KEYS", params);
      r := KeyList(response);
    }
  }
}
