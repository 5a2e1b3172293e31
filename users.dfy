/**
 * The users component (subcomponents/users.py): fetching users by id or by name, and
 * authenticating a user's name and token.
 */
module Users {
  import opened Wrappers
  import opened Json
  import opened Errors
  import opened Params
  import opened Builtins
  import opened Strings
  import opened Models
  import opened UrlEncoding
  import opened Endpoints
  import opened Requests
  import opened Helpers
  import opened Calls

  /** `"".join(xs)`: TypeError unless every element is a string. */
  function ConcatStrs(xs: seq<Json>): (r: Result<string>)
    ensures r.Success? <==> forall i :: 0 <= i < |xs| ==> xs[i].JStr?
    ensures r.Failure? ==> r.error == TypeError(ExpectedStr)
    ensures r.Success? ==> r.value == Concat(StrEach(xs))
  {
    if xs == [] then Success("")
    else if !xs[0].JStr? then Failure(TypeError(ExpectedStr))
    else
      var rest := ConcatStrs(xs[1..]);
      assert rest.Success? <==> forall i :: 0 <= i < |xs| ==> xs[i].JStr? by {
        if rest.Success? {
          forall i | 0 <= i < |xs| ensures xs[i].JStr? {
            if i > 0 { assert xs[i] == xs[1..][i - 1]; }
          }
        }
        if forall i :: 0 <= i < |xs| ==> xs[i].JStr? {
          forall i | 0 <= i < |xs[1..]| ensures xs[1..][i].JStr? {
            assert xs[1..][i] == xs[i + 1];
          }
        }
      }
      match rest
      case Failure(e) => Failure(e)
      case Success(s) => Success(xs[0].s + s)
  }

  /**
   * The keyword argument `fetch(first, *ids)` sends: a mix of ints and strings among several
   * arguments is refused; any int makes the request by `user_id`, the arguments joined with
   * commas; otherwise the strings are run together into one `username`.
   */
  function FetchParams(first: Json, ids: seq<Json>): (r: Result<Params>)
  {
    var users := [first] + ids;
    if |ids| > 0 && InstanceChecker(IntType, users) && InstanceChecker(StrType, users) then
      Failure(TypeError(MixedIdTypes))
    else if InstanceChecker(IntType, users) then
      Success([("user_id", JStr(Join(",", StrEach(users))))])
    else
      match ConcatStrs(users)
      case Failure(e) => Failure(e)
      case Success(name) => Success([("username", JStr(name))])
  }

  /** `[User(**user) for user in xs]`: in order, the first failure propagating. */
  function ConstructAll(xs: seq<Json>): (r: Result<seq<Instance>>)
  {
    if xs == [] then Success([])
    else
      match ConstructFrom(UserModel, xs[0])
      case Failure(e) => Failure(e)
      case Success(u) =>
        match ConstructAll(xs[1..])
        case Failure(e) => Failure(e)
        case Success(us) => Success([u] + us)
  }

  /**
   * What `fetch` makes of the response for `count` arguments: one user from the first entry of
   * `users` when there was one argument, otherwise a user for each entry.
   */
  function FetchResult(count: nat, outcome: Result<Response>): (r: Result<Fetched>)
  {
    match outcome
    case Failure(e) => Failure(e)
    case Success(response) =>
      match Item(response.response, "users")
      case Failure(e) => Failure(e)
      case Success(users) =>
        if count == 1 then
          match Index(users, 0)
          case Failure(e) => Failure(e)
          case Success(u) =>
            match ConstructFrom(UserModel, u)
            case Failure(e) => Failure(e)
            case Success(user) => Success(Single(user))
        else
          match Iterate(users)
          case Failure(e) => Failure(e)
          case Success(xs) =>
            match ConstructAll(xs)
            case Failure(e) => Failure(e)
            case Success(records) => Success(Several(records))
  }

  /** The keyword arguments of `authenticate(username, token)`. */
  function AuthParams(username: Json, token: Json): (r: Params)
  {
    [("username", username), ("user_token", token)]
  }

  /** The ids/names check rejects exactly the mixes of ints and strings among two or more arguments. */
  lemma MixedIdsRefused(first: Json, ids: seq<Json>)
    ensures var users := [first] + ids;
      FetchParams(first, ids) == Failure(TypeError(MixedIdTypes)) <==>
        |ids| > 0 && (exists i :: 0 <= i < |users| && IsInstance(users[i], IntType))
                  && (exists i :: 0 <= i < |users| && IsInstance(users[i], StrType))
  {
  }

  /**
   * With int arguments only, the request is by `user_id`: splitting its value on commas gives
   * back `str` of each argument, and parsing each piece gives back the id.
   */
  lemma FetchByIds(first: Json, ids: seq<Json>)
    requires var users := [first] + ids; forall i :: 0 <= i < |users| ==> IsInstance(users[i], IntType)
    ensures var users := [first] + ids;
      && FetchParams(first, ids) == Success([("user_id", JStr(Join(",", StrEach(users))))])
      && Split(Join(",", StrEach(users)), ',') == StrEach(users)
      && forall i :: 0 <= i < |users| && users[i].JInt? ==> ParseInt(Split(Join(",", StrEach(users)), ',')[i]) == Some(users[i].i)
  {
    var users := [first] + ids;
    assert IsInstance(users[0], IntType);
    IdsRoundTrip(users);
  }

  /** Ints and bools joined with commas split back into their `str`s, and each int parses back. */
  lemma IdsRoundTrip(users: seq<Json>)
    requires |users| >= 1 && forall i :: 0 <= i < |users| ==> IsInstance(users[i], IntType)
    ensures Split(Join(",", StrEach(users)), ',') == StrEach(users)
    ensures forall i :: 0 <= i < |users| && users[i].JInt? ==> ParseInt(StrEach(users)[i]) == Some(users[i].i)
  {
    IdsHaveNoComma(users);
    assert "," == [','];
    SplitJoin(StrEach(users), ',');
    IdsParseBack(users);
  }

  /** No `str` of an int or a bool holds a comma. */
  lemma IdsHaveNoComma(users: seq<Json>)
    requires forall i :: 0 <= i < |users| ==> IsInstance(users[i], IntType)
    ensures forall i :: 0 <= i < |users| ==> ',' !in StrEach(users)[i]
  {
    var strs := StrEach(users);
    forall i | 0 <= i < |strs| ensures ',' !in strs[i] {
      if users[i].JInt? {
        NoCommaInDecimal(users[i].i);
      } else {
        assert strs[i] == "True" || strs[i] == "False";
      }
    }
  }

  /** The `str` of every int parses back to it. */
  lemma IdsParseBack(users: seq<Json>)
    ensures forall i :: 0 <= i < |users| && users[i].JInt? ==> ParseInt(StrEach(users)[i]) == Some(users[i].i)
  {
    var strs := StrEach(users);
    forall i | 0 <= i < |users| && users[i].JInt? ensures ParseInt(strs[i]) == Some(users[i].i) {
      assert strs[i] == IntToDecimal(users[i].i);
      IntDecimalRoundTrip(users[i].i);
    }
  }

  lemma NoCommaInDecimal(i: int)
    ensures ',' !in IntToDecimal(i)
  {
    var n: nat := if i < 0 then -i else i;
    var d := NatToDecimal(n);
    assert forall k :: 0 <= k < |d| ==> d[k] != ',';
    if i < 0 {
      assert IntToDecimal(i) == "-" + d;
      assert forall k :: 0 <= k < |"-" + d| ==> ("-" + d)[k] != ',' by {
        forall k | 0 <= k < |"-" + d| ensures ("-" + d)[k] != ',' {
          if k > 0 { assert ("-" + d)[k] == d[k - 1]; }
        }
      }
    }
  }

  /** Without ints, strings are run together into one username; anything else is refused. */
  lemma FetchByName(first: Json, ids: seq<Json>)
    requires var users := [first] + ids; forall i :: 0 <= i < |users| ==> !IsInstance(users[i], IntType)
    ensures var users := [first] + ids;
      && ((forall i :: 0 <= i < |users| ==> users[i].JStr?) ==> FetchParams(first, ids) == Success([("username", JStr(Concat(StrEach(users))))]))
      && ((exists i :: 0 <= i < |users| && !users[i].JStr?) ==> FetchParams(first, ids) == Failure(TypeError(ExpectedStr)))
    ensures first.JStr? && ids == [] ==> FetchParams(first, ids) == Success([("username", first)])
  {
    if first.JStr? && ids == [] {
      assert [first] + ids == [first];
      assert !InstanceChecker(IntType, [first]);
      assert StrEach([first]) == [first.s];
      assert Concat([first.s]) == first.s + Concat([]);
      assert [first][1..] == [] && first.s + "" == first.s;
      assert ConcatStrs([first]) == Success(first.s);
    }
  }

  /** The whole list is built exactly when each entry builds, and then element i is built from entry i. */
  lemma ConstructAllElementwise(xs: seq<Json>)
    ensures var r := ConstructAll(xs);
      && (r.Success? <==> forall i :: 0 <= i < |xs| ==> ConstructFrom(UserModel, xs[i]).Success?)
      && (r.Success? ==> |r.value| == |xs| && forall i :: 0 <= i < |xs| ==> r.value[i] == ConstructFrom(UserModel, xs[i]).value)
  {
    ConstructAllSucceeds(xs);
    ConstructAllValues(xs);
  }

  /** The list is built exactly when every entry builds. */
  lemma {:induction false} ConstructAllSucceeds(xs: seq<Json>)
    ensures ConstructAll(xs).Success? <==> forall i :: 0 <= i < |xs| ==> ConstructFrom(UserModel, xs[i]).Success?
  {
    if xs != [] {
      var rest := xs[1..];
      ConstructAllSucceeds(rest);
      var head := ConstructFrom(UserModel, xs[0]);
      if head.Failure? {
        assert ConstructAll(xs).Failure?;
      } else if ConstructAll(rest).Failure? {
        assert ConstructAll(xs).Failure?;
        var i :| 0 <= i < |rest| && ConstructFrom(UserModel, rest[i]).Failure?;
        assert rest[i] == xs[i + 1];
      } else {
        assert ConstructAll(xs).Success?;
        forall i | 0 <= i < |xs| ensures ConstructFrom(UserModel, xs[i]).Success? {
          if i > 0 { assert xs[i] == rest[i - 1]; }
        }
      }
    }
  }

  /** A built list holds the user built from each entry, in order. */
  lemma {:induction false} ConstructAllValues(xs: seq<Json>)
    ensures var r := ConstructAll(xs);
      r.Success? ==> |r.value| == |xs| && forall i :: 0 <= i < |xs| ==> ConstructFrom(UserModel, xs[i]).Success? && r.value[i] == ConstructFrom(UserModel, xs[i]).value
  {
    if xs != [] && ConstructAll(xs).Success? {
      var rest := xs[1..];
      ConstructAllValues(rest);
      var head, tail := ConstructFrom(UserModel, xs[0]), ConstructAll(rest);
      assert ConstructAll(xs).value == [head.value] + tail.value;
      forall i | 0 <= i < |xs| ensures ConstructFrom(UserModel, xs[i]).Success? && ConstructAll(xs).value[i] == ConstructFrom(UserModel, xs[i]).value {
        if i > 0 { assert xs[i] == rest[i - 1]; }
      }
    }
  }

  /**
   * For a payload whose `users` is a list: one argument gives the user built from its first
   * entry (IndexError if it is empty), several give one user per entry, in order.
   */
  lemma FetchResultOfList(count: nat, success: Json, entries: Params, items: seq<Json>)
    requires Get(entries, "users") == Some(JList(items))
    ensures var r := FetchResult(count, Success(Response(success, JObj(entries), None)));
      && (count == 1 && items == [] ==> r == Failure(IndexError))
      && (count == 1 && items != [] ==>
            r == match ConstructFrom(UserModel, items[0]) case Success(u) => Success(Single(u)) case Failure(e) => Failure(e))
      && (count != 1 ==>
            && (r.Success? <==> forall i :: 0 <= i < |items| ==> ConstructFrom(UserModel, items[i]).Success?)
            && (r.Success? ==>
                  r.value.Several? && |r.value.records| == |items|
                  && forall i :: 0 <= i < |items| ==> r.value.records[i] == ConstructFrom(UserModel, items[i]).value))
  {
    ConstructAllElementwise(items);
  }

  /** A fetch by name or id asks `/users` for exactly that one keyword. */
  lemma FetchUrl(q: Requester, first: Json, ids: seq<Json>)
    requires "encoding" !in Keys(q.formatter.queries)
    requires FetchParams(first, ids).Success?
    ensures var p := FetchParams(first, ids).value;
      && |p| == 1 && (p[0].0 == "user_id" || p[0].0 == "username")
      && q.Plan("USERS", "FETCH", FetchParams(first, ids))
         == Success(q.formatter.FormatUrl("/users") + "?" + Urlencode(Merge(q.formatter.queries, p)))
      && Get(Merge(q.formatter.queries, p), p[0].0) == Some(p[0].1)
  {
    var p := FetchParams(first, ids).value;
    assert |p| == 1 && (p[0].0 == "user_id" || p[0].0 == "username") && Plain(p)
      && p[0].0 in Keys(p) && Get(p, p[0].0) == Some(p[0].1) by {
      assert Keys(p) == [p[0].0];
    }
    assert Path("USERS", "FETCH") == Some("/users") by { RegistryContents(); }
    RequestSends(q, "USERS", "FETCH", p);
    MergeGet(q.formatter.queries, p, p[0].0);
  }

  /** `authenticate` asks `/users/auth` with the name and token given, unguarded. */
  lemma AuthUrl(q: Requester, username: Json, token: Json)
    requires "encoding" !in Keys(q.formatter.queries)
    ensures var merged := Merge(q.formatter.queries, AuthParams(username, token));
      && q.Plan("USERS", "AUTH", Success(AuthParams(username, token)))
         == Success(q.formatter.FormatUrl("/users/auth") + "?" + Urlencode(merged))
      && Get(merged, "username") == Some(username)
      && Get(merged, "user_token") == Some(token)
  {
    var p := AuthParams(username, token);
    assert Plain(p) && Get(p, "username") == Some(username) && Get(p, "user_token") == Some(token)
      && "username" in Keys(p) && "user_token" in Keys(p) by {
      assert p == [("username", username), ("user_token", token)];
      assert Keys(p) == ["username", "user_token"];
    }
    assert Path("USERS", "AUTH") == Some("/users/auth") by { RegistryContents(); }
    RequestSends(q, "USERS", "AUTH", p);
    var merged := Merge(q.formatter.queries, p);
    MergeGet(q.formatter.queries, p, "username");
    MergeGet(q.formatter.queries, p, "user_token");
  }

  /** A definition of `fetch` in the class body: the implementation or a `typing.overload` stub. */
  datatype Definition = Implementation | OverloadStub

  /** The definitions of `fetch` in the order the class body makes them. */
  const FetchDefinitions: seq<Definition> := [Implementation, OverloadStub, OverloadStub, OverloadStub]

  /** The order `typing.overload` expects: the stubs, then the implementation. */
  const IntendedDefinitions: seq<Definition> := [OverloadStub, OverloadStub, OverloadStub, Implementation]

  /** The attribute a class body leaves bound: its last definition. */
  function Bound(defs: seq<Definition>): (r: Definition)
    requires |defs| > 0
    ensures r in defs
  {
    defs[|defs| - 1]
  }

  /**
   * What calling the bound `fetch` does before any request: a stub raises NotImplementedError;
   * the implementation computes the keyword argument.
   */
  function CallBound(defs: seq<Definition>, first: Json, ids: seq<Json>): (r: Result<Params>)
    requires |defs| > 0
  {
    match Bound(defs)
    case OverloadStub => Failure(NotImplementedError)
    case Implementation => FetchParams(first, ids)
  }

  /** As written, every call of `fetch` raises NotImplementedError, even `fetch(1)`. */
  lemma FetchShadowed(first: Json, ids: seq<Json>)
    ensures CallBound(FetchDefinitions, first, ids) == Failure(NotImplementedError)
    ensures FetchParams(JInt(1), []).Success?
  {
    assert InstanceChecker(IntType, [JInt(1)]) by { assert IsInstance([JInt(1)][0], IntType); }
  }

  /** With the stubs first, as the other components have them, `fetch` is the implementation. */
  lemma FetchIntended(first: Json, ids: seq<Json>)
    ensures CallBound(IntendedDefinitions, first, ids) == FetchParams(first, ids)
  {
  }

  class UsersComponent {
    const requester: Requester

    constructor (requester: Requester)
      ensures this.requester == requester
    {
      this.requester := requester;
    }

    /** `fetch(first, *ids)`, the implementation at users.py:17-41. */
    method Fetch(first: Json, ids: seq<Json>) returns (r: Result<Fetched>)
      modifies requester
      ensures var plan := requester.Plan("USERS", "FETCH", FetchParams(first, ids));
        && requester.sent == requester.SentAfter(old(requester.sent), plan)
        && r == FetchResult(1 + |ids|, requester.Outcome(old(requester.sent), plan))
    {
      var response := requester.Request("USERS", "FETCH", FetchParams(first, ids));
      r := FetchResult(1 + |ids|, response);
    }

    /** `authenticate(username, token)`: the response as `post` returns it. */
    method Authenticate(username: Json, token: Json) returns (r: Result<Response>)
      modifies requester
      ensures var plan := requester.Plan("USERS", "AUTH", Success(AuthParams(username, token)));
        && requester.sent == requester.SentAfter(old(requester.sent), plan)
        && r == requester.Outcome(old(requester.sent), plan)
    {
      r := requester.Request("USERS", "AUTH", Success(AuthParams(username, token)));
    }
  }
}
