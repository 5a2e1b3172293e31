/**
 * The trophies component (subcomponents/trophies.py): fetching a user's trophies, and marking
 * a trophy achieved or not, with the API's error messages turned into typed trophy errors.
 */
module Trophies {
  import opened Wrappers
  import opened Json
  import opened Errors
  import opened Params
  import opened Builtins
  import opened Strings
  import opened Models
  import opened UrlEncoding
  import opened Endpoints
  import opened Requests
  import opened Helpers
  import opened Calls

  /** `url_kwargs["trophy_id"]` when a trophy id is given: it and the further ids, joined with commas. */
  function TrophyIdPart(trophyId: Json, ids: seq<Json>): (r: Params)
  {
    if trophyId != JNone then [("trophy_id", JStr(Join(",", StrEach([trophyId] + ids))))] else []
  }

  /** `url_kwargs["achieved"]` when the `achieved` keyword is given and not `None`. */
  function AchievedPart(kw: Params): (r: Params)
  {
    match Get(kw, "achieved")
    case None => []
    case Some(v) => if v != JNone then [("achieved", v)] else []
  }

  /**
   * The keyword arguments of `fetch(user, trophy_id, *ids, **kw)`: after the token guard, the
   * name and token, then the trophy ids if a trophy id is given, then `achieved` if set.
   */
  function FetchParams(user: User, trophyId: Json, ids: seq<Json>, kw: Params): (r: Result<Params>)
  {
    Guarded(TokenGuard(user),
      match UsernameAndToken(user)
      case Failure(e) => Failure(e)
      case Success(credentials) => Success(credentials + TrophyIdPart(trophyId, ids) + AchievedPart(kw)))
  }

  /** One trophy when exactly one id was given, else the list; the records come from the `trophies` entry. */
  function FetchResult(trophyId: Json, ids: seq<Json>, outcome: Result<Response>): (r: Result<Fetched>)
  {
    match outcome
    case Failure(e) => Failure(e)
    case Success(response) =>
      match Item(response.response, "trophies")
      case Failure(e) => Failure(e)
      case Success(trophies) =>
        if trophyId != JNone && ids == [] then
          match Index(trophies, 0)
          case Failure(e) => Failure(e)
          case Success(t) =>
            match FromDict(TrophyModel, t)
            case Failure(e) => Failure(e)
            case Success(trophy) => Success(Single(trophy))
        else
          match FromList(TrophyModel, trophies)
          case Failure(e) => Failure(e)
          case Success(records) => Success(Several(records))
  }

  /** The keyword arguments of `add_achieved(user, trophy_id)` after the token guard. */
  function AchieveParams(user: User, trophyId: Json): (r: Result<Params>)
  {
    Guarded(TokenGuard(user),
      match UsernameAndToken(user)
      case Failure(e) => Failure(e)
      case Success(credentials) => Success(credentials + [("trophy_id", trophyId)]))
  }

  /** `remove_achieved` runs the version guard before the token guard. */
  function RemoveParams(configured: Json, user: User, trophyId: Json): (r: Result<Params>)
  {
    Guarded(VersionGuard(configured, "v1_2"), AchieveParams(user, trophyId))
  }

  const AlreadyHasMessage: string := "The user already has this trophy."
  const IncorrectIdMessage: string := "Incorrect trophy ID."
  const NotAchievedMessage: string := "The user does not have this trophy."

  /** A trophy error whose message names the user: reading `user.username` can itself fail. */
  function Named(kind: TrophyErrorKind, trophyId: Json, user: User, response: Response): Error
  {
    if "username" in user.attrs then TrophyError(kind, trophyId, user, response) else AttributeError("username")
  }

  /**
   * `_raise_error`: the API error's response message picks the trophy error raised in its place;
   * any other message raises the error itself, and a response without `message` AttributeError.
   */
  function RaisedError(e: Error, trophyId: Json, user: User): (r: Error)
    requires IsApiError(e)
  {
    var response := ErrorResponse(e);
    match response.message
    case None => AttributeError("message")
    case Some(m) =>
      if m == JStr(AlreadyHasMessage) then Named(UserAlreadyHasTrophy, trophyId, user, response)
      else if m == JStr(IncorrectIdMessage) then TrophyError(IncorrectTrophyID, trophyId, user, response)
      else if m == JStr(NotAchievedMessage) then Named(UserHasNotAchievedTrophy, trophyId, user, response)
      else e
  }

  /** The `try` around `post`: an API error is translated, anything else passes through. */
  function Caught(outcome: Result<Response>, trophyId: Json, user: User): (r: Result<Response>)
  {
    match outcome
    case Success(_) => outcome
    case Failure(e) => if IsApiError(e) then Failure(RaisedError(e, trophyId, user)) else outcome
  }

  /**
   * The keyword arguments of `fetch`: exactly the user's credentials, `trophy_id` exactly when
   * a trophy id is given (holding `str` of it and of the further ids), and `achieved` exactly
   * when that keyword is given and not `None`. Further ids without a trophy id are dropped.
   */
  lemma FetchParamsSpec(user: User, trophyId: Json, ids: seq<Json>, kw: Params)
    ensures FetchParams(user, trophyId, ids, kw).Success? <==>
      "username" in user.attrs && "token" in user.attrs && user.attrs["token"] != JNone
    ensures "token" in user.attrs && user.attrs["token"] == JNone ==> FetchParams(user, trophyId, ids, kw) == Failure(ValueError(TokenRequired))
    ensures FetchParams(user, trophyId, ids, kw).Success? ==>
      var p := FetchParams(user, trophyId, ids, kw).value;
      && Plain(p)
      && Get(p, "username") == Some(user.attrs["username"])
      && Get(p, "user_token") == Some(user.attrs["token"])
      && (Get(p, "trophy_id").Some? <==> trophyId != JNone)
      && (trophyId != JNone ==> Get(p, "trophy_id") == Some(JStr(Join(",", StrEach([trophyId] + ids)))))
      && (Get(p, "achieved").Some? <==> Get(kw, "achieved").Some? && Get(kw, "achieved").value != JNone)
      && (Get(p, "achieved").Some? ==> Get(p, "achieved") == Get(kw, "achieved"))
  {
    if FetchParams(user, trophyId, ids, kw).Success? {
      var t := TrophyIdPart(trophyId, ids);
      var a := AchievedPart(kw);
      assert FetchParams(user, trophyId, ids, kw).value == UsernameAndToken(user).value + (t + a);
      OptionalParts(trophyId, ids, kw);
      CredentialsThen(user, t + a, "trophy_id");
      CredentialsThen(user, t + a, "achieved");
    }
  }

  /** The optional entries of `fetch`: a dict of `trophy_id` and `achieved`, each present as the arguments say. */
  lemma OptionalParts(trophyId: Json, ids: seq<Json>, kw: Params)
    ensures var rest := TrophyIdPart(trophyId, ids) + AchievedPart(kw);
      && Plain(rest)
      && (forall i :: 0 <= i < |rest| ==> rest[i].0 != "username" && rest[i].0 != "user_token")
      && Get(rest, "trophy_id") == Get(TrophyIdPart(trophyId, ids), "trophy_id")
      && Get(rest, "achieved") == Get(AchievedPart(kw), "achieved")
  {
    var t := TrophyIdPart(trophyId, ids);
    var a := AchievedPart(kw);
    TwoOptional(t, a, "trophy_id", "achieved");
    assert "trophy_id" !in BoundKeywords && "achieved" !in BoundKeywords;
    GetAppend(t, a, "trophy_id");
    GetAppend(t, a, "achieved");
  }

  /** At most one entry named `k1` followed by at most one named `k2`: distinct keys, each one of the two. */
  lemma TwoOptional(t: Params, a: Params, k1: string, k2: string)
    requires |t| <= 1 && |a| <= 1 && k1 != k2
    requires (t != [] ==> t[0].0 == k1) && (a != [] ==> a[0].0 == k2)
    ensures Distinct(Keys(t + a))
    ensures forall i :: 0 <= i < |t + a| ==> (t + a)[i].0 == k1 || (t + a)[i].0 == k2
  {
    if t != [] && a != [] {
      assert Keys(t + a) == [k1, k2];
    }
  }

  /**
   * The credentials followed by entries with other keys, distinct among themselves: a dict
   * holding the name and token and otherwise those entries.
   */
  lemma CredentialsThen(user: User, rest: Params, k: string)
    requires UsernameAndToken(user).Success?
    requires Plain(rest) && forall i :: 0 <= i < |rest| ==> rest[i].0 != "username" && rest[i].0 != "user_token"
    ensures var p := UsernameAndToken(user).value + rest;
      && Plain(p)
      && Get(p, "username") == Some(user.attrs["username"])
      && Get(p, "user_token") == Some(user.attrs["token"])
      && (k != "username" && k != "user_token" ==> Get(p, k) == Get(rest, k))
  {
    var c := UsernameAndToken(user).value;
    var p := c + rest;
    var ks := Keys(p);
    assert Keys(c) == ["username", "user_token"];
    forall i, j | 0 <= i < j < |ks| ensures ks[i] != ks[j] {
      if j >= 2 {
        assert ks[j] == rest[j - 2].0;
        if i >= 2 {
          assert ks[i] == rest[i - 2].0;
          assert Keys(rest)[i - 2] != Keys(rest)[j - 2];
        }
      }
    }
    forall i | 0 <= i < |p| ensures p[i].0 !in BoundKeywords {
      if i >= 2 { assert p[i] == rest[i - 2]; }
    }
    GetAppend(c, rest, "username");
    GetAppend(c, rest, "user_token");
    GetAppend(c, rest, k);
  }

  /** The trophies returned: one record exactly when one trophy id was given, from the first entry. */
  lemma FetchResultSpec(trophyId: Json, ids: seq<Json>, success: Json, entries: Params, items: seq<Json>)
    requires Get(entries, "trophies") == Some(JList(items))
    ensures var r := FetchResult(trophyId, ids, Success(Response(success, JObj(entries), None)));
      && (trophyId != JNone && ids == [] ==>
            r == if items == [] then Failure(IndexError)
                 else match FromDict(TrophyModel, items[0]) case Success(t) => Success(Single(t)) case Failure(e) => Failure(e))
      && (trophyId == JNone || ids != [] ==>
            && (r.Success? <==> forall i :: 0 <= i < |items| ==> FromDict(TrophyModel, items[i]).Success?)
            && (r.Success? ==>
                  r.value.Several? && |r.value.records| == |items|
                  && forall i :: 0 <= i < |items| ==> r.value.records[i] == FromDict(TrophyModel, items[i]).value))
  {
    FromListOfList(TrophyModel, items);
  }

  /**
   * The translated errors: each of the three messages gives its trophy error, carrying the trophy
   * id, the user and the original response (the two naming the user need its name); any other
   * message re-raises the error.
   */
  lemma RaisedErrorSpec(e: Error, trophyId: Json, user: User)
    requires IsApiError(e) && ErrorResponse(e).message.Some?
    ensures var m := ErrorResponse(e).message.value;
      var r := RaisedError(e, trophyId, user);
      && (m == JStr(IncorrectIdMessage) ==> r == TrophyError(IncorrectTrophyID, trophyId, user, ErrorResponse(e)))
      && (m == JStr(AlreadyHasMessage) && "username" in user.attrs ==> r == TrophyError(UserAlreadyHasTrophy, trophyId, user, ErrorResponse(e)))
      && (m == JStr(NotAchievedMessage) && "username" in user.attrs ==> r == TrophyError(UserHasNotAchievedTrophy, trophyId, user, ErrorResponse(e)))
      && (m != JStr(AlreadyHasMessage) && m != JStr(IncorrectIdMessage) && m != JStr(NotAchievedMessage) ==> r == e)
  {
  }

  /** Translation keeps an API error an API error about the same response, unless reading an attribute failed. */
  lemma RaisedErrorKeepsResponse(e: Error, trophyId: Json, user: User)
    requires IsApiError(e)
    ensures var r := RaisedError(e, trophyId, user);
      r.AttributeError? || (IsApiError(r) && ErrorResponse(r) == ErrorResponse(e))
    ensures RaisedError(e, trophyId, user).AttributeError? ==>
      ErrorResponse(e).message.None? || "username" !in user.attrs
  {
  }

  /** A response `post` built has no `message`, so an API error raised for it becomes AttributeError. */
  lemma CaughtBuiltResponse(success: Json, payload: Json, trophyId: Json, user: User)
    ensures Caught(Failure(ApiError(Response(success, payload, None))), trophyId, user) == Failure(AttributeError("message"))
  {
  }

  /** `add_achieved` and `remove_achieved` send the user's credentials and the trophy id, in that order. */
  lemma AchieveParamsSpec(configured: Json, user: User, trophyId: Json)
    requires VersionRank(configured).Success?
    ensures AchieveParams(user, trophyId).Success? <==>
      "username" in user.attrs && "token" in user.attrs && user.attrs["token"] != JNone
    ensures AchieveParams(user, trophyId).Success? ==>
      AchieveParams(user, trophyId).value == [("username", user.attrs["username"]), ("user_token", user.attrs["token"]), ("trophy_id", trophyId)]
      && Plain(AchieveParams(user, trophyId).value)
    ensures VersionRank(configured).value < 3 ==> RemoveParams(configured, user, trophyId) == Failure(ValueError(VersionMismatch("v1_2")))
    ensures VersionRank(configured).value >= 3 ==> RemoveParams(configured, user, trophyId) == AchieveParams(user, trophyId)
  {
    VersionGuardV12(configured);
    if AchieveParams(user, trophyId).Success? {
      assert Keys(AchieveParams(user, trophyId).value) == ["username", "user_token", "trophy_id"];
    }
  }

  /** Marking a trophy sends the user's credentials and the trophy id, each as given, to the operation's path. */
  lemma AchieveUrl(q: Requester, operation: string, user: User, trophyId: Json)
    requires operation == "ADD_ACHIEVED" || operation == "REMOVE_ACHIEVED"
    requires "encoding" !in Keys(q.formatter.queries)
    requires AchieveParams(user, trophyId).Success?
    ensures var merged := Merge(q.formatter.queries, AchieveParams(user, trophyId).value);
      && q.Plan("TROPHIES", operation, AchieveParams(user, trophyId))
         == Success(q.formatter.FormatUrl(if operation == "ADD_ACHIEVED" then "/trophies/add-achieved" else "/trophies/remove-achieved")
                    + "?" + Urlencode(merged))
      && Get(merged, "username") == Some(user.attrs["username"])
      && Get(merged, "user_token") == Some(user.attrs["token"])
      && Get(merged, "trophy_id") == Some(trophyId)
  {
    var p := AchieveParams(user, trophyId).value;
    assert Plain(p) && Get(p, "username") == Some(user.attrs["username"]) && Get(p, "user_token") == Some(user.attrs["token"])
      && Get(p, "trophy_id") == Some(trophyId)
      && "username" in Keys(p) && "user_token" in Keys(p) && "trophy_id" in Keys(p) by {
      AchieveParamsSpec(JStr(ApiVersion), user, trophyId);
      assert Keys(p) == ["username", "user_token", "trophy_id"];
      assert Get(p, "trophy_id") == Get(p[1..], "trophy_id") == Get(p[2..], "trophy_id");
    }
    assert Path("TROPHIES", "ADD_ACHIEVED") == Some("/trophies/add-achieved") by { RegistryContents(); }
    assert Path("TROPHIES", "REMOVE_ACHIEVED") == Some("/trophies/remove-achieved") by { RegistryContents(); }
    RequestSends(q, "TROPHIES", operation, p);
    var merged := Merge(q.formatter.queries, p);
    MergeGet(q.formatter.queries, p, "username");
    MergeGet(q.formatter.queries, p, "user_token");
    MergeGet(q.formatter.queries, p, "trophy_id");
  }

  class TrophiesComponent {
    const requester: Requester

    constructor (requester: Requester)
      ensures this.requester == requester
    {
      this.requester := requester;
    }

    /** What `add_achieved` or `remove_achieved` answers: a formatting failure is raised outside the `try`. */
    function AchieveOutcome(history: seq<string>, plan: Result<string>, trophyId: Json, user: User): (r: Result<Response>)
      ensures plan.Failure? ==> r == Failure(plan.error)
      ensures plan.Success? ==> r == Caught(requester.Exchange(history, plan.value), trophyId, user)
    {
      match plan
      case Failure(e) => Failure(e)
      case Success(url) => Caught(requester.Exchange(history, url), trophyId, user)
    }

    /** `fetch(user, trophy_id, *ids, **kw)`: `url_kwargs` is built entry by entry. */
    method Fetch(user: User, trophyId: Json, ids: seq<Json>, kw: Params) returns (r: Result<Fetched>)
      modifies requester
      ensures var plan := requester.Plan("TROPHIES", "FETCH", FetchParams(user, trophyId, ids, kw));
        && requester.sent == requester.SentAfter(old(requester.sent), plan)
        && r == FetchResult(trophyId, ids, requester.Outcome(old(requester.sent), plan))
    {
      var guard := TokenGuard(user);
      if guard.Fail? {
        r := Failure(guard.error);
        return;
      }
      var username := Attr(user, "username");
      if username.Failure? {
        r := Failure(username.error);
        return;
      }
      var token := Attr(user, "token");
      var urlKwargs: Params := [("username", username.value), ("user_token", token.value)];
      ghost var credentials := urlKwargs;
      assert Keys(urlKwargs) == ["username", "user_token"];
      if trophyId != JNone {
        var joined := JStr(Join(",", StrEach([trophyId] + ids)));
        AssignNew(urlKwargs, "trophy_id", joined);
        urlKwargs := Assign(urlKwargs, "trophy_id", joined);
      }
      assert urlKwargs == credentials + TrophyIdPart(trophyId, ids);
      assert Keys(urlKwargs) == Keys(credentials) + Keys(TrophyIdPart(trophyId, ids));
      var achieved := Get(kw, "achieved");
      if achieved.Some? && achieved.value != JNone {
        AssignNew(urlKwargs, "achieved", achieved.value);
        urlKwargs := Assign(urlKwargs, "achieved", achieved.value);
      }
      assert urlKwargs == credentials + TrophyIdPart(trophyId, ids) + AchievedPart(kw);
      assert credentials == UsernameAndToken(user).value;
      assert Success(urlKwargs) == FetchParams(user, trophyId, ids, kw);
      FetchParamsSpec(user, trophyId, ids, kw);
      PlainEncoding(urlKwargs);
      var response := requester.Request("TROPHIES", "FETCH", Success(urlKwargs));
      r := FetchResult(trophyId, ids, response);
    }

    /** `add_achieved(user, trophy_id)`. */
    method AddAchieved(user: User, trophyId: Json) returns (r: Result<Response>)
      modifies requester
      ensures var plan := requester.Plan("TROPHIES", "ADD_ACHIEVED", AchieveParams(user, trophyId));
        && requester.sent == requester.SentAfter(old(requester.sent), plan)
        && r == AchieveOutcome(old(requester.sent), plan, trophyId, user)
    {
      r := Achieve("ADD_ACHIEVED", AchieveParams(user, trophyId), trophyId, user);
    }

    /** `remove_achieved(user, trophy_id)`. */
    method RemoveAchieved(user: User, trophyId: Json) returns (r: Result<Response>)
      modifies requester
      ensures var plan := requester.Plan("TROPHIES", "REMOVE_ACHIEVED", RemoveParams(requester.formatter.apiVersion, user, trophyId));
        && requester.sent == requester.SentAfter(old(requester.sent), plan)
        && r == AchieveOutcome(old(requester.sent), plan, trophyId, user)
    {
      r := Achieve("REMOVE_ACHIEVED", RemoveParams(requester.formatter.apiVersion, user, trophyId), trophyId, user);
    }

    /** The shared body: format the URL, then post it inside the `try`. */
    method Achieve(operation: string, params: Result<Params>, trophyId: Json, user: User) returns (r: Result<Response>)
      requires params.Success? ==> EncodingIsUtf8(params.value)
      modifies requester
      ensures var plan := requester.Plan("TROPHIES", operation, params);
        && requester.sent == requester.SentAfter(old(requester.sent), plan)
        && r == AchieveOutcome(old(requester.sent), plan, trophyId, user)
    {
      var plan := requester.Plan("TROPHIES", operation, params);
      if plan.Failure? {
        r := Failure(plan.error);
        return;
      }
      var response := requester.Post(plan.value);
      r := Caught(response, trophyId, user);
    }
  }
}
