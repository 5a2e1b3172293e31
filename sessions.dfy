/**
 * The sessions component (subcomponents/sessions.py): opening, pinging, checking and closing
 * a user's session. Every call needs the user's token; `check` also needs API version v1_2.
 */
module Sessions {
  import opened Wrappers
  import opened Json
  import opened Errors
  import opened Params
  import opened UrlEncoding
  import opened Endpoints
  import opened Requests
  import opened Helpers
  import opened Calls

  /** The keyword arguments of every session call: the token guard, then `username` and `user_token`. */
  function SessionParams(user: User): (r: Result<Params>)
  {
    Guarded(TokenGuard(user), UsernameAndToken(user))
  }

  /** `check` runs the version guard before the token guard. */
  function CheckParams(configured: Json, user: User): (r: Result<Params>)
  {
    Guarded(VersionGuard(configured, "v1_2"), SessionParams(user))
  }

  /**
   * The `try` of `check`: an `ApiError` whose response has a `message` other than `None` is
   * raised again, one whose message is `None` answers False, and reading the `message` of a
   * response with no such attribute raises AttributeError. Any other outcome passes through.
   */
  function CheckAnswer(outcome: Result<Response>): (r: Result<Json>)
  {
    match outcome
    case Success(response) => Success(response.success)
    case Failure(e) =>
      if !IsApiError(e) then Failure(e)
      else
        match ErrorResponse(e).message
        case None => Failure(AttributeError("message"))
        case Some(message) => if message == JNone then Success(JBool(false)) else Failure(e)
  }

  /**
   * A session call sends exactly the user's name and token, and only when the token is set;
   * a missing or `None` token fails before the name is read.
   */
  lemma SessionParamsSpec(user: User)
    ensures SessionParams(user).Success? <==>
      "username" in user.attrs && "token" in user.attrs && user.attrs["token"] != JNone
    ensures SessionParams(user).Success? ==>
      SessionParams(user).value == [("username", user.attrs["username"]), ("user_token", user.attrs["token"])]
      && Plain(SessionParams(user).value)
    ensures "token" !in user.attrs ==> SessionParams(user) == Failure(AttributeError("token"))
    ensures "token" in user.attrs && user.attrs["token"] == JNone ==> SessionParams(user) == Failure(ValueError(TokenRequired))
  {
    if SessionParams(user).Success? {
      var p := SessionParams(user).value;
      assert Keys(p) == ["username", "user_token"];
    }
  }

  /** `check` refuses an older API version before looking at the user, and otherwise behaves as the other calls. */
  lemma CheckParamsSpec(configured: Json, user: User)
    requires VersionRank(configured).Success?
    ensures VersionRank(configured).value < 3 ==> CheckParams(configured, user) == Failure(ValueError(VersionMismatch("v1_2")))
    ensures VersionRank(configured).value >= 3 ==> CheckParams(configured, user) == SessionParams(user)
  {
    VersionGuardV12(configured);
  }

  /**
   * What `check` answers: the `success` of a response; False for an API error without message;
   * the same error for an API error with one; every other exception unchanged.
   */
  lemma CheckAnswerSpec(outcome: Result<Response>)
    ensures outcome.Success? ==> CheckAnswer(outcome) == Success(outcome.value.success)
    ensures outcome.Failure? && !IsApiError(outcome.error) ==> CheckAnswer(outcome) == Failure(outcome.error)
    ensures outcome.Failure? && IsApiError(outcome.error) ==>
      match ErrorResponse(outcome.error).message
      case None => CheckAnswer(outcome) == Failure(AttributeError("message"))
      case Some(m) => CheckAnswer(outcome) == if m == JNone then Success(JBool(false)) else Failure(outcome.error)
    ensures CheckAnswer(outcome).Failure? ==> outcome.Failure?
  {
  }

  /**
   * An API error raised for a response that `post` built (which has no `message`) becomes an
   * AttributeError instead of False.
   */
  lemma CheckOfBuiltResponse(success: Json, payload: Json)
    ensures CheckAnswer(Failure(ApiError(Response(success, payload, None)))) == Failure(AttributeError("message"))
  {
  }

  /**
   * The URL of a session call for a user with a token: the operation's path and the defaults
   * updated with the user's name and token, which the query string carries.
   */
  lemma SessionUrl(q: Requester, operation: string, user: User)
    requires Path("SESSIONS", operation).Some?
    requires "encoding" !in Keys(q.formatter.queries)
    requires SessionParams(user).Success?
    ensures var merged := Merge(q.formatter.queries, SessionParams(user).value);
      && q.Plan("SESSIONS", operation, SessionParams(user))
         == Success(q.formatter.FormatUrl(Path("SESSIONS", operation).value) + "?" + Urlencode(merged))
      && Get(merged, "username") == Some(user.attrs["username"])
      && Get(merged, "user_token") == Some(user.attrs["token"])
  {
    var p := SessionParams(user).value;
    assert Plain(p) && Get(p, "username") == Some(user.attrs["username"]) && Get(p, "user_token") == Some(user.attrs["token"])
      && "username" in Keys(p) && "user_token" in Keys(p) by {
      SessionParamsSpec(user);
      assert Keys(p) == ["username", "user_token"];
    }
    RequestSends(q, "SESSIONS", operation, p);
    var merged := Merge(q.formatter.queries, p);
    MergeGet(q.formatter.queries, p, "username");
    MergeGet(q.formatter.queries, p, "user_token");
  }

  class SessionsComponent {
    const requester: Requester

    constructor (requester: Requester)
      ensures this.requester == requester
    {
      this.requester := requester;
    }

    /** A token-guarded session call returning the response's `success`. */
    method Call(operation: string, user: User) returns (r: Result<Json>)
      modifies requester
      ensures requester.sent == requester.SentAfter(old(requester.sent), requester.Plan("SESSIONS", operation, SessionParams(user)))
      ensures r == SuccessOf(requester.Outcome(old(requester.sent), requester.Plan("SESSIONS", operation, SessionParams(user))))
    {
      var response := requester.Request("SESSIONS", operation, SessionParams(user));
      r := SuccessOf(response);
    }

    /** `open(user)`. */
    method Open(user: User) returns (r: Result<Json>)
      modifies requester
      ensures requester.sent == requester.SentAfter(old(requester.sent), requester.Plan("SESSIONS", "OPEN", SessionParams(user)))
      ensures r == SuccessOf(requester.Outcome(old(requester.sent), requester.Plan("SESSIONS", "OPEN", SessionParams(user))))
    {
      r := Call("OPEN", user);
    }

    /** `ping(user)`. */
    method Ping(user: User) returns (r: Result<Json>)
      modifies requester
      ensures requester.sent == requester.SentAfter(old(requester.sent), requester.Plan("SESSIONS", "PING", SessionParams(user)))
      ensures r == SuccessOf(requester.Outcome(old(requester.sent), requester.Plan("SESSIONS", "PING", SessionParams(user))))
    {
      r := Call("PING", user);
    }

    /** `close(user)`. */
    method Close(user: User) returns (r: Result<Json>)
      modifies requester
      ensures requester.sent == requester.SentAfter(old(requester.sent), requester.Plan("SESSIONS", "CLOSE", SessionParams(user)))
      ensures r == SuccessOf(requester.Outcome(old(requester.sent), requester.Plan("SESSIONS", "CLOSE", SessionParams(user))))
    {
      r := Call("CLOSE", user);
    }

    /** `check(user)`: both guards, the request, then the answer the `try` gives. */
    method Check(user: User) returns (r: Result<Json>)
      modifies requester
      ensures var plan := requester.Plan("SESSIONS", "CHECK", CheckParams(requester.formatter.apiVersion, user));
        && requester.sent == requester.SentAfter(old(requester.sent), plan)
        && r == CheckAnswer(requester.Outcome(old(requester.sent), plan))
    {
      var response := requester.Request("SESSIONS", "CHECK", CheckParams(requester.formatter.apiVersion, user));
      r := CheckAnswer(response);
    }
  }
}
