/**
 * The friends component (subcomponents/friends.py): the friend list of a user, which needs
 * API version v1_2 and the user's token.
 */
module Friends {
  import opened Wrappers
  import opened Json
  import opened Errors
  import opened Params
  import opened Builtins
  import opened UrlEncoding
  import opened Endpoints
  import opened Requests
  import opened Helpers
  import opened Calls

  /** `user_token=user.token, username=user.username`: the token is read first. */
  function TokenAndUsername(user: User): (r: Result<Params>)
  {
    match Attr(user, "token")
    case Failure(e) => Failure(e)
    case Success(token) =>
      match Attr(user, "username")
      case Failure(e) => Failure(e)
      case Success(username) => Success([("user_token", token), ("username", username)])
  }

  /** The version guard, then the token guard, then the keyword arguments. */
  function FriendsParams(configured: Json, user: User): (r: Result<Params>)
  {
    Guarded(VersionGuard(configured, "v1_2"), Guarded(TokenGuard(user), TokenAndUsername(user)))
  }

  /** `response.response["friends"]`. */
  function FriendList(outcome: Result<Response>): (r: Result<Json>)
  {
    match outcome
    case Failure(e) => Failure(e)
    case Success(response) => Item(response.response, "friends")
  }

  /**
   * With a new enough version, the request carries the token and then the name, and is made
   * exactly when the user has both and the token is not `None`; the guards decide the error
   * otherwise, in their order.
   */
  lemma FriendsParamsSpec(configured: Json, user: User)
    requires VersionRank(configured).Success?
    ensures VersionRank(configured).value < 3 ==> FriendsParams(configured, user) == Failure(ValueError(VersionMismatch("v1_2")))
    ensures VersionRank(configured).value >= 3 ==>
      && (FriendsParams(configured, user).Success? <==>
          "username" in user.attrs && "token" in user.attrs && user.attrs["token"] != JNone)
      && ("token" !in user.attrs ==> FriendsParams(configured, user) == Failure(AttributeError("token")))
      && ("token" in user.attrs && user.attrs["token"] == JNone ==> FriendsParams(configured, user) == Failure(ValueError(TokenRequired)))
    ensures FriendsParams(configured, user).Success? ==>
      FriendsParams(configured, user).value == [("user_token", user.attrs["token"]), ("username", user.attrs["username"])]
      && Plain(FriendsParams(configured, user).value)
  {
    VersionGuardV12(configured);
    if FriendsParams(configured, user).Success? {
      assert Keys(FriendsParams(configured, user).value) == ["user_token", "username"];
    }
  }

  /** The list is the `friends` entry of the payload; a payload without one raises KeyError. */
  lemma FriendListSpec(outcome: Result<Response>)
    ensures outcome.Failure? ==> FriendList(outcome) == Failure(outcome.error)
    ensures outcome.Success? && outcome.value.response.JObj? ==>
      (FriendList(outcome).Success? <==> "friends" in Keys(outcome.value.response.entries))
    ensures FriendList(outcome).Success? ==> Get(outcome.value.response.entries, "friends") == Some(FriendList(outcome).value)
  {
  }

  /** The URL asks for `/friends` with the user's token and name. */
  lemma FriendsUrl(q: Requester, user: User)
    requires "encoding" !in Keys(q.formatter.queries)
    requires FriendsParams(q.formatter.apiVersion, user).Success?
    ensures var merged := Merge(q.formatter.queries, FriendsParams(q.formatter.apiVersion, user).value);
      && q.Plan("FRIENDS", "FETCH", FriendsParams(q.formatter.apiVersion, user))
         == Success(q.formatter.FormatUrl("/friends") + "?" + Urlencode(merged))
      && Get(merged, "user_token") == Some(user.attrs["token"])
      && Get(merged, "username") == Some(user.attrs["username"])
  {
    var p := FriendsParams(q.formatter.apiVersion, user).value;
    assert Plain(p) && Get(p, "user_token") == Some(user.attrs["token"]) && Get(p, "username") == Some(user.attrs["username"])
      && "user_token" in Keys(p) && "username" in Keys(p) by {
      assert p == [("user_token", user.attrs["token"]), ("username", user.attrs["username"])];
      assert Keys(p) == ["user_token", "username"];
    }
    assert Path("FRIENDS", "FETCH") == Some("/friends") by { RegistryContents(); }
    RequestSends(q, "FRIENDS", "FETCH", p);
    var merged := Merge(q.formatter.queries, p);
    MergeGet(q.formatter.queries, p, "user_token");
    MergeGet(q.formatter.queries, p, "username");
  }

  class FriendsComponent {
    const requester: Requester

    constructor (requester: Requester)
      ensures this.requester == requester
    {
      this.requester := requester;
    }

    /** `fetch(user)`. */
    method Fetch(user: User) returns (r: Result<Json>)
      modifies requester
      ensures var plan := requester.Plan("FRIENDS", "FETCH", FriendsParams(requester.formatter.apiVersion, user));
        && requester.sent == requester.SentAfter(old(requester.sent), plan)
        && r == FriendList(requester.Outcome(old(requester.sent), plan))
    {
      var response := requester.Request("FRIENDS", "FETCH", FriendsParams(requester.formatter.apiVersion, user));
      r := FriendList(response);
    }
  }
}
