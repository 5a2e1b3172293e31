/**
 * What the components share: reading the user's credentials into keyword arguments, and
 * taking apart the `Response` of a request or the `ApiError` raised instead.
 */
module Calls {
  import opened Wrappers
  import opened Json
  import opened Errors
  import opened Params
  import opened Builtins
  import opened UrlEncoding
  import opened Endpoints
  import opened Requests

  /** A fetch that returns a single record or a list of them. */
  datatype Fetched = Single(record: Instance) | Several(records: seq<Instance>)

  /** `map(str, xs)`. */
  function StrEach(xs: seq<Json>): (r: seq<string>)
    ensures |r| == |xs| && forall i :: 0 <= i < |xs| ==> r[i] == Str(xs[i])
  {
    if xs == [] then [] else [Str(xs[0])] + StrEach(xs[1..])
  }

  /** `username=user.username, user_token=user.token`, evaluated in that order. */
  function UsernameAndToken(user: User): (r: Result<Params>)
    ensures "username" !in user.attrs ==> r == Failure(AttributeError("username"))
    ensures "username" in user.attrs && "token" !in user.attrs ==> r == Failure(AttributeError("token"))
    ensures r.Success? ==> r.value == [("username", user.attrs["username"]), ("user_token", user.attrs["token"])]
  {
    match Attr(user, "username")
    case Failure(e) => Failure(e)
    case Success(username) =>
      match Attr(user, "token")
      case Failure(e) => Failure(e)
      case Success(token) => Success([("username", username), ("user_token", token)])
  }

  /** `post(...).success`. */
  function SuccessOf(outcome: Result<Response>): (r: Result<Json>)
    ensures outcome.Success? ==> r == Success(outcome.value.success)
    ensures outcome.Failure? ==> r == Failure(outcome.error)
  {
    match outcome
    case Failure(e) => Failure(e)
    case Success(response) => Success(response.success)
  }

  /** A call whose value is discarded: it completes, or raises. */
  function Completed(outcome: Result<Response>): (r: Outcome)
    ensures r.Pass? <==> outcome.Success?
    ensures outcome.Failure? ==> r == Fail(outcome.error)
  {
    match outcome
    case Failure(e) => Fail(e)
    case Success(_) => Pass
  }

  /** `e.response` of an `ApiError` or one of its trophy subclasses. */
  function ErrorResponse(e: Error): Response
    requires IsApiError(e)
  {
    e.response
  }

  /** The keywords the formatter binds itself rather than send: `self`, `endpoint`, `url` and `encoding`. */
  const BoundKeywords: seq<string> := ["self", "endpoint", "url", "encoding"]

  /** Keyword arguments that all reach the query string: a dict none of whose keys the formatter binds. */
  predicate Plain(p: Params)
  {
    Distinct(Keys(p)) && forall i :: 0 <= i < |p| ==> p[i].0 !in BoundKeywords
  }

  /** Plain keywords hold no `encoding`, so they are sent with the default codec. */
  lemma PlainEncoding(p: Params)
    requires Plain(p)
    ensures EncodingIsUtf8(p)
  {
    assert "encoding" !in Keys(p);
  }

  /**
   * A component's request with plain keywords, on a requester whose defaults hold no `encoding`:
   * the URL is the operation's path followed by the defaults updated with the keywords, which the
   * query string gives back (`MergeGet` says which value each key then has).
   */
  lemma RequestSends(q: Requester, category: string, operation: string, p: Params)
    requires Path(category, operation).Some? && Plain(p)
    requires "encoding" !in Keys(q.formatter.queries)
    ensures var path := Path(category, operation).value;
      var merged := Merge(q.formatter.queries, p);
      && q.Plan(category, operation, Success(p)) == Success(q.formatter.FormatUrl(path) + "?" + Urlencode(merged))
      && ParseQuery(Urlencode(merged)) == Some(Stringified(merged))
  {
    var path := Path(category, operation).value;
    PathsAreAbsolute(category, operation);
    UrlOfOperation(q.formatter, category, operation, p);
    WithoutAbsent(p, ["encoding"]);
    FormatSends(q.formatter, path, p);
  }
}
