/**
 * The guards the components apply before a request (subcomponents/helpers.py) and the version
 * table they consult (constants.py): `instance_checker`, `api_version_guard` and `token_required`.
 */
module Helpers {
  import opened Wrappers
  import opened Json
  import opened Errors
  import opened Builtins
  import opened Endpoints

  /** The two classes the client tests arguments against. */
  datatype PyType = IntType | StrType

  /** `isinstance(x, t)`. A bool is an int, since `bool` subclasses `int`. */
  predicate IsInstance(x: Json, t: PyType)
  {
    match t
    case IntType => x.JInt? || x.JBool?
    case StrType => x.JStr?
  }

  /** `instance_checker(t, xs)`: whether some element is a `t`. */
  function InstanceChecker(t: PyType, xs: seq<Json>): (r: bool)
    ensures r <==> exists i :: 0 <= i < |xs| && IsInstance(xs[i], t)
  {
    if xs == [] then false
    else if IsInstance(xs[0], t) then true
    else
      var rest := InstanceChecker(t, xs[1..]);
      assert rest <==> exists i :: 0 <= i < |xs| && IsInstance(xs[i], t) by {
        if exists i :: 0 <= i < |xs| && IsInstance(xs[i], t) {
          var i :| 0 <= i < |xs| && IsInstance(xs[i], t);
          assert xs[1..][i - 1] == xs[i];
        }
        if rest {
          var i :| 0 <= i < |xs[1..]| && IsInstance(xs[1..][i], t);
          assert xs[i + 1] == xs[1..][i];
        }
      }
      rest
  }

  /** `VERSIONS`: each supported API version and its rank. */
  const Versions: seq<(string, int)> := [("v1", 1), ("v1_1", 2), ("v1_2", 3)]

  /** `VERSIONS[v]`: the rank of a known version; KeyError for any other key, TypeError for an unhashable one. */
  function VersionRank(v: Json): (r: Result<int>)
    ensures v.JStr? ==> (r.Success? <==> Lookup(Versions, v.s).Some?)
    ensures r.Failure? && !v.JList? && !v.JObj? ==> r.error == KeyError(v)
    ensures (v.JList? || v.JObj?) ==> r == Failure(TypeError(Unhashable))
  {
    match v
    case JStr(s) =>
      (match Lookup(Versions, s)
       case Some(n) => Success(n)
       case None => Failure(KeyError(v)))
    case JList(_) => Failure(TypeError(Unhashable))
    case JObj(_) => Failure(TypeError(Unhashable))
    case _ => Failure(KeyError(v))
  }

  /** The versions are ordered v1 < v1_1 < v1_2, and nothing else is a version. */
  lemma VersionOrder(s: string)
    ensures VersionRank(JStr("v1")) == Success(1)
    ensures VersionRank(JStr("v1_1")) == Success(2)
    ensures VersionRank(JStr("v1_2")) == Success(3)
    ensures s != "v1" && s != "v1_1" && s != "v1_2" ==> VersionRank(JStr(s)) == Failure(KeyError(JStr(s)))
  {
    LookupFound(Versions, s);
  }

  /**
   * `api_version_guard(required)` around a call: the configured version's rank is looked up
   * first, then the required one's; a lower rank raises ValueError.
   */
  function VersionGuard(configured: Json, required: string): (r: Outcome)
  {
    match VersionRank(configured)
    case Failure(e) => Fail(e)
    case Success(have) =>
      match VersionRank(JStr(required))
      case Failure(e) => Fail(e)
      case Success(need) => if have < need then Fail(ValueError(VersionMismatch(required))) else Pass
  }

  /**
   * For a known configured version, the guard fails with the mismatch error exactly when that
   * version is older than v1_2, and passes otherwise.
   */
  lemma VersionGuardV12(configured: Json)
    requires VersionRank(configured).Success?
    ensures VersionGuard(configured, "v1_2") == Pass <==> VersionRank(configured).value >= 3
    ensures VersionGuard(configured, "v1_2") != Pass ==> VersionGuard(configured, "v1_2") == Fail(ValueError(VersionMismatch("v1_2")))
  {
    VersionOrder("v1_2");
  }

  /** The default version is always new enough; the two older ones are refused. */
  lemma VersionGuardDefault()
    ensures VersionGuard(JStr(ApiVersion), "v1_2") == Pass
    ensures VersionGuard(JStr("v1"), "v1_2") == Fail(ValueError(VersionMismatch("v1_2")))
    ensures VersionGuard(JStr("v1_1"), "v1_2") == Fail(ValueError(VersionMismatch("v1_2")))
  {
    VersionOrder("");
  }

  /** `token_required`: `user.token is None` raises ValueError; a user with no `token` attribute raises AttributeError. */
  function TokenGuard(user: User): (r: Outcome)
    ensures r == Pass <==> "token" in user.attrs && user.attrs["token"] != JNone
    ensures "token" !in user.attrs ==> r == Fail(AttributeError("token"))
    ensures "token" in user.attrs && user.attrs["token"] == JNone ==> r == Fail(ValueError(TokenRequired))
  {
    match Attr(user, "token")
    case Failure(e) => Fail(e)
    case Success(token) => if token == JNone then Fail(ValueError(TokenRequired)) else Pass
  }

  /** Only `None` is refused: an empty token passes. */
  lemma EmptyTokenPasses(user: User)
    requires "token" in user.attrs && user.attrs["token"] == JStr("")
    ensures TokenGuard(user) == Pass
  {
  }

  /** A decorated call: the guard's exception, or else the wrapped call's own result unchanged. */
  function Guarded<T>(guard: Outcome, call: Result<T>): (r: Result<T>)
    ensures guard.Fail? ==> r == Failure(guard.error)
    ensures guard.Pass? ==> r == call
  {
    match guard
    case Fail(e) => Failure(e)
    case Pass => call
  }
}
