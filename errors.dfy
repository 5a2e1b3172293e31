/**
 * The records the client passes around (models/response.py, the model classes of models/)
 * and the exceptions it raises or lets through (errors.py and Python's built-in ones).
 */
module Errors {
  import opened Json
  import opened Wrappers

  /** The model classes built by `GenericModel.from_dict`. */
  datatype ModelKind = UserModel | TrophyModel | TimeModel

  /** An object of a model class: its class and its attributes. */
  datatype Instance = Instance(kind: ModelKind, attrs: map<string, Json>)

  /** An object for which `isinstance(x, User)` holds. */
  type User = u: Instance | u.kind == UserModel witness Instance(UserModel, map[])

  /**
   * A `Response`: whether the call succeeded and its payload. `message` is the attribute the
   * trophy and session components read from the response an `ApiError` carries: `None` when the
   * object has no such attribute, as for the `Response` dataclass `post` builds.
   */
  datatype Response = Response(success: Json, response: Json, message: Option<Json>)

  datatype ValueErrorReason =
    | InvalidResponseFormat(format: string)   // requester.py:93
    | VersionMismatch(required: string)       // helpers.py:45
    | PatternVersionMismatch(required: string) // data_store.py:213
    | TokenRequired                           // helpers.py:65
    | UserTokenNotSet                         // data_store.py:28
    | ArgumentMissing(name: string)           // data_store.py:33
    | NotEnoughValuesToUnpack
    | TooManyValuesToUnpack
    | InvalidIntLiteral(text: string)

  datatype TypeErrorReason =
    | UnexpectedKeyword(name: string)
    | MissingArgument(name: string)
    | MultipleValues(name: string)
    | TooManyPositional
    | NotSubscriptable
    | NotIterable
    | NotAMapping
    | ExpectedStr
    | Unhashable
    | NotConvertibleToInt
    | MixedIdTypes                            // users.py:32

  /** The three typed trophy failures of errors.py:30-39. */
  datatype TrophyErrorKind = UserAlreadyHasTrophy | IncorrectTrophyID | UserHasNotAchievedTrophy

  datatype Error =
    | AttributeError(name: string)
    | KeyError(key: Json)
    | IndexError
    | TypeError(typeReason: TypeErrorReason)
    | ValueError(valueReason: ValueErrorReason)
    | UnicodeEncodeError
    | NotImplementedError
    | ApiError(response: Response)
    | TrophyError(trophyKind: TrophyErrorKind, trophyId: Json, user: User, response: Response)
    | TransportError(detail: string)

  /** `except ApiError`: the base class and its trophy subclasses. */
  predicate IsApiError(e: Error)
  {
    e.ApiError? || e.TrophyError?
  }

  /** A value, or the exception raised instead. */
  datatype Result<+T> = Success(value: T) | Failure(error: Error)

  /** A check that either passes or raises. */
  datatype Outcome = Pass | Fail(error: Error)
}
