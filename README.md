# Game Jolt API client — a Dafny model

This project models the core of a Python client for the Game Jolt game API (version `v1_2`). It covers how the client:

- builds request URLs from a registry of endpoints;
- merges default and per-call query parameters and url-encodes them;
- signs a URL with an MD5 digest of the URL and the game's private key;
- posts through an abstract transport and decodes the answer into a `Response`;
- implements the user, session, trophy, friend and data-store operations on top of that.

## How the model is built

Python values are one datatype, `Json.Json`. It has the cases None, bool, int, str, list, and dict as ordered pairs.

A keyword-argument dictionary is `Params.Params`, an insertion-ordered sequence of pairs:

- `Assign` is `d[k] = v`;
- `Merge` is `a | b`;
- `Get`, `Without` and `FirstKeyIn` model lookup, `pop` and keyword binding.

Errors are one datatype, `Errors.Error`. It covers the builtin exceptions the code can raise, `ApiError`, and the three trophy errors.

Model instances (users, trophies) are `Instance(kind, attrs)`. `User` is the subset whose kind is the user model.

Some parts are parameters of the `Requests.Requester` class rather than modelled:

- the HTTP transport (`_post`) and the decoder (`evaluate`), which are abstract in the source. Each is an optional function value, and `None` stands for the abstract method that raises `NotImplementedError`;
- MD5, a function from bytes to a 16-byte digest.

Every call of `_post` is appended to the requester's `sent` log. Each component operation is a method of a class that holds the requester. Its contract states two things:

- the URL it sends, or the error it raises before sending anything;
- the value it returns, as a function of what the transport and decoder produce.

## Model

| member | source | states |
|---|---|---|
| Utils.AttrDict.GetAttr | src/gamejolt/utils.py:3-7 | an attribute read succeeds exactly for a stored key and yields its value; any other name is AttributeError naming it |
| Utils.AttrDict.SetAttr | src/gamejolt/utils.py:9-10 | the item is stored under the name and every other name reads as before |
| Utils.AttrDict.DelAttr | src/gamejolt/utils.py:12-16 | exactly that key is removed; a missing key raises AttributeError and changes nothing |
| Endpoints.LookupFound | src/gamejolt/endpoints.py:175-187 | a table lookup finds a name exactly when some entry carries it, and the value found is that entry's |
| Endpoints.RegistryContents | src/gamejolt/endpoints.py:9-37 | the registry's seven categories and the path of every operation |
| Endpoints.PathsAreAbsolute | src/gamejolt/endpoints.py:9-37 | every registered path starts with `/` |
| Endpoints.FormatQueries | src/gamejolt/endpoints.py:40-50 | an empty url gives just the encoded query; otherwise url, `?`, and the encoded query. In both cases the query part parses back to every parameter, in order, with `str` of its value |
| Endpoints.FormatQueriesEmpty | src/gamejolt/endpoints.py:50 | a non-empty url with no queries keeps a trailing `?` |
| Endpoints.FormatterSettings | src/gamejolt/endpoints.py:73-76 | `base` and `version` are taken out with the module defaults and every other keyword becomes a default query; a `self` keyword is refused |
| Endpoints.SettingsQueries | src/gamejolt/endpoints.py:73-76 | the default queries hold every keyword except `base` and `version`, with its value |
| Endpoints.Formatter.Create | src/gamejolt/endpoints.py:73-76 | construction succeeds exactly when the settings do, and the new formatter holds them |
| Endpoints.Formatter.FormatUrl | src/gamejolt/endpoints.py:78-91 | the full URL is base, then version, then endpoint, each recoverable from its position: no slash is added or removed |
| Endpoints.Formatter.Format | src/gamejolt/endpoints.py:113-124 | a keyword `self` or `endpoint` is a TypeError naming that keyword twice given; otherwise a keyword `url` is a TypeError for `url`; otherwise the URL is the full path, `?`, and the encoded defaults updated by the call keywords other than `encoding`, failing exactly when `encoding` remains among the merged queries |
| Endpoints.Formatter.FormatQueriesWith | src/gamejolt/endpoints.py:93-111 | the call queries override the defaults (`self.queries \| queries`); an `encoding` entry in the merge clashes with the codec parameter |
| Endpoints.Formatter.GetCategory | src/gamejolt/endpoints.py:135-150 | a category attribute is a fresh wrapper bound to this formatter and that category's table, or AttributeError |
| Endpoints.EndpointWrapper.Operation | src/gamejolt/endpoints.py:175-187 | an operation attribute is the path bound to the formatter, or AttributeError |
| Endpoints.BoundEndpoint.Call | src/gamejolt/endpoints.py:186 | a call without positionals formats the path; surplus positionals are a TypeError unless a keyword clash is reported first |
| Endpoints.Formatter.Endpoint | src/gamejolt/endpoints.py:135-187 | `formatter.CATEGORY.OPERATION(...)` evaluates to the URL the model's `Url` describes |
| Endpoints.UrlOfOperation | src/gamejolt/endpoints.py:113-124 | a known operation formats its path; an unknown category or operation fails with AttributeError naming it |
| Endpoints.FormatSends | src/gamejolt/endpoints.py:113-124 | with clash-free keywords the URL is the full path, `?`, and the url-encoded merged queries, in which every call keyword overrides its default |
| Endpoints.FormatExample | src/gamejolt/endpoints.py:4-5 | the default base and version with game and format queries give `https://api.gamejolt.com/api/game/v1_2/users?game_id=1&format=json&user_id=5` |
| UrlEncoding.PercentEncode | src/gamejolt/endpoints.py:50 | each byte becomes three characters |
| UrlEncoding.QuoteUnreserved | src/gamejolt/endpoints.py:50 | `quote_plus` leaves a string of unreserved characters unchanged |
| UrlEncoding.QuoteChars | src/gamejolt/endpoints.py:50 | a quoted string holds only unreserved characters, `+` and `%`, and never `&` or `=` |
| UrlEncoding.QuoteRoundTrip | src/gamejolt/endpoints.py:50 | unquoting a quoted string gives it back |
| UrlEncoding.QuoteInjective | src/gamejolt/endpoints.py:50 | distinct strings quote differently |
| UrlEncoding.PairRoundTrip | src/gamejolt/endpoints.py:50 | one encoded `key=value` pair parses back to the key and `str` of the value |
| UrlEncoding.UrlencodeRoundTrip | src/gamejolt/endpoints.py:50 | parsing an encoded query gives back every key with `str` of its value, in order |
| Codecs.Utf8RoundTrip | src/gamejolt/endpoints.py:50 | the UTF-8 encoding of a character decodes back to it |
| Codecs.AsciiEncode | src/gamejolt/requester.py:33 | encoding as ASCII succeeds exactly when every character is below 128, and then maps each to its code |
| Requests.Hex | src/gamejolt/requester.py:33 | `hexdigest` gives two lower-case hex digits per byte |
| Requests.HexRoundTrip | src/gamejolt/requester.py:33 | the hex digest determines the digest bytes |
| Requests.GenerateSignature | src/gamejolt/requester.py:22-33 | the signature exists exactly when url and key are ASCII; otherwise UnicodeEncodeError. It is 32 lower-case hex digits of the MD5 of url plus key |
| Requests.SettingsKeywordClash | src/gamejolt/requester.py:76-95 | a further keyword named `self`, `key`, `game` or `response_format`, or (with a supported format) `game_id` or `format`, is a TypeError for a keyword given twice; a call free of those names is never refused that way |
| Requests.SettingsFormatCheck | src/gamejolt/requester.py:92-95 | construction fails with ValueError exactly for an unsupported response format |
| Requests.SettingsSeedQueries | src/gamejolt/requester.py:95 | with a supported format, the default queries are `game_id`, `format`, then the other keywords |
| Requests.Requester.Create | src/gamejolt/requester.py:76-96 | a requester is built exactly when the settings succeed, holding the key and a formatter with those settings |
| Requests.Requester.FormatSignature | src/gamejolt/requester.py:99-108 | signing fails exactly when the signature cannot be computed, with UnicodeEncodeError |
| Requests.SignatureQuery | src/gamejolt/requester.py:99-108 | the query of a hex signature is `signature=` and the signature, with nothing escaped |
| Requests.Requester.FormatSignatureShape | src/gamejolt/requester.py:99-108 | a signed URL is the URL, `&signature=`, and the signature, and splits back into the two |
| Requests.ToResponse | src/gamejolt/requester.py:119 | a response is built exactly when the decoded value has `success` and `response` items, and it carries those two |
| Requests.Requester.Exchange | src/gamejolt/requester.py:110-148 | with no transport it is NotImplementedError; a built response never carries a message |
| Requests.Requester.ExchangeDecoded | src/gamejolt/requester.py:117-119 | when transport and decoder succeed, the result is the response built from the decoded value, and a `success` of false still returns normally |
| Requests.Requester.Post | src/gamejolt/requester.py:110-130 | the URL is appended to the sent log and the result is the exchange for it |
| Requests.Requester.Request | src/gamejolt/requester.py:110-119 | a URL that fails to build sends nothing and returns that error; otherwise it is posted |
| Models.Construct | src/gamejolt/models/users.py:32-43 | a constructed instance has the requested kind |
| Models.ConstructSpec | src/gamejolt/models/users.py:32-58 | `cls(**kwargs)`: a keyword naming no field is a TypeError naming it (a keyword `self` is given twice, since `__init__` binds `self` itself; any other is unexpected), raised even when fields are also missing; with only field keywords, a missing field is a TypeError naming it; with every field given, it succeeds exactly when `int(id)` does (User, Trophy), the failure being `int`'s, and the record holds exactly the fields, each its keyword's value, `id` as `int(id)` |
| Models.PostInit | src/gamejolt/models/users.py:57-58 | `__post_init__` keeps the kind, converting `id` with `int()` where the model does so |
| Models.PostInitValues | src/gamejolt/models/users.py:57-58 | `__post_init__` succeeds when `int(id)` does, keeps every other attribute and the set of attributes, and replaces `id` with `int(id)` |
| Models.ConstructFrom | src/gamejolt/subcomponents/users.py:40 | `cls(**data)` of a non-mapping is a TypeError; otherwise it is the keyword construction |
| Models.RestrictTwice | src/gamejolt/models/generic_model.py:32-34 | keeping only the fields is idempotent |
| Models.ExtraKeysIrrelevant | src/gamejolt/models/generic_model.py:22-34 | `from_dict` ignores every key that is not a field |
| Models.FromDictFields | src/gamejolt/models/generic_model.py:22-34 | `from_dict` of a dict succeeds exactly when every field is present and `int(id)` works where the model converts it; the object then has exactly the fields, with the input's values and `id` converted |
| Models.FromDictSucceeds | src/gamejolt/models/generic_model.py:22-34 | `from_dict` of a dict succeeds if and only if every declared field is present and, where the model converts `id`, `int(id)` succeeds |
| Models.FromDictValues | src/gamejolt/models/generic_model.py:22-34 | when every field is present, the object has exactly the declared fields, each with the input's value, except a converted `id`, which holds `int(id)` |
| Models.FromDictAllElementwise | src/gamejolt/models/generic_model.py:36-46 | converting a list succeeds exactly when each element does, element by element |
| Models.FromListOfList | src/gamejolt/models/generic_model.py:36-46 | `from_list` of a list is the element-wise `from_dict` |
| Builtins.IntDecimalRoundTrip | src/gamejolt/models/users.py:58 | `int(str(i)) == i` |
| Builtins.ToInt | src/gamejolt/models/users.py:58 | `int()` of an int is itself; of None, a list or a dict it is a TypeError |
| Builtins.Item | src/gamejolt/subcomponents/friends.py:31 | `d[k]` succeeds on a dict exactly for a present key and yields its value |
| Builtins.Index | src/gamejolt/subcomponents/trophies.py:72 | `xs[i]` within bounds is that element; out of bounds it is IndexError |
| Builtins.Attr | src/gamejolt/subcomponents/helpers.py:64 | an attribute read succeeds exactly for a present attribute, else AttributeError naming it |
| Params.MergeGet | src/gamejolt/endpoints.py:111 | a key of the merge reads from the right operand when present there, else from the left |
| Params.MergeKeys | src/gamejolt/endpoints.py:111 | the merge keeps the left operand's keys in place and appends the right operand's new keys in their order |
| Params.AssignGet | src/gamejolt/subcomponents/trophies.py:66 | after `d[k] = v`, `k` reads `v` and every other key reads as before |
| Helpers.InstanceChecker | src/gamejolt/subcomponents/helpers.py:9-25 | true exactly when some element is an instance of the type |
| Helpers.VersionRank | src/gamejolt/subcomponents/helpers.py:44 | a version string has a rank exactly when it is a known version; an unknown value is KeyError, a list or dict is unhashable |
| Helpers.VersionOrder | src/gamejolt/constants.py:11 | `v1 < v1_1 < v1_2`, and every other string is unknown |
| Helpers.VersionGuardV12 | src/gamejolt/subcomponents/helpers.py:28-52 | the `v1_2` guard passes exactly for a configured version at least `v1_2`; otherwise ValueError |
| Helpers.VersionGuardDefault | src/gamejolt/subcomponents/helpers.py:28-52 | the default version passes the guard; `v1` and `v1_1` are refused |
| Helpers.TokenGuard | src/gamejolt/subcomponents/helpers.py:55-68 | passes exactly when the user has a token that is not None; no token attribute is AttributeError, a None token is ValueError |
| Helpers.EmptyTokenPasses | src/gamejolt/subcomponents/helpers.py:64 | an empty-string token passes, since only None is refused |
| Helpers.Guarded | src/gamejolt/subcomponents/helpers.py:43-48 | a failing guard raises before the wrapped call; a passing guard returns its result |
| Calls.UsernameAndToken | src/gamejolt/subcomponents/sessions.py:26-28 | the credentials are `username` then `user_token`; a missing attribute is AttributeError naming it |
| Calls.Completed | src/gamejolt/subcomponents/data_store.py:104 | a call that returns None passes exactly when the post succeeded |
| Calls.RequestSends | src/gamejolt/requester.py:110-119 | plain parameters for a known operation give the URL path, `?`, and the encoded default-plus-call queries, which parse back |
| Sessions.SessionParamsSpec | src/gamejolt/subcomponents/sessions.py:16-28 | the session parameters exist exactly when the token guard passes and the credentials are readable, and they are the credentials |
| Sessions.CheckParamsSpec | src/gamejolt/subcomponents/sessions.py:44-45 | below `v1_2` the check is refused before the token is looked at; from `v1_2` on it uses the session parameters |
| Sessions.CheckAnswerSpec | src/gamejolt/subcomponents/sessions.py:55-64 | success yields the `success` field. An ApiError becomes false only when its message is None, and re-raises otherwise; other errors pass through |
| Sessions.CheckOfBuiltResponse | src/gamejolt/subcomponents/sessions.py:61 | an ApiError carrying a response built by `post` has no message, so `check` raises AttributeError |
| Sessions.SessionUrl | src/gamejolt/subcomponents/sessions.py:26-28 | a session URL carries the defaults with `username` and `user_token` set from the user, and nothing more |
| Sessions.SessionsComponent.Call | src/gamejolt/subcomponents/sessions.py:26-28 | posts the operation's URL (or raises before sending) and returns `success` |
| Sessions.SessionsComponent.Open | src/gamejolt/subcomponents/sessions.py:16-28 | `open` posts `/sessions/open` with the credentials and returns `success` |
| Sessions.SessionsComponent.Ping | src/gamejolt/subcomponents/sessions.py:30-42 | `ping` posts `/sessions/ping` with the credentials and returns `success` |
| Sessions.SessionsComponent.Close | src/gamejolt/subcomponents/sessions.py:66-78 | `close` posts `/sessions/close` with the credentials and returns `success` |
| Sessions.SessionsComponent.Check | src/gamejolt/subcomponents/sessions.py:44-64 | `check` is guarded by version and token, posts `/sessions/check`, and answers as `CheckAnswerSpec` states |
| Friends.FriendsParamsSpec | src/gamejolt/subcomponents/friends.py:15-30 | below `v1_2` refused; otherwise the token guard, then `user_token` and `username` |
| Friends.FriendListSpec | src/gamejolt/subcomponents/friends.py:31 | the result is the `friends` item of the response, when present |
| Friends.FriendsUrl | src/gamejolt/subcomponents/friends.py:28-30 | the friends URL carries the defaults with the user's token and username |
| Friends.FriendsComponent.Fetch | src/gamejolt/subcomponents/friends.py:15-31 | posts `/friends`, or raises before sending, and returns the friend list |
| Users.ConcatStrs | src/gamejolt/subcomponents/users.py:37 | `"".join` succeeds exactly when every element is a str, giving their concatenation |
| Users.MixedIdsRefused | src/gamejolt/subcomponents/users.py:30-32 | several users mixing ints and strs are refused with TypeError, and only they |
| Users.FetchByIds | src/gamejolt/subcomponents/users.py:34-35 | all-int users are sent as `user_id`, joined by commas; splitting on commas gives back each id |
| Users.IdsRoundTrip | src/gamejolt/subcomponents/users.py:35 | ints and bools joined with commas split back into exactly their `str`s, and each int's `str` parses back to that int |
| Users.NoCommaInDecimal | src/gamejolt/subcomponents/users.py:35 | the decimal form of an int has no comma |
| Users.FetchByName | src/gamejolt/subcomponents/users.py:36-37 | without ints the users are sent as one concatenated `username`; a single name is sent as is |
| Users.ConstructAllElementwise | src/gamejolt/subcomponents/users.py:41 | building every user succeeds exactly when each does, element by element |
| Users.FetchResultOfList | src/gamejolt/subcomponents/users.py:39-41 | one requested user gives the first listed user; several give all of them |
| Users.FetchUrl | src/gamejolt/subcomponents/users.py:34-38 | the fetch URL carries the defaults plus exactly the one id or name parameter |
| Users.AuthUrl | src/gamejolt/subcomponents/users.py:76-89 | the auth URL carries the defaults plus `username` and `user_token` as given |
| Users.FetchShadowed | src/gamejolt/subcomponents/users.py:43-74 | with the stubs defined after it, every `fetch` call raises NotImplementedError, though parameters exist for it |
| Users.FetchIntended | src/gamejolt/subcomponents/users.py:17-41 | with the implementation defined last, `fetch` computes its parameters |
| Users.UsersComponent.Fetch | src/gamejolt/subcomponents/users.py:17-41 | posts `/users` with the id or name parameter, or raises before sending, and returns one user or a list |
| Users.UsersComponent.Authenticate | src/gamejolt/subcomponents/users.py:76-89 | posts `/users/auth` with the given name and token and returns the response |
| Trophies.FetchParamsSpec | src/gamejolt/subcomponents/trophies.py:49-70 | parameters exist exactly when the token guard passes and the credentials are readable. They are the credentials, then `trophy_id` and `achieved` where given |
| Trophies.OptionalParts | src/gamejolt/subcomponents/trophies.py:65-68 | `trophy_id` joins the ids with commas only when an id is given; `achieved` only when not None |
| Trophies.FetchResultSpec | src/gamejolt/subcomponents/trophies.py:71-73 | a single trophy id gives the first listed trophy; otherwise the whole list |
| Trophies.RaisedErrorSpec | src/gamejolt/subcomponents/trophies.py:116-154 | each of the three known messages maps to its trophy error with id, user and response; any other message re-raises |
| Trophies.RaisedErrorKeepsResponse | src/gamejolt/subcomponents/trophies.py:116-154 | a trophy error carries the original response |
| Trophies.CaughtBuiltResponse | src/gamejolt/subcomponents/trophies.py:131 | an ApiError carrying a response built by `post` has no message, so the error mapping raises AttributeError |
| Trophies.AchieveParamsSpec | src/gamejolt/subcomponents/trophies.py:75-114 | add and remove send the credentials and `trophy_id`; remove is refused below `v1_2` before the token is looked at |
| Trophies.AchieveUrl | src/gamejolt/subcomponents/trophies.py:86-91 | the achieve URLs carry the defaults with the credentials and the trophy id |
| Trophies.TrophiesComponent.AchieveOutcome | src/gamejolt/subcomponents/trophies.py:88-93 | an error raised before the `try` propagates; errors of the post go through the mapping |
| Trophies.TrophiesComponent.Fetch | src/gamejolt/subcomponents/trophies.py:49-73 | builds the parameters step by step into the declared `FetchParams`, posts `/trophies`, and returns one trophy or a list |
| Trophies.TrophiesComponent.AddAchieved | src/gamejolt/subcomponents/trophies.py:75-93 | posts `/trophies/add-achieved` and maps its errors |
| Trophies.TrophiesComponent.RemoveAchieved | src/gamejolt/subcomponents/trophies.py:95-114 | the version guard, then posts `/trophies/remove-achieved` and maps its errors |
| Trophies.TrophiesComponent.Achieve | src/gamejolt/subcomponents/trophies.py:86-93 | the shared body of both: plan, post, catch |
| DataStore.CheckedParamsSpec | src/gamejolt/subcomponents/data_store.py:17-34 | user form: credentials with a non-None token and a given key, key first. Global form: just the key. Each missing value is reported with its ValueError |
| DataStore.CheckedEntries | src/gamejolt/subcomponents/data_store.py:17-34 | the checked arguments form a plain dict holding the key (or pattern) and, for a user, the name and token |
| DataStore.GlobalIgnoresKeyValue | src/gamejolt/subcomponents/data_store.py:30-34 | in the global form the second argument is never read |
| DataStore.DataStoreComponent.UserOrKeyChecker | src/gamejolt/subcomponents/data_store.py:17-34 | the imperative checker computes exactly `CheckedParams` |
| DataStore.SetParamsSpec | src/gamejolt/subcomponents/data_store.py:84-104 | set succeeds exactly when the key check does, and adds `data` from the right argument of each form |
| DataStore.UpdateParamsSpec | src/gamejolt/subcomponents/data_store.py:112-138 | the user form needs exactly two more arguments and the global form at least one; they become `operation` and `value` |
| DataStore.GetKeysNeedsPattern | src/gamejolt/subcomponents/data_store.py:189-215 | a user without a pattern is always refused; the global form takes the target as its pattern |
| DataStore.PatternGuardAgrees | src/gamejolt/subcomponents/data_store.py:209-215 | the pattern version check passes exactly when the `v1_2` guard does, with its own message |
| DataStore.KeysAttributeFails | src/gamejolt/subcomponents/data_store.py:217 | `.keys` of a response always raises AttributeError, even when a `keys` item is there |
| DataStore.KeyListSpec | src/gamejolt/subcomponents/data_store.py:217 | the key list is the response's `keys` item, present exactly when the key is |
| DataStore.CheckedUrl | src/gamejolt/subcomponents/data_store.py:57 | a data-store URL carries the defaults with the checked key and credentials |
| DataStore.DataStoreComponent.Fetch | src/gamejolt/subcomponents/data_store.py:43-57 | posts `/data-store/fetch` with the checked parameters, or raises before sending |
| DataStore.DataStoreComponent.Remove | src/gamejolt/subcomponents/data_store.py:161-173 | posts `/data-store/remove` with the checked parameters, or raises before sending |
| DataStore.DataStoreComponent.Set | src/gamejolt/subcomponents/data_store.py:84-104 | posts `/data-store/set` and returns nothing, passing only on success |
| DataStore.DataStoreComponent.Update | src/gamejolt/subcomponents/data_store.py:112-138 | unpacks the arguments step by step into the declared `UpdateParams` and posts `/data-store/update` |
| DataStore.DataStoreComponent.GetKeys | src/gamejolt/subcomponents/data_store.py:189-217 | version and pattern checks, posts `/data-store/get-keys`, and returns the key list (the corrected result; as written, `.keys` raises AttributeError after the request, see `DataStore.KeysAttributeFails` under Findings) |

## Left out

- HTTP, the response decoder and MD5 are parameters of the requester: `_post` and `evaluate` are abstract in the source, and `hashlib` is outside the client.
- Endpoints.Formatter.Format: a call keyword named `encoding` binds to `urlencode`'s codec. Only UTF-8 is modelled, so the formatter functions require `encoding` to be absent or `"utf-8"`.
- `int()` is modelled on ASCII digits and whitespace only. Python's limit of 4300 digits and its non-ASCII digits are not modelled.
- `str()` of containers follows `repr` exactly for ASCII only. The escapes for non-printable non-ASCII characters are not modelled, and floats are not modelled at all.
- `AttrDict.__dir__` and `__repr__` (utils.py) only build listings and text for display, so they are not modelled.
- Dict methods shadowing `AttrDict` attribute names are not modelled, and neither is the wrappers' own attribute names (`formatter`, `endpoints`, the `__slots__`) shadowing operations. Regular `Formatter` attributes shadowing categories are also not modelled.
- The wiring modules (`gamejolt.py`, `subcomponents/__init__.py`, `subcomponents/component.py`) are not part of this model. The `time` component and `Time.datetime` (models/time.py:38-41), which reads the clock's time zone, are not part of this model either. The `Time` dataclass itself is modelled as `TimeModel`.
- `component.py` imports a `RequesterAbstract` that `requester.py` does not define. The model uses the requester class as defined.
- Components post URLs without a signature: no component calls `format_signature`, so the model follows the code, though the API documentation expects every URL to be signed.
- `post` (requester.py:110-119) never raises `ApiError`, and no other code in the client raises it: a failed call comes back as a `Response` whose `success` is false. Yet `sessions.py:61` and `trophies.py:92` and `:113` catch `ApiError`. The model follows the code, so those handlers run only when the transport or the decoder fails with `ApiError`. Those two stand for a subclass's `_post` and `evaluate` (`Requests.Requester.ExchangeDecoded`).
- The token guard (helpers.py:64) refuses only a `None` token. An empty-string token passes it (`Helpers.EmptyTokenPasses`).
- The `Response` dataclass (models/response.py:3-14) declares only `success` and `response`, yet `sessions.py:62` and `trophies.py:132` read `message` from the response an `ApiError` carries. The model gives `Response` an optional `message` attribute, absent on every response `post` builds.
- Users built by `fetch` have no `token` attribute, so the model raises AttributeError where such a user is passed to a token-guarded call.
- Python's default arguments are passed explicitly in the model. `response_format="json"` (requester.py:76) is a parameter of `Requests.Requester.Create`. The `None` defaults of data_store.py (lines 43, 84, 161, 182, 190) and of trophies.py:51 are `Json` arguments, with `JNone` for the default. `_raise_error`'s defaults (trophies.py:117) are never used, since both callers (lines 93 and 114) pass all three arguments, so `Trophies.RaisedError` takes them as required. Every call the source can make can still be expressed.
- `DataStore.Target`: a target that is neither a `User` nor a key is modelled only as a Json key.
- Scores operations are registered endpoints with no component in the source, so only their paths are modelled.

## Findings

| source | as written | input that shows it | evidently intended | confidence | as-written member | corrected member |
|---|---|---|---|---|---|---|
| src/gamejolt/subcomponents/users.py:43-74 | three `@overload` stubs are defined after the `fetch` implementation; the class keeps the last definition, and `typing.overload` turns every stub into a function that raises `NotImplementedError` | `users.fetch(1)` | the implementation at lines 17-41 defined after the stubs | not executed; the last definition of a name in a class body is the one bound | Users.FetchShadowed | Users.FetchIntended |
| src/gamejolt/subcomponents/data_store.py:217 | `get_keys` returns `.keys` of the `Response`, a dataclass with only `success` and `response` | `get_keys("pattern*")` with any successful answer | the `keys` item of `response.response` | not executed; the dataclass at models/response.py:3-14 has no `keys` | DataStore.KeysAttributeFails | DataStore.KeyListSpec |
