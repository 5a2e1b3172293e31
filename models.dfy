/**
 * Model records built from response payloads: `GenericModel.from_dict` (keep only the declared
 * fields, then construct), `from_list`, and the dataclass constructors of User, Trophy and Time,
 * whose `__post_init__` turns `id` into an int for User and Trophy.
 */
module Models {
  import opened Json
  import opened Wrappers
  import opened Errors
  import opened Params
  import opened Builtins

  /** The fields of `User`, in declaration order. */
  const UserFields: seq<string> :=
    ["id", "type", "username", "avatar_url", "signed_up", "signed_up_timestamp",
     "last_logged_in", "last_logged_in_timestamp", "status", "developer_name",
     "developer_website", "developer_description"]

  /** The fields of `Trophy`, in declaration order. */
  const TrophyFields: seq<string> := ["id", "title", "description", "difficulty", "image_url", "achieved"]

  /** The fields of `Time`, in declaration order. */
  const TimeFields: seq<string> := ["timestamp", "timezone", "year", "month", "day", "hour", "minute", "second"]

  /** The declared fields of each model class. */
  function Fields(kind: ModelKind): seq<string>
  {
    match kind
    case UserModel => UserFields
    case TrophyModel => TrophyFields
    case TimeModel => TimeFields
  }

  /** Whether `__post_init__` normalises `id` with `int(...)`. */
  predicate NormalisesId(kind: ModelKind)
  {
    kind == UserModel || kind == TrophyModel
  }

  /** `{k: v for k, v in data.items() if k in fields}`. */
  function Restrict(data: Params, fields: seq<string>): (r: Params)
    ensures forall k :: k in Keys(r) ==> k in fields
  {
    if data == [] then []
    else if data[0].0 in fields then [data[0]] + Restrict(data[1..], fields)
    else Restrict(data[1..], fields)
  }

  /** The first keyword argument that names no field, if any. */
  function FirstUnexpected(kwargs: Params, fields: seq<string>): (r: Option<string>)
    ensures r.None? <==> forall k :: k in Keys(kwargs) ==> k in fields
    ensures r.Some? ==> r.value in Keys(kwargs) && r.value !in fields
  {
    if kwargs == [] then None
    else if kwargs[0].0 !in fields then Some(kwargs[0].0)
    else FirstUnexpected(kwargs[1..], fields)
  }

  /** The first field no keyword argument supplies, if any. */
  function FirstMissing(fields: seq<string>, given: seq<string>): (r: Option<string>)
    ensures r.None? <==> forall f :: f in fields ==> f in given
    ensures r.Some? ==> r.value in fields && r.value !in given
  {
    if fields == [] then None
    else if fields[0] !in given then Some(fields[0])
    else FirstMissing(fields[1..], given)
  }

  /** The attributes the dataclass `__init__` assigns, then `__post_init__`. */
  function PostInit(kind: ModelKind, attrs: map<string, Json>): (r: Result<Instance>)
    requires "id" in attrs || !NormalisesId(kind)
    ensures r.Success? ==> r.value.kind == kind
  {
    if !NormalisesId(kind) then Success(Instance(kind, attrs))
    else
      match ToInt(attrs["id"])
      case Success(n) => Success(Instance(kind, attrs["id" := JInt(n)]))
      case Failure(e) => Failure(e)
  }

  /** The attributes `__init__` assigns: each field given as a keyword, with that keyword's value. */
  function Attributes(fields: seq<string>, kwargs: Params): map<string, Json>
  {
    map f | f in fields && f in Keys(kwargs) :: Get(kwargs, f).value
  }

  /**
   * `cls(**kwargs)`: every keyword must be a field and every field must be given. The generated
   * `__init__` also has a parameter `self`, already bound, so a keyword `self` is given twice.
   */
  function Construct(kind: ModelKind, kwargs: Params): (r: Result<Instance>)
    ensures r.Success? ==> r.value.kind == kind
  {
    match FirstUnexpected(kwargs, Fields(kind))
    case Some(k) => Failure(TypeError(if k == "self" then MultipleValues(k) else UnexpectedKeyword(k)))
    case None =>
      match FirstMissing(Fields(kind), Keys(kwargs))
      case Some(f) => Failure(TypeError(MissingArgument(f)))
      case None =>
        PostInit(kind, Attributes(Fields(kind), kwargs))
  }

  /**
   * `cls(**kwargs)` on a dataclass: a keyword naming no field is a TypeError, raised before any
   * missing field is looked for (a keyword `self` is given twice, any other is unexpected); with only field keywords, a field left out is a TypeError naming
   * it; with every field given, `__post_init__` decides, and the record holds exactly the fields,
   * each with its keyword's value, `id` holding `int(id)` for User and Trophy.
   */
  lemma ConstructSpec(kind: ModelKind, kwargs: Params)
    ensures var r := Construct(kind, kwargs);
      (exists k :: k in Keys(kwargs) && k !in Fields(kind)) ==>
        r.Failure? && r.error.TypeError? &&
        ((r.error.typeReason.UnexpectedKeyword? && r.error.typeReason.name != "self") ||
         r.error.typeReason == MultipleValues("self")) &&
        r.error.typeReason.name in Keys(kwargs) && r.error.typeReason.name !in Fields(kind)
    ensures var r := Construct(kind, kwargs);
      "self" in Keys(kwargs) && (forall k :: k in Keys(kwargs) && k !in Fields(kind) ==> k == "self") ==>
        r == Failure(TypeError(MultipleValues("self")))
    ensures var r := Construct(kind, kwargs);
      (forall k :: k in Keys(kwargs) ==> k in Fields(kind)) && (exists f :: f in Fields(kind) && f !in Keys(kwargs)) ==>
        r.Failure? && r.error.TypeError? && r.error.typeReason.MissingArgument? &&
        r.error.typeReason.name in Fields(kind) && r.error.typeReason.name !in Keys(kwargs)
    ensures var r := Construct(kind, kwargs);
      (forall k :: k in Keys(kwargs) ==> k in Fields(kind)) && (forall f :: f in Fields(kind) ==> f in Keys(kwargs)) ==>
        && (r.Success? <==> (NormalisesId(kind) ==> ToInt(Get(kwargs, "id").value).Success?))
        && (r.Failure? ==> NormalisesId(kind) && r.error == ToInt(Get(kwargs, "id").value).error)
        && (r.Success? ==>
              && r.value.kind == kind
              && r.value.attrs.Keys == set f | f in Fields(kind)
              && (forall f :: f in Fields(kind) && (f != "id" || !NormalisesId(kind)) ==> r.value.attrs[f] == Get(kwargs, f).value)
              && (NormalisesId(kind) ==> r.value.attrs["id"] == JInt(ToInt(Get(kwargs, "id").value).value)))
  {
    var fields := Fields(kind);
    ConstructRefused(kind, kwargs);
    assert "id" in fields || !NormalisesId(kind);
    if (forall k :: k in Keys(kwargs) ==> k in fields) && (forall f :: f in fields ==> f in Keys(kwargs)) {
      var attrs := Attributes(fields, kwargs);
      assert attrs.Keys == set f | f in fields;
      assert Construct(kind, kwargs) == PostInit(kind, attrs);
      if !NormalisesId(kind) || ToInt(attrs["id"]).Success? {
        PostInitValues(kind, fields, attrs, kwargs);
      }
    }
  }

  /** No model declares a field named `self`. */
  lemma SelfIsNoField(kind: ModelKind)
    ensures "self" !in Fields(kind)
  {
    var fields := Fields(kind);
    forall i | 0 <= i < |fields| ensures fields[i] != "self" {
      assert |fields[i]| != 4 || fields[i][0] != 's';
    }
  }

  /** The keyword checks of `cls(**kwargs)`: the first keyword naming no field decides the TypeError. */
  lemma ConstructRefused(kind: ModelKind, kwargs: Params)
    ensures var r := Construct(kind, kwargs);
      (exists k :: k in Keys(kwargs) && k !in Fields(kind)) ==>
        r.Failure? && r.error.TypeError? &&
        ((r.error.typeReason.UnexpectedKeyword? && r.error.typeReason.name != "self") ||
         r.error.typeReason == MultipleValues("self")) &&
        r.error.typeReason.name in Keys(kwargs) && r.error.typeReason.name !in Fields(kind)
    ensures var r := Construct(kind, kwargs);
      "self" in Keys(kwargs) && (forall k :: k in Keys(kwargs) && k !in Fields(kind) ==> k == "self") ==>
        r == Failure(TypeError(MultipleValues("self")))
    ensures var r := Construct(kind, kwargs);
      (forall k :: k in Keys(kwargs) ==> k in Fields(kind)) && (exists f :: f in Fields(kind) && f !in Keys(kwargs)) ==>
        r.Failure? && r.error.TypeError? && r.error.typeReason.MissingArgument? &&
        r.error.typeReason.name in Fields(kind) && r.error.typeReason.name !in Keys(kwargs)
  {
    var first := FirstUnexpected(kwargs, Fields(kind));
    if first.Some? {
      assert Construct(kind, kwargs) ==
        Failure(TypeError(if first.value == "self" then MultipleValues(first.value) else UnexpectedKeyword(first.value)));
    }
    if "self" in Keys(kwargs) {
      SelfIsNoField(kind);
    }
  }

  /** `cls(**data)`: the value must be a mapping. */
  function ConstructFrom(kind: ModelKind, data: Json): (r: Result<Instance>)
    ensures !data.JObj? ==> r == Failure(TypeError(NotAMapping))
    ensures data.JObj? ==> r == Construct(kind, data.entries)
  {
    match data
    case JObj(entries) => Construct(kind, entries)
    case _ => Failure(TypeError(NotAMapping))
  }

  /** `cls.from_dict(data)`. Anything but a dict has no `items` method. */
  function FromDict(kind: ModelKind, data: Json): Result<Instance>
  {
    match data
    case JObj(entries) => Construct(kind, Restrict(entries, Fields(kind)))
    case _ => Failure(AttributeError("items"))
  }

  function FromDictAll(kind: ModelKind, ds: seq<Json>): Result<seq<Instance>>
  {
    if ds == [] then Success([])
    else
      match FromDict(kind, ds[0])
      case Failure(e) => Failure(e)
      case Success(x) =>
        match FromDictAll(kind, ds[1..])
        case Failure(e) => Failure(e)
        case Success(xs) => Success([x] + xs)
  }

  /** `cls.from_list(data)`: `from_dict` of each element in iteration order; the first failure propagates. */
  function FromList(kind: ModelKind, data: Json): Result<seq<Instance>>
  {
    match Iterate(data)
    case Failure(e) => Failure(e)
    case Success(ds) => FromDictAll(kind, ds)
  }

  lemma {:induction false} RestrictGet(data: Params, fields: seq<string>, k: string)
    ensures Get(Restrict(data, fields), k) == if k in fields then Get(data, k) else None
  {
    if data != [] {
      RestrictGet(data[1..], fields, k);
    }
  }

  lemma {:induction false} RestrictTwice(data: Params, fields: seq<string>)
    ensures Restrict(Restrict(data, fields), fields) == Restrict(data, fields)
  {
    if data != [] {
      RestrictTwice(data[1..], fields);
    }
  }

  /** Keys that are not declared fields never matter: `from_dict(d)` equals `from_dict` of `d` restricted to the fields. */
  lemma ExtraKeysIrrelevant(kind: ModelKind, entries: Params)
    ensures FromDict(kind, JObj(entries)) == FromDict(kind, JObj(Restrict(entries, Fields(kind))))
  {
    RestrictTwice(entries, Fields(kind));
  }

  /** The keywords `from_dict` passes on: the input's entries for declared fields, and nothing else. */
  lemma RestrictedKeywords(kind: ModelKind, entries: Params)
    ensures var kw := Restrict(entries, Fields(kind));
      && FirstUnexpected(kw, Fields(kind)).None?
      && forall k :: Get(kw, k) == if k in Fields(kind) then Get(entries, k) else None
  {
    forall k ensures Get(Restrict(entries, Fields(kind)), k) == if k in Fields(kind) then Get(entries, k) else None {
      RestrictGet(entries, Fields(kind), k);
    }
  }

  /** `from_dict` of a dict succeeds exactly when every declared field is present and, for User and Trophy, `int(id)` succeeds. */
  lemma FromDictSucceeds(kind: ModelKind, entries: Params)
    ensures FromDict(kind, JObj(entries)).Success? <==>
      && (forall f :: f in Fields(kind) ==> f in Keys(entries))
      && (NormalisesId(kind) ==> ToInt(Get(entries, "id").value).Success?)
  {
    RestrictedKeywords(kind, entries);
    assert "id" in Fields(kind) || !NormalisesId(kind);
  }

  /** With every field present, the restricted keywords pass both checks of `__init__` and give each field its input value. */
  lemma RestrictedAttributes(fields: seq<string>, entries: Params)
    requires forall f :: f in fields ==> f in Keys(entries)
    ensures var kw := Restrict(entries, fields);
      && FirstUnexpected(kw, fields).None? && FirstMissing(fields, Keys(kw)).None?
      && var attrs := Attributes(fields, kw);
      && attrs.Keys == set f | f in fields
      && forall f :: f in fields ==> attrs[f] == Get(entries, f).value
  {
    var kw := Restrict(entries, fields);
    forall f | f in fields ensures Get(kw, f) == Get(entries, f) && f in Keys(kw) {
      RestrictGet(entries, fields, f);
    }
  }

  /** `__post_init__` keeps the attributes `__init__` assigned, except `id`, which becomes `int(id)`. */
  lemma PostInitValues(kind: ModelKind, fields: seq<string>, attrs: map<string, Json>, entries: Params)
    requires "id" in fields || !NormalisesId(kind)
    requires attrs.Keys == set f | f in fields
    requires forall f :: f in fields ==> f in Keys(entries) && attrs[f] == Get(entries, f).value
    requires NormalisesId(kind) ==> ToInt(attrs["id"]).Success?
    ensures var r := PostInit(kind, attrs);
      && r.Success? && r.value.kind == kind
      && r.value.attrs.Keys == set f | f in fields
      && (forall f :: f in fields && (f != "id" || !NormalisesId(kind)) ==> r.value.attrs[f] == Get(entries, f).value)
      && (NormalisesId(kind) ==> r.value.attrs["id"] == JInt(ToInt(attrs["id"]).value))
  {
    if NormalisesId(kind) {
      var normalised := attrs["id" := JInt(ToInt(attrs["id"]).value)];
      assert PostInit(kind, attrs) == Success(Instance(kind, normalised));
      assert normalised.Keys == attrs.Keys;
      forall f | f in fields && f != "id" ensures normalised[f] == Get(entries, f).value {
        assert normalised[f] == attrs[f];
      }
    }
  }

  /** A record `from_dict` builds has exactly the declared fields, each the input's value, except `id`, which holds `int(id)`. */
  lemma FromDictValues(kind: ModelKind, entries: Params)
    requires (forall f :: f in Fields(kind) ==> f in Keys(entries))
    requires NormalisesId(kind) ==> ToInt(Get(entries, "id").value).Success?
    ensures var r := FromDict(kind, JObj(entries));
      && r.Success? && r.value.kind == kind
      && r.value.attrs.Keys == set f | f in Fields(kind)
      && (forall f :: f in Fields(kind) && (f != "id" || !NormalisesId(kind)) ==>
            r.value.attrs[f] == Get(entries, f).value)
      && (NormalisesId(kind) ==> r.value.attrs["id"] == JInt(ToInt(Get(entries, "id").value).value))
  {
    var fields := Fields(kind);
    var kw := Restrict(entries, fields);
    RestrictedAttributes(fields, entries);
    var attrs := Attributes(fields, kw);
    assert "id" in fields || !NormalisesId(kind);
    assert FromDict(kind, JObj(entries)) == PostInit(kind, attrs);
    PostInitValues(kind, fields, attrs, entries);
  }

  /**
   * `from_dict` of a dict succeeds exactly when every declared field is present and, for User and
   * Trophy, `int(id)` succeeds. The object then has exactly the declared fields, each holding the
   * input's value unchanged, except `id`, which holds `int(id)`.
   */
  lemma FromDictFields(kind: ModelKind, entries: Params)
    ensures var r := FromDict(kind, JObj(entries));
      && (r.Success? <==>
            (forall f :: f in Fields(kind) ==> f in Keys(entries))
            && (NormalisesId(kind) ==> ToInt(Get(entries, "id").value).Success?))
      && (r.Success? ==>
            && r.value.kind == kind
            && r.value.attrs.Keys == set f | f in Fields(kind)
            && (forall f :: f in Fields(kind) && (f != "id" || !NormalisesId(kind)) ==>
                  r.value.attrs[f] == Get(entries, f).value)
            && (NormalisesId(kind) ==> r.value.attrs["id"] == JInt(ToInt(Get(entries, "id").value).value)))
  {
    FromDictSucceeds(kind, entries);
    if FromDict(kind, JObj(entries)).Success? {
      FromDictValues(kind, entries);
    }
  }

  /** `from_list` keeps length and order: element i is `from_dict(data[i])`, and one failure fails the whole list. */
  lemma FromDictAllElementwise(kind: ModelKind, ds: seq<Json>)
    ensures var r := FromDictAll(kind, ds);
      && (r.Success? <==> forall i :: 0 <= i < |ds| ==> FromDict(kind, ds[i]).Success?)
      && (r.Success? ==> |r.value| == |ds| && forall i :: 0 <= i < |ds| ==> r.value[i] == FromDict(kind, ds[i]).value)
  {
    FromDictAllSucceeds(kind, ds);
    FromDictAllValues(kind, ds);
  }

  /** The list conversion succeeds exactly when every element converts. */
  lemma {:induction false} FromDictAllSucceeds(kind: ModelKind, ds: seq<Json>)
    ensures FromDictAll(kind, ds).Success? <==> forall i :: 0 <= i < |ds| ==> FromDict(kind, ds[i]).Success?
  {
    if ds != [] {
      var rest := ds[1..];
      FromDictAllSucceeds(kind, rest);
      var head := FromDict(kind, ds[0]);
      if head.Failure? {
        assert FromDictAll(kind, ds).Failure?;
      } else if FromDictAll(kind, rest).Failure? {
        assert FromDictAll(kind, ds).Failure?;
        var i :| 0 <= i < |rest| && FromDict(kind, rest[i]).Failure?;
        assert rest[i] == ds[i + 1];
      } else {
        assert FromDictAll(kind, ds).Success?;
        forall i | 0 <= i < |ds| ensures FromDict(kind, ds[i]).Success? {
          if i > 0 { assert ds[i] == rest[i - 1]; }
        }
      }
    }
  }

  /** A successful list conversion holds the elementwise results, in order. */
  lemma {:induction false} FromDictAllValues(kind: ModelKind, ds: seq<Json>)
    ensures var r := FromDictAll(kind, ds);
      r.Success? ==> |r.value| == |ds| && forall i :: 0 <= i < |ds| ==> FromDict(kind, ds[i]).Success? && r.value[i] == FromDict(kind, ds[i]).value
  {
    if ds != [] && FromDictAll(kind, ds).Success? {
      var rest := ds[1..];
      FromDictAllValues(kind, rest);
      var head, tail := FromDict(kind, ds[0]), FromDictAll(kind, rest);
      assert FromDictAll(kind, ds).value == [head.value] + tail.value;
      forall i | 0 <= i < |ds| ensures FromDict(kind, ds[i]).Success? && FromDictAll(kind, ds).value[i] == FromDict(kind, ds[i]).value {
        if i > 0 { assert ds[i] == rest[i - 1]; }
      }
    }
  }

  /** A list payload: the records are the elementwise `from_dict` results, in order. */
  lemma FromListOfList(kind: ModelKind, items: seq<Json>)
    ensures var r := FromList(kind, JList(items));
      && (r.Success? <==> forall i :: 0 <= i < |items| ==> FromDict(kind, items[i]).Success?)
      && (r.Success? ==> |r.value| == |items| && forall i :: 0 <= i < |items| ==> r.value[i] == FromDict(kind, items[i]).value)
  {
    FromDictAllElementwise(kind, items);
  }
}
