/**
 * The Python built-ins the client's code paths go through: `int(x)`, subscripting `x[k]` and
 * `x[i]`, iteration, and attribute reads on model objects. Each returns the value or the
 * exception Python raises.
 */
module Builtins {
  import opened Json
  import opened Wrappers
  import opened Errors
  import opened Params

  /** The ASCII characters `str.strip()` removes. */
  predicate IsSpace(c: char)
  {
    c == ' ' || '\t' <= c <= '\r' || 0x1C <= c as int <= 0x1F
  }

  function StripLeft(s: string): string
  {
    if s != [] && IsSpace(s[0]) then StripLeft(s[1..]) else s
  }

  function StripRight(s: string): string
  {
    if s != [] && IsSpace(s[|s| - 1]) then StripRight(s[..|s| - 1]) else s
  }

  predicate IsDigit(c: char)
  {
    '0' <= c <= '9'
  }

  /** A base-10 integer body: digits, with single underscores allowed between two digits. */
  predicate IsDigitGroup(t: string)
  {
    && |t| >= 1 && IsDigit(t[0]) && IsDigit(t[|t| - 1])
    && (forall i :: 0 <= i < |t| ==> IsDigit(t[i]) || t[i] == '_')
    && (forall i :: 0 <= i < |t| - 1 ==> t[i] == '_' ==> t[i + 1] != '_')
  }

  /** The number written by the digits of `t`, underscores skipped. */
  function DigitsValue(t: string): nat
  {
    if t == [] then 0
    else if IsDigit(t[|t| - 1]) then DigitsValue(t[..|t| - 1]) * 10 + (t[|t| - 1] as int - '0' as int)
    else DigitsValue(t[..|t| - 1])
  }

  /** `int(s)` for a string, or None where Python raises ValueError. */
  function ParseInt(s: string): Option<int>
  {
    var t := StripRight(StripLeft(s));
    if t != [] && (t[0] == '-' || t[0] == '+') then
      if IsDigitGroup(t[1..]) then
        var v: int := DigitsValue(t[1..]);
        Some(if t[0] == '-' then -v else v)
      else None
    else if IsDigitGroup(t) then Some(DigitsValue(t))
    else None
  }

  lemma {:induction false} DecimalValue(n: nat)
    ensures DigitsValue(NatToDecimal(n)) == n
    ensures IsDigitGroup(NatToDecimal(n))
  {
    var r := NatToDecimal(n);
    if n < 10 {
      DigitChar(n);
      assert r == [DecimalDigits[n]] && r[..0] == [];
    } else {
      var prefix := NatToDecimal(n / 10);
      DecimalValue(n / 10);
      DigitChar(n % 10);
      assert r == prefix + [DecimalDigits[n % 10]];
      assert r[..|r| - 1] == prefix && r[0] == prefix[0];
    }
  }

  /** The character of a decimal digit, read back. */
  lemma DigitChar(d: nat)
    requires d < 10
    ensures IsDigit(DecimalDigits[d]) && DecimalDigits[d] as int - '0' as int == d
  {
  }

  lemma NoSpaceStrip(r: string)
    requires r != [] ==> !IsSpace(r[0]) && !IsSpace(r[|r| - 1])
    ensures StripLeft(r) == r && StripRight(r) == r
  {
  }

  lemma ParseDigits(d: string)
    requires IsDigitGroup(d)
    ensures ParseInt(d) == Some(DigitsValue(d))
    ensures ParseInt("-" + d) == Some(-(DigitsValue(d) as int))
  {
    NoSpaceStrip(d);
    var m := "-" + d;
    assert m[1..] == d && m[|m| - 1] == d[|d| - 1];
    NoSpaceStrip(m);
  }

  /** `int(str(i)) == i`: the decimal rendering of an int is read back exactly. */
  lemma IntDecimalRoundTrip(i: int)
    ensures ParseInt(IntToDecimal(i)) == Some(i)
  {
    var n: nat := if i < 0 then -i else i;
    DecimalValue(n);
    ParseDigits(NatToDecimal(n));
  }

  /** `int(x)`: ints are themselves, bools are 0 or 1, strings are parsed. */
  function ToInt(j: Json): (r: Result<int>)
    ensures j.JInt? ==> r == Success(j.i)
    ensures (j.JNone? || j.JList? || j.JObj?) ==> r == Failure(TypeError(NotConvertibleToInt))
  {
    match j
    case JInt(i) => Success(i)
    case JBool(b) => Success(if b then 1 else 0)
    case JStr(s) =>
      (match ParseInt(s)
       case Some(i) => Success(i)
       case None => Failure(ValueError(InvalidIntLiteral(s))))
    case _ => Failure(TypeError(NotConvertibleToInt))
  }

  /** `x[k]` for a string key. */
  function Item(j: Json, k: string): (r: Result<Json>)
    ensures j.JObj? ==> (r.Success? <==> k in Keys(j.entries))
    ensures r.Success? ==> j.JObj? && Get(j.entries, k) == Some(r.value)
  {
    match j
    case JObj(entries) =>
      (match Get(entries, k)
       case Some(v) => Success(v)
       case None => Failure(KeyError(JStr(k))))
    case JList(_) => Failure(TypeError(NotSubscriptable))
    case JStr(_) => Failure(TypeError(NotSubscriptable))
    case _ => Failure(TypeError(NotSubscriptable))
  }

  /** `x[i]` for an int index; negative indices count from the end. */
  function Index(j: Json, i: int): (r: Result<Json>)
    ensures j.JList? && 0 <= i < |j.items| ==> r == Success(j.items[i])
    ensures j.JList? && (i >= |j.items| || i < -|j.items|) ==> r == Failure(IndexError)
  {
    match j
    case JList(items) =>
      if -|items| <= i < 0 then Success(items[|items| + i])
      else if 0 <= i < |items| then Success(items[i])
      else Failure(IndexError)
    case JStr(s) =>
      if -|s| <= i < 0 then Success(JStr([s[|s| + i]]))
      else if 0 <= i < |s| then Success(JStr([s[i]]))
      else Failure(IndexError)
    case JObj(_) => Failure(KeyError(JInt(i)))
    case _ => Failure(TypeError(NotSubscriptable))
  }

  /** `list(x)`: the elements a `for` loop over `x` visits. */
  function Iterate(j: Json): (r: Result<seq<Json>>)
    ensures j.JList? ==> r == Success(j.items)
    ensures (j.JNone? || j.JBool? || j.JInt?) ==> r.Failure?
  {
    match j
    case JList(items) => Success(items)
    case JObj(entries) => Success(seq(|entries|, k requires 0 <= k < |entries| => JStr(entries[k].0)))
    case JStr(s) => Success(seq(|s|, k requires 0 <= k < |s| => JStr([s[k]])))
    case _ => Failure(TypeError(NotIterable))
  }

  /** `obj.name` on a model object. */
  function Attr(obj: Instance, name: string): (r: Result<Json>)
    ensures r.Success? <==> name in obj.attrs
    ensures r.Success? ==> r.value == obj.attrs[name]
    ensures r.Failure? ==> r.error == AttributeError(name)
  {
    if name in obj.attrs then Success(obj.attrs[name]) else Failure(AttributeError(name))
  }
}
