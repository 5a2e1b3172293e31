/**
 * Python values as this client handles them: what the response decoder produces, what callers
 * pass as query values and what model records hold. A dict is kept as its ordered list of
 * entries, because Python dicts remember insertion order and `repr` shows it.
 */
module Json {
  import opened Strings
  import opened Codecs

  datatype Json =
    | JNone
    | JBool(b: bool)
    | JInt(i: int)
    | JStr(s: string)
    | JList(items: seq<Json>)
    | JObj(entries: seq<(string, Json)>)

  const DecimalDigits: string := "0123456789"

  /** The decimal digits of a natural number, most significant first, without leading zeros. */
  function NatToDecimal(n: nat): (r: string)
    ensures |r| >= 1
    ensures forall i :: 0 <= i < |r| ==> '0' <= r[i] <= '9'
  {
    if n < 10 then [DecimalDigits[n]] else NatToDecimal(n / 10) + [DecimalDigits[n % 10]]
  }

  /** `str(i)` for an int: a minus sign for negative numbers, then the digits. */
  function IntToDecimal(i: int): string
  {
    if i < 0 then "-" + NatToDecimal(-i) else NatToDecimal(i)
  }

  /** `str(x)`: strings are themselves, everything else is its `repr`. */
  function Str(j: Json): string
  {
    if j.JStr? then j.s else Repr(j)
  }

  /** `repr(x)`. Containers show their elements' reprs, separated by ", ". */
  function Repr(j: Json): string
  {
    match j
    case JNone => "None"
    case JBool(b) => if b then "True" else "False"
    case JInt(i) => IntToDecimal(i)
    case JStr(s) => StrRepr(s)
    case JList(items) =>
      "[" + Join(", ", seq(|items|, k requires 0 <= k < |items| => Repr(items[k]))) + "]"
    case JObj(entries) =>
      "{" + Join(", ", seq(|entries|, k requires 0 <= k < |entries| =>
                             StrRepr(entries[k].0) + ": " + Repr(entries[k].1))) + "}"
  }

  /** `repr(s)` for a string: double quotes only when the text has a single quote and no double quote. */
  function StrRepr(s: string): string
  {
    var q := if '\'' in s && '"' !in s then '"' else '\'';
    [q] + Concat(seq(|s|, k requires 0 <= k < |s| => EscapeChar(s[k], q))) + [q]
  }

  /** How `repr` shows one character inside quotes `q`. */
  function EscapeChar(c: char, q: char): string
  {
    if c == '\\' then "\\\\"
    else if c == q then ['\\', q]
    else if c == '\n' then "\\n"
    else if c == '\r' then "\\r"
    else if c == '\t' then "\\t"
    else if c as int < 0x20 || 0x7F <= c as int <= 0xA0 || c as int == 0xAD then
      "\\x" + [LowerHexDigits[c as int / 16], LowerHexDigits[c as int % 16]]
    else [c]
  }
}
