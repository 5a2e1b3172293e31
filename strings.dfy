/** The Python string operations the client relies on: `sep.join(xs)` and its inverse, splitting on one character. */
module Strings {

  /** `sep.join(xs)`. */
  function Join(sep: string, xs: seq<string>): string
  {
    if |xs| == 0 then ""
    else if |xs| == 1 then xs[0]
    else xs[0] + sep + Join(sep, xs[1..])
  }

  /** `"".join(xs)`: the strings one after another. */
  function Concat(xs: seq<string>): string
  {
    if xs == [] then "" else xs[0] + Concat(xs[1..])
  }

  /** `s.split(sep)` for a one-character separator: the pieces between separators, always at least one. */
  function Split(s: string, sep: char): (r: seq<string>)
    ensures |r| >= 1
  {
    if s == [] then [""]
    else
      var rest := Split(s[1..], sep);
      if s[0] == sep then [""] + rest else [[s[0]] + rest[0]] + rest[1..]
  }

  /** A piece with no separator in it is returned whole, and a separator ends the first piece. */
  lemma {:induction false} SplitPrefix(x: string, sep: char, y: string)
    requires sep !in x
    ensures Split(x, sep) == [x]
    ensures Split(x + [sep] + y, sep) == [x] + Split(y, sep)
  {
    if x == [] {
      assert x + [sep] + y == [sep] + y;
      assert ([sep] + y)[1..] == y;
    } else {
      assert x[1..] + [sep] + y == (x + [sep] + y)[1..];
      SplitPrefix(x[1..], sep, y);
      assert [x[0]] + x[1..] == x;
    }
  }

  /** Splitting undoes joining when no piece contains the separator. */
  lemma {:induction false} SplitJoin(xs: seq<string>, sep: char)
    requires |xs| >= 1
    requires forall i :: 0 <= i < |xs| ==> sep !in xs[i]
    ensures Split(Join([sep], xs), sep) == xs
  {
    if |xs| == 1 {
      SplitPrefix(xs[0], sep, "");
    } else {
      SplitJoin(xs[1..], sep);
      SplitPrefix(xs[0], sep, Join([sep], xs[1..]));
      assert [xs[0]] + xs[1..] == xs;
    }
  }

  /** Every character of `Join(sep, xs)` comes from a piece or from the separator. */
  lemma {:induction false} JoinChars(sep: string, xs: seq<string>, c: char)
    requires c in Join(sep, xs)
    ensures c in sep || exists i :: 0 <= i < |xs| && c in xs[i]
  {
    if |xs| > 1 {
      var tail := Join(sep, xs[1..]);
      assert Join(sep, xs) == xs[0] + sep + tail;
      if c !in xs[0] && c !in sep {
        assert c in tail;
        JoinChars(sep, xs[1..], c);
        var i :| 0 <= i < |xs[1..]| && c in xs[1..][i];
        assert c in xs[i + 1];
      }
    }
  }

  /** Every character of `Concat(xs)` comes from one of the pieces. */
  lemma {:induction false} ConcatChars(xs: seq<string>, c: char)
    requires c in Concat(xs)
    ensures exists i :: 0 <= i < |xs| && c in xs[i]
  {
    if c !in xs[0] {
      ConcatChars(xs[1..], c);
      var i :| 0 <= i < |xs[1..]| && c in xs[1..][i];
      assert c in xs[i + 1];
    }
  }
}
