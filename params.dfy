/**
 * Python dicts with string keys, as the client builds them for keyword arguments and query
 * parameters. A dict is its list of entries in insertion order: `urlencode` emits the
 * parameters in that order, so order is part of what is sent.
 */
module Params {
  import opened Json
  import opened Wrappers

  type Params = seq<(string, Json)>

  /** The keys, in insertion order. */
  function Keys(p: Params): (r: seq<string>)
    ensures |r| == |p| && forall i :: 0 <= i < |p| ==> r[i] == p[i].0
  {
    seq(|p|, i requires 0 <= i < |p| => p[i].0)
  }

  /** No key occurs twice: true of every dict. */
  predicate Distinct(ks: seq<string>)
  {
    forall i, j :: 0 <= i < j < |ks| ==> ks[i] != ks[j]
  }

  /** `d.get(k)`. */
  function Get(p: Params, k: string): (r: Option<Json>)
    ensures r.Some? <==> k in Keys(p)
  {
    if p == [] then None else if p[0].0 == k then Some(p[0].1) else Get(p[1..], k)
  }

  /** `d[k] = v`: an existing key keeps its position and takes the new value; a new key goes last. */
  function Assign(p: Params, k: string, v: Json): Params
  {
    if p == [] then [(k, v)]
    else if p[0].0 == k then [(k, v)] + p[1..]
    else [p[0]] + Assign(p[1..], k, v)
  }

  /** `a | b`: a copy of `a` updated with each entry of `b` in turn. */
  function Merge(a: Params, b: Params): Params
    decreases |b|
  {
    if b == [] then a else Merge(Assign(a, b[0].0, b[0].1), b[1..])
  }

  /** The keys of `ks` that are not in `seen`, in their order. */
  function NewKeys(ks: seq<string>, seen: seq<string>): seq<string>
  {
    if ks == [] then []
    else if ks[0] in seen then NewKeys(ks[1..], seen)
    else [ks[0]] + NewKeys(ks[1..], seen)
  }

  /** The new keys are exactly the keys of `ks` not in `seen`. */
  lemma {:induction false} NewKeysMembers(ks: seq<string>, seen: seq<string>, k: string)
    ensures k in NewKeys(ks, seen) <==> k in ks && k !in seen
  {
    if ks != [] {
      NewKeysMembers(ks[1..], seen, k);
      assert ks == [ks[0]] + ks[1..];
    }
  }

  /** Assigning keeps the key order, appending only a new key. */
  lemma {:induction false} AssignKeys(p: Params, k: string, v: Json)
    ensures Keys(Assign(p, k, v)) == if k in Keys(p) then Keys(p) else Keys(p) + [k]
  {
    if p == [] {
      assert Keys([(k, v)]) == [k];
    } else {
      KeysCons(p[0], p[1..]);
      assert [p[0]] + p[1..] == p;
      if p[0].0 == k {
        KeysCons((k, v), p[1..]);
      } else {
        AssignKeys(p[1..], k, v);
        KeysCons(p[0], Assign(p[1..], k, v));
        assert k in Keys(p) <==> k in Keys(p[1..]);
      }
    }
  }

  /** The keys of an entry followed by more entries. */
  lemma KeysCons(e: (string, Json), q: Params)
    ensures Keys([e] + q) == [e.0] + Keys(q)
  {
  }

  /** A lookup in two dicts' entries one after the other finds the first's entry first. */
  lemma {:induction false} GetAppend(a: Params, b: Params, k: string)
    ensures Get(a + b, k) == if k in Keys(a) then Get(a, k) else Get(b, k)
  {
    if a == [] {
      assert a + b == b;
    } else {
      assert (a + b)[0] == a[0] && (a + b)[1..] == a[1..] + b;
      assert Keys(a) == [a[0].0] + Keys(a[1..]);
      if a[0].0 != k {
        GetAppend(a[1..], b, k);
        assert Get(a + b, k) == Get(a[1..] + b, k);
        assert Get(a, k) == Get(a[1..], k);
        assert k in Keys(a) <==> k in Keys(a[1..]);
      }
    }
  }

  /** Assigning a key the value it already has changes nothing. */
  lemma {:induction false} AssignSame(p: Params, k: string, v: Json)
    requires Get(p, k) == Some(v)
    ensures Assign(p, k, v) == p
  {
    if p[0].0 != k {
      AssignSame(p[1..], k, v);
      assert [p[0]] + p[1..] == p;
    } else {
      assert [(k, v)] + p[1..] == p;
    }
  }

  /** Assigning a new key appends the entry. */
  lemma {:induction false} AssignNew(p: Params, k: string, v: Json)
    requires k !in Keys(p)
    ensures Assign(p, k, v) == p + [(k, v)]
  {
    if p != [] {
      assert Keys(p) == [p[0].0] + Keys(p[1..]);
      AssignNew(p[1..], k, v);
      assert [p[0]] + (p[1..] + [(k, v)]) == p + [(k, v)];
    }
  }

  /** After `d[k] = v`, reading `k` gives `v` and every other key reads as before. */
  lemma {:induction false} AssignGet(p: Params, k: string, v: Json, k': string)
    ensures Get(Assign(p, k, v), k') == if k' == k then Some(v) else Get(p, k')
  {
    if p != [] && p[0].0 != k {
      AssignGet(p[1..], k, v, k');
    }
  }

  lemma DistinctTail(ks: seq<string>, x: string)
    requires Distinct(ks) && x !in ks
    ensures Distinct(ks + [x])
  {
  }

  /** Assigning keeps the keys distinct. */
  lemma AssignDistinct(p: Params, k: string, v: Json)
    requires Distinct(Keys(p))
    ensures Distinct(Keys(Assign(p, k, v)))
  {
    AssignKeys(p, k, v);
    if k !in Keys(p) {
      DistinctTail(Keys(p), k);
    }
  }

  /** The first key of a dict does not occur again, and the rest is a dict. */
  lemma DistinctRest(b: Params)
    requires b != [] && Distinct(Keys(b))
    ensures Keys(b) == [b[0].0] + Keys(b[1..])
    ensures Distinct(Keys(b[1..])) && b[0].0 !in Keys(b[1..])
  {
    var ks, rest := Keys(b), Keys(b[1..]);
    assert forall j :: 0 <= j < |rest| ==> rest[j] == ks[j + 1];
    assert ks == [b[0].0] + rest;
  }

  /** The keys of `a | b`: those of `a` where they were, then the new keys of `b` in `b`'s order. */
  lemma {:induction false} MergeKeys(a: Params, b: Params)
    requires Distinct(Keys(b))
    ensures Keys(Merge(a, b)) == Keys(a) + NewKeys(Keys(b), Keys(a))
    decreases |b|
  {
    if b != [] {
      var k := b[0].0;
      var a' := Assign(a, k, b[0].1);
      DistinctRest(b);
      AssignKeys(a, k, b[0].1);
      MergeKeys(a', b[1..]);
      MergeKeysStep(Keys(a), Keys(a'), k, Keys(b[1..]));
    }
  }

  /** One step of `MergeKeys`: the keys after assigning `k`, then the new keys of the rest. */
  lemma MergeKeysStep(ka: seq<string>, ka': seq<string>, k: string, rest: seq<string>)
    requires ka' == if k in ka then ka else ka + [k]
    requires k !in rest
    ensures ka' + NewKeys(rest, ka') == ka + NewKeys([k] + rest, ka)
  {
    var ks := [k] + rest;
    assert ks[0] == k && ks[1..] == rest;
    if k in ka {
      assert NewKeys(ks, ka) == NewKeys(rest, ka);
    } else {
      NewKeysSkip(rest, ka, k);
      assert NewKeys(ks, ka) == [k] + NewKeys(rest, ka);
      assert ka' + NewKeys(rest, ka') == ka + ([k] + NewKeys(rest, ka));
    }
  }

  lemma {:induction false} NewKeysSkip(ks: seq<string>, seen: seq<string>, x: string)
    requires x !in ks
    ensures NewKeys(ks, seen + [x]) == NewKeys(ks, seen)
  {
    if ks != [] {
      NewKeysSkip(ks[1..], seen, x);
    }
  }

  /** Last write wins: a key of `b` reads as in `b`, any other key as in `a`. */
  lemma {:induction false} MergeGet(a: Params, b: Params, k: string)
    requires Distinct(Keys(b))
    ensures Get(Merge(a, b), k) == if k in Keys(b) then Get(b, k) else Get(a, k)
    decreases |b|
  {
    if b != [] {
      DistinctRest(b);
      MergeGet(Assign(a, b[0].0, b[0].1), b[1..], k);
      AssignGet(a, b[0].0, b[0].1, k);
    }
  }

  /** `a | b` is a dict again: its keys are distinct. */
  lemma {:induction false} MergeDistinct(a: Params, b: Params)
    requires Distinct(Keys(a))
    ensures Distinct(Keys(Merge(a, b)))
    decreases |b|
  {
    if b != [] {
      AssignDistinct(a, b[0].0, b[0].1);
      MergeDistinct(Assign(a, b[0].0, b[0].1), b[1..]);
    }
  }

  /** The first key of `p`, in order, that is one of `names`: the keyword Python reports first. */
  function FirstKeyIn(p: Params, names: seq<string>): (r: Option<string>)
    ensures r.Some? ==> r.value in names && r.value in Keys(p)
    ensures r.None? ==> forall i :: 0 <= i < |p| ==> p[i].0 !in names
  {
    if p == [] then None else if p[0].0 in names then Some(p[0].0) else FirstKeyIn(p[1..], names)
  }

  /** The entries of `p` whose key is not one of `names`, in order: what is left once those keywords are bound. */
  function Without(p: Params, names: seq<string>): (r: Params)
  {
    if p == [] then [] else if p[0].0 in names then Without(p[1..], names) else [p[0]] + Without(p[1..], names)
  }

  /** Removing keys keeps every other key with its value and drops the named ones. */
  lemma {:induction false} WithoutGet(p: Params, names: seq<string>, k: string)
    ensures Get(Without(p, names), k) == if k in names then None else Get(p, k)
  {
    if p != [] {
      WithoutGet(p[1..], names, k);
    }
  }

  /** Removing keys that do not occur changes nothing. */
  lemma {:induction false} WithoutAbsent(p: Params, names: seq<string>)
    requires forall i :: 0 <= i < |p| ==> p[i].0 !in names
    ensures Without(p, names) == p
  {
    if p != [] {
      WithoutAbsent(p[1..], names);
      assert [p[0]] + p[1..] == p;
    }
  }

  /** A dict stays one when keys are removed. */
  lemma {:induction false} WithoutDistinct(p: Params, names: seq<string>)
    requires Distinct(Keys(p))
    ensures Distinct(Keys(Without(p, names)))
  {
    if p != [] {
      var t := p[1..];
      DistinctRest(p);
      WithoutDistinct(t, names);
      if p[0].0 !in names {
        var w := Without(t, names);
        WithoutGet(t, names, p[0].0);
        KeysCons(p[0], w);
        DistinctCons(p[0].0, Keys(w));
      }
    }
  }

  /** A new key in front of distinct keys keeps them distinct. */
  lemma DistinctCons(k: string, ks: seq<string>)
    requires Distinct(ks) && k !in ks
    ensures Distinct([k] + ks)
  {
    var all := [k] + ks;
    forall i, j | 0 <= i < j < |all| ensures all[i] != all[j] {
      assert all[j] == ks[j - 1];
      if i > 0 { assert all[i] == ks[i - 1]; }
    }
  }
}
