/** Vocabulary shared by the marketplace model: optional values, HTTP replies,
    the ordered filter that `Object.values(...).filter(...)` performs, tables kept
    as a map plus the insertion order of their keys, and the bearer-token split. */
module Common {

  datatype Option<+T> = None | Some(value: T)

  /** What a route handler sends back: a success status with its JSON body,
      or an error status with the `error` text of the body. */
  datatype Reply<+T> = Done(status: int, value: T) | Refused(status: int, error: string)

  /** The elements of `s` that satisfy `p`, in their original order. */
  function Filter<T(!new)>(s: seq<T>, p: T -> bool): (r: seq<T>)
    ensures |r| <= |s|
    ensures forall x :: x in r <==> x in s && p(x)
    ensures forall i :: 0 <= i < |r| ==> p(r[i])
  {
    if s == [] then []
    else
      var front := Filter(s[..|s| - 1], p);
      assert forall x :: x in s <==> x in s[..|s| - 1] || x == s[|s| - 1];
      if p(s[|s| - 1]) then front + [s[|s| - 1]] else front
  }

  /** Filtering a sequence extended by one element extends the filtered sequence
      by that element exactly when it passes. */
  lemma FilterSnoc<T(!new)>(s: seq<T>, x: T, p: T -> bool)
    ensures Filter(s + [x], p) == if p(x) then Filter(s, p) + [x] else Filter(s, p)
  {
    assert (s + [x])[..|s + [x]| - 1] == s;
  }

  /** A filter that every element passes returns its input unchanged. */
  lemma {:induction false} FilterKeepsAll<T(!new)>(s: seq<T>, p: T -> bool)
    requires forall i :: 0 <= i < |s| ==> p(s[i])
    ensures Filter(s, p) == s
  {
    if s != [] {
      FilterKeepsAll(s[..|s| - 1], p);
      assert s[..|s| - 1] + [s[|s| - 1]] == s;
    }
  }

  /** Two predicates that agree on every element of `s` filter it the same way. */
  lemma {:induction false} FilterAgrees<T(!new)>(s: seq<T>, p: T -> bool, q: T -> bool)
    requires forall i :: 0 <= i < |s| ==> p(s[i]) == q(s[i])
    ensures Filter(s, p) == Filter(s, q)
  {
    if s != [] {
      FilterAgrees(s[..|s| - 1], p, q);
    }
  }

  ghost predicate Distinct<T>(s: seq<T>) {
    forall i, j :: 0 <= i < j < |s| ==> s[i] != s[j]
  }

  /** A filter keeps a duplicate-free sequence duplicate-free. */
  lemma {:induction false} FilterKeepsDistinct<T(!new)>(s: seq<T>, p: T -> bool)
    requires Distinct(s)
    ensures Distinct(Filter(s, p))
  {
    if s != [] {
      var front := s[..|s| - 1];
      assert Distinct(front) by {
        forall i, j | 0 <= i < j < |front| ensures front[i] != front[j] {
          assert front[i] == s[i] && front[j] == s[j];
        }
      }
      FilterKeepsDistinct(front, p);
    }
  }

  /** The values stored under duplicate-free keys are duplicate-free when each
      value names its own key, as every record of the backend carries its id. */
  lemma ValuesDistinct<K, V>(keys: seq<K>, m: map<K, V>, key: V -> K)
    requires forall k :: k in keys ==> k in m && key(m[k]) == k
    requires Distinct(keys)
    ensures Distinct(Values(keys, m))
  {
    var vs := Values(keys, m);
    forall i, j | 0 <= i < j < |vs| ensures vs[i] != vs[j] {
      assert key(vs[i]) == keys[i] && key(vs[j]) == keys[j];
    }
  }

  /** `order` lists every key of `m` exactly once: the key order in which
      `Object.values` enumerates a JavaScript object keyed by non-numeric strings.
      The trigger keeps the key-to-position direction out of reach until a proof
      asks for it through `OrderExactly`. */
  ghost predicate IsOrderOf<K(!new), V>(order: seq<K>, m: map<K, V>) {
    Distinct(order) && forall k {:trigger k in order} :: k in m <==> k in order
  }

  /** Both directions of an enumeration, for the proofs that walk it. */
  lemma OrderExactly<K(!new), V>(order: seq<K>, m: map<K, V>)
    requires IsOrderOf(order, m)
    ensures forall i :: 0 <= i < |order| ==> order[i] in m
    ensures forall k :: k in m ==> k in order
  {
    forall i | 0 <= i < |order| ensures order[i] in m {
      assert order[i] in order;
    }
  }

  /** The values of `m` stored under `keys`, in the order of `keys`. */
  function Values<K, V>(keys: seq<K>, m: map<K, V>): (r: seq<V>)
    requires forall k :: k in keys ==> k in m
    ensures |r| == |keys|
    ensures forall i :: 0 <= i < |keys| ==> r[i] == m[keys[i]]
  {
    if keys == [] then [] else Values(keys[..|keys| - 1], m) + [m[keys[|keys| - 1]]]
  }

  /** Enumerating a table in key order yields exactly the values of the table. */
  lemma ValuesOfOrder<K(!new), V(!new)>(order: seq<K>, m: map<K, V>)
    requires IsOrderOf(order, m)
    ensures forall v :: v in Values(order, m) <==> v in m.Values
  {
    var vs := Values(order, m);
    OrderExactly(order, m);
    forall v | v in m.Values ensures v in vs {
      var k :| k in m && m[k] == v;
      var i :| 0 <= i < |order| && order[i] == k;
      assert vs[i] == v;
    }
  }

  /** Adding a fresh key at the end of the order keeps the order exact. */
  lemma OrderAppend<K(!new), V>(order: seq<K>, m: map<K, V>, k: K, v: V)
    requires IsOrderOf(order, m) && k !in m
    ensures IsOrderOf(order + [k], m[k := v])
  {
    OrderExactly(order, m);
  }

  /** The text between the first space of `s` and the end of `s`, if `s` has a space. */
  function AfterSpace(s: string): (r: Option<string>)
    ensures r.Some? ==> |r.value| < |s|
  {
    if s == [] then None
    else if s[0] == ' ' then Some(s[1..])
    else AfterSpace(s[1..])
  }

  /** The longest prefix of `s` without a space. */
  function UpToSpace(s: string): (r: string)
    ensures ' ' !in r
    ensures r <= s
  {
    if s == [] || s[0] == ' ' then [] else [s[0]] + UpToSpace(s[1..])
  }

  /** `req.headers.authorization?.split(' ')[1]`: the second space-separated field
      of the Authorization header. A missing header, or one without a space,
      yields JavaScript's `undefined`, which every handler treats like "". */
  function BearerToken(header: Option<string>): (token: string)
    ensures ' ' !in token
  {
    match header
    case None => ""
    case Some(h) =>
      match AfterSpace(h)
      case None => ""
      case Some(rest) => UpToSpace(rest)
  }

  lemma {:induction false} AfterSpaceOf(scheme: string, rest: string)
    requires ' ' !in scheme
    ensures AfterSpace(scheme + " " + rest) == Some(rest)
  {
    if scheme != [] {
      assert (scheme + " " + rest)[1..] == scheme[1..] + " " + rest;
      AfterSpaceOf(scheme[1..], rest);
    }
  }

  lemma {:induction false} UpToSpaceWhole(s: string)
    requires ' ' !in s
    ensures UpToSpace(s) == s
  {
    if s != [] {
      UpToSpaceWhole(s[1..]);
    }
  }

  /** A header `scheme + " " + id`, neither part holding a space, carries `id`
      as its token: the shape the login route hands out (`tokenType: 'bearer'`). */
  lemma BearerTokenOf(scheme: string, id: string)
    requires ' ' !in scheme && ' ' !in id
    ensures BearerToken(Some(scheme + " " + id)) == id
  {
    AfterSpaceOf(scheme, id);
    UpToSpaceWhole(id);
  }

  /** A header with no space in it carries no token. */
  lemma {:induction false} BearerTokenNeedsSpace(h: string)
    requires ' ' !in h
    ensures BearerToken(Some(h)) == ""
  {
    NoSpaceNoSuffix(h);
  }

  lemma {:induction false} NoSpaceNoSuffix(s: string)
    requires ' ' !in s
    ensures AfterSpace(s) == None
  {
    if s != [] {
      NoSpaceNoSuffix(s[1..]);
    }
  }
}
