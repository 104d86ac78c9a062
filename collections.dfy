/** `Array.prototype.find` and `filter`, with the first-match and order facts the model relies on. */
module Collections {
  import opened Wrappers

  /** The index of the first element satisfying `p` (`findIndex`, with `None` for -1). */
  function FindIndex<T>(s: seq<T>, p: T -> bool): (r: Option<nat>)
    ensures r.Some? ==> r.value < |s| && p(s[r.value])
    ensures r.Some? ==> forall j | 0 <= j < r.value :: !p(s[j])
    ensures r.None? ==> forall j | 0 <= j < |s| :: !p(s[j])
  {
    if s == [] then None
    else if p(s[0]) then Some(0)
    else
      match FindIndex(s[1..], p)
      case None => None
      case Some(k) => Some(k + 1)
  }

  /** `s.find(p)`: the first element satisfying `p`, or `undefined`. */
  function Find<T>(s: seq<T>, p: T -> bool): (r: Option<T>)
    ensures r.None? <==> forall j | 0 <= j < |s| :: !p(s[j])
    ensures r.Some? ==> p(r.value) && r.value in s
  {
    match FindIndex(s, p)
    case None => None
    case Some(k) => Some(s[k])
  }

  /** The first `i + 1` elements are the first `i` and then the `i`th. */
  lemma TakeNext<T>(s: seq<T>, i: nat)
    requires i < |s|
    ensures s[..i + 1] == s[..i] + [s[i]]
  {
  }

  /** A slice of `s` read after a prefix is the same slice shifted by the prefix's length. */
  lemma ShiftedSlice<T>(pre: seq<T>, s: seq<T>, i: nat, j: nat)
    requires i <= j <= |s|
    ensures (pre + s)[|pre| + i..|pre| + j] == s[i..j]
  {
    assert (pre + s)[|pre|..] == s;
    assert (pre + s)[|pre| + i..|pre| + j] == (pre + s)[|pre|..][i..j];
  }

  /** `r` is what `s.find(p)` returns: the element at the first index satisfying `p`, or nothing. */
  ghost predicate IsFirstMatch<T>(s: seq<T>, p: T -> bool, r: Option<T>) {
    match r
    case None => forall j | 0 <= j < |s| :: !p(s[j])
    case Some(v) => exists k | 0 <= k < |s| :: s[k] == v && p(v) && forall j | 0 <= j < k :: !p(s[j])
  }

  lemma FindIsFirstMatch<T>(s: seq<T>, p: T -> bool)
    ensures IsFirstMatch(s, p, Find(s, p))
  {
    match FindIndex(s, p)
    case None =>
    case Some(k) => assert s[k] == Find(s, p).value;
  }

  /** `Find` returns the first match, and there is only one. */
  lemma FirstMatchIsFind<T>(s: seq<T>, p: T -> bool, r: Option<T>)
    requires IsFirstMatch(s, p, r)
    ensures r == Find(s, p)
  {
    if r.Some? {
      var k :| 0 <= k < |s| && s[k] == r.value && p(r.value) && forall j | 0 <= j < k :: !p(s[j]);
      var i := FindIndex(s, p);
      assert i.Some? && i.value == k;
    }
  }

  /** `s.filter(p)`, keeping order. */
  function Filter<T(!new)>(s: seq<T>, p: T -> bool): (r: seq<T>)
    ensures |r| <= |s|
    ensures forall x :: x in r <==> x in s && p(x)
  {
    if s == [] then [] else (if p(s[0]) then [s[0]] else []) + Filter(s[1..], p)
  }

  /** Filtering by a predicate every element meets changes nothing. */
  lemma {:induction false} FilterKeepsAll<T(!new)>(s: seq<T>, p: T -> bool)
    requires forall x | x in s :: p(x)
    ensures Filter(s, p) == s
  {
    if s != [] {
      FilterKeepsAll(s[1..], p);
    }
  }

  /** Filtering by a predicate no element meets leaves nothing. */
  lemma {:induction false} FilterDropsAll<T(!new)>(s: seq<T>, p: T -> bool)
    requires forall x | x in s :: !p(x)
    ensures Filter(s, p) == []
  {
    if s != [] {
      FilterDropsAll(s[1..], p);
    }
  }

  lemma {:induction false} FilterAppend<T(!new)>(a: seq<T>, b: seq<T>, p: T -> bool)
    ensures Filter(a + b, p) == Filter(a, p) + Filter(b, p)
  {
    if a == [] {
      assert a + b == b;
    } else {
      assert (a + b)[1..] == a[1..] + b;
      FilterAppend(a[1..], b, p);
    }
  }

  /**
   * `keys.map(k => items.find(x => matches(k, x))).filter(x => x != null)`: for each key in
   * order, the first item it matches; keys that match nothing are dropped.
   */
  function LookupAll<K, T>(keys: seq<K>, items: seq<T>, matches: (K, T) -> bool): (r: seq<T>)
    ensures |r| <= |keys|
  {
    if keys == [] then [] else LookupOne(keys[0], items, matches) + LookupAll(keys[1..], items, matches)
  }

  /** The items `k` matches first: none or one. */
  function LookupOne<K, T>(k: K, items: seq<T>, matches: (K, T) -> bool): (r: seq<T>)
    ensures |r| <= 1
  {
    match Find(items, MatchedBy(k, matches))
    case None => []
    case Some(v) => [v]
  }

  function MatchedBy<K, T>(k: K, matches: (K, T) -> bool): T -> bool {
    (x: T) => matches(k, x)
  }

  /** Looking up a concatenation of keys concatenates the lookups: key order is kept. */
  lemma {:induction false} LookupAllAppend<K, T>(a: seq<K>, b: seq<K>, items: seq<T>, matches: (K, T) -> bool)
    ensures LookupAll(a + b, items, matches) == LookupAll(a, items, matches) + LookupAll(b, items, matches)
  {
    if a == [] {
      assert a + b == b;
    } else {
      assert (a + b)[0] == a[0];
      assert (a + b)[1..] == a[1..] + b;
      LookupAllAppend(a[1..], b, items, matches);
    }
  }

  /** One key yields its first match, or nothing when no item matches it. */
  lemma LookupAllSingle<K, T>(k: K, items: seq<T>, matches: (K, T) -> bool)
    ensures LookupAll([k], items, matches) == LookupOne(k, items, matches)
  {
    assert [k][1..] == [];
  }

  /** Every item a lookup returns was matched by some key. */
  lemma {:induction false} LookupAllMatched<K, T>(keys: seq<K>, items: seq<T>, matches: (K, T) -> bool)
    ensures forall j | 0 <= j < |LookupAll(keys, items, matches)| ::
      LookupAll(keys, items, matches)[j] in items &&
      exists i | 0 <= i < |keys| :: matches(keys[i], LookupAll(keys, items, matches)[j])
  {
    if keys != [] {
      LookupAllMatched(keys[1..], items, matches);
      var r := LookupAll(keys, items, matches);
      var head := LookupOne(keys[0], items, matches);
      var rest := LookupAll(keys[1..], items, matches);
      assert r == head + rest;
      forall j | 0 <= j < |r|
        ensures r[j] in items && exists i | 0 <= i < |keys| :: matches(keys[i], r[j])
      {
        if j < |head| {
          assert matches(keys[0], r[j]);
        } else {
          assert r[j] == rest[j - |head|];
          var i' :| 0 <= i' < |keys[1..]| && matches(keys[1..][i'], rest[j - |head|]);
          assert matches(keys[i' + 1], r[j]);
        }
      }
    }
  }

  /** `xs.map(f)` where `f` may throw: the results in order, or the first failure. */
  function MapResult<A, B(==), E>(xs: seq<A>, f: A -> Result<B, E>): (r: Result<seq<B>, E>)
    ensures r.Ok? <==> forall i | 0 <= i < |xs| :: f(xs[i]).Ok?
    ensures r.Ok? ==> |r.value| == |xs| && forall i | 0 <= i < |xs| :: f(xs[i]).value == r.value[i]
  {
    if xs == [] then Ok([])
    else
      match f(xs[0])
      case Err(e) => Err(e)
      case Ok(y) =>
        match MapResult(xs[1..], f)
        case Err(e) => Err(e)
        case Ok(ys) => Ok([y] + ys)
  }

  /** A failing map reports the failure of its first failing element. */
  lemma {:induction false} MapResultFirstFailure<A, B, E>(xs: seq<A>, f: A -> Result<B, E>, i: nat)
    requires i < |xs| && f(xs[i]).Err?
    requires forall j | 0 <= j < i :: f(xs[j]).Ok?
    ensures MapResult(xs, f) == Err(f(xs[i]).error)
  {
    if i > 0 {
      MapResultFirstFailure(xs[1..], f, i - 1);
    }
  }
}
