/** A Python `dict` with string keys, kept as its list of (key, value) pairs in
    insertion order, so that iteration order, `keys()` and `values()` are those
    of the dictionary. */
module Dicts {
  import opened Wrappers

  type Dict<V> = seq<(string, V)>

  /** `list(d.keys())` */
  function Keys<V>(d: Dict<V>): (ks: seq<string>)
    ensures |ks| == |d|
    ensures forall i :: 0 <= i < |d| ==> ks[i] == d[i].0
  {
    if d == [] then [] else [d[0].0] + Keys(d[1..])
  }

  /** `list(d.values())` */
  function Values<V>(d: Dict<V>): (vs: seq<V>)
    ensures |vs| == |d|
    ensures forall i :: 0 <= i < |d| ==> vs[i] == d[i].1
  {
    if d == [] then [] else [d[0].1] + Values(d[1..])
  }

  /** `d[k]` when `k in d`, and `None` otherwise. */
  function Lookup<V>(d: Dict<V>, k: string): (r: Option<V>)
    ensures r.Some? ==> (k, r.value) in d
    ensures r.None? <==> forall i :: 0 <= i < |d| ==> d[i].0 != k
  {
    if d == [] then None
    else if d[0].0 == k then Some(d[0].1)
    else Lookup(d[1..], k)
  }

  /** A lookup finds the first pair with the key. */
  lemma {:induction false} LookupFirst<V>(d: Dict<V>, i: nat, k: string)
    requires i < |d| && d[i].0 == k
    requires forall j :: 0 <= j < i ==> d[j].0 != k
    ensures Lookup(d, k) == Some(d[i].1)
  {
    if i > 0 {
      LookupFirst(d[1..], i - 1, k);
    }
  }

  /** `k in d` */
  predicate HasKey<V>(d: Dict<V>, k: string)
  {
    Lookup(d, k).Some?
  }

  /** `d[k] = v`: a present key keeps its position and takes the new value, an
      absent key is added at the end. */
  function Assign<V>(d: Dict<V>, k: string, v: V): (r: Dict<V>)
    ensures Lookup(r, k) == Some(v)
    ensures forall k' :: k' != k ==> Lookup(r, k') == Lookup(d, k')
    ensures !HasKey(d, k) ==> r == d + [(k, v)]
    ensures HasKey(d, k) ==> |r| == |d| && forall i :: 0 <= i < |d| ==> r[i].0 == d[i].0
  {
    if d == [] then [(k, v)]
    else if d[0].0 == k then [(k, v)] + d[1..]
    else [d[0]] + Assign(d[1..], k, v)
  }

  /** `dict(pairs)`, `{k: v for k, v in pairs}`: each pair assigned in turn. */
  function FromPairs<V>(ps: seq<(string, V)>): (r: Dict<V>)
  {
    if ps == [] then [] else Assign(FromPairs(ps[..|ps| - 1]), ps[|ps| - 1].0, ps[|ps| - 1].1)
  }

  /** Building from one more pair assigns that pair. */
  lemma FromPairsStep<V>(ps: seq<(string, V)>, j: nat)
    requires j < |ps|
    ensures FromPairs(ps[..j + 1]) == Assign(FromPairs(ps[..j]), ps[j].0, ps[j].1)
  {
    assert ps[..j + 1][..j] == ps[..j];
  }

  /** The value of the last pair whose key is `k`. */
  function LastValue<V>(ps: seq<(string, V)>, k: string): Option<V>
  {
    if ps == [] then None
    else if ps[|ps| - 1].0 == k then Some(ps[|ps| - 1].1)
    else LastValue(ps[..|ps| - 1], k)
  }

  /** A lookup in a concatenation finds the key in the first part if it is
      there, and in the second otherwise. */
  lemma {:induction false} LookupAppend<V>(a: Dict<V>, b: Dict<V>, k: string)
    ensures Lookup(a + b, k) == if HasKey(a, k) then Lookup(a, k) else Lookup(b, k)
  {
    if a == [] {
      assert a + b == b;
    } else {
      assert (a + b)[0] == a[0];
      assert (a + b)[1..] == a[1..] + b;
      if a[0].0 != k {
        LookupAppend(a[1..], b, k);
        assert HasKey(a, k) == HasKey(a[1..], k);
      }
    }
  }

  /** A dictionary built from pairs has exactly the keys of the pairs. */
  lemma {:induction false} FromPairsHasKey<V>(ps: seq<(string, V)>, k: string)
    ensures HasKey(FromPairs(ps), k) <==> exists i :: 0 <= i < |ps| && ps[i].0 == k
  {
    FromPairsLookup(ps, k);
    LastValueNone(ps, k);
  }

  lemma {:induction false} LastValueNone<V>(ps: seq<(string, V)>, k: string)
    ensures LastValue(ps, k).None? <==> forall i :: 0 <= i < |ps| ==> ps[i].0 != k
  {
    if ps != [] {
      LastValueNone(ps[..|ps| - 1], k);
    }
  }

  /** No key occurs in two pairs. */
  predicate DistinctKeys<V>(ps: seq<(string, V)>)
  {
    forall i, j :: 0 <= i < j < |ps| ==> ps[i].0 != ps[j].0
  }

  /** In a dictionary built from pairs, a key holds the value of its last pair:
      later assignments overwrite earlier ones. */
  lemma {:induction false} FromPairsLookup<V>(ps: seq<(string, V)>, k: string)
    ensures Lookup(FromPairs(ps), k) == LastValue(ps, k)
  {
    if ps != [] {
      FromPairsLookup(ps[..|ps| - 1], k);
    }
  }

  /** With no key repeated, building a dictionary keeps every pair, in order. */
  lemma {:induction false} FromPairsDistinct<V>(ps: seq<(string, V)>)
    requires DistinctKeys(ps)
    ensures FromPairs(ps) == ps
  {
    if ps != [] {
      var init := ps[..|ps| - 1];
      var last := ps[|ps| - 1];
      assert DistinctKeys(init);
      FromPairsDistinct(init);
      assert !HasKey(init, last.0);
      assert FromPairs(ps) == Assign(init, last.0, last.1);
      assert init + [last] == ps;
    }
  }
}
