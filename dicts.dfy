/** Python dictionaries whose key order matters (records of a table, merged metrics):
    a sequence of (key, value) pairs, with Python's assignment and `{**a, **b}` merge. */
module Dicts {

  type Dict<V> = seq<(string, V)>

  function Keys<V>(d: Dict<V>): set<string> {
    set i | 0 <= i < |d| :: d[i].0
  }

  /** No key occurs twice: every dictionary built by `Put` has this shape. */
  predicate Distinct<V>(d: Dict<V>) {
    forall i, j | 0 <= i < j < |d| :: d[i].0 != d[j].0
  }

  function Get<V>(d: Dict<V>, k: string): V
    requires k in Keys(d)
  {
    if d[0].0 == k then d[0].1 else Get(d[1..], k)
  }

  /** `d[k] = v`: an existing key keeps its place, a new key goes last. */
  function Put<V>(d: Dict<V>, k: string, v: V): Dict<V> {
    if d == [] then [(k, v)]
    else if d[0].0 == k then [(k, v)] + d[1..]
    else [d[0]] + Put(d[1..], k, v)
  }

  /** `{**a, **b}`: `b`'s pairs assigned into `a` in order. */
  function Merge<V>(a: Dict<V>, b: Dict<V>): Dict<V>
    decreases |b|
  {
    if b == [] then a else Merge(Put(a, b[0].0, b[0].1), b[1..])
  }

  /** `dict(zip(keys, values))`. */
  function Zip<V>(keys: seq<string>, values: seq<V>): Dict<V>
    requires |keys| == |values|
  {
    Merge([], seq(|keys|, i requires 0 <= i < |keys| => (keys[i], values[i])))
  }

  /** The dictionary as a map, for lookups that ignore order. */
  function AsMap<V>(d: Dict<V>): (m: map<string, V>)
    ensures m.Keys == Keys(d)
    ensures forall k | k in m :: m[k] == Get(d, k)
  {
    map k | k in Keys(d) :: Get(d, k)
  }

  lemma KeysCons<V>(x: (string, V), d: Dict<V>)
    ensures Keys([x] + d) == {x.0} + Keys(d)
  {
    var c := [x] + d;
    forall key | key in Keys(c) ensures key in {x.0} + Keys(d) {
      var i :| 0 <= i < |c| && c[i].0 == key;
      if i > 0 { assert d[i - 1] == c[i]; }
    }
    forall key | key in Keys(d) ensures key in Keys(c) {
      var i :| 0 <= i < |d| && d[i].0 == key;
      assert c[i + 1] == d[i];
    }
    assert c[0] == x;
  }

  lemma {:induction false} PutKeys<V>(d: Dict<V>, k: string, v: V)
    ensures Keys(Put(d, k, v)) == Keys(d) + {k}
    ensures Distinct(d) ==> Distinct(Put(d, k, v))
    ensures k in Keys(Put(d, k, v)) && Get(Put(d, k, v), k) == v
    ensures forall k' :: k' != k && k' in Keys(d) ==> Get(Put(d, k, v), k') == Get(d, k')
  {
    if d != [] && d[0].0 != k {
      PutKeys(d[1..], k, v);
      var r := Put(d, k, v);
      assert r == [d[0]] + Put(d[1..], k, v);
      assert d == [d[0]] + d[1..];
      KeysCons(d[0], d[1..]);
      KeysCons(d[0], Put(d[1..], k, v));
      forall k' | k' != k && k' in Keys(d) ensures Get(r, k') == Get(d, k') {
        if d[0].0 != k' {
          assert k' in Keys(d[1..]);
        }
      }
      if Distinct(d) {
        assert Distinct(d[1..]);
        forall j | 1 <= j < |r| ensures r[0].0 != r[j].0 {
          assert r[j] in Put(d[1..], k, v);
          assert r[j].0 in Keys(Put(d[1..], k, v));
          assert d[0].0 !in Keys(d[1..]);
        }
      }
    } else if d != [] {
      var r := Put(d, k, v);
      assert r == [(k, v)] + d[1..];
      assert d == [d[0]] + d[1..];
      KeysCons(d[0], d[1..]);
      KeysCons((k, v), d[1..]);
      forall k' | k' != k && k' in Keys(d) ensures Get(r, k') == Get(d, k') {
        assert k' in Keys(d[1..]);
      }
      if Distinct(d) {
        forall j | 1 <= j < |r| ensures r[0].0 != r[j].0 {
          assert r[j] == d[j];
        }
      }
    } else {
      assert Put(d, k, v) == [(k, v)];
      KeysCons((k, v), d);
    }
  }

  /** Merging keeps the keys of both sides, and a key of `b` takes `b`'s value: the later
      dictionary wins, as in `{**a, **b}`. */
  lemma {:induction false} MergeGet<V>(a: Dict<V>, b: Dict<V>)
    requires Distinct(b)
    ensures Keys(Merge(a, b)) == Keys(a) + Keys(b)
    ensures Distinct(a) ==> Distinct(Merge(a, b))
    ensures forall k :: k in Keys(b) ==> Get(Merge(a, b), k) == Get(b, k)
    ensures forall k :: k in Keys(a) && k !in Keys(b) ==> Get(Merge(a, b), k) == Get(a, k)
    decreases |b|
  {
    if b != [] {
      var a' := Put(a, b[0].0, b[0].1);
      PutKeys(a, b[0].0, b[0].1);
      assert Distinct(b[1..]);
      MergeGet(a', b[1..]);
      assert b == [b[0]] + b[1..];
      KeysCons(b[0], b[1..]);
      assert b[0].0 !in Keys(b[1..]);
      forall k | k in Keys(b) ensures Get(Merge(a, b), k) == Get(b, k) {
        if k != b[0].0 {
          assert k in Keys(b[1..]);
        }
      }
    }
  }

  /** Assigning a key the dictionary does not hold appends the pair. */
  lemma {:induction false} PutFresh<V>(d: Dict<V>, k: string, v: V)
    requires k !in Keys(d)
    ensures Put(d, k, v) == d + [(k, v)]
  {
    if d != [] {
      assert d[0].0 in Keys(d);
      assert Keys(d[1..]) <= Keys(d);
      PutFresh(d[1..], k, v);
      assert d == [d[0]] + d[1..];
    }
  }

  /** Assignment never repeats a key, whatever is merged in. */
  lemma {:induction false} MergeDistinct<V>(a: Dict<V>, b: Dict<V>)
    requires Distinct(a)
    ensures Distinct(Merge(a, b))
    decreases |b|
  {
    if b != [] {
      PutKeys(a, b[0].0, b[0].1);
      MergeDistinct(Put(a, b[0].0, b[0].1), b[1..]);
    }
  }

  /** A dictionary built from keys and values never repeats a key. */
  lemma ZipDistinct<V>(keys: seq<string>, values: seq<V>)
    requires |keys| == |values|
    ensures Distinct(Zip(keys, values))
  {
    MergeDistinct([], seq(|keys|, i requires 0 <= i < |keys| => (keys[i], values[i])));
  }
}
