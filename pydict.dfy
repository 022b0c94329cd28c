/**
  A Python `dict` as a sequence of (key, value) entries in insertion order.
  Assigning to a key that is present keeps its position; assigning to a new key
  appends it; `pop` removes the key and leaves the other entries in order.
 */
module PyDict {
  import opened Wrappers

  type Dict<K, V> = seq<(K, V)>

  /** No element occurs twice. */
  predicate Distinct<T(==)>(s: seq<T>) {
    forall i, j :: 0 <= i < j < |s| ==> s[i] != s[j]
  }

  lemma DistinctCons<T>(x: T, t: seq<T>)
    requires x !in t && Distinct(t)
    ensures Distinct([x] + t)
  {
    forall i, j | 0 <= i < j < |[x] + t| ensures ([x] + t)[i] != ([x] + t)[j] {
      if i > 0 {
        assert ([x] + t)[i] == t[i - 1] && ([x] + t)[j] == t[j - 1];
      } else {
        assert ([x] + t)[j] == t[j - 1];
      }
    }
  }

  lemma DistinctSnoc<T>(t: seq<T>, x: T)
    requires x !in t && Distinct(t)
    ensures Distinct(t + [x])
  {
  }

  /** The keys in iteration order (`list(d)`). */
  function Keys<K, V>(d: Dict<K, V>): (ks: seq<K>)
  {
    if d == [] then [] else [d[0].0] + Keys(d[1..])
  }

  /** Every key occurs once, as in a real dict. */
  predicate Valid<K(==), V>(d: Dict<K, V>) {
    Distinct(Keys(d))
  }

  /** `d.get(k)`: the value stored under `k`, if any. */
  function Get<K(==), V>(d: Dict<K, V>, k: K): (r: Option<V>)
    ensures r.Some? <==> k in Keys(d)
    ensures r.Some? ==> (k, r.value) in d
  {
    if d == [] then None
    else if d[0].0 == k then Some(d[0].1)
    else Get(d[1..], k)
  }

  /** `s` with every occurrence of `x` removed, the rest in order. */
  function Without<T(==,!new)>(s: seq<T>, x: T): (r: seq<T>)
    ensures forall y :: y in r <==> y in s && y != x
    ensures Distinct(s) ==> Distinct(r)
  {
    if s == [] then []
    else if s[0] == x then Without(s[1..], x)
    else
      var rest := Without(s[1..], x);
      assert Distinct(s) ==> Distinct([s[0]] + rest) by {
        if Distinct(s) {
          assert s[0] !in s[1..] by {
            forall j | 0 <= j < |s[1..]| ensures s[1..][j] != s[0] { assert s[1..][j] == s[j + 1]; }
          }
          assert Distinct(s[1..]) by {
            forall i, j | 0 <= i < j < |s[1..]| ensures s[1..][i] != s[1..][j] { assert s[1..][i] == s[i + 1]; }
          }
          DistinctCons(s[0], rest);
        }
      }
      [s[0]] + rest
  }

  /** `d[k] = v`. */
  function Put<K(==,!new), V>(d: Dict<K, V>, k: K, v: V): (r: Dict<K, V>)
    ensures Get(r, k) == Some(v)
    ensures forall k' :: k' != k ==> Get(r, k') == Get(d, k')
    ensures Keys(r) == if k in Keys(d) then Keys(d) else Keys(d) + [k]
    ensures Valid(d) ==> Valid(r)
  {
    var r := Assign(d, k, v);
    assert Valid(d) ==> Valid(r) by {
      if Valid(d) && k !in Keys(d) {
        DistinctSnoc(Keys(d), k);
      }
    }
    r
  }

  /** The entry-by-entry walk behind `Put`: replace the entry for `k`, or append one. */
  function Assign<K(==,!new), V>(d: Dict<K, V>, k: K, v: V): (r: Dict<K, V>)
    ensures Get(r, k) == Some(v)
    ensures forall k' :: k' != k ==> Get(r, k') == Get(d, k')
    ensures Keys(r) == if k in Keys(d) then Keys(d) else Keys(d) + [k]
  {
    if d == [] then [(k, v)]
    else if d[0].0 == k then
      var r := [(k, v)] + d[1..];
      assert r[1..] == d[1..];
      r
    else
      var rest := Assign(d[1..], k, v);
      var r := [d[0]] + rest;
      assert r[1..] == rest;
      r
  }

  /** `d.pop(k, None)`. */
  function Pop<K(==,!new), V>(d: Dict<K, V>, k: K): (r: Dict<K, V>)
    ensures Get(r, k) == None
    ensures forall k' :: k' != k ==> Get(r, k') == Get(d, k')
    ensures Keys(r) == Without(Keys(d), k)
    ensures Valid(d) ==> Valid(r)
  {
    if d == [] then []
    else if d[0].0 == k then Pop(d[1..], k)
    else
      var rest := Pop(d[1..], k);
      assert Keys([d[0]] + rest) == [d[0].0] + Keys(rest);
      [d[0]] + rest
  }

  /** Assigning twice to one key is the same as assigning the second value once. */
  lemma {:induction false} PutTwice<K(!new), V>(d: Dict<K, V>, k: K, v: V, w: V)
    ensures Put(Put(d, k, v), k, w) == Put(d, k, w)
  {
    if d != [] && d[0].0 != k {
      PutTwice(d[1..], k, v, w);
      assert ([d[0]] + Put(d[1..], k, v))[1..] == Put(d[1..], k, v);
    }
  }

  /** `Keys` lists the entries' keys position by position. */
  lemma {:induction false} KeysAt<K, V>(d: Dict<K, V>)
    ensures |Keys(d)| == |d|
    ensures forall i :: 0 <= i < |d| ==> Keys(d)[i] == d[i].0
  {
    if d != [] {
      KeysAt(d[1..]);
      forall i | 0 < i < |d| ensures Keys(d)[i] == d[i].0 {
        assert Keys(d)[i] == Keys(d[1..])[i - 1];
      }
    }
  }

  /** In a valid dict, looking up the key of entry `i` finds that entry's value. */
  lemma {:induction false} GetAt<K, V>(d: Dict<K, V>, i: nat)
    requires Valid(d) && i < |d|
    ensures Get(d, d[i].0) == Some(d[i].1)
  {
    KeysAt(d);
    if i > 0 {
      assert Keys(d)[0] != Keys(d)[i];
      assert Valid(d[1..]) by {
        KeysAt(d[1..]);
        forall a, b | 0 <= a < b < |d[1..]| ensures Keys(d[1..])[a] != Keys(d[1..])[b] {
          assert Keys(d)[a + 1] != Keys(d)[b + 1];
        }
      }
      GetAt(d[1..], i - 1);
    }
  }
}
