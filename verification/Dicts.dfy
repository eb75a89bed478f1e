/** Insertion-ordered dictionaries: assigning to a present key keeps its place, assigning to an
    absent key appends it, and sums over the values are finite sums in that order. */
module Dicts {
  datatype Option<+T> = None | Some(value: T)

  datatype Result<+T, +E> = Ok(value: T) | Err(error: E)

  type Dict<K, V> = seq<(K, V)>

  function Get<K(==), V>(d: Dict<K, V>, k: K): Option<V> {
    if d == [] then None
    else if d[0].0 == k then Some(d[0].1)
    else Get(d[1..], k)
  }

  predicate Has<K(==), V>(d: Dict<K, V>, k: K) {
    Get(d, k).Some?
  }

  function Put<K(==), V>(d: Dict<K, V>, k: K, v: V): Dict<K, V> {
    if d == [] then [(k, v)]
    else if d[0].0 == k then [(k, v)] + d[1..]
    else [d[0]] + Put(d[1..], k, v)
  }

  function Del<K(==), V>(d: Dict<K, V>, k: K): Dict<K, V> {
    if d == [] then []
    else if d[0].0 == k then d[1..]
    else [d[0]] + Del(d[1..], k)
  }

  function KeysOf<K(==), V>(d: Dict<K, V>): (ks: seq<K>)
    ensures |ks| == |d|
    ensures forall i :: 0 <= i < |d| ==> ks[i] == d[i].0
  {
    seq(|d|, i requires 0 <= i < |d| => d[i].0)
  }

  function ValuesOf<K(==), V>(d: Dict<K, V>): (vs: seq<V>)
    ensures |vs| == |d|
    ensures forall i :: 0 <= i < |d| ==> vs[i] == d[i].1
  {
    seq(|d|, i requires 0 <= i < |d| => d[i].1)
  }

  /** `{key(v): v for v in vs}`: a dictionary comprehension. */
  function FromValues<K(==), V>(key: V -> K, vs: seq<V>): Dict<K, V> {
    if vs == [] then [] else Put(FromValues(key, vs[..|vs| - 1]), key(vs[|vs| - 1]), vs[|vs| - 1])
  }

  ghost predicate Distinct<K, V>(d: Dict<K, V>) {
    forall i, j :: 0 <= i < j < |d| ==> d[i].0 != d[j].0
  }

  ghost predicate KeyedBy<K, V>(key: V -> K, d: Dict<K, V>) {
    forall i :: 0 <= i < |d| ==> d[i].0 == key(d[i].1)
  }

  lemma {:induction false} GetAt<K, V>(d: Dict<K, V>, k: K)
    ensures Get(d, k).None? <==> forall i :: 0 <= i < |d| ==> d[i].0 != k
    ensures Get(d, k).Some? ==> exists i :: 0 <= i < |d| && d[i] == (k, Get(d, k).value)
  {
    if d != [] && d[0].0 != k {
      GetAt(d[1..], k);
      if Get(d, k).Some? {
        var i :| 0 <= i < |d[1..]| && d[1..][i] == (k, Get(d[1..], k).value);
        assert d[i + 1] == (k, Get(d, k).value);
      } else {
        assert forall i :: 0 < i < |d| ==> d[i] == d[1..][i - 1];
      }
    }
  }

  lemma {:induction false} GetDistinct<K, V>(d: Dict<K, V>, i: nat)
    requires Distinct(d) && i < |d|
    ensures Get(d, d[i].0) == Some(d[i].1)
  {
    if i > 0 {
      assert d[i] == d[1..][i - 1];
      GetDistinct(d[1..], i - 1);
    }
  }

  lemma {:induction false} GetPut<K, V>(d: Dict<K, V>, k: K, v: V, j: K)
    ensures Get(Put(d, k, v), j) == if j == k then Some(v) else Get(d, j)
  {
    if d != [] && d[0].0 != k {
      GetPut(d[1..], k, v, j);
      assert Put(d, k, v)[1..] == Put(d[1..], k, v);
    } else if d != [] {
      assert Put(d, k, v)[1..] == d[1..];
    }
  }

  lemma {:induction false} PutNew<K, V>(d: Dict<K, V>, k: K, v: V)
    requires !Has(d, k)
    ensures Put(d, k, v) == d + [(k, v)]
    decreases |d|
  {
    if d != [] {
      PutNew(d[1..], k, v);
      assert [d[0]] + (d[1..] + [(k, v)]) == d + [(k, v)];
    }
  }

  lemma {:induction false} PutOld<K, V>(d: Dict<K, V>, k: K, v: V)
    requires Has(d, k)
    ensures |Put(d, k, v)| == |d|
    ensures forall i :: 0 <= i < |d| ==> Put(d, k, v)[i].0 == d[i].0 && (Put(d, k, v)[i] == (k, v) || Put(d, k, v)[i] == d[i])
    decreases |d|
  {
    if d[0].0 != k {
      PutOld(d[1..], k, v);
      var q := Put(d[1..], k, v);
      assert Put(d, k, v) == [d[0]] + q;
      forall i | 0 <= i < |d|
        ensures Put(d, k, v)[i].0 == d[i].0 && (Put(d, k, v)[i] == (k, v) || Put(d, k, v)[i] == d[i])
      {
        if i > 0 { assert Put(d, k, v)[i] == q[i - 1] && d[1..][i - 1] == d[i]; }
      }
    }
  }

  lemma {:induction false} PutShape<K, V>(d: Dict<K, V>, k: K, v: V)
    ensures Has(d, k) ==> KeysOf(Put(d, k, v)) == KeysOf(d)
    ensures !Has(d, k) ==> Put(d, k, v) == d + [(k, v)]
    ensures Distinct(d) ==> Distinct(Put(d, k, v))
    ensures forall i :: 0 <= i < |Put(d, k, v)| ==>
      Put(d, k, v)[i] == (k, v) || (i < |d| && Put(d, k, v)[i] == d[i])
  {
    if Has(d, k) {
      PutOld(d, k, v);
    } else {
      PutNew(d, k, v);
      GetAt(d, k);
    }
  }

  lemma {:induction false} DelShape<K, V>(d: Dict<K, V>, k: K)
    requires Distinct(d)
    ensures Distinct(Del(d, k))
    ensures forall j :: Get(Del(d, k), j) == if j == k then None else Get(d, j)
    ensures forall i :: 0 <= i < |Del(d, k)| ==> Del(d, k)[i] in d
  {
    if d != [] {
      if d[0].0 == k {
        forall j ensures Get(d[1..], j) == if j == k then None else Get(d, j) {
          if j == k { GetAt(d[1..], k); }
        }
      } else {
        DelShape(d[1..], k);
        var r := Del(d, k);
        assert r[1..] == Del(d[1..], k);
        forall i, j | 0 <= i < j < |r| ensures r[i].0 != r[j].0 {
          assert r[j] == Del(d[1..], k)[j - 1] && r[j] in d[1..];
        }
      }
    }
  }

  lemma {:induction false} DelCount<K, V>(d: Dict<K, V>, k: K)
    ensures |Del(d, k)| == |d| - if Has(d, k) then 1 else 0
    ensures !Has(d, k) ==> Del(d, k) == d
  {
    if d != [] && d[0].0 != k { DelCount(d[1..], k); }
  }

  lemma {:induction false} GetDel<K, V>(d: Dict<K, V>, k: K, j: K)
    requires j != k
    ensures Get(Del(d, k), j) == Get(d, j)
  {
    if d != [] && d[0].0 != k {
      GetDel(d[1..], k, j);
      assert Del(d, k)[1..] == Del(d[1..], k);
    }
  }

  lemma SmallerSet<T>(a: set<T>, b: set<T>)
    requires a <= b
    ensures |a| <= |b|
  {
    assert b == a + (b - a);
  }

  /** The sum of `f` over the values. */
  function Sum<K(==), V>(f: V -> real, d: Dict<K, V>): real {
    if d == [] then 0.0 else f(d[0].1) + Sum(f, d[1..])
  }

  /** The integer sum of `f` over the values. */
  function Count<K(==), V>(f: V -> int, d: Dict<K, V>): int {
    if d == [] then 0 else f(d[0].1) + Count(f, d[1..])
  }

  function At<V>(f: V -> real, o: Option<V>): real {
    match o case None => 0.0 case Some(v) => f(v)
  }

  function CountAt<V>(f: V -> int, o: Option<V>): int {
    match o case None => 0 case Some(v) => f(v)
  }

  lemma {:induction false} SumPut<K, V>(f: V -> real, d: Dict<K, V>, k: K, v: V)
    ensures Sum(f, Put(d, k, v)) == Sum(f, d) - At(f, Get(d, k)) + f(v)
  {
    if d != [] && d[0].0 != k {
      SumPut(f, d[1..], k, v);
      assert Put(d, k, v)[1..] == Put(d[1..], k, v);
    } else if d != [] {
      assert Put(d, k, v)[1..] == d[1..];
    }
  }

  lemma {:induction false} CountPut<K, V>(f: V -> int, d: Dict<K, V>, k: K, v: V)
    ensures Count(f, Put(d, k, v)) == Count(f, d) - CountAt(f, Get(d, k)) + f(v)
  {
    if d != [] && d[0].0 != k {
      CountPut(f, d[1..], k, v);
      assert Put(d, k, v)[1..] == Put(d[1..], k, v);
    } else if d != [] {
      assert Put(d, k, v)[1..] == d[1..];
    }
  }

  lemma {:induction false} SumDel<K, V>(f: V -> real, d: Dict<K, V>, k: K)
    ensures Sum(f, Del(d, k)) == Sum(f, d) - At(f, Get(d, k))
  {
    if d != [] && d[0].0 != k {
      SumDel(f, d[1..], k);
      assert Del(d, k)[1..] == Del(d[1..], k);
    }
  }

  /** A sum of non-negative terms is at least each of its terms. */
  lemma {:induction false} SumAtLeast<K, V>(f: V -> real, d: Dict<K, V>, k: K)
    requires forall i :: 0 <= i < |d| ==> f(d[i].1) >= 0.0
    ensures 0.0 <= At(f, Get(d, k)) <= Sum(f, d)
  {
    if d != [] {
      forall i | 0 <= i < |d[1..]| ensures f(d[1..][i].1) >= 0.0 { assert d[1..][i] == d[i + 1]; }
      SumAtLeast(f, d[1..], k);
      assert f(d[0].1) >= 0.0;
    }
  }

  lemma {:induction false} CountAtLeast<K, V>(f: V -> int, d: Dict<K, V>, k: K)
    requires forall i :: 0 <= i < |d| ==> f(d[i].1) >= 0
    ensures 0 <= CountAt(f, Get(d, k)) <= Count(f, d)
  {
    if d != [] {
      forall i | 0 <= i < |d[1..]| ensures f(d[1..][i].1) >= 0 { assert d[1..][i] == d[i + 1]; }
      CountAtLeast(f, d[1..], k);
      assert f(d[0].1) >= 0;
    }
  }

  /** Value by value, a smaller dictionary has the smaller sum. */
  lemma {:induction false} SumMonotone<K, V>(f: V -> real, d: Dict<K, V>, e: Dict<K, V>)
    requires |d| == |e|
    requires forall i :: 0 <= i < |d| ==> f(d[i].1) <= f(e[i].1)
    ensures Sum(f, d) <= Sum(f, e)
  {
    if d != [] {
      forall i | 0 <= i < |d[1..]| ensures f(d[1..][i].1) <= f(e[1..][i].1) {
        assert d[1..][i] == d[i + 1] && e[1..][i] == e[i + 1];
      }
      SumMonotone(f, d[1..], e[1..]);
      assert f(d[0].1) <= f(e[0].1);
    }
  }

  lemma {:induction false} CountMonotone<K, V>(f: V -> int, d: Dict<K, V>, e: Dict<K, V>)
    requires |d| == |e|
    requires forall i :: 0 <= i < |d| ==> f(d[i].1) <= f(e[i].1)
    ensures Count(f, d) <= Count(f, e)
  {
    if d != [] {
      forall i | 0 <= i < |d[1..]| ensures f(d[1..][i].1) <= f(e[1..][i].1) {
        assert d[1..][i] == d[i + 1] && e[1..][i] == e[i + 1];
      }
      CountMonotone(f, d[1..], e[1..]);
      assert f(d[0].1) <= f(e[0].1);
    }
  }

  lemma {:induction false} CountZero<K, V>(f: V -> int, d: Dict<K, V>)
    requires forall i :: 0 <= i < |d| ==> f(d[i].1) == 0
    ensures Count(f, d) == 0
  {
    if d != [] {
      forall i | 0 <= i < |d[1..]| ensures f(d[1..][i].1) == 0 { assert d[1..][i] == d[i + 1]; }
      CountZero(f, d[1..]);
    }
  }

  /** Writing out the values of a dictionary and rebuilding it by key gives it back, order and
      all, exactly because its keys are distinct and are the keys of its values. */
  lemma {:induction false} Rebuild<K, V>(key: V -> K, d: Dict<K, V>)
    requires Distinct(d) && KeyedBy(key, d)
    ensures FromValues(key, ValuesOf(d)) == d
  {
    if d != [] {
      var n := |d| - 1;
      assert ValuesOf(d)[..n] == ValuesOf(d[..n]);
      Rebuild(key, d[..n]);
      GetAt(d[..n], d[n].0);
      PutShape(d[..n], d[n].0, d[n].1);
      assert d == d[..n] + [d[n]];
    }
    else { assert ValuesOf(d) == []; }
  }
}
