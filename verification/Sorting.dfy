/** Stable sorting by a total preorder, and why sorting forgets the order it was given. */
module Sorting {
  function Insert<T>(le: (T, T) -> bool, x: T, xs: seq<T>): seq<T> {
    if xs == [] then [x]
    else if le(x, xs[0]) then [x] + xs
    else [xs[0]] + Insert(le, x, xs[1..])
  }

  function Sort<T>(le: (T, T) -> bool, xs: seq<T>): seq<T> {
    if xs == [] then [] else Insert(le, xs[0], Sort(le, xs[1..]))
  }

  ghost predicate Preorder<T(!new)>(le: (T, T) -> bool) {
    && (forall x, y :: le(x, y) || le(y, x))
    && (forall x, y, z :: le(x, y) && le(y, z) ==> le(x, z))
  }

  ghost predicate Sorted<T>(le: (T, T) -> bool, xs: seq<T>) {
    forall i, j :: 0 <= i < j < |xs| ==> le(xs[i], xs[j])
  }

  /** No two different elements are tied. */
  ghost predicate Untied<T>(le: (T, T) -> bool, xs: seq<T>) {
    forall x, y :: x in xs && y in xs && le(x, y) && le(y, x) ==> x == y
  }

  lemma {:induction false} InsertKeeps<T(!new)>(le: (T, T) -> bool, x: T, xs: seq<T>)
    requires Preorder(le) && Sorted(le, xs)
    ensures Sorted(le, Insert(le, x, xs))
    ensures multiset(Insert(le, x, xs)) == multiset(xs) + multiset{x}
  {
    if xs == [] {
    } else if le(x, xs[0]) {
      var r := Insert(le, x, xs);
      forall j | 0 < j < |r| ensures le(r[0], r[j]) { assert r[j] == xs[j - 1]; assert j > 1 ==> le(xs[0], xs[j - 1]); }
    } else {
      InsertKeeps(le, x, xs[1..]);
      var tail := Insert(le, x, xs[1..]);
      var r := Insert(le, x, xs);
      assert xs == [xs[0]] + xs[1..];
      forall j | 0 < j < |r| ensures le(r[0], r[j]) {
        assert r[j] == tail[j - 1] && tail[j - 1] in multiset(tail);
        if tail[j - 1] != x { assert tail[j - 1] in xs[1..]; }
      }
    }
  }

  lemma {:induction false} SortKeeps<T(!new)>(le: (T, T) -> bool, xs: seq<T>)
    requires Preorder(le)
    ensures Sorted(le, Sort(le, xs)) && multiset(Sort(le, xs)) == multiset(xs)
  {
    if xs != [] {
      SortKeeps(le, xs[1..]);
      InsertKeeps(le, xs[0], Sort(le, xs[1..]));
      assert xs == [xs[0]] + xs[1..];
    }
  }

  lemma SameHead<T(!new)>(le: (T, T) -> bool, a: seq<T>, b: seq<T>)
    requires Sorted(le, a) && Sorted(le, b) && Untied(le, a) && a != [] && b != []
    requires a[0] in b && b[0] in a
    ensures a[0] == b[0]
  {
    var i :| 0 <= i < |b| && b[i] == a[0];
    var j :| 0 <= j < |a| && a[j] == b[0];
    if i > 0 && j > 0 { assert le(b[0], b[i]) && le(a[0], a[j]); }
  }

  /** Two sorted arrangements of the same elements without ties are equal. */
  lemma {:induction false} SortedIsUnique<T(!new)>(le: (T, T) -> bool, a: seq<T>, b: seq<T>)
    requires Sorted(le, a) && Sorted(le, b) && multiset(a) == multiset(b) && Untied(le, a)
    ensures a == b
    decreases |a|
  {
    assert |multiset(a)| == |a| && |multiset(b)| == |b|;
    if a != [] {
      assert a[0] in multiset(b) && b[0] in multiset(a);
      SameHead(le, a, b);
      assert a == [a[0]] + a[1..] && b == [b[0]] + b[1..];
      assert multiset(a[1..]) == multiset(a) - multiset{a[0]};
      assert multiset(b[1..]) == multiset(b) - multiset{b[0]};
      SortedIsUnique(le, a[1..], b[1..]);
    }
  }

  /** Sorting an arrangement of an already sorted sequence without ties gives that sequence. */
  lemma {:induction false} SortFinds<T(!new)>(le: (T, T) -> bool, shuffled: seq<T>, sorted: seq<T>)
    requires Preorder(le) && Sorted(le, sorted) && Untied(le, sorted)
    requires multiset(shuffled) == multiset(sorted)
    ensures Sort(le, shuffled) == sorted
  {
    SortKeeps(le, shuffled);
    SortedIsUnique(le, sorted, Sort(le, shuffled));
  }

  ghost predicate Different<T>(xs: seq<T>) {
    forall i, j :: 0 <= i < j < |xs| ==> xs[i] != xs[j]
  }

  lemma {:induction false} Counted<T>(xs: seq<T>, i: nat)
    requires i < |xs|
    ensures multiset(xs) == multiset(xs[..i]) + multiset{xs[i]} + multiset(xs[i + 1..])
  {
    assert xs == xs[..i] + [xs[i]] + xs[i + 1..];
  }

  /** Arrangements of different elements have different elements. */
  lemma {:induction false} DifferentAgain<T>(xs: seq<T>, ys: seq<T>)
    requires Different(xs) && multiset(xs) == multiset(ys)
    ensures Different(ys)
  {
    forall i, j | 0 <= i < j < |ys| ensures ys[i] != ys[j] {
      Counted(ys, i);
      assert ys[j] in ys[i + 1..];
      assert ys[i] in multiset(ys);
      var k :| 0 <= k < |xs| && xs[k] == ys[i];
      Counted(xs, k);
      assert ys[i] !in xs[..k] && ys[i] !in xs[k + 1..];
    }
  }
}
