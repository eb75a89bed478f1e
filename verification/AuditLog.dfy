/** One table of the append-only audit repository. */
module AuditLog {
  import opened Dicts

  datatype Row<P> = Row(sequence: nat, payload: P)

  /** Rows are numbered in the order of their appends, from 1. */
  ghost predicate Numbered<P>(rows: seq<Row<P>>) {
    forall i :: 0 <= i < |rows| ==> rows[i].sequence == i + 1
  }

  function Number<P>(n: nat, ps: seq<P>): seq<Row<P>> {
    seq(|ps|, i requires 0 <= i < |ps| => Row(n + i + 1, ps[i]))
  }

  /** The rows kept by a filter, newest first. */
  function Newest<P>(rows: seq<Row<P>>, keep: P -> bool): seq<Row<P>> {
    if rows == [] then []
    else
      var last := rows[|rows| - 1];
      (if keep(last.payload) then [last] else []) + Newest(rows[..|rows| - 1], keep)
  }

  function Before<P>(rows: seq<Row<P>>, cursor: Option<nat>): seq<Row<P>> {
    match cursor case None => rows case Some(c) => if 0 < c <= |rows| then rows[..c - 1] else if c == 0 then [] else rows
  }

  function Take<P>(rows: seq<Row<P>>, limit: nat): seq<Row<P>> {
    if |rows| <= limit then rows else rows[..limit]
  }

  ghost predicate Stands<P>(rows: seq<Row<P>>, r: Row<P>) {
    0 < r.sequence <= |rows| && rows[r.sequence - 1] == r
  }

  lemma {:induction false} NewestStand<P>(rows: seq<Row<P>>, keep: P -> bool)
    requires Numbered(rows)
    ensures forall i :: 0 <= i < |Newest(rows, keep)| ==>
      keep(Newest(rows, keep)[i].payload) && Stands(rows, Newest(rows, keep)[i])
    decreases |rows|
  {
    if rows != [] {
      var n := |rows| - 1;
      var all, rest := Newest(rows, keep), Newest(rows[..n], keep);
      NewestStand(rows[..n], keep);
      forall i | 0 <= i < |all| ensures keep(all[i].payload) && Stands(rows, all[i]) {
        if keep(rows[n].payload) {
          assert all == [rows[n]] + rest;
          if i > 0 { assert all[i] == rest[i - 1] && Stands(rows[..n], rest[i - 1]); }
        } else {
          assert all[i] == rest[i] && Stands(rows[..n], rest[i]);
        }
      }
    }
  }

  lemma {:induction false} NewestDescend<P>(rows: seq<Row<P>>, keep: P -> bool)
    requires Numbered(rows)
    ensures forall i, j :: 0 <= i < j < |Newest(rows, keep)| ==>
      Newest(rows, keep)[i].sequence > Newest(rows, keep)[j].sequence
    decreases |rows|
  {
    if rows != [] {
      var n := |rows| - 1;
      var all, rest := Newest(rows, keep), Newest(rows[..n], keep);
      NewestDescend(rows[..n], keep);
      NewestStand(rows[..n], keep);
      forall i, j | 0 <= i < j < |all| ensures all[i].sequence > all[j].sequence {
        if keep(rows[n].payload) {
          assert all == [rows[n]] + rest && Stands(rows[..n], rest[j - 1]);
          if i > 0 { assert rest[i - 1].sequence > rest[j - 1].sequence; }
        } else {
          assert rest[i].sequence > rest[j].sequence;
        }
      }
    }
  }

  lemma {:induction false} NewestComplete<P>(rows: seq<Row<P>>, keep: P -> bool, k: nat)
    requires k < |rows| && keep(rows[k].payload)
    ensures exists i :: 0 <= i < |Newest(rows, keep)| && Newest(rows, keep)[i] == rows[k]
    decreases |rows|
  {
    var n := |rows| - 1;
    if k == n {
      assert Newest(rows, keep)[0] == rows[n];
    } else {
      NewestComplete(rows[..n], keep, k);
      var rest := Newest(rows[..n], keep);
      var i :| 0 <= i < |rest| && rest[i] == rows[..n][k];
      var at := if keep(rows[n].payload) then i + 1 else i;
      assert Newest(rows, keep)[at] == rest[i];
    }
  }

  /** What is left after the first `k` rows of a listing is the listing before their last. */
  lemma {:induction false} NewestAfter<P>(rows: seq<Row<P>>, keep: P -> bool, k: nat)
    requires Numbered(rows) && 0 < k <= |Newest(rows, keep)|
    ensures var all := Newest(rows, keep); var c := all[k - 1].sequence;
      0 < c <= |rows| && all[k..] == Newest(rows[..c - 1], keep)
    decreases |rows|
  {
    var n := |rows| - 1;
    var all, rest := Newest(rows, keep), Newest(rows[..n], keep);
    if keep(rows[n].payload) {
      assert all[1..] == rest;
      if k > 1 {
        NewestAfter(rows[..n], keep, k - 1);
        var c := rest[k - 2].sequence;
        assert all[k - 1] == rest[k - 2] && all[k..] == rest[k - 1..];
        assert rows[..n][..c - 1] == rows[..c - 1];
      }
    } else {
      assert all == rest;
      NewestAfter(rows[..n], keep, k);
      var c := all[k - 1].sequence;
      assert rows[..n][..c - 1] == rows[..c - 1];
    }
  }

  function Cut<P>(rows: seq<Row<P>>, i: nat): seq<Row<P>> {
    if i < |rows| then rows[..i] else rows
  }

  lemma Uncut<P>(rows: seq<Row<P>>, cursor: Option<nat>)
    ensures Cut(Before(rows, cursor), |rows|) == Before(rows, cursor)
  {
  }

  /** Walking back over one row takes it if it lies before the cursor and is kept. */
  lemma CutOne<P>(rows: seq<Row<P>>, cursor: Option<nat>, i: nat, keep: P -> bool)
    requires Numbered(rows) && i < |rows|
    ensures Newest(Cut(Before(rows, cursor), i + 1), keep) ==
      (if (cursor.None? || rows[i].sequence < cursor.value) && keep(rows[i].payload) then [rows[i]] else [])
      + Newest(Cut(Before(rows, cursor), i), keep)
  {
    var visible := Before(rows, cursor);
    if i < |visible| {
      var more := Cut(visible, i + 1);
      assert more == visible[..i + 1] && more[..i] == visible[..i] && more[i] == rows[i];
    } else {
      assert Cut(visible, i + 1) == Cut(visible, i);
    }
  }

  class InMemoryAuditRepository<P(==)> {
    var rows: seq<Row<P>>

    constructor ()
      ensures rows == []
    {
      rows := [];
    }

    method Append(p: P)
      requires Numbered(rows)
      modifies this
      ensures rows == old(rows) + [Row(|old(rows)| + 1, p)] && Numbered(rows)
    {
      rows := rows + [Row(|rows| + 1, p)];
    }

    /** `None` is the refused limit. */
    method ListPayloads(keep: P -> bool, limit: int, cursor: Option<nat>) returns (page: Option<seq<Row<P>>>)
      requires Numbered(rows)
      ensures page == if 1 <= limit <= 10000 then Some(Take(Newest(Before(rows, cursor), keep), limit)) else None
    {
      if limit < 1 || limit > 10000 { return None; }
      var found: seq<Row<P>> := [];
      var i := |rows|;
      ghost var visible := Before(rows, cursor);
      Uncut(rows, cursor);
      while i > 0
        invariant 0 <= i <= |rows|
        invariant found + Newest(Cut(visible, i), keep) == Newest(visible, keep)
      {
        i := i - 1;
        CutOne(rows, cursor, i, keep);
        if (cursor.None? || rows[i].sequence < cursor.value) && keep(rows[i].payload) {
          found := found + [rows[i]];
        }
      }
      assert Cut(visible, 0) == [] && found + [] == found;
      return Some(Take(found, limit));
    }

    method FindPayload(keep: P -> bool) returns (found: Option<Row<P>>)
      requires Numbered(rows)
      ensures found == if Newest(rows, keep) == [] then None else Some(Newest(rows, keep)[0])
    {
      var page := ListPayloads(keep, 1, None);
      return if page.value == [] then None else Some(page.value[0]);
    }
  }
}
