/** The registry of federal relationships: chains of revisions in one append-only table, extended by
    an atomic compare-and-append, read by a bounded scan. */
module Federal {
  import opened Dicts
  import opened AuditLog
  import opened Domain

  datatype Revision = Revision(
    relationship: Id, id: Id, previous: Option<Id>, createdAt: int, bornAt: int, availableAt: int,
    verifiedAt: Option<int>, claim: Id)

  /** What decoding a stored revision checks, its digest aside. */
  predicate Decodable(r: Revision) {
    r.bornAt <= r.createdAt && r.availableAt <= r.createdAt && (r.verifiedAt.Some? ==> r.verifiedAt.value <= r.createdAt)
  }

  predicate ParentOk(parent: Option<Revision>, r: Revision) {
    match parent
    case None => r.previous == None
    case Some(p) => r.previous == Some(p.id) && p.createdAt <= r.createdAt && p.bornAt == r.bornAt
  }

  // ---- chains -------------------------------------------------------------------------------

  /** The last of the first `n` revisions that belongs to the relationship. */
  function LastBefore(revs: seq<Revision>, n: nat, rel: Id): Option<Revision>
    requires n <= |revs|
  {
    if n == 0 then None
    else if revs[n - 1].relationship == rel then Some(revs[n - 1])
    else LastBefore(revs, n - 1, rel)
  }

  function IdOf(r: Option<Revision>): Option<Id> {
    match r case None => None case Some(x) => Some(x.id)
  }

  /** Revision `i` is new, cites its relationship's last revision, and is not older. */
  ghost predicate Linked(revs: seq<Revision>, i: nat)
    requires i < |revs|
  {
    var parent := LastBefore(revs, i, revs[i].relationship);
    && (forall j :: 0 <= j < i ==> revs[j].id != revs[i].id)
    && revs[i].previous == IdOf(parent)
    && (parent.Some? ==> parent.value.createdAt <= revs[i].createdAt)
  }

  /** Oldest first, complete, without duplicates or branches. */
  ghost predicate ChainValid(revs: seq<Revision>) {
    forall i :: 0 <= i < |revs| ==> Linked(revs, i)
  }

  lemma {:induction false} LastIn(revs: seq<Revision>, n: nat, rel: Id)
    requires n <= |revs|
    ensures LastBefore(revs, n, rel).None? <==> forall j :: 0 <= j < n ==> revs[j].relationship != rel
    ensures LastBefore(revs, n, rel).Some? ==>
      exists j :: 0 <= j < n && revs[j] == LastBefore(revs, n, rel).value && revs[j].relationship == rel
                  && forall k :: j < k < n ==> revs[k].relationship != rel
  {
    if n > 0 && revs[n - 1].relationship != rel { LastIn(revs, n - 1, rel); }
  }

  lemma {:induction false} LastPrefix(revs: seq<Revision>, more: seq<Revision>, n: nat, rel: Id)
    requires n <= |revs| && revs <= more
    ensures LastBefore(more, n, rel) == LastBefore(revs, n, rel)
  {
    if n > 0 { LastPrefix(revs, more, n - 1, rel); }
  }

  lemma {:induction false} ChainGrows(revs: seq<Revision>, r: Revision)
    requires ChainValid(revs) && (forall j :: 0 <= j < |revs| ==> revs[j].id != r.id)
    requires r.previous == IdOf(LastBefore(revs, |revs|, r.relationship))
    requires LastBefore(revs, |revs|, r.relationship).Some? ==> LastBefore(revs, |revs|, r.relationship).value.createdAt <= r.createdAt
    ensures ChainValid(revs + [r])
  {
    var more := revs + [r];
    forall i | 0 <= i < |more| ensures Linked(more, i) {
      LastPrefix(revs, more, i, more[i].relationship);
      if i < |revs| { assert Linked(revs, i); }
    }
  }

  /** A parent has at most one child: of several revisions citing it, one is in the chain. */
  lemma {:induction false} OneChild(revs: seq<Revision>, i: nat, j: nat)
    requires ChainValid(revs) && i < j < |revs| && revs[i].relationship == revs[j].relationship
    ensures revs[i].previous != revs[j].previous
  {
    assert Linked(revs, i) && Linked(revs, j);
    LastIn(revs, i, revs[i].relationship);
    LastIn(revs, j, revs[j].relationship);
    var l :| 0 <= l < j && revs[l] == LastBefore(revs, j, revs[j].relationship).value && revs[l].relationship == revs[j].relationship
             && forall k :: l < k < j ==> revs[k].relationship != revs[j].relationship;
    assert l >= i;
    if revs[i].previous.Some? {
      var m :| 0 <= m < i && revs[m] == LastBefore(revs, i, revs[i].relationship).value;
      assert Linked(revs, l) && revs[m].id != revs[l].id;
    }
  }

  /** Along a relationship's chain creation times never go back. */
  lemma {:induction false} ChainInTime(revs: seq<Revision>, i: nat, j: nat)
    requires ChainValid(revs) && i <= j < |revs| && revs[i].relationship == revs[j].relationship
    ensures revs[i].createdAt <= revs[j].createdAt
    decreases j
  {
    if i < j {
      assert Linked(revs, j);
      LastIn(revs, j, revs[j].relationship);
      var l :| 0 <= l < j && revs[l] == LastBefore(revs, j, revs[j].relationship).value && revs[l].relationship == revs[j].relationship
               && forall k :: l < k < j ==> revs[k].relationship != revs[j].relationship;
      ChainInTime(revs, i, l);
    }
  }

  // ---- what was known at an instant ---------------------------------------------------------

  ghost predicate KnownAt(revs: seq<Revision>, i: int, instant: int) {
    0 <= i < |revs| && revs[i].createdAt <= instant
  }

  /** Known by then, and no revision known by then builds on it. */
  ghost predicate HeadAt(revs: seq<Revision>, i: int, instant: int) {
    && KnownAt(revs, i, instant)
    && forall j :: KnownAt(revs, j, instant) && revs[j].relationship == revs[i].relationship ==> revs[j].previous != Some(revs[i].id)
  }

  ghost predicate LastKnown(revs: seq<Revision>, i: int, n: nat, instant: int) {
    && i < n && KnownAt(revs, i, instant)
    && forall j :: i < j < n && j < |revs| && revs[j].relationship == revs[i].relationship ==> revs[j].createdAt > instant
  }

  /** In a valid chain the known revision appended last is the one on which no known one builds:
      later appends are no older. */
  lemma {:induction false} LastKnownIsHead(revs: seq<Revision>, i: int, instant: int)
    requires ChainValid(revs)
    ensures LastKnown(revs, i, |revs|, instant) <==> HeadAt(revs, i, instant)
  {
    if KnownAt(revs, i, instant) {
      var rel := revs[i].relationship;
      forall j | KnownAt(revs, j, instant) && revs[j].relationship == rel && revs[j].previous == Some(revs[i].id) ensures i < j {
        assert Linked(revs, j);
        LastIn(revs, j, rel);
        var l :| 0 <= l < j && revs[l] == LastBefore(revs, j, rel).value;
        if l < i { assert Linked(revs, i); } else if i < l { assert Linked(revs, l); }
      }
      if j :| i < j < |revs| && revs[j].relationship == rel && revs[j].createdAt <= instant {
        NextKnown(revs, i, j, instant);
      }
    }
  }

  /** If something known was appended later, something known cites the revision itself. */
  lemma {:induction false} NextKnown(revs: seq<Revision>, i: int, j: int, instant: int)
    requires ChainValid(revs) && KnownAt(revs, i, instant) && KnownAt(revs, j, instant)
    requires i < j && revs[j].relationship == revs[i].relationship
    ensures !HeadAt(revs, i, instant)
    decreases j
  {
    var rel := revs[i].relationship;
    assert Linked(revs, j);
    LastIn(revs, j, rel);
    var l :| 0 <= l < j && revs[l] == LastBefore(revs, j, rel).value && revs[l].relationship == rel
             && forall k :: l < k < j ==> revs[k].relationship != rel;
    if l == i {
      assert revs[j].previous == Some(revs[i].id);
    } else {
      assert l > i;
      ChainInTime(revs, l, j);
      NextKnown(revs, i, l, instant);
    }
  }

  lemma {:induction false} OneHead(revs: seq<Revision>, i: int, j: int, instant: int)
    requires ChainValid(revs) && HeadAt(revs, i, instant) && HeadAt(revs, j, instant) && revs[i].relationship == revs[j].relationship
    ensures i == j
  {
    if i < j { NextKnown(revs, i, j, instant); } else if j < i { NextKnown(revs, j, i, instant); }
  }
}
