/** The registry service over its table, under concurrent writers. */
module RegistryService {
  import opened Dicts
  import opened Domain
  import opened AuditLog
  import opened Journal
  import opened Federal

  function Payloads(rows: seq<Row<Revision>>): seq<Revision> {
    seq(|rows|, i requires 0 <= i < |rows| => rows[i].payload)
  }

  function Reversed(revs: seq<Revision>): seq<Revision> {
    seq(|revs|, i requires 0 <= i < |revs| => revs[|revs| - 1 - i])
  }

  function Concerns(rel: Option<Id>): Revision -> bool {
    (r: Revision) => rel.None? || r.relationship == rel.value
  }

  /** The revisions of one relationship, or all, oldest first. */
  function History(revs: seq<Revision>, rel: Option<Id>): seq<Revision> {
    if revs == [] then []
    else
      History(revs[..|revs| - 1], rel) + if Concerns(rel)(revs[|revs| - 1]) then [revs[|revs| - 1]] else []
  }

  ghost predicate LogOk(rows: seq<Row<Revision>>) {
    Numbered(rows) && ChainValid(Payloads(rows)) && forall i :: 0 <= i < |rows| ==> Decodable(rows[i].payload)
  }

  lemma {:induction false} NewestHistory(rows: seq<Row<Revision>>, rel: Option<Id>)
    ensures Reversed(Payloads(Newest(rows, Concerns(rel)))) == History(Payloads(rows), rel)
    decreases |rows|
  {
    if rows != [] {
      var n := |rows| - 1;
      NewestHistory(rows[..n], rel);
      assert Payloads(rows)[..n] == Payloads(rows[..n]);
      var rest := Newest(rows[..n], Concerns(rel));
      if Concerns(rel)(rows[n].payload) {
        assert Newest(rows, Concerns(rel)) == [rows[n]] + rest;
        assert Reversed(Payloads([rows[n]] + rest)) == Reversed(Payloads(rest)) + [rows[n].payload];
      } else {
        assert Newest(rows, Concerns(rel)) == [] + rest == rest;
        assert History(Payloads(rows), rel) == History(Payloads(rows[..n]), rel) + [];
      }
    }
  }

  lemma {:induction false} LatestIsLast(rows: seq<Row<Revision>>, rel: Id)
    ensures var all := Newest(rows, Concerns(Some(rel)));
      LastBefore(Payloads(rows), |rows|, rel) == if all == [] then None else Some(all[0].payload)
    decreases |rows|
  {
    if rows != [] {
      var n := |rows| - 1;
      LatestIsLast(rows[..n], rel);
      LastPrefix(Payloads(rows[..n]), Payloads(rows), n, rel);
    }
  }

  lemma {:induction false} HistoryLast(revs: seq<Revision>, rel: Option<Id>, r: Id)
    requires rel.Some? ==> r == rel.value
    ensures LastBefore(History(revs, rel), |History(revs, rel)|, r) == LastBefore(revs, |revs|, r)
    decreases |revs|
  {
    if revs != [] {
      var n := |revs| - 1;
      var h := History(revs[..n], rel);
      HistoryLast(revs[..n], rel, r);
      LastPrefix(revs[..n], revs, n, r);
      LastPrefix(h, History(revs, rel), |h|, r);
    }
  }

  lemma {:induction false} HistoryFrom(revs: seq<Revision>, rel: Option<Id>, k: nat)
    requires k < |History(revs, rel)|
    ensures exists i :: 0 <= i < |revs| && revs[i] == History(revs, rel)[k] && Concerns(rel)(revs[i])
    decreases |revs|
  {
    var n := |revs| - 1;
    var h := History(revs[..n], rel);
    if k < |h| {
      HistoryFrom(revs[..n], rel, k);
      var i :| 0 <= i < n && revs[..n][i] == h[k] && Concerns(rel)(revs[..n][i]);
      assert revs[i] == h[k] == History(revs, rel)[k];
    } else {
      assert revs[n] == History(revs, rel)[k];
    }
  }

  /** Each relationship's own history is a valid chain when the whole log is. */
  lemma {:induction false} HistoryIsChain(revs: seq<Revision>, rel: Option<Id>)
    requires ChainValid(revs)
    ensures ChainValid(History(revs, rel))
    decreases |revs|
  {
    if revs != [] {
      var n := |revs| - 1;
      var h := History(revs[..n], rel);
      forall i | 0 <= i < n ensures Linked(revs[..n], i) {
        assert Linked(revs, i);
        LastPrefix(revs[..n], revs, i, revs[i].relationship);
      }
      HistoryIsChain(revs[..n], rel);
      if Concerns(rel)(revs[n]) {
        assert Linked(revs, n);
        HistoryLast(revs[..n], rel, revs[n].relationship);
        LastPrefix(revs[..n], revs, n, revs[n].relationship);
        forall k | 0 <= k < |h| ensures h[k].id != revs[n].id {
          HistoryFrom(revs[..n], rel, k);
        }
        ChainGrows(h, revs[n]);
      } else {
        assert History(revs, rel) == h + [] == h;
      }
    }
  }

  // ---- compare and append -------------------------------------------------------------------

  ghost predicate NewId(rows: seq<Row<Revision>>, id: Id) {
    forall i :: 0 <= i < |rows| ==> rows[i].payload.id != id
  }

  /** Ids are drawn fresh: none is in the table and none is drawn twice. */
  ghost predicate FreshIds(rows: seq<Row<Revision>>, rs: seq<Revision>) {
    && (forall k :: 0 <= k < |rs| ==> NewId(rows, rs[k].id) && Causal(rs[k]))
    && (forall k, l :: 0 <= k < l < |rs| ==> rs[k].id != rs[l].id)
  }

  /** What the service checks of a draft before it appends; a revision takes its parent's birth. */
  predicate Causal(r: Revision) {
    r.availableAt <= r.createdAt && (r.verifiedAt.Some? ==> r.verifiedAt.value <= r.createdAt)
    && (r.previous.None? ==> r.bornAt <= r.createdAt)
  }

  /** Whatever is new in the table was pending. */
  ghost predicate OthersOnly(before: seq<Row<Revision>>, pending: seq<Revision>, after: seq<Row<Revision>>) {
    forall id :: NewId(before, id) && (forall k :: 0 <= k < |pending| ==> pending[k].id != id) ==> NewId(after, id)
  }

  function Attempt(rows: seq<Row<Revision>>, r: Revision): seq<Row<Revision>> {
    if ParentOk(LastBefore(Payloads(rows), |rows|, r.relationship), r) then rows + [Row(|rows| + 1, r)] else rows
  }

  function Attempts(rows: seq<Row<Revision>>, rs: seq<Revision>): seq<Row<Revision>> {
    if rs == [] then rows else Attempt(Attempts(rows, rs[..|rs| - 1]), rs[|rs| - 1])
  }

  lemma AttemptKeeps(rows: seq<Row<Revision>>, r: Revision)
    requires LogOk(rows) && NewId(rows, r.id) && Causal(r)
    ensures LogOk(Attempt(rows, r)) && rows <= Attempt(rows, r)
  {
    if Attempt(rows, r) != rows {
      LastIn(Payloads(rows), |rows|, r.relationship);
      forall j | 0 <= j < |Payloads(rows)| ensures Payloads(rows)[j].id != r.id { assert rows[j].payload.id != r.id; }
      ChainGrows(Payloads(rows), r);
      assert Payloads(rows + [Row(|rows| + 1, r)]) == Payloads(rows) + [r];
    }
  }

  /** Whatever revisions concurrent writers prepare on stale reads, and in whatever order their
      compare-and-appends run, the log stays a valid chain. */
  lemma {:induction false} AttemptsKeep(rows: seq<Row<Revision>>, rs: seq<Revision>)
    requires LogOk(rows) && FreshIds(rows, rs)
    ensures LogOk(Attempts(rows, rs)) && rows <= Attempts(rows, rs)
    ensures forall i :: |rows| <= i < |Attempts(rows, rs)| ==> Attempts(rows, rs)[i].payload in rs
    decreases |rs|
  {
    if rs != [] {
      var n := |rs| - 1;
      AttemptsKeep(rows, rs[..n]);
      var before := Attempts(rows, rs[..n]);
      forall i | 0 <= i < |before| ensures before[i].payload.id != rs[n].id {
        if i < |rows| { assert before[i] == rows[i]; } else {
          assert before[i].payload in rs[..n];
          var k :| 0 <= k < n && rs[..n][k] == before[i].payload;
          assert rs[k].id != rs[n].id;
        }
      }
      AttemptKeeps(before, rs[n]);
      assert rs[n] in rs && forall r :: r in rs[..n] ==> r in rs;
    }
  }

  ghost predicate Appended(rows: seq<Row<Revision>>, r: Revision) {
    exists i :: 0 <= i < |rows| && rows[i].payload == r
  }

  /** At most one of several revisions citing the same parent succeeds. */
  lemma OneSucceeds(rows: seq<Row<Revision>>, a: Revision, b: Revision)
    requires LogOk(rows) && a.relationship == b.relationship && a.previous == b.previous && a != b
    ensures !(Appended(rows, a) && Appended(rows, b))
  {
    if Appended(rows, a) && Appended(rows, b) {
      var i :| 0 <= i < |rows| && rows[i].payload == a;
      var j :| 0 <= j < |rows| && rows[j].payload == b;
      if i < j { OneChild(Payloads(rows), i, j); } else { OneChild(Payloads(rows), j, i); }
    }
  }

  lemma {:induction false} FreshLater(rows: seq<Row<Revision>>, rs: seq<Revision>, more: seq<Revision>)
    requires LogOk(rows) && FreshIds(rows, rs + more)
    ensures FreshIds(rows, rs) && FreshIds(Attempts(rows, rs), more)
  {
    var all := rs + more;
    assert forall k :: 0 <= k < |rs| ==> all[k] == rs[k];
    assert forall k :: 0 <= k < |more| ==> all[|rs| + k] == more[k];
    AttemptsKeep(rows, rs);
    forall k | 0 <= k < |more| ensures NewId(Attempts(rows, rs), more[k].id) && Causal(more[k]) {
      assert NewId(rows, all[|rs| + k].id);
      forall i | 0 <= i < |Attempts(rows, rs)| ensures Attempts(rows, rs)[i].payload.id != more[k].id {
        if i >= |rows| {
          var l :| 0 <= l < |rs| && rs[l] == Attempts(rows, rs)[i].payload;
          assert all[l].id != all[|rs| + k].id;
        }
      }
    }
    forall k, l | 0 <= k < l < |more| ensures more[k].id != more[l].id { assert all[|rs| + k].id != all[|rs| + l].id; }
  }

  lemma {:induction false} StillNew(rows: seq<Row<Revision>>, rs: seq<Revision>, id: Id)
    requires LogOk(rows) && FreshIds(rows, rs) && NewId(rows, id) && forall k :: 0 <= k < |rs| ==> rs[k].id != id
    ensures NewId(Attempts(rows, rs), id)
  {
    AttemptsKeep(rows, rs);
    var all := Attempts(rows, rs);
    forall i | 0 <= i < |all| ensures all[i].payload.id != id {
      if i < |rows| { assert all[i] == rows[i]; } else { assert all[i].payload in rs; }
    }
  }

  lemma Regrouped(records: seq<Row<Revision>>, page: seq<Row<Revision>>)
    requires page != []
    ensures (records + [page[0]]) + page[1..] == records + page
    ensures page[1..] != [] ==> page[1..][|page[1..]| - 1] == page[|page| - 1]
    ensures page[1..] == [] ==> records + [page[0]] == records + page && page[|page| - 1] == page[0]
  {
  }

  /** A whole page of a listing. */
  lemma {:induction false} PageCollected(log: seq<Row<Revision>>, keep: Revision -> bool, records: seq<Row<Revision>>,
                                         cursor: Option<nat>, page: seq<Row<Revision>>)
    requires Numbered(log) && OnPage(log, keep, records, cursor, page) && page != []
    ensures Collected(log, keep, records + page, Some(page[|page| - 1].sequence))
    decreases |page|
  {
    PageStep(log, keep, records, cursor, page);
    Regrouped(records, page);
    if page[1..] != [] {
      PageCollected(log, keep, records + [page[0]], Some(page[0].sequence), page[1..]);
    }
  }

  lemma {:induction false} PageCounts(log: seq<Row<Revision>>, keep: Revision -> bool, records: seq<Row<Revision>>, cursor: Option<nat>, page: seq<Row<Revision>>)
    requires Collected(log, keep, records, cursor) && page <= Newest(Before(log, cursor), keep)
    ensures |Newest(log, keep)| >= |records| + |page|
    ensures page == Newest(Before(log, cursor), keep) ==> records + page == Newest(log, keep)
  {
  }

  // ---- the snapshot -------------------------------------------------------------------------

  /** `latest` holds, per relationship, the revision known at the instant and appended last among
      the first `n`. */
  ghost predicate Knows(chain: seq<Revision>, n: nat, instant: int, latest: map<Id, Revision>) {
    && (forall rel :: rel in latest ==> exists i :: LastKnown(chain, i, n, instant) && chain[i] == latest[rel] && chain[i].relationship == rel)
    && (forall i :: 0 <= i < n && KnownAt(chain, i, instant) ==> chain[i].relationship in latest)
  }

  lemma KnowsNext(chain: seq<Revision>, n: nat, instant: int, latest: map<Id, Revision>)
    requires n < |chain| && Knows(chain, n, instant, latest)
    ensures Knows(chain, n + 1, instant, if chain[n].createdAt <= instant then latest[chain[n].relationship := chain[n]] else latest)
  {
    var next := if chain[n].createdAt <= instant then latest[chain[n].relationship := chain[n]] else latest;
    forall rel | rel in next
      ensures exists i :: LastKnown(chain, i, n + 1, instant) && chain[i] == next[rel] && chain[i].relationship == rel
    {
      if chain[n].createdAt <= instant && rel == chain[n].relationship {
        assert LastKnown(chain, n, n + 1, instant);
      } else {
        var i :| LastKnown(chain, i, n, instant) && chain[i] == latest[rel] && chain[i].relationship == rel;
        assert LastKnown(chain, i, n + 1, instant);
      }
    }
  }

  /** Per relationship the unique revision known at the instant on which none known then builds. */
  ghost predicate IsSnapshot(revs: seq<Revision>, instant: int, latest: map<Id, Revision>) {
    && (forall rel :: rel in latest ==> exists i :: HeadAt(revs, i, instant) && revs[i] == latest[rel] && revs[i].relationship == rel)
    && (forall i :: HeadAt(revs, i, instant) ==> revs[i].relationship in latest && latest[revs[i].relationship] == revs[i])
    && (forall i :: KnownAt(revs, i, instant) ==> revs[i].relationship in latest)
  }

  lemma KnownIsSnapshot(chain: seq<Revision>, instant: int, latest: map<Id, Revision>)
    requires ChainValid(chain) && Knows(chain, |chain|, instant, latest)
    ensures IsSnapshot(chain, instant, latest)
  {
    forall rel | rel in latest ensures exists i :: HeadAt(chain, i, instant) && chain[i] == latest[rel] && chain[i].relationship == rel {
      var i :| LastKnown(chain, i, |chain|, instant) && chain[i] == latest[rel] && chain[i].relationship == rel;
      LastKnownIsHead(chain, i, instant);
    }
    forall i | HeadAt(chain, i, instant) ensures chain[i].relationship in latest && latest[chain[i].relationship] == chain[i] {
      var j :| HeadAt(chain, j, instant) && chain[j] == latest[chain[i].relationship] && chain[j].relationship == chain[i].relationship;
      OneHead(chain, i, j, instant);
    }
  }

  /** Some stored revision of the relationship other than `own` builds on the revision `parent`. */
  ghost predicate CitedByOther(rows: seq<Row<Revision>>, rel: Id, parent: Id, own: Id) {
    exists i :: 0 <= i < |rows| && rows[i].payload.relationship == rel && rows[i].payload.previous == Some(parent) && rows[i].payload.id != own
  }

  /** What was read of the relationship allows the revision. */
  ghost predicate Revisable(bound: nat, rows: seq<Row<Revision>>, draft: Revision, expected: Id) {
    var last := LastBefore(Payloads(rows), |rows|, draft.relationship);
    && |Newest(rows, Concerns(Some(draft.relationship)))| <= bound
    && last.Some? && last.value.id == expected && last.value.createdAt <= draft.createdAt
  }

  /** What the read itself shows of that. */
  lemma {:induction false} ReadDecides(bound: nat, rows: seq<Row<Revision>>, draft: Revision, expected: Id)
    ensures var all := Payloads(Newest(rows, Concerns(Some(draft.relationship))));
      && |all| == |Newest(rows, Concerns(Some(draft.relationship)))|
      && (all != [] ==> LastBefore(Payloads(rows), |rows|, draft.relationship) == Some(all[0]))
      && (Revisable(bound, rows, draft, expected) <==>
            |all| <= bound && all != [] && all[0].id == expected && all[0].createdAt <= draft.createdAt)
  {
    LatestIsLast(rows, draft.relationship);
  }

  /** A revision is the last of its relationship exactly as long as none cites it. */
  lemma {:induction false} LastIsUncited(revs: seq<Revision>, i: nat, rel: Id)
    requires ChainValid(revs) && i < |revs| && revs[i].relationship == rel
    ensures LastBefore(revs, |revs|, rel) == Some(revs[i]) <==>
      forall j :: 0 <= j < |revs| && revs[j].relationship == rel ==> revs[j].previous != Some(revs[i].id)
  {
    LastIn(revs, |revs|, rel);
    var l :| 0 <= l < |revs| && revs[l] == LastBefore(revs, |revs|, rel).value && revs[l].relationship == rel
             && forall k :: l < k < |revs| ==> revs[k].relationship != rel;
    if l == i {
      forall j | 0 <= j < |revs| && revs[j].relationship == rel ensures revs[j].previous != Some(revs[i].id) {
        assert Linked(revs, j);
        LastIn(revs, j, rel);
        if revs[j].previous.Some? {
          var m :| 0 <= m < j && revs[m] == LastBefore(revs, j, rel).value;
          if m < i { assert Linked(revs, i); }
        }
      }
    } else {
      assert Linked(revs, l) && revs[l].id != revs[i].id;
      ChainInTime(revs, i, l);
      NextKnown(revs, i, l, revs[l].createdAt);
    }
  }

  /** Whether the parent check passes on the table as others have left it. */
  lemma {:induction false} ReviseExactly(log: seq<Row<Revision>>, rows: seq<Row<Revision>>, draft: Revision, expected: Id)
    requires LogOk(log) && LogOk(rows) && log <= rows && NewId(rows, draft.id)
    requires var last := LastBefore(Payloads(log), |log|, draft.relationship); last.Some? && last.value.id == expected
    ensures var last := LastBefore(Payloads(log), |log|, draft.relationship).value;
      ParentOk(LastBefore(Payloads(rows), |rows|, draft.relationship), draft.(previous := Some(expected), bornAt := last.bornAt))
      <==> last.createdAt <= draft.createdAt && !CitedByOther(rows, draft.relationship, expected, draft.id)
  {
    var revs, rel := Payloads(rows), draft.relationship;
    LastIn(Payloads(log), |log|, rel);
    var i :| 0 <= i < |log| && Payloads(log)[i] == LastBefore(Payloads(log), |log|, rel).value && Payloads(log)[i].relationship == rel;
    assert revs[i] == Payloads(log)[i];
    LastIsUncited(revs, i, rel);
    CitedExactly(rows, rel, expected, draft.id);
    SameLast(revs, i, rel, expected);
  }

  lemma {:induction false} CitedExactly(rows: seq<Row<Revision>>, rel: Id, parent: Id, own: Id)
    requires NewId(rows, own)
    ensures CitedByOther(rows, rel, parent, own) <==>
      exists j :: 0 <= j < |Payloads(rows)| && Payloads(rows)[j].relationship == rel && Payloads(rows)[j].previous == Some(parent)
  {
    if j :| 0 <= j < |Payloads(rows)| && Payloads(rows)[j].relationship == rel && Payloads(rows)[j].previous == Some(parent) {
      assert rows[j].payload == Payloads(rows)[j];
    }
    if CitedByOther(rows, rel, parent, own) {
      var j :| 0 <= j < |rows| && rows[j].payload.relationship == rel && rows[j].payload.previous == Some(parent);
      assert Payloads(rows)[j] == rows[j].payload;
    }
  }

  /** Ids tell revisions apart. */
  lemma {:induction false} SameLast(revs: seq<Revision>, i: nat, rel: Id, id: Id)
    requires ChainValid(revs) && i < |revs| && revs[i].id == id
    ensures var last := LastBefore(revs, |revs|, rel); last.Some? && last.value.id == id ==> last.value == revs[i]
  {
    LastIn(revs, |revs|, rel);
    var last := LastBefore(revs, |revs|, rel);
    if last.Some? && last.value.id == id {
      var l :| 0 <= l < |revs| && revs[l] == last.value;
      assert Linked(revs, l) && Linked(revs, i);
    }
  }

  /** One's own row is no citation by others. */
  lemma {:induction false} OwnAside(rows: seq<Row<Revision>>, more: seq<Row<Revision>>, r: Revision, parent: Id)
    requires more == rows + [Row(|rows| + 1, r)]
    ensures CitedByOther(more, r.relationship, parent, r.id) <==> CitedByOther(rows, r.relationship, parent, r.id)
  {
    if CitedByOther(rows, r.relationship, parent, r.id) {
      var i :| 0 <= i < |rows| && rows[i].payload.relationship == r.relationship && rows[i].payload.previous == Some(parent) && rows[i].payload.id != r.id;
      assert more[i] == rows[i];
    }
  }

  datatype RegistryFault = Conflict | LimitExceeded | Integrity | NotFound

  class FederalRegistry {
    const repository: InMemoryAuditRepository<Revision>
    const bound: nat

    constructor (repository: InMemoryAuditRepository<Revision>, bound: nat)
      requires bound > 0
      ensures this.repository == repository && this.bound == bound
    {
      this.repository, this.bound := repository, bound;
    }

    method AtomicAppend(r: Revision) returns (ok: bool)
      requires LogOk(repository.rows) && NewId(repository.rows, r.id) && Causal(r)
      modifies repository
      ensures repository.rows == Attempt(old(repository.rows), r) && LogOk(repository.rows)
      ensures ok <==> ParentOk(LastBefore(Payloads(old(repository.rows)), |old(repository.rows)|, r.relationship), r)
    {
      LatestIsLast(repository.rows, r.relationship);
      AttemptKeeps(repository.rows, r);
      var found := repository.FindPayload(Concerns(Some(r.relationship)));
      if !ParentOk(match found case None => None case Some(row) => Some(row.payload), r) { return false; }
      repository.Append(r);
      return true;
    }

    /** Other writers' compare-and-appends. */
    method Others(rs: seq<Revision>)
      requires LogOk(repository.rows) && FreshIds(repository.rows, rs)
      modifies repository
      ensures repository.rows == Attempts(old(repository.rows), rs) && LogOk(repository.rows)
    {
      ghost var before := repository.rows;
      assert rs[..|rs|] == rs;
      for k := 0 to |rs|
        invariant LogOk(repository.rows) && repository.rows == Attempts(before, rs[..k])
      {
        assert rs[..k + 1][..k] == rs[..k] && rs[..|rs|] == rs;
        assert rs == rs[..k] + rs[k..];
        FreshLater(before, rs[..k], rs[k..]);
        assert rs[k..][0] == rs[k] && NewId(repository.rows, rs[k..][0].id);
        var _ := AtomicAppend(rs[k]);
      }
    }

    /** The chain check: one pass over the revisions, newest first as they are read. */
    static method ValidateChain(revisions: seq<Revision>) returns (ok: bool)
      ensures ok <==> ChainValid(Reversed(revisions))
    {
      var latest: map<Id, Revision>, seen: set<Id> := map[], {};
      ghost var chain := Reversed(revisions);
      for k := 0 to |revisions|
        invariant forall rel: Id :: LastBefore(chain, k, rel) == if rel in latest then Some(latest[rel]) else None
        invariant forall id: Id :: id in seen <==> exists j :: 0 <= j < k && chain[j].id == id
        invariant forall i :: 0 <= i < k ==> Linked(chain, i)
      {
        var r := revisions[|revisions| - 1 - k];
        assert chain[k] == r;
        var previous := if r.relationship in latest then Some(latest[r.relationship]) else None;
        if r.id in seen || r.previous != IdOf(previous) || (previous.Some? && r.createdAt < previous.value.createdAt) {
          assert !Linked(chain, k);
          return false;
        }
        assert Linked(chain, k);
        latest := latest[r.relationship := r];
        seen := seen + {r.id};
      }
      return true;
    }

    /** Every revision of a relationship, or of all, as the table stood at the first page, or an
        error because there are more than the bound. Between two pages other writers take some of
        their pending attempts; `left` are those not yet made. */
    method AllRevisions(rel: Option<Id>, pending: seq<Revision>)
      returns (r: Result<seq<Revision>, RegistryFault>, left: seq<Revision>)
      requires LogOk(repository.rows) && FreshIds(repository.rows, pending)
      modifies repository
      ensures LogOk(repository.rows) && old(repository.rows) <= repository.rows && FreshIds(repository.rows, left)
      ensures |left| <= |pending| && left == pending[|pending| - |left|..]
      ensures OthersOnly(old(repository.rows), pending, repository.rows)
      ensures r == var all := Newest(old(repository.rows), Concerns(rel)); if |all| > bound then Err(LimitExceeded) else Ok(Payloads(all))
    {
      left := pending;
      var records: seq<Row<Revision>>, cursor: Option<nat> := [], None;
      ghost var log := repository.rows;
      var keep := Concerns(rel);
      while true
        invariant LogOk(repository.rows) && log <= repository.rows && FreshIds(repository.rows, left)
        invariant |left| <= |pending| && left == pending[|pending| - |left|..]
        invariant OthersOnly(log, pending, repository.rows)
        invariant cursor.None? ==> repository.rows == log
        invariant Collected(log, keep, records, cursor) && |records| <= bound
        decreases bound - |records|
      {
        var remaining := bound - |records|;
        var size := Least(500, remaining + 1);
        var page := repository.ListPayloads(keep, size, cursor);
        if cursor.Some? { AppendsHidden(log, repository.rows, cursor); }
        if page.value == [] {
          assert records + [] == records;
          return Ok(Payloads(records)), left;
        }
        PageCollected(log, keep, records, cursor, page.value);
        PageCounts(log, keep, records, cursor, page.value);
        if |page.value| > remaining { return Err(LimitExceeded), left; }
        records := records + page.value;
        if |page.value| < size { return Ok(Payloads(records)), left; }
        cursor := Some(page.value[|page.value| - 1].sequence);
        left := SomeOthers(left);
      }
    }

    /** Some of the pending attempts of the other writers. */
    method SomeOthers(pending: seq<Revision>) returns (left: seq<Revision>)
      requires LogOk(repository.rows) && FreshIds(repository.rows, pending)
      modifies repository
      ensures LogOk(repository.rows) && old(repository.rows) <= repository.rows && FreshIds(repository.rows, left)
      ensures |left| <= |pending| && left == pending[|pending| - |left|..]
      ensures OthersOnly(old(repository.rows), pending, repository.rows)
    {
      left := pending;
      var n :| 0 <= n <= |pending|;
      if n > 0 {
        assert pending == pending[..n] + pending[n..];
        FreshLater(repository.rows, pending[..n], pending[n..]);
        AttemptsKeep(repository.rows, pending[..n]);
        forall id | NewId(repository.rows, id) && (forall k :: 0 <= k < |pending| ==> pending[k].id != id)
          ensures NewId(Attempts(repository.rows, pending[..n]), id)
        {
          StillNew(repository.rows, pending[..n], id);
        }
        Others(pending[..n]);
        left := pending[n..];
      }
    }

    /** Revise the latest revision of a relationship, as the caller saw it: it succeeds exactly when
        that is the latest revision read and nobody else has built on it by the time of the append.
        The new revision is then the last row and inherits the birth of its parent; otherwise it is
        not in the table at all; and the stored chain itself is never found broken. */
    method Revise(draft: Revision, expected: Id, pending: seq<Revision>) returns (r: Result<Revision, RegistryFault>)
      requires LogOk(repository.rows) && FreshIds(repository.rows, pending)
      requires NewId(repository.rows, draft.id) && forall k :: 0 <= k < |pending| ==> pending[k].id != draft.id
      requires draft.availableAt <= draft.createdAt && (draft.verifiedAt.Some? ==> draft.verifiedAt.value <= draft.createdAt)
      modifies repository
      ensures LogOk(repository.rows) && old(repository.rows) <= repository.rows
      ensures r.Ok? <==>
        && Revisable(bound, old(repository.rows), draft, expected)
        && !CitedByOther(repository.rows, draft.relationship, expected, draft.id)
      ensures r.Ok? ==>
        && r.value == draft.(previous := Some(expected),
             bornAt := LastBefore(Payloads(old(repository.rows)), |old(repository.rows)|, draft.relationship).value.bornAt)
        && repository.rows != [] && repository.rows[|repository.rows| - 1].payload == r.value
      ensures r.Err? ==> NewId(repository.rows, draft.id) && !r.error.Integrity?
      ensures r == Err(LimitExceeded) <==> |Newest(old(repository.rows), Concerns(Some(draft.relationship)))| > bound
      ensures r == Err(NotFound) <==> bound >= |Newest(old(repository.rows), Concerns(Some(draft.relationship)))| == 0
    {
      ghost var log := repository.rows;
      var read, left := AllRevisions(Some(draft.relationship), pending);
      ReadDecides(bound, log, draft, expected);
      if read.Err? { return Err(read.error); }
      if read.value == [] { return Err(NotFound); }
      NewestHistory(log, Some(draft.relationship));
      HistoryIsChain(Payloads(log), Some(draft.relationship));
      var valid := ValidateChain(read.value);
      if !valid { return Err(Integrity); }
      var previous := read.value[0];
      if previous.id != expected { return Err(Conflict); }
      var revision := draft.(previous := Some(expected), bornAt := previous.bornAt);
      var _ := SomeOthers(left);
      ghost var rows := repository.rows;
      ReviseExactly(log, rows, draft, expected);
      var ok := AtomicAppend(revision);
      if !ok { return Err(Conflict); }
      OwnAside(rows, repository.rows, revision, expected);
      return Ok(revision);
    }

    /** Start a relationship: it succeeds exactly when nobody else has by the time of the append. */
    method Create(draft: Revision, pending: seq<Revision>) returns (r: Result<Revision, RegistryFault>)
      requires LogOk(repository.rows) && FreshIds(repository.rows, pending)
      requires NewId(repository.rows, draft.id) && forall k :: 0 <= k < |pending| ==> pending[k].id != draft.id
      requires draft.availableAt <= draft.createdAt && (draft.verifiedAt.Some? ==> draft.verifiedAt.value <= draft.createdAt)
      modifies repository
      ensures LogOk(repository.rows) && old(repository.rows) <= repository.rows
      ensures r.Ok? ==>
        && r.value == draft.(previous := None, bornAt := draft.createdAt)
        && repository.rows != [] && repository.rows[|repository.rows| - 1].payload == r.value
      ensures r.Err? ==> NewId(repository.rows, draft.id) && r.error.Conflict?
      ensures r.Ok? <==> forall i :: 0 <= i < |repository.rows| && repository.rows[i].payload.id != draft.id ==>
        repository.rows[i].payload.relationship != draft.relationship
    {
      var _ := SomeOthers(pending);
      var revision := draft.(previous := None, bornAt := draft.createdAt);
      ghost var rows := repository.rows;
      LastIn(Payloads(rows), |rows|, draft.relationship);
      assert forall i :: 0 <= i < |rows| ==> Payloads(rows)[i] == rows[i].payload;
      var ok := AtomicAppend(revision);
      if !ok { return Err(Conflict); }
      return Ok(revision);
    }

    /** The registry as known at an instant, from the table as it stood at the first page. */
    method Snapshot(instant: int, pending: seq<Revision>) returns (r: Result<map<Id, Revision>, RegistryFault>)
      requires LogOk(repository.rows) && FreshIds(repository.rows, pending)
      modifies repository
      ensures r.Ok? <==> |old(repository.rows)| <= bound
      ensures r.Ok? ==> IsSnapshot(Payloads(old(repository.rows)), instant, r.value)
      ensures r.Err? ==> r.error.LimitExceeded?
    {
      ghost var chain := Payloads(repository.rows);
      AllHistory(repository.rows);
      var read, left := AllRevisions(None, pending);
      if read.Err? { return Err(read.error); }
      var valid := ValidateChain(read.value);
      if !valid { return Err(Integrity); }
      var latest: map<Id, Revision> := map[];
      for k := 0 to |read.value|
        invariant Knows(chain, k, instant, latest)
      {
        var revision := read.value[|read.value| - 1 - k];
        assert revision == chain[k];
        KnowsNext(chain, k, instant, latest);
        if revision.createdAt <= instant {
          latest := latest[revision.relationship := revision];
        }
      }
      KnownIsSnapshot(chain, instant, latest);
      return Ok(latest);
    }
  }

  lemma {:induction false} AllHistory(rows: seq<Row<Revision>>)
    ensures Reversed(Payloads(Newest(rows, Concerns(None)))) == Payloads(rows) && |Newest(rows, Concerns(None))| == |rows|
  {
    NewestHistory(rows, None);
    WholeHistory(Payloads(rows));
  }

  lemma {:induction false} WholeHistory(revs: seq<Revision>)
    ensures History(revs, None) == revs
  {
    if revs != [] { WholeHistory(revs[..|revs| - 1]); }
  }
}
