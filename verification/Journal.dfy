/** Bounded scans of the audit log under concurrent appends. */
module Journal {
  import opened Dicts
  import opened AuditLog

  datatype ScanFault = BoundNotPositive | NotStrictlyOrdered | BoundExceeded

  function Least(a: int, b: int): int {
    if a <= b then a else b
  }

  /** What has been collected, followed by what lies before the cursor, is the whole listing. */
  ghost predicate Collected<P>(log: seq<Row<P>>, keep: P -> bool, records: seq<Row<P>>, cursor: Option<nat>) {
    && (cursor.None? ==> records == [])
    && (cursor.Some? ==> 0 < cursor.value <= |log|)
    && records + Newest(Before(log, cursor), keep) == Newest(log, keep)
  }

  /** What is listed before a cursor, less its first row, is what is listed before that row. */
  lemma {:induction false} NextBefore<P>(log: seq<Row<P>>, keep: P -> bool, cursor: Option<nat>)
    requires Numbered(log) && (cursor.Some? ==> 0 < cursor.value <= |log|) && Newest(Before(log, cursor), keep) != []
    ensures var row := Newest(Before(log, cursor), keep)[0];
      && 0 < row.sequence <= |log| && (cursor.Some? ==> row.sequence < cursor.value)
      && Newest(Before(log, cursor), keep)[1..] == Newest(Before(log, Some(row.sequence)), keep)
  {
    var visible := Before(log, cursor);
    var row := Newest(visible, keep)[0];
    NewestStand(visible, keep);
    assert Stands(visible, row);
    NewestAfter(visible, keep, 1);
    assert visible[..row.sequence - 1] == log[..row.sequence - 1];
  }

  lemma Taken<P>(records: seq<Row<P>>, rest: seq<Row<P>>)
    requires rest != []
    ensures (records + [rest[0]]) + rest[1..] == records + rest
  {
  }

  lemma {:induction false} OneMore<P>(log: seq<Row<P>>, keep: P -> bool, records: seq<Row<P>>, cursor: Option<nat>)
    requires Numbered(log) && Collected(log, keep, records, cursor) && Newest(Before(log, cursor), keep) != []
    ensures var row := Newest(Before(log, cursor), keep)[0];
      && Collected(log, keep, records + [row], Some(row.sequence))
      && (cursor.Some? ==> row.sequence < cursor.value)
      && Newest(Before(log, cursor), keep)[1..] == Newest(Before(log, Some(row.sequence)), keep)
  {
    NextBefore(log, keep, cursor);
    Taken(records, Newest(Before(log, cursor), keep));
  }

  ghost predicate OnPage<P>(log: seq<Row<P>>, keep: P -> bool, all: seq<Row<P>>, at: Option<nat>, left: seq<Row<P>>) {
    Collected(log, keep, all, at) && left <= Newest(Before(log, at), keep)
  }

  /** One row of a page: the next state of the collection. */
  lemma {:induction false} PageStep<P>(log: seq<Row<P>>, keep: P -> bool, all: seq<Row<P>>, at: Option<nat>, left: seq<Row<P>>)
    requires Numbered(log) && OnPage(log, keep, all, at, left) && left != []
    ensures OnPage(log, keep, all + [left[0]], Some(left[0].sequence), left[1..]) && |Newest(log, keep)| > |all|
    ensures at.Some? ==> left[0].sequence < at.value
  {
    OneMore(log, keep, all, at);
  }

  lemma Advanced<P>(page: seq<Row<P>>, i: nat, records: seq<Row<P>>)
    requires i < |page|
    ensures page[i..][0] == page[i] && page[i..][1..] == page[i + 1..]
    ensures (records + page[..i]) + [page[i]] == records + page[..i + 1]
  {
  }

  lemma AppendsHidden<P>(log: seq<Row<P>>, now: seq<Row<P>>, cursor: Option<nat>)
    requires log <= now && cursor.Some? && 0 < cursor.value <= |log|
    ensures Before(now, cursor) == Before(log, cursor)
  {
  }

  class ExecutionJournal<P(==)> {
    const repository: InMemoryAuditRepository<P>

    constructor (repository: InMemoryAuditRepository<P>)
      ensures this.repository == repository
    {
      this.repository := repository;
    }

    /** Other writers append between two pages. */
    method Others(ps: seq<P>)
      requires Numbered(repository.rows)
      modifies repository
      ensures repository.rows == old(repository.rows) + Number(|old(repository.rows)|, ps) && Numbered(repository.rows)
    {
      ghost var before := repository.rows;
      for i := 0 to |ps|
        invariant Numbered(repository.rows) && repository.rows == before + Number(|before|, ps[..i])
      {
        repository.Append(ps[i]);
        assert Number(|before|, ps[..i + 1]) == Number(|before|, ps[..i]) + [Row(|before| + i + 1, ps[i])];
      }
      assert ps[..|ps|] == ps;
    }

    /** Collect one page row by row. */
    method TakePage(page: seq<Row<P>>, records: seq<Row<P>>, cursor: Option<nat>, bound: nat,
                    ghost log: seq<Row<P>>, ghost keep: P -> bool)
      returns (r: Result<(seq<Row<P>>, Option<nat>), ScanFault>)
      requires Numbered(log) && Collected(log, keep, records, cursor) && |records| <= bound
      requires page <= Newest(Before(log, cursor), keep)
      ensures r.Ok? ==> r.value.0 == records + page && |r.value.0| <= bound && Collected(log, keep, r.value.0, r.value.1)
      ensures r.Err? ==> r.error.BoundExceeded? && |Newest(log, keep)| > bound
    {
      var all, at := records, cursor;
      for i := 0 to |page|
        invariant all == records + page[..i] && |all| <= bound
        invariant OnPage(log, keep, all, at, page[i..])
      {
        var row := page[i];
        PageStep(log, keep, all, at, page[i..]);
        Advanced(page, i, records);
        if at.Some? && row.sequence >= at.value { return Err(NotStrictlyOrdered); }
        if |all| == bound { return Err(BoundExceeded); }   // the row is collected, then one too many
        at, all := Some(row.sequence), all + [row];
      }
      assert page[..|page|] == page;
      return Ok((all, at));
    }

    /** Whatever is appended between the pages, the scan returns exactly the matching rows of the
        log as it stood at its first page, newest first, or fails because there are more of them
        than the bound. `others` gives what the other writers append after each page. */
    method Scan(keep: P -> bool, bound: int, others: seq<seq<P>>) returns (r: Result<seq<Row<P>>, ScanFault>)
      requires Numbered(repository.rows)
      modifies repository
      ensures old(repository.rows) <= repository.rows && Numbered(repository.rows)
      ensures r == if bound < 1 then Err(BoundNotPositive)
                   else if |Newest(old(repository.rows), keep)| > bound then Err(BoundExceeded)
                   else Ok(Newest(old(repository.rows), keep))
    {
      if bound < 1 { return Err(BoundNotPositive); }
      var records: seq<Row<P>>, cursor: Option<nat>, n := [], None, 0;
      ghost var log := repository.rows;
      while true
        invariant n == 0 ==> repository.rows == log && cursor == None
        invariant n > 0 ==> cursor.Some?
        invariant log <= repository.rows && Numbered(repository.rows)
        invariant Collected(log, keep, records, cursor) && |records| <= bound
        decreases bound + 1 - |records|
      {
        var page := repository.ListPayloads(keep, Least(1000, bound + 1 - |records|), cursor);
        if n > 0 { AppendsHidden(log, repository.rows, cursor); }
        if page.value == [] {
          assert records + [] == records;
          return Ok(records);
        }
        var taken := TakePage(page.value, records, cursor, bound, log, keep);
        if taken.Err? { return Err(taken.error); }
        records, cursor := taken.value.0, taken.value.1;
        if n < |others| { Others(others[n]); }
        n := n + 1;
      }
    }
  }
}
