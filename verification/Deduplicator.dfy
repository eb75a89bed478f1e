/** The event deduplicator: a table of accepted keys with a time to live, evicting the key least
    recently presented, against what it promises about histories of presentations. */
module Deduplicator {
  import opened Dicts

  type Key = nat
  type Table = Dict<Key, int>

  /** Entries accepted at the cutoff or later. */
  function Live(d: Table, cutoff: int): Table {
    if d == [] then [] else (if d[0].1 >= cutoff then [d[0]] else []) + Live(d[1..], cutoff)
  }

  function Stale(d: Table, cutoff: int): seq<Key> {
    if d == [] then [] else (if d[0].1 < cutoff then [d[0].0] else []) + Stale(d[1..], cutoff)
  }

  /** The table and the verdict after presenting a key. A repeated key keeps the time of its
      acceptance and becomes the most recent. */
  function Present(capacity: nat, ttl: int, d: Table, key: Key, now: int): (Table, bool) {
    var live := Live(d, now - ttl);
    match Get(live, key)
    case Some(at) => (Del(live, key) + [(key, at)], false)
    case None =>
      var grown := live + [(key, now)];
      (if |grown| > capacity then grown[1..] else grown, true)
  }

  lemma {:induction false} StaleIsKey(d: Table, cutoff: int)
    requires Stale(d, cutoff) != []
    ensures exists i :: 0 <= i < |d| && d[i].0 == Stale(d, cutoff)[0]
    decreases |d|
  {
    if d[0].1 >= cutoff {
      StaleIsKey(d[1..], cutoff);
      var i :| 0 <= i < |d[1..]| && d[1..][i].0 == Stale(d[1..], cutoff)[0];
      assert d[i + 1].0 == Stale(d, cutoff)[0];
    } else {
      assert d[0].0 == Stale(d, cutoff)[0];
    }
  }

  lemma {:induction false} StaleFirst(d: Table, cutoff: int)
    requires Distinct(d) && Stale(d, cutoff) != []
    ensures Live(Del(d, Stale(d, cutoff)[0]), cutoff) == Live(d, cutoff)
    ensures Stale(Del(d, Stale(d, cutoff)[0]), cutoff) == Stale(d, cutoff)[1..]
    decreases |d|
  {
    if d[0].1 >= cutoff {
      var k := Stale(d[1..], cutoff)[0];
      assert Stale(d, cutoff) == [] + Stale(d[1..], cutoff) == Stale(d[1..], cutoff);
      StaleIsKey(d[1..], cutoff);
      StaleFirst(d[1..], cutoff);
      var rest := Del(d[1..], k);
      assert Del(d, k) == [d[0]] + rest && ([d[0]] + rest)[1..] == rest;
    }
  }

  lemma {:induction false} NothingStale(d: Table, cutoff: int)
    requires Stale(d, cutoff) == []
    ensures Live(d, cutoff) == d
    decreases |d|
  {
    if d != [] { NothingStale(d[1..], cutoff); }
  }

  lemma {:induction false} LiveFacts(d: Table, cutoff: int)
    requires Distinct(d)
    ensures Distinct(Live(d, cutoff)) && |Live(d, cutoff)| <= |d|
    ensures forall i :: 0 <= i < |Live(d, cutoff)| ==> Live(d, cutoff)[i] in d && Live(d, cutoff)[i].1 >= cutoff
    ensures forall i :: 0 <= i < |d| && d[i].1 >= cutoff ==> d[i] in Live(d, cutoff)
    decreases |d|
  {
    if d != [] {
      var rest := Live(d[1..], cutoff);
      LiveFacts(d[1..], cutoff);
      assert forall e :: e in d[1..] ==> e in d;
      forall i | 0 <= i < |d| && d[i].1 >= cutoff ensures d[i] in Live(d, cutoff) {
        if i > 0 { assert d[1..][i - 1] in rest; }
      }
      if d[0].1 >= cutoff {
        var all := Live(d, cutoff);
        forall i, j | 0 <= i < j < |all| ensures all[i].0 != all[j].0 {
          assert all[j] == rest[j - 1] && rest[j - 1] in d[1..];
          if i > 0 { assert all[i] == rest[i - 1]; }
        }
      }
    }
  }

  class EventDeduplicator {
    const ttl: int
    const capacity: nat
    var seen: Table

    constructor (ttl: int, capacity: nat)
      requires ttl > 0 && capacity > 0
      ensures this.ttl == ttl && this.capacity == capacity && seen == []
    {
      this.ttl, this.capacity, seen := ttl, capacity, [];
    }

    method Accept(key: Key, now: int) returns (accepted: bool)
      requires Distinct(seen)
      modifies this
      ensures (seen, accepted) == Present(capacity, ttl, old(seen), key, now)
    {
      var cutoff := now - ttl;
      var expired := Stale(seen, cutoff);
      for i := 0 to |expired|
        invariant Distinct(seen) && Live(seen, cutoff) == Live(old(seen), cutoff) && Stale(seen, cutoff) == expired[i..]
      {
        StaleFirst(seen, cutoff);
        DelShape(seen, expired[i]);
        seen := Del(seen, expired[i]);
      }
      NothingStale(seen, cutoff);
      var at := Get(seen, key);
      if at.Some? {
        seen := Del(seen, key) + [(key, at.value)];
        return false;
      }
      seen := seen + [(key, now)];
      if |seen| > capacity {
        seen := seen[1..];
      }
      return true;
    }
  }

  // ---- histories ----------------------------------------------------------------------------

  datatype Presentation = Presentation(key: Key, at: int)

  function TableAfter(capacity: nat, ttl: int, h: seq<Presentation>): Table {
    if h == [] then []
    else
      var n := |h| - 1;
      Present(capacity, ttl, TableAfter(capacity, ttl, h[..n]), h[n].key, h[n].at).0
  }

  predicate Accepted(capacity: nat, ttl: int, h: seq<Presentation>, i: nat)
    requires i < |h|
  {
    Present(capacity, ttl, TableAfter(capacity, ttl, h[..i]), h[i].key, h[i].at).1
  }

  ghost predicate Clocked(h: seq<Presentation>) {
    forall i, j :: 0 <= i < j < |h| ==> h[i].at <= h[j].at
  }

  /** Where the key was last presented, -1 if nowhere. */
  function LastSeen(h: seq<Presentation>, key: Key): (i: int)
    ensures -1 <= i < |h|
    ensures i >= 0 ==> h[i].key == key
    ensures forall j :: i < j < |h| ==> h[j].key != key
  {
    if h == [] then -1
    else if h[|h| - 1].key == key then |h| - 1
    else LastSeen(h[..|h| - 1], key)
  }

  /** Where the key was last accepted, -1 if nowhere. */
  function LastAccepted(capacity: nat, ttl: int, h: seq<Presentation>, key: Key): (i: int)
    ensures -1 <= i < |h|
    ensures i >= 0 ==> h[i].key == key
  {
    if h == [] then -1
    else if h[|h| - 1].key == key && Accepted(capacity, ttl, h, |h| - 1) then |h| - 1
    else LastAccepted(capacity, ttl, h[..|h| - 1], key)
  }

  /** The distinct keys presented after `p`. */
  function KeysSince(h: seq<Presentation>, p: int): set<Key>
    requires -1 <= p
  {
    set i | p < i < |h| :: h[i].key
  }

  ghost predicate After(h: seq<Presentation>, key: Key, d: Table) {
    forall i :: 0 <= i < |d| ==> LastSeen(h, key) < LastSeen(h, d[i].0)
  }

  /** The table lists keys in the order of their last presentation. */
  ghost predicate Ascending(h: seq<Presentation>, d: Table) {
    d == [] || (After(h, d[0].0, d[1..]) && Ascending(h, d[1..]))
  }

  /** Each entry carries the time of its key's last acceptance. */
  ghost predicate Timed(capacity: nat, ttl: int, h: seq<Presentation>, d: Table) {
    forall i :: 0 <= i < |d| ==>
      var a := LastAccepted(capacity, ttl, h, d[i].0); a >= 0 && h[a].at == d[i].1
  }

  /** The key's last acceptance is at most the time to live before the last presentation. */
  ghost predicate IsLive(capacity: nat, ttl: int, h: seq<Presentation>, key: Key)
    requires h != []
  {
    var a := LastAccepted(capacity, ttl, h, key); a >= 0 && h[a].at >= h[|h| - 1].at - ttl
  }

  /** The live keys presented after `p`. */
  ghost function LiveSince(capacity: nat, ttl: int, h: seq<Presentation>, p: int): set<Key>
    requires -1 <= p
  {
    set i | p < i < |h| && IsLive(capacity, ttl, h, h[i].key) :: h[i].key
  }

  /** Right after presentation `m` at least `capacity` keys presented after `p` are live. */
  ghost predicate Crowded(capacity: nat, ttl: int, h: seq<Presentation>, m: int, p: int)
    requires -1 <= p <= m < |h|
  {
    |LiveSince(capacity, ttl, h[..m + 1], p)| >= capacity
  }

  /** With a key the table has every live key presented after it. */
  ghost predicate NoGaps(capacity: nat, ttl: int, h: seq<Presentation>, d: Table) {
    h != [] ==> forall k: Key, l: Key :: Has(d, k) && LastSeen(h, k) < LastSeen(h, l) && IsLive(capacity, ttl, h, l) ==> Has(d, l)
  }

  ghost predicate WellPlaced(capacity: nat, ttl: int, h: seq<Presentation>, d: Table) {
    Distinct(d) && Ascending(h, d) && Timed(capacity, ttl, h, d)
  }

  ghost predicate TableOk(capacity: nat, ttl: int, h: seq<Presentation>, d: Table) {
    WellPlaced(capacity, ttl, h, d) && |d| <= capacity && NoGaps(capacity, ttl, h, d) && (h == [] ==> d == [])
  }

  lemma {:induction false} AscendingLive(h: seq<Presentation>, d: Table, cutoff: int)
    requires Distinct(d) && Ascending(h, d)
    ensures Ascending(h, Live(d, cutoff))
    decreases |d|
  {
    if d != [] {
      AscendingLive(h, d[1..], cutoff);
      LiveFacts(d[1..], cutoff);
      var rest := Live(d[1..], cutoff);
      forall i | 0 <= i < |rest| ensures LastSeen(h, d[0].0) < LastSeen(h, rest[i].0) { assert rest[i] in d[1..]; }
      if d[0].1 >= cutoff { assert ([d[0]] + rest)[1..] == rest; } else { assert [] + rest == rest; }
    }
  }

  lemma {:induction false} AscendingDel(h: seq<Presentation>, d: Table, key: Key)
    requires Distinct(d) && Ascending(h, d)
    ensures Ascending(h, Del(d, key))
    decreases |d|
  {
    if d != [] && d[0].0 != key {
      AscendingDel(h, d[1..], key);
      DelShape(d[1..], key);
      var rest := Del(d[1..], key);
      forall i | 0 <= i < |rest| ensures LastSeen(h, d[0].0) < LastSeen(h, rest[i].0) { assert rest[i] in d[1..]; }
      assert ([d[0]] + rest)[1..] == rest;
    }
  }

  /** Presenting a key makes it the most recent. */
  lemma {:induction false} AscendingAppend(h: seq<Presentation>, x: Presentation, d: Table, at: int)
    requires Ascending(h, d) && forall i :: 0 <= i < |d| ==> d[i].0 != x.key
    ensures Ascending(h + [x], d + [(x.key, at)])
    decreases |d|
  {
    var g := h + [x];
    assert g[..|h|] == h && g[|h|] == x;
    assert LastSeen(g, x.key) == |h|;
    var e := d + [(x.key, at)];
    if d == [] {
      assert e[1..] == [];
    } else {
      AscendingAppend(h, x, d[1..], at);
      assert e[1..] == d[1..] + [(x.key, at)];
      forall i | 0 <= i < |e[1..]| ensures LastSeen(g, d[0].0) < LastSeen(g, e[1..][i].0) {
        if i < |d| - 1 { assert e[1..][i] == d[1..][i] == d[i + 1]; }
      }
    }
  }

  lemma {:induction false} CountKeys(d: Table)
    requires Distinct(d)
    ensures |set i | 0 <= i < |d| :: d[i].0| == |d|
    decreases |d|
  {
    if d != [] {
      var n := |d| - 1;
      CountKeys(d[..n]);
      var before := set i | 0 <= i < n :: d[..n][i].0;
      assert (set i | 0 <= i < |d| :: d[i].0) == before + {d[n].0};
    }
  }

  /** What one more presentation does to the histories of the keys. */
  lemma {:induction false} Shifted(capacity: nat, ttl: int, h: seq<Presentation>, x: Presentation, key: Key)
    ensures var g := h + [x];
      && LastSeen(g, key) == (if x.key == key then |h| else LastSeen(h, key))
      && LastAccepted(capacity, ttl, g, key) ==
           (if x.key == key && Present(capacity, ttl, TableAfter(capacity, ttl, h), x.key, x.at).1 then |h|
            else LastAccepted(capacity, ttl, h, key))
  {
    var g := h + [x];
    assert g[..|h|] == h && g[|h|] == x;
  }

  lemma {:induction false} HasLive(d: Table, cutoff: int, key: Key)
    requires Distinct(d)
    ensures Has(Live(d, cutoff), key) <==> Has(d, key) && Get(d, key).value >= cutoff
    ensures Has(Live(d, cutoff), key) ==> Get(Live(d, cutoff), key) == Get(d, key)
    decreases |d|
  {
    if d != [] {
      HasLive(d[1..], cutoff, key);
      GetAt(d[1..], key);
      var rest := Live(d[1..], cutoff);
      if d[0].1 >= cutoff { assert ([d[0]] + rest)[1..] == rest; } else { assert [] + rest == rest; }
    }
  }

  lemma {:induction false} HasAppend(d: Table, key: Key, at: int, k: Key)
    ensures Get(d + [(key, at)], k) == if Has(d, k) then Get(d, k) else if k == key then Some(at) else None
    decreases |d|
  {
    var e := d + [(key, at)];
    if d != [] {
      assert e[1..] == d[1..] + [(key, at)];
      HasAppend(d[1..], key, at, k);
    }
  }

  /** The part of the table that stays before the presented key is put at its end. */
  function Kept(d: Table, key: Key, cutoff: int): Table {
    Del(Live(d, cutoff), key)
  }

  lemma {:induction false} KeptFacts(capacity: nat, ttl: int, h: seq<Presentation>, d: Table, key: Key, cutoff: int)
    requires TableOk(capacity, ttl, h, d)
    ensures var e := Kept(d, key, cutoff);
      && Distinct(e) && Ascending(h, e) && Timed(capacity, ttl, h, e) && |e| + (if Has(Live(d, cutoff), key) then 1 else 0) <= capacity
    ensures forall i :: 0 <= i < |Kept(d, key, cutoff)| ==> Kept(d, key, cutoff)[i].0 != key
    ensures !Has(Live(d, cutoff), key) ==> Kept(d, key, cutoff) == Live(d, cutoff)
  {
    var live, e := Live(d, cutoff), Kept(d, key, cutoff);
    LiveFacts(d, cutoff);
    AscendingLive(h, d, cutoff);
    AscendingDel(h, live, key);
    DelShape(live, key);
    DelCount(live, key);
    forall i | 0 <= i < |e| ensures e[i].0 != key && e[i] in d {
      assert e[i] in live;
      GetDistinct(e, i);
    }
  }

  lemma {:induction false} AppendOk(capacity: nat, ttl: int, h: seq<Presentation>, x: Presentation, e: Table, at: int)
    requires Distinct(e) && Ascending(h, e) && Timed(capacity, ttl, h, e) && forall i :: 0 <= i < |e| ==> e[i].0 != x.key
    requires var a := LastAccepted(capacity, ttl, h + [x], x.key); a >= 0 && (h + [x])[a].at == at
    ensures var f := e + [(x.key, at)]; Distinct(f) && Ascending(h + [x], f) && Timed(capacity, ttl, h + [x], f)
  {
    AscendingAppend(h, x, e, at);
    forall i | 0 <= i < |e| ensures LastAccepted(capacity, ttl, h + [x], e[i].0) == LastAccepted(capacity, ttl, h, e[i].0) {
      Shifted(capacity, ttl, h, x, e[i].0);
    }
  }

  /** The time the presented key carries: that of its acceptance, if that is still live. */
  function TimeOf(d: Table, x: Presentation, ttl: int): int {
    match Get(Live(d, x.at - ttl), x.key) case Some(at) => at case None => x.at
  }

  /** The table with the presented key at its end, before any eviction. */
  function Grown(d: Table, x: Presentation, ttl: int): Table {
    Kept(d, x.key, x.at - ttl) + [(x.key, TimeOf(d, x, ttl))]
  }

  lemma {:induction false} TimeIsAcceptance(capacity: nat, ttl: int, h: seq<Presentation>, x: Presentation)
    requires var d := TableAfter(capacity, ttl, h); Distinct(d) && Timed(capacity, ttl, h, d)
    ensures var a := LastAccepted(capacity, ttl, h + [x], x.key);
      a >= 0 && (h + [x])[a].at == TimeOf(TableAfter(capacity, ttl, h), x, ttl)
  {
    var d := TableAfter(capacity, ttl, h);
    Shifted(capacity, ttl, h, x, x.key);
    HasLive(d, x.at - ttl, x.key);
    GetAt(d, x.key);
  }

  lemma {:induction false} PresentGrown(capacity: nat, ttl: int, h: seq<Presentation>, d: Table, x: Presentation)
    requires TableOk(capacity, ttl, h, d)
    ensures Present(capacity, ttl, d, x.key, x.at).0 ==
      if |Grown(d, x, ttl)| > capacity then Grown(d, x, ttl)[1..] else Grown(d, x, ttl)
    ensures |Grown(d, x, ttl)| > capacity ==> |Grown(d, x, ttl)| == capacity + 1
  {
    KeptFacts(capacity, ttl, h, d, x.key, x.at - ttl);
  }

  ghost predicate TimedAt(capacity: nat, ttl: int, h: seq<Presentation>, key: Key, at: int) {
    var a := LastAccepted(capacity, ttl, h, key); a >= 0 && h[a].at == at
  }

  lemma {:induction false} GrownFrom(capacity: nat, ttl: int, h: seq<Presentation>, d: Table, x: Presentation)
    requires TableOk(capacity, ttl, h, d) && TimedAt(capacity, ttl, h + [x], x.key, TimeOf(d, x, ttl))
    ensures WellPlaced(capacity, ttl, h + [x], Grown(d, x, ttl))
  {
    KeptFacts(capacity, ttl, h, d, x.key, x.at - ttl);
    AppendOk(capacity, ttl, h, x, Kept(d, x.key, x.at - ttl), TimeOf(d, x, ttl));
  }

  lemma {:induction false} GrownOk(capacity: nat, ttl: int, h: seq<Presentation>, x: Presentation)
    requires TableOk(capacity, ttl, h, TableAfter(capacity, ttl, h))
    ensures WellPlaced(capacity, ttl, h + [x], Grown(TableAfter(capacity, ttl, h), x, ttl))
  {
    TimeIsAcceptance(capacity, ttl, h, x);
    GrownFrom(capacity, ttl, h, TableAfter(capacity, ttl, h), x);
  }

  lemma {:induction false} LastIsIn(d: Table, key: Key)
    requires d != [] && d[|d| - 1].0 == key
    ensures Has(d, key)
  {
    GetAt(d, key);
  }

  lemma {:induction false} PresentOk(capacity: nat, ttl: int, h: seq<Presentation>, x: Presentation)
    requires capacity > 0 && TableOk(capacity, ttl, h, TableAfter(capacity, ttl, h))
    ensures var f := Present(capacity, ttl, TableAfter(capacity, ttl, h), x.key, x.at).0;
      && Distinct(f) && |f| <= capacity && Ascending(h + [x], f) && Timed(capacity, ttl, h + [x], f) && Has(f, x.key)
  {
    var d := TableAfter(capacity, ttl, h);
    PresentGrown(capacity, ttl, h, d, x);
    GrownOk(capacity, ttl, h, x);
    LastIsIn(Present(capacity, ttl, d, x.key, x.at).0, x.key);
  }

  lemma {:induction false} HasRest(f: Table, k: Key)
    requires f != [] && Has(f, k)
    ensures f[0].0 == k || Has(f[1..], k)
  {
  }

  lemma {:induction false} GrownHas(d: Table, x: Presentation, ttl: int, k: Key)
    requires Distinct(d) && k != x.key && Has(Live(d, x.at - ttl), k)
    ensures Has(Grown(d, x, ttl), k)
  {
    var live := Live(d, x.at - ttl);
    LiveFacts(d, x.at - ttl);
    DelShape(live, x.key);
    HasAppend(Kept(d, x.key, x.at - ttl), x.key, TimeOf(d, x, ttl), k);
  }

  lemma {:induction false} AscendingAt(h: seq<Presentation>, d: Table, i: nat, j: nat)
    requires Ascending(h, d) && i < j < |d|
    ensures LastSeen(h, d[i].0) < LastSeen(h, d[j].0)
    decreases |d|
  {
    assert d[1..][j - 1] == d[j];
    if i > 0 {
      assert d[1..][i - 1] == d[i];
      AscendingAt(h, d[1..], i - 1, j - 1);
    }
  }

  lemma {:induction false} IndexOf(d: Table, k: Key) returns (i: nat)
    requires Has(d, k)
    ensures i < |d| && d[i].0 == k
    decreases |d|
  {
    if d[0].0 == k { i := 0; }
    else {
      i := IndexOf(d[1..], k);
      i := i + 1;
    }
  }

  /** What is live after one more presentation was live before it. */
  lemma {:induction false} LiveBefore(capacity: nat, ttl: int, h: seq<Presentation>, x: Presentation, k: Key)
    requires h != [] && Clocked(h + [x]) && k != x.key && IsLive(capacity, ttl, h + [x], k)
    ensures IsLive(capacity, ttl, h, k)
    ensures LastAccepted(capacity, ttl, h, k) >= 0 && h[LastAccepted(capacity, ttl, h, k)].at >= x.at - ttl
  {
    var g := h + [x];
    Shifted(capacity, ttl, h, x, k);
    assert g[|h| - 1] == h[|h| - 1] && g[|h|] == x;
  }

  /** A live key of the table is in the grown table too. */
  lemma {:induction false} LiveIsGrown(capacity: nat, ttl: int, h: seq<Presentation>, x: Presentation, k: Key)
    requires h != [] && TableOk(capacity, ttl, h, TableAfter(capacity, ttl, h)) && Clocked(h + [x]) && k != x.key
    requires Has(TableAfter(capacity, ttl, h), k) && IsLive(capacity, ttl, h + [x], k)
    ensures Has(Grown(TableAfter(capacity, ttl, h), x, ttl), k)
  {
    var d := TableAfter(capacity, ttl, h);
    LiveBefore(capacity, ttl, h, x, k);
    HasLive(d, x.at - ttl, k);
    GetAt(d, k);
    GrownHas(d, x, ttl, k);
  }

  /** Nothing but the presented key enters the table. */
  lemma {:induction false} GrownFromTable(d: Table, x: Presentation, ttl: int, k: Key)
    requires Distinct(d) && k != x.key && Has(Grown(d, x, ttl), k)
    ensures Has(d, k)
  {
    var live := Live(d, x.at - ttl);
    LiveFacts(d, x.at - ttl);
    DelShape(live, x.key);
    HasAppend(Kept(d, x.key, x.at - ttl), x.key, TimeOf(d, x, ttl), k);
    HasLive(d, x.at - ttl, k);
  }

  lemma {:induction false} GrownKey(d: Table, x: Presentation, ttl: int)
    ensures Has(Grown(d, x, ttl), x.key)
  {
    var f := Grown(d, x, ttl);
    LastIsIn(f, x.key);
  }

  /** The grown table has no gaps either. */
  lemma {:induction false} GrownNoGaps(capacity: nat, ttl: int, h: seq<Presentation>, x: Presentation, k: Key, l: Key)
    requires TableOk(capacity, ttl, h, TableAfter(capacity, ttl, h)) && Clocked(h + [x])
    requires Has(Grown(TableAfter(capacity, ttl, h), x, ttl), k) && IsLive(capacity, ttl, h + [x], l)
    requires LastSeen(h + [x], k) < LastSeen(h + [x], l)
    ensures Has(Grown(TableAfter(capacity, ttl, h), x, ttl), l)
  {
    var d := TableAfter(capacity, ttl, h);
    Shifted(capacity, ttl, h, x, k);
    Shifted(capacity, ttl, h, x, l);
    if l == x.key {
      GrownKey(d, x, ttl);
    } else {
      GrownFromTable(d, x, ttl, k);
      LiveBefore(capacity, ttl, h, x, l);
      LiveIsGrown(capacity, ttl, h, x, l);
    }
  }

  /** Evicting the first entry opens no gap. */
  lemma {:induction false} RestNoGaps(capacity: nat, ttl: int, g: seq<Presentation>, f: Table, k: Key, l: Key)
    requires f != [] && Distinct(f) && Ascending(g, f) && Has(f[1..], k) && Has(f, l) && LastSeen(g, k) < LastSeen(g, l)
    ensures Has(f[1..], l)
  {
    if f[0].0 == l {
      var i := IndexOf(f[1..], k);
    }
    HasRest(f, l);
  }

  lemma {:induction false} RestHas(f: Table, k: Key)
    requires f != [] && Distinct(f) && Has(f[1..], k)
    ensures Has(f, k) && f[0].0 != k
  {
    var i := IndexOf(f[1..], k);
    assert f[i + 1].0 == k;
  }

  lemma {:induction false} PresentNoGaps(capacity: nat, ttl: int, h: seq<Presentation>, x: Presentation)
    requires capacity > 0 && TableOk(capacity, ttl, h, TableAfter(capacity, ttl, h)) && Clocked(h + [x])
    ensures NoGaps(capacity, ttl, h + [x], Present(capacity, ttl, TableAfter(capacity, ttl, h), x.key, x.at).0)
  {
    var d, g := TableAfter(capacity, ttl, h), h + [x];
    var f, t := Grown(d, x, ttl), Present(capacity, ttl, d, x.key, x.at).0;
    PresentGrown(capacity, ttl, h, d, x);
    GrownOk(capacity, ttl, h, x);
    forall k: Key, l: Key | Has(t, k) && LastSeen(g, k) < LastSeen(g, l) && IsLive(capacity, ttl, g, l) ensures Has(t, l) {
      if |f| > capacity { RestHas(f, k); }
      GrownNoGaps(capacity, ttl, h, x, k, l);
      if |f| > capacity { RestNoGaps(capacity, ttl, g, f, k, l); }
    }
  }

  /** Every table the deduplicator reaches. */
  lemma {:induction false} TablesOk(capacity: nat, ttl: int, h: seq<Presentation>)
    requires capacity > 0 && Clocked(h)
    ensures TableOk(capacity, ttl, h, TableAfter(capacity, ttl, h))
    decreases |h|
  {
    if h != [] {
      var n := |h| - 1;
      TablesOk(capacity, ttl, h[..n]);
      assert h == h[..n] + [h[n]];
      PresentOk(capacity, ttl, h[..n], h[n]);
      PresentNoGaps(capacity, ttl, h[..n], h[n]);
    }
  }

  /** The table never exceeds the capacity. */
  lemma {:induction false} NeverOverfull(capacity: nat, ttl: int, h: seq<Presentation>)
    requires capacity > 0 && Clocked(h)
    ensures |TableAfter(capacity, ttl, h)| <= capacity
  {
    TablesOk(capacity, ttl, h);
  }

  /** Only duplicates are rejected: the key's last acceptance is at most the time to live ago. */
  lemma {:induction false} RejectedWasAccepted(capacity: nat, ttl: int, h: seq<Presentation>, x: Presentation)
    requires capacity > 0 && Clocked(h + [x]) && !Accepted(capacity, ttl, h + [x], |h|)
    ensures var a := LastAccepted(capacity, ttl, h, x.key);
      a >= 0 && Accepted(capacity, ttl, h, a) && h[a].at >= x.at - ttl
  {
    var d := TableAfter(capacity, ttl, h);
    assert Clocked(h) by { assert forall i :: 0 <= i < |h| ==> (h + [x])[i] == h[i]; }
    TablesOk(capacity, ttl, h);
    OneStep(capacity, ttl, h, x);
    HasLive(d, x.at - ttl, x.key);
    var i := IndexOf(d, x.key);
    GetDistinct(d, i);
    AcceptedThere(capacity, ttl, h, x.key);
  }

  lemma {:induction false} AcceptedThere(capacity: nat, ttl: int, h: seq<Presentation>, key: Key)
    requires LastAccepted(capacity, ttl, h, key) >= 0
    ensures Accepted(capacity, ttl, h, LastAccepted(capacity, ttl, h, key))
    decreases |h|
  {
    var a, n := LastAccepted(capacity, ttl, h, key), |h| - 1;
    if !(h[n].key == key && Accepted(capacity, ttl, h, n)) {
      AcceptedThere(capacity, ttl, h[..n], key);
      assert h[..n][..a] == h[..a];
    }
  }

  // ---- when a duplicate gets through --------------------------------------------------------

  /** The keys that follow an entry of the grown table are the live ones presented since its key. */
  lemma {:induction false} FollowersAreLive(capacity: nat, ttl: int, h: seq<Presentation>, x: Presentation, i: nat, k: Key)
    requires h != [] && TableOk(capacity, ttl, h, TableAfter(capacity, ttl, h)) && Clocked(h + [x]) && ttl > 0
    requires var f := Grown(TableAfter(capacity, ttl, h), x, ttl); i < |f| && f[i].0 == k && k != x.key && LastSeen(h, k) >= 0
    ensures var f := Grown(TableAfter(capacity, ttl, h), x, ttl);
      (set j | i < j < |f| :: f[j].0) == LiveSince(capacity, ttl, h + [x], LastSeen(h, k))
  {
    var g, f := h + [x], Grown(TableAfter(capacity, ttl, h), x, ttl);
    var p := LastSeen(h, k);
    GrownOk(capacity, ttl, h, x);
    Shifted(capacity, ttl, h, x, k);
    forall j | i < j < |f| ensures f[j].0 in LiveSince(capacity, ttl, g, p) {
      AscendingAt(g, f, i, j);
      GrownTimes(capacity, ttl, h, x, j);
      assert g[LastSeen(g, f[j].0)].key == f[j].0;
    }
    GetDistinct(f, i);
    forall l | l in LiveSince(capacity, ttl, g, p) ensures exists j :: i < j < |f| && f[j].0 == l {
      FollowerFound(capacity, ttl, h, x, i, k, l);
    }
  }

  lemma {:induction false} FollowerFound(capacity: nat, ttl: int, h: seq<Presentation>, x: Presentation, i: nat, k: Key, l: Key)
    requires h != [] && TableOk(capacity, ttl, h, TableAfter(capacity, ttl, h)) && Clocked(h + [x])
    requires var f := Grown(TableAfter(capacity, ttl, h), x, ttl); i < |f| && f[i].0 == k && k != x.key && LastSeen(h, k) >= 0
    requires l in LiveSince(capacity, ttl, h + [x], LastSeen(h, k))
    ensures var f := Grown(TableAfter(capacity, ttl, h), x, ttl); exists j :: i < j < |f| && f[j].0 == l
  {
    var g, f := h + [x], Grown(TableAfter(capacity, ttl, h), x, ttl);
    GrownOk(capacity, ttl, h, x);
    Shifted(capacity, ttl, h, x, k);
    GetDistinct(f, i);
    GrownNoGaps(capacity, ttl, h, x, k, l);
    var j := IndexOf(f, l);
    if j < i { AscendingAt(g, f, j, i); }
  }

  lemma {:induction false} GrownTime(d: Table, x: Presentation, ttl: int, j: nat)
    requires Distinct(d) && ttl > 0 && j < |Grown(d, x, ttl)|
    ensures Grown(d, x, ttl)[j].1 >= x.at - ttl
  {
    var live, e := Live(d, x.at - ttl), Kept(d, x.key, x.at - ttl);
    LiveFacts(d, x.at - ttl);
    DelShape(live, x.key);
    if j < |e| { assert e[j] in live; }
    else { GetAt(live, x.key); }
  }

  lemma {:induction false} GrownTimes(capacity: nat, ttl: int, h: seq<Presentation>, x: Presentation, j: nat)
    requires TableOk(capacity, ttl, h, TableAfter(capacity, ttl, h))
    requires ttl > 0 && j < |Grown(TableAfter(capacity, ttl, h), x, ttl)|
    ensures IsLive(capacity, ttl, h + [x], Grown(TableAfter(capacity, ttl, h), x, ttl)[j].0)
  {
    GrownOk(capacity, ttl, h, x);
    GrownTime(TableAfter(capacity, ttl, h), x, ttl, j);
  }

  /** One presentation of another key: a live key leaves the table exactly when it is crowded out. */
  lemma {:induction false} LeavesExactly(capacity: nat, ttl: int, h: seq<Presentation>, x: Presentation, k: Key)
    requires capacity > 0 && ttl > 0 && h != [] && TableOk(capacity, ttl, h, TableAfter(capacity, ttl, h)) && Clocked(h + [x])
    requires k != x.key && Has(TableAfter(capacity, ttl, h), k) && IsLive(capacity, ttl, h + [x], k) && LastSeen(h, k) >= 0
    ensures Has(TableAfter(capacity, ttl, h + [x]), k) <==> !Crowded(capacity, ttl, h + [x], |h|, LastSeen(h, k))
  {
    var d := TableAfter(capacity, ttl, h);
    var f := Grown(d, x, ttl);
    OneStep(capacity, ttl, h, x);
    PresentGrown(capacity, ttl, h, d, x);
    LiveIsGrown(capacity, ttl, h, x, k);
    GrownOk(capacity, ttl, h, x);
    var i := IndexOf(f, k);
    FollowersAreLive(capacity, ttl, h, x, i, k);
    CountAfter(f, i);
    assert (h + [x])[..|h| + 1] == h + [x];
    if |f| > capacity {
      if i == 0 { if Has(f[1..], k) { RestHas(f, k); } } else { HasRest(f, k); }
    }
  }

  lemma {:induction false} CountAfter(f: Table, i: nat)
    requires Distinct(f) && i < |f|
    ensures |set j | i < j < |f| :: f[j].0| == |f| - 1 - i
  {
    var rest := f[i + 1..];
    CountKeys(rest);
    var a, b := set j | i < j < |f| :: f[j].0, set j | 0 <= j < |rest| :: rest[j].0;
    forall k | k in a ensures k in b {
      var j :| i < j < |f| && f[j].0 == k;
      assert rest[j - i - 1].0 == k;
    }
    forall k | k in b ensures k in a {
      var j :| 0 <= j < |rest| && rest[j].0 == k;
      assert f[i + 1 + j].0 == k;
    }
    assert a == b;
  }

  /** And once out it stays out until it is presented again. */
  lemma {:induction false} StaysOut(capacity: nat, ttl: int, h: seq<Presentation>, x: Presentation, k: Key)
    requires capacity > 0 && TableOk(capacity, ttl, h, TableAfter(capacity, ttl, h))
    requires k != x.key && !Has(TableAfter(capacity, ttl, h), k)
    ensures !Has(TableAfter(capacity, ttl, h + [x]), k)
  {
    var d := TableAfter(capacity, ttl, h);
    var f := Grown(d, x, ttl);
    OneStep(capacity, ttl, h, x);
    PresentGrown(capacity, ttl, h, d, x);
    GrownOk(capacity, ttl, h, x);
    if |f| > capacity { if Has(f[1..], k) { RestHas(f, k); } }
    if Has(f, k) { GrownFromTable(d, x, ttl, k); }
  }

  ghost predicate EverCrowded(capacity: nat, ttl: int, h: seq<Presentation>, p: int)
    requires -1 <= p
  {
    exists m :: p < m < |h| && Crowded(capacity, ttl, h, m, p)
  }

  lemma {:induction false} CrowdedStep(capacity: nat, ttl: int, h: seq<Presentation>, p: int)
    requires -1 <= p < |h| - 1
    ensures EverCrowded(capacity, ttl, h, p) <==> EverCrowded(capacity, ttl, h[..|h| - 1], p) || Crowded(capacity, ttl, h, |h| - 1, p)
  {
    var g := h[..|h| - 1];
    forall m | p < m < |g| ensures Crowded(capacity, ttl, g, m, p) <==> Crowded(capacity, ttl, h, m, p) {
      assert g[..m + 1] == h[..m + 1];
    }
    if EverCrowded(capacity, ttl, g, p) {
      var m :| p < m < |g| && Crowded(capacity, ttl, g, m, p);
      assert Crowded(capacity, ttl, h, m, p);
    }
    if EverCrowded(capacity, ttl, h, p) {
      var m :| p < m < |h| && Crowded(capacity, ttl, h, m, p);
      if m < |g| { assert Crowded(capacity, ttl, g, m, p); }
    }
  }

  /** A live key is in the table exactly when it has not been crowded out since. */
  lemma {:induction false} HeldExactly(capacity: nat, ttl: int, h: seq<Presentation>, k: Key)
    requires capacity > 0 && ttl > 0 && Clocked(h) && LastSeen(h, k) >= 0 && IsLive(capacity, ttl, h, k)
    ensures Has(TableAfter(capacity, ttl, h), k) <==> !EverCrowded(capacity, ttl, h, LastSeen(h, k))
    decreases |h|
  {
    var n := |h| - 1;
    var g, x := h[..n], h[n];
    assert h == g + [x];
    TablesOk(capacity, ttl, g);
    if x.key == k {
      PresentOk(capacity, ttl, g, x);
    } else {
      Shifted(capacity, ttl, g, x, k);
      LiveBefore(capacity, ttl, g, x, k);
      HeldExactly(capacity, ttl, g, k);
      HeldStep(capacity, ttl, g, x, k);
    }
  }

  lemma {:induction false} HeldStep(capacity: nat, ttl: int, h: seq<Presentation>, x: Presentation, k: Key)
    requires capacity > 0 && ttl > 0 && TableOk(capacity, ttl, h, TableAfter(capacity, ttl, h)) && Clocked(h + [x])
    requires k != x.key && LastSeen(h, k) >= 0 && IsLive(capacity, ttl, h + [x], k)
    requires Has(TableAfter(capacity, ttl, h), k) <==> !EverCrowded(capacity, ttl, h, LastSeen(h, k))
    ensures Has(TableAfter(capacity, ttl, h + [x]), k) <==> !EverCrowded(capacity, ttl, h + [x], LastSeen(h, k))
  {
    assert (h + [x])[..|h|] == h;
    CrowdedStep(capacity, ttl, h + [x], LastSeen(h, k));
    if Has(TableAfter(capacity, ttl, h), k) { LeavesExactly(capacity, ttl, h, x, k); } else { StaysOut(capacity, ttl, h, x, k); }
  }

  /** When a duplicate gets through: a key accepted at most the time to live ago is accepted again
      exactly when, at some presentation since its last one, at least `capacity` other keys
      presented since were live. */
  lemma {:induction false} AcceptedAgainExactly(capacity: nat, ttl: int, h: seq<Presentation>, x: Presentation)
    requires capacity > 0 && ttl > 0 && Clocked(h + [x])
    requires var a := LastAccepted(capacity, ttl, h, x.key); a >= 0 && h[a].at >= x.at - ttl
    ensures var p := LastSeen(h, x.key);
      p >= 0 && (Accepted(capacity, ttl, h + [x], |h|) <==> EverCrowded(capacity, ttl, h, p))
  {
    var g := h + [x];
    assert Clocked(h) by { assert forall i :: 0 <= i < |h| ==> g[i] == h[i]; }
    assert g[|h| - 1] == h[|h| - 1] && g[|h|] == x;
    TablesOk(capacity, ttl, h);
    HeldExactly(capacity, ttl, h, x.key);
    HeldIsRejected(capacity, ttl, h, x);
  }

  /** A key accepted at most the time to live ago is rejected exactly when the table holds it. */
  lemma {:induction false} HeldIsRejected(capacity: nat, ttl: int, h: seq<Presentation>, x: Presentation)
    requires TableOk(capacity, ttl, h, TableAfter(capacity, ttl, h))
    requires var a := LastAccepted(capacity, ttl, h, x.key); a >= 0 && h[a].at >= x.at - ttl
    ensures Accepted(capacity, ttl, h + [x], |h|) <==> !Has(TableAfter(capacity, ttl, h), x.key)
  {
    OneStep(capacity, ttl, h, x);
    HasLive(TableAfter(capacity, ttl, h), x.at - ttl, x.key);
    GetAt(TableAfter(capacity, ttl, h), x.key);
  }

  lemma {:induction false} LiveIsSince(capacity: nat, ttl: int, h: seq<Presentation>, m: nat, p: int)
    requires -1 <= p && m < |h|
    ensures |LiveSince(capacity, ttl, h[..m + 1], p)| <= |KeysSince(h, p)|
  {
    var g := h[..m + 1];
    forall k | k in LiveSince(capacity, ttl, g, p) ensures k in KeysSince(h, p) {
      var i :| p < i < |g| && g[i].key == k;
      assert h[i].key == k;
    }
    SmallerSet(LiveSince(capacity, ttl, g, p), KeysSince(h, p));
  }

  /** So only under load: at least `capacity` other keys have been presented since it was. */
  lemma {:induction false} AcceptedAgainOnlyWhenCrowded(capacity: nat, ttl: int, h: seq<Presentation>, x: Presentation)
    requires capacity > 0 && ttl > 0 && Clocked(h + [x]) && Accepted(capacity, ttl, h + [x], |h|)
    requires var a := LastAccepted(capacity, ttl, h, x.key); a >= 0 && h[a].at >= x.at - ttl
    ensures var p := LastSeen(h, x.key); p >= 0 && x.key !in KeysSince(h, p) && |KeysSince(h, p)| >= capacity
  {
    AcceptedAgainExactly(capacity, ttl, h, x);
    var p := LastSeen(h, x.key);
    var m :| p < m < |h| && Crowded(capacity, ttl, h, m, p);
    LiveIsSince(capacity, ttl, h, m, p);
  }

  lemma {:induction false} OneStep(capacity: nat, ttl: int, h: seq<Presentation>, x: Presentation)
    ensures TableAfter(capacity, ttl, h + [x]) == Present(capacity, ttl, TableAfter(capacity, ttl, h), x.key, x.at).0
    ensures Accepted(capacity, ttl, h + [x], |h|) == Present(capacity, ttl, TableAfter(capacity, ttl, h), x.key, x.at).1
  {
    assert (h + [x])[..|h|] == h;
  }

  lemma {:induction false} SmallTables(e: (Key, int), f: (Key, int), cutoff: int, k: Key)
    ensures Live([e], cutoff) == if e.1 >= cutoff then [e] else []
    ensures Live([e, f], cutoff) == (if e.1 >= cutoff then [e] else []) + (if f.1 >= cutoff then [f] else [])
    ensures Get([e], k) == if e.0 == k then Some(e.1) else None
    ensures Get([e, f], k) == if e.0 == k then Some(e.1) else if f.0 == k then Some(f.1) else None
    ensures Del([e, f], k) == if e.0 == k then [f] else if f.0 == k then [e] else [e, f]
  {
    assert [e][1..] == [] && [e, f][1..] == [f] && [f][1..] == [];
    assert Del([f], k) == if f.0 == k then [] else [f];
  }

  lemma ExampleSteps()
    ensures Present(2, 10, [], 2, 0) == ([(2, 0)], true)
    ensures Present(2, 10, [(2, 0)], 1, 5) == ([(2, 0), (1, 5)], true)
    ensures Present(2, 10, [(2, 0), (1, 5)], 2, 6) == ([(1, 5), (2, 0)], false)
  {
    var none: Table := [];
    assert none + [(2, 0)] == [(2, 0)] && [(2, 0)] + [(1, 5)] == [(2, 0), (1, 5)];
    SmallTables((2, 0), (1, 5), -5, 1);
    SmallTables((2, 0), (1, 5), -4, 2);
    assert Live([(2, 0), (1, 5)], -4) == [(2, 0), (1, 5)] && [(1, 5)] + [(2, 0)] == [(1, 5), (2, 0)];
  }

  lemma ExampleLast()
    ensures Present(2, 10, [(1, 5), (2, 0)], 3, 11) == ([(1, 5), (3, 11)], true)
    ensures !Present(2, 10, [(1, 5), (3, 11)], 1, 12).1
  {
    var none: Table := [];
    assert [(1, 5)] + none == [(1, 5)] && [(1, 5)] + [(3, 11)] == [(1, 5), (3, 11)];
    SmallTables((1, 5), (2, 0), 1, 3);
    SmallTables((1, 5), (2, 0), 1, 1);
    SmallTables((1, 5), (3, 11), 2, 1);
  }

  lemma ExampleTable()
    ensures TableAfter(2, 10, [Presentation(2, 0), Presentation(1, 5), Presentation(2, 6), Presentation(3, 11)]) == [(1, 5), (3, 11)]
  {
    var a, b, c, d := Presentation(2, 0), Presentation(1, 5), Presentation(2, 6), Presentation(3, 11);
    ExampleSteps();
    ExampleLast();
    OneStep(2, 10, [], a);
    OneStep(2, 10, [a], b);
    OneStep(2, 10, [a, b], c);
    OneStep(2, 10, [a, b, c], d);
    assert [] + [a] == [a] && [a] + [b] == [a, b] && [a, b] + [c] == [a, b, c] && [a, b, c] + [d] == [a, b, c, d];
  }

  lemma ExampleCrowd()
    ensures |KeysSince([Presentation(2, 0), Presentation(1, 5), Presentation(2, 6), Presentation(3, 11)], 1)| >= 2
  {
    var h := [Presentation(2, 0), Presentation(1, 5), Presentation(2, 6), Presentation(3, 11)];
    assert h[2].key in KeysSince(h, 1) && h[3].key in KeysSince(h, 1);
    SmallerSet({2, 3}, KeysSince(h, 1));
  }

  /** The converse fails, because expiry makes room: with room for two keys, two others have been
      presented since key 1 was, and key 1 is still rejected as the duplicate it is. */
  lemma CrowdingNeedNotEvict()
    ensures var h := [Presentation(2, 0), Presentation(1, 5), Presentation(2, 6), Presentation(3, 11)];
      && Clocked(h + [Presentation(1, 12)]) && |KeysSince(h, 1)| >= 2 && h[1].key == 1
      && !Accepted(2, 10, h + [Presentation(1, 12)], |h|)
  {
    var h := [Presentation(2, 0), Presentation(1, 5), Presentation(2, 6), Presentation(3, 11)];
    ExampleLast();
    ExampleTable();
    ExampleCrowd();
    OneStep(2, 10, h, Presentation(1, 12));
    var g := h + [Presentation(1, 12)];
    assert |g| == 5 && g[0].at == 0 && g[1].at == 5 && g[2].at == 6 && g[3].at == 11 && g[4].at == 12;
  }
}
