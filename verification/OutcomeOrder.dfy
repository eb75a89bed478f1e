/** The cycles of one instrument depend on its own trades alone, so that fills of different
    instruments may be read in either order. */
module OutcomeOrder {
  import opened Dicts
  import opened Domain
  import opened Folds
  import opened LedgerState
  import opened Sorting
  import opened Outcomes
  import opened OutcomeTracking

  // ---- one instrument at a time -------------------------------------------------------------

  predicate TradeAt(t: Trade, i: Id) {
    t.terms.Some? && t.terms.value.contract.instrument == i
  }

  function TradesAt(ts: seq<Trade>, i: Id): seq<Trade> {
    if ts == [] then [] else TradesAt(ts[..|ts| - 1], i) + if TradeAt(ts[|ts| - 1], i) then [ts[|ts| - 1]] else []
  }

  function OutcomesAt(done: seq<ClosedOutcome>, i: Id): seq<ClosedOutcome> {
    if done == [] then []
    else OutcomesAt(done[..|done| - 1], i) + if done[|done| - 1].contract.instrument == i then [done[|done| - 1]] else []
  }

  ghost predicate OpenKeyed(b: CycleBook) {
    forall i :: i in b.open ==> b.open[i].contract.instrument == i
  }

  /** `c` is what `b` holds for the instrument. */
  ghost predicate Projects(b: CycleBook, c: CycleBook, i: Id) {
    && (i in b.open <==> i in c.open) && (i in b.open ==> b.open[i] == c.open[i])
    && OutcomesAt(b.done, i) == c.done
  }

  lemma {:induction false} OutcomesAppend(done: seq<ClosedOutcome>, o: ClosedOutcome, i: Id)
    ensures OutcomesAt(done + [o], i) == OutcomesAt(done, i) + if o.contract.instrument == i then [o] else []
  {
    assert (done + [o])[..|done|] == done;
  }

  /** A trade writes only its own instrument. */
  lemma TakeKeyed(b: CycleBook, t: Trade)
    requires OpenKeyed(b) && TakeTrade(b, t).Ok?
    ensures var r := TakeTrade(b, t).value; var at := t.terms.value.contract.instrument;
      && OpenKeyed(r) && (forall i :: i != at ==> (i in r.open <==> i in b.open) && (i in b.open ==> r.open[i] == b.open[i]))
      && (r.done == b.done || exists o: ClosedOutcome :: o.contract.instrument == at && r.done == b.done + [o])
  {
  }

  lemma {:induction false} StepAside(b: CycleBook, c: CycleBook, t: Trade, i: Id)
    requires Projects(b, c, i) && OpenKeyed(b) && TakeTrade(b, t).Ok? && !TradeAt(t, i)
    ensures Projects(TakeTrade(b, t).value, c, i)
  {
    TakeKeyed(b, t);
    var r := TakeTrade(b, t).value;
    if r.done != b.done {
      var o: ClosedOutcome :| o.contract.instrument == t.terms.value.contract.instrument && r.done == b.done + [o];
      OutcomesAppend(b.done, o, i);
    }
  }

  lemma {:induction false} StepAt(b: CycleBook, c: CycleBook, t: Trade, i: Id)
    requires Projects(b, c, i) && OpenKeyed(b) && TradeAt(t, i)
    ensures TakeTrade(b, t).Ok? <==> TakeTrade(c, t).Ok?
    ensures TakeTrade(b, t).Ok? ==> Projects(TakeTrade(b, t).value, TakeTrade(c, t).value, i)
  {
    assert CycleFor(b, t.terms.value.contract) == CycleFor(c, t.terms.value.contract);
    if TakeTrade(b, t).Ok? && TakeTrade(b, t).value.done != b.done {
      var r := TakeTrade(b, t).value;
      assert r.done == b.done + [r.done[|b.done|]];
      OutcomesAppend(b.done, r.done[|b.done|], i);
    }
  }

  lemma {:induction false} LastTrade(ts: seq<Trade>)
    requires ts != []
    ensures Fold(TradeStep, NoCycles, ts) ==
      match Fold(TradeStep, NoCycles, ts[..|ts| - 1]) case Err(e) => Err(e) case Ok(b) => TakeTrade(b, ts[|ts| - 1])
  {
  }

  /** The book of all trades holds, for each instrument, the book of its own trades. */
  lemma {:induction false} FoldProjects(ts: seq<Trade>, i: Id)
    requires Fold(TradeStep, NoCycles, ts).Ok?
    ensures var c := Fold(TradeStep, NoCycles, TradesAt(ts, i));
      c.Ok? && Projects(Fold(TradeStep, NoCycles, ts).value, c.value, i) && OpenKeyed(Fold(TradeStep, NoCycles, ts).value)
    decreases |ts|
  {
    if ts != [] {
      var before, t := ts[..|ts| - 1], ts[|ts| - 1];
      LastTrade(ts);
      FoldProjects(before, i);
      var b, c := Fold(TradeStep, NoCycles, before).value, Fold(TradeStep, NoCycles, TradesAt(before, i)).value;
      TakeKeyed(b, t);
      if TradeAt(t, i) {
        StepAt(b, c, t, i);
        var mine := TradesAt(before, i) + [t];
        assert mine[..|mine| - 1] == TradesAt(before, i);
        LastTrade(mine);
      } else {
        StepAside(b, c, t, i);
        assert TradesAt(ts, i) == TradesAt(before, i) + [] == TradesAt(before, i);
      }
    }
  }

  /** If each instrument's own trades fold, all of them do. */
  lemma {:induction false} FoldWhole(ts: seq<Trade>)
    requires forall k :: 0 <= k < |ts| ==> ts[k].terms.Some?
    requires forall i: Id :: Fold(TradeStep, NoCycles, TradesAt(ts, i)).Ok?
    ensures Fold(TradeStep, NoCycles, ts).Ok?
    decreases |ts|
  {
    if ts != [] {
      var before, t := ts[..|ts| - 1], ts[|ts| - 1];
      forall i: Id ensures Fold(TradeStep, NoCycles, TradesAt(before, i)).Ok? { PrefixFolds(before, t, ts, i); }
      FoldWhole(before);
      var at := t.terms.value.contract.instrument;
      FoldProjects(before, at);
      var mine := TradesAt(before, at) + [t];
      assert mine[..|mine| - 1] == TradesAt(before, at) && TradesAt(ts, at) == mine;
      LastTrade(mine);
      StepAt(Fold(TradeStep, NoCycles, before).value, Fold(TradeStep, NoCycles, TradesAt(before, at)).value, t, at);
      LastTrade(ts);
    }
  }

  lemma {:induction false} PrefixFolds(before: seq<Trade>, t: Trade, ts: seq<Trade>, i: Id)
    requires ts != [] && before == ts[..|ts| - 1] && t == ts[|ts| - 1] && Fold(TradeStep, NoCycles, TradesAt(ts, i)).Ok?
    ensures Fold(TradeStep, NoCycles, TradesAt(before, i)).Ok?
  {
    if TradeAt(t, i) {
      var mine := TradesAt(before, i) + [t];
      assert mine[..|mine| - 1] == TradesAt(before, i) && TradesAt(ts, i) == mine;
      LastTrade(mine);
    } else {
      assert TradesAt(ts, i) == TradesAt(before, i) + [] == TradesAt(before, i);
    }
  }

  /** Trades whose order differs only between instruments complete the same cycles. */
  lemma {:induction false} Interleaved(a: seq<Trade>, b: seq<Trade>)
    requires Fold(TradeStep, NoCycles, a).Ok? && forall k :: 0 <= k < |b| ==> b[k].terms.Some?
    requires forall i: Id :: TradesAt(b, i) == TradesAt(a, i)
    ensures Fold(TradeStep, NoCycles, b).Ok?
    ensures forall i: Id :: OutcomesAt(Fold(TradeStep, NoCycles, b).value.done, i) == OutcomesAt(Fold(TradeStep, NoCycles, a).value.done, i)
  {
    forall i: Id ensures Fold(TradeStep, NoCycles, TradesAt(b, i)).Ok? { FoldProjects(a, i); }
    FoldWhole(b);
    forall i: Id
      ensures OutcomesAt(Fold(TradeStep, NoCycles, b).value.done, i) == OutcomesAt(Fold(TradeStep, NoCycles, a).value.done, i)
    {
      FoldProjects(a, i);
      FoldProjects(b, i);
    }
  }

  // ---- the fills of a ledger in another order -----------------------------------------------

  predicate FillAt(d: Dict<Id, LedgerOrder>, f: Fill, i: Id) {
    Has(d, f.orderId) && Get(d, f.orderId).value.published.contract.instrument == i
  }

  function FillsAt(d: Dict<Id, LedgerOrder>, fs: seq<Fill>, i: Id): seq<Fill> {
    if fs == [] then [] else FillsAt(d, fs[..|fs| - 1], i) + if FillAt(d, fs[|fs| - 1], i) then [fs[|fs| - 1]] else []
  }

  lemma {:induction false} TradesOfFillsAt(d: Dict<Id, LedgerOrder>, fs: seq<Fill>, i: Id)
    ensures TradesAt(LedgerTrades(d, fs), i) == LedgerTrades(d, FillsAt(d, fs, i))
    decreases |fs|
  {
    if fs != [] {
      var n := |fs| - 1;
      TradesOfFillsAt(d, fs[..n], i);
      assert LedgerTrades(d, fs)[..n] == LedgerTrades(d, fs[..n]);
      var mine := FillsAt(d, fs[..n], i);
      if FillAt(d, fs[n], i) { assert LedgerTrades(d, mine + [fs[n]]) == LedgerTrades(d, mine) + [LedgerTrades(d, fs)[n]]; }
      else { assert mine + [] == mine && LedgerTrades(d, mine) + [] == LedgerTrades(d, mine); }
    } else {
      assert LedgerTrades(d, fs) == [];
    }
  }

  lemma {:induction false} FillsAtCount(d: Dict<Id, LedgerOrder>, fs: seq<Fill>, i: Id, f: Fill)
    ensures multiset(FillsAt(d, fs, i))[f] == if FillAt(d, f, i) then multiset(fs)[f] else 0
    decreases |fs|
  {
    if fs != [] {
      var n := |fs| - 1;
      FillsAtCount(d, fs[..n], i, f);
      assert fs == fs[..n] + [fs[n]];
    }
  }

  /** Within the instrument the fills come in the ledger's order. */
  ghost predicate InOrderAt(d: Dict<Id, LedgerOrder>, fs: seq<Fill>, i: Id) {
    forall j, k :: 0 <= j < k < |fs| && FillAt(d, fs[j], i) && FillAt(d, fs[k], i) ==> fs[j].fillId < fs[k].fillId
  }

  predicate IdLe(a: Fill, b: Fill) {
    a.fillId <= b.fillId
  }

  lemma {:induction false} FillsAtFrom(d: Dict<Id, LedgerOrder>, fs: seq<Fill>, i: Id, k: nat)
    requires k < |FillsAt(d, fs, i)|
    ensures exists j :: 0 <= j < |fs| && fs[j] == FillsAt(d, fs, i)[k] && FillAt(d, fs[j], i)
    decreases |fs|
  {
    var n := |fs| - 1;
    var mine := FillsAt(d, fs[..n], i);
    if k < |mine| {
      FillsAtFrom(d, fs[..n], i, k);
      var j :| 0 <= j < n && fs[..n][j] == mine[k] && FillAt(d, fs[..n][j], i);
      assert fs[j] == FillsAt(d, fs, i)[k];
    } else {
      assert fs[n] == FillsAt(d, fs, i)[k];
    }
  }

  lemma {:induction false} FillsAtSorted(d: Dict<Id, LedgerOrder>, fs: seq<Fill>, i: Id)
    requires InOrderAt(d, fs, i)
    ensures Sorted(IdLe, FillsAt(d, fs, i))
    decreases |fs|
  {
    if fs != [] {
      var n := |fs| - 1;
      var mine, all := FillsAt(d, fs[..n], i), FillsAt(d, fs, i);
      FillsAtSorted(d, fs[..n], i);
      forall j, k | 0 <= j < k < |all| ensures IdLe(all[j], all[k]) {
        if k == |mine| {
          FillsAtFrom(d, fs[..n], i, j);
          var l :| 0 <= l < n && fs[..n][l] == mine[j] && FillAt(d, fs[..n][l], i);
          assert fs[l] == all[j] && all[k] == fs[n];
        }
      }
    }
  }

  lemma {:induction false} SameFillsAt(d: Dict<Id, LedgerOrder>, fills: seq<Fill>, fs: seq<Fill>, i: Id)
    requires (forall k :: 0 <= k < |fills| ==> fills[k].fillId == k) && multiset(fs) == multiset(fills) && InOrderAt(d, fs, i)
    ensures FillsAt(d, fs, i) == FillsAt(d, fills, i)
  {
    var a, b := FillsAt(d, fills, i), FillsAt(d, fs, i);
    FillsAtSorted(d, fills, i);
    FillsAtSorted(d, fs, i);
    forall f ensures multiset(a)[f] == multiset(b)[f] {
      FillsAtCount(d, fills, i, f);
      FillsAtCount(d, fs, i, f);
    }
    forall x, y | x in a && y in a && IdLe(x, y) && IdLe(y, x) ensures x == y {
      var j :| 0 <= j < |a| && a[j] == x;
      var k :| 0 <= k < |a| && a[k] == y;
      FillsAtFrom(d, fills, i, j);
      FillsAtFrom(d, fills, i, k);
    }
    SortedIsUnique(IdLe, a, b);
  }

  lemma {:induction false} SameFill(fills: seq<Fill>, fs: seq<Fill>, k: nat)
    requires multiset(fs) == multiset(fills) && k < |fs|
    ensures exists j :: 0 <= j < |fills| && fills[j] == fs[k]
  {
    assert fs[k] in multiset(fs);
    assert fs[k] in fills;
  }

  /** The ledger's fills, each instrument's in the ledger's order: the same outcomes. */
  lemma {:induction false} ReorderedFills(s: Ledger, fs: seq<Fill>, now: Instant)
    requires FillsOk(s.orders, s.fills, now) && BookOf(s).Ok? && multiset(fs) == multiset(s.fills)
    requires forall i: Id :: InOrderAt(s.orders, fs, i)
    ensures var r := Fold(TradeStep, NoCycles, LedgerTrades(s.orders, fs));
      r.Ok? && forall i: Id :: OutcomesAt(r.value.done, i) == OutcomesAt(BookOf(s).value.done, i)
  {
    var a, b := LedgerTrades(s.orders, s.fills), LedgerTrades(s.orders, fs);
    forall k | 0 <= k < |s.fills| ensures s.fills[k].fillId == k { assert FillOk(s.orders, k, s.fills[k], now); }
    forall i: Id ensures TradesAt(b, i) == TradesAt(a, i) {
      TradesOfFillsAt(s.orders, s.fills, i);
      TradesOfFillsAt(s.orders, fs, i);
      SameFillsAt(s.orders, s.fills, fs, i);
    }
    forall k | 0 <= k < |b| ensures b[k].terms.Some? {
      SameFill(s.fills, fs, k);
      var j :| 0 <= j < |s.fills| && s.fills[j] == fs[k];
      assert FillOk(s.orders, j, s.fills[j], now);
    }
    Interleaved(a, b);
  }
}
