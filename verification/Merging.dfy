/** Merging entries re-homes exactly the money that was still spendable. */
module Merging {
  import opened Tables
  import opened Wallets
  import opened Entries
  import opened EntryLedger

  function SumAvailable(f: Funds, ids: seq<Id>, c: Currency): int
    requires AllKnown(f, ids)
  {
    if ids == [] then 0 else Available(f, ids[0], c) + SumAvailable(f, ids[1..], c)
  }

  ghost predicate FundsSound(wallets: seq<Wallet>, f: Funds) {
    && (forall e :: 0 <= e < |f.entries| ==> EntrySound(wallets, f, e))
    && (forall i :: 0 <= i < |f.allocations| ==> f.allocations[i].amount > 0)
  }

  lemma FundsOf(wallets: seq<Wallet>, f: Funds, ops: seq<Op>)
    requires EntriesSound(wallets, f, ops)
    ensures FundsSound(wallets, f)
  {
    forall i | 0 <= i < |f.allocations| ensures f.allocations[i].amount > 0 {
      assert AllocationSound(f, ops, f.allocations[i]);
    }
  }

  lemma {:induction false} AllocatedNonNegative(allocations: seq<Allocation>, e: Id, c: Currency)
    requires forall i :: 0 <= i < |allocations| ==> allocations[i].amount > 0
    ensures SumAllocated(AllocationsOf(allocations, e), c) >= 0
  {
    if allocations != [] {
      AllocatedNonNegative(allocations[1..], e, c);
      var rest := AllocationsOf(allocations[1..], e);
      assert ([allocations[0]] + rest)[1..] == rest;
      assert [] + rest == rest;
    }
  }

  /** A source carries, in every currency, exactly what it has available. */
  lemma CarriedIsAvailable(wallets: seq<Wallet>, f: Funds, e: Id, c: Currency)
    requires FundsSound(wallets, f) && e < |f.entries|
    ensures SumLines(CarriedFrom(f, e), c) == Available(f, e, c)
  {
    var lines := f.entries[e].lines;
    var totals := Totals(lines, AllocationsOf(f.allocations, e));
    assert EntrySound(wallets, f, e);
    forall d ensures Get(totals, d) == Available(f, e, d) >= 0 {
      AvailableIsTotal(f, e, d);
    }
    forall i | 0 <= i < |lines| ensures lines[i].amount >= 0 {
      assert LineSound(wallets, f.entries[e].company, lines[i]);
    }
    AllocatedNonNegative(f.allocations, e, c);
    CarryTotal(lines, totals, c);
  }

  lemma CarriedSound(wallets: seq<Wallet>, f: Funds, e: Id)
    requires FundsSound(wallets, f) && e < |f.entries|
    ensures LinesSound(wallets, f.entries[e].company, CarriedFrom(f, e))
  {
    var lines, carried := f.entries[e].lines, CarriedFrom(f, e);
    var origin := CarriedLinesShrink(lines, Totals(lines, AllocationsOf(f.allocations, e)));
    forall k | 0 <= k < |carried| ensures LineSound(wallets, f.entries[e].company, carried[k]) {
      assert EntrySound(wallets, f, e) && LineSound(wallets, f.entries[e].company, lines[origin[k]]);
    }
  }

  lemma {:induction false} CarriedAllSound(wallets: seq<Wallet>, f: Funds, company: Company, ids: seq<Id>, c: Currency)
    requires FundsSound(wallets, f) && AllKnown(f, ids)
    requires forall i :: 0 <= i < |ids| ==> f.entries[ids[i]].company == company
    ensures LinesSound(wallets, company, CarriedAll(f, ids))
    ensures SumLines(CarriedAll(f, ids), c) == SumAvailable(f, ids, c)
  {
    if ids != [] {
      CarriedSound(wallets, f, ids[0]);
      CarriedIsAvailable(wallets, f, ids[0], c);
      CarriedAllSound(wallets, f, company, ids[1..], c);
      SumLinesConcat(CarriedFrom(f, ids[0]), CarriedAll(f, ids[1..]), c);
    }
  }

  lemma {:induction false} AggregatedSound(wallets: seq<Wallet>, company: Company, rows: seq<Line>, line: Line)
    requires LinesSound(wallets, company, rows) && LineSound(wallets, company, line)
    ensures LinesSound(wallets, company, Aggregated(rows, line))
  {
    if rows == [] {
    } else if rows[0].wallet == line.wallet && rows[0].currency == line.currency {
    } else {
      assert LinesSound(wallets, company, rows[1..]);
      AggregatedSound(wallets, company, rows[1..], line);
    }
  }

  lemma {:induction false} AggregatedAllSound(wallets: seq<Wallet>, company: Company, rows: seq<Line>, lines: seq<Line>)
    requires LinesSound(wallets, company, rows) && LinesSound(wallets, company, lines)
    ensures LinesSound(wallets, company, AggregatedAll(rows, lines))
    decreases |lines|
  {
    if lines != [] {
      AggregatedSound(wallets, company, rows, lines[0]);
      AggregatedAllSound(wallets, company, Aggregated(rows, lines[0]), lines[1..]);
    }
  }

  /** Exactly the sources are marked. */
  lemma {:induction false} MarkedEntries(entries: seq<Entry>, ids: seq<Id>, target: Id)
    requires forall i :: 0 <= i < |ids| ==> ids[i] < |entries|
    ensures forall e :: 0 <= e < |entries| ==>
      MarkMerged(entries, ids, target)[e] == if e in ids then entries[e].(mergedInto := Some(target)) else entries[e]
    decreases |ids|
  {
    if ids != [] {
      var first := entries[ids[0] := entries[ids[0]].(mergedInto := Some(target))];
      MarkedEntries(first, ids[1..], target);
      assert forall e :: e in ids <==> e == ids[0] || e in ids[1..];
    }
  }

  /** Merge preserves spendable money: in every currency the new entry has available exactly what
      the sources had together; each wallet's contribution is kept by the aggregation, one row per
      wallet and currency; no wallet moves; the sources are marked and nothing else changes. */
  lemma MergePreservesSpendable(l: Ledger, company: Company, ids: seq<Id>)
    requires EntriesSound(l.till.wallets, l.funds, l.desk.ops) && EntriesMerged(l, company, ids).Ok?
    ensures var m, n := EntriesMerged(l, company, ids).value, |l.funds.entries|;
      && m == l.(funds := m.funds) && m.funds.allocations == l.funds.allocations
      && |m.funds.entries| == n + 1
      && (forall c :: Available(m.funds, n, c) == SumAvailable(l.funds, ids, c))
      && DistinctKeys(m.funds.entries[n].lines)
      && (forall w, c :: SumFrom(m.funds.entries[n].lines, w, c) == SumFrom(CarriedAll(l.funds, ids), w, c))
      && (forall e :: 0 <= e < n ==>
            m.funds.entries[e] == if e in ids then l.funds.entries[e].(mergedInto := Some(n)) else l.funds.entries[e])
      && LinesSound(l.till.wallets, company, m.funds.entries[n].lines)
  {
    var m, n := EntriesMerged(l, company, ids).value, |l.funds.entries|;
    var lines := m.funds.entries[n].lines;
    FundsOf(l.till.wallets, l.funds, l.desk.ops);
    forall i | 0 <= i < |l.funds.allocations| ensures l.funds.allocations[i].entry != n {
      assert AllocationSound(l.funds, l.desk.ops, l.funds.allocations[i]);
    }
    AllocationsOfNone(l.funds.allocations, n);
    forall c ensures Available(m.funds, n, c) == SumAvailable(l.funds, ids, c) {
      CarriedAllSound(l.till.wallets, l.funds, company, ids, c);
      AggregatedAllKeepsTotals([], CarriedAll(l.funds, ids), 0, c);
    }
    forall w, c ensures SumFrom(lines, w, c) == SumFrom(CarriedAll(l.funds, ids), w, c) {
      AggregatedAllKeepsTotals([], CarriedAll(l.funds, ids), w, c);
    }
    AggregatedAllKeys([], CarriedAll(l.funds, ids));
    CarriedAllSound(l.till.wallets, l.funds, company, ids, XOF);
    AggregatedAllSound(l.till.wallets, company, [], CarriedAll(l.funds, ids));
    MarkedEntries(l.funds.entries, ids, n);
  }

  /** A source carries its lines from the first on, each at most at its original amount and from its original
      wallet, until what it has available in the line's currency is used up. */
  lemma CarriedAtMostOriginal(f: Funds, e: Id) returns (origin: seq<nat>)
    requires e < |f.entries|
    ensures Greedy(f.entries[e].lines, CarriedFrom(f, e), origin)
  {
    origin := CarriedLinesShrink(f.entries[e].lines, Totals(f.entries[e].lines, AllocationsOf(f.allocations, e)));
  }

  lemma MergeKeeps(l: Ledger, company: Company, ids: seq<Id>)
    requires EntriesSound(l.till.wallets, l.funds, l.desk.ops) && EntriesMerged(l, company, ids).Ok?
    ensures var m := EntriesMerged(l, company, ids).value; EntriesSound(m.till.wallets, m.funds, m.desk.ops)
  {
    var m, n := EntriesMerged(l, company, ids).value, |l.funds.entries|;
    MergePreservesSpendable(l, company, ids);
    var marked := m.funds.entries[..n];
    forall e | 0 <= e < n
      ensures marked[e] == l.funds.entries[e].(mergedInto := marked[e].mergedInto)
      ensures marked[e].mergedInto == l.funds.entries[e].mergedInto
        || (marked[e].mergedInto == Some(n) && !l.funds.entries[e].status.EntryCancelled?)
    {
      if e in ids {
        var i :| 0 <= i < |ids| && ids[i] == e;
        assert Mergeable(l.funds.entries[ids[i]].status);
      }
    }
    EntryAddedKeeps(l.till.wallets, l.funds, l.desk.ops, marked, m.funds.entries[n]);
    assert m.funds == l.funds.(entries := marked + [m.funds.entries[n]]);
  }
}
