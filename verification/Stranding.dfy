/** When a rejection or cancellation frees money on an entry that was merged away, where nobody can
    use it; and a run in which it does. */
module Stranding {
  import opened Money
  import opened Tables
  import opened EntryLedger
  import opened Deployment
  import W = Wallets
  import E = Entries
  import O = Operations
  import opened Conservation
  import R = Revival

  /** The call closes an operation of the company that reserved money in the currency, on an entry that
      has been merged into another one since. */
  predicate Strands(l: Ledger, ev: Event, company: Company, c: Currency) {
    && Closes(l, ev)
    && var op := l.desk.ops[ev.op];
       && op.company == company && op.currency == c && op.split.allocation > 0
       && op.entry.value < |l.funds.entries| && l.funds.entries[op.entry.value].mergedInto.Some?
  }

  /** What a closed operation frees is what it reserved. */
  lemma FreedIsReserved(f: Funds, ops: seq<Op>, o: Id, company: Company, c: Currency)
    requires (forall i :: 0 <= i < |f.allocations| ==> AllocationSound(f, ops, f.allocations[i]))
    requires o < |ops| && DrawSound(f, ops, o) && ops[o].entry.Some? && ops[o].status.Pending?
    ensures Freed(f, o, company, c)
         == if ops[o].company == company && ops[o].currency == c && ops[o].split.allocation > 0
            then ops[o].split.allocation else 0
  {
    var found := E.FindTarget(f.allocations, o);
    assert found.Some? ==> AllocationSound(f, ops, f.allocations[found.value]);
  }

  /** A call strands money of a company and currency exactly under that condition, and then all that
      the operation had reserved. */
  lemma StrandsIff(l: Ledger, ev: Event, company: Company, c: Currency)
    requires Sound(l)
    ensures StrandedBy(l, ev, company, c)
         == if Strands(l, ev, company, c) then l.desk.ops[ev.op].split.allocation else 0
    ensures StrandedBy(l, ev, company, c) == 0 <==> !Strands(l, ev, company, c)
  {
    if Closes(l, ev) {
      assert DrawSound(l.funds, l.desk.ops, ev.op);
      FreedIsReserved(l.funds, l.desk.ops, ev.op, company, c);
    }
  }

  /** The k-th call of the run strands money. */
  predicate StrandsAt(events: seq<Event>, k: nat, company: Company, c: Currency)
    requires k < |events|
  {
    Strands(Exec(events[..k]), events[k], company, c)
  }

  /** The last call of a run adds to the stranded bucket exactly if it strands money. */
  lemma StrandedGrows(events: seq<Event>, company: Company, c: Currency)
    requires events != []
    ensures var n := |events| - 1;
      && Stranded(events, company, c) >= Stranded(events[..n], company, c)
      && (Stranded(events, company, c) == Stranded(events[..n], company, c) <==> !StrandsAt(events, n, company, c))
  {
    hide Sound, Step, Exec, Strands, StrandedBy;
    var n := |events| - 1;
    ReachableIsSound(events[..n]);
    BucketsNonNegative(Exec(events[..n]), events[n], company, c);
    StrandsIff(Exec(events[..n]), events[n], company, c);
  }

  /** Nothing was ever stranded exactly when no call of the run closed an operation with a reservation
      on an entry merged away. */
  lemma {:induction false} NothingStrandedIff(events: seq<Event>, company: Company, c: Currency)
    ensures Stranded(events, company, c) >= 0
    ensures Stranded(events, company, c) == 0 <==> forall k :: 0 <= k < |events| ==> !StrandsAt(events, k, company, c)
  {
    hide Sound, Step, Exec, Strands, StrandedBy;
    if events != [] {
      var n := |events| - 1;
      NothingStrandedIff(events[..n], company, c);
      StrandedGrows(events, company, c);
      forall k | 0 <= k < n ensures StrandsAt(events[..n], k, company, c) <==> StrandsAt(events, k, company, c) {
        assert events[..n][..k] == events[..k];
      }
    }
  }

  /** The wallets hold exactly what live entries and reservations say when no call conjured money up and
      none stranded any. */
  lemma BooksAreExactWhen(events: seq<Event>, company: Company, c: Currency)
    requires forall k :: 0 <= k < |events| ==> Honest(events, k, company, c) && !StrandsAt(events, k, company, c)
    ensures var l := Exec(events);
      Flow(l.till.moves, l.till.wallets, company, c) == Live(l.funds, company, c) + Reserve(l.funds, company, c)
  {
    hide Exec, Honest, StrandsAt;
    BooksBalanceIff(events, company, c);
    NothingStrandedIff(events, company, c);
  }

  // ---- a run that strands money ------------------------------------------------------------

  /** 5.00 of an entry of 10.00 XOF are reserved for a payment; the entry is merged with another one of
      20.00; then the payment is rejected. */
  const PAYMENT := O.PaymentRequest(0, Some(0), None, 5.0, XOF, R.NAME, R.PHONE, KeepUnallocated)

  const RUN: seq<Event> := [
    CreateWallet(1, "w", XOF, 0.0),
    CreateEntry(1, R.NAME, R.PHONE, [E.LineRequest(0, 10.0, XOF)]),
    CreateEntry(1, R.NAME, R.PHONE, [E.LineRequest(0, 20.0, XOF)]),
    RequestCollaboration(1, Some(2), XOF, 1.0),
    AcceptCollaboration(2, 0),
    CreatePayment(1, PAYMENT),
    MergeEntries(1, [0, 1]),
    CloseOperation(Payment, 2, 0, O.Counterparty)]

  const MOVE1 := WalletMove(0, In, 1000, XOF, 0, 1000, EntryReceipt(0))
  const MOVE2 := WalletMove(0, In, 2000, XOF, 1000, 3000, EntryReceipt(1))

  function Held(cents: int, status: EntryStatus, mergedInto: Option<Id>): Entry {
    Entry(1, R.NAME, R.PHONE, status, mergedInto, [Line(0, XOF, cents)])
  }

  const PENDING := Op(
    Payment, 1, 0, Some(0), None, None, 500, XOF, XOF, 500, false, Split(500, 0, 0), KeepUnallocated, Pending)
  const RESERVED := Allocation(0, 0, XOF, 500)

  const L1 := EMPTY.(till := R.Drawer(0, []))
  const L2 := L1.(till := R.Drawer(1000, [MOVE1]), funds := Funds([Held(1000, Unallocated, None)], []))
  const L3 := L2.(till := R.Drawer(3000, [MOVE1, MOVE2]),
                  funds := Funds([Held(1000, Unallocated, None), Held(2000, Unallocated, None)], []))
  const L4 := L3.(pacts := R.ASKED)
  const L5 := L4.(pacts := R.AGREED)
  const L6 := L5.(
    desk := Desk([PENDING], [StatusRow(0, None, Pending, 1)], []),
    funds := Funds([Held(1000, PartiallyAllocated, None), Held(2000, Unallocated, None)], [RESERVED]))
  const MERGED := Funds(
    [Held(1000, PartiallyAllocated, Some(2)), Held(2000, Unallocated, Some(2)), Held(2500, Unallocated, None)],
    [RESERVED])
  const L7 := L6.(funds := MERGED)

  lemma Call0()
    ensures Step(EMPTY, RUN[0]) == L1
  {
  }

  lemma Call1()
    ensures Step(L1, RUN[1]) == L2
  {
    var lines := [E.LineRequest(0, 10.0, XOF)];
    assert E.WalletIds(lines) == [0];
    assert E.ReceiptOrders(lines) == [W.Order(0, In, 10.0)];
    assert E.StoredLines(lines) == [Line(0, XOF, 1000)];
    assert [] + [MOVE1] == [MOVE1];
    assert L1.till.wallets[0 := L2.till.wallets[0]] == L2.till.wallets;
    assert W.Moved(L1.till, W.Order(0, In, 10.0), EntryReceipt(0)) == Ok(L2.till);
  }

  lemma Call2()
    ensures Step(L2, RUN[2]) == L3
  {
    var lines := [E.LineRequest(0, 20.0, XOF)];
    assert E.WalletIds(lines) == [0];
    assert E.ReceiptOrders(lines) == [W.Order(0, In, 20.0)];
    assert E.StoredLines(lines) == [Line(0, XOF, 2000)];
    assert [MOVE1] + [MOVE2] == [MOVE1, MOVE2];
    assert L2.funds.entries + [L3.funds.entries[1]] == L3.funds.entries;
    assert L2.till.wallets[0 := L3.till.wallets[0]] == L3.till.wallets;
    assert W.Moved(L2.till, W.Order(0, In, 20.0), EntryReceipt(1)) == Ok(L3.till);
    assert [W.Order(0, In, 20.0)][1..] == [];
    assert W.MovedAll(L2.till, E.ReceiptOrders(lines), EntryReceipt(1)) == Ok(L3.till);
    assert E.Refusal(L2.till, 1, lines).None?;
    assert E.EntryCreated(L2, 1, R.NAME, R.PHONE, lines) == Ok(L3);
  }

  lemma Call3()
    ensures Step(L3, RUN[3]) == L4
  {
    assert StoredRate(1.0) == 1.0;
  }

  lemma Call4()
    ensures Step(L4, RUN[4]) == L5
  {
  }

  lemma Call5()
    ensures Step(L5, RUN[5]) == L6
  {
    var lines := L5.funds.entries[0].lines;
    assert E.AllocationsOf(L5.funds.allocations, 0) == [] && E.AllocationsOf([], 0) + [RESERVED] == [RESERVED];
    assert E.CurrenciesOf(lines, []) == {XOF};
    assert E.SumLines(lines, XOF) == 1000;
    assert O.DrawnEntry(L5.funds, 1, Some(0), XOF) == Ok(Some(O.EntryView(R.NAME, R.PHONE, 1000)));
    assert Decimal(1000) == 10.0;
    assert O.SplitOf(5.0, KeepUnallocated, R.NAME, R.PHONE, Some(O.EntryView(R.NAME, R.PHONE, 1000)))
        == Ok(Split(500, 0, 0));
    assert O.Converted(5.0, XOF, XOF, 1.0) == 500;
    Reserving();
    assert L5.funds.entries[0 := L6.funds.entries[0]] == L6.funds.entries;
  }

  lemma Reserving()
    ensures var lines := [Line(0, XOF, 1000)];
      && E.RecomputeStatus(lines, [RESERVED]) == PartiallyAllocated
      && E.Totals(lines, [RESERVED]) == map[XOF := 500]
  {
    var lines := [Line(0, XOF, 1000)];
    assert E.CurrenciesOf(lines, [RESERVED]) == {XOF};
    assert [RESERVED][1..] == [] && lines[1..] == [];
    assert E.SumLines(lines, XOF) == 1000 && E.SumAllocated([RESERVED], XOF) == 500;
    assert E.Totals(lines, [RESERVED])[XOF] == 500;
  }

  /** A line of which `left` is available carries just that. */
  lemma LineCarried(cents: int, left: int)
    requires 0 < left <= cents
    ensures E.Carry([Line(0, XOF, cents)], map[XOF := left]) == [Line(0, XOF, left)]
  {
    assert [Line(0, XOF, cents)][1..] == [];
    assert [Line(0, XOF, left)] + [] == [Line(0, XOF, left)];
  }

  lemma Carrying()
    ensures E.CarriedFrom(L6.funds, 0) == [Line(0, XOF, 500)]
    ensures E.CarriedFrom(L6.funds, 1) == [Line(0, XOF, 2000)]
  {
    var first, second := L6.funds.entries[0].lines, L6.funds.entries[1].lines;
    Reserving();
    assert E.AllocationsOf([RESERVED], 0) == [RESERVED] && E.AllocationsOf([RESERVED], 1) == [];
    LineCarried(1000, 500);
    assert E.CurrenciesOf(second, []) == {XOF} && E.SumLines(second, XOF) == 2000;
    assert E.Totals(second, []) == map[XOF := 2000];
    LineCarried(2000, 2000);
  }

  lemma Gathering()
    ensures E.AggregatedAll([], E.CarriedAll(L6.funds, [0, 1])) == [Line(0, XOF, 2500)]
  {
    Carrying();
    hide E.CarriedFrom;
    var a, b := Line(0, XOF, 500), Line(0, XOF, 2000);
    assert [0, 1][1..] == [1] && [1][1..] == [];
    assert E.CarriedAll(L6.funds, [1]) == [b] + [];
    assert E.CarriedAll(L6.funds, [0, 1]) == [a] + [b];
    assert [a, b][1..] == [b] && [b][1..] == [];
    assert E.Aggregated([a], b) == [Line(0, XOF, 2500)] + [];
    assert E.AggregatedAll([a], [b]) == E.AggregatedAll([Line(0, XOF, 2500)], []);
  }

  lemma Accepting()
    ensures E.MergeRefusal(L6.funds, 1, [0, 1], None).None?
  {
    var key := E.ClientKey(L6.funds.entries[0]);
    assert key == E.ClientKey(L6.funds.entries[1]) && key.Some?;
    hide E.ClientKey;
    assert [0, 1][1..] == [1] && [1][1..] == [];
    assert E.MergeRefusal(L6.funds, 1, [1], key).None?;
  }

  lemma Marking()
    ensures E.MarkMerged(L6.funds.entries, [0, 1], 2) + [Held(2500, Unallocated, None)] == MERGED.entries
  {
    var entries := L6.funds.entries;
    var once := entries[0 := entries[0].(mergedInto := Some(2))];
    assert [0, 1][1..] == [1] && [1][1..] == [];
    assert E.MarkMerged(once, [1], 2) == once[1 := once[1].(mergedInto := Some(2))];
  }

  lemma Call6()
    ensures Step(L6, RUN[6]) == L7
  {
    Gathering();
    Accepting();
    Marking();
    hide E.CarriedAll, E.AggregatedAll, E.MarkMerged, E.MergeRefusal;
    assert E.EntriesMerged(L6, 1, [0, 1]) == Ok(L7);
  }

  lemma RunBeforeRejection()
    ensures Exec(RUN[..7]) == L7
  {
    hide Step, Exec;
    R.NothingDone();
    assert RUN[..0] == [];
    R.ExecNext(RUN, 0);
    Call0();
    R.ExecNext(RUN, 1);
    Call1();
    R.ExecNext(RUN, 2);
    Call2();
    R.ExecNext(RUN, 3);
    Call3();
    R.ExecNext(RUN, 4);
    Call4();
    R.ExecNext(RUN, 5);
    Call5();
    R.ExecNext(RUN, 6);
    Call6();
  }

  lemma RejectionStrands()
    ensures Strands(L7, RUN[7], 1, XOF)
  {
  }

  /** Money is stranded: the wallet holds it, and no live entry offers it any more. */
  lemma RejectionAfterMergeStrands()
    ensures Stranded(RUN, 1, XOF) > 0
  {
    hide Step, Exec, Strands, Stranded;
    RunBeforeRejection();
    RejectionStrands();
    NothingStrandedIff(RUN, 1, XOF);
    assert StrandsAt(RUN, 7, 1, XOF);
  }
}
