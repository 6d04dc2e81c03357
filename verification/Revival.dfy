/** A run after which the books do not balance: a cancelled entry is brought back by rejecting a
    payment that named it without reserving anything on it. */
module Revival {
  import opened Money
  import opened Tables
  import opened Deployment
  import W = Wallets
  import E = Entries
  import O = Operations
  import opened Conservation

  const NAME: Option<string> := Some("Awa")
  const PHONE: Option<string> := Some("77")

  /** An entry of 10.00 XOF is named by a payment of 5.00 GNF, of which it has none. */
  const PAYMENT := O.PaymentRequest(0, Some(0), None, 5.0, GNF, NAME, PHONE, KeepUnallocated)

  const RUN: seq<Event> := [
    CreateWallet(1, "w", XOF, 0.0),
    CreateEntry(1, NAME, PHONE, [E.LineRequest(0, 10.0, XOF)]),
    RequestCollaboration(1, Some(2), XOF, 1.0),
    AcceptCollaboration(2, 0),
    CreatePayment(1, PAYMENT),
    CancelEntry(1, 0),
    CloseOperation(Payment, 2, 0, O.Counterparty)]

  // ---- the ledger after each call ----------------------------------------------------------

  const RECEIPT := WalletMove(0, In, 1000, XOF, 0, 1000, EntryReceipt(0))
  const RETURN := WalletMove(0, Out, 1000, XOF, 1000, 0, EntryCancellation(0))

  function Drawer(balance: int, moves: seq<WalletMove>): Till {
    Till([Wallet(1, "w", XOF, true, balance)], moves)
  }

  function Held(status: EntryStatus): Funds {
    Funds([Entry(1, NAME, PHONE, status, None, [Line(0, XOF, 1000)])], [])
  }

  const ASKED := Pacts([Collab(1, 2, XOF, CollabPending, None)], [RateRow(0, None, 1.0, Proposed, 1, None, None)], 0)
  const AGREED := Pacts(
    [Collab(1, 2, XOF, CollabAccepted, Some(0))], [RateRow(0, None, 1.0, RateAccepted, 1, Some(2), Some(0))], 1)
  const PENDING := Op(
    Payment, 1, 0, Some(0), None, Some(0), 500, GNF, XOF, 500, false, Split(0, 500, 0), KeepUnallocated, Pending)

  const L1 := EMPTY.(till := Drawer(0, []))
  const L2 := L1.(till := Drawer(1000, [RECEIPT]), funds := Held(Unallocated))
  const L3 := L2.(pacts := ASKED)
  const L4 := L3.(pacts := AGREED)
  const L5 := L4.(
    desk := Desk([PENDING], [StatusRow(0, None, Pending, 1)], []),
    debts := Debts([Client(1, "Awa", "77", 500)], [ClientMove(0, 0, false, GNF, 500, 0, 500)]))
  const L6 := L5.(till := Drawer(0, [RECEIPT, RETURN]), funds := Held(EntryCancelled))

  lemma Call0()
    ensures Step(EMPTY, RUN[0]) == L1
  {
  }

  lemma Call1()
    ensures Step(L1, RUN[1]) == L2
  {
    var lines := [E.LineRequest(0, 10.0, XOF)];
    assert E.WalletIds(lines) == [0];
    assert E.ReceiptOrders(lines) == [W.Order(0, In, 10.0)];
    assert E.StoredLines(lines) == [Line(0, XOF, 1000)];
    assert [] + [RECEIPT] == [RECEIPT];
    assert L1.till.wallets[0 := L2.till.wallets[0]] == L2.till.wallets;
    assert W.Moved(L1.till, W.Order(0, In, 10.0), EntryReceipt(0)) == Ok(L2.till);
  }

  lemma Call2()
    ensures Step(L2, RUN[2]) == L3
  {
  }

  lemma Call3()
    ensures Step(L3, RUN[3]) == L4
  {
  }

  lemma Call4()
    ensures Step(L4, RUN[4]) == L5
  {
    var lines := L4.funds.entries[0].lines;
    assert E.AllocationsOf(L4.funds.allocations, 0) == [];
    assert GNF !in E.CurrenciesOf(lines, []);
    assert O.DrawnEntry(L4.funds, 1, Some(0), GNF) == Ok(Some(O.EntryView(NAME, PHONE, 0)));
    assert O.SplitOf(5.0, KeepUnallocated, NAME, PHONE, Some(O.EntryView(NAME, PHONE, 0))) == Ok(Split(0, 500, 0));
    assert O.Converted(5.0, GNF, XOF, 1.0) == 500;
  }

  lemma Call5()
    ensures Step(L5, RUN[5]) == L6
  {
    var lines := L5.funds.entries[0].lines;
    assert E.AllocationsOf(L5.funds.allocations, 0) == [];
    assert E.PayBackOrders(lines) == [W.Order(0, Out, Decimal(1000))];
    assert [RECEIPT] + [RETURN] == [RECEIPT, RETURN];
    assert L5.till.wallets[0 := L6.till.wallets[0]] == L6.till.wallets;
    assert W.Moved(L5.till, W.Order(0, Out, Decimal(1000)), EntryCancellation(0)) == Ok(L6.till);
    assert W.MovedAll(L5.till, E.PayBackOrders(lines), EntryCancellation(0)) == Ok(L6.till);
    assert L5.funds.entries[0 := L6.funds.entries[0]] == L6.funds.entries;
  }

  lemma Call6()
    ensures Step(L6, RUN[6]).till == L6.till && Step(L6, RUN[6]).funds == Held(Unallocated)
  {
    assert E.FindTarget(L6.funds.allocations, 0) == None;
    assert E.Released(L6.funds, 0, 0) == Held(Unallocated);
  }

  lemma ExecNext(events: seq<Event>, n: nat)
    requires n < |events|
    ensures Exec(events[..n + 1]) == Step(Exec(events[..n]), events[n])
  {
    assert events[..n + 1][..n] == events[..n];
  }

  lemma NothingDone()
    ensures Exec([]) == EMPTY
  {
  }

  lemma RunEnds()
    ensures Exec(RUN).till == L6.till && Exec(RUN).funds == Held(Unallocated)
  {
    hide Step, Exec;
    NothingDone();
    assert RUN[..0] == [] && RUN[..7] == RUN;
    ExecNext(RUN, 0);
    Call0();
    ExecNext(RUN, 1);
    Call1();
    ExecNext(RUN, 2);
    Call2();
    ExecNext(RUN, 3);
    Call3();
    ExecNext(RUN, 4);
    Call4();
    ExecNext(RUN, 5);
    Call5();
    ExecNext(RUN, 6);
    Call6();
  }

  /** The wallet was paid back in full, yet the entry has its 10.00 XOF available again. */
  lemma RevivedEntryBreaksTheBooks()
    ensures var l := Exec(RUN);
      && Flow(l.till.moves, l.till.wallets, 1, XOF) == 0
      && Live(l.funds, 1, XOF) == 1000
      && Reserve(l.funds, 1, XOF) == 0
  {
    RunEnds();
    var wallets := L6.till.wallets;
    assert [RECEIPT][..0] == [] && Flow([RECEIPT], wallets, 1, XOF) == 1000;
    assert [RECEIPT, RETURN][..1] == [RECEIPT] && Flow([RECEIPT, RETURN], wallets, 1, XOF) == 0;
    var f := Held(Unallocated);
    assert E.AllocationsOf(f.allocations, 0) == [];
    assert LiveValues(f, 1, XOF) == [1000] && [1000][..0] == [];
  }
}
