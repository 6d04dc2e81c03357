/** What national operations and their reversals do to wallets, and when a reversal goes through. */
module NationalWallets {
  import opened Money
  import opened Sums
  import opened Tables
  import opened Wallets
  import opened Nationals
  import Entries

  // ---- the movements are the lines ---------------------------------------------------------

  predicate Directed(line: LineRequest) {
    line.amountIn >= 0.0 && line.amountOut >= 0.0 && (line.amountIn == 0.0 || line.amountOut == 0.0)
  }

  /** The orders made for lines move wallets by what the stored lines say. */
  lemma {:induction false} OrdersEffect(lines: seq<LineRequest>, moves: seq<WalletMove>, w: Id)
    requires |moves| == |lines| && forall i :: 0 <= i < |lines| ==> Directed(lines[i])
    ensures Effect(OrdersOf(lines), w) == LineEffect(RowsOf(lines, moves), w)
  {
    if lines != [] {
      assert Directed(lines[0]);
      OrdersEffect(lines[1..], moves[1..], w);
      assert OrdersOf(lines)[1..] == OrdersOf(lines[1..]);
      assert RowsOf(lines, moves)[1..] == RowsOf(lines[1..], moves[1..]);
    }
  }

  lemma {:induction false} RowsStored(lines: seq<LineRequest>, moves: seq<WalletMove>)
    requires |moves| == |lines| && forall i :: 0 <= i < |lines| ==> Directed(lines[i])
    ensures forall i :: 0 <= i < |lines| ==> StoredLine(RowsOf(lines, moves)[i])
  {
    forall i | 0 <= i < |lines| ensures StoredLine(RowsOf(lines, moves)[i]) {
      assert Directed(lines[i]);
    }
  }

  predicate AllStored(lines: seq<NationalLine>) {
    forall i :: 0 <= i < |lines| ==> StoredLine(lines[i])
  }

  lemma MirroredDirected(lines: seq<NationalLine>)
    requires AllStored(lines)
    ensures forall i :: 0 <= i < |lines| ==> Directed(MirroredAll(lines)[i])
  {
    forall i | 0 <= i < |lines| ensures Directed(MirroredAll(lines)[i]) {
      assert StoredLine(lines[i]);
    }
  }

  /** Creating an operation changes every wallet by exactly what its stored lines say. */
  lemma CreationMovesWallets(l: Ledger, company: Company, q: Request, w: Id)
    requires OperationCreated(l, company, q).Ok? && w < |l.till.wallets|
    ensures var m := OperationCreated(l, company, q).value;
      && |m.till.wallets| == |l.till.wallets| && |m.nationals| == |l.nationals| + 1
      && m.till.wallets[w].balance == l.till.wallets[w].balance + LineEffect(m.nationals[|l.nationals|].lines, w)
  {
    var till := MovedAll(l.till, OrdersOf(q.lines), NationalOperation(|l.nationals|)).value;
    MovedAllEffect(l.till, OrdersOf(q.lines), NationalOperation(|l.nationals|));
    forall i | 0 <= i < |q.lines| ensures Directed(q.lines[i]) {
      assert SingleDirection(q.lines[i]);
    }
    OrdersEffect(q.lines, till.moves[|l.till.moves|..], w);
  }

  /** A reversal takes back, wallet by wallet, what the lines of the original say. */
  lemma ReversalUndoesWallets(l: Ledger, company: Company, n: Id, w: Id)
    requires OperationReversed(l, company, n).Ok? && w < |l.till.wallets| && AllStored(l.nationals[n].lines)
    ensures var m := OperationReversed(l, company, n).value;
      && |m.till.wallets| == |l.till.wallets| && |m.nationals| == |l.nationals| + 1
      && m.till.wallets[w].balance == l.till.wallets[w].balance - LineEffect(l.nationals[n].lines, w)
      && LineEffect(m.nationals[|l.nationals|].lines, w) == -LineEffect(l.nationals[n].lines, w)
  {
    var lines := l.nationals[n].lines;
    var orders := OrdersOf(MirroredAll(lines));
    var till := MovedAll(l.till, orders, NationalOperation(|l.nationals|)).value;
    var moves := till.moves[|l.till.moves|..];
    MovedAllEffect(l.till, orders, NationalOperation(|l.nationals|));
    MirroredDirected(lines);
    OrdersEffect(MirroredAll(lines), moves, w);
    ReversalRowsMirror(lines, moves);
    MirrorNegates(lines, RowsOf(MirroredAll(lines), moves), w);
  }

  // ---- when a reversal goes through --------------------------------------------------------

  /** What `apply_movement` asks of the one line and its wallet. */
  predicate Returnable(wallets: seq<Wallet>, line: NationalLine) {
    && line.wallet < |wallets|
    && wallets[line.wallet].active
    && (line.amountIn >= 1 || line.amountOut >= 1)
    && (line.amountIn >= 1 ==> wallets[line.wallet].balance >= line.amountIn)
  }

  predicate ApartLines(lines: seq<NationalLine>) {
    forall i, j :: 0 <= i < j < |lines| ==> lines[i].wallet != lines[j].wallet
  }

  predicate Movable(t: Till, o: Order) {
    && o.wallet < |t.wallets| && o.amount > 0.0 && t.wallets[o.wallet].active
    && (o.direction.Out? ==> t.wallets[o.wallet].balance >= Round(o.amount))
  }

  predicate ApartOrders(orders: seq<Order>) {
    forall i, j :: 0 <= i < j < |orders| ==> orders[i].wallet != orders[j].wallet
  }

  /** Orders on different wallets do not disturb each other. */
  lemma {:induction false} ApartOrdersGoThrough(t: Till, orders: seq<Order>, source: Source)
    requires ApartOrders(orders)
    ensures MovedAll(t, orders, source).Ok? <==> forall i :: 0 <= i < |orders| ==> Movable(t, orders[i])
    decreases |orders|
  {
    if orders != [] {
      assert Moved(t, orders[0], source).Ok? <==> Movable(t, orders[0]);
      if Movable(t, orders[0]) {
        var first := Moved(t, orders[0], source).value;
        ApartOrdersGoThrough(first, orders[1..], source);
        forall i | 0 < i < |orders| ensures Movable(t, orders[i]) <==> Movable(first, orders[1..][i - 1]) {
          assert orders[1..][i - 1] == orders[i];
        }
        forall i | 0 <= i < |orders[1..]| ensures Movable(first, orders[1..][i]) <==> Movable(t, orders[i + 1]) {
          assert orders[1..][i] == orders[i + 1];
        }
      }
    }
  }

  lemma ReturnableIsMovable(t: Till, line: NationalLine)
    requires StoredLine(line)
    ensures Movable(t, OrderOf(Mirrored(line))) <==> Returnable(t.wallets, line)
  {
    RoundWholeCents(line.amountIn);
    RoundWholeCents(line.amountOut);
  }

  /** A reversal succeeds exactly when the operation is the company's own and VALIDATED, and each of
      its lines is at least one cent, on an active wallet that still holds what the line brought in.
      A line that was rounded down to nothing can never be reversed. */
  lemma ReversalSucceedsIff(l: Ledger, company: Company, n: Id)
    requires n < |l.nationals| && AllStored(l.nationals[n].lines) && ApartLines(l.nationals[n].lines)
    ensures OperationReversed(l, company, n).Ok? <==>
      && l.nationals[n].company == company && l.nationals[n].validated
      && forall i :: 0 <= i < |l.nationals[n].lines| ==> Returnable(l.till.wallets, l.nationals[n].lines[i])
  {
    var lines := l.nationals[n].lines;
    var orders := OrdersOf(MirroredAll(lines));
    ApartOrdersGoThrough(l.till, orders, NationalOperation(|l.nationals|));
    forall i | 0 <= i < |lines| ensures Movable(l.till, orders[i]) <==> Returnable(l.till.wallets, lines[i]) {
      assert StoredLine(lines[i]);
      ReturnableIsMovable(l.till, lines[i]);
    }
    if OperationReversed(l, company, n).Ok? {
      forall i | 0 <= i < |lines| ensures Returnable(l.till.wallets, lines[i]) {
        assert Movable(l.till, orders[i]);
      }
    } else if l.nationals[n].company == company && l.nationals[n].validated
              && forall i :: 0 <= i < |lines| ==> Returnable(l.till.wallets, lines[i]) {
      forall i | 0 <= i < |lines| ensures lines[i].wallet < |l.till.wallets| {
        assert Returnable(l.till.wallets, lines[i]);
      }
      assert false;
    }
  }

  lemma {:induction false} EffectOfOne(lines: seq<NationalLine>, i: nat)
    requires i < |lines| && ApartLines(lines)
    ensures LineEffect(lines, lines[i].wallet) == lines[i].amountIn - lines[i].amountOut
  {
    if i == 0 {
      NoEffectElsewhere(lines[1..], lines[0].wallet);
    } else {
      assert lines[1..][i - 1] == lines[i] && lines[0].wallet != lines[i].wallet;
      EffectOfOne(lines[1..], i - 1);
    }
  }

  lemma {:induction false} NoEffectElsewhere(lines: seq<NationalLine>, w: Id)
    requires forall i :: 0 <= i < |lines| ==> lines[i].wallet != w
    ensures LineEffect(lines, w) == 0
  {
    if lines != [] {
      NoEffectElsewhere(lines[1..], w);
    }
  }

  /** Round trip: a reversal can at once be reversed, and then every wallet is as it was. */
  lemma ReversalIsReversible(l: Ledger, company: Company, n: Id)
    requires OperationReversed(l, company, n).Ok?
    requires AllStored(l.nationals[n].lines) && ApartLines(l.nationals[n].lines)
    requires forall w :: 0 <= w < |l.till.wallets| ==> l.till.wallets[w].balance >= 0
    ensures var m := OperationReversed(l, company, n).value;
      && OperationReversed(m, company, |l.nationals|).Ok?
      && OperationReversed(m, company, |l.nationals|).value.till.wallets == l.till.wallets
  {
    var m, k := OperationReversed(l, company, n).value, |l.nationals|;
    var lines, back := l.nationals[n].lines, m.nationals[k].lines;
    assert Mirrors(lines, back) by {
      ReversalRowsMirror(lines, m.till.moves[|l.till.moves|..]);
    }
    assert AllStored(back) by {
      forall i | 0 <= i < |back| ensures StoredLine(back[i]) {
        assert StoredLine(lines[i]);
      }
    }
    ReversalSucceedsIff(l, company, n);
    forall i | 0 <= i < |back| ensures Returnable(m.till.wallets, back[i]) {
      assert Returnable(l.till.wallets, lines[i]) && StoredLine(lines[i]);
      ReversalUndoesWallets(l, company, n, lines[i].wallet);
      EffectOfOne(lines, i);
    }
    ReversalSucceedsIff(m, company, k);
    RestoredWallets(l, company, n);
  }

  lemma RestoredWallets(l: Ledger, company: Company, n: Id)
    requires OperationReversed(l, company, n).Ok? && AllStored(l.nationals[n].lines)
    requires AllStored(OperationReversed(l, company, n).value.nationals[|l.nationals|].lines)
    requires OperationReversed(OperationReversed(l, company, n).value, company, |l.nationals|).Ok?
    ensures OperationReversed(OperationReversed(l, company, n).value, company, |l.nationals|).value.till.wallets
         == l.till.wallets
  {
    var m := OperationReversed(l, company, n).value;
    var r := OperationReversed(m, company, |l.nationals|).value;
    forall w | 0 <= w < |l.till.wallets| ensures r.till.wallets[w] == l.till.wallets[w] {
      ReversalUndoesWallets(l, company, n, w);
      ReversalUndoesWallets(m, company, |l.nationals|, w);
    }
  }

  // ---- totals per currency -----------------------------------------------------------------

  function BalanceIn(wallet: Wallet, c: Currency): int {
    if wallet.currency == c then wallet.balance else 0
  }

  function BalancesIn(wallets: seq<Wallet>, c: Currency): (r: seq<int>)
    ensures |r| == |wallets|
  {
    seq(|wallets|, w requires 0 <= w < |wallets| => BalanceIn(wallets[w], c))
  }

  /** Everything the deployment's wallets hold in one currency. */
  function Holdings(wallets: seq<Wallet>, c: Currency): int {
    Sum(BalancesIn(wallets, c))
  }

  function EffectIn(wallets: seq<Wallet>, orders: seq<Order>, c: Currency): int {
    if orders == [] then 0
    else
      (if orders[0].wallet < |wallets| && wallets[orders[0].wallet].currency == c
       then Signed(orders[0].direction, Round(orders[0].amount)) else 0)
      + EffectIn(wallets, orders[1..], c)
  }

  lemma {:induction false} SameEffectIn(a: seq<Wallet>, b: seq<Wallet>, orders: seq<Order>, c: Currency)
    requires SameWallets(a, b)
    ensures EffectIn(a, orders, c) == EffectIn(b, orders, c)
  {
    if orders != [] {
      SameEffectIn(a, b, orders[1..], c);
    }
  }

  lemma {:induction false} MovedAllHoldings(t: Till, orders: seq<Order>, source: Source, c: Currency)
    requires MovedAll(t, orders, source).Ok?
    ensures Holdings(MovedAll(t, orders, source).value.wallets, c)
         == Holdings(t.wallets, c) + EffectIn(t.wallets, orders, c)
    decreases |orders|
  {
    if orders != [] {
      var w, first := orders[0].wallet, Moved(t, orders[0], source).value;
      assert BalancesIn(first.wallets, c) == BalancesIn(t.wallets, c)[w := BalanceIn(first.wallets[w], c)];
      SumUpdate(BalancesIn(t.wallets, c), w, BalanceIn(first.wallets[w], c));
      SameEffectIn(t.wallets, first.wallets, orders[1..], c);
      MovedAllHoldings(first, orders[1..], source, c);
    }
  }

  /** Every line names the currency of its wallet. */
  predicate Matched(wallets: seq<Wallet>, lines: seq<LineRequest>) {
    forall i :: 0 <= i < |lines| ==>
      lines[i].wallet < |wallets| && wallets[lines[i].wallet].currency == lines[i].currency && SingleDirection(lines[i])
  }

  lemma {:induction false} EffectIsCents(wallets: seq<Wallet>, lines: seq<LineRequest>, c: Currency)
    requires Matched(wallets, lines)
    ensures EffectIn(wallets, OrdersOf(lines), c) == CentsOf(lines, c)
  {
    if lines != [] {
      assert OrdersOf(lines)[1..] == OrdersOf(lines[1..]);
      EffectIsCents(wallets, lines[1..], c);
    }
  }

  lemma CreatedIsMatched(l: Ledger, company: Company, q: Request)
    requires OperationCreated(l, company, q).Ok?
    ensures Matched(l.till.wallets, q.lines)
  {
    var checked := Checked(q.lines);
    forall i | 0 <= i < |q.lines|
      ensures q.lines[i].wallet < |l.till.wallets| && l.till.wallets[q.lines[i].wallet].currency == q.lines[i].currency
    {
      assert Entries.WalletIds(checked)[i] in Entries.WalletIds(checked);
      assert Entries.OwnWallet(l.till, company, checked[i].wallet) && !Entries.MismatchedLine(l.till, checked[i]);
    }
  }

  /** What an accepted operation does to the deployment's holdings is the rounded sum of its lines. */
  lemma CreationMovesHoldings(l: Ledger, company: Company, q: Request, c: Currency)
    requires OperationCreated(l, company, q).Ok?
    ensures Holdings(OperationCreated(l, company, q).value.till.wallets, c)
         == Holdings(l.till.wallets, c) + CentsOf(q.lines, c)
  {
    MovedAllHoldings(l.till, OrdersOf(q.lines), NationalOperation(|l.nationals|), c);
    CreatedIsMatched(l, company, q);
    EffectIsCents(l.till.wallets, q.lines, c);
  }

  predicate WholeCents(lines: seq<LineRequest>) {
    forall i :: 0 <= i < |lines| ==>
      && Decimal(Round(lines[i].amountIn)) == lines[i].amountIn
      && Decimal(Round(lines[i].amountOut)) == lines[i].amountOut
  }

  /** A single-currency operation with n lines, although balanced to the last decimal, can change
      what the wallets hold in a currency, but by no more than n/2 cents; by nothing when its lines
      are whole cents. */
  lemma SingleCurrencyHoldings(l: Ledger, company: Company, q: Request, c: Currency)
    requires OperationCreated(l, company, q).Ok? && |CurrenciesOf(q.lines)| == 1
    ensures var change := Holdings(OperationCreated(l, company, q).value.till.wallets, c) - Holdings(l.till.wallets, c);
      && -|q.lines| <= 2 * change <= |q.lines|
      && (WholeCents(q.lines) ==> change == 0)
  {
    CreationMovesHoldings(l, company, q, c);
    SingleCurrencyDrift(q, c);
  }

  /** A two-currency operation moves the two holdings within 1 + n_dest/2 + rate * n_source/2 cents
      of the stated rate. */
  lemma TwoCurrencyHoldings(l: Ledger, company: Company, q: Request) returns (source: Currency, dest: Currency)
    requires OperationCreated(l, company, q).Ok? && |CurrenciesOf(q.lines)| == 2
    ensures source in CurrenciesOf(q.lines) && dest in CurrenciesOf(q.lines) && source != dest
    ensures var before, after := l.till.wallets, OperationCreated(l, company, q).value.till.wallets;
      var bound := ExchangeBound(CountOf(q.lines, source), CountOf(q.lines, dest), q.exchangeRate.value);
      -bound <= ExchangeError(Holdings(after, source) - Holdings(before, source),
                              Holdings(after, dest) - Holdings(before, dest), q.exchangeRate.value) <= bound
  {
    source, dest := TwoCurrencyDrift(q);
    CreationMovesHoldings(l, company, q, source);
    CreationMovesHoldings(l, company, q, dest);
  }

  // ---- what rounding does to accepted operations -------------------------------------------

  /** The first `n` wallets are the company's, active and in XOF. */
  predicate Ready(wallets: seq<Wallet>, company: Company, n: nat) {
    && n <= |wallets|
    && forall w :: 0 <= w < n ==> wallets[w].company == company && wallets[w].active && wallets[w].currency == XOF
  }

  /** A valid XOF request on ready wallets is accepted when each wallet that pays out holds enough. */
  lemma ReadyRequestIsAccepted(l: Ledger, company: Company, q: Request, n: nat)
    requires Ready(l.till.wallets, company, n) && ValidRequest(q)
    requires forall i :: 0 <= i < |q.lines| ==>
      && q.lines[i].wallet < n && q.lines[i].currency == XOF
      && (q.lines[i].amountOut > 0.0 ==> l.till.wallets[q.lines[i].wallet].balance >= Round(q.lines[i].amountOut))
    ensures OperationCreated(l, company, q).Ok?
  {
    var checked, orders := Checked(q.lines), OrdersOf(q.lines);
    forall w | w in Entries.WalletIds(checked) ensures Entries.OwnWallet(l.till, company, w) {
      var i :| 0 <= i < |checked| && Entries.WalletIds(checked)[i] == w;
      assert q.lines[i].wallet == w;
    }
    forall i | 0 <= i < |checked| ensures !Entries.MismatchedLine(l.till, checked[i]) {
      assert q.lines[i].wallet < n;
    }
    forall i | 0 <= i < |orders| ensures Movable(l.till, orders[i]) {
      assert SingleDirection(q.lines[i]);
    }
    forall i, j | 0 <= i < j < |orders| ensures orders[i].wallet != orders[j].wallet {
      assert q.lines[i].wallet != q.lines[j].wallet;
    }
    ApartOrdersGoThrough(l.till, orders, NationalOperation(|l.nationals|));
  }

  const DRIFTING := [LineRequest(0, 0.015, 0.0, XOF), LineRequest(1, 0.015, 0.0, XOF),
                     LineRequest(2, 0.0, 0.01, XOF), LineRequest(3, 0.0, 0.02, XOF)]

  lemma DriftingIsValid()
    ensures ValidRequest(Request(None, DRIFTING)) && CentsOf(DRIFTING, XOF) == 1
  {
    assert DRIFTING[0] in DRIFTING;
    assert CurrenciesOf(DRIFTING) == {XOF};
    assert DRIFTING[1..][1..][1..][1..] == [];
    assert TotalOf(DRIFTING, XOF) == 0.0;
  }

  /** The drift is real: on any four wallets of a company that can pay it, an operation balanced to the
      last decimal is accepted and leaves the wallets holding a cent more than before. */
  lemma DriftIsReal(l: Ledger, company: Company)
    requires Ready(l.till.wallets, company, 4)
    requires l.till.wallets[2].balance >= 1 && l.till.wallets[3].balance >= 2
    ensures OperationCreated(l, company, Request(None, DRIFTING)).Ok?
    ensures Holdings(OperationCreated(l, company, Request(None, DRIFTING)).value.till.wallets, XOF)
         == Holdings(l.till.wallets, XOF) + 1
  {
    DriftingIsValid();
    hide ValidRequest, CentsOf;
    ReadyRequestIsAccepted(l, company, Request(None, DRIFTING), 4);
    CreationMovesHoldings(l, company, Request(None, DRIFTING), XOF);
  }

  const VANISHING := [LineRequest(0, 0.004, 0.0, XOF), LineRequest(1, 0.006, 0.0, XOF), LineRequest(2, 0.0, 0.01, XOF)]

  lemma VanishingIsValid()
    ensures ValidRequest(Request(None, VANISHING))
  {
    assert VANISHING[0] in VANISHING;
    assert CurrenciesOf(VANISHING) == {XOF};
    assert VANISHING[1..][1..][1..] == [];
    assert TotalOf(VANISHING, XOF) == 0.0;
  }

  /** A line that was rounded down to nothing. */
  predicate DeadLine(line: NationalLine) {
    line.amountIn <= 0 && line.amountOut <= 0
  }

  /** An operation with a line of 0.004 is accepted, and that line is stored as nothing. */
  lemma VanishingLineIsAccepted(l: Ledger, company: Company)
    requires Ready(l.till.wallets, company, 3) && l.till.wallets[2].balance >= 1
    ensures OperationCreated(l, company, Request(None, VANISHING)).Ok?
    ensures var after := OperationCreated(l, company, Request(None, VANISHING)).value.nationals;
      && |after| == |l.nationals| + 1 && |after[|l.nationals|].lines| == 3
      && DeadLine(after[|l.nationals|].lines[0])
  {
    VanishingIsValid();
    hide ValidRequest;
    ReadyRequestIsAccepted(l, company, Request(None, VANISHING), 3);
  }

  lemma AcceptedOrdersArePositive(t: Till, orders: seq<Order>, source: Source, i: nat)
    requires MovedAll(t, orders, source).Ok? && i < |orders|
    ensures orders[i].amount > 0.0
  {
    MovedAllEffect(t, orders, source);
    assert Recorded(t, orders, source, MovedAll(t, orders, source).value, i);
  }

  /** An operation with a dead line cannot be cancelled. */
  lemma DeadLineBlocks(l: Ledger, company: Company, n: Id, i: nat)
    requires n < |l.nationals| && i < |l.nationals[n].lines| && DeadLine(l.nationals[n].lines[i])
    ensures OperationReversed(l, company, n).Err?
  {
    var orders := OrdersOf(MirroredAll(l.nationals[n].lines));
    assert orders[i].amount <= 0.0;
    if MovedAll(l.till, orders, NationalOperation(|l.nationals|)).Ok? {
      AcceptedOrdersArePositive(l.till, orders, NationalOperation(|l.nationals|), i);
    }
  }

  // ---- which requests are accepted ---------------------------------------------------------

  predicate Zero(lines: seq<LineRequest>, currencies: set<Currency>) {
    forall c | c in currencies :: TotalOf(lines, c) == 0.0
  }

  /** What `out` sends in one currency and `rate` converts is what `dest` receives, to 0.01. */
  predicate Explains(lines: seq<LineRequest>, out: Currency, dest: Currency, rate: real) {
    var sent, received := -TotalOf(lines, out), TotalOf(lines, dest);
    sent > 0.0 && received > 0.0 && sent * rate <= received + 0.01 && received <= sent * rate + 0.01
  }

  /** The line moves money in one direction, on an active wallet of the company in the line's currency that
      can pay what it has to. */
  predicate Feasible(wallets: seq<Wallet>, company: Company, line: LineRequest) {
    && line.wallet < |wallets| && wallets[line.wallet].company == company
    && wallets[line.wallet].active && wallets[line.wallet].currency == line.currency
    && ((line.amountIn > 0.0 && line.amountOut == 0.0) || (line.amountIn == 0.0 && line.amountOut > 0.0))
    && (line.amountOut > 0.0 ==> Round(line.amountOut) <= wallets[line.wallet].balance)
  }

  lemma ConvertsMeans(source: real, dest: real, rate: real)
    ensures var sent := -source;
      Converts(source, dest, rate) <==>
        sent > 0.0 && dest > 0.0 && sent * rate <= dest + 0.01 && dest <= sent * rate + 0.01
  {
    var converted := (-source) * rate;
    assert Converts(source, dest, rate) <==> source < 0.0 < dest && -0.01 <= converted - dest <= 0.01;
  }

  lemma ExplainsIsConverts(lines: seq<LineRequest>, out: Currency, dest: Currency, rate: real)
    ensures Explains(lines, out, dest, rate) <==> Converts(TotalOf(lines, out), TotalOf(lines, dest), rate)
  {
    ConvertsMeans(TotalOf(lines, out), TotalOf(lines, dest), rate);
    hide Converts, TotalOf;
  }

  predicate Exchanges(q: Request, out: Currency, dest: Currency) {
    && q.exchangeRate.Some? && CurrenciesOf(q.lines) == {out, dest} && out != dest
    && Explains(q.lines, out, dest, q.exchangeRate.value)
  }

  /** A request is balanced when it has one currency, sums to zero and gives no rate, or when it has two and
      gives the rate that explains the one by the other. */
  lemma BalancedMeans(q: Request)
    ensures Balanced(q) <==>
      || (q.exchangeRate.None? && |CurrenciesOf(q.lines)| == 1 && Zero(q.lines, CurrenciesOf(q.lines)))
      || exists out, dest :: Exchanges(q, out, dest)
  {
    var currencies := CurrenciesOf(q.lines);
    hide Converts, Explains, TotalOf, CurrenciesOf;
    if out, dest :| Exchanges(q, out, dest) {
      ExplainsIsConverts(q.lines, out, dest, q.exchangeRate.value);
      assert |currencies| == 2 && out in currencies && dest in currencies;
    } else if |currencies| == 2 && q.exchangeRate.Some? && Balanced(q) {
      var a, b :| a in currencies && b in currencies && a != b
        && Converts(TotalOf(q.lines, a), TotalOf(q.lines, b), q.exchangeRate.value);
      PairIsAll(currencies, a, b);
      ExplainsIsConverts(q.lines, a, b, q.exchangeRate.value);
      assert Exchanges(q, a, b);
    }
  }

  lemma PairIsAll<T>(s: set<T>, a: T, b: T)
    requires |s| == 2 && a in s && b in s && a != b
    ensures s == {a, b}
  {
    var rest := s - {a, b};
    assert |s - {a}| == 1 && |rest| == 0;
    assert s == rest + {a, b};
  }

  lemma FeasibleMeans(t: Till, company: Company, line: LineRequest)
    ensures Feasible(t.wallets, company, line) <==>
      && SingleDirection(line) && Entries.OwnWallet(t, company, line.wallet)
      && !Entries.MismatchedLine(t, Checked([line])[0]) && Movable(t, OrderOf(line))
  {
  }

  predicate AllFeasible(wallets: seq<Wallet>, company: Company, lines: seq<LineRequest>) {
    forall i :: 0 <= i < |lines| ==> Feasible(wallets, company, lines[i])
  }

  lemma AllFeasibleMeans(t: Till, company: Company, lines: seq<LineRequest>, source: Source)
    requires DistinctWallets(lines)
    ensures AllFeasible(t.wallets, company, lines) <==>
      && (forall i :: 0 <= i < |lines| ==> SingleDirection(lines[i]))
      && Entries.Refusal(t, company, Checked(lines)).None?
      && MovedAll(t, OrdersOf(lines), source).Ok?
  {
    hide Feasible, SingleDirection, Movable, Entries.OwnWallet, Entries.MismatchedLine, Entries.Refusal;
    Entries.RefusedIff(t, company, Checked(lines));
    ApartOrdersGoThrough(t, OrdersOf(lines), source);
    forall i | 0 <= i < |lines|
      ensures Feasible(t.wallets, company, lines[i]) <==>
        && SingleDirection(lines[i]) && Entries.OwnWallet(t, company, Checked(lines)[i].wallet)
        && !Entries.MismatchedLine(t, Checked(lines)[i]) && Movable(t, OrdersOf(lines)[i])
    {
      FeasibleMeans(t, company, lines[i]);
      assert Checked([lines[i]])[0] == Checked(lines)[i];
    }
    assert forall i :: 0 <= i < |lines| ==> Checked(lines)[i].wallet == lines[i].wallet;
  }

  /** An operation is accepted exactly for two or more lines on different wallets, each feasible, that either
      sum to zero in one currency, without a rate, or exchange one currency for another at a given
      positive rate. */
  lemma CreationSucceedsIff(l: Ledger, company: Company, q: Request)
    ensures OperationCreated(l, company, q).Ok? <==>
      && |q.lines| >= 2 && DistinctWallets(q.lines) && AllFeasible(l.till.wallets, company, q.lines)
      && (q.exchangeRate.Some? ==> q.exchangeRate.value > 0.0)
      && (|| (q.exchangeRate.None? && |CurrenciesOf(q.lines)| == 1 && Zero(q.lines, CurrenciesOf(q.lines)))
          || exists out, dest :: Exchanges(q, out, dest))
  {
    BalancedMeans(q);
    if DistinctWallets(q.lines) {
      AllFeasibleMeans(l.till, company, q.lines, NationalOperation(|l.nationals|));
    }
    hide Balanced, AllFeasible, Exchanges, Zero, Entries.Refusal, MovedAll, SingleDirection, DistinctWallets;
  }

  /** The operation is stored VALIDATED, with the rate to six digits and the lines as asked for, their
      amounts to the nearest cent and with the balances before and after. */
  lemma CreatedAsAsked(l: Ledger, company: Company, q: Request)
    requires OperationCreated(l, company, q).Ok?
    ensures var m, n := OperationCreated(l, company, q).value, |l.nationals|;
      && m == l.(till := m.till, nationals := m.nationals)
      && |m.nationals| == n + 1 && m.nationals[..n] == l.nationals
      && var created := m.nationals[n];
         && created.company == company && created.validated && created.reversalOf.None?
         && (created.exchangeRate.Some? <==> q.exchangeRate.Some?)
         && (q.exchangeRate.Some? ==> NearestRate(created.exchangeRate.value, q.exchangeRate.value))
         && |created.lines| == |q.lines|
         && forall i :: 0 <= i < |q.lines| ==>
              var row, line := created.lines[i], q.lines[i];
              && row.wallet == line.wallet < |l.till.wallets| && row.currency == line.currency
              && Nearest(row.amountIn, line.amountIn) && Nearest(row.amountOut, line.amountOut)
              && row.after == row.before + row.amountIn - row.amountOut
  {
    var m := OperationCreated(l, company, q).value;
    var orders, source := OrdersOf(q.lines), NationalOperation(|l.nationals|);
    MovedAllEffect(l.till, orders, source);
    if q.exchangeRate.Some? {
      StoredRateIsNearest(q.exchangeRate.value, StoredRate(q.exchangeRate.value));
    }
    hide NearestRate, StoredRate, Nearest;
    forall i | 0 <= i < |q.lines|
      ensures var row, line := m.nationals[|l.nationals|].lines[i], q.lines[i];
        && row.wallet < |l.till.wallets|
        && Nearest(row.amountIn, line.amountIn) && Nearest(row.amountOut, line.amountOut)
        && row.after == row.before + row.amountIn - row.amountOut
    {
      assert Recorded(l.till, orders, source, m.till, i) && SingleDirection(q.lines[i]);
      RoundIsNearest(q.lines[i].amountIn);
      RoundIsNearest(q.lines[i].amountOut);
    }
  }
}
