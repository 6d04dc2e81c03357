/** The direction of a payment, frozen when it is created, makes it settle debt whichever party
    creates it. */
module Settlement {
  import opened Money
  import opened Tables
  import opened Operations
  import opened OperationLedger
  import opened Replays
  import P = Collaborations
  import opened Deployment

  function Abs(x: int): nat {
    if x < 0 then -x else x
  }

  lemma BalanceAppended(balances: seq<BalanceMove>, m: BalanceMove, collab: Id, company: Company)
    ensures Balance(balances + [m], collab, company)
         == Balance(balances, collab, company)
            + (if m.collab == collab && m.creditor == company then m.amount else 0)
            - (if m.collab == collab && m.debtor == company then m.amount else 0)
  {
    assert (balances + [m])[..|balances|] == balances;
  }

  /** Both parties see the same outstanding amount. */
  lemma SameOutstanding(l: Ledger, collab: Id)
    requires Sound(l) && collab < |l.pacts.collabs|
    ensures var c := l.pacts.collabs[collab];
      Balance(l.desk.balances, collab, c.initiator) == -Balance(l.desk.balances, collab, c.target)
  {
    var c := l.pacts.collabs[collab];
    MovesAreTwoSided(l);
    forall k
      ensures BalanceIn(l.desk.balances, collab, c.initiator, k) + BalanceIn(l.desk.balances, collab, c.target, k) == 0
    {
      TwoSidedSumsToZero(l.pacts, l.desk.balances, collab, k);
    }
    BalancesAddUp(l.desk.balances, collab, c.initiator);
    BalancesAddUp(l.desk.balances, collab, c.target);
  }

  /** What the movement of an approved payment does to its creator's balance. */
  lemma PostedMoveSettles(balances: seq<BalanceMove>, op: Op, o: Id, c: Collab)
    requires op.kind.Payment? && c.initiator != c.target && op.company in {c.initiator, c.target}
    requires op.settlesDebt == (Balance(balances, op.collab, op.company) < 0)
    ensures Balance(balances + [ExpectedMove(op, o, c)], op.collab, op.company)
         == Balance(balances, op.collab, op.company) + (if op.settlesDebt then op.converted else -op.converted)
  {
    BalanceAppended(balances, ExpectedMove(op, o, c), op.collab, op.company);
  }

  /** Approving a payment whose creator's balance has the sign it had at creation. */
  lemma ApprovalSettles(l: Ledger, approver: Company, o: Id)
    requires Sound(l) && PaymentApproved(l, approver, o).Ok?
    requires var op := l.desk.ops[o]; op.settlesDebt == (Balance(l.desk.balances, op.collab, op.company) < 0)
    ensures var op := l.desk.ops[o];
      var before := Balance(l.desk.balances, op.collab, op.company);
      var after := Balance(PaymentApproved(l, approver, o).value.desk.balances, op.collab, op.company);
      && after == (if before < 0 then before + op.converted else before - op.converted)
  {
    OperationIsPlaced(l, o);
    ApprovedBalances(l, approver, o);
    hide Sound, PaymentApproved, ExpectedMove, Balance, Placed;
    var op := l.desk.ops[o];
    PostedMoveSettles(l.desk.balances, op, o, l.pacts.collabs[op.collab]);
  }

  lemma ApprovedBalances(l: Ledger, approver: Company, o: Id)
    requires PaymentApproved(l, approver, o).Ok?
    requires o < |l.desk.ops| ==> Placed(l.pacts, l.desk.ops[o])
    ensures o < |l.desk.ops|
    ensures var op := l.desk.ops[o];
      && op.kind.Payment? && op.collab < |l.pacts.collabs|
      && l.pacts.collabs[op.collab].initiator != l.pacts.collabs[op.collab].target
      && op.company in {l.pacts.collabs[op.collab].initiator, l.pacts.collabs[op.collab].target}
      && PaymentApproved(l, approver, o).value.desk.balances
         == l.desk.balances + [ExpectedMove(op, o, l.pacts.collabs[op.collab])]
  {
  }

  lemma OperationIsPlaced(l: Ledger, o: Id)
    requires Sound(l) && o < |l.desk.ops|
    ensures Placed(l.pacts, l.desk.ops[o])
  {
    assert OpSound(l, o);
  }

  /** The columns of an operation that decide how its approval moves the balance. */
  predicate Settling(ops: seq<Op>, o: Id, creator: Company, collab: Id, settles: bool) {
    o < |ops| && ops[o].company == creator && ops[o].collab == collab && ops[o].settlesDebt == settles
  }

  lemma PaymentRow(l: Ledger, creator: Company, q: PaymentRequest)
    requires PaymentOpened(l, creator, q).Ok?
    ensures Settling(PaymentOpened(l, creator, q).value.desk.ops, |l.desk.ops|, creator, q.collab,
                     Balance(l.desk.balances, q.collab, creator) < 0)
  {
  }

  lemma SettlingPersists(run: seq<Event>, k: nat, o: Id, creator: Company, collab: Id, settles: bool)
    requires k <= |run| && Settling(Exec(run[..k]).desk.ops, o, creator, collab, settles)
    ensures Settling(Exec(run).desk.ops, o, creator, collab, settles)
  {
    OperationsPersist(run, k);
  }

  /** The direction a payment gets when it is created is still the one it has after any run. */
  lemma DirectionIsFrozen(before: seq<Event>, creator: Company, q: PaymentRequest, meanwhile: seq<Event>)
    requires PaymentOpened(Exec(before), creator, q).Ok?
    ensures Settling(Exec(before + [CreatePayment(creator, q)] + meanwhile).desk.ops, |Exec(before).desk.ops|,
                     creator, q.collab, Balance(Exec(before).desk.balances, q.collab, creator) < 0)
  {
    var opening := before + [CreatePayment(creator, q)];
    assert opening[..|opening| - 1] == before;
    PaymentRow(Exec(before), creator, q);
    assert (opening + meanwhile)[..|opening|] == opening;
    SettlingPersists(opening + meanwhile, |opening|, |Exec(before).desk.ops|, creator, q.collab,
                     Balance(Exec(before).desk.balances, q.collab, creator) < 0);
  }

  /** Approving operation `o` brings the creator's balance from b to one of absolute value | |b| - a |. */
  predicate Settles(l: Ledger, approver: Company, o: Id, creator: Company, collab: Id)
    requires PaymentApproved(l, approver, o).Ok?
  {
    var after := PaymentApproved(l, approver, o).value;
    && o < |after.desk.ops|
    && Abs(Balance(after.desk.balances, collab, creator))
       == Abs(Abs(Balance(l.desk.balances, collab, creator)) - after.desk.ops[o].converted)
  }

  lemma ApprovalMovesBalance(l: Ledger, approver: Company, o: Id, creator: Company, collab: Id)
    requires Sound(l) && PaymentApproved(l, approver, o).Ok?
    requires Settling(l.desk.ops, o, creator, collab, Balance(l.desk.balances, collab, creator) < 0)
    ensures Settles(l, approver, o, creator, collab)
  {
    ApprovalSettles(l, approver, o);
  }

  /** If the creator's balance b is the same when the payment of converted amount a is approved as
      when it was created, it becomes, in absolute value, | |b| - a |, whatever happened meanwhile
      and whichever party created it. */
  lemma PaymentSettles(
    before: seq<Event>, creator: Company, q: PaymentRequest, meanwhile: seq<Event>, approver: Company)
    requires PaymentOpened(Exec(before), creator, q).Ok?
    requires var l, m := Exec(before), Exec(before + [CreatePayment(creator, q)] + meanwhile);
      && Balance(m.desk.balances, q.collab, creator) == Balance(l.desk.balances, q.collab, creator)
      && PaymentApproved(m, approver, |l.desk.ops|).Ok?
    ensures Settles(Exec(before + [CreatePayment(creator, q)] + meanwhile), approver, |Exec(before).desk.ops|,
                    creator, q.collab)
  {
    hide *;
    DirectionIsFrozen(before, creator, q, meanwhile);
    ReachableIsSound(before + [CreatePayment(creator, q)] + meanwhile);
    ApprovalMovesBalance(Exec(before + [CreatePayment(creator, q)] + meanwhile), approver, |Exec(before).desk.ops|,
                         creator, q.collab);
  }

  // ---- a run of settlements ----------------------------------------------------------------

  datatype Installment = Installment(creator: Company, request: PaymentRequest)

  /** One payment, created by one party and approved at once by the other. */
  function Paid(l: Ledger, p: Installment): Result<Ledger> {
    var created :- PaymentOpened(l, p.creator, p.request);
    var o := |l.desk.ops|;
    if p.request.collab >= |created.pacts.collabs| then Err(NotFound)
    else PaymentApproved(created, OtherParty(created.pacts.collabs[p.request.collab], p.creator), o)
  }

  function PaidAll(l: Ledger, ps: seq<Installment>): Result<Ledger>
    decreases |ps|
  {
    if ps == [] then Ok(l)
    else
      var first :- Paid(l, ps[0]);
      PaidAll(first, ps[1..])
  }

  function Outstanding(l: Ledger, collab: Id): nat
    requires collab < |l.pacts.collabs|
  {
    Abs(Balance(l.desk.balances, collab, l.pacts.collabs[collab].initiator))
  }

  /** The converted amount of the payment this installment creates. */
  function ConvertedBy(l: Ledger, p: Installment): int {
    match PaymentOpened(l, p.creator, p.request)
    case Ok(m) => if |l.desk.ops| < |m.desk.ops| then m.desk.ops[|l.desk.ops|].converted else 0
    case Err(_) => 0
  }

  /** No installment exceeds what is outstanding when it is made. */
  predicate WithinDebt(l: Ledger, collab: Id, ps: seq<Installment>)
    decreases |ps|
  {
    ps == [] ||
    (&& collab < |l.pacts.collabs|
     && ps[0].request.collab == collab
     && ConvertedBy(l, ps[0]) <= Outstanding(l, collab)
     && (Paid(l, ps[0]).Ok? ==> WithinDebt(Paid(l, ps[0]).value, collab, ps[1..])))
  }

  function Total(l: Ledger, ps: seq<Installment>): int
    decreases |ps|
  {
    if ps == [] || Paid(l, ps[0]).Err? then 0 else ConvertedBy(l, ps[0]) + Total(Paid(l, ps[0]).value, ps[1..])
  }

  lemma PaidKeepsSound(l: Ledger, p: Installment)
    requires Sound(l) && Paid(l, p).Ok?
    ensures Sound(Paid(l, p).value) && Paid(l, p).value.pacts == l.pacts
  {
    var created := PaymentOpened(l, p.creator, p.request).value;
    CreatePaymentKeeps(l, p.creator, p.request);
    ApprovePaymentKeeps(created, OtherParty(created.pacts.collabs[p.request.collab], p.creator), |l.desk.ops|);
  }

  /** The initiator's balance went from b to b', a total of `total` nearer to zero and not past it. */
  predicate Lowered(b: int, b': int, total: int) {
    && Abs(b') == Abs(b) - total
    && (b >= 0 ==> b' >= 0)
    && (b <= 0 ==> b' <= 0)
  }

  function InitiatorBalance(l: Ledger, collab: Id): int
    requires collab < |l.pacts.collabs|
  {
    Balance(l.desk.balances, collab, l.pacts.collabs[collab].initiator)
  }

  lemma InstallmentMoves(l: Ledger, p: Installment)
    requires Sound(l) && Paid(l, p).Ok?
    ensures var b := Balance(l.desk.balances, p.request.collab, p.creator);
      Balance(Paid(l, p).value.desk.balances, p.request.collab, p.creator)
      == b + (if b < 0 then ConvertedBy(l, p) else -ConvertedBy(l, p))
  {
    hide Sound, Balance, OtherParty;
    var created := PaymentOpened(l, p.creator, p.request).value;
    CreatePaymentKeeps(l, p.creator, p.request);
    ApprovalSettles(created, OtherParty(created.pacts.collabs[p.request.collab], p.creator), |l.desk.ops|);
  }

  lemma ConversionNonNegative(amount: real, from: Currency, to: Currency, rate: real)
    requires amount >= 0.0 && rate >= 0.0
    ensures Converted(amount, from, to, rate) >= 0
  {
    assert amount * rate >= 0.0;
    RoundMonotone(0.0, amount);
    RoundMonotone(0.0, amount * rate);
  }

  lemma ConvertedNonNegative(l: Ledger, p: Installment)
    requires Sound(l) && Paid(l, p).Ok?
    ensures ConvertedBy(l, p) >= 0
  {
    var q := p.request;
    PaymentConversion(l, p.creator, q);
    PaidFacts(l, p);
    hide Sound, PaymentOpened, Converted;
    RateNonNegative(l, q.collab);
    ConversionNonNegative(
      q.amount, q.currency, l.pacts.collabs[q.collab].currency, CollaborativeRate(l, q.collab));
  }

  lemma RateNonNegative(l: Ledger, c: Id)
    requires Sound(l) && c < |l.pacts.collabs|
    ensures CollaborativeRate(l, c) >= 0.0
  {
    var current := l.pacts.collabs[c].currentRate;
    assert current.Some? && current.value < |l.pacts.rates| ==> P.Bilateral(l.pacts, current.value);
  }

  /** One installment within the debt lowers what is outstanding by its converted amount, and does
      not turn the debtor into a creditor. */
  lemma InstallmentSettles(l: Ledger, collab: Id, p: Installment)
    requires Sound(l) && collab < |l.pacts.collabs| && p.request.collab == collab
    requires Paid(l, p).Ok? && ConvertedBy(l, p) <= Outstanding(l, collab)
    ensures Paid(l, p).value.pacts == l.pacts
    ensures Lowered(InitiatorBalance(l, collab), InitiatorBalance(Paid(l, p).value, collab), ConvertedBy(l, p))
  {
    hide Sound, ConvertedBy, Balance;
    PaidKeepsSound(l, p);
    SameOutstanding(l, collab);
    SameOutstanding(Paid(l, p).value, collab);
    InstallmentMoves(l, p);
    ConvertedNonNegative(l, p);
    PaidFacts(l, p);
  }

  lemma PaidFacts(l: Ledger, p: Installment)
    ensures Paid(l, p).Ok? ==>
      && p.request.amount > 0.0 && p.request.collab < |l.pacts.collabs|
      && var c := l.pacts.collabs[p.request.collab]; p.creator == c.initiator || p.creator == c.target
  {
  }

  /** Any run of create-then-approve payments that stay within the outstanding debt, by either party
      at each turn, lowers it by exactly their total and never overshoots. */
  lemma {:induction false} SettlementsAddUp(l: Ledger, collab: Id, ps: seq<Installment>)
    requires Sound(l) && collab < |l.pacts.collabs|
    requires PaidAll(l, ps).Ok? && WithinDebt(l, collab, ps)
    ensures PaidAll(l, ps).value.pacts == l.pacts
    ensures Lowered(InitiatorBalance(l, collab), InitiatorBalance(PaidAll(l, ps).value, collab), Total(l, ps))
    decreases |ps|
  {
    if ps != [] {
      var first := Paid(l, ps[0]).value;
      InstallmentSettles(l, collab, ps[0]);
      PaidKeepsSound(l, ps[0]);
      SettlementsAddUp(first, collab, ps[1..]);
      assert PaidAll(l, ps) == PaidAll(first, ps[1..]);
      assert Total(l, ps) == ConvertedBy(l, ps[0]) + Total(first, ps[1..]);
    }
  }
}
