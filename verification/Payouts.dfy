/** What approvals pay out: in every reachable deployment the wallet movements made for a transfer or a
    payment are the one its approval calls for, and nothing else. */
module Payouts {
  import opened Money
  import opened Tables
  import opened Wallets
  import opened EntryLedger
  import opened Operations
  import opened OperationLedger
  import Clients
  import Entries
  import Nationals
  import opened NationalReplay
  import opened Deployment

  /** The movements made for operation `o`. */
  function PayoutsOf(moves: seq<WalletMove>, o: Id): seq<WalletMove> {
    if moves == [] then []
    else
      var m := moves[|moves| - 1];
      var earlier := PayoutsOf(moves[..|moves| - 1], o);
      if m.source == OperationPayout(o) then earlier + [m] else earlier
  }

  /** A transfer is paid by the other party of its collaboration, in converted money; a payment by its
      creator, as declared. */
  predicate PaidBy(op: Op, c: Collab, company: Company) {
    if op.kind.Transfer? then company in {c.initiator, c.target} && company != op.company else company == op.company
  }

  function PaidAmount(op: Op): int {
    if op.kind.Transfer? then op.converted else op.amount
  }

  function PaidCurrency(op: Op): Currency {
    if op.kind.Transfer? then op.targetCurrency else op.currency
  }

  /** The wallet an operation names can pay it, and a transfer names one exactly once it is APPROVED. */
  ghost predicate PayerSound(l: Ledger, op: Op) {
    && op.collab < |l.pacts.collabs|
    && (op.kind.Transfer? ==> (op.wallet.Some? <==> op.status.Approved?))
    && (op.wallet.Some? ==>
          && op.wallet.value < |l.till.wallets|
          && PaidBy(op, l.pacts.collabs[op.collab], l.till.wallets[op.wallet.value].company)
          && l.till.wallets[op.wallet.value].currency == PaidCurrency(op))
  }

  /** One OUT movement of the amount from the wallet named, if the operation is APPROVED and names one. */
  predicate PaidOnce(rows: seq<WalletMove>, op: Op) {
    if op.status.Approved? && op.wallet.Some? then
      && |rows| == 1 && rows[0].direction.Out? && rows[0].wallet == op.wallet.value
      && rows[0].amount == PaidAmount(op) && rows[0].currency == PaidCurrency(op)
    else rows == []
  }

  ghost predicate PayoutSound(l: Ledger, o: Id)
    requires o < |l.desk.ops|
  {
    PayerSound(l, l.desk.ops[o]) && PaidOnce(PayoutsOf(l.till.moves, o), l.desk.ops[o])
  }

  /** No movement was made for an operation that does not exist yet. */
  predicate PayoutsKnown(l: Ledger) {
    forall i :: 0 <= i < |l.till.moves| && l.till.moves[i].source.OperationPayout? ==>
      l.till.moves[i].source.op < |l.desk.ops|
  }

  ghost predicate PayoutsSound(l: Ledger) {
    PayoutsKnown(l) && forall o :: 0 <= o < |l.desk.ops| ==> PayoutSound(l, o)
  }

  lemma {:induction false} PayoutsSkipOthers(moves: seq<WalletMove>, k: nat, o: Id)
    requires k <= |moves| && forall i :: k <= i < |moves| ==> moves[i].source != OperationPayout(o)
    ensures PayoutsOf(moves, o) == PayoutsOf(moves[..k], o)
    decreases |moves|
  {
    if k < |moves| {
      assert moves[..|moves| - 1][..k] == moves[..k];
      PayoutsSkipOthers(moves[..|moves| - 1], k, o);
    } else {
      assert moves[..k] == moves;
    }
  }

  // ---- calls that pay nothing out ----------------------------------------------------------

  predicate SameCollabs(p: Pacts, q: Pacts) {
    |p.collabs| <= |q.collabs| && forall c :: 0 <= c < |p.collabs| ==>
      q.collabs[c].initiator == p.collabs[c].initiator && q.collabs[c].target == p.collabs[c].target
  }

  /** Movements made for something else, and calls without movements, leave payouts alone. */
  lemma OthersKeepPayouts(l: Ledger, m: Ledger, source: Source)
    requires PayoutsSound(l) && m.desk.ops == l.desk.ops && SameCollabs(l.pacts, m.pacts)
    requires Follows(l.till, m.till, source) && !source.OperationPayout?
    requires SameOwners(l.till.wallets, m.till.wallets)
    ensures PayoutsSound(m)
  {
    forall o | 0 <= o < |m.desk.ops| ensures PayoutSound(m, o) {
      assert PayoutSound(l, o);
      PayoutsSkipOthers(m.till.moves, |l.till.moves|, o);
    }
    forall i | 0 <= i < |m.till.moves| && m.till.moves[i].source.OperationPayout?
      ensures m.till.moves[i].source.op < |m.desk.ops|
    {
      assert m.till.moves[i] == l.till.moves[i];
    }
  }

  lemma {:induction false} NoPayouts(moves: seq<WalletMove>, o: Id)
    requires forall i :: 0 <= i < |moves| && moves[i].source.OperationPayout? ==> moves[i].source.op < o
    ensures PayoutsOf(moves, o) == []
  {
    if moves != [] {
      NoPayouts(moves[..|moves| - 1], o);
    }
  }

  /** A new operation is PENDING, so nothing has been paid for it. */
  lemma OpeningKeepsPayouts(l: Ledger, m: Ledger, op: Op)
    requires PayoutsSound(l) && m.till == l.till && m.pacts == l.pacts && m.desk.ops == l.desk.ops + [op]
    requires op.status.Pending? && PayerSound(l, op)
    ensures PayoutsSound(m)
  {
    NoPayouts(l.till.moves, |l.desk.ops|);
    forall o | 0 <= o < |m.desk.ops| ensures PayoutSound(m, o) {
      assert o < |l.desk.ops| ==> PayoutSound(l, o);
    }
  }

  /** A decision on operation `o` alone, with the movement an approval calls for. */
  lemma DecisionKeepsPayouts(l: Ledger, m: Ledger, o: Id, op: Op)
    requires PayoutsSound(l) && m.pacts == l.pacts && o < |l.desk.ops| && m.desk.ops == l.desk.ops[o := op]
    requires l.desk.ops[o].status.Pending? && PayerSound(m, op)
    requires Follows(l.till, m.till, OperationPayout(o)) && SameOwners(l.till.wallets, m.till.wallets)
    requires PaidOnce(m.till.moves[|l.till.moves|..], op)
    ensures PayoutsSound(m)
  {
    forall k | 0 <= k < |m.desk.ops| ensures PayoutSound(m, k) {
      assert PayoutSound(l, k);
      if k == o {
        assert PayoutsOf(l.till.moves, o) == [];
        NewPayouts(m.till.moves, |l.till.moves|, o);
      } else {
        PayoutsSkipOthers(m.till.moves, |l.till.moves|, k);
      }
    }
    forall i | 0 <= i < |m.till.moves| && m.till.moves[i].source.OperationPayout?
      ensures m.till.moves[i].source.op < |m.desk.ops|
    {
      assert i < |l.till.moves| ==> m.till.moves[i] == l.till.moves[i];
    }
  }

  lemma {:induction false} NewPayouts(moves: seq<WalletMove>, k: nat, o: Id)
    requires k <= |moves| && forall i :: k <= i < |moves| ==> moves[i].source == OperationPayout(o)
    ensures PayoutsOf(moves, o) == PayoutsOf(moves[..k], o) + moves[k..]
    decreases |moves|
  {
    if k < |moves| {
      var n := |moves| - 1;
      assert moves[..n][..k] == moves[..k] && moves[k..] == moves[..n][k..] + [moves[n]];
      NewPayouts(moves[..n], k, o);
    } else {
      assert moves[..k] == moves;
    }
  }

  // ---- every call --------------------------------------------------------------------------

  lemma OpeningsKeep(l: Ledger, ev: Event)
    ensures PayoutsSound(l) && Applied(l, ev).Ok? && (ev.CreateTransfer? || ev.CreatePayment?) ==>
      PayoutsSound(Step(l, ev))
  {
    hide PayoutsSound, SplitOf;
    if PayoutsSound(l) && Applied(l, ev).Ok? && (ev.CreateTransfer? || ev.CreatePayment?) {
      OpeningKeepsPayouts(l, Step(l, ev), Step(l, ev).desk.ops[|l.desk.ops|]);
    }
  }

  lemma TransferApprovalPays(l: Ledger, company: Company, o: Id, w: Id)
    requires PayoutsSound(l) && OpsSound(l) && TransferApproved(l, company, o, w).Ok?
    ensures PayoutsSound(TransferApproved(l, company, o, w).value)
  {
    assert OpSound(l, o) && PayoutSound(l, o);
    hide PayoutsSound, OpsSound, OpSound, PayoutsOf;
    var m := TransferApproved(l, company, o, w).value;
    RoundWholeCents(l.desk.ops[o].converted);
    assert m.desk.ops == l.desk.ops[o := m.desk.ops[o]];
    DecisionKeepsPayouts(l, m, o, m.desk.ops[o]);
  }

  lemma PaymentApprovalPays(l: Ledger, company: Company, o: Id)
    requires PayoutsSound(l) && OpsSound(l) && PaymentApproved(l, company, o).Ok?
    ensures PayoutsSound(PaymentApproved(l, company, o).value)
  {
    assert OpSound(l, o) && PayoutSound(l, o);
    hide PayoutsSound, OpsSound, OpSound, PayoutsOf;
    var m := PaymentApproved(l, company, o).value;
    RoundWholeCents(l.desk.ops[o].amount);
    DecisionKeepsPayouts(l, m, o, m.desk.ops[o]);
  }

  lemma ApprovalsPay(l: Ledger, ev: Event)
    ensures PayoutsSound(l) && Sound(l) && Applied(l, ev).Ok? && (ev.ApproveTransfer? || ev.ApprovePayment?) ==>
      PayoutsSound(Step(l, ev))
  {
    hide PayoutsSound, OpsSound;
    if PayoutsSound(l) && Sound(l) && Applied(l, ev).Ok? && (ev.ApproveTransfer? || ev.ApprovePayment?) {
      match ev
      case ApproveTransfer(company, o, w) => TransferApprovalPays(l, company, o, w);
      case ApprovePayment(company, o) => PaymentApprovalPays(l, company, o);
    }
  }

  lemma ClosuresKeep(l: Ledger, ev: Event)
    ensures PayoutsSound(l) && Applied(l, ev).Ok? && ev.CloseOperation? ==> PayoutsSound(Step(l, ev))
  {
    if PayoutsSound(l) && Applied(l, ev).Ok? && ev.CloseOperation? {
      assert PayoutSound(l, ev.op);
      hide PayoutsSound, PayoutsOf;
      DecisionKeepsPayouts(l, Step(l, ev), ev.op, Step(l, ev).desk.ops[ev.op]);
    }
  }

  /** A call on wallets, entries or national operations makes its movements for that document. */
  lemma DocumentOf(l: Ledger, ev: Event) returns (source: Source)
    requires TouchesTill(ev) && !Operates(ev) && Applied(l, ev).Ok?
    ensures !source.OperationPayout?
    ensures Follows(l.till, Step(l, ev).till, source) && SameOwners(l.till.wallets, Step(l, ev).till.wallets)
  {
    match ev
    case CreateWallet(_, _, _, _) => source := WalletInitial(|l.till.wallets|);
    case SetWalletStatus(_, _, _) => source := WalletInitial(|l.till.wallets|);
    case CreateEntry(_, _, _, lines) =>
      source := EntryReceipt(|l.funds.entries|);
      MovedAllFollows(l.till, Entries.ReceiptOrders(lines), source);
    case CancelEntry(_, e) =>
      source := EntryCancellation(e);
      MovedAllFollows(l.till, Entries.PayBackOrders(l.funds.entries[e].lines), source);
    case CreateNational(_, q) =>
      source := NationalOperation(|l.nationals|);
      MovedAllFollows(l.till, Nationals.OrdersOf(q.lines), source);
    case CancelNational(_, n) =>
      source := NationalOperation(|l.nationals|);
      MovedAllFollows(l.till, Nationals.OrdersOf(Nationals.MirroredAll(l.nationals[n].lines)), source);
  }

  lemma PactsUntouched(l: Ledger, ev: Event)
    ensures !Negotiates(ev) ==> Step(l, ev).pacts == l.pacts
  {
  }

  lemma PartiesStay(p: Pacts, ev: Event)
    requires Negotiates(ev) && PactsAfter(p, ev).Ok?
    ensures SameCollabs(p, PactsAfter(p, ev).value)
  {
  }

  lemma NegotiationKeepsParties(l: Ledger, ev: Event)
    requires Negotiates(ev) && Applied(l, ev).Ok?
    ensures SameCollabs(l.pacts, Step(l, ev).pacts)
  {
    hide PactsAfter, SameCollabs;
    PartiesStay(l.pacts, ev);
  }

  lemma StepKeepsPayouts(l: Ledger, ev: Event)
    requires PayoutsSound(l) && Sound(l)
    ensures PayoutsSound(Step(l, ev))
  {
    hide Step, Applied, PayoutsSound, Sound;
    if Applied(l, ev).Err? {
      FailureChangesNothing(l, ev);
    } else if ev.CreateTransfer? || ev.CreatePayment? {
      OpeningsKeep(l, ev);
    } else if ev.ApproveTransfer? || ev.ApprovePayment? {
      ApprovalsPay(l, ev);
    } else if ev.CloseOperation? {
      ClosuresKeep(l, ev);
    } else {
      DeskUntouched(l, ev);
      PactsUntouched(l, ev);
      if Negotiates(ev) {
        NegotiationKeepsParties(l, ev);
      }
      var source := NationalOperation(0);
      if TouchesTill(ev) {
        source := DocumentOf(l, ev);
      } else {
        TillUntouched(l, ev);
      }
      OthersKeepPayouts(l, Step(l, ev), source);
    }
  }

  /** In every run an operation that is APPROVED and names a wallet has taken its amount out of it, once
      and in its currency, and nothing else was ever moved for an operation: a transfer is paid in
      converted money by the other party of its collaboration, and exactly once it is APPROVED; a payment
      as declared by its creator, if it names a wallet. */
  lemma {:induction false} ApprovalsPayOut(events: seq<Event>)
    ensures PayoutsSound(Exec(events))
  {
    if events != [] {
      hide PayoutsSound, Step, Sound;
      ApprovalsPayOut(events[..|events| - 1]);
      ReachableIsSound(events[..|events| - 1]);
      StepKeepsPayouts(Exec(events[..|events| - 1]), events[|events| - 1]);
    }
  }

  /** So each wallet lost, for each operation, what the operation paid from it. */
  lemma WalletsPayOut(events: seq<Event>, o: Id, w: Id)
    ensures var l := Exec(events);
      o < |l.desk.ops| ==>
        var op := l.desk.ops[o];
        Net(PayoutsOf(l.till.moves, o), w)
        == if op.status.Approved? && op.wallet == Some(w) then -PaidAmount(op) else 0
  {
    var l := Exec(events);
    ApprovalsPayOut(events);
    hide Exec;
    if o < |l.desk.ops| {
      assert PayoutSound(l, o);
      var rows := PayoutsOf(l.till.moves, o);
      if rows != [] {
        assert rows == [rows[0]];
        NetAppend([], rows[0], w);
        assert [] + [rows[0]] == [rows[0]];
      }
    }
  }

  // ---- when an approval goes through -------------------------------------------------------

  /** The company is the other party of the operation's collaboration. */
  predicate Faces(l: Ledger, op: Op, company: Company) {
    && op.collab < |l.pacts.collabs| && company != op.company
    && company in {l.pacts.collabs[op.collab].initiator, l.pacts.collabs[op.collab].target}
  }

  /** At least a cent, and no more than the active wallet holds. */
  predicate CanPay(wallets: seq<Wallet>, w: Id, cents: int) {
    w < |wallets| && wallets[w].active && 1 <= cents <= wallets[w].balance
  }

  lemma PaymentOrderGoesThrough(t: Till, w: Id, cents: int, source: Source)
    ensures Moved(t, Order(w, Out, Decimal(cents)), source).Ok? <==> CanPay(t.wallets, w, cents)
  {
    RoundWholeCents(cents);
  }

  /** In every run a transfer is approved exactly while it is PENDING, by the other party, from an active
      wallet of its own in the target currency that holds the converted amount, which is at least a cent. */
  lemma TransferApprovalSucceedsIff(events: seq<Event>, company: Company, o: Id, w: Id)
    ensures var l := Exec(events);
      TransferApproved(l, company, o, w).Ok? <==>
        && o < |l.desk.ops| && l.desk.ops[o].kind.Transfer? && l.desk.ops[o].status.Pending?
        && Faces(l, l.desk.ops[o], company)
        && CanPay(l.till.wallets, w, l.desk.ops[o].converted)
        && l.till.wallets[w].company == company && l.till.wallets[w].currency == l.desk.ops[o].targetCurrency
  {
    var l := Exec(events);
    ReachableIsSound(events);
    if o < |l.desk.ops| {
      assert OpSound(l, o);
      PaymentOrderGoesThrough(l.till, w, l.desk.ops[o].converted, OperationPayout(o));
    }
    hide Exec, Sound, OpSound, Moved;
  }

  /** A payment is approved exactly while it is PENDING, by the other party, and, if it names a wallet, only
      while that is active and holds the amount, which is at least a cent. */
  lemma PaymentApprovalSucceedsIff(events: seq<Event>, company: Company, o: Id)
    ensures var l := Exec(events);
      PaymentApproved(l, company, o).Ok? <==>
        && o < |l.desk.ops| && l.desk.ops[o].kind.Payment? && l.desk.ops[o].status.Pending?
        && Faces(l, l.desk.ops[o], company)
        && (l.desk.ops[o].wallet.Some? ==> CanPay(l.till.wallets, l.desk.ops[o].wallet.value, l.desk.ops[o].amount))
  {
    var l := Exec(events);
    ReachableIsSound(events);
    if o < |l.desk.ops| {
      assert OpSound(l, o);
      if l.desk.ops[o].wallet.Some? {
        PaymentOrderGoesThrough(l.till, l.desk.ops[o].wallet.value, l.desk.ops[o].amount, OperationPayout(o));
      }
    }
    hide Exec, Sound, OpSound, Moved;
  }

  /** An operation is closed exactly while it is PENDING: cancelled by its creator, rejected by the other
      party. */
  lemma ClosureSucceedsIff(events: seq<Event>, kind: OpKind, company: Company, o: Id, role: Role)
    ensures var l := Exec(events);
      Closed(l, kind, company, o, role).Ok? <==>
        && o < |l.desk.ops| && l.desk.ops[o].kind == kind && l.desk.ops[o].status.Pending?
        && (if role.Creator? then company == l.desk.ops[o].company else Faces(l, l.desk.ops[o], company))
  {
    ReachableIsSound(events);
    hide Exec, Closed;
    if o < |Exec(events).desk.ops| {
      assert DrawSound(Exec(events).funds, Exec(events).desk.ops, o);
      ClosureIff(Exec(events), kind, company, o, role);
    } else {
      UnknownIsNotClosed(Exec(events), kind, company, o, role);
    }
  }

  lemma UnknownIsNotClosed(l: Ledger, kind: OpKind, company: Company, o: Id, role: Role)
    requires o >= |l.desk.ops|
    ensures Closed(l, kind, company, o, role).Err?
  {
  }

  lemma ClosureIff(l: Ledger, kind: OpKind, company: Company, o: Id, role: Role)
    requires OpsSound(l) && o < |l.desk.ops| && DrawSound(l.funds, l.desk.ops, o)
    ensures Closed(l, kind, company, o, role).Ok? <==>
      && l.desk.ops[o].kind == kind && l.desk.ops[o].status.Pending?
      && (if role.Creator? then company == l.desk.ops[o].company else Faces(l, l.desk.ops[o], company))
  {
    var op := l.desk.ops[o];
    assert OpSound(l, o);
    hide OpsSound, OpSound, Weighs, Reversible, Clients.Reversed;
    if op.client.Some? && op.status.Pending? {
      assert OpSound(l, o) ==> Weighs(l.debts.moves, op, o) && Reversible(l.debts.moves, op, o);
      ReversalHere(l.debts, op, o, Rejected);
    }
  }
}
