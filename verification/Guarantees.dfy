/** What the invariant means for a reader of any reachable ledger. */
module Guarantees {
  import opened Tables
  import W = Wallets
  import C = Clients
  import E = Entries
  import EL = EntryLedger
  import R = PrivateRates
  import P = Collaborations
  import O = Operations
  import F = FeeNotes
  import opened Deployment

  /** Every wallet balance is non-negative, equals IN minus OUT movements, and is what the wallet's last
      movement left, or zero. */
  lemma WalletsReplay(events: seq<Event>, w: Id)
    ensures var t := Exec(events).till;
      w < |t.wallets| ==> t.wallets[w].balance == W.Net(t.moves, w) == W.LeftBy(t.moves, w, |t.moves|) >= 0
  {
    ReachableIsSound(events);
    if w < |Exec(events).till.wallets| {
      W.BalanceIsLeft(Exec(events).till, w);
    }
  }

  /** Every wallet movement starts from the balance its wallet's previous one left, the first from zero,
      and leaves a balance that is not negative. */
  lemma WalletMovementsChain(events: seq<Event>, j: nat)
    ensures var t := Exec(events).till;
      j < |t.moves| ==>
        var m := t.moves[j];
        && m.before == W.LeftBy(t.moves, m.wallet, j)
        && m.after == m.before + W.Signed(m.direction, m.amount)
        && m.before >= 0 && m.after >= 0
  {
    ReachableIsSound(events);
    if j < |Exec(events).till.moves| {
      W.MovementsChain(Exec(events).till, j);
    }
  }

  /** The same for clients: every movement starts from what the client's previous one left, the first
      from zero, and the balance is what the last one left. */
  lemma ClientMovementsChain(events: seq<Event>, c: Id, j: nat)
    ensures var d := Exec(events).debts;
      && (j < |d.moves| ==>
            && d.moves[j].before == C.LeftBy(d.moves, d.moves[j].client, j)
            && d.moves[j].after == d.moves[j].before + d.moves[j].delta)
      && (c < |d.clients| ==> d.clients[c].balance == C.Owed(d.moves, c) == C.LeftBy(d.moves, c, |d.moves|))
  {
    var d := Exec(events).debts;
    ReachableIsSound(events);
    if j < |d.moves| {
      C.MovementsChain(d, j);
    }
    if c < |d.clients| {
      C.BalanceIsLeft(d, c);
    }
  }

  /** An entry is either CANCELLED without allocations or has the status a recomputation would give, which
      tells from the rows whether anything is allocated and whether anything is left; what it has
      available is never negative in any currency. */
  lemma EntriesStaySound(events: seq<Event>, e: Id)
    ensures var f := Exec(events).funds;
      e < |f.entries| ==>
        var entry := f.entries[e];
        && (|| (entry.status.EntryCancelled? && E.AllocationsOf(f.allocations, e) == [])
            || entry.status == E.RecomputeStatus(entry.lines, E.AllocationsOf(f.allocations, e)))
        && EL.StatusTells(f, e)
        && forall c :: E.Available(f, e, c) >= 0
  {
    var l := Exec(events);
    ReachableIsSound(events);
    assert e < |l.funds.entries| ==> EL.EntrySound(l.till.wallets, l.funds, e);
    hide Exec, Sound, EL.StatusTells;
    if e < |l.funds.entries| {
      EL.SoundStatusTells(l.till.wallets, l.funds, e);
    }
  }

  /** The current rate of every collaboration points to its last accepted row, if it has one; a
      collaboration has at most one pending proposal. */
  lemma CurrentRateIsLastAccepted(events: seq<Event>, c: Id)
    requires c < |Exec(events).pacts.collabs|
    ensures var p := Exec(events).pacts;
      && p.collabs[c].currentRate == P.LastAccepted(p.rates, c, |p.rates|)
      && forall i, j ::
           && 0 <= i < |p.rates| && p.rates[i].collab == c && p.rates[i].status.Proposed?
           && 0 <= j < |p.rates| && p.rates[j].collab == c && p.rates[j].status.Proposed?
           ==> i == j
  {
    var p := Exec(events).pacts;
    ReachableIsSound(events);
    forall i, j |
      && 0 <= i < |p.rates| && p.rates[i].collab == c && p.rates[i].status.Proposed?
      && 0 <= j < |p.rates| && p.rates[j].collab == c && p.rates[j].status.Proposed?
      ensures i == j
    {
      P.OnePendingProposal(p, i, j);
    }
  }

  /** Every accepted row was proposed by one company and accepted by the other; it starts from the rate
      of the row accepted before it and was decided later than that one; the first starts from none. */
  lemma NegotiationsStayBilateral(events: seq<Event>, r: Id)
    requires r < |Exec(events).pacts.rates| && Exec(events).pacts.rates[r].status.RateAccepted?
    ensures var p := Exec(events).pacts; var row := p.rates[r];
      var previous := P.LastAccepted(p.rates, row.collab, r);
      && row.collab < |p.collabs| && row.decidedBy.Some?
      && {row.proposedBy, row.decidedBy.value} == {p.collabs[row.collab].initiator, p.collabs[row.collab].target}
      && (previous.None? ==> row.oldRate.None?)
      && (previous.Some? ==>
            row.oldRate == Some(p.rates[previous.value].newRate)
            && P.Earlier(p.rates[previous.value].decidedAt, row.decidedAt))
  {
    var p := Exec(events).pacts;
    ReachableIsSound(events);
    assert P.Negotiated(p);
    hide Exec, Sound;
    var previous := P.LastAccepted(p.rates, p.rates[r].collab, r);
    P.AcceptedRatesChain(p, r, r);
    if previous.Some? {
      P.AcceptedRatesChain(p, previous.value, r);
    }
  }

  /** Two companies have at most one active collaboration. */
  lemma OneActivePair(events: seq<Event>, a: Company, b: Company, i: Id, j: Id)
    requires var p := Exec(events).pacts; i < |p.collabs| && j < |p.collabs|
    ensures var p := Exec(events).pacts;
      && P.Active(p.collabs[i]) && P.SamePair(p.collabs[i], a, b)
      && P.Active(p.collabs[j]) && P.SamePair(p.collabs[j], a, b)
      ==> i == j
  {
    var p := Exec(events).pacts;
    ReachableIsSound(events);
    assert P.Negotiated(p);
    hide Exec, Sound;
    if && P.Active(p.collabs[i]) && P.SamePair(p.collabs[i], a, b)
       && P.Active(p.collabs[j]) && P.SamePair(p.collabs[j], a, b)
    {
      P.OneActiveCollaboration(p, i, j, a, b);
    }
  }

  /** A transfer's private rate is that of the first occupied slot in order of precedence, whatever
      order the rows are read in, and there is none exactly when all six slots are empty. */
  lemma RateSearchIsPrecedence(
    events: seq<Event>, rows: seq<PrivateRate>, company: Company, collab: Id, mode: SendMode, currency: Currency,
    target: Currency)
    requires multiset(rows) == multiset(Exec(events).tariffs)
    ensures var rates := Exec(events).tariffs; var slots := R.Precedence(company, collab, mode, currency, target);
      && R.Lookup(rows, slots) == R.Lookup(rates, slots)
      && (R.Lookup(rates, slots).None? <==> forall k :: 0 <= k < 6 ==> !R.Occupied(rates, slots[k]))
      && (forall k, i ::
            && 0 <= k < 6 && 0 <= i < |rates| && rates[i].active && rates[i].slot == slots[k]
            && (forall j :: 0 <= j < k ==> !R.Occupied(rates, slots[j]))
            ==> R.Lookup(rates, slots) == Some(rates[i].rate))
  {
    var rates, slots := Exec(events).tariffs, R.Precedence(company, collab, mode, currency, target);
    ReachableIsSound(events);
    assert R.OneActive(rates);
    hide Exec, Sound, R.Precedence, R.OneActive, R.Occupied;
    R.LookupIgnoresRowOrder(rates, rows, slots);
    R.LookupTakesFirstOccupied(rates, slots);
  }

  // ---- the rate an amount is converted at --------------------------------------------------

  /** A payment is converted at the last rate both companies accepted. */
  lemma PaymentConvertsAtAgreedRate(events: seq<Event>, company: Company, q: O.PaymentRequest) returns (r: Id)
    requires O.PaymentOpened(Exec(events), company, q).Ok?
    ensures var p := Exec(events).pacts;
      && r < |p.rates| && q.collab < |p.collabs|
      && p.rates[r].collab == q.collab && p.rates[r].status.RateAccepted? && p.rates[r].decidedBy.Some?
      && {p.rates[r].proposedBy, p.rates[r].decidedBy.value}
         == {p.collabs[q.collab].initiator, p.collabs[q.collab].target}
      && (forall k :: r < k < |p.rates| && p.rates[k].collab == q.collab ==> !p.rates[k].status.RateAccepted?)
    ensures var l := Exec(events); var ops := O.PaymentOpened(l, company, q).value.desk.ops;
      && |ops| == |l.desk.ops| + 1
      && var op, target := ops[|l.desk.ops|], l.pacts.collabs[q.collab].currency;
         && op.currency == q.currency && op.targetCurrency == target
         && O.ConvertsTo(q.amount, op.amount, q.currency, target, l.pacts.rates[r].newRate, op.converted)
  {
    var p := Exec(events).pacts;
    ReachableIsSound(events);
    assert P.Negotiated(p);
    O.PaymentConversion(Exec(events), company, q);
    hide Exec, Sound, O.PaymentOpened, O.ConvertsTo;
    r := p.collabs[q.collab].currentRate.value;
    assert P.LastAccepted(p.rates, q.collab, |p.rates|) == Some(r);
    P.AcceptedRatesChain(p, r, r);
  }

  /** A transfer is converted at the rate of the private row that outranks every other that applies. */
  lemma TransferConvertsAtPrecedence(events: seq<Event>, company: Company, q: O.TransferRequest)
    returns (target: Currency, i: Id)
    requires O.TransferOpened(Exec(events), company, q).Ok?
    ensures q.collab < |Exec(events).pacts.collabs|
    ensures target == if q.target.Some? then q.target.value else Exec(events).pacts.collabs[q.collab].currency
    ensures var rates := Exec(events).tariffs;
      && i < |rates| && R.Applies(rates[i], company, q.collab, q.mode, q.currency, target)
      && forall j :: 0 <= j < |rates| && j != i && R.Applies(rates[j], company, q.collab, q.mode, q.currency, target)
           ==> R.Outranks(rates[i].slot, rates[j].slot)
    ensures var l := Exec(events); var ops := O.TransferOpened(l, company, q).value.desk.ops;
      && |ops| == |l.desk.ops| + 1
      && var op := ops[|l.desk.ops|];
         && op.currency == q.currency && op.targetCurrency == target
         && O.ConvertsTo(q.amount, op.amount, q.currency, target, l.tariffs[i].rate, op.converted)
  {
    var l := Exec(events);
    ReachableIsSound(events);
    assert R.OneActive(l.tariffs);
    target := if q.target.Some? then q.target.value else l.pacts.collabs[q.collab].currency;
    O.TransferConversion(l, company, q, target);
    hide Exec, Sound, O.TransferOpened, O.ConvertsTo, R.Precedence, R.Lookup, R.Applies, R.Outranks;
    i := R.MostSpecificRowWins(l.tariffs, company, q.collab, q.mode, q.currency, target);
  }

  // ---- fees --------------------------------------------------------------------------------

  predicate Disposed(op: Op) {
    op.split.reliquat > 0 ==> !op.action.KeepUnallocated?
  }

  lemma OpeningDisposes(l: Ledger, ev: Event)
    ensures var ops := Step(l, ev).desk.ops;
      Applied(l, ev).Ok? && (ev.CreateTransfer? || ev.CreatePayment?) ==>
        |ops| == |l.desk.ops| + 1 && Disposed(ops[|l.desk.ops|])
  {
  }

  /** An operation has a reliquat only if its creator chose what becomes of it. */
  lemma {:induction false} ReliquatsAreDisposed(events: seq<Event>)
    ensures forall o :: 0 <= o < |Exec(events).desk.ops| ==> Disposed(Exec(events).desk.ops[o])
  {
    if events != [] {
      hide Step, Applied;
      var before, ev := Exec(events[..|events| - 1]), events[|events| - 1];
      ReliquatsAreDisposed(events[..|events| - 1]);
      StepExtendsOps(before, ev);
      if Applied(before, ev).Ok? && (ev.CreateTransfer? || ev.CreatePayment?) {
        OpeningDisposes(before, ev);
      }
    }
  }

  /** Whatever calls were made, the fees report of a company over the notes they left lists its own fee
      reliquats of the period, each once and the newest first, with their exact amounts and currencies. */
  lemma FeesReportIsExact(events: seq<Event>, days: seq<int>, company: Company, from: Option<int>, to: Option<int>)
    returns (rows: seq<F.FeeRow>, ids: seq<Id>)
    requires |days| == |Exec(events).desk.ops|
    ensures F.FeesReport(F.ListByCompany(F.AllLogs(Exec(events).desk.ops, days), company), from, to) == Ok(rows)
    ensures forall o: Id :: o in ids <==> F.IsFee(Exec(events).desk.ops, days, o, company, from, to)
    ensures forall j, k :: 0 <= j < k < |ids| ==> ids[j] > ids[k]
    ensures |rows| == |ids| && forall k :: 0 <= k < |ids| ==>
      ids[k] < |Exec(events).desk.ops| && rows[k] == F.FeeRowOf(Exec(events).desk.ops, days, ids[k])
  {
    hide Exec;
    var ops := Exec(events).desk.ops;
    ReliquatsAreDisposed(events);
    forall o | 0 <= o < |ops| && ops[o].split.reliquat > 0 ensures !ops[o].action.KeepUnallocated? {
      assert Disposed(ops[o]);
    }
    F.ReportListsFees(ops, days, company, from, to);
    rows := F.Fees(ops, days, company, from, to);
    ids := F.FeesAreThoseOf(ops, days, company, from, to);
  }
}
