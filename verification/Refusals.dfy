/** How calls are refused: rows of other companies are not found, and decisions on transfers and payments
    belong to one party and one moment. */
module Refusals {
  import opened Tables
  import opened Money
  import opened Operations
  import OperationLedger
  import O = Openings
  import R = PrivateRates
  import E = Entries
  import EntryLedger
  import N = Nationals
  import P = Collaborations
  import SameClients
  import Wallets
  import opened Deployment

  predicate Party(p: Pacts, company: Company, c: Id) {
    c < |p.collabs| && company in {p.collabs[c].initiator, p.collabs[c].target}
  }

  /** An operation of that kind in a collaboration of the company. */
  predicate Sees(l: Ledger, company: Company, kind: OpKind, o: Id) {
    o < |l.desk.ops| && l.desk.ops[o].kind == kind && Party(l.pacts, company, l.desk.ops[o].collab)
  }

  /** The call acts on a row that is not known or does not concern the company. */
  predicate Foreign(l: Ledger, ev: Event) {
    match ev
    case SetWalletStatus(company, w, _) => !(w < |l.till.wallets| && l.till.wallets[w].company == company)
    case CancelEntry(company, e) => !(e < |l.funds.entries| && l.funds.entries[e].company == company)
    case CancelNational(company, n) => !(n < |l.nationals| && l.nationals[n].company == company)
    case SetActiveStatus(company, r, _) => !(r < |l.tariffs| && l.tariffs[r].slot.company == company)
    case CreateTransfer(company, q) => q.amount > 0.0 && !Party(l.pacts, company, q.collab)
    case CreatePayment(company, q) =>
      q.amount > 0.0 && !(q.entry.Some? && q.wallet.Some?) && !Party(l.pacts, company, q.collab)
    case ApproveTransfer(company, o, _) => !Sees(l, company, Transfer, o)
    case ApprovePayment(company, o) => !Sees(l, company, Payment, o)
    case CloseOperation(kind, company, o, _) => !Sees(l, company, kind, o)
    case AcceptCollaboration(company, c) => !Party(l.pacts, company, c)
    case RejectCollaboration(company, c) => !Party(l.pacts, company, c)
    case CancelCollaboration(company, c) => !Party(l.pacts, company, c)
    case UpdateCollaboration(company, c, _, rate) => (rate.Some? ==> rate.value > 0.0) && !Party(l.pacts, company, c)
    case ProposeRate(company, c, rate) => rate > 0.0 && !Party(l.pacts, company, c)
    case AcceptRate(company, c, _) => !Party(l.pacts, company, c)
    case RejectRate(company, c, _) => !Party(l.pacts, company, c)
    case _ => false
  }

  /** A company that acts on somebody else's row is told what it is told of a row that does not exist. */
  lemma ForeignIsNotFound(l: Ledger, ev: Event)
    ensures Foreign(l, ev) ==> Applied(l, ev) == Err(NotFound)
  {
  }

  /** Who decides: the other party approves and rejects, the creator cancels. */
  predicate Decides(op: Op, ev: Event) {
    if ev.CloseOperation? && ev.role.Creator? then ev.company == op.company else ev.company != op.company
  }

  /** Decisions on an operation that both parties can see: the wrong one has no permission, whatever its
      status, and the right one conflicts with any decision taken before. */
  lemma DecisionsAreRefused(events: seq<Event>, ev: Event, kind: OpKind)
    requires ev.ApproveTransfer? || ev.ApprovePayment? || ev.CloseOperation?
    requires kind == if ev.ApproveTransfer? then Transfer else if ev.ApprovePayment? then Payment else ev.kind
    requires Sees(Exec(events), ev.company, kind, ev.op)
    ensures var l := Exec(events); var op := l.desk.ops[ev.op];
      && (!Decides(op, ev) ==> Applied(l, ev) == Err(PermissionDenied))
      && (Decides(op, ev) && !op.status.Pending? ==> Applied(l, ev) == Err(Conflict))
  {
    var l := Exec(events);
    ReachableIsSound(events);
    assert OperationLedger.OpSound(l, ev.op);
    hide Exec, Sound, OperationLedger.OpSound;
  }

  // ---- which refusal -----------------------------------------------------------------------

  predicate OwnWallet(wallets: seq<Wallet>, company: Company, w: Id) {
    w < |wallets| && wallets[w].company == company
  }

  /** Of an entry's lines, foreign wallets are told first and wrong currencies next, whichever line has them;
      switched-off wallets come last. */
  lemma ReceptionIsRefused(
    l: Ledger, company: Company, name: Option<string>, phone: Option<string>, requests: seq<E.LineRequest>)
    requires requests != [] && forall i :: 0 <= i < |requests| ==> requests[i].amount > 0.0
    ensures var r, wallets := E.EntryCreated(l, company, name, phone, requests), l.till.wallets;
      if exists i :: 0 <= i < |requests| && !OwnWallet(wallets, company, requests[i].wallet) then r == Err(NotFound)
      else if exists i :: 0 <= i < |requests| && wallets[requests[i].wallet].currency != requests[i].currency
      then r == Err(Unbalanced)
      else if exists i :: 0 <= i < |requests| && !wallets[requests[i].wallet].active then r == Err(Conflict)
      else r.Ok?
  {
    forall i | 0 <= i < |requests| ensures requests[i].wallet in E.WalletIds(requests) {
      assert E.WalletIds(requests)[i] == requests[i].wallet;
    }
    E.RefusedIff(l.till, company, requests);
    if i :| 0 <= i < |requests| && !OwnWallet(l.till.wallets, company, requests[i].wallet) {
      assert !E.OwnWallet(l.till, company, requests[i].wallet);
    } else if i :| 0 <= i < |requests| && l.till.wallets[requests[i].wallet].currency != requests[i].currency {
      assert E.MismatchedLine(l.till, requests[i]);
    } else {
      ReceiptsOutcome(l.till, requests, EntryReceipt(|l.funds.entries|));
    }
  }

  lemma {:induction false} ReceiptsOutcome(t: Till, requests: seq<E.LineRequest>, source: Source)
    requires forall i :: 0 <= i < |requests| ==> requests[i].wallet < |t.wallets| && requests[i].amount > 0.0
    ensures var r := Wallets.MovedAll(t, E.ReceiptOrders(requests), source);
      if exists i :: 0 <= i < |requests| && !t.wallets[requests[i].wallet].active then r == Err(Conflict) else r.Ok?
    decreases |requests|
  {
    if requests != [] {
      assert E.ReceiptOrders(requests)[1..] == E.ReceiptOrders(requests[1..]);
      if t.wallets[requests[0].wallet].active {
        var first := Wallets.Moved(t, E.ReceiptOrders(requests)[0], source).value;
        ReceiptsOutcome(first, requests[1..], source);
        forall i | 0 < i < |requests| ensures requests[i] == requests[1..][i - 1] {}
        forall i | 0 <= i < |requests[1..]| ensures requests[1..][i] == requests[i + 1] {}
      }
    }
  }

  /** Entry `e` can be merged with `first`. */
  ghost predicate MergesWith(f: Funds, company: Company, first: Id, e: Id) {
    && SameClients.MayMerge(f, company, first) && SameClients.MayMerge(f, company, e)
    && SameClients.SameClient(f.entries[first], f.entries[e])
  }

  /** The sources of a merge are looked at one by one: the first that cannot be merged decides the refusal. */
  lemma MergeIsRefused(l: Ledger, company: Company, ids: seq<Id>, k: nat)
    requires |ids| >= 2 && E.Distinct(ids) && k < |ids|
    requires forall i :: 0 <= i < k ==> MergesWith(l.funds, company, ids[0], ids[i])
    ensures !(ids[k] < |l.funds.entries| && l.funds.entries[ids[k]].company == company) ==>
      E.EntriesMerged(l, company, ids) == Err(NotFound)
    ensures ids[k] < |l.funds.entries| && l.funds.entries[ids[k]].company == company
            && !MergesWith(l.funds, company, ids[0], ids[k]) ==>
      E.EntriesMerged(l, company, ids) == Err(Conflict)
  {
    hide SameClients.SameClient, E.ClientKey;
    forall i | 0 <= i <= k && SameClients.MayMerge(l.funds, company, ids[i])
      ensures MergesWith(l.funds, company, ids[0], ids[i]) <==>
        && SameClients.MayMerge(l.funds, company, ids[0])
        && E.ClientKey(l.funds.entries[ids[0]]) == E.ClientKey(l.funds.entries[ids[i]])
    {
      if SameClients.MayMerge(l.funds, company, ids[0]) {
        SameClients.KeysTellClients(l.funds.entries[ids[0]], l.funds.entries[ids[i]]);
      }
    }
    FirstRefusal(l.funds, company, ids, k, None);
  }

  lemma {:induction false} FirstRefusal(
    f: Funds, company: Company, ids: seq<Id>, k: nat, key: Option<(string, string)>)
    requires k < |ids|
    requires forall i :: 0 <= i < k ==>
      && SameClients.MayMerge(f, company, ids[i]) && ids[0] < |f.entries|
      && E.ClientKey(f.entries[ids[i]]) == if key.Some? then key else E.ClientKey(f.entries[ids[0]])
    ensures !E.Owned(f, company, ids[k]) ==> E.MergeRefusal(f, company, ids, key) == Some(NotFound)
    ensures E.Owned(f, company, ids[k])
            && (|| !SameClients.MayMerge(f, company, ids[k])
                || (key.Some? && E.ClientKey(f.entries[ids[k]]) != key)
                || (key.None? && k > 0 && ids[0] < |f.entries|
                    && E.ClientKey(f.entries[ids[k]]) != E.ClientKey(f.entries[ids[0]]))) ==>
      E.MergeRefusal(f, company, ids, key) == Some(Conflict)
    decreases k
  {
    hide E.ClientKey;
    if E.Owned(f, company, ids[0]) {
      SameClients.KeysTellClients(f.entries[ids[0]], f.entries[ids[0]]);
    }
    if k > 0 {
      assert forall i :: 0 <= i < |ids[1..]| ==> ids[1..][i] == ids[i + 1];
      FirstRefusal(f, company, ids[1..], k - 1, E.ClientKey(f.entries[ids[0]]));
    }
  }

  /** What keeps an active wallet from paying: the balance; what keeps any other: its status. A payout of less
      than a cent is refused in any case. */
  lemma PaymentIsRefused(t: Till, w: Id, cents: int, source: Source)
    requires w < |t.wallets|
    ensures var r := Wallets.Moved(t, Wallets.Order(w, Out, Decimal(cents)), source);
      if cents < 1 then r == Err(BadAmount)
      else if !t.wallets[w].active then r == Err(Conflict)
      else if t.wallets[w].balance < cents then r == Err(InsufficientBalance)
      else r.Ok?
  {
    RoundWholeCents(cents);
  }

  /** An approval by the party it belongs to, while the transfer is PENDING. */
  lemma TransferApprovalIsRefused(l: Ledger, company: Company, o: Id, w: Id)
    requires Sees(l, company, Transfer, o)
    requires company == OtherParty(l.pacts.collabs[l.desk.ops[o].collab], l.desk.ops[o].company)
    requires l.desk.ops[o].status.Pending?
    ensures var r, op := TransferApproved(l, company, o, w), l.desk.ops[o];
      if !OwnWallet(l.till.wallets, company, w) then r == Err(NotFound)
      else if l.till.wallets[w].currency != op.targetCurrency then r == Err(Conflict)
      else if op.converted < 1 then r == Err(BadAmount)
      else if !l.till.wallets[w].active then r == Err(Conflict)
      else if l.till.wallets[w].balance < op.converted then r == Err(InsufficientBalance)
      else r.Ok?
  {
    hide Wallets.Moved;
    if w < |l.till.wallets| {
      PaymentIsRefused(l.till, w, l.desk.ops[o].converted, OperationPayout(o));
    }
  }

  /** A private rate applies to the transfer, or the operation is a payment. */
  predicate RateKnown(l: Ledger, ev: Event)
    requires O.Opens(ev) && O.Agreed(l.pacts, ev.company, O.AskedBy(ev).collab)
  {
    ev.CreateTransfer? ==>
      var q := ev.transfer;
      var target := if q.target.Some? then q.target.value else l.pacts.collabs[q.collab].currency;
      exists i :: 0 <= i < |l.tariffs| && R.Applies(l.tariffs[i], ev.company, q.collab, q.mode, q.currency, target)
  }

  /** A new operation of a positive amount in an agreed collaboration, on an entry: a missing private rate
      conflicts, whatever the entry; a foreign entry is not found; one that is merged or used up, or
      whose client would have to be known, conflicts. */
  lemma OpeningIsRefused(l: Ledger, ev: Event)
    requires R.OneActive(l.tariffs)
    requires O.Opens(ev) && O.AskedBy(ev).amount > 0.0 && O.Agreed(l.pacts, ev.company, O.AskedBy(ev).collab)
    requires O.AskedBy(ev).entry.Some? && (ev.CreatePayment? ==> ev.payment.wallet.None?)
    ensures var r, e := Applied(l, ev), O.AskedBy(ev).entry.value;
      if !RateKnown(l, ev) then r == Err(Conflict)
      else if !(e < |l.funds.entries| && l.funds.entries[e].company == ev.company) then r == Err(NotFound)
      else if !O.Backed(l.funds, ev.company, O.AskedBy(ev)) then r == Err(Conflict)
      else r.Ok?
  {
    var q := O.AskedBy(ev);
    O.BackedIff(l.funds, ev.company, q);
    if ev.CreateTransfer? {
      var t := ev.transfer;
      var target := if t.target.Some? then t.target.value else l.pacts.collabs[t.collab].currency;
      R.NoRateIffNoneApplies(l.tariffs, ev.company, t.collab, t.mode, t.currency, target);
    }
    hide R.Lookup, R.Precedence, R.Applies, R.OneActive, O.Backed, Opened;
  }

  /** On a collaboration of its own a company that may not decide has no permission, whatever the status; one
      that may conflicts unless it is PENDING. On a proposal it is the other way round: a decided one conflicts
      for both, a pending one is not its proposer's to decide. */
  lemma NegotiationIsRefused(p: Pacts, company: Company, c: Id, r: Id)
    requires Party(p, company, c)
    ensures company != p.collabs[c].target ==>
      P.Accepted(p, company, c) == P.RejectedBy(p, company, c) == Err(PermissionDenied)
    ensures company != p.collabs[c].initiator ==>
      && P.CancelledBy(p, company, c) == Err(PermissionDenied)
      && P.Updated(p, company, c, None, None) == Err(PermissionDenied)
    ensures !p.collabs[c].status.CollabPending? ==>
      && (company == p.collabs[c].target ==>
            P.Accepted(p, company, c) == P.RejectedBy(p, company, c) == Err(Conflict))
      && (company == p.collabs[c].initiator ==>
            && P.CancelledBy(p, company, c) == Err(Conflict)
            && P.Updated(p, company, c, None, None) == Err(Conflict))
    ensures var accepted, rejected := P.ProposalAccepted(p, company, c, r), P.ProposalRejected(p, company, c, r);
      if !(r < |p.rates| && p.rates[r].collab == c) then accepted == rejected == Err(NotFound)
      else if !p.rates[r].status.Proposed? then accepted == rejected == Err(Conflict)
      else if p.rates[r].proposedBy == company then accepted == rejected == Err(PermissionDenied)
      else accepted.Ok? && rejected.Ok?
  {
  }

  /** A reversal of an own document: an entry that is merged, drawn on, used up or cancelled, and a national
      operation that is cancelled, conflict. */
  lemma ReversalIsRefused(l: Ledger, company: Company, id: Id)
    ensures E.Owned(l.funds, company, id)
            && (|| l.funds.entries[id].mergedInto.Some? || EntryLedger.HasAllocation(l.funds, id)
                || !(l.funds.entries[id].status.Unallocated? || l.funds.entries[id].status.PartiallyAllocated?)) ==>
      E.EntryCancelledBy(l, company, id) == Err(Conflict)
    ensures id < |l.nationals| && l.nationals[id].company == company && !l.nationals[id].validated ==>
      N.OperationReversed(l, company, id) == Err(Conflict)
  {
    EntryLedger.AllocationsOfSome(l.funds.allocations, id);
  }
}
