/** What creating and cancelling an entry does to wallets, and that the one undoes the other. */
module Receipts {
  import opened Money
  import opened Tables
  import opened Wallets
  import opened Entries
  import opened EntryLedger
  import opened Cancellations
  import opened Deployment

  /** The stored lines name the wallets and currencies asked for, and the amounts to the nearest cent. */
  predicate LinesAsAsked(requests: seq<LineRequest>, lines: seq<Line>) {
    && |lines| == |requests|
    && forall i :: 0 <= i < |lines| ==>
      && lines[i].wallet == requests[i].wallet && lines[i].currency == requests[i].currency
      && Nearest(lines[i].amount, requests[i].amount)
  }

  /** An active wallet of the company, in the currency of the line. */
  predicate Receives(wallets: seq<Wallet>, company: Company, request: LineRequest) {
    && request.wallet < |wallets| && wallets[request.wallet].company == company
    && wallets[request.wallet].active && wallets[request.wallet].currency == request.currency
    && request.amount > 0.0
  }

  lemma {:induction false} EffectOfReceipts(requests: seq<LineRequest>, w: Id)
    ensures Effect(ReceiptOrders(requests), w) == ReceivedInto(StoredLines(requests), w)
  {
    if requests != [] {
      assert ReceiptOrders(requests)[1..] == ReceiptOrders(requests[1..]);
      assert StoredLines(requests)[1..] == StoredLines(requests[1..]);
      EffectOfReceipts(requests[1..], w);
    }
  }

  lemma {:induction false} EffectOfPayBack(lines: seq<Line>, w: Id)
    ensures Effect(PayBackOrders(lines), w) == -ReceivedInto(lines, w)
  {
    if lines != [] {
      RoundWholeCents(lines[0].amount);
      assert PayBackOrders(lines)[1..] == PayBackOrders(lines[1..]);
      EffectOfPayBack(lines[1..], w);
    }
  }

  lemma StoredAsAsked(requests: seq<LineRequest>)
    ensures LinesAsAsked(requests, StoredLines(requests))
  {
    forall i | 0 <= i < |requests| ensures Nearest(StoredLines(requests)[i].amount, requests[i].amount) {
      RoundIsNearest(requests[i].amount);
    }
  }

  lemma {:induction false} ReceiptsGoThrough(t: Till, requests: seq<LineRequest>, source: Source)
    requires forall i :: 0 <= i < |requests| ==> requests[i].wallet < |t.wallets| && requests[i].amount > 0.0
    ensures MovedAll(t, ReceiptOrders(requests), source).Ok? <==>
      forall i :: 0 <= i < |requests| ==> t.wallets[requests[i].wallet].active
    decreases |requests|
  {
    if requests != [] {
      assert ReceiptOrders(requests)[1..] == ReceiptOrders(requests[1..]);
      if t.wallets[requests[0].wallet].active {
        var first := Moved(t, ReceiptOrders(requests)[0], source).value;
        ReceiptsGoThrough(first, requests[1..], source);
        forall i | 0 < i < |requests| ensures requests[i] == requests[1..][i - 1] {}
      }
    }
  }

  /** An entry is received exactly when it has lines, each of a positive amount into an active wallet of the
      company in the line's currency. */
  lemma ReceptionSucceedsIff(
    l: Ledger, company: Company, name: Option<string>, phone: Option<string>, requests: seq<LineRequest>)
    ensures EntryCreated(l, company, name, phone, requests).Ok? <==>
      requests != [] && forall i :: 0 <= i < |requests| ==> Receives(l.till.wallets, company, requests[i])
  {
    if forall i :: 0 <= i < |requests| ==> requests[i].wallet < |l.till.wallets| && requests[i].amount > 0.0 {
      ReceiptsGoThrough(l.till, requests, EntryReceipt(|l.funds.entries|));
    }
    hide MovedAll, Refusal;
    RefusedIff(l.till, company, requests);
    forall i | 0 <= i < |requests|
      ensures Receives(l.till.wallets, company, requests[i]) <==>
        && requests[i].amount > 0.0 && OwnWallet(l.till, company, requests[i].wallet)
        && !MismatchedLine(l.till, requests[i]) && l.till.wallets[requests[i].wallet].active
    {
    }
  }

  /** It adds one unallocated entry with the client and the lines asked for, and every wallet receives what
      the lines into it say. */
  lemma ReceptionFillsWallets(
    l: Ledger, company: Company, name: Option<string>, phone: Option<string>, requests: seq<LineRequest>)
    requires EntryCreated(l, company, name, phone, requests).Ok?
    ensures var m, e := EntryCreated(l, company, name, phone, requests).value, |l.funds.entries|;
      && m == l.(till := m.till, funds := m.funds) && m.funds.allocations == l.funds.allocations
      && |m.funds.entries| == e + 1 && m.funds.entries[..e] == l.funds.entries
      && var entry := m.funds.entries[e];
         && entry == Entry(company, name, phone, Unallocated, None, entry.lines)
         && LinesAsAsked(requests, entry.lines)
         && |m.till.wallets| == |l.till.wallets|
         && forall w :: 0 <= w < |l.till.wallets| ==>
              m.till.wallets[w]
              == l.till.wallets[w].(balance := l.till.wallets[w].balance + ReceivedInto(entry.lines, w))
  {
    MovedAllEffect(l.till, ReceiptOrders(requests), EntryReceipt(|l.funds.entries|));
    StoredAsAsked(requests);
    forall w ensures Effect(ReceiptOrders(requests), w) == ReceivedInto(StoredLines(requests), w) {
      EffectOfReceipts(requests, w);
    }
    hide LinesAsAsked, ReceivedInto;
  }

  /** A cancellation marks the entry, and every wallet pays back what the lines into it say. */
  lemma CancellationEmptiesWallets(l: Ledger, company: Company, e: Id)
    requires EntryCancelledBy(l, company, e).Ok?
    ensures e < |l.funds.entries|
    ensures var m, entry := EntryCancelledBy(l, company, e).value, l.funds.entries[e];
      && m == l.(till := m.till,
                 funds := l.funds.(entries := l.funds.entries[e := entry.(status := EntryCancelled)]))
      && |m.till.wallets| == |l.till.wallets|
      && forall w :: 0 <= w < |l.till.wallets| ==>
           m.till.wallets[w]
           == l.till.wallets[w].(balance := l.till.wallets[w].balance - ReceivedInto(entry.lines, w))
  {
    var lines := l.funds.entries[e].lines;
    MovedAllEffect(l.till, PayBackOrders(lines), EntryCancellation(e));
    forall w ensures Effect(PayBackOrders(lines), w) == -ReceivedInto(lines, w) {
      EffectOfPayBack(lines, w);
    }
    hide ReceivedInto;
  }

  lemma ReceiptIsUndone(
    l: Ledger, company: Company, name: Option<string>, phone: Option<string>, requests: seq<LineRequest>)
    requires EntryCreated(l, company, name, phone, requests).Ok?
    requires AllocationsOf(l.funds.allocations, |l.funds.entries|) == []
    requires forall w :: 0 <= w < |l.till.wallets| ==> l.till.wallets[w].balance >= 0
    ensures var m, e := EntryCreated(l, company, name, phone, requests).value, |l.funds.entries|;
      && |m.funds.entries| == e + 1
      && (EntryCancelledBy(m, company, e).Ok? <==> forall i :: 0 <= i < |requests| ==> requests[i].amount >= 0.005)
      && (EntryCancelledBy(m, company, e).Ok? ==> EntryCancelledBy(m, company, e).value.till.wallets == l.till.wallets)
  {
    var m, e := EntryCreated(l, company, name, phone, requests).value, |l.funds.entries|;
    ReceptionFillsWallets(l, company, name, phone, requests);
    ReceptionSucceedsIff(l, company, name, phone, requests);
    EntryCancelsIff(m, company, e);
    hide EntryCreated, EntryCancelledBy, Receives, LinesAsAsked, ReceivedInto, AllPayable;
    PayableAtOnce(l, m, company, requests, m.funds.entries[e].lines);
    if EntryCancelledBy(m, company, e).Ok? {
      CancellationRestores(l, m, company, e);
    }
  }

  lemma CancellationRestores(l: Ledger, m: Ledger, company: Company, e: Id)
    requires EntryCancelledBy(m, company, e).Ok? && e < |m.funds.entries| && |m.till.wallets| == |l.till.wallets|
    requires forall w :: 0 <= w < |l.till.wallets| ==>
      m.till.wallets[w]
      == l.till.wallets[w].(balance := l.till.wallets[w].balance + ReceivedInto(m.funds.entries[e].lines, w))
    ensures EntryCancelledBy(m, company, e).value.till.wallets == l.till.wallets
  {
    hide EntryCancelledBy, ReceivedInto;
    CancellationEmptiesWallets(m, company, e);
  }

  /** Round trip: an entry just received can be cancelled at once, unless a line rounds to nothing, and
      then every wallet is as it was. */
  lemma ReceivingThenCancelling(
    events: seq<Event>, company: Company, name: Option<string>, phone: Option<string>, requests: seq<LineRequest>)
    requires EntryCreated(Exec(events), company, name, phone, requests).Ok?
    ensures var l := Exec(events);
      var m, e := EntryCreated(l, company, name, phone, requests).value, |l.funds.entries|;
      && |m.funds.entries| == e + 1
      && (EntryCancelledBy(m, company, e).Ok? <==> forall i :: 0 <= i < |requests| ==> requests[i].amount >= 0.005)
      && (EntryCancelledBy(m, company, e).Ok? ==> EntryCancelledBy(m, company, e).value.till.wallets == l.till.wallets)
  {
    hide Exec, Sound, EntryCreated, EntryCancelledBy;
    ReachableIsSound(events);
    NothingAllocated(Exec(events));
    ReceiptIsUndone(Exec(events), company, name, phone, requests);
  }

  lemma NothingAllocated(l: Ledger)
    requires Sound(l)
    ensures AllocationsOf(l.funds.allocations, |l.funds.entries|) == []
    ensures forall w :: 0 <= w < |l.till.wallets| ==> l.till.wallets[w].balance >= 0
  {
    forall i | 0 <= i < |l.funds.allocations| ensures l.funds.allocations[i].entry != |l.funds.entries| {
      assert AllocationSound(l.funds, l.desk.ops, l.funds.allocations[i]);
    }
    AllocationsOfNone(l.funds.allocations, |l.funds.entries|);
  }

  lemma PayableAtOnce(l: Ledger, m: Ledger, company: Company, requests: seq<LineRequest>, lines: seq<Line>)
    requires forall i :: 0 <= i < |requests| ==> Receives(l.till.wallets, company, requests[i])
    requires forall w :: 0 <= w < |l.till.wallets| ==> l.till.wallets[w].balance >= 0
    requires LinesAsAsked(requests, lines) && |m.till.wallets| == |l.till.wallets|
    requires forall w :: 0 <= w < |l.till.wallets| ==>
      m.till.wallets[w] == l.till.wallets[w].(balance := l.till.wallets[w].balance + ReceivedInto(lines, w))
    ensures AllPayable(m.till.wallets, lines) <==> forall i :: 0 <= i < |requests| ==> requests[i].amount >= 0.005
  {
    hide ReceivedInto;
    forall i | 0 <= i < |lines| ensures Payable(m.till.wallets, lines, i) <==> requests[i].amount >= 0.005 {
      assert Receives(l.till.wallets, company, requests[i]);
    }
    if forall i :: 0 <= i < |requests| ==> requests[i].amount >= 0.005 {
      forall i | 0 <= i < |lines| ensures Payable(m.till.wallets, lines, i) {
        assert requests[i].amount >= 0.005;
      }
    }
  }
}
