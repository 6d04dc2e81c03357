/** When an entry can be cancelled, and lines that keep their document from ever being cancelled. */
module Cancellations {
  import opened Money
  import opened Tables
  import opened Wallets
  import opened Entries
  import opened EntryLedger
  import Merging
  import N = Nationals
  import NW = NationalWallets
  import opened Deployment

  // ---- paying an entry back ----------------------------------------------------------------

  /** What the lines received into wallet `w`. */
  function ReceivedInto(lines: seq<Line>, w: Id): int {
    if lines == [] then 0 else (if lines[0].wallet == w then lines[0].amount else 0) + ReceivedInto(lines[1..], w)
  }

  /** A line of at least a cent, on an active wallet that holds what all the lines brought into it. */
  predicate Payable(wallets: seq<Wallet>, lines: seq<Line>, i: nat)
    requires i < |lines|
  {
    var w := lines[i].wallet;
    && lines[i].amount >= 1
    && w < |wallets| && wallets[w].active && ReceivedInto(lines, w) <= wallets[w].balance
  }

  predicate AllPayable(wallets: seq<Wallet>, lines: seq<Line>) {
    forall i :: 0 <= i < |lines| ==> Payable(wallets, lines, i)
  }

  lemma {:induction false} ReceivedNonNegative(lines: seq<Line>, w: Id)
    requires forall i :: 0 <= i < |lines| ==> lines[i].amount >= 1
    ensures ReceivedInto(lines, w) >= 0
    ensures (forall i :: 0 <= i < |lines| ==> lines[i].wallet != w) ==> ReceivedInto(lines, w) == 0
  {
    if lines != [] {
      ReceivedNonNegative(lines[1..], w);
    }
  }

  function PaidOut(t: Till, line: Line, source: Source): Result<Till> {
    Moved(t, Order(line.wallet, Out, Decimal(line.amount)), source)
  }

  lemma FirstPaid(t: Till, line: Line, source: Source)
    ensures PaidOut(t, line, source).Ok? <==>
      line.amount >= 1 && line.wallet < |t.wallets| && t.wallets[line.wallet].active
      && line.amount <= t.wallets[line.wallet].balance
    ensures PaidOut(t, line, source).Ok? ==>
      PaidOut(t, line, source).value.wallets
      == t.wallets[line.wallet := t.wallets[line.wallet].(balance := t.wallets[line.wallet].balance - line.amount)]
  {
    RoundWholeCents(line.amount);
  }

  /** After the first line is paid, the others are payable exactly if all were before. */
  lemma PayableAfterFirst(wallets: seq<Wallet>, lines: seq<Line>)
    requires lines != [] && lines[0].wallet < |wallets| && wallets[lines[0].wallet].active
    requires 1 <= lines[0].amount <= wallets[lines[0].wallet].balance
    ensures var w := lines[0].wallet;
      var after := wallets[w := wallets[w].(balance := wallets[w].balance - lines[0].amount)];
      AllPayable(after, lines[1..]) <==> AllPayable(wallets, lines)
  {
    var w, rest := lines[0].wallet, lines[1..];
    var after := wallets[w := wallets[w].(balance := wallets[w].balance - lines[0].amount)];
    assert forall i :: 0 <= i < |rest| ==> rest[i] == lines[i + 1];
    forall i | 0 <= i < |rest| ensures Payable(after, rest, i) <==> Payable(wallets, lines, i + 1) {
    }
    if AllPayable(after, rest) {
      forall i | 0 <= i < |lines| ensures Payable(wallets, lines, i) {
        if i == 0 {
          FirstIsPayable(wallets, after, lines);
        } else {
          assert Payable(after, rest, i - 1);
        }
      }
    }
  }

  lemma FirstIsPayable(wallets: seq<Wallet>, after: seq<Wallet>, lines: seq<Line>)
    requires lines != [] && lines[0].wallet < |wallets| && wallets[lines[0].wallet].active
    requires 1 <= lines[0].amount <= wallets[lines[0].wallet].balance
    requires var w := lines[0].wallet;
      after == wallets[w := wallets[w].(balance := wallets[w].balance - lines[0].amount)]
    requires AllPayable(after, lines[1..])
    ensures Payable(wallets, lines, 0)
  {
    var w, rest := lines[0].wallet, lines[1..];
    forall i | 0 <= i < |rest| ensures rest[i].amount >= 1 {
      assert Payable(after, rest, i);
    }
    ReceivedNonNegative(rest, w);
    if i :| 0 <= i < |rest| && rest[i].wallet == w {
      assert Payable(after, rest, i);
    }
  }

  /** Lines that share a wallet are paid back one after the other, which works exactly when the wallet
      holds all of them together. */
  lemma {:induction false} PayBackGoesThrough(t: Till, lines: seq<Line>, source: Source)
    ensures MovedAll(t, PayBackOrders(lines), source).Ok? <==> AllPayable(t.wallets, lines)
    decreases |lines|
  {
    if lines != [] {
      assert PayBackOrders(lines)[1..] == PayBackOrders(lines[1..]);
      FirstPaid(t, lines[0], source);
      var first := PaidOut(t, lines[0], source);
      if first.Ok? {
        PayBackGoesThrough(first.value, lines[1..], source);
        PayableAfterFirst(t.wallets, lines);
      } else if AllPayable(t.wallets, lines) {
        assert Payable(t.wallets, lines, 0);
        forall i | 0 <= i < |lines| ensures lines[i].amount >= 1 {
          assert Payable(t.wallets, lines, i);
        }
        ReceivedNonNegative(lines[1..], lines[0].wallet);
      }
    }
  }

  lemma EntryCancelsIff(l: Ledger, company: Company, e: Id)
    requires e < |l.funds.entries|
    ensures EntryCancelledBy(l, company, e).Ok? <==>
      var entry := l.funds.entries[e];
      && entry.company == company && entry.mergedInto.None? && Mergeable(entry.status)
      && AllocationsOf(l.funds.allocations, e) == []
      && AllPayable(l.till.wallets, entry.lines)
  {
    PayBackGoesThrough(l.till, l.funds.entries[e].lines, EntryCancellation(e));
  }

  /** In every run an entry can be cancelled exactly when it is the company's own, not merged, not yet
      cancelled, without allocations, and each of its lines is at least a cent on an active wallet that
      still holds what the entry brought into it. */
  lemma EntryCancellationSucceedsIff(events: seq<Event>, company: Company, e: Id)
    requires e < |Exec(events).funds.entries|
    ensures var l := Exec(events); var entry := l.funds.entries[e];
      EntryCancelledBy(l, company, e).Ok? <==>
        && entry.company == company && entry.mergedInto.None? && !entry.status.EntryCancelled?
        && AllocationsOf(l.funds.allocations, e) == []
        && AllPayable(l.till.wallets, entry.lines)
  {
    var l := Exec(events);
    ReachableIsSound(events);
    assert EntrySound(l.till.wallets, l.funds, e);
    EntryCancelsIff(l, company, e);
  }

  // ---- lines stay as they are --------------------------------------------------------------

  /** No line of an entry or of a national operation is ever changed. */
  ghost predicate LinesKept(l: Ledger, m: Ledger) {
    && |l.funds.entries| <= |m.funds.entries|
    && (forall e :: 0 <= e < |l.funds.entries| ==> m.funds.entries[e].lines == l.funds.entries[e].lines)
    && |l.nationals| <= |m.nationals|
    && (forall n :: 0 <= n < |l.nationals| ==> m.nationals[n].lines == l.nationals[n].lines)
  }

  lemma EntryCallsKeepLines(l: Ledger, ev: Event)
    ensures Applied(l, ev).Ok? && (ev.CreateEntry? || ev.CancelEntry? || ev.MergeEntries?) ==>
      LinesKept(l, Step(l, ev))
  {
    if Applied(l, ev).Ok? && (ev.CreateEntry? || ev.CancelEntry? || ev.MergeEntries?) {
      if ev.MergeEntries? {
        Merging.MarkedEntries(l.funds.entries, ev.ids, |l.funds.entries|);
      }
    }
  }

  lemma CreationKeepsLines(l: Ledger, ev: Event)
    ensures ev.CreateTransfer? || ev.CreatePayment? ==> LinesKept(l, Step(l, ev))
  {
  }

  lemma ClosureKeepsLines(l: Ledger, ev: Event)
    ensures ev.CloseOperation? ==> LinesKept(l, Step(l, ev))
  {
  }

  lemma NationalCallsKeepLines(l: Ledger, ev: Event)
    ensures ev.CreateNational? || ev.CancelNational? ==> LinesKept(l, Step(l, ev))
  {
  }

  lemma StepKeepsLines(l: Ledger, ev: Event)
    ensures LinesKept(l, Step(l, ev))
  {
    hide Step, Applied;
    if Applied(l, ev).Err? {
      FailureChangesNothing(l, ev);
    } else if ev.CreateEntry? || ev.CancelEntry? || ev.MergeEntries? {
      EntryCallsKeepLines(l, ev);
    } else if ev.CloseOperation? {
      ClosureKeepsLines(l, ev);
    } else if ev.CreateTransfer? || ev.CreatePayment? {
      CreationKeepsLines(l, ev);
    } else if ev.CreateNational? || ev.CancelNational? {
      NationalCallsKeepLines(l, ev);
    } else {
      FundsUntouched(l, ev);
      NationalsUntouched(l, ev);
    }
  }

  lemma {:induction false} LinesPersist(events: seq<Event>, more: seq<Event>)
    ensures LinesKept(Exec(events), Exec(events + more))
    decreases |more|
  {
    hide Step, Applied;
    if more == [] {
      assert events + more == events;
    } else {
      var run := events + more;
      assert run[..|run| - 1] == events + more[..|more| - 1];
      LinesPersist(events, more[..|more| - 1]);
      StepKeepsLines(Exec(run[..|run| - 1]), run[|run| - 1]);
    }
  }

  /** A line that was rounded down to nothing keeps its entry, or its national operation, from ever being
      cancelled, whatever is called later. */
  lemma DeadLineBlocksForGood(events: seq<Event>, more: seq<Event>, company: Company, id: Id, i: nat)
    ensures var l, m := Exec(events), Exec(events + more);
      && (id < |l.funds.entries| && i < |l.funds.entries[id].lines| && l.funds.entries[id].lines[i].amount < 1 ==>
            EntryCancelledBy(m, company, id).Err?)
      && (id < |l.nationals| && i < |l.nationals[id].lines| && NW.DeadLine(l.nationals[id].lines[i]) ==>
            N.OperationReversed(m, company, id).Err?)
  {
    hide Exec;
    LinesPersist(events, more);
    var l, m := Exec(events), Exec(events + more);
    if id < |l.funds.entries| && i < |l.funds.entries[id].lines| && l.funds.entries[id].lines[i].amount < 1 {
      EntryCancelsIff(m, company, id);
      assert !Payable(m.till.wallets, m.funds.entries[id].lines, i);
    }
    if id < |l.nationals| && i < |l.nationals[id].lines| && NW.DeadLine(l.nationals[id].lines[i]) {
      NW.DeadLineBlocks(m, company, id, i);
    }
  }
}
