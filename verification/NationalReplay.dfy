/** In every reachable deployment the movements of a national operation are its lines, so that a
    chain of reversals nets on the wallets to what its lines net to. */
module NationalReplay {
  import opened Money
  import opened Tables
  import opened Wallets
  import opened Nationals
  import opened NationalWallets
  import Entries
  import O = Operations
  import opened Deployment

  /** What the movements of national operation `n` did to wallet `w`. */
  function NetOf(moves: seq<WalletMove>, n: Id, w: Id): int {
    if moves == [] then 0
    else
      var m := moves[|moves| - 1];
      NetOf(moves[..|moves| - 1], n, w)
      + if m.source == NationalOperation(n) && m.wallet == w then Signed(m.direction, m.amount) else 0
  }

  /** No movement was made for a national operation that does not exist yet. */
  predicate SourcesKnown(l: Ledger) {
    forall i :: 0 <= i < |l.till.moves| && l.till.moves[i].source.NationalOperation? ==>
      l.till.moves[i].source.national < |l.nationals|
  }

  ghost predicate NationalSound(t: Till, national: National, n: Id) {
    && AllStored(national.lines) && ApartLines(national.lines)
    && (forall i :: 0 <= i < |national.lines| ==> national.lines[i].wallet < |t.wallets|)
    && (forall w :: NetOf(t.moves, n, w) == LineEffect(national.lines, w))
  }

  ghost predicate NationalsSound(l: Ledger) {
    SourcesKnown(l) && forall n :: 0 <= n < |l.nationals| ==> NationalSound(l.till, l.nationals[n], n)
  }

  /** `b` follows `a` by movements made for `source` only. */
  ghost predicate Follows(a: Till, b: Till, source: Source) {
    && |a.wallets| <= |b.wallets| && |a.moves| <= |b.moves| && b.moves[..|a.moves|] == a.moves
    && (forall i :: |a.moves| <= i < |b.moves| ==> b.moves[i].source == source)
  }

  lemma MovedAllFollows(t: Till, orders: seq<Order>, source: Source)
    requires MovedAll(t, orders, source).Ok?
    ensures Follows(t, MovedAll(t, orders, source).value, source)
  {
    var after := MovedAll(t, orders, source).value;
    MovedAllEffect(t, orders, source);
    forall i | |t.moves| <= i < |after.moves| ensures after.moves[i].source == source {
      assert Recorded(t, orders, source, after, i - |t.moves|);
    }
  }

  lemma {:induction false} NetSkipsOthers(moves: seq<WalletMove>, k: nat, n: Id, w: Id)
    requires k <= |moves| && forall i :: k <= i < |moves| ==> moves[i].source != NationalOperation(n)
    ensures NetOf(moves, n, w) == NetOf(moves[..k], n, w)
    decreases |moves|
  {
    if k < |moves| {
      assert moves[..|moves| - 1][..k] == moves[..k];
      NetSkipsOthers(moves[..|moves| - 1], k, n, w);
    } else {
      assert moves[..k] == moves;
    }
  }

  lemma {:induction false} NetOfBatch(t: Till, orders: seq<Order>, n: Id, w: Id)
    requires MovedAll(t, orders, NationalOperation(n)).Ok?
    ensures var after := MovedAll(t, orders, NationalOperation(n)).value;
      NetOf(after.moves, n, w) == NetOf(t.moves, n, w) + Effect(orders, w)
    decreases |orders|
  {
    if orders != [] {
      var first := Moved(t, orders[0], NationalOperation(n)).value;
      assert first.moves[..|t.moves|] == t.moves;
      NetOfBatch(first, orders[1..], n, w);
    }
  }

  /** Movements made for something else leave every national operation's own movements alone. */
  lemma OthersKeep(l: Ledger, m: Ledger, source: Source)
    requires NationalsSound(l) && m.nationals == l.nationals && Follows(l.till, m.till, source)
    requires !source.NationalOperation?
    ensures NationalsSound(m)
  {
    forall n | 0 <= n < |m.nationals| ensures NationalSound(m.till, m.nationals[n], n) {
      assert NationalSound(l.till, l.nationals[n], n);
      forall w ensures NetOf(m.till.moves, n, w) == NetOf(l.till.moves, n, w) {
        NetSkipsOthers(m.till.moves, |l.till.moves|, n, w);
      }
    }
    forall i | 0 <= i < |m.till.moves| && m.till.moves[i].source.NationalOperation?
      ensures m.till.moves[i].source.national < |m.nationals|
    {
      assert m.till.moves[i] == l.till.moves[i];
    }
  }

  /** A new operation comes with the movements made for its lines; the old ones keep their lines. */
  lemma AdditionKeeps(l: Ledger, m: Ledger, lines: seq<LineRequest>)
    requires NationalsSound(l) && (forall i :: 0 <= i < |lines| ==> Directed(lines[i]))
    requires DistinctWallets(lines)
    requires var n := |l.nationals|;
      && MovedAll(l.till, OrdersOf(lines), NationalOperation(n)) == Ok(m.till)
      && |m.nationals| == n + 1 && m.nationals[n].lines == RowsOf(lines, m.till.moves[|l.till.moves|..])
      && forall k :: 0 <= k < n ==> m.nationals[k].lines == l.nationals[k].lines
    ensures NationalsSound(m)
  {
    var n, moves := |l.nationals|, m.till.moves[|l.till.moves|..];
    MovedAllFollows(l.till, OrdersOf(lines), NationalOperation(n));
    forall k | 0 <= k < n ensures NationalSound(m.till, m.nationals[k], k) {
      assert NationalSound(l.till, l.nationals[k], k);
      forall w ensures NetOf(m.till.moves, k, w) == NetOf(l.till.moves, k, w) {
        NetSkipsOthers(m.till.moves, |l.till.moves|, k, w);
      }
    }
    assert NationalSound(m.till, m.nationals[n], n) by {
      RowsStored(lines, moves);
      WalletsOfBatch(l.till, lines, n);
      forall w ensures NetOf(m.till.moves, n, w) == LineEffect(m.nationals[n].lines, w) {
        NetSkipsOthers(l.till.moves, 0, n, w);
        NetOfBatch(l.till, OrdersOf(lines), n, w);
        OrdersEffect(lines, moves, w);
      }
    }
    assert SourcesKnown(m);
  }

  lemma WalletsOfBatch(t: Till, lines: seq<LineRequest>, n: Id)
    requires MovedAll(t, OrdersOf(lines), NationalOperation(n)).Ok?
    ensures forall i :: 0 <= i < |lines| ==> lines[i].wallet < |t.wallets|
  {
    var orders, source := OrdersOf(lines), NationalOperation(n);
    MovedAllEffect(t, orders, source);
    forall i | 0 <= i < |lines| ensures lines[i].wallet < |t.wallets| {
      assert Recorded(t, orders, source, MovedAll(t, orders, source).value, i);
    }
  }

  // ---- the calls that move wallets ---------------------------------------------------------

  lemma CreationKeeps(l: Ledger, company: Company, q: Request)
    requires NationalsSound(l) && OperationCreated(l, company, q).Ok?
    ensures NationalsSound(OperationCreated(l, company, q).value)
  {
    forall i | 0 <= i < |q.lines| ensures Directed(q.lines[i]) {
      assert SingleDirection(q.lines[i]);
    }
    AdditionKeeps(l, OperationCreated(l, company, q).value, q.lines);
  }

  lemma CancellationKeeps(l: Ledger, company: Company, n: Id)
    requires NationalsSound(l) && OperationReversed(l, company, n).Ok?
    ensures NationalsSound(OperationReversed(l, company, n).value)
  {
    assert NationalSound(l.till, l.nationals[n], n);
    MirroredDirected(l.nationals[n].lines);
    AdditionKeeps(l, OperationReversed(l, company, n).value, MirroredAll(l.nationals[n].lines));
  }

  lemma WalletCallsKeep(l: Ledger, ev: Event)
    ensures NationalsSound(l) && Applied(l, ev).Ok? && (ev.CreateWallet? || ev.SetWalletStatus?) ==>
      NationalsSound(Step(l, ev))
  {
    if NationalsSound(l) && Applied(l, ev).Ok? && (ev.CreateWallet? || ev.SetWalletStatus?) {
      OthersKeep(l, Step(l, ev), WalletInitial(|l.till.wallets|));
    }
  }

  lemma EntryCallsKeep(l: Ledger, ev: Event)
    ensures NationalsSound(l) && Applied(l, ev).Ok? && (ev.CreateEntry? || ev.CancelEntry?) ==>
      NationalsSound(Step(l, ev))
  {
    if NationalsSound(l) && Applied(l, ev).Ok? && (ev.CreateEntry? || ev.CancelEntry?) {
      if ev.CreateEntry? {
        MovedAllFollows(l.till, Entries.ReceiptOrders(ev.lines), EntryReceipt(|l.funds.entries|));
        OthersKeep(l, Step(l, ev), EntryReceipt(|l.funds.entries|));
      } else {
        MovedAllFollows(l.till, Entries.PayBackOrders(l.funds.entries[ev.entry].lines), EntryCancellation(ev.entry));
        OthersKeep(l, Step(l, ev), EntryCancellation(ev.entry));
      }
    }
  }

  lemma ApprovalsKeep(l: Ledger, ev: Event)
    ensures NationalsSound(l) && Applied(l, ev).Ok? && (ev.ApproveTransfer? || ev.ApprovePayment?) ==>
      NationalsSound(Step(l, ev))
  {
    hide NationalsSound;
    if NationalsSound(l) && Applied(l, ev).Ok? && (ev.ApproveTransfer? || ev.ApprovePayment?) {
      OthersKeep(l, Step(l, ev), OperationPayout(ev.op));
    }
  }

  lemma NationalCallsKeep(l: Ledger, ev: Event)
    ensures NationalsSound(l) && Applied(l, ev).Ok? && (ev.CreateNational? || ev.CancelNational?) ==>
      NationalsSound(Step(l, ev))
  {
    hide NationalsSound;
    if NationalsSound(l) && Applied(l, ev).Ok? && (ev.CreateNational? || ev.CancelNational?) {
      if ev.CreateNational? {
        CreationKeeps(l, ev.company, ev.national);
      } else {
        CancellationKeeps(l, ev.company, ev.n);
      }
    }
  }

  lemma StepKeepsNationals(l: Ledger, ev: Event)
    requires NationalsSound(l)
    ensures NationalsSound(Step(l, ev))
  {
    hide Step, Applied;
    if Applied(l, ev).Err? {
      FailureChangesNothing(l, ev);
    } else if ev.CreateNational? || ev.CancelNational? {
      NationalCallsKeep(l, ev);
    } else if ev.CreateWallet? || ev.SetWalletStatus? {
      WalletCallsKeep(l, ev);
    } else if ev.CreateEntry? || ev.CancelEntry? {
      EntryCallsKeep(l, ev);
    } else if ev.ApproveTransfer? || ev.ApprovePayment? {
      ApprovalsKeep(l, ev);
    } else {
      TillUntouched(l, ev);
      NationalsUntouched(l, ev);
    }
  }

  /** In every reachable deployment the movements of every national operation, wallet by wallet, are
      what its stored lines say. */
  lemma {:induction false} NationalMovementsAreLines(events: seq<Event>)
    ensures NationalsSound(Exec(events))
  {
    if events != [] {
      hide NationalsSound, Step;
      NationalMovementsAreLines(events[..|events| - 1]);
      StepKeepsNationals(Exec(events[..|events| - 1]), events[|events| - 1]);
    }
  }

  // ---- chains on the wallets ---------------------------------------------------------------

  /** What all the movements of a chain did to wallet `w`. */
  function ChainNet(moves: seq<WalletMove>, chain: seq<Id>, w: Id): int {
    if chain == [] then 0 else NetOf(moves, chain[0], w) + ChainNet(moves, chain[1..], w)
  }

  lemma {:induction false} ChainNetIsEffect(l: Ledger, chain: seq<Id>, w: Id)
    requires NationalsSound(l) && forall k :: 0 <= k < |chain| ==> chain[k] < |l.nationals|
    ensures ChainNet(l.till.moves, chain, w) == ChainEffect(l.nationals, chain, w)
  {
    if chain != [] {
      assert NationalSound(l.till, l.nationals[chain[0]], chain[0]);
      ChainNetIsEffect(l, chain[1..], w);
    }
  }

  /** In every reachable deployment an operation and the reversals that followed it form a linear
      chain whose last member alone is VALIDATED; together they left every wallet with the original
      effect after an even number of cancellations, and with nothing after an odd one. */
  lemma ChainsNetOnWallets(events: seq<Event>, n: Id, w: Id)
    requires n < |Exec(events).nationals|
    ensures var l := Exec(events);
      && NationalBook(l.nationals)
      && var chain := Chain(l.nationals, n);
         && Linear(l.nationals, chain)
         && ChainNet(l.till.moves, chain, w) == if |chain| % 2 == 1 then NetOf(l.till.moves, n, w) else 0
  {
    var l := Exec(events);
    ReachableIsSound(events);
    NationalMovementsAreLines(events);
    ReversalChain(l.nationals, n, w);
    ChainNetIsEffect(l, Chain(l.nationals, n), w);
    assert NationalSound(l.till, l.nationals[n], n);
  }

  /** In every reachable deployment a company can cancel operation `n` exactly when it is its own and
      VALIDATED and each line can be returned. */
  lemma CancellationSucceedsIff(events: seq<Event>, company: Company, n: Id)
    requires n < |Exec(events).nationals|
    ensures var l := Exec(events);
      Applied(l, CancelNational(company, n)).Ok? <==>
        && l.nationals[n].company == company && l.nationals[n].validated
        && forall i :: 0 <= i < |l.nationals[n].lines| ==> Returnable(l.till.wallets, l.nationals[n].lines[i])
  {
    var l := Exec(events);
    NationalMovementsAreLines(events);
    assert NationalSound(l.till, l.nationals[n], n);
    ReversalSucceedsIff(l, company, n);
  }

  /** In every reachable deployment a reversal can at once be cancelled in its turn, which leaves every
      wallet as it was before the first cancellation. */
  lemma CancellingTwiceRestores(events: seq<Event>, company: Company, n: Id)
    requires OperationReversed(Exec(events), company, n).Ok?
    ensures var l := Exec(events);
      var m := OperationReversed(l, company, n).value;
      && OperationReversed(m, company, |l.nationals|).Ok?
      && OperationReversed(m, company, |l.nationals|).value.till.wallets == l.till.wallets
  {
    var l := Exec(events);
    ReachableIsSound(events);
    NationalMovementsAreLines(events);
    assert NationalSound(l.till, l.nationals[n], n);
    assert WalletLedger(l.till);
    ReversalIsReversible(l, company, n);
  }
}
