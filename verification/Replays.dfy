/** Client debts and collaborator balances can be replayed from the operations alone. */
module Replays {
  import opened Sums
  import opened Tables
  import opened Clients
  import opened Operations
  import opened EntryLedger
  import opened OperationLedger
  import Collaborations
  import opened Deployment

  // ---- client debts ------------------------------------------------------------------------

  /** What one operation contributes to a client's debt in a currency. */
  function Contribution(op: Op, c: Id, k: Currency): int {
    if op.client == Some(c) && op.currency == k && Standing(op.status) then Owes(op) else 0
  }

  function Contributions(ops: seq<Op>, c: Id, k: Currency): (s: seq<int>)
    ensures |s| == |ops|
  {
    seq(|ops|, o requires 0 <= o < |ops| => Contribution(ops[o], c, k))
  }

  function OpNets(moves: seq<ClientMove>, n: nat, c: Id, k: Currency): (s: seq<int>)
    ensures |s| == n
  {
    seq(n, o requires 0 <= o < n => OpNet(moves, o, c, k))
  }

  lemma {:induction false} OwedByOperation(moves: seq<ClientMove>, n: nat, c: Id, k: Currency)
    requires forall i :: 0 <= i < |moves| ==> moves[i].op < n
    ensures OwedIn(moves, c, k) == Sum(OpNets(moves, n, c, k))
  {
    if moves == [] {
      SumZero(OpNets(moves, n, c, k));
    } else {
      var m, before := moves[|moves| - 1], moves[..|moves| - 1];
      OwedByOperation(before, n, c, k);
      var delta := if m.client == c && m.currency == k then m.delta else 0;
      var nets := OpNets(before, n, c, k);
      assert OpNets(moves, n, c, k) == nets[m.op := nets[m.op] + delta];
      SumUpdate(nets, m.op, nets[m.op] + delta);
    }
  }

  /** In every reachable ledger, what a client owes in a currency is the debt minus the credited
      reliquat of the PENDING and APPROVED operations made for that client in that currency; the
      balance is the total over the currencies, and rejected and cancelled operations net to zero. */
  lemma ClientBalanceReplays(events: seq<Event>, c: Id)
    requires c < |Exec(events).debts.clients|
    ensures var l := Exec(events);
      && (forall k :: OwedIn(l.debts.moves, c, k) == Sum(Contributions(l.desk.ops, c, k)))
      && l.debts.clients[c].balance
         == Sum(Contributions(l.desk.ops, c, XOF)) + Sum(Contributions(l.desk.ops, c, GNF))
          + Sum(Contributions(l.desk.ops, c, USD)) + Sum(Contributions(l.desk.ops, c, EUR))
      && (forall o, k :: 0 <= o < |l.desk.ops| && !Standing(l.desk.ops[o].status) ==>
            OpNet(l.debts.moves, o, c, k) == 0)
  {
    var l := Exec(events);
    ReachableIsSound(events);
    forall k ensures OwedIn(l.debts.moves, c, k) == Sum(Contributions(l.desk.ops, c, k)) {
      OwedByOperation(l.debts.moves, |l.desk.ops|, c, k);
      forall o | 0 <= o < |l.desk.ops| ensures OpNet(l.debts.moves, o, c, k) == Contribution(l.desk.ops[o], c, k) {
        assert OpSound(l, o);
      }
      assert OpNets(l.debts.moves, |l.desk.ops|, c, k) == Contributions(l.desk.ops, c, k);
    }
    CurrenciesAddUp(l.debts.moves, c);
    forall o, k | 0 <= o < |l.desk.ops| && !Standing(l.desk.ops[o].status) ensures OpNet(l.debts.moves, o, c, k) == 0 {
      assert OpSound(l, o);
    }
  }

  // ---- collaborator balances ---------------------------------------------------------------

  /** A movement as one company sees it. */
  function SignedFor(m: BalanceMove, collab: Id, company: Company, k: Currency): int {
    if m.collab != collab || m.currency != k then 0
    else (if m.creditor == company then m.amount else 0) - (if m.debtor == company then m.amount else 0)
  }

  /** The part of `get_balance_for_company` that is in one currency. */
  function BalanceIn(balances: seq<BalanceMove>, collab: Id, company: Company, k: Currency): int {
    if balances == [] then 0
    else
      BalanceIn(balances[..|balances| - 1], collab, company, k)
      + SignedFor(balances[|balances| - 1], collab, company, k)
  }

  lemma {:induction false} BalancesAddUp(balances: seq<BalanceMove>, collab: Id, company: Company)
    ensures Balance(balances, collab, company)
         == BalanceIn(balances, collab, company, XOF) + BalanceIn(balances, collab, company, GNF)
          + BalanceIn(balances, collab, company, USD) + BalanceIn(balances, collab, company, EUR)
  {
    if balances != [] {
      BalancesAddUp(balances[..|balances| - 1], collab, company);
    }
  }

  /** What an approved operation contributes, converted amount and sign. */
  function Posting(p: Pacts, op: Op, o: Id, collab: Id, company: Company, k: Currency): int {
    if op.status.Approved? && op.collab < |p.collabs|
    then SignedFor(ExpectedMove(op, o, p.collabs[op.collab]), collab, company, k) else 0
  }

  function Postings(l: Ledger, collab: Id, company: Company, k: Currency): (s: seq<int>)
    ensures |s| == |l.desk.ops|
  {
    seq(|l.desk.ops|, o requires 0 <= o < |l.desk.ops| => Posting(l.pacts, l.desk.ops[o], o, collab, company, k))
  }

  function PostedBy(balances: seq<BalanceMove>, n: nat, collab: Id, company: Company, k: Currency): (s: seq<int>)
    ensures |s| == n
  {
    seq(n, o requires 0 <= o < n => BalanceIn(MovesOf(balances, o), collab, company, k))
  }

  lemma BalanceInAppended(balances: seq<BalanceMove>, m: BalanceMove, collab: Id, company: Company, k: Currency)
    ensures BalanceIn(balances + [m], collab, company, k)
         == BalanceIn(balances, collab, company, k) + SignedFor(m, collab, company, k)
  {
    assert (balances + [m])[..|balances|] == balances;
  }

  lemma {:induction false} BalanceByOperation(
    balances: seq<BalanceMove>, n: nat, collab: Id, company: Company, k: Currency)
    requires forall i :: 0 <= i < |balances| ==> balances[i].op < n
    ensures BalanceIn(balances, collab, company, k) == Sum(PostedBy(balances, n, collab, company, k))
  {
    if balances == [] {
      SumZero(PostedBy(balances, n, collab, company, k));
    } else {
      var m, before := balances[|balances| - 1], balances[..|balances| - 1];
      BalanceByOperation(before, n, collab, company, k);
      var posted := PostedBy(before, n, collab, company, k);
      var value := posted[m.op] + SignedFor(m, collab, company, k);
      forall o | 0 <= o < n
        ensures PostedBy(balances, n, collab, company, k)[o] == posted[m.op := value][o]
      {
        if o == m.op {
          BalanceInAppended(MovesOf(before, o), m, collab, company, k);
        } else {
        }
      }
      assert PostedBy(balances, n, collab, company, k) == posted[m.op := value];
      SumUpdate(posted, m.op, value);
    }
  }

  /** Every movement of a collaboration has its two companies on its two sides. */
  ghost predicate TwoSided(p: Pacts, m: BalanceMove) {
    && m.collab < |p.collabs|
    && p.collabs[m.collab].initiator != p.collabs[m.collab].target
    && ((m.debtor == p.collabs[m.collab].initiator && m.creditor == p.collabs[m.collab].target)
        || (m.debtor == p.collabs[m.collab].target && m.creditor == p.collabs[m.collab].initiator))
  }

  lemma {:induction false} MoveIsListed(balances: seq<BalanceMove>, i: nat)
    requires i < |balances|
    ensures balances[i] in MovesOf(balances, balances[i].op)
  {
    if i < |balances| - 1 {
      MoveIsListed(balances[..|balances| - 1], i);
    }
  }

  lemma MovesAreTwoSided(l: Ledger)
    requires OpsSound(l)
    ensures forall i :: 0 <= i < |l.desk.balances| ==> TwoSided(l.pacts, l.desk.balances[i])
  {
    forall i | 0 <= i < |l.desk.balances| ensures TwoSided(l.pacts, l.desk.balances[i]) {
      assert OpSound(l, l.desk.balances[i].op);
      MoveIsListed(l.desk.balances, i);
    }
  }

  lemma {:induction false} TwoSidedSumsToZero(p: Pacts, balances: seq<BalanceMove>, collab: Id, k: Currency)
    requires collab < |p.collabs| && forall i :: 0 <= i < |balances| ==> TwoSided(p, balances[i])
    ensures BalanceIn(balances, collab, p.collabs[collab].initiator, k)
          + BalanceIn(balances, collab, p.collabs[collab].target, k) == 0
  {
    if balances != [] {
      assert TwoSided(p, balances[|balances| - 1]);
      TwoSidedSumsToZero(p, balances[..|balances| - 1], collab, k);
    }
  }

  /** In every reachable ledger the two parties' balances sum to zero, in total and per currency of
      movement, and each is the signed sum of the converted amounts of the APPROVED operations. */
  lemma CollaboratorBalancesReplay(events: seq<Event>, collab: Id, company: Company)
    requires collab < |Exec(events).pacts.collabs|
    ensures var l := Exec(events);
      var c := l.pacts.collabs[collab];
      && (forall k :: BalanceIn(l.desk.balances, collab, company, k) == Sum(Postings(l, collab, company, k)))
      && (forall k :: BalanceIn(l.desk.balances, collab, c.initiator, k)
                    + BalanceIn(l.desk.balances, collab, c.target, k) == 0)
      && Balance(l.desk.balances, collab, c.initiator) + Balance(l.desk.balances, collab, c.target) == 0
  {
    var l := Exec(events);
    var c := l.pacts.collabs[collab];
    ReachableIsSound(events);
    forall k ensures BalanceIn(l.desk.balances, collab, company, k) == Sum(Postings(l, collab, company, k)) {
      BalanceByOperation(l.desk.balances, |l.desk.ops|, collab, company, k);
      forall o | 0 <= o < |l.desk.ops|
        ensures PostedBy(l.desk.balances, |l.desk.ops|, collab, company, k)[o] == Postings(l, collab, company, k)[o]
      {
        PostingOf(l, o, collab, company, k);
      }
      assert PostedBy(l.desk.balances, |l.desk.ops|, collab, company, k) == Postings(l, collab, company, k);
    }
    MovesAreTwoSided(l);
    forall k
      ensures BalanceIn(l.desk.balances, collab, c.initiator, k) + BalanceIn(l.desk.balances, collab, c.target, k) == 0
    {
      TwoSidedSumsToZero(l.pacts, l.desk.balances, collab, k);
    }
    BalancesAddUp(l.desk.balances, collab, c.initiator);
    BalancesAddUp(l.desk.balances, collab, c.target);
  }

  lemma PostingOf(l: Ledger, o: Id, collab: Id, company: Company, k: Currency)
    requires OpsSound(l) && o < |l.desk.ops|
    ensures BalanceIn(MovesOf(l.desk.balances, o), collab, company, k)
         == Posting(l.pacts, l.desk.ops[o], o, collab, company, k)
  {
    assert OpSound(l, o);
    if l.desk.ops[o].status.Approved? {
      var m := ExpectedMove(l.desk.ops[o], o, l.pacts.collabs[l.desk.ops[o].collab]);
      BalanceInAppended([], m, collab, company, k);
      assert [] + [m] == [m];
    }
  }

  /** In every reachable ledger an operation has exactly one collaborator movement if it is APPROVED
      and none otherwise, and its status history is one of the four valid paths. */
  lemma LifecycleOfOperation(events: seq<Event>, o: Id)
    requires o < |Exec(events).desk.ops|
    ensures var l := Exec(events); var op := l.desk.ops[o];
      && |MovesOf(l.desk.balances, o)| == (if op.status.Approved? then 1 else 0)
      && op.collab < |l.pacts.collabs|
      && (op.status.Approved? ==> MovesOf(l.desk.balances, o)[0] == ExpectedMove(op, o, l.pacts.collabs[op.collab]))
      && RowsOf(l.desk.history, o) == ExpectedRows(op, o, l.pacts.collabs[op.collab])
  {
    ReachableIsSound(events);
    assert OpSound(Exec(events), o);
  }

  /** A PENDING operation can always be rejected by the counterparty and cancelled by its creator. */
  lemma PendingCanBeClosed(events: seq<Event>, o: Id, role: Role)
    requires o < |Exec(events).desk.ops| && Exec(events).desk.ops[o].status.Pending?
    ensures var l := Exec(events); var op := l.desk.ops[o];
      && op.collab < |l.pacts.collabs|
      && var actor := if role.Creator? then op.company else OtherParty(l.pacts.collabs[op.collab], op.company);
         Closed(l, op.kind, actor, o, role).Ok?
  {
    var l := Exec(events);
    var op := l.desk.ops[o];
    ReachableIsSound(events);
    assert OpSound(l, o) && DrawSound(l.funds, l.desk.ops, o);
    if op.client.Some? {
      ReversalHere(l.debts, op, o, Rejected);
    }
  }
}
