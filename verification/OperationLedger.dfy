/** What every reachable deployment keeps about transfers and payments: the client movements, the
    collaborator movements and the status history that belong to each of them. */
module OperationLedger {
  import opened Sums
  import opened Tables
  import opened Operations
  import opened Clients
  import Collaborations
  import opened EntryLedger

  /** Client debt minus credited reliquat. */
  function Owes(op: Op): int {
    op.split.debt - Credited(op.split, op.action)
  }

  /** The one movement an approval posts: a transfer, or a payment made as an advance, makes the
      creator owe the counterparty; a payment that settles a debt does the reverse. */
  function ExpectedMove(op: Op, o: Id, c: Collab): BalanceMove {
    var other := OtherParty(c, op.company);
    if op.kind.Payment? && op.settlesDebt
    then BalanceMove(op.collab, o, op.targetCurrency, op.converted, other, op.company)
    else BalanceMove(op.collab, o, op.targetCurrency, op.converted, op.company, other)
  }

  function MovesOf(balances: seq<BalanceMove>, o: Id): seq<BalanceMove> {
    if balances == [] then []
    else
      var m := balances[|balances| - 1];
      var earlier := MovesOf(balances[..|balances| - 1], o);
      if m.op == o then earlier + [m] else earlier
  }

  function RowsOf(history: seq<StatusRow>, o: Id): seq<StatusRow> {
    if history == [] then []
    else
      var row := history[|history| - 1];
      var earlier := RowsOf(history[..|history| - 1], o);
      if row.op == o then earlier + [row] else earlier
  }

  /** PENDING at creation, then at most one decision, by the party it belongs to. */
  function ExpectedRows(op: Op, o: Id, c: Collab): seq<StatusRow> {
    var creation := [StatusRow(o, None, Pending, op.company)];
    if op.status.Pending? then creation
    else
      var decider := if op.status.Cancelled? then op.company else OtherParty(c, op.company);
      creation + [StatusRow(o, Some(Pending), op.status, decider)]
  }

  /** The operation refers to an accepted collaboration of its company. */
  predicate Placed(p: Pacts, op: Op) {
    && Collaborations.Owned(p, op.company, op.collab)
    && p.collabs[op.collab].status.CollabAccepted?
    && p.collabs[op.collab].initiator != p.collabs[op.collab].target
    && (op.kind.Payment? ==> op.targetCurrency == p.collabs[op.collab].currency)
    && op.split.debt >= 0 && op.split.reliquat >= 0
  }

  predicate ClientSound(d: Debts, op: Op) {
    if op.client.Some?
    then op.client.value < |d.clients| && d.clients[op.client.value].company == op.company
    else Owes(op) == 0
  }

  /** While it stands an operation weighs on its client by what it owes, and by nothing once it is
      rejected or cancelled; on other clients and in other currencies it never weighs. */
  ghost predicate Weighs(moves: seq<ClientMove>, op: Op, o: Id) {
    forall c: Id, k :: OpNet(moves, o, c, k)
      == (if op.client == Some(c) && k == op.currency && Standing(op.status) then Owes(op) else 0)
  }

  /** What a reversal will find. */
  ghost predicate Reversible(moves: seq<ClientMove>, op: Op, o: Id) {
    op.client.Some? ==>
      && SumDeltas(BySource(moves, op.client.value, o)) == Owes(op)
      && forall i :: 0 <= i < |BySource(moves, op.client.value, o)| ==>
           BySource(moves, op.client.value, o)[i].currency == op.currency
  }

  ghost predicate OpSound(l: Ledger, o: Id)
    requires o < |l.desk.ops|
  {
    var op := l.desk.ops[o];
    && Placed(l.pacts, op)
    && ClientSound(l.debts, op)
    && Weighs(l.debts.moves, op, o)
    && Reversible(l.debts.moves, op, o)
    && MovesOf(l.desk.balances, o)
       == (if op.status.Approved? then [ExpectedMove(op, o, l.pacts.collabs[op.collab])] else [])
    && RowsOf(l.desk.history, o) == ExpectedRows(op, o, l.pacts.collabs[op.collab])
  }

  /** Every ledger row belongs to an operation. */
  predicate RowsBounded(l: Ledger) {
    && (forall i :: 0 <= i < |l.debts.moves| ==> l.debts.moves[i].op < |l.desk.ops|)
    && (forall i :: 0 <= i < |l.desk.balances| ==> l.desk.balances[i].op < |l.desk.ops|)
    && (forall i :: 0 <= i < |l.desk.history| ==> l.desk.history[i].op < |l.desk.ops|)
  }

  ghost predicate OpsSound(l: Ledger) {
    && RowsBounded(l)
    && forall o :: 0 <= o < |l.desk.ops| ==> OpSound(l, o)
  }

  // ---- rows of other operations ------------------------------------------------------------

  lemma BalanceAppended(balances: seq<BalanceMove>, m: BalanceMove, o: Id)
    ensures MovesOf(balances + [m], o) == if m.op == o then MovesOf(balances, o) + [m] else MovesOf(balances, o)
  {
    assert (balances + [m])[..|balances|] == balances;
  }

  lemma HistoryAppended(history: seq<StatusRow>, row: StatusRow, o: Id)
    ensures RowsOf(history + [row], o) == if row.op == o then RowsOf(history, o) + [row] else RowsOf(history, o)
  {
    assert (history + [row])[..|history|] == history;
  }

  lemma {:induction false} NoMoves(moves: seq<ClientMove>, o: Id)
    requires forall i :: 0 <= i < |moves| ==> moves[i].op != o
    ensures forall c: Id, k :: OpNet(moves, o, c, k) == 0
    ensures forall c: Id :: BySource(moves, c, o) == []
  {
    if moves != [] {
      NoMoves(moves[..|moves| - 1], o);
    }
  }

  lemma {:induction false} NoBalances(balances: seq<BalanceMove>, o: Id)
    requires forall i :: 0 <= i < |balances| ==> balances[i].op != o
    ensures MovesOf(balances, o) == []
  {
    if balances != [] {
      NoBalances(balances[..|balances| - 1], o);
    }
  }

  lemma {:induction false} NoRows(history: seq<StatusRow>, o: Id)
    requires forall i :: 0 <= i < |history| ==> history[i].op != o
    ensures RowsOf(history, o) == []
  {
    if history != [] {
      NoRows(history[..|history| - 1], o);
    }
  }

  /** The two movement lists agree on operation `o`. */
  ghost predicate SameFor(a: seq<ClientMove>, b: seq<ClientMove>, o: Id) {
    && (forall c: Id :: BySource(a, c, o) == BySource(b, c, o))
    && (forall c: Id, k :: OpNet(a, o, c, k) == OpNet(b, o, c, k))
  }

  lemma DeltaElsewhere(d: Debts, c: Id, delta: int, op: Id, reversal: bool, currency: Currency, o: Id)
    requires c < |d.clients| && o != op
    ensures SameFor(DeltaApplied(d, c, delta, op, reversal, currency).moves, d.moves, o)
  {
    MoveAppended(d.moves, DeltaApplied(d, c, delta, op, reversal, currency).moves[|d.moves|]);
  }

  lemma DeltaHere(d: Debts, c: Id, delta: int, op: Id, reversal: bool, currency: Currency)
    requires c < |d.clients|
    ensures var after := DeltaApplied(d, c, delta, op, reversal, currency).moves;
      && (forall c': Id, k ::
            OpNet(after, op, c', k) == OpNet(d.moves, op, c', k) + if c == c' && currency == k then delta else 0)
      && BySource(after, c, op)
         == (if reversal then BySource(d.moves, c, op) else BySource(d.moves, c, op) + [after[|d.moves|]])
      && SumDeltas(BySource(after, c, op)) == SumDeltas(BySource(d.moves, c, op)) + (if !reversal then delta else 0)
  {
    var m := DeltaApplied(d, c, delta, op, reversal, currency).moves[|d.moves|];
    MoveAppended(d.moves, m);
    var rows := BySource(d.moves, c, op);
    assert (rows + [m])[..|rows|] == rows;
  }

  /** Accepted collaborations stay as they are. */
  predicate AcceptedKept(p: Pacts, q: Pacts) {
    |p.collabs| <= |q.collabs| && forall c :: 0 <= c < |p.collabs| && p.collabs[c].status.CollabAccepted? ==>
      q.collabs[c] == p.collabs[c].(currentRate := q.collabs[c].currentRate)
  }

  predicate ClientsKept(d: Debts, e: Debts) {
    |d.clients| <= |e.clients| && forall i :: 0 <= i < |d.clients| ==> e.clients[i].company == d.clients[i].company
  }

  /** Steps that touch no operation, client movement or accepted collaboration. */
  lemma OpsFrame(l: Ledger, m: Ledger)
    requires OpsSound(l)
    requires m.desk == l.desk && m.debts.moves == l.debts.moves
    requires ClientsKept(l.debts, m.debts) && AcceptedKept(l.pacts, m.pacts)
    ensures OpsSound(m)
  {
    forall o | 0 <= o < |m.desk.ops| ensures OpSound(m, o) {
      assert OpSound(l, o);
    }
  }

  // ---- opening -----------------------------------------------------------------------------

  lemma DebtsElsewhere(d: Debts, id: Id, c: Id, draft: Op, o: Id)
    requires c < |d.clients| && o != id
    ensures SameFor(DebtsAfter(d, id, c, draft.split, draft.action, draft.currency).moves, d.moves, o)
  {
    var owed := if draft.split.debt > 0 then DeltaApplied(d, c, draft.split.debt, id, false, draft.currency) else d;
    DeltaElsewhere(d, c, draft.split.debt, id, false, draft.currency, o);
    DeltaElsewhere(owed, c, -draft.split.reliquat, id, false, draft.currency, o);
  }

  /** So far the movements of operation `id` weigh `v` on client `c`, in one currency. */
  ghost predicate Stands(moves: seq<ClientMove>, id: Id, c: Id, currency: Currency, v: int) {
    && (forall c': Id, k :: OpNet(moves, id, c', k) == if c == c' && currency == k then v else 0)
    && SumDeltas(BySource(moves, c, id)) == v
    && (forall i :: 0 <= i < |BySource(moves, c, id)| ==> BySource(moves, c, id)[i].currency == currency)
    && (forall i :: 0 <= i < |moves| ==> moves[i].op <= id)
  }

  lemma DeltaStands(d: Debts, id: Id, c: Id, currency: Currency, v: int, delta: int)
    requires c < |d.clients| && Stands(d.moves, id, c, currency, v)
    ensures Stands(DeltaApplied(d, c, delta, id, false, currency).moves, id, c, currency, v + delta)
  {
    hide OpNet, BySource, SumDeltas;
    DeltaHere(d, c, delta, id, false, currency);
  }

  /** The client movements written when operation `id` is opened. */
  lemma DebtsHere(d: Debts, id: Id, c: Id, draft: Op)
    requires c < |d.clients| && draft.split.debt >= 0 && draft.split.reliquat >= 0
    requires forall i :: 0 <= i < |d.moves| ==> d.moves[i].op < id
    ensures Stands(
      DebtsAfter(d, id, c, draft.split, draft.action, draft.currency).moves, id, c, draft.currency, Owes(draft))
  {
    assert Stands(d.moves, id, c, draft.currency, 0) by {
      NoMoves(d.moves, id);
      assert BySource(d.moves, c, id) == [];
    }
    CreditsStand(d, id, c, draft);
  }

  lemma CreditsStand(d: Debts, id: Id, c: Id, draft: Op)
    requires c < |d.clients| && draft.split.debt >= 0 && draft.split.reliquat >= 0
    requires Stands(d.moves, id, c, draft.currency, 0)
    ensures Stands(
      DebtsAfter(d, id, c, draft.split, draft.action, draft.currency).moves, id, c, draft.currency, Owes(draft))
  {
    hide Stands;
    var owed := if draft.split.debt > 0 then DeltaApplied(d, c, draft.split.debt, id, false, draft.currency) else d;
    assert Stands(owed.moves, id, c, draft.currency, draft.split.debt) by {
      if draft.split.debt > 0 {
        DeltaStands(d, id, c, draft.currency, 0, draft.split.debt);
      }
    }
    if Credited(draft.split, draft.action) > 0 {
      DeltaStands(owed, id, c, draft.currency, draft.split.debt, -draft.split.reliquat);
    }
  }

  lemma DeltaKeepsClients(d: Debts, id: Id, c: Id, draft: Op)
    requires c < |d.clients|
    ensures var after := DebtsAfter(d, id, c, draft.split, draft.action, draft.currency);
      && |after.clients| == |d.clients|
      && forall i :: 0 <= i < |d.clients| ==> after.clients[i].company == d.clients[i].company
  {
  }

  /** An operation keeps what it had when rows of other operations are added and clients grow. */
  lemma OpElsewhere(l: Ledger, m: Ledger, o: Id)
    requires o < |l.desk.ops| && OpSound(l, o)
    requires o < |m.desk.ops| && m.desk.ops[o] == l.desk.ops[o] && m.pacts == l.pacts
    requires |l.debts.clients| <= |m.debts.clients|
    requires forall i :: 0 <= i < |l.debts.clients| ==> m.debts.clients[i].company == l.debts.clients[i].company
    requires SameFor(m.debts.moves, l.debts.moves, o)
    requires MovesOf(m.desk.balances, o) == MovesOf(l.desk.balances, o)
    requires RowsOf(m.desk.history, o) == RowsOf(l.desk.history, o)
    ensures OpSound(m, o)
  {
  }

  lemma OpenedElsewhere(l: Ledger, draft: Op, name: Option<string>, phone: Option<string>, o: Id)
    requires OpsSound(l) && o < |l.desk.ops|
    ensures OpSound(Opened(l, draft, name, phone), o)
  {
    var id := |l.desk.ops|;
    assert OpSound(l, o);
    HistoryAppended(l.desk.history, StatusRow(id, None, Pending, draft.company), o);
    if NeedsClient(draft.split, draft.action) {
      var (d, c) := GotOrCreated(l.debts, draft.company, Text(name), Text(phone));
      DeltaKeepsClients(d, id, c, draft);
      DebtsElsewhere(d, id, c, draft, o);
    }
    OpElsewhere(l, Opened(l, draft, name, phone), o);
  }

  lemma OpenedClient(l: Ledger, draft: Op, name: Option<string>, phone: Option<string>)
    requires RowsBounded(l) && draft.status.Pending? && Placed(l.pacts, draft)
    ensures var m, id := Opened(l, draft, name, phone), |l.desk.ops|;
      && ClientSound(m.debts, m.desk.ops[id])
      && Weighs(m.debts.moves, m.desk.ops[id], id)
      && Reversible(m.debts.moves, m.desk.ops[id], id)
  {
    var id := |l.desk.ops|;
    if NeedsClient(draft.split, draft.action) {
      var (d, c) := GotOrCreated(l.debts, draft.company, Text(name), Text(phone));
      DeltaKeepsClients(d, id, c, draft);
      DebtsHere(d, id, c, draft);
    } else {
      NoMoves(l.debts.moves, id);
    }
  }

  lemma OpenedHere(l: Ledger, draft: Op, name: Option<string>, phone: Option<string>)
    requires RowsBounded(l) && draft.status.Pending? && Placed(l.pacts, draft)
    ensures OpSound(Opened(l, draft, name, phone), |l.desk.ops|)
  {
    var id := |l.desk.ops|;
    OpenedClient(l, draft, name, phone);
    hide Weighs, Reversible, ClientSound, DebtsAfter;
    NoBalances(l.desk.balances, id);
    NoRows(l.desk.history, id);
    HistoryAppended(l.desk.history, StatusRow(id, None, Pending, draft.company), id);
  }

  lemma OpeningKeeps(l: Ledger, draft: Op, name: Option<string>, phone: Option<string>)
    requires OpsSound(l)
    requires draft.status.Pending? && Placed(l.pacts, draft)
    ensures OpsSound(Opened(l, draft, name, phone))
  {
    var id := |l.desk.ops|;
    var m := Opened(l, draft, name, phone);
    var row := StatusRow(id, None, Pending, draft.company);
    var needs := NeedsClient(draft.split, draft.action);
    var (d, c) := GotOrCreated(l.debts, draft.company, Text(name), Text(phone));
    if needs {
      DeltaKeepsClients(d, id, c, draft);
      DebtsHere(d, id, c, draft);
      assert m.debts == DebtsAfter(d, id, c, draft.split, draft.action, draft.currency);
    }
    assert RowsBounded(m);
    hide OpSound;
    forall o | 0 <= o < |m.desk.ops| ensures OpSound(m, o) {
      if o < id {
        OpenedElsewhere(l, draft, name, phone, o);
      } else {
        OpenedHere(l, draft, name, phone);
      }
    }
  }

  // ---- deciding ----------------------------------------------------------------------------

  /** `m` is `l` once the operation has been approved: a status row and a collaborator movement more. */
  ghost predicate Decides(l: Ledger, m: Ledger, o: Id, company: Company, wallet: Option<Id>) {
    && o < |l.desk.ops| && l.desk.ops[o].status.Pending?
    && l.desk.ops[o].collab < |l.pacts.collabs|
    && company == OtherParty(l.pacts.collabs[l.desk.ops[o].collab], l.desk.ops[o].company)
    && m.pacts == l.pacts && m.debts == l.debts
    && m.desk.ops == l.desk.ops[o := l.desk.ops[o].(wallet := wallet, status := Approved)]
    && m.desk.history == l.desk.history + [StatusRow(o, Some(Pending), Approved, company)]
    && m.desk.balances == l.desk.balances + [ExpectedMove(l.desk.ops[o], o, l.pacts.collabs[l.desk.ops[o].collab])]
  }

  lemma ApprovedElsewhere(l: Ledger, m: Ledger, o: Id, company: Company, wallet: Option<Id>, k: Id)
    requires Decides(l, m, o, company, wallet) && k < |l.desk.ops| && k != o && OpSound(l, k)
    ensures OpSound(m, k)
  {
    hide OpSound;
    HistoryAppended(l.desk.history, StatusRow(o, Some(Pending), Approved, company), k);
    BalanceAppended(l.desk.balances, ExpectedMove(l.desk.ops[o], o, l.pacts.collabs[l.desk.ops[o].collab]), k);
    OpElsewhere(l, m, k);
  }

  lemma ApprovedHere(l: Ledger, m: Ledger, o: Id, company: Company, wallet: Option<Id>)
    requires Decides(l, m, o, company, wallet) && OpSound(l, o)
    ensures OpSound(m, o)
  {
    hide OpNet, BySource, SumDeltas, MovesOf, RowsOf;
    HistoryAppended(l.desk.history, StatusRow(o, Some(Pending), Approved, company), o);
    BalanceAppended(l.desk.balances, ExpectedMove(l.desk.ops[o], o, l.pacts.collabs[l.desk.ops[o].collab]), o);
  }

  /** An approval adds the approved operation's rows only. */
  lemma ApprovalRows(l: Ledger, m: Ledger, o: Id, company: Company, wallet: Option<Id>)
    requires OpsSound(l) && Decides(l, m, o, company, wallet)
    ensures OpsSound(m)
  {
    hide OpSound;
    forall k | 0 <= k < |m.desk.ops| ensures OpSound(m, k) {
      if k == o {
        ApprovedHere(l, m, o, company, wallet);
      } else {
        ApprovedElsewhere(l, m, o, company, wallet, k);
      }
    }
  }

  lemma TransferApprovalKeeps(l: Ledger, company: Company, o: Id, wallet: Id)
    requires OpsSound(l) && TransferApproved(l, company, o, wallet).Ok?
    ensures OpsSound(TransferApproved(l, company, o, wallet).value)
  {
    var m := TransferApproved(l, company, o, wallet).value;
    var row := l.desk.ops[o];
    assert OpSound(l, o);
    assert l.desk.ops[o := row.(wallet := Some(wallet))][o := row.(wallet := Some(wallet), status := Approved)]
      == l.desk.ops[o := row.(wallet := Some(wallet), status := Approved)];
    ApprovalRows(l, m, o, company, Some(wallet));
  }

  lemma PaymentApprovalKeeps(l: Ledger, company: Company, o: Id)
    requires OpsSound(l) && PaymentApproved(l, company, o).Ok?
    ensures OpsSound(PaymentApproved(l, company, o).value)
  {
    assert OpSound(l, o);
    ApprovalRows(l, PaymentApproved(l, company, o).value, o, company, l.desk.ops[o].wallet);
  }

  /** A closure brings the operation's weight on its client back to nothing. */
  lemma ReversalHere(d: Debts, op: Op, o: Id, status: OpStatus)
    requires ClientSound(d, op) && op.client.Some? && Weighs(d.moves, op, o) && Reversible(d.moves, op, o)
    requires op.status.Pending? && !Standing(status)
    ensures Reversed(d, op.company, op.client.value, o).Ok?
    ensures var after := Reversed(d, op.company, op.client.value, o).value;
      && (forall i :: 0 <= i < |after.moves| ==>
            after.moves[i].op == o || (i < |d.moves| && after.moves[i] == d.moves[i]))
      && Weighs(after.moves, op.(status := status), o)
      && Reversible(after.moves, op.(status := status), o)
  {
    if Owes(op) != 0 {
      DeltaHere(d, op.client.value, -Owes(op), o, true, op.currency);
    }
  }

  lemma ReversalElsewhere(d: Debts, op: Op, o: Id, k: Id)
    requires ClientSound(d, op) && op.client.Some? && Reversible(d.moves, op, o) && k != o
    ensures Reversed(d, op.company, op.client.value, o).Ok?
    ensures var after := Reversed(d, op.company, op.client.value, o).value;
      && |after.clients| == |d.clients|
      && (forall i :: 0 <= i < |d.clients| ==> after.clients[i].company == d.clients[i].company)
      && SameFor(after.moves, d.moves, k)
  {
    if Owes(op) != 0 {
      DeltaElsewhere(d, op.client.value, -Owes(op), o, true, op.currency, k);
    }
  }

  lemma ClosureRows(l: Ledger, m: Ledger, o: Id, company: Company, status: OpStatus)
    requires OpsSound(l) && o < |l.desk.ops| && l.desk.ops[o].status.Pending? && !Standing(status)
    requires l.desk.ops[o].collab < |l.pacts.collabs|
    requires var op := l.desk.ops[o];
      company == if status.Cancelled? then op.company else OtherParty(l.pacts.collabs[op.collab], op.company)
    requires m.pacts == l.pacts && m.desk == StatusChanged(l.desk, o, status, company)
    requires var op := l.desk.ops[o];
      if op.client.Some? then Reversed(l.debts, op.company, op.client.value, o) == Ok(m.debts) else m.debts == l.debts
    ensures OpsSound(m)
  {
    var op := l.desk.ops[o];
    var row := StatusRow(o, Some(Pending), status, company);
    assert OpSound(l, o);
    if op.client.Some? {
      ReversalHere(l.debts, op, o, status);
    }
    forall k | 0 <= k < |m.desk.ops| ensures OpSound(m, k) {
      assert OpSound(l, k);
      HistoryAppended(l.desk.history, row, k);
      if k != o {
        if op.client.Some? {
          ReversalElsewhere(l.debts, op, o, k);
        }
        OpElsewhere(l, m, k);
      }
    }
  }

  lemma ClosingKeeps(l: Ledger, kind: OpKind, company: Company, o: Id, role: Role)
    requires OpsSound(l) && Closed(l, kind, company, o, role).Ok?
    ensures OpsSound(Closed(l, kind, company, o, role).value)
  {
    ClosureRows(l, Closed(l, kind, company, o, role).value, o, company, if role.Creator? then Cancelled else Rejected);
  }
}
