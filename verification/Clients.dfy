/** Client debts and their movements (app/services/client_service.py). */
module Clients {
  import opened Tables

  /** `client_repository.get_by_company_and_phone`. */
  function FindClient(clients: seq<Client>, company: Company, phone: string): (r: Option<nat>)
    ensures r.Some? ==>
      r.value < |clients| && clients[r.value].company == company && clients[r.value].phone == phone
    ensures r.None? ==> forall i :: 0 <= i < |clients| ==> clients[i].company != company || clients[i].phone != phone
  {
    if clients == [] then None
    else if clients[|clients| - 1].company == company && clients[|clients| - 1].phone == phone then Some(|clients| - 1)
    else FindClient(clients[..|clients| - 1], company, phone)
  }

  /** The client table and the client's id after `get_or_create_client`. */
  function GotOrCreated(d: Debts, company: Company, name: string, phone: string): (r: (Debts, Id))
    ensures r.1 < |r.0.clients| && r.0.clients[r.1].company == company && r.0.moves == d.moves
    ensures d.clients <= r.0.clients
  {
    match FindClient(d.clients, company, phone)
    case Some(c) => (d, c)
    case None => (d.(clients := d.clients + [Client(company, name, phone, 0)]), |d.clients|)
  }

  function DeltaApplied(d: Debts, c: Id, delta: int, op: Id, reversal: bool, currency: Currency): Debts
    requires c < |d.clients|
  {
    var before := d.clients[c].balance;
    Debts(
      d.clients[c := d.clients[c].(balance := before + delta)],
      d.moves + [ClientMove(c, op, reversal, currency, delta, before, before + delta)])
  }

  /** `client_repository.get_by_source`, oldest first. */
  function BySource(moves: seq<ClientMove>, c: Id, op: Id): seq<ClientMove> {
    if moves == [] then []
    else
      var m := moves[|moves| - 1];
      var earlier := BySource(moves[..|moves| - 1], c, op);
      if m.client == c && m.op == op && !m.reversal then earlier + [m] else earlier
  }

  function SumDeltas(moves: seq<ClientMove>): int {
    if moves == [] then 0 else SumDeltas(moves[..|moves| - 1]) + moves[|moves| - 1].delta
  }

  function Reversed(d: Debts, company: Company, c: Id, op: Id): Result<Debts> {
    var movements := BySource(d.moves, c, op);
    var net := SumDeltas(movements);
    if net == 0 then Ok(d)
    else if c >= |d.clients| || d.clients[c].company != company then Err(NotFound)
    else
      assert movements != [];
      Ok(DeltaApplied(d, c, -net, op, true, movements[0].currency))
  }

  // ---- services ----------------------------------------------------------------------------

  method GetOrCreateClient(session: Session, company: Company, name: string, phone: string) returns (c: Id)
    modifies session
    ensures session.db == old(session.db)
    ensures var (d, id) := GotOrCreated(old(session.view.debts), company, name, phone);
      c == id && session.view == old(session.view).(debts := d)
  {
    var debts := session.view.debts;
    match FindClient(debts.clients, company, phone) {
      case Some(existing) =>
        c := existing;
      case None =>
        c := |debts.clients|;
        session.view := session.view.(
          debts := debts.(clients := debts.clients + [Client(company, name, phone, 0)]));
    }
  }

  method CreateClient(session: Session, company: Company, name: string, phone: string) returns (c: Id)
    requires session.Clean()
    modifies session
    ensures session.Clean()
    ensures var (d, id) := GotOrCreated(old(session.db.debts), company, name, phone);
      c == id && session.db == old(session.db).(debts := d)
  {
    c := GetOrCreateClient(session, company, name, phone);
    session.Commit();
  }

  method ApplyBalanceDelta(session: Session, c: Id, delta: int, op: Id, reversal: bool, currency: Currency)
    requires c < |session.view.debts.clients|
    modifies session
    ensures session.db == old(session.db)
    ensures session.view == old(session.view).(
      debts := DeltaApplied(old(session.view.debts), c, delta, op, reversal, currency))
  {
    var debts := session.view.debts;
    var client := debts.clients[c];
    var before := client.balance;
    client := client.(balance := client.balance + delta);
    var movement := ClientMove(c, op, reversal, currency, delta, before, client.balance);
    session.view := session.view.(
      debts := Debts(debts.clients[c := client], debts.moves + [movement]));
  }

  method ReverseMovementsForSource(session: Session, company: Company, c: Id, op: Id) returns (r: Result<()>)
    modifies session
    ensures session.db == old(session.db)
    ensures match Reversed(old(session.view.debts), company, c, op)
            case Ok(d) => r.Ok? && session.view == old(session.view).(debts := d)
            case Err(e) => r == Err(e)
  {
    var movements := BySource(session.view.debts.moves, c, op);
    var net := 0;
    for i := 0 to |movements|
      invariant net == SumDeltas(movements[..i])
    {
      assert movements[..i + 1][..i] == movements[..i];
      net := net + movements[i].delta;
    }
    assert movements[..|movements|] == movements;
    if net == 0 {
      return Ok(());
    }
    var clients := session.view.debts.clients;
    if c >= |clients| || clients[c].company != company {
      return Err(NotFound);
    }
    ApplyBalanceDelta(session, c, -net, op, true, movements[0].currency);
    return Ok(());
  }

  // ---- the client ledger -------------------------------------------------------------------

  function Owed(moves: seq<ClientMove>, c: Id): int {
    if moves == [] then 0
    else
      var m := moves[|moves| - 1];
      Owed(moves[..|moves| - 1], c) + if m.client == c then m.delta else 0
  }

  /** One line of `get_balances_by_currency`. */
  function OwedIn(moves: seq<ClientMove>, c: Id, currency: Currency): int {
    if moves == [] then 0
    else
      var m := moves[|moves| - 1];
      OwedIn(moves[..|moves| - 1], c, currency) + if m.client == c && m.currency == currency then m.delta else 0
  }

  /** What an operation did to clients in one currency, reversal included. */
  function OpNet(moves: seq<ClientMove>, op: Id, c: Id, currency: Currency): int {
    if moves == [] then 0
    else
      var m := moves[|moves| - 1];
      OpNet(moves[..|moves| - 1], op, c, currency)
      + if m.op == op && m.client == c && m.currency == currency then m.delta else 0
  }

  ghost predicate Chained(d: Debts, i: nat)
    requires i < |d.moves|
  {
    var m := d.moves[i];
    && m.client < |d.clients|
    && m.before == Owed(d.moves[..i], m.client)
    && m.after == m.before + m.delta
  }

  ghost predicate ClientLedger(d: Debts) {
    && (forall i :: 0 <= i < |d.moves| ==> Chained(d, i))
    && (forall c :: 0 <= c < |d.clients| ==> d.clients[c].balance == Owed(d.moves, c))
    && (forall i, j :: 0 <= i < j < |d.clients| ==>
          d.clients[i].company != d.clients[j].company || d.clients[i].phone != d.clients[j].phone)
  }

  /** The client's last movement among the first `n`. */
  function LastMove(moves: seq<ClientMove>, c: Id, n: nat): (r: Option<nat>)
    requires n <= |moves|
    ensures r.Some? ==> r.value < n && moves[r.value].client == c
    ensures forall k :: 0 <= k < n && (r.Some? ==> r.value < k) ==> moves[k].client != c
  {
    if n == 0 then None
    else if moves[n - 1].client == c then Some(n - 1)
    else LastMove(moves, c, n - 1)
  }

  /** What the first `n` movements leave a client owing. */
  function LeftBy(moves: seq<ClientMove>, c: Id, n: nat): int
    requires n <= |moves|
  {
    match LastMove(moves, c, n)
    case Some(i) => moves[i].after
    case None => 0
  }

  lemma {:induction false} OwedIsLeft(d: Debts, c: Id, n: nat)
    requires n <= |d.moves| && forall i :: 0 <= i < |d.moves| ==> Chained(d, i)
    ensures Owed(d.moves[..n], c) == LeftBy(d.moves, c, n)
  {
    if n > 0 {
      OwedIsLeft(d, c, n - 1);
      assert Chained(d, n - 1);
      assert d.moves[..n][..n - 1] == d.moves[..n - 1];
    }
  }

  /** Every movement starts from what the client's previous one left, the first from zero. */
  lemma MovementsChain(d: Debts, j: nat)
    requires ClientLedger(d) && j < |d.moves|
    ensures var m := d.moves[j]; m.before == LeftBy(d.moves, m.client, j) && m.after == m.before + m.delta
  {
    assert Chained(d, j);
    OwedIsLeft(d, d.moves[j].client, j);
  }

  lemma BalanceIsLeft(d: Debts, c: Id)
    requires ClientLedger(d) && c < |d.clients|
    ensures d.clients[c].balance == LeftBy(d.moves, c, |d.moves|)
  {
    OwedIsLeft(d, c, |d.moves|);
    assert d.moves[..|d.moves|] == d.moves;
  }

  lemma MoveAppended(moves: seq<ClientMove>, m: ClientMove)
    ensures (moves + [m])[..|moves|] == moves
    ensures forall c :: Owed(moves + [m], c) == Owed(moves, c) + if m.client == c then m.delta else 0
    ensures forall c, k ::
      OwedIn(moves + [m], c, k) == OwedIn(moves, c, k) + if m.client == c && m.currency == k then m.delta else 0
    ensures forall op, c, k ::
      OpNet(moves + [m], op, c, k)
      == OpNet(moves, op, c, k) + if m.op == op && m.client == c && m.currency == k then m.delta else 0
    ensures forall c, op ::
      BySource(moves + [m], c, op)
      == if m.client == c && m.op == op && !m.reversal then BySource(moves, c, op) + [m] else BySource(moves, c, op)
  {
    assert (moves + [m])[..|moves|] == moves;
  }

  lemma DeltaKeepsLedger(d: Debts, c: Id, delta: int, op: Id, reversal: bool, currency: Currency)
    requires ClientLedger(d) && c < |d.clients|
    ensures ClientLedger(DeltaApplied(d, c, delta, op, reversal, currency))
  {
    var after := DeltaApplied(d, c, delta, op, reversal, currency);
    var n := |d.moves|;
    MoveAppended(d.moves, after.moves[n]);
    forall i | 0 <= i < |after.moves| ensures Chained(after, i) {
      assert after.moves[..i] == d.moves[..i];
      if i < n {
        assert Chained(d, i);
      } else {
        assert d.moves[..n] == d.moves;
      }
    }
  }

  lemma {:induction false} OwedUnknown(moves: seq<ClientMove>, c: Id)
    requires forall i :: 0 <= i < |moves| ==> moves[i].client != c
    ensures Owed(moves, c) == 0
  {
    if moves != [] {
      OwedUnknown(moves[..|moves| - 1], c);
    }
  }

  lemma CreationKeepsLedger(d: Debts, company: Company, name: string, phone: string)
    requires ClientLedger(d)
    ensures ClientLedger(GotOrCreated(d, company, name, phone).0)
  {
    var after := GotOrCreated(d, company, name, phone).0;
    forall i | 0 <= i < |d.moves| ensures Chained(after, i) && d.moves[i].client < |d.clients| {
      assert Chained(d, i);
    }
    OwedUnknown(d.moves, |d.clients|);
  }

  /** The per-currency balances add up to the client's balance. */
  lemma {:induction false} CurrenciesAddUp(moves: seq<ClientMove>, c: Id)
    ensures OwedIn(moves, c, XOF) + OwedIn(moves, c, GNF) + OwedIn(moves, c, USD) + OwedIn(moves, c, EUR)
         == Owed(moves, c)
  {
    if moves != [] {
      CurrenciesAddUp(moves[..|moves| - 1], c);
    }
  }

  /** A company knows a client by phone: a known one is taken as is, whatever the name, and only an unknown
      one is entered, owing nothing. */
  lemma ClientIsKnownByPhone(d: Debts, company: Company, name: string, phone: string)
    ensures var (after, c) := GotOrCreated(d, company, name, phone);
      && c < |after.clients| && after.moves == d.moves
      && after.clients[c].company == company && after.clients[c].phone == phone
      && if exists i :: 0 <= i < |d.clients| && d.clients[i].company == company && d.clients[i].phone == phone
         then after.clients == d.clients
         else after.clients == d.clients + [Client(company, name, phone, 0)]
  {
  }
}
