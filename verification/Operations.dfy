/** Transfers and payments: creation, approval, rejection and cancellation
    (app/services/transfer_service.py, app/services/payment_service.py). */
module Operations {
  import opened Money
  import opened Tables
  import opened Wallets
  import opened Entries
  import Clients
  import Collaborations
  import PrivateRates

  // ---- the split of a declared amount ------------------------------------------------------

  /** What the split needs to know of the entry an operation draws on. */
  datatype EntryView = EntryView(name: Option<string>, phone: Option<string>, available: int)

  predicate Truthy(text: Option<string>) {
    text.Some? && text.value != ""
  }

  function OrElse(text: Option<string>, other: Option<string>): Option<string> {
    if Truthy(text) then text else other
  }

  /** The allocation, client debt and reliquat of an operation; without an entry nothing is allocated. */
  function SplitOf(
    amount: real, action: ReliquatAction, name: Option<string>, phone: Option<string>, entry: Option<EntryView>)
    : Result<Split>
  {
    match entry
    case None =>
      Ok(Split(0, if Truthy(name) && Truthy(phone) then Round(amount) else 0, 0))
    case Some(view) =>
      var identified := (Truthy(name) && Truthy(phone)) || (Truthy(view.name) && Truthy(view.phone));
      var available := Decimal(view.available);
      if amount > available then
        if !identified then Err(Conflict)
        else Ok(Split(view.available, Round(amount - available), 0))
      else if amount < available && !action.KeepUnallocated? then
        if action.ClientCredit? && !identified then Err(Conflict)
        else Ok(Split(view.available, 0, Round(available - amount)))
      else Ok(Split(Round(amount), 0, 0))
  }

  function Credited(split: Split, action: ReliquatAction): int {
    if action.ClientCredit? then split.reliquat else 0
  }

  predicate NeedsClient(split: Split, action: ReliquatAction) {
    split.debt > 0 || (split.reliquat > 0 && action.ClientCredit?)
  }

  /** How an amount divides when `have` cents of its currency are available on the entry. Asking for more
      empties the entry and makes the rest a debt; asking for less either leaves the rest on the entry or,
      if the request says what becomes of it, empties the entry too and makes the rest a reliquat. */
  predicate Divides(amount: real, stored: int, have: int, action: ReliquatAction, split: Split) {
    if 100.0 * amount > have as real then split == Split(have, stored - have, 0)
    else if 100.0 * amount < have as real && !action.KeepUnallocated? then
      && split.allocation == have && split.debt == 0
      && Nearest(split.reliquat, Decimal(have) - amount)
    else split == Split(stored, 0, 0)
  }

  /** An accepted split divides the amount by what is available. Money in equals money out, except on one
      kind of amount: with a reliquat, an amount that lies on a half cent is rounded up twice and the
      split hands out one cent too many. */
  lemma SplitBalances(
    amount: real, action: ReliquatAction, name: Option<string>, phone: Option<string>, view: EntryView)
    requires amount > 0.0 && view.available >= 0
    requires SplitOf(amount, action, name, phone, Some(view)).Ok?
    ensures var s := SplitOf(amount, action, name, phone, Some(view)).value;
      && Divides(amount, Round(amount), view.available, action, s)
      && 0 <= s.allocation <= view.available && 0 <= s.debt && 0 <= s.reliquat
      && (s.debt == 0 || s.reliquat == 0)
      && s.allocation + s.debt
         == Round(amount) + s.reliquat
            - if amount < Decimal(view.available) && !action.KeepUnallocated? && HalfCent(amount) then 1 else 0
  {
    var available := Decimal(view.available);
    assert 100.0 * available == view.available as real;
    RoundMonotone(0.0, amount);
    if amount > available {
      RoundMinusCents(amount, view.available);
    } else {
      RoundMonotone(amount, available);
      RoundWholeCents(view.available);
      RoundIsNearest(available - amount);
      assert 100.0 * (available - amount) == view.available as real - 100.0 * amount;
    }
  }

  /** In particular the books are exact for every amount of whole cents. */
  lemma SplitBalancesWholeCents(
    cents: int, action: ReliquatAction, name: Option<string>, phone: Option<string>, view: EntryView)
    requires cents > 0 && view.available >= 0
    ensures var s := SplitOf(Decimal(cents), action, name, phone, Some(view));
      s.Ok? ==> s.value.allocation + s.value.debt == cents + s.value.reliquat
  {
    if SplitOf(Decimal(cents), action, name, phone, Some(view)).Ok? {
      SplitBalances(Decimal(cents), action, name, phone, view);
    }
    RoundWholeCents(cents);
    assert 100.0 * Decimal(cents) == cents as real;
  }

  /** Half a cent taken from an entry of one cent: the whole cent is allocated, and as the half that is
      left is rounded up as well, a cent of reliquat is handed out beside it. */
  lemma HalfCentIsHandedOutTwice()
    ensures SplitOf(0.005, Fee, None, None, Some(EntryView(None, None, 1))) == Ok(Split(1, 0, 1))
    ensures Round(0.005) == 1 && HalfCent(0.005)
  {
    assert Decimal(1) == 0.01;
    assert Round(0.01 - 0.005) == 1;
  }

  /** Whenever a client is needed, a name and a phone are at hand for it. */
  lemma ClientIsIdentified(
    amount: real, action: ReliquatAction, name: Option<string>, phone: Option<string>, entry: Option<EntryView>)
    requires SplitOf(amount, action, name, phone, entry).Ok?
    requires NeedsClient(SplitOf(amount, action, name, phone, entry).value, action)
    ensures Truthy(OrElse(name, if entry.Some? then entry.value.name else None))
    ensures Truthy(OrElse(phone, if entry.Some? then entry.value.phone else None))
  {
  }

  // ---- parties -----------------------------------------------------------------------------

  function OtherParty(c: Collab, company: Company): Company {
    if c.initiator == company then c.target else c.initiator
  }

  /** `_get_collaboration_for_party` and the check that a collaborative rate is in force. */
  function ReadyCollab(l: Ledger, company: Company, c: Id): Result<Collab> {
    if !Collaborations.Owned(l.pacts, company, c) then Err(NotFound)
    else if !l.pacts.collabs[c].status.CollabAccepted? || l.pacts.collabs[c].currentRate.None? then Err(Conflict)
    else Ok(l.pacts.collabs[c])
  }

  /** The entry named by a request, if any, as an operation may draw on it. */
  function DrawnEntry(f: Funds, company: Company, entry: Option<Id>, currency: Currency): Result<Option<EntryView>> {
    if entry.None? then Ok(None)
    else if !Entries.Owned(f, company, entry.value) then Err(NotFound)
    else
      var e := f.entries[entry.value];
      if e.mergedInto.Some? || !Mergeable(e.status) then Err(Conflict)
      else Ok(Some(EntryView(e.clientName, e.clientPhone,
             Get(Totals(e.lines, AllocationsOf(f.allocations, entry.value)), currency))))
  }

  function Converted(amount: real, from: Currency, to: Currency, rate: real): int {
    if from == to then Round(amount) else Round(amount * rate)
  }

  /** Within a currency the stored amount itself, otherwise the nearest cent of amount times rate. */
  predicate ConvertsTo(amount: real, stored: int, from: Currency, to: Currency, rate: real, converted: int) {
    && Nearest(stored, amount)
    && (from == to ==> converted == stored)
    && (from != to ==> Nearest(converted, amount * rate))
  }

  lemma ConversionIsNearest(amount: real, from: Currency, to: Currency, rate: real, converted: int)
    ensures ConvertsTo(amount, Round(amount), from, to, rate, converted)
      <==> converted == Converted(amount, from, to, rate)
  {
    RoundIsNearest(amount);
    RoundIsNearest(amount * rate);
  }

  // ---- opening an operation ----------------------------------------------------------------

  function Text(text: Option<string>): string {
    if text.Some? then text.value else ""
  }

  /** The debt, and then the credited reliquat, as movements of client `c`. */
  function DebtsAfter(d: Debts, op: Id, c: Id, split: Split, action: ReliquatAction, currency: Currency): Debts
    requires c < |d.clients|
  {
    var owed := if split.debt > 0 then Clients.DeltaApplied(d, c, split.debt, op, false, currency) else d;
    if split.reliquat > 0 && action.ClientCredit?
    then Clients.DeltaApplied(owed, c, -split.reliquat, op, false, currency) else owed
  }

  /** The reservation, if there is something to reserve. */
  function FundsAfter(f: Funds, op: Id, draft: Op): Funds {
    if draft.entry.Some? && draft.entry.value < |f.entries| && draft.split.allocation > 0
    then Reserved(f, Allocation(draft.entry.value, op, draft.currency, draft.split.allocation))
    else f
  }

  /** The operation row with everything that is written beside it: allocation, client movements
      and the first status row. `draft.client` is filled in here. */
  function Opened(l: Ledger, draft: Op, name: Option<string>, phone: Option<string>): Ledger {
    var id := |l.desk.ops|;
    var (debts, client) :=
      if NeedsClient(draft.split, draft.action) then
        var (d, c) := Clients.GotOrCreated(l.debts, draft.company, Text(name), Text(phone));
        (DebtsAfter(d, id, c, draft.split, draft.action, draft.currency), Some(c))
      else (l.debts, None);
    l.(funds := FundsAfter(l.funds, id, draft),
       debts := debts,
       desk := l.desk.(ops := l.desk.ops + [draft.(client := client)],
                       history := l.desk.history + [StatusRow(id, None, Pending, draft.company)]))
  }

  datatype TransferRequest = TransferRequest(
    collab: Id, entry: Option<Id>, amount: real, currency: Currency, target: Option<Currency>, mode: SendMode,
    name: Option<string>, phone: Option<string>, action: ReliquatAction)

  datatype PaymentRequest = PaymentRequest(
    collab: Id, entry: Option<Id>, wallet: Option<Id>, amount: real, currency: Currency,
    name: Option<string>, phone: Option<string>, action: ReliquatAction)

  function EntryName(view: Option<EntryView>): Option<string> {
    if view.Some? then view.value.name else None
  }

  function EntryPhone(view: Option<EntryView>): Option<string> {
    if view.Some? then view.value.phone else None
  }

  function TransferOpened(l: Ledger, company: Company, q: TransferRequest): Result<Ledger> {
    if q.amount <= 0.0 then Err(Invalid)
    else
      var collab :- ReadyCollab(l, company, q.collab);
      var target := if q.target.Some? then q.target.value else collab.currency;
      match PrivateRates.Lookup(l.tariffs, PrivateRates.Precedence(company, q.collab, q.mode, q.currency, target))
      case None => Err(Conflict)
      case Some(rate) =>
        var view :- DrawnEntry(l.funds, company, q.entry, q.currency);
        var split :- SplitOf(q.amount, q.action, q.name, q.phone, view);
        Ok(Opened(l, Op(Transfer, company, q.collab, q.entry, None, None, Round(q.amount), q.currency, target,
                        Converted(q.amount, q.currency, target, rate), false, split, q.action, Pending),
                  OrElse(q.name, EntryName(view)), OrElse(q.phone, EntryPhone(view))))
  }

  /** `get_balance_for_company`: credits minus debits, whatever their currency. */
  function Balance(balances: seq<BalanceMove>, collab: Id, company: Company): int {
    if balances == [] then 0
    else
      var m := balances[|balances| - 1];
      Balance(balances[..|balances| - 1], collab, company)
      + (if m.collab == collab && m.creditor == company then m.amount else 0)
      - (if m.collab == collab && m.debtor == company then m.amount else 0)
  }

  function CollaborativeRate(l: Ledger, c: Id): real
    requires c < |l.pacts.collabs|
  {
    var rate := Collaborations.CurrentRate(l.pacts, c);
    if rate.Some? then rate.value else 0.0
  }

  function PaymentOpened(l: Ledger, company: Company, q: PaymentRequest): Result<Ledger> {
    if q.amount <= 0.0 || (q.entry.Some? && q.wallet.Some?) then Err(Invalid)
    else
      var collab :- ReadyCollab(l, company, q.collab);
      var settles := Balance(l.desk.balances, q.collab, company) < 0;
      var view :- DrawnEntry(l.funds, company, q.entry, q.currency);
      var split :- SplitOf(q.amount, q.action, q.name, q.phone, view);
      if q.wallet.Some? && !OwnWallet(l.till, company, q.wallet.value) then Err(NotFound)
      else if q.wallet.Some? && l.till.wallets[q.wallet.value].currency != q.currency then Err(Conflict)
      else
        var converted := Converted(q.amount, q.currency, collab.currency, CollaborativeRate(l, q.collab));
        Ok(Opened(l, Op(Payment, company, q.collab, q.entry, q.wallet, None, Round(q.amount), q.currency,
                        collab.currency, converted, settles, split, q.action, Pending),
                  OrElse(q.name, EntryName(view)), OrElse(q.phone, EntryPhone(view))))
  }

  lemma PaymentConversion(l: Ledger, company: Company, q: PaymentRequest)
    requires PaymentOpened(l, company, q).Ok?
    ensures q.collab < |l.pacts.collabs| && l.pacts.collabs[q.collab].currentRate.Some?
    ensures var ops := PaymentOpened(l, company, q).value.desk.ops;
      && |ops| == |l.desk.ops| + 1
      && var op, target := ops[|l.desk.ops|], l.pacts.collabs[q.collab].currency;
         && op.currency == q.currency && op.targetCurrency == target
         && ConvertsTo(q.amount, op.amount, q.currency, target, CollaborativeRate(l, q.collab), op.converted)
  {
    hide Round;
    RoundIsNearest(q.amount);
    ConversionIsNearest(
      q.amount, q.currency, l.pacts.collabs[q.collab].currency, CollaborativeRate(l, q.collab),
      PaymentOpened(l, company, q).value.desk.ops[|l.desk.ops|].converted);
  }

  lemma TransferConversion(l: Ledger, company: Company, q: TransferRequest, target: Currency)
    requires TransferOpened(l, company, q).Ok?
    ensures q.collab < |l.pacts.collabs|
    ensures target == (if q.target.Some? then q.target.value else l.pacts.collabs[q.collab].currency) ==>
      var slots := PrivateRates.Precedence(company, q.collab, q.mode, q.currency, target);
      var rate := PrivateRates.Lookup(l.tariffs, slots);
      var ops := TransferOpened(l, company, q).value.desk.ops;
      && rate.Some? && |ops| == |l.desk.ops| + 1
      && var op := ops[|l.desk.ops|];
         && op.currency == q.currency && op.targetCurrency == target
         && ConvertsTo(q.amount, op.amount, q.currency, target, rate.value, op.converted)
  {
    hide Round;
    var op := TransferOpened(l, company, q).value.desk.ops[|l.desk.ops|];
    var rate := PrivateRates.Lookup(
      l.tariffs, PrivateRates.Precedence(company, q.collab, q.mode, q.currency, op.targetCurrency));
    RoundIsNearest(q.amount);
    ConversionIsNearest(q.amount, q.currency, op.targetCurrency, rate.value, op.converted);
  }

  method ReserveEntry(session: Session, id: Id, op: Op)
    modifies session
    ensures session.db == old(session.db)
    ensures session.view == old(session.view).(funds := FundsAfter(old(session.view.funds), id, op))
  {
    if op.entry.Some? && op.entry.value < |session.view.funds.entries| && op.split.allocation > 0 {
      var e := op.entry.value;
      var funds := session.view.funds;
      var allocations := AllocationsOf(funds.allocations, e);
      var allocation := Allocation(e, id, op.currency, op.split.allocation);
      var status := RecomputeStatus(funds.entries[e].lines, allocations + [allocation]);
      session.view := session.view.(
        funds := Funds(funds.entries[e := funds.entries[e].(status := status)], funds.allocations + [allocation]));
    }
  }

  method RecordDebts(session: Session, id: Id, op: Op, c: Id)
    requires c < |session.view.debts.clients|
    modifies session
    ensures session.db == old(session.db)
    ensures session.view == old(session.view).(
      debts := DebtsAfter(old(session.view.debts), id, c, op.split, op.action, op.currency))
  {
    if op.split.debt > 0 {
      Clients.ApplyBalanceDelta(session, c, op.split.debt, id, false, op.currency);
    }
    if op.split.reliquat > 0 && op.action.ClientCredit? {
      Clients.ApplyBalanceDelta(session, c, -op.split.reliquat, id, false, op.currency);
    }
  }

  /** Everything `create_*` writes once its checks have passed. */
  method OpenOperation(session: Session, draft: Op, name: Option<string>, phone: Option<string>)
    requires session.Clean()
    modifies session
    ensures session.Clean()
    ensures session.db == Opened(old(session.db), draft, name, phone)
  {
    var id := |session.view.desk.ops|;
    var client: Option<Id> := None;
    if NeedsClient(draft.split, draft.action) {
      var c := Clients.GetOrCreateClient(session, draft.company, Text(name), Text(phone));
      client := Some(c);
    }
    var desk := session.view.desk;
    desk := desk.(ops := desk.ops + [draft.(client := client)]);
    session.view := session.view.(desk := desk);
    ReserveEntry(session, id, draft);
    if client.Some? {
      RecordDebts(session, id, draft, client.value);
    }
    desk := desk.(history := desk.history + [StatusRow(id, None, Pending, draft.company)]);
    session.view := session.view.(desk := desk);
    session.Commit();
  }

  method CreateTransfer(session: Session, company: Company, q: TransferRequest) returns (r: Result<()>)
    requires session.Clean()
    modifies session
    ensures session.Clean()
    ensures Settled(old(session.db), TransferOpened(old(session.db), company, q), session.db, r)
  {
    if q.amount <= 0.0 {
      return Err(Invalid);
    }
    var l := session.view;
    if q.collab >= |l.pacts.collabs| || !Collaborations.IsParty(l.pacts.collabs[q.collab], company) {
      return Err(NotFound);
    }
    var collab := l.pacts.collabs[q.collab];
    if !collab.status.CollabAccepted? {
      return Err(Conflict);
    }
    if collab.currentRate.None? {
      return Err(Conflict);
    }
    var target := if q.target.Some? then q.target.value else collab.currency;
    var rate := PrivateRates.FindRate(l.tariffs, company, q.collab, q.mode, q.currency, target);
    if rate.None? {
      return Err(Conflict);
    }
    var view := DrawnEntry(l.funds, company, q.entry, q.currency);
    if view.Err? {
      return Err(view.error);
    }
    var split := SplitOf(q.amount, q.action, q.name, q.phone, view.value);
    if split.Err? {
      return Err(split.error);
    }
    var converted := Converted(q.amount, q.currency, target, rate.value);
    var draft := Op(
      Transfer, company, q.collab, q.entry, None, None, Round(q.amount), q.currency, target, converted, false,
      split.value, q.action, Pending);
    OpenOperation(session, draft, OrElse(q.name, EntryName(view.value)), OrElse(q.phone, EntryPhone(view.value)));
    return Ok(());
  }

  method CreatePayment(session: Session, company: Company, q: PaymentRequest) returns (r: Result<()>)
    requires session.Clean()
    modifies session
    ensures session.Clean()
    ensures Settled(old(session.db), PaymentOpened(old(session.db), company, q), session.db, r)
  {
    if q.amount <= 0.0 || (q.entry.Some? && q.wallet.Some?) {
      return Err(Invalid);
    }
    var l := session.view;
    if q.collab >= |l.pacts.collabs| || !Collaborations.IsParty(l.pacts.collabs[q.collab], company) {
      return Err(NotFound);
    }
    var collab := l.pacts.collabs[q.collab];
    if !collab.status.CollabAccepted? {
      return Err(Conflict);
    }
    if collab.currentRate.None? {
      return Err(Conflict);
    }
    var settles := Balance(l.desk.balances, q.collab, company) < 0;
    var view := DrawnEntry(l.funds, company, q.entry, q.currency);
    if view.Err? {
      return Err(view.error);
    }
    var split := SplitOf(q.amount, q.action, q.name, q.phone, view.value);
    if split.Err? {
      return Err(split.error);
    }
    if q.wallet.Some? {
      if q.wallet.value >= |l.till.wallets| || l.till.wallets[q.wallet.value].company != company {
        return Err(NotFound);
      }
      if l.till.wallets[q.wallet.value].currency != q.currency {
        return Err(Conflict);
      }
    }
    var converted := Converted(q.amount, q.currency, collab.currency, CollaborativeRate(l, q.collab));
    var draft := Op(
      Payment, company, q.collab, q.entry, q.wallet, None, Round(q.amount), q.currency, collab.currency, converted,
      settles, split.value, q.action, Pending);
    OpenOperation(session, draft, OrElse(q.name, EntryName(view.value)), OrElse(q.phone, EntryPhone(view.value)));
    return Ok(());
  }

  // ---- deciding an operation ---------------------------------------------------------------

  /** `_get_transfer_for_party` / `_get_payment_for_party`. */
  predicate Visible(l: Ledger, kind: OpKind, company: Company, op: Id) {
    op < |l.desk.ops| && l.desk.ops[op].kind == kind && Collaborations.Owned(l.pacts, company, l.desk.ops[op].collab)
  }

  datatype Role = Counterparty | Creator

  /** Who may take a decision, and that it has not been taken yet. */
  function DecisionRefusal(l: Ledger, kind: OpKind, company: Company, op: Id, role: Role): Option<Error> {
    if !Visible(l, kind, company, op) then Some(NotFound)
    else
      var row := l.desk.ops[op];
      var allowed := if role.Creator? then row.company else OtherParty(l.pacts.collabs[row.collab], row.company);
      if company != allowed then Some(PermissionDenied)
      else if !row.status.Pending? then Some(Conflict)
      else None
  }

  function StatusChanged(d: Desk, op: Id, status: OpStatus, company: Company): Desk
    requires op < |d.ops|
  {
    d.(ops := d.ops[op := d.ops[op].(status := status)],
       history := d.history + [StatusRow(op, Some(d.ops[op].status), status, company)])
  }

  function Posted(d: Desk, move: BalanceMove): Desk {
    d.(balances := d.balances + [move])
  }

  function TransferApproved(l: Ledger, company: Company, op: Id, wallet: Id): Result<Ledger> {
    match DecisionRefusal(l, Transfer, company, op, Counterparty)
    case Some(e) => Err(e)
    case None =>
      var row := l.desk.ops[op];
      if !OwnWallet(l.till, company, wallet) then Err(NotFound)
      else if l.till.wallets[wallet].currency != row.targetCurrency then Err(Conflict)
      else
        var till :- Moved(l.till, Order(wallet, Out, Decimal(row.converted)), OperationPayout(op));
        var desk := l.desk.(ops := l.desk.ops[op := row.(wallet := Some(wallet))]);
        var move := BalanceMove(row.collab, op, row.targetCurrency, row.converted, row.company, company);
        Ok(l.(till := till, desk := StatusChanged(Posted(desk, move), op, Approved, company)))
  }

  function PaymentMove(l: Ledger, company: Company, op: Id): BalanceMove
    requires op < |l.desk.ops| && l.desk.ops[op].collab < |l.pacts.collabs|
  {
    var row := l.desk.ops[op];
    var currency := l.pacts.collabs[row.collab].currency;
    if row.settlesDebt
    then BalanceMove(row.collab, op, currency, row.converted, company, row.company)
    else BalanceMove(row.collab, op, currency, row.converted, row.company, company)
  }

  function PaymentApproved(l: Ledger, company: Company, op: Id): Result<Ledger> {
    match DecisionRefusal(l, Payment, company, op, Counterparty)
    case Some(e) => Err(e)
    case None =>
      var row := l.desk.ops[op];
      var till :- if row.wallet.Some?
                  then Moved(l.till, Order(row.wallet.value, Out, Decimal(row.amount)), OperationPayout(op))
                  else Ok(l.till);
      Ok(l.(till := till, desk := StatusChanged(Posted(l.desk, PaymentMove(l, company, op)), op, Approved, company)))
  }

  /** A rejection or a cancellation: the reservation is released, the client movements reversed. */
  function Closed(l: Ledger, kind: OpKind, company: Company, op: Id, role: Role): Result<Ledger> {
    match DecisionRefusal(l, kind, company, op, role)
    case Some(e) => Err(e)
    case None =>
      var row := l.desk.ops[op];
      var verdict := if role.Creator? then Cancelled else Rejected;
      if row.entry.Some? && !Entries.Owned(l.funds, row.company, row.entry.value) then Err(NotFound)
      else
        var debts :- if row.client.Some?
                     then Clients.Reversed(l.debts, row.company, row.client.value, op)
                     else Ok(l.debts);
        Ok(l.(funds := if row.entry.Some? then Released(l.funds, row.entry.value, op) else l.funds,
              debts := debts,
              desk := StatusChanged(l.desk, op, verdict, company)))
  }

  method ApproveTransfer(session: Session, company: Company, op: Id, wallet: Id) returns (r: Result<()>)
    requires session.Clean()
    modifies session
    ensures session.Clean()
    ensures Settled(old(session.db), TransferApproved(old(session.db), company, op, wallet), session.db, r)
  {
    var refusal := DecisionRefusal(session.view, Transfer, company, op, Counterparty);
    if refusal.Some? {
      return Err(refusal.value);
    }
    var row := session.view.desk.ops[op];
    var wallets := session.view.till.wallets;
    if wallet >= |wallets| || wallets[wallet].company != company {
      return Err(NotFound);
    }
    if wallets[wallet].currency != row.targetCurrency {
      return Err(Conflict);
    }
    r := ApplyMovement(session, Order(wallet, Out, Decimal(row.converted)), OperationPayout(op));
    if r.Err? {
      session.Rollback();
      return;
    }
    row := row.(wallet := Some(wallet));
    var desk := session.view.desk;
    desk := desk.(balances := desk.balances
      + [BalanceMove(row.collab, op, row.targetCurrency, row.converted, row.company, company)]);
    var before := row.status;
    row := row.(status := Approved);
    desk := desk.(ops := desk.ops[op := row]);
    desk := desk.(history := desk.history + [StatusRow(op, Some(before), Approved, company)]);
    session.view := session.view.(desk := desk);
    session.Commit();
    return Ok(());
  }

  method ApprovePayment(session: Session, company: Company, op: Id) returns (r: Result<()>)
    requires session.Clean()
    modifies session
    ensures session.Clean()
    ensures Settled(old(session.db), PaymentApproved(old(session.db), company, op), session.db, r)
  {
    var refusal := DecisionRefusal(session.view, Payment, company, op, Counterparty);
    if refusal.Some? {
      return Err(refusal.value);
    }
    var row := session.view.desk.ops[op];
    var debtor, creditor := row.company, company;
    if row.settlesDebt {
      debtor, creditor := company, row.company;
    }
    var desk := session.view.desk;
    var currency := session.view.pacts.collabs[row.collab].currency;
    desk := desk.(balances := desk.balances
      + [BalanceMove(row.collab, op, currency, row.converted, debtor, creditor)]);
    session.view := session.view.(desk := desk);
    if row.wallet.Some? {
      if row.wallet.value >= |session.view.till.wallets| {
        session.Rollback();
        return Err(NotFound);
      }
      r := ApplyMovement(session, Order(row.wallet.value, Out, Decimal(row.amount)), OperationPayout(op));
      if r.Err? {
        session.Rollback();
        return;
      }
    }
    var before := row.status;
    row := row.(status := Approved);
    desk := desk.(ops := desk.ops[op := row],
                  history := desk.history + [StatusRow(op, Some(before), Approved, company)]);
    session.view := session.view.(desk := desk);
    session.Commit();
    return Ok(());
  }

  /** `reject_*` for the counterparty, `cancel_*` for the creator. */
  method CloseOperation(session: Session, kind: OpKind, company: Company, op: Id, role: Role) returns (r: Result<()>)
    requires session.Clean()
    modifies session
    ensures session.Clean()
    ensures Settled(old(session.db), Closed(old(session.db), kind, company, op, role), session.db, r)
  {
    var refusal := DecisionRefusal(session.view, kind, company, op, role);
    if refusal.Some? {
      return Err(refusal.value);
    }
    var row := session.view.desk.ops[op];
    var before := row.status;
    row := row.(status := if role.Creator? then Cancelled else Rejected);
    session.view := session.view.(desk := session.view.desk.(ops := session.view.desk.ops[op := row]));

    if row.entry.Some? {
      var e := row.entry.value;
      var funds := session.view.funds;
      var allocation := FindTarget(funds.allocations, op);
      if allocation.Some? {
        funds := funds.(allocations := RemoveAt(funds.allocations, allocation.value));
      }
      if e >= |funds.entries| || funds.entries[e].company != row.company {
        session.Rollback();
        return Err(NotFound);
      }
      var status := RecomputeStatus(funds.entries[e].lines, AllocationsOf(funds.allocations, e));
      funds := funds.(entries := funds.entries[e := funds.entries[e].(status := status)]);
      session.view := session.view.(funds := funds);
    }
    if row.client.Some? {
      r := Clients.ReverseMovementsForSource(session, row.company, row.client.value, op);
      if r.Err? {
        session.Rollback();
        return;
      }
    }
    session.view := session.view.(desk := session.view.desk.(
      history := session.view.desk.history + [StatusRow(op, Some(before), row.status, company)]));
    session.Commit();
    return Ok(());
  }
}
