/** What a new transfer or payment takes from its entry, from its client and from its creator, read from
    the request and the tables, and which requests are accepted. */
module Openings {
  import opened Money
  import opened Tables
  import opened Entries
  import opened EntryLedger
  import opened Operations
  import P = Collaborations
  import R = PrivateRates
  import C = Clients
  import opened Deployment

  /** What the two kinds of request have in common. */
  datatype Asked = Asked(
    collab: Id, entry: Option<Id>, amount: real, currency: Currency, name: Option<string>, phone: Option<string>,
    action: ReliquatAction)

  predicate Opens(ev: Event) {
    ev.CreateTransfer? || ev.CreatePayment?
  }

  function AskedBy(ev: Event): Asked
    requires Opens(ev)
  {
    match ev
    case CreateTransfer(_, q) => Asked(q.collab, q.entry, q.amount, q.currency, q.name, q.phone, q.action)
    case CreatePayment(_, q) => Asked(q.collab, q.entry, q.amount, q.currency, q.name, q.phone, q.action)
  }

  function NewOp(l: Ledger, ev: Event): Op
    requires Opens(ev) && Applied(l, ev).Ok?
  {
    Step(l, ev).desk.ops[|l.desk.ops|]
  }

  // ---- the money of the entry --------------------------------------------------------------

  predicate DrawsOn(l: Ledger, ev: Event, e: Id) {
    Opens(ev) && Applied(l, ev).Ok? && AskedBy(ev).entry == Some(e)
  }

  /** An accepted request, transfer or payment, becomes a PENDING operation of its company that says what the
      request said; what else is written follows from that row. */
  lemma Accepted(l: Ledger, ev: Event)
    requires Opens(ev) && Applied(l, ev).Ok?
    ensures var q := AskedBy(ev);
      && q.amount > 0.0
      && |Step(l, ev).desk.ops| == |l.desk.ops| + 1
      && var op, view := NewOp(l, ev), DrawnEntry(l.funds, ev.company, q.entry, q.currency);
         && view.Ok? && SplitOf(q.amount, q.action, q.name, q.phone, view.value) == Ok(op.split)
         && op.company == ev.company && op.collab == q.collab && op.entry == q.entry && op.currency == q.currency
         && op.amount == Round(q.amount) && op.action == q.action && op.status.Pending?
         && op.kind == (if ev.CreateTransfer? then Transfer else Payment)
         && op.wallet == (if ev.CreateTransfer? then None else ev.payment.wallet)
         && Step(l, ev)
            == Opened(l, op, OrElse(q.name, EntryName(view.value)), OrElse(q.phone, EntryPhone(view.value)))
  {
    hide SplitOf, DrawnEntry, Round;
  }

  lemma ViewOfEntry(f: Funds, company: Company, e: Id, currency: Currency)
    requires DrawnEntry(f, company, Some(e), currency).Ok?
    ensures e < |f.entries| && DrawnEntry(f, company, Some(e), currency).value
      == Some(EntryView(f.entries[e].clientName, f.entries[e].clientPhone, Available(f, e, currency)))
  {
    AvailableIsTotal(f, e, currency);
  }

  lemma OpeningDivides(l: Ledger, ev: Event, e: Id)
    requires Sound(l) && DrawsOn(l, ev, e)
    ensures var q, op := AskedBy(ev), NewOp(l, ev);
      && e < |l.funds.entries|
      && Nearest(op.amount, q.amount)
      && Divides(q.amount, op.amount, Available(l.funds, e, q.currency), q.action, op.split)
      && 0 <= op.split.allocation && 0 <= op.split.debt && 0 <= op.split.reliquat
      && (op.split.debt > 0 || op.split.reliquat > 0 ==> op.split.allocation == Available(l.funds, e, q.currency))
  {
    var q := AskedBy(ev);
    Accepted(l, ev);
    ViewOfEntry(l.funds, ev.company, e, q.currency);
    var view := DrawnEntry(l.funds, ev.company, q.entry, q.currency).value.value;
    assert EntrySound(l.till.wallets, l.funds, e);
    hide Sound, Step, Applied, DrawnEntry, SplitOf;
    SplitBalances(q.amount, q.action, q.name, q.phone, view);
    RoundIsNearest(q.amount);
  }

  /** In every run a new operation on an entry divides its amount by what the entry has, and takes from
      the entry exactly its allocation: asking for more than there is leaves nothing, and so does a
      reliquat; no other entry and no other currency is touched. */
  lemma OpeningTakesWhatIsThere(events: seq<Event>, ev: Event, e: Id)
    requires DrawsOn(Exec(events), ev, e)
    ensures var l := Exec(events); var m, q, op := Step(l, ev).funds, AskedBy(ev), NewOp(l, ev);
      && e < |l.funds.entries| == |m.entries|
      && Nearest(op.amount, q.amount)
      && Divides(q.amount, op.amount, Available(l.funds, e, q.currency), q.action, op.split)
      && (op.split.debt > 0 || op.split.reliquat > 0 ==> Available(m, e, q.currency) == 0)
      && forall k, c :: 0 <= k < |m.entries| ==>
           Available(m, k, c)
           == Available(l.funds, k, c) - if k == e && c == q.currency then op.split.allocation else 0
  {
    var l := Exec(events);
    var q, op := AskedBy(ev), NewOp(l, ev);
    ReachableIsSound(events);
    OpeningDivides(l, ev, e);
    Accepted(l, ev);
    hide Exec, Sound, Step, Applied, DrawnEntry, SplitOf, Nearest, Divides, Round;
    var view := DrawnEntry(l.funds, ev.company, q.entry, q.currency).value;
    TakenFrom(l, op, OrElse(q.name, EntryName(view)), OrElse(q.phone, EntryPhone(view)));
  }

  lemma TakenFrom(l: Ledger, op: Op, name: Option<string>, phone: Option<string>)
    requires op.entry.Some? && op.entry.value < |l.funds.entries| && op.split.allocation >= 0
    ensures var m := Opened(l, op, name, phone).funds;
      && |m.entries| == |l.funds.entries|
      && forall k, c :: 0 <= k < |m.entries| ==>
           Available(m, k, c)
           == Available(l.funds, k, c) - if k == op.entry.value && c == op.currency then op.split.allocation else 0
  {
    var a := Allocation(op.entry.value, |l.desk.ops|, op.currency, op.split.allocation);
    var m := Opened(l, op, name, phone).funds;
    forall k, c | 0 <= k < |m.entries|
      ensures Available(m, k, c)
           == Available(l.funds, k, c) - if k == op.entry.value && c == op.currency then op.split.allocation else 0
    {
      if op.split.allocation > 0 {
        RowAdded(l.funds.allocations, a, k, c);
      }
    }
  }

  /** Without an entry nothing is allocated, and a client who is named owes the whole amount. */
  lemma DirectOpeningIsOwed(l: Ledger, ev: Event)
    requires Opens(ev) && Applied(l, ev).Ok? && AskedBy(ev).entry.None?
    ensures var q, op := AskedBy(ev), NewOp(l, ev);
      && Step(l, ev).funds == l.funds
      && Nearest(op.amount, q.amount)
      && op.split == Split(0, if Given(q.name) && Given(q.phone) then op.amount else 0, 0)
  {
    Accepted(l, ev);
    RoundIsNearest(AskedBy(ev).amount);
    hide Step, Applied, Nearest, Round;
  }

  // ---- the client --------------------------------------------------------------------------

  /** A text that was filled in. */
  predicate Given(text: Option<string>) {
    text.Some? && |text.value| > 0
  }

  /** The client meant: by name and phone of the request, each or else of the entry. */
  predicate MeansClient(l: Ledger, q: Asked, name: string, phone: string) {
    && (if Given(q.name) then name == q.name.value
        else && q.entry.Some? && q.entry.value < |l.funds.entries|
             && l.funds.entries[q.entry.value].clientName == Some(name))
    && (if Given(q.phone) then phone == q.phone.value
        else && q.entry.Some? && q.entry.value < |l.funds.entries|
             && l.funds.entries[q.entry.value].clientPhone == Some(phone))
  }

  function BalanceOf(clients: seq<Client>, c: Id): int {
    if c < |clients| then clients[c].balance else 0
  }

  lemma DebtsChange(d: Debts, id: Id, c: Id, split: Split, action: ReliquatAction, currency: Currency)
    requires c < |d.clients| && split.debt >= 0 && split.reliquat >= 0
    ensures DebtsAfter(d, id, c, split, action, currency).clients
      == d.clients[c := d.clients[c].(balance := d.clients[c].balance + split.debt - Credited(split, action))]
  {
    var owed := if split.debt > 0 then C.DeltaApplied(d, c, split.debt, id, false, currency) else d;
    assert owed.clients == d.clients[c := d.clients[c].(balance := d.clients[c].balance + split.debt)];
  }

  /** An operation has a client exactly if it leaves a debt or a reliquat to be credited. The client is the
      one the request means, or else the entry, is known under that phone or entered under that name, and
      owes the debt more and the credited reliquat less; nobody else's balance changes. */
  ghost predicate Charges(l: Ledger, q: Asked, op: Op, before: seq<Client>, after: seq<Client>) {
    var credited := if q.action.ClientCredit? then op.split.reliquat else 0;
    && (op.client.Some? <==> op.split.debt > 0 || credited > 0)
    && |before| <= |after|
    && (op.client.Some? ==>
          && var c := op.client.value;
             && c < |after| <= (if c < |before| then |before| else c + 1)
             && after[c].company == op.company
             && (exists name :: MeansClient(l, q, name, after[c].phone) && (c >= |before| ==> after[c].name == name))
             && BalanceOf(after, c) == BalanceOf(before, c) + op.split.debt - credited)
    && (op.client.None? ==> after == before)
    && (forall k :: 0 <= k < |before| && op.client != Some(k) ==> after[k] == before[k])
  }

  lemma NeededClientIsCharged(l: Ledger, q: Asked, op: Op, name: string, phone: string)
    requires q.action == op.action && op.split.debt >= 0 && op.split.reliquat >= 0
    requires NeedsClient(op.split, op.action) && MeansClient(l, q, name, phone)
    requires op.client == Some(C.GotOrCreated(l.debts, op.company, name, phone).1)
    ensures var (d, c) := C.GotOrCreated(l.debts, op.company, name, phone);
      Charges(l, q, op, l.debts.clients, DebtsAfter(d, |l.desk.ops|, c, op.split, op.action, op.currency).clients)
  {
    hide DebtsAfter, MeansClient;
    var (d, c) := C.GotOrCreated(l.debts, op.company, name, phone);
    C.ClientIsKnownByPhone(l.debts, op.company, name, phone);
    DebtsChange(d, |l.desk.ops|, c, op.split, op.action, op.currency);
  }

  lemma OpeningCharges(l: Ledger, ev: Event)
    requires Opens(ev) && Applied(l, ev).Ok? && NewOp(l, ev).split.debt >= 0 && NewOp(l, ev).split.reliquat >= 0
    ensures Charges(l, AskedBy(ev), NewOp(l, ev), l.debts.clients, Step(l, ev).debts.clients)
  {
    var q, op := AskedBy(ev), NewOp(l, ev);
    Accepted(l, ev);
    hide Step, Applied, SplitOf, DrawnEntry, DebtsAfter, FundsAfter;
    if NeedsClient(op.split, op.action) {
      ClientIsMeant(l, ev);
      hide MeansClient, Charges;
      var view := DrawnEntry(l.funds, ev.company, q.entry, q.currency).value;
      NeededClientIsCharged(
        l, q, op, Text(OrElse(q.name, EntryName(view))), Text(OrElse(q.phone, EntryPhone(view))));
    }
  }

  /** In every run a new operation charges its client. */
  lemma OpeningChargesClient(events: seq<Event>, ev: Event)
    requires Opens(ev) && Applied(Exec(events), ev).Ok?
    ensures var l := Exec(events);
      Charges(l, AskedBy(ev), NewOp(l, ev), l.debts.clients, Step(l, ev).debts.clients)
  {
    var l, q := Exec(events), AskedBy(ev);
    ReachableIsSound(events);
    Accepted(l, ev);
    hide Exec, Sound, Step, Applied, SplitOf, DrawnEntry;
    SplitFits(l, ev.company, q.entry, q.currency, q.amount, q.action, q.name, q.phone);
    OpeningCharges(l, ev);
  }

  lemma ClientIsMeant(l: Ledger, ev: Event)
    requires Opens(ev) && Applied(l, ev).Ok? && NeedsClient(NewOp(l, ev).split, AskedBy(ev).action)
    ensures var q := AskedBy(ev);
      && DrawnEntry(l.funds, ev.company, q.entry, q.currency).Ok?
      && var view := DrawnEntry(l.funds, ev.company, q.entry, q.currency).value;
         MeansClient(l, q, Text(OrElse(q.name, EntryName(view))), Text(OrElse(q.phone, EntryPhone(view))))
  {
    var q := AskedBy(ev);
    Accepted(l, ev);
    hide Applied, Step, SplitOf;
    ClientIsIdentified(
      q.amount, q.action, q.name, q.phone, DrawnEntry(l.funds, ev.company, q.entry, q.currency).value);
  }

  // ---- which requests are accepted ---------------------------------------------------------

  /** A collaboration of the company that was accepted and has a rate. */
  predicate Agreed(p: Pacts, company: Company, c: Id) {
    && c < |p.collabs| && company in {p.collabs[c].initiator, p.collabs[c].target}
    && p.collabs[c].status.CollabAccepted? && p.collabs[c].currentRate.Some?
  }

  /** An entry of the company from which money can be taken. */
  predicate Drawable(f: Funds, company: Company, e: Id) {
    && e < |f.entries| && f.entries[e].company == company && f.entries[e].mergedInto.None?
    && (f.entries[e].status.Unallocated? || f.entries[e].status.PartiallyAllocated?)
  }

  /** A client has to be known when the entry has less than the amount, or more and the rest is to be
      credited. Name and phone then come together from the request, or together from the entry. */
  predicate ClientKnown(f: Funds, q: Asked, e: Id)
    requires e < |f.entries|
  {
    var have := Available(f, e, q.currency) as real;
    100.0 * q.amount > have || (100.0 * q.amount < have && q.action.ClientCredit?) ==>
      || (Given(q.name) && Given(q.phone))
      || (Given(f.entries[e].clientName) && Given(f.entries[e].clientPhone))
  }

  predicate Backed(f: Funds, company: Company, q: Asked) {
    q.entry.Some? ==> Drawable(f, company, q.entry.value) && ClientKnown(f, q, q.entry.value)
  }

  predicate SplitGoesThrough(f: Funds, company: Company, q: Asked) {
    var view := DrawnEntry(f, company, q.entry, q.currency);
    view.Ok? && SplitOf(q.amount, q.action, q.name, q.phone, view.value).Ok?
  }

  lemma BackedIff(f: Funds, company: Company, q: Asked)
    ensures SplitGoesThrough(f, company, q) <==> Backed(f, company, q)
  {
    if q.entry.Some? && Drawable(f, company, q.entry.value) {
      ViewOfEntry(f, company, q.entry.value, q.currency);
      hide Available;
      var have := Available(f, q.entry.value, q.currency);
      assert 100.0 * Decimal(have) == have as real;
    }
  }

  lemma TransferOpensIff(l: Ledger, company: Company, q: TransferRequest)
    requires R.OneActive(l.tariffs)
    ensures TransferOpened(l, company, q).Ok? <==>
      && q.amount > 0.0 && Agreed(l.pacts, company, q.collab)
      && var target := if q.target.Some? then q.target.value else l.pacts.collabs[q.collab].currency;
      && (exists i :: 0 <= i < |l.tariffs| && R.Applies(l.tariffs[i], company, q.collab, q.mode, q.currency, target))
      && Backed(l.funds, company, AskedBy(CreateTransfer(company, q)))
  {
    BackedIff(l.funds, company, AskedBy(CreateTransfer(company, q)));
    if Agreed(l.pacts, company, q.collab) {
      var target := if q.target.Some? then q.target.value else l.pacts.collabs[q.collab].currency;
      R.NoRateIffNoneApplies(l.tariffs, company, q.collab, q.mode, q.currency, target);
    }
    hide SplitOf, DrawnEntry, Backed, R.Precedence, R.Lookup, R.Applies, Opened;
  }

  lemma PaymentOpensIff(l: Ledger, company: Company, q: PaymentRequest)
    ensures PaymentOpened(l, company, q).Ok? <==>
      && q.amount > 0.0 && Agreed(l.pacts, company, q.collab)
      && (q.wallet.Some? ==>
            && q.entry.None? && q.wallet.value < |l.till.wallets|
            && l.till.wallets[q.wallet.value].company == company
            && l.till.wallets[q.wallet.value].currency == q.currency)
      && Backed(l.funds, company, AskedBy(CreatePayment(company, q)))
  {
    BackedIff(l.funds, company, AskedBy(CreatePayment(company, q)));
    hide SplitOf, DrawnEntry, Backed, Opened;
  }

  /** In every run a transfer is accepted exactly for a positive amount in an agreed collaboration of the
      company, with a private rate that applies and, if it names an entry, one that can be drawn on and
      whose client is known where one is needed; a payment likewise, without the private rate, and from
      an entry or a wallet of its own in the currency, not both. */
  lemma OpeningSucceedsIff(events: seq<Event>, ev: Event)
    requires Opens(ev)
    ensures var l, q := Exec(events), AskedBy(ev);
      Applied(l, ev).Ok? <==>
        && q.amount > 0.0 && Agreed(l.pacts, ev.company, q.collab) && Backed(l.funds, ev.company, q)
        && match ev
           case CreateTransfer(company, t) =>
             var target := if t.target.Some? then t.target.value else l.pacts.collabs[t.collab].currency;
             exists i :: 0 <= i < |l.tariffs| && R.Applies(l.tariffs[i], company, t.collab, t.mode, t.currency, target)
           case CreatePayment(company, p) =>
             p.wallet.Some? ==>
               && p.entry.None? && p.wallet.value < |l.till.wallets|
               && l.till.wallets[p.wallet.value].company == company
               && l.till.wallets[p.wallet.value].currency == p.currency
  {
    ReachableIsSound(events);
    var l := Exec(events);
    hide Exec, Backed, R.Applies, TransferOpened, PaymentOpened, R.OneActive;
    match ev
    case CreateTransfer(company, q) => TransferOpensIff(l, company, q);
    case CreatePayment(company, q) => PaymentOpensIff(l, company, q);
  }
}
