/** One deployment as a state machine: a service call is one atomic event, which either takes
    effect or, when the service raises, leaves the ledger as it was. */
module Deployment {
  import opened Money
  import opened Tables
  import opened EntryLedger
  import opened OperationLedger
  import Merging
  import W = Wallets
  import E = Entries
  import C = Clients
  import R = PrivateRates
  import P = Collaborations
  import O = Operations
  import N = Nationals

  datatype Event =
    | CreateWallet(company: Company, code: string, currency: Currency, initial: real)
    | SetWalletStatus(company: Company, wallet: Id, active: bool)
    | CreateEntry(company: Company, name: Option<string>, phone: Option<string>, lines: seq<E.LineRequest>)
    | MergeEntries(company: Company, ids: seq<Id>)
    | CancelEntry(company: Company, entry: Id)
    | CreateClient(company: Company, clientName: string, clientPhone: string)
    | CreateTransfer(company: Company, transfer: O.TransferRequest)
    | CreatePayment(company: Company, payment: O.PaymentRequest)
    | ApproveTransfer(company: Company, op: Id, wallet: Id)
    | ApprovePayment(company: Company, op: Id)
    | CloseOperation(kind: OpKind, company: Company, op: Id, role: O.Role)
    | CreateNational(company: Company, national: N.Request)
    | CancelNational(company: Company, n: Id)
    | SetRate(company: Company, rate: R.RateRequest)
    | SetActiveStatus(company: Company, id: Id, active: bool)
    | RequestCollaboration(company: Company, target: Option<Company>, currency: Currency, newRate: real)
    | AcceptCollaboration(company: Company, collab: Id)
    | RejectCollaboration(company: Company, collab: Id)
    | CancelCollaboration(company: Company, collab: Id)
    | UpdateCollaboration(company: Company, collab: Id, newCurrency: Option<Currency>, amended: Option<real>)
    | ProposeRate(company: Company, collab: Id, newRate: real)
    | AcceptRate(company: Company, collab: Id, proposal: Id)
    | RejectRate(company: Company, collab: Id, proposal: Id)

  function InTill(l: Ledger, r: Result<Till>): Result<Ledger> {
    match r
    case Ok(t) => Ok(l.(till := t))
    case Err(e) => Err(e)
  }

  predicate Negotiates(ev: Event) {
    || ev.RequestCollaboration? || ev.AcceptCollaboration? || ev.RejectCollaboration? || ev.CancelCollaboration?
    || ev.UpdateCollaboration? || ev.ProposeRate? || ev.AcceptRate? || ev.RejectRate?
  }

  /** The calls of `collaboration_service`. */
  function PactsAfter(p: Pacts, ev: Event): Result<Pacts>
    requires Negotiates(ev)
  {
    match ev
    case RequestCollaboration(company, target, currency, rate) => P.Requested(p, company, target, currency, rate)
    case AcceptCollaboration(company, c) => P.Accepted(p, company, c)
    case RejectCollaboration(company, c) => P.RejectedBy(p, company, c)
    case CancelCollaboration(company, c) => P.CancelledBy(p, company, c)
    case UpdateCollaboration(company, c, currency, rate) => P.Updated(p, company, c, currency, rate)
    case ProposeRate(company, c, rate) => P.RateProposed(p, company, c, rate)
    case AcceptRate(company, c, r) => P.ProposalAccepted(p, company, c, r)
    case RejectRate(company, c, r) => P.ProposalRejected(p, company, c, r)
  }

  function Applied(l: Ledger, ev: Event): Result<Ledger> {
    match ev
    case CreateWallet(company, code, currency, initial) =>
      InTill(l, W.WalletCreated(l.till, company, code, currency, initial))
    case SetWalletStatus(company, w, active) => InTill(l, W.StatusSet(l.till, company, w, active))
    case CreateEntry(company, name, phone, lines) => E.EntryCreated(l, company, name, phone, lines)
    case MergeEntries(company, ids) => E.EntriesMerged(l, company, ids)
    case CancelEntry(company, e) => E.EntryCancelledBy(l, company, e)
    case CreateClient(company, name, phone) => Ok(l.(debts := C.GotOrCreated(l.debts, company, name, phone).0))
    case CreateTransfer(company, q) => O.TransferOpened(l, company, q)
    case CreatePayment(company, q) => O.PaymentOpened(l, company, q)
    case ApproveTransfer(company, o, w) => O.TransferApproved(l, company, o, w)
    case ApprovePayment(company, o) => O.PaymentApproved(l, company, o)
    case CloseOperation(kind, company, o, role) => O.Closed(l, kind, company, o, role)
    case CreateNational(company, q) => N.OperationCreated(l, company, q)
    case CancelNational(company, n) => N.OperationReversed(l, company, n)
    case SetRate(company, q) => R.RateSet(l, company, q)
    case SetActiveStatus(company, id, active) => R.ActiveStatusSet(l, company, id, active)
    case _ => P.InLedger(l, PactsAfter(l.pacts, ev))
  }

  function Step(l: Ledger, ev: Event): Ledger {
    match Applied(l, ev)
    case Ok(after) => after
    case Err(_) => l
  }

  /** The ledger a run of service calls leads to from an empty database. */
  function Exec(events: seq<Event>): Ledger {
    if events == [] then EMPTY else Step(Exec(events[..|events| - 1]), events[|events| - 1])
  }

  // ---- what a call leaves alone ------------------------------------------------------------

  predicate TouchesTill(ev: Event) {
    || ev.CreateWallet? || ev.SetWalletStatus? || ev.CreateEntry? || ev.CancelEntry?
    || ev.ApproveTransfer? || ev.ApprovePayment? || ev.CreateNational? || ev.CancelNational?
  }

  predicate TouchesFunds(ev: Event) {
    || ev.CreateEntry? || ev.MergeEntries? || ev.CancelEntry?
    || ev.CreateTransfer? || ev.CreatePayment? || ev.CloseOperation?
  }

  predicate Operates(ev: Event) {
    || ev.CreateTransfer? || ev.CreatePayment? || ev.ApproveTransfer? || ev.ApprovePayment? || ev.CloseOperation?
  }

  lemma FailureChangesNothing(l: Ledger, ev: Event)
    ensures Applied(l, ev).Err? ==> Step(l, ev) == l
  {
  }

  lemma TillUntouched(l: Ledger, ev: Event)
    ensures !TouchesTill(ev) ==> Step(l, ev).till == l.till
  {
  }

  lemma FundsUntouched(l: Ledger, ev: Event)
    ensures !TouchesFunds(ev) ==> Step(l, ev).funds == l.funds
  {
  }

  lemma DeskUntouched(l: Ledger, ev: Event)
    ensures !Operates(ev) ==> Step(l, ev).desk == l.desk
  {
  }

  lemma NationalsUntouched(l: Ledger, ev: Event)
    ensures !ev.CreateNational? && !ev.CancelNational? ==> Step(l, ev).nationals == l.nationals
  {
  }

  // ---- the invariant of every reachable ledger ---------------------------------------------

  ghost predicate Sound(l: Ledger) {
    && W.WalletLedger(l.till)
    && C.ClientLedger(l.debts)
    && P.Negotiated(l.pacts)
    && R.OneActive(l.tariffs)
    && N.NationalBook(l.nationals)
    && EntriesSound(l.till.wallets, l.funds, l.desk.ops)
    && OpsSound(l)
  }

  lemma CreateEntryKeeps(
    l: Ledger, company: Company, name: Option<string>, phone: Option<string>, lines: seq<E.LineRequest>)
    requires Sound(l) && E.EntryCreated(l, company, name, phone, lines).Ok?
    ensures Sound(E.EntryCreated(l, company, name, phone, lines).value)
  {
    var m := E.EntryCreated(l, company, name, phone, lines).value;
    var entry := m.funds.entries[|l.funds.entries|];
    W.MovedAllKeepsLedger(l.till, E.ReceiptOrders(lines), EntryReceipt(|l.funds.entries|));
    WalletsKeep(l.till.wallets, m.till.wallets, l.funds, l.desk.ops);
    ReceivedLinesSound(l.till, m.till, company, lines);
    EntryAddedKeeps(m.till.wallets, l.funds, l.desk.ops, l.funds.entries, entry);
    OpsFrame(l, m);
  }

  lemma ReceivedLinesSound(before: Till, after: Till, company: Company, lines: seq<E.LineRequest>)
    requires E.Refusal(before, company, lines).None? && W.SameWallets(before.wallets, after.wallets)
    requires !exists i :: 0 <= i < |lines| && lines[i].amount <= 0.0
    ensures LinesSound(after.wallets, company, E.StoredLines(lines))
  {
    forall i | 0 <= i < |lines| ensures LineSound(after.wallets, company, E.StoredLines(lines)[i]) {
      assert E.WalletIds(lines)[i] in E.WalletIds(lines);
      assert E.OwnWallet(before, company, lines[i].wallet) && !E.MismatchedLine(before, lines[i]);
      assert lines[i].amount > 0.0;
    }
  }

  lemma CancelEntryKeeps(l: Ledger, company: Company, e: Id)
    requires Sound(l) && E.EntryCancelledBy(l, company, e).Ok?
    ensures Sound(E.EntryCancelledBy(l, company, e).value)
  {
    var m := E.EntryCancelledBy(l, company, e).value;
    W.MovedAllKeepsLedger(l.till, E.PayBackOrders(l.funds.entries[e].lines), EntryCancellation(e));
    WalletsKeep(l.till.wallets, m.till.wallets, l.funds, l.desk.ops);
    StatusChangeKeeps(m.till.wallets, l.funds, l.desk.ops, e);
    OpsFrame(l, m);
  }

  lemma MergeEntriesKeeps(l: Ledger, company: Company, ids: seq<Id>)
    requires Sound(l) && E.EntriesMerged(l, company, ids).Ok?
    ensures Sound(E.EntriesMerged(l, company, ids).value)
  {
    Merging.MergeKeeps(l, company, ids);
    OpsFrame(l, E.EntriesMerged(l, company, ids).value);
  }

  /** What is known of a draft once the checks of `create_*` have passed. */
  ghost predicate Drafted(l: Ledger, draft: Op) {
    && draft.status.Pending?
    && Placed(l.pacts, draft)
    && (draft.entry.Some? ==>
          && E.Owned(l.funds, draft.company, draft.entry.value)
          && draft.split.allocation <= E.Available(l.funds, draft.entry.value, draft.currency))
  }

  lemma OpeningKeepsSound(l: Ledger, draft: Op, name: Option<string>, phone: Option<string>)
    requires Sound(l) && Drafted(l, draft)
    ensures Sound(O.Opened(l, draft, name, phone))
  {
    var m := O.Opened(l, draft, name, phone);
    var id := |l.desk.ops|;
    OpeningKeeps(l, draft, name, phone);
    OpeningKeepsClients(l.debts, id, draft, O.Text(name), O.Text(phone));
    if draft.entry.Some? && draft.split.allocation > 0 {
      ReservationKeeps(l.till.wallets, l.funds, l.desk.ops, m.desk.ops[id]);
    } else {
      OpAddedKeeps(l.till.wallets, l.funds, l.desk.ops, m.desk.ops[id]);
    }
  }

  lemma OpeningKeepsClients(d: Debts, id: Id, draft: Op, name: string, phone: string)
    requires C.ClientLedger(d)
    ensures var (e, c) := C.GotOrCreated(d, draft.company, name, phone);
      C.ClientLedger(O.DebtsAfter(e, id, c, draft.split, draft.action, draft.currency))
  {
    var (e, c) := C.GotOrCreated(d, draft.company, name, phone);
    C.CreationKeepsLedger(d, draft.company, name, phone);
    C.DeltaKeepsLedger(e, c, draft.split.debt, id, false, draft.currency);
    var owed := if draft.split.debt > 0 then C.DeltaApplied(e, c, draft.split.debt, id, false, draft.currency) else e;
    C.DeltaKeepsLedger(owed, c, -draft.split.reliquat, id, false, draft.currency);
  }

  /** The split of an accepted request fits what the entry has available. */
  lemma SplitFits(
    l: Ledger, company: Company, entry: Option<Id>, currency: Currency, amount: real, action: ReliquatAction,
    name: Option<string>, phone: Option<string>)
    requires Sound(l) && amount > 0.0 && O.DrawnEntry(l.funds, company, entry, currency).Ok?
    requires O.SplitOf(amount, action, name, phone, O.DrawnEntry(l.funds, company, entry, currency).value).Ok?
    ensures var view := O.DrawnEntry(l.funds, company, entry, currency).value;
      var split := O.SplitOf(amount, action, name, phone, view).value;
      && split.allocation >= 0 && split.debt >= 0 && split.reliquat >= 0
      && (entry.Some? ==> split.allocation <= E.Available(l.funds, entry.value, currency))
  {
    var view := O.DrawnEntry(l.funds, company, entry, currency).value;
    RoundMonotone(0.0, amount);
    if entry.Some? {
      assert EntrySound(l.till.wallets, l.funds, entry.value);
      AvailableIsTotal(l.funds, entry.value, currency);
      O.SplitBalances(amount, action, name, phone, view.value);
    }
  }

  lemma CreateTransferKeeps(l: Ledger, company: Company, q: O.TransferRequest)
    requires Sound(l) && O.TransferOpened(l, company, q).Ok?
    ensures Sound(O.TransferOpened(l, company, q).value)
  {
    var collab := O.ReadyCollab(l, company, q.collab).value;
    var target := if q.target.Some? then q.target.value else collab.currency;
    var rate := R.Lookup(l.tariffs, R.Precedence(company, q.collab, q.mode, q.currency, target)).value;
    var view := O.DrawnEntry(l.funds, company, q.entry, q.currency).value;
    var split := O.SplitOf(q.amount, q.action, q.name, q.phone, view).value;
    SplitFits(l, company, q.entry, q.currency, q.amount, q.action, q.name, q.phone);
    OpeningKeepsSound(
      l, Op(Transfer, company, q.collab, q.entry, None, None, Round(q.amount), q.currency, target,
            O.Converted(q.amount, q.currency, target, rate), false, split, q.action, Pending),
      O.OrElse(q.name, O.EntryName(view)), O.OrElse(q.phone, O.EntryPhone(view)));
  }

  lemma CreatePaymentKeeps(l: Ledger, company: Company, q: O.PaymentRequest)
    requires Sound(l) && O.PaymentOpened(l, company, q).Ok?
    ensures Sound(O.PaymentOpened(l, company, q).value)
  {
    var collab := O.ReadyCollab(l, company, q.collab).value;
    var view := O.DrawnEntry(l.funds, company, q.entry, q.currency).value;
    var split := O.SplitOf(q.amount, q.action, q.name, q.phone, view).value;
    SplitFits(l, company, q.entry, q.currency, q.amount, q.action, q.name, q.phone);
    OpeningKeepsSound(
      l, Op(Payment, company, q.collab, q.entry, q.wallet, None, Round(q.amount), q.currency, collab.currency,
            O.Converted(q.amount, q.currency, collab.currency, O.CollaborativeRate(l, q.collab)),
            O.Balance(l.desk.balances, q.collab, company) < 0, split, q.action, Pending),
      O.OrElse(q.name, O.EntryName(view)), O.OrElse(q.phone, O.EntryPhone(view)));
  }

  lemma ApproveTransferKeeps(l: Ledger, company: Company, o: Id, w: Id)
    requires Sound(l) && O.TransferApproved(l, company, o, w).Ok?
    ensures Sound(O.TransferApproved(l, company, o, w).value)
  {
    var m := O.TransferApproved(l, company, o, w).value;
    var row := l.desk.ops[o];
    W.MovedKeepsLedger(l.till, W.Order(w, Out, Decimal(row.converted)), OperationPayout(o));
    WalletsKeep(l.till.wallets, m.till.wallets, l.funds, l.desk.ops);
    TransferApprovalKeeps(l, company, o, w);
    ApprovalKeeps(m.till.wallets, l.funds, l.desk.ops, o, m.desk.ops[o]);
    assert m.desk.ops == l.desk.ops[o := m.desk.ops[o]];
  }

  lemma ApprovePaymentKeeps(l: Ledger, company: Company, o: Id)
    requires Sound(l) && O.PaymentApproved(l, company, o).Ok?
    ensures Sound(O.PaymentApproved(l, company, o).value)
  {
    var m := O.PaymentApproved(l, company, o).value;
    var row := l.desk.ops[o];
    if row.wallet.Some? {
      W.MovedKeepsLedger(l.till, W.Order(row.wallet.value, Out, Decimal(row.amount)), OperationPayout(o));
    }
    WalletsKeep(l.till.wallets, m.till.wallets, l.funds, l.desk.ops);
    PaymentApprovalKeeps(l, company, o);
    ApprovalKeeps(m.till.wallets, l.funds, l.desk.ops, o, m.desk.ops[o]);
  }

  lemma CloseOperationKeeps(l: Ledger, kind: OpKind, company: Company, o: Id, role: O.Role)
    requires Sound(l) && O.Closed(l, kind, company, o, role).Ok?
    ensures Sound(O.Closed(l, kind, company, o, role).value)
  {
    var row := l.desk.ops[o];
    var verdict := if role.Creator? then Cancelled else Rejected;
    ClosingKeeps(l, kind, company, o, role);
    if row.entry.Some? {
      ReleaseKeeps(l.till.wallets, l.funds, l.desk.ops, o, verdict);
    } else {
      ClosureKeeps(l.till.wallets, l.funds, l.desk.ops, o, verdict);
    }
    if row.client.Some? {
      var c := row.client.value;
      var net := C.SumDeltas(C.BySource(l.debts.moves, c, o));
      if net != 0 {
        C.DeltaKeepsLedger(l.debts, c, -net, o, true, C.BySource(l.debts.moves, c, o)[0].currency);
      }
    }
  }

  lemma CreateNationalKeeps(l: Ledger, company: Company, q: N.Request)
    requires Sound(l) && N.OperationCreated(l, company, q).Ok?
    ensures Sound(N.OperationCreated(l, company, q).value)
  {
    var m := N.OperationCreated(l, company, q).value;
    W.MovedAllKeepsLedger(l.till, N.OrdersOf(q.lines), NationalOperation(|l.nationals|));
    WalletsKeep(l.till.wallets, m.till.wallets, l.funds, l.desk.ops);
    N.CreationKeepsBook(l.nationals, m.nationals[|l.nationals|]);
    OpsFrame(l, m);
  }

  lemma CancelNationalKeeps(l: Ledger, company: Company, n: Id)
    requires Sound(l) && N.OperationReversed(l, company, n).Ok?
    ensures Sound(N.OperationReversed(l, company, n).value)
  {
    var m := N.OperationReversed(l, company, n).value;
    var lines := l.nationals[n].lines;
    W.MovedAllKeepsLedger(l.till, N.OrdersOf(N.MirroredAll(lines)), NationalOperation(|l.nationals|));
    WalletsKeep(l.till.wallets, m.till.wallets, l.funds, l.desk.ops);
    N.ReversalRowsMirror(lines, m.till.moves[|l.till.moves|..]);
    N.ReversalKeepsBook(l.nationals, n, m.nationals[|l.nationals|]);
    OpsFrame(l, m);
  }

  lemma TillKeeps(l: Ledger, t: Till)
    requires Sound(l) && W.WalletLedger(t) && SameOwners(l.till.wallets, t.wallets)
    ensures Sound(l.(till := t))
  {
    WalletsKeep(l.till.wallets, t.wallets, l.funds, l.desk.ops);
    OpsFrame(l, l.(till := t));
  }

  lemma PactsKeep(l: Ledger, p: Pacts)
    requires Sound(l) && P.Negotiated(p) && AcceptedKept(l.pacts, p)
    ensures Sound(l.(pacts := p))
  {
    OpsFrame(l, l.(pacts := p));
  }

  lemma PactsAfterKeeps(p: Pacts, ev: Event)
    requires P.Negotiated(p) && Negotiates(ev) && PactsAfter(p, ev).Ok?
    ensures P.Negotiated(PactsAfter(p, ev).value)
  {
    hide P.Negotiated;
    match ev
    case RequestCollaboration(company, target, currency, rate) => P.RequestKeeps(p, company, target, currency, rate);
    case AcceptCollaboration(company, c) => P.AcceptanceKeeps(p, company, c);
    case RejectCollaboration(company, c) => P.RejectionKeeps(p, company, c);
    case CancelCollaboration(company, c) => P.StatusKeeps(p, c, p.collabs[c].(status := CollabCancelled));
    case UpdateCollaboration(company, c, currency, rate) => P.UpdateKeeps(p, company, c, currency, rate);
    case ProposeRate(company, c, rate) => P.RateProposalKeeps(p, company, c, rate);
    case AcceptRate(company, c, r) => P.ProposalDecisionKeeps(p, company, c, r);
    case RejectRate(company, c, r) => P.ProposalDecisionKeeps(p, company, c, r);
  }

  /** No call changes an accepted collaboration, but for its current rate. */
  lemma AcceptedStays(p: Pacts, ev: Event)
    requires Negotiates(ev) && PactsAfter(p, ev).Ok?
    ensures AcceptedKept(p, PactsAfter(p, ev).value)
  {
  }

  lemma CollaborationKeeps(l: Ledger, ev: Event)
    requires Sound(l) && Negotiates(ev) && PactsAfter(l.pacts, ev).Ok?
    ensures Sound(l.(pacts := PactsAfter(l.pacts, ev).value))
  {
    hide PactsAfter, P.Negotiated, EntriesSound, OpsSound, AcceptedKept;
    PactsAfterKeeps(l.pacts, ev);
    AcceptedStays(l.pacts, ev);
    PactsKeep(l, PactsAfter(l.pacts, ev).value);
  }

  lemma WalletCallsKeep(l: Ledger, ev: Event)
    ensures Sound(l) && Applied(l, ev).Ok? && (ev.CreateWallet? || ev.SetWalletStatus?) ==>
      Sound(Step(l, ev))
  {
    hide W.WalletLedger, C.ClientLedger, P.Negotiated, R.OneActive, N.NationalBook, EntriesSound, OpsSound;
    if Sound(l) && Applied(l, ev).Ok? && (ev.CreateWallet? || ev.SetWalletStatus?) {
      match ev
      case CreateWallet(company, code, currency, initial) =>
        W.WalletCreatedKeepsLedger(l.till, company, code, currency, initial);
        TillKeeps(l, W.WalletCreated(l.till, company, code, currency, initial).value);
      case SetWalletStatus(company, w, active) =>
        W.StatusSetKeepsLedger(l.till, company, w, active);
        TillKeeps(l, W.StatusSet(l.till, company, w, active).value);
    }
  }

  lemma EntryCallsKeep(l: Ledger, ev: Event)
    ensures Sound(l) && Applied(l, ev).Ok? && (ev.CreateEntry? || ev.MergeEntries? || ev.CancelEntry?) ==>
      Sound(Step(l, ev))
  {
    hide Sound;
    if Sound(l) && Applied(l, ev).Ok? && (ev.CreateEntry? || ev.MergeEntries? || ev.CancelEntry?) {
      match ev
      case CreateEntry(company, name, phone, lines) => CreateEntryKeeps(l, company, name, phone, lines);
      case MergeEntries(company, ids) => MergeEntriesKeeps(l, company, ids);
      case CancelEntry(company, e) => CancelEntryKeeps(l, company, e);
    }
  }

  lemma OperationCallsKeep(l: Ledger, ev: Event)
    ensures Sound(l) && Applied(l, ev).Ok? && Operates(ev) ==>
      Sound(Step(l, ev))
  {
    hide Sound;
    if Sound(l) && Applied(l, ev).Ok? && Operates(ev) {
      match ev
      case CreateTransfer(company, q) => CreateTransferKeeps(l, company, q);
      case CreatePayment(company, q) => CreatePaymentKeeps(l, company, q);
      case ApproveTransfer(company, o, w) => ApproveTransferKeeps(l, company, o, w);
      case ApprovePayment(company, o) => ApprovePaymentKeeps(l, company, o);
      case CloseOperation(kind, company, o, role) => CloseOperationKeeps(l, kind, company, o, role);
    }
  }

  lemma NationalCallsKeep(l: Ledger, ev: Event)
    ensures Sound(l) && Applied(l, ev).Ok? && (ev.CreateNational? || ev.CancelNational?) ==>
      Sound(Step(l, ev))
  {
    hide Sound;
    if Sound(l) && Applied(l, ev).Ok? && (ev.CreateNational? || ev.CancelNational?) {
      match ev
      case CreateNational(company, q) => CreateNationalKeeps(l, company, q);
      case CancelNational(company, n) => CancelNationalKeeps(l, company, n);
    }
  }

  lemma DirectoryCallsKeep(l: Ledger, ev: Event)
    ensures Sound(l) && Applied(l, ev).Ok? && (ev.CreateClient? || ev.SetRate? || ev.SetActiveStatus?) ==>
      Sound(Step(l, ev))
  {
    hide W.WalletLedger, C.ClientLedger, P.Negotiated, R.OneActive, N.NationalBook, EntriesSound, OpsSound;
    if Sound(l) && Applied(l, ev).Ok? && (ev.CreateClient? || ev.SetRate? || ev.SetActiveStatus?) {
      match ev {
        case CreateClient(company, name, phone) => C.CreationKeepsLedger(l.debts, company, name, phone);
        case SetRate(company, q) => R.RateSetKeepsOneActive(l, company, q);
        case SetActiveStatus(company, id, active) => R.ActiveStatusSetKeepsOneActive(l, company, id, active);
      }
      OpsFrame(l, Step(l, ev));
    }
  }

  lemma NegotiationCallsKeep(l: Ledger, ev: Event)
    ensures Sound(l) && Applied(l, ev).Ok? && Negotiates(ev) ==>
      Sound(Step(l, ev))
  {
    hide Sound, PactsAfter;
    if Sound(l) && Applied(l, ev).Ok? && Negotiates(ev) {
      CollaborationKeeps(l, ev);
    }
  }

  /** Every service call keeps the invariant. */
  lemma StepKeepsSound(l: Ledger, ev: Event)
    requires Sound(l)
    ensures Sound(Step(l, ev))
  {
    hide Sound, Step, Applied;
    if Applied(l, ev).Err? {
      FailureChangesNothing(l, ev);
    } else if ev.CreateWallet? || ev.SetWalletStatus? {
      WalletCallsKeep(l, ev);
    } else if ev.CreateEntry? || ev.MergeEntries? || ev.CancelEntry? {
      EntryCallsKeep(l, ev);
    } else if Operates(ev) {
      OperationCallsKeep(l, ev);
    } else if ev.CreateNational? || ev.CancelNational? {
      NationalCallsKeep(l, ev);
    } else if Negotiates(ev) {
      NegotiationCallsKeep(l, ev);
    } else {
      DirectoryCallsKeep(l, ev);
    }
  }

  /** Every reachable ledger satisfies the invariant. */
  lemma {:induction false} ReachableIsSound(events: seq<Event>)
    ensures Sound(Exec(events))
  {
    if events != [] {
      hide Sound, Step;
      ReachableIsSound(events[..|events| - 1]);
      StepKeepsSound(Exec(events[..|events| - 1]), events[|events| - 1]);
    }
  }

  // ---- operations persist ------------------------------------------------------------------

  /** Operations are only ever added, and only their status and paying wallet change. */
  ghost predicate OpsExtend(a: seq<Op>, b: seq<Op>) {
    |a| <= |b| && forall o :: 0 <= o < |a| ==> b[o] == a[o].(status := b[o].status, wallet := b[o].wallet)
  }

  lemma CreationExtendsOps(l: Ledger, ev: Event)
    ensures (ev.CreateTransfer? || ev.CreatePayment?) && Applied(l, ev).Ok? ==>
      OpsExtend(l.desk.ops, Step(l, ev).desk.ops) && |Step(l, ev).desk.ops| == |l.desk.ops| + 1
  {
  }

  lemma DecisionExtendsOps(l: Ledger, ev: Event)
    ensures ev.ApproveTransfer? || ev.ApprovePayment? || ev.CloseOperation? ==>
      OpsExtend(l.desk.ops, Step(l, ev).desk.ops) && |Step(l, ev).desk.ops| == |l.desk.ops|
  {
  }

  lemma StepExtendsOps(l: Ledger, ev: Event)
    ensures OpsExtend(l.desk.ops, Step(l, ev).desk.ops)
    ensures |Step(l, ev).desk.ops|
         == |l.desk.ops| + if Applied(l, ev).Ok? && (ev.CreateTransfer? || ev.CreatePayment?) then 1 else 0
  {
    hide Step, Applied;
    if Applied(l, ev).Err? {
      FailureChangesNothing(l, ev);
    } else if ev.CreateTransfer? || ev.CreatePayment? {
      CreationExtendsOps(l, ev);
    } else if Operates(ev) {
      DecisionExtendsOps(l, ev);
    } else {
      DeskUntouched(l, ev);
    }
  }

  lemma {:induction false} OperationsPersist(events: seq<Event>, k: nat)
    requires k <= |events|
    ensures OpsExtend(Exec(events[..k]).desk.ops, Exec(events).desk.ops)
    decreases |events|
  {
    if k < |events| {
      var before := events[..|events| - 1];
      assert before[..k] == events[..k];
      OperationsPersist(before, k);
      StepExtendsOps(Exec(before), events[|events| - 1]);
    } else {
      assert events[..k] == events;
    }
  }
}
