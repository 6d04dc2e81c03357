/** The tables of one deployment, and the database session through which services change them.

    Rows of a table are never deleted, except entry allocations, so a row's id is its index. */
module Tables {

  type Id = nat
  type Company = nat

  datatype Option<+T> = None | Some(value: T)

  datatype Error =
    | Invalid              // refused by the request schema
    | NotFound
    | Conflict
    | PermissionDenied
    | Unbalanced
    | InsufficientBalance
    | BadAmount            // the ValueError of apply_movement
    | BrokenReference      // a foreign key fails when the request is flushed

  datatype Result<+T> = Ok(value: T) | Err(error: Error) {
    predicate IsFailure() { Err? }
    function PropagateFailure<U>(): Result<U> requires Err? { Err(error) }
    function Extract(): T requires Ok? { value }
  }

  /** The supported currency codes; the request schemas normalise to upper case. */
  datatype Currency = XOF | GNF | USD | EUR

  // ---- wallets -----------------------------------------------------------------------------

  datatype Direction = In | Out

  /** `source_type` with `source_id`. */
  datatype Source =
    | WalletInitial(wallet: Id)
    | EntryReceipt(entry: Id)
    | EntryCancellation(entry: Id)
    | OperationPayout(op: Id)
    | NationalOperation(national: Id)

  datatype Wallet = Wallet(company: Company, code: string, currency: Currency, active: bool, balance: int)

  datatype WalletMove = WalletMove(
    wallet: Id, direction: Direction, amount: int, currency: Currency, before: int, after: int, source: Source)

  datatype Till = Till(wallets: seq<Wallet>, moves: seq<WalletMove>)

  // ---- entries -----------------------------------------------------------------------------

  datatype EntryStatus = Unallocated | PartiallyAllocated | Allocated | Consumed | EntryRejected | EntryCancelled

  datatype Line = Line(wallet: Id, currency: Currency, amount: int)

  datatype Entry = Entry(
    company: Company, clientName: Option<string>, clientPhone: Option<string>, status: EntryStatus,
    mergedInto: Option<Id>, lines: seq<Line>)

  datatype Allocation = Allocation(entry: Id, target: Id, currency: Currency, amount: int)

  datatype Funds = Funds(entries: seq<Entry>, allocations: seq<Allocation>)

  // ---- clients -----------------------------------------------------------------------------

  datatype Client = Client(company: Company, name: string, phone: string, balance: int)

  /** `reversal` tells the source types "transfer"/"payment" from "transfer_reversal"/"payment_reversal". */
  datatype ClientMove = ClientMove(
    client: Id, op: Id, reversal: bool, currency: Currency, delta: int, before: int, after: int)

  datatype Debts = Debts(clients: seq<Client>, moves: seq<ClientMove>)

  // ---- transfers and payments --------------------------------------------------------------

  datatype OpKind = Transfer | Payment

  datatype OpStatus = Pending | Approved | Rejected | Cancelled

  datatype ReliquatAction = KeepUnallocated | Fee | ClientCredit

  /** How a declared amount was split when the operation was created. `debt` is the column
      `client_debt_amount` (0 for NULL); the other two are a history variable of the model: the
      source leaves them in the allocation row, the client movement and the audit note. */
  datatype Split = Split(allocation: int, debt: int, reliquat: int)

  datatype Op = Op(
    kind: OpKind, company: Company, collab: Id, entry: Option<Id>, wallet: Option<Id>, client: Option<Id>,
    amount: int, currency: Currency, targetCurrency: Currency, converted: int, settlesDebt: bool,
    split: Split, action: ReliquatAction, status: OpStatus)

  datatype StatusRow = StatusRow(op: Id, before: Option<OpStatus>, after: OpStatus, company: Company)

  datatype BalanceMove = BalanceMove(
    collab: Id, op: Id, currency: Currency, amount: int, debtor: Company, creditor: Company)

  datatype Desk = Desk(ops: seq<Op>, history: seq<StatusRow>, balances: seq<BalanceMove>)

  // ---- collaborations ----------------------------------------------------------------------

  datatype CollabStatus = CollabPending | CollabAccepted | CollabRejected | CollabCancelled

  datatype Collab = Collab(
    initiator: Company, target: Company, currency: Currency, status: CollabStatus, currentRate: Option<Id>)

  datatype RateStatus = Proposed | RateAccepted | RateRejected

  /** `decidedAt` is a logical clock: how many decisions had been taken before this one. */
  datatype RateRow = RateRow(
    collab: Id, oldRate: Option<real>, newRate: real, status: RateStatus, proposedBy: Company,
    decidedBy: Option<Company>, decidedAt: Option<nat>)

  datatype Pacts = Pacts(collabs: seq<Collab>, rates: seq<RateRow>, clock: nat)

  // ---- private rates -----------------------------------------------------------------------

  datatype SendMode = Cash | Wave | OrangeMoney | Bank | OtherMode

  /** What identifies "the same rate slot". */
  datatype Slot = Slot(
    company: Company, collab: Option<Id>, currency: Currency, target: Option<Currency>, mode: Option<SendMode>)

  datatype PrivateRate = PrivateRate(slot: Slot, country: Option<string>, rate: real, active: bool)

  // ---- national operations -----------------------------------------------------------------

  datatype NationalLine = NationalLine(
    wallet: Id, amountIn: int, amountOut: int, currency: Currency, before: int, after: int)

  datatype National = National(
    company: Company, validated: bool, exchangeRate: Option<real>, lines: seq<NationalLine>, reversalOf: Option<Id>)

  // ---- the deployment ----------------------------------------------------------------------

  datatype Ledger = Ledger(
    till: Till, funds: Funds, debts: Debts, desk: Desk, pacts: Pacts, tariffs: seq<PrivateRate>,
    nationals: seq<National>)

  const EMPTY := Ledger(
    Till([], []), Funds([], []), Debts([], []), Desk([], [], []), Pacts([], [], 0), [], [])

  /** A database session: `view` is what the running request has flushed, `db` what is committed. */
  class Session {
    var db: Ledger
    var view: Ledger

    constructor ()
      ensures db == EMPTY && Clean()
    {
      db, view := EMPTY, EMPTY;
    }

    ghost predicate Clean() reads this { view == db }

    method Commit()
      modifies this
      ensures db == view == old(view)
    {
      db := view;
    }

    /** The session is closed without a commit when a service raises. */
    method Rollback()
      modifies this
      ensures db == view == old(db)
    {
      view := db;
    }
  }

  /** What one request does to the committed tables: all of `spec`'s outcome, or nothing. */
  ghost predicate Settled(before: Ledger, spec: Result<Ledger>, after: Ledger, outcome: Result<()>) {
    match spec
    case Ok(l) => outcome.Ok? && after == l
    case Err(e) => outcome == Err(e) && after == before
  }
}
