# A money ledger between companies, modelled and proved in Dafny

The backend keeps, for companies that send money to each other's customers, the wallets each company
pays from, the entries through which it receives customers' money, its clients' debts, the transfers
and payments exchanged with collaborators, the rates they negotiated, and the national operations
between a company's own wallets. This project models that ledger as one state machine and proves what
every run of service calls keeps.

## How the model is laid out

- `Tables` holds the rows (a row's id is its index) and `Session`, the database session of a request:
  services change its `view` and commit, or roll back when they raise.
- `Wallets`, `Entries`, `Clients`, `PrivateRates`, `Collaborations`, `Operations` (transfers and
  payments) and `Nationals` hold the services. Each service is a method on a `Session`, with the
  source's loops and checks in the source's order; its contract says that the committed tables become
  the value of a specification function, or stay as they were together with the error
  (`Tables.Settled`). The theorems are about those functions.
- `Deployment` makes every service call an event. `Exec(events)` is the ledger a run of calls leads to
  from an empty database, and `Sound` is the invariant kept by every call. `EntryLedger`,
  `OperationLedger` and `Merging` hold the parts of that invariant that span several tables.
- `Conservation`, `Revival`, `Stranding`, `Replays`, `Settlement`, `NationalWallets`, `NationalReplay`,
  `Cancellations`, `Payouts` and `Guarantees` hold the theorems about every run.
- `Openings`, `SameClients`, `Receipts`, `Payouts` and `Refusals`, and the last sections of `Wallets`,
  `Collaborations`, `PrivateRates` and `NationalWallets`, say in terms of the rows which calls are
  accepted and what they write, independently of the specification functions.
- `RowLocks` is the locking protocol between concurrent requests; `References`, `FeeNotes` and
  `NumberText` are about daily references and about the note a fee leaves in the audit log.

Money: a stored amount is a `Numeric(18, 2)` column, modelled as an integer number of cents; a
requested amount or rate is a `real`; quantizing is `Money.Round`, half up, and a stored rate is
rounded to the six digits of its column (`Money.StoredRate`). The stored columns do not record how an
operation's amount was split; the model keeps the split in the operation row as a history variable
(`Op.split`, of which `debt` is the column `client_debt_amount`).

## Where the code differs from what one would expect

Each of these is stated as the code has it, with a concrete case and the exact condition.

- *A cancelled entry can come back.* An operation may name an entry of whose currency nothing is
  available and then reserves nothing, so the entry can still be cancelled; when that operation is
  rejected or cancelled, the entry's status is recomputed to UNALLOCATED, and money already paid back
  is available again. `Revival.RevivedEntryBreaksTheBooks` is a run of seven calls that does it;
  `Conservation.OnlyUnfundedClosureRevives` says exactly when an entry leaves CANCELLED, and
  `Conservation.BooksBalanceIff` exactly when the books balance without a correction.
- *A rejection can strand money.* A merged-away source keeps its allocations, so what a later
  rejection frees is available on an entry that nobody can use. `Stranding.RejectionAfterMergeStrands`
  is a run of eight calls that does it; `Stranding.StrandsIff` says exactly which calls strand money
  and how much, and `Stranding.NothingStrandedIff` exactly which runs strand none.
- *A reliquat can be one cent off.* With a reliquat, an amount that lies on a half cent is rounded up
  twice: `Operations.HalfCentIsHandedOutTwice` is a case, `Operations.SplitBalances` the condition.
- *A balanced national operation can create cents.* Balance is checked before rounding.
  `NationalWallets.DriftIsReal` is an accepted operation that creates one, on any wallets that can pay
  it; `NationalWallets.SingleCurrencyHoldings` and `TwoCurrencyHoldings` are the bounds.
- *A line can round to nothing*, and then its entry or operation can never be cancelled:
  `NationalWallets.VanishingLineIsAccepted` is a case, `Cancellations.DeadLineBlocksForGood` says that
  it is for good, and `Cancellations.EntryCancellationSucceedsIff` and
  `NationalReplay.CancellationSucceedsIff` say exactly what can be cancelled.
- *Reversals lock in line order.* `cancel_entry` and `cancel_operation` do not sort their wallets.
  `RowLocks.OppositeReversalsGetStuck` shows two that block each other for good, and
  `RowLocks.ReversalGetsStuckIff` says exactly which ones a request that does sort can block for good.
- *A proposal outlives its collaboration.* Cancelling a request leaves its proposal pending, and the other
  party can still accept it; `Collaborations.InitiatorCancels` and `Collaborations.OtherPartyDecides` say
  exactly when.
- *A positive rate can be stored as zero*, exactly when it is below half a millionth
  (`Money.TinyRatesAreLost`); so stored rates are only known to be non-negative.
- *`set_rate` with an explicit target does not look its collaboration up*; an unknown one fails on the
  foreign key when the row is flushed, and nothing changes (`PrivateRates.SetRate`).

## Model

| member | source | states |
|---|---|---|
| Conservation.EntryFundsConserved | app/services/entry_service.py:79-290 | For every run, company and currency: received through entries minus paid back, plus what revived entries conjured up, equals what live entries have available plus what allocations hold plus what was stranded on merged entries |
| Conservation.BooksBalanceIff | app/services/transfer_service.py:394-404 | The identity holds without the conjured bucket exactly when no call of the run closed an operation whose entry stood CANCELLED with money of that company and currency |
| Conservation.FundedOperationsBalance | app/services/transfer_service.py:226-236 | It holds without that bucket whenever every operation that names an entry recorded a positive allocation |
| Conservation.StepBalances | app/services/payment_service.py:367-377 | One service call changes the difference only by what it strands and what it conjures up |
| Conservation.PhantomIffConjured | app/services/transfer_service.py:394-404 | A call conjures money up exactly if it closes an operation on a CANCELLED entry of that company with a line of at least one cent in that currency |
| Conservation.ReservationPreventsRevival | app/services/entry_service.py:265-269 | An operation that reserved something on its entry keeps that entry from being cancelled while it stands |
| Conservation.OnlyUnfundedClosureRevives | app/services/transfer_service.py:450-458 | An entry leaves CANCELLED exactly when an operation naming it is rejected or cancelled, and that operation had reserved nothing |
| Revival.RevivedEntryBreaksTheBooks | app/services/transfer_service.py:394-404 | A run after which a paid-back entry has its money available again |
| Stranding.StrandsIff | app/services/transfer_service.py:394-404 | A call strands money of a company and currency exactly if it closes an operation that reserved some on an entry merged away since, and then all it reserved |
| Stranding.NothingStrandedIff | app/services/payment_service.py:367-377 | A run strands nothing exactly when it holds no such call |
| Stranding.BooksAreExactWhen | app/services/entry_service.py:174-290 | Without such calls, and without revivals, wallets hold exactly what live entries and reservations say |
| Stranding.RejectionAfterMergeStrands | app/services/entry_service.py:203-253 | A run that merges an entry holding a reservation, rejects the payment and so strands money |
| Merging.MergePreservesSpendable | app/services/entry_service.py:203-247 | The new entry has available, per currency, exactly the sources' sum; per wallet and currency it holds what was carried; one line per wallet and currency; exactly the sources are marked; nothing else moves |
| Merging.CarriedIsAvailable | app/services/entry_service.py:203-221 | The greedy loop carries from each source, in every currency, exactly what it has available |
| Merging.CarriedAtMostOriginal | app/services/entry_service.py:207-221 | A source carries its lines from the first on, each at most at its amount, and cuts one only if nothing of its currency is carried from a later line |
| SameClients.MergeSucceedsIff | app/services/entry_service.py:174-201 | A merge goes through exactly for two or more different entries of the company, each with a client, not merged and not used up, and any two of the same client |
| SameClients.KeysTellClients | app/services/entry_service.py:62-65 | Two entries have the same client key exactly if, trimmed, their names differ in case at most and their phones not at all |
| SameClients.MergedEntryIsOfThatClient | app/services/entry_service.py:229-239 | The merged entry is unallocated and carries the first source's name and phone, the same client as every source |
| Entries.CarriedLinesShrink | app/services/entry_service.py:207-221 | Carried lines come in order from distinct lines, with positive amounts no larger than theirs, and greedily: the lines before a carried one in its currency are carried whole |
| Entries.AggregatedAllKeepsTotals | app/services/entry_service.py:223-226 | Aggregation keeps every total per currency and per wallet and currency |
| Entries.AggregatedInOrder | app/services/entry_service.py:223-226 | The merged lines come in the order in which their wallets and currencies first occur |
| Entries.AvailableByCurrency | app/services/entry_service.py:42-50 | The dictionary built by the two loops has lines minus allocations, for the currencies met |
| Entries.CarrySources | app/services/entry_service.py:180-221 | The loop over the sources gives the refusal `SameClients.MergeSucceedsIff` is about, or exactly what all of them carry |
| Entries.MarkSources | app/services/entry_service.py:229-250 | The new entry stands behind the old ones, of which exactly the sources are marked |
| Entries.CreateEntry | app/services/entry_service.py:79-139 | All lines are received and the entry stored, or nothing changes |
| Entries.CheckLines | app/services/entry_service.py:83-112 | The checks under sorted locks give the first refusal the unsorted lines call for |
| Entries.MergeEntries | app/services/entry_service.py:174-253 | The nested loops, aggregation and marking give the merge that `SameClients` and `Merging` are about, or nothing changes |
| Entries.CancelEntry | app/services/entry_service.py:256-290 | Every line is paid back and the entry is CANCELLED, or nothing changes |
| Guarantees.EntriesStaySound | app/services/entry_service.py:42-59 | In every run an entry is CONSUMED exactly if something is allocated and nothing is left in any currency, PARTIALLY_ALLOCATED exactly if something is allocated and something left, UNALLOCATED exactly if nothing is allocated and it does not stand cancelled; nothing available is negative |
| EntryLedger.SoundStatusTells | app/services/entry_service.py:53-59 | A recomputed status says just that of the lines and allocation rows |
| Receipts.ReceptionSucceedsIff | app/services/entry_service.py:79-136 | An entry is received exactly when it has lines, each of a positive amount into an active wallet of the company in the line's currency |
| Receipts.ReceptionFillsWallets | app/services/entry_service.py:95-136 | It is stored as asked for, amounts to the nearest cent, and every wallet receives what the lines into it say |
| Receipts.CancellationEmptiesWallets | app/services/entry_service.py:272-288 | A cancellation takes from every wallet what the lines into it say and marks the entry |
| Receipts.ReceivingThenCancelling | app/services/entry_service.py:79-290 | In every run an entry just received can be cancelled at once exactly if no line rounds to nothing, and then every wallet is as it was |
| Cancellations.EntryCancellationSucceedsIff | app/services/entry_service.py:256-290 | In every run an entry can be cancelled exactly when it is the company's own, not merged, not cancelled, without allocations, and each line is at least a cent on an active wallet that holds all the entry brought into it |
| Cancellations.PayBackGoesThrough | app/services/entry_service.py:272-285 | Lines sharing wallets can be paid back one after the other exactly when each wallet holds its lines together |
| Cancellations.DeadLineBlocksForGood | app/services/wallet_service.py:26-28 | A line rounded to nothing keeps its entry or national operation from ever being cancelled, whatever is called later |
| Deployment.StepKeepsSound | app/services/entry_service.py:79-290 | Every service call keeps the invariant over all tables |
| Deployment.ReachableIsSound | app/services/transfer_service.py:92-487 | The invariant holds after every run of calls |
| Deployment.OperationsPersist | app/services/transfer_service.py:290-487 | Whatever is called later, an operation keeps everything but its status and its paying wallet |
| LockOrder.SortedDistinct | app/services/entry_service.py:87 | The ids to lock are exactly the distinct wallet ids, ascending |
| Operations.SplitBalances | app/services/transfer_service.py:145-190 | An amount above what is available empties the entry and the rest is debt; one below it either leaves the rest or empties the entry too and the rest is reliquat; allocation + debt = rounded amount + reliquat, one cent less exactly in the reliquat branch on a half cent |
| Operations.HalfCentIsHandedOutTwice | app/services/transfer_service.py:175-188 | Half a cent from an entry of one cent allocates the cent and hands out a cent of reliquat |
| Operations.SplitBalancesWholeCents | app/services/payment_service.py:114-159 | For amounts of whole cents the split is exact |
| Operations.ClientIsIdentified | app/services/transfer_service.py:192-206 | When a client is needed, a name and a phone are at hand from the request or the entry |
| Openings.OpeningTakesWhatIsThere | app/services/transfer_service.py:145-236 | In every run a new operation divides its amount by what its entry has, takes exactly its allocation from it, leaves nothing there if it has a debt or a reliquat, and touches no other entry or currency |
| Openings.DirectOpeningIsOwed | app/services/payment_service.py:156-159 | Without an entry nothing is allocated, and a client named with a phone owes the whole amount |
| Openings.OpeningChargesClient | app/services/transfer_service.py:196-260 | In every run an operation has a client exactly if it leaves a debt or a credited reliquat; it is the client of the request, or else of the entry, who then owes the debt more and the credit less; no other client's balance changes |
| Openings.OpeningSucceedsIff | app/services/payment_service.py:93-170 | In every run a transfer or payment is accepted exactly for a positive amount in an agreed collaboration, with a private rate that applies or a wallet that fits, and on an entry that can be drawn on and whose client is known where one is needed |
| Openings.Accepted | app/services/transfer_service.py:200-224 | The new operation says what the request said and is PENDING |
| Operations.ConversionIsNearest | app/services/transfer_service.py:49-52 | An amount is stored to the nearest cent; within a currency it is not converted, otherwise the converted amount is the nearest cent of amount times rate |
| Operations.CreateTransfer | app/services/transfer_service.py:92-287 | The refusals in order, or the operation with its allocation, client movements and first status row, as `Openings` characterises them |
| Operations.CreatePayment | app/services/payment_service.py:93-266 | The refusals in order, or the payment with its frozen direction, allocation, client movements and first status row, as `Openings` characterises them |
| Conservation.ReservedLive | app/services/transfer_service.py:226-236 | A reservation takes exactly its amount from what its live entry has available |
| Conservation.ReservedReserve | app/services/payment_service.py:205-215 | And adds exactly that to what allocations hold |
| EntryLedger.ReservationKeeps | app/services/transfer_service.py:226-236 | A reservation within what is available keeps entries solvent, their status as recomputed, and one allocation for each operation |
| OperationLedger.DebtsHere | app/services/transfer_service.py:238-260 | The movements written at creation weigh debt minus credited reliquat on the operation's client, in its currency, and nothing elsewhere |
| Operations.ApproveTransfer | app/services/transfer_service.py:290-374 | The wallet pays, one collaborator movement is posted and the status moves, as `Payouts` characterises them, or nothing changes |
| Operations.ApprovePayment | app/services/payment_service.py:269-347 | The movement follows the frozen direction, the wallet if any pays, and the status moves, or nothing changes |
| Operations.CloseOperation | app/services/transfer_service.py:377-487 | Rejection and cancellation release the reservation, reverse the client's movements and move the status, or nothing changes |
| Payouts.ApprovalsPayOut | app/services/transfer_service.py:311-327 | In every run the wallet movements made for an operation are one OUT movement if it is APPROVED and names a wallet, and none otherwise: of a transfer the converted amount, from a wallet of the other party in the target currency; of a payment the amount, from a wallet of its creator in its currency |
| Payouts.WalletsPayOut | app/services/payment_service.py:304-322 | So each wallet lost, for each operation, exactly what the operation paid from it |
| Payouts.TransferApprovalSucceedsIff | app/services/transfer_service.py:290-327 | In every run a transfer is approved exactly while PENDING, by the other party, from an active wallet of its own in the target currency that holds the converted amount of at least a cent |
| Payouts.PaymentApprovalSucceedsIff | app/services/payment_service.py:269-322 | And a payment while PENDING, by the other party, and only while the wallet it names, if any, is active and holds the amount of at least a cent |
| Payouts.ClosureSucceedsIff | app/services/transfer_service.py:377-487 | An operation is cancelled exactly by its creator and rejected exactly by the other party, while PENDING |
| Refusals.DecisionsAreRefused | app/services/payment_service.py:280-283 | A party that may not take the decision has no permission whatever the status, one that may conflicts with any earlier decision |
| Refusals.ForeignIsNotFound | app/services/transfer_service.py:61-89 | A company that acts on somebody else's row is told what it is told of a row that does not exist |
| Refusals.OpeningIsRefused | app/services/transfer_service.py:114-190 | In an agreed collaboration a missing private rate conflicts first, then a foreign entry is not found, and one that cannot be drawn on, or whose client would have to be known, conflicts |
| Refusals.TransferApprovalIsRefused | app/services/transfer_service.py:311-327 | A foreign wallet is not found, one in another currency or switched off conflicts, an amount below a cent is invalid, and a wallet that holds too little has an insufficient balance, in the order of the checks |
| Refusals.ReceptionIsRefused | app/services/entry_service.py:83-112 | Foreign wallets are told first, wrong currencies next, whichever line has them, and wallets switched off last |
| Refusals.MergeIsRefused | app/services/entry_service.py:180-201 | The first source that cannot be merged with the first one decides: not found if it is foreign, else a conflict |
| Refusals.NegotiationIsRefused | app/services/collaboration_service.py:80-325 | On a collaboration permission is checked before status, on a proposal status before permission |
| Refusals.ReversalIsRefused | app/services/entry_service.py:256-270 | An own entry that is merged, drawn on, used up or cancelled conflicts, and so does an own national operation that is cancelled |
| Replays.LifecycleOfOperation | app/services/payment_service.py:269-460 | In every run an operation has exactly one collaborator movement if APPROVED and none otherwise, and its status history is PENDING followed by at most one decision of the right party |
| Replays.PendingCanBeClosed | app/services/transfer_service.py:377-487 | In every run a PENDING operation can be rejected by the counterparty and cancelled by its creator |
| Replays.ClientBalanceReplays | app/services/client_service.py:32-82 | In every run a client owes, per currency, debt minus credited reliquat of its PENDING and APPROVED operations; the balance is their total; closed operations net to zero |
| Replays.CollaboratorBalancesReplay | app/repositories/collaborator_balance_repository.py:36-53 | In every run the two parties' balances sum to zero, in total and per currency, and each is the signed sum over APPROVED operations |
| Clients.MovementsChain | app/services/client_service.py:32-58 | Each client movement starts from what the client's previous one left, the first from zero |
| Clients.ReverseMovementsForSource | app/services/client_service.py:61-82 | The net of the source's movements is taken back, in the first movement's currency, if it is not zero |
| Clients.GetOrCreateClient | app/services/client_service.py:19-29 | The company's client with that phone, or a new one |
| Clients.ClientIsKnownByPhone | app/services/client_service.py:19-29 | A client known to the company by that phone is taken as is, and only an unknown one is entered, owing nothing |
| Clients.DeltaKeepsLedger | app/services/client_service.py:32-58 | A delta keeps every client's balance the sum of its movements, chained before to after |
| Clients.CurrenciesAddUp | app/repositories/client_repository.py:81-89 | The balances per currency add up to the client's balance |
| OperationLedger.ReversalHere | app/services/client_service.py:61-82 | A closure brings what an operation weighs on its client to zero in its currency, and leaves other rows alone |
| Settlement.PaymentSettles | app/services/payment_service.py:285-302 | If the creator's balance b at approval is what it was at creation, it becomes of absolute value abs(abs(b) - a), whatever happened meanwhile and whoever created the payment |
| Settlement.DirectionIsFrozen | app/services/payment_service.py:104-112 | The direction decided at creation is still the one the payment has after any run |
| Settlement.SameOutstanding | app/repositories/collaborator_balance_repository.py:36-53 | Both parties see opposite balances, hence the same outstanding amount |
| Settlement.SettlementsAddUp | app/services/payment_service.py:93-347 | Any run of create-then-approve payments within the outstanding debt lowers it by exactly their total and never past zero |
| Wallets.ApplyMovement | app/services/wallet_service.py:17-59 | The refusals in order, or the balance and one movement with before and after |
| Wallets.CreateWallet | app/services/wallet_service.py:62-96 | A new wallet with its initial movement, or nothing changes |
| Wallets.StatusSetKeepsLedger | app/services/wallet_service.py:141-155 | Switching a wallet on or off moves no balance |
| Wallets.SwitchedWallet | app/services/wallet_service.py:141-155 | A wallet is switched by its company only, and nothing else changes |
| Wallets.CreatedWalletHoldsInitial | app/services/wallet_service.py:62-96 | A wallet is created exactly for an initial amount that is not negative under a code the company does not use; it is active and holds that amount to the nearest cent |
| Wallets.MovedAllKeepsLedger | app/services/wallet_service.py:17-59 | A batch of movements that goes through keeps balances non-negative, equal to IN minus OUT, and chained |
| Wallets.MovedAllEffect | app/services/national_operation_service.py:87-121 | It changes every wallet by exactly its orders and appends one movement for each |
| Guarantees.WalletsReplay | app/services/wallet_service.py:17-96 | In every run each balance is non-negative, equals IN minus OUT, and is what the wallet's last movement left |
| Guarantees.WalletMovementsChain | app/services/wallet_service.py:30-57 | In every run each movement starts from what its wallet's previous one left, the first from zero |
| Guarantees.ClientMovementsChain | app/services/client_service.py:32-82 | In every run the same holds of client movements and balances |
| Nationals.ValidateBalance | app/schemas/national_operation.py:55-88 | The totals loop and its branches accept exactly the balanced requests |
| Nationals.SumByCurrency | app/schemas/national_operation.py:57-60 | The totals dictionary holds IN minus OUT of every currency met |
| Nationals.ValidateExchange | app/schemas/national_operation.py:70-87 | One total is the source and the rate explains the other to 0.01 |
| Nationals.CreateOperation | app/services/national_operation_service.py:43-122 | All lines are moved and stored, or nothing changes |
| Nationals.CancelOperation | app/services/national_operation_service.py:148-221 | The mirrored lines are moved and stored as a VALIDATED reversal and the original is CANCELLED, or nothing changes |
| Nationals.ReversalChain | app/services/national_operation_service.py:148-221 | Each member of a chain reverses the one before, the last alone is VALIDATED, and the stored lines net to the first's or to nothing by parity |
| NationalReplay.NationalMovementsAreLines | app/services/national_operation_service.py:87-121 | In every run the movements of each national operation are, wallet by wallet, its stored lines |
| NationalReplay.ChainsNetOnWallets | app/services/national_operation_service.py:148-221 | In every run the movements of a chain leave on every wallet the original effect after an even number of cancellations and nothing after an odd number |
| NationalReplay.CancellationSucceedsIff | app/services/national_operation_service.py:148-221 | In every run a cancellation succeeds exactly for the company's own VALIDATED operation whose lines are at least a cent, on active wallets that still hold what came in |
| NationalReplay.CancellingTwiceRestores | app/services/national_operation_service.py:148-221 | A reversal can at once be reversed, and then every wallet is as it was |
| NationalWallets.CreationMovesWallets | app/services/national_operation_service.py:87-121 | A creation changes every wallet by exactly what its stored lines say |
| NationalWallets.ReversalUndoesWallets | app/services/national_operation_service.py:180-208 | A reversal takes back from every wallet what the original's lines say |
| NationalWallets.SingleCurrencyHoldings | app/services/national_operation_service.py:87-102 | A single-currency operation of n lines changes what all wallets hold by at most n/2 cents, by nothing for whole cents |
| NationalWallets.TwoCurrencyHoldings | app/schemas/national_operation.py:70-87 | A two-currency one moves the two holdings within 1 + n_dest/2 + rate * n_source/2 cents of the stated rate |
| NationalWallets.DriftIsReal | app/schemas/national_operation.py:55-88 | On any four wallets that can pay it, an operation balanced to the last decimal is accepted and leaves a cent more than before |
| NationalWallets.VanishingLineIsAccepted | app/services/national_operation_service.py:87-121 | An operation with a line of 0.004 is accepted and the line is stored as nothing |
| NationalWallets.CreationSucceedsIff | app/services/national_operation_service.py:43-102 | An operation is accepted exactly for two or more lines on different active wallets of the company that can pay them, each in one direction and in its wallet's currency, that sum to zero in one currency or exchange one for another |
| NationalWallets.BalancedMeans | app/schemas/national_operation.py:55-88 | Balanced is one currency that sums to zero without a rate, or two with a rate that converts what one sends into what the other receives, to 0.01 |
| NationalWallets.CreatedAsAsked | app/services/national_operation_service.py:65-122 | It is stored VALIDATED with the lines asked for, amounts to the nearest cent and balances before and after, and the rate to six digits |
| Collaborations.RequestKeeps | app/services/collaboration_service.py:33-77 | A request keeps the negotiation ledger: a new pair, a first proposal from no rate |
| Collaborations.AcceptanceKeeps | app/services/collaboration_service.py:80-110 | So does an acceptance, which accepts the pending proposal if there still is one |
| Collaborations.RejectionKeeps | app/services/collaboration_service.py:113-149 | And a rejection, with the pending proposal |
| Collaborations.StatusKeeps | app/services/collaboration_service.py:152-175 | And a cancellation, or any other end of PENDING |
| Collaborations.UpdateKeeps | app/services/collaboration_service.py:178-208 | And an amendment of the currency and the pending rate |
| Collaborations.RateProposalKeeps | app/services/collaboration_service.py:211-259 | And a proposal, which continues from the current rate |
| Collaborations.ProposalDecisionKeeps | app/services/collaboration_service.py:274-325 | And a decision by the other party, which moves the pointer exactly if it accepts |
| Collaborations.RequestProposesItsRate | app/services/collaboration_service.py:33-66 | A request is accepted exactly for a positive rate and another company without an active collaboration with it; it adds the PENDING collaboration and a proposal of that rate |
| Collaborations.TargetDecides | app/services/collaboration_service.py:80-149 | A PENDING collaboration is accepted or rejected by its target only, and with it the pending proposal, which becomes the current rate if accepted |
| Collaborations.InitiatorCancels | app/services/collaboration_service.py:152-175 | It is cancelled by its initiator only, and the proposal stays pending |
| Collaborations.UpdateSetsItsRate | app/services/collaboration_service.py:178-208 | An amendment by the initiator sets the currency and the rate of the pending proposal, and nothing else |
| Collaborations.ProposalProposesItsRate | app/services/collaboration_service.py:211-238 | A party of an accepted collaboration without a pending proposal proposes a positive rate, from the last accepted one |
| Collaborations.OtherPartyDecides | app/services/collaboration_service.py:274-325 | A pending proposal is decided by the party that did not make it, whatever the collaboration's status; the current rate moves exactly if it is accepted |
| Deployment.AcceptedStays | app/services/collaboration_service.py:33-325 | No call changes an accepted collaboration, but for its current rate |
| Collaborations.OnePendingProposal | app/repositories/collaboration_repository.py:99-108 | At most one proposal is pending per collaboration |
| Collaborations.OneActiveCollaboration | app/repositories/collaboration_repository.py:27-41 | At most one collaboration between two companies is active |
| Collaborations.AcceptedRatesChain | app/services/collaboration_service.py:80-110 | Consecutive accepted rows link old rate to new rate in decision order, the first from none; the pointer is on a row exactly if it is the last accepted; both companies took part |
| Collaborations.DecisionKeeps | app/services/collaboration_service.py:274-325 | Deciding the pending proposal keeps the whole chain |
| Guarantees.NegotiationsStayBilateral | app/services/collaboration_service.py:274-325 | In every run each accepted row was proposed by one company and accepted by the other, starts from the rate accepted before it (the first from none) and was decided later |
| Guarantees.CurrentRateIsLastAccepted | app/services/collaboration_service.py:80-110 | In every run the current rate points to the last accepted row, and at most one proposal is pending |
| Guarantees.OneActivePair | app/services/collaboration_service.py:43-52 | In every run two companies have at most one active collaboration |
| PrivateRates.SetRate | app/services/private_rate_service.py:12-57 | The slot's active row is switched off and a new active row added, or nothing changes, also when the collaboration is unknown |
| PrivateRates.SetActiveStatus | app/services/private_rate_service.py:64-89 | A row is switched, and its slot's other active row off, or nothing changes |
| PrivateRates.RateSetKeepsOneActive | app/services/private_rate_service.py:32-57 | A slot never gets two active rows when a rate is set |
| PrivateRates.ActiveStatusSetKeepsOneActive | app/services/private_rate_service.py:64-89 | Nor when one is switched on again |
| PrivateRates.SettingUpdatesOneSlot | app/services/private_rate_service.py:32-57 | Setting a rate puts it, rounded to six digits, at its slot of the map from slots to rates and nowhere else |
| PrivateRates.SwitchingUpdatesOneSlot | app/services/private_rate_service.py:64-89 | Switching a row on puts its rate at its slot, switching the active row off empties the slot, and no other slot changes |
| PrivateRates.RateIsSetAsAsked | app/services/private_rate_service.py:12-57 | A rate is accepted exactly if it is positive and its collaboration known; it is stored active, to six digits, for the target given, else that of the collaboration, else any; only rows of its slot are switched off |
| PrivateRates.RowIsSwitched | app/services/private_rate_service.py:64-89 | A row is switched by its company only; switched on, it takes its slot over from any other |
| PrivateRates.MostSpecificRowWins | app/services/transfer_service.py:118-143 | Of the active rows that name nothing the transfer is not, the search takes the one that outranks all others: naming the send mode counts most, then the collaboration, then the target |
| PrivateRates.NoRateIffNoneApplies | app/services/transfer_service.py:144-148 | It finds nothing exactly when no such row exists |
| PrivateRates.FindRate | app/services/transfer_service.py:114-143 | The nested search with its breaks refines the lookup in the list of six slots |
| PrivateRates.LookupTakesFirstOccupied | app/services/transfer_service.py:114-143 | The lookup gives the one active rate of the first occupied slot, and fails exactly when all are empty |
| PrivateRates.LookupIgnoresRowOrder | app/repositories/private_rate_repository.py:34-50 | It does not depend on the order of the rows |
| PrivateRates.FirstOfIsActiveSlot | app/repositories/private_rate_repository.py:9-50 | Searching the candidates of a pair for a scope is looking up the scope's slot |
| Guarantees.RateSearchIsPrecedence | app/services/transfer_service.py:114-143 | In every run, and for any order of the rows, the search is the precedence map |
| Guarantees.PaymentConvertsAtAgreedRate | app/services/payment_service.py:93-165 | In every run a payment within the collaboration's currency is not converted, and any other is converted, to the nearest cent, at the last rate both companies accepted, one proposing and the other deciding |
| Guarantees.TransferConvertsAtPrecedence | app/services/transfer_service.py:92-194 | In every run a transfer within its target currency is not converted, and any other is converted, to the nearest cent, at the rate of the private row that outranks every other that applies |
| RowLocks.NoDeadlock | app/services/entry_service.py:83-91 | For any number of requests that lock upwards, no reachable state has a waiting cycle; while one is unfinished some request can take its next lock, commit, or raise because of what it has seen; and a run has at most as many moves as locks to take and requests to end |
| RowLocks.WaitForGraphIsAcyclic | app/services/national_operation_service.py:51-59 | No walk in the wait-for graph returns to its start |
| RowLocks.SomeoneCanStep | app/services/transfer_service.py:298-309 | While a request is unfinished, one that is not blocked can lock, commit or raise |
| RowLocks.EveryMoveIsProgress | app/services/national_operation_service.py:51-59 | Every move lowers the number of steps left |
| RowLocks.WhoLocksUpwards | app/services/entry_service.py:87-91 | Sorted requests and decisions lock upwards; a reversal does so exactly when its lines name their wallets in ascending order |
| RowLocks.SingleDecision | app/services/transfer_service.py:290-487 | However requests interleave, an operation has at most one winner, a valid history, and one movement exactly if approved |
| RowLocks.WinnerDecides | app/services/payment_service.py:269-460 | However requests interleave, the one that decided an operation decided what it became |
| RowLocks.NoLostUpdate | app/repositories/wallet_repository.py:58-60 | However requests interleave, a wallet holds its start plus what every committed request added |
| RowLocks.NoOverdraft | app/services/wallet_service.py:36-40 | However requests interleave, no wallet goes below zero: the test made under the lock still holds at the commit |
| RowLocks.RunKeepsConsistent | app/repositories/transfer_repository.py:43-45 | No row is held twice and nothing read under a lock goes stale |
| RowLocks.OppositeReversalsGetStuck | app/services/national_operation_service.py:157-162 | Two reversals naming two wallets in opposite order can reach a state where nothing can move |
| RowLocks.UnorderedCanGetStuck | app/services/entry_service.py:272-285 | Any reversal whose lines do not name their wallets in ascending order can be blocked for good by a request that sorts its own |
| RowLocks.ReversalGetsStuckIff | app/services/national_operation_service.py:156-162 | And exactly those can |
| FeeNotes.FeeNoteReadsBack | app/services/transfer_service.py:262-266 | The report's pattern finds in a fee note exactly its amount and currency, for every amount in cents and every currency without blanks |
| FeeNotes.CreditNoteNeverMatches | app/services/report_service.py:44 | It finds nothing in a client-credit note |
| FeeNotes.AmountReadsBack | app/services/payment_service.py:241-245 | The printed amount parses to the same decimal |
| FeeNotes.BuildFeesReport | app/services/report_service.py:319-344 | The loop with its skips gives the rows of the logs that match, or fails on a malformed amount |
| FeeNotes.ReportListsFees | app/services/report_service.py:319-344 | Over the notes of any operations a company's report lists exactly its own fee reliquats of the period, newest first |
| FeeNotes.FeesAreThoseOf | app/services/report_service.py:319-344 | Those rows are one for each operation of the company that kept a fee on a day of the period, both ends included, the newest first, with its kind, amount, currency and day |
| Guarantees.FeesReportIsExact | app/services/report_service.py:319-344 | So it does after every run |
| References.SequenceIsRecoverable | app/utils/reference.py:27-34 | The printed number can be read back, also past 9999 |
| References.DaysDiffer | app/utils/reference.py:27-29 | References of different days share no daily prefix |
| References.GenerateUniqueReference | app/services/entry_service.py:31-39 | The retry loop returns the first free candidate, or a conflict after five |
| References.NextReferenceIsFirstFree | app/services/entry_service.py:31-39 | The reference issued is the first of the five numbers after those counted that is not taken; if all are, there is a conflict |
| References.DailyReferencesAreGapless | app/services/national_operation_service.py:20-30 | However days are mixed, those of each day are numbered 1, 2, 3, ... and the first candidate is always free |
| NumberText.PaddedReadsBack | app/utils/reference.py:32-34 | A zero-padded number reads back, whatever its size |
| Money.RoundMinusCents | app/services/transfer_service.py:33-34 | Taking whole cents off an amount commutes with rounding |
| Money.RoundIsNearest | app/services/transfer_service.py:33-34 | Rounding gives the nearest cent, away from zero on a tie, and nothing else does |
| Money.StoredRateIsNearest | app/models/collaboration.py:55-56 | A rate is stored as the nearest one of six digits |
| Money.TinyRatesAreLost | app/models/collaboration.py:55-56 | A positive rate is stored as zero exactly when it is below half a millionth, and a stored rate is off by no more |

## Left out

- Transfers and payments share one table and one rejection/cancellation method, told apart by a kind; their two services differ only where the model does.
- Suspension and archiving of collaborations: both call a function that `collaboration_service` neither defines nor imports (app/services/collaboration_service.py:389, 417), so they never commit.
- Concurrent requests that draw on the same entry, cancel the same national operation, or fill the same rate slot: those rows are read without a lock, so the properties of runs are about calls that take effect one after the other.
- RowLocks: covers the `FOR UPDATE` locks only; the row locks of plain updates, foreign-key locks and the isolation level of the database are not part of this model.
- RowLocks.NoDeadlock: is about requests that lock upwards; `cancel_entry` and `cancel_operation` lock in line order, and `RowLocks.ReversalGetsStuckIff` says which of them it does not cover.
- Replays.CollaboratorBalancesReplay: a collaborator balance adds movements of different currencies, as the query does; the statement per currency is the meaningful one.
- Operations.ApproveTransfer: leaves out the optional proof of payment, whose lookup can also end in "not found"; a refused approval changes nothing either way.
- Operations.ApprovePayment: leaves out the proof identifier, which is stored and not checked.
- Time is the order of insertion: "newest first" is that order reversed, and ties of timestamps do not arise.
- Suppliers, whose movements also change wallets, and editing a wallet's name.
- Proofs, notifications, audit logs other than the reliquat and creation logs, rejection reasons, and the references and timestamps stored in rows; decision times are a logical clock.
- The 28-digit context of decimal arithmetic and the overflow of `Numeric(18, 2)`: reals and integers are unbounded.
- Currencies are the four supported codes, already in upper case; a client's key for merging trims and lower-cases ASCII text only.
- The fee pattern is modelled for ASCII digits and blanks; a printed day repeats after a century.
- Identifiers are never generated twice and rows other than allocations are never deleted.
- Routers, authentication, permissions, the other reports, search and pagination, uploads, backups and administration: plumbing around the ledger.
