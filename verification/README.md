# Wagering ledger: model and proofs

This project models a wallet service for game providers and proves what its ledger keeps. Bets, wins,
losses, refunds and rollbacks arrive over HTTP and over an SQS queue; each is one PostgreSQL transaction over wallets,
wager transactions, ledger entries, inbox and outbox. Reversals that arrive before the transaction they
name are parked and settled later by a worker, events leave through an outbox, and a reconciliation report
compares stored balances with the ledger. All of these run concurrently, under READ COMMITTED, row locks
and unique keys.

The project is in layers, and each layer is proved against the one below it.

1. **Values.** `Money.dfy` (int64 fixed-point amounts), `Decimals.dfy` (what their texts mean, digit by digit),
   `Records.dfy` (rows), `Validation.dfy` (what is accepted, and where each field goes), `Domain.dfy` (the two
   domain objects that change in place).
2. **Tables.** `Tables.dfy`: the six tables with their keys and checks, and the effect of each statement.
   A statement fails or has exactly its effect; `Run` executes a list of them up to the first failure.
3. **Atomic steps.** `Steps.dfy`: submitting, resolving and opening, each as one step that runs a list of
   statements. The one row that the code reads without a lock, the reference of a reversal or the row of a
   replay, is a parameter of the step. `Verdicts.dfy`, `Settlements.dfy` and `Openings.dfy` say outright what
   each comes to, column by column, answer and error included, and prove that the steps come to just that;
   `Outcomes.dfy` says when a submission is processed, parked or rejected.
4. **The code, statement by statement.** `Session.dfy` is a database transaction; `Usecases.dfy`,
   `OpenWallet.dfy`, `PendingWorker.dfy`, `SqsWorker.dfy` and `OutboxWorker.dfy` are the use cases and the
   workers as they are written, each proved equal to its atomic step or fold. `strict` is
   PostgreSQL's rule that a transaction is aborted once a statement of it has failed; everything is proved
   with it and without it.
5. **Invariants.** `Invariants.dfy`, `Preservation.dfy`, `Evolution.dfy`: what every atomic step keeps, and
   what none ever undoes.
6. **Concurrency.** `Interleaving.dfy` turns each use case into a program with a program counter, private
   uncommitted writes and held locks. `Isolation.dfy`, `Knowledge.dfy`, `Progress.dfy` and `Refinement.dfy`
   prove that every run of any number of such programs refines the atomic steps; `Solo.dfy` that a program
   which nothing disturbs does commit its atomic step; `Locks.dfy` that programs do not deadlock and that
   the version guard always hits. `Slack.dfy` says exactly when a commit is the step that would have been
   taken with nothing else running, `SameWallet.dfy` and `Timeliness.dfy` when a caller can be sure of it,
   and `Schedules.dfy`, `Races.dfy` and `Repeats.dfy` put together runs in which it is not. `Completion.dfy`:
   every run can be brought to its end.
7. **Whole runs.** `Histories.dfy`, `Ledger.dfy`, `Answers.dfy`, `Replay.dfy`, `OutOfOrder.dfy`,
   `Late.dfy`, `Delivery.dfy`, `Redelivery.dfy`, `Outbox.dfy`, `Publishing.dfy` and `Reconciliation.dfy`: what follows for every run.

`Refinement.SysOk` is the invariant of reachable states of the concurrent system (`EveryRunRefines`);
results about "every run" take it as their premise, together with the number of a committed state.

What the code does, where its documentation says otherwise or says nothing:

- A redelivered message whose transaction has been committed makes the inbox insert fail, after which
  PostgreSQL refuses every further statement of the transaction. The worker then reports an error and
  never deletes the message, in no continuation of any run (`Redelivery.ProcessedButNeverDeleted`), although
  ARCHITECTURE.md:312-325 describes the redelivery as recognised. No money moves either way
  (`SqsWorker.RedeliveryAcknowledged`).
- Serializability in commit order is false. A reversal can be parked beside a reference that has been
  committed since it looked (`Races.ParkedBesideItsReference`), a parked reversal can be rejected for
  good for a parked reference that has been settled since it looked (`Races.RejectedBesideItsReference`), and
  a replay can be told that its transaction is parked beside a balance that the settlement of that
  transaction has already raised (`Repeats.AnsweredWithOldStatus`). A fourth, harmless slack is a resolution
  that found no row under its id. `Slack.UndisturbedWhen` gives the exact condition for every kind of commit,
  and none of the four moves money (`Slack.StaleReadsMoveNoMoney`). A caller is safe from the first when both
  rows are on one wallet (`SameWallet.SameWalletIsNeverStale`), or when the reference was on record as the
  reversal began (`Timeliness.KnownReferenceIsNeverStale`); from the second when the reference is not itself a
  reversal (`SameWallet.StaleRejectionNeedsParkedReference`); and from the third when the row was settled as
  the replay began (`Timeliness.KnownSettlementIsNeverAnsweredStale`). The wallets and transactions that
  these runs ask for exist (`Races.ParkingCastExists`, `Races.RejectingCastExists`,
  `Races.SpendingCastExists`, `Repeats.MessageCastExists`).
- A message id that comes again with other data can be acknowledged although nothing of it is on record. That
  happens if and only if the id has been claimed and the row is not there yet
  (`SqsWorker.SuccessOnRecordWhen`), and there is a run for any two losses on a wallet
  (`Repeats.SecondIsLost`). It takes the envelope's own id, since sqs_worker.go:138-141 prefers the id that SQS
  assigns, which is unique; and code that may query after the failed insert.
- Events that marshal a transaction or a wallet carry no fields, because those types export none. The
  model keeps only their aggregate id.
- Reconciliation fails, with a scan error, once a wallet's credits or debits in all exceed an int64, however
  sound the books: three submissions are enough (`Races.SoundBooksFailToScan`;
  `Reconciliation.ReportUnderConcurrency` gives the exact condition).

## Model

| member | source | states |
|---|---|---|
| Amounts.ParseAccepts | internal/domain/money.go:29-66 | parsing accepts exactly the trimmed texts of digits, point and two digits, with a three-byte currency, whose value in cents is at most MaxInt64, and returns that value |
| Amounts.ParsePrint | internal/domain/money.go:76-89 | parsing a printed non-negative amount gives the amount back |
| Amounts.PrintParse | internal/domain/money.go:29-89 | printing a parsed text gives it back without outer space and leading zeros |
| Amounts.PrintInjective | internal/domain/money.go:76-89 | two amounts, negative ones included, print alike only if they are equal |
| Amounts.AddExact | internal/domain/money.go:91-105 | addition succeeds if and only if the currencies agree and the true sum fits in an int64, is then that sum, and is undone by subtraction; no intermediate value overflows |
| Amounts.SubtractExact | internal/domain/money.go:107-121 | the same for subtraction, undone by addition |
| Amounts.CanonIdempotent | internal/domain/money.go:72-74 | normalising a currency twice is normalising it once, so a stored currency reads back unchanged |
| Decimals.ParseDecimal | internal/domain/money.go:29-66 | digits, a point and two digits, with space around them or not, parse to the value of the digits in hundredths, or overflow |
| Decimals.ParseOnlyDecimals | internal/domain/money.go:19-39 | and nothing else parses |
| Decimals.PrintDecimal | internal/domain/money.go:76-89 | every amount but the least prints as a decimal of its value, with a sign exactly if it is negative |
| Decimals.LeadingDigit | internal/domain/money.go:41-52 | each digit counts by its place |
| Decimals.TrimCuts | internal/domain/money.go:35 | trimming cuts space off both ends and leaves none there |
| Decimals.TrimOnly | internal/domain/money.go:35 | and there is one way to do so |
| Decimals.SpaceCharacters | internal/domain/money.go:35 | what counts as space are the 25 code points of Unicode's White_Space |
| Decimals.UpperLetters | internal/domain/money.go:30 | upper case moves the letters a to z by 32 code points and leaves everything else, character by character |
| Decimals.LengthInBytes | internal/domain/money.go:30-33 | the length of a currency that is checked is that of its UTF-8 encoding |
| Decimals.Example | internal/domain/money_test.go:10-23 | the repository's own example parses and prints as it says |
| Records.PrepareGivesNewRow | internal/usecase/wager_usecase.go:84-106 | whatever passes validation obeys the amount rule of its kind, is no opening, is pending and carries the hash of its own fields (which fields these are says `Validation.PreparedRow`) |
| Validation.AcceptedWhen | internal/domain/transaction.go:63-98 | a submission passes if and only if its money is readable and supported, its ids are there, its kind is one of the five names, a LOSS is of nothing and anything else of something, and a reversal names a reference |
| Validation.RefusedWith | internal/usecase/wager_usecase.go:84-103 | otherwise the first rule that it breaks is the error |
| Validation.PreparedRow | internal/usecase/wager_usecase.go:93-106 | each column of the row is the field of the submission that it is named after, the kind is the one that is named, the money is what the text says, and the hash is over the ten fields |
| Validation.SamePayloadWhen | internal/domain/transaction.go:251-273 | two accepted submissions hash alike if and only if they agree in everything but the idempotency key and the way of writing money |
| Records.EqualHashes | internal/domain/transaction.go:251-273 | equal payload hashes force equal provider, external id, wallet, player, kind, money and reference |
| Records.WagerIdsCollideWhen | internal/usecase/wager_usecase.go:94 | two submissions share an internal id if and only if they agree in provider and external id, or the provider id of one continues that of the other with an underscore and the external ids make up for it |
| Records.PlainProvidersDoNotCollide | internal/usecase/wager_usecase.go:94 | among providers whose ids contain no underscore the internal ids are injective |
| Records.PrepareOpenGivesNewWallet | internal/usecase/open_wallet_usecase.go:71-85 | a wallet that passes validation can be stored: version 1, a non-negative balance and a normalised currency (which balance says `Validation.PreparedWallet`) |
| Validation.OpeningAcceptedWhen | internal/usecase/open_wallet_usecase.go:71-85 | an opening passes if and only if its money is readable and supported and it names a player; otherwise the first failing check is the error |
| Validation.PreparedWallet | internal/usecase/open_wallet_usecase.go:71-85 | the wallet has the requested balance, the player, and an id made of the player and the currency in lower case |
| Records.DebitExact | internal/domain/wallet.go:79-105 | a debit takes exactly the amount off the balance and adds one to the version, or is refused with the first error that applies |
| Records.CreditExact | internal/domain/wallet.go:107-124 | the same for a credit |
| Tables.KeysAreUnique | migrations/000001_init_schema.up.sql:10-77 | a second row is refused that shares the id or owner of a wallet, one of the three keys of a transaction, the id or the transaction of an entry, or the message of a claim |
| Tables.SecondWriterFails | internal/infrastructure/repository/wallet_repository.go:54-81 | of two updates that go by the same version the second finds no row |
| Records.CreditThenDebit | internal/domain/wallet.go:79-124 | a credit followed by a debit of the same money restores the balance and raises the version by two |
| Domain.Wallet.Debit | internal/domain/wallet.go:79-105 | a debit moves the object to the debited row, or refuses with the first error that applies and leaves it as it was |
| Domain.Wallet.Credit | internal/domain/wallet.go:107-124 | a credit moves the object to the credited row, or refuses and leaves it as it was |
| Domain.WagerTransaction.TransitionToProcessed | internal/domain/transaction.go:214-221 | no terminal state is ever left; a refused transition changes nothing |
| Domain.WagerTransaction.TransitionToPendingReference | internal/domain/transaction.go:224-234 | the same for parking |
| Domain.WagerTransaction.TransitionToRejected | internal/domain/transaction.go:237-248 | the same for rejecting, which also needs a failure code |
| Domain.WagerTransaction.MarkAsIdempotentReplay | internal/domain/transaction.go:204-206 | marks the answer, not the row |
| Sessions.Session.Exec | internal/infrastructure/repository/messaging_repository.go:61-78 | a write takes effect or fails without a trace; under PostgreSQL's rule nothing works after a failure; no row is updated whose lock the transaction does not hold |
| Sessions.Session.Commit | internal/infrastructure/database/transaction_manager.go:43-47 | a commit publishes exactly the transaction's view; an aborted transaction publishes nothing |
| Sessions.Session.Rollback | internal/infrastructure/database/transaction_manager.go:38-41 | a rollback leaves the committed tables as they were |
| Sessions.Session.FindByIDWithLock | internal/infrastructure/repository/wallet_repository.go:83-120 | locks the row and returns a fresh object holding it as the transaction sees it; or there is none, or the row cannot be read back |
| Domain.Wallet.Rehydrate | internal/domain/wallet.go:53-70 | a row is read back exactly if it has an id, a player and no negative balance, and is then read back unchanged |
| Invariants.InvReads | internal/domain/wallet.go:53-70 | every wallet that is ever stored can be read back |
| Locks.LockedRowStays | internal/infrastructure/repository/transaction_repository.go:264-277 | while a resolution holds the lock of a row no step of another changes that row |
| Invariants.ExternalIdLookup | internal/infrastructure/repository/transaction_repository.go:52-82 | the lookup finds the stored row with that provider and external id, of which there is one, and misses only if there is none |
| Invariants.IdempotencyKeyLookup | internal/infrastructure/repository/transaction_repository.go:59-71 | the same for the idempotency key |
| Usecases.WagerUsecase.LookupExisting | internal/usecase/wager_usecase.go:379-402 | external id before idempotency key; an unequal hash is a conflict on either |
| Usecases.WagerUsecase.HandleSaveConflict | internal/usecase/wager_usecase.go:404-433 | a duplicate row is answered from if it records the same payload and is a conflict otherwise; every other error surfaces as it is |
| Usecases.WagerUsecase.Replay | internal/usecase/wager_usecase.go:149-159 | a replay answers with the recorded id and status and the present balance |
| Usecases.WagerUsecase.Persist | internal/usecase/wager_usecase.go:228-288 | the statements executed are the whole plan; otherwise the first that fails decides the error, which under PostgreSQL's rule is that of the aborted transaction exactly after a duplicate row |
| Usecases.WagerUsecase.WriteMovement | internal/usecase/wager_usecase.go:251-280 | wallet, entry and announcement follow the plan in its order |
| Usecases.WagerUsecase.Submit | internal/usecase/wager_usecase.go:112-289 | the callback ends in the state, answer and error of the atomic step, for every kind, replay, conflict and failure; under PostgreSQL's rule a duplicate that the lookups did not find, and a repeated message, end as an aborted transaction |
| Usecases.WagerUsecase.ProcessTransactionWithInbox | internal/usecase/wager_usecase.go:83-304 | the use case commits exactly the atomic step or changes nothing, and reports its error; a new submission is answered with its own id, the status on record and the balance that its wallet then has |
| Usecases.AbortedWhen | internal/usecase/wager_usecase.go:404-433 | under PostgreSQL's rule a submission ends as an aborted transaction if and only if its message was seen before or its internal id is taken by another row; without it the step's own result is reported |
| Usecases.WagerUsecase.Settle | internal/usecase/wager_usecase.go:307-376 | the callback of a resolution ends in the state of the atomic step |
| Usecases.WagerUsecase.ResolvePendingReference | internal/usecase/wager_usecase.go:306-377 | a resolution commits exactly the atomic step or changes nothing |
| OpenWallet.OpenWalletUsecase.Insert | internal/usecase/open_wallet_usecase.go:87-142 | the callback of an opening runs its statements in order up to the first failure |
| OpenWallet.OpenWalletUsecase.Execute | internal/usecase/open_wallet_usecase.go:70-157 | an opening commits exactly the atomic step or changes nothing; afterwards the stored wallet has the requested balance, and the ledger one new entry that credits it, or none if it is nothing |
| PendingWorker.FindPendingReferences | internal/infrastructure/repository/transaction_repository.go:211-262 | lists exactly the first rows in order of creation that are due and parked: none is passed over unless the limit is met |
| PendingWorker.ResolveItems | internal/infrastructure/transport/pending_reference_worker.go:72-76 | the loop equals resolving the items of any list one after another, failures skipped |
| PendingWorker.ProcessBatch | internal/infrastructure/transport/pending_reference_worker.go:65-77 | lists the first twenty rows that are parked and due, oldest first, passing over none, and resolves exactly these in turn |
| PendingWorker.StaleListsAreHarmless | internal/infrastructure/transport/pending_reference_worker.go:65-77 | however stale or repetitive the list, a row that was not parked is untouched and a parked one is credited at most once, and exactly if it ends processed |
| PendingWorker.EveryItemIsResolved | internal/infrastructure/transport/pending_reference_worker.go:65-77 | of the parked rows on a list, one whose reference is processed is processed unless its wallet cannot take the money, one whose reference is rejected is rejected, one whose reference is unknown stays; rows not on the list stay |
| PendingWorker.ResolveAllKeeps | internal/infrastructure/transport/pending_reference_worker.go:65-77 | any list of resolutions keeps the invariant and only adds |
| Preservation.MovePlanRuns | internal/usecase/wager_usecase.go:247-284 | the five statements of a movement succeed if and only if the three keys are free and the version has room, so the schema's other checks never fire; their joint effect |
| Preservation.SettlePlanRuns | internal/usecase/wager_usecase.go:341-375 | the five statements of a settlement succeed if and only if the version has room; their joint effect |
| Preservation.RecordPlanRuns | internal/usecase/wager_usecase.go:228-242 | recording a row that moves no money succeeds if and only if its three keys are free |
| Preservation.WagerKeeps | internal/usecase/wager_usecase.go:112-289 | submitting, with any reference read, keeps keys, row rules, ledger, wallet chains and event streams consistent |
| Preservation.ResolveKeeps | internal/usecase/wager_usecase.go:306-377 | resolving keeps the same invariant |
| Preservation.OpenKeeps | internal/usecase/open_wallet_usecase.go:87-142 | opening keeps the same invariant |
| Verdicts.StepIsVerdict | internal/usecase/wager_usecase.go:112-304 | every submission, on every branch and with any unlocked read, comes to one verdict told outright: the refusals in their order, and else the answer and every column written |
| Verdicts.AnswerIsBalance | internal/usecase/wager_usecase.go:287-304 | the balance that is answered is the one that the wallet has afterwards: that of the submission, or for a replay that of the recorded row |
| Verdicts.OwnAnswer | internal/usecase/wager_usecase.go:115-159 | with nothing else running a replay is answered from the row on record under its external id |
| Verdicts.RefusedWhen | internal/usecase/wager_usecase.go:145-225 | when a submission is refused for an unknown wallet, another owner, an unusable reference, the currency, an overflow, an exhausted version or a conflict: each exactly |
| Settlements.StepIsResolution | internal/usecase/wager_usecase.go:306-377 | every resolution comes to an outcome told outright: nothing, the rejection, or the credit with its row, wallet, entry and events, or one of three errors |
| Openings.OpenIsOpening | internal/usecase/open_wallet_usecase.go:87-142 | an opening succeeds if and only if its id and its player's currency are free, and with money the three keys of its transaction; what it then writes, column by column |
| Openings.RequestedBalanceIsOpened | internal/usecase/open_wallet_usecase.go:70-142 | from request to tables: the stored wallet has the requested balance and exactly one entry of it, or none if it is nothing |
| Outcomes.ProcessedWhen | internal/usecase/wager_usecase.go:145-288 | a submission is processed if and only if it is new, its wallet is the player's, a reversal's reference is processed, and the wallet can bear the change; the exact tables it leaves |
| Outcomes.ParkedWhen | internal/usecase/wager_usecase.go:207-242 | a reversal is parked if and only if it is new and its reference is unknown |
| Outcomes.RejectedWhen | internal/usecase/wager_usecase.go:176-191 | a submission is rejected if and only if it is a new bet that its wallet does not cover |
| Outcomes.ChangedWhen | internal/domain/wallet.go:79-124 | a debit succeeds if and only if the balance covers it, a credit if and only if the sum fits; each changes the balance by exactly the amount |
| Evolution.WagerEvolves | internal/usecase/wager_usecase.go:112-289 | a submission loses no row, changes no settled row, frees no key and only appends to ledger and outbox |
| Evolution.ResolveEvolves | internal/usecase/wager_usecase.go:306-377 | so does a resolution, which settles at most the parked row it names |
| Evolution.OpenEvolves | internal/usecase/open_wallet_usecase.go:87-142 | so does an opening |
| Evolution.Conservation | internal/usecase/wager_usecase.go:251-266 | a wallet's balance is the signed sum of its ledger entries and is not negative |
| Evolution.OneEntryPerMovement | internal/usecase/wager_usecase.go:175-280 | exactly one entry for each processed transaction other than a loss, with its wallet and amount, a debit exactly for a bet; none for any other row |
| Evolution.EventStreamRebuilds | internal/usecase/wager_usecase.go:267-284 | the announced balance changes of a wallet are its entries, one for each but an opening: versions 2, 3, ... once each, with the transaction and direction of the entry, its amount and balances as texts that parse to them; they link up, and the last gives the stored balance |
| Evolution.HashFindsRow | internal/usecase/wager_usecase.go:379-402 | a lookup that replays has found the row under the submission's own external id |
| Evolution.KeyAloneConflicts | internal/usecase/wager_usecase.go:391-400 | a hit by idempotency key alone, with nothing committed between the lookups, is always a conflict |
| Evolution.IdCollisionConflicts | internal/usecase/wager_usecase.go:94 | a collision of internal ids ends in a conflict without an effect |
| Evolution.WagerRecords | internal/usecase/wager_usecase.go:145-289 | an accepted submission leaves a row with its payload on record |
| Evolution.WagerKeepsInbox | internal/usecase/wager_usecase.go:113-143 | every inbox row comes with a transaction row for the submission that claimed it |
| Evolution.DuplicateFindsRow | internal/usecase/wager_usecase.go:115-130 | when a message id determines its data, a repeated message is answered from its transaction and changes nothing |
| Delivery.NeverAcknowledgesWithoutRow | internal/usecase/wager_usecase.go:131-139 | in no run of the queue and the database does a transaction come to acknowledge a repeated message without a persisted row |
| Replay.ErasingResubmissions | internal/usecase/wager_usecase.go:145-159 | erasing any resubmissions from any sequential run leaves wallets, ledger, transactions, keys and events as they were |
| Replay.ResubmissionAnswered | internal/usecase/wager_usecase.go:145-159 | a resubmission is answered from the recorded row and adds at most its inbox claim |
| Replay.ReplaysAgree | internal/usecase/wager_usecase.go:379-402 | all replays name the same transaction and, once it is terminal, the same status |
| OutOfOrder.ReversalFirstIsInOrder | internal/usecase/wager_usecase.go:207-242 | parking a reversal, processing its reference and settling succeeds if and only if reference first and reversal second does, and leaves the same wallets, versions, ledger, transactions, keys and inbox, and the same events but for their order and the one of the parking |
| Late.LateIsOnTime | internal/usecase/wager_usecase.go:207-377 | the same with any use cases in between, on this wallet or others, the worker's vain attempts among them: a parked reversal is settled if and only if, submitted only then, it would be processed, with the same tables and events |
| Late.RunBeside | internal/usecase/wager_usecase.go:228-242 | a parked row is in the way of no statement about other transactions: it succeeds, fails and takes effect alike with the row and without |
| OutOfOrder.SettledWhen | internal/usecase/wager_usecase.go:306-377 | a parked reversal is settled if and only if its reference is processed and the wallet can take the credit; the exact tables it leaves |
| Isolation.RunFrames | internal/infrastructure/database/transaction_manager.go:22-24 | a transaction's writes leave alone everything that another holds by lock or key |
| Isolation.RunAgrees | internal/infrastructure/database/transaction_manager.go:22-24 | a transaction's own writes succeed alike on any two states that agree on what it holds |
| Knowledge.ProcStable | internal/usecase/wager_usecase.go:112-377 | what a transaction knows at each statement survives the commits of all others |
| Progress.StatementProgress | internal/usecase/wager_usecase.go:112-377 | every statement of a transaction establishes what it knows at the next |
| Refinement.CommitAtomic | internal/usecase/wager_usecase.go:112-377 | a commit is one whole use case, on the branch that it took, on the state it commits to; its unlocked read is what the table held at some state since it began, and a resolution that does nothing has its row locked and not parked, or found none at some state since it began |
| Refinement.AtomicKeeps | internal/usecase/wager_usecase.go:112-377 | every atomic step keeps the invariant and the inbox rule, and only adds |
| Refinement.EveryRunRefines | internal/usecase/wager_usecase.go:112-377 | every interleaved run of any number of submissions, resolutions and openings refines the atomic specification |
| Refinement.OnlyCommitsChange | internal/infrastructure/database/transaction_manager.go:21-49 | a step of a run either commits one atomic step or leaves the committed state alone |
| Solo.SubmissionAlone | internal/usecase/wager_usecase.go:112-289 | a submission that nothing disturbs, executed statement by statement, commits exactly the atomic step with its answer or fails with its error, within 24 statements |
| Solo.ResolutionAlone | internal/usecase/wager_usecase.go:306-377 | so does a resolution |
| Solo.OpeningAlone | internal/usecase/open_wallet_usecase.go:87-142 | so does an opening, which fails if and only if the atomic step does |
| Slack.StaleReadsMoveNoMoney | internal/usecase/wager_usecase.go:208-222 | a commit that changes a wallet or the ledger is exactly the step that would have been taken with nothing else running |
| Slack.UndisturbedWhen | internal/usecase/wager_usecase.go:208-330 | a commit is the step that would have been taken with nothing else running if and only if what it had read is, for its purpose, what it would read now: the very row for a submission, its standing for a resolution |
| SameWallet.SameWalletIsNeverStale | internal/usecase/wager_usecase.go:161-214 | in every run a new reversal whose reference is on record for its own wallet when it commits is undisturbed, so it is never parked beside it |
| SameWallet.StaleRejectionNeedsParkedReference | internal/usecase/wager_usecase.go:316-329 | in every run a resolution is rejected on a stale read only if its reference is itself a reversal that was parked when it was read and has been processed since |
| Races.ParkedBesideItsReference | internal/usecase/wager_usecase.go:207-214 | for any two wallets opened empty, any reversal on the one and any loss on the other that it names there is a run that parks the reversal although the loss is processed |
| Races.RejectedBesideItsReference | internal/usecase/wager_usecase.go:324-329 | for any wallet opened empty, any loss on it, any reversal of that and any reversal of the reversal there is a run that rejects the last although the one it names is processed |
| Races.CommitOrderIsNotSerial | internal/infrastructure/database/transaction_manager.go:22-24 | there is a run with a commit that is not the step which would have been taken with nothing else running |
| Repeats.AnsweredWithOldStatus | internal/usecase/wager_usecase.go:145-159 | for any such wallet and rows there is a run in which a replay answers that a reversal is parked, beside a balance that already contains it |
| Timeliness.KnownReferenceIsNeverStale | internal/usecase/wager_usecase.go:207-222 | in every run a new reversal whose reference was on record when its transaction began is undisturbed, on whatever wallet |
| Timeliness.SettledRowIsNeverAnsweredStale | internal/usecase/wager_usecase.go:145-159 | in every run a replay that has read a settled row is undisturbed |
| Timeliness.KnownSettlementIsNeverAnsweredStale | internal/usecase/wager_usecase.go:145-159 | in every run a replay that begins once its row is settled is undisturbed, so nobody is told an older status after a final one |
| Schedules.Finishes | internal/usecase/wager_usecase.go:112-377 | a transaction that would commit alone commits in any state of any run in which the others hold nothing it asks for |
| Locks.LockedWalletStays | internal/infrastructure/repository/wallet_repository.go:83-120 | while a transaction holds a wallet's lock no step of another changes that wallet |
| Locks.GuardAlwaysHits | internal/infrastructure/repository/wallet_repository.go:54-81 | the version-guarded update always finds its row: the zero-rows branch is unreachable |
| Locks.SameWalletAgain | internal/usecase/wager_usecase.go:404-433 | on the save-conflict path an equal hash leads back to the wallet already locked |
| Locks.EveryRunLeveled | internal/usecase/wager_usecase.go:114-331 | in every run locks are acquired in the order inbox key, parked row, wallet, transaction keys |
| Locks.NoWaitCycle | internal/usecase/wager_usecase.go:114-331 | no chain of waiting transactions closes |
| Locks.NoDeadlock | internal/usecase/wager_usecase.go:114-331 | as long as a transaction is unfinished, some unfinished transaction can execute its next statement |
| Locks.StatementBurns | internal/usecase/wager_usecase.go:112-377 | every executed statement lowers a measure |
| Locks.StartFuel | internal/usecase/wager_usecase.go:112-377 | the measure starts at 24 or less, so a transaction ends within that many statements |
| Completion.RunsToTheEnd | internal/infrastructure/database/transaction_manager.go:21-49 | every run can be continued until all its transactions have ended, by no more statements than their measures add up to |
| Completion.EveryRunCanFinish | internal/infrastructure/database/transaction_manager.go:21-49 | so no run gets stuck, however many transactions are open |
| Histories.TerminalForever | internal/infrastructure/repository/transaction_repository.go:169-190 | only parked, processed and rejected rows are ever committed, and only a parked one ever changes again, although the update has no status guard |
| Histories.ExternalIdBound | migrations/000001_init_schema.up.sql:39 | an external id of a provider is bound to one row and one payload for ever |
| Histories.IdempotencyKeyBound | migrations/000001_init_schema.up.sql:40 | so is an idempotency key |
| Histories.MovesMoneyOnce | internal/usecase/wager_usecase.go:306-377 | at most one commit of a whole run writes a ledger entry for a transaction |
| Histories.ReferenceProcessedBefore | internal/usecase/wager_usecase.go:207-222 | a processed reversal names a processed row of the same provider that a strictly earlier commit processed |
| Histories.NoReferenceCycle | internal/usecase/wager_usecase.go:316-330 | no chain of references between processed rows closes: self-references and mutual cycles never pay out |
| Histories.ReferencesEnd | internal/usecase/wager_usecase.go:316-330 | every chain of references from a processed row ends at a processed row that is not a reversal |
| Ledger.LedgerIsChain | migrations/000001_init_schema.up.sql:60-67 | in every state of every run each wallet's entries start from 0, link up, end in the stored balance and contain no later opening; the version is 1 plus the number of non-opening entries |
| Ledger.LedgerOnlyGrows | migrations/000001_init_schema.up.sql:105-108 | the ledger, and each wallet's part of it, only grows at its end |
| Ledger.EveryRunBalances | internal/usecase/wager_usecase.go:251-266 | in every committed state of every run each balance is the signed sum of its entries and not negative |
| Ledger.OneProcessedEvent | internal/usecase/wager_usecase.go:282-284 | one event announces each processed transaction that is not an opening, and none any other row |
| Ledger.EventNumbersStay | internal/infrastructure/repository/messaging_repository.go:41-59 | the n-th committed event stays the n-th |
| Ledger.ReplayByKeyIsOwn | internal/usecase/wager_usecase.go:391-400 | with commits between the lookups, a replay by key alone returns a row with the submitted provider, external id, wallet and money |
| Answers.AnswerNamesTheRow | internal/usecase/wager_usecase.go:295-303 | in every run an accepted submission is told of the row on record under its external id, with the status that this row had at some state between the begin and the commit |
| Answers.AnswerShowsBalance | internal/usecase/wager_usecase.go:287-304 | in every run the balance that an accepted submission is told is the one that its commit leaves in the wallet of the row it is told of |
| Answers.EveryCommitIsItsVerdict | internal/usecase/wager_usecase.go:112-377 | in every run each commit leaves exactly what its verdict says on the state that it commits to |
| Answers.EveryAnswerFindsARow | internal/usecase/wager_usecase.go:113-159 | in every run of queue and database both hold of each committed submission |
| Delivery.EveryRunDelivers | internal/infrastructure/transport/sqs_worker.go:123-172 | with any number of consumers, redeliveries and crashes, each message ever sent is still in the queue or the row of its submission is on record |
| Delivery.DeleteDelivers | internal/infrastructure/transport/sqs_worker.go:160-171 | a message is deleted only after the row of its submission has been committed |
| Delivery.NeverDuplicateMessage | internal/infrastructure/transport/sqs_worker.go:161-164 | the duplicate-message error never reaches the worker |
| Delivery.AtomicRecords | internal/usecase/wager_usecase.go:113-159 | a committed submission has its row on record, whether new, replayed or repeated |
| Delivery.ExactlyOnceEffect | internal/infrastructure/transport/sqs_worker.go:123-172 | in every committed state an external id of a provider has at most one ledger entry, and has one if and only if its row moves money |
| Redelivery.ProcessedButNeverDeleted | internal/usecase/wager_usecase.go:114-140 | under PostgreSQL's rule a message whose claim is committed, and which no consumer is left to delete, is in the queue after every continuation of the run |
| Redelivery.LawfulUnanswering | internal/usecase/wager_usecase.go:115-140 | under that rule no transaction of any run reaches the branch that answers a repeated message |
| SqsWorker.Consumer.ProcessSQSEnvelope | internal/infrastructure/transport/sqs_worker.go:123-172 | process first, delete after: a message leaves the queue only after the atomic step has been committed, and then its message is claimed with its payload, unless it was claimed before, and its row is on record if and only if its id was unclaimed or the row was there before; what cannot be decoded, is invalid or fails stays |
| SqsWorker.SuccessOnRecordWhen | internal/usecase/wager_usecase.go:113-143 | an accepted submission leaves its row on record if and only if its message id had not been seen or the row was there before |
| SqsWorker.LostSubmission | internal/usecase/wager_usecase.go:115-140 | a new submission under an id that has been seen is answered and recorded nowhere |
| Repeats.SecondIsLost | internal/usecase/wager_usecase.go:115-140 | for any wallet opened empty and any two losses on it under one message id there is a run that commits the second without a row of it |
| SqsWorker.RedeliveryAcknowledged | internal/usecase/wager_usecase.go:114-140 | a redelivery after the commit has no effect, and is acknowledged if and only if the code may query after a failed insert |
| SqsWorker.WagerNeverDuplicate | internal/usecase/wager_usecase.go:114-141 | the use case never returns the duplicate-message error |
| Outbox.MarkedAt | internal/infrastructure/repository/messaging_repository.go:113-145 | marking a batch touches exactly the events tried, each once, by the outcome of its own send |
| Outbox.EveryRunDrains | internal/infrastructure/transport/outbox_worker.go:92-136 | with several publishers and rollbacks at any moment, open batches share no event, every successful send is accounted for by a status, an open batch or a rollback, and the attempts of an event are its failed sends of committed batches |
| Outbox.GivenUpWhen | internal/infrastructure/repository/messaging_repository.go:129-145 | in every run an event is FAILED if and only if as many of its sends have failed as the configuration allows, at least one, and fewer have for any other |
| Outbox.FailuresOfBatch | internal/infrastructure/transport/outbox_worker.go:101-128 | a batch that commits adds to the failures exactly its failed sends |
| Outbox.SendsOfEvent | internal/infrastructure/transport/outbox_worker.go:111-128 | a published event has been sent; an event is sent more than once only by batches that rolled back, and without rollbacks exactly once |
| Outbox.FinalStates | internal/infrastructure/repository/messaging_repository.go:86-93 | PUBLISHED and FAILED are final and no event is lost |
| Outbox.CommitBurns | internal/infrastructure/repository/messaging_repository.go:129-145 | every send of a committed batch, failed or not, lowers the attempts that are left |
| OutboxWorker.Publisher.FindPendingOutboxEvents | internal/infrastructure/repository/messaging_repository.go:80-111 | claims exactly the first ten events by the time they are due that are pending and not locked, passing over none |
| OutboxWorker.Publisher.Publish | internal/infrastructure/transport/outbox_worker.go:101-128 | the loop marks each event by its own outcome, a failed send costing one attempt and the last one the event; no other event changes; when an update fails the table stays as it was but what was sent stays sent |
| OutboxWorker.Publisher.ProcessPendingEvents | internal/infrastructure/transport/outbox_worker.go:92-136 | the whole batch: the ten events longest due, what becomes of each by its own send, and what a failing update takes back |
| OutboxWorker.BatchIsARun | internal/infrastructure/transport/outbox_worker.go:92-136 | the loop's effect is that of a run of the protocol: claim, sends, commit |
| Publishing.EveryJointRun | internal/infrastructure/repository/messaging_repository.go:41-59 | in every run of use cases and publishers together the publishers' rows are the committed events, one for one |
| Publishing.OnlyCommittedEventsAreSent | internal/infrastructure/transport/outbox_worker.go:95-111 | in every such run the event that a publisher is about to send is one that a commit has written, and is still due |
| Publishing.SentIsCommitted | internal/infrastructure/transport/outbox_worker.go:95-111 | whatever has ever been sent has been committed |
| Reconciliation.ReportUnderConcurrency | internal/usecase/reconciliation_usecase.go:35-82 | whatever commits between the two reads, the report names the wallet and its currency, and the difference is minus the signed sum of the entries committed in between; it fails exactly when the wallet is unknown or a total does not fit, and nothing overflows |
| Reconciliation.TotalAdds | internal/infrastructure/repository/wallet_repository.go:158-181 | the total of a direction over two lists of entries is the sum of theirs |
| Reconciliation.TotalOfOthers | internal/infrastructure/repository/wallet_repository.go:158-181 | entries of the other direction count for nothing |
| Reconciliation.QuietReportIsConsistent | internal/usecase/reconciliation_usecase.go:40-53 | with no commit in between every wallet whose totals fit is consistent |
| Races.SoundBooksFailToScan | internal/infrastructure/repository/wallet_repository.go:158-181 | for any wallet opened with the largest balance, any bet of it and any win of it there is a run after which the report fails although the books are in order |

## Left out

- Authentication, HTTP routing, JSON decoding, configuration, logging, metrics, health checks, migrations, shutdown.
- SHA-256 and canonical JSON: the payload hash is the tuple of the ten hashed fields, that is, hashing is taken to be injective. The hash of a queue message's body is modelled by the payload that the body carries.
- Times: `next_retry_at`, `next_send_at`, backoff and the timestamps of rows. Whether a parked row or an event is due is left to the environment.
- Event ids, which are built from a clock: an event is new or its insert fails.
- Column lengths and lost connections: in the interleaved layer a transaction can be rolled back at any moment with any error, which covers a statement that fails for a reason of its own, a panic and an abort.
- Letter case and space outside ASCII: normalising a currency is modelled for ASCII, with Unicode white space that is one byte or a listed code point.
- An insert that meets a committed row conflicts at once, also where PostgreSQL first waits for an update of that row to end. Foreign-key locks are not modelled: they fall on rows that the transaction itself has locked or inserted.
- Bounds on refunds: the code limits a reversal neither by the amount nor by the wallet of its reference, nor to one per reference, so nothing of the kind is stated.
- Eventual settlement of parked rows: `PendingRefMaxRetry` is not used by the code, and a credit that fails leaves the row parked.
- Fair scheduling: that every transaction gets to execute its next statement is not assumed. Liveness is stated as what can always be done (`Completion.RunsToTheEnd`), not as what will be.
- Amounts.ParsePrint: does not cover negative amounts, which parsing refuses; printing MinInt64 is modelled but nothing is stated about it.
- Sessions.Session.Exec: nothing else runs beside a session; concurrency is the subject of the interleaved layer, whose statements are those of the same plans.
- Sessions.Session.FindByIDWithLock: never waits for the lock, because nothing else runs beside a session; waiting is the subject of the interleaved layer (`Locks.LockedWalletStays`).
- PendingWorker.ProcessBatch: the order of creation and the rows that are due are parameters, since times are left out.
- OutboxWorker.Publisher.ProcessPendingEvents: so are the order in which events are due and the set that other publishers have locked; the latter is the subject of the protocol in `Outbox.dfy`.
- Delivery.EveryRunDelivers: a message id is unique, as SQS assigns it, so it determines its data; the envelope's own id, used when SQS gives none, may repeat, and `SqsWorker.SuccessOnRecordWhen` says what then happens.
- Late.LateIsOnTime: what runs in between does not name the parked reversal as its own reference, compete for its keys or message, or settle it; such a program is refused in the one run and can be recorded in the other.
- Outbox.EveryRunDrains: the events are numbers in the order of their commits, tied to the tables in `Publishing.dfy`; a batch is any ten due events, not the ten that have been due longest.
