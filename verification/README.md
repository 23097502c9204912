# A verified model of the refund engine

The refund engine moves money through a gateway it cannot trust to answer. A database holds charges, refund
rows, an append-only transition log and the webhook event ids seen so far. The gateway deduplicates on the
refund's own id. Requesters, approvers, submitters, recovery jobs and webhook handlers share both, may crash
between any two statements, and may see any gateway call dropped or timed out. This project models that
protocol, the redaction of card numbers and the daily reconciliation, and proves what they promise.

`dafny verify dfyconfig.toml` checks the whole project.

## How the project is laid out

* `Ledger`, `Errors`, `Outcomes`: the rows, the status machine, the live sum, the errors.
* `GatewayRef`, `Gateway`: the printed refs and the gateway, both as a function on its state and as the
  object `MockGateway` whose fields each call changes in place.
* `Statements`: each SQL statement as an atomic function on the tables.
* `Invariant`, `Protocol`, `ProtocolInvariant`, `ProtocolTheorems`: the transition system. A state is the
  tables, the gateway and any number of actors, each with a program counter and its (possibly stale) locals.
  A move is one statement, one gateway call, a crash, a new actor or a new charge. The gateway's behaviour and
  the place a new row takes in `created_at` order are chosen afresh at every step. The invariant is inductive;
  the theorems are about every run.
* `Operations`, `Refinement`: the five operations run without interruption, each shown to be a run of the
  protocol's actor of that kind.
* `Engine`: the operations as sequential code over a `Database` object, each proved to do exactly what the
  function of the same name in `Operations` does.
* `Recovery`, `CrashRecovery`, `Idempotency`, `Webhooks`, `Audit`: what whole operations and their sequences
  guarantee. `RecoveryJob`: what one recovery job guarantees inside any interleaved run.
* `VerdictSteps`, `Verdicts`, `EventIds`, `ApprovalAudit`: over all interleaved, crashing runs, exactly how a refund
  gets its verdict, that an event id acts at most once, and exactly what the log says about who approved a refund.
* `RequestTerms`, `Provenance`, `SubmitTerms`, `WebhookTerms`, `RecoverTerms`, `OperationTerms`, `ReconcileTerms`,
  `RedactTerms`: the same operations in plain terms, with every status, event type, column, name, byte and answer
  written out, so that nothing above hangs on what a shared predicate happens to mean.
* `Scenario`, `WebhookLimits`, `StaleAudit`: reachable states in which the engine does less than its comments say,
  and the exact conditions under which it keeps its word.
* `Reconcile`: the hash-indexed matcher against a naive scan, and where every cent of difference goes.
* `Utf8`, `Redact`: the card-number scanner as loops over bytes, against a closed form stated per byte.

Three model conventions: a refund's idempotency key is the text of its own id, so keys are ids
(`src/request.rs:86-96`); ids are numbers and a reused one is the primary key violation the database would
raise; `approvals` in `Invariant.World` is a history that no code reads.

## Where the code and its own comments part

* A run of 20 or more digits is not masked down to its last four (`src/redact.rs:1-10`): its first N - 19 digits
  are copied. `OnlyLastFourStayIff` says exactly when only four stay and `TwentyDigitsLeak` shows a text where more
  do; `IdempotentIff` says that redacting twice is redacting once exactly up to 31 digits and
  `ThirtyTwoDigitsRedactTwice` shows a text beyond.
* The webhook's audit row is said never to disagree with its state change (`src/webhook.rs:118-122`). Its
  `from_status` is read from the log, which submit, approve and recovery write in a separate statement:
  `WebhookMayLogStaleStatus` reaches a state where it is wrong, `WebhookLogsTrueStatusIff` says of any run exactly
  when it is right, `LogIsCurrentAtRest` what suffices, and `AuditReplay` that whole operations always leave it right.
* Webhooks are said to tolerate any order (`src/webhook.rs:58-60`) and replays to be no-ops. Order across refunds is
  indeed irrelevant, and no event id ever acts twice (`EventActsAtMostOnce`). But an event can be spent without
  acting, and its redelivery does not help: it comes before its ref is recorded, or its handler crashes between the
  two statements. `VerdictIsFirstDecision` is the exact condition in any run: the second statement of some handler
  must find the ref on record. `EarlySettlementHappens`, `CrashedHandlerLosesEvent` and `EarlyHandlerMaySettle` are
  reachable states. The lemmas about lists of deliveries, `EarlyEventsDecideNothing` among them, are about handlers
  that run whole.
* The audit log is said to answer who authorized the money to move (`src/approval.rs:36-38`). No approval entry ever
  names the requester (`ApprovalsNameOthers`), but approvals may race and crash: `LogNamesMoverIff` says exactly when
  the log names the one who took the refund out of review, and `LogMayNameAnother` reaches a state where it names
  only someone else.
* `apply_failed` is said to touch rows that are not already terminal (`src/webhook.rs:146-148`); its guard lets a
  failed row take a newer reason and another audit row. The model follows the guard: `TerminalIsLeftAloneIff` is the
  exact condition, `FailedRowFailsAgain` a reachable state.
* In reconciliation the last line with a ref wins (`src/reconcile.rs:57-60`), so a repeated line can hide money:
  `Conservation` has a term for it, `NoFlagsMeanEqualTotalsIff` says exactly when an unflagged file balances, and
  `RepeatedLineIsNotFlagged` shows a file that is a whole line off with no flag raised.

## Model

| member | source | states |
|---|---|---|
| `ProtocolTheorems.MoneyBound` | src/request.rs:30-116 | In every reachable state of every interleaved, crashing run: what the gateway moved for a charge's live refunds is at most their live sum, which is at most the captured amount; every gateway entry is one of the refunds summed over. |
| `RequestTerms.CapturedBound` | src/request.rs:46-76 | The same with the statuses written out: in every reachable state the amounts of a charge's rows that are neither failed nor canceled, settled ones included, are at most its captured amount, and so is what the gateway moved for them. |
| `RequestTerms.SettlingKeepsSums` | src/model.rs:127-138 | Settling a refund leaves every charge's sum equal. |
| `RequestTerms.FailingLowersSum` | src/model.rs:127-138 | Failing a refund lowers its own charge's sum by exactly its amount and no other. |
| `RequestTerms.AcceptedIff` | src/request.rs:34-101 | A request is accepted if and only if its charge exists, the currencies agree, its amount is positive, its id is new, and its amount with the charge's written-out sum is at most the captured amount. |
| `RequestTerms.RefusedBecause` | src/request.rs:41-76 | Otherwise it changes nothing and names the first reason that applies, with the exact remainder if it asks too much. |
| `RequestTerms.AcceptedWrites` | src/request.rs:80-114 | An accepted request writes one row and one audit row, column by column as requested, in review from 100,000 cents on, and nothing else. |
| `RequestTerms.LargeRequestWaits` | src/approval.rs:16-25 | Right after a large request its requester's own approval is refused, a submit does nothing, and neither changes a table. |
| `ProtocolTheorems.MoneyMovesOnlyForSubmitted` | src/submit.rs:39-70 | A new gateway entry appears only while its row is `submitted`, and for that row's amount and currency, so stale submitters and recoverers move nothing for a settled or failed row. |
| `ProtocolTheorems.TerminalIsFinal` | src/webhook.rs:98-107 | A settled or failed row keeps its verdict and its one gateway entry over any further stretch of any run. |
| `ProtocolTheorems.RunIsMonotone` | src/recover.rs:55-57 | Over any stretch of any run ranks never fall, terminal statuses are absorbing, and refs, amounts, gateway entries, log and event ids are never rewritten, in spite of recovery's unguarded status write. |
| `ProtocolTheorems.StepSimulatesStatusMachine` | src/model.rs:8-12 | Every move, seen from one refund, is a step or a stutter of the status machine. |
| `OperationTerms.StatusesOnlyMoveOn` | src/model.rs:8-12 | The same with the statuses written out: in any run a status stays, or goes from review to requested, from requested to submitted, or from submitted to settled or failed. |
| `OperationTerms.NothingIsCanceled` | src/model.rs:8-12 | No run produces a canceled refund. |
| `OperationTerms.AnythingMayHappen` | src/request.rs:32-36 | In every state anyone may crash, any operation may be started, and every actor may take its next step under any gateway behaviour, except a request about to take a row lock that another one holds. |
| `ProtocolInvariant.RecoverRefIsRecordRef` | src/recover.rs:55-57 | Under the invariant recovery's statement, which overwrites the status without looking at it, equals the one that writes only the ref. |
| `ProtocolTheorems.RefsAgree` | src/submit.rs:54-70 | A recorded ref is the gateway's own id under that refund's key, with the row's amount and currency, and the row was at least submitted. |
| `ProtocolTheorems.KeysAgree` | src/recover.rs:52-101 | Every key at the gateway is a persisted row of rank at least submitted with the same money. |
| `ProtocolTheorems.NoConstraintIsViolated` | migrations/0001_refunds.sql:32-33 | No two rows ever carry one ref, and no statement in any run is refused by the ref index, by a bigint overflow or for a missing row. |
| `ProtocolTheorems.SumWasRead` | src/request.rs:44-57 | A requester past its sum read exactly that sum in an earlier state in which it held the charge's lock, and has held it since. |
| `ProtocolTheorems.OverRefundJustified` | src/request.rs:67-76 | Every over-refund refusal was right when the sum was read under the lock: the remainder it reports is exact, not negative and less than the amount asked for. |
| `ProtocolTheorems.LockFreezesSum` | src/request.rs:32-45 | While one requester holds a charge's lock, no move of anyone else raises the charge's live sum. |
| `ProtocolTheorems.RequestArithmeticFits` | src/request.rs:57-67 | The sum and the remainder stay within the captured amount, so the 64-bit subtraction never wraps. |
| `ProtocolTheorems.AuditNeverAhead` | src/recover.rs:102-109 | In every run each logged `to_status` has at most the row's rank, then and later, and a logged verdict is the row's verdict, including entries appended after an UPDATE that matched nothing. |
| `OperationTerms.LoggedMeansReached` | src/webhook.rs:92-94 | The same with the statuses written out: a logged verdict is the row's, a logged `submitted` means it was at least submitted, a logged `requested` that it left review. |
| `ProtocolTheorems.ApprovalHappened` | src/approval.rs:27-34 | Every approval on record traces back to one move of the run that took the row from `pending_review` to `requested`. |
| `ProtocolTheorems.LargeRefundsWereApproved` | src/approval.rs:13-48 | A refund of at least 100,000 cents is at the gateway only if, earlier in the run, an approve by someone other than its requester took it out of review. |
| `Provenance.RowComesFromRequest` | src/request.rs:86-116 | In every run each refund row has an earlier commit of a request that it repeats: charge, amount, currency, reason, and the requester as the person who asked; its history in the log opens with that request. |
| `Provenance.LargeRefundsApprovedByAnother` | src/approval.rs:20-34 | A refund of at least 100,000 cents is at the gateway only if someone other than the person who requested it took it out of review. |
| `Provenance.NobodyApprovesOwnRequest` | src/approval.rs:20-25 | In no run does an approval in the name of the person who requested the refund get past its check. |
| `Provenance.ApprovalsNameOthersThanRequester` | src/approval.rs:36-45 | No approval entry in any run names the person who requested the refund. |
| `ApprovalAudit.ApprovalEntryIff` | src/approval.rs:36-45 | In any run an approval entry is in the log if and only if an approver past its UPDATE took the step that writes it. |
| `ApprovalAudit.ApprovalsNameOthers` | src/approval.rs:20-45 | In any run each approval entry names the approver who wrote it, and never the requester. |
| `ApprovalAudit.LogNamesMoverIff` | src/approval.rs:36-38 | In any run the log names the one who took the refund out of review if and only if an approver of that name lived to write its entry. |
| `ApprovalAudit.LogMayNameAnother` | src/approval.rs:27-45 | A reachable state: the one who took the refund out of review crashed, and the only approval entry names another. |
| `ProtocolInvariant.NextKeepsInv` | src/recover.rs:46-112 | The global invariant is inductive: every enabled move keeps it and evolves tables and gateway lawfully. |
| `ProtocolInvariant.ReachableInv` | src/submit.rs:17-73 | The invariant holds in every state of every run from the empty start. |
| `ProtocolInvariant.ActorStable` | src/submit.rs:36-54 | What an actor believes at its program point survives anything others may do, except a commit by the holder of the lock it claims. |
| `ProtocolInvariant.RecordKeeps` | src/submit.rs:63-70 | Recording the gateway's ref for a key never hits the unique index and keeps the invariant. |
| `ProtocolInvariant.ApplyKeeps` | src/webhook.rs:96-112 | Applying any webhook event, known or unknown, keeps the invariant and evolves the tables lawfully. |
| `ProtocolInvariant.LocksKept` | src/request.rs:32-36 | At most one transaction holds the row lock of a charge, whatever moves. |
| `Invariant.CreateKeeps` | src/gateway.rs:118-174 | A gateway call for a row of rank at least submitted, under any configuration, keeps the invariant and creates an entry only while the row is exactly `submitted`. |
| `Invariant.InsertKeepsInv` | src/request.rs:86-117 | Publishing a request's row and audit row at its commit, at any place in the recovery order, keeps the invariant, the captured bound included. |
| `Invariant.ApproveKeepsInv` | src/approval.rs:27-34 | The guarded advance by anyone but the requester keeps the invariant, also when it matches nothing. |
| `Ledger.LiveSumInsert` | src/model.rs:127-138 | A new row, wherever it is listed, adds exactly its amount to its own charge's sum and nothing to any other. |
| `Ledger.LiveSumMonotone` | src/model.rs:127-138 | Rows that count for no more than before never raise the sum. |
| `GatewayRef.FormatRefRoundTrip` | src/gateway.rs:105-109 | Reading the digits behind the prefix gives back the counter, within and beyond the eight padded digits. |
| `GatewayRef.FormatRefInjective` | src/gateway.rs:105-109 | Different counters print different refs. |
| `OperationTerms.RefShape` | src/gateway.rs:105-109 | A ref is `re_mock_` followed by at least eight decimal digits, with leading zeros only to make up eight. |
| `Gateway.CreateIsConsistent` | src/gateway.rs:119-174 | One call keeps counters equal to the number of keys, ids distinct, entries write-once; only a timeout leaves the key unknown. |
| `Gateway.AtMostOnce` | src/gateway.rs:118-174 | Over any calls under any configurations the store holds exactly the keys known before or landed, never overwritten, with counters equal to the number of keys and ids distinct. |
| `Gateway.MockGateway.constructor` | src/gateway.rs:78-85 | A new gateway is empty, healthy and consistent. |
| `Gateway.MockGateway.WithConfig` | src/gateway.rs:87-91 | The same with the given configuration. |
| `Gateway.MockGateway.SetConfig` | src/gateway.rs:95-97 | Changes the configuration and nothing else. |
| `Gateway.MockGateway.IssuedCount` | src/gateway.rs:99-103 | The count is the number of distinct keys served. |
| `Gateway.MockGateway.NextRef` | src/gateway.rs:105-109 | Advances the counter by one and prints it. |
| `Gateway.MockGateway.CreateRefund` | src/gateway.rs:119-174 | The call changes store, counter and count exactly as the gateway function says, keeps a consistent object consistent and overwrites no entry. |
| `Gateway.MockGateway.LookupByKey` | src/gateway.rs:176-178 | Finds the entry of a key if there is one and changes nothing. |
| `Refinement.RequestIsRun` | src/request.rs:20-118 | A whole request is an uninterrupted run of the protocol's requester: same refusals in the same order, same rows. |
| `Refinement.ApproveIsRun` | src/approval.rs:13-48 | A whole approval is an uninterrupted run of the approver. |
| `Refinement.SubmitIsRun` | src/submit.rs:17-73 | A whole submit is an uninterrupted run of the submitter, under any gateway behaviour. |
| `Refinement.WebhookIsRun` | src/webhook.rs:65-116 | A whole webhook is an uninterrupted run of the handler. |
| `Refinement.RecoverIsRun` | src/recover.rs:32-115 | A whole recovery, with its own gateway behaviour at every row, is a run of one recovery job: to its report, or to the statement that the database refuses. |
| `Refinement.AloneIsSystemRun` | src/request.rs:30-36 | An actor run alone is a run of the whole system: nothing it does waits for anyone. |
| `OperationTerms.ApproveIff` | src/approval.rs:16-45 | An approval goes through if and only if the refund is in review and the approver is not its requester; it writes the status and one audit row under the approver's name, and nothing else. |
| `OperationTerms.ApproveRefuses` | src/approval.rs:14-25 | Otherwise it changes nothing and says whether the refund is missing, not in review, or the approver's own. |
| `Recovery.SelectStuckFresh` | src/recover.rs:38-44 | The stuck list holds exactly the rows in `requested` or `submitted`, each once, with their statuses. |
| `Recovery.RecoverOneEffect` | src/recover.rs:46-111 | One turn of the walk under any gateway behaviour: the exact new row, log entry, key set and issued count, with everything else unchanged and the invariant kept. |
| `Recovery.RecoverAllEffect` | src/recover.rs:46-112 | The whole walk over any fresh list never fails, gives every listed row its converged form and leaves every other row and key alone. |
| `Recovery.RecoveryAccounting` | src/recover.rs:46-114 | Walked is the number of stuck rows and splits into already-at-gateway and resubmitted; resubmitted is the number of stuck rows the gateway did not know; without timeouts issued grows by exactly that. |
| `Recovery.HealthyRecoveryConverges` | src/recover.rs:13-31 | Against a healthy gateway every stuck row ends `submitted` with the gateway's own ref, the gateway gains exactly the stuck keys, and no other row changes. |
| `Recovery.TimeoutFreeRecoveryLands` | src/recover.rs:91-101 | One recovery that may lose every answer but does not time out leaves every stuck row known to the gateway. |
| `Recovery.RecoveryOfKnownRows` | src/recover.rs:52-71 | Once every stuck row is known, recovery under any behaviour creates nothing and links every stuck row. |
| `Recovery.SecondRecoveryConverges` | src/recover.rs:32-115 | After a recovery that merely loses answers, a second one under any behaviour resubmits nothing and links every row stuck at first. |
| `Recovery.RecoveryKeepsMoney` | src/recover.rs:75-91 | Recovery never changes what a row is worth. |
| `RecoverTerms.WalksExactly` | src/recover.rs:35-42 | The walk has exactly the rows in `requested` or `submitted`, with their statuses. |
| `RecoverTerms.WalksInOrder` | src/recover.rs:38-44 | It follows the `created_at` order of the rows. |
| `RecoverTerms.RecoveryLogs` | src/recover.rs:63-70 | It appends exactly one audit row for each walked row, in order, as `job:recover` if the gateway already held its key and as `job:recover-resubmit` if not. |
| `RecoverTerms.RecoveryRows` | src/recover.rs:52-101 | Each walked row is submitted and takes the gateway's ref if it had none and an answer got through in its turn, and the gateway holds its own amount and currency if it holds its key. |
| `RecoverTerms.RecoveryLeavesOthers` | src/recover.rs:38-42 | A row in any other status stays as it is. |
| `RecoverTerms.RecoveryReports` | src/recover.rs:46-114 | The report counts the walked rows, those the gateway already held, and the rest. |
| `RecoveryJob.JobLeavesNoneBehind` | src/recover.rs:32-115 | In any interleaved, crashing run a recovery job that finishes ends in a report, never an error, walked exactly the rows stuck when it looked, left each of them known to the gateway if no call of its own timed out, and left each with the gateway's own ref if its own calls were answered. |
| `RecoveryJob.ReportsAddUp` | src/recover.rs:46-114 | Every report in a run has an earlier state of that run in which its job looked; it counts the rows stuck there, each in exactly one class. |
| `CrashRecovery.CleanRunEffect` | src/submit.rs:17-73 | Submitting a batch of requested rows cleanly links each row, adds exactly their keys and touches no other row. |
| `CrashRecovery.AttemptRun` | src/submit.rs:36-72 | However far any interleaving of submitters and recovery jobs got, with crashes and any gateway behaviour, the stuck rows are the same, no other row changed, no row's money changed, and only stuck rows' keys reached the gateway. |
| `CrashRecovery.SameKeysSameGateway` | src/gateway.rs:105-160 | Two lawful outcomes with the same keys hold the same key-to-money map and issued count, up to a one-to-one renaming of refs. |
| `CrashRecovery.CrashRecoverEqualsClean` | src/recover.rs:32-115 | After any interleaving of submitters and earlier recovery jobs, each cut off anywhere, one healthy recovery reaches the statuses and the gateway map of submitting a batch of requested rows cleanly, up to a one-to-one renaming of refs and with the same issued count, if and only if the rows outside the batch had nothing left to recover. |
| `CrashRecovery.BatchRowsAgree` | src/recover.rs:32-115 | For the batch's own rows the agreement needs no condition: same status, ref recorded, same amount and currency at the gateway. |
| `Idempotency.RetriesIssueOnce` | src/submit.rs:36-59 | Any number of submits under any mix of drops and timeouts: the gateway knows the key exactly if some attempt landed or it did before, and issues one refund for it or none. |
| `Idempotency.AcceptedIsStable` | src/submit.rs:24-73 | Once a ref is recorded, or the row is terminal or in review, another submit changes no row, no log entry and no gateway entry. |
| `SubmitTerms.NothingToSubmit` | src/submit.rs:24-34 | A submit for an id with no row is refused as not found; one for a row in review or with a verdict is answered `false`; tables and gateway stay as they are. |
| `SubmitTerms.SubmissionWrites` | src/submit.rs:36-73 | A submit of a requested or submitted row is answered `true` if and only if the gateway's answer gets through, makes the row submitted with the gateway's ref if it had none, logs a requested row's move once, and changes nothing else in the tables. |
| `SubmitTerms.TrueMeansRecorded` | src/submit.rs:14-16 | `true` means that the row exists, the gateway holds its key for its amount and currency, and the row carries that entry's id. |
| `SubmitTerms.TrueMeansRefFromThenOn` | src/submit.rs:61-72 | In any run a submitter answered `true` was at its recording step for the row it was started for, and from then on that row carries the ref, which is the gateway's under its key. |
| `Webhooks.ReplaysAreNoOps` | src/webhook.rs:72-88 | Any list of deliveries, forged and repeated ones among them, does exactly what its verified first deliveries do. |
| `Webhooks.EventOnRow` | src/webhook.rs:118-172 | What one event does to one row and to its log depends on that row alone. |
| `Webhooks.DeliveriesOnRow` | src/webhook.rs:65-116 | The normal form: any deliveries, seen from one refund, are its fold over the first deliveries. |
| `Webhooks.OrderIndependence` | src/webhook.rs:65-172 | From any lawful state, two delivery lists whose first deliveries agree ref by ref leave every row and every refund's log the same. |
| `Webhooks.ReorderingIsHarmless` | src/webhook.rs:58-60 | Two orderings of events with distinct ids that keep the order within each ref end alike. |
| `Webhooks.VerdictOfEvents` | src/webhook.rs:123-172 | The fold has a closed form: the first effective event decides, and a failed verdict carries the reason of the last failed event. |
| `Webhooks.FirstVerdictWins` | src/webhook.rs:98-107 | For a submitted refund with its ref recorded, any deliveries leave exactly that verdict. |
| `WebhookTerms.OtherTypesOnlyRegister` | src/webhook.rs:96-115 | A verified new event whose type is neither `refund.settled` nor `refund.failed` is registered and answered `Applied`, and no other table changes. |
| `WebhookTerms.ForgedOrRepeated` | src/webhook.rs:72-88 | A forged event is refused as a bad signature and a repeated one is a duplicate; neither changes a table. |
| `WebhookTerms.NewEventOnRow` | src/webhook.rs:96-172 | A verified new event settles a row with its ref that is requested or submitted if its type is `refund.settled`, fails one with its ref that is neither settled nor canceled, with the event's reason, if it is `refund.failed`, and leaves every other row alone. |
| `WebhookTerms.NewEventOnTables` | src/webhook.rs:123-172 | It registers its id, adds and removes no row, and writes exactly one audit row for the row it takes, from the status of the latest one. |
| `WebhookTerms.NewEventOnNoRow` | src/webhook.rs:98-112 | An event that takes no row writes its id only. |
| `WebhookTerms.VerdictComesFromItsEvent` | src/webhook.rs:72-116 | In any run a settled refund was settled by a verified event of type `refund.settled` naming its ref, a failed one failed by one of type `refund.failed`, and none is canceled. |
| `WebhookTerms.EventGivesVerdict` | src/webhook.rs:96-114 | In any run a handler whose second statement finds its ref on a submitted row gives that row its verdict for good. |
| `WebhookLimits.DeliveriesAroundRecording` | src/webhook.rs:76-94 | Any deliveries, then the gateway's ref recorded, then any deliveries: the first ones leave row and log alone, and row and log end as the fold over those later first deliveries whose ids the earlier ones did not spend. |
| `WebhookLimits.EarlyEventsDecideNothing` | src/webhook.rs:76-112 | With deliveries handled whole: the refund gets a verdict if and only if some effective event for it is delivered after its ref is recorded with an id not spent before, and then the first such event decides. |
| `WebhookLimits.EarlySettlementIsLost` | src/webhook.rs:76-94 | With both deliveries handled whole: one settlement delivered, then the ref recorded, then the settlement redelivered settles a submitted row if and only if the ref was already recorded at first. |
| `WebhookLimits.EarlySettlementHappens` | src/webhook.rs:86-88 | A reachable state: the settlement was handled once and a duplicate the second time, and the row with its ref recorded still waits. |
| `WebhookLimits.EarlySettlementWitness` | src/webhook.rs:76-94 | A reachable state to which `EarlySettlementIsLost` applies and where the row does not settle. |
| `WebhookLimits.TerminalIsLeftAloneIff` | src/webhook.rs:146-158 | An event for a settled, failed or canceled row changes nothing in any table if and only if it is not a failed event on a failed row. |
| `WebhookLimits.FailedRowFailsAgain` | src/webhook.rs:154-158 | A reachable failed row whose reason another failed event replaces, with an audit row from `failed` to `failed`. |
| `VerdictSteps.VerdictStepIff` | src/webhook.rs:94-114 | At any enabled move of a lawful state, a refund without a verdict gets one if and only if the move is the second statement of a handler whose event takes the row as it is then, and it is that event's verdict. |
| `Verdicts.VerdictIsFirstDecision` | src/webhook.rs:78-114 | In every interleaved, crashing run a refund has a verdict if and only if some earlier move decided on it; the verdict is the first such event's, and a failed refund's reason is the last such event's. |
| `Verdicts.VerdictIff` | src/webhook.rs:78-114 | The same as an existence over the moves of the run. |
| `EventIds.EventActsAtMostOnce` | src/webhook.rs:76-88 | In every interleaved, crashing run no two moves apply events with the same id, whatever was redelivered to whom. |
| `EventIds.CrashedHandlerLosesEvent` | src/webhook.rs:78-94 | A reachable state: the ref was on record all along, the handler died between its statements, the redelivery was a duplicate, and the row still waits. |
| `EventIds.EarlyHandlerMaySettle` | src/webhook.rs:78-114 | A reachable state with the event spent and no ref on record, from which the submitter records the ref and the handler settles the row. |
| `Audit.Hop` | src/submit.rs:39-49 | A lawful status move with its own entry extends one refund's chain and leaves every other chain connected. |
| `Audit.WebhookFromStatusIsTrue` | src/webhook.rs:133-138 | While chains are connected, the status the webhook reads from the log is the row's status. |
| `Audit.AuditReplay` | src/request.rs:103-114 | After any run of whole operations under any gateway behaviour each refund's log is a connected chain from nothing to the row's status, each link a lawful move. |
| `Audit.ApproverIsOnRecord` | src/approval.rs:36-45 | A large refund that reached the gateway has in its log the approval by someone other than its requester. |
| `Provenance.RowComesFromOperation` | src/request.rs:86-116 | After whole operations every row repeats a request among them that was accepted in its turn. |
| `Provenance.ApproverOnRecordIsAnother` | src/approval.rs:20-45 | After whole operations a large refund at the gateway has in its log the approval by someone other than the person whose request was accepted. |
| `StaleAudit.WebhookMayLogStaleStatus` | src/webhook.rs:118-122 | A reachable state in which the settled webhook takes a `submitted` row to `settled` and logs that it came from `requested`. |
| `StaleAudit.LoggedFromIsTrueIff` | src/webhook.rs:123-172 | Either handler, on any row it takes, writes one entry, and from the status the row really left if and only if the log's last word on the row was its status. |
| `StaleAudit.InSyncIffPublished` | src/submit.rs:36-49 | In any interleaved, crashing run the log's last word on a refund is its status if and only if some move published that status and no later move changed it without logging or wrote an entry it had left behind. |
| `StaleAudit.WebhookLogsTrueStatusIff` | src/webhook.rs:118-172 | In any run a webhook logs the status the row really left if and only if that condition on the moves before it holds. |
| `StaleAudit.LogIsCurrentAtRest` | src/recover.rs:63-70 | In any run in which no actor crashes owing this refund an entry, and none writes an entry for a status it is not in, the log is current for the refund whenever no actor owes it one. |
| `Statements.FindRefIn` | src/webhook.rs:128-131 | The row found carries the ref, and none is found only if no listed row does. |
| `Statements.SelectStuckFrom` | src/recover.rs:38-44 | The list has exactly the listed rows that are requested or submitted, with the status they have. |
| `Engine.Database.CreateCharge` | src/model.rs:86-105 | Inserts the charge exactly if its amount is not negative and its id new; otherwise nothing changes. |
| `Engine.Database.MarkSubmitted` | src/submit.rs:39-45 | The guarded UPDATE, tables before and after. |
| `Engine.Database.MarkApproved` | src/approval.rs:28-34 | The guarded UPDATE, tables before and after. |
| `Engine.Database.RecordRef` | src/submit.rs:63-70 | Writes the ref if it is missing, unless the unique index refuses. |
| `Engine.Database.RecoverRef` | src/recover.rs:55-62 | Writes ref and status if the ref is missing, unless the unique index refuses. |
| `Engine.Database.RecordTransition` | src/submit.rs:76-94 | Appends one entry and changes nothing else. |
| `Engine.Database.RegisterEvent` | src/webhook.rs:78-84 | Inserts the event id and tells whether it was new. |
| `Engine.Database.ApplySettled` | src/webhook.rs:123-144 | Moves the row with this ref from submitted or requested to settled and logs it from the last logged status. |
| `Engine.Database.ApplyFailed` | src/webhook.rs:149-172 | Moves the row with this ref to failed unless settled or canceled, with the reason, and logs it. |
| `Engine.Database.InsertRefund` | src/request.rs:87-114 | Row and first audit row together, listed last. |
| `Engine.RequestRefund` | src/request.rs:20-118 | The sequential code leaves the tables and the answer of the request whose refinement and bounds are proved. |
| `Engine.Approve` | src/approval.rs:13-48 | The same for approval. |
| `Engine.SubmitRefund` | src/submit.rs:17-73 | The same for submit, on tables and gateway object together. |
| `Engine.HandleWebhook` | src/webhook.rs:65-116 | The same for the webhook. |
| `Engine.RecoverRow` | src/recover.rs:46-111 | The loop body does to tables and gateway what recovery of one row does. |
| `Engine.RecoverSubmitted` | src/recover.rs:32-115 | The loop over the stale stuck list computes the recovery whose accounting and convergence are proved, counters included. |
| `Reconcile.IndexFile` | src/reconcile.rs:56-60 | The index maps each ref of the file to its last line and knows no other ref. |
| `Reconcile.MatchRows` | src/reconcile.rs:62-84 | The hashed pass over the settled rows finds the naive scan's missing and mismatched rows and exactly the refs of rows that are in the file. |
| `Reconcile.CollectUnmatched` | src/reconcile.rs:86-92 | The second pass finds exactly the lines no settled row has. |
| `Reconcile.ReconcileRows` | src/reconcile.rs:56-94 | The matcher equals the naive scan in all three classes. |
| `Reconcile.Reconcile` | src/reconcile.rs:45-95 | The same over the settled rows of the database. |
| `Reconcile.ExactlyOneClass` | src/reconcile.rs:65-84 | Of rows with distinct ids, each is missing, mismatched or clean, judged against the last line with its ref. |
| `Reconcile.ReachableExactlyOneClass` | src/reconcile.rs:65-84 | In every reachable state every settled refund is in exactly one of these classes. |
| `Reconcile.MismatchMeans` | src/reconcile.rs:73-81 | The mismatches are exactly the settled rows whose last line differs, with both amounts. |
| `Reconcile.UnmatchedMeans` | src/reconcile.rs:86-92 | Class two holds each ref as often as the file does if no settled row has it, and otherwise not at all. |
| `Reconcile.Conservation` | src/reconcile.rs:45-95 | For every file and all rows with distinct refs: total of file minus total of rows is class two plus the mismatch differences minus class one plus what repeated lines hide. |
| `Reconcile.SelectedAreDistinct` | migrations/0001_refunds.sql:32-33 | The query returns each id and each ref once. |
| `Reconcile.ReachableConservation` | src/reconcile.rs:45-95 | In every reachable state and for every file the rows that settled obey conservation, and unflagged totals agree exactly if repeated lines hide nothing on balance. |
| `Reconcile.DistinctLinesHideNothing` | src/reconcile.rs:57-60 | A file that repeats no ref hides nothing. |
| `Reconcile.NoFlagsMeanEqualTotalsIff` | src/reconcile.rs:17-31 | With no flag raised the totals agree if and only if repeated lines hide nothing on balance. |
| `Reconcile.NoFlagsMeanEqualTotals` | src/reconcile.rs:17-31 | In particular they agree when the file repeats no ref. |
| `Reconcile.RepeatedLineIsNotFlagged` | src/reconcile.rs:57-60 | With a repeated ref the totals can differ by a whole line and nothing is flagged. |
| `Reconcile.ReachableStatesReconcile` | src/reconcile.rs:49-92 | In every reachable state of the protocol, reconciling against the gateway's own entries for the settled rows flags nothing. |
| `Reconcile.GatewayFileReconciles` | src/reconcile.rs:49-92 | In every reachable state such a file exists: one line for each settled row, to the same total. |
| `Reconcile.ReachableStatesSelectAllSettled` | src/reconcile.rs:49-54 | In every reachable state the query returns every settled row: its null filter drops none. |
| `ReconcileTerms.SelectedPlainly` | src/reconcile.rs:48-54 | The rows matched are exactly those that are settled and carry a ref, with that ref and amount. |
| `ReconcileTerms.LastLinePlainly` | src/reconcile.rs:56-60 | The line a ref is judged against is the one after which no line has it; there is none exactly if no line has it. |
| `ReconcileTerms.MissingPlainly` | src/reconcile.rs:67-70 | Class one is exactly the settled rows whose ref no line has. |
| `ReconcileTerms.MismatchPlainly` | src/reconcile.rs:71-82 | A settled row whose last line has another amount is in class three with both amounts, and one whose last line agrees is not. |
| `ReconcileTerms.UnmatchedPlainly` | src/reconcile.rs:86-92 | Class two goes line by line, in the order of the file and as often as they occur, over the refs no settled row has. |
| `Utf8.StepIsOneChar` | src/redact.rs:35-45 | From a character start in well-formed UTF-8 (section 4 of RFC 3629) the lead byte's length steps over exactly that character, onto a boundary within range. |
| `Utf8.EncodedIsOneChar` | src/redact.rs:35-45 | The encoding of every Unicode scalar value (section 3 of RFC 3629) is one character of the grammar, of the length read off its lead byte. |
| `Utf8.CharIsEncoded` | src/redact.rs:25-29 | Every character of the grammar is the encoding of a scalar value. |
| `Utf8.AsciiKeepsWellFormed` | src/redact.rs:25-29 | Stepping over ASCII byte by byte stays on character starts. |
| `Utf8.AsciiEditKeepsWellFormed` | src/redact.rs:20-28 | Writing ASCII over ASCII keeps a text well-formed. |
| `Redact.ScanPan` | src/redact.rs:53-85 | Scanning from any digit of a run ends where the run ends with the digits from there on, and matches exactly if 13 to 19 are left. |
| `Redact.MaskKeepingLast4` | src/redact.rs:89-107 | Every digit with at least four digits of the match after it becomes a star; everything else stays in place. |
| `Redact.RedactPan` | src/redact.rs:11-33 | On every well-formed text the loop, with restarts after failed matches and separator back-out, computes the closed form, with every slice in range and on character boundaries. |
| `RedactTerms.RedactsExactly` | src/redact.rs:7-33 | In bytes, for every text: a byte becomes 42 exactly if it is one of 48 to 57 with at least four more after it in a window of 13 to 19 such bytes, singly separated by 32 or 45 and with no further one to follow; every other byte stays. |
| `RedactTerms.CardNumberIsMasked` | src/redact.rs:7-10 | A text that is one card number, spaced or hyphenated in any way, keeps its last four digits and its layout. |
| `RedactTerms.FourGroupsMasked` | src/redact.rs:7-10 | Any sixteen digits in four groups, spaced or hyphenated: the first twelve are masked. |
| `RedactTerms.SolidNumberIsMasked` | src/redact.rs:7-10 | Any 13 to 19 digits in a row: all but the last four are masked. |
| `RedactTerms.SpacedCard` | src/redact.rs:7-10 | `4242 0909 1357 2468` comes out as `**** **** **** 2468`. |
| `RedactTerms.HyphenatedCard` | src/redact.rs:7-10 | `4242-0909-1357-9009` comes out as `****-****-****-9009`. |
| `Redact.WithinRun` | src/redact.rs:58-72 | Inside a run, counting digits between two positions is the difference of their ranks, and all its digits agree on its end and length. |
| `Redact.RedactedIsWellFormed` | src/redact.rs:25-29 | The output is well-formed UTF-8 of the same length. |
| `Redact.UnchangedIffNoLongRun` | src/redact.rs:7-10 | Redaction changes a text exactly if it has a run of at least 13 digits. |
| `Redact.RunsAfter` | src/redact.rs:11-33 | The output has no run of 13 or more digits exactly if the input has none of 32 or more. |
| `Redact.IdempotentIff` | src/redact.rs:11-33 | Redacting twice is redacting once exactly if no run has more than 31 digits. |
| `Redact.OnlyLastFourStayIff` | src/redact.rs:1-10 | Of a run of at least 13 digits only the last four stay legible exactly if it has at most 19. |
| `Redact.TwentyDigitsLeak` | src/redact.rs:1-10 | Twenty digits in a row: the first one stays in the output. |
| `Redact.ThirtyTwoDigitsRedactTwice` | src/redact.rs:11-33 | Thirty-two digits in a row: redacting the output changes it again. |
| `Redact.RedactionKeepsLast4` | src/redact.rs:109-118 | On a text with a single run of digits, `last4` gives what redaction leaves legible if the run has 13 to 19 digits, and nothing otherwise. |
| `RedactTerms.Last4Plainly` | src/redact.rs:111-118 | `last4` gives the last four of the bytes 48 to 57 of a text if it has 13 to 19 of them, and nothing otherwise. |

## Left out

- Postgres, sqlx, tokio, migrations, connections and their failures: a statement is an atomic step, and only the
  charge's row lock, commit and rollback of `request_refund` are modelled.
- HMAC, hex and JSON (`src/webhook.rs:41-56`): whether a signature verifies is an input of the handler.
- UUID generation and text: ids are numbers chosen by the environment; `gateway_ref` keeps its text.
- Timestamps: `created` lists refunds in `created_at` order, and a commit may place its row anywhere in it.
- `Engine.Database.InsertRefund`: lists the new row last, because whole operations run one after another; any
  other place is covered by the protocol.
- `Engine.Database.CreateCharge`: takes the id as a parameter where the source draws a fresh one.
- `WebhookLimits.EarlyEventsDecideNothing`: deliveries are handled whole; for handlers that interleave or crash the
  exact condition is `Verdicts.VerdictIsFirstDecision`.
- `WebhookLimits.EarlySettlementIsLost`: likewise.
- `Gateway.MockGateway.CreateRefund`: one atomic step, as the trait promises; the mock gives up its lock between the
  dedupe check and the insert (`src/gateway.rs:130-160`), and that interleaving is not modelled.
- `Engine.RecoverSubmitted`: one gateway configuration for the whole walk, as nobody runs beside a sequential method;
  a different one at every row is covered by the recovery functions and by the protocol.
- `Gateway.MockGateway.NextRef`: the counter is unbounded, where the source's is a `u64`.
- `Redact.RedactPan`: works on the bytes of the text, requiring what `&str` guarantees; strings of `char` are not used.
- `Reconcile.Reconcile`: returns rows in `created` order; the query fixes none.
- `StaleAudit.WebhookMayLogStaleStatus`: one run only, because it refutes a claim; the exact condition is
  `StaleAudit.WebhookLogsTrueStatusIff`.
- Status changes and their audit rows interleaved: no connected chain is claimed there, only that the log is never
  ahead.
- Liveness of settlement: no claim that every settlement event takes effect, since some do not.
- `Canceled`: kept as a status, produced by nothing.
- Printing and parsing of statuses, error texts, reports, the demos and `reset`: they would add easy members only.
