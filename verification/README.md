# A model of the notification outbox and the dashboard engine

This project models two parts of django_resaas and proves properties of the model.

**The notification outbox.** Business events insert rows under an idempotency key. Dispatchers claim rows
with conditional updates and publish messages to a queue that may duplicate or lose them. Workers claim a
row, load it again, insert an attempt row under a unique number, call the provider and finally overwrite
the row from memory. A periodic recovery releases rows by timeout, and users cancel and retry by hand.

- `Cells.dfy` is the state machine of one row: 23 kinds of events (each one database statement, one broker
  or provider call, one crash or one API action), interleaved in any order by any number of workers and
  dispatchers. `CellInvariant.dfy` proves the invariant, `CellRuns.dfy` what follows for every run,
  `PatientRecovery.dfy` what follows if recovery never releases a row under a live worker,
  `Unaided.dfy`, `Recoverability.dfy`, `Cancellation.dfy` and `Redelivery.dfy` the exact conditions for promises
  that do not hold always, and `Witnesses.dfy` concrete runs from a fresh row that break them.
- `Systems.dfy` puts many rows together, with event and fallback insertion and bulk recovery. `Interference.dfy`
  says what a method and what everybody else may do to the system, `SystemRuns.dfy` carries the claims
  about single rows over to all rows, along every run and whatever a method does, and `Fallbacks.dfy` says when
  a failed row can still get its fallback.
- `Database.dfy`, `Worker.dfy`, `Dispatching.dfy`, `Selection.dfy` and `Engine.dfy` are the imperative code,
  statement by statement, over a mutable table. Between any two statements `Database.Interfere` lets
  everybody else make any number of moves. Every method is proved to be a run of the system, so all run
  theorems apply to it, and is proved to compute its exact result when nothing interferes (`quiet`).
  `Interfere` does nothing itself: its contract, which is all a caller may rely on, admits every
  sequence of moves by others.
- `Rules.dfy`, `Conditions.dfy` and `Backoff.dfy` hold the gates, keys, condition trees and delays.

**The dashboard engine.** `Dashboards.dfy` and `Layout.dfy` say what a valid configuration is and what a
caller may see of it; `Validator.dfy` has the validator's loops; `Registry.dfy`, `Views.dfy` and
`Discovery.dfy` the registry, the endpoints and the discovery over mutable objects; `Filters.dfy` the
filter resolution and parsing.

Check everything with `dafny verify dfyconfig.toml`.

## Where the code differs from its documentation

The model follows the code.

- The retry action is documented as valid from FAILED only (`views/outbox.py:47-49`); it accepts every status
  that may go to PENDING, so DISPATCHING, QUEUED and RETRY too (`Enums.WhoCanGoPending`,
  `Witnesses.RetriedWhileQueued`).
- The batch is documented to return how many rows were claimed and enqueued (`outbox_dispatcher.py:86-88`);
  it returns how many were selected (`Dispatching.RefusedRowsAreCounted`). The two are equal exactly if every
  selected row was still eligible when it was tried and its publication was accepted
  (`Dispatching.DispatchEligibleBatch`, `Dispatching.QueuedAreCounted`).
- Recovery is documented to return rows to a recoverable state, one that the periodic tasks can continue from
  (`outbox_dispatcher.py:38-41`, `:62-65`, `:144-151`). That is false when a worker died after inserting its
  attempt (`Witnesses.ReleasedAndLost`), when a row is released under a live worker that then loads RETRY
  (`Witnesses.ReleasedTooEarly`), and when a message is lost (`Witnesses.MessageLost`). The exact condition is
  `Unaided.UnaidedExactly`; `Recoverability.RecoverableExactly` is the weaker one with a person's help.
- A worker that dies between storing FAILED and offering the fallback channel loses the fallback
  (`tasks.py:200-212`); `Fallbacks.FallbackAheadExactly` is the exact condition.
- The retry action suggests that a FAILED row can be delivered later; after a validation failure it cannot
  (`Witnesses.RetriedInVain`, `Recoverability.RejectedRowsAreBlocked`).
- The worker function is documented as idempotent, a row that is already sent or cancelled being left alone
  (`tasks.py:35-39`), and CANCELLED as final. Both fail when recovery releases a row whose worker is only slow:
  `Witnesses.DeliveredTwice` and `Witnesses.CancelledThenSent` are such runs. Two acceptances are the most
  (`CellRuns.AtMostTwoDeliveries`); `Redelivery.DeliversAgainExactly` and `Cancellation.CancelledIsFinalExactly`
  are the exact conditions. `PatientRecovery.PatientRunsAreSafe` covers every run in which recovery releases a
  row only when no worker is past its claim on it.
- The idempotency key is meant to identify the occasion. With a colon in a text id two occasions can share it
  (`Engine.SecondOwnerIsForgotten`); the exact conditions are `Rules.EventKeyExactly` and
  `Rules.RecipientsCollideExactly`.
- The worker claims PENDING and RETRY rows directly, which the transition table does not list
  (`enums.py:46-75`, `Witnesses.ClaimedWhilePending`).
- A filter of type branch is documented as never without a value (`filters.py:234-238`). Of a request without a
  branch it has none, even when it is required (`Filters.RequiredBranchIsAbsent`,
  `Filters.RequiredPresentExactly`).
- A missing or blocked field of a condition is documented to evaluate to false (`conditions.py:4-9`); with is_null
  it is true, and only with that (`Conditions.MissingLeaf`).
- The batch sorts by the text of the priority (`outbox_dispatcher.py:126-136`), so low rows go before normal ones
  (`Selection.LowComesBeforeNormal`), which is not the order in which `enums.py:19-23` lists them.
- The validator takes a null `widgets` entry for an empty list (`validator.py:76-88`); the endpoints then raise
  when they iterate over it (`Views.NullWidgetsAreValid`, `Views.NullWidgetsRaise`).

## Assumptions made explicit

- Clock readings are arbitrary reals and jitter is an arbitrary draw in [0, 1] scaled to ten percent.
- `provider.send`, the broker, address validation, template lookup and rendering, tenant settings,
  permissions and module activation are parameters; a gate's answer may differ from one call to the next.
- `Config.patient` is the assumption that recovery never releases a row under a live worker. It is off unless a
  claim asks for it. The timeout of `recover_stuck` does not imply it, so `Dispatching.RecoverStuck` is a run of
  the system where the assumption is off, and where it is on if nothing interferes and its update of PROCESSING
  rows meets it.
- The gates of one event are read once; other transactions may insert and change rows between its insertions.
- A row is identified by its idempotency key. Rules do not change during a run.
- Request parameters map a key to its list of values, of which the last one is used where one is needed.

## Model

| member | source | states |
|---|---|---|
| CellInvariant.StepKeeps | src/django_resaas/notifications/tasks.py:56-74 | every single statement, broker or provider call, crash or API action, of any worker or dispatcher, keeps the protocol invariant (attempt log, holder of the open attempt, worker snapshots, call and backoff history) |
| CellRuns.AttemptNumbers | src/django_resaas/notifications/models/delivery_attempt.py:44-50 | in every interleaved run the attempt rows are numbered exactly 1..m with m equal to `attempts` or `attempts` + 1, at most one worker holds an uncounted attempt, and the provider is called at most once per number |
| CellRuns.AttemptsNeverDecrease | src/django_resaas/notifications/tasks.py:127-171 | along every run `attempts` never decreases and no attempt row disappears |
| CellRuns.FinalStep | src/django_resaas/notifications/models/outbox.py:128-137 | one step from a SENT or FAILED row changes nothing, except the manual retry of a FAILED row, although the final save is an unconditional overwrite |
| CellRuns.SentIsForever | src/django_resaas/notifications/tasks.py:169-171 | once SENT is stored, the whole row is the same at the end of every further run |
| CellRuns.FailedUntilManualRetry | src/django_resaas/notifications/tasks.py:200-207 | a stored FAILED row is unchanged by every run that contains no manual retry |
| CellRuns.AttemptBudgetHolds | src/django_resaas/notifications/tasks.py:127-146 | `attempts` is at most max_attempts plus the number of manual retries, strictly less unless SENT or FAILED, and provider calls never exceed that budget by more than one (a limit of 0 acts as 1) |
| CellRuns.AuditTrail | src/django_resaas/notifications/tasks.py:154-171 | the attempt log agrees with the row: counted attempts before the last one failed, the last one succeeded exactly if the row is SENT, and a SENT row was really delivered under that number |
| CellRuns.AtMostTwoDeliveries | src/django_resaas/notifications/tasks.py:112-119 | in every run, even with premature recovery, provider.send returns normally at most twice, and at most once while the row is not SENT |
| CellRuns.TotalBackoff | src/django_resaas/notifications/retry.py:27-35 | the sum of all backoff delays ever stored for a row is at most 1.1 times base * (2^(n-1) - 1) and 1.1 times (n-1) * cap, manual retries included |
| CellRuns.ClaimTimesAreSet | src/django_resaas/notifications/outbox_dispatcher.py:45-48 | in every reachable state DISPATCHING has its dispatching_at and PROCESSING its processing_at |
| CellRuns.ClaimHolds | src/django_resaas/notifications/outbox_dispatcher.py:144-169 | while every recovery's cutoff lies before the claim time, no run changes any column of a claimed row until some worker saves it |
| CellRuns.ClaimEnds | src/django_resaas/notifications/outbox_dispatcher.py:167-169 | a recovery whose cutoff has reached the claim time releases it to RETRY, due at once |
| PatientRecovery.StepOrderly | src/django_resaas/notifications/enums.py:46-75 | if recovery waits for the worker to be done or dead, one step makes only a listed status change (plus the two unlisted claims) and keeps a single in-flight worker whose copy of the row is current |
| PatientRecovery.OnlyAllowedChanges | src/django_resaas/notifications/enums.py:46-75 | in such a run every stored status change is in the transition table, or is one of PENDING to PROCESSING and RETRY to PROCESSING |
| PatientRecovery.SentAndCancelledAbsorb | src/django_resaas/notifications/enums.py:68-74 | in such a run SENT and CANCELLED rows never change again |
| PatientRecovery.PatientRunsAreSafe | src/django_resaas/notifications/tasks.py:112-171 | over a whole such run, with crashes, duplicates and manual retries, every status change is allowed and provider.send returns normally at most once |
| PatientRecovery.PatientExactly | src/django_resaas/notifications/outbox_dispatcher.py:148-169 | when a recovery is patient in terms of the clock: no live worker is past its claim, or the row is not claimed, or its claim is younger than the cutoff |
| Cancellation.CancelledIsFinalExactly | src/django_resaas/notifications/views/outbox.py:69-85 | a CANCELLED row can later leave CANCELLED if and only if some live worker loaded the row earlier and its pending save is allowed by the status it loaded |
| Witnesses.CancelledThenSent | src/django_resaas/notifications/tasks.py:169-171 | a concrete run in which a cancelled row ends up SENT after premature recovery |
| Redelivery.DeliversAgainExactly | src/django_resaas/notifications/tasks.py:53-64 | at every reachable state of a message the provider has accepted: some run has it accepted again if and only if SENT is stored and a worker past the status check still has a free number or an open call, or SENT is still to be stored by a live worker and another worker has claimed the row or still can |
| Redelivery.DeliversPastSentExactly | src/django_resaas/notifications/tasks.py:53-74 | the same for a row stored as SENT: it is accepted again in some run exactly if a worker has claimed it and the next number is free, has refreshed it with a number still free, holds an open attempt, or is inside provider.send |
| Witnesses.DeliveredTwice | src/django_resaas/notifications/outbox_dispatcher.py:167-169 | a concrete run with two normal returns of provider.send: the bound of two is reached |
| Unaided.UnaidedExactly | src/django_resaas/notifications/outbox_dispatcher.py:144-151 | the condition for what the periodic tasks promise, in every reachable state: some run without a manual retry ends SENT if and only if the row is SENT, or its next attempt number is unused and it is neither cancelled nor failed nor queued with no message, no reader and no publisher left, or some live worker can still store SENT, or RETRY with its attempt counted |
| Unaided.ForgottenForever | src/django_resaas/notifications/outbox_dispatcher.py:107-171 | a QUEUED row whose message is gone, with nobody at work on it, is unchanged by every run without a manual retry or a cancellation: neither batch nor recovery finds it |
| Witnesses.ReleasedTooEarly | src/django_resaas/notifications/outbox_dispatcher.py:167-169 | a concrete run after which the row is RETRY under a live worker that holds its attempt, and only a manual retry could still lead to SENT |
| Witnesses.MessageLost | src/django_resaas/notifications/outbox_dispatcher.py:107-138 | a concrete run after which the row is QUEUED without a message, and only a manual retry could still lead to SENT |
| Recoverability.RecoverableExactly | src/django_resaas/notifications/outbox_dispatcher.py:144-151 | with a person's help if needed, in every reachable state: some run, manual retries allowed, still ends SENT if and only if the row is SENT, or its next attempt number is unused and it is not cancelled, or some live worker can still store a counted attempt |
| Recoverability.RecoverableWhenIdle | src/django_resaas/notifications/outbox_dispatcher.py:144-171 | the same with no worker in flight: with a person's help if needed, the row can still be sent exactly if it is SENT, or `attempts` + 1 is not in the attempt log and it is not CANCELLED |
| Recoverability.CrashAfterInsertStrands | src/django_resaas/notifications/tasks.py:66-74 | a worker that dies between inserting its attempt and saving the row strands it: in no further run is it sent, whatever recovery and manual retry do |
| Recoverability.Stranded | src/django_resaas/notifications/tasks.py:64-74 | a row whose next attempt number is used and held by nobody sees no further provider call in any run |
| Recoverability.RejectedRowsAreBlocked | src/django_resaas/notifications/tasks.py:80-106 | after a validation failure is saved, no later run calls the provider again, so a manual retry cannot deliver the row |
| Witnesses.ReleasedAndLost | src/django_resaas/notifications/outbox_dispatcher.py:146-171 | a concrete run in which recovery releases a row to RETRY that no further run can send |
| Witnesses.RetriedInVain | src/django_resaas/notifications/views/outbox.py:45-67 | a concrete run in which a manual retry accepts a FAILED row with an invalid recipient and makes it PENDING, and no further run can send it |
| Witnesses.RetriedWhileQueued | src/django_resaas/notifications/views/outbox.py:45-67 | a concrete run in which the retry action is accepted for a QUEUED row |
| Witnesses.ClaimedWhilePending | src/django_resaas/notifications/tasks.py:56-62 | a concrete run in which a worker claims a PENDING row, a change of status that the table does not list |
| Enums.WhoCanGoPending | src/django_resaas/notifications/views/outbox.py:45-67 | the retry action accepts exactly FAILED, DISPATCHING, QUEUED and RETRY |
| Enums.TransitionsInto | src/django_resaas/notifications/enums.py:46-75 | the transition table by target: exactly the statuses from which each status can be reached |
| SystemRuns.RowsRunIndependently | src/django_resaas/notifications/outbox_dispatcher.py:163-169 | each row's share of a run of the whole system is a run of that row alone, ending in the same state, with a manual retry only if the run has one for this row, and patient if the system is |
| SystemRuns.RowsOnlyGrow | src/django_resaas/notifications/tasks.py:127-171 | whatever any method or run does, no row disappears, no `attempts` decreases and no attempt row is lost |
| SystemRuns.SentRowsStay | src/django_resaas/notifications/tasks.py:169-171 | whatever any method or run does, a row stored as SENT stays the same row |
| SystemRuns.FailedRowsNeedManualRetry | src/django_resaas/notifications/tasks.py:200-207 | in every run of the system a FAILED row is unchanged unless the run retries it by hand |
| SystemRuns.FailedRowsStay | src/django_resaas/notifications/tasks.py:200-207 | the same for what a method does: the row is unchanged or its count of manual retries has grown |
| SystemRuns.BlockedRowsStay | src/django_resaas/notifications/tasks.py:64-74 | whatever any method or run does, a row whose next number is used and held by nobody sees no provider call |
| SystemRuns.SettledRowsStay | src/django_resaas/notifications/tasks.py:53-74 | whatever any method or run does, an accepted message is not accepted again unless its row meets the exact condition for it |
| SystemRuns.LostRowsStay | src/django_resaas/notifications/outbox_dispatcher.py:144-151 | whatever any method or run does, a row that cannot be sent without a manual retry is not SENT afterwards unless its count of manual retries has grown |
| SystemRuns.PatientSystemsAreSafe | src/django_resaas/notifications/tasks.py:112-171 | if recovery never releases a row under a live worker, then in every run of the whole system every status change of every row is allowed and every message is accepted at most once |
| SystemRuns.LeadsStaysOrderly | src/django_resaas/notifications/enums.py:46-75 | the same for what a method does; SENT and CANCELLED rows stay the same rows |
| Systems.FallbackNeverChainsNorMultiplies | src/django_resaas/notifications/engine.py:234-280 | in every run a fallback row belongs to a non-fallback row, uses another channel than it, and is the only fallback of that row |
| Fallbacks.FallbackAheadExactly | src/django_resaas/notifications/tasks.py:200-212 | for a FAILED row whose fallback channel every gate lets through: some run without a manual retry of it gives it a fallback row if and only if it has one, or the fallback key is free and a worker that stored FAILED is still about to offer it |
| Systems.EveryRowWasAdmitted | src/django_resaas/notifications/engine.py:368-394 | in every run each row of either kind was allowed by the tables as they were at its insertion: the settings row that counts (the branch's if there is one, else the entity's, which must exist) has its channel on, no preference of its recipient refuses, and a marketing row's recipient has agreed |
| Interference.LeadsExactly | src/django_resaas/notifications/tasks.py:33-171 | what the methods below are proved to do, leading from one state to another, is being the two ends of a sequence of moves |
| Interference.LeadsKeepsSound | src/django_resaas/notifications/tasks.py:33-171 | whatever a method is proved to be a run of keeps every row reachable by a run of its own and every row correctly created |
| Interference.OthersLeaveMeAlone | src/django_resaas/notifications/tasks.py:47-64 | moves of everybody else leave one worker's or dispatcher's position and in-memory copy untouched |
| Database.NotificationOutbox.Transition | src/django_resaas/notifications/models/outbox.py:128-137 | assigns the status exactly if the table allows it from the in-memory status, otherwise raises and changes nothing |
| Database.Database.Claim | src/django_resaas/notifications/tasks.py:56-62 | if the stored status is QUEUED, PENDING or RETRY the row becomes PROCESSING with processing_at the given time and every other column as before; otherwise nothing changes; a run step of the system |
| Database.Database.Refresh | src/django_resaas/notifications/tasks.py:64 | status, attempts, limit, retry time and snapshot in memory become the stored ones; nothing stored changes |
| Database.Database.CreateAttempt | src/django_resaas/notifications/tasks.py:66-74 | inserts the attempt row as in progress, or fails without effect when its number exists |
| Database.Database.FinishAttempt | src/django_resaas/notifications/tasks.py:190-197 | stores the outcome in exactly that attempt row |
| Database.Database.Save | src/django_resaas/notifications/tasks.py:136-144 | overwrites status, attempts and, on retry, next_retry_at from memory, whatever is stored by then, and no other column |
| Database.Database.GetOrCreate | src/django_resaas/notifications/engine.py:215-218 | inserts the row with no attempts under a free key, or leaves an existing one as it is |
| Database.Database.ClaimForDispatch | src/django_resaas/notifications/outbox_dispatcher.py:45-51 | if the stored status is PENDING or RETRY the row becomes DISPATCHING with dispatching_at the given time and every other column as before; otherwise nothing changes |
| Database.Database.Delay | src/django_resaas/notifications/outbox_dispatcher.py:60-62 | publishing adds one message, or raises with or without the message having reached the broker; no row changes |
| Database.Database.Settle | src/django_resaas/notifications/outbox_dispatcher.py:71-78 | QUEUED after success, PENDING without claim time after failure, and only if still DISPATCHING |
| Database.Database.ReleaseExpiredDispatching | src/django_resaas/notifications/outbox_dispatcher.py:163-165 | a row becomes PENDING without claim time exactly if it was DISPATCHING with dispatching_at at or before the cutoff; no other row changes, and the number of changed rows is returned |
| Database.Database.ReleaseExpiredProcessing | src/django_resaas/notifications/outbox_dispatcher.py:167-169 | a row becomes RETRY without claim and retry time exactly if it was PROCESSING with processing_at at or before the cutoff; no other row changes, and the number of changed rows is returned |
| Database.Database.RetryByHand | src/django_resaas/notifications/views/outbox.py:45-67 | accepted from FAILED, DISPATCHING, QUEUED and RETRY: the row becomes PENDING without retry time; otherwise nothing changes |
| Database.Database.CancelByHand | src/django_resaas/notifications/views/outbox.py:69-85 | accepted from PENDING, RETRY, DISPATCHING and QUEUED: the row becomes CANCELLED; otherwise nothing changes |
| Worker.Begin | src/django_resaas/notifications/tasks.py:47-62 | load, short-circuit on SENT and CANCELLED, claim; undisturbed the row is PROCESSING with processing_at the claim time exactly if it was QUEUED, PENDING or RETRY, and otherwise unchanged |
| Worker.RefreshAndInsert | src/django_resaas/notifications/tasks.py:64-74 | refresh, then insert attempt number `attempts` + 1 of the refreshed copy, with others acting in between |
| Worker.Attempt | src/django_resaas/notifications/tasks.py:80-171 | from the checks to the last save under arbitrary interference a run of the system; undisturbed, exactly the concluded row, its fallback and its attempt mark |
| Worker.FailOutbox | src/django_resaas/notifications/tasks.py:200-212 | stores FAILED if the loaded status allows it and then offers the fallback channel |
| Worker.ScheduleRetry | src/django_resaas/notifications/tasks.py:129-144 | RETRY with attempts increased and next_retry_at one backoff ahead |
| Worker.ProcessNotification | src/django_resaas/notifications/tasks.py:33-171 | the whole worker function: with anything happening between its statements it is a run of the system; undisturbed it changes its row and log exactly as specified, keeps the claim time it stored, and changes no other row but the fallback |
| Worker.UndisturbedColumns | src/django_resaas/notifications/tasks.py:56-171 | the undisturbed result column by column: claim time, status, attempts, next_retry_at and attempt mark for each way an attempt can end, and all that stays |
| Dispatching.TryDispatch | src/django_resaas/notifications/outbox_dispatcher.py:36-78 | under interference a run of the system; undisturbed, a PENDING or RETRY row is QUEUED under the claim time, or PENDING without claim when publishing raised, and any other row is untouched |
| Selection.SelectEligibleIds | src/django_resaas/notifications/outbox_dispatcher.py:107-138 | every selected row is PENDING or RETRY with scheduled_at and next_retry_at not in the future, and every such row is selected unless as many as the limit are; they are the first ones by priority as text and then scheduled_at, each once |
| Selection.SelectionMeans | src/django_resaas/notifications/outbox_dispatcher.py:107-138 | the same for the order: each selected row comes before the next, and before every due row not selected, by smaller priority text or by the same priority and an earlier or equal time |
| Selection.LowComesBeforeNormal | src/django_resaas/notifications/outbox_dispatcher.py:126-136 | as texts the priorities sort critical, high, low, normal |
| Dispatching.DispatchEligibleBatch | src/django_resaas/notifications/outbox_dispatcher.py:84-105 | selects due rows as above, at most the given size or else the setting, and returns their number; that is the number claimed and enqueued by this call if and only if every selected row was still eligible when it was tried and every publication was accepted, interference included; undisturbed all are eligible, each becomes QUEUED under its claim time or PENDING without one, and no other row changes |
| Dispatching.BatchDue | src/django_resaas/notifications/outbox_dispatcher.py:84-105 | after an undisturbed batch the selected rows are QUEUED or PENDING according to their publication, no other row has changed, and the due rows left are those not accepted |
| Dispatching.QueuedAreCounted | src/django_resaas/notifications/outbox_dispatcher.py:84-105 | after an undisturbed batch the selected rows now QUEUED are as many as the count returned if and only if every publication was accepted, and otherwise fewer |
| Dispatching.RefusedRowsAreCounted | src/django_resaas/notifications/outbox_dispatcher.py:84-105 | one due row and a refusing broker: the count is one, nothing is queued |
| Dispatching.BatchesDrain | src/django_resaas/notifications/outbox_dispatcher.py:84-138 | n clean batches leave max(0, due - n * size) rows due, so exactly ceil(due / size) of them drain all |
| Dispatching.RunBatches | src/django_resaas/notifications/outbox_dispatcher.py:84-138 | the periodic task run n times, all runs reading the same clock value so that nothing new becomes due: with an accepting broker and no interference max(0, due - n * size) rows stay due, and none exactly if n is at least ceil(due / size) |
| Dispatching.RecoverStuck | src/django_resaas/notifications/outbox_dispatcher.py:144-171 | undisturbed, a row differs afterwards if and only if it was DISPATCHING or PROCESSING with its claim time at or before the cutoff for that status, and the result is the number of such rows; a run of the system if the patience assumption is off, and also with it on if undisturbed and the PROCESSING update meets it |
| Dispatching.RecoveryMoves | src/django_resaas/notifications/outbox_dispatcher.py:157-171 | exactly the rows claimed at or before their cutoff change: to PENDING without claim, or to RETRY without claim and due at once |
| Dispatching.RecoveryIsExact | src/django_resaas/notifications/outbox_dispatcher.py:163-171 | recovery changes exactly the rows claimed at or before their cutoff, leaves nothing in hand if and only if all in hand were, and a second call at the same time moves none |
| Dispatching.RecoveryUnsticksEverything | src/django_resaas/notifications/outbox_dispatcher.py:157-171 | in every reachable state, if no claim is younger than the larger timeout, one recovery leaves no row DISPATCHING or PROCESSING |
| Engine.NotificationEngine.ProcessRecipient | src/django_resaas/notifications/engine.py:122-156 | the event's row exists afterwards if the recipient qualifies by the tables (switch, consent, address, template), whoever else acts; undisturbed nothing changes if not, and exactly that row is added if missing |
| Engine.NotificationEngine.ProcessRule | src/django_resaas/notifications/engine.py:87-116 | undisturbed the keys added are exactly those of the recipients that qualify, if the rule's module is active and its conditions hold |
| Engine.NotificationEngine.OnEvent | src/django_resaas/notifications/engine.py:61-81 | with others acting between any two insertions it is a run of the system after which every wanted key exists; undisturbed, the keys are exactly the old and the wanted ones, no old row changes, and nothing happens while notifications are off or the event names no entity |
| Engine.NotificationEngine.CreateFallbackOutbox | src/django_resaas/notifications/engine.py:234-328 | creates the fallback row exactly when the rule names another channel, the row is no fallback itself, switch and consent for that channel allow it, the address exists and the key is free; the new row's columns are spelled out |
| Engine.PairsExactly | src/django_resaas/notifications/engine.py:72-156 | the pairs processed in terms of the tables: enabled rule of the entity, event and branch or no branch, active module, conditions, channel on in the settings row that counts, no refusal, agreement for marketing, address and template |
| Engine.InsertAllRows | src/django_resaas/notifications/engine.py:180-218 | every row added is some pair's: PENDING with no attempts, the event's time, and rule, channel, category, priority, recipient, address, subject and body each in its column |
| Engine.EventIsIdempotent | src/django_resaas/notifications/engine.py:215-227 | an event adds exactly the keys wanted by the tables and changes no existing row; a replay changes nothing |
| Rules.EventKeyInjective | src/django_resaas/notifications/engine.py:166-178 | with colon-free ids and `type:id` recipient keys, two keys are equal if and only if entity, rule, channel, recipient and occurrence all are |
| Rules.EventKeyExactly | src/django_resaas/notifications/engine.py:166-178 | with colon-free entity and rule ids, two keys are equal if and only if entity, rule, channel and the text recipient key, colon, occurrence are |
| Rules.RecipientsCollideExactly | src/django_resaas/notifications/recipients.py:66-84 | two different recipient keys can be confused under some occurrences if and only if one continues the other after a colon |
| Rules.EventKeyText | src/django_resaas/notifications/engine.py:166-178 | the key written out: entity, rule, channel text, recipient key and occurrence, or the event name and object where the caller gives none |
| Rules.FallbackChannelExactly | src/django_resaas/notifications/engine.py:234-280 | which channel a fallback may use, in terms of the rule and the tables |
| Engine.SecondOwnerIsForgotten | src/django_resaas/notifications/engine.py:166-227 | concrete events of one rule, both recipients addressed and passing every gate, that share a key because a text id contains a colon: the second inserts nothing |
| Conditions.ResolveField | src/django_resaas/notifications/conditions.py:28-56 | the resolver loop computes the declarative path lookup |
| Conditions.SplitJoins | src/django_resaas/notifications/conditions.py:38 | a path is cut at every dot and nowhere else, and joining the segments gives it back |
| Conditions.PathStep | src/django_resaas/notifications/conditions.py:39-54 | one segment: the entry or attribute of that name unless it is empty, private, missing or callable |
| Conditions.NumberStep | src/django_resaas/notifications/conditions.py:46-49 | a number or boolean has only its real, imaginary, numerator and denominator parts |
| Conditions.AllLaws | src/django_resaas/notifications/conditions.py:84-88 | "all" over no part, one part and a concatenation |
| Conditions.AnyLaws | src/django_resaas/notifications/conditions.py:90-91 | "any" over no part, one part and a concatenation |
| Conditions.MissingLeaf | src/django_resaas/notifications/conditions.py:65-71 | a leaf whose field is missing or blocked holds exactly for is_null |
| Conditions.FoundLeaf | src/django_resaas/notifications/conditions.py:65-76 | a leaf whose field is found holds exactly if its operator does; == and != and the two null tests are complements; no field or an unknown operator never holds |
| Conditions.NullLaws | src/django_resaas/notifications/conditions.py:13-22 | nothing is ordered against null or contained in it, and everything is outside it |
| Conditions.NumbersCompare | src/django_resaas/notifications/conditions.py:13-18 | the five comparisons on numbers, booleans counting as 0 and 1 |
| Conditions.TextsCompare | src/django_resaas/notifications/conditions.py:13-18 | the five comparisons on texts, by the first difference or the proper prefix |
| Conditions.TextLessExactly | src/django_resaas/notifications/conditions.py:15-18 | the order of texts: agreement up to some place, where the first ends or has the smaller character |
| Conditions.ListsCompare | src/django_resaas/notifications/conditions.py:15-18 | lists compare at their first difference; a proper prefix comes first |
| Conditions.SameIsSymmetric | src/django_resaas/notifications/conditions.py:13 | equality is symmetric at any depth |
| Conditions.SameIsReflexive | src/django_resaas/notifications/conditions.py:13 | every value without live objects and callables equals itself |
| Conditions.SameParts | src/django_resaas/notifications/conditions.py:13-14 | lists are equal element by element, dicts name by name |
| Conditions.KindsDoNotMix | src/django_resaas/notifications/conditions.py:13-18 | a text or list neither equals nor is ordered against a value of another kind |
| Conditions.ListMembership | src/django_resaas/notifications/conditions.py:19-20 | in a list: equal to an element; not_in is the complement |
| Conditions.TextMembership | src/django_resaas/notifications/conditions.py:19-20 | in a text: a consecutive part of it; in a dict: one of its names |
| Conditions.MoreDataNeverLosesAMatch | src/django_resaas/notifications/conditions.py:59-93 | for trees without is_null, making more paths resolvable never turns a true result false |
| Conditions.PrivateKeysNeverMatter | src/django_resaas/notifications/conditions.py:28-56 | for flat comparands, deleting every key that starts with an underscore, at any depth, changes the result of no tree |
| Backoff.DelayBounds | src/django_resaas/notifications/retry.py:27-35 | each delay lies between min(base, cap) and 1.1 times the cap |
| Backoff.DelayDoubles | src/django_resaas/notifications/retry.py:27-35 | without jitter the first delay is the base and each next one twice the previous, both cut off at the cap |
| Backoff.DelayGrows | src/django_resaas/notifications/retry.py:27-35 | the part without jitter never decreases with attempts |
| Backoff.JitterExactly | src/django_resaas/notifications/retry.py:27-35 | the delays that can be drawn are exactly those from the capped doubling up to ten percent above it |
| Backoff.WaitBoundClosed | src/django_resaas/notifications/retry.py:27-35 | the sum over n attempts in closed form |
| Layout.OrderedIsStableSort | src/django_resaas/saas/core/dashboards/validator.py:231-234 | the order used is a sorted permutation that keeps equal orders as declared |
| Layout.EffectiveSpan | src/django_resaas/saas/core/dashboards/validator.py:203-220 | twelve at xs; without any declaration 12, 12, 6, 6, 6; otherwise what the nearest breakpoint at or below declares, and twelve if none does |
| Layout.ColumnsExactly | src/django_resaas/saas/core/dashboards/validator.py:203-220 | the spans read from well-formed cols are exactly those declared |
| Dashboards.PlacedExactly | src/django_resaas/saas/core/dashboards/validator.py:222-234 | the layout sees each widget once, in declared order, with its name, order and cols |
| Layout.PacksExactly | src/django_resaas/saas/core/dashboards/validator.py:263-280 | greedy packing accepts exactly when some cutting into consecutive rows of twelve exists |
| Layout.CheckBreakpoint | src/django_resaas/saas/core/dashboards/validator.py:263-280 | accepts exactly when the spans tile; a rejected row is consecutive, after complete rows, with a sum strictly between 0 and 12 that the next widget would overflow |
| Layout.CheckCols | src/django_resaas/saas/core/dashboards/validator.py:236-261 | accepts exactly if each cols is missing, or a dict of the five breakpoint names to integers from 1 to 12; blames a widget whose cols are wrong in the reported way |
| Layout.ValidateLayout | src/django_resaas/saas/core/dashboards/validator.py:222-280 | accepts exactly when cols are well-formed and all five breakpoints tile; otherwise the reported error is a true one |
| Validator.ValidateFilters | src/django_resaas/saas/core/dashboards/validator.py:292-335 | accepts exactly lists of dicts with distinct non-empty names, one of the fifteen filter types and a valid tooltip, and returns their names; a reported duplicate occurs twice |
| Validator.ValidateAction | src/django_resaas/saas/core/dashboards/validator.py:349-437 | accepts exactly valid actions, the nested double-click action included |
| Validator.ValidateActionsList | src/django_resaas/saas/core/dashboards/validator.py:439-460 | accepts exactly lists of valid actions with distinct names |
| Validator.ValidateWidget | src/django_resaas/saas/core/dashboards/validator.py:142-200 | accepts exactly valid single widgets: mode, own filters distinct from the global ones, accepted filters that exist, actions |
| Validator.ValidateWidgets | src/django_resaas/saas/core/dashboards/validator.py:104-200 | accepts exactly lists of valid widgets with distinct names |
| Validator.Validate | src/django_resaas/saas/core/dashboards/validator.py:48-102 | accepts exactly the valid dashboards; a reported duplicate or layout error is a true one |
| Dashboards.AllowedActionsKeptInOrder | src/django_resaas/saas/core/dashboards/permissions.py:89-98 | exactly the permitted actions are kept (nothing asked, all granted, or in any mode but "all" some granted), each at its rank, and a second action exactly if it is permitted too |
| Dashboards.OnlyAllowedActionsLeft | src/django_resaas/saas/core/dashboards/permissions.py:89-108 | of a validated list only actions authorized at every depth are left |
| Dashboards.NothingForbiddenInResponse | src/django_resaas/saas/core/dashboards/permissions.py:126-156 | for a validated dashboard, no widget and no action in any slot at any depth of the response is forbidden to its caller |
| Dashboards.PermittedIsShown | src/django_resaas/saas/core/dashboards/permissions.py:112-156 | the response has exactly the visible and permitted widgets in order, and in each of the four slots exactly the permitted actions; everything else of a widget is as declared |
| Dashboards.ThirdActionsEscape | src/django_resaas/saas/core/dashboards/validator.py:425-437 | the validator's ban on nesting is needed: an unvalidated third action would pass unchecked (a concrete action) |
| Dashboards.FilterWidgetsIdempotent | src/django_resaas/saas/core/dashboards/permissions.py:142-156 | filtering a filtered response changes nothing |
| Dashboards.EndpointsAgree | src/django_resaas/saas/core/dashboards/permissions.py:142-185 | for a validated dashboard, a widget name is in the filtered list exactly when the widget lookup accepts it |
| Registry.DashboardObject.DeepCopy | src/django_resaas/saas/core/dashboards/registry.py:41-46 | an equal configuration made of new objects only |
| Registry.DashboardRegistry.Register | src/django_resaas/saas/core/dashboards/registry.py:28-42 | first wins: registers a copy that shares nothing with the argument, or records one error and changes nothing else |
| Registry.DashboardRegistry.Get | src/django_resaas/saas/core/dashboards/registry.py:44-46 | a fresh copy of what is registered under the name, or null exactly if there is none |
| Views.FilterAuthorizedWidgets | src/django_resaas/saas/core/dashboards/permissions.py:142-156 | in-place filtering of the given widgets yields the specified list |
| Views.GetWidgetOrRaise | src/django_resaas/saas/core/dashboards/permissions.py:158-185 | the first widget of the name if it is visible and permitted, Unauthorized if it is not, and not-found exactly if no widget has the name |
| Views.Detail | src/django_resaas/saas/core/dashboards/views.py:109-119 | refused for an inactive module (the module entry, or the name where that is missing or empty), then for a permission not granted; otherwise exactly the permitted part of the registered configuration; all it changed is its own copy |
| Views.WidgetData | src/django_resaas/saas/core/dashboards/views.py:130-149 | the same two refusals first, then the widget lookup; only past all of them filters and provider answer, by the specified function of the registered configuration and this request; all it touched is its own copy |
| Views.Serve | src/django_resaas/saas/core/dashboards/registry.py:28-56 | over any sequence of requests, with everything ever handed to handlers overwritten arbitrarily in between, each answer is the prescribed one and a proper one by module, permission and visibility, and the registered contents do not change |
| Views.GateExactly | src/django_resaas/saas/core/dashboards/permissions.py:16-47 | the two refusals in terms of the head's and the caller's fields, in that order |
| Views.DetailShowsWhatWidgetServes | src/django_resaas/saas/core/dashboards/views.py:105-149 | for a validated dashboard the detail response shows a widget exactly when the widget endpoint gets past authorization for it, and both refuse and raise alike |
| Views.NullWidgetsRaise | src/django_resaas/saas/core/dashboards/permissions.py:142-185 | for a validated dashboard each endpoint raises exactly if the widgets entry is null and the caller may see the dashboard |
| Views.NullWidgetsAreValid | src/django_resaas/saas/core/dashboards/validator.py:76-88 | a concrete dashboard with null widgets that passes validation and then raises for every caller with its module |
| Views.GrantingNeverHides | src/django_resaas/saas/core/dashboards/permissions.py:42-70 | a caller with more permissions and modules is shown every dashboard and widget that a caller with fewer is shown |
| Discovery.ConfigsConserved | src/django_resaas/saas/core/dashboards/discovery.py:82-102 | registered plus recorded errors grow by exactly the number of configurations offered |
| Discovery.FirstValidWins | src/django_resaas/saas/core/dashboards/discovery.py:87-102 | a name keeps its registration, or maps to the first valid configuration carrying it, and to nothing if there is none |
| Discovery.RegisteredAreValid | src/django_resaas/saas/core/dashboards/discovery.py:87-102 | everything registered from nothing satisfies the validator under its own name |
| Discovery.RetryRegistersTheSame | src/django_resaas/saas/core/dashboards/discovery.py:46-58 | running discovery again after an import failed registers what one undisturbed run registers |
| Discovery.DiscoveryFromNothing | src/django_resaas/saas/core/dashboards/discovery.py:32-85 | the three claims above for a whole discovery from an empty registry |
| Discovery.WithModule | src/django_resaas/saas/core/dashboards/discovery.py:76-80 | a missing module is filled in with the app on a shallow copy; a declared module and everything else stay |
| Discovery.Configs | src/django_resaas/saas/core/dashboards/discovery.py:74-80 | the single dashboard first, then the extras in order |
| Discovery.DeclaredExactly | src/django_resaas/saas/core/dashboards/discovery.py:74-80 | what an app declares: the single dashboard unchanged, then every extra unchanged but for a missing module |
| Discovery.DashboardDiscovery.RegisterConfig | src/django_resaas/saas/core/dashboards/discovery.py:87-102 | validates one configuration, then registers it or records one error |
| Discovery.DashboardDiscovery.Discover | src/django_resaas/saas/core/dashboards/discovery.py:32-85 | an unforced second run changes nothing; otherwise everything up to the first failing import is offered in app order, and only a complete pass marks discovery as done |
| Filters.ResolveWidgetFilterDefs | src/django_resaas/saas/core/dashboards/filters.py:92-115 | the resolved map: accepted names and own names, own definitions first |
| Filters.ResolvedExactly | src/django_resaas/saas/core/dashboards/filters.py:92-115 | for a validated widget the resolved names are exactly the accepted plus the own ones, each with its only definition |
| Filters.ValidateAndParse | src/django_resaas/saas/core/dashboards/filters.py:125-161 | returns exactly when every parameter is known and every filter parses, with the values of those that have one; otherwise the error map lists exactly the complaints |
| Filters.ErrorsCover | src/django_resaas/saas/core/dashboards/filters.py:138-159 | the fields of the error map are exactly the unknown parameters and the fields of failing filters |
| Filters.ParsesExactly | src/django_resaas/saas/core/dashboards/filters.py:163-296 | a filter parses if and only if whatever is given converts, ranges are in order, choices are respected, the tenant is the request's own, and every required filter is given, except that entity and branch are taken from the request |
| Filters.ParsedIsWellTyped | src/django_resaas/saas/core/dashboards/filters.py:163-296 | a parsed value has its filter's type and is what the last text given for it converts to: dates, numbers, yes or no, the chosen texts, the ends of a range; ranges are ordered, choices declared, years plausible, entity and branch the request's own; entity always has a value, branch exactly if the request has a branch, a required filter of any other type always |
| Filters.FaultsStayHome | src/django_resaas/saas/core/dashboards/filters.py:117-123 | a filter complains only about its own parameters |
| Filters.FaultsAreTrue | src/django_resaas/saas/core/dashboards/filters.py:163-296 | every complaint is true of the text it is filed under: not convertible, out of range, not a choice, another tenant, a reversed range, or nothing given for a required filter |
| Filters.KnownExactly | src/django_resaas/saas/core/dashboards/filters.py:117-136 | the accepted parameters are the four reserved ones and the filters' own, by name or by the two ends of a range |
| Filters.ValuesAreSafe | src/django_resaas/saas/core/dashboards/filters.py:125-161 | what reaches the provider of a validated widget: only its filters, each with the value its parameters convert to, for entity always and only the request's own, for branch the request's own and exactly if it has one; every required filter, except branch when the request has none |
| Filters.RequiredPresentExactly | src/django_resaas/saas/core/dashboards/filters.py:228-252 | an accepted request gives every required filter a value if and only if the request has a branch or no required filter is of type branch |
| Filters.RequiredBranchIsAbsent | src/django_resaas/saas/core/dashboards/filters.py:234-252 | a validated dashboard with a required branch filter, and a request without a branch that is accepted without a value for it |
| Filters.OtherParamsAreIgnored | src/django_resaas/saas/core/dashboards/filters.py:163-296 | a filter's outcome depends only on its own parameters and the tenant |

## Left out

- Providers, Celery, credentials, encryption, template rendering, address syntax: outside calls, present only as nondeterministic outcomes or parameters.
- `classify_exception`: which exceptions count as temporary is a parameter of the provider's outcome.
- `cleanup_notifications` and hard deletes: deleting attempt rows would remove the constraint the proofs rest on; they are assumed not to run.
- The `on_commit` hook: that a dispatch follows an insert or a manual retry is not modelled, only that it may happen at any time.
- The read-then-save races of the `cancel` and `retry` actions: both are single steps here.
- Columns nothing in the protocol reads: queued_at, sent_at, failed_at, last_error, provider answers, created_by and updated_by, most of the metadata.
- Row identifiers: the numeric or UUID id is replaced by the unique idempotency key.
- Database errors other than the unique constraint on attempts: a crash at that point covers them.
- Fairness: that a run which can end SENT does end so is not claimed; it depends on the broker, the provider and the scheduler.
- Selection.SelectEligibleIds: rows that another transaction has locked are not skipped, text is compared by character code rather than by database collation, and ties are broken arbitrarily.
- Conditions.PrivateKeysNeverMatter: numbers are integers, comparands are scalars or lists of scalars, and a live object equals no comparand; floats, dates and user-defined comparisons are not modelled.
- Backoff.DelayBounds: delays are reals, not floating-point numbers.
- Validator.Validate: messages are reduced to their codes and names; the values of accepts_filters and permissions, which it does not check for their type, are taken to be lists of texts.
- Defaults of missing configuration keys (order 999, visible, mode any) are taken as filled in.
- Registry.DashboardObject.DeepCopy: one widget dict listed twice is copied twice; a validated dashboard never lists one twice. Only dashboards and widgets are objects; what lies deeper is a value that is replaced as a whole.
- Discovery.DashboardDiscovery.RegisterConfig: the texts of the recorded errors, and non-dict values other than being refused.
- Filters.ValidateAndParse: texts of messages and their order within one field; dates are day numbers, numbers are reals, and conversions are parameters.
- The dashboard list and filter-option endpoints, `get_all` sorting: their order of checks repeats what the two modelled endpoints do.
- Providers registry, response envelopes, context signing, tenant resolution and entitlements: plumbing around the modelled parts.
