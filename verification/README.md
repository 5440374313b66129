# A verified model of the Codex prewarm plugin

The plugin warms up model accounts on a schedule. Inside it are a durable scheduler, a rate limiter
and a notifier that share one state file. This project models them in Dafny 4.11 and proves how they
behave when threads interleave, writes fail, the plugin is stopped and reloaded, and the process
crashes. `dafny verify dfyconfig.toml` checks everything.

## How it is modelled

Code that runs under `runtime.mu` is a function from old to new field values, and a class whose methods
are proved equal to those functions keeps the imperative form (`RuntimeObject.Runtime`,
`Notifier.NotificationState`, `Limiter.AccountTable`, `Followup.AccountSchedule`,
`Durability.StateFile`, `FetchPool.Runner`). Threads are interleaved between these sections: a state
holds memory, the file, the write in flight and the program counters, and an execution is any sequence
of enabled actions. Failing writes and crashes are actions. The long sequential bodies (`executeRun`,
`executeAccountWithGuard`, `confirmIdleAfterSpacing`) are methods over a `Host.World` whose answers,
write results and stop are arbitrary; their contracts speak about the recorded trace.

| file | what it holds |
|---|---|
| `Clock.dfy` | instants, local days, digest boundaries, the quiet period |
| `Durability.dfy` | the state file, `persistState`, `saveAccountDisplay` |
| `RunProtocol.dfy`, `RunInvariants.dfy`, `RunSteps.dfy`, `RunSafety.dfy` | slots, queue, runner, `quiesce` and reload as one interleaved system; its invariant; one proof per action; what follows for runs |
| `Runtime.dfy` | the same critical sections as an object |
| `Limiter.dfy` | the rolling limit and the cooldown of one account |
| `Quota.dfy`, `Host.dfy`, `Idle.dfy` | observations, the outside world, the idle confirmation |
| `ModelCalls.dfy`, `ExecuteRun.dfy` | the calls of one session; a whole run |
| `Notifications.dfy`, `Notifier.dfy`, `TickRuns.dfy` | the notification state as functions; the same as an object; its tick as a run of the system |
| `Results.dfy`, `Digest.dfy`, `Announcing.dfy` | what a result means; the digest against the full log; which failures are announced |
| `Delivery.dfy`, `DigestDelivery.dfy`, `DigestRetry.dfy` | alerts over crashes; how often a digest is sent; until when it is tried |
| `Closing.dfy`, `Conservation.dfy` | when an overdue digest is closed; where every failure alert went |
| `Planning.dfy`, `Followup.dfy`, `FetchPool.dfy` | cron search and coalescing; follow-up claims; the fetch pool |

Assumptions, all of them visible in the models:

- Time is an `int` of nanoseconds, the clock does not run backwards, the zone offset and the digest time
  are fixed, and the state file path does not change.
- Account fingerprints are injective: accounts are compared by name.
- A state write succeeds or fails as a whole. Sends, fetches and model calls answer arbitrarily.
- A tick claims with a clock reading that lags behind the clock by at most 48 hours minus 70 minutes. For
  the slot table alone one nanosecond more is too much: `RunSafety.LaggingTickReclaims` shows a table from
  which a finished slot is forgotten, planned again and due. That is not an execution of the program, whose
  planner never receives a base more than about 25 hours behind the reading it was computed from.
- Nothing is assumed about when runs are recorded. The digest results name the recordings that harm them:
  those made more than a week after a digest that is still to come (`Digest.Harmless`, `DigestDelivery.LateFor`).

## Where the code is weaker than it looks

- `notifications.go:187` prunes windows older than seven days even if their digest has not been sent.
  The next tick then opens an empty window for that digest. Its counts are lost
  (`Digest.LateRunLosesTheDigest`, exact condition in `Digest.LateRecording`), and so is the mark that it
  was being sent: a digest whose first send may have arrived can go out again
  (`DigestDelivery.UncertainDigestIsSentTwice`, exact condition in `DigestDelivery.ForbiddenSendNeedsLateRecording`).
- If the state write in `recordNotifications` fails, the immediate alerts are dropped while their marks
  stay, so the same failures are not announced again in that window
  (`Delivery.FailedAlertStaysSuppressed`). `Conservation.NoFailureIsForgotten` shows that this, a restart
  and the closing of the window are the only ways to lose an alert.
- `confirmedIdle` alone accepts a window whose reset stands still if the two observations are exactly two
  seconds apart (`Quota.FixedResetPassesAtTwoSeconds`); only the three-second wait of
  `confirmIdleAfterSpacing` excludes that.
- An interruption that puts back an older follow-up request makes the current plan due again, whatever
  reset it is for by then; a reset whose own claim was never put back is claimed twice
  (`Followup.OlderRequestRepeatsClaim`, exact condition in `Followup.RequeueRepeats`).
- Rolling back a follow-up claim restores the plan but not the reset it was for; an observation during the
  failed write can thus plan a reset that was claimed before (`Followup.RolledBackClaimRepeats`, exact
  condition in `Followup.RollBackRepeats`). The rollback for one kind can also erase a plan of another kind
  made meanwhile (`Followup.FirstPlanIsErased`, exact condition in `Followup.OtherRollbackErases`).

## Model

| member | source | states |
|---|---|---|
| `RunSafety.SlotConservation` | runtime.go:306-487 | In every reachable state, over all interleavings of scheduler, runner, planners and `quiesce`, with failed writes and crashes, a claimed slot has exactly one owner and no slot has two. |
| `RunSafety.FinishedOnce` | scheduler.go:195-286 | No slot is finished twice, and a finished slot is never due again, although the table forgets it after 48 hours and only the file survives a crash. |
| `RunSafety.QuiesceReleasesClaims` | runtime.go:306-396 | When `quiesce` has returned and all writes succeeded, every slot that is claimed on disk is finished or past its 48 hours. |
| `RunSafety.DispatchedClaimsAreDurable` | scheduler.go:249-286 | A slot that left the scheduler is claimed on disk and stays so until it is put back; a crash does not make it claimable. |
| `RunSafety.InterruptedOnlyWhileClosed` | runtime.go:306-339 | A run reports "interrupted" only while the gate is closed. |
| `RunSafety.SingleRunner` | runtime.go:425-487 | At most one run executes, nothing is pending when nothing runs or the gate is closed, and accepted requests run in the order of acceptance. |
| `RunSafety.LiveRequestsDiffer` | runtime.go:431-446 | No two live requests agree in trigger, job, account and slot. |
| `RunSafety.NothingStartsAfterQuiesce` | runtime.go:306-330 | One step after `quiesce` has drained the runtime: nothing runs or starts. |
| `RunSafety.NothingRunsUntilReload` | runtime.go:252-330 | Over any stretch of a run without a reload, nothing runs or starts after `quiesce`. |
| `RunSafety.PersistedPlanIsKept` | scheduler.go:130-156 | A plan whose own write succeeded keeps its planned time and jitter in memory and on disk until the slot expires. |
| `RunSafety.PlanIsFixedUntilExpiry` | scheduler.go:130-156 | From the first durable plan of a slot to its expiry there is one planned time and one jitter, across re-planning, reloads and crashes. |
| `RunSafety.LaggingTickReclaims` | scheduler.go:142-206 | On the level of slot tables: with a reading that lags more than 48 hours minus 70 minutes, a finished slot that was forgotten and planned again is due (concrete input; no execution of the program is claimed). |
| `RunSafety.SlotsInTimeAreClaimed` | scheduler.go:195-211 | In any run, a tick that claims starts every slot that is in time, with exactly one request, and no other slot. |
| `RunSafety.DispatchedSlotsAreAccepted` | runtime.go:425-458 | While the gate is open the request of a claimed slot is never refused or dropped at dispatch: it runs at once or is the last in the queue. |
| `RunProtocol.DueIsClaimable` | scheduler.go:195-202 | A slot is due if and only if it is in time, counted from local midnight; its request carries the trigger of its job. |
| `RunProtocol.StartOutcomeIsExact` | runtime.go:425-458 | An open gate refuses only requests of an older generation; an idle runtime launches what it accepts; a busy one refuses manual requests, drops twins of live ones and queues the rest. |
| `RunSteps.StepKeepsInv` | scheduler.go:107-294 | Every action of the interleaved system keeps the ownership, queue, gate, mutex, durability and plan invariants. |
| `RunSteps.OwnedIsNotDue` | scheduler.go:195-206 | A slot that anything accounts for is never due. |
| `RunSteps.SlotRequestIsNotLive` | runtime.go:431-446 | The request of a claimed slot is never dropped as a duplicate of a live one. |
| `RuntimeObject.Runtime.StartJob` | runtime.go:425-458 | Admission, deduplication and queueing: which requests are refused, launched, dropped or queued, and the whole new state. |
| `RuntimeObject.Runtime.EndRun` | runtime.go:471-486 | At the end of a run the oldest pending request is handed over, or the runner stops because none is left or the gate is closed; the whole new state. |
| `RuntimeObject.Runtime.Shut` | runtime.go:306-318 | Closing the gate closes the current stop channel, detaches cron and scheduler and sets the pending requests aside; the whole new state. |
| `RuntimeObject.Runtime.Requeue` | runtime.go:361-370 | Putting a slot's claim back changes exactly that slot; a write is asked for exactly when something changed, for slots and follow-ups. |
| `RuntimeObject.Runtime.ClaimDue` | scheduler.go:195-211 | In any map order, starts exactly the slots that are in time (unclaimed, of a configured job, planned by now, on the local day of now, at most 70 minutes old; a prewarm slot of hour 23 within two minutes), makes exactly one request for each, remembers their old values, and leaves all others as they are. |
| `RuntimeObject.Runtime.RollBackClaims` | scheduler.go:249-255 | The rollback restores exactly the slots that still carry this claim. |
| `RuntimeObject.Runtime.Insert` | scheduler.go:131-147 | Planning inserts a new slot unless the gate is closed or it is known, and forgets exactly the slots older than 48 hours. |
| `RuntimeObject.Runtime.Remove` | scheduler.go:148-153 | A plan whose write failed is removed unless it was claimed or replaced. |
| `Durability.SuccessCoversTheCall` | runtime.go:1296-1309 | When `persistState` returns success, the disk holds every memory change made before the call, then and in every later state before a crash. |
| `Durability.DiskNeverGoesBack` | account_display.go:122-134 | No interleaving of `persistState` and `saveAccountDisplay` replaces the file by an older snapshot. |
| `Durability.StateFile.PersistState` | runtime.go:1296-1309 | Success writes memory; failure leaves the file alone and is counted. |
| `Durability.StateFile.SaveAccountDisplay` | account_display.go:122-134 | Success changes memory and file together; failure changes neither. |
| `Limiter.RollingLimitHolds` | runtime.go:1130-1178 | Any two calls of an account five positions apart in its whole history are at least 24 hours apart, across runs, reloads, failed writes and crashes. |
| `Limiter.CooldownHolds` | runtime.go:1146-1178 | A call of a later session comes at least five hours after every call of an earlier one; retries within a session are not delayed. |
| `Limiter.ReservationSurvivesCrash` | runtime.go:1159-1178 | A granted reservation is still known after a crash at that moment. |
| `Limiter.StepKeepsInv` | runtime.go:1146-1249 | Check, reservation, write, call, end of session, reload and crash keep the limit and the cooldown. |
| `Limiter.RecentCount` | runtime.go:1130-1138 | Pruning keeps each reservation time exactly as often as it occurred in the window, and no other. |
| `Limiter.WarmLimitIsExact` | runtime.go:1146-1157 | An account may be warmed if and only if fewer than five of its reservations are of the last 24 hours and its last session ended at least five hours ago. |
| `Limiter.ReserveIsExact` | runtime.go:1161-1172 | A reservation is refused if and only if five are recent; otherwise it is added to exactly the recent ones. |
| `Limiter.AccountTable.FilterRecent` | runtime.go:1130-1138 | The filter loop keeps exactly the recent times, in order. |
| `Limiter.AccountTable.LimitReasonOf` | runtime.go:1146-1157 | The reason for refusing a warm-up, as the limit function defines it. |
| `Limiter.AccountTable.ReserveInMemory` | runtime.go:1161-1172 | The memory section of a reservation: refused at five recent ones, otherwise recorded; other accounts unchanged. |
| `Limiter.AccountTable.RecordResult` | runtime.go:1211-1214 | The end of a session moves the last prewarm time; reservations and other accounts are unchanged. |
| `Quota.IdleAccountIsAccepted` | quota_fetch.go:76-94 | For resets that follow the clock the idle test accepts if and only if both observations pass the gates and lie 2 to 30 seconds apart. |
| `Quota.FixedResetPassesOnlyAtTwoSeconds` | quota_fetch.go:83-93 | A reset that stands still passes only at exactly two seconds, so never after the three-second wait. |
| `Quota.FixedResetPassesAtTwoSeconds` | quota_fetch.go:83-93 | At exactly two seconds it does pass (concrete input). |
| `Quota.AcceptedWindowIsConsistent` | quota_fetch.go:58-71 | An accepted quota window carries a percentage and a whole-second reset that lies in the window and agrees with the remaining seconds within about a minute. |
| `Quota.AcceptanceIsExact` | quota_fetch.go:58-71 | A reported window is accepted if and only if its numbers are in range and its reset agrees with the seconds left within a minute. |
| `Quota.CandidateReasonIsExact` | idle_confirmation.go:7-18 | Which gate an observation fails, in the order of the gates. |
| `Idle.ConfirmIdleAfterSpacing` | idle_confirmation.go:22-60 | Waits the spacing first; accepts only two saved observations at least three seconds apart that look idle and whose reset moves; an idle account is rejected only by a gate or a gap over 30 seconds; every other verdict has its cause in the trace. |
| `Idle.RefreshIfOld` | idle_confirmation.go:33-45 | An initial observation older than ten seconds is replaced by a fresh, saved one that passes the gates. |
| `Idle.ConfirmPair` | idle_confirmation.go:46-59 | The final pair: wait, fetch, save and test. |
| `ModelCalls.ExecuteAccountWithGuard` | runtime.go:803-905 | For any upstream and any moment of a stop: each call directly follows its own reservation, at most one reservation stays without a call and only when interrupted, calls form a retry chain of at most 2*(RetryCount+1), and the session ends exactly when it is over: unless stopped or refused a reservation, its last call was neither a transient status with a retry left nor a refusal of the configured model with a fallback left, and the error says what that call answered. |
| `ModelCalls.SuccessIsReported` | runtime.go:884-888 | A session reports no error if and only if its last call succeeded. |
| `ModelCalls.NoAttempt` | runtime.go:830-843 | A session without any attempt was refused its first reservation, or interrupted. |
| `ModelCalls.ChainIsBounded` | runtime.go:814-829 | A session has at most 2*(RetryCount+1) calls. |
| `ModelCalls.ChainPosition` | runtime.go:814-902 | The k-th call is an attempt of the configured model, or of the fallback after its attempts. |
| `ModelCalls.ChainStops` | runtime.go:852-897 | Nothing follows a success, an uncertain callback, an undecodable answer or any status that is neither transient nor an explicit refusal of the model. |
| `ModelCalls.TryModel` | runtime.go:829-898 | The attempts with one model: what was reserved, called and concluded. |
| `ModelCalls.CallOnce` | runtime.go:844-897 | One call: after a transient status with a retry left a pause of exactly two seconds per attempt made and another attempt, otherwise the error of the answer. |
| `ExecuteRun.ExecuteRun` | runtime.go:489-736 | Every call of a run was admitted on evidence of that run and spaced after earlier sessions; read-only, observing, dry and not selected accounts cause no call or reservation; without a stop every selected account of the listed inventory has its result, in order, and only an inventory that fails a check ends the run early, with the error of that check; counters equal the account list; attempts equal reservations and successes equal successful answers; interrupted only after a stop, and then the claim is put back once and last; success if and only if there is no error, and then no write had failed. |
| `ExecuteRun.RunAccounts` | runtime.go:571-733 | The account loop keeps the same, account by account, in inventory order. |
| `ExecuteRun.ProcessAccount` | runtime.go:572-729 | One account: admission, modes, call, bookkeeping. |
| `ExecuteRun.Admit` | runtime.go:577-646 | An account proceeds only with evidence, selection and spacing; every reason against it has its cause. |
| `ExecuteRun.Gates` | runtime.go:588-614 | The gates before the confirmation, each refusal with its cause as the last event; a read-only run passes them all. |
| `ExecuteRun.Confirm` | runtime.go:615-636 | The confirmation of one account waits what is left of the spacing and yields evidence or a reason with its cause. |
| `ExecuteRun.Prepare` | runtime.go:530-569 | Each early error if and only if its cause: no list, another count than expected, an empty list, a missing target; otherwise exactly the selected accounts go on. |
| `ExecuteRun.GoOverAccounts` | runtime.go:530-735 | The run up to its verdict: inventory, account loop, and the error if some account failed. |
| `ExecuteRun.Close` | runtime.go:515-529 | The verdict of the run, its claim and its history entry; success if and only if there is no error and every account was warmed or skipped. |
| `ExecuteRun.EveryResultCountsOnce` | runtime.go:660-733 | Successes, skips and failures add up to the accounts recorded. |
| `ExecuteRun.SessionRecorded` | runtime.go:703-721 | A session adds to the record exactly the reservations and the success of its trace. |
| `Clock.DigestEndIsLeastBoundary` | notifications.go:95-101 | `digestEnd` is the least digest boundary after the instant. |
| `Clock.QuietUntilIsEndOfQuiet` | notifications.go:103-117 | `quietUntil` is set exactly inside the quiet period, and is its end. |
| `Notifications.ClosingIsExact` | notifications.go:470-498 | Closing an overdue digest sets the next one to the least boundary after now, also after many offline days; exactly the windows ending after now and their notices survive. |
| `Closing.ClosesAfterFourTicks` | notifications.go:360-483 | In any history of ticks, night-queue flushes and recordings without a crash, once four ticks got past the night queue and the retry delay the digest that was to come is closed for good, whatever the sender answers and whichever writes fail, unless a run was recorded more than a week after it. |
| `Closing.AttemptsMoveOn` | notifications.go:177-483 | One happening closes the digest, or uses up an attempt if it is an effective tick, or leaves the attempts counted so far. |
| `Notifications.EffectiveTick` | notifications.go:417-468 | Such a tick closes the window or uses up an attempt. |
| `Notifications.DigestTickIsExact` | notifications.go:417-468 | A tick closes an overdue digest if and only if it was in progress, three attempts were counted, or its attempt was answered other than by a refusal or was the third; any other attempt is counted and leaves it for five minutes later; nothing else changes. |
| `DigestRetry.DigestLeavesWhenDone` | notifications.go:417-483 | Over failed writes and crashes, a digest leaves the state only if its last send was accepted or not configured, three attempts for it were made, or a restart after its latest attempt left it marked as being sent. |
| `DigestRetry.RefusedDigestIsTriedAgain` | notifications.go:417-468 | After a refused or unwritten first or second attempt the digest stays with one attempt more, whatever happens meanwhile, and the first tick that gets to it five minutes later tries it again. |
| `DigestRetry.StepKeepsTries` | notifications.go:177-483 | Every action keeps that no copy counts more attempts than were made, and that a mark of being sent belongs to the send under way or to a restart. |
| `Announcing.EveryFailureIsAnnounced` | notifications.go:219-258 | In every history a recording sets a new mark exactly for the results of its run that attempted, got no answer and were not an unsent interruption, or that end at least the threshold of unknown results in a row; known marks stay; each new failure is announced as its mark says: manual, queued until the end of the quiet period, or to be sent at once. |
| `Announcing.AnsweredRunIsSilent` | notifications.go:143-151 | A run whose sessions were all answered marks nothing. |
| `Results.UnknownIsExact` | notifications.go:138-141 | A result is unknown if and only if nothing was attempted and a reason, code or status says so. |
| `Results.CategoryIsExact` | notifications.go:143-151 | Which results are failed requests, and which count as unknown quota, over the fields of the result. |
| `Results.SkipIsExact` | notifications.go:208-219 | Under which reason a result counts as a skip; refreshes that only read count under none. |
| `Notifications.NightQueueIsExact` | notifications.go:383-390 | A tick takes exactly the notices whose time has come, and none inside the quiet period. |
| `Notifications.AnswerMarksExactly` | notifications.go:404-411 | The answer of the sender goes to exactly the marks of the announced failures whose windows are live. |
| `Notifications.FailedFlushLosesNothing` | notifications.go:383-402 | After a failed write the taken notices are back, each as often as before. |
| `Notifier.NotificationState.RecordRun` | notifications.go:180-259 | The accounting loop of `recordNotifications` computes the recording function. |
| `Notifier.NotificationState.Count` | notifications.go:195-231 | The counters and the streak of one account result. |
| `Notifier.NotificationState.Announce` | notifications.go:232-257 | A failure is deduplicated, consumed by manual feedback, queued for the end of the quiet period, or announced at once. |
| `Notifier.NotificationState.PruneWindowsBefore` | notifications.go:485-498 | Removes exactly the windows before the cutoff and the notices without a window. |
| `Notifier.NotificationState.FinishDigestLocked` | notifications.go:470-483 | Closes the digest as the closing function says. |
| `Notifier.NotificationState.FlushNightQueue` | notifications.go:383-416 | Due notices are handed over only after their removal from the queue was written; after a failed write all are back. |
| `Notifier.NotificationState.SendDigest` | notifications.go:417-468 | A digest is sent if and only if it is overdue, not in progress, past the retry delay, tried fewer than three times, and the attempt was written; it is closed, or kept with one attempt more, exactly as `Notifications.DigestTickIsExact` says. |
| `Notifier.NotificationState.ProcessNotifications` | notifications.go:360-468 | A whole tick: first digest, night queue, digest; a digest that has to be tried is sent once the night queue is out of the way and the attempt is written. |
| `TickRuns.TickIsRun` | notifications.go:360-468 | A tick of the object, however its writes and sends end, is a run of the interleaved system with the same notes, the same alerts and the same digest sends; so what holds in every run holds of it. |
| `Digest.DigestEqualsRecount` | notifications.go:177-259 | In every crash-free history each retained window, and the one a digest would be sent for, counts exactly the runs and results of the full log that lie in it (runs, answered and failed results in total and per account, skips per reason, all told by the fields of the result), unless some run was recorded more than a week after the window's end and after that of a digest still to come. |
| `Digest.StreaksCountUnknowns` | notifications.go:220-225 | In every history the streak of an account is the number of its latest unknown results, back to the last one that was not. |
| `Digest.RecountIsExact` | notifications.go:195-231 | The count that grows with the log is the number of results in the window that count. |
| `Digest.StreakIsSuffix` | notifications.go:220-225 | The streak counts exactly the last unknown results of the account. |
| `Digest.TotalsAreSums` | notifications.go:194-231 | In every history a window's totals are the sums over its accounts. |
| `Digest.SectionKeepsAccuracy` | notifications.go:360-483 | Every memory section keeps the windows from a given end on exact; a recording does when it is harmless to them. |
| `Digest.LateRecording` | notifications.go:184-188 | The digest stays exact after a recording if and only if the recording is punctual or the window had counted nothing. |
| `Digest.LateRunLosesTheDigest` | notifications.go:184-188 | A recording more than a week after a due digest makes that digest wrong. |
| `Delivery.AlertsAreSentOnce` | notifications.go:225-297 | Across runs, ticks, failed writes and crashes an alert for a window, account and category reaches the sender at most once, and was never decided inside the quiet period. |
| `Delivery.QueueIsSound` | notifications.go:383-416 | In memory and on disk the pending queue has no duplicates, each notice has a live window holding its key, and none was announced before. |
| `DigestDelivery.DigestsAreBounded` | notifications.go:417-483 | A digest is sent at most three times, at least five minutes apart, and never after a send that was accepted or whose answer is unknown, across failed writes and crashes, unless a run was recorded more than a week after it while it was still to come. |
| `Delivery.StepKeepsAlerts` | notifications.go:177-483 | Every action keeps what memory, file and write in flight know about sent alerts. |
| `DigestDelivery.StepKeepsDigest` | notifications.go:417-483 | Every action keeps what each copy knows about the sends of a digest, except a recording that is late for it. |
| `DigestDelivery.LateRecordingForgetsAttempts` | notifications.go:184-188 | What the notes remember of the attempts for a pending digest survives a recording if and only if it is punctual or the digest was untried. |
| `DigestDelivery.ForbiddenSendNeedsLateRecording` | notifications.go:184-188 | A tick after a recording attempts a digest that was accepted, is uncertain or was sent three times if and only if the recording was late for it. |
| `DigestDelivery.UncertainDigestIsSentTwice` | notifications.go:184-188 | An execution in which that happens: the same digest is handed over twice, although its first send has no answer. |
| `Delivery.FailedAlertStaysSuppressed` | notifications.go:233-263 | An immediate alert whose write failed stays marked, so the next failure of the kind is taken for a duplicate. |
| `Conservation.NoFailureIsForgotten` | notifications.go:177-498 | In every run each failure that a live window marks, unless consumed by manual feedback, is queued, under way, was handed over, or was lost by a failed write of an immediate alert, a restart, or the closing of its window. |
| `Conservation.ClosedLossIsOver` | notifications.go:485-498 | A notice lost by closing was queued, and its window is gone. |
| `Conservation.StepTraced` | notifications.go:177-498 | Every action keeps the whereabouts of all marked failures known. |
| `Planning.LatestCronSlot` | scheduler.go:60-70 | Returns the greatest firing of the last 25 hours or zero, within 1500 steps. |
| `Planning.QuotaCoveredByPrewarm` | scheduler.go:84-94 | True if and only if automatic prewarming is on and some job fires at that instant. |
| `Planning.Coalesce` | scheduler.go:114-121 | Stops at the first candidate that no prewarm slot covers, or gives up after 65 covered ones. |
| `Planning.NoUncoveredFiringIsSkipped` | scheduler.go:114-121 | Every quota firing before the planned one is covered by a prewarm slot. |
| `Planning.BaseToPlan` | scheduler.go:107-124 | The base that is planned is the first uncovered firing from the given base on, or a prewarm base in schedule hours; otherwise nothing is planned, and why. |
| `Followup.ConsecutiveClaimsDiffer` | scheduler.go:212-286 | Two consecutive claims of one account and kind are for resets more than a minute apart, unless between the two the first was rolled back or lost before it was written, or an interruption put back its request or that of an older claim. |
| `Followup.OlderRequestRepeatsClaim` | runtime.go:371-386 | Why older requests are excepted: an execution in which a reset is claimed twice although its own claim was not put back. |
| `Followup.RequeueRepeats` | runtime.go:371-386 | Putting a request back plans the latest claimed reset again if and only if no other reset was seen since. |
| `Followup.RollBackRepeats` | scheduler.go:256-271 | Rolling a claim back plans the reset claimed before it if and only if that reset was observed again during the failed write. |
| `Followup.OtherRollbackErases` | scheduler.go:256-271 | Rolling back another kind's claim erases a plan if and only if it was made during the failed write, on an empty one for the reset claimed last. |
| `Followup.FirstPlanIsErased` | scheduler.go:256-271 | An execution in which that happens. |
| `Followup.UpdatedPlanIsAhead` | scheduler.go:296-319 | After a plan update the plan is empty or lies after the observation, and is not for the reset claimed last. |
| `Followup.UpdateIsExact` | scheduler.go:296-311 | Exactly a used window (a weekly one from 95 percent) whose reset is ahead, not too far, and not the one claimed last is planned for, 90 seconds after its reset; otherwise a plan stays if it is ahead and not for that reset, and is dropped if not. |
| `Followup.DueUntilMidnight` | scheduler.go:213-233 | A plan is due from its time until local midnight; follow-up hours are 5:00 to 23:00. |
| `Followup.ObservedPlanIsAhead` | scheduler.go:296-311 | The same after every observation of a run. |
| `Followup.RolledBackClaimRepeats` | scheduler.go:256-271 | An execution, with every observation saved when it was taken, in which a reset is claimed again after a rollback. |
| `Followup.StepKeepsInv` | scheduler.go:213-286 | Observation, claim, write, rollback (also of another kind's claim), requeue, reload and crash keep what each copy knows of the claims. |
| `Followup.AccountSchedule.UpdateFollowupPlan` | scheduler.go:296-311 | Both plans of an account, updated in place. |
| `Followup.AccountSchedule.Claim` | scheduler.go:213-242 | Claims exactly the due kinds; the request is due when the first of them is. |
| `Followup.AccountSchedule.RestoreAfterFailedWrite` | scheduler.go:256-272 | The rollback restores a kind's schedule only while it still carries that claim, and the retry only at the same step. |
| `Followup.AccountSchedule.Requeue` | runtime.go:371-386 | An interrupted follow-up makes exactly its kinds due again. |
| `Followup.AccountSchedule.ScheduleQuotaRetry` | scheduler.go:321-346 | At most two retries, after two and eight minutes, inside follow-up hours, and the exact reasons for none. |
| `Followup.AccountSchedule.ClearQuotaRetry` | scheduler.go:350-360 | Clears the retry and tells whether there was one. |
| `FetchPool.PoolIsSafe` | initial_quota.go:18-42 | For any number of accounts and any interleaving: at most three fetches at a time, each index fetched at most once, results at their own index, "interrupted" only after the stop and only without a fetch. |
| `FetchPool.LateWorkerNeverFetches` | initial_quota.go:25-37 | A worker that gets its token after the stop never fetches. |
| `FetchPool.StepsDecrease` | initial_quota.go:22-40 | Every step of a worker brings the pool closer to its end. |
| `FetchPool.PoolMakesProgress` | initial_quota.go:25-32 | Until all workers have ended one of them can go on. |
| `FetchPool.Runner.Step` | initial_quota.go:25-37 | One step of a goroutine, updating the results in place. |
| `FetchPool.FetchInitialUsagesUntil` | initial_quota.go:18-42 | The pool ends; every index holds the answer of its own query, or "interrupted" if the query was never made because of the stop; with the channel closed beforehand no query is made. |
| `Host.World.FetchInitial` | runtime.go:565-566 | The first results of a run, delivered by that pool: one per account, left out only after a stop. |

## Left out

- HTTP, host callbacks, cgo, JSON and YAML, SHA-256 and file system calls: their results are arbitrary, and a state write succeeds or fails as a whole.
- management.go, bark.go, audit.go, main.go and account_display.go except `saveAccountDisplay`: routing, texts, wrappers and logging.
- Configuration parsing: its bounds are preconditions (quiet start differs from quiet end, retry count 0 to 3, a valid digest time), and errors while a state file is read are not modelled.
- Daylight saving and zone data: the zone has a fixed offset, so adding a day is adding 24 hours.
- The cron library: a schedule is known by its `Next`, whose contract `Planning.Valid` states.
- Legacy paths that decide nothing now (`skipReason`, `markCompleted`, the daily map) and `resetSpread`.
- Message texts and the values shown only in the digest body or on the status page: per-account times, weekly remaining, last digest and last quiet-hours result.
- Conservation of follow-up claims: a follow-up identical to a live request is dropped on purpose, so only slots are conserved.
- RunProtocol.Slot: job and base instant are part of the slot's key, so the model has no slot whose stored base disagrees with its key.
- RunProtocol.Request: the request carries the slot key, account and trigger; job contents, jitter copy, due time and notify flag are not part of its identity and are left out.
- Closing.ClosesAfterFourTicks: a crash is no happening of this history, because it can undo an attempt whose reservation was never written.
- DigestRetry.RefusedDigestIsTriedAgain: likewise without a crash; what a crash leaves of a digest is the subject of `DigestRetry.DigestLeavesWhenDone`.
- Notifier.NotificationState.Count: the times of the last success and failure and the remaining weekly quota of an account are not kept; only the digest body shows them.
- Notifier.NotificationState.FinishDigestLocked: the last-digest fields of the status page are not kept.
- Limiter.AccountTable.RecordResult: the probe, reset and retry times it also stores are not kept, because the limiter does not look at them.
- RuntimeObject.Runtime.Requeue: the follow-up fields it restores belong to `Followup.AccountSchedule.Requeue`.
- Delivery.AlertsAreSentOnce: the quiet period is judged at the instant the alert was decided, as the code does; the HTTP request itself may go out later.
- DigestDelivery.DigestsAreBounded: the five minutes are counted between the clock readings of the ticks that decided the sends.
- Notifier.NotificationState.RecordRun: windows and accounts are immutable values in maps, so the pointer sharing that `cloneNotifications` has to break does not exist in the model.
- ExecuteRun.ExecuteRun: the content of the saved account windows, the quota fields of a result and the notification text of a run are not modelled; the limiter and the notifier are modelled on their own.
- FetchPool.FetchInitialUsagesUntil: goroutine starts are not ordered; all workers are waiting from the beginning, which allows more interleavings than the code has.
