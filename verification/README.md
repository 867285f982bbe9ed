# A verified model of the nitrohook delivery engine

nitrohook takes webhooks in, stores each as a *delivery*, and fans it out to the *actions* of its *source*. Failed
attempts are retried with backoff, and a roll-up decides when a delivery is completed or failed. Stream consumers,
pending pollers and retry pollers, in any number of replicas, work on the same tables with single SQL statements: no
locks, no transactions, no compare-and-set. This project models that protocol together with the tables and the stream
it runs on, and proves what it guarantees.

## How the model is built

**Tables and entities** (`Types.dfy`) follow `internal/model/model.go` and the migrations. Payloads and headers are
opaque JSON values, scripts are deterministic functions, IDs are natural numbers that are never given out twice.

**The step system** (`Machine.dfy`). A state holds the tables, the stream, and any number of threads. A thread is a
program counter with its local variables: the place in `processDelivery`, `dispatchAction`, `retryAttempt`,
`rollUpDeliveryStatus`, `Ingest` or a forward handler where it makes its next call. `Machine.Perform` gives that call
and where the thread goes on: one store, stream or dispatcher call is one atomic step. Each write may succeed, be
refused, or take effect and still report an error; each read may fail; a dispatcher may answer anything. Requests of
the outside world are steps too: posts, forwards, polls, message deliveries (possibly repeated, possibly lost),
crashes, and edits and deletions of sources and actions with their cascades. A poll that lists a page and works
through it later is a set of threads that start at the time of the listing and make their first call later. Ghost
history records every dispatcher call, every key ever inserted, and the clock and the delay of every write to the
schedule.

**Invariants and theorems over all interleavings.**
`Safety.dfy` proves the inductive invariant that every step keeps, with crashes, failed calls and deletions.
`Guarantees.dfy` draws the safety theorems from it, and `Abandoned.dfy` says when a chain of attempts ends too early.
`Decisions.dfy` says what the source of a delivery decides about it: to end it, or to send some content to some of the
actions. Three inductive invariants then treat one delivery for which calls succeed, one for each kind of decision: a
delivery of an active source, or one that a forced message admitted. `Quiescence.dfy` is about a delivery that is sent
to every active action, `Skips.dfy` about one that leaves some action out, and `Endings.dfy` about one that the script
ends; together they say exactly what is left when nobody is at work. `Forwarded.dfy` says when that holds of a recorded
delivery that was forwarded. `RecordMode.dfy`, `Payload.dfy` and `Persistence.dfy` are invariants on record mode and on
the content sent: `Payload.dfy` for racing dispatches of a delivery, `Persistence.dfy` for a delivery whose content is
handed to the store once, and `Arrivals.dfy` for the way from the webhook to the dispatcher. `Horizon.dfy` joins the
attempt chain with the backoff arithmetic, and `Schedule.dfy` says when attempts are due and how long a due one can
wait.

**The imperative layer** (`Engine.dfy`) is a class whose fields are the tables. Its methods are the store calls and
the worker and handler procedures with their loops. A ghost machine follows along: every call a method makes must be
the call that the step system prescribes, so each method is proved to be one thread of the protocol from its first
call to its last (`Valid`, `At` and `Since` say so in the contracts). With the constant `reliable` the store never
fails, and the contracts add what a whole call then achieves; `Plans.dfy` says it for `processDelivery`, and `Calls.dfy`
for every procedure, as a relation between the tables before and after.

**Sequences of whole calls.** `Service.dfy` proves, over any chain of tables that these contracts allow, that final
statuses stay, that waiting is bounded (on top of `Patience.dfy`), that an abandoned chain of attempts stays so, and
that draining ends (on top of `Measure.dfy`).
`Draining.dfy` joins the two layers: a chain of reliable calls is a run to which the quiescence theorems apply.

**Concrete runs**, written out call by call with the help of `Runs.dfy`. `Witness.dfy` shows a run to which the
quiescence theorems apply, and `Counterexample.dfy` one in record mode to which they do not. `Leftovers.dfy` has two
deliveries that are left with a status that their attempts do not account for, and `Divergence.dfy` a retry that sends
something else than the first attempt did, and one that is given up.

Some definitions (`Machine.Traced`, `Safety.Sound`, `Calls.Done` and their like) stand under a quantifier with the
trigger `Unfold`; it means nothing, and keeps the verifier from unfolding a run, an invariant or an outcome where it is
only passed on. `Machine.Folded` names the kinds, so that opening one leaves the others closed.

**Two self-contained cores**: the backoff in 64-bit arithmetic (`Backoff.dfy`) and the slug generator (`Slug.dfy`).

## Where the code and its documentation disagree

- `docs/src/content/docs/guides/concepts.md:55` calls a delivery completed when all actions succeeded *or were
  skipped*. A skipped action leaves no attempt behind, and the roll-up waits for one: the delivery stays `processing`
  with nothing scheduled. The same happens to an active action that the source script leaves out, unless the script
  leaves out all of them, which completes the delivery. `Skips.DrainedExactly` gives the exact condition, with or
  without a source script, and `Leftovers.SkippedStaysProcessing` and `Leftovers.NoneKeptCompletes` are such runs.
- `docs/src/content/docs/guides/concepts.md:57` calls a `recorded` delivery stored and not dispatched. That holds for
  deliveries that nobody forwarded (`RecordMode.RecordIsolation`). After a forward, a worker that read the delivery
  earlier can still write `recorded` over a final status: `Counterexample.LateWriteHidesVerdict` is a run in which a
  delivery is dispatched with success, completed, and then recorded. `Forwarded.ForwardedShowsVerdict` has the exact
  condition: when the delivery was admitted, somebody else was about to write over its status, as an unforced worker, at
  the end of its ingest, or in a second forward.

## Limits of the code

- The five-minute cap on retry delays fails when the product overflows 64 bits. With the default base of five seconds
  that begins with attempt 32, which is due in the past; `Backoff.CapHolds` and `Backoff.NeverInThePast` give the exact
  condition, and the bounded wait for due attempts (`Schedule.DueIsTakenUp`) asks for it.
- When storing the transformed content fails, the error is logged and the fan-out goes on. Retries then start from
  the received content. `Divergence.RefusedStoreDiverges` is a run in which a first attempt and its retry carry
  different payloads for that reason, and `Persistence.RetriesAgreeExactly` says exactly when they carry the same.
- A retry whose transform skips clears the schedule and makes no attempt, so that the delivery stays `processing` with
  retries left. `Divergence.RefusedStoreAbandons` is such a run. `Abandoned.NoSilentLoss` says that a schedule is lost
  in no other way than this and a refused insert, and `Service.RetryAbandonsExactly` when a whole retry does it.

## Model

| member | source | states |
|---|---|---|
| Guarantees.AtMostOnce | internal/worker/fanout.go:227-255 | In every reachable state, with duplicated messages, crashes and lost writes: no (delivery, action, attempt number) was dispatched twice, and nothing was dispatched to an action for a delivery after a success. |
| Guarantees.RetriesFollowFailures | internal/worker/fanout.go:418-432 | Before the dispatch of attempt n, each attempt 1..n-1 of the same action and delivery was dispatched and had failed. |
| Guarantees.AttemptChain | internal/worker/fanout.go:360-363 | The attempts of an action on a delivery are numbered 1..k without gaps, k is at most max(1, maxRetries), all below k are failed, and only a failed attempt with number below maxRetries is scheduled. |
| Guarantees.DispatchBound | internal/worker/fanout.go:221-255 | A delivery costs at most max(1, maxRetries) dispatcher calls for each action it was ever tried on. |
| Guarantees.UniqueRun | migrations/000003_create_deliveries.up.sql:11 | No run has two deliveries with the same source and idempotency key. |
| Guarantees.IdempotentIngest | internal/handler/webhook.go:62-73 | Two successful dispatches of one action for deliveries with the same source and idempotency key are one and the same dispatch, however often the event was posted or its message delivered. |
| Guarantees.VerdictStable | internal/worker/fanout.go:465-492 | With the active set of a source unchanged by a step, a verdict once reached is the same after it. |
| Guarantees.VerdictFinal | internal/worker/fanout.go:465-492 | The same over whole runs, whatever else fails, crashes or is edited. |
| Safety.StepKeeps | internal/worker/fanout.go:73-493 | Every step of every thread and of the outside world keeps the invariant: ordered log of distinct dispatches, chains of attempts, one holder for each pending attempt, foreign keys, IDs that are not reused. |
| Safety.RunKeeps | internal/worker/fanout.go:73-493 | So does every run. |
| Quiescence.QuiescentConsistency | internal/worker/fanout.go:120-225 | For a delivery of an active source, or one that a forced message admitted undisturbed, whose source script, if any, keeps all active actions, which stay and do not skip it, and whose calls succeed: if its verdict is final and its status differs, some thread still owes a roll-up; a final status is the verdict; and with nobody at work an admitted delivery shows its verdict, despite unconditional `processing` writes by stale workers. |
| Quiescence.NoLostRetry | internal/worker/fanout.go:418-438 | For a delivery as in QuiescentConsistency: with nobody at work, an active action is terminal exactly if its latest attempt is not a scheduled failure with retries left. |
| Quiescence.ClearedWasRetried | internal/worker/fanout.go:431-435 | For a delivery as in QuiescentConsistency: a failed attempt of an active action with retries left has lost its schedule only if its successor exists. |
| Quiescence.ProcessingWaits | internal/store/delivery.go:152-158 | For a delivery as in QuiescentConsistency: with nobody at work, if it is left `processing` it has an active action whose latest attempt is scheduled. |
| Quiescence.Drained | internal/worker/fanout.go:440-493 | For a delivery as in QuiescentConsistency: with nobody at work and nothing scheduled, once admitted it is completed or failed: failed exactly if an active action is exhausted, completed exactly if all succeeded. |
| Quiescence.FinalIsAbsorbing | internal/worker/fanout.go:127-135 | With calls interleaved one by one, for a delivery as in QuiescentConsistency: once completed or failed it has that status again whenever nobody is at work on it. |
| Service.FinalStays | internal/worker/fanout.go:120-225 | With whole calls one after the other, on a reliable store and with the active actions of its source unchanged: a delivery of a source of any mode and script, whichever actions skip it, never changes its status again once it is completed or failed, whatever is consumed, ticked by either poll, retried, posted, forwarded or edited. |
| Forwarded.ForwardedShowsVerdict | internal/worker/fanout.go:127-150 | A delivery of a source that always recorded, at its first admission by a forced message, with workers that know the current script and actions that stay and do not skip it: it shows its verdict, or `processing` without one, in every state with nobody at work that successful calls lead to, if and only if at the admission no other thread was an unforced worker past its status check, an ingest about to record, or a forward about to reset or to take its reset back. |
| Forwarded.AdmittedIsUntried | internal/worker/fanout.go:148-152 | Such an undisturbed admission leads to a state from which all the quiescence theorems hold, whatever the script decides. |
| Forwarded.DisturbedHides | internal/worker/fanout.go:143-146 | From any other such admission there is a run of successful calls that ends with nobody at work and the delivery pending or recorded. |
| Endings.EndsAsDecided | internal/worker/fanout.go:159-213 | For a delivery of an active source, or one that a forced message admitted undisturbed, whose source and actions stay and whose calls succeed: if the script fails, drops it or keeps none of the active actions it gets no attempt, and once admitted it has that final status whenever nobody is at work on it, however many workers raced for it. |
| Skips.SkippedForever | internal/worker/fanout.go:215-220 | For a delivery as in EndsAsDecided: one that the script or the action's own transform keeps from an active action, while the script keeps some action, never gets an attempt on that action, never has a verdict, and is never completed or failed. |
| Skips.DrainedExactly | internal/worker/fanout.go:466-471 | For a delivery as in EndsAsDecided: once it is admitted and drained, it has a final status if and only if the script ended it (failed, dropped it, kept none), or every active action is kept and does not skip what the script made; a script that ended it decides the status. The script may look at the listed actions, but not at their order, which the query leaves open. |
| Skips.DrainedPlainly | internal/worker/fanout.go:466-471 | The same without a script: if and only if no active action skips what was received. |
| Leftovers.SkippedStaysProcessing | internal/worker/fanout.go:215-225 | A run of successful calls after which a delivery is `processing` with nobody at work and no attempt: the only action skips it. |
| Leftovers.NoneKeptCompletes | internal/worker/fanout.go:202-207 | A run of successful calls after which a delivery is `completed` with nobody at work and no attempt, although its source has an active action. |
| Draining.DrainedAtZero | internal/worker/fanout.go:440-493 | When the retries that all scheduled attempts stand for are down to zero and nobody is at work, every admitted delivery as in QuiescentConsistency is completed or failed, failed exactly if some active action is exhausted. |
| Draining.EngineDrained | internal/worker/fanout.go:396-493 | The same for such a delivery in the tables of an engine, after any sequence of its worker, poll, ingest and forward procedures with a reliable store since the delivery was never tried; edits of sources and actions (EditSource, EditAction) are not among them. |
| Draining.TicksDrain | internal/worker/fanout.go:396-493 | After as many retry ticks, each when all that is scheduled is due, as there were retries left, with only single retries, posts and forwards in between, every such delivery that was admitted is completed or failed, as above. |
| Draining.CallsWork | internal/worker/fanout.go:73-438 | Such a sequence adds only requests and successful calls to the trace. |
| Draining.WorkIsBenign | internal/worker/fanout.go:73-438 | What the procedures of a reliable engine add to its trace is a run in the sense of the quiescence theorems. |
| Draining.WorkedIsCalm | internal/worker/fanout.go:73-438 | A trace that starts where the delivery was new is a history of the kind those theorems ask for. |
| Measure.RetryUsesUp | internal/worker/fanout.go:418-438 | One retry of a scheduled attempt strictly lowers the sum, over scheduled attempts, of maxRetries minus the attempt number, whether it skips, fails or succeeds. |
| Measure.NothingLeft | internal/worker/fanout.go:360-363 | That sum is zero exactly if nothing is scheduled. |
| Service.TickProgresses | internal/worker/fanout.go:396-416 | A retry tick at a time when all that is scheduled is due strictly lowers the sum unless it is zero. |
| Service.DrainingEnds | internal/worker/fanout.go:396-438 | As many such ticks as the sum is at first, with single retries, posts, forwards and edits in between, leave nothing scheduled. |
| Verdict.LatestAttempts | internal/worker/fanout.go:456-463 | The map holds the highest-numbered attempt of each action, whatever order the rows come in. |
| Verdict.RollUp | internal/worker/fanout.go:465-492 | The loop decides the verdict of the attempts: none while some active action is not terminal, otherwise failed if one is exhausted and completed if none is. |
| Verdict.VerdictMeaning | internal/worker/fanout.go:456-492 | No verdict if and only if some active action is not terminal; completed if and only if all succeeded; failed if and only if all are terminal and one is exhausted; an action without an attempt means no verdict. |
| Verdict.TerminalMeaning | internal/worker/fanout.go:473-484 | An action is done if and only if its attempt with the highest number succeeded, or failed and that number is at least maxRetries. |
| Payload.RetrySendsTheSame | internal/worker/fanout.go:164-272 | With unchanged scripts, a source script whose payload and headers do not depend on the listed actions, and every store call of the content taking effect: all attempts of an action on a delivery carry the same payload and headers, across racing dispatches, crashes, failed calls and toggled actions. |
| Persistence.WhatIsSent | internal/worker/fanout.go:164-272 | With unchanged scripts and at most one store call of the content: each dispatch of a first attempt starts from what the source script made of the received payload and headers, each retry too if it was stored, and otherwise both start from what was received; the action's own script runs on that payload and those headers and its output is dispatched, and without one (absent or empty) the payload and headers themselves are. |
| Persistence.RetriesAgreeExactly | internal/worker/fanout.go:193-272 | In such a run a retry carries what the first attempt of its action carried if and only if the store call took effect (or there is no script), or the action's transform makes the same of both contents. |
| Persistence.StoredOnceSentTheSame | internal/worker/fanout.go:164-272 | If the store call took effect, all attempts of an action carry the same, for any source script, also one that looks at the listed actions. |
| Divergence.RefusedStoreDiverges | internal/worker/fanout.go:193-196 | A reachable state, after one refused store call and one failed dispatch, whose log has a first attempt and a retry of one action on one delivery with different payloads. |
| Divergence.RefusedStoreAbandons | internal/worker/fanout.go:264-270 | A reachable state, after one refused store call and one failed dispatch: nobody is at work, nothing is scheduled, and a delivery is `processing` whose only attempt failed with retries left, because the action's transform skips the received content. |
| Abandoned.NoSilentLoss | internal/worker/fanout.go:418-435 | In every run, with crashes, failed calls, edits and deletions: a failed attempt with retries left that is neither scheduled nor followed by another was given up by a retry whose transform skipped or whose insert was refused. |
| Abandoned.GivenUpExactly | internal/worker/fanout.go:264-272 | A call gives up a retry if and only if it finds that the action's script, as it is now, skips the stored content (the received one where nothing is stored), or it is the refused insert of the next attempt. |
| Service.RetryAbandonsExactly | internal/worker/fanout.go:257-272 | A whole retry with a reliable store leaves its attempt failed, unscheduled and without a successor if and only if the action's transform, as it is now, skips the stored content and no other retry had made the successor. |
| Service.StuckForever | internal/store/delivery.go:152-158 | Such an attempt stays so through any further whole calls and ticks, and as long as its action is active its delivery has no verdict. |
| RecordMode.RecordIsolation | internal/handler/webhook.go:75-85 | While a source records, a delivery that no forward published has no attempt and no dispatch, and is pending or recorded. |
| RecordMode.ForwardHandshake | web/source.go:305-322 | While a source records, a delivery is pending or recorded unless a forced message admitted it, and a forced message is turned away only for a delivery that an earlier one admitted: a catch-up poll does not spoil a forward. |
| Counterexample.LateWriteHidesVerdict | internal/worker/fanout.go:143-146 | A run of a recording source with one active action: its delivery is forwarded, dispatched once with success, settled and completed; the next and last call sets it to `recorded`, and nobody is left at work. |
| Witness.CalmHistoryExists | internal/worker/fanout.go:120-255 | Such histories exist: one in which a delivery is posted, announced, dispatched once with success, and completed, with nobody left at work. |
| Patience.Page | internal/store/delivery.go:97-117 | An ordered, limited query returns distinct rows, the earliest ones, in order, and all rows if there are fewer than the limit. |
| Patience.TickServes | internal/worker/fanout.go:383-391 | A poll tick that does not serve a pending delivery serves 100 deliveries that were ahead of it. |
| Patience.BoundedWait | internal/worker/fanout.go:373-394 | Over any history of delivery tables in which rows stay and only younger deliveries become pending, a delivery with k pending ones received no later has left `pending` after k/100 + 1 ticks, of whichever replica. |
| Service.CallOnward | internal/worker/fanout.go:111-225 | Every procedure of the engine leads from one such table to the next, unless it stores, or forwards, a delivery received earlier. |
| Service.PendingIsServed | internal/worker/fanout.go:373-394 | So in a running engine, with messages consumed, retries made, deliveries posted and forwarded between the ticks, but none that was received earlier, a pending delivery with k pending ones received no later has left `pending` after k/100 + 1 ticks. |
| Backoff.CapHolds | internal/worker/fanout.go:360-367 | The delay before jitter is min(base * 2^(n-1), 5 minutes) for every n below maxRetries if and only if base * 2^(maxRetries-2) fits into 64 bits. |
| Backoff.FirstOverflow | internal/worker/fanout.go:364-367 | The first product that does not fit gives a negative delay, below the cap. |
| Backoff.DefaultBaseOverflows | internal/config/config.go:27 | With the default base of five seconds the delay after attempt 32 is negative, and those after attempts 1 to 31 are as intended. |
| Backoff.DelayGrows | internal/worker/fanout.go:364-367 | Under the no-overflow condition delays are positive, do not shrink from one attempt to the next, and stay below the cap. |
| Backoff.JitterBounds | internal/worker/fanout.go:368 | The jittered delay lies between 0.75 and 1.25 times the delay, up to truncation to a whole number. |
| Backoff.JitterDraws | internal/worker/fanout.go:368 | The jitter can draw exactly the whole numbers in that range: the truncated three quarters of the delay, and everything from there to just below five quarters. |
| Backoff.JitterMirrors | internal/worker/fanout.go:368 | A negative delay is jittered to the negative of what the positive one gives: the conversion truncates toward zero. |
| Backoff.DefaultDelays | internal/worker/fanout.go:364-367 | With the default base the delays are 5, 10, 20, 40, 80 and 160 seconds, and then 300, up to attempt 31. |
| Backoff.NeverInThePast | internal/worker/fanout.go:360-371 | No retry can be scheduled before the clock of its settlement if and only if base * 2^(maxRetries-2) fits into 64 bits. |
| Schedule.SettlesOnTime | internal/worker/fanout.go:251-253 | A settlement that takes effect writes one row: success without a schedule; or failure, scheduled exactly below maxRetries, at the clock it read plus a wait between 0.75 and 1.25 times min(base * 2^(n-1), 5 minutes), up to a nanosecond, unless the product overflows. |
| Schedule.ScheduleIsTimely | internal/worker/fanout.go:360-371 | In every reachable state, each time on the schedule is the clock of the settlement that wrote it plus the delay it drew, which lies in that range, and the attempt has retries left. |
| Schedule.RetryHorizon | internal/worker/fanout.go:360-371 | All delays ever written to the schedule for one action on one delivery sum to at most 1.25 * min(base * (2^(maxRetries-1) - 1), (maxRetries-1) * 5 minutes); each time on the schedule is the clock of its settlement plus the delay in that sum. |
| Schedule.RunIsLater | internal/worker/fanout.go:360-371 | Without overflow, in a run whose clock readings are past a given time, with failed calls, crashes and deletions: nothing is scheduled at that time or earlier that was not before, and no attempt is scheduled twice. |
| Schedule.TickTakesUp | internal/store/delivery.go:152-158 | A tick of the retry poll that misses a due attempt takes 100 attempts that were due no later off the schedule. |
| Schedule.DueIsTakenUp | internal/worker/fanout.go:396-416 | Over any run, with failing calls, crashes and ticks of other replicas: a due attempt with n attempts scheduled no later has left the schedule after n/100 + 1 completed ticks, while other attempts keep failing and being scheduled (without overflow). |
| Draining.EngineTakesUp | internal/worker/fanout.go:396-416 | The same along the trace of an engine, whichever of its procedures are called between the ticks. |
| Service.TickTakesUp | internal/worker/fanout.go:405-413 | Each tick with a reliable store is such a completed tick. |
| Filter.FilterActions | internal/worker/fanout.go:345-358 | The two loops return the active actions whose IDs the script named, in order and multiplicity. |
| Filter.KeptExactly | internal/worker/fanout.go:345-358 | The kept actions are those at exactly the positions whose IDs the script named, in increasing order, for any script output. |
| FanOut.FanVisitsTargets | internal/worker/fanout.go:215-222 | The fan-out makes first attempts on the actions that do not skip, in order, and on no others. |
| FanOut.TargetsInOrder | internal/worker/fanout.go:215-222 | Those are the actions at exactly the positions of the list whose own script is absent, empty, or does not skip the payload and headers, in increasing order. |
| FanOut.ScriptNarrows | internal/worker/fanout.go:202-222 | After a source script, first attempts go to the kept active actions minus skips, whatever IDs the script named. |
| Slug.SlugIsJoinedWords | internal/handler/source.go:38-45 | The five passes give the non-empty segments of the cleaned name joined by single dashes, without a leading, trailing or doubled dash; cleaning, rune by rune, keeps letters and digits, letters in lower case, turns spaces into dashes, and drops the rest. |
| Slug.SlugOfLetters | internal/handler/source.go:38-45 | The slug of a name of ASCII letters and digits has its length, and each position holds the same character, or for A to Z the one 32 above it. |
| Slug.NameWords | internal/handler/source.go:38-45 | Each segment of a name is a non-empty string of letters a to z and digits. |
| Slug.SlugIdempotent | web/source.go:22-29 | Generating the slug of a slug changes nothing, and the names that are their own slug are exactly the normal forms. |
| Engine.Engine.UpdateStatus | internal/store/delivery.go:78-84 | Writes the status of an existing row unconditionally; the write may be lost, or reported lost. |
| Engine.Engine.SetTransformed | internal/store/delivery.go:86-95 | Sets both transformed columns of an existing row, and nothing else. |
| Engine.Engine.CreateAttempt | internal/store/delivery.go:121-133 | Inserts a pending attempt exactly if the unique key is free and both foreign keys exist, unless the call fails. |
| Engine.Engine.UpdateAttempt | internal/store/delivery.go:135-150 | Overwrites status and schedule of an existing attempt, and no other row. |
| Engine.Engine.ListActive | internal/store/action.go:127-146 | Lists exactly the active actions of the source, each once. |
| Engine.Engine.ListAttempts | internal/store/delivery.go:176-198 | Lists exactly the attempts of the delivery, each once. |
| Engine.Engine.InsertDelivery | internal/store/delivery.go:18-30 | Inserts a row exactly if the source exists and the idempotency key is free, unless the call fails: source, key, headers, payload and time in their own columns, pending, and both transformed columns empty. |
| Engine.Engine.DispatchAction | internal/worker/fanout.go:227-255 | One thread's insert, dispatch and settlement: only this attempt may change, and not at all if it was there already; a new one is left pending, or settled as the returned outcome says: success, or failed and scheduled exactly below maxRetries, at the clock of the settlement plus a wait between 0.75 and 1.25 times the capped power of two (up to a nanosecond, without overflow). With a reliable store a new attempt is inserted and settled. |
| Engine.Engine.RollUpDeliveryStatus | internal/worker/fanout.go:440-493 | With a reliable store the status of the delivery becomes the verdict on its active actions if there is one, and no row changes otherwise. |
| Engine.Engine.LoadDelivery | internal/worker/fanout.go:121-135 | Goes on exactly for a pending delivery, or a recorded one when forced. |
| Engine.Engine.LoadSource | internal/worker/fanout.go:137-146 | Decides between recording and admitting by the mode of the source and the force flag. |
| Engine.Engine.PlanFanOut | internal/worker/fanout.go:153-191 | The plan is the one that the active actions, listed in some order, and the source script give: complete, fail, try all actions with the received content, or store the transformed content and narrow. |
| Engine.Engine.PersistContent | internal/worker/fanout.go:193-213 | Stores the transformed content, goes on whether or not that fails, and narrows the plan to the actions the script kept; none kept completes the delivery. |
| Engine.Engine.FanOutAll | internal/worker/fanout.go:215-222 | The loop adds first attempts only, on the targets only; with a reliable store, on all of them. |
| Plans.DispatchedPlainly | internal/worker/fanout.go:148-224 | Without a source script, that leaves an attempt on exactly the active actions that do not skip the delivery, besides those that had one, and the rolled-up status. |
| Plans.DispatchedScripted | internal/worker/fanout.go:164-224 | With a source script, for the listing it was given: no attempt and the status that the script decides; or its content in the columns, an attempt on exactly the active actions that it kept and that do not skip, besides those that had one, and `completed` if it kept none, else the rolled-up status. |
| Plans.TargetsExactly | internal/worker/fanout.go:215-220 | The targets of a fan-out over the listed actions are exactly those whose transform does not skip. |
| Engine.Engine.ProcessDelivery | internal/worker/fanout.go:120-225 | Leaves a delivery alone that is not admissible; otherwise, with a reliable store, sets it to recorded if its source records and nobody forced it, else admits it and carries out a plan for it: a final status and no attempt, or first attempts on exactly the targets and the rolled-up status. No branch leaves it pending. |
| Engine.Engine.PrepareRetry | internal/worker/fanout.go:257-270 | The retry starts from the transformed payload and headers if they are stored, and else from those received; the script of the action as it is now runs on them, and without one they are sent themselves. |
| Engine.Engine.ClearSchedule | internal/worker/fanout.go:434-435 | Sets the retried attempt to failed without a schedule, and changes no other row. |
| Engine.Engine.RetryAttempt | internal/worker/fanout.go:418-438 | With a reliable store: the attempt is failed without a schedule, the next one exists exactly if it did before or the action's script, if any, does not skip the stored content, no other attempt changes, the status is rolled up, and the retries left strictly decrease. |
| Engine.Engine.ConsumeMessage | internal/worker/fanout.go:111-114 | Takes one message off the stream and processes its delivery, and nothing else; with a reliable store that achieves what ProcessDelivery does for an admissible delivery, and leaves any other alone. |
| Engine.Engine.PollPending | internal/worker/fanout.go:373-394 | With a reliable store one tick takes the earliest pending deliveries by time received, 100 of them or all if there are fewer, processes each in turn so that none of them stays pending, and puts none back. |
| Engine.Engine.PollRetries | internal/worker/fanout.go:396-416 | With a reliable store one tick retries, each in turn, 100 failed attempts that are scheduled and due, or all if there are fewer, none of which is due later than a due one left out, and takes all of them off the schedule; the retries left go down by at least their number. |
| Engine.Engine.Ingest | internal/handler/webhook.go:68-91 | A taken key stores and publishes nothing; a row that is stored has the posted source, key, headers, payload and time in their columns and no transformed content, and is pending or recorded, even if a call fails; with a reliable store the key is accepted exactly if it is free, and the delivery is recorded, or pending and published, by the mode of its source. |
| Arrivals.RequestIsStored | internal/store/delivery.go:18-30 | In every reachable state: a request that is stored under a new ID fills the columns of the row with what it carries. |
| Arrivals.PostedIsSent | internal/handler/webhook.go:54-91 | From the request to the dispatcher, over any run with the scripts unchanged and at most one store call of the content: the stored payload and headers are the posted ones, and every dispatch starts from them as in WhatIsSent. |
| Arrivals.PostedIsSentPlainly | internal/handler/webhook.go:54-91 | Without scripts every dispatch carries the posted payload and headers. |
| Engine.Engine.ForwardDelivery | web/source.go:298-322 | Only a recorded delivery of this source is touched, and only its status, which ends pending or recorded; with a reliable store it is pending and a forced message is published. |
| Engine.Engine.PublishForced | web/source.go:317-322 | Either the message is published and the status kept, or the call reports a failure and the status is set back to recorded, unless that fails too. |
| Engine.Engine.ForwardAllRecorded | web/source.go:328-359 | Among the 200 deliveries of the source that were received last, the newest first, exactly the recorded ones become pending, and the stream gains one forced message for each of them and nothing else; no other row changes. |
| Calls.ForcedForCounts | web/source.go:343-355 | Those messages: one for each recorded delivery of the page, and none for any other delivery. |
| Engine.Engine.EditSource | internal/store/source.go:62-117 | Sets one source, and nothing else, as the step system allows. |
| Engine.Engine.EditAction | internal/store/action.go:48-117 | Sets one action of an existing source, and nothing else, as the step system allows. |

## Left out

- Scripts are uninterpreted deterministic functions; timeouts, validation and the conversion of JSON to script values
  are not modelled. The target URL that a source script sees of an action is not part of its input here. A transform
  script that fails, or content that does not decode, is a function that returns its input.
- Dispatchers (HTTP, SMTP, Slack, Twilio, JavaScript) are a nondeterministic success or failure; response columns and
  error messages of attempts are left out. All action types the schema allows are registered, so the branch for an
  unregistered type is left out.
- Redis is a multiset of messages that may be lost or delivered again: consumer groups, acknowledgement, trimming to a
  maximum length and blocking reads are left out, and so are messages that do not parse.
- SQL statements are atomic operations on the tables, with their unique and foreign keys. Isolation inside one
  statement, connection handling and migrations as programs are left out.
- Time is a parameter of the calls that read the clock, and jitter a real number in [0, 1); floating-point rounding is
  left out, except that a power of two too large for 64 bits converts to the smallest integer, as on amd64.
- Liveness after a crash or a failed store call: nothing reclaims a `processing` delivery, so the quiescence theorems
  ask for calls that succeed. The safety theorems do not.
- IDs that the database draws are parameters, and are not drawn twice.
- Source and action management, templates, metrics, configuration, routing, signing and authentication are left out;
  edits and deletions of sources and actions appear as steps of the outside world. An action keeps its source.
- Ingest begins where the source is loaded: reading the body, checking that it is JSON and picking headers are left out.
- Engine.Engine.ConsumeMessage: a message leaves the stream when it is read, because nothing reads a pending entry
  again; delivery of the same message more than once is a step of the outside world instead.
- Engine.Engine.ListAttempts: the rows come in any order, where the query orders them by creation; the roll-up does not
  depend on it (`Verdict.LatestAttempts`).
- Quiescence.QuiescentConsistency: is about deliveries of active sources, and forwarded ones that were admitted
  undisturbed; Forwarded.ForwardedShowsVerdict says that no other forwarded delivery meets it. A script that leaves out
  or ends is the subject of Skips and Endings.
- Skips.DrainedExactly: asks that the script decide the same whatever order the active actions are listed in, because
  workers that race for a delivery may list them in different orders.
- Service.FinalStays: is about whole calls; with the calls of several workers interleaved a final status can be
  overwritten for a while, which is what Quiescence.FinalIsAbsorbing and Counterexample.LateWriteHidesVerdict are about.
  Deletions and messages that are delivered again are steps of the step system, but not among these calls.
- Schedule.DueIsTakenUp: counts ticks that work through their whole page, and asks that the clock readings of
  settlements be past the due time and that no delay overflow; a time on the schedule is in whole nanoseconds, where the
  column keeps microseconds.
- Persistence.RetriesAgreeExactly: is about runs with one store call of the content; Payload.RetrySendsTheSame covers
  workers that race for a delivery and store its content several times.
