# A verified model of the email delivery engine

The project models the delivery engine as one transition system and proves, for every run, what its
design promises. Request handlers accept messages in a transaction and then XADD them to a Redis
stream. W worker processes read the stream through a consumer group, run each message through the
pipeline and ack it; one deferred poller per process puts messages back whose retry time has come.
Every store or queue call is one atomic action (the worker's statements are autocommitted one by
one). Between any two calls another process may act, a call may fail, a process may crash, an entry
may be delivered again.

A run of the system is any sequence of actions that `Engine.Step` allows (`Engine.Reaches`). Three
regimes are told apart, because the code's promises differ between them:

- any number of workers and any faults: who has a message in hand and what drops it, stranding, caps,
  counters, legal pools, when a finished message is final, requests;
- one worker and any faults: retries, terminal statuses, attempt history, suppression, when a send is
  early, bounded steps, progress, and the end of every message on fair runs;
- one worker, for a message that no fault hits (`Focus.Untroubled`), whatever faults hit others: one
  owner, no early send, the log, the dead-letter story.

Beside the machine stands the code in its own shape. Classes hold the shared state; their methods are
the statements of the worker (`Processors`, `Stores`, `Processes`), of the limiter (`Limiters`), of
the route selection (`Router`) and of the request handler (`Servers`). In each of them `Others` lets
everybody else do anything, any number of times, before a call takes effect. The methods are proved
to make exactly the calls that the machine's run makes, with the same arguments and in the same
order, so every result about the machine holds of the code (`Processes.CodeIsSafe`). What the loops of
a process did is read off the schedule itself (`Deeds.DeedsOf`, `Deeds.ChoresOf`): a consumer that
skipped an entry or a poller that skipped an id would have another diary.

| file | content |
|---|---|
| Base, Tables | clock, ids, counting; the tables and the stream, one function per statement |
| Engine | the machine: run points, actions, faults, schedules |
| Shapes | how far each kind of action reaches; all invariants are proved from this |
| Focus | the machine as one message sees it: the steps that act on it and the faults that hit it |
| NoLoss, Stranded, Finality, Knowledge, Admission, Caps, Claims, Conservation, Arrivals | results for any number of workers |
| Single, Chronicle, Suppression, Termination, Progress, Fairness | results for one worker, with faults |
| Ownership, Replay, Story | results for one worker and a message that no fault hits |
| Backoff, Routing, Classify, Replies, Simulate | delays, routes and warmup, reply classification and simulation |
| Decimal | numbers as decimal text, for reply codes and pool keys |
| Deeds | what one process's consumer and poller have done in a schedule |
| Throttle | the fixed-window limiter and the rule loop as a machine of their own |
| Intake | POST transactions in front of the engine |
| Router, Store, Limiter, Processor, Process, Server | the code, statement by statement |
| Scenarios, Witness | concrete runs that show which assumptions are needed and that bounds are met |

Where the code and its documents disagree, the model follows the code:

- docs/rfc-email-delivery-engine.md:108-113 says the poller picks up a message whose first XADD
  failed. The query selects deferred rows only (data-plane/internal/store/store.go:362-363), so it
  never does, whatever happens before and after: `Stranded.FailedFirstAddStrands`. A message whose
  re-injection is lost is stranded exactly when nothing else has hold of it:
  `Stranded.LostPollerAddStrandsExactly`; and being stranded is exactly being beyond every
  continuation: `Stranded.StrandedExactly`. With one worker nothing else drops a message:
  `NoLoss.OneWorkerLosesOnlyAdds`.
- docs/rfc-email-delivery-engine.md:132-138 says concurrent requests with one key serialize and get
  the same message. SELECT FOR UPDATE locks no row that is not there; the loser fails on the primary
  key and is answered 500: `Witness.ConcurrentLoserGets500`. The exact condition is
  `Intake.LaterRequestsReplay` and `Intake.EarlierRequestsFail`: a request can be told of the message
  if and only if it looks its key up after the commit.
- docs/tradeoffs.md:101-108 says SKIP LOCKED guards a message against two workers. The statement is
  autocommitted, so the lock ends with it, and a robbed worker can overwrite what the robber finished:
  `Witness.TwoWorkersReopenTheFinished`; a finished row is final exactly when no run on it has loaded
  it without having settled it: `Finality.FinalExactly`. With two workers a slow process whose entry
  was reclaimed and acked drops its message if it then fails, and so does acking a locked message:
  `Witness.TheftLosesMessage`, `Witness.SkipLosesMessage`. With the lost XADD these are all the ways to
  drop a message: `NoLoss.DropsExactly`.
- A warmup that starts a day or more ahead reads as unlimited until then. A cap never tightens exactly
  when that does not matter: `Routing.CapLoosensExactly`; and a negative daily limit lifts the warmup
  schedule too: `Routing.WarmupCapIsTheStricter`.
- `Classify` documents that 2xx-looking replies are deliveries; the code looks at the text alone and
  takes every reply without a listed phrase as one: `Classify.DeliveredExactly`,
  `Simulate.UnmatchedRejectionIsDelivered`. The exact condition under which it agrees with the reply's
  code is `Simulate.ReplyAgreesExactly`.
- maxAttempts is not compared before sending, so a crash after the mark buys one attempt beyond it:
  `Single.RetriesAreBounded`, `Witness.CrashBuysAnAttempt`.

## Model

| member | source | states |
|---|---|---|
| NoLoss.NoMessageLost | data-plane/cmd/worker/main.go:160-206 | For any number of workers and any interleaving of failures and crashes, an accepted message is in hand (terminal, deferred, awaiting an XADD, covered by an un-acked entry, or in a run that means to settle it), or an action of the run dropped it and nothing has taken it up since |
| NoLoss.DropsExactly | data-plane/cmd/worker/main.go:160-206 | An action takes a message out of hand if and only if it loses its pending XADD, ends a run that still meant to settle it, or skips its locked row, and nothing else has the message in hand |
| NoLoss.DeferredHasTime | data-plane/internal/worker/worker.go:249-281 | A deferred message always has a next_attempt_at |
| NoLoss.OneWorkerLosesOnlyAdds | data-plane/internal/queue/queue.go:98-113 | With one worker an accepted message is in hand, or its XADD was lost and nothing has taken it up since |
| NoLoss.PromptWorkersAreNeverRobbed | data-plane/internal/queue/queue.go:98-113 | While no process holds an entry for a minute, reclaim never takes one from a live process, and no failure or crash of a run drops a message |
| NoLoss.ExclusiveStep | data-plane/internal/queue/queue.go:98-113 | Every action but a reclaim from a live process keeps each held entry un-acked and with one holder |
| Claims.TakesExactly | data-plane/internal/queue/queue.go:79-113 | A free process may read exactly the next one to ten entries, and claim exactly up to ten pending entries that have been idle for 60 seconds |
| Claims.TakingRestartsIdleTime | data-plane/internal/queue/queue.go:79-113 | Reading and claiming restart the idle time of the entries taken and of no other |
| Claims.ClaimLasts | data-plane/internal/queue/queue.go:98-113 | Whatever happens, nobody can claim within a minute what a process has read or claimed |
| Claims.SkipsExactly | data-plane/internal/store/store.go:108-120 | A load may skip its row exactly when another run's statement on the message or a poller's mark of it is under way, and the run then goes straight to its ack |
| Stranded.StrandedForGood | data-plane/internal/store/store.go:359-381 | A message not deferred, with no pending XADD, no un-acked entry, and no open run or poller on it, is never touched again, whatever happens |
| Stranded.StrandedExactly | data-plane/internal/store/store.go:359-381 | An unfinished message is in that state if and only if no continuation at all has it in hand again |
| Stranded.FailedFirstAddStrands | control-plane/src/routes/messages.ts:141-151 | Every message whose handler's XADD fails is stranded, for any number of workers and whatever else has happened: its row stays queued for good |
| Stranded.LostPollerAddStrandsExactly | data-plane/cmd/worker/main.go:193-200 | A message whose XADD the poller loses is stranded exactly when no other un-acked entry, run or list has hold of it and its row is not deferred again |
| Witness.LostAddStrands | control-plane/src/routes/messages.ts:141-151 | Such a run exists, with one worker and one message |
| Witness.TheftLosesMessage | data-plane/cmd/worker/main.go:147-158 | With two workers a crash can drop a message for good, after a reclaim took its entry from a process that was only slow |
| Witness.SkipLosesMessage | data-plane/internal/worker/worker.go:62-68 | With two workers acking a locked message can drop it, and the message end stranded, without any fault |
| Arrivals.ArrivedAlways | control-plane/src/routes/messages.ts:115-151 | Every log opens with accepted and queued, each written once, and a message gets at most one handler XADD |
| Knowledge.AttemptsUseLegalPools | data-plane/internal/worker/worker.go:120-127 | In every reachable state each attempt row used an enabled route for its provider and a shared pool or the customer's own |
| Knowledge.KnownStep | data-plane/internal/worker/worker.go:54-72 | What a run has read of its message and route stays true while others act |
| Admission.CustomerCheckExactly | data-plane/internal/worker/worker.go:74-106 | An unknown customer fails the message; blocked_from_sending stops all mail and blocked_from_marketing marketing mail only; every other state goes on |
| Admission.BlockedMailIsNeverSent | data-plane/internal/worker/worker.go:90-106 | While a customer is blocked in a way that stops a message, no run marks, logs or records a send of it, unless it had passed the check before |
| Caps.PoolCapHolds | data-plane/internal/worker/worker.go:146-161 | With W workers the attempts recorded for a pool on any date never exceed its cap at the latest check by more than W - 1, across midnight and warmup days |
| Caps.EachDateKeepsItsCap | data-plane/internal/worker/worker.go:146-161 | A date keeps the bound of its own latest check, however loose the caps of later dates |
| Caps.CustomerCapHolds | data-plane/internal/worker/worker.go:129-144 | The same bound for a positive daily_send_cap |
| Caps.CustomerCountExactly | data-plane/internal/store/store.go:397-408 | In every reachable state the query's answer is the number of attempts recorded today for messages of that very customer |
| Caps.PoolCountExactly | data-plane/internal/store/store.go:383-395 | The same for the attempts recorded today for that very pool |
| Caps.CustomerHoldExactly | data-plane/internal/worker/worker.go:129-144 | A run is held by the customer cap if and only if there is a positive one and that customer's recorded sends of today have reached it |
| Caps.PoolHoldExactly | data-plane/internal/worker/worker.go:146-161 | A run is held by the pool cap if and only if there is one and that pool's recorded sends of today have reached it |
| Base.DateExactly | data-plane/internal/store/store.go:383-408 | The day a cap counts on lasts 86400 seconds from midnight UTC |
| Witness.TwoWorkersOvershootByOne | data-plane/internal/worker/worker.go:146-161 | The bound is met: two workers that both check first exceed a cap of one by one |
| Conservation.AttemptsAreConserved | data-plane/internal/worker/worker.go:187-264 | delivery_attempts_total is always delivered + bounced + dead_lettered + deferred + sends not yet counted or cut off, and deferred equals retry_scheduled |
| Conservation.CountersAreTheAttempts | data-plane/internal/worker/worker.go:207-264 | Each outcome counter is the number of attempt rows that met the outcome: delivered, refused for good, retried with attempts left, retried on the last one |
| Single.RetriesAreBounded | data-plane/internal/worker/worker.go:173-205 | attempt_count is at most maxAttempts plus the runs cut off after marking sending; dead_lettered implies at least maxAttempts |
| Witness.CrashBuysAnAttempt | data-plane/internal/worker/worker.go:173-177 | The bound is met with one crash |
| Finality.FinishedForGood | data-plane/internal/worker/worker.go:69-72 | For any number of workers, once a message is terminal and every run on it is before its load or after its settling, its row and attempts never change again |
| Finality.FinalExactly | data-plane/internal/worker/worker.go:69-72 | The row of a terminal message can be written again if and only if some run on it is past its load and before its settling |
| Finality.MarkReopens | data-plane/internal/store/store.go:280-298 | A run at its mark takes a finished row back to sending in one call |
| Finality.TerminalIsAbsorbing | data-plane/internal/worker/worker.go:69-72 | With one worker a terminal message keeps row and attempts whatever happens, and its log gains at most the closing event of the run that finished it |
| Witness.TwoWorkersReopenTheFinished | data-plane/internal/store/store.go:108-120 | With two workers a delivered message can go back to sending |
| Chronicle.AttemptHistory | data-plane/internal/worker/worker.go:173-260 | Rows of a message are at most its sending events, those at most attempt_count; numbers increase; a finished message has a last row numbered attempt_count whose classification fits |
| Suppression.BounceSuppressesOnce | data-plane/internal/worker/worker.go:226-237 | A bounced message's recipient is suppressed, and at most one message per customer and recipient ends bounced |
| Suppression.NoSendAfterSuppression | data-plane/internal/worker/worker.go:108-118 | Once a pair is suppressed no step logs a sending attempt for any message of the pair |
| Suppression.SuppressionStays | data-plane/internal/store/store.go:169-177 | Suppressions are never removed |
| Termination.PaysStep | data-plane/internal/worker/worker.go:249-281 | Each step that moves a message lowers its measure of attempts left, faults to come and stage; only a capacity hold may raise it |
| Termination.StepsAreBounded | data-plane/internal/worker/worker.go:249-281 | The steps ever spent on a message are bounded by maxAttempts, faults and holds |
| Fairness.EveryFairRunFinishes | data-plane/cmd/worker/main.go:122-206 | In every run without end whose schedule does not neglect a message, it comes to be terminal or stranded, for good, unless faults hit it or caps and rate limits hold it back without end |
| Fairness.EveryUntroubledMessageFinishes | data-plane/cmd/worker/main.go:122-206 | There a message that no fault hits reaches a terminal status for good, or is held back without end |
| Progress.ProgressIsPossible | data-plane/cmd/worker/main.go:122-206 | In every reachable state a message neither terminal nor stranded can be moved along without faults, whatever the limiter, the provider and the jitter answer |
| Progress.EveryMessageCanFinish | data-plane/cmd/worker/main.go:122-206 | From every reachable state a continuation without faults, whatever is answered on the way, ends with a message in hand terminal, or with a cap or rate limit holding it back |
| Progress.ListExists | data-plane/internal/store/store.go:359-381 | The poller's query has an answer in every state |
| Tables.ListedUnlessCrowdedOut | data-plane/internal/store/store.go:359-381 | An answer of the query is in order of next_attempt_at without repeats, and misses a deferred message only if its time has not come or a hundred others due no later fill it |
| Termination.WorkRemains | data-plane/cmd/worker/main.go:187-206 | The measure of work in sight is positive as long as a message is neither terminal nor stranded |
| Termination.HoldsCostNothing | data-plane/internal/worker/worker.go:322-340 | A capacity hold defers the message and leaves attempt_count as it was |
| Ownership.ExactlyOneOwner | data-plane/cmd/worker/main.go:187-206 | A message that no fault hits is in exactly one of: pending handler XADD, pending poller XADD, one live entry, deferred or terminal |
| Ownership.NoEarlySend | data-plane/internal/store/store.go:359-364 | No send of it starts before the stored next_attempt_at |
| Single.EarlySendExactly | data-plane/internal/worker/worker.go:58-72 | Whatever fails, a send starts before next_attempt_at if and only if the row as its run loaded it had that time still ahead, and that row was deferred or flipped back to queued |
| Focus.FaultFreeIsUntroubled | data-plane/cmd/worker/main.go:160-206 | A schedule without faults hits no message, so what holds of a message no fault hits holds of all of them then |
| Witness.FaultAllowsEarlySend | data-plane/internal/worker/worker.go:54-72 | With a fault on the message a send can start before it |
| Ownership.LoadGoesOn | data-plane/internal/worker/worker.go:58-72 | When its run loads it, it is queued, never locked or finished |
| Ownership.MarkQueues | data-plane/cmd/worker/main.go:193-200 | When the poller marks it, its row, which was due, turns from deferred to queued and nothing else of it changes |
| Ownership.AddQueues | data-plane/cmd/worker/main.go:193-200 | When the poller adds it, its row is still queued, and a new entry for it stands at the end of the stream |
| Replay.LogExplainsMessage | data-plane/internal/worker/worker.go:173-281 | If no fault hits a message its log has the promised shape, and while no run is on it folding the log gives status, attempt_count and next_attempt_at, up to the flip back to queued |
| Replay.FoldMeansShaped | data-plane/internal/worker/worker.go:324-356 | The fold accepts only accepted, queued, rounds of holds and retried attempts, and one ending, and counts the sends |
| Story.DeadLetterStory | data-plane/internal/worker/worker.go:249-262 | A dead-lettered message that no fault hit had exactly maxAttempts sends, all retryable, and delays that sum to between half and all of the base schedule, the first three never decreasing |
| Story.AttemptsAddUp | data-plane/internal/worker/worker.go:173-187 | Without faults delivery_attempts_total is the sum of attempt_count over all messages, but for a send just marked |
| Backoff.NextDelayExactly | data-plane/internal/backoff/backoff.go:34-60 | A retry is exhausted exactly from maxAttempts on, and the possible delays are exactly those between half and all of 30, 120 and then 600 seconds |
| Backoff.ScheduleTotal | data-plane/internal/backoff/backoff.go:49-60 | The delays of a schedule sum to between half and all of the bases |
| Backoff.BaseTotalClosedForm | data-plane/internal/backoff/backoff.go:20-47 | The base schedule is 30 + 120 + 600 per further retry seconds |
| Backoff.ScheduleStartsNondecreasing | data-plane/internal/backoff/backoff.go:20-26 | The first three delays never decrease, whatever the jitter |
| Routing.SelectExactly | data-plane/internal/route/route.go:31-81 | Selection takes the first enabled route in query order onto the first row of ip_pools dedicated to the customer, else the first onto a shared pool, and fails exactly when neither exists |
| Routing.DedicatedPoolExactly | data-plane/internal/store/store.go:212-226 | The lookup gives the first row dedicated to the customer, wherever it stands, and nothing exactly when there is no such row |
| Routing.FirstRouteIsFirst | data-plane/internal/route/route.go:54-78 | No earlier route leads to any of the pools |
| Routing.FirstRouteExactly | data-plane/internal/route/route.go:72-78 | The route found leads to one of the pools, and none is found only if none does |
| Routing.SelectIsLegal | data-plane/internal/route/route.go:31-81 | A selected pool is shared or the customer's own |
| Routing.CapLoosensExactly | data-plane/internal/route/route.go:83-104 | The cap never tightens from a moment on if and only if there is no warmup, it begins within a day, or the daily limit is at most the first day's cap |
| Routing.WarmupCapIsTheStricter | data-plane/internal/route/route.go:83-104 | The cap is the stricter of the schedule's day and the daily limit, unlimited exactly without either; a negative limit is unlimited throughout |
| Routing.WarmupDayExactly | data-plane/internal/route/route.go:106-113 | Day n of a warmup is the n-th stretch of 24 hours after its start |
| Routing.WarmupScheduleIs | data-plane/internal/route/route.go:20-29 | The caps of the first five days are 50, 100, 250, 500 and 1000, and there is none after them |
| Classify.RetryableIsTheDefaultBranch | data-plane/internal/classify/classify.go:59-69 | For every string, retryable holds exactly when the outcome switch takes its default branch |
| Classify.FirstMatchExactly | data-plane/internal/classify/classify.go:61-69 | A reply gets a result if and only if a rule says it whose phrase occurs while no earlier one does, or no phrase occurs and it is success |
| Classify.DeliveredExactly | data-plane/internal/classify/classify.go:59-69 | A reply counts as delivered exactly when no listed phrase occurs |
| Classify.KindByPrecedence | data-plane/internal/classify/classify.go:30-69 | Which phrases mean which outcome, in order of precedence: no recipient, no room, too fast, not now, unwanted, passing, and delivered otherwise |
| Classify.ContainsExactly | data-plane/internal/classify/classify.go:61-69 | A phrase occurs if and only if the reply is it with something before and after |
| Classify.LowerAlphabet | data-plane/internal/classify/classify.go:61-69 | Lower-casing turns each capital into its own small letter |
| Simulate.OutcomeAgreesWithCode | data-plane/internal/simulate/simulate.go:22-68 | For every recipient, reputation and draw the reply's first digit decides the outcome as section 4.2.1 of RFC 5321 has it |
| Simulate.ReplyAgreesExactly | data-plane/internal/classify/classify.go:59-69 | The outcome of any reply agrees with its first digit if and only if it is a 2xx without a listed phrase, or a 4xx or 5xx whose first listed phrase says the same |
| Simulate.UnmatchedRejectionIsDelivered | data-plane/internal/classify/classify.go:59-69 | Every 5xx reply without a listed phrase is taken as delivered |
| Simulate.SomeRejectionIsUnmatched | data-plane/internal/classify/classify.go:59-69 | There is such a reply |
| Simulate.OutcomeByRecipient | data-plane/internal/simulate/simulate.go:22-68 | Which recipient meets which outcome: the hints in the lower-cased local part decide, in order, and without one the provider's reputation and the roll |
| Simulate.LocalPartIs | data-plane/internal/simulate/simulate.go:77-83 | The local part is what stands before the last at sign, or the whole address without one |
| Simulate.CodeOfReply | data-plane/internal/simulate/simulate.go:40-95 | The code parsed from each reply |
| Simulate.FirstFieldIs | data-plane/internal/simulate/simulate.go:85-95 | The code is parsed from the first word of the reply, whatever white space stands before it |
| Decimal.ItoaReads | data-plane/internal/simulate/simulate.go:85-95 | Parsing reads back every number that was written, with or without a plus sign |
| Decimal.NoNumberReadsAsZero | data-plane/internal/simulate/simulate.go:85-95 | A first word with anything but digits behind its first character counts as code 0 |
| Decimal.ItoaExactly | data-plane/internal/worker/worker.go:307-320 | Itoa writes the one decimal without leading zeros, and is the key of no other number |
| Throttle.LimiterIsExact | data-plane/internal/throttle/throttle.go:40-64 | Calls allowed in a minute bucket number min(calls, limit), each exactly when fewer than limit came before it, with EXPIREs late, failed or missing |
| Throttle.WindowBound | data-plane/internal/throttle/throttle.go:40-64 | Any window of L seconds lets through at most (floor((L + 58) / 60) + 1) times the limit, twice the limit in 60 seconds |
| Throttle.RuleLoopIsSafe | data-plane/internal/worker/worker.go:283-304 | Checks that pass a rule in a minute number at most its limit; when k rows share a key and limit, k times the passes stays within it |
| Throttle.AppliesExactly | data-plane/internal/worker/worker.go:290-320 | A rule applies if and only if its scope is customer, provider, domain or ip_pool and its key is the mail's customer, provider or domain or the pool id's decimal |
| Throttle.ApplicableExactly | data-plane/internal/worker/worker.go:290-294 | The rules a check runs are the rules loaded that apply, each as often as it was loaded |
| Throttle.CounterLifetime | data-plane/internal/throttle/throttle.go:48-57 | A counter is forgotten exactly 120 seconds after its expiry was set, and the next call counts from one |
| Intake.OneKeyPerMessage | control-plane/src/routes/messages.ts:87-129 | Each committed message has exactly one key row, its two opening events, and at most one handler entry |
| Intake.KeysStay | control-plane/src/db/schema.ts:156-165 | A committed key leads to the same message for good |
| Intake.AnswersAgree | control-plane/src/routes/messages.ts:45-57 | Requests of one key answered with a message name the same one, and at most one is told it created it |
| Intake.LaterRequestsReplay | control-plane/src/routes/messages.ts:39-57 | A request that looks its key up after the commit creates nothing and is told of no other message |
| Intake.EarlierRequestsFail | control-plane/src/routes/messages.ts:109-113 | A request that looked before the commit is never told of the message |
| Intake.CustomerCheckExactly | control-plane/src/routes/messages.ts:65-83 | The check answers 404 exactly for an unknown customer and 403 exactly for one blocked from sending |
| Intake.CustomerAnswers | control-plane/src/routes/messages.ts:65-83 | Every 404, 403 and 201 of a run goes back to a look of that very request that found the customer so |
| Intake.WaitsExactly | control-plane/src/routes/messages.ts:109-129 | A request waits exactly while another one with its key has inserted it and not committed, and that other one can always go on |
| Intake.RunsAreEngineRuns | control-plane/src/routes/messages.ts:129-151 | Every run of requests and workers together is a run of the engine |
| Witness.ConcurrentLoserGets500 | control-plane/src/routes/messages.ts:109-113 | Of two concurrent requests with one key the loser is answered 500 |
| Router.Select | data-plane/internal/route/route.go:35-81 | The loops compute the specified choice |
| Router.FindRoute | data-plane/internal/route/route.go:67-78 | The map and the scan over routes find the first route onto the pools |
| Router.IndexById | data-plane/internal/route/route.go:67-71 | The map holds exactly the pools' ids, each with its pool |
| Router.WarmupCap | data-plane/internal/route/route.go:86-104 | The running cap ends at the specified cap |
| Limiters.Limiter.Allow | data-plane/internal/throttle/throttle.go:44-64 | The count returned is the number of calls of the rule's bucket up to and with this one, at the moment it reached the counter, and the call is allowed exactly when that is within the limit |
| Limiters.LimiterKeepsItsBounds | data-plane/internal/throttle/throttle.go:40-64 | After any code of any callers the grants per bucket and the passes per rule are within the limit |
| Stores.Store.GetMessageForProcessing | data-plane/internal/store/store.go:108-137 | The load returns the row as it stands, or nothing only if it is missing or locked at the call, and the run goes where the machine's does |
| Stores.Store.GetCustomer | data-plane/internal/store/store.go:139-154 | The answer is the customer's row at the call, absent exactly when there is none, and decides between failing, blocking and going on |
| Stores.Store.IsSuppressed | data-plane/internal/store/store.go:156-167 | The answer is membership of the pair at the moment of the call |
| Stores.Store.CountCustomerSendsToday | data-plane/internal/store/store.go:397-408 | The count is the number of attempts recorded today for messages of that customer, at the moment of the call, and decides exactly whether the run is held |
| Stores.Store.CountSendsToday | data-plane/internal/store/store.go:383-395 | The count is the number of attempts recorded today for that pool, at the moment of the call, and decides exactly whether the run is held |
| Stores.Store.UpdateMessageStatus | data-plane/internal/store/store.go:280-298 | The statement writes the row the machine's run writes, or fails and changes nothing |
| Stores.Store.WriteEvent | data-plane/internal/store/store.go:300-326 | The statement appends the event the machine's run logs, or fails and changes nothing |
| Stores.Store.WriteDeliveryAttempt | data-plane/internal/store/store.go:328-345 | The row records the reply, stamped with the time of the call, and the run goes on to the outcome of that reply |
| Stores.Store.AddSuppression | data-plane/internal/store/store.go:169-177 | The pair is added, and the row is settled as bounced only after it |
| Stores.Store.MarkQueued | data-plane/internal/store/store.go:347-357 | A row still deferred becomes queued, any other is left alone |
| Stores.Store.GetDeferredMessagesReady | data-plane/internal/store/store.go:359-381 | A successful call lists at most a batch of due deferred messages, earliest first, none passed over; a failed one lists none |
| Stores.Store.Read | data-plane/internal/queue/queue.go:79-96 | The entries that follow the group's cursor, in order and at most a batch, become this consumer's batch; none on a timeout or error |
| Stores.Store.Reclaim | data-plane/internal/queue/queue.go:98-113 | Pending entries idle for a minute become this consumer's batch |
| Stores.Store.Ack | data-plane/internal/queue/queue.go:115-118 | The entry leaves the pending list, or nothing changes |
| Stores.Store.Enqueue | data-plane/internal/queue/queue.go:70-77 | One entry is appended, or the XADD is lost |
| Stores.OthersKeepStanding | data-plane/internal/store/store.go:113-120 | What others do never changes this process's run, batch or poller list |
| Deeds.TraceTells | data-plane/cmd/worker/main.go:122-206 | What a store has noted of its process is what the schedule says its consumer and its poller did, action by action |
| Deeds.TracePasses | data-plane/internal/store/store.go:108-137 | The state in which a call says it took effect was reached by the schedule up to it |
| Processors.Processor.Process | data-plane/internal/worker/worker.go:54-205 | From the load, and against any interference, the code makes only the machine's calls: on success the run is due its ack, on error it is gone without one; an attempt it recorded is of this message, passed a check of every rule that governs it, and met the reply to its own recipient |
| Processors.Processor.Handle | data-plane/internal/worker/worker.go:74-118 | From the customer query on, the abuse and suppression checks branch as the machine's run does, to the ack or to an error, with at most the attempt it reports recorded |
| Processors.Processor.Admit | data-plane/internal/worker/worker.go:129-171 | From the customer cap on, each capacity check holds or passes exactly when the machine's does, and no attempt is recorded unless a check charged every rule that governs the mail and the pool |
| Processors.Processor.Send | data-plane/internal/worker/worker.go:173-205 | From the mark on, row, event, reply and attempt row are those of the machine's run; the kind recorded is that of the reply to the mail's recipient, for the reputation the policy query answered and the roll |
| Processors.Processor.HintedRecipientBounces | data-plane/internal/simulate/simulate.go:41-47 | A recipient whose local part contains bounce or unknown is never recorded as anything but a hard bounce, whatever the reputation |
| Processors.Processor.SelectRoute | data-plane/internal/worker/worker.go:120-127 | Selection goes by the mail's provider and customer; any failure of it fails the message |
| Processors.Processor.ApplyOutcome | data-plane/internal/worker/worker.go:207-281 | From the recorded reply on, the switch writes the rows and events of the machine's outcome for that reply, to the ack or to an error |
| Processors.Processor.Reschedule | data-plane/internal/worker/worker.go:322-340 | From a hold on, the row keeps attempt_count and a throttled event follows, as in the machine, to the ack or to an error |
| Processors.Processor.TerminateEvent | data-plane/internal/worker/worker.go:341-356 | From an ending before any send on, the status and its event are written without route or pool, to the ack or to an error |
| Processors.Processor.CheckThrottles | data-plane/internal/worker/worker.go:283-304 | When it lets a message pass, every loaded rule that governs the mail and the pool was charged and no other; when it answers throttled, its last call was for such a rule, and the count was beyond the rule's limit |
| Processors.ApplicableSoFar | data-plane/internal/worker/worker.go:290-294 | After i rows the loop has charged the first of the rules that apply |
| Processes.Consumer.ProcessEntry | data-plane/cmd/worker/main.go:160-175 | One entry is begun, records at most one attempt, and is acked or left pending after an error; the consumer does nothing else |
| Processes.Consumer.RunConsumer | data-plane/cmd/worker/main.go:122-158 | A first reclaim and then one read a round; every entry read or reclaimed is handled once, entries read in their order, and a read that brings none is followed by a reclaim |
| Processes.DeferredPoller.RunDeferredPoller | data-plane/cmd/worker/main.go:177-206 | Each tick asks once for the ready messages, and each id of an answer, in order, is marked and then added, where the add may fail, or its mark failed |
| Processes.CodeIsSafe | data-plane/cmd/worker/main.go:122-206 | After any code of a process a message is in hand or was dropped by an action of the run, caps hold and counters balance |
| Servers.Server.Post | control-plane/src/routes/messages.ts:19-170 | A 201 names the message stored for this body under this key, a 200 the one the key led to, and a key committed before is never answered with another; a 404 saw no such customer, a 403 a blocked one, a 201 one that was not blocked |
| Servers.Server.InsertKey | control-plane/src/routes/messages.ts:109-113 | The insert succeeds only while no commit and no open transaction holds the key |
| Servers.Server.CommitAndEnqueue | control-plane/src/routes/messages.ts:129-156 | A COMMIT that takes no effect stores nothing and answers 500; one that takes effect makes the key lead to the new message, and the answer is 201 exactly if it reported success and the read back succeeded, whatever the enqueue did |

## Left out

- HTTP, validation, drizzle, pgx, go-redis, logging, config parsing, metrics rendering and shutdown: plumbing around libraries that are not part of this model; only their effect on tables, stream and counters is kept.
- GET /debug and GET /metrics read the tables and change none of them, so no run of the engine depends on them.
- lib/mailbox.ts derives recipient_domain and mailbox_provider from an address before the insert; the model takes both as given with the message. middleware/snakeCase.ts renames the keys of JSON answers, which the model's replies do not spell out.
- db/seed.ts and the table definitions: a run starts from any customers, routes and pools, so no particular seed matters; of the constraints the primary keys of pools and idempotency keys are modelled.
- The abuse sweep is an environment action that sets any sending_state at any time; the bounce-rate arithmetic is not modelled.
- Message texts and the metadata columns of events; provider_policies and throttle_rules are not tables of the engine, so their queries answer anything.
- Ids are numbers given in the order of commit instead of UUIDs and stream ids; attempt counts and counters are unbounded integers.
- Retention of the stream: entries are never trimmed; an entry without a message_id, which the worker acks at once, does not occur.
- The consumer group is taken to exist before the first XADD; entries added before it would not be delivered.
- Fairness.EveryFairRunFinishes: that the schedule does not neglect the message is assumed; Progress.ProgressIsPossible shows that a step on it can always be arranged. When reclaim runs (at start and on idle reads) and when the poller ticks is left to the schedule.
- Throttle.LimiterIsExact: an INCR arrives at most a minute after its caller read the clock; a later one could meet an expired bucket. All callers and Redis share one clock that does not go back.
- Ownership.NoEarlySend: for a message that no fault hits only; Process never compares next_attempt_at with the clock, so an entry delivered again after a fault may be sent early (Witness.FaultAllowsEarlySend), exactly when Single.EarlySendExactly says.
- Intake.LaterRequestsReplay: a request may also be answered 500 when one of its queries fails.
- Conservation.AttemptsAreConserved: counters are summed over the lives of all processes. A worker's statement that takes effect but reports an error is taken as one that reported success and was followed by a failure; for WriteEvent of a sending attempt and for WriteDeliveryAttempt the code then leaves the attempt or its outcome uncounted where the model counts it.
- The engine's throttle answer is arbitrary; the limiter is tied to the code in Processors.Processor.CheckThrottles but its counters are not part of the engine's state.
- A batch is a set in the engine, so entries of one batch may be run in any order; a Read whose reply is lost is covered only as a crash of the process.
- Simulate.ReplyAgreesExactly: strconv.Atoi reports an error beyond 64 bits, which the caller turns into 0; here numbers are unbounded, so a reply with so long a code may agree here and not there.
- Classify.DeliveredExactly: lower-casing covers ASCII letters only; a letter that Unicode lower-cases to an ASCII one, such as the Kelvin sign U+212A, could complete a listed phrase in the code and not here. White space in a reply is the ASCII kind.
- Routes, pools, throttle rules within a check, and customers' daily_send_cap do not change during a run; the workers and the database share one clock, and CURRENT_DATE is the UTC date.
- Random draws are inputs: the jitter any natural number reduced to the window, the degraded provider's roll any boolean.
