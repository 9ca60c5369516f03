# Verification of the gateway's admission and scheduling engine

OxideGate stands between clients and an LLM backend. A request passes four
pieces of state, each behind a lock or owned by one task: its tenant's account
(`src/tenants.rs`), a deficit round robin queue (`src/fairqueue.rs`), the
scheduler with its backend slots (`src/scheduler.rs`), and, for a streamed
reply, a counter of SSE frames (`src/lib.rs`). This project models them, and the
order in which one request holds lease, queue place, slot and reply, and proves
what they promise: for every history of one piece, and for every interleaving
of handlers, scheduler and dispatch tasks of the whole.

`dafny verify dfyconfig.toml` checks everything.

## Files

| file | content |
|---|---|
| `Prelude.dfy`, `Tiers.dfy` | sums over sequences, options; the two tiers |
| `FairQueueSpec.dfy` | the queue as a value, `push`, and `pop` without a loop |
| `FairQueueInvariant.dfy` | what pushes and pops keep |
| `FairQueues.dfy` | the class whose methods and loop are proved to compute the values |
| `FairQueueHistory.dfy` | order and conservation over histories; the single-queue mode |
| `Fairness.dfy` | weighted fairness over windows, bounded wait |
| `Tenants.dfy` | accounts as values; the classes bucket, tenant and lease |
| `Buckets.dfy`, `TenantHistory.dfy`, `TokenBudget.dfy`, `RateLimit.dfy`, `Refusals.dfy` | what buckets earn; histories of one account: invariant, token budget, rate, refused requests |
| `Openings.dfy` | what a new tenant's requests are answered |
| `Frames.dfy` | the frame counter and whole streams |
| `Gateway.dfy` | the gateway as a transition system |
| `GatewayInvariant.dfy`, `GatewaySteps.dfy` | its invariant, and that every step keeps it |
| `GatewaySafety.dfy` | accounting, wakeups, slots and limits in every reachable state |
| `GatewayProgress.dfy` | no deadlock; every run settles its requests |
| `GatewayTenants.dfy` | every tenant's part of a run is a history of its account |
| `GatewayFairness.dfy` | the queue's part of a run is a history of the queue |
| `GatewayOrder.dfy` | the order in which requests reach the backend |
| `GatewayFifo.dfy` | first in, first out, on request numbers |
| `GatewayReplies.dfy` | what clients are told, and that every request can be served |
| `GatewayLimits.dfy` | what the in-system bound and the concurrency limit really bound |

Queue, account and counter are classes, updated in place by methods in the form
of the original's, and specified by functions on values (`View()`); lemmas on
histories are about the functions. The scheduler is a transition system over a
value, since its property is what arbitrary interleavings keep. A step is what
happens under one lock, or between two points at which a task can wait:

| action | source | step |
|---|---|---|
| `Arrive` | src/lib.rs:178-182 | `admit`; on success a handler with a lease |
| `Submit` | src/scheduler.rs:144-160 | push under the mutex; when the queue is full the lease is dropped |
| `NotifyOne` | src/scheduler.rs:161 | wakes the scheduler or stores a permit |
| `HangUp` | src/scheduler.rs:163, src/lib.rs:239-260 | the handler or the response body is dropped, with lease and slot |
| `AcquireFirst`, `AcquireNext` | src/scheduler.rs:184-194, 208, 249-257 | a permit is taken; for a batch entry its dispatch task starts |
| `PopNext` | src/scheduler.rs:102-107, 116, 211-213, 225 | pop under the mutex, and the place in the batch |
| `ParkNow`, `Wake` | src/scheduler.rs:119 | `notified()`: consumes a stored permit or waits |
| `Deadline`, `Timeout` | src/scheduler.rs:215-229 | the window ends, between pops or while parked |
| `DispatchNext` | src/scheduler.rs:241-258 | the head of the batch is skipped, sent, or waits for a slot |
| `Answer`, `Deliver` | src/scheduler.rs:270-279 | the backend's result; the reply goes into the channel, or is dropped |
| `Receive` | src/scheduler.rs:163-164, src/lib.rs:192 | the handler gets the reply; on an error its lease is dropped |
| `Forward`, `StreamEnd` | src/lib.rs:239-271, 208 | a chunk is counted; the body, or a reply that cannot be parsed, is dropped |
| `BodyRead`, `Settle` | src/lib.rs:208-212 | the whole reply is read: slot freed, tokens recorded, lease dropped |

## Where code and documentation differ

The model follows the code; the theorems named here say what holds of it.

- `src/tenants.rs:5-6` and `57`: "requests this tenant has in the system" is not
  what `max_concurrent` bounds. When a client hangs up its lease goes back at
  once while its request stays queued, batched or at the backend. For a given
  tenant the promise is kept in all reachable states if and only if its limit is
  zero, the queue has no room, or there is no window, slots are limited and its
  limit is no less than queue depth plus slots
  (`GatewayLimits.ConcurrencyPromiseIff`). Below that any number up to the room
  there is can be in the system with none active
  (`GatewayLimits.HangUpsEvadeTheLimit`). The promise is kept in every run without
  hang-ups (`GatewayLimits.PatientClientsWithin`), and in general up to the number
  of abandoned requests (`GatewayLimits.ConcurrencyBound`).
- `src/tenants.rs:187-189`: a refused request has no side effects when clock
  readings are ordered (`Refusals.RefusalsUnobservable`). `now` is read before
  the lock is taken, so readings can come out of order, and a refusal refills the
  buckets that it looks at. `Refusals.RefusalLeavesNoTrace` says exactly when a
  later request leaves the account as it would have without the refusal,
  `Refusals.RefusalNoticed` exactly when it is answered otherwise;
  `Refusals.RefusalEarnsTokens` and `Refusals.RefusalsEarnRate` are histories of
  requests alone in which one is let in by refusals, past the token budget and
  past the rate.
- `ROADMAP.md:151`: "never overshoots" holds up to what single requests use
  beyond their reservations (`TokenBudget.BudgetNeverOvershoots`), and no less
  slack will do (`TokenBudget.OvershootIff`).
- `src/scheduler.rs:268-269`: on an error the slot is not dropped at the end of
  the function: `Result::map` drops the closure that owns it before the reply is
  sent. The model frees the slot at `Answer`.
- `src/scheduler.rs:205-207`: with a batching window requests are "in limbo"
  after all, without any bound (`GatewayLimits.SystemBoundIff`).
- `src/fairqueue.rs:86-88`: the bound on rotations uses the smallest weight; the
  largest suffices (`FairQueues.PassedTurnsBounded`).
- `src/lib.rs:284`: a token on a line longer than `MAX_PARTIAL` can be missed, and
  one can be counted that is not there, depending on how the stream is split.
  `Frames.CountRange` and `Frames.RangeAttained` give the exact range of the
  count, `Frames.ChunkingExactIff` the streams for which no split changes it.

## Model

| member | source | states |
|---|---|---|
| Tenants.Bucket.Refill | src/tenants.rs:116-122 | the object's new state is the lazily refilled value: earns for elapsed time only, capped, and the last touch moves to `now` even when the clock has stepped back |
| Tenants.Bucket.Full | src/tenants.rs:102-109 | a new bucket is full and was last touched at `now` |
| Tenants.Tenant.FromConfig | src/tenants.rs:141-158 | a new tenant has the fresh account: burst of one second and at least one request, a minute of tokens, nobody active; `Openings.AllAdmittedIff` and `Openings.ReplyAfterOpening` say what its requests are answered |
| Tenants.Tenant.Admit | src/tenants.rs:193-218 | the account changes and the result is as `Admission` says, refusal by refusal; a lease is handed out exactly when nothing refuses, with the whole reservation and nothing used |
| Tenants.Tenant.TokensAvailable | src/tenants.rs:221-225 | reports the refilled level, and refills nothing but the token bucket |
| Tenants.Lease.constructor | src/tenants.rs:213-217 | a lease names its tenant and reservation, with nothing used |
| Tenants.Lease.RecordTokens | src/tenants.rs:252-254 | adds to the tokens used and to nothing else |
| Tenants.Lease.Drop | src/tenants.rs:257-268 | the tenant's account is settled: one less active, tokens refilled, then refunded or charged the difference, capped; `TokenBudget.ReservationCostsUse` says what the request has cost |
| TenantHistory.RefillBounds | src/tenants.rs:116-122 | a refill never lowers a level and never exceeds the capacity, whatever the clock does |
| TenantHistory.StepSums | src/tenants.rs:193-268 | what each event does to live leases, tokens reserved, tokens used and excess over reservations |
| TenantHistory.DropNeverSaturates | src/tenants.rs:261 | the saturating subtraction takes exactly one, always: a live lease is counted |
| TenantHistory.StepInv | src/tenants.rs:193-268 | every event keeps: active is the number of live leases and at most the limit, the request level is in [0, capacity], the token level is at most the capacity and at least minus the excess |
| TenantHistory.AfterInv | src/tenants.rs:193-268 | the same after every history |
| TenantHistory.FreshInv | src/tenants.rs:141-158 | it holds of every new account with a positive rate |
| TokenBudget.StepBook | src/tenants.rs:193-268 | one event: level, reservations and charges change by exactly the refill earned less the credit above the capacity, given by the levels alone |
| TokenBudget.BooksBalance | src/tenants.rs:116-268 | conservation over every history and every clock: level + reserved + used + spilled = start + rate × (elapsed time + backward clock movement) |
| TokenBudget.ExactUnlessCutOff | src/tenants.rs:116-268 | over every history and every clock: level + reserved + used = start + rate × time exactly if and only if no refill and no refund met a full bucket; no other credit is lost or gained |
| TokenBudget.ReservationCostsUse | src/tenants.rs:263-267 | reserve, use, settle: a request leaves the account as if it had reserved just what it used, however much it reserved and however long it took; what it used beyond its reservation is charged after the refill |
| TokenBudget.BudgetNeverOvershoots | src/tenants.rs:193-268 | use plus outstanding reservations exceed capacity plus refill at most by what single leases used beyond their reservation; without such excess never, and the level is never negative |
| TokenBudget.ExcessFree | src/tenants.rs:263-267 | the excess is zero exactly when no settled lease used more than it reserved |
| TokenBudget.ExcessIsAttained | src/tenants.rs:263-267 | for every configuration and every excess a history that overshoots by exactly it |
| TokenBudget.OvershootIff | src/tenants.rs:193-268 | histories with at most a given excess never overshoot by more than a given slack if and only if the slack is no less than the excess |
| RateLimit.RunConforms | src/tenants.rs:200-211 | in every interval, requests admitted plus credit left fit into burst plus rate since its start, with ordered clock readings |
| RateLimit.RateConformance | src/tenants.rs:147-153 | in every interval of every history at most max(rps, 1) + rps × length requests are admitted, however many leases are dropped |
| RateLimit.StepRate | src/tenants.rs:200-211 | one event: an admission takes exactly one request credit, nothing else takes or returns any, and the refill is exact up to the capacity |
| RateLimit.RateBooksBalance | src/tenants.rs:116-211 | conservation of request credit over every history and every clock: admitted + level + spilled = start + rate × (elapsed time + backward movement) |
| RateLimit.AdmissionsCovered | src/tenants.rs:116-211 | over every history and every clock, admissions plus credit left are covered by the credit at the start plus the rate over elapsed time and backward movement; the level stays in [0, capacity] |
| RateLimit.RefusedWhenSpent | src/tenants.rs:197-209 | over every history and every clock the answer to a request is the one that the balance of the history says: refused if and only if the live leases, the requests admitted, or the tokens reserved and used leave no room, in that order |
| RateLimit.AdmittedAreLeases | src/tenants.rs:213-217 | admitted requests are the leases handed out |
| RateLimit.WithinAllowance | src/tenants.rs:193-268 | with ordered readings, by any time a tenant's tokens in use and reserved, and its requests, are within budget and rate for the time elapsed |
| Openings.AllAdmittedIff | src/tenants.rs:147-153 | for every configuration: requests that come at once are all admitted if and only if their number is at most max(rps, 1) and the concurrency limit and their tokens at most tokens per minute |
| Openings.ReplyAfterOpening | src/tenants.rs:116-218 | for every opening that fits and every later time the next reply exactly: what is left has grown by rps × time and tpm / 60 × time, up to burst and budget |
| Refusals.RefillsCompose | src/tenants.rs:116-122 | touching a bucket on the way to a later touch leaves no trace if and only if it happens in order, or the bucket is full anyway, or never refills |
| Refusals.RefusalLeavesNoTrace | src/tenants.rs:185-207 | for the whole account: a later request leaves it as it would have without the refusal if and only if each bucket that the refusal touched swallows the touch (in order, or full anyway, or never refilling), and a token bucket that the later request does not reach had last been touched at that time anyway |
| Refusals.RefusalNoticed | src/tenants.rs:185-207 | the next request is answered otherwise if and only if the time earned twice lifts the first bucket that would have refused it over what it asks for; a refusal never causes another |
| Refusals.RefusalsUnobservable | src/tenants.rs:185-218 | with ordered readings, deleting all refused requests from a history leaves it possible, changes no other reply, and leads to indistinguishable accounts |
| Refusals.RefusalEarnsTokens | src/tenants.rs:194-207 | a history of requests with an out-of-order reading in which a refusal lets a later request past the token budget |
| Refusals.RefusalsEarnRate | src/tenants.rs:194-203 | one in which refusals let a later request past the rate limit |
| FairQueueSpec.CreditIs | src/fairqueue.rs:93-96 | `r` turns without being served add `r` times the weight to a tenant's credit |
| FairQueueSpec.Need | src/fairqueue.rs:93-98 | the number of turns a tenant needs: it can pay then and could not one turn earlier |
| FairQueueSpec.NeedIsLeast | src/fairqueue.rs:93-98 | a tenant can pay after `r` turns if and only if `r` is at least its need |
| FairQueueSpec.Winner | src/fairqueue.rs:89-121 | the first position in rotation order of a tenant with the least need: all before need more, none needs less |
| FairQueueInvariant.PushWellFormed | src/fairqueue.rs:60-82 | a push keeps: rotation without duplicates and with the queues' keys, no empty queue, length the sum of the queues and within capacity, credits in [0, 1) outside a turn |
| FairQueueInvariant.PushKeeps | src/fairqueue.rs:60-82 | for any weight: a push keeps the invariant if and only if it is rejected, its tenant is active already, or the weight is positive |
| FairQueueInvariant.PopWellFormed | src/fairqueue.rs:85-122 | a pop keeps all that and returns an item exactly when something is queued: neither early return nor an empty queue is met |
| FairQueueInvariant.WinnerPaysFirst | src/fairqueue.rs:89-121 | the tenant of the closed form is the first to reach one credit, in its round |
| FairQueueInvariant.FirstToPayUnique | src/fairqueue.rs:89-121 | position and round of the first to pay are determined |
| FairQueueInvariant.GrantedCredit | src/fairqueue.rs:93-96 | tenants up to the one served gain `m` turns of credit, those behind it `m - 1` |
| FairQueueInvariant.PopServes | src/fairqueue.rs:98-116 | a pop serves the front of the granted queue, which can pay while nobody else can |
| FairQueues.FairQueue.constructor | src/fairqueue.rs:40-48 | a new queue is valid and empty |
| FairQueues.FairQueue.Len | src/fairqueue.rs:50-52 | the length field is the number of items waiting, summed over the tenants |
| FairQueues.FairQueue.IsEmpty | src/fairqueue.rs:54-56 | true exactly when no tenant is active |
| FairQueues.FairQueue.Push | src/fairqueue.rs:60-82 | for any weight, new state and result are those of the value `Push`; the invariant is kept exactly when no tenant without a positive weight comes in; `Fairness.JoinsWithoutCredit` says what a newcomer holds |
| FairQueues.FairQueue.StartTurn | src/fairqueue.rs:93-96 | credit once per turn |
| FairQueues.FairQueue.ServeFront | src/fairqueue.rs:98-116 | one item for one credit; the tenant leaves when empty, goes to the back when short of credit, else keeps its turn |
| FairQueues.FairQueue.PassTurn | src/fairqueue.rs:118-120 | the next tenant comes to the front, its turn not begun |
| FairQueues.FairQueue.TakeTurns | src/fairqueue.rs:89-121 | the loop: from any state from which it ends with a result, it ends with that result |
| FairQueues.FairQueue.Pop | src/fairqueue.rs:85-122 | the loop terminates in the state and with the item of the closed form, and keeps the invariant |
| FairQueues.GrantAdvanced | src/fairqueue.rs:93-96 | the state after whole rounds and some further turns, and one more credit, is the granted queue |
| FairQueues.PassAdvanced | src/fairqueue.rs:118-120 | passing the turn on leads to the next position, or to the next round |
| FairQueues.LoopIsPop | src/fairqueue.rs:89-121 | iterating the loop body from any well-formed queue ends, and ends in the closed form |
| FairQueues.PassedTurnsBounded | src/fairqueue.rs:86-88 | the exact number of turns passed on, and that it is below tenants × ceil(1 / weight) for every active tenant's weight, so for the largest |
| FairQueueHistory.PushEffect | src/fairqueue.rs:60-82 | accepted exactly below capacity, at the back of its own tenant's queue and nobody else's; a rejected push returns the item and changes nothing |
| FairQueueHistory.PopEffect | src/fairqueue.rs:98-115 | a pop takes the first item of the tenant served and no other |
| FairQueueHistory.TenantFifo | src/fairqueue.rs:60-122 | over every history and for every tenant: waiting + accepted = popped + still waiting, in order, across deletion and re-creation of its entry |
| FairQueueHistory.SimulationStep | src/fairqueue.rs:60-122 | with one key every operation answers like a bounded sequence and keeps the simulation relation |
| FairQueueHistory.SharedKeyIsFifo | src/fairqueue.rs:60-122 | with one key the queue refines a bounded first-in-first-out queue: the same answers over every history, for any positive weights |
| Fairness.LightPop | src/fairqueue.rs:89-121 | with weights at most 1, rotation, tenants and every tenant's entry after a pop; no turn stays open |
| Fairness.AfterLight | src/fairqueue.rs:103-113 | with weights at most 1 no turn is ever open between calls, so nobody banks a full credit |
| Fairness.CreditConserved | src/fairqueue.rs:93-99 | for any positive weights, over every window in which a tenant stays queued: credit at the end = credit at the start + turns × weight − items served |
| Fairness.JoinsWithoutCredit | src/fairqueue.rs:67-79 | from the push that brings a tenant in, as long as it stays queued: its credit is turns × weight − items served, and it is served at most turns × weight; nothing from an earlier stay counts |
| Fairness.StayWithinTurns | src/fairqueue.rs:67-109 | the same bound over its whole stay, the pop that empties its queue included |
| Fairness.NewcomerNeed | src/fairqueue.rs:67-98 | a newcomer is not served before its ceil(1 / weight)-th turn: a paid one in its first, a free one in its second |
| Fairness.TurnsInStep | src/fairqueue.rs:89-121 | two tenants that stay queued are given the same number of turns, up to which of them is ahead in the rotation |
| Fairness.ShareFollowsTurns | src/fairqueue.rs:89-121 | a tenant's share per weight is within 1/weight of its turns |
| Fairness.WeightedFairness | src/fairqueue.rs:3-8 | over every window in which two tenants stay queued, whatever else is pushed and popped, their shares per weight differ by less than 1 + 1/w + 1/w' |
| Fairness.TierCreditStep | src/tenants.rs:33-38 | between calls a paid tenant holds no credit and a free one none or a half; served turn for turn, or every second turn up to one |
| Fairness.AfterInTiers | src/tenants.rs:33-38 | the same in every queue that histories with the tiers' weights reach |
| Fairness.TierFairness | src/fairqueue.rs:6-8 | in every window: paid and free shares satisfy \|paid − 2·free\| ≤ 2, and two tenants of one tier differ by at most 1 |
| Fairness.NeedAfterTurns | src/fairqueue.rs:93-96 | turns that do not suffice are deducted from the need |
| Fairness.PopShortensWait | src/fairqueue.rs:89-121 | every pop that serves another tenant strictly shortens a tenant's wait, even when it empties and others rejoin |
| Fairness.WaitRunsOut | src/fairqueue.rs:89-121 | while a tenant's queued items last, every pop is paid for by its wait or by one cycle for each of its items served |
| Fairness.BoundedWaitAt | src/fairqueue.rs:10-13 | the item at depth d of a tenant's own queue is out after the tenant's wait, d cycles (a service and a full wait from the back) and one pop more, when at most n tenants are active, whatever is pushed and however deep the backlogs |
| Fairness.BoundedWait | src/fairqueue.rs:10-13 | its first item is out after its position + (need − 1)(n − 1) + 1 pops |
| Fairness.FullWeightWait | src/fairqueue.rs:10-13 | a weight-1 tenant at rotation index p is served by pop p + 1, with no bound on tenants or backlogs |
| Frames.CountLineMeans | src/lib.rs:308-314 | byte by byte: a line counts exactly when it starts with `data:` and does not go on with `[DONE]` and white space alone; a carriage return at its end makes no difference |
| Frames.OneLine | src/lib.rs:290-299 | a line counts when its newline comes, and not before |
| Frames.KeptUpTo | src/lib.rs:284-303 | of a line without its end 64 KiB are kept; a longer one is dropped |
| Frames.FrameCounter.constructor | src/lib.rs:277-281 | a new counter has no partial line |
| Frames.FrameCounter.Feed | src/lib.rs:287-305 | the loop returns and keeps what the recursive scan of the chunk says, and the carried line never exceeds `MAX_PARTIAL` |
| Frames.ChunkRange | src/lib.rs:287-305 | one chunk: the count lies between the least and the most of the lines it ends, and from what is kept of the current line nothing can come that no split of that line leaves |
| Frames.CountRange | src/lib.rs:287-305 | for every split into chunks the total lies between the sum of the least and the sum of the most that splits make of each line |
| Frames.RangeAttained | src/lib.rs:287-305 | for every stream some split reports the least, and some the most |
| Frames.ChunkingExactIff | src/lib.rs:287-305 | no split changes the count if and only if every terminated line longer than `MAX_PARTIAL` is inert: no way to cut it into kept and dropped pieces leaves a line that counts |
| Frames.ChunkingDoesNotMatter | src/lib.rs:273-305 | the total equals the whole stream's count when no line exceeds `MAX_PARTIAL`, and differs at most by the number of such lines |
| Frames.OneChunk | src/lib.rs:287-305 | a stream in one piece is counted exactly, whatever its lines |
| Frames.LongDataCounts | src/lib.rs:301-313 | a long line with the prefix is never inert, even when it is an end marker |
| Frames.LongEndCounts | src/lib.rs:301-313 | a line is not inert when its end counts by itself behind more than the buffer holds |
| Frames.NoColonNeverCounts | src/lib.rs:308-314 | a line without a colon is inert |
| Frames.NeverMissedIff | src/lib.rs:301-303 | no split misses a token if and only if no terminated line longer than `MAX_PARTIAL` carries one |
| Frames.NeverAddedIff | src/lib.rs:301-303 | no split adds a token if and only if every terminated line longer than `MAX_PARTIAL` carries one or is inert |
| Frames.TokenCanBeInvented | src/lib.rs:301-303 | a concrete stream without tokens and a split for which one is counted |
| GatewayInvariant.InitialInv | src/scheduler.rs:170-178 | the invariant holds when the gateway starts |
| GatewaySteps.ArriveKeeps | src/lib.rs:182 | an admission, or a refusal, keeps the invariant |
| GatewaySteps.SubmitKeeps | src/scheduler.rs:144-160 | a push keeps it, and so does a full queue, which ends the lease; which queue it goes to is the subject of `GatewayFifo.FirstInFirstOut` |
| GatewaySteps.NotifyKeeps | src/scheduler.rs:161 | a notification keeps it: the handler's pending wakeup becomes a stored permit or a woken waiter |
| GatewaySteps.HangUpKeeps | src/scheduler.rs:24-31 | a hang-up at any waiting point keeps it: lease, and slot if the handler owns one, are returned once |
| GatewaySteps.PopHolds | src/scheduler.rs:102-107 | a pop hands over a queued request, and queue and requests still say the same |
| GatewaySteps.PopKeeps | src/scheduler.rs:114-121 | a pop, with or without a request, keeps the invariant |
| GatewaySteps.ParkKeeps | src/scheduler.rs:119 | consuming a stored permit, or parking, keeps it: no queued request is left behind |
| GatewaySteps.TimeoutKeeps | src/scheduler.rs:220-226 | cancelling `next()` while parked keeps it |
| GatewaySteps.DispatchKeeps | src/scheduler.rs:241-258 | skipping, sending, or starting to wait for a slot keeps it |
| GatewaySteps.SendHeadKeeps | src/scheduler.rs:249-257 | a request goes to the backend once, with its own slot or one just taken |
| GatewaySteps.AnswerKeeps | src/scheduler.rs:270-273 | the backend's answer keeps it; an error frees the slot; what becomes of the answer is the subject of `GatewayReplies.RepliesAreAnswers` |
| GatewaySteps.DeliverKeeps | src/scheduler.rs:275-279 | delivery keeps it; a reply to nobody frees the slot |
| GatewaySteps.ReceiveKeeps | src/lib.rs:190-198 | receiving keeps it: slot and lease go on together, or the lease ends |
| GatewaySteps.BodyReadKeeps | src/lib.rs:208-212 | the slot is freed before the lease is dropped |
| GatewaySteps.StepKeeps | src/scheduler.rs:96-280 | every step that is possible keeps the whole invariant |
| GatewaySafety.RunInv | src/scheduler.rs:96-280 | the invariant holds at every point of every run that starts in a state with it |
| GatewaySafety.ReachableInv | src/scheduler.rs:96-280 | the invariant holds in every reachable state |
| GatewaySafety.ExactAccounting | src/scheduler.rs:134-280 | in every reachable state each accepted request is in exactly one of its key's queue, the batch, the log of requests sent, or skipped; each once; skipped only after a hang-up |
| GatewaySafety.RequestsMoveForward | src/scheduler.rs:134-280 | in every step a request stays or moves forward: none is lost, none is sent twice, sent or skipped only out of the batch, skipped only if its client had gone |
| GatewaySafety.NobodyWaitsForNothing | src/scheduler.rs:163-166 | a waiting handler's request is queued, batched, at the backend or answered: no handler is told that the scheduler is gone |
| GatewaySafety.NoLostWakeup | src/scheduler.rs:109-121 | if the scheduler is parked and something is queued, it has been woken, or some handler is between push and notification, which will wake it |
| GatewaySafety.TimeoutLosesNoWakeup | src/scheduler.rs:220-226 | a window that times out passes on the notification that it was given |
| GatewaySafety.WakeupsAddUp | src/scheduler.rs:109-121 | wakeups come from notifications alone, at most one from each and never none left, and one is used up each time the scheduler wakes or does not park |
| GatewaySafety.NoSlotWhileWaiting | src/scheduler.rs:208-258 | the scheduler holds no slot while it waits for one, so no batch can block itself |
| GatewaySafety.InSystemBound | src/scheduler.rs:33-50 | permits are conserved: free ones, the scheduler's and the requests outside the queue add up to the limit plus the batch entries without a slot; without a window, queue and backend hold at most depth plus limit |
| GatewaySafety.LiveHandlersLimited | src/tenants.rs:197-211 | a tenant's `active` is the number of its live handlers, wherever their requests are, and at most its limit |
| GatewayProgress.NoDeadlock | src/scheduler.rs:196-260 | while a request is not settled, some step of the gateway, the backend or the timer is possible |
| GatewayProgress.StepDecreases | src/scheduler.rs:96-280 | every step but an arrival or the forwarding of a chunk decreases a measure |
| GatewayProgress.EveryRunSettles | src/scheduler.rs:96-280 | a run without arrivals has at most 80 steps a request and 25 more, chunks aside, in any order; one that only clients can continue has settled every request |
| GatewayProgress.EveryRunCompletes | src/scheduler.rs:96-280 | every run can be continued, by the gateway and a backend that answers, until every request is settled |
| GatewayTenants.StepIsEvent | src/lib.rs:169-271 | each step is, for each tenant, one event of its account or none |
| GatewayTenants.RunIsHistory | src/lib.rs:169-271 | refinement: in every run each tenant's account and leases are what the tenant model makes of that tenant's history |
| GatewayTenants.TenantWithinAllowance | src/tenants.rs:3-7 | in every run with ordered clock readings, each tenant's tokens reserved and used, and its admitted requests, are within budget and rate, however requests are interleaved, abandoned or cut off |
| GatewayFairness.PopIsOp | src/scheduler.rs:102-107 | the scheduler's pop takes a request of the tenant whose turn it is |
| GatewayFairness.RunIsQueueHistory | src/scheduler.rs:90-94 | refinement: in every run the queue goes through a history of pushes and pops |
| GatewayFairness.KeysInOrder | src/scheduler.rs:144-160 | in every run the requests of a key leave the queue in the order in which they entered it: entered = left + still queued |
| GatewayFairness.ReachableTiered | src/tenants.rs:33-38 | in every reachable state every tenant is queued with its tier's weight and holds no more credit than its tier allows |
| GatewayFairness.TenantsShareFairly | src/fairqueue.rs:6-13 | in every window of every run two tenants with something queued throughout get requests out 2 : 1 up to two (paid to free) or 1 : 1 up to one (same tier) |
| GatewayFairness.EveryRequestLeaves | src/fairqueue.rs:10-13 | in every run every queued request, at any depth of its key's queue, has left the queue after its key's wait, one cycle for each request before it, and one pop more |
| GatewayFairness.PaidRequestLeaves | src/fairqueue.rs:10-13 | in every run a paid tenant's first request has left the queue after one pop more than tenants are ahead of it in the rotation |
| GatewayOrder.DispatchDecides | src/scheduler.rs:241-257 | at dispatch a request is skipped if and only if its client has hung up, its slot then being freed; it is sent if and only if the client is there and a slot came with it; otherwise nothing changes until there is a slot |
| GatewayOrder.AwaitedIsSent | src/scheduler.rs:249-257 | a request that has waited for a slot is sent with it, even if its client has hung up meanwhile |
| GatewayOrder.StepAdvances | src/scheduler.rs:211-258 | every step keeps the sequence "sent, then batched" up to appending the request popped or taking out the one skipped |
| GatewayOrder.SentInOrder | src/scheduler.rs:211-258 | in every run, what was sent followed by the batch is exactly what the queue let go, in that order, without the skipped: batching and waiting for slots reorder, drop and repeat nothing |
| GatewayFifo.FirstInFirstOut | src/scheduler.rs:129-161 | in every run the requests accepted, in the order of their submission over all tenants (with fair queueing: over each tenant), are those that left the queue, in that order, and then those still queued |
| GatewayFifo.SentInArrivalOrder | src/scheduler.rs:129-148 | with one shared queue, in every run: sent, then batch, then queue are all tenants' requests in the order in which they were accepted, without the skipped |
| GatewayFifo.SharedQueueWeighsOne | src/scheduler.rs:144-148 | in that mode every reachable queue has at most the one shared key, with weight 1 |
| GatewayReplies.RepliesAreAnswers | src/scheduler.rs:262-280 | in every run and at every point: a request has a reply exactly when the backend has answered it, the reply is that answer, its handler serves it if and only if it was a success, and goes without one only if its client hung up or the queue was full |
| GatewayReplies.AnsweredOnce | src/scheduler.rs:270-273 | the backend answers a request at most once, and only one that was sent |
| GatewayReplies.ReceiptDecides | src/lib.rs:190-198 | on receipt of the reply the handler goes on to serve it if the run's answer to its request was a success, and ends if it was an error |
| GatewayReplies.PatientClientIsAnswered | src/scheduler.rs:163-166 | a client that does not hang up and is not turned away gets the backend's answer, and is served exactly when it was a success |
| GatewayReplies.AnyAnswerCanCome | src/scheduler.rs:270-273 | in every reachable state the backend may answer a request it works on either way |
| GatewayReplies.AnyUseCanCome | src/lib.rs:257 | in every reachable state a reply may bring any number of tokens |
| GatewayReplies.AnyClientCanLeave | src/tenants.rs:236-237 | in every reachable state a waiting or served client may go, and its account is settled with what it used |
| GatewayReplies.AnyRequestCanArrive | src/lib.rs:182 | in every reachable state any tenant may send any request, and its account alone decides |
| GatewayReplies.EveryRequestCanBeServed | src/scheduler.rs:196-280 | however a run has gone, a request whose handler is there, which is in the queue or for which the queue has room, and for which the backend has not failed, can still be served, with no client hanging up and every other request settled too |
| GatewayLimits.ConcurrencyBound | src/tenants.rs:5-6 | a tenant's requests in the system are at most its limit plus those whose client has hung up |
| GatewayLimits.PatientClientsWithin | src/tenants.rs:5-6 | in every run without hang-ups they are at most its limit |
| GatewayLimits.HangUpsEvadeTheLimit | src/tenants.rs:57-58 | for every tenant with any limit but zero, and every number for which the gateway has room (any number with a window or unlimited slots), a reachable state with that many of its requests in the system and none active |
| GatewayLimits.ConcurrencyPromiseIff | src/tenants.rs:57-58 | for every tenant configuration: its requests in the system never exceed its limit in any reachable state if and only if the limit is zero, the queue has no room, or there is no window, slots are limited and the limit is at least queue depth plus slots |
| GatewayLimits.WindowOverflows | src/scheduler.rs:223-227 | inside a window any number of requests can be out of the queue, with any slot limit |
| GatewayLimits.SystemBoundIff | src/scheduler.rs:200-207 | queue and backend hold at most depth plus limit in all reachable states if and only if there is no window, or nothing can be accepted |

## Left out

- HTTP, routing, `reqwest`, JSON and body parsing: a backend answer is an arbitrary success or error, a chunk an arbitrary number of tokens.
- Authentication, the tenants file and key lookup (`Tenants::load`, `from_configs`, `resolve`, `bearer`): only the positive rate that `from_configs` checks is used, as a precondition.
- Anonymous mode and its infinite buckets.
- Metrics, tracing and error bodies: no effect on the modelled state.
- Floating-point rounding: levels, weights, credits and instants are real numbers. The queue's numbers (halves and ones) are exact in `f64`; the bucket theorems are about the real-number reading.
- Fixed-width integers: `used`, `active` and lengths are unbounded; overflow of `used` is not modelled.
- Tokio: `Notify` is taken as one stored permit and one waiter that hands its notification on when it is dropped, the semaphore as a count of permits granted in any order. Closing the semaphore, panics and mutex poisoning do not occur.
- The scheduler's loops as loops: `run`, `next` and `submit` are atomic steps on a value, not methods; the place in the code is a field of the state.
- The window's length: a window may end after any number of pops, and a parked scheduler may time out at any moment.
- Wall-clock latency and throughput; the weak scheduling fairness of the runtime (progress is stated as a bound on steps and the absence of deadlock).
- FairQueues.FairQueue.Pop: requires the invariant, and so positive weights. With others the original's `pop` need not end, as its comment says; all tiers have positive weights.
- RateLimit.RateConformance: assumes ordered clock readings; `RateLimit.AdmissionsCovered` is the statement for any clock.
- GatewayTenants.TenantWithinAllowance: assumes ordered clock readings; with `GatewayTenants.RunIsHistory` the statements for any clock hold of each tenant's history.
- GatewayProgress.EveryRunSettles: does not count forwarded chunks, since a backend may stream for ever.
