# MikroLLM gateway: a verified model

MikroLLM is a gateway in front of language-model backends. This project models, in Dafny 4.11, the parts of
it where state, concurrency or parsing make mistakes easy, and proves what those parts are relied on for.

| files | what they model |
|---|---|
| `QueueModel`, `QueueSlots`, `QueueFifo`, `QueueWakeup` | the request queue as a step system: any number of handlers, dispatchers, workers and droppers, one mutex section or one unlocked shared statement a step; and what every run keeps |
| `QueueSteps`, `QueueProgress`, `QueueAwake`, `QueueOvertaking`, `QueueDrops`, `QueueRuns` | what can still happen from a reachable state: a dispatcher's progress, overtaking, starts of dropped jobs; and runs that show it |
| `QueueEngine` | the queue's methods run without interference, as a class over mutable waiters |
| `Mailbox`, `MailboxLimits`, `MailboxReplies`, `MailboxBox` | the agent mailbox: pushers, long-polling takers, repliers and cancellers, as a step system, where its promises hold, and the class that takes the steps |
| `ChatModel`, `ChatPrint`, `ChatResult` | the completion parser, its stream of chunks, and the two printers that feed it again |
| `UsageScanner`, `PassThrough` | the incremental usage scanner, and the three ways an upstream answer is passed on |
| `RateLimit` | the fixed-window limit on requests per minute |
| `Fallback`, `Connections` | forwarding along fallback aliases, and connection counts under any interleaving |
| `GuardModel`, `GuardApply`, `GuardDocument` | the content guard: leafwise walk, decision, and the document changed in place |
| `Billing`, `BillingView`, `BillingStore` | the hourly table, the view over periods, and the store that fills the table and recovers it from the log |
| `Jobs`, `JobTracker` | background jobs and the writer that reads their progress |
| `Json`, `Text`, `Wrappers` | values, lines and trimming, options |

State that the source updates in place is a class here, and each of its methods is proved against a
specification function or predicate; the properties are then lemmas about those, over every input, run or
reachable state.

## What the proofs found

- **Queue numbers can repeat.** A new number is the largest in the table plus one. When a purge removes the
  newest row of a queue the count restarts, and two jobs of one queue get the same number
  (`QueueRuns.PurgeRestartsNumbers` is a run that does it). Numbers increase in order of arrival if and only
  if each arrival finds a row at least as high as every earlier number of its queue
  (`QueueFifo.NumbersFollowArrival`). Either way a job that was registered before another of its queue arrived
  starts before it (`QueueFifo.StartsInArrivalOrder`).
- **A later arrival can start first, exactly while an earlier one waits to be registered.** A row is inserted before
  its waiter is registered, in two separate steps, and the model keeps them apart. From every reachable state, a job
  that arrives now at a queue with a step can start before an earlier one of that queue if and only if the queue
  holds an arrival that is not registered yet (`QueueOvertaking.CanOvertakeIff`; `QueueRuns.LateRegistrationStartsLate` is such a run, without
  a purge). When no other job of its queue arrives in between, starts are in order of number if and only if,
  whenever a job arrives that is to start, the table has a row at least as high as each earlier such job of its
  queue (`QueueFifo.SeqOrderIff`).
- **A dropped job may run.** The dropper takes the waiter off the list under the lock and writes the status only
  afterwards. In between the job can be committed if and only if a dispatcher has it picked, or in a snapshot with
  a free step (`QueueDrops.RemovedStillCommitsIff`). `QueueRuns.DroppedJobRuns` ends with the handler gone after its
  timeout and the worker still forwarding; the source has both of them answer (internal/queue/engine.go:202-203 and
  302-329).
- **The rate limit allows up to 2·RPM − 1 grants in a minute, no more.** The bound is reached
  (`RateLimit.BoundIsReached`).
- **The mailbox keeps order unless a connection is opened while a message sits in another one's channel**, and
  that is exact: a run is safe at every point, whatever follows short of another connection, if and only if
  it never does so (`MailboxLimits.OrderIffCalm`, and for one more connection `MailboxLimits.TakeIsSafeIff`).
  A second connection that is turned away as busy does no harm. `MailboxLimits.OverlapBreaksOrder` is a run
  that fails.
- **A call that was put back after a timeout can no longer be cancelled**: it has lost its reply channel, and a
  queued call survives its cancellation exactly when it has none (`MailboxLimits.SurvivesCancelIff`,
  `MailboxLimits.PutBackSurvivesCancel`).
- **An eviction can forget the wrong caller.** A push leaves every caller waiting but the one under the id of the
  call it evicts (`MailboxReplies.CallerStaysIff`). When two calls shared that id, the forgotten caller can be the
  one that is pushing (`MailboxReplies.EvictionForgetsNewCaller`) or one whose call is still queued
  (`MailboxReplies.EvictionForgetsQueuedCaller`). While no id is pushed twice it is never another than the evicted
  one (`MailboxReplies.NoWrongCaller`). Over whole runs, who waits under an id is exactly the caller that entered
  itself last, if no answer, cancellation or eviction under that id came since (`MailboxReplies.CallerWaitsIff`).
- **Billing can count an hour twice.** For any bounds whose buckets are not empty and begin in order, each hour lands
  in exactly one bucket, and totals are right for every history of calls, if and only if each bucket begins with
  the hour at which the one before it stops (`BillingView.EachHourOnceIff`, `BillingView.ViewCountsRightIff`). A day of 24 hours and a half breaks
  that (`BillingView.HalfHourDay`), and so does a day whose midnight is skipped, although all its bounds are on
  the hour (`BillingView.SkippedMidnight`).
- **A chunk with `"usage": null` overwrites an earlier usage** (`ChatModel.NullUsageOverwrites`): a line leaves the
  usage as it is exactly when its chunk has no such member (`ChatModel.UsageStaysIff`).

## Model

| member | source | states |
|---|---|---|
| QueueModel.PickStepIsFirst | internal/queue/engine.go:259-275 | the picked step is the first of the queue that is below its cap in the snapshot and routable; nothing is picked exactly when no step is both |
| QueueModel.StepEvolves | internal/queue/engine.go:110-361 | no step of any thread takes back a commit, a close, a registration or a removal, or gives a started job another model |
| QueueModel.StepKeepsBasic | internal/queue/engine.go:110-361 | every step keeps the program-point invariant of all threads and the per-job invariant (at most one commit, `closes` is 1 exactly when `done`) |
| QueueSlots.SlotConservation | internal/queue/engine.go:235-255 | in every reachable state `inflight[m]` is the number of threads between commit and finish on `m`, and never exceeds the largest cap of a step that names `m` |
| QueueSlots.HoldersStep | internal/queue/engine.go:331-338 | which slot each single step takes, gives up or hands from a dispatcher to its worker |
| QueueSlots.StepKeepsCap | internal/queue/engine.go:235-247 | a step keeps every counter within some step's cap although the pick was made on a stale snapshot |
| QueueSlots.CommittedOnce | internal/queue/engine.go:235-250 | no waiter is ever committed twice, in any interleaving of dispatchers with stale snapshots |
| QueueSlots.FinishGuardNeverNeeded | internal/queue/engine.go:331-338 | whenever a worker finishes, the counter of its model is positive and goes down by exactly one |
| QueueSlots.NoStrandedHandler | internal/queue/engine.go:195-207 | a registered waiter that has left the waiting list has `done` closed, or some thread still owes the close; `done` is closed at most once |
| QueueSlots.StepKeepsClosers | internal/queue/engine.go:302-361 | a step keeps "closed or someone owes the close" for every job |
| QueueSlots.CloserCloses | internal/queue/engine.go:331-361 | the thread that owes the close can always take its steps, and closes within six of them |
| QueueSlots.BlockedHandlerCanReturn | internal/queue/engine.go:204-206 | from every reachable state a handler blocked on `done` can be released within six steps |
| QueueFifo.SnapshotTakesOldest | internal/queue/engine.go:277-300 | the waiting job with the smallest number is the oldest one registered in its queue, although numbers may restart after a purge |
| QueueFifo.StartsInArrivalOrder | internal/queue/engine.go:211-255 | of two started jobs of one queue the earlier start arrived before the later one was registered, and no job starts twice, for every interleaving |
| QueueFifo.NextNumber | internal/store/queue.go:222-226 | a new number exceeds all earlier ones of its queue if and only if the row with the largest is still in the table |
| QueueFifo.NextSeqExists | internal/store/queue.go:222-226 | every table has a next number, so an insert is always possible |
| QueueFifo.NumbersFollowArrival | internal/store/queue.go:222-235 | over a whole run, numbers increase in order of arrival if and only if every arrival found its queue's top row |
| QueueFifo.StartsAsArrived | internal/queue/engine.go:189-191 | when no job of the queue arrives between a started job's arrival and its registration, the jobs of a queue start in order of arrival |
| QueueFifo.StartsInSeqOrder | internal/queue/engine.go:211-255 | if moreover top rows are kept, they start in strictly increasing number |
| QueueFifo.AmongFollowArrival | internal/store/queue.go:222-235 | for any set of jobs: their numbers increase in order of arrival if and only if each of them, arriving, finds rows at least as high as its predecessors in the set |
| QueueFifo.SeqOrderIff | internal/queue/engine.go:211-255 | the exact condition for starts in order of number: the one above, for the jobs that start |
| QueueRuns.PurgeRestartsNumbers | internal/store/queue.go:299-343 | a run in which a purge of finished rows makes two jobs of one queue share a number |
| QueueRuns.LateRegistrationStartsLate | internal/queue/engine.go:174-191 | a run without a purge in which the second of two arrivals registers and starts first |
| QueueWakeup.NoLostWakeup | internal/queue/engine.go:189-193 | in every reachable state, a queue with a waiting job and a free routable step has a dispatcher that is active: pending, at its loop head, or holds a snapshot on which a pick succeeds |
| QueueWakeup.DispatcherMoves | internal/queue/engine.go:211-257 | such a dispatcher stays one through any of its own steps while there is work it can place |
| QueueWakeup.FreedByFinish | internal/queue/engine.go:331-342 | a step that frees a slot leaves a thread that goes on to dispatch the queue |
| QueueWakeup.JoinedByRegister | internal/queue/engine.go:189-193 | a registration that gives a queue work leaves a thread that goes on to dispatch it |
| QueueWakeup.QuietMeansDone | internal/queue/engine.go:211-257 | when no dispatcher is active, every queue is empty of waiting jobs or has no free routable step |
| QueueAwake.ActiveCommits | internal/queue/engine.go:211-257 | an active dispatcher of a queue with work, run alone, commits a waiting job of the queue within six steps, whatever snapshot or pick it holds |
| QueueAwake.WorkIsTaken | internal/queue/engine.go:189-257 | in every reachable state a queue with a waiting job and a free routable step has a thread that does so |
| QueueOvertaking.CanOvertakeIff | internal/queue/engine.go:174-191 | from every reachable state: a job arriving now at a queue with a step can start before an earlier one of that queue, with or without further arrivals, if and only if some earlier one is not registered yet |
| QueueOvertaking.OvertakenWasUnregistered | internal/queue/engine.go:189-255 | whatever happens later, a job overtaken by a new arrival was unregistered when that arrived |
| QueueOvertaking.UnregisteredIsOvertaken | internal/queue/engine.go:174-255 | from every reachable state with such a job a run without arrivals starts the new job and then that one |
| QueueProgress.FreeEnough | internal/queue/engine.go:302-342 | from every reachable state the workers on a model can run until a slot of it is free, touching no waiting job |
| QueueProgress.StartNext | internal/queue/engine.go:189-255 | a job that is about to be registered can always be made the next one to start |
| QueueDrops.RemovedStillCommitsIff | internal/queue/engine.go:344-360 | a waiter taken off the list and not yet marked can still be committed if and only if a dispatcher has it picked, or in a snapshot with a free step |
| QueueRuns.DroppedJobRuns | internal/queue/engine.go:195-203 | a run in which a handler times out and drops its job while a worker is started on it |
| QueueEngine.ExchangeSort | internal/queue/engine.go:288-294 | the exchange sort leaves the same waiters sorted by number |
| QueueEngine.SettleNext | internal/queue/engine.go:289-293 | one pass of the inner loop puts the smallest remaining waiter in place and loses none |
| QueueEngine.Engine.WaitingLocked | internal/queue/engine.go:277-300 | exactly the waiting waiters of the queue, each once, sorted by number |
| QueueEngine.Engine.CollectWaiting | internal/queue/engine.go:283-287 | the collecting loop finds each waiting waiter of the queue once and no other |
| QueueEngine.Engine.Counts | internal/queue/engine.go:363-378 | the numbers of waiting and of running waiters of the queue |
| QueueEngine.Engine.Turn | internal/queue/engine.go:217-255 | one turn of the loop commits the oldest waiter to the first free routable step and changes nothing else, or changes nothing and the loop ends |
| QueueEngine.Engine.Dispatch | internal/queue/engine.go:211-257 | terminates; commits waiters exactly along the greedy plan; ends with no waiting job or no free routable step |
| QueueEngine.PlanIsMaximal | internal/queue/engine.go:216-255 | the plan stops short of the waiting jobs only when every routable step is at its cap |
| QueueEngine.PlanStaysWithinCaps | internal/queue/engine.go:259-275 | each planned job goes to a routable step whose cap the counter does not exceed after it |
| QueueEngine.LoadCounts | internal/queue/engine.go:243 | a counter goes up by the number of jobs planned on its model |
| QueueEngine.StartedOldestFirst | internal/queue/engine.go:216-255 | what a dispatch starts is sorted by number and no younger than what it leaves waiting; together they are what was waiting |
| QueueEngine.StartedChangesOnly | internal/queue/engine.go:244-249 | a dispatch changes status and model of the started waiters and nothing of any other |
| QueueEngine.Engine.Finish | internal/queue/engine.go:331-342 | the waiter is removed and done, and only its model's counter goes down |
| QueueEngine.Engine.DropWaiter | internal/queue/engine.go:344-361 | a listed waiter is removed, dropped with the reason and done; an unlisted id changes nothing; others are untouched |
| Mailbox.MessageConservation | internal/a2aproxy/session.go:46-107 | under any interleaving every pushed message is in exactly one of queue, channel, delivered, evicted, cancelled, and the send under the lock finds a free channel |
| Mailbox.MailboxFifo | internal/a2aproxy/session.go:57-105 | if no connection is opened while a message sits in another one's channel (one refused as busy counts for nothing), messages are delivered in push order without repetition, a waiter means an empty queue, and queue plus channel hold at most 33 |
| MailboxLimits.TakeIsSafeIff | internal/a2aproxy/session.go:75-107 | after such a run, one more connection is safe for every later run without another if and only if no message sits in a channel |
| MailboxLimits.OrderIffCalm | internal/a2aproxy/session.go:57-107 | the exact condition for order over a whole run |
| MailboxLimits.OverlapBreaksOrder | internal/a2aproxy/session.go:94-105 | with two overlapping takers a run delivers the second message before the first |
| MailboxLimits.SurvivesCancelIff | internal/a2aproxy/session.go:139-146 | a queued call survives its cancellation exactly when it has no reply channel |
| MailboxLimits.PutBackSurvivesCancel | internal/a2aproxy/session.go:99-102 | a run in which a call is put back, cancelled, and delivered all the same |
| MailboxReplies.CallerStaysIff | internal/a2aproxy/session.go:54-69 | of all callers waiting once the pusher has entered itself, a push leaves each one waiting with its channel if and only if it evicts no call with that id |
| MailboxReplies.CallerWaitsIff | internal/a2aproxy/session.go:46-147 | over whole runs, a caller waits under an id if and only if it was the last to enter itself under it and no answer, cancellation or eviction under that id came since |
| MailboxReplies.IdsOnceOwnChannels | internal/a2aproxy/session.go:54-69 | while no id is pushed twice, no queued call has another one's channel under its id |
| MailboxReplies.NoWrongCaller | internal/a2aproxy/session.go:63-69 | and no eviction forgets another caller than the evicted one |
| MailboxReplies.EvictionForgetsNewCaller | internal/a2aproxy/session.go:63-69 | a run in which a push evicts an older call with its own id and is itself forgotten |
| MailboxReplies.EvictionForgetsQueuedCaller | internal/a2aproxy/session.go:63-69 | a run in which a push with another id forgets a caller whose call is still queued |
| MailboxReplies.ReplyReachesCaller | internal/a2aproxy/session.go:110-128 | as long as a caller waits, in any run, the first reply under its id goes into its channel and no other, and uses its waiter up |
| Mailbox.KeptMembers | internal/a2aproxy/session.go:139-146 | the cancel filter keeps an item if and only if it is not a call with that id |
| Mailbox.KeptAppend | internal/a2aproxy/session.go:139-146 | the filter works item by item, so what it keeps stays in order |
| Mailbox.KeptDistinct | internal/a2aproxy/session.go:139-146 | the filter repeats no item |
| MailboxBox.FilterInPlace | internal/a2aproxy/session.go:139-146 | the filter over shared storage leaves exactly the kept items at its front |
| MailboxBox.AgentBox.PushAgent | internal/a2aproxy/session.go:46-71 | a push is the model's step; a nameless or empty one changes nothing |
| MailboxBox.AgentBox.TakeAgent | internal/a2aproxy/session.go:75-90 | a take is the model's step: the oldest queued message, busy, or parked on a fresh empty channel |
| MailboxBox.AgentBox.ReceiveFrom | internal/a2aproxy/session.go:91-93 | a receive is the model's step and appends its message to the delivered ones |
| MailboxBox.AgentBox.Timeout | internal/a2aproxy/session.go:94-105 | a timeout is the model's step: unpark, and put a late message back |
| MailboxBox.AgentBox.ReplyAgent | internal/a2aproxy/session.go:110-128 | a reply succeeds exactly when a call waits under its id; then it uses that waiter up and puts the body into its channel, unless that is full |
| MailboxBox.AgentBox.CancelAgent | internal/a2aproxy/session.go:131-147 | a cancel is the model's step; a nameless one or one without id changes nothing |
| ChatModel.ToolCallsMerge | internal/hubclient/proto.go:284-321 | slots in order of first occurrence, with distinct indices; each slot's arguments are the concatenation of its index's fragments in stream order, and its id, type and name those the fragments give |
| ChatModel.StreamMergesCalls | internal/hubclient/proto.go:213-282 | the calls of a stream are those of all its fragments, however spread over chunks |
| ChatModel.StreamKeepsText | internal/hubclient/proto.go:265-282 | content and reasoning of a stream are the concatenation of its chunks' texts, in stream order |
| ChatModel.StreamKeepsFirstAndLast | internal/hubclient/proto.go:237-282 | a stream's id and model are the first its chunks give, its usage and finish reason the last |
| ChatModel.UsageStaysIff | internal/hubclient/proto.go:267-269 | a line leaves the usage as it is exactly when its chunk has no usage member, and otherwise sets it |
| ChatModel.NullUsageOverwrites | internal/hubclient/proto.go:267-269 | two chunks, the second with a null usage, that lose the first one's usage |
| ChatModel.ParseDistinct | internal/hubclient/proto.go:313-321 | every parsed answer has distinct tool-call indices |
| ChatPrint.PrintParses | internal/hubclient/proto.go:326-360 | a printed answer parses back to id, model, content, reasoning, calls, finish and usage |
| ChatPrint.CallsMergeBack | internal/hubclient/proto.go:284-311 | whole calls with distinct indices merge back unchanged |
| ChatPrint.CollapseRoundTrip | internal/hubclient/proto.go:326-360 | collapsing changes nothing the parser sees, and collapsing twice is collapsing once |
| ChatPrint.RestreamRoundTrip | internal/proxy/proxy.go:939-982 | the two re-streamed chunks parse back to the answer, with finish defaulting to `stop`, the id to `chatcmpl-hub`, and reasoning promoted to content only when there is neither text nor a tool call |
| ChatResults.ChatResult.MergeIndexInit | internal/hubclient/proto.go:313-321 | makes `callPos` an exact index of the slots and changes nothing else |
| ChatResults.ChatResult.MergeCall | internal/hubclient/proto.go:287-310 | one fragment is absorbed by its index's slot, or opens one; `callPos` stays an exact injective index |
| ChatResults.ChatResult.MergeCalls | internal/hubclient/proto.go:284-311 | the loop merges the fragments in order |
| ChatResults.ChatResult.MergeChoice | internal/hubclient/proto.go:265-282 | text, reasoning, calls and finish of a choice are added, message before delta |
| ChatResults.ChatResult.MergeRaw | internal/hubclient/proto.go:237-282 | a chunk is merged if it decodes, and ignored as a whole if it does not |
| ChatResults.ParseChat | internal/hubclient/proto.go:213-235 | the parser returns what the specification says for a blank body, one object or a stream |
| UsageScanner.Scanner.Feed | internal/promptcache/tail.go:17-78 | the in-place loop leaves exactly the unfinished line and the last usage so far; the fragment stays within 64 KiB |
| UsageScanner.LastUsageIsLast | internal/promptcache/tail.go:40-78 | the remembered usage is that of the last line that carries one |
| UsageScanner.IncrementalIsBatch | internal/promptcache/tail.go:17-38 | for any split that fits, feeding chunk by chunk gives what scanning the whole stream gives |
| UsageScanner.SmallChunksAndLinesFit | internal/promptcache/tail.go:8-38 | chunks and lines of at most 32 KiB always fit |
| UsageScanner.ScannerFindsLastUsage | internal/proxy/proxy.go:1137-1161 | for such streams the scanner ends with the last usage payload of the whole stream |
| UsageScanner.FragmentBounded | internal/promptcache/tail.go:17-38 | whatever is fed, the fragment holds at most 64 KiB |
| Text.LinesRoundTrip | internal/promptcache/tail.go:26-37 | splitting at newlines loses nothing |
| Text.LinesAppend | internal/promptcache/tail.go:26-37 | the lines of a stream are those of its beginning, then those the rest completes |
| Text.TrimSpaceCuts | internal/promptcache/tail.go:40-58 | trimming cuts white space off both ends, all of it, and nothing else |
| PassThrough.StreamBody | internal/proxy/proxy.go:1139-1163 | one head, the upstream bytes in order, their count, and the scanner's usage |
| PassThrough.GuardBody | internal/proxy/proxy.go:1165-1189 | nothing reaches the client until the guard has passed the whole answer; then one head and the guarded body |
| PassThrough.BufferBody | internal/proxy/proxy.go:1191-1229 | for every chunking: one head, exactly the upstream bytes, their count; at most 1 MiB is ever held, and the usage is read if and only if the body is at most that long |
| PassThrough.WriteUpstream | internal/proxy/proxy.go:1134-1230 | unless the guard blocks, one head and the whole body, however chunked; blocked, nothing; and in each mode which text the usage is read from |
| RateLimit.Service.AllowRPM | internal/auth/auth.go:156-173 | the answer and the whole new bucket table |
| RateLimit.RunIsWindowed | internal/auth/auth.go:160-172 | over every run with a monotone clock: grants lie in their windows, windows are a minute apart and open with a grant, none grants more than the limit |
| RateLimit.WindowBound | internal/auth/auth.go:168-171 | each window grants at most RPM |
| RateLimit.RateBound | internal/auth/auth.go:156-173 | any half-open minute contains at most 2·RPM − 1 grants of a key |
| RateLimit.BoundIsReached | internal/auth/auth.go:164-167 | for every RPM some run reaches that bound |
| Fallback.Forward | internal/proxy/proxy.go:497-664 | the aliases visited are a whole fallback walk; exactly one head, with the status returned, which is what the last alias decides; every connection count is as before and the calls made are balanced |
| Fallback.WalkIsUnique | internal/proxy/proxy.go:506-516 | at most four distinct aliases along allowed fallback edges, each after a retryable failure, ending where no edge can be followed: these conditions leave exactly one walk, also in cyclic graphs |
| Fallback.Hop | internal/proxy/proxy.go:506-516 | one hop ends the walk with one head, or goes on along the fallback edge with none |
| Fallback.TryAlias | internal/proxy/proxy.go:517-540 | one alias: no head if and only if the next may be tried; the guard looks once, before the first call |
| Fallback.CallBackend | internal/proxy/proxy.go:542-548 | whatever the backend kind, the count is restored and one open and one close are recorded |
| Fallback.ForwardHub | internal/proxy/proxy.go:865-995 | one head with the status returned on every path |
| Fallback.ForwardCodex | internal/proxy/proxy.go:666-701 | one head with the status returned on every path, and the deferred decrement |
| Fallback.ForwardGrok | internal/proxy/proxy.go:703-733 | one head with the status returned, also when the call itself wrote none, and the deferred decrement |
| Fallback.ForwardHttp | internal/proxy/proxy.go:587-654 | retry exactly for an unreachable backend or a billing error with somewhere to go, and then no head; otherwise one head |
| Fallback.Checker.Inc | internal/health/health.go:1149-1153 | only this backend's count goes up |
| Fallback.Checker.Dec | internal/health/health.go:1155-1161 | only this backend's count goes down, and not below zero |
| Connections.CountIsOpenCalls | internal/health/health.go:1149-1161 | in every interleaving of any threads a backend's count is the number of threads with an open call to it, so the test in `Dec` never matters |
| Connections.CallersArePossible | internal/proxy/proxy.go:497-664 | threads that make balanced calls one after the other, each stopped anywhere, are covered by that |
| Connections.AllClosedCountsZero | internal/health/health.go:1155-1161 | once all calls are closed every count is zero again |
| GuardModel.DuplicateIsIgnored | internal/guard/guard.go:23-39 | a policy whose id occurred earlier changes nothing wherever it stands |
| GuardModel.DedupMembers | internal/guard/guard.go:23-39 | kept are exactly the enabled policies that are first of their id or have none |
| GuardModel.FirstRejectIff | internal/guard/guard.go:252-291 | a first rejection exists exactly when some text is rejected |
| GuardModel.WalkLeafwise | internal/guard/guard.go:252-383 | the walk is blocked by the first rejected leaf and only by one; otherwise it replaces each leaf by its new text, and changes nothing if no text changes |
| GuardModel.ContentLeafwise | internal/guard/guard.go:344-383 | the same for a content that is a string, a list of parts, or neither |
| GuardModel.ChoiceLeafwise | internal/guard/guard.go:293-329 | the same for a choice with a message and a text |
| GuardApply.InjectPutsPromptFirst | internal/guard/guard.go:228-250 | injecting puts the prompt before the first text, keeps every other text, and touches no member but the messages |
| GuardApply.FirstBlockIff | internal/guard/guard.go:67-108 | some policy blocks exactly when some leaf is rejected by an applicable policy |
| GuardApply.GuardDecision | internal/guard/guard.go:67-108 | with policies that only block: blocked if and only if some leaf of the prompted document is rejected by an applicable enabled policy, by the first such; blocked returns the original, otherwise exactly the prompted document |
| GuardApply.DuplicatePolicyIds | internal/guard/guard.go:67-68 | a repeated policy id changes nothing in the result |
| GuardApply.MaskedLeaves | internal/guard/guard.go:86-98 | with masking policies, what passes has for leaves exactly the texts each applicable policy left in turn |
| GuardDocument.DedupPolicies | internal/guard/guard.go:23-39 | the loop with its `seen` set computes the specified list |
| GuardDocument.JoinPrompts | internal/guard/guard.go:110-125 | the loop joins the trimmed prompts, each once, in order |
| GuardDocument.RewriteItems | internal/guard/guard.go:254-271 | the loop over messages or choices rewrites each in place, and `changed` is exact |
| GuardDocument.Document.InjectSystem | internal/guard/guard.go:228-250 | the in-place injection gives the specified document |
| GuardDocument.Document.WalkInPlace | internal/guard/guard.go:252-291 | the in-place walk gives the specified document or block, and `changed` is true exactly when the document differs |
| GuardDocument.Document.RewriteAnswer | internal/guard/guard.go:293-342 | the same for choices and message |
| GuardDocument.ApplyGuard | internal/guard/guard.go:67-108 | the whole guard, run in place, returns what the specification says for every body, policy list and phase |
| Billing.TableHoldsCalls | internal/store/billing.go:14-26 | for every window the table's hours add up to exactly the calls of that window |
| Billing.AnyOrder | internal/store/billing.go:28-75 | entering the same log rows in any order gives the same table |
| BillingView.EachHourOnceIff | internal/store/billing.go:131-144 | for any bounds with buckets that begin in order: every hour of the window is in exactly one bucket if and only if each bucket begins with the hour at which the one before it stops |
| BillingView.ContiguousMeetIff | internal/store/billing.go:131-144 | when each bucket ends where the next begins, that holds exactly if none but the last ends further into an hour than it began |
| BillingView.HalfHourDay | internal/store/billing.go:223-236 | bounds that fail: a day of 24 hours and a half shares its last hour with the next |
| BillingView.SkippedMidnight | internal/store/billing.go:191-196 | bounds that fail with everything on the hour: a day that begins an hour late and is taken to last 24 |
| BillingView.ViewCountsPerBucket | internal/store/billing.go:131-152 | for any bounds at all, the totals count each call once for every bucket that looks at its hour |
| BillingView.SharedHourCountsTwice | internal/store/billing.go:131-144 | a call in an hour that two buckets of a view look at is counted more than once |
| BillingView.ViewConserves | internal/store/billing.go:122-156 | when buckets meet, the totals are the sum over the hours of the window |
| BillingView.ViewCountsEachCall | internal/store/billing.go:108-156 | when buckets meet, the totals are those of the calls in the window, each once |
| BillingView.ViewCountsRightIff | internal/store/billing.go:108-156 | the totals are those of the calls in the window, for every history of calls, if and only if buckets meet |
| BillingStore.Store.LogCall | internal/store/store.go:970-989 | the log keeps the newest 500 rows while the table accounts for every call ever made |
| BillingStore.Store.Backfill | internal/store/billing.go:28-75 | an empty table becomes the one that entering the log row by row gives; any other is left alone |
| BillingStore.Refilled | internal/store/billing.go:68-74 | the upserts of the grouped hours give the grouped table in whatever order the map yields them |
| BillingStore.Store.SumBucket | internal/store/billing.go:134-143 | the loop by whole hours sums exactly the hours from the bucket's first to its end |
| BillingStore.Store.Overview | internal/store/billing.go:108-156 | each bucket is the sum of its hours and the totals are the sum of the buckets, for overlapping buckets too |
| Jobs.EveryRunIsSound | internal/jobs/jobs.go:43-124 | in every state reachable from empty: one running job per backend at most, percent in 0..100, a log of at most four lines |
| Jobs.TrimKeepsRunning | internal/jobs/jobs.go:62-70 | trimming evicts no running job, keeps their order and invents none |
| Jobs.RunningStaysListed | internal/jobs/jobs.go:43-124 | no operation removes a running job, and only one on its own id changes it |
| Jobs.TailLogKeepsLast | internal/jobs/jobs.go:293-303 | the log keeps exactly the last lines of the trimmed text |
| Jobs.AnySplitAppliesAllLines | internal/jobs/jobs.go:200-239 | for any split of the output into writes, exactly its non-empty trimmed lines are applied in order, the unfinished one on close |
| JobTracker.Tracker.Begin | internal/jobs/jobs.go:43-74 | a job starts, first in the trimmed list, exactly when none runs on the backend; otherwise the running one is returned |
| JobTracker.Trim | internal/jobs/jobs.go:62-70 | the loop keeps the newest twelve and of the others those that run |
| JobTracker.Tracker.IndexOf | internal/jobs/jobs.go:162-169 | the loop finds the first job with the id, or none |
| JobTracker.Tracker.Fail | internal/jobs/jobs.go:80-94 | statement by statement, the failed state of that job and of no other; soundness is kept |
| JobTracker.Tracker.Done | internal/jobs/jobs.go:96-111 | the finished state of that job and of no other; soundness is kept |
| JobTracker.Tracker.SetMessage | internal/jobs/jobs.go:113-124 | the message of that job and of no other; soundness is kept |
| JobTracker.Tracker.ApplyLine | internal/jobs/jobs.go:241-287 | status, error and percentage as the line reports them, plain text as the message, for that job only; soundness is kept |
| JobTracker.Tracker.ReadLine | internal/jobs/jobs.go:250-274 | in whatever order the statements overwrite each other: an error wins over a status, a total over `success`, and the percentage is clamped |
| JobTracker.Writer.Write | internal/jobs/jobs.go:200-204 | applies exactly the lines this write completes and keeps the unfinished one |
| JobTracker.Writer.Close | internal/jobs/jobs.go:206-218 | applies what is left, the unfinished line included |
| JobTracker.Writer.Flush | internal/jobs/jobs.go:220-239 | the in-place loop takes exactly the finished lines in order, and with `all` the rest |
| JobTracker.OutputKeepsSound | internal/jobs/jobs.go:241-287 | whatever a process prints, the job list stays sound |

## Left out

- HTTP servers and clients, sockets, headers, JSON error bodies and timers: a call's outcome, a timeout and a clock reading are parameters or free choices of a step.
- SQLite: tables are maps, a statement is one step, and store errors do not occur.
- JSON text: bodies are decoded values, objects are maps, repeated names and number spelling are not modelled; compacting raw arguments is a parameter.
- Text.TrimSpaceCuts: white space is the ASCII kind, because a byte is a character here; the source also trims the multi-byte spaces of Unicode.
- Member names of decoded JSON are matched exactly; the source's decoder also accepts them in another case.
- Regular expressions, case folding, word lists and detectors of the guard: what a policy makes of one text is a parameter, and so is the test for the role `system`.
- QueueFifo.StartsInSeqOrder: needs no arrival of the same queue between insert and registration, and top rows kept, because without either the code does not keep the order (`QueueRuns` has a run for each); `StartsInArrivalOrder` needs neither.
- QueueWakeup.NoLostWakeup: fixed configuration and routes, and no step model shared between queues, because the source leaves the other cases to its five-second ticker.
- Queue configuration changes during a run, and the queue's limits on bytes, count and wait; an overflowing request appears only as the row it inserts, and a size purge as any number of drops.
- `QueueEngine` runs a dispatch without interference; what interleaving does to it is in the step system.
- Which head a queued request gets: answers of handlers and workers are not part of the queue model, and no claim is made of their number, because a dropped job may run (`QueueRuns.DroppedJobRuns`).
- Parked and late mailbox messages carry an id and a number, not their bytes.
- Fallback.Forward: what is sent upstream (paths, prompt caching, parameters, headers) and the log entries are not modelled; statuses of an answer are final ones, 200 to 999, so the replacement of a zero status by 200 does not arise.
- The choice of a backend among candidates is a parameter.
- PassThrough.WriteUpstream: the client accepts every write in full.
- A document whose walk was blocked half-way is discarded by the source, so the model says nothing of its fields.
- Billing amounts are exact reals, not floating point; the calendar that gives period bounds, labels and bar heights is not modelled, bounds are parameters.
- Jobs loaded from the database at start, and saving them back; jobs are values in the tracker's list, since only copies of them ever leave it.
- Jobs.EveryRunIsSound: a percentage is computed exactly, so an overflowing conversion of a huge quotient is not modelled.
- Provider adapters, health probes, the admin interface, sessions, passwords, certificates, metrics and the mobile shells.
