# Proofs about the manga gateway

The gateway turns searches into calls to manga sites. Some of those sites sit behind a Cloudflare
challenge that only a real Android WebView clears, and there is one such device to a lane. So most of
the hard code is about sharing: one device between requests, a startup warm-up and a refresh loop; one
proxy hop between all lanes; one fetch between concurrent callers; one socket whose command ids are
reused. This project models that code and proves what its comments promise.

| file | what it models |
|---|---|
| `ClearanceStore.dfy` | the clearances the gateway holds: the class with its fields, the solve's retries, the refresh loop's sleep |
| `DeviceProtocol.dfy`, `DeviceInvariants.dfy`, `DeviceTheorems.dfy` | the gateway's side of one device as a step machine: device lock, foreground lease, startup gate, warm-up, single flight, refresh |
| `DeviceSteps.dfy` | what each step of that machine gives its caller and leaves in the store, without the functions it is built from |
| `DeviceWarm.dfy`, `DeviceLedger.dfy`, `DeviceRuns.dfy` | what the warm-up promises of that machine, what a put-back can replace in it, and runs of it that one might not expect |
| `EvalLadder.dfy` | one in-WebView eval with its busy retries, origin retries and the two-step recovery of a page holder |
| `WorkerProtocol.dfy` | the sidecar's per-device lock, queue, timeout, cancel and bounded drain |
| `HopProtocol.dfy`, `HopSteps.dfy`, `ProxyHop.dfy` | many lanes over one proxy hop; whole operations over it, from lock to teardown; and the hop's own commands |
| `CdpSocket.dfy`, `CdpPending.dfy` | request and answer matching on a devtools socket, and how many answers are left on it |
| `TapLoop.dfy` | the tap loop and its timing guards |
| `FetchBatch.dfy`, `FetchBodies.dfy` | image fetching in batches over one such socket, to the gateway's decoded list; and whose body each position gets |
| `FlightCache.dfy` | the single-flight cache with expiring entries |
| `Enumeration.dfy` | when a cached window may answer a chapter search |
| `Cooldown.dfy`, `FanOut.dfy` | the failure backoff, and the concurrent fan-out that drives it |
| `Pagination.dfy` | the Next-clicking walk and the concurrent fan-out over pages |
| `PieceGrid.dfy` | the piece-grid scramble and its inverse |
| `Wrappers.dfy` | the option type the others share |

Code between two awaits of a coroutine is one step, and so is what a thread does between two
operations another thread can see; every interleaving of steps is a run. Main results are about every
run. Code that works on its own fields or in a loop is a class or a method with a loop, proved against
a specification, and the properties are then proved of the specification. Network, clock, cancellation
and the peer are arbitrary inputs.

## Where the code does less than it says

Each of these is a lemma, with the failing run or input and, where the code can also do what it
says, the exact condition under which it does.

- A repoint of the hop that times out unacknowledged can still be applied later. Then another lane is
  in its operation on the wrong upstream (`HopProtocol.LateRepointRun`), or the lock is free and the
  hop is not DIRECT (`HopProtocol.LateRepointWhenFreeRun`). An operation is sure of its upstream until
  its teardown exactly when the hop is there and everything in flight goes there too
  (`HopProtocol.HopStaysExactlyWhen`), and sure of its egress check exactly when neither the hop nor
  anything in flight leads to another address (`HopProtocol.CheckSureExactlyWhen`). With the lock free
  the hop is sure to stay DIRECT exactly when it is and nothing in flight goes elsewhere
  (`HopProtocol.FreeHopStaysDirectExactlyWhen`). That a repoint is applied after later ones that were
  acknowledged is what an arbitrary network allows: the hop's one event loop would have to serve two
  loopback connections out of order. It follows from the model's network and has not been seen in the code.
- A disconnect probe that raises (`select` on a closed or large descriptor) releases the worker's lock
  and leaves its job running with no cancel flag (`WorkerProtocol.ProbeRaisesRun`). All other orphans
  are cancelled (`WorkerProtocol.OrphansCancelledExactlyWhen`).
- A pipeline operation that ends with a `TimeoutError` looks to its request like one that still runs,
  for that class is also the one a poll raises when it runs out (`WorkerProtocol.TimeoutErrorRun`). A
  finished job can be answered for its own outcome exactly when that is anything else
  (`WorkerProtocol.OwnAnswerExactlyWhen`).
- Cancelling a follower of the single-flight cache cancels the future it awaits, and a second fetch may
  start (`FlightSpec.CancelledFollowerLetsTwoFetch`); at most one more is in flight than there were
  such drops (`FlightSpec.FetchesInFlight`).
- A window that covers a chapter only at its lowest whole number answers without some of that number's
  rows: not a false empty, but a part (`Enumerations.CompleteExactlyAboveLowest`).
- A click on Last whose URL is not seen to change in time, or that still shows page 1, gives a page
  count of 1, and the fan-out then answers page 1 alone without an error
  (`Pagination.UnsyncedLastIsPartial`), although its own comment says it never gives a partial list.
  Whatever count is discovered, `Pagination.FanOutIsWalkExactlyWhen` says exactly when the answer is
  still the walk's.
- With a page limit of 0 the walk returns page 1 and the fan-out nothing (`Pagination.ZeroLimitParts`).
- A source whose run is good but whose warnings cannot be collected has its success recorded before its
  failure, so it never cools down however often that happens (`CooldownSpec.LateFailuresNeverCool`); a
  window opens exactly for a failure before the success is recorded, of a source that had failed before
  (`CooldownSpec.WindowOpensExactlyWhen`). `fan_out` admits such a collector; no caller in the
  repository passes one, for the one that passes any looks up a dictionary with a default.
- A visit that is cancelled records nothing, and after a window has lapsed the next visit calls the
  upstream at once (`CooldownSpec.StoppedVisitFreesNext`). Every call still waits out the last failure
  (`CooldownSpec.FailingSourceBacksOff`).
- After a receive error on a socket, the next call under the same id returns the old answer
  (`CdpSpec.ReceiveErrorShiftsAnswers`). Before a call is made, it is sure of its own answer exactly
  when no answer under its id is unread or still to come (`CdpSpec.SureExactlyWhen`).
- Every image body of a fetch is asked for under one id, and a receive error on an ask is swallowed; so
  the next URL may be given the image of the one before (`FetchBodies.ReceiveErrorShiftsImages`). A
  position is sure of its own body exactly when the loads of the batches have skipped as many stale
  answers as earlier asks gave up (`FetchBodies.OwnBodyExactlyWhen`): within a batch exactly when the
  first position was sure and no ask since gave up (`FetchBodies.OwnBodyInBatch`), and in a later batch
  perhaps again (`FetchBodies.LoadSkipsStale`).
- A repeated URL in an image request gets what was captured at its last occurrence
  (`FetchBatches.OwnExactlyWhenNotRepeated`).
- A clearance put back through a block window takes the place of a newer one that the refresh minted
  meanwhile (`DeviceRuns.NewerIsReplaced`). A put-back replaces another clearance exactly when one is
  held at that moment, and that one is newer unless it was put back itself
  (`DeviceLedger.PutBackReplacesExactlyWhen`, `DeviceRuns.OlderIsReplaced`); this one theorem takes
  the first-come order of the event loop for granted.
- A deferrable solve POSTs again to a busy sidecar although a foreground lease was taken meanwhile
  (`DeviceRuns.BusyRetryUnderLease`); under a lease that is the only POST it makes
  (`DeviceTheorems.DeferrablePostsExactlyWhen`).
- Once a wait at the startup gate runs out, a solve of the warm-up may be deferred
  (`DeviceRuns.TimeoutLetsWarmDefer`); without such a timeout none is
  (`DeviceTheorems.NoLeaseBeforeWarm`).
- The hop's answer "ERR empty upstream uri" cannot be given (`ProxyHops.UriNeverEmpty`).

Besides, `scripts/mangafire_quality_proof.py` imports two constants and a helper that
`src/manga_gateway/sources/mangafire.py` no longer has. The two constants are parameters here and the
helper is ceiling division.

## Model

| member | source | states |
|---|---|---|
| `DeviceTheorems.OneAtTheSidecar` | src/manga_gateway/framework/android_solver.py:1072-1128 | in every run at most one POST is in flight, and each operation has released the lock as often as it took it, but for one hold that may go on; attempts and POSTs of one hold are bounded |
| `DeviceTheorems.DeferrableYields` | src/manga_gateway/framework/android_solver.py:1121-1124 | a deferrable solve makes the first POST of an attempt only by taking the lock while no foreground lease is held |
| `DeviceTheorems.DeferrablePostsExactlyWhen` | src/manga_gateway/framework/android_solver.py:1056-1128 | over every event a deferrable operation makes a POST exactly on taking the lock with no lease held, or on a busy retry under the held lock |
| `DeviceTheorems.OneSharedSolve` | src/manga_gateway/framework/android_solver.py:796-810 | whatever callers are cancelled, at most one shared solve of a key is live, and it is the one in the registry |
| `DeviceTheorems.CallbackKeepsOthers` | src/manga_gateway/framework/android_solver.py:801-808 | a finished task's callback never removes another task's slot |
| `DeviceTheorems.CancelSparesTheHerd` | src/manga_gateway/framework/android_solver.py:759-764 | cancelling a caller leaves a shared solve, its slot, the lock and the other callers alone |
| `DeviceTheorems.ForegroundNeverDeferred` | src/manga_gateway/framework/android_solver.py:767-781 | a caller that does not ask to defer never gets the deferral, and only solves that do not defer enter the registry |
| `DeviceTheorems.TrackedIsHeld` | src/manga_gateway/framework/android_solver.py:812-835 | in every reachable state a tracked expiry has a held clearance and, with a configured lifetime, is at most that far off |
| `DeviceTheorems.ForcedGivesGood` | src/manga_gateway/framework/android_solver.py:613-666 | a forced call gives a clearance minted since it began, or one with no known expiry or one still ahead |
| `DeviceTheorems.PageHolderGivesOwn` | src/manga_gateway/framework/android_solver.py:701-738 | a forced call on a page holder never raises and gives at most what its own eval brought |
| `DeviceTheorems.HeldAnewOnlyIf` | src/manga_gateway/framework/android_solver.py:619-666 | a clearance comes to be held only fresh from a call's own operation, or put back by a call whose solve was blocked and which had discarded it |
| `DeviceTheorems.BroughtIsHeld` | src/manga_gateway/framework/android_solver.py:664-666 | what a call brings is held from then on, with the expiry it should have, and no other source changes |
| `DeviceTheorems.BlockedNotHammered` | src/manga_gateway/framework/android_solver.py:613-621 | inside a block window no step starts a solve of a source whose held clearance is still good, and the refresh starts none |
| `DeviceTheorems.WindowOpensAndCloses` | src/manga_gateway/framework/android_solver.py:1314-1322 | a failed solve opens the block window exactly when it took as long as the sidecar polls, and a success closes it |
| `DeviceTheorems.PageHoldersNeverSolved` | src/manga_gateway/framework/android_solver.py:602-612 | no run solves a page holder or a source that is not device-solved, for a request, at startup or in a refresh |
| `DeviceTheorems.NoLeaseBeforeWarm` | src/manga_gateway/framework/android_solver.py:523-563 | in a startup run without a gate timeout nobody has a lease before the warm-up is over, so nothing has deferred |
| `DeviceWarm.WarmReportsFailures` | src/manga_gateway/framework/android_solver.py:880-913 | in every run, what the warm-up reports when it returns is exactly the keys of its calls that raised something other than a deferral, and those are eagerly solved ones |
| `DeviceWarm.WarmReleasesAll` | src/manga_gateway/framework/android_solver.py:920-924 | a waiting sequence may go on exactly when the warm-up is over; from then on, in every continuation, it stays over, no further sequence waits and an arrival takes its lease at once |
| `DeviceLedger.PutBackReplacesExactlyWhen` | src/manga_gateway/framework/android_solver.py:686-699 | in every run in first-come order a put-back replaces another clearance exactly when one is held at that moment, and that one is newer unless it was itself put back |
| `DeviceLedger.LedgerKept` | src/manga_gateway/framework/android_solver.py:613-699 | every step in first-come order keeps the order of age between what is held, what waiting calls have discarded, and what is still to be brought |
| `DeviceSteps.UnforcedCall` | src/manga_gateway/framework/android_solver.py:600-635 | in every reached state an unforced call is given what is held, at once and changing nothing; with nothing held it gets nothing, unless it may solve a solved source that holds no page: then, and only then, it waits for a shared solve of it |
| `DeviceSteps.ForcedCall` | src/manga_gateway/framework/android_solver.py:613-635 | in every reached state a forced call is given what is held exactly inside a block window and before its expiry; else it has discarded that and waits for a shared solve with it as its snapshot, or for a page holder for an eval of its own |
| `DeviceSteps.SolvedCallEnds` | src/manga_gateway/framework/android_solver.py:636-699 | what a call that waited for a solve is given and leaves in the store, for each way the solve can end |
| `DeviceSteps.OtherCallEnds` | src/manga_gateway/framework/android_solver.py:701-738 | the same for a page holder's forced call, a prime, a plain eval and a refresh |
| `DeviceSteps.FailedPost` | src/manga_gateway/framework/android_solver.py:1314-1343 | a failed POST gives the lock back; a slow solve is over and opens its source's window for the whole backoff, a fast one is tried again while it may, an eval is not |
| `DeviceSteps.GoodPost` | src/manga_gateway/framework/android_solver.py:1314-1343 | a good POST gives the lock back and ends its operation with a new clearance, for a solve or an eval that asked for one and got it; a solve lifts the block window |
| `DeviceSteps.LockHadOrNot` | src/manga_gateway/framework/android_solver.py:1103-1128 | what becomes of an operation that has the lock, gives way to a lease, or does not have the lock in time |
| `DeviceSteps.BusyRetries` | src/manga_gateway/framework/android_solver.py:1056-1069 | a busy sidecar is tried again under the same hold, while attempts are left |
| `DeviceSteps.RefreshSolvesExactlyWhen` | src/manga_gateway/framework/android_solver.py:1730-1750 | a tick solves a tracked source, deferring, exactly when no page holds it, it is not on demand, not in a block window, and its expiry was within `lead` when the tick began |
| `DeviceSteps.RefreshGoesOn` | src/manga_gateway/framework/android_solver.py:1725-1767 | a tick goes on after a solve unless that gave way, and none begins under a lease |
| `DeviceSteps.WarmVisits` | src/manga_gateway/framework/android_solver.py:880-919 | the warm-up solves exactly the sources no page holds, primes exactly those one does, in order, and on-demand ones in neither pass |
| `DeviceSteps.WarmStops` | src/manga_gateway/framework/android_solver.py:920-924 | a warm-up that is stopped cancels what it waits for and opens the gate all the same |
| `DeviceSteps.CallerCancelled` | src/manga_gateway/framework/android_solver.py:1125-1128 | a cancelled caller gives up its own operation, and with it the lock, and leaves a shared one alone |
| `DeviceSteps.Sessions` | src/manga_gateway/framework/android_solver.py:1154-1159 | a sequence takes its lease at once unless the gate is armed and not open, when it waits; and gives it back once |
| `DeviceRuns.NewerIsReplaced` | src/manga_gateway/framework/android_solver.py:686-699 | a forced call whose solve is blocked puts its old clearance in the place of the newer one the refresh brought: the run |
| `DeviceRuns.OlderIsReplaced` | src/manga_gateway/framework/android_solver.py:686-699 | what a put-back replaces need not be newer: a run with two forced calls that share a blocked solve |
| `DeviceRuns.BusyRetryUnderLease` | src/manga_gateway/framework/android_solver.py:1060-1068 | for any gateway that warms and retries, a run in which a deferrable solve POSTs again under a foreground lease |
| `DeviceRuns.TimeoutLetsWarmDefer` | src/manga_gateway/framework/android_solver.py:554-563 | for any gateway that warms, one gate timeout is enough for a warm-up solve to be deferred: the run |
| `DeviceInvariants.InvKept` | src/manga_gateway/framework/android_solver.py:565-1357 | every step of the device protocol keeps the lock, registry, store, gate, call and loop invariants together |
| `DeviceInvariants.LockKeptByOp` | src/manga_gateway/framework/android_solver.py:1103-1128 | each step of an operation keeps lock ownership and the balance of takes and releases |
| `DeviceInvariants.LockKeptByCancel` | src/manga_gateway/framework/android_solver.py:1125-1128 | cancelling a caller's own operation releases the lock it holds, once |
| `DeviceInvariants.RegistryKeptByCallback` | src/manga_gateway/framework/android_solver.py:801-809 | a callback, however late, keeps every live shared solve registered |
| `DeviceInvariants.RegistryKeptByShared` | src/manga_gateway/framework/android_solver.py:796-799 | joining or starting a shared solve keeps one slot per key |
| `DeviceInvariants.EndsWell` | src/manga_gateway/framework/android_solver.py:636-666 | how every kind of call ends when its operation is over |
| `DeviceInvariants.GateKeptBySession` | src/manga_gateway/framework/android_solver.py:1154-1159 | arriving, waking, timing out, leaving and giving up at the gate keep its invariant |
| `DeviceInvariants.InvKeptByWarmStep` | src/manga_gateway/framework/android_solver.py:880-919 | the warm-up solves only what holds no page and is not on demand, and primes only page holders |
| `DeviceInvariants.InvKeptByRefreshStep` | src/manga_gateway/framework/android_solver.py:1730-1767 | the refresh solves only due keys that are neither page holders nor on demand, deferring to the foreground |
| `ClearanceSpec.Lifetimes` | src/manga_gateway/framework/android_solver.py:444-446 | exactly the positive lifetimes are kept, as they are |
| `ClearanceSpec.Effective` | src/manga_gateway/framework/android_solver.py:826-831 | the tracked expiry is never later than the cookie's own nor than the configured lifetime, and is one of the two |
| `ClearanceSpec.BeginSound` | src/manga_gateway/framework/android_solver.py:600-635 | the start of a call keeps the store sound; only solved sources go on, page holders to an eval and others to a solve |
| `ClearanceSpec.ConcludeSound` | src/manga_gateway/framework/android_solver.py:636-666 | the end of a call keeps the store sound, whatever the outcome |
| `ClearanceSpec.ForcedBegin` | src/manga_gateway/framework/android_solver.py:615-628 | a forced call answers at once exactly inside a block window with a valid clearance, and otherwise has discarded what was held and keeps it as its snapshot |
| `ClearanceSpec.PutBackExactlyWhen` | src/manga_gateway/framework/android_solver.py:640-699 | after a failed solve the discarded clearance is held exactly for a block window and no known lapse, or when somebody holds it already; put back, it is given with its own expiry; any other failure changes nothing |
| `ClearanceSpec.GivenIsGood` | src/manga_gateway/framework/android_solver.py:640-666 | what a call gives without a fresh mint has no tracked expiry or one still ahead |
| `ClearanceSpec.OtherKeysKept` | src/manga_gateway/framework/android_solver.py:613-666 | a call changes the store for its own key only |
| `ClearanceSpec.SolvedExactlyWhen` | src/manga_gateway/framework/android_solver.py:1293-1334 | exactly when a solve is minted, blocked, deferred or failed: only a fast failure is ever tried again |
| `ClearanceStore.AndroidSolver.constructor` | src/manga_gateway/framework/android_solver.py:444-502 | a new solver holds nothing and keeps the positive lifetimes |
| `ClearanceStore.AndroidSolver.BeginGet` | src/manga_gateway/framework/android_solver.py:600-635 | `get_clearance` up to its wait: an unforced call is given what is held, else solves unless it is a peek or of a page holder; a forced one is given what is held only in a block window and before its expiry, else has discarded it and goes on with it as its snapshot |
| `ClearanceStore.AndroidSolver.BeginPageHolder` | src/manga_gateway/framework/android_solver.py:720-723 | a page holder's call serves what is held, or discards it for an eval when forced |
| `ClearanceStore.AndroidSolver.ConcludeGet` | src/manga_gateway/framework/android_solver.py:636-666 | `get_clearance` after its wait: a fresh clearance takes over; through a block window the snapshot is put back while it may be good, else what is held is given while it is; any other failure is raised and changes nothing |
| `ClearanceStore.AndroidSolver.ServeCachedThroughBlock` | src/manga_gateway/framework/android_solver.py:686-699 | serves and restores a snapshot exactly when there is one that has not lapsed |
| `ClearanceStore.AndroidSolver.RecordExpiry` | src/manga_gateway/framework/android_solver.py:826-835 | the tracked expiry is the cookie's own or the end of the configured lifetime, whichever is sooner; with neither, none is tracked |
| `ClearanceStore.AndroidSolver.SolveWithRetry` | src/manga_gateway/framework/android_solver.py:1293-1334 | the first attempt that did not fail fast decides: a good one lifts the backoff, a slow failure sets it for its whole length, a deferral and spent attempts leave it |
| `ClearanceStore.AndroidSolver.NextDelay` | src/manga_gateway/framework/android_solver.py:1768-1783 | the sleep after a tick lies in its bounds and is a bound or the soonest time a source needs looking at: the end of its open block window, else `lead` ahead of its lapse; no page holder or on-demand source counts |
| `EvalLadder.FirstStatus` | src/manga_gateway/framework/android_solver.py:138-162 | a status is found exactly when the marker and three decimal digits, of any script, stand somewhere |
| `EvalLadder.FirstStatusIsFirst` | src/manga_gateway/framework/android_solver.py:161-162 | the status is the one that stands first, and its digits are those of the text in their order |
| `EvalLadder.Posts` | src/manga_gateway/framework/android_solver.py:1056-1069 | an op POSTs until the sidecar is not busy or the attempts are spent |
| `EvalLadder.PostSidecar` | src/manga_gateway/framework/android_solver.py:1056-1069 | the busy-retry loop POSTs again after each 503 while attempts are left, and returns the last reply |
| `EvalLadder.PostEval` | src/manga_gateway/framework/android_solver.py:1548-1557 | one op under the lock, or no POST when the lock is not had; still busy only with all attempts spent |
| `EvalLadder.EvalInWebview` | src/manga_gateway/framework/android_solver.py:1421-1476 | the whole call climbs the specified ladder: light re-prime then recycle for the page holder the URL is first mapped to and for nobody else, and as many origin retries as there is budget while the page reports an origin error |
| `EvalLadder.Climb` | src/manga_gateway/framework/android_solver.py:1447-1468 | the recovery loop is the ladder, and ends |
| `EvalLadder.LadderIsBounded` | src/manga_gateway/framework/android_solver.py:1445-1466 | at most one op for the eval, one for each origin retry and two for each recovery |
| `EvalLadder.PostsAreBounded` | src/manga_gateway/framework/android_solver.py:1445-1466 | at most (1 + origin budget + 4) times the busy attempts POSTs for a page holder, (1 + origin budget) times for others |
| `EvalLadder.PrimesClimb` | src/manga_gateway/framework/android_solver.py:1443-1466 | the primes of a call are a prefix of light then recycle, and all of them if the caller still gets a challenge error |
| `EvalLadder.RecycleAfterLight` | src/manga_gateway/framework/android_solver.py:1461-1465 | a recycle comes only for a page holder and after a light re-prime in the same call |
| `EvalLadder.OnlyRecoverableRetried` | src/manga_gateway/framework/android_solver.py:1452-1466 | only recoverable errors are retried, within the budget, and an origin error gets out only once it is spent |
| `EvalLadder.JudgedExactly` | src/manga_gateway/framework/android_solver.py:165-192 | exactly which outcome is retried and which re-primed for; a success, a broken POST, a lock not had and a sidecar still busy are final |
| `EvalLadder.StatusOf` | src/manga_gateway/framework/android_solver.py:161-162 | the three digits of the number are those of the text, in their order |
| `EvalLadder.JudgedFromText` | src/manga_gateway/framework/android_solver.py:161-192 | of an in-page throw whose first status stands at a place: retried exactly when the first digit there is 5, re-primed for exactly when the three are 4, 0, 3 |
| `EvalLadder.OtherwiseFinal` | src/manga_gateway/framework/android_solver.py:165-192 | nothing else is ever retried or re-primed for |
| `EvalLadder.JudgedAsReported` | src/manga_gateway/framework/android_solver.py:1452-1466 | "status code 521" is retried, "status code 304" is final, "status code 403" is re-primed for |
| `EvalLadder.OpsInTurn` | src/manga_gateway/framework/android_solver.py:1447-1468 | each step of a call has the outcome of the device's next op, and the caller the last |
| `EvalLadder.PrimesAreCalledFor` | src/manga_gateway/framework/android_solver.py:1452-1466 | a step is a prime exactly when the eval before it called for one |
| `WorkerProtocol.AtMostOneRuns` | android_solver/service.py:2066-2076 | in every run at most one pipeline operation executes on a device, over all endpoints and orphans, in order of acceptance |
| `WorkerProtocol.OrphansCancelledExactlyWhen` | android_solver/service.py:2676-2699 | every unfinished job but the lock holder's is cancelled exactly when no probe-killed request has an unfinished job |
| `WorkerProtocol.AnswersAreOwn` | android_solver/service.py:2450-2505 | a 200 carries what the request's own job returned, a job is answered once at most, and the lock is balanced |
| `WorkerProtocol.ProbeRaisesRun` | android_solver/service.py:2474-2483 | a disconnect probe that raises leaves an uncancelled running orphan: the run |
| `WorkerProtocol.OwnAnswerExactlyWhen` | android_solver/service.py:2469-2483 | a finished job whose request still polls or probes can be answered for its own outcome, in some continuation, exactly when that is no `TimeoutError` |
| `WorkerProtocol.TimeoutErrorRun` | android_solver/service.py:2469-2505 | a job that ended with a `TimeoutError` is polled, probed and drained as one that still runs: the run |
| `WorkerProtocol.TurnedAwayExactlyWhenHeld` | android_solver/service.py:2446-2455 | in every sound state a request finding the lock held is turned away and changes nothing; one finding it free gets a job behind all orphans and, in some continuation, whatever that job returns |
| `WorkerProtocol.PolledCanReturn` | android_solver/service.py:2453-2471 | the executor can work through every orphan before a polled job, and its request be given what it returned |
| `WorkerProtocol.AnsweredForTheCause` | android_solver/service.py:2462-2483 | in every continuation a request whose deadline passed is answered 504 for that and one whose caller left 499, never anything else; its job is cancelled at once, and it keeps the lock until the job has finished or its grace is over |
| `WorkerProtocol.ProbeRaisedIsNeverAnswered` | android_solver/service.py:2474-2505 | a request that dies of its probe frees the lock at once and is answered in no continuation |
| `WorkerProtocol.InvKept` | android_solver/service.py:2450-2699 | every step of a worker keeps execution order, orphan marking, answers and the lock's balance |
| `WorkerProtocol.OrderKept` | android_solver/service.py:2066-2076 | the executor runs jobs one at a time, in order |
| `WorkerProtocol.OrphansKept` | android_solver/service.py:2676-2699 | every step keeps orphans marked |
| `WorkerProtocol.AnswersKept` | android_solver/service.py:2469-2505 | every step keeps answers honest |
| `HopProtocol.HopIsOwners` | android_solver/service.py:698-722 | from repoint to teardown the hop is on the operation's own upstream, one operation at a time, and DIRECT with the lock free unless the last teardown's repoint failed; all while no late repoint was applied |
| `HopProtocol.FreeHopStaysDirectExactlyWhen` | android_solver/service.py:1750-1765 | with the lock free the hop is sure to stay DIRECT in every continuation until it is taken exactly when it is DIRECT and no repoint to an upstream is in flight |
| `HopProtocol.LateRepointWhenFreeRun` | android_solver/proxy_hop.py:205-210 | a repoint that times out and arrives with the lock free leaves the hop on an upstream nobody uses: the run |
| `HopProtocol.ResultsAreVerified` | android_solver/service.py:885-891 | a result is returned only after observed egress equals expected egress, an exit of the operation's own upstream |
| `HopProtocol.NoLaneFailsAnother` | android_solver/service.py:195-212 | with sticky upstreams a failed check is due to a bypass or a late repoint, never to another lane's operation |
| `HopProtocol.DeviceLeftDirect` | android_solver/service.py:1750-1765 | outside an operation a device keeps no proxy unless the last clearing failed |
| `HopProtocol.HopStaysExactlyWhen` | android_solver/proxy_hop.py:191-212 | an operation is sure to keep the hop on its own upstream in every continuation until its teardown exactly when the hop is there and all that is in flight goes there |
| `HopProtocol.CheckSureExactlyWhen` | android_solver/service.py:885-891 | with sticky upstreams the egress check is sure to see the expected address through the hop exactly when neither the hop nor anything in flight leads to another |
| `HopProtocol.LateRepointRun` | android_solver/proxy_hop.py:205-210 | a repoint that times out and arrives later puts another lane on the wrong upstream: the run |
| `HopProtocol.InvKept` | android_solver/service.py:215-239 | every step of every lane keeps lock ownership, the hop's target, honest checks and clear devices |
| `HopProtocol.HopKeptInSection` | android_solver/service.py:1466-1494 | the steps inside a proxied section keep the hop in order |
| `HopProtocol.HopKeptAround` | android_solver/service.py:1750-1765 | waiting, teardown and late repoints keep the hop in order |
| `HopProtocol.BlamelessKept` | android_solver/service.py:885-891 | a check fails only for a bypass or a late repoint |
| `HopSteps.UndisturbedOperation` | android_solver/service.py:1466-1494 | from any state with the lock free, for any lane, upstream and exits: the whole operation returns its one result if the egress observed is the expected one, fails its check and returns none if not, and leaves hop, device and lock free and all else as it was |
| `HopSteps.FailedOperation` | android_solver/service.py:1466-1494 | an operation that fails at whatever point goes straight to its teardown without a result; what the hop, the device and the repoints in flight are then, for every fate of its own repoint and of the teardown |
| `HopSteps.TornDown` | android_solver/service.py:1750-1766 | the teardown: the device direct unless clearing fails, the hop DIRECT unless its repoint does, and the lock given up either way |
| `HopSteps.CancelledBeforeRepoint` | android_solver/service.py:215-231 | an operation cancelled while it waits, or on getting the lock, leaves everything as it was |
| `HopSteps.CheckedThroughTheProxy` | android_solver/service.py:885-891 | in every run a lane that checks its egress has a device on the proxy, and the check is passed exactly when what is seen is what was expected |
| `ProxyHops.UriNeverEmpty` | android_solver/proxy_hop.py:108-116 | no line is a SET with an empty URI |
| `ProxyHops.RoundTripExactlyWhen` | android_solver/proxy_hop.py:191-212 | a repoint arrives as it was meant exactly when the URI is not empty, has nothing to strip and no newline |
| `ProxyHops.IdleRoundTrip` | android_solver/proxy_hop.py:205 | the idle command arrives as it was meant |
| `ProxyHops.UnderstoodExactlyWhen` | android_solver/proxy_hop.py:107-133 | with just the blanks around it off, a line is idle exactly when it says so, a repoint to what follows "SET " exactly when it begins with that, and else unknown |
| `ProxyHops.ProxyHop.ApplyCommand` | android_solver/proxy_hop.py:93-133 | which lines are accepted, what the list then holds, and that a refused line changes nothing |
| `ProxyHops.ProxyHop.Apply` | android_solver/proxy_hop.py:109-133 | the same for a parsed command; the list object stays the same |
| `ProxyHops.Repoint` | android_solver/proxy_hop.py:191-212 | for any URI as it is: acknowledged, the hop forwards to what it understood, which for a clean URI is what was asked; refused, where it did before |
| `CdpSpec.SureExactlyWhen` | android_solver/cdp.py:105-132 | before a call is made: whatever arrives, if it is answered it gets its own answer, exactly when no answer under its id is unread or still to come |
| `CdpSpec.NextCallSureExactlyWhen` | android_solver/service.py:1419-1435 | the same of the next call after any session, receive errors included |
| `CdpSpec.CallGetsItsOwn` | android_solver/cdp.py:116-132 | with only raw answers pending, an answered call gets its own answer and leaves only raw answers |
| `CdpSpec.SessionMatches` | android_solver/cdp.py:105-186 | over a whole session with reused ids every call returns its own command's answer and only raw answers are left unread, so long as no call uses an id that is sent raw or was given up on |
| `CdpSpec.ReceiveErrorShiftsAnswers` | android_solver/service.py:1419-1435 | a session of two operations on a new socket: a call gives up, and the next under its id returns the old answer |
| `CdpSpec.EventsAreFrames` | android_solver/cdp.py:153-162 | collecting keeps exactly the events among the frames read |
| `CdpSpec.EventsConcat` | android_solver/cdp.py:153-162 | collecting events is order-preserving over the frames read |
| `CdpSpec.OpKeepsRawPending` | android_solver/service.py:1360-1385 | calls, calls that give up, the raw-sent command and event waits leave only raw or given-up answers pending |
| `CdpSocketClient.CdpSocket.RecvResult` | android_solver/cdp.py:105-113 | reads up to and including the first answer under the id, and no further |
| `CdpSocketClient.CdpSocket.CdpCall` | android_solver/cdp.py:116-132 | sends, and returns the first answer under its id |
| `CdpSocketClient.CdpSocket.CdpCallCollecting` | android_solver/cdp.py:135-162 | the same, with exactly the events before the answer, in order; what follows stays unread |
| `CdpSocketClient.CdpSocket.RecvCollecting` | android_solver/cdp.py:153-162 | the collecting loop |
| `CdpSocketClient.CdpSocket.WaitForEvent` | android_solver/cdp.py:165-186 | returns the first event of the name exactly when every reading up to it was before the deadline |
| `CdpSocketClient.OwnAnswer` | android_solver/cdp.py:116-132 | the client's call returns its own command's answer |
| `TapLoop.TapUntilCleared` | android_solver/service.py:1799-1836 | the loop is the turn-by-turn specification, of which `TapsExactlyWhen` and `ExitMeans` say what each turn does |
| `TapLoop.TapsAreSpaced` | android_solver/service.py:1819-1835 | no tap in a turn that saw verification, and successive taps at least the interval apart |
| `TapLoop.ClearedMeansRead` | android_solver/service.py:1801-1817 | a clearance is returned exactly when a turn that comes before the deadline read it; the loop goes on exactly while no turn was late, cancelled, cleared or failed by the device |
| `TapLoop.TapsFitTheDeadline` | android_solver/service.py:1799-1836 | for two taps or more, (taps - 2) intervals fit strictly between start and deadline |
| `TapLoop.TapsExactlyWhen` | android_solver/service.py:1819-1835 | over all readings a turn taps exactly when the loop comes to it running, before the deadline and not cancelled, reads neither cookie nor verification, sees the checkbox, and no tap came before or the interval has passed since the latest |
| `TapLoop.ExitMeans` | android_solver/service.py:1799-1836 | why the loop ends, from the readings of the turn it ends in |
| `FetchBatches.Tables` | android_solver/service.py:1067-1079 | the first request of a URL and the last status of a request win |
| `FetchBatches.EntryFor` | android_solver/service.py:1080-1106 | exactly when a URL yields an image |
| `FetchBatches.EntryIsFor` | android_solver/service.py:1067-1106 | from the events alone: not requested, a failure without a status; with the first request's last status 200, its image if a coded body came that is not empty; else a failure with that status |
| `FetchBatches.FetchBatch` | android_solver/service.py:1052-1106 | over the socket as it is left by the positions before: one entry per URL, in order, from the batch's own events and the answers read off the socket; it fails exactly when its load is not answered |
| `FetchBatches.DriveFetchImages` | android_solver/service.py:1008-1016 | all batches of four on one socket give one entry per URL in order, or the first reason to stop: a cancellation, the deadline, or a load that is not answered |
| `FetchBatches.DecodeFetchImages` | src/manga_gateway/framework/android_solver.py:316-337 | aligned to the URLs asked for: the body of the last element that names the URL, if it is not empty, and else nothing |
| `FetchBatches.DecodedIsLastSame` | src/manga_gateway/framework/android_solver.py:322-337 | end to end a position gets what was captured at the last position with its URL |
| `FetchBatches.OwnExactlyWhenNotRepeated` | src/manga_gateway/framework/android_solver.py:322-337 | over all complete runs a position is sure to get what was captured there exactly when its URL does not come again |
| `FetchBatches.RepeatLosesImage` | src/manga_gateway/framework/android_solver.py:322-337 | a captured image is lost to a later failed repeat: the complete run |
| `FetchBodies.Conserved` | android_solver/service.py:1052-1106 | in every run the answers to asks still to be read are those there were to begin with and one for each ask that gave up, less those that loads skipped |
| `FetchBodies.OwnBodyExactlyWhen` | android_solver/service.py:1090-1101 | on a socket without earlier asks, a position is sure of the answer to its own ask, whatever arrives, exactly when loads have skipped as many stale answers as earlier asks gave up |
| `FetchBodies.OwnBodyInBatch` | android_solver/service.py:1090-1101 | within a batch a position is sure exactly when the first was and no ask of the batch before it gave up; in the first batch the first is |
| `FetchBodies.SureIsGenuine` | android_solver/service.py:1090-1106 | a position that is sure gets its own answer's image or none, however its ask ends |
| `FetchBodies.NoneGivesUp` | android_solver/service.py:1090-1106 | with no receive error on an earlier ask a position is sure, and its image is its own |
| `FetchBodies.ReceiveErrorShiftsImages` | android_solver/service.py:1098-1100 | after one swallowed receive error the first URL's image is delivered as the second's: the run |
| `FetchBodies.LoadSkipsStale` | android_solver/cdp.py:153-162 | the next batch's load can skip the stale answer, after which a position is sure again: the run |
| `FetchBodies.FetchImages` | src/manga_gateway/framework/android_solver.py:1559-1600 | for distinct URLs each position has exactly the body captured there, or nothing; and that is the answer to its own ask if no ask gave up |
| `CdpPending.CallConserves` | android_solver/cdp.py:105-162 | a call under any id leaves one more answer under an id to read if it was sent under that id, and as many fewer as it read |
| `CdpPending.OwnOrNothing` | android_solver/cdp.py:105-132 | with nothing under its id to read, a call finds its own answer or none, however it ends |
| `CdpPending.OthersKeepQuiet` | android_solver/service.py:996-1007 | however a socket was used under other ids, nothing under this id is left to read |
| `FlightSpec.FetchesInFlight` | src/manga_gateway/framework/enum_cache.py:190-238 | in every run the fetches of a key in flight are at most one more than the futures cancelled followers dropped |
| `FlightSpec.CancelledFollowerLetsTwoFetch` | src/manga_gateway/framework/enum_cache.py:199-201 | one cancelled follower is enough for two fetches: the run |
| `FlightSpec.FollowerGetsLeadersOutcome` | src/manga_gateway/framework/enum_cache.py:199-201 | a follower gets its leader's value or exception, but for a dropped future |
| `FlightSpec.SlotFollowsLeader` | src/manga_gateway/framework/enum_cache.py:203-238 | a leader's end empties the key's slot, and a slot belongs to a leader still fetching |
| `FlightSpec.HitIsFresh` | src/manga_gateway/framework/enum_cache.py:158-195 | a hit is genuine and younger than its window, and starts no fetch |
| `FlightSpec.ServedExactlyFor` | src/manga_gateway/framework/enum_cache.py:158-195 | a value a fetch brought or a replace put in is given without a fetch exactly while the window of an empty value, of its source, or the default, clamped, has not passed |
| `FlightSpec.FetchesExactlyWhen` | src/manga_gateway/framework/enum_cache.py:190-206 | in every run without dropped futures of the key: a caller not served from the store fetches exactly when nobody is fetching the key, and else waits for the one who is |
| `FlightSpec.EndsAsItsFetch` | src/manga_gateway/framework/enum_cache.py:207-242 | a leader's call ends with what its fetch brought or raised, a cancelled follower's with the cancellation, and no other caller's with them |
| `FlightSpec.ReturnsGenuineValues` | src/manga_gateway/framework/enum_cache.py:177-242 | every value a caller gets came from a successful fetch or replace for its key |
| `FlightSpec.OnlySuccessStores` | src/manga_gateway/framework/enum_cache.py:207-236 | only a successful fetch or a replace stores |
| `FlightSpec.AlwaysInv` | src/manga_gateway/framework/enum_cache.py:177-242 | every run keeps futures, callers, slots, store and the bound in step |
| `FlightCache.SingleFlightCache.Enter` | src/manga_gateway/framework/enum_cache.py:177-206 | a hit exactly for an entry that has not lapsed; else it joins the key's pending future if there is one, and leads under a new one if not; switched off, bare |
| `FlightCache.SingleFlightCache.Succeed` | src/manga_gateway/framework/enum_cache.py:233-238 | stores the value for its window, settles the future unless it is done, and clears the slot |
| `FlightCache.SingleFlightCache.Fail` | src/manga_gateway/framework/enum_cache.py:208-218 | settles the future unless it is done, and clears the slot; stores nothing |
| `FlightCache.SingleFlightCache.Replace` | src/manga_gateway/framework/enum_cache.py:158-175 | stores the value with the moment it lapses by the window of an empty value, of its source, or the default, clamped; not at all if that is not ahead |
| `FlightCache.SingleFlightCache.Contains` | src/manga_gateway/framework/enum_cache.py:244-247 | true exactly for a live entry |
| `Enumerations.NoFalseEmpty` | src/manga_gateway/framework/enum_cache.py:96-112 | an accepted window without a match means a feed without one |
| `Enumerations.CompleteExactlyAboveLowest` | src/manga_gateway/framework/enum_cache.py:96-112 | an accepted window is the complete answer exactly above its lowest whole number |
| `Enumerations.BelowLowest` | src/manga_gateway/framework/base.py:169-196 | above its lowest whole number a window filters as its whole feed does |
| `Enumerations.LowestRow` | src/manga_gateway/framework/enum_cache.py:110 | the lowest number is a row's and below all others |
| `Enumerations.NothingMatches` | src/manga_gateway/framework/base.py:192-196 | the filter is empty exactly when no row matches |
| `Enumerations.FiltersMatches` | src/manga_gateway/framework/base.py:169-196 | the filter keeps all of what lies within the whole number searched for, drops all of what does not, and keeps everything when no chapter is searched for |
| `Enumerations.CoversExactlyWhen` | src/manga_gateway/framework/enum_cache.py:96-112 | a window that is not the whole feed is accepted exactly for a chapter between two of its own rows, by whole numbers |
| `Enumerations.HighestRow` | src/manga_gateway/framework/enum_cache.py:110 | the highest number is a row's and above all others |
| `CooldownSpec.FailingSourceBacksOff` | src/manga_gateway/framework/cooldown.py:67-114 | in every run, cancelled visits included, a call after n failures since the last success comes no earlier than the last failure plus its cooldown, and than the first plus the cooldowns of failures 2 to n |
| `CooldownSpec.StoppedVisitFreesNext` | src/manga_gateway/framework/fanout.py:105-186 | where a visit may call, a second one right after it calls too if the first is cancelled: the run |
| `CooldownSpec.WindowOpensExactlyWhen` | src/manga_gateway/framework/fanout.py:110-186 | the end of a visit opens a window exactly when it fails before its success is recorded and the source had failed before |
| `CooldownSpec.LateFailuresNeverCool` | src/manga_gateway/framework/fanout.py:110-186 | in every run in which no early failure follows a failure, however many late failures there are, no window ever opens |
| `FanOuts.LateFailureLeavesFirst` | src/manga_gateway/framework/fanout.py:112-186 | a visit whose warnings cannot be collected leaves a streak of one and no window |
| `CooldownSpec.SkipsAndSuccesses` | src/manga_gateway/framework/cooldown.py:85-114 | a skip changes nothing, a success clears both dictionaries, and a source is skipped exactly while its window is open |
| `CooldownSpec.ConsistentKept` | src/manga_gateway/framework/cooldown.py:67-114 | the dictionaries say exactly what the history of the source says, after every event |
| `CooldownSpec.OtherSource` | src/manga_gateway/framework/cooldown.py:62-65 | an event of one source says nothing about another |
| `CooldownSpec.BackoffDoubles` | src/manga_gateway/framework/cooldown.py:67-83 | the second failure in a row opens a window of the base, each further one twice the last, none more than the maximum |
| `CooldownSpec.DefaultBackoffs` | src/manga_gateway/framework/cooldown.py:67-83 | with 30 s and 300 s: 30, 60, 120, 240, and 300 ever after |
| `FanOuts.SourceFailureCooldown.RecordFailure` | src/manga_gateway/framework/cooldown.py:67-83 | one more failure in the streak, and from the second on a window for its backoff; nothing when switched off |
| `FanOuts.SourceFailureCooldown.RecordSuccess` | src/manga_gateway/framework/cooldown.py:85-95 | streak and window forgotten; nothing when switched off |
| `FanOuts.SourceFailureCooldown.InCooldown` | src/manga_gateway/framework/cooldown.py:97-114 | whether the source is blocked, and the lapsed expiry forgotten |
| `FanOuts.FanOut` | src/manga_gateway/framework/fanout.py:80-197 | for any interleaving each source's rows, warnings, streak and window are what its own outcome gives, no other warning is shown, and rows are joined in source order |
| `FanOuts.FanOutRun.Begin` | src/manga_gateway/framework/fanout.py:100-111 | a source in cooldown is skipped with one warning, else started |
| `FanOuts.FanOutRun.End` | src/manga_gateway/framework/fanout.py:112-186 | what each outcome adds and tells the cooldown: a run that raised, one more failure and a window exactly if it had failed before; a good one, its rows and warnings in order and a clean slate |
| `FanOuts.SlotDecides` | src/manga_gateway/framework/cooldown.py:67-114 | what the cooldown does to a source depends on that source's entries only |
| `FanOuts.ThirdIsSkipped` | src/manga_gateway/framework/fanout.py:100-186 | three fan-outs: a source that raised in the first two is skipped by a third that comes to it when the second ended, with one warning and no rows |
| `FanOuts.JoinedConcat` | src/manga_gateway/framework/fanout.py:188-197 | joining keeps the order of the sources and of their rows |
| `Pagination.DedupMeans` | src/manga_gateway/framework/antibot.py:1105-1113 | merging keeps exactly the first row of every id, in order, and loses no id |
| `Pagination.Merge` | src/manga_gateway/framework/antibot.py:1105-1113 | the merge loop is that dedup of all rows so far |
| `Pagination.PollForChange` | src/manga_gateway/framework/antibot.py:1140-1154 | the poll sees a change exactly when at one of its twenty looks an object's id is shown that was not before the click, or one is gone |
| `Pagination.WalkNext` | src/manga_gateway/framework/antibot.py:1115-1158 | the walk returns the merged rows of pages 1 to the first that is at the limit, has no Next, or shows no other ids after a click |
| `Pagination.ReachExactlyWhen` | src/manga_gateway/framework/antibot.py:1120-1156 | exactly when the walk reads pages 1 to m |
| `Pagination.ChangesMeans` | src/manga_gateway/framework/antibot.py:1140-1154 | a click is seen to change the rows exactly when other ids are shown at one of the twenty polls |
| `Pagination.SyncedIsFirst` | src/manga_gateway/framework/antibot.py:1398-1406 | the number read off the URL is the one first shown at one of the polls |
| `Pagination.PagesInOrder` | src/manga_gateway/framework/antibot.py:1319-1338 | the rows of the pages stand one page after the other, each page's as they are |
| `Pagination.DiscoverPageCount` | src/manga_gateway/framework/antibot.py:1387-1416 | one page without a Last control; else the number the URL first shows at one of twenty polls, or one, and no more than the limit |
| `Pagination.FetchOnePage` | src/manga_gateway/framework/antibot.py:1453-1460 | a page fails unless it is a list with rows: with its own number when it has none, and with what the evaluation raised when it raised |
| `Pagination.Gather` | src/manga_gateway/framework/antibot.py:1304-1318 | the order in which page tasks settle does not show |
| `Pagination.ParallelPages` | src/manga_gateway/framework/antibot.py:1319-1338 | a list exactly when every page is one with rows, and then merged from them in page order; else the error of the first page that is not; never a part |
| `Pagination.DedupSame` | src/manga_gateway/framework/antibot.py:1105-1113 | more rows change the merged list exactly when they bring a new id |
| `Pagination.FanOutIsWalkExactlyWhen` | src/manga_gateway/framework/antibot.py:1288-1338 | whatever page count is discovered, the fan-out answers what the walk does exactly when the pages it leaves out bring no new id, or those it fetches too many neither fail nor bring one |
| `Pagination.UnsyncedLastIsPartial` | src/manga_gateway/framework/antibot.py:1387-1416 | a site on which an unsynced or stale Last click makes the fan-out answer page 1 alone, without an error |
| `Pagination.BothWays` | src/manga_gateway/framework/antibot.py:1288-1416 | walk and discovered fan-out side by side return the same list under exactly that condition, and so when the URL shows the site's own count |
| `Pagination.ZeroLimitParts` | src/manga_gateway/framework/antibot.py:1115-1129 | with a limit of 0 they differ |
| `PieceGrid.MakeAxis` | scripts/mangafire_quality_proof.py:73-76 | the pieces of an axis cover it, the last one no longer than the others, and are as long as the piece size or the least split allows |
| `PieceGrid.TilesOnce` | scripts/mangafire_quality_proof.py:78-82 | every pixel lies in exactly one piece |
| `PieceGrid.SlotInvolution` | scripts/mangafire_quality_proof.py:83-84 | the map of pieces is its own inverse and fixes the last piece |
| `PieceGrid.SourceInvolution` | scripts/mangafire_quality_proof.py:83-86 | the map of pixels stays inside and is its own inverse |
| `PieceGrid.BlockFits` | scripts/mangafire_quality_proof.py:81-86 | every crop and paste lies inside its image |
| `PieceGrid.PermutedTwice` | scripts/mangafire_quality_proof.py:83-86 | permuting twice gives back every pixel |
| `PieceGrid.ScatterIsGather` | scripts/mangafire_quality_proof.py:117-130 | writing to where the map points and reading from there give the same image, and no other |
| `PieceGrid.OnePlace` | scripts/mangafire_quality_proof.py:83-86 | each pixel stands at the same place of its piece as just one pixel of the piece its own changes places with, and that is where it comes from |
| `PieceGrid.PermutedTrades` | scripts/mangafire_quality_proof.py:83-86 | the permuted image trades its blocks that way |
| `PieceGrid.Reassemble` | scripts/mangafire_quality_proof.py:72-87 | each block of the result is, pixel by pixel, the image's block of the piece it changes places with: their numbers add up to the last and the offset modulo the last, and the last stays |
| `PieceGrid.Scramble` | scripts/mangafire_quality_proof.py:117-130 | the same the other way: each block of the original is the scrambled image's block of the piece it changes places with |
| `PieceGrid.RoundTrips` | scripts/mangafire_quality_proof.py:72-130 | reassembling a scrambled image, and scrambling a reassembled one, give back every pixel |

## Left out

- adb, the browser, httpx, sockets, JSON, base64 and image coding: arbitrary inputs or parameters.
- FastAPI wiring, error envelopes, logging, metrics, settings, authentication and allowlists.
- `lanes.py`, `health.py`, `proxy_pool.py`, `registry.py`, `relevance.py`, `sorting.py`, `external_links.py`, `turnstile.py` and the probing scripts: they would add only easy members.
- Liveness under a real scheduler: only safety and explicit termination measures are proved.
- The dead-driver retry of `antibot.py` and script evaluations that raise inside the walk, which end it with no list.
- Ids that cannot be hashed, pages that show something third while they change, and a base64 text that does not decode.
- An unconfigured sidecar, with which every operation raises before its first POST.
- The shutdown of the executors, and cancellation of a shared task by the event loop's own shutdown.
- `_coalesced_solve` run inside a caller: the end of its operation and the caller's swap are two steps here, so more interleavings are allowed than the code has.
- `asyncio.Lock` is fair; here any waiter may get the lock next. The event loop's first-come order is asked for in `DeviceLedger` only: the callers of a task are woken one right after another, and before the sidecar can reply to the next POST.
- ClearanceStore.AndroidSolver.NextDelay: is the sleep after a tick that got to its end; one that does not begin under a lease, or gives way to one, is followed by the least sleep.
- EvalLadder.Climb: takes the outcomes of its ops from the device as the ladder sees it; `EvalLadder.PostEval` shows how each comes about, and what a prime brings into the store is in the device protocol.
- Devtools frames that are no JSON object, or an answer whose result is none: reading one raises, and what follows it stays unread.
- FanOuts.FanOut: a cancelled fan-out returns nothing and is not modelled; in the cooldown's own runs a visit may be cancelled. A warning collector either returns its list or raises; one that raises halfway through its list is not modelled.
- Pagination.BothWays: promises nothing for a site whose pages change between the two readings.
- The device lock, the registry, the gate and the loops of the solver are a step machine over values; the class `AndroidSolver` has the store's fields.
- Floating point: times are integers or reals, and no rounding is modelled.
