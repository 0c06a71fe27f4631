# Asynchronous block ticks in AkiAsync: a Dafny model

AkiAsync hooks `ServerLevel#tickBlock` of a Minecraft server
(`ServerLevelTickBlockMixin`). For every block tick the hook decides whether
the tick runs on a worker pool or stays on the main thread:

1. a tick whose block state no longer matches the block is cancelled;
2. a block whose lower-cased description id contains an entry of the static
   blacklist, or of the blacklist learned at run time, stays on the main thread;
3. when 50 tasks (`MAX_PENDING_TASKS`) are pending the tick is rejected and stays
   on the main thread;
4. otherwise the tick is counted and handed to the pool, and the default tick is
   cancelled; if the hand-over throws, the slot is given back and the default
   tick runs;
5. a pool task that throws is classified: a thread-safety error teaches the
   learned blacklist the block's name and schedules a synchronous retry, which
   ticks only if the same block still stands at the position.

The model is split by component:

- `strings.dfy` (`JavaStrings`): `String.contains`, proved equal to a
  substring specification, and `String.toLowerCase`.
- `blacklist.dfy` (`Blacklist`): the static blacklist, its initializer and
  the blacklist rule.
- `errors.dfy` (`AsyncErrors`): the exception classifier `isAsyncError`.
- `admission.dfy` (`Admission`): the flow control as a step function on the
  three counters, and what a burst of requests does to them.
- `scheduler.dfy` (`TickBlockMixin`): the hook's static state as a class.
  Its methods are the tick hook, the pool task and the error handler, each
  specified against the functions above. The ghost fields `inFlight` and
  `leaked` account for every unit of `pendingTasks`.

The world is taken as parameters. For the stale check, "the block of
`getBlockState(pos)`" is a `Block` value. A `Block` carries an identity apart
from its description id: `BlockState.is` compares identities, and the
blacklist looks only at the lower-cased id. The pool's answer to a submission is
a `Submission` (`Accepted`, `QueueFull`, `Throws`). A tick's outcome is a
`TickOutcome`. The retry the error handler schedules is returned as a `Retry`
value, and `RunRetry` says what running it does.

Two behaviours are modelled as the code has them:

- **Queue full.** The pool's rejection handler counts a rejection and returns
  normally. So the hook still cancels the default tick, and the slot is never
  given back: that tick is dropped, and its slot leaks. `SaturatedRejects`
  states the end point: once 50 slots have leaked, nothing is in flight, every
  eligible tick is rejected and runs on the main thread, and the hook stays in
  that state. In the source this path is latent rather than observable (see
  the `Submission` line under "## Left out").
- **Retry only for thread-safety errors.** The error handler that the rest of
  the file uses (HEAD side of the merge conflict, lines 315-348) schedules the
  retry only when `isAsyncError` holds. Any other error is dropped. A design
  that always retries and only learns on classified errors would differ; the
  model follows the code.

The classifier is case-sensitive. `CapitalisedAsyncNotRecognised` shows that a
message spelt "Asynchronous ..." in a plain `IllegalStateException` is not
recognised. Its class-name branch reads the exception's own class
(`t.getClass().getName()`, line 343), not the class of the code that threw it.
So that branch fires only for an exception type whose name contains
`AsyncCatcher` (`AsyncCatcherRecognised`). An `IllegalStateException` thrown from
inside such a class is classified by its message alone.

## Model

| member | source | states |
|---|---|---|
| `JavaStrings.Contains` | src/mixin/java/org/virgil/akiasync/mixin/mixins/chunk/ServerLevelTickBlockMixin.java:299 | `s.contains(sub)` holds exactly when `sub` occurs in `s` at some offset (the empty string occurs everywhere) |
| `JavaStrings.ToLower` | src/mixin/java/org/virgil/akiasync/mixin/mixins/chunk/ServerLevelTickBlockMixin.java:221 | same length, each letter A-Z replaced by its lower-case form, every other character kept |
| `JavaStrings.LowerChar` | src/mixin/java/org/virgil/akiasync/mixin/mixins/chunk/ServerLevelTickBlockMixin.java:221 | the result is never upper-case; an upper-case letter moves by 32, anything else is kept |
| `JavaStrings.ToLowerIdempotent` | src/mixin/java/org/virgil/akiasync/mixin/mixins/chunk/ServerLevelTickBlockMixin.java:319 | lower-casing twice is lower-casing once, so a learned name is its own lower-case form |
| `JavaStrings.LowerSubstringSurvivesToLower` | src/mixin/java/org/virgil/akiasync/mixin/mixins/chunk/ServerLevelTickBlockMixin.java:221 | lower-casing a description id keeps every occurrence of a lower-case entry in it |
| `Blacklist.InitStaticBlacklist` | src/mixin/java/org/virgil/akiasync/mixin/mixins/chunk/ServerLevelTickBlockMixin.java:56-171 | adding the initializer's names one by one to an empty set yields exactly `STATIC_BLACKLIST` |
| `Blacklist.StaticMatchAlwaysBlacklisted` | src/mixin/java/org/virgil/akiasync/mixin/mixins/chunk/ServerLevelTickBlockMixin.java:298-302 | a name containing a static entry is blacklisted whatever has been learned |
| `Blacklist.BlacklistedMonotone` | src/mixin/java/org/virgil/akiasync/mixin/mixins/chunk/ServerLevelTickBlockMixin.java:54 | a blacklisted name stays blacklisted when the learned set grows |
| `Blacklist.LearnedNameBlacklisted` | src/mixin/java/org/virgil/akiasync/mixin/mixins/chunk/ServerLevelTickBlockMixin.java:304-310 | after learning a name, every name containing it is blacklisted |
| `Blacklist.RedstoneWireBlacklisted` | src/mixin/java/org/virgil/akiasync/mixin/mixins/chunk/ServerLevelTickBlockMixin.java:74 | `block.minecraft.redstone_wire` is blacklisted through the entry `redstone` |
| `Blacklist.SandstoneBlacklisted` | src/mixin/java/org/virgil/akiasync/mixin/mixins/chunk/ServerLevelTickBlockMixin.java:66 | `block.minecraft.sandstone` is blacklisted through the entry `sand` (substring matching over-approximates) |
| `AsyncErrors.IsAsyncError` | src/mixin/java/org/virgil/akiasync/mixin/mixins/chunk/ServerLevelTickBlockMixin.java:340-348 | false for null; otherwise true exactly when the message is non-null and contains `async` or `thread`, or the class name contains `AsyncCatcher` |
| `AsyncErrors.MainThreadMentionsThread` | src/mixin/java/org/virgil/akiasync/mixin/mixins/chunk/ServerLevelTickBlockMixin.java:346-347 | the `main thread` test is subsumed by the `thread` test |
| `AsyncErrors.CapitalisedAsyncNotRecognised` | src/mixin/java/org/virgil/akiasync/mixin/mixins/chunk/ServerLevelTickBlockMixin.java:344-348 | case-sensitivity: an `IllegalStateException` with message "Asynchronous tick!" is not classified as a thread-safety error |
| `AsyncErrors.AsyncCatcherRecognised` | src/mixin/java/org/virgil/akiasync/mixin/mixins/chunk/ServerLevelTickBlockMixin.java:348 | an exception of class `org.spigotmc.AsyncCatcher` is classified as such whatever its message, null included |
| `Admission.TickStep` | src/mixin/java/org/virgil/akiasync/mixin/mixins/chunk/ServerLevelTickBlockMixin.java:209-293 | the default tick is cancelled exactly when the state is stale, or when the block is eligible, below the cap and the submission does not throw; `0 <= pending <= 50` is preserved; no counter decreases |
| `Admission.EarlyExits` | src/mixin/java/org/virgil/akiasync/mixin/mixins/chunk/ServerLevelTickBlockMixin.java:215-259 | a stale request is cancelled and a blacklisted one is not; neither changes a counter |
| `Admission.AtCapRejects` | src/mixin/java/org/virgil/akiasync/mixin/mixins/chunk/ServerLevelTickBlockMixin.java:261-268 | at the cap: one more rejection, `pending` and `submitted` unchanged, not cancelled |
| `Admission.BelowCapSubmits` | src/mixin/java/org/virgil/akiasync/mixin/mixins/chunk/ServerLevelTickBlockMixin.java:270-292 | below the cap `submitted` rises by one; accepted: `pending` +1, cancelled; queue full: `pending` +1, `rejected` +1, cancelled; throws: `pending` given back, not cancelled |
| `Admission.BurstFillsCap` | src/mixin/java/org/virgil/akiasync/mixin/mixins/chunk/ServerLevelTickBlockMixin.java:261-271 | `n` requests with no task finishing admit `min(n, 50 - pending)` and reject the rest |
| `Admission.BurstOfFailedSubmissions` | src/mixin/java/org/virgil/akiasync/mixin/mixins/chunk/ServerLevelTickBlockMixin.java:289-291 | below the cap, submissions that all throw leave `pending` where it was and reject nothing |
| `Admission.SixtyRequestsFromRest` | src/mixin/java/org/virgil/akiasync/mixin/mixins/chunk/ServerLevelTickBlockMixin.java:38 | from rest, 60 requests give 50 pending, 50 submitted, 10 rejected |
| `Admission.OneOverTheCap` | src/mixin/java/org/virgil/akiasync/mixin/mixins/chunk/ServerLevelTickBlockMixin.java:262 | `MAX_PENDING_TASKS + 1` requests from rest give exactly one rejection |
| `TickBlockMixin.BlockName` | src/mixin/java/org/virgil/akiasync/mixin/mixins/chunk/ServerLevelTickBlockMixin.java:221 | the classified name has the description id's length and is already lower-case |
| `TickBlockMixin.RunRetry` | src/mixin/java/org/virgil/akiasync/mixin/mixins/chunk/ServerLevelTickBlockMixin.java:325-335 | the retry ticks exactly when the block now at the position is the failed block itself (same identity, as `current.is(block)`), so another block sharing its description id is skipped; the tick's outcome, an exception included, goes no further |
| `TickBlockMixin.ServerLevelTickBlock.constructor` | src/mixin/java/org/virgil/akiasync/mixin/mixins/chunk/ServerLevelTickBlockMixin.java:34-54 | counters start at zero and the learned blacklist empty |
| `TickBlockMixin.ServerLevelTickBlock.IsBlockBlacklisted` | src/mixin/java/org/virgil/akiasync/mixin/mixins/chunk/ServerLevelTickBlockMixin.java:296-312 | the two scans return true exactly when some static or learned entry occurs in the name |
| `TickBlockMixin.ServerLevelTickBlock.HandleTick` | src/mixin/java/org/virgil/akiasync/mixin/mixins/chunk/ServerLevelTickBlockMixin.java:209-259 | a tick whose position holds another block (by identity, as `blockState.is(block)`) is cancelled and a blacklisted one left alone, both changing nothing; otherwise the flow control decides; overall, new counters and the cancel flag are those of `TickStep`, the learned set is unchanged, and `pending == inFlight + leaked <= 50` is kept |
| `TickBlockMixin.ServerLevelTickBlock.Submit` | src/mixin/java/org/virgil/akiasync/mixin/mixins/chunk/ServerLevelTickBlockMixin.java:261-292 | counters and cancel flag are those of `TickStep` for an eligible, current tick; an accepted task joins `inFlight`, a queue-full one leaks its slot; the invariant is kept |
| `TickBlockMixin.ServerLevelTickBlock.RunTask` | src/mixin/java/org/virgil/akiasync/mixin/mixins/chunk/ServerLevelTickBlockMixin.java:278-286 | the task's slot is given back exactly once whatever the tick did; a thread-safety error learns the name and yields a retry |
| `TickBlockMixin.ServerLevelTickBlock.HandleAsyncError` | src/mixin/java/org/virgil/akiasync/mixin/mixins/chunk/ServerLevelTickBlockMixin.java:316-337 | a classified error adds the lower-cased name (blacklisted afterwards) and schedules a retry; any other error changes nothing and schedules nothing |
| `TickBlockMixin.SaturatedRejects` | src/mixin/java/org/virgil/akiasync/mixin/mixins/chunk/ServerLevelTickBlockMixin.java:261-268 | once 50 slots have leaked, an eligible, current tick is rejected (one more rejection, nothing submitted) and not cancelled; `pending` stays at 50, nothing is in flight, and the precondition holds again afterwards, so every later such tick is rejected too |
| `TickBlockMixin.SameNameOtherBlockIsStale` | src/mixin/java/org/virgil/akiasync/mixin/mixins/chunk/ServerLevelTickBlockMixin.java:215-218 | a tick whose position now holds a different block with the same description id is cancelled as stale and moves no counter |
| `TickBlockMixin.LearnedEntryCatchesRawId` | src/mixin/java/org/virgil/akiasync/mixin/mixins/chunk/ServerLevelTickBlockMixin.java:298-310 | a learned name is lower-case, so every block whose description id contains it is blacklisted, whatever the case of the rest of the id |
| `TickBlockMixin.LearnedBlockStaysOnMainThread` | src/mixin/java/org/virgil/akiasync/mixin/mixins/chunk/ServerLevelTickBlockMixin.java:316-335 | an eligible block goes to the pool; after a thread-safety error its retry is scheduled and its next tick stays on the main thread; running the retry ticks the block while it still stands at the position and is skipped once another block replaced it |
| `TickBlockMixin.LearnTwiceUnchanged` | src/mixin/java/org/virgil/akiasync/mixin/mixins/chunk/ServerLevelTickBlockMixin.java:316-322 | a second thread-safety error from the same block leaves the learned blacklist as the first left it (the name added once), and both schedule the same retry |
| `TickBlockMixin.RedstoneWireBlockBlacklisted` | src/mixin/java/org/virgil/akiasync/mixin/mixins/chunk/ServerLevelTickBlockMixin.java:221 | the lower-cased description id of redstone dust contains the entry `redstone`, so the block is blacklisted whatever has been learned |
| `TickBlockMixin.RedstoneWireTicksSynchronously` | src/mixin/java/org/virgil/akiasync/mixin/mixins/chunk/ServerLevelTickBlockMixin.java:256-259 | a redstone wire tick is not cancelled and moves no counter |

## Left out

- The thread pool (lines 178-206): pool size from the processor count, keep-alive time, daemon threads, the 4096-entry queue and the lazy, synchronized creation. The pool's answer to a submission is the `Submission` parameter.
- Concurrency: the check of `pendingTasks` and its later increment are not atomic, and the `long` counters are updated without synchronisation. The model is sequential: one call at a time.
- `Submission`: the pool's answer is a free parameter, so the model lets `QueueFull` happen in any state. In the source the rejection handler runs only when the 4096-entry queue (line 189) is full. But every queued task holds a `pendingTasks` slot from line 270 until the `finally` at line 284, and submissions stop at 50 slots. With the hook called from the server thread alone, the queue cannot fill and no slot leaks. The leak and the saturation that `SaturatedRejects` describes are latent in the code, not behaviour a running server shows.
- `Submission.Throws`: stands for an `Exception` from `getExecutor().execute`, which line 289 catches. An `Error` (an `OutOfMemoryError` when no worker thread can be started, say) is not caught: it escapes the hook after `pendingTasks` and `totalTasksSubmitted` were incremented, and its slot is never given back. This outcome is not modelled.
- The `ENABLED` flag (lines 29 and 210) is the constant `true`, so its early return is dead code and is not modelled.
- Logging: the logger calls, the warning every 100 rejections and the 1% sampling of the retry warning.
- Minecraft calls: `getBlockState`, `BlockState.is`, `BlockState.tick`, `getDescriptionId`, `level.random` and `getServer().execute`. They become parameters (`Block`, `TickOutcome`) and a returned `Retry` value. The retry's `try` also covers `getBlockState`; the model lets only the tick fail.
- The non-HEAD side of the two merge conflicts (lines 222-253 and 350-356). It uses names the file does not define, and its policy is to retry every error without learning.
- `JavaStrings.ToLower`: lower-cases only the ASCII letters A-Z. Java's `toLowerCase()` uses Unicode rules and the default locale; block description ids are ASCII.
- `TickBlockMixin.ServerLevelTickBlock.HandleTick`: the `long` counters are unbounded naturals, with no 64-bit wrap-around. `pendingTasks` never exceeds 50, so its `int` width does not matter.
