/** Flow control of the tick hook as a step function on its three counters. */
module Admission {

  /** MAX_PENDING_TASKS: the cap on ticks handed to the pool and not yet released. */
  const MaxPendingTasks: int := 50

  /** The static counters: `pendingTasks`, `totalTasksSubmitted`, `totalTasksRejected`. */
  datatype Counters = Counters(pending: int, submitted: nat, rejected: nat)

  /** What `getExecutor().execute(...)` does with the task: queue it, hand it to the
      rejection handler because the queue is full (which counts a rejection and
      returns normally), or throw an `Exception`, which the hook catches. */
  datatype Submission = Accepted | QueueFull | Throws

  /** The counters after one tick request, and whether the default path was cancelled. */
  datatype TickResult = TickResult(counters: Counters, cancelled: bool)

  /** The invariant the hook keeps between calls. */
  predicate InBounds(c: Counters)
  {
    0 <= c.pending <= MaxPendingTasks
  }

  /** One tick request: `stateMatches` is `blockState.is(block)`, `blacklisted` the
      verdict of the classifier on the block's name. */
  function TickStep(c: Counters, stateMatches: bool, blacklisted: bool, submission: Submission): (r: TickResult)
    ensures r.cancelled <==> !stateMatches || (!blacklisted && c.pending < MaxPendingTasks && submission != Throws)
    ensures InBounds(c) ==> InBounds(r.counters)
    ensures r.counters.pending >= c.pending
    ensures r.counters.submitted >= c.submitted && r.counters.rejected >= c.rejected
  {
    if !stateMatches then
      TickResult(c, true)
    else if blacklisted then
      TickResult(c, false)
    else if c.pending >= MaxPendingTasks then
      TickResult(c.(rejected := c.rejected + 1), false)
    else
      var admitted := Counters(c.pending + 1, c.submitted + 1, c.rejected);
      match submission
      case Accepted => TickResult(admitted, true)
      case QueueFull => TickResult(admitted.(rejected := admitted.rejected + 1), true)
      case Throws => TickResult(admitted.(pending := admitted.pending - 1), false)
  }

  /** A stale request is cancelled and changes no counter; a blacklisted one is left to
      the default path and changes no counter either. */
  lemma EarlyExits(c: Counters, blacklisted: bool, submission: Submission)
    ensures TickStep(c, false, blacklisted, submission) == TickResult(c, true)
    ensures TickStep(c, true, true, submission) == TickResult(c, false)
  {
  }

  /** At the cap a request is rejected: one more rejection and nothing else changes. */
  lemma AtCapRejects(c: Counters, submission: Submission)
    requires c.pending >= MaxPendingTasks
    ensures TickStep(c, true, false, submission) ==
      TickResult(Counters(c.pending, c.submitted, c.rejected + 1), false)
  {
  }

  /** Below the cap a request is submitted: `pending` and `submitted` go up by one, and
      the pool's answer decides the rest. A queue-full answer still cancels the default
      path, and its slot is not given back. */
  lemma BelowCapSubmits(c: Counters, submission: Submission)
    requires c.pending < MaxPendingTasks
    ensures var r := TickStep(c, true, false, submission);
      r.counters.submitted == c.submitted + 1 &&
      match submission
      case Accepted => r.counters.pending == c.pending + 1 && r.counters.rejected == c.rejected && r.cancelled
      case QueueFull => r.counters.pending == c.pending + 1 && r.counters.rejected == c.rejected + 1 && r.cancelled
      case Throws => r.counters.pending == c.pending && r.counters.rejected == c.rejected && !r.cancelled
  {
  }

  /** `n` eligible, current requests in a row, each answered by the pool with
      `submission`, while no task finishes. */
  function Burst(c: Counters, n: nat, submission: Submission): Counters
    decreases n
  {
    if n == 0 then c else Burst(TickStep(c, true, false, submission).counters, n - 1, submission)
  }

  function Min(a: int, b: int): int { if a <= b then a else b }

  /** While nothing finishes, a burst of `n` queued (or queue-full) requests fills the
      free slots and every further request is rejected. */
  lemma {:induction false} BurstFillsCap(c: Counters, n: nat, submission: Submission)
    requires InBounds(c) && submission != Throws
    ensures var admitted := Min(n, MaxPendingTasks - c.pending);
      var r := Burst(c, n, submission);
      r.pending == c.pending + admitted &&
      r.submitted == c.submitted + admitted &&
      r.rejected == c.rejected + (n - admitted) + (if submission == QueueFull then admitted else 0)
    decreases n
  {
    if n > 0 {
      BurstFillsCap(TickStep(c, true, false, submission).counters, n - 1, submission);
    }
  }

  /** Below the cap, when every submission throws, each slot is given back at once:
      `pending` never moves and nothing is rejected. */
  lemma {:induction false} BurstOfFailedSubmissions(c: Counters, n: nat)
    requires 0 <= c.pending < MaxPendingTasks
    ensures Burst(c, n, Throws) == Counters(c.pending, c.submitted + n, c.rejected)
    decreases n
  {
    if n > 0 {
      BurstOfFailedSubmissions(TickStep(c, true, false, Throws).counters, n - 1);
    }
  }

  /** Sixty requests for an eligible block from a fresh state with the cap at fifty:
      fifty are handed to the pool and ten are rejected. */
  lemma SixtyRequestsFromRest()
    ensures Burst(Counters(0, 0, 0), 60, Accepted) == Counters(50, 50, 10)
  {
    BurstFillsCap(Counters(0, 0, 0), 60, Accepted);
  }

  /** One request more than the cap gives exactly one rejection. */
  lemma OneOverTheCap()
    ensures Burst(Counters(0, 0, 0), MaxPendingTasks + 1, Accepted) == Counters(MaxPendingTasks, MaxPendingTasks, 1)
  {
    BurstFillsCap(Counters(0, 0, 0), MaxPendingTasks + 1, Accepted);
  }
}
