/** The `tickBlock` hook: its shared state, the admission path taken for every block
    tick, the worker-side task and the learn-and-retry error handler. */
module TickBlockMixin {
  import opened Wrappers
  import opened JavaStrings
  import opened Blacklist
  import opened AsyncErrors
  import opened Admission

  datatype BlockPos = BlockPos(x: int, y: int, z: int)

  /** A block type: its identity (`BlockState.is` compares blocks by identity, not by
      name) and its `getDescriptionId()`. */
  datatype Block = Block(id: nat, descriptionId: string)

  /** `state.is(block)` for the block of `state`: the same block object. */
  predicate SameBlock(stateBlock: Block, block: Block)
  {
    stateBlock.id == block.id
  }

  /** A tick handed to the pool: the block to tick and where. */
  datatype Task = Task(pos: BlockPos, block: Block)

  /** How a call of `BlockState.tick` ended. */
  datatype TickOutcome = Completed | Threw(error: Throwable)

  /** The closure given to `getServer().execute` by the error handler. */
  datatype Retry = Retry(pos: BlockPos, block: Block)

  /** What running that closure on the server thread did: nothing, because another
      block now stands at the position, or a synchronous tick, whose outcome (an
      exception included) goes no further. */
  datatype RetryResult = Skipped | Ticked(outcome: TickOutcome)

  /** The name the classifier sees: the description id, lower-cased. */
  function BlockName(b: Block): (name: string)
    ensures |name| == |b.descriptionId|
    ensures ToLower(name) == name
  {
    ToLowerIdempotent(b.descriptionId);
    ToLower(b.descriptionId)
  }

  /** The retry: tick again only when the block at the position is still the block that
      failed; `current` is the block of `getBlockState(pos)` when the closure runs and
      `tick` what its tick would do. A different block that merely shares the failed
      block's description id is skipped. */
  function RunRetry(r: Retry, current: Block, tick: TickOutcome): (res: RetryResult)
    ensures res.Ticked? <==> current.id == r.block.id
    ensures res.Ticked? ==> res.outcome == tick
  {
    if SameBlock(current, r.block) then Ticked(tick) else Skipped
  }

  /** The static state of the hook. `inFlight` (the tasks queued or running on the pool)
      and `leaked` (slots taken by submissions the pool's rejection handler dropped) are
      bookkeeping that accounts for every unit of `pendingTasks`. */
  class ServerLevelTickBlock {
    const staticBlacklist: set<string>
    var pendingTasks: int
    var totalTasksSubmitted: nat
    var totalTasksRejected: nat
    var dynamicBlacklist: set<string>
    ghost var inFlight: multiset<Task>
    ghost var leaked: nat

    ghost predicate Valid()
      reads this
    {
      pendingTasks == |inFlight| + leaked &&
      pendingTasks <= MaxPendingTasks &&
      forall name :: name in dynamicBlacklist ==> ToLower(name) == name
    }

    function Snapshot(): Counters
      reads this
    {
      Counters(pendingTasks, totalTasksSubmitted, totalTasksRejected)
    }

    /** Class initialization: the static blacklist built, no task pending, nothing
        counted, nothing learned. */
    constructor ()
      ensures Valid()
      ensures staticBlacklist == StaticBlacklist
      ensures Snapshot() == Counters(0, 0, 0)
      ensures dynamicBlacklist == {} && inFlight == multiset{} && leaked == 0
    {
      var initial := InitStaticBlacklist();
      staticBlacklist := initial;
      pendingTasks := 0;
      totalTasksSubmitted := 0;
      totalTasksRejected := 0;
      dynamicBlacklist := {};
      inFlight := multiset{};
      leaked := 0;
    }

    /** `isBlockBlacklisted`: scan the static, then the dynamic blacklist, stopping at
        the first entry that occurs in the name. */
    method IsBlockBlacklisted(blockName: string) returns (blacklisted: bool)
      ensures blacklisted == Blacklisted(blockName, staticBlacklist, dynamicBlacklist)
    {
      var rest := staticBlacklist;
      while rest != {}
        invariant rest <= staticBlacklist
        invariant forall e :: e in staticBlacklist - rest ==> !IsSubstring(e, blockName)
        decreases |rest|
      {
        var e :| e in rest;
        if Contains(blockName, e) {
          return true;
        }
        rest := rest - {e};
      }
      rest := dynamicBlacklist;
      while rest != {}
        invariant rest <= dynamicBlacklist
        invariant forall e :: e in dynamicBlacklist - rest ==> !IsSubstring(e, blockName)
        decreases |rest|
      {
        var e :| e in rest;
        if Contains(blockName, e) {
          return true;
        }
        rest := rest - {e};
      }
      return false;
    }

    /** `aki$controlledAsyncTickBlock`: one block tick request. `stateBlock` is the block
        of `getBlockState(pos)` and `submission` what the pool does with the task. The
        result is whether the default (synchronous) tick was cancelled. */
    method HandleTick(pos: BlockPos, block: Block, stateBlock: Block, submission: Submission)
      returns (cancelled: bool)
      requires Valid()
      modifies this
      ensures Valid()
      ensures var step := TickStep(old(Snapshot()), stateBlock.id == block.id,
                                   Blacklisted(BlockName(block), staticBlacklist, old(dynamicBlacklist)), submission);
        Snapshot() == step.counters && cancelled == step.cancelled
      ensures dynamicBlacklist == old(dynamicBlacklist)
      ensures var admitted := stateBlock.id == block.id && !Blacklisted(BlockName(block), staticBlacklist, old(dynamicBlacklist)) &&
                              old(pendingTasks) < MaxPendingTasks;
        inFlight == old(inFlight) + (if admitted && submission == Accepted then multiset{Task(pos, block)} else multiset{}) &&
        leaked == old(leaked) + (if admitted && submission == QueueFull then 1 else 0)
    {
      if !SameBlock(stateBlock, block) {
        return true;
      }
      var blockName := BlockName(block);
      var blacklisted := IsBlockBlacklisted(blockName);
      if blacklisted {
        return false;
      }
      cancelled := Submit(pos, block, submission);
    }

    /** The flow-control part of the hook, reached by an eligible, current tick: reject
        at the cap, otherwise count the task and hand it to the pool. */
    method Submit(pos: BlockPos, block: Block, submission: Submission) returns (cancelled: bool)
      requires Valid()
      modifies this
      ensures Valid()
      ensures var step := TickStep(old(Snapshot()), true, false, submission);
        Snapshot() == step.counters && cancelled == step.cancelled
      ensures dynamicBlacklist == old(dynamicBlacklist)
      ensures var admitted := old(pendingTasks) < MaxPendingTasks;
        inFlight == old(inFlight) + (if admitted && submission == Accepted then multiset{Task(pos, block)} else multiset{}) &&
        leaked == old(leaked) + (if admitted && submission == QueueFull then 1 else 0)
    {
      var currentPending := pendingTasks;
      if currentPending >= MaxPendingTasks {
        totalTasksRejected := totalTasksRejected + 1;
        return false;
      }
      pendingTasks := pendingTasks + 1;
      totalTasksSubmitted := totalTasksSubmitted + 1;
      match submission
      case Accepted =>
        inFlight := inFlight + multiset{Task(pos, block)};
        cancelled := true;
      case QueueFull =>
        // The rejection handler counts the task and returns normally: the default path
        // is still cancelled and the slot taken above is never given back.
        totalTasksRejected := totalTasksRejected + 1;
        leaked := leaked + 1;
        cancelled := true;
      case Throws =>
        pendingTasks := pendingTasks - 1;
        cancelled := false;
    }

    /** The task run on a pool thread: tick, hand an exception to the error handler,
        and in every case give the slot back. */
    method RunTask(task: Task, outcome: TickOutcome) returns (retry: Option<Retry>)
      requires Valid() && task in inFlight
      modifies this
      ensures Valid()
      ensures pendingTasks == old(pendingTasks) - 1
      ensures inFlight == old(inFlight) - multiset{task} && leaked == old(leaked)
      ensures totalTasksSubmitted == old(totalTasksSubmitted) && totalTasksRejected == old(totalTasksRejected)
      ensures var learns := outcome.Threw? && IsAsyncError(Some(outcome.error));
        dynamicBlacklist == (if learns then old(dynamicBlacklist) + {BlockName(task.block)} else old(dynamicBlacklist)) &&
        retry == (if learns then Some(Retry(task.pos, task.block)) else None)
    {
      retry := None;
      if outcome.Threw? {
        retry := HandleAsyncError(task.pos, task.block, outcome.error);
      }
      pendingTasks := pendingTasks - 1;
      inFlight := inFlight - multiset{task};
    }

    /** `handleAsyncError`: an error classified as a thread-safety violation teaches the
        dynamic blacklist the block's lower-cased name and schedules a synchronous retry;
        any other error is dropped. */
    method HandleAsyncError(pos: BlockPos, block: Block, t: Throwable) returns (retry: Option<Retry>)
      requires Valid()
      modifies this`dynamicBlacklist
      ensures Valid()
      ensures dynamicBlacklist ==
        if IsAsyncError(Some(t)) then old(dynamicBlacklist) + {BlockName(block)} else old(dynamicBlacklist)
      ensures retry == if IsAsyncError(Some(t)) then Some(Retry(pos, block)) else None
      ensures IsAsyncError(Some(t)) ==> Blacklisted(BlockName(block), staticBlacklist, dynamicBlacklist)
    {
      if IsAsyncError(Some(t)) {
        var blockName := BlockName(block);
        dynamicBlacklist := dynamicBlacklist + {blockName};
        SubstringOfSelf(blockName);
        LearnedNameBlacklisted(blockName, blockName, staticBlacklist, old(dynamicBlacklist));
        retry := Some(Retry(pos, block));
      } else {
        retry := None;
      }
    }
  }

  /** Once as many slots have leaked as the cap allows, the hook stays saturated: an
      eligible, current tick is rejected and runs on the main thread, `pendingTasks` stays
      at the cap, nothing is in flight to free a slot, and the state after the call again
      meets this method's precondition. */
  method SaturatedRejects(s: ServerLevelTickBlock, pos: BlockPos, block: Block, submission: Submission)
    returns (cancelled: bool)
    requires s.Valid() && s.leaked == MaxPendingTasks
    requires !Blacklisted(BlockName(block), s.staticBlacklist, s.dynamicBlacklist)
    modifies s
    ensures s.Valid() && s.leaked == MaxPendingTasks && s.inFlight == multiset{}
    ensures s.dynamicBlacklist == old(s.dynamicBlacklist)
    ensures !cancelled && s.pendingTasks == MaxPendingTasks
    ensures s.totalTasksRejected == old(s.totalTasksRejected) + 1
    ensures s.totalTasksSubmitted == old(s.totalTasksSubmitted)
  {
    cancelled := s.HandleTick(pos, block, block, submission);
  }

  /** A block that is neither stale nor blacklisted goes to the pool; when its tick
      fails with a thread-safety error the name is learned and a retry scheduled, and
      the next request for the same block stays on the main thread. The retry itself
      ticks the block again while it still stands at the position and is skipped once
      another block has replaced it. */
  method LearnedBlockStaysOnMainThread(pos: BlockPos, block: Block, error: Throwable, other: Block, tick: TickOutcome)
    returns (firstCancelled: bool, retry: Option<Retry>, secondCancelled: bool, sameBlock: RetryResult, replaced: RetryResult)
    requires IsAsyncError(Some(error))
    requires !Blacklisted(BlockName(block), StaticBlacklist, {})
    requires other.id != block.id
    ensures firstCancelled && retry == Some(Retry(pos, block)) && !secondCancelled
    ensures sameBlock == Ticked(tick) && replaced == Skipped
  {
    var hook := new ServerLevelTickBlock();
    firstCancelled := hook.HandleTick(pos, block, block, Accepted);
    retry := hook.RunTask(Task(pos, block), Threw(error));
    SubstringOfSelf(BlockName(block));
    LearnedNameBlacklisted(BlockName(block), BlockName(block), StaticBlacklist, {});
    secondCancelled := hook.HandleTick(pos, block, block, Accepted);
    sameBlock := RunRetry(retry.value, block, tick);
    replaced := RunRetry(retry.value, other, tick);
  }

  /** Two thread-safety errors from the same block leave the learned blacklist as the
      first one left it, and both schedule the same retry. */
  method LearnTwiceUnchanged(s: ServerLevelTickBlock, pos: BlockPos, block: Block, first: Throwable, second: Throwable)
    returns (afterFirst: set<string>, firstRetry: Option<Retry>, secondRetry: Option<Retry>)
    requires s.Valid() && IsAsyncError(Some(first)) && IsAsyncError(Some(second))
    modifies s`dynamicBlacklist
    ensures afterFirst == old(s.dynamicBlacklist) + {BlockName(block)}
    ensures s.dynamicBlacklist == afterFirst
    ensures firstRetry == secondRetry == Some(Retry(pos, block))
  {
    firstRetry := s.HandleAsyncError(pos, block, first);
    afterFirst := s.dynamicBlacklist;
    secondRetry := s.HandleAsyncError(pos, block, second);
  }

  /** A tick whose position now holds a different block is stale even when that block
      shares the description id: it is cancelled and no counter moves. */
  method SameNameOtherBlockIsStale(pos: BlockPos, block: Block, other: Block, submission: Submission)
    returns (cancelled: bool, counters: Counters)
    requires other.id != block.id && other.descriptionId == block.descriptionId
    ensures cancelled && counters == Counters(0, 0, 0)
  {
    var hook := new ServerLevelTickBlock();
    cancelled := hook.HandleTick(pos, block, other, submission);
    counters := hook.Snapshot();
  }

  /** A learned name is lower-case, so it keeps any block off the pool whose description
      id contains it, whatever the case of the rest of that id. */
  lemma LearnedEntryCatchesRawId(s: ServerLevelTickBlock, name: string, b: Block)
    requires s.Valid() && name in s.dynamicBlacklist
    requires IsSubstring(name, b.descriptionId)
    ensures Blacklisted(BlockName(b), s.staticBlacklist, s.dynamicBlacklist)
  {
    forall k | 0 <= k < |name| ensures !IsUpper(name[k]) {
      assert ToLower(name)[k] == LowerChar(name[k]);
    }
    LowerSubstringSurvivesToLower(name, b.descriptionId);
  }

  /** The name the classifier sees for redstone dust contains the entry "redstone". */
  lemma RedstoneWireBlockBlacklisted(id: nat, staticSet: set<string>, dynamic: set<string>)
    requires "redstone" in staticSet
    ensures Blacklisted(BlockName(Block(id, "block.minecraft.redstone_wire")), staticSet, dynamic)
  {
    var wire := Block(id, "block.minecraft.redstone_wire");
    RedstoneInWireName();
    LowerSubstringSurvivesToLower("redstone", wire.descriptionId);
    StaticMatchAlwaysBlacklisted(BlockName(wire), "redstone", staticSet, dynamic);
  }

  /** Redstone dust is never handed to the pool: the default tick runs and no counter
      moves. */
  method RedstoneWireTicksSynchronously(pos: BlockPos, id: nat) returns (cancelled: bool, counters: Counters)
    ensures !cancelled && counters == Counters(0, 0, 0)
  {
    var hook := new ServerLevelTickBlock();
    var wire := Block(id, "block.minecraft.redstone_wire");
    RedstoneIsListed();
    RedstoneWireBlockBlacklisted(id, hook.staticBlacklist, {});
    cancelled := hook.HandleTick(pos, wire, wire, Accepted);
    counters := hook.Snapshot();
  }
}
