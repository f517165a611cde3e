# vkwr, verified

A Dafny model of the vkwr inference engine for RWKV-7, with proofs of what the engine promises: continuous
batching does not change what a request gets, nothing raises, everything drains, streamed text is never taken
back, and the tokenizer is lossless.

RWKV is recurrent. A request owns one row (a *slot*) of the state buffers, so the engine must keep track of who
owns which row while it chunks prompts, fills graphs with borrowed rows, closes gaps between rows and finishes
or aborts requests in the middle of a batch. The model covers

- the slot allocator and its in-place compaction, what it asks of the executor, and what happens where that is
  not done (`state_slots.dfy`, `executor_condense.dfy`, `condense_gaps.dfy`, `ignoring_executor.dfy`),
- the two-phase scheduler with token budget, chunked prefill, partial-prefill limits and skip queues
  (`requests.dfy`, `request_queue.dfy`, `scheduling.dfy`, `scheduling_invariants.dfy`, `admission.dfy`,
  `queue_order.dfy`, `priority_order.dfy`, `completion.dfy`, `early_finish.dfy`, `starvation.dfy`,
  `starvation_run.dfy`, and the object in `simple_scheduler.dfy`),
- the model runner, for an arbitrary recurrent model and an arbitrary sampler (`model_runner.dfy`,
  `flattening.dfy`, `capture_sizes.dfy`, and the object in `gpu_model_runner.dfy`),
- the engine step, its runs, what it answers, its draining and the independence of requests (`engine_step.dfy`,
  `engine_settle.dfy`, `engine_runs.dfy`, `step_outputs.dfy`, `answered_runs.dfy`, `engine_drain.dfy`,
  `engine_solo.dfy`, `queued_aborts.dfy`, and the object in `engine_core.dfy`), runs with aborts that bypass the
  queue (`direct_abort.dfy`), and the pipelined step with slots (`pipelined_engine.dfy`),
- the pipelined engine process with several batches in flight, client messages and shutdown (`pipeline.dfy`,
  `process_events.dfy`, and the object in `engine_core_proc.dfy`),
- the text path: UTF-8, incremental detokenization, stop strings, snapshots, the merging collector and the
  client's loop (`utf8.dfy`, `detokenizing.dfy`, `detokenizing_props.dfy`, `stop_strings.dfy`,
  `generated_text.dfy`, `output_collecting.dfy`, `output_processing.dfy`, `snapshots.dfy`, `serving.dfy`,
  `serving_aborts.dfy`, and the objects in `incremental_detokenizer.dfy` and `output_processor.dfy`),
- the trie tokenizer and its vocabulary tables (`tries.dfy`, `greedy.dfy`, `vocabulary.dfy`,
  `rwkv_tokenizer.dfy`).

Where the program changes objects step by step, the model is a class whose methods run the program's loops and
are proved equal to a function of the old state; the theorems are about these functions. `dafny verify
dfyconfig.toml` checks everything.

The theorems assume what the engine demands of its callers: request identifiers are not reused, prompts are not
empty (`vkwr/engine/input_processor.py:75-89`), `max_tokens` is set (`vkwr/engine/input_processor.py:144-163`),
`chunked_prefill_threshold >= 1`, `max_num_seqs >= 1`, `max_num_batched_tokens >= max_num_seqs`
(`vkwr/config/engine.py:30-31`), and stop strings are not empty (`vkwr/engine/request.py:77-78`).

Things the proofs found, with their exact conditions:

- A decoding request can be finished by the scheduler although none of its limits is reached, namely when what
  the requests in lower slots need adds up to the step's token budget (`Starvation.FinishedEarlyIffNeeds`), as it
  does in a run from a new engine (`StarvationRun.StarvedInARun`), or the budget stops short of the last chunk of a
  prompt just below the length limit. It happens in no state exactly when the budget is greater than
  `max_num_seqs - 1` times the most one request can take (`Starvation.NobodyStarvesIff`).
- An engine with a prompt of `max_model_len` tokens or more never becomes idle
  (`EngineDrain.DrainsIffPromptsShort`); cutting over-long prompts to `max_model_len` tokens
  (`vkwr/engine/input_processor.py:92-99`) leaves them exactly that long. Nor does an abort in the queue remove
  such a prompt once it is alone: a step that schedules no token and finishes nobody leaves the queue as it is
  (`QueuedAborts.AbortDrainedIff`, `QueuedAborts.HeldUpForever`).
- `abort_requests` called directly removes running requests and keeps their slots. The slot maps go wrong exactly
  when somebody running is named (`DirectAbort.DirectAbortLeaksIff`). The message loop queues a copy of each abort,
  which gives the slots back unless an idle process clears the queue first (`DirectAbort.QueuedCopyRestores`,
  `vkwr/engine/core_proc.py:205-207`); the in-process client queues none (`vkwr/engine/core_client.py:634-638`), so
  there every text-level stop of a running request (`vkwr/engine/llm_engine.py:113-114`) loses a slot for good
  (`DirectAbort.LostForGood`), until every step with a request waiting raises (`DirectAbort.FullAbortRaises`).
- A request ended by a stop token is reported as "length" or "eos" unless the end-of-sequence token is switched off
  or not set (`EarlyFinish.StopIsNamedIff`); it is always set (`vkwr/engine/input_processor.py:128-142`).
- The single-process executor ignores the moves of a condense, while the executor interface promises to perform
  them. Ignoring them is harmless, whatever the rows hold, exactly when the freed slots are the highest
  (`ExecutorCondense.IgnoringIsHarmlessIff`). Runs in which that is so in every step keep requests isolated
  (`IgnoringExecutor.IsolationWhenHighest`); in general they do not (`IgnoringExecutor.IgnoredMovesBreakIsolation`).
  The other isolation theorems assume the interface's promise.
- A condense raises exactly when an empty slot below a survivor has more freed slots below it than survivors above
  it (`CondenseGaps.CondenseRaisesIff`); under the engine's own invariant it never does.
- With several stop strings the first in the list wins, so another can remain in the finished text. None ever
  remains exactly when the first occurs in every other one, with `min_tokens` at its end
  (`StopStrings.NothingLeftIff`). That is for bytes that
  can still become UTF-8: on others every list of stop strings can be left behind, because undecodable bytes are
  dropped after the search (`StopStrings.NothingEverLeftIff`).
- Encoding never fails and never invents an id exactly when all 256 single bytes are vocabulary entries
  (`Greedy.AllBytesNeeded`).

## Model

| member | source | states |
|---|---|---|
| `EngineRuns.BatchIsolation` | vkwr/engine/core.py:97-180 | after every run of arrivals, queued aborts and steps, whatever the batches were, the row of a running request holds exactly the state of running it alone from zero on the first `computed` tokens of prompt and outputs, and its outputs number one per step since its prompt was covered |
| `EngineRuns.RunsNeverRaise` | vkwr/engine/core.py:97-180 | no run ever raises; afterwards the dictionaries agree with `running`, the two slot maps are inverse, the occupied slots are the lowest ones, one per running request, the free list is the sorted rest, and every running request is as if it had run alone |
| `EngineRuns.StepCorrect` | vkwr/engine/core.py:97-160 | one step keeps the whole engine invariant and none of allocate, get_slot, the sampled-token check and batch_condense raises in it |
| `EngineRuns.BeginOk` | vkwr/engine/core.py:118-145 | its first half, up to the sampled tokens, raises nothing and leaves every running request as if it had run alone, one batch further on |
| `StepOutputs.StepAnswers` | vkwr/engine/core.py:97-160 | one step on any engine the invariant allows, for every request: it has an output if and only if no queued abort removed it and it was sampled a token or leaves; the tokens in it are exactly what its record gained, its finish is there if and only if it leaves; a sampled request whose token is its end-of-sequence token (not ignored) or one of its stop tokens runs no longer, one the scheduler ended neither, everyone else runs on; and the reason is "length", "eos" or "stop" by that token alone |
| `StepOutputs.StepFrames` | vkwr/engine/core.py:97-160 | nothing else changes: nobody new becomes live, parameters stay, and the abort queue is drained if a batch was applied and kept otherwise |
| `StepOutputs.SilentIffSlotless` | vkwr/scheduler/scheduler.py:360-381 | outside that invariant: a running request the scheduler ends always leaves, and is told so and has its slot noted as freed unless there is a slot manager, it knows no slot for the request and the batch has no record of it |
| `AnsweredRuns.EveryRequestIsTold` | vkwr/engine/core.py:97-180 | over every run from a new engine the outputs of a request bring exactly its recorded tokens in order; at most one has a finish and nothing follows it; a request that is gone has been told so unless an abort named it; and the reason fits the last token |
| `AnsweredRuns.RecordsHoldNoEnd` | vkwr/scheduler/scheduler.py:336-357 | in every run the record of a running request holds neither its end-of-sequence token, unless ignored, nor one of its stop tokens |
| `AnsweredRuns.QueuedStepAnswers` | vkwr/engine/core.py:201-246 | the pipelined step over futures done at once answers the same |
| `PipelinedEngine.DoneFuturesArePlain` | vkwr/engine/core.py:201-246 | over an executor whose futures are done at once the pipelined step is the plain step, slots and buffers included, and leaves nothing in flight |
| `PipelinedEngine.PipelinedRunsArePlain` | vkwr/engine/core.py:201-266 | so every such run of the pipelined engine is a run of the plain one and raises nothing |
| `PipelinedEngine.QueuedStepIsFifo` | vkwr/engine/core.py:201-246 | whatever the futures say and whatever is in flight: a step launches one batch exactly if there is room and a token to schedule, completes the one launched longest ago exactly if that is done, and no other |
| `DirectAbort.LeakIsExact` | vkwr/engine/core.py:182-199 | over every run with direct aborts and forgotten queues that has raised nothing: the slot maps hold exactly the running requests and the leaked ones, in the lowest slots; a direct abort leaks the slots of the running requests it names, and a settling step returns those its queued aborts name |
| `DirectAbort.DirectAbortLeaksIff` | vkwr/engine/core.py:182-199 | from a sound engine a direct abort leaves the slot maps in agreement if and only if it names nobody running, and allocation fails afterwards if and only if the pool was full, however few still run |
| `DirectAbort.QueuedCopyRestores` | vkwr/engine/core_proc.py:334-337 | with its copy still queued the next step that settles a batch gives the slots back |
| `DirectAbort.LostForGood` | vkwr/engine/core_proc.py:205-207 | when no queued abort names the request, now or later, its slot stays held through every further run |
| `DirectAbort.FullAbortRaises` | vkwr/scheduler/scheduler.py:269-270 | after one direct abort of everything a full engine runs, the next step with a request waiting raises, as long as the length limit lets any prompt in |
| `DirectAbort.LeakScheduled` | vkwr/scheduler/scheduler.py:105-326 | a scheduling call over leaked slots changes nothing about them, and raises only when running and leaked requests fill the pool |
| `DirectAbort.LeakSettled` | vkwr/engine/core.py:146-153 | settling raises nothing over leaked slots and frees exactly those its queued aborts name |
| `EngineSolo.OutputsAreSolo` | vkwr/engine/core.py:97-160 | with a sampler that depends on the row alone, a running request has generated, token for token, what the model generates for its prompt alone |
| `EngineSolo.CompanyDoesNotMatter` | vkwr/engine/core.py:97-160 | the same prompt in two different runs on two different configurations: one output sequence is a prefix of the other |
| `EngineDrain.StepShrinks` | vkwr/scheduler/scheduler.py:105-326 | every step of a non-empty engine with short prompts makes the sum over live requests of prompt left plus tokens left plus one smaller |
| `EngineDrain.EngineDrains` | vkwr/engine/core.py:97-160 | so without arrivals the engine is empty after as many steps as that sum |
| `EngineDrain.StuckForever` | vkwr/scheduler/scheduler.py:137-146 | a prompt of max_model_len or more stays live through every number of steps |
| `EngineDrain.DrainsIffPromptsShort` | vkwr/scheduler/scheduler.py:137-161 | without arrivals and aborts the engine can be drained if and only if every live prompt is shorter than max_model_len |
| `EngineCores.LimitsHoldInEveryRun` | vkwr/scheduler/scheduler.py:193-310 | at every moment of every run: sequences, long partial prefills, scheduled tokens and batch size are within their limits, so the flat input and offset buffers never overflow |
| `EngineCores.LengthsHoldInEveryRun` | vkwr/scheduler/utils.py:24-31 | in every run the outputs of a running request never exceed max_tokens, one due to finish has exactly that many, and prompt plus outputs never exceeds max_model_len |
| `EngineCores.LengthsHoldAsRecorded` | vkwr/scheduler/scheduler.py:329-446 | and so it is for what a step records of every request it does not abort, also of those that leave in it |
| `EngineSettle.SettleCorrect` | vkwr/engine/core.py:146-153 | draining aborts, recording, finishing and condensing raise nothing and leave every remaining request as if it had run alone |
| `EngineSettle.FreedPairs` | vkwr/engine/core.py:148-150 | the freed pairs collected from aborts and finishes are exactly the current slots of the requests that leave, and of those named in the aborts that had left before |
| `EngineStep.ScheduledStaysOk` | vkwr/worker/gpu_model_runner.py:252-287 | a scheduled request after its forward pass and its sample is again as if it had run alone |
| `EngineStep.ExecuteCorrect` | vkwr/worker/gpu_model_runner.py:289-349 | the forward pass raises nothing, and borrowed rows never touch an occupied one |
| `EngineStep.BaseIsOwn` | vkwr/worker/gpu_model_runner.py:254-260 | a record starts from its own state, also a newcomer in a slot used before, because its row is zeroed |
| `EngineCores.EngineCore.StepOnce` | vkwr/engine/core.py:97-160 | the step over the scheduler, slot manager and runner objects is the step function on their contents and keeps the invariant |
| `EngineCores.EngineCore.SettleBatch` | vkwr/engine/core.py:146-153 | the second half of the step, statement by statement, is the settle function |
| `EngineCores.EngineCore.ProcessAbortsQueue` | vkwr/engine/core.py:165-173 | drains the queue; exactly the named live requests leave, and the pairs are the slots the named requests held |
| `EngineCores.EngineCore.CondenseFreed` | vkwr/engine/core.py:175-180 | slot maps and device rows follow the same moves |
| `EngineCores.EngineCore.constructor` | vkwr/engine/core.py:35-50 | a new engine has all slots free, empty queues and buffers of the configured sizes |
| `EngineCores.EngineCore.AddRequest` | vkwr/engine/core.py:88-95 | the request enters the waiting queue and nothing else changes |
| `QueuedAborts.AbortDrainedIff` | vkwr/engine/core.py:121-140 | with nobody waiting, a queued abort is acted on in the next step if and only if somebody running is not held up by the length limit; otherwise the step changes nothing |
| `QueuedAborts.HeldUpForever` | vkwr/engine/core.py:121-140 | so a held-up prompt that is alone stays, its abort still queued, through every number of steps |
| `EngineCores.RunnerReady` | vkwr/worker/gpu_model_runner.py:489-514 | what the scheduler hands out the runner can take: distinct rows in range, tokens at hand, no overflow |
| `StateSlots.BatchCondenseCorrect` | vkwr/state/state_slot_manager.py:65-128 | on a dense prefix with current pairs the condense raises nothing, restores a dense prefix, removes only the named requests, moves each survivor at most once and never uses a slot as source and destination |
| `StateSlots.CondenseLoopCorrect` | vkwr/state/state_slot_manager.py:102-120 | the slide terminates, never meets an empty slot, and stops with the survivors in the lowest slots |
| `StateSlots.CopiesFollow` | vkwr/state/state_slot_manager.py:112-120 | the moves run as sequential copies carry every survivor's row to its new slot |
| `StateSlots.FewestMoves` | vkwr/state/state_slot_manager.py:71-75 | no other placement of the survivors in a dense prefix relocates fewer requests |
| `StateSlots.AllocateDense` | vkwr/state/state_slot_manager.py:37-44 | a new request gets the lowest free slot, keeps the prefix dense, and only a full pool fails |
| `StateSlots.AllocateConsistent` | vkwr/state/state_slot_manager.py:37-44 | allocation keeps every slot free, lent or occupied, and only one of these |
| `StateSlots.FreeConsistent` | vkwr/state/state_slot_manager.py:46-52 | so does freeing |
| `StateSlots.ReleaseUndoesReserve` | vkwr/state/state_slot_manager.py:17-30 | releasing the borrowed slots restores the allocator exactly |
| `StateSlots.StateSlotManager.constructor` | vkwr/state/state_slot_manager.py:10-15 | all slots are free |
| `StateSlots.StateSlotManager.ReservePadSlots` | vkwr/state/state_slot_manager.py:17-23 | lends the lowest free slots, or fails and changes nothing |
| `StateSlots.StateSlotManager.ReleasePadSlots` | vkwr/state/state_slot_manager.py:25-30 | gives the lent slots back, sorted |
| `StateSlots.StateSlotManager.AllocateSlot` | vkwr/state/state_slot_manager.py:37-44 | takes the lowest free slot, or fails and changes nothing |
| `StateSlots.StateSlotManager.FreeSlot` | vkwr/state/state_slot_manager.py:46-52 | frees the request's slot, or fails on an unknown request |
| `StateSlots.StateSlotManager.DropFreed` | vkwr/state/state_slot_manager.py:86-91 | removes exactly the freed requests and slots from both maps |
| `StateSlots.StateSlotManager.Slide` | vkwr/state/state_slot_manager.py:96-120 | the nested loop is the slide function, including where it raises |
| `StateSlots.StateSlotManager.ReturnHoles` | vkwr/state/state_slot_manager.py:122-126 | the remaining holes join the free list, sorted, none twice |
| `StateSlots.StateSlotManager.CondenseBatch` | vkwr/state/state_slot_manager.py:65-128 | the whole method is the condense function on the manager's contents |
| `ExecutorCondense.MovesCarryRows` | vkwr/executor/abstract.py:65-71 | an executor that performs the moves brings every survivor's row along |
| `ExecutorCondense.IgnoringMovesIsSafeIff` | vkwr/executor/uniproc_executor.py:80-84 | an executor that ignores the moves keeps every survivor's row if and only if each move joins two equal rows |
| `ExecutorCondense.IgnoringIsHarmlessIff` | vkwr/executor/uniproc_executor.py:80-84 | that is so whatever the rows hold if and only if the freed slots are the highest |
| `ExecutorCondense.NothingMovesIff` | vkwr/state/state_slot_manager.py:96-120 | a condense needs no move if and only if the freed slots are the highest occupied ones |
| `IgnoringExecutor.IsolationWhenHighest` | vkwr/executor/uniproc_executor.py:80-84 | over an executor that ignores the moves, runs whose freed slots are the highest in every step raise nothing and keep every row its request's own |
| `IgnoringExecutor.RunsAgree` | vkwr/executor/uniproc_executor.py:80-84 | because they are the runs over one that performs the moves |
| `IgnoringExecutor.SurvivorFindsLeaversRow` | vkwr/executor/uniproc_executor.py:80-84 | a survivor that is given another slot finds there the state of the request that left it |
| `IgnoringExecutor.IgnoredMovesBreakIsolation` | vkwr/executor/uniproc_executor.py:80-84 | a run of two arrivals, a queued abort and one step from a new engine whose survivor does not have its own state in its slot |
| `CondenseGaps.CondenseRaisesIff` | vkwr/state/state_slot_manager.py:86-120 | with current pairs a condense raises if and only if some empty slot below a survivor has more freed slots below it than survivors above it |
| `CondenseGaps.SlideRaisesIff` | vkwr/state/state_slot_manager.py:96-120 | the slide runs into an empty slot if and only if more holes lie below it than occupied slots above it |
| `CondenseGaps.TrapIsReachable` | vkwr/state/state_slot_manager.py:37-52 | four allocations and one release lead a new allocator to such a state |
| `SchedulingInvariants.ScheduleCorrect` | vkwr/scheduler/scheduler.py:105-326 | one call: live requests unchanged and each in one list, no slot changes hands, dictionaries agree, records are distinct non-empty pieces of work within prompt, budget and length limits, allocation never fails, long partial prefills stay within a positive limit |
| `SchedulingInvariants.Phase1Correct` | vkwr/scheduler/scheduler.py:120-187 | phase 1 schedules or finishes each running request at most once and never spends more than the budget |
| `Admission.RunningTurn` | vkwr/scheduler/scheduler.py:125-191 | the k-th running request in slot order is ended, is scheduled for as many tokens as chunk, budget and length limit give it, or gets nothing, by what the requests before it leave of the budget; which of these is said in closed form |
| `SchedulingInvariants.RunPhase2Keeps` | vkwr/scheduler/scheduler.py:200-301 | the admission loop loses and duplicates no request, leaves running ones where they are and keeps budget and limits |
| `Admission.AdmissionIs` | vkwr/scheduler/scheduler.py:193-304 | the newcomers of a call enter one after another: each, when it enters, was not barred by the budget, the length limit or the partial-prefill limit for prompts of its length, and gets all there is to give; everybody before it in its own queue has been admitted or is barred, and if it comes from `waiting` so is everybody in `skipped_waiting`, unless the head there is over the limit on long prompts; the call stops only when budget, room or both queues are used up |
| `Admission.QueuedAreBarred` | vkwr/scheduler/scheduler.py:193-304 | when a call stops with budget and room to spare, every request still queued is barred |
| `Admission.SkippedHeadFirst` | vkwr/scheduler/scheduler.py:200-224 | the head of `skipped_waiting` whose prompt fits a chunk, the length limit and the budget phase 1 leaves is the first newcomer whenever there is room for one, whatever waits in `waiting` |
| `SchedulingInvariants.NumNewBounds` | vkwr/scheduler/scheduler.py:137-142 | a request is given the largest number of tokens within a chunk, the remaining budget, its own prompt and the length limit |
| `SchedulingInvariants.SortBySlotOrders` | vkwr/scheduler/scheduler.py:121-124 | running requests are taken in the order of their slots, without slots in their own order |
| `SchedulingInvariants.AdvanceCorrect` | vkwr/scheduler/scheduler.py:306-310 | exactly the scheduled requests advance, by their scheduled tokens |
| `QueueOrder.FcfsOrderKept` | vkwr/scheduler/scheduler.py:200-304 | under FCFS, requests of one queue that stay queued keep their order through the two reversals |
| `QueueOrder.AbortKeepsOrder` | vkwr/scheduler/scheduler.py:51-83 | an abort leaves everybody who stays in the old order, in each of the three lists |
| `QueueOrder.UpdateKeepsOrder` | vkwr/scheduler/scheduler.py:360-375 | recording a batch leaves the running requests that go on in the old order and the queues as they were |
| `PriorityOrder.PriorityKept` | vkwr/scheduler/scheduler.py:200-304 | under the priority policy a scheduling call leaves both waiting queues with priority values that do not fall and, among equal ones, arrival times that do not |
| `RequestQueue.HeadIsMostUrgent` | vkwr/scheduler/request_queue.py:93-109 | so the head has the lowest priority value of all, and the earliest arrival among those |
| `RequestQueue.OrderedIff` | vkwr/engine/request.py:118-119 | a list nobody stands out of order in is one sorted by priority value and then by arrival, and the other way round |
| `RequestQueue.PushOrdered` | vkwr/scheduler/request_queue.py:98-99 | adding keeps the priority order |
| `RequestQueue.PrependAllReverses` | vkwr/scheduler/request_queue.py:69-73 | prepending a queue of held requests puts them in front, reversed |
| `RequestQueue.PrependAllElements` | vkwr/scheduler/request_queue.py:112-116 | under both policies prepending loses and duplicates nothing |
| `RequestQueue.AddPlaces` | vkwr/scheduler/request_queue.py:98-99 | adding moves nobody: under FCFS the newcomer is last, otherwise it stands behind everybody it need not precede and before the first it precedes, and priority order is kept |
| `SimpleScheduling.SimpleScheduler.AddRequest` | vkwr/scheduler/scheduler.py:40-42 | the waiting queue gains exactly this request in that place, nobody else's place or record changes, and priority order is kept |
| `SimpleScheduling.SimpleScheduler.ScheduleRunning` | vkwr/scheduler/scheduler.py:120-181 | the loop over running requests in slot order is the phase-1 function |
| `SimpleScheduling.SimpleScheduler.HeadMayEnter` | vkwr/scheduler/scheduler.py:205-216 | the head test of both queues, for every threshold and limit |
| `SimpleScheduling.SimpleScheduler.MoveHeads` | vkwr/scheduler/scheduler.py:221-238 | when neither head may enter both are put aside, the skipped one first |
| `SimpleScheduling.SimpleScheduler.Enter` | vkwr/scheduler/scheduler.py:245-301 | a popped request is put aside, fails to get a slot, or becomes a running one with its record |
| `SimpleScheduling.SimpleScheduler.CountPartial` | vkwr/scheduler/scheduler.py:193-198 | counts the running requests with more than a chunk of prompt left |
| `SimpleScheduling.SimpleScheduler.ScheduleWaiting` | vkwr/scheduler/scheduler.py:193-301 | the admission loop on the scheduler's fields terminates and is the phase-2 function |
| `SimpleScheduling.SimpleScheduler.AdvanceComputed` | vkwr/scheduler/scheduler.py:306-310 | the last loop is the advance function |
| `SimpleScheduling.SimpleScheduler.ScheduleBatch` | vkwr/scheduler/scheduler.py:105-326 | schedule() on the fields is the schedule function, for every state, with or without a slot manager; after the error of an exhausted pool the fields are those of the admission loop where it stopped, with nothing counted as computed |
| `SimpleScheduling.SimpleScheduler.FinishRequests` | vkwr/scheduler/scheduler.py:65-85 | walking the set in any order removes exactly the named live requests from wherever they are, and returns them |
| `SimpleScheduling.SimpleScheduler.FinishAll` | vkwr/scheduler/scheduler.py:87-103 | empties every list and returns each live request exactly once |
| `SimpleScheduling.SimpleScheduler.RecordTokens` | vkwr/scheduler/scheduler.py:336-357 | tokens are recorded for the requests still known, and those that hit an end or stop token are added to the finished ones |
| `SimpleScheduling.SimpleScheduler.FinishEnded` | vkwr/scheduler/scheduler.py:359-396 | in any order: the finished requests leave, their slots are noted and their last outputs made |
| `SimpleScheduling.SimpleScheduler.ReportOpen` | vkwr/scheduler/scheduler.py:398-414 | every other scheduled request that is still known reports its new tokens |
| `SimpleScheduling.SimpleScheduler.UpdateFromOutput` | vkwr/scheduler/scheduler.py:328-414 | update_from_output() on the fields is the update function, for every state and batch |
| `Completion.UpdateKeepsInv` | vkwr/scheduler/scheduler.py:328-414 | exactly the finishing requests leave; list, dictionaries and queues keep agreeing |
| `Completion.AbortKeepsInv` | vkwr/scheduler/scheduler.py:65-85 | aborting removes exactly the named live requests and keeps the accounting |
| `Completion.RecordCorrect` | vkwr/scheduler/scheduler.py:336-341 | each scheduled request is given its tokens once, in order, and nobody else's |
| `EarlyFinish.FinishedEarlyIff` | vkwr/scheduler/scheduler.py:137-146 | a decoding request within its limits is finished by a scheduling call if and only if the requests in lower slots leave nothing of the budget |
| `EarlyFinish.NobodyStarves` | vkwr/scheduler/scheduler.py:137-146 | when all sequences but one, each taking as much as it can, leave something of the budget, this never happens |
| `Starvation.NobodyStarvesIff` | vkwr/scheduler/scheduler.py:137-146 | with or without a slot manager, it happens in no state the scheduler's invariant allows if and only if the budget is greater than max_num_seqs minus one times the most a request can take |
| `Starvation.FinishedEarlyIffNeeds` | vkwr/scheduler/scheduler.py:137-161 | a request within its limits is finished early if and only if what the requests in lower slots need adds up to the budget, or the budget stops short of the last chunk of a prompt one below the length limit |
| `Starvation.LeftIs` | vkwr/scheduler/scheduler.py:125-181 | what phase 1 leaves of the budget, in closed form |
| `EarlyFinish.StarvationHappens` | vkwr/scheduler/scheduler.py:137-146 | for instance with a budget of one chunk for two sequences, after one of ten tokens |
| `StarvationRun.StarvedInARun` | vkwr/scheduler/scheduler.py:120-146 | a run of three arrivals, a queued abort and one step from a new engine after which the next scheduling call finishes a request with one of its ten tokens, whatever the model |
| `EarlyFinish.ReasonsAre` | vkwr/scheduler/scheduler.py:417-446 | when the reported reason is "eos" and when it is "stop", in both directions, and which token is named |
| `EarlyFinish.StopIsNamedIff` | vkwr/scheduler/scheduler.py:417-446 | a request whose last token is a stop token is reported as "stop" if and only if the end-of-sequence token is switched off or not set; otherwise as "eos" if it is that token and as "length" if not |
| `ModelRunner.ForwardIsolated` | vkwr/worker/gpu_model_runner.py:252-287 | in a batch with distinct slots each row depends on its own row and tokens only, and other rows are untouched |
| `ModelRunner.UniformPass` | vkwr/worker/gpu_model_runner.py:289-349 | a pass over a batch of decodes fails if and only if the previous such batch found a slot without a token; otherwise each request is fed the token of its slot, the least of these is noted, exactly the first free slots as far as they fill the captured size are cleared, none if they do not, and no other row changes |
| `ModelRunner.FeedAppend` | vkwr/worker/gpu_model_runner.py:252-287 | feeding a prompt in chunks is feeding it at once |
| `ModelRunner.WriteBackRows` | vkwr/worker/gpu_model_runner.py:469-475 | sampled tokens land in the cache rows of exactly the requests they were sampled for |
| `GpuModelRunner.GPUModelRunner.ExecuteModel` | vkwr/worker/gpu_model_runner.py:237-349 | on the arrays, for both paths: rows, token cache and check value are the execute function of the old ones, and the slot manager is as before |
| `GpuModelRunner.GPUModelRunner.ExecuteEager` | vkwr/worker/gpu_model_runner.py:252-287 | zeroing, flattening and feeding every segment to its row is the forward pass |
| `GpuModelRunner.GPUModelRunner.ZeroNewStates` | vkwr/worker/gpu_model_runner.py:255-261 | exactly the rows of first chunks are zeroed |
| `GpuModelRunner.GPUModelRunner.PrepareInputIds` | vkwr/worker/gpu_model_runner.py:489-522 | the input buffer holds the tokens of all records one after the other, the offset buffer their prefix sums |
| `GpuModelRunner.GPUModelRunner.ExecuteUniformDecode` | vkwr/worker/gpu_model_runner.py:289-349 | the padded decode is the execute function: pads are borrowed, cleared before and after and given back; the token check may raise |
| `GpuModelRunner.GPUModelRunner.Replay` | vkwr/worker/gpu_model_runner.py:317-341 | each row of the batch is fed its one token, borrowed rows end up zero, all others are untouched |
| `GpuModelRunner.GPUModelRunner.ClearRows` | vkwr/worker/gpu_model_runner.py:404-426 | exactly the given rows and their cached tokens become zero |
| `GpuModelRunner.GPUModelRunner.IsUniformDecode` | vkwr/worker/gpu_model_runner.py:565-575 | true exactly for a non-empty batch of one-token decodes |
| `GpuModelRunner.GPUModelRunner.SampleTokens` | vkwr/worker/gpu_model_runner.py:428-487 | exactly the decodes and last chunks get a token, written to the row of their slot, by either copy path |
| `GpuModelRunner.GPUModelRunner.StoreTokens` | vkwr/worker/gpu_model_runner.py:469-475 | the block copy and the indexed copy write the same |
| `GpuModelRunner.GPUModelRunner.CondenseRows` | vkwr/executor/abstract.py:65-71 | the moves are performed one after the other on state and token cache |
| `Flattening.SegmentExists` | vkwr/worker/gpu_model_runner.py:508-516 | every token lies in a segment of the offsets |
| `Flattening.SegmentUnique` | vkwr/worker/gpu_model_runner.py:508-516 | and in only one |
| `Flattening.SegmentsAreTokens` | vkwr/worker/gpu_model_runner.py:489-516 | the offsets cut each record's own tokens out of the flat row |
| `Flattening.BuildReqId` | vkwr/model_executor/models/rwkv7_varlen_v2x.py:218-226 | a token is labelled i if and only if it lies between offsets i and i + 1 |
| `Flattening.UniformIff` | vkwr/model_executor/models/rwkv7_varlen_v2x.py:242 | the total is B times max_t if and only if every segment has length max_t |
| `Flattening.IsUniformBatch` | vkwr/model_executor/models/rwkv7_varlen_v2x.py:242 | the test recognizes exactly the batches of equal lengths |
| `CaptureSizes.CapturedSizes` | vkwr/config/utils.py:84-100 | the default sizes increase strictly, are exactly the stride sizes up to the limit and the limit, and end at the limit |
| `CaptureSizes.PaddingBound` | vkwr/config/utils.py:84-100 | for up to 512 sequences the padded size is within max_num_seqs and adds at most 15 rows, at most 7 up to a batch of 256 |
| `CaptureSizes.CUDAGraphManager.ComputeBsToPadded` | vkwr/worker/cuda_graph.py:54-65 | the table has exactly the batch sizes some captured size holds, each with the least such size |
| `CaptureSizes.CUDAGraphManager.GraphWithPadding` | vkwr/worker/cuda_graph.py:74-88 | returns the least captured size that holds the batch if it is within the limit and captured, and none only if there is none |
| `CaptureSizes.CUDAGraphManager.constructor` | vkwr/worker/cuda_graph.py:35-52 | the sizes are sorted without repetition and the table is complete |
| `Pipeline.TerminalSafety` | vkwr/engine/core_proc.py:163-266 | over every interleaving of arrivals, aborts, steps, batch completions and shutdown: at most one output with a finish reason, nothing after it, delivered tokens are the recorded ones in order, and recorded tokens stay within max_tokens + q - 1 and the length limit |
| `Pipeline.PrefillCoverage` | vkwr/scheduler/scheduler.py:129-181 | over every interleaving the chunks handed out concatenate to the prompt prefix the counter says, and the last chunk is announced once, exactly when the prompt is covered |
| `Pipeline.RunEventsKeeps` | vkwr/engine/core.py:201-266 | every interleaving keeps the process invariant |
| `Pipeline.StepBatchQueueKeeps` | vkwr/engine/core.py:201-266 | so does one pipelined step, with up to q batches in flight, whichever are done |
| `Pipeline.ReactKeeps` | vkwr/engine/core_proc.py:163-266 | so does every single event |
| `Pipeline.PendingAtMost` | vkwr/engine/core.py:214-224 | a request owes at most one token per batch in flight |
| `ProcessEvents.CompleteAnswers` | vkwr/engine/core.py:225-246 | a completed batch, for every request: queued aborts come first and tell nobody; then it has an output if and only if it is sampled a token or leaves, with that token, a finish exactly if it leaves, and the reason by that token |
| `ProcessEvents.StepIsFifo` | vkwr/engine/core.py:201-246 | batches are completed in the order they were launched, at most one in a step and only when done; one is launched exactly if there is room, somebody live and a token to schedule |
| `ProcessEvents.StepAnswersBatch` | vkwr/engine/core.py:201-246 | so a pipelined step answers exactly for the batch it completes and otherwise tells nobody anything |
| `ProcessEvents.EveryoneIsTold` | vkwr/engine/core_proc.py:163-296 | over every interleaving of steps, client messages, queued aborts and shutdown: a request that is gone has been told its end, unless a message in the abort queue named it; a running one has recorded no token that ends it; and each reason is the abort or fits the last token |
| `ProcessEvents.ClientAbortAnswers` | vkwr/engine/core.py:182-199 | an abort message: exactly the live requests it names leave, each is told so once, and nothing happens to anybody else |
| `ProcessEvents.ShutdownAnswers` | vkwr/engine/core_proc.py:163-194 | shutdown without a timeout: nobody stays live and each live request is told so once; with one, or unasked for, nothing happens to anybody |
| `ProcessEvents.ClientAddAnswers` | vkwr/engine/core_proc.py:222-266 | an arrival joins the waiting queue in its place while the process runs, and is refused and told so afterwards; nobody else is touched |
| `ProcessEvents.QueueHolds` | vkwr/engine/core_proc.py:203-207 | the names in the abort queue are those queued since it was last drained or cleared, and nothing else changes by queueing or clearing |
| `ProcessEvents.QueuedAbortTakesEffect` | vkwr/engine/core.py:165-173 | a queued abort takes effect with the next batch that is completed: whom it names is live no longer |
| `ProcessEvents.SignalShutsDown` | vkwr/engine/core_proc.py:119-194 | after a signal every arrival is refused and told so, and the next look at the shutdown without a timeout leaves nobody live |
| `EngineCoreProcs.EngineCoreProc.StepWithBatchQueue` | vkwr/engine/core.py:201-246 | the method on the process object is the pipelined step and keeps the invariant |
| `EngineCoreProcs.EngineCoreProc.LaunchBatch` | vkwr/engine/core.py:216-224 | a batch without tokens is not put in flight |
| `EngineCoreProcs.EngineCoreProc.CompleteBatch` | vkwr/engine/core.py:227-241 | queued aborts are applied first, then the batch's own results, which go out |
| `EngineCoreProcs.EngineCoreProc.AbortRequests` | vkwr/engine/core.py:182-199 | the live requests named leave and are told so; unknown ones are not |
| `EngineCoreProcs.EngineCoreProc.HandleShutdownState` | vkwr/engine/core_proc.py:163-194 | without a timeout everything live is aborted, and the loop goes on while running or while there is work |
| `EngineCoreProcs.EngineCoreProc.SendAbortOutputs` | vkwr/engine/core_proc.py:276-283 | one message per request, which together tell every live request once |
| `EngineCoreProcs.EngineCoreProc.HandleClientRequest` | vkwr/engine/core_proc.py:222-266 | an arrival is queued or, in shutdown, refused; an abort is applied; a wakeup does nothing |
| `EngineCoreProcs.EngineCoreProc.ProcessInputQueue` | vkwr/engine/core_proc.py:196-220 | all waiting messages are handled in order, and queued aborts are forgotten only when an idle process finds none |
| `EngineCoreProcs.AbortAll` | vkwr/scheduler/scheduler.py:87-103 | finishing everything is aborting the set of all live requests |
| `Utf8.DecodeSplits` | vkwr/engine/detokenizer.py:100-109 | decoding splits any bytes into encoded text and a rest that starts no character |
| `Utf8.DecodeUnique` | vkwr/engine/detokenizer.py:100-109 | and there is only one such split |
| `Utf8.LongestWellFormedPrefix` | vkwr/engine/detokenizer.py:100-109 | the decoded text is the longest well-formed prefix, in the sense of section 4 of RFC 3629 |
| `Utf8.WellFormedIffEncoded` | vkwr/engine/detokenizer.py:100-109 | a byte string is well-formed if and only if it encodes some text |
| `Utf8.MatchIsAligned` | vkwr/engine/detokenizer.py:162-182 | encoded text found in encoded text starts at a character boundary and is found in the text |
| `StopStrings.SameBytesSameText` | vkwr/engine/detokenizer.py:59-109 | however a byte stream is cut into tokens and updates: two unfinished runs fed the same bytes have the same text, undecoded rest and text sent, together these are all bytes fed, and the text is their longest well-formed prefix |
| `StopStrings.RunDecodes` | vkwr/engine/detokenizer.py:59-109 | until a run ends, text and buffer are the decoding of everything fed |
| `DetokenizingProps.TokenBoundariesDoNotMatter` | vkwr/engine/detokenizer.py:73-109 | one update without a match keeps it so |
| `DetokenizingProps.UpdateCorrect` | vkwr/engine/detokenizer.py:59-98 | an update without a match only adds text and leaves no stop string in it; with a match it cuts at an occurrence and never before text already sent |
| `DetokenizingProps.StreamingNeverRetracts` | vkwr/engine/detokenizer.py:119-136 | after any updates the concatenated deltas are the cumulative text, extend everything sent before, and when finished are the whole, possibly cut, text |
| `StopStrings.EndsAtFirstOccurrence` | vkwr/engine/detokenizer.py:59-184 | one stop string, any min_tokens, bytes that can still become UTF-8: the run ends with the first update after which the whole text contains the stop string past the text of the first min_tokens tokens, or that ends it itself, and what was sent is the text so far, cut at the first such occurrence |
| `StopStrings.EndsIff` | vkwr/engine/detokenizer.py:59-184 | it has ended if and only if there was such an update, and until then the text is that of the whole stream |
| `DetokenizingProps.WindowedSearchIsExact` | vkwr/engine/detokenizer.py:138-182 | one update, any min_tokens: the windowed search matches exactly when the text of all tokens read contains the stop string past that of the first min_tokens, and cuts at its first occurrence there |
| `DetokenizingProps.NoByteMatch` | vkwr/engine/detokenizer.py:162-182 | and the byte-level search never finds anything more |
| `GeneratedText.MatchCutsWhatWasRead` | vkwr/engine/detokenizer.py:138-184 | any stop strings and any bytes: an update matches at an occurrence of one of them in the text of all tokens read, past that of the first min_tokens, or in the bytes after the text, and cuts there; without a match no stop string occurs in that text past the minimum |
| `GeneratedText.BytesAreSearched` | vkwr/engine/detokenizer.py:162-182 | nor, once past min_tokens, in the bytes not decodable yet if no more follow it than the longest stop string has |
| `GeneratedText.IgnoringIs` | vkwr/engine/detokenizer.py:172-181 | a cut in such bytes leaves what decoding with replacement would, without the replaced pieces |
| `GeneratedText.LastTokenUnread` | vkwr/engine/detokenizer.py:68-71 | where the match is not wanted in the text, an update that ends the request does not depend on its last token at all |
| `GeneratedText.EveryOtherTokenIsRead` | vkwr/engine/detokenizer.py:68-84 | and in every other case, and for every other token, all tokens of the update are decoded |
| `GeneratedText.EngineEndedText` | vkwr/engine/detokenizer.py:59-136 | over a whole run without stop strings: the text, and what a delta reader has been sent, is the text of all tokens generated, less the last if the engine ended the request with it and it is not wanted |
| `GeneratedText.EngineEndedCut` | vkwr/engine/detokenizer.py:59-184 | with one stop string it is that, cut where it first contains the stop string past the minimum |
| `GeneratedText.LittleIsHeldBack` | vkwr/engine/detokenizer.py:119-136 | while a run goes on, everything is sent at once if the match is wanted or there are no stop strings; otherwise fewer characters are held back than some stop string has, and none once finished |
| `GeneratedText.NewTextIs` | vkwr/engine/detokenizer.py:88-117 | the new text of an update is what it added to the text, from where stop strings are looked for |
| `StopStrings.NothingLeftIff` | vkwr/engine/detokenizer.py:138-184 | several stop strings: no run over bytes that can still become UTF-8 leaves a stop string in the text past that of the first min_tokens tokens (before its end, where the match is kept) if and only if the first of the list occurs in every other one, at its end where min_tokens is not 0 |
| `StopStrings.NothingEverLeftIff` | vkwr/engine/detokenizer.py:162-182 | over arbitrary bytes some run leaves one for every list that is not empty |
| `StopStrings.FirstWins` | vkwr/engine/detokenizer.py:147-160 | a stop string that occurs so in all others is the one reported, at its first occurrence past the minimum in the whole text |
| `DetokenizingProps.EarlierStopCanSurvive` | vkwr/engine/detokenizer.py:147-160 | for instance, with "b" and "a" listed the text "ab" is cut to "a" |
| `IncrementalDetokenizing.IncrementalDetokenizer.Update` | vkwr/engine/detokenizer.py:59-98 | update() on the object is the update function, for every state |
| `IncrementalDetokenizing.IncrementalDetokenizer.DecodeNew` | vkwr/engine/detokenizer.py:72-85 | the token loop, with the position from which stop strings are looked for |
| `IncrementalDetokenizing.IncrementalDetokenizer.TryDecodeBuffer` | vkwr/engine/detokenizer.py:100-109 | everything decodable moves from the buffer to the text |
| `IncrementalDetokenizing.IncrementalDetokenizer.GetNextOutputText` | vkwr/engine/detokenizer.py:119-136 | a delta read moves the offset, a cumulative one changes nothing |
| `IncrementalDetokenizing.IncrementalDetokenizer.CheckStopStrings` | vkwr/engine/detokenizer.py:138-184 | the text window is searched first, then the bytes that are not text yet |
| `OutputCollecting.DeltaLossless` | vkwr/engine/output_processor.py:115-140 | for every interleaving of puts and gets what a delta consumer has and will get next is the producer's text and token ids, and finished flag and finish reason show once they were produced |
| `OutputCollecting.CumulativeLatest` | vkwr/engine/output_processor.py:115-140 | a cumulative consumer always has the latest snapshot next, with the finished flag and the finish reason last given |
| `OutputCollecting.ReasonsKept` | vkwr/engine/outputs.py:61-90 | in both modes and for any order of puts and gets a consumer has of each completion the finish reason last produced for it |
| `OutputCollecting.MergeAllDelta` | vkwr/engine/outputs.py:61-90 | merging appends text and token ids of each index and keeps one completion per index |
| `OutputProcessing.DeltasAreComplete` | vkwr/engine/output_processor.py:192-267 | for every sequence of engine outputs the deltas of a request concatenate to its text and to all its token ids, up to and including the output it finishes with, and none beyond |
| `OutputProcessing.IdsStayCompleteIff` | vkwr/engine/output_processor.py:72-77 | the ids read stay complete after one more output if and only if the sent offset is current, which finishing leaves behind |
| `Snapshots.SnapshotsAre` | vkwr/engine/output_processor.py:192-267 | for each kind of request and any outputs: it takes them up to the first with a finish or with which its text reaches a stop string, and is shown what its kind says of these |
| `Snapshots.ReasonIsGivenOnce` | vkwr/engine/output_processor.py:222-240 | the last snapshot of a finished request gives the reason, for the request and its completion: "stop" where the text reached a stop string and else the engine's; no snapshot before gives any or is finished |
| `Snapshots.KindsShow` | vkwr/engine/output_processor.py:70-102 | a cumulative client is shown everything so far each time, a client of the final output nothing before the end and everything then, a delta client what each output adds |
| `Snapshots.UpdateAnyOffset` | vkwr/engine/detokenizer.py:59-98 | what an update does to text and match does not depend on how much has been handed out |
| `Serving.SecondInMessageRepeats` | vkwr/engine/output_processor.py:192-267 | so a second output for a request in the message it finishes in would send its ids again |
| `Serving.EachIsServed` | vkwr/engine/llm_engine.py:107-119 | over every course of arrivals and messages, with finished requests removed after each message, a request gets what its own outputs up to the finishing one give, and is known exactly until then |
| `ServingAborts.AskedToAbortIff` | vkwr/engine/output_processor.py:225-242 | one message, at any time: a request is among the aborts if and only if it is known, has an output without a finish there, and its text reaches a stop string with that |
| `ServingAborts.AbortedIffTextEndedIt` | vkwr/engine/output_processor.py:225-242 | over every course of events after its arrival the engine is asked to abort a request if and only if its text ended it while the engine had not |
| `ServingAborts.EveryKindIsServed` | vkwr/engine/output_processor.py:192-283 | and a request of any kind has been shown exactly what its kind says of its outputs up to the one it is over with, the finish reason with the last of them only, and is known until then |
| `Serving.ServedCompletely` | vkwr/engine/async_llm.py:192-206 | so a request read in deltas has been sent its text and token ids up to there, and between messages the sent offset is current: with one output per request and message, as the engine makes them, nothing is sent twice |
| `Serving.FinishedAreNoted` | vkwr/engine/output_processor.py:258-267 | exactly the requests that finish are noted for removal |
| `Serving.Step` | vkwr/engine/llm_engine.py:107-119 | the loop on the objects: outputs processed, finished requests removed |
| `OutputProcessing.ClientReadsEverything` | vkwr/engine/output_processor.py:70-140 | end to end, through detokenizer, snapshots and collector: what a client has read and what waits for it are exactly the request's tokens and its visible text up to and including the finishing output, all of the text once finished |
| `OutputProcessors.RequestsAreIndependent` | vkwr/engine/output_processor.py:192-267 | processing the outputs of many requests gives each what its own outputs alone give |
| `OutputProcessors.RequestOutput.AddOutput` | vkwr/engine/outputs.py:61-90 | the nested loop merges in place as the merge function says |
| `OutputProcessors.RequestOutputCollector.Put` | vkwr/engine/output_processor.py:115-122 | an empty slot takes the output, a full one merges it |
| `OutputProcessors.RequestOutputCollector.GetNowait` | vkwr/engine/output_processor.py:133-140 | returns what waits, unchanged, and empties the slot |
| `OutputProcessors.RequestState.MakeRequestOutput` | vkwr/engine/output_processor.py:70-100 | the snapshot of either kind, and what it hands out |
| `OutputProcessors.RequestState.Process` | vkwr/engine/output_processor.py:210-260 | one engine output: recorded, decoded, searched for stop strings, turned into a snapshot |
| `OutputProcessors.OutputProcessor.ProcessOutputs` | vkwr/engine/output_processor.py:192-267 | the loop over all outputs changes exactly the requests named, in order, and skips unknown ones |
| `Tries.TrieNode.Add` | vkwr/tokenizers/rwkv7.py:23-31 | a heap trie that represents a vocabulary represents it with the new entry afterwards |
| `Tries.TrieNode.Descend` | vkwr/tokenizers/rwkv7.py:26-30 | the child by a byte is found or linked, and nothing else changes |
| `Tries.Tree.NothingPast` | vkwr/tokenizers/rwkv7.py:119-121 | where the walk stops no vocabulary entry goes on |
| `RwkvTokenizer.BuildTrie` | vkwr/tokenizers/rwkv7.py:96-98 | adding all entries in any order gives exactly the vocabulary |
| `RwkvTokenizer.RWKVTokenizer.LoadVocab` | vkwr/tokenizers/rwkv7.py:73-104 | tables and trie from the parsed lines, or the error for an empty file |
| `RwkvTokenizer.RWKVTokenizer.Encode` | vkwr/tokenizers/rwkv7.py:106-131 | walking the heap trie encodes as the greedy longest-match function does, including where it fails |
| `RwkvTokenizer.RWKVTokenizer.Match` | vkwr/tokenizers/rwkv7.py:113-128 | the inner walk finds the longest entry at a position |
| `RwkvTokenizer.RWKVTokenizer.Decode` | vkwr/tokenizers/rwkv7.py:133-140 | joins the entries and decodes them, replacing what is not UTF-8 |
| `Greedy.GreedyIsLongest` | vkwr/tokenizers/rwkv7.py:106-131 | a sequence of ids is the encoding if and only if each is the longest entry at its position and together they cover the input |
| `Greedy.EncodingIs` | vkwr/tokenizers/rwkv7.py:106-131 | for every vocabulary and all bytes: the ids emitted are at every position that of the longest entry that matches, and -1 for a byte where none does though some entry begins with it; encoding fails exactly when it comes to a byte no entry begins with |
| `Greedy.TextRoundTrip` | vkwr/tokenizers/rwkv7.py:106-140 | with all single bytes in the vocabulary, decode(encode(text)) is text, for every text |
| `Greedy.ReplacingIs` | vkwr/tokenizers/rwkv7.py:140 | decoding any bytes with replacement gives a text if and only if the bytes are cut into the encodings of its characters and, one for each U+FFFD that replaces, the longest piece that begins a character which does not go on, or one byte |
| `Greedy.JoinIs` | vkwr/tokenizers/rwkv7.py:133-140 | decoding joins the entries of the ids, nothing for an id past the table and the entry counted from the end for a negative one, and fails exactly for an id below all entries |
| `Greedy.BytesRoundTrip` | vkwr/tokenizers/rwkv7.py:106-131 | and the bytes of the emitted ids are the bytes of the input |
| `Greedy.AllBytesNeeded` | vkwr/tokenizers/rwkv7.py:113-130 | every input is encoded without an error and without an invented id if and only if all single bytes are entries |
| `Vocabulary.TableHoldsLastLines` | vkwr/tokenizers/rwkv7.py:87-94 | the table holds the last token given for each id, and nothing for ids in between |
| `Vocabulary.EntriesAreTheTokens` | vkwr/tokenizers/rwkv7.py:87-89 | the reverse table holds exactly the tokens some id ends up with |
| `Vocabulary.LatestIdWins` | vkwr/tokenizers/rwkv7.py:87-89 | of several ids with one token the one whose first line comes last is used |
| `Vocabulary.TablesAgree` | vkwr/tokenizers/rwkv7.py:87-94 | whatever the file says, the two tables agree |
| `Vocabulary.FileRoundTrip` | vkwr/tokenizers/rwkv7.py:73-140 | for every file in which each byte is some id's token, decoding undoes encoding |

## Left out

- EngineRuns.BatchIsolation: assumes an executor that performs the moves of a condense, as `vkwr/executor/abstract.py:65-71` promises; for one that ignores them see `IgnoringExecutor.IsolationWhenHighest`.
- EngineRuns.RunsNeverRaise: aborts go through the queue; for direct ones see `DirectAbort.LeakIsExact`, which speaks of slots and not of rows.
- PipelinedEngine.PipelinedRunsArePlain: an executor whose futures are done at once, as the shipped one's are; with several batches really in flight a record's slot can be out of date after a condense, so the following results have no slots.
- Pipeline.TerminalSafety: the scheduler without a slot manager, so slots, the errors of allocation and condense, and the order of phase 1 by slot are left out.
- Pipeline.RunEventsKeeps: likewise without slots.
- Pipeline.StepBatchQueueKeeps: likewise without the freed slots and the condense.
- Pipeline.ReactKeeps: likewise without slots.
- EngineCoreProcs.EngineCoreProc.StepWithBatchQueue: likewise; the same step with slots is `PipelinedEngine.StepQueued`.
- EngineCoreProcs.EngineCoreProc.LaunchBatch: likewise without the slot manager.
- EngineCoreProcs.EngineCoreProc.CompleteBatch: likewise without freed slots and condense.
- SimpleScheduling.SimpleScheduler.FinishRequests: assumes the request accounting, under which removing the first occurrence removes the only one.
- EngineCoreProcs.EngineCoreProc.ProcessInputQueue: covers the messages that are there; waiting for the next one, utility calls and a failed executor are not modelled.
- OutputProcessors.OutputProcessor.ProcessOutputs: covers requests read synchronously; putting into collectors is stated by `OutputProcessing.ClientReadsEverything`.
- RwkvTokenizer.RWKVTokenizer.LoadVocab: starts from the parsed lines; ids are natural numbers.
- StopStrings.EndsAtFirstOccurrence: one stop string; for several, `GeneratedText.MatchCutsWhatWasRead` says where an update cuts and `StopStrings.NothingLeftIff` what is left.
- Snapshots.ReasonIsGivenOnce: the finish reason; which stop string was reached, kept beside it, is the second result of the detokenizer's update.
- ProcessEvents.EveryoneIsTold: without slots, as `Pipeline.RunEventsKeeps`; with slots `AnsweredRuns.EveryRequestIsTold` says it of the plain engine.
- Starvation.NobodyStarvesIff: over the states the scheduler's invariant allows; `StarvationRun.StarvedInARun` reaches one that starves, but which configurations can reach one is not asked.
- Serving.ServedCompletely: a message has at most one output for a request, as the engine makes them; `Serving.SecondInMessageRepeats` says what two would do.
- Request objects are entries of a table keyed by identifier that lists and dictionaries refer to; their status and the number of output tokens kept in them, which nothing modelled reads, are left out.
- The three dictionaries of a scheduler output are one sequence of records. Removing finished requests from them is left out, since a request is never both scheduled and finished in phase 1.
- The priority queue is a list in heap order; among requests equal in priority and arrival it is first in, first out, while a binary heap may order them otherwise.
- The length test in `vkwr/scheduler/utils.py:31-36` reads an attribute that nothing sets, so it never applies.
- The order of outputs of different requests within one message, and sets walked in the program's order: results do not depend on it.
- Text with unpaired surrogates, for which encoding raises, and negative token ids in the detokenizer.
- The errors raised when a step fails half way, the abort of everything that follows, and exceptions delivered to collectors.
- Log probabilities, time stamps, statistics, external request identifiers, state cache and checkpoints.
- Kernels, weights and the numeric model: an arbitrary function from state and token to state. The sampler: an arbitrary choice per request.
- Threads, sockets, signals and message encoding: only the queue-level steps are modelled.
- `vkwr/state/state_disk_store.py`, `vkwr/state/state_cache.py`, `vkwr/scheduler/batch_reorder.py`: not part of the engine's step.
- `get_indices` of the slot manager, the collector's waiting `get`, and other one-line accessors.
