/** The engine object: one step over the scheduler, the slot manager and the runner it owns. */
module EngineCores {
  import opened Wrappers
  import opened Requests
  import opened Sorting
  import opened StateSlots
  import opened Scheduling
  import opened SchedulingInvariants
  import opened ModelRunner
  import opened Completion
  import opened EngineStep
  import opened EngineSettle
  import opened EngineRuns
  import opened SimpleScheduling
  import opened GpuModelRunner
  import opened CaptureSizes

  class EngineCore<S> {
    const config: Config
    const slotManager: StateSlotManager
    const scheduler: SimpleScheduler
    const runner: GPUModelRunner<S>
    const graphs: CUDAGraphManager?
    var abortsQueue: seq<seq<ReqId>>

    constructor (config: Config, model: Rnn<S>, graphs: CUDAGraphManager?)
      requires ValidConfig(config) && (graphs != null ==> graphs.Valid())
      ensures this.config == config && this.graphs == graphs && runner.model == model
      ensures fresh(slotManager) && fresh(scheduler) && fresh(runner) && fresh(runner.state) && fresh(runner.lastSampledToken)
      ensures Wired() && Initial(config, View())
    {
      this.config, this.graphs := config, graphs;
      var slots := new StateSlotManager(config.maxNumSeqs);
      slotManager := slots;
      scheduler := new SimpleScheduler(config, slots);
      runner := new GPUModelRunner(model, slots, config.maxNumSeqs, config.maxBatchedTokens);
      abortsQueue := [];
    }

    // The parts belong together and the buffers have the configured sizes.
    ghost predicate Wired()
      reads graphs
    {
      && scheduler.config == config && scheduler.slotManager == slotManager
      && runner.slotManager == slotManager && runner.Valid()
      && slotManager.maxSlots == config.maxNumSeqs == runner.state.Length
      && runner.inputIds.Length == config.maxBatchedTokens && runner.queryStartLoc.Length == config.maxNumSeqs + 1
      && (graphs != null ==> graphs.Valid())
    }

    function View(): Engine<S>
      reads this, scheduler, slotManager, runner, runner.state, runner.lastSampledToken
    {
      Engine(scheduler.View(), slotManager.View(), runner.View(), abortsQueue)
    }

    method AddRequest(id: ReqId, request: Request)
      requires Wired()
      modifies scheduler
      ensures View() == old(View()).(sched := Enqueue(config, old(scheduler.View()), id, request))
    {
      scheduler.AddRequest(id, request);
    }

    method AbortRequest(id: ReqId)
      modifies `abortsQueue
      ensures abortsQueue == old(abortsQueue) + [[id]]
    {
      abortsQueue := abortsQueue + [[id]];
    }

    // _process_aborts_queue: the named requests leave; the pairs say which slots they held.
    method ProcessAbortsQueue() returns (freed: seq<(ReqId, nat)>)
      requires SchedInv(scheduler.View())
      modifies `abortsQueue, scheduler
      ensures abortsQueue == []
      ensures var ids := AbortIds(old(abortsQueue));
        && scheduler.View() == AbortSet(old(scheduler.View()), ids)
        && FreedIds(freed) == AbortedHolding(slotManager.View(), ids)
        && FreedSlots(freed) == SlotsOf(slotManager.View(), AbortedHolding(slotManager.View(), ids))
    {
      hide SchedInv;
      freed := [];
      var requestIds: seq<ReqId> := [];
      ghost var queue := abortsQueue;
      while abortsQueue != []
        invariant IdSet(requestIds) + AbortIds(abortsQueue) == AbortIds(queue)
        modifies `abortsQueue
        decreases |abortsQueue|
      {
        DrainOne(abortsQueue);
        IdSetAppend(requestIds, abortsQueue[0]);
        requestIds := requestIds + abortsQueue[0];
        abortsQueue := abortsQueue[1..];
      }
      assert AbortIds([]) == {} && IdSet(requestIds) == AbortIds(queue);
      var finished := scheduler.FinishRequests(IdSet(requestIds));
      for i := 0 to |requestIds|
        modifies {}
        invariant FreedIds(freed) == AbortedHolding(slotManager.View(), IdSet(requestIds[..i]))
        invariant FreedSlots(freed) == SlotsOf(slotManager.View(), AbortedHolding(slotManager.View(), IdSet(requestIds[..i])))
      {
        var id := requestIds[i];
        assert requestIds[..i + 1] == requestIds[..i] + [id];
        HoldingMore(slotManager.View(), requestIds[..i], id);
        if id in slotManager.reqToSlot {
          FreedMore(freed, id, slotManager.reqToSlot[id]);
          freed := freed + [(id, slotManager.reqToSlot[id])];
        }
      }
      assert requestIds[..|requestIds|] == requestIds;
    }

    // From the sampled tokens to the end of a step: drain aborts, update, condense.
    method SettleBatch(data: seq<RunData>, finished: set<ReqId>, sampled: map<ReqId, Token>, ghost ran: bool)
      returns (outs: map<ReqId, CoreOutput>)
      requires Wired() && MidInv(config, runner.model, View(), data, finished, sampled)
      modifies `abortsQueue, scheduler, slotManager, runner, runner.state, runner.lastSampledToken
      ensures Wired()
      ensures Settle(old(View()), data, finished, sampled, ran) == Some(Stepped(View(), outs, ran))
    {
      hide Update, AbortSet, BatchCondense, SchedInv, RowsOk, LongLimit, SlotsInv, GpuShape, Record, Dense;
      ghost var e := View();
      SettleCorrect(config, runner.model, e, data, finished, sampled, ran);
      MovesInRange(config, runner.model, e, data, finished, sampled);
      var freed := ProcessAbortsQueue();
      var released;
      outs, released := scheduler.UpdateFromOutput(data, finished, sampled);
      FreedAppend(freed, released);
      CondenseFreed(freed + released);
    }

    // _batch_condense
    method CondenseFreed(freed: seq<(ReqId, nat)>)
      requires Wired() && BatchCondense(slotManager.View(), FreedIds(freed), FreedSlots(freed)).Some?
      requires var (st, moves) := BatchCondense(slotManager.View(), FreedIds(freed), FreedSlots(freed)).value;
        forall m :: m in moves ==> m.src < runner.state.Length && m.dst < runner.state.Length
      modifies slotManager, runner.state, runner.lastSampledToken
      ensures var (st, moves) := BatchCondense(old(slotManager.View()), FreedIds(freed), FreedSlots(freed)).value;
        slotManager.View() == st && runner.View() == ModelRunner.Condense(old(runner.View()), moves)
    {
      hide BatchCondense;
      if freed == [] {
        NothingToCondense(slotManager.View());
        return;
      }
      var moves := slotManager.CondenseBatch(freed);
      if moves.value != [] {
        runner.CondenseRows(moves.value);
      }
    }

    // The graph the runner would replay for a batch of this size.
    function CapturedFor(batch: nat): Option<nat>
      requires Wired()
      reads graphs
    {
      if graphs == null then None else graphs.GraphWithPadding(batch)
    }

    method StepOnce(oracle: map<ReqId, nat>) returns (outs: map<ReqId, CoreOutput>, ran: bool)
      requires Wired() && ValidConfig(config) && EngineInv(config, runner.model, View())
      modifies `abortsQueue, scheduler, slotManager, runner
      modifies runner.state, runner.lastSampledToken, runner.inputIds, runner.queryStartLoc
      ensures Wired() && EngineInv(config, runner.model, View())
      ensures var o := Schedule(config, old(scheduler.View()), Some(old(slotManager.View())));
        Step(config, runner.model, old(View()), oracle, CapturedFor(|o.data|)) == Some(Stepped(View(), outs, ran))
    {
      hide Schedule, Execute, Settle, EngineInv, Sampled, WriteBack, MidInv, SumTokens, Feedable, Consistent;
      hide Step, StateOk, WorkOk;
      ghost var e, m := View(), runner.model;
      ghost var o := Schedule(config, e.sched, Some(e.slots));
      StepCorrect(config, m, e, oracle, CapturedFor(|o.data|));
      if !scheduler.HasRequests() {
        StepIdle(config, m, e, oracle, CapturedFor(|o.data|));
        return map[], false;
      }
      var data, finished, raised := scheduler.ScheduleBatch();
      ScheduledCleanly(config, m, e, o, oracle, CapturedFor(|o.data|));
      StepCases(config, m, e, oracle, CapturedFor(|o.data|));
      if SumTokens(data) == 0 {
        ran := false;
        if finished == {} {
          return map[], false;
        }
        outs := SettleBatch(data, finished, map[], false);
        return;
      }
      var captured := CapturedFor(|data|);
      RunnerReady(config, m, e, o);
      var ok := runner.ExecuteModel(data, captured);
      var sampled := runner.SampleTokens(data, oracle);
      outs := SettleBatch(data, finished, sampled, true);
      ran := true;
    }
  }

  function IdSet(ids: seq<ReqId>): set<ReqId> {
    set id | id in ids
  }

  lemma IdSetAppend(a: seq<ReqId>, b: seq<ReqId>)
    ensures IdSet(a + b) == IdSet(a) + IdSet(b)
  {
  }

  lemma DrainOne(queue: seq<seq<ReqId>>)
    requires queue != []
    ensures AbortIds(queue) == IdSet(queue[0]) + AbortIds(queue[1..])
  {
    assert forall ids :: ids in queue <==> ids == queue[0] || ids in queue[1..];
  }

  lemma HoldingMore(slots: Slots, ids: seq<ReqId>, id: ReqId)
    ensures AbortedHolding(slots, IdSet(ids + [id])) == AbortedHolding(slots, IdSet(ids)) + if id in slots.reqToSlot then {id} else {}
    ensures SlotsOf(slots, AbortedHolding(slots, IdSet(ids + [id]))) ==
      SlotsOf(slots, AbortedHolding(slots, IdSet(ids))) + if id in slots.reqToSlot then {slots.reqToSlot[id]} else {}
  {
    IdSetAppend(ids, [id]);
  }

  lemma FreedAppend(a: seq<(ReqId, nat)>, b: seq<(ReqId, nat)>)
    ensures FreedIds(a + b) == FreedIds(a) + FreedIds(b)
    ensures FreedSlots(a + b) == FreedSlots(a) + FreedSlots(b)
  {
    assert forall p :: p in a + b <==> p in a || p in b;
  }

  lemma NothingToCondense(st: Slots)
    ensures BatchCondense(st, {}, {}) == Some((st, []))
    ensures FreedIds([]) == {} && FreedSlots([]) == {}
  {
  }

  // The moves of a settle stay inside the buffers.
  lemma MovesInRange<S>(
      cfg: Config, m: Rnn<S>, e: Engine<S>, data: seq<RunData>, finished: set<ReqId>, sampled: map<ReqId, Token>)
    requires MidInv(cfg, m, e, data, finished, sampled)
    ensures var ids := AbortIds(e.aborts);
      var u := Update(AbortSet(e.sched, ids), Some(e.slots), data, finished, sampled);
      var aborted := AbortedHolding(e.slots, ids);
      var r := BatchCondense(e.slots, aborted + u.freedIds, SlotsOf(e.slots, aborted) + u.freedSlots);
      r.Some? && forall mv :: mv in r.value.1 ==> mv.src < cfg.maxNumSeqs && mv.dst < cfg.maxNumSeqs
  {
    hide SchedInv, Update, RowsOk, Record, AbortSet, LongLimit, Current, Inverse;
    var ids := AbortIds(e.aborts);
    var u := Update(AbortSet(e.sched, ids), Some(e.slots), data, finished, sampled);
    var aborted := AbortedHolding(e.slots, ids);
    FreedPairs(e.sched, e.slots, data, finished, sampled, ids);
    DenseCount(e.slots, |e.sched.running|);
    BatchCondenseCorrect(e.slots, |e.sched.running|, aborted + u.freedIds, SlotsOf(e.slots, aborted) + u.freedSlots);
    hide BatchCondense;
  }

  // What a successful scheduling call leaves for the rest of the step.
  lemma ScheduledCleanly<S>(cfg: Config, m: Rnn<S>, e: Engine<S>, o: Scheduled, oracle: map<ReqId, nat>, captured: Option<nat>)
    requires ValidConfig(cfg) && EngineInv(cfg, m, e) && o == Schedule(cfg, e.sched, Some(e.slots))
    ensures !o.raised && o.slots.Some?
    ensures StateOk(cfg, e.sched, Some(e.slots), o) && WorkOk(cfg, e.sched, o)
    ensures SumTokens(o.data) == 0 ==> MidInv(cfg, m, e.(sched := o.sched, slots := o.slots.value), o.data, o.finished, map[])
    ensures SumTokens(o.data) == 0 ==> EngineInv(cfg, m, e.(sched := o.sched, slots := o.slots.value))
    ensures SumTokens(o.data) > 0 ==>
      var r := Execute(m, e.gpu, o.slots.value, o.data, captured);
      && r.Some?
      && var sampled := Sampled(o.data, oracle);
      MidInv(cfg, m, Engine(o.sched, o.slots.value, r.value.(last := WriteBack(r.value.last, o.data, sampled)), e.aborts),
             o.data, o.finished, sampled)
  {
    hide RowsOk, SchedInv, LongLimit, Execute, WriteBack, Sampled;
    ScheduleCorrect(cfg, e.sched, Some(e.slots));
    hide Schedule;
    RecordsPositive(cfg, e.sched, o);
    SumAtLeastCount(o.data);
    if SumTokens(o.data) == 0 {
      IdleToMid(cfg, m, e, o);
    } else {
      BatchToMid(cfg, m, e, o, oracle, captured);
    }
  }

  lemma StepIdle<S>(cfg: Config, m: Rnn<S>, e: Engine<S>, oracle: map<ReqId, nat>, captured: Option<nat>)
    requires !HasRequests(e.sched)
    ensures Step(cfg, m, e, oracle, captured) == Some(Stepped(e, map[], false))
  {
  }

  lemma StepCases<S>(cfg: Config, m: Rnn<S>, e: Engine<S>, oracle: map<ReqId, nat>, captured: Option<nat>)
    requires HasRequests(e.sched)
    ensures var o := Schedule(cfg, e.sched, Some(e.slots));
      !o.raised && o.slots.Some? ==>
        var r := Execute(m, e.gpu, o.slots.value, o.data, captured);
        var sampled := Sampled(o.data, oracle);
        var e' := e.(sched := o.sched, slots := o.slots.value);
        && (SumTokens(o.data) == 0 && o.finished == {} ==> Step(cfg, m, e, oracle, captured) == Some(Stepped(e', map[], false)))
        && (SumTokens(o.data) == 0 && o.finished != {} ==>
              Step(cfg, m, e, oracle, captured) == Settle(e', o.data, o.finished, map[], false))
        && (SumTokens(o.data) > 0 && r.Some? ==>
              Step(cfg, m, e, oracle, captured) == Settle(
                Engine(o.sched, o.slots.value, r.value.(last := WriteBack(r.value.last, o.data, sampled)), e.aborts),
                o.data, o.finished, sampled, true))
  {
    hide Schedule, Settle, Execute, Sampled, WriteBack;
  }

  // The runner can take the batch: rows apart and in range, tokens at hand, buffers large enough.
  lemma RunnerReady<S>(cfg: Config, m: Rnn<S>, e: Engine<S>, o: Scheduled)
    requires EngineInv(cfg, m, e) && o.slots.Some?
    requires StateOk(cfg, e.sched, Some(e.slots), o) && WorkOk(cfg, e.sched, o)
    ensures DistinctSlots(o.data, cfg.maxNumSeqs) && Feedable(e.gpu.last, o.data)
    ensures SumTokens(o.data) <= cfg.maxBatchedTokens && |o.data| <= cfg.maxNumSeqs
    ensures Consistent(o.slots.value) && o.slots.value.pad == []
    ensures forall d :: d in o.data ==> d.slot !in o.slots.value.free
  {
    hide SchedInv, Live, RowsOk, LongLimit, Advanced, Dense, DistinctSlots, RequestOk, Consistent, SumTokens;
    SlotsDistinct(cfg, e.sched, o);
    FreeAreHigh(o.slots.value, |o.sched.running|);
    DistinctCountRows(o.data, cfg.maxNumSeqs);
    forall d | d in o.data
      ensures |TokensOf(e.gpu.last, d)| == d.numTokens && d.slot < |e.gpu.last| && (d.isDecode <==> d.input.None?)
    {
      RecordFeedable(cfg, e.sched, o.slots, d, e.gpu.last);
    }
  }

  lemma RecordFeedable(cfg: Config, s: Sched, slots: Option<Slots>, d: RunData, last: seq<Token>)
    requires RunOk(cfg, s, slots, d) && d.slot < |last|
    ensures |TokensOf(last, d)| == d.numTokens && (d.isDecode <==> d.input.None?)
  {
  }

  lemma FreeAreHigh(st: Slots, n: nat)
    requires Dense(st, n)
    ensures Consistent(st) && st.pad == [] && forall s :: s in st.free ==> s >= n
  {
    DenseIsConsistent(st, n);
  }

  // Rows that are all different and in range are no more than there are rows.
  lemma {:induction false} DistinctCountRows(data: seq<RunData>, rows: nat)
    requires DistinctSlots(data, rows)
    ensures |data| <= rows
  {
    SlotSetSize(data);
    SliceCount(Slice(0, rows), 0, rows);
    SubsetCount(SlotSet(data), Slice(0, rows));
  }

  function SlotSet(data: seq<RunData>): set<nat> {
    set d | d in data :: d.slot
  }

  lemma {:induction false} SlotSetSize(data: seq<RunData>)
    requires forall i, j :: 0 <= i < j < |data| ==> data[i].slot != data[j].slot
    ensures |SlotSet(data)| == |data|
  {
    if data != [] {
      var n := |data| - 1;
      SlotSetSize(data[..n]);
      assert forall d :: d in data <==> d in data[..n] || d == data[n];
      assert SlotSet(data) == SlotSet(data[..n]) + {data[n].slot};
    }
  }

  // At every moment of every run: no more sequences than allowed, no more long prompts than allowed,
  // and the next batch fits the token budget and so the flat input and offset buffers.
  lemma {:induction false} LimitsHoldInEveryRun<S>(cfg: Config, m: Rnn<S>, start: Engine<S>, actions: seq<Action>)
    requires ValidConfig(cfg) && Initial(cfg, start) && AllowedRun(cfg, m, start, actions)
    ensures Run(cfg, m, start, actions).Some?
    ensures var e := Run(cfg, m, start, actions).value;
      var o := Schedule(cfg, e.sched, Some(e.slots));
      && |e.sched.running| <= cfg.maxNumSeqs && |o.sched.running| <= cfg.maxNumSeqs
      && LongLimit(cfg, e.sched) && LongLimit(cfg, o.sched)
      && SumTokens(o.data) <= cfg.maxBatchedTokens && |o.data| <= cfg.maxNumSeqs
  {
    InitialOk(cfg, m, start);
    RunsNeverRaise(cfg, m, start, actions);
    hide Run, AllowedRun, Initial, RowsOk, SchedInv, LongLimit, RunOk;
    var e := Run(cfg, m, start, actions).value;
    ScheduleCorrect(cfg, e.sched, Some(e.slots));
    hide Schedule;
    RunnerReady(cfg, m, e, Schedule(cfg, e.sched, Some(e.slots)));
  }

  // No more outputs than asked for, nor than the length limit leaves room for; a request due to finish
  // has as many as it asked for.
  ghost predicate WithinLimits(cfg: Config, r: Request, outs: seq<Token>) {
    && (r.params.maxTokens.Some? && 1 <= r.params.maxTokens.value ==>
          |outs| <= r.params.maxTokens.value && (ShouldFinish(r, outs) ==> |outs| == r.params.maxTokens.value))
    && (cfg.maxModelLen.Some? && |r.prompt| <= cfg.maxModelLen.value ==> |r.prompt| + |outs| <= cfg.maxModelLen.value)
  }

  lemma OkIsWithin<S>(cfg: Config, m: Rnn<S>, r: Request, outs: seq<Token>, row: S, last: Token)
    requires RequestOk(cfg, m, r, outs, row, last)
    ensures WithinLimits(cfg, r, outs)
  {
  }

  lemma RowsAreWithin<S>(
      cfg: Config, m: Rnn<S>, store: Store, ids: set<ReqId>, outputs: map<ReqId, seq<Token>>, slots: map<ReqId, nat>, g: Gpu<S>, id: ReqId)
    requires RowsOk(cfg, m, store, ids, outputs, slots, g) && id in ids
    ensures WithinLimits(cfg, Req(store, id), Out(outputs, id))
  {
    hide RequestOk, WithinLimits;
    OkIsWithin(cfg, m, store[id], Out(outputs, id), g.state[slots[id]], g.last[slots[id]]);
  }

  // So it is for every running request at every moment of every run,
  lemma {:induction false} LengthsHoldInEveryRun<S>(cfg: Config, m: Rnn<S>, start: Engine<S>, actions: seq<Action>, id: ReqId)
    requires ValidConfig(cfg) && Initial(cfg, start) && AllowedRun(cfg, m, start, actions)
    ensures Run(cfg, m, start, actions).Some?
    ensures var s := Run(cfg, m, start, actions).value.sched;
      id in s.running ==> WithinLimits(cfg, Req(s.store, id), Out(s.outputs, id))
  {
    InitialOk(cfg, m, start);
    RunsNeverRaise(cfg, m, start, actions);
    hide Run, AllowedRun, Initial, Live, LongLimit, Dense, RowsOk, WithinLimits;
    var e := Run(cfg, m, start, actions).value;
    if id in e.sched.running {
      assert id in multiset(e.sched.running);
      RowsAreWithin(
        cfg, m, e.sched.store, e.sched.runningMap, e.sched.outputs, e.slots.reqToSlot, e.gpu, id);
    }
  }

  // and for what the next step records, also for the requests that leave in it: their last outputs are
  // made from these.
  lemma {:induction false} LengthsHoldAsRecorded<S>(
      cfg: Config, m: Rnn<S>, start: Engine<S>, actions: seq<Action>, oracle: map<ReqId, nat>, captured: Option<nat>, id: ReqId)
    requires ValidConfig(cfg) && Initial(cfg, start) && AllowedRun(cfg, m, start, actions)
    ensures Run(cfg, m, start, actions).Some?
    ensures match Begin(cfg, m, Run(cfg, m, start, actions).value, oracle, captured)
      case GoesOn(x) =>
        var s := AbortSet(x.engine.sched, AbortIds(x.engine.aborts));
        id in s.runningMap ==> WithinLimits(cfg, Req(s.store, id), Out(Record(s.outputs, x.data, x.sampled), id))
      case _ => true
  {
    hide Run, AllowedRun, Initial, Begin, EngineInv, WithinLimits;
    InitialOk(cfg, m, start);
    RunsNeverRaise(cfg, m, start, actions);
    BeginOk(cfg, m, Run(cfg, m, start, actions).value, oracle, captured);
    match Begin(cfg, m, Run(cfg, m, start, actions).value, oracle, captured)
    case GoesOn(x) => RecordedIsWithin(cfg, m, x, id);
    case _ =>
  }

  lemma RecordedIsWithin<S>(cfg: Config, m: Rnn<S>, x: Middle<S>, id: ReqId)
    requires MidInv(cfg, m, x.engine, x.data, x.finished, x.sampled)
    ensures var s := AbortSet(x.engine.sched, AbortIds(x.engine.aborts));
      id in s.runningMap ==> WithinLimits(cfg, Req(s.store, id), Out(Record(s.outputs, x.data, x.sampled), id))
  {
    hide RowsOk, LongLimit, WithinLimits, Drop, Record, AbortIds, Dense, Live;
    var s, t := x.engine.sched, AbortSet(x.engine.sched, AbortIds(x.engine.aborts));
    RecordCorrect(s.outputs, x.data, x.sampled);
    RecordCorrect(t.outputs, x.data, x.sampled);
    if id in t.runningMap {
      RowsAreWithin(
        cfg, m, s.store, s.runningMap, Record(s.outputs, x.data, x.sampled), x.engine.slots.reqToSlot, x.engine.gpu, id);
    }
  }
}
