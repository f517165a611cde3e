/** The engine process: messages, batches in flight and shutdown, as methods on its fields. */
module EngineCoreProcs {
  import opened Wrappers
  import opened Requests
  import opened StateSlots
  import opened Scheduling
  import opened SchedulingInvariants
  import opened ModelRunner
  import opened Completion
  import opened EngineStep
  import opened EngineRuns
  import opened SimpleScheduling
  import EngineCores
  import opened Pipeline

  datatype Message = Add(id: ReqId, request: Request) | Abort(ids: seq<ReqId>) | Wakeup

  // What has gone out, per request.
  function Delivered(queue: seq<map<ReqId, CoreOutput>>): map<ReqId, seq<CoreOutput>> {
    if queue == [] then map[] else Deliver(Delivered(queue[..|queue| - 1]), queue[|queue| - 1])
  }

  class EngineCoreProc {
    const config: Config
    const scheduler: SimpleScheduler
    const batchQueueSize: nat
    var batchQueue: seq<Batch>
    var abortsQueue: seq<seq<ReqId>>
    var shutdownState: ShutdownState
    var inputQueue: seq<Message>
    var outputQueue: seq<map<ReqId, CoreOutput>>
    ghost var recorded: map<ReqId, seq<Token>>
    ghost var fed: map<ReqId, seq<Token>>
    ghost var lastChunks: map<ReqId, nat>
    ghost var used: set<ReqId>

    constructor (config: Config, batchQueueSize: nat)
      requires ValidConfig(config) && 1 <= batchQueueSize
      ensures this.config == config && this.batchQueueSize == batchQueueSize && fresh(scheduler)
      ensures Valid() && View() == Fresh() && inputQueue == []
    {
      this.config, this.batchQueueSize := config, batchQueueSize;
      scheduler := new SimpleScheduler(config, null);
      batchQueue, abortsQueue, shutdownState, inputQueue, outputQueue := [], [], Running, [], [];
      recorded, fed, lastChunks, used := map[], map[], map[], {};
      new;
      FreshOk(config, batchQueueSize);
    }

    ghost function View(): Proc
      reads this, scheduler
    {
      Proc(scheduler.View(), batchQueue, abortsQueue, shutdownState, Delivered(outputQueue), recorded, fed, lastChunks, used)
    }

    ghost predicate Valid()
      reads this, scheduler
    {
      && ValidConfig(config) && 1 <= batchQueueSize
      && scheduler.config == config && scheduler.slotManager == null
      && ProcInv(config, batchQueueSize, View())
    }

    method Put(outs: map<ReqId, CoreOutput>)
      modifies `outputQueue
      ensures outputQueue == old(outputQueue) + [outs]
      ensures Delivered(outputQueue) == Deliver(old(Delivered(outputQueue)), outs)
    {
      assert (outputQueue + [outs])[..|outputQueue|] == outputQueue;
      outputQueue := outputQueue + [outs];
    }

    // abort_requests: the live requests named leave and are told so.
    method AbortRequests(ids: seq<ReqId>)
      requires SchedInv(scheduler.View())
      modifies `outputQueue, scheduler
      ensures View() == AbortNow(old(View()), ToSet(ids))
    {
      hide SchedInv, AbortSet;
      var finished := scheduler.FinishRequests(EngineCores.IdSet(ids));
      if finished == {} {
        NothingDelivered(Delivered(outputQueue));
      } else {
        Put(AbortOutputs(finished));
      }
    }

    // A finished batch: queued aborts first, their outputs dropped, then its own results.
    method CompleteBatch(b: Batch, sampled: map<ReqId, Token>)
      requires SchedInv(scheduler.View()) && scheduler.slotManager == null
      modifies `abortsQueue, `outputQueue, `recorded, scheduler
      ensures View() == Complete(old(View()), b, sampled)
    {
      hide SchedInv, AbortSet, Update, Record;
      var ids := DrainAborts();
      var finished := scheduler.FinishRequests(EngineCores.IdSet(ids));
      recorded := recorded + Record(scheduler.runningOutputTokens, b.data, sampled);
      var outs, freed := scheduler.UpdateFromOutput(b.data, b.finished, sampled);
      Put(outs);
    }

    method DrainAborts() returns (ids: seq<ReqId>)
      modifies `abortsQueue
      ensures abortsQueue == [] && EngineCores.IdSet(ids) == AbortIds(old(abortsQueue))
    {
      ids := [];
      while abortsQueue != []
        invariant EngineCores.IdSet(ids) + AbortIds(abortsQueue) == AbortIds(old(abortsQueue))
        decreases |abortsQueue|
      {
        EngineCores.DrainOne(abortsQueue);
        EngineCores.IdSetAppend(ids, abortsQueue[0]);
        ids := ids + abortsQueue[0];
        abortsQueue := abortsQueue[1..];
      }
      assert AbortIds([]) == {} && EngineCores.IdSet(ids) == AbortIds(old(abortsQueue));
    }

    // step_with_batch_queue: launch first if there is room, then apply the oldest batch if it is done.
    method StepWithBatchQueue(oracle: map<ReqId, nat>, done: bool)
      requires Valid()
      modifies this, scheduler
      ensures Valid() && View() == StepBatchQueue(config, batchQueueSize, old(View()), oracle, done)
      ensures inputQueue == old(inputQueue)
    {
      hide Schedule, Complete, ProcInv, SumTokens, Sampled, SchedInv, Launch, Delivered, StepBatchQueue;
      ghost var p := View();
      StepBatchQueueKeeps(config, batchQueueSize, p, oracle, done);
      QueueCases(config, batchQueueSize, p, oracle, done);
      ProcScheduler(config, batchQueueSize, p);
      if scheduler.HasRequests() && |batchQueue| < batchQueueSize {
        var data, finished := LaunchBatch();
        if SumTokens(data) == 0 {
          if batchQueue == [] {
            if finished != {} {
              CompleteBatch(Batch(data, finished), map[]);
            }
            return;
          }
        }
      }
      if batchQueue != [] && done {
        var b := batchQueue[0];
        batchQueue := batchQueue[1..];
        CompleteBatch(b, Sampled(b.data, oracle));
      }
    }

    // Schedules, and puts the batch in flight unless it has no tokens.
    method LaunchBatch() returns (data: seq<RunData>, finished: set<ReqId>)
      requires ValidConfig(config) && scheduler.config == config && scheduler.slotManager == null
      requires SchedulerInv(config, scheduler.View(), None)
      modifies `batchQueue, `fed, `lastChunks, scheduler
      ensures SchedInv(scheduler.View())
      ensures var o := Schedule(config, old(scheduler.View()), None);
        && data == o.data && finished == o.finished
        && View() == if SumTokens(data) == 0 then old(View()).(sched := o.sched) else Launch(old(View()), o)
    {
      hide Schedule, SumTokens, SchedInv, StateOk, WorkOk, FeedChunks, CountLast, Delivered;
      ghost var s := scheduler.View();
      ScheduleCorrect(config, s, None);
      StateOkKeeps(config, s, Schedule(config, s, None));
      var raised;
      data, finished, raised := scheduler.ScheduleBatch();
      if SumTokens(data) != 0 {
        batchQueue := batchQueue + [Batch(data, finished)];
        fed, lastChunks := FeedChunks(fed, data), CountLast(lastChunks, data);
      }
    }

    function HasWork(): bool
      reads this, scheduler
    {
      scheduler.HasRequests() || batchQueue != []
    }

    // _handle_shutdown: whether the loop goes on. Without a timeout everything live is aborted.
    method HandleShutdownState(noTimeout: bool) returns (go: bool)
      requires Valid()
      modifies this, scheduler
      ensures Valid() && View() == React(config, batchQueueSize, old(View()), HandleShutdown(noTimeout))
      ensures go <==> shutdownState == Running || HasWork()
      ensures inputQueue == old(inputQueue)
    {
      hide ProcInv, SchedInv, AbortSet, Delivered, Deliver;
      ghost var p := View();
      ProcScheduler(config, batchQueueSize, p);
      ReactKeeps(config, batchQueueSize, p, HandleShutdown(noTimeout));
      if shutdownState == Running {
        return true;
      }
      if shutdownState == Requested {
        if noTimeout {
          AbortAll(p.sched);
          var aborted := scheduler.FinishAll();
          SendAbortOutputs(aborted, p.sched);
        }
        shutdownState := ShuttingDown;
      }
      go := HasWork();
    }

    // One message per request that was aborted.
    method SendAbortOutputs(ids: seq<ReqId>, ghost s: Sched)
      requires SchedInv(s) && multiset(ids) == Live(s)
      modifies `outputQueue
      ensures Delivered(outputQueue) == Deliver(old(Delivered(outputQueue)), AbortOutputs(LiveIds(s)))
    {
      hide Delivered, Deliver, AbortOutputs, SchedInv;
      ghost var log := Delivered(outputQueue);
      LiveSet(s, ids);
      assert ToSet(ids[..0]) == {};
      NothingDelivered(log);
      for i := 0 to |ids|
        invariant Delivered(outputQueue) == Deliver(log, AbortOutputs(ToSet(ids[..i])))
      {
        assert ids[..i + 1] == ids[..i] + [ids[i]] && ids[i] !in ids[..i];
        DeliverOneMore(log, ToSet(ids[..i]), ids[i]);
        assert ToSet(ids[..i + 1]) == ToSet(ids[..i]) + {ids[i]};
        Put(AbortOutputs({ids[i]}));
      }
      assert ids[..|ids|] == ids;
    }

    // _handle_client_request
    method HandleClientRequest(message: Message)
      requires Valid() && MessagePermitted(View(), message)
      modifies this, scheduler
      ensures Valid() && View() == ReactMessage(config, batchQueueSize, old(View()), message)
      ensures inputQueue == old(inputQueue)
    {
      hide ProcInv, SchedInv, AbortSet, Delivered, Deliver;
      ghost var p := View();
      ProcScheduler(config, batchQueueSize, p);
      match message
      case Add(id, r) =>
        ReactKeeps(config, batchQueueSize, p, ClientAdd(id, r));
        used := used + {id};
        if shutdownState == Running {
          scheduler.AddRequest(id, r);
        } else {
          var finished := scheduler.FinishRequests({id});
          Put(AbortOutputs({id}));
        }
      case Abort(ids) =>
        ReactKeeps(config, batchQueueSize, p, ClientAbort(ids));
        AbortRequests(ids);
      case Wakeup =>
    }

    // _process_input_queue, for the messages that are there: an idle process takes them one at a time,
    // forgetting queued aborts before it waits; then whatever else arrived is handled.
    method ProcessInputQueue(block: bool) returns (cleared: bool)
      requires Valid() && AllPermitted(config, batchQueueSize, View(), inputQueue)
      modifies this, scheduler
      ensures Valid() && inputQueue == []
      ensures var p := ReactAll(config, batchQueueSize, old(View()), old(inputQueue));
        View() == if cleared then React(config, batchQueueSize, p, ClearAborts) else p
    {
      hide ProcInv, ReactMessage, MessagePermitted;
      cleared := false;
      ghost var start, all := View(), inputQueue;
      while !scheduler.HasRequests() && shutdownState == Running
        invariant Valid() && !cleared
        invariant AllPermitted(config, batchQueueSize, View(), inputQueue)
        invariant ReactAll(config, batchQueueSize, View(), inputQueue) == ReactAll(config, batchQueueSize, start, all)
        decreases |inputQueue|
      {
        if inputQueue == [] {
          ReactKeeps(config, batchQueueSize, View(), ClearAborts);
          abortsQueue := [];
          cleared := true;
          return;
        }
        var message := inputQueue[0];
        inputQueue := inputQueue[1..];
        HandleClientRequest(message);
        if !block {
          break;
        }
      }
      while inputQueue != []
        invariant Valid() && !cleared
        invariant AllPermitted(config, batchQueueSize, View(), inputQueue)
        invariant ReactAll(config, batchQueueSize, View(), inputQueue) == ReactAll(config, batchQueueSize, start, all)
        decreases |inputQueue|
      {
        var message := inputQueue[0];
        inputQueue := inputQueue[1..];
        HandleClientRequest(message);
      }
    }
  }

  function ReactMessage(cfg: Config, q: nat, p: Proc, message: Message): Proc {
    match message
    case Add(id, r) => React(cfg, q, p, ClientAdd(id, r))
    case Abort(ids) => React(cfg, q, p, ClientAbort(ids))
    case Wakeup => p
  }

  function ReactAll(cfg: Config, q: nat, p: Proc, messages: seq<Message>): Proc
    decreases |messages|
  {
    if messages == [] then p else ReactAll(cfg, q, ReactMessage(cfg, q, p, messages[0]), messages[1..])
  }

  ghost predicate MessagePermitted(p: Proc, message: Message) {
    message.Add? ==> Permitted(p, ClientAdd(message.id, message.request))
  }

  ghost predicate AllPermitted(cfg: Config, q: nat, p: Proc, messages: seq<Message>)
    decreases |messages|
  {
    messages == [] || (MessagePermitted(p, messages[0]) && AllPermitted(cfg, q, ReactMessage(cfg, q, p, messages[0]), messages[1..]))
  }

  lemma LiveSet(s: Sched, ids: seq<ReqId>)
    requires SchedInv(s) && multiset(ids) == Live(s)
    ensures ToSet(ids) == LiveIds(s)
    ensures forall i, j :: 0 <= i < j < |ids| ==> ids[i] != ids[j]
  {
    assert forall id :: id in ids <==> id in multiset(ids);
    forall i, j | 0 <= i < j < |ids|
      ensures ids[i] != ids[j]
    {
      assert ids == ids[..j] + ids[j..];
      assert multiset(ids)[ids[j]] == multiset(ids[..j])[ids[j]] + multiset(ids[j..])[ids[j]];
      assert ids[j..][0] == ids[j] && ids[..j][i] == ids[i];
      assert Live(s)[ids[j]] <= 1;
    }
  }

  // Aborting everything live empties the scheduler.
  lemma AbortAll(s: Sched)
    requires SchedInv(s)
    ensures AbortSet(s, LiveIds(s)) == s.(waiting := [], skipped := [], running := [], runningMap := {}, outputs := map[])
    ensures Known(s, LiveIds(s)) == LiveIds(s)
  {
    var ids := LiveIds(s);
    RunningOnce(s);
    forall id | id in s.waiting || id in s.skipped
      ensures id !in s.runningMap
    {
      LiveOnce(s, id);
    }
    hide SchedInv, Live;
    DropAll(s.waiting, ids - s.runningMap);
    DropAll(s.skipped, ids - s.runningMap);
    DropAll(s.running, ids * s.runningMap);
    assert s.runningMap - ids == {};
    assert s.outputs - (ids * s.runningMap) == map[];
  }

  lemma {:induction false} DropAll(q: seq<ReqId>, ids: set<ReqId>)
    requires forall id :: id in q ==> id in ids
    ensures Drop(q, ids) == []
  {
    if q != [] {
      assert q[|q| - 1] in q;
      DropAll(q[..|q| - 1], ids);
    }
  }

  lemma DeliverOneMore(log: map<ReqId, seq<CoreOutput>>, ids: set<ReqId>, id: ReqId)
    requires id !in ids
    ensures Deliver(Deliver(log, AbortOutputs(ids)), AbortOutputs({id})) == Deliver(log, AbortOutputs(ids + {id}))
  {
    var one, both := Deliver(Deliver(log, AbortOutputs(ids)), AbortOutputs({id})), Deliver(log, AbortOutputs(ids + {id}));
    assert one.Keys == both.Keys;
    forall x | x in both
      ensures one[x] == both[x]
    {
      assert LogOf(log, x) + [] == LogOf(log, x);
      assert LogOf(Deliver(log, AbortOutputs(ids)), x) + [] == LogOf(Deliver(log, AbortOutputs(ids)), x);
    }
  }

  // The process after the scheduling half of a step.
  function AfterLaunch(cfg: Config, q: nat, p: Proc): Proc {
    if HasRequests(p.sched) && |p.inflight| < q then
      var o := Schedule(cfg, p.sched, None);
      if SumTokens(o.data) == 0 then p.(sched := o.sched) else Launch(p, o)
    else p
  }

  lemma QueueCases(cfg: Config, q: nat, p: Proc, oracle: map<ReqId, nat>, done: bool)
    ensures var o := Schedule(cfg, p.sched, None);
      var p1 := AfterLaunch(cfg, q, p);
      StepBatchQueue(cfg, q, p, oracle, done) ==
        if HasRequests(p.sched) && |p.inflight| < q && SumTokens(o.data) == 0 && p.inflight == [] then
          if o.finished == {} then p1 else Complete(p1, Batch(o.data, o.finished), map[])
        else if p1.inflight != [] && done then
          Complete(p1.(inflight := p1.inflight[1..]), p1.inflight[0], Sampled(p1.inflight[0].data, oracle))
        else p1
  {
    hide Schedule, Complete, SumTokens, Sampled, HasRequests;
  }

  lemma NothingDelivered(log: map<ReqId, seq<CoreOutput>>)
    ensures Deliver(log, AbortOutputs({})) == log
  {
    assert forall id :: id in log ==> log[id] + [] == log[id];
  }

  lemma ProcScheduler(cfg: Config, q: nat, p: Proc)
    requires ProcInv(cfg, q, p)
    ensures SchedulerInv(cfg, p.sched, None) && SchedInv(p.sched)
  {
  }

  lemma StateOkKeeps(cfg: Config, s: Sched, o: Scheduled)
    requires StateOk(cfg, s, None, o)
    ensures !o.raised && SchedInv(o.sched)
  {
  }
}
