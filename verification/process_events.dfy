/** What each event of the engine process does to a request, and what a request is told in the end. */
module ProcessEvents {
  import opened Wrappers
  import opened Requests
  import opened StateSlots
  import opened Scheduling
  import opened SchedulingInvariants
  import opened ModelRunner
  import opened Completion
  import opened EngineStep
  import opened EngineRuns
  import opened StepOutputs
  import opened Pipeline
  import Queue = RequestQueue

  const ABORTED := CoreOutput([], Some(Abort), None)

  // Nothing at all happens to the request.
  ghost predicate Untouched(p: Proc, p': Proc, id: ReqId) {
    && LogOf(p'.log, id) == LogOf(p.log, id)
    && (id in Live(p'.sched) <==> id in Live(p.sched))
    && (id in p'.sched.runningMap <==> id in p.sched.runningMap)
    && Out(p'.sched.outputs, id) == Out(p.sched.outputs, id)
    && Req(p'.sched.store, id) == Req(p.sched.store, id) && (id in p'.sched.store <==> id in p.sched.store)
  }

  // The request leaves and is told that it was aborted.
  ghost predicate ToldAborted(p: Proc, p': Proc, id: ReqId) {
    && LogOf(p'.log, id) == LogOf(p.log, id) + [ABORTED]
    && id !in Live(p'.sched) && p'.sched.store == p.sched.store
  }

  lemma AbortAnswers(p: Proc, ids: set<ReqId>, id: ReqId)
    requires SchedInv(p.sched)
    ensures var p' := AbortNow(p, ids);
      if id in ids && id in Live(p.sched) then ToldAborted(p, p', id) else Untouched(p, p', id)
  {
    hide SchedInv, Live, AbortSet, Known;
    OneAborted(p.sched, ids, id);
    KnownIsLive(p.sched, ids);
    NotRunningUnlessLive(p.sched, id);
    NotRunningUnlessLive(AbortSet(p.sched, ids), id);
    assert LogOf(p.log, id) + [] == LogOf(p.log, id);
  }

  lemma NotRunningUnlessLive(s: Sched, id: ReqId)
    requires SchedInv(s)
    ensures id in s.runningMap ==> id in Live(s)
    ensures id !in s.runningMap ==> Out(s.outputs, id) == []
  {
    RunningAreLive(s);
  }

  lemma LiveIdsAre(s: Sched, id: ReqId)
    ensures id in LiveIds(s) <==> id in Live(s)
  {
    assert id in s.running <==> id in multiset(s.running);
    assert id in s.waiting <==> id in multiset(s.waiting);
    assert id in s.skipped <==> id in multiset(s.skipped);
  }

  // An abort message: exactly the live requests it names leave, each told so once.
  lemma {:induction false} ClientAbortAnswers(cfg: Config, q: nat, p: Proc, ids: seq<ReqId>, id: ReqId)
    requires SchedInv(p.sched)
    ensures var p' := React(cfg, q, p, ClientAbort(ids));
      if id in ids && id in Live(p.sched) then ToldAborted(p, p', id) else Untouched(p, p', id)
  {
    hide SchedInv, Live, AbortNow;
    AbortAnswers(p, ToSet(ids), id);
  }

  // Shutdown without a timeout: nobody stays, each live request is told so once. With one, or when it was
  // not asked for, nothing happens to anybody.
  lemma {:induction false} ShutdownAnswers(cfg: Config, q: nat, p: Proc, noTimeout: bool, id: ReqId)
    requires SchedInv(p.sched)
    ensures var p' := React(cfg, q, p, HandleShutdown(noTimeout));
      && (if p.shutdown == Requested && noTimeout && id in Live(p.sched) then ToldAborted(p, p', id) else Untouched(p, p', id))
      && (p.shutdown == Requested && noTimeout ==> id !in Live(p'.sched))
      && p'.shutdown == (if p.shutdown == Requested then ShuttingDown else p.shutdown)
      && p'.inflight == p.inflight
  {
    hide SchedInv, Live, AbortNow, LiveIds;
    LiveIdsAre(p.sched, id);
    AbortAnswers(p, LiveIds(p.sched), id);
    SameButShutdown(p, LiveIds(p.sched));
  }

  lemma SameButShutdown(p: Proc, ids: set<ReqId>)
    ensures AbortNow(p, ids).inflight == p.inflight && AbortNow(p, ids).shutdown == p.shutdown
  {
    hide AbortSet, Deliver, Known;
  }

  // An arrival: while the process runs the request joins the waiting queue in its place and nothing happens
  // to anybody else; afterwards it is refused and told so.
  lemma {:induction false} ClientAddAnswers(cfg: Config, q: nat, p: Proc, added: ReqId, r: Request, id: ReqId)
    requires SchedInv(p.sched) && added !in p.sched.store
    ensures var p' := React(cfg, q, p, ClientAdd(added, r));
      && (id != added ==> Untouched(p, p', id))
      && (p.shutdown == Running ==>
            && added in Live(p'.sched) && added !in p'.sched.runningMap && p'.sched.store == p.sched.store[added := r]
            && LogOf(p'.log, added) == LogOf(p.log, added)
            && exists k :: Queue.PlacedAt(cfg.policy, p'.sched.store, p.sched.waiting, added, p'.sched.waiting, k))
      && (p.shutdown != Running ==> ToldAborted(p, p', added))
  {
    hide SchedInv, Live, AbortSet, Queue.Add;
    if p.shutdown == Running {
      EnqueueLive(cfg, p.sched, added, r);
      var k := Queue.AddPlaces(cfg.policy, p.sched.store[added := r], p.sched.waiting, added);
    } else {
      OneAborted(p.sched, {added}, id);
      OneAborted(p.sched, {added}, added);
      NotRunningUnlessLive(p.sched, id);
      assert LogOf(p.log, id) + [] == LogOf(p.log, id);
    }
  }

  // ---------------------------------------------------------------- queued messages

  // Queueing an abort or clearing the queue changes the queue alone, and the names in it are those queued
  // since it was last drained.
  lemma QueueHolds(cfg: Config, q: nat, p: Proc, ids: seq<ReqId>, id: ReqId)
    ensures var p' := React(cfg, q, p, Event.QueueAbort(ids));
      && (id in AbortIds(p'.aborts) <==> id in AbortIds(p.aborts) || id in ids) && p'.(aborts := p.aborts) == p
    ensures var p' := React(cfg, q, p, ClearAborts);
      id !in AbortIds(p'.aborts) && p'.(aborts := p.aborts) == p
  {
    if id in AbortIds(p.aborts) {
      var names :| names in p.aborts && id in names;
      assert names in p.aborts + [ids];
    }
    if id in ids {
      assert ids in p.aborts + [ids];
    }
  }

  // A signal asks for the shutdown: from then on every arrival is refused, and the next look at the shutdown
  // without a timeout leaves nobody live.
  lemma {:induction false} SignalShutsDown(cfg: Config, q: nat, p: Proc, added: ReqId, r: Request, id: ReqId)
    requires SchedInv(p.sched) && added !in p.sched.store
    ensures var p' := React(cfg, q, p, Signal);
      && p'.sched == p.sched && p'.log == p.log
      && ToldAborted(p', React(cfg, q, p', ClientAdd(added, r)), added)
      && id !in Live(React(cfg, q, p', HandleShutdown(true)).sched)
  {
    hide SchedInv, Live, AbortSet, ToldAborted, Deliver;
    var p' := React(cfg, q, p, Signal);
    ClientAddAnswers(cfg, q, p', added, r, added);
    ShutdownAnswers(cfg, q, p', true, id);
  }

  // ---------------------------------------------------------------- a completed batch

  // What applying a batch does to a request: the aborts in the queue come first and tell nobody.
  ghost predicate BatchAnswers(p: Proc, p': Proc, b: Batch, sampled: map<ReqId, Token>, id: ReqId) {
    var here := id in p.sched.runningMap && id !in AbortIds(p.aborts);
    var ends := id in b.finished || (id in sampled && EndsIt(Req(p.sched.store, id).params, sampled[id]));
    var tokens := if id in sampled then [sampled[id]] else [];
    && (id in p'.sched.runningMap <==> here && !ends)
    && (id in Live(p'.sched) <==> id in Live(p.sched) && id !in AbortIds(p.aborts) && !(here && ends))
    && (id in p'.sched.runningMap ==> Out(p'.sched.outputs, id) == Out(p.sched.outputs, id) + tokens)
    && p'.sched.store == p.sched.store
    && if here && (ends || id in sampled)
       then exists o :: LogOf(p'.log, id) == LogOf(p.log, id) + [o] && OutputIs(p, b, sampled, id, ends, o)
       else LogOf(p'.log, id) == LogOf(p.log, id)
  }

  // Its output in the batch: the sampled token if there is one, the end if it leaves, and why.
  ghost predicate OutputIs(p: Proc, b: Batch, sampled: map<ReqId, Token>, id: ReqId, ends: bool, o: CoreOutput) {
    var params := Req(p.sched.store, id).params;
    && o.tokens == (if id in sampled then [sampled[id]] else [])
    && (o.finish.Some? <==> ends)
    && (ends && b.finished !! DataIds(b.data) && NoEnd(params, Out(p.sched.outputs, id)) ==>
          (o.finish.value, o.stop) == ReasonFor(params, if id in sampled then Some(sampled[id]) else None))
  }

  lemma {:induction false} CompleteAnswers(p: Proc, b: Batch, sampled: map<ReqId, Token>, id: ReqId)
    requires SchedInv(p.sched) && SamplesOf(b.data, sampled)
    ensures BatchAnswers(p, Complete(p, b, sampled), b, sampled, id)
  {
    hide SchedInv, Live, AbortSet, Update, EndsIt, SampledIn, DistinctIds, AbortIds, NoEnd, ReasonFor;
    var ids := AbortIds(p.aborts);
    var s1 := AbortSet(p.sched, ids);
    OneAborted(p.sched, ids, id);
    RunningAreLive(s1);
    UpdatedRunning(s1, None, b.data, b.finished, sampled, id);
    UpdatedOutputs(s1, None, b.data, b.finished, sampled, id);
    UpdatedLive(s1, None, b.data, b.finished, sampled, id);
    var u := Update(s1, None, b.data, b.finished, sampled);
    var p' := Complete(p, b, sampled);
    if id in u.outputs {
      assert LogOf(p'.log, id) == LogOf(p.log, id) + [u.outputs[id]];
      if b.finished !! DataIds(b.data) && NoEnd(Req(p.sched.store, id).params, Out(p.sched.outputs, id)) {
        UpdatedReason(s1, None, b.data, b.finished, sampled, id);
      }
      var ends := id in b.finished || (id in sampled && EndsIt(Req(p.sched.store, id).params, sampled[id]));
      assert OutputIs(p, b, sampled, id, ends, u.outputs[id]);
    } else {
      assert LogOf(p'.log, id) == LogOf(p.log, id) + [] == LogOf(p.log, id);
    }
  }

  // ---------------------------------------------------------------- one pipelined step

  // The batch a step launches, if any: there is room, somebody to schedule and something to run.
  function Launched(cfg: Config, q: nat, p: Proc): seq<Batch> {
    var o := Schedule(cfg, p.sched, None);
    if Busy(p.sched) && |p.inflight| < q && o.data != [] then [Batch(o.data, o.finished)] else []
  }

  // Batches are completed in the order they were launched, one a step at most, when the oldest is done.
  lemma {:induction false} StepIsFifo(cfg: Config, q: nat, p: Proc, oracle: map<ReqId, nat>, done: bool)
    requires ValidConfig(cfg) && 1 <= q && ProcInv(cfg, q, p)
    ensures var p' := React(cfg, q, p, EngineStep(oracle, done));
      var queue := p.inflight + Launched(cfg, q, p);
      p'.inflight == if done && queue != [] then queue[1..] else queue
  {
    hide ProcInv, Schedule, Complete, FeedChunks, CountLast, SumTokens;
    var o := Schedule(cfg, p.sched, None);
    ScheduleBasics(cfg, q, p, o);
    KeepInflight();
    if Launched(cfg, q, p) == [] {
      assert p.inflight + Launched(cfg, q, p) == p.inflight;
    }
  }

  lemma KeepInflight()
    ensures forall p: Proc, b: Batch, sampled: map<ReqId, Token> :: Complete(p, b, sampled).inflight == p.inflight
  {
    hide Update, AbortSet, Record, Deliver;
  }

  // The batch a step completes: the oldest if it is done, or one without tokens if nothing is in flight.
  function Completed(cfg: Config, q: nat, p: Proc, oracle: map<ReqId, nat>, done: bool): Option<(Batch, map<ReqId, Token>)> {
    var queue := p.inflight + Launched(cfg, q, p);
    var o := Schedule(cfg, p.sched, None);
    if queue != [] then if done then Some((queue[0], Sampled(queue[0].data, oracle))) else None
    else if Busy(p.sched) && o.finished != {} then Some((Batch([], o.finished), map[]))
    else None
  }

  predicate Busy(s: Sched) {
    s.waiting != [] || s.skipped != [] || s.running != []
  }

  // The scheduler's state after the launching part.
  function AfterLaunch(cfg: Config, q: nat, p: Proc): Sched {
    if Busy(p.sched) && |p.inflight| < q then Schedule(cfg, p.sched, None).sched else p.sched
  }

  // A step schedules if there is room and answers with the batch it completes.
  lemma {:induction false} StepAnswersBatch(cfg: Config, q: nat, p: Proc, oracle: map<ReqId, nat>, done: bool, id: ReqId)
    requires ValidConfig(cfg) && 1 <= q && ProcInv(cfg, q, p)
    ensures var p' := React(cfg, q, p, EngineStep(oracle, done));
      var p1 := p.(sched := AfterLaunch(cfg, q, p));
      match Completed(cfg, q, p, oracle, done)
      case Some((b, sampled)) => SamplesOf(b.data, sampled) && BatchAnswers(p1, p', b, sampled, id) && p'.aborts == []
      case None => p'.sched == p1.sched && p'.log == p.log && p'.aborts == p.aborts
  {
    hide ProcInv, Schedule, Complete, BatchAnswers, SamplesOf, SchedInv, StepBatchQueue, Launched, Sampled;
    var o := Schedule(cfg, p.sched, None);
    ScheduleKeeps(cfg, q, p, o);
    StepIs(cfg, q, p, oracle, done);
    LaunchedIs(cfg, q, p);
    ClearsAborts();
    match Completed(cfg, q, p, oracle, done)
    case Some((b, sampled)) =>
      var queue := p.inflight + Launched(cfg, q, p);
      if queue != [] {
        OldestSamples(cfg, q, p, o, queue, oracle);
      } else {
        NoSamples([]);
      }
      var p1, p2 := p.(sched := AfterLaunch(cfg, q, p)), BeforeComplete(cfg, q, p);
      CompleteAnswers(p2, b, sampled, id);
      SameAnswers(p1, p2, Complete(p2, b, sampled), b, sampled, id);
    case None =>
  }

  // So a queued abort takes effect with the next batch that is completed, unless the queue was cleared before.
  lemma {:induction false} QueuedAbortTakesEffect(
      cfg: Config, q: nat, p: Proc, ids: seq<ReqId>, oracle: map<ReqId, nat>, done: bool, id: ReqId)
    requires ValidConfig(cfg) && 1 <= q && ProcInv(cfg, q, p) && id in ids
    requires Completed(cfg, q, p, oracle, done).Some?
    ensures var p' := React(cfg, q, p, Event.QueueAbort(ids));
      id !in Live(React(cfg, q, p', EngineStep(oracle, done)).sched)
  {
    hide ProcInv, Schedule, Sampled, Live, AbortIds, OutputIs, SamplesOf;
    var p' := React(cfg, q, p, Event.QueueAbort(ids));
    QueueHolds(cfg, q, p, ids, id);
    InvWithQueue(cfg, q, p, ids);
    StepAnswersBatch(cfg, q, p', oracle, done, id);
  }

  lemma InvWithQueue(cfg: Config, q: nat, p: Proc, ids: seq<ReqId>)
    requires ValidConfig(cfg) && 1 <= q && ProcInv(cfg, q, p)
    ensures ProcInv(cfg, q, React(cfg, q, p, Event.QueueAbort(ids)))
  {
    ReactKeeps(cfg, q, p, Event.QueueAbort(ids));
  }

  // The process before the batch is applied: what was launched has been handed to the model.
  function BeforeComplete(cfg: Config, q: nat, p: Proc): Proc {
    var queue := p.inflight + Launched(cfg, q, p);
    var launched := if Launched(cfg, q, p) == [] then [] else Schedule(cfg, p.sched, None).data;
    p.(sched := AfterLaunch(cfg, q, p), inflight := if queue == [] then [] else queue[1..],
       fed := FeedChunks(p.fed, launched), lastChunks := CountLast(p.lastChunks, launched))
  }

  lemma StepIs(cfg: Config, q: nat, p: Proc, oracle: map<ReqId, nat>, done: bool)
    requires ValidConfig(cfg) && 1 <= q && ProcInv(cfg, q, p)
    ensures var p' := StepBatchQueue(cfg, q, p, oracle, done);
      match Completed(cfg, q, p, oracle, done)
      case Some((b, sampled)) => p' == Complete(BeforeComplete(cfg, q, p), b, sampled)
      case None => p'.sched == AfterLaunch(cfg, q, p) && p'.log == p.log && p'.aborts == p.aborts
  {
    hide ProcInv, Schedule, Complete, Sampled, StepBatchQueue, Completed, BeforeComplete, AfterLaunch, SumTokens;
    ScheduleBasics(cfg, q, p, Schedule(cfg, p.sched, None));
    if Busy(p.sched) && |p.inflight| < q && Schedule(cfg, p.sched, None).data != [] {
      StepLaunches(cfg, q, p, oracle, done);
    } else {
      StepDoesNot(cfg, q, p, oracle, done);
    }
  }

  lemma StepLaunches(cfg: Config, q: nat, p: Proc, oracle: map<ReqId, nat>, done: bool)
    requires Busy(p.sched) && |p.inflight| < q && SumTokens(Schedule(cfg, p.sched, None).data) != 0
    requires Schedule(cfg, p.sched, None).data != []
    ensures var p' := StepBatchQueue(cfg, q, p, oracle, done);
      match Completed(cfg, q, p, oracle, done)
      case Some((b, sampled)) => p' == Complete(BeforeComplete(cfg, q, p), b, sampled)
      case None => p'.sched == AfterLaunch(cfg, q, p) && p'.log == p.log && p'.aborts == p.aborts
  {
    hide Schedule, Complete, SumTokens, Sampled, FeedChunks, CountLast;
  }

  lemma StepDoesNot(cfg: Config, q: nat, p: Proc, oracle: map<ReqId, nat>, done: bool)
    requires !(Busy(p.sched) && |p.inflight| < q && Schedule(cfg, p.sched, None).data != []) && 1 <= q
    requires SumTokens(Schedule(cfg, p.sched, None).data) == 0 <==> Schedule(cfg, p.sched, None).data == []
    ensures var p' := StepBatchQueue(cfg, q, p, oracle, done);
      match Completed(cfg, q, p, oracle, done)
      case Some((b, sampled)) => p' == Complete(BeforeComplete(cfg, q, p), b, sampled)
      case None => p'.sched == AfterLaunch(cfg, q, p) && p'.log == p.log && p'.aborts == p.aborts
  {
    hide Schedule, Complete, SumTokens, Sampled;
    NothingFed(p);
    hide FeedChunks, CountLast;
    assert p.inflight + [] == p.inflight;
  }

  lemma NothingFed(p: Proc)
    ensures FeedChunks(p.fed, []) == p.fed && CountLast(p.lastChunks, []) == p.lastChunks
  {
  }

  lemma LaunchedIs(cfg: Config, q: nat, p: Proc)
    ensures var o := Schedule(cfg, p.sched, None);
      Launched(cfg, q, p) == [] || Launched(cfg, q, p) == [Batch(o.data, o.finished)]
    ensures p.inflight + [] == p.inflight
  {
    hide Schedule;
  }

  lemma ClearsAborts()
    ensures forall p: Proc, b: Batch, sampled: map<ReqId, Token> :: Complete(p, b, sampled).aborts == []
  {
    hide Update, AbortSet, Record, Deliver;
  }

  lemma ScheduleKeeps(cfg: Config, q: nat, p: Proc, o: Scheduled)
    requires ValidConfig(cfg) && ProcInv(cfg, q, p) && o == Schedule(cfg, p.sched, None)
    ensures SchedInv(p.sched) && SchedInv(o.sched) && DistinctIds(o.data)
  {
    hide SchedInv, IdOk, FedOk, Schedule, RunOk, DistinctIds;
    ScheduleCorrect(cfg, p.sched, None);
  }

  lemma OldestSamples(cfg: Config, q: nat, p: Proc, o: Scheduled, queue: seq<Batch>, oracle: map<ReqId, nat>)
    requires ProcInv(cfg, q, p) && DistinctIds(o.data) && queue != []
    requires queue == p.inflight || queue == p.inflight + [Batch(o.data, o.finished)]
    ensures SamplesOf(queue[0].data, Sampled(queue[0].data, oracle))
  {
    hide SchedInv, IdOk, FedOk, DistinctIds, SamplesOf, Sampled;
    assert queue[0] in queue;
    SampledAre(queue[0].data, oracle);
  }

  lemma SameAnswers(p1: Proc, p2: Proc, p': Proc, b: Batch, sampled: map<ReqId, Token>, id: ReqId)
    requires BatchAnswers(p2, p', b, sampled, id) && p1.sched == p2.sched && p1.log == p2.log && p1.aborts == p2.aborts
    ensures BatchAnswers(p1, p', b, sampled, id)
  {
    hide Live, AbortIds, EndsIt, NoEnd, ReasonFor;
    var ends := id in b.finished || (id in sampled && EndsIt(Req(p2.sched.store, id).params, sampled[id]));
    if id in p2.sched.runningMap && id !in AbortIds(p2.aborts) && (ends || id in sampled) {
      var o :| LogOf(p'.log, id) == LogOf(p2.log, id) + [o] && OutputIs(p2, b, sampled, id, ends, o);
      assert OutputIs(p1, b, sampled, id, ends, o);
    }
  }

  // ---------------------------------------------------------------- over every interleaving

  // Some message put into the abort queue names the request.
  ghost predicate QueueNames(events: seq<Event>, id: ReqId) {
    exists i :: 0 <= i < |events| && events[i].QueueAbort? && id in events[i].ids
  }

  // The reason a request was given: aborted, or the one for the last token it was sampled.
  ghost predicate EndIs(p: SamplingParams, o: CoreOutput) {
    o.finish.Some? ==>
      o == ABORTED || (o.finish.value, o.stop) == ReasonFor(p, if o.tokens == [] then None else Some(o.tokens[0]))
  }

  ghost predicate EndToldFor(
      p: SamplingParams, used: bool, live: bool, running: bool, record: seq<Token>, named: bool, log: seq<CoreOutput>)
  {
    && (used && !live && Open(log) ==> named)
    && (running ==> NoEnd(p, record))
    && (forall o :: o in log ==> EndIs(p, o))
  }

  ghost predicate EndTold(p: Proc, named: bool, id: ReqId) {
    && EndToldFor(
         Req(p.sched.store, id).params, id in p.used, id in Live(p.sched), id in p.sched.runningMap,
         Out(p.sched.outputs, id), named, LogOf(p.log, id))
    && (id in AbortIds(p.aborts) ==> named)
    && (forall b :: b in p.inflight ==> b.finished !! DataIds(b.data))
  }

  lemma Closed(log: seq<CoreOutput>, o: CoreOutput)
    ensures Open(log + [o]) ==> o.finish.None?
    ensures forall x :: x in log + [o] <==> x in log || x == o
  {
    assert (log + [o])[|log|] == o;
  }

  // Requests that are told of an abort, or to whom nothing happens.
  lemma AbortedOrNot(p: Proc, p': Proc, named: bool, id: ReqId)
    requires EndTold(p, named, id) && (ToldAborted(p, p', id) || (Untouched(p, p', id) && p'.used == p.used))
    requires p'.inflight == p.inflight && (id in AbortIds(p'.aborts) ==> named)
    requires id in p'.sched.runningMap ==> id in Live(p'.sched)
    ensures EndTold(p', named, id)
  {
    hide Live, AbortIds, NoEnd, ReasonFor, Open;
    if ToldAborted(p, p', id) {
      Closed(LogOf(p.log, id), ABORTED);
    }
  }

  // What a completed batch tells.
  lemma BatchEnds(p: Proc, p': Proc, b: Batch, sampled: map<ReqId, Token>, named: bool, id: ReqId)
    requires BatchAnswers(p, p', b, sampled, id) && b.finished !! DataIds(b.data)
    requires EndToldFor(
      Req(p.sched.store, id).params, id in p.used, id in Live(p.sched), id in p.sched.runningMap,
      Out(p.sched.outputs, id), named, LogOf(p.log, id))
    requires (id in AbortIds(p.aborts) ==> named) && p'.used == p.used
    ensures EndToldFor(
      Req(p'.sched.store, id).params, id in p'.used, id in Live(p'.sched), id in p'.sched.runningMap,
      Out(p'.sched.outputs, id), named, LogOf(p'.log, id))
  {
    hide Live, AbortIds, ReasonFor, Open, EndsIt;
    var ends := id in b.finished || (id in sampled && EndsIt(Req(p.sched.store, id).params, sampled[id]));
    if id in p.sched.runningMap && id !in AbortIds(p.aborts) && (ends || id in sampled) {
      var o :| LogOf(p'.log, id) == LogOf(p.log, id) + [o] && OutputIs(p, b, sampled, id, ends, o);
      Closed(LogOf(p.log, id), o);
      OpenBefore(LogOf(p.log, id), o);
    }
  }

  lemma OpenBefore(log: seq<CoreOutput>, o: CoreOutput)
    ensures Open(log + [o]) ==> Open(log)
  {
    assert forall i :: 0 <= i < |log| ==> (log + [o])[i] == log[i];
  }

  // Scheduling changes nothing a request has been told, nor its record.
  lemma LaunchEnds(cfg: Config, q: nat, p: Proc, named: bool, id: ReqId)
    requires ValidConfig(cfg) && ProcInv(cfg, q, p) && EndTold(p, named, id)
    ensures var p1 := p.(sched := AfterLaunch(cfg, q, p)); EndTold(p1, named, id)
    ensures Schedule(cfg, p.sched, None).finished !! DataIds(Schedule(cfg, p.sched, None).data)
  {
    hide SchedInv, IdOk, FedOk, Schedule, StateOk, WorkOk, NoEnd, AbortIds, Live, Open;
    var o := Schedule(cfg, p.sched, None);
    ScheduleCorrect(cfg, p.sched, None);
    ScheduledFacts(cfg, p.sched, None, o, id);
    SameParams(cfg, p.sched, None, o, id);
    NotRunningUnlessLive(p.sched, id);
    NotRunningUnlessLive(o.sched, id);
    NothingEnds(Req(p.sched.store, id).params);
  }

  lemma NothingEnds(p: SamplingParams)
    ensures NoEnd(p, [])
  {
  }

  lemma {:induction false} StepEnds(cfg: Config, q: nat, p: Proc, oracle: map<ReqId, nat>, done: bool, named: bool, id: ReqId)
    requires ValidConfig(cfg) && 1 <= q && ProcInv(cfg, q, p) && EndTold(p, named, id)
    ensures EndTold(React(cfg, q, p, EngineStep(oracle, done)), named, id)
  {
    hide ProcInv, Schedule, BatchAnswers, EndToldFor, AbortIds, Live, React, Completed, Launched, AfterLaunch;
    var p' := React(cfg, q, p, EngineStep(oracle, done));
    var p1 := p.(sched := AfterLaunch(cfg, q, p));
    LaunchEnds(cfg, q, p, named, id);
    StepAnswersBatch(cfg, q, p, oracle, done, id);
    StepIsFifo(cfg, q, p, oracle, done);
    InflightEnds(cfg, q, p, oracle, done);
    SameUsed(cfg, q, p, oracle, done);
    match Completed(cfg, q, p, oracle, done)
    case Some((b, sampled)) =>
      BatchEnds(p1, p', b, sampled, named, id);
      assert AbortIds([]) == {} by { NobodyQueued(); }
    case None =>
  }

  lemma NobodyQueued()
    ensures AbortIds([]) == {}
  {
  }

  lemma SameUsed(cfg: Config, q: nat, p: Proc, oracle: map<ReqId, nat>, done: bool)
    ensures React(cfg, q, p, EngineStep(oracle, done)).used == p.used
  {
    hide Schedule, Update, AbortSet, Record, Pipeline.Deliver, FeedChunks, CountLast, SumTokens;
  }

  // No batch, in flight or completed, schedules a request it also finishes.
  lemma InflightEnds(cfg: Config, q: nat, p: Proc, oracle: map<ReqId, nat>, done: bool)
    requires forall b :: b in p.inflight ==> b.finished !! DataIds(b.data)
    requires var o := Schedule(cfg, p.sched, None); o.finished !! DataIds(o.data)
    ensures var queue := p.inflight + Launched(cfg, q, p);
      forall b :: b in (if done && queue != [] then queue[1..] else queue) ==> b.finished !! DataIds(b.data)
    ensures Completed(cfg, q, p, oracle, done).Some? ==>
      var b := Completed(cfg, q, p, oracle, done).value.0; b.finished !! DataIds(b.data)
  {
    hide Schedule, DataIds;
    var queue := p.inflight + Launched(cfg, q, p);
    assert forall b :: b in queue ==> b in p.inflight || b in Launched(cfg, q, p);
    assert DataIds([]) == {} by { NoIds(); }
    if queue != [] {
      assert queue[0] in queue;
      assert forall b :: b in queue[1..] ==> b in queue;
    }
  }

  lemma NoIds()
    ensures DataIds([]) == {}
  {
  }

  lemma MoreNamed(p: Proc, a: bool, b: bool, id: ReqId)
    requires EndTold(p, a, id) && (a ==> b)
    ensures EndTold(p, b, id)
  {
    hide Live, AbortIds, NoEnd, Open;
  }

  lemma SchedIsSound(cfg: Config, q: nat, p: Proc, id: ReqId)
    requires ProcInv(cfg, q, p)
    ensures SchedInv(p.sched) && (id in p.sched.runningMap ==> id in Live(p.sched))
    ensures id !in p.used ==> id !in p.sched.store && LogOf(p.log, id) == [] && id !in Live(p.sched)
  {
    hide SchedInv, Live, FedOk;
    NotRunningUnlessLive(p.sched, id);
    assert IdOk(cfg, q, p, id);
  }

  lemma {:induction false} EventEnds(cfg: Config, q: nat, p: Proc, ev: Event, named: bool, id: ReqId)
    requires ValidConfig(cfg) && 1 <= q && ProcInv(cfg, q, p) && Permitted(p, ev) && EndTold(p, named, id)
    requires ev.QueueAbort? && id in ev.ids ==> named
    ensures EndTold(React(cfg, q, p, ev), named, id)
  {
    hide ProcInv, EndTold, SchedInv, Live, AbortNow, LiveIds, StepBatchQueue, Enqueue;
    SchedIsSound(cfg, q, p, id);
    ReactKeeps(cfg, q, p, ev);
    SchedIsSound(cfg, q, React(cfg, q, p, ev), id);
    match ev
    case ClientAdd(added, r) =>
      SchedIsSound(cfg, q, p, added);
      ClientAddAnswers(cfg, q, p, added, r, id);
      AddEnds(cfg, q, p, added, r, named, id);
    case ClientAbort(ids) =>
      ClientAbortAnswers(cfg, q, p, ids, id);
      SameRest(p, ToSet(ids));
      QueuedStays(p, named, id);
      AbortedOrNot(p, React(cfg, q, p, ev), named, id);
    case HandleShutdown(noTimeout) =>
      ShutdownAnswers(cfg, q, p, noTimeout, id);
      SameRest(p, LiveIds(p.sched));
      QueuedStays(p, named, id);
      AbortedOrNot(p, React(cfg, q, p, ev), named, id);
    case QueueAbort(ids) => QueueEnds(p, ids, named, id);
    case ClearAborts => QueueEnds(p, [], named, id);
    case Signal => SignalEnds(p, named, id);
    case EngineStep(oracle, done) => StepEnds(cfg, q, p, oracle, done, named, id);
  }

  lemma SameRest(p: Proc, ids: set<ReqId>)
    ensures var p' := AbortNow(p, ids); p'.inflight == p.inflight && p'.aborts == p.aborts && p'.used == p.used
  {
    hide AbortSet, Pipeline.Deliver, Known;
  }

  lemma QueuedStays(p: Proc, named: bool, id: ReqId)
    requires EndTold(p, named, id)
    ensures id in AbortIds(p.aborts) ==> named
  {
    hide EndToldFor;
  }

  lemma QueueEnds(p: Proc, ids: seq<ReqId>, named: bool, id: ReqId)
    requires EndTold(p, named, id) && (id in ids ==> named)
    ensures EndTold(p.(aborts := p.aborts + [ids]), named, id) && EndTold(p.(aborts := []), named, id)
  {
    hide EndToldFor;
    forall x | x in p.aborts + [ids] && id in x ensures named {
      assert x in p.aborts || x == ids;
      assert x in p.aborts ==> id in AbortIds(p.aborts);
    }
  }

  lemma SignalEnds(p: Proc, named: bool, id: ReqId)
    requires EndTold(p, named, id)
    ensures EndTold(p.(shutdown := Requested), named, id)
  {
    hide EndToldFor, AbortIds;
  }

  lemma AddEnds(cfg: Config, q: nat, p: Proc, added: ReqId, r: Request, named: bool, id: ReqId)
    requires SchedInv(p.sched) && added !in p.sched.store && added !in Live(p.sched) && LogOf(p.log, added) == []
    requires EndTold(p, named, id)
    requires var p' := React(cfg, q, p, ClientAdd(added, r));
      && (id != added ==> Untouched(p, p', id))
      && (p.shutdown == Running ==> added in Live(p'.sched) && added !in p'.sched.runningMap && LogOf(p'.log, added) == [])
      && (p.shutdown != Running ==> ToldAborted(p, p', added))
      && (added in p'.sched.runningMap ==> added in Live(p'.sched))
    ensures EndTold(React(cfg, q, p, ClientAdd(added, r)), named, id)
  {
    hide SchedInv, Live, AbortIds, NoEnd, ReasonFor, Open, React;
    AddRest(cfg, q, p, added, r);
    if id == added && p.shutdown != Running {
      Closed(LogOf(p.log, id), ABORTED);
    }
  }

  lemma AddRest(cfg: Config, q: nat, p: Proc, added: ReqId, r: Request)
    ensures var p' := React(cfg, q, p, ClientAdd(added, r));
      p'.inflight == p.inflight && p'.aborts == p.aborts && p'.used == p.used + {added}
  {
    hide AbortSet, Enqueue, Pipeline.Deliver;
  }

  lemma FreshEnds(named: bool, id: ReqId)
    ensures EndTold(Fresh(), named, id)
  {
  }

  lemma QueueNamesMore(events: seq<Event>, id: ReqId)
    requires events != []
    ensures QueueNames(events[..|events| - 1], id) ==> QueueNames(events, id)
    ensures var ev := events[|events| - 1]; ev.QueueAbort? && id in ev.ids ==> QueueNames(events, id)
  {
    var n := |events| - 1;
    if QueueNames(events[..n], id) {
      var i :| 0 <= i < n && events[..n][i].QueueAbort? && id in events[..n][i].ids;
      assert events[i].QueueAbort? && id in events[i].ids;
    }
  }

  lemma {:induction false} RunEnds(cfg: Config, q: nat, events: seq<Event>, id: ReqId)
    requires ValidConfig(cfg) && 1 <= q && PermittedRun(cfg, q, Fresh(), events)
    ensures EndTold(RunEvents(cfg, q, Fresh(), events), QueueNames(events, id), id)
  {
    hide ProcInv, React, Fresh, EndTold, Permitted;
    if events == [] {
      FreshEnds(QueueNames(events, id), id);
    } else {
      var n := |events| - 1;
      PermittedPrefix(cfg, q, Fresh(), events);
      RunEventsKeeps(cfg, q, events[..n]);
      RunEnds(cfg, q, events[..n], id);
      QueueNamesMore(events, id);
      var p := RunEvents(cfg, q, Fresh(), events[..n]);
      MoreNamed(p, QueueNames(events[..n], id), QueueNames(events, id), id);
      hide QueueNames;
      assert Permitted(p, events[n]);
      EventEnds(cfg, q, p, events[n], QueueNames(events, id), id);
    }
  }

  // However events interleave: a request that is gone has been told its end, unless a message in the abort
  // queue named it; a running one has recorded no token that ends it; and the reason given is the abort
  // or fits the last token.
  lemma {:induction false} EveryoneIsTold(cfg: Config, q: nat, events: seq<Event>, id: ReqId)
    requires ValidConfig(cfg) && 1 <= q && PermittedRun(cfg, q, Fresh(), events)
    ensures var p := RunEvents(cfg, q, Fresh(), events);
      && (id in p.used && id !in Live(p.sched) && !QueueNames(events, id) ==>
            exists i :: 0 <= i < |LogOf(p.log, id)| && LogOf(p.log, id)[i].finish.Some?)
      && (id in p.sched.runningMap ==>
            var params := Req(p.sched.store, id).params;
            forall t :: t in Out(p.sched.outputs, id) ==> (params.ignoreEos || params.eosTokenId != Some(t)) && t !in params.stopTokenIds)
      && (forall o :: o in LogOf(p.log, id) ==> EndIs(Req(p.sched.store, id).params, o))
  {
    hide RunEvents, PermittedRun, Live, EndIs, QueueNames;
    RunEnds(cfg, q, events, id);
  }
}
