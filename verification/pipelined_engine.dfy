/** The pipelined step with slots and device buffers, over an executor whose futures are done at once. */
module PipelinedEngine {
  import opened Wrappers
  import opened Requests
  import opened StateSlots
  import opened Scheduling
  import opened SchedulingInvariants
  import opened ModelRunner
  import opened Completion
  import opened EngineStep
  import opened EngineRuns

  // A batch handed to the executor whose results have not been taken, newest first.
  datatype Launched = Launched(data: seq<RunData>, finished: set<ReqId>)

  datatype Queued<S> = Queued(engine: Engine<S>, queue: seq<Launched>)

  datatype QueuedStep<S> = QueuedStep(state: Queued<S>, outputs: map<ReqId, CoreOutput>, ran: bool)

  // What the launching part does: the step is over, or the completing part follows.
  datatype Launch<S> = Raised | Over(result: QueuedStep<S>) | Completing(state: Queued<S>, ran: bool)

  function WithQueue<S>(st: Option<Stepped<S>>, queue: seq<Launched>): Option<QueuedStep<S>> {
    match st
    case None => None
    case Some(x) => Some(QueuedStep(Queued(x.engine, queue), x.outputs, x.ran))
  }

  // _handle_zero_tokens
  function ZeroTokens<S>(e: Engine<S>, finished: set<ReqId>): Option<QueuedStep<S>> {
    if finished == {} then Some(QueuedStep(Queued(e, []), map[], false))
    else WithQueue(Settle(e, [], finished, map[], false), [])
  }

  function LaunchPart<S>(cfg: Config, m: Rnn<S>, x: Queued<S>, size: nat, captured: Option<nat>): Launch<S> {
    var e := x.engine;
    if !HasRequests(e.sched) || |x.queue| >= size then Completing(x, false)
    else
      var o := Schedule(cfg, e.sched, Some(e.slots));
      if o.raised || o.slots.None? then Launch.Raised
      else
        var e' := e.(sched := o.sched, slots := o.slots.value);
        if SumTokens(o.data) == 0 then
          if x.queue == [] then
            match ZeroTokens(e', o.finished)
            case None => Launch.Raised
            case Some(r) => Launch.Over(r)
          else Completing(x.(engine := e'), false)
        else
          match Execute(m, e.gpu, o.slots.value, o.data, captured)
          case None => Launch.Raised
          case Some(g) => Completing(Queued(e'.(gpu := g), [Launched(o.data, o.finished)] + x.queue), true)
  }

  // step_with_batch_queue; `done` is what the future of the oldest batch says.
  function StepQueued<S>(
      cfg: Config, m: Rnn<S>, x: Queued<S>, size: nat, oracle: map<ReqId, nat>, captured: Option<nat>, done: bool)
    : Option<QueuedStep<S>>
  {
    match LaunchPart(cfg, m, x, size, captured)
    case Raised => None
    case Over(r) => Some(r)
    case Completing(y, ran) =>
      if y.queue == [] || !done then Some(QueuedStep(y, map[], ran))
      else
        var n := |y.queue| - 1;
        var b := y.queue[n];
        var sampled := Sampled(b.data, oracle);
        var g := y.engine.gpu.(last := WriteBack(y.engine.gpu.last, b.data, sampled));
        WithQueue(Settle(y.engine.(gpu := g), b.data, b.finished, sampled, true), y.queue[..n])
  }

  // A scheduling call that hands out no token hands out no record.
  lemma NoTokensNoData<S>(cfg: Config, m: Rnn<S>, e: Engine<S>)
    requires ValidConfig(cfg) && EngineInv(cfg, m, e)
    ensures var o := Schedule(cfg, e.sched, Some(e.slots)); SumTokens(o.data) == 0 ==> o.data == []
  {
    hide Schedule, SchedInv, RowsOk, LongLimit, WorkOk, StateOk;
    ScheduleCorrect(cfg, e.sched, Some(e.slots));
    RecordsPositive(cfg, e.sched, Schedule(cfg, e.sched, Some(e.slots)));
    SumAtLeastCount(Schedule(cfg, e.sched, Some(e.slots)).data);
  }

  // Whatever the futures say and whatever is in flight: a step launches one batch if there is room and a token
  // to schedule, completes the one launched longest ago if that is done, and no other.
  lemma QueuedStepIsFifo<S>(
      cfg: Config, m: Rnn<S>, x: Queued<S>, size: nat, oracle: map<ReqId, nat>, captured: Option<nat>, done: bool)
    requires StepQueued(cfg, m, x, size, oracle, captured, done).Some?
    ensures var o, r := Schedule(cfg, x.engine.sched, Some(x.engine.slots)), StepQueued(cfg, m, x, size, oracle, captured, done).value;
      var launches := HasRequests(x.engine.sched) && |x.queue| < size && SumTokens(o.data) > 0;
      var queue := (if launches then [Launched(o.data, o.finished)] else []) + x.queue;
      && r.state.queue == (if done && queue != [] then queue[..|queue| - 1] else queue)
      && (r.ran <==> launches || (done && queue != []))
      && (!done && queue != [] ==> r.outputs == map[])
  {
    hide Schedule, StepQueued, LaunchPart, SumTokens, HasRequests;
    LaunchIs(cfg, m, x, size, captured);
    QueueAfter(cfg, m, x, size, oracle, captured, done);
  }

  // The completing part takes the batch launched longest ago.
  lemma QueueAfter<S>(
      cfg: Config, m: Rnn<S>, x: Queued<S>, size: nat, oracle: map<ReqId, nat>, captured: Option<nat>, done: bool)
    ensures var r := StepQueued(cfg, m, x, size, oracle, captured, done);
      match LaunchPart(cfg, m, x, size, captured)
      case Raised => r.None?
      case Over(o) => r == Some(o)
      case Completing(y, ran) =>
        if y.queue == [] || !done then r == Some(QueuedStep(y, map[], ran))
        else r.Some? ==> r.value.state.queue == y.queue[..|y.queue| - 1] && r.value.ran
  {
    hide Settle, Sampled, WriteBack, LaunchPart;
    match LaunchPart(cfg, m, x, size, captured)
    case Raised =>
    case Over(r) =>
    case Completing(y, ran) =>
      if y.queue != [] && done {
        var b := y.queue[|y.queue| - 1];
        var sampled := Sampled(b.data, oracle);
        var g := y.engine.gpu.(last := WriteBack(y.engine.gpu.last, b.data, sampled));
        SettleKeepsRan(y.engine.(gpu := g), b.data, b.finished, sampled, true);
      }
  }

  lemma LaunchIs<S>(cfg: Config, m: Rnn<S>, x: Queued<S>, size: nat, captured: Option<nat>)
    ensures var o := Schedule(cfg, x.engine.sched, Some(x.engine.slots));
      var launches := HasRequests(x.engine.sched) && |x.queue| < size && SumTokens(o.data) > 0;
      var queue := (if launches then [Launched(o.data, o.finished)] else []) + x.queue;
      match LaunchPart(cfg, m, x, size, captured)
      case Raised => true
      case Over(r) => !launches && queue == [] && r.state.queue == [] && !r.ran
      case Completing(y, ran) => ran == launches && y.queue == queue
  {
    hide Schedule, Settle, Execute, SumTokens, HasRequests;
    assert [] + x.queue == x.queue;
    var o := Schedule(cfg, x.engine.sched, Some(x.engine.slots));
    if !o.raised && o.slots.Some? {
      SettleKeepsRan(x.engine.(sched := o.sched, slots := o.slots.value), [], o.finished, map[], false);
    }
  }

  lemma SettleKeepsRan<S>(e: Engine<S>, data: seq<RunData>, finished: set<ReqId>, sampled: map<ReqId, Token>, ran: bool)
    ensures var r := Settle(e, data, finished, sampled, ran); r.Some? ==> r.value.ran == ran
  {
    hide Update, AbortSet, BatchCondense, ModelRunner.Condense;
  }

  // With futures that are done at once the pipelined step is the plain step, slots and buffers included,
  // and leaves no batch in flight.
  lemma {:induction false} DoneFuturesArePlain<S>(
      cfg: Config, m: Rnn<S>, e: Engine<S>, size: nat, oracle: map<ReqId, nat>, captured: Option<nat>)
    requires ValidConfig(cfg) && EngineInv(cfg, m, e) && 1 <= size
    ensures StepQueued(cfg, m, Queued(e, []), size, oracle, captured, true) == WithQueue(Step(cfg, m, e, oracle, captured), [])
  {
    NoTokensNoData(cfg, m, e);
    hide Schedule, Settle, Execute, Sampled, WriteBack, EngineInv, SumTokens, HasRequests, LaunchPart, Step, WithQueue;
    BatchEnds(cfg, m, e, size, oracle, captured);
  }

  // The three ways a step can go.
  lemma BatchEnds<S>(cfg: Config, m: Rnn<S>, e: Engine<S>, size: nat, oracle: map<ReqId, nat>, captured: Option<nat>)
    requires 1 <= size
    requires var o := Schedule(cfg, e.sched, Some(e.slots)); SumTokens(o.data) == 0 ==> o.data == []
    ensures StepQueued(cfg, m, Queued(e, []), size, oracle, captured, true) == WithQueue(Step(cfg, m, e, oracle, captured), [])
  {
    hide Schedule, Settle, Execute, Sampled, WriteBack, SumTokens, HasRequests;
    var x := Queued(e, []);
    var o := Schedule(cfg, e.sched, Some(e.slots));
    if !HasRequests(e.sched) {
      assert LaunchPart(cfg, m, x, size, captured) == Completing(x, false);
    } else if o.raised || o.slots.None? {
      assert LaunchPart(cfg, m, x, size, captured) == Launch.Raised;
    } else if SumTokens(o.data) == 0 {
      ZeroEnds(cfg, m, e, size, oracle, captured);
    } else {
      BatchRuns(cfg, m, e, size, oracle, captured);
    }
  }

  lemma ZeroEnds<S>(cfg: Config, m: Rnn<S>, e: Engine<S>, size: nat, oracle: map<ReqId, nat>, captured: Option<nat>)
    requires 1 <= size && HasRequests(e.sched)
    requires var o := Schedule(cfg, e.sched, Some(e.slots)); !o.raised && o.slots.Some? && SumTokens(o.data) == 0 && o.data == []
    ensures StepQueued(cfg, m, Queued(e, []), size, oracle, captured, true) == WithQueue(Step(cfg, m, e, oracle, captured), [])
  {
    hide Schedule, Settle, Execute, Sampled, WriteBack, SumTokens, HasRequests;
    var o := Schedule(cfg, e.sched, Some(e.slots));
    var e' := e.(sched := o.sched, slots := o.slots.value);
    assert WithQueue(Step(cfg, m, e, oracle, captured), []) == ZeroTokens(e', o.finished);
  }

  lemma BatchRuns<S>(cfg: Config, m: Rnn<S>, e: Engine<S>, size: nat, oracle: map<ReqId, nat>, captured: Option<nat>)
    requires 1 <= size && HasRequests(e.sched)
    requires var o := Schedule(cfg, e.sched, Some(e.slots)); !o.raised && o.slots.Some? && SumTokens(o.data) != 0
    ensures StepQueued(cfg, m, Queued(e, []), size, oracle, captured, true) == WithQueue(Step(cfg, m, e, oracle, captured), [])
  {
    hide Schedule, Settle, Execute, Sampled, WriteBack, SumTokens, HasRequests;
    var o := Schedule(cfg, e.sched, Some(e.slots));
    var r := Execute(m, e.gpu, o.slots.value, o.data, captured);
    if r.Some? {
      var b := Launched(o.data, o.finished);
      var y := Queued(Engine(o.sched, o.slots.value, r.value, e.aborts), [b]);
      assert [b] + [] == [b] && [b][..0] == [];
      assert LaunchPart(cfg, m, Queued(e, []), size, captured) == Completing(y, true);
    }
  }

  // ---------------------------------------------------------------- whole runs

  function ApplyQueued<S>(cfg: Config, m: Rnn<S>, x: Queued<S>, size: nat, a: Action): Option<Queued<S>> {
    match a
    case AddRequest(id, r) => Some(x.(engine := x.engine.(sched := Enqueue(cfg, x.engine.sched, id, r))))
    case QueueAbort(ids) => Some(x.(engine := x.engine.(aborts := x.engine.aborts + [ids])))
    case RunStep(oracle, captured) =>
      match StepQueued(cfg, m, x, size, oracle, captured, true)
      case None => None
      case Some(r) => Some(r.state)
  }

  function RunQueued<S>(cfg: Config, m: Rnn<S>, x: Queued<S>, size: nat, actions: seq<Action>): Option<Queued<S>> {
    if actions == [] then Some(x)
    else
      match RunQueued(cfg, m, x, size, actions[..|actions| - 1])
      case None => None
      case Some(y) => ApplyQueued(cfg, m, y, size, actions[|actions| - 1])
  }

  lemma QueuedActionIsPlain<S>(cfg: Config, m: Rnn<S>, e: Engine<S>, size: nat, a: Action)
    requires ValidConfig(cfg) && EngineInv(cfg, m, e) && 1 <= size
    ensures ApplyQueued(cfg, m, Queued(e, []), size, a) ==
      match Apply(cfg, m, e, a) case None => None case Some(e') => Some(Queued(e', []))
  {
    hide EngineInv, Step, StepQueued, Enqueue;
    if a.RunStep? {
      DoneFuturesArePlain(cfg, m, e, size, a.oracle, a.captured);
    }
  }

  // So every run of the pipelined engine is a run of the plain one, and all that is proved of those holds
  // of it: it raises nothing, keeps requests isolated and leaves the slots of the running ones dense.
  lemma {:induction false} PipelinedRunsArePlain<S>(cfg: Config, m: Rnn<S>, start: Engine<S>, size: nat, actions: seq<Action>)
    requires ValidConfig(cfg) && EngineInv(cfg, m, start) && AllowedRun(cfg, m, start, actions) && 1 <= size
    ensures Run(cfg, m, start, actions).Some?
    ensures RunQueued(cfg, m, Queued(start, []), size, actions) == Some(Queued(Run(cfg, m, start, actions).value, []))
  {
    hide EngineInv, Apply, ApplyQueued, Allowed;
    if actions != [] {
      var n := |actions| - 1;
      AllowedPrefix(cfg, m, start, actions);
      PipelinedRunsArePlain(cfg, m, start, size, actions[..n]);
      RunsNeverRaise(cfg, m, start, actions[..n]);
      RunsNeverRaise(cfg, m, start, actions);
      QueuedActionIsPlain(cfg, m, Run(cfg, m, start, actions[..n]).value, size, actions[n]);
    }
  }
}
