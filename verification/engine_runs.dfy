/** Whole runs of the engine: the invariant, isolation, and the independence of requests. */
module EngineRuns {
  import opened Wrappers
  import opened Requests
  import opened Sorting
  import opened StateSlots
  import opened Scheduling
  import opened SchedulingInvariants
  import opened ModelRunner
  import opened Completion
  import opened EngineStep
  import opened EngineSettle
  import Queue = RequestQueue

  lemma {:induction false} SumAtLeastCount(data: seq<RunData>)
    requires forall d :: d in data ==> d.numTokens >= 1
    ensures SumTokens(data) >= |data|
  {
    if data != [] {
      assert data[|data| - 1] in data;
      assert forall d :: d in data[..|data| - 1] ==> d in data;
      SumAtLeastCount(data[..|data| - 1]);
    }
  }

  // A decoding request's cached token is its newest output, so it is a real token.
  lemma CachedToken<S>(cfg: Config, m: Rnn<S>, e: Engine<S>, o: Scheduled, d: RunData)
    requires o.slots.Some? && RunOk(cfg, e.sched, o.slots, d)
    requires ReadyFor(cfg, m, e.sched, o, e.gpu, d.id)
    ensures d.slot < |e.gpu.last| && (d.isDecode ==> e.gpu.last[d.slot] >= 0)
  {
    var outs := Out(e.sched.outputs, d.id);
    assert outs != [] ==> outs[|outs| - 1] in outs;
  }

  lemma CachedTokens<S>(cfg: Config, m: Rnn<S>, e: Engine<S>, o: Scheduled)
    requires EngineInv(cfg, m, e) && o.slots.Some?
    requires StateOk(cfg, e.sched, Some(e.slots), o) && WorkOk(cfg, e.sched, o)
    ensures forall d :: d in o.data ==> d.slot < |e.gpu.last| && (d.isDecode ==> e.gpu.last[d.slot] >= 0)
  {
    forall d | d in o.data ensures d.slot < |e.gpu.last| && (d.isDecode ==> e.gpu.last[d.slot] >= 0) {
      hide EngineInv, StateOk, RunOk, ReadyFor, DistinctIds;
      AllReady(cfg, m, e, o, d.id);
      CachedToken(cfg, m, e, o, d);
    }
  }

  // The forward pass and the write-back do what BatchRows needs.
  lemma BatchExecuted<S>(cfg: Config, m: Rnn<S>, e: Engine<S>, o: Scheduled, captured: Option<nat>, sampled: map<ReqId, Token>)
    requires EngineInv(cfg, m, e) && o.slots.Some? && o.data != []
    requires StateOk(cfg, e.sched, Some(e.slots), o) && WorkOk(cfg, e.sched, o)
    ensures Execute(m, e.gpu, o.slots.value, o.data, captured).Some?
    ensures var g := Execute(m, e.gpu, o.slots.value, o.data, captured).value;
      var g' := g.(last := WriteBack(g.last, o.data, sampled));
      Executed(m, |o.sched.running|, o.data, sampled, e.gpu, g') && GpuShape(cfg, g')
  {
    hide RowsOk, SchedInv, WorkOk, LongLimit, Advanced, Forward, WriteBack, Dense;
    var n := |o.sched.running|;
    CachedTokens(cfg, m, e, o);
    ExecuteCorrect(m, e.gpu, o.slots.value, n, o.data, captured);
    var g := Execute(m, e.gpu, o.slots.value, o.data, captured).value;
    hide Execute;
    WriteBackFrom(g.last, e.gpu.last, n, o.data, sampled);
  }

  // The batch part of a step leads to the state the settling part expects.
  lemma BatchToMid<S>(cfg: Config, m: Rnn<S>, e: Engine<S>, o: Scheduled, oracle: map<ReqId, nat>, captured: Option<nat>)
    requires EngineInv(cfg, m, e) && o.slots.Some? && o.data != []
    requires StateOk(cfg, e.sched, Some(e.slots), o) && WorkOk(cfg, e.sched, o) && LongLimit(cfg, o.sched)
    ensures Execute(m, e.gpu, o.slots.value, o.data, captured).Some?
    ensures var g := Execute(m, e.gpu, o.slots.value, o.data, captured).value;
      var sampled := Sampled(o.data, oracle);
      MidInv(cfg, m, Engine(o.sched, o.slots.value, g.(last := WriteBack(g.last, o.data, sampled)), e.aborts),
             o.data, o.finished, sampled)
  {
    hide RowsOk, EngineInv, SchedInv, LongLimit, Advanced, WriteBack, Executed, DistinctSlots, Record, WorkOk, Dense, Live;
    var sampled := Sampled(o.data, oracle);
    BatchExecuted(cfg, m, e, o, captured, sampled);
    SlotsDistinct(cfg, e.sched, o);
    DataRunning(cfg, e.sched, o);
    SampledIds(o.data, oracle);
    hide Sampled;
    var g := Execute(m, e.gpu, o.slots.value, o.data, captured).value;
    hide Execute;
    var g' := g.(last := WriteBack(g.last, o.data, sampled));
    BatchRows(cfg, m, e, o, g', sampled);
    ReqInSlots(cfg, o);
  }

  lemma DataRunning(cfg: Config, s: Sched, o: Scheduled)
    requires WorkOk(cfg, s, o)
    ensures DistinctIds(o.data) && o.finished <= s.runningMap && forall d :: d in o.data ==> d.id in o.sched.runningMap
  {
  }

  lemma {:induction false} WriteBackFrom(a: seq<Token>, b: seq<Token>, n: nat, data: seq<RunData>, sampled: map<ReqId, Token>)
    requires |a| == |b| && forall k :: 0 <= k < n && k < |a| ==> a[k] == b[k]
    ensures forall k :: 0 <= k < n && k < |a| ==> WriteBack(a, data, sampled)[k] == WriteBack(b, data, sampled)[k]
  {
    if data != [] {
      WriteBackFrom(a, b, n, data[..|data| - 1], sampled);
    }
  }

  // A scheduling call that gives nobody any tokens leaves rows and requests as they were.
  lemma IdleToMid<S>(cfg: Config, m: Rnn<S>, e: Engine<S>, o: Scheduled)
    requires EngineInv(cfg, m, e) && o.slots.Some? && o.data == []
    requires StateOk(cfg, e.sched, Some(e.slots), o) && WorkOk(cfg, e.sched, o) && LongLimit(cfg, o.sched)
    ensures MidInv(cfg, m, e.(sched := o.sched, slots := o.slots.value), [], o.finished, map[])
    ensures EngineInv(cfg, m, e.(sched := o.sched, slots := o.slots.value))
  {
    hide RequestOk, SchedInv, LongLimit;
    forall id | id in o.sched.runningMap
      ensures id in o.sched.store && id in o.slots.value.reqToSlot && o.slots.value.reqToSlot[id] < |e.gpu.state| == |e.gpu.last|
      ensures var k := o.slots.value.reqToSlot[id];
        RequestOk(cfg, m, o.sched.store[id], Out(o.sched.outputs, id), e.gpu.state[k], e.gpu.last[k])
    {
      AllReady(cfg, m, e, o, id);
      OutputsKnown(cfg, e.sched, Some(e.slots), o, id);
      hide Dense, Live;
    }
  }

  // ---------------------------------------------------------------- the step in two halves

  // What the first half of a step leaves for the second.
  datatype Middle<S> = Middle(
    engine: Engine<S>, data: seq<RunData>, finished: set<ReqId>, sampled: map<ReqId, Token>, ran: bool)

  datatype FirstHalf<S> = Raised | Over(engine: Engine<S>) | GoesOn(middle: Middle<S>)

  function Begin<S>(cfg: Config, m: Rnn<S>, e: Engine<S>, oracle: map<ReqId, nat>, captured: Option<nat>): FirstHalf<S> {
    if !HasRequests(e.sched) then Over(e)
    else
      var o := Schedule(cfg, e.sched, Some(e.slots));
      if o.raised || o.slots.None? then Raised
      else
        var e' := e.(sched := o.sched, slots := o.slots.value);
        if SumTokens(o.data) == 0 then
          if o.finished == {} then Over(e') else GoesOn(Middle(e', o.data, o.finished, map[], false))
        else
          match Execute(m, e.gpu, o.slots.value, o.data, captured)
          case None => Raised
          case Some(g) =>
            var sampled := Sampled(o.data, oracle);
            GoesOn(Middle(e'.(gpu := g.(last := WriteBack(g.last, o.data, sampled))), o.data, o.finished, sampled, true))
  }

  lemma BeginSettles<S>(cfg: Config, m: Rnn<S>, e: Engine<S>, oracle: map<ReqId, nat>, captured: Option<nat>)
    ensures Step(cfg, m, e, oracle, captured) ==
      match Begin(cfg, m, e, oracle, captured)
      case Raised => None
      case Over(e') => Some(Stepped(e', map[], false))
      case GoesOn(x) => Settle(x.engine, x.data, x.finished, x.sampled, x.ran)
  {
    hide Schedule, Settle, Execute, Sampled, WriteBack;
  }

  lemma {:induction false} BeginOk<S>(cfg: Config, m: Rnn<S>, e: Engine<S>, oracle: map<ReqId, nat>, captured: Option<nat>)
    requires ValidConfig(cfg) && EngineInv(cfg, m, e)
    ensures match Begin(cfg, m, e, oracle, captured)
      case Raised => false
      case Over(e') => EngineInv(cfg, m, e')
      case GoesOn(x) => MidInv(cfg, m, x.engine, x.data, x.finished, x.sampled)
  {
    hide RowsOk, SchedInv, LongLimit, Execute, WriteBack, Sampled;
    if HasRequests(e.sched) {
      var o := Schedule(cfg, e.sched, Some(e.slots));
      ScheduleCorrect(cfg, e.sched, Some(e.slots));
      hide Schedule;
      RecordsPositive(cfg, e.sched, o);
      SumAtLeastCount(o.data);
      if SumTokens(o.data) == 0 {
        IdleToMid(cfg, m, e, o);
      } else {
        BatchToMid(cfg, m, e, o, oracle, captured);
      }
    }
  }

  // Every step from a good state raises nothing and ends in a good state.
  lemma {:induction false} StepCorrect<S>(cfg: Config, m: Rnn<S>, e: Engine<S>, oracle: map<ReqId, nat>, captured: Option<nat>)
    requires ValidConfig(cfg) && EngineInv(cfg, m, e)
    ensures Step(cfg, m, e, oracle, captured).Some?
    ensures EngineInv(cfg, m, Step(cfg, m, e, oracle, captured).value.engine)
  {
    hide EngineInv, MidInv, Begin, Step, Settle;
    BeginOk(cfg, m, e, oracle, captured);
    BeginSettles(cfg, m, e, oracle, captured);
    match Begin(cfg, m, e, oracle, captured)
    case GoesOn(x) => SettleCorrect(cfg, m, x.engine, x.data, x.finished, x.sampled, x.ran);
    case Over(_) =>
  }

  lemma RecordsPositive(cfg: Config, s: Sched, o: Scheduled)
    requires WorkOk(cfg, s, o)
    ensures forall d :: d in o.data ==> d.numTokens >= 1
  {
  }

  // ---------------------------------------------------------------- runs

  // What can happen to the engine: a request arrives, an abort message is queued, a step runs.
  datatype Action =
    | AddRequest(id: ReqId, request: Request)
    | QueueAbort(ids: seq<ReqId>)
    | RunStep(oracle: map<ReqId, nat>, captured: Option<nat>)

  function Enqueue(cfg: Config, s: Sched, id: ReqId, r: Request): Sched {
    var store := s.store[id := r];
    s.(store := store, waiting := Queue.Add(cfg.policy, store, s.waiting, id))
  }

  function Apply<S>(cfg: Config, m: Rnn<S>, e: Engine<S>, a: Action): Option<Engine<S>> {
    match a
    case AddRequest(id, r) => Some(e.(sched := Enqueue(cfg, e.sched, id, r)))
    case QueueAbort(ids) => Some(e.(aborts := e.aborts + [ids]))
    case RunStep(oracle, captured) =>
      match Step(cfg, m, e, oracle, captured)
      case None => None
      case Some(st) => Some(st.engine)
  }

  // Request identifiers are never reused and prompts are not empty.
  ghost predicate Allowed<S>(e: Engine<S>, a: Action) {
    a.AddRequest? ==> a.id !in e.sched.store && a.request.prompt != [] && a.request.computed == 0
  }

  function Run<S>(cfg: Config, m: Rnn<S>, e: Engine<S>, actions: seq<Action>): Option<Engine<S>> {
    if actions == [] then Some(e)
    else
      match Run(cfg, m, e, actions[..|actions| - 1])
      case None => None
      case Some(e') => Apply(cfg, m, e', actions[|actions| - 1])
  }

  ghost predicate AllowedRun<S>(cfg: Config, m: Rnn<S>, e: Engine<S>, actions: seq<Action>) {
    forall i :: 0 <= i < |actions| ==>
      var r := Run(cfg, m, e, actions[..i]); r.Some? ==> Allowed(r.value, actions[i])
  }

  // A new engine; the buffers may hold anything.
  ghost predicate Initial<S>(cfg: Config, e: Engine<S>) {
    && e.sched == Sched(map[], [], [], [], {}, map[])
    && Dense(e.slots, 0) && e.slots.reqToSlot == map[] && e.slots.maxSlots == cfg.maxNumSeqs
    && |e.gpu.state| == |e.gpu.last| == cfg.maxNumSeqs && e.gpu.minPrev == None
    && e.aborts == []
  }

  lemma EnqueueLive(cfg: Config, s: Sched, id: ReqId, r: Request)
    requires SchedInv(s) && id !in s.store
    ensures Live(Enqueue(cfg, s, id, r)) == Live(s) + multiset{id}
    ensures id !in Live(s) && id !in s.runningMap
  {
    Queue.AddElements(cfg.policy, s.store[id := r], s.waiting, id);
    assert id in s.runningMap ==> id in Live(s);
  }

  lemma EnqueueKeepsSched(cfg: Config, s: Sched, id: ReqId, r: Request)
    requires SchedInv(s) && id !in s.store && r.prompt != [] && r.computed == 0
    ensures SchedInv(Enqueue(cfg, s, id, r))
  {
    hide Live, Queue.Add, Once;
    var s' := Enqueue(cfg, s, id, r);
    EnqueueLive(cfg, s, id, r);
    OnceAdd(Live(s), id);
    assert forall x :: x in Live(s') <==> x == id || x in Live(s);
  }

  lemma OnceAdd(ms: multiset<ReqId>, id: ReqId)
    requires Once(ms) && id !in ms
    ensures Once(ms + multiset{id})
  {
  }

  lemma EnqueueKeepsLong(cfg: Config, s: Sched, id: ReqId, r: Request)
    requires LongLimit(cfg, s) && id !in s.store && id !in s.running
    ensures LongLimit(cfg, Enqueue(cfg, s, id, r))
  {
    CountLongMonotone(cfg, s.store, s.store[id := r], s.running);
  }

  lemma AddKeeps<S>(cfg: Config, m: Rnn<S>, e: Engine<S>, id: ReqId, r: Request)
    requires EngineInv(cfg, m, e) && id !in e.sched.store && r.prompt != [] && r.computed == 0
    ensures EngineInv(cfg, m, e.(sched := Enqueue(cfg, e.sched, id, r)))
  {
    hide SchedInv, Live, RowsOk, LongLimit, Dense, Queue.Add;
    EnqueueLive(cfg, e.sched, id, r);
    EnqueueKeepsSched(cfg, e.sched, id, r);
    NotRunning(e.sched, id);
    EnqueueKeepsLong(cfg, e.sched, id, r);
    RowsKeepStore(
      cfg, m, e.sched.store, e.sched.store[id := r], e.sched.runningMap, e.sched.outputs, e.slots.reqToSlot, e.gpu);
  }

  lemma RowsKeepStore<S>(
      cfg: Config, m: Rnn<S>, store: Store, store': Store, ids: set<ReqId>, outputs: map<ReqId, seq<Token>>,
      slots: map<ReqId, nat>, g: Gpu<S>)
    requires RowsOk(cfg, m, store, ids, outputs, slots, g)
    requires forall id :: id in ids ==> Req(store', id) == Req(store, id) && (id in store' <==> id in store)
    ensures RowsOk(cfg, m, store', ids, outputs, slots, g)
  {
    hide RequestOk;
  }

  lemma NotRunning(s: Sched, id: ReqId)
    requires id !in Live(s)
    ensures id !in s.running
  {
    assert id in s.running ==> id in multiset(s.running);
  }

  lemma InitialOk<S>(cfg: Config, m: Rnn<S>, e: Engine<S>)
    requires ValidConfig(cfg) && Initial(cfg, e)
    ensures EngineInv(cfg, m, e)
  {
  }

  lemma ApplyCorrect<S>(cfg: Config, m: Rnn<S>, e: Engine<S>, a: Action)
    requires ValidConfig(cfg) && EngineInv(cfg, m, e) && Allowed(e, a)
    ensures Apply(cfg, m, e, a).Some?
    ensures EngineInv(cfg, m, Apply(cfg, m, e, a).value)
  {
    match a
    case AddRequest(id, r) =>
      hide EngineInv;
      AddKeeps(cfg, m, e, id, r);
    case QueueAbort(ids) =>
    case RunStep(oracle, captured) =>
      hide EngineInv;
      StepCorrect(cfg, m, e, oracle, captured);
  }

  lemma AllowedPrefix<S>(cfg: Config, m: Rnn<S>, e: Engine<S>, actions: seq<Action>)
    requires AllowedRun(cfg, m, e, actions) && actions != []
    ensures AllowedRun(cfg, m, e, actions[..|actions| - 1])
  {
    hide Run, Allowed;
    var i := |actions| - 1;
    assert forall j :: 0 <= j < i ==> actions[..i][..j] == actions[..j];
  }

  // No run ever raises, and after every run the invariant holds: slots are a dense prefix owned by
  // the running requests, and every running request is as if it had run alone.
  lemma {:induction false} RunsNeverRaise<S>(cfg: Config, m: Rnn<S>, e: Engine<S>, actions: seq<Action>)
    requires ValidConfig(cfg) && EngineInv(cfg, m, e) && AllowedRun(cfg, m, e, actions)
    ensures Run(cfg, m, e, actions).Some?
    ensures EngineInv(cfg, m, Run(cfg, m, e, actions).value)
  {
    hide EngineInv, Apply, Allowed;
    if actions != [] {
      var i := |actions| - 1;
      AllowedPrefix(cfg, m, e, actions);
      RunsNeverRaise(cfg, m, e, actions[..i]);
      ApplyCorrect(cfg, m, Run(cfg, m, e, actions[..i]).value, actions[i]);
    }
  }

  // Batch isolation, spelled out: in whatever company a request ran, the row of its slot is the
  // state of running it alone from zero on the tokens fed so far, and its outputs number one per
  // step since its prompt was covered.
  lemma {:induction false} BatchIsolation<S>(cfg: Config, m: Rnn<S>, start: Engine<S>, actions: seq<Action>, id: ReqId)
    requires ValidConfig(cfg) && Initial(cfg, start) && AllowedRun(cfg, m, start, actions)
    ensures Run(cfg, m, start, actions).Some?
    ensures var e := Run(cfg, m, start, actions).value;
      id in e.sched.running ==>
        && id in e.sched.store && id in e.sched.outputs
        && id in e.slots.reqToSlot && e.slots.reqToSlot[id] < |e.gpu.state|
        && var r, outs := e.sched.store[id], e.sched.outputs[id];
          && OutputsMatch(r, outs) && r.computed <= |r.prompt + outs|
          && e.gpu.state[e.slots.reqToSlot[id]] == Feed(m, m.zero, (r.prompt + outs)[..r.computed])
  {
    InitialOk(cfg, m, start);
    RunsNeverRaise(cfg, m, start, actions);
    hide Run, AllowedRun, Initial;
    var e := Run(cfg, m, start, actions).value;
    if id in e.sched.running {
      OwnRow(cfg, m, e, id);
    }
  }

  lemma OwnRow<S>(cfg: Config, m: Rnn<S>, e: Engine<S>, id: ReqId)
    requires EngineInv(cfg, m, e) && id in e.sched.running
    ensures id in e.sched.store && id in e.sched.outputs && id in e.slots.reqToSlot && e.slots.reqToSlot[id] < |e.gpu.state|
    ensures var r, outs := e.sched.store[id], e.sched.outputs[id];
      && OutputsMatch(r, outs)
      && r.computed <= |r.prompt + outs|
      && e.gpu.state[e.slots.reqToSlot[id]] == Feed(m, m.zero, (r.prompt + outs)[..r.computed])
  {
    assert id in multiset(e.sched.running);
    hide Live, LongLimit, Dense;
  }
}
