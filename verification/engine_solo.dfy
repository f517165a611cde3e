/** Independence: with a sampler that looks only at a request's own state, its outputs do not
    depend on the other requests, the configuration or the timing. */
module EngineSolo {
  import opened Wrappers
  import opened Requests
  import opened StateSlots
  import opened Scheduling
  import opened SchedulingInvariants
  import opened ModelRunner
  import opened Completion
  import opened EngineStep
  import opened EngineSettle
  import opened EngineRuns
  import opened EngineDrain

  // The first n tokens generated for a prompt by a model running that prompt alone.
  function SoloOutputs<S>(m: Rnn<S>, pick: S -> nat, prompt: seq<Token>, n: nat): (r: seq<Token>)
    ensures |r| == n
  {
    if n == 0 then []
    else
      var before := SoloOutputs(m, pick, prompt, n - 1);
      before + [pick(Feed(m, m.zero, prompt + before))]
  }

  lemma {:induction false} SoloPrefix<S>(m: Rnn<S>, pick: S -> nat, prompt: seq<Token>, a: nat, b: nat)
    requires a <= b
    ensures SoloOutputs(m, pick, prompt, a) <= SoloOutputs(m, pick, prompt, b)
  {
    if a < b {
      SoloPrefix(m, pick, prompt, a, b - 1);
    }
  }

  // The sampler of this step answers for each request from that request's own row.
  ghost predicate OwnSamples<S>(
      cfg: Config, m: Rnn<S>, pick: S -> nat, e: Engine<S>, oracle: map<ReqId, nat>, captured: Option<nat>)
  {
    var o := Schedule(cfg, e.sched, Some(e.slots));
    o.slots.Some? ==>
      var g := Execute(m, e.gpu, o.slots.value, o.data, captured);
      g.Some? ==>
        forall d :: d in o.data && Samples(d) ==>
          d.slot < |g.value.state| && d.id in oracle && oracle[d.id] == pick(g.value.state[d.slot])
  }

  ghost predicate SoloInv<S>(m: Rnn<S>, pick: S -> nat, s: Sched) {
    forall id :: id in s.runningMap ==>
      Out(s.outputs, id) == SoloOutputs(m, pick, Req(s.store, id).prompt, |Out(s.outputs, id)|)
  }

  // The newest token is the one the solo run picks next.
  lemma NewestIsSolo<S>(
      cfg: Config, m: Rnn<S>, pick: S -> nat, r: Request, outs: seq<Token>, t: Token, row: S, last: Token)
    requires RequestOk(cfg, m, r, outs + [t], row, last)
    requires outs == SoloOutputs(m, pick, r.prompt, |outs|) && t == pick(row)
    ensures outs + [t] == SoloOutputs(m, pick, r.prompt, |outs| + 1)
  {
    assert r.prompt + (outs + [t]) == r.prompt + outs + [t];
    assert (r.prompt + outs + [t])[..|r.prompt + outs|] == r.prompt + outs;
  }

  // A sampled request after the batch: its record ends in the sampler's answer.
  lemma SampledRow<S>(cfg: Config, m: Rnn<S>, e: Engine<S>, o: Scheduled, oracle: map<ReqId, nat>, captured: Option<nat>, d: RunData)
    returns (last: Token)
    requires EngineInv(cfg, m, e) && o.slots.Some? && SchedInv(e.sched)
    requires StateOk(cfg, e.sched, Some(e.slots), o) && WorkOk(cfg, e.sched, o) && LongLimit(cfg, o.sched)
    requires d in o.data && Samples(d) && d.id in oracle && d.id in o.slots.value.reqToSlot && d.id in o.sched.runningMap
    requires d.slot == o.slots.value.reqToSlot[d.id]
    ensures Execute(m, e.gpu, o.slots.value, o.data, captured).Some?
    ensures var g := Execute(m, e.gpu, o.slots.value, o.data, captured).value;
      && d.slot < |g.state|
      && RequestOk(cfg, m, Req(o.sched.store, d.id), Out(e.sched.outputs, d.id) + [oracle[d.id]], g.state[d.slot], last)
  {
    hide EngineInv, SchedInv, RequestOk, Record, StateOk, WorkOk, LongLimit, SchedulerInv, GpuShape, Execute, WriteBack;
    BatchToMid(cfg, m, e, o, oracle, captured);
    var sampled := Sampled(o.data, oracle);
    SampledValue(o.data, oracle, d);
    RecordedNow(cfg, e.sched, Some(e.slots), o, sampled, d.id);
    hide Sampled;
    assert d.id in DataIds(o.data);
    var g := Execute(m, e.gpu, o.slots.value, o.data, captured).value;
    last := WriteBack(g.last, o.data, sampled)[o.slots.value.reqToSlot[d.id]];
  }

  lemma SampledValue(data: seq<RunData>, oracle: map<ReqId, nat>, d: RunData)
    requires d in data && Samples(d) && d.id in oracle
    ensures TokensFor(Sampled(data, oracle), d.id) == [oracle[d.id]]
  {
  }

  lemma SoloOfSampled<S>(
      cfg: Config, m: Rnn<S>, pick: S -> nat, e: Engine<S>, oracle: map<ReqId, nat>, captured: Option<nat>, d: RunData)
    requires ValidConfig(cfg) && EngineInv(cfg, m, e) && OwnSamples(cfg, m, pick, e, oracle, captured)
    requires d in Schedule(cfg, e.sched, Some(e.slots)).data && Samples(d) && d.id in Live(e.sched)
    requires Out(e.sched.outputs, d.id) == SoloOutputs(m, pick, Req(e.sched.store, d.id).prompt, |Out(e.sched.outputs, d.id)|)
    ensures var outs := Out(e.sched.outputs, d.id);
      outs + TokensFor(Sampled(Schedule(cfg, e.sched, Some(e.slots)).data, oracle), d.id)
      == SoloOutputs(m, pick, Req(e.sched.store, d.id).prompt, |outs| + 1)
  {
    hide EngineInv, SchedInv, RequestOk, SoloOutputs, RunOk, LongLimit, Schedule, Execute, Dense, Live;
    var o := Schedule(cfg, e.sched, Some(e.slots));
    SchedulerPart(cfg, m, e);
    ScheduleCorrect(cfg, e.sched, Some(e.slots));
    SlotsDistinct(cfg, e.sched, o);
    DataRunning(cfg, e.sched, o);
    ReqInSlots(cfg, o);
    SameParams(cfg, e.sched, Some(e.slots), o, d.id);
    hide StateOk, WorkOk;
    BatchExecuted(cfg, m, e, o, captured, map[]);
    SampledValue(o.data, oracle, d);
    hide Sampled;
    var g := Execute(m, e.gpu, o.slots.value, o.data, captured).value;
    var last := SampledRow(cfg, m, e, o, oracle, captured, d);
    NewestIsSolo(
      cfg, m, pick, Req(o.sched.store, d.id), Out(e.sched.outputs, d.id), oracle[d.id], g.state[d.slot], last);
  }

  lemma SchedulerPart<S>(cfg: Config, m: Rnn<S>, e: Engine<S>)
    requires EngineInv(cfg, m, e)
    ensures SchedulerInv(cfg, e.sched, Some(e.slots)) && LongLimit(cfg, e.sched)
  {
  }

  lemma RecordedNow(cfg: Config, s: Sched, slots: Option<Slots>, o: Scheduled, sampled: map<ReqId, Token>, id: ReqId)
    requires StateOk(cfg, s, slots, o) && WorkOk(cfg, s, o) && SchedInv(s)
    ensures Out(Record(o.sched.outputs, o.data, sampled), id)
            == if id in DataIds(o.data) then Out(s.outputs, id) + TokensFor(sampled, id) else Out(s.outputs, id)
    ensures id in Live(s) ==> Req(o.sched.store, id).prompt == Req(s.store, id).prompt
  {
    OutsAfter(cfg, s, slots, o, id);
    RecordCorrect(o.sched.outputs, o.data, sampled);
    if id in Live(s) {
      SameParams(cfg, s, slots, o, id);
    }
  }

  lemma BatchKeepsSolo<S>(
      cfg: Config, m: Rnn<S>, pick: S -> nat, e: Engine<S>, oracle: map<ReqId, nat>, captured: Option<nat>, id: ReqId)
    requires ValidConfig(cfg) && EngineInv(cfg, m, e) && SoloInv(m, pick, e.sched)
    requires OwnSamples(cfg, m, pick, e, oracle, captured)
    requires id in Live(e.sched)
    ensures var o := Schedule(cfg, e.sched, Some(e.slots));
      var outs := Out(Record(o.sched.outputs, o.data, StepSamples(o.data, oracle)), id);
      outs == SoloOutputs(m, pick, Req(o.sched.store, id).prompt, |outs|)
  {
    hide EngineInv, SchedInv, Live, Record, SoloOutputs, OwnSamples, LongLimit, Schedule;
    var s, o := e.sched, Schedule(cfg, e.sched, Some(e.slots));
    SchedulerPart(cfg, m, e);
    ScheduleCorrect(cfg, s, Some(e.slots));
    var sampled := StepSamples(o.data, oracle);
    DataRunning(cfg, s, o);
    SampledIds(o.data, oracle);
    RecordedNow(cfg, s, Some(e.slots), o, sampled, id);
    OldSolo(m, pick, s, id);
    hide StateOk, WorkOk, Sampled;
    if id in sampled {
      var d :| d in o.data && d.id == id;
      SoloOfSampled(cfg, m, pick, e, oracle, captured, d);
    }
  }

  lemma OldSolo<S>(m: Rnn<S>, pick: S -> nat, s: Sched, id: ReqId)
    requires SchedInv(s) && SoloInv(m, pick, s)
    ensures Out(s.outputs, id) == SoloOutputs(m, pick, Req(s.store, id).prompt, |Out(s.outputs, id)|)
  {
  }

  lemma StepKeepsSolo<S>(
      cfg: Config, m: Rnn<S>, pick: S -> nat, e: Engine<S>, oracle: map<ReqId, nat>, captured: Option<nat>)
    requires ValidConfig(cfg) && EngineInv(cfg, m, e) && SoloInv(m, pick, e.sched)
    requires OwnSamples(cfg, m, pick, e, oracle, captured)
    ensures Step(cfg, m, e, oracle, captured).Some?
    ensures SoloInv(m, pick, Step(cfg, m, e, oracle, captured).value.engine.sched)
  {
    hide SchedInv, Live, Record, SoloOutputs, OwnSamples, LongLimit, RowsOk, Settled, Step;
    StepSched(cfg, m, e, oracle, captured);
    StepCorrect(cfg, m, e, oracle, captured);
    var e' := Step(cfg, m, e, oracle, captured).value.engine;
    if !HasRequests(e.sched) {
      StepOfNothing(cfg, m, e, oracle, captured);
    } else {
      var o := Schedule(cfg, e.sched, Some(e.slots));
      StepShape(cfg, m, e, oracle, captured);
      var sampled := StepSamples(o.data, oracle);
      hide Schedule, StepSamples, WorkOk;
      forall id | id in e'.sched.runningMap
        ensures Out(e'.sched.outputs, id) == SoloOutputs(m, pick, Req(e'.sched.store, id).prompt, |Out(e'.sched.outputs, id)|)
      {
        StepOuts(cfg, m, e, oracle, captured, id);
        BatchKeepsSolo(cfg, m, pick, e, oracle, captured, id);
      }
    }
  }

  lemma StepOfNothing<S>(cfg: Config, m: Rnn<S>, e: Engine<S>, oracle: map<ReqId, nat>, captured: Option<nat>)
    requires !HasRequests(e.sched)
    ensures Step(cfg, m, e, oracle, captured) == Some(Stepped(e, map[], false))
  {
  }

  // What a surviving request's record is after a step.
  lemma StepOuts<S>(cfg: Config, m: Rnn<S>, e: Engine<S>, oracle: map<ReqId, nat>, captured: Option<nat>, id: ReqId)
    requires ValidConfig(cfg) && EngineInv(cfg, m, e) && HasRequests(e.sched)
    requires Step(cfg, m, e, oracle, captured).Some?
    requires id in Step(cfg, m, e, oracle, captured).value.engine.sched.runningMap
    ensures id in Live(e.sched)
    ensures var o := Schedule(cfg, e.sched, Some(e.slots));
      var s' := Step(cfg, m, e, oracle, captured).value.engine.sched;
      && Out(s'.outputs, id) == Out(Record(o.sched.outputs, o.data, StepSamples(o.data, oracle)), id)
      && Req(s'.store, id) == Req(o.sched.store, id)
  {
    hide SchedInv, Live, Record, LongLimit, RowsOk, Settled, Step, Schedule, Gone, StepSamples, GpuShape;
    var o := Schedule(cfg, e.sched, Some(e.slots));
    StepSched(cfg, m, e, oracle, captured);
    StepShape(cfg, m, e, oracle, captured);
    StepCorrect(cfg, m, e, oracle, captured);
    var e' := Step(cfg, m, e, oracle, captured).value.engine;
    RunningIsLive(e'.sched, id);
    var sampled, ids := StepSamples(o.data, oracle), AbortIds(e.aborts);
    DataRunning(cfg, e.sched, o);
    hide WorkOk;
    if o.data != [] || o.finished != {} {
      SettleLive(o.sched, o.slots.value, ids, o.data, o.finished, sampled);
      CountsToMembers(Live(e'.sched), Live(o.sched), Gone(o.sched, ids, o.data, o.finished, sampled));
      SettleOuts(o.sched, o.slots.value, ids, o.data, o.finished, sampled, id);
    } else {
      RecordNothing(o.sched.outputs, sampled);
    }
  }

  lemma RecordNothing(outputs: map<ReqId, seq<Token>>, sampled: map<ReqId, Token>)
    ensures Record(outputs, [], sampled) == outputs
  {
  }

  // ---------------------------------------------------------------- runs

  ghost predicate OwnSampledRun<S>(cfg: Config, m: Rnn<S>, pick: S -> nat, e: Engine<S>, actions: seq<Action>) {
    forall i :: 0 <= i < |actions| && actions[i].RunStep? ==>
      var r := Run(cfg, m, e, actions[..i]);
      r.Some? ==> OwnSamples(cfg, m, pick, r.value, actions[i].oracle, actions[i].captured)
  }

  lemma OwnSampledPrefix<S>(cfg: Config, m: Rnn<S>, pick: S -> nat, e: Engine<S>, actions: seq<Action>)
    requires OwnSampledRun(cfg, m, pick, e, actions) && actions != []
    ensures OwnSampledRun(cfg, m, pick, e, actions[..|actions| - 1])
  {
    hide Run, OwnSamples;
    var i := |actions| - 1;
    assert forall j :: 0 <= j < i ==> actions[..i][..j] == actions[..j];
  }

  lemma ApplyKeepsSolo<S>(cfg: Config, m: Rnn<S>, pick: S -> nat, e: Engine<S>, a: Action)
    requires ValidConfig(cfg) && EngineInv(cfg, m, e) && SoloInv(m, pick, e.sched) && Allowed(e, a)
    requires a.RunStep? ==> OwnSamples(cfg, m, pick, e, a.oracle, a.captured)
    ensures Apply(cfg, m, e, a).Some?
    ensures SoloInv(m, pick, Apply(cfg, m, e, a).value.sched)
  {
    hide OwnSamples, SoloOutputs;
    match a
    case AddRequest(id, r) => EnqueueLive(cfg, e.sched, id, r);
    case QueueAbort(ids) =>
    case RunStep(oracle, captured) =>
      hide EngineInv, SoloInv;
      StepKeepsSolo(cfg, m, pick, e, oracle, captured);
  }

  lemma {:induction false} RunKeepsSolo<S>(cfg: Config, m: Rnn<S>, pick: S -> nat, e: Engine<S>, actions: seq<Action>)
    requires ValidConfig(cfg) && EngineInv(cfg, m, e) && SoloInv(m, pick, e.sched)
    requires AllowedRun(cfg, m, e, actions) && OwnSampledRun(cfg, m, pick, e, actions)
    ensures Run(cfg, m, e, actions).Some?
    ensures EngineInv(cfg, m, Run(cfg, m, e, actions).value)
    ensures SoloInv(m, pick, Run(cfg, m, e, actions).value.sched)
  {
    hide EngineInv, Apply, Allowed, SoloInv, OwnSamples;
    RunsNeverRaise(cfg, m, e, actions);
    if actions != [] {
      var i := |actions| - 1;
      AllowedPrefix(cfg, m, e, actions);
      OwnSampledPrefix(cfg, m, pick, e, actions);
      RunKeepsSolo(cfg, m, pick, e, actions[..i]);
      ApplyKeepsSolo(cfg, m, pick, Run(cfg, m, e, actions[..i]).value, actions[i]);
    }
  }

  // In any run, a running request has generated what the model generates for its prompt alone.
  lemma {:induction false} OutputsAreSolo<S>(cfg: Config, m: Rnn<S>, pick: S -> nat, start: Engine<S>, actions: seq<Action>, id: ReqId)
    requires ValidConfig(cfg) && Initial(cfg, start)
    requires AllowedRun(cfg, m, start, actions) && OwnSampledRun(cfg, m, pick, start, actions)
    ensures Run(cfg, m, start, actions).Some?
    ensures var s := Run(cfg, m, start, actions).value.sched;
      id in s.runningMap ==> Out(s.outputs, id) == SoloOutputs(m, pick, Req(s.store, id).prompt, |Out(s.outputs, id)|)
  {
    InitialOk(cfg, m, start);
    assert SoloInv(m, pick, start.sched);
    hide EngineInv, AllowedRun, OwnSampledRun, Run, SoloOutputs;
    RunKeepsSolo(cfg, m, pick, start, actions);
  }

  // Two requests with the same prompt, in two different runs on two different configurations:
  // the outputs of one are a prefix of the outputs of the other.
  lemma {:induction false} CompanyDoesNotMatter<S>(
      cfg1: Config, cfg2: Config, m: Rnn<S>, pick: S -> nat,
      start1: Engine<S>, actions1: seq<Action>, id1: ReqId, start2: Engine<S>, actions2: seq<Action>, id2: ReqId)
    requires ValidConfig(cfg1) && Initial(cfg1, start1)
    requires AllowedRun(cfg1, m, start1, actions1) && OwnSampledRun(cfg1, m, pick, start1, actions1)
    requires ValidConfig(cfg2) && Initial(cfg2, start2)
    requires AllowedRun(cfg2, m, start2, actions2) && OwnSampledRun(cfg2, m, pick, start2, actions2)
    ensures Run(cfg1, m, start1, actions1).Some? && Run(cfg2, m, start2, actions2).Some?
    ensures var s1, s2 := Run(cfg1, m, start1, actions1).value.sched, Run(cfg2, m, start2, actions2).value.sched;
      id1 in s1.runningMap && id2 in s2.runningMap && Req(s1.store, id1).prompt == Req(s2.store, id2).prompt ==>
        Out(s1.outputs, id1) <= Out(s2.outputs, id2) || Out(s2.outputs, id2) <= Out(s1.outputs, id1)
  {
    hide Initial, AllowedRun, OwnSampledRun, Run, SoloOutputs;
    OutputsAreSolo(cfg1, m, pick, start1, actions1, id1);
    OutputsAreSolo(cfg2, m, pick, start2, actions2, id2);
    var s1, s2 := Run(cfg1, m, start1, actions1).value.sched, Run(cfg2, m, start2, actions2).value.sched;
    var a, b := |Out(s1.outputs, id1)|, |Out(s2.outputs, id2)|;
    if a <= b {
      SoloPrefix(m, pick, Req(s1.store, id1).prompt, a, b);
    } else {
      SoloPrefix(m, pick, Req(s1.store, id1).prompt, b, a);
    }
  }
}
