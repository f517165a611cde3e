/** Termination: with no new arrivals the engine empties, and exactly when no prompt is too long. */
module EngineDrain {
  import opened Wrappers
  import opened Requests
  import opened Sorting
  import opened StateSlots
  import opened Scheduling
  import opened SchedulingInvariants
  import opened ModelRunner
  import opened Completion
  import opened EngineStep
  import opened EngineSettle
  import opened EngineRuns

  // ---------------------------------------------------------------- sums over maps

  ghost function SumMap(m: map<ReqId, nat>): nat {
    if m.Keys == {} then 0 else
      var k :| k in m.Keys;
      m[k] + SumMap(m - {k})
  }

  lemma {:induction false} SumMapRemove(m: map<ReqId, nat>, k: ReqId)
    requires k in m
    ensures SumMap(m) == m[k] + SumMap(m - {k})
    decreases |m|
  {
    var j :| j in m.Keys && SumMap(m) == m[j] + SumMap(m - {j});
    if j != k {
      SumMapRemove(m - {j}, k);
      SumMapRemove(m - {k}, j);
      assert m - {j} - {k} == m - {k} - {j};
    }
  }

  lemma {:induction false} SumMapAtMost(a: map<ReqId, nat>, b: map<ReqId, nat>)
    requires a.Keys <= b.Keys && forall k :: k in a ==> a[k] <= b[k]
    ensures SumMap(a) <= SumMap(b)
    decreases |b|
  {
    if b.Keys != {} {
      var k :| k in b.Keys;
      SumMapRemove(b, k);
      if k in a {
        SumMapRemove(a, k);
        SumMapAtMost(a - {k}, b - {k});
      } else {
        SumMapAtMost(a, b - {k});
      }
    } else {
      assert a.Keys == {};
    }
  }

  lemma SumMapLess(a: map<ReqId, nat>, b: map<ReqId, nat>, w: ReqId)
    requires a.Keys <= b.Keys && forall k :: k in a ==> a[k] <= b[k]
    requires w in b && 0 < b[w] && (w in a ==> a[w] < b[w])
    ensures SumMap(a) < SumMap(b)
  {
    SumMapRemove(b, w);
    if w in a {
      SumMapRemove(a, w);
      SumMapAtMost(a - {w}, b - {w});
    } else {
      SumMapAtMost(a, b - {w});
    }
  }

  // ---------------------------------------------------------------- the measure

  // Prompt left, tokens left, and one for still being there.
  function Left(s: Sched, id: ReqId): nat {
    var r, outs := Req(s.store, id), Out(s.outputs, id);
    var max := if r.params.maxTokens.Some? then r.params.maxTokens.value else 0;
    r.Remaining() + (if max > |outs| then max - |outs| else 0) + 1
  }

  ghost function Weights(s: Sched): map<ReqId, nat> {
    map id | id in Live(s) :: Left(s, id)
  }

  ghost function Measure(s: Sched): nat {
    SumMap(Weights(s))
  }

  // Every live request has a token limit, as the program sets one for all.
  ghost predicate Limited(s: Sched) {
    forall id :: id in Live(s) ==> Req(s.store, id).params.maxTokens.Some? && 1 <= Req(s.store, id).params.maxTokens.value
  }

  predicate ShortPrompt(cfg: Config, r: Request) {
    cfg.maxModelLen.Some? ==> |r.prompt| < cfg.maxModelLen.value
  }

  ghost predicate AllShort(cfg: Config, s: Sched) {
    forall id :: id in Live(s) ==> ShortPrompt(cfg, Req(s.store, id))
  }

  // ---------------------------------------------------------------- a scheduling call makes progress

  lemma {:induction false} Phase1Grows(cfg: Config, s: Sched, slots: Option<Slots>, ids: seq<ReqId>, acc: Phase1)
    ensures var r := RunPhase1(cfg, s, slots, ids, acc); acc.data <= r.data && acc.finished <= r.finished
    decreases |ids|
  {
    if ids != [] {
      Phase1Grows(cfg, s, slots, ids[1..], Phase1Step(cfg, s, slots, acc, ids[0]));
    }
  }

  lemma Phase2StepGrows(cfg: Config, store: Store, acc: Phase2)
    ensures acc.data <= Phase2Step(cfg, store, acc).data
    ensures Admitting(cfg, acc) ==>
      |Phase2Step(cfg, store, acc).waiting| + |Phase2Step(cfg, store, acc).skipped| < |acc.waiting| + |acc.skipped|
  {
    hide NumNew, CoversPrompt, LimitReached, HeadFits, MakeRun, AllocateFor;
  }

  lemma {:induction false} Phase2Grows(cfg: Config, store: Store, acc: Phase2)
    ensures acc.data <= RunPhase2(cfg, store, acc).data
    decreases |acc.waiting| + |acc.skipped|
  {
    hide Phase2Step;
    if Admitting(cfg, acc) {
      Phase2StepGrows(cfg, store, acc);
      Phase2Grows(cfg, store, Phase2Step(cfg, store, acc));
    }
  }

  // The first running request in slot order is always scheduled or finished.
  lemma RunningProgress(cfg: Config, s: Sched, slots: Option<Slots>)
    requires ValidConfig(cfg) && SchedInv(s) && s.running != []
    requires forall id :: id in s.runningMap ==>
      ShortPrompt(cfg, s.store[id]) && (cfg.maxModelLen.Some? ==> s.store[id].computed < cfg.maxModelLen.value)
    ensures var r := RunPhase1(cfg, s, slots, SortBySlot(slots, s.running), StartPhase1(cfg)); r.data != [] || r.finished != {}
  {
    var ids := SortBySlot(slots, s.running);
    SortBySlotElements(slots, s.running);
    assert |ids| == |s.running| by { assert |multiset(ids)| == |ids| && |multiset(s.running)| == |s.running|; }
    assert ids[0] in multiset(ids);
    FirstProgress(cfg, s, slots, ids[0]);
    Phase1Grows(cfg, s, slots, ids[1..], Phase1Step(cfg, s, slots, StartPhase1(cfg), ids[0]));
  }

  lemma FirstProgress(cfg: Config, s: Sched, slots: Option<Slots>, id: ReqId)
    requires ValidConfig(cfg) && id in s.store && ShortPrompt(cfg, s.store[id])
    requires cfg.maxModelLen.Some? ==> s.store[id].computed < cfg.maxModelLen.value
    ensures var acc := Phase1Step(cfg, s, slots, StartPhase1(cfg), id); acc.data != [] || acc.finished != {}
  {
    var r := s.store[id];
    var acc := Phase1Step(cfg, s, slots, StartPhase1(cfg), id);
    var n := NumNew(cfg, r, cfg.maxBatchedTokens);
    assert !r.IsDecode() ==> n > 0;
    if acc.data == [] {
      assert id in acc.finished;
    }
  }

  // With nobody running, the first request at the head of a queue is admitted.
  lemma WaitingProgress(cfg: Config, s: Sched, slots: Option<Slots>, p1: Phase1)
    requires ValidConfig(cfg) && SchedInv(s) && AllShort(cfg, s)
    requires s.running == [] && (s.waiting != [] || s.skipped != [])
    requires SlotsInv(cfg, s.running, s.runningMap, slots)
    requires p1 == StartPhase1(cfg)
    ensures RunPhase2(cfg, s.store, StartPhase2(cfg, s, slots, p1)).data != []
  {
    var acc := StartPhase2(cfg, s, slots, p1);
    var id := if acc.skipped != [] then acc.skipped[0] else acc.waiting[0];
    assert id in Live(s) && id !in s.runningMap by {
      assert id in multiset(s.skipped) || id in multiset(s.waiting);
    }
    hide SchedInv, Live, AllShort;
    assert Phase2Step(cfg, s.store, acc).data != [] by { HeadAdmitted(cfg, s, acc, id); }
    hide Phase2Step;
    Phase2Grows(cfg, s.store, Phase2Step(cfg, s.store, acc));
  }

  lemma HeadAdmitted(cfg: Config, s: Sched, acc: Phase2, id: ReqId)
    requires ValidConfig(cfg) && id in s.store && ShortPrompt(cfg, s.store[id])
    requires s.store[id].computed == 0 && s.store[id].prompt != []
    requires acc.partialPrefills == 0 && acc.budget == cfg.maxBatchedTokens && acc.data == [] && acc.running == []
    requires acc.slots.Some? ==> Dense(acc.slots.value, 0) && acc.slots.value.maxSlots == cfg.maxNumSeqs
    requires if acc.skipped != [] then id == acc.skipped[0] else acc.waiting != [] && id == acc.waiting[0]
    ensures Phase2Step(cfg, s.store, acc).data != []
  {
    var r := s.store[id];
    var n := NumNew(cfg, r, acc.budget);
    assert n > 0;
    hide NumNew;
    assert HeadFits(cfg, r, 0) && !LimitReached(cfg, r, 0);
    assert AllocateFor(acc.slots, id).Some?;
    hide Dense;
  }

  // ---------------------------------------------------------------- a step makes the measure smaller

  // The scheduler after the batch, with the sampled tokens recorded but nobody removed yet.
  function AfterBatch(o: Scheduled, sampled: map<ReqId, Token>): Sched {
    o.sched.(outputs := Record(o.sched.outputs, o.data, sampled))
  }

  lemma ScheduledLeft(cfg: Config, s: Sched, slots: Option<Slots>, o: Scheduled, sampled: map<ReqId, Token>, d: RunData)
    requires d in o.data && RunOk(cfg, s, o.slots, d) && Advanced(s.store, o.data, o.sched.store)
    requires s.store[d.id].params.maxTokens.Some? && 1 <= s.store[d.id].params.maxTokens.value
    requires d.id in sampled <==> Samples(d)
    requires Out(AfterBatch(o, sampled).outputs, d.id) == Out(s.outputs, d.id) + TokensFor(sampled, d.id)
    ensures Left(AfterBatch(o, sampled), d.id) < Left(s, d.id)
  {
    hide Record;
  }

  lemma BatchLeft(cfg: Config, s: Sched, slots: Option<Slots>, o: Scheduled, sampled: map<ReqId, Token>, id: ReqId)
    requires SchedInv(s) && StateOk(cfg, s, slots, o) && WorkOk(cfg, s, o) && Limited(s) && id in Live(s)
    requires forall d :: d in o.data ==> (d.id in sampled <==> Samples(d))
    ensures Left(AfterBatch(o, sampled), id) <= Left(s, id)
    ensures id in DataIds(o.data) ==> Left(AfterBatch(o, sampled), id) < Left(s, id)
  {
    InStore(s, id);
    LimitOf(s, id);
    RecordCorrect(o.sched.outputs, o.data, sampled);
    OutsAfter(cfg, s, slots, o, id);
    hide SchedInv, Live, Limited, RunOk, Record, Left;
    if id in DataIds(o.data) {
      var d :| d in o.data && d.id == id;
      ScheduledLeft(cfg, s, slots, o, sampled, d);
    } else {
      SameLeft(s, AfterBatch(o, sampled), id);
    }
  }

  lemma InStore(s: Sched, id: ReqId)
    requires SchedInv(s) && id in Live(s)
    ensures id in s.store
  {
  }

  lemma LimitOf(s: Sched, id: ReqId)
    requires Limited(s) && id in Live(s)
    ensures Req(s.store, id).params.maxTokens.Some? && 1 <= Req(s.store, id).params.maxTokens.value
  {
  }

  lemma OutsAfter(cfg: Config, s: Sched, slots: Option<Slots>, o: Scheduled, id: ReqId)
    requires SchedInv(s) && StateOk(cfg, s, slots, o) && WorkOk(cfg, s, o)
    ensures Out(o.sched.outputs, id) == Out(s.outputs, id)
    ensures id in DataIds(o.data) ==> id in o.sched.outputs
  {
  }

  lemma SameLeft(s: Sched, s': Sched, id: ReqId)
    requires Req(s'.store, id) == Req(s.store, id) && Out(s'.outputs, id) == Out(s.outputs, id)
    ensures Left(s', id) == Left(s, id)
  {
  }

  // The scheduler after the settling part.
  function Settled(s: Sched, slots: Slots, ids: set<ReqId>, data: seq<RunData>, finished: set<ReqId>, sampled: map<ReqId, Token>): Sched {
    Update(AbortSet(s, ids), Some(slots), data, finished, sampled).sched
  }

  // Who leaves in the settling part: the aborted and the finished.
  function Gone(s: Sched, ids: set<ReqId>, data: seq<RunData>, finished: set<ReqId>, sampled: map<ReqId, Token>): set<ReqId> {
    ids + Finishing(AbortSet(s, ids), data, finished, sampled)
  }

  lemma SettleLive(s: Sched, slots: Slots, ids: set<ReqId>, data: seq<RunData>, finished: set<ReqId>, sampled: map<ReqId, Token>)
    requires SchedInv(s) && DistinctIds(data)
    ensures SchedInv(Settled(s, slots, ids, data, finished, sampled))
    ensures forall id :: Live(Settled(s, slots, ids, data, finished, sampled))[id]
                         == if id in Gone(s, ids, data, finished, sampled) then 0 else Live(s)[id]
  {
    hide SchedInv, Live, Finishing, AbortSet, Update;
    AbortKeepsInv(s, ids);
    UpdateKeepsInv(AbortSet(s, ids), Some(slots), data, finished, sampled);
  }

  lemma FinishedGone(s: Sched, ids: set<ReqId>, data: seq<RunData>, finished: set<ReqId>, sampled: map<ReqId, Token>)
    requires SchedInv(s) && finished <= s.runningMap
    ensures finished <= Gone(s, ids, data, finished, sampled)
  {
  }

  lemma SettleOuts(s: Sched, slots: Slots, ids: set<ReqId>, data: seq<RunData>, finished: set<ReqId>, sampled: map<ReqId, Token>, id: ReqId)
    requires DistinctIds(data) && id !in Gone(s, ids, data, finished, sampled)
    ensures var s' := Settled(s, slots, ids, data, finished, sampled);
      s'.store == s.store && Out(s'.outputs, id) == Out(Record(s.outputs, data, sampled), id)
  {
    RecordCorrect(s.outputs, data, sampled);
    RecordCorrect(AbortSet(s, ids).outputs, data, sampled);
    hide Finishing, Record, Drop;
  }

  lemma CountsToMembers(a: multiset<ReqId>, b: multiset<ReqId>, gone: set<ReqId>)
    requires forall id :: a[id] == if id in gone then 0 else b[id]
    ensures forall id :: id in a <==> id in b && id !in gone
  {
  }

  // Settling a batch: the measure drops as soon as anyone was scheduled or named finished.
  lemma SettleShrinks(
      cfg: Config, s: Sched, slots: Option<Slots>, o: Scheduled, st: Slots, ids: set<ReqId>, sampled: map<ReqId, Token>)
    requires SchedInv(s) && Limited(s) && StateOk(cfg, s, slots, o) && WorkOk(cfg, s, o)
    requires forall d :: d in o.data ==> (d.id in sampled <==> Samples(d))
    requires o.data != [] || o.finished != {}
    ensures var s' := Settled(o.sched, st, ids, o.data, o.finished, sampled);
      Measure(s') < Measure(s) && (forall id :: id in Live(s') ==> id in Live(s) && Req(s'.store, id) == Req(o.sched.store, id))
  {
    var s' := Settled(o.sched, st, ids, o.data, o.finished, sampled);
    var gone := Gone(o.sched, ids, o.data, o.finished, sampled);
    hide SchedInv, Live, Limited, RunOk, Record, Gone, Settled, Left;
    SettleLive(o.sched, st, ids, o.data, o.finished, sampled);
    CountsToMembers(Live(s'), Live(o.sched), gone);
    forall id | id in Live(s') ensures Left(s', id) <= Left(s, id) && Req(s'.store, id) == Req(o.sched.store, id) {
      BatchLeft(cfg, s, slots, o, sampled, id);
      SettleOuts(o.sched, st, ids, o.data, o.finished, sampled, id);
      SameLeft(AfterBatch(o, sampled), s', id);
    }
    var w := Witness(cfg, s, slots, o, st, ids, sampled);
    hide StateOk, WorkOk;
    assert Weights(s').Keys <= Weights(s).Keys;
    LeftPositive(s, w);
    SumMapLess(Weights(s'), Weights(s), w);
  }

  lemma LeftPositive(s: Sched, id: ReqId)
    ensures Left(s, id) > 0
  {
  }

  lemma Witness(
      cfg: Config, s: Sched, slots: Option<Slots>, o: Scheduled, st: Slots, ids: set<ReqId>, sampled: map<ReqId, Token>)
    returns (w: ReqId)
    requires SchedInv(s) && Limited(s) && StateOk(cfg, s, slots, o) && WorkOk(cfg, s, o)
    requires forall d :: d in o.data ==> (d.id in sampled <==> Samples(d))
    requires o.data != [] || o.finished != {}
    ensures w in Live(s)
    ensures var s' := Settled(o.sched, st, ids, o.data, o.finished, sampled); w in Live(s') ==> Left(s', w) < Left(s, w)
  {
    var s' := Settled(o.sched, st, ids, o.data, o.finished, sampled);
    var gone := Gone(o.sched, ids, o.data, o.finished, sampled);
    if o.data != [] {
      w := o.data[0].id;
      assert o.data[0] in o.data;
    } else {
      w :| w in o.finished;
      FinishedGone(o.sched, ids, o.data, o.finished, sampled);
    }
    RunningIsLive(o.sched, w);
    hide SchedInv, Live, Limited, RunOk, Record, Gone, Settled, Left;
    SettleLive(o.sched, st, ids, o.data, o.finished, sampled);
    CountsToMembers(Live(s'), Live(o.sched), gone);
    if w in Live(s') {
      BatchLeft(cfg, s, slots, o, sampled, w);
      SettleOuts(o.sched, st, ids, o.data, o.finished, sampled, w);
      SameLeft(AfterBatch(o, sampled), s', w);
    }
  }

  lemma RunningIsLive(s: Sched, id: ReqId)
    requires SchedInv(s) && id in s.runningMap
    ensures id in Live(s)
  {
  }

  // ---------------------------------------------------------------- steps

  lemma LiveMeansRequests(s: Sched)
    ensures HasRequests(s) <==> exists id :: id in Live(s)
  {
    if HasRequests(s) {
      var id := if s.waiting != [] then s.waiting[0] else if s.skipped != [] then s.skipped[0] else s.running[0];
      assert id in multiset(s.waiting) || id in multiset(s.skipped) || id in multiset(s.running);
      assert id in Live(s);
    }
  }

  lemma ComputedBounds<S>(cfg: Config, m: Rnn<S>, e: Engine<S>)
    requires EngineInv(cfg, m, e)
    ensures forall id :: id in e.sched.runningMap ==>
      id in e.sched.store && (cfg.maxModelLen.Some? ==> e.sched.store[id].computed < cfg.maxModelLen.value)
  {
  }

  lemma RunningShort(cfg: Config, s: Sched)
    requires SchedInv(s) && AllShort(cfg, s)
    ensures forall id :: id in s.runningMap ==> id in s.store && ShortPrompt(cfg, s.store[id])
  {
    forall id | id in s.runningMap ensures id in s.store && ShortPrompt(cfg, s.store[id]) {
      RunningIsLive(s, id);
    }
  }

  lemma {:induction false} Phase1OfNone(cfg: Config, s: Sched, slots: Option<Slots>)
    requires s.running == []
    ensures RunPhase1(cfg, s, slots, SortBySlot(slots, s.running), StartPhase1(cfg)) == StartPhase1(cfg)
  {
  }

  // A scheduling call with anything to do schedules or finishes somebody.
  lemma ScheduleProgress<S>(cfg: Config, m: Rnn<S>, e: Engine<S>)
    requires ValidConfig(cfg) && EngineInv(cfg, m, e) && HasRequests(e.sched) && AllShort(cfg, e.sched)
    ensures var o := Schedule(cfg, e.sched, Some(e.slots)); o.data != [] || o.finished != {}
  {
    var s, slots := e.sched, Some(e.slots);
    ComputedBounds(cfg, m, e);
    RunningShort(cfg, s);
    var p1 := RunPhase1(cfg, s, slots, SortBySlot(slots, s.running), StartPhase1(cfg));
    hide SchedInv, RowsOk, LongLimit, GpuShape, RunPhase1, RunPhase2, AllShort, SortBySlot;
    if s.running != [] {
      RunningProgress(cfg, s, slots);
      Phase2Grows(cfg, s.store, StartPhase2(cfg, s, slots, p1));
    } else {
      Phase1OfNone(cfg, s, slots);
      WaitingProgress(cfg, s, slots, p1);
    }
  }

  // The tokens a step records: none when nothing was scheduled.
  function StepSamples(data: seq<RunData>, oracle: map<ReqId, nat>): map<ReqId, Token> {
    if data == [] then map[] else Sampled(data, oracle)
  }

  // What a step leaves of the scheduler, read off the step.
  lemma StepShape<S>(cfg: Config, m: Rnn<S>, e: Engine<S>, oracle: map<ReqId, nat>, captured: Option<nat>)
    requires HasRequests(e.sched) && Step(cfg, m, e, oracle, captured).Some?
    requires SumTokens(Schedule(cfg, e.sched, Some(e.slots)).data) == 0 ==> Schedule(cfg, e.sched, Some(e.slots)).data == []
    ensures var o := Schedule(cfg, e.sched, Some(e.slots));
      var e' := Step(cfg, m, e, oracle, captured).value.engine;
      && o.slots.Some?
      && (o.data == [] && o.finished == {} ==> e'.sched == o.sched && e'.aborts == e.aborts)
      && (o.data != [] || o.finished != {} ==>
            && e'.sched == Settled(o.sched, o.slots.value, AbortIds(e.aborts), o.data, o.finished, StepSamples(o.data, oracle))
            && e'.aborts == [])
  {
    hide Schedule, Execute, Update, BatchCondense, AbortSet, AbortIds, Sampled, SlotsOf, AbortedHolding, HasRequests;
  }

  // A step does not raise, and its scheduling call and samples are in order.
  lemma StepSched<S>(cfg: Config, m: Rnn<S>, e: Engine<S>, oracle: map<ReqId, nat>, captured: Option<nat>)
    requires ValidConfig(cfg) && EngineInv(cfg, m, e)
    ensures Step(cfg, m, e, oracle, captured).Some?
    ensures var o := Schedule(cfg, e.sched, Some(e.slots));
      && StateOk(cfg, e.sched, Some(e.slots), o) && WorkOk(cfg, e.sched, o)
      && (SumTokens(o.data) == 0 ==> o.data == [])
      && (forall d :: d in o.data ==> (d.id in StepSamples(o.data, oracle) <==> Samples(d)))
  {
    hide RowsOk, SchedInv, LongLimit, Step, Schedule, StateOk, WorkOk;
    var o := Schedule(cfg, e.sched, Some(e.slots));
    StepCorrect(cfg, m, e, oracle, captured);
    ScheduleCorrect(cfg, e.sched, Some(e.slots));
    RecordsPositive(cfg, e.sched, o);
    SumAtLeastCount(o.data);
    DataRunning(cfg, e.sched, o);
    SampledIds(o.data, oracle);
  }

  // Every step of a non-empty engine makes the measure smaller.
  lemma {:induction false} StepShrinks<S>(cfg: Config, m: Rnn<S>, e: Engine<S>, oracle: map<ReqId, nat>, captured: Option<nat>)
    requires ValidConfig(cfg) && EngineInv(cfg, m, e) && HasRequests(e.sched)
    requires Limited(e.sched) && AllShort(cfg, e.sched)
    ensures Step(cfg, m, e, oracle, captured).Some?
    ensures var e' := Step(cfg, m, e, oracle, captured).value.engine;
      Measure(e'.sched) < Measure(e.sched) && Limited(e'.sched) && AllShort(cfg, e'.sched)
  {
    hide RowsOk, SchedInv, LongLimit, Step, Measure;
    var o := Schedule(cfg, e.sched, Some(e.slots));
    StepSched(cfg, m, e, oracle, captured);
    StepShape(cfg, m, e, oracle, captured);
    ScheduleProgress(cfg, m, e);
    hide Schedule, HasRequests, GpuShape, WorkOk;
    var sampled := StepSamples(o.data, oracle);
    SettleShrinks(cfg, e.sched, Some(e.slots), o, o.slots.value, AbortIds(e.aborts), sampled);
    var e' := Step(cfg, m, e, oracle, captured).value.engine;
    hide Settled, Live;
    forall id | id in Live(e'.sched) ensures Req(e'.sched.store, id).params == Req(e.sched.store, id).params
      && Req(e'.sched.store, id).prompt == Req(e.sched.store, id).prompt
    {
      SameParams(cfg, e.sched, Some(e.slots), o, id);
    }
  }

  lemma SameParams(cfg: Config, s: Sched, slots: Option<Slots>, o: Scheduled, id: ReqId)
    requires StateOk(cfg, s, slots, o) && SchedInv(s) && id in Live(s)
    ensures Req(o.sched.store, id).params == Req(s.store, id).params
    ensures Req(o.sched.store, id).prompt == Req(s.store, id).prompt
  {
    InStore(s, id);
    AdvancedFields(s.store, o.data, o.sched.store, id);
  }

  // Steps in a row, with whatever the sampler and the graph manager answer in each.
  function Steps<S>(cfg: Config, m: Rnn<S>, e: Engine<S>, inputs: seq<(map<ReqId, nat>, Option<nat>)>): Option<Engine<S>>
    decreases |inputs|
  {
    if inputs == [] then Some(e)
    else
      match Step(cfg, m, e, inputs[0].0, inputs[0].1)
      case None => None
      case Some(st) => Steps(cfg, m, st.engine, inputs[1..])
  }

  // Drain termination: without arrivals the engine is empty after at most Measure steps.
  lemma {:induction false} EngineDrains<S>(cfg: Config, m: Rnn<S>, e: Engine<S>, inputs: seq<(map<ReqId, nat>, Option<nat>)>)
    requires ValidConfig(cfg) && EngineInv(cfg, m, e)
    requires Limited(e.sched) && AllShort(cfg, e.sched)
    requires |inputs| >= Measure(e.sched)
    ensures Steps(cfg, m, e, inputs).Some?
    ensures !HasRequests(Steps(cfg, m, e, inputs).value.sched)
    decreases |inputs|
  {
    hide EngineInv, Limited, AllShort, Measure;
    if HasRequests(e.sched) {
      MeasurePositive(e.sched);
      StepCorrect(cfg, m, e, inputs[0].0, inputs[0].1);
      StepShrinks(cfg, m, e, inputs[0].0, inputs[0].1);
      hide Step;
      EngineDrains(cfg, m, Step(cfg, m, e, inputs[0].0, inputs[0].1).value.engine, inputs[1..]);
    } else {
      StaysEmpty(cfg, m, e, inputs);
    }
  }

  lemma MeasurePositive(s: Sched)
    requires HasRequests(s)
    ensures Measure(s) > 0
  {
    LiveMeansRequests(s);
    var id :| id in Live(s);
    LeftPositive(s, id);
    hide Live, Left;
    SumMapRemove(Weights(s), id);
  }

  lemma {:induction false} StaysEmpty<S>(cfg: Config, m: Rnn<S>, e: Engine<S>, inputs: seq<(map<ReqId, nat>, Option<nat>)>)
    requires !HasRequests(e.sched)
    ensures Steps(cfg, m, e, inputs) == Some(e)
    decreases |inputs|
  {
    if inputs != [] {
      StaysEmpty(cfg, m, e, inputs[1..]);
    }
  }

  // ---------------------------------------------------------------- prompts that are too long

  // Phase 1 names as finished only requests that decode or whose prompt is short enough.
  lemma {:induction false} FinishedAreShort(cfg: Config, s: Sched, slots: Option<Slots>, ids: seq<ReqId>, acc: Phase1)
    requires forall id :: id in acc.finished ==> Req(s.store, id).IsDecode() || ShortPrompt(cfg, Req(s.store, id))
    ensures forall id :: id in RunPhase1(cfg, s, slots, ids, acc).finished ==>
      Req(s.store, id).IsDecode() || ShortPrompt(cfg, Req(s.store, id))
    decreases |ids|
  {
    if ids != [] {
      assert forall id :: id in Phase1Step(cfg, s, slots, acc, ids[0]).finished ==> id in acc.finished || id == ids[0];
      FinishedAreShort(cfg, s, slots, ids[1..], Phase1Step(cfg, s, slots, acc, ids[0]));
    }
  }

  lemma LongIsNotFinished(cfg: Config, s: Sched, slots: Option<Slots>, id: ReqId)
    requires !Req(s.store, id).IsDecode() && !ShortPrompt(cfg, Req(s.store, id))
    ensures id !in Schedule(cfg, s, slots).finished
  {
    FinishedAreShort(cfg, s, slots, SortBySlot(slots, s.running), StartPhase1(cfg));
    hide RunPhase1, RunPhase2;
  }

  // A prompt that is too long never completes its prefill, so nothing is ever sampled for it.
  lemma LongIsNotSampled(cfg: Config, s: Sched, o: Scheduled, d: RunData)
    requires RunOk(cfg, s, o.slots, d) && !s.store[d.id].IsDecode() && !ShortPrompt(cfg, s.store[d.id])
    ensures !Samples(d)
  {
  }

  lemma LongDoesNotDecode<S>(cfg: Config, m: Rnn<S>, e: Engine<S>, id: ReqId)
    requires EngineInv(cfg, m, e) && id in Live(e.sched) && !ShortPrompt(cfg, Req(e.sched.store, id))
    ensures id in e.sched.store && !Req(e.sched.store, id).IsDecode()
  {
    if id in e.sched.runningMap {
      ComputedBounds(cfg, m, e);
    }
  }

  // A finishing request was named or sampled a token.
  lemma FinishingCause(s: Sched, data: seq<RunData>, finished: set<ReqId>, sampled: map<ReqId, Token>, id: ReqId)
    requires id in Finishing(s, data, finished, sampled)
    ensures id in finished || id in sampled
  {
    if id in Stopped(s, data, sampled) {
      var d :| d in data && d.id == id && StopHit(Req(s.store, id).params, TokensFor(sampled, id));
    }
  }

  lemma LongSurvives(cfg: Config, s: Sched, slots: Option<Slots>, o: Scheduled, st: Slots, sampled: map<ReqId, Token>, id: ReqId)
    requires SchedInv(s) && StateOk(cfg, s, slots, o) && WorkOk(cfg, s, o)
    requires forall d :: d in o.data ==> (d.id in sampled <==> Samples(d))
    requires forall x :: x in sampled ==> x in DataIds(o.data)
    requires id in Live(s) && id in s.store && !s.store[id].IsDecode() && !ShortPrompt(cfg, s.store[id]) && id !in o.finished
    ensures var s' := Settled(o.sched, st, {}, o.data, o.finished, sampled);
      id in Live(s') && Req(s'.store, id).prompt == s.store[id].prompt
  {
    var s' := Settled(o.sched, st, {}, o.data, o.finished, sampled);
    SameParams(cfg, s, slots, o, id);
    forall d | d in o.data && d.id == id ensures !Samples(d) {
      LongIsNotSampled(cfg, s, o, d);
    }
    assert id !in sampled;
    hide SchedInv, Live, RunOk, Record, Settled, ShortPrompt;
    if id in Gone(o.sched, {}, o.data, o.finished, sampled) {
      FinishingCause(AbortSet(o.sched, {}), o.data, o.finished, sampled, id);
    }
    SettleLive(o.sched, st, {}, o.data, o.finished, sampled);
    CountsToMembers(Live(s'), Live(o.sched), Gone(o.sched, {}, o.data, o.finished, sampled));
    SettleOuts(o.sched, st, {}, o.data, o.finished, sampled, id);
  }

  ghost predicate Stuck(cfg: Config, s: Sched, id: ReqId) {
    id in Live(s) && !ShortPrompt(cfg, Req(s.store, id))
  }

  lemma StepKeepsStuck<S>(cfg: Config, m: Rnn<S>, e: Engine<S>, oracle: map<ReqId, nat>, captured: Option<nat>, id: ReqId)
    requires ValidConfig(cfg) && EngineInv(cfg, m, e) && e.aborts == [] && Stuck(cfg, e.sched, id)
    ensures Step(cfg, m, e, oracle, captured).Some?
    ensures var e' := Step(cfg, m, e, oracle, captured).value.engine; e'.aborts == [] && Stuck(cfg, e'.sched, id)
  {
    hide RowsOk, SchedInv, LongLimit, Step, Schedule, Live;
    var o := Schedule(cfg, e.sched, Some(e.slots));
    LiveMeansRequests(e.sched);
    StepSched(cfg, m, e, oracle, captured);
    StepShape(cfg, m, e, oracle, captured);
    LongDoesNotDecode(cfg, m, e, id);
    LongIsNotFinished(cfg, e.sched, Some(e.slots), id);
    var sampled := StepSamples(o.data, oracle);
    assert AbortIds(e.aborts) == {};
    hide WorkOk, StateOk, AbortIds, ShortPrompt;
    LongSurvives(cfg, e.sched, Some(e.slots), o, o.slots.value, sampled, id);
    SameParams(cfg, e.sched, Some(e.slots), o, id);
    LiveKept(cfg, e.sched, Some(e.slots), o);
    SameShort(cfg, Req(e.sched.store, id), Req(o.sched.store, id));
    var e' := Step(cfg, m, e, oracle, captured).value.engine;
    SameShort(cfg, Req(e.sched.store, id), Req(e'.sched.store, id));
  }

  lemma LiveKept(cfg: Config, s: Sched, slots: Option<Slots>, o: Scheduled)
    requires StateOk(cfg, s, slots, o)
    ensures Live(o.sched) == Live(s)
  {
  }

  lemma SameShort(cfg: Config, r: Request, r': Request)
    ensures r.prompt == r'.prompt ==> ShortPrompt(cfg, r) == ShortPrompt(cfg, r')
  {
  }

  lemma {:induction false} StuckForever<S>(
      cfg: Config, m: Rnn<S>, e: Engine<S>, inputs: seq<(map<ReqId, nat>, Option<nat>)>, id: ReqId)
    requires ValidConfig(cfg) && EngineInv(cfg, m, e) && e.aborts == [] && Stuck(cfg, e.sched, id)
    ensures Steps(cfg, m, e, inputs).Some?
    ensures HasRequests(Steps(cfg, m, e, inputs).value.sched)
    decreases |inputs|
  {
    hide EngineInv, Stuck, HasRequests;
    if inputs == [] {
      StuckHasRequests(cfg, e.sched, id);
    } else {
      StepCorrect(cfg, m, e, inputs[0].0, inputs[0].1);
      StepKeepsStuck(cfg, m, e, inputs[0].0, inputs[0].1, id);
      hide Step;
      StuckForever(cfg, m, Step(cfg, m, e, inputs[0].0, inputs[0].1).value.engine, inputs[1..], id);
    }
  }

  lemma StuckHasRequests(cfg: Config, s: Sched, id: ReqId)
    requires Stuck(cfg, s, id)
    ensures HasRequests(s)
  {
    LiveMeansRequests(s);
  }

  ghost predicate CanDrain<S>(cfg: Config, m: Rnn<S>, e: Engine<S>) {
    exists inputs :: Steps(cfg, m, e, inputs).Some? && !HasRequests(Steps(cfg, m, e, inputs).value.sched)
  }

  // Without arrivals and aborts, the engine can be drained exactly when every live prompt is
  // shorter than the length limit.
  lemma {:induction false} DrainsIffPromptsShort<S>(cfg: Config, m: Rnn<S>, e: Engine<S>)
    requires ValidConfig(cfg) && EngineInv(cfg, m, e) && e.aborts == [] && Limited(e.sched)
    ensures CanDrain(cfg, m, e) <==> AllShort(cfg, e.sched)
  {
    hide EngineInv, Limited, CanDrain, Stuck, AllShort;
    if AllShort(cfg, e.sched) {
      DrainsWhenShort(cfg, m, e);
    } else {
      var id := FindStuck(cfg, e.sched);
      CannotDrain(cfg, m, e, id);
    }
  }

  lemma FindStuck(cfg: Config, s: Sched) returns (id: ReqId)
    requires !AllShort(cfg, s)
    ensures Stuck(cfg, s, id)
  {
    id :| id in Live(s) && !ShortPrompt(cfg, Req(s.store, id));
  }

  lemma DrainsWhenShort<S>(cfg: Config, m: Rnn<S>, e: Engine<S>)
    requires ValidConfig(cfg) && EngineInv(cfg, m, e) && Limited(e.sched) && AllShort(cfg, e.sched)
    ensures CanDrain(cfg, m, e)
  {
    hide EngineInv, AllShort, Limited, Steps, HasRequests, Measure;
    var inputs: seq<(map<ReqId, nat>, Option<nat>)> := seq(Measure(e.sched), _ => (map[], None));
    EngineDrains(cfg, m, e, inputs);
  }

  lemma CannotDrain<S>(cfg: Config, m: Rnn<S>, e: Engine<S>, id: ReqId)
    requires ValidConfig(cfg) && EngineInv(cfg, m, e) && e.aborts == [] && Stuck(cfg, e.sched, id)
    ensures !CanDrain(cfg, m, e)
  {
    hide EngineInv, Stuck, Steps, HasRequests;
    forall inputs: seq<(map<ReqId, nat>, Option<nat>)>
      ensures Steps(cfg, m, e, inputs).Some? && HasRequests(Steps(cfg, m, e, inputs).value.sched)
    {
      StuckForever(cfg, m, e, inputs, id);
    }
  }
}