/** Aborts that do not go through the queue: the slots they leave behind, over whole runs. */
module DirectAbort {
  import opened Wrappers
  import opened Requests
  import opened Sorting
  import opened StateSlots
  import opened Scheduling
  import opened SchedulingInvariants
  import opened ModelRunner
  import opened Completion
  import opened EngineStep
  import opened EngineSettle
  import opened EngineRuns
  import Queue = RequestQueue

  // Besides the running requests, some that are gone still hold a slot.
  ghost predicate LeakSlots(cfg: Config, runningMap: set<ReqId>, slots: Slots, leaked: set<ReqId>) {
    && leaked !! runningMap && slots.reqToSlot.Keys == runningMap + leaked
    && Dense(slots, |slots.reqToSlot.Keys|) && slots.maxSlots == cfg.maxNumSeqs
  }

  ghost predicate LeakState(cfg: Config, s: Sched, slots: Slots, leaked: set<ReqId>) {
    && SchedInv(s) && LeakSlots(cfg, s.runningMap, slots, leaked)
    && leaked <= s.store.Keys && forall id :: id in leaked ==> id !in Live(s)
  }

  // ---------------------------------------------------------------- scheduling over leaked slots

  ghost predicate LeakPhase2(cfg: Config, s: Sched, acc: Phase2, leaked: set<ReqId>) {
    && acc.slots.Some?
    && if acc.raised then |acc.running| < cfg.maxNumSeqs && |acc.running| + |leaked| == cfg.maxNumSeqs
       else Total(acc) == Live(s) && QueuesInv(s, acc) && WorkInv(cfg, s, acc) && LeakSlots(cfg, acc.runningMap, acc.slots.value, leaked)
  }

  ghost predicate LeakPopped(cfg: Config, s: Sched, acc: Phase2, id: ReqId, leaked: set<ReqId>) {
    && acc.slots.Some? && !acc.raised && Total(acc) + multiset{id} == Live(s)
    && QueuesInv(s, acc) && WorkInv(cfg, s, acc) && LeakSlots(cfg, acc.runningMap, acc.slots.value, leaked)
  }

  lemma OnlyQueues(cfg: Config, s: Sched, a: Phase2, b: Phase2)
    requires a.running == b.running && a.runningMap == b.runningMap && a.outputs == b.outputs
    requires a.slots == b.slots && a.data == b.data && a.budget == b.budget
    ensures QueuesInv(s, a) <==> QueuesInv(s, b)
    ensures WorkInv(cfg, s, a) <==> WorkInv(cfg, s, b)
  {
    hide RunOk, DistinctIds, SumTokens, DataIds, Out;
  }

  lemma LeakPopSkipped(cfg: Config, s: Sched, acc: Phase2, leaked: set<ReqId>)
    requires LeakPhase2(cfg, s, acc, leaked) && !acc.raised && acc.skipped != []
    ensures LeakPopped(cfg, s, acc.(skipped := acc.skipped[1..]), acc.skipped[0], leaked)
  {
    hide LeakSlots, Live, QueuesInv, WorkInv;
    OnlyQueues(cfg, s, acc, acc.(skipped := acc.skipped[1..]));
    assert acc.skipped == [acc.skipped[0]] + acc.skipped[1..];
  }

  lemma LeakPopWaiting(cfg: Config, s: Sched, acc: Phase2, leaked: set<ReqId>)
    requires LeakPhase2(cfg, s, acc, leaked) && !acc.raised && acc.waiting != []
    ensures LeakPopped(cfg, s, acc.(waiting := acc.waiting[1..]), acc.waiting[0], leaked)
  {
    hide LeakSlots, Live, QueuesInv, WorkInv;
    OnlyQueues(cfg, s, acc, acc.(waiting := acc.waiting[1..]));
    assert acc.waiting == [acc.waiting[0]] + acc.waiting[1..];
  }

  lemma LeakHold(cfg: Config, s: Sched, acc: Phase2, id: ReqId, leaked: set<ReqId>)
    requires LeakPopped(cfg, s, acc, id, leaked)
    ensures LeakPhase2(cfg, s, Hold(cfg, s.store, acc, id), leaked)
  {
    hide LeakSlots, Live, Queue.Prepend, QueuesInv, WorkInv;
    OnlyQueues(cfg, s, acc, Hold(cfg, s.store, acc, id));
    Queue.PrependElements(cfg.policy, s.store, acc.held, id);
  }

  lemma LeakHoldHeads(cfg: Config, s: Sched, acc: Phase2, leaked: set<ReqId>)
    requires LeakPhase2(cfg, s, acc, leaked) && !acc.raised
    ensures LeakPhase2(cfg, s, HoldHeads(cfg, s.store, acc), leaked)
  {
    hide LeakPhase2, LeakPopped;
    var a := acc;
    if acc.skipped != [] {
      LeakPopSkipped(cfg, s, acc, leaked);
      LeakHold(cfg, s, acc.(skipped := acc.skipped[1..]), acc.skipped[0], leaked);
      a := Hold(cfg, s.store, acc.(skipped := acc.skipped[1..]), acc.skipped[0]);
    }
    if a.waiting != [] {
      LeakPopWaiting(cfg, s, a, leaked);
      LeakHold(cfg, s, a.(waiting := a.waiting[1..]), a.waiting[0], leaked);
    }
  }

  // One running request more, in the lowest free slot, if there is one.
  lemma LeakAllocate(cfg: Config, runningMap: set<ReqId>, slots: Slots, leaked: set<ReqId>, id: ReqId)
    requires LeakSlots(cfg, runningMap, slots, leaked) && id !in runningMap && id !in leaked
    ensures Allocate(slots, id).None? <==> |runningMap| + |leaked| == cfg.maxNumSeqs
    ensures Allocate(slots, id).Some? ==> LeakSlots(cfg, runningMap + {id}, Allocate(slots, id).value.0, leaked)
  {
    hide Dense;
    var n := |slots.reqToSlot.Keys|;
    AllocateDense(slots, n, id);
    assert n == |runningMap| + |leaked|;
    assert n <= slots.maxSlots by { DenseFits(slots, n); }
    if Allocate(slots, id).Some? {
      assert Allocate(slots, id).value.0.reqToSlot.Keys == slots.reqToSlot.Keys + {id};
    }
  }

  lemma DenseFits(st: Slots, n: nat)
    requires Dense(st, n)
    ensures n <= st.maxSlots
  {
  }

  lemma RunningMapCount(s: Sched, acc: Phase2, id: ReqId)
    requires SchedInv(s) && Total(acc) + multiset{id} == Live(s) && QueuesInv(s, acc)
    ensures |acc.runningMap| == |acc.running|
  {
    assert forall x :: multiset(acc.running)[x] <= Live(s)[x];
    hide SchedInv, QueuesInv, Live, Total;
    assert Once(multiset(acc.running)) by { OncePart(s, acc); }
    RunningInLists(s, acc);
    DistinctCount(acc.running, acc.runningMap);
  }

  lemma OncePart(s: Sched, acc: Phase2)
    requires SchedInv(s) && forall x :: multiset(acc.running)[x] <= Live(s)[x]
    ensures Once(multiset(acc.running))
  {
    hide Live;
  }

  lemma RunningInLists(s: Sched, acc: Phase2)
    requires QueuesInv(s, acc)
    ensures forall id :: id in acc.runningMap <==> id in multiset(acc.running)
  {
  }

  lemma LeakedIsNew(cfg: Config, s: Sched, acc: Phase2, id: ReqId, leaked: set<ReqId>)
    requires LeakPopped(cfg, s, acc, id, leaked) && SchedInv(s) && forall x :: x in leaked ==> x !in Live(s)
    ensures id !in acc.runningMap && id in s.store && id !in s.outputs && !s.store[id].IsDecode() && id !in leaked
  {
    hide LeakSlots, WorkInv, Total;
    assert id in Live(s);
    InHandIsNotRunning(Live(s), acc, id);
  }

  lemma LeakAdmit(cfg: Config, s: Sched, acc: Phase2, id: ReqId, leaked: set<ReqId>)
    requires LeakPopped(cfg, s, acc, id, leaked) && SchedInv(s) && |acc.running| < cfg.maxNumSeqs && 1 <= cfg.chunkThreshold
    requires forall x :: x in leaked ==> x !in Live(s)
    ensures LeakPhase2(cfg, s, Admit(cfg, s.store, acc, id), leaked)
  {
    hide SchedInv, QueuesInv, WorkInv, LeakSlots, Allocate, Total, Live, NumNew, LimitReached, LeakPhase2;
    var r := Req(s.store, id);
    var n := NumNew(cfg, r, acc.budget);
    LeakHold(cfg, s, acc, id, leaked);
    LeakedIsNew(cfg, s, acc, id, leaked);
    if n > 0 {
      var partial := !r.IsDecode() && !CoversPrompt(r, n);
      if !(partial && LimitReached(cfg, r, acc.partialPrefills)) {
        LeakEnter(cfg, s, acc, id, n, partial, leaked);
      }
    }
  }

  lemma LeakEnter(cfg: Config, s: Sched, acc: Phase2, id: ReqId, n: nat, partial: bool, leaked: set<ReqId>)
    requires LeakPopped(cfg, s, acc, id, leaked) && SchedInv(s) && |acc.running| < cfg.maxNumSeqs && 1 <= cfg.chunkThreshold
    requires id !in acc.runningMap && id in s.store && id !in s.outputs && !s.store[id].IsDecode() && id !in leaked
    requires n == NumNew(cfg, Req(s.store, id), acc.budget) && 0 < n
    ensures match AllocateFor(acc.slots, id)
      case None => LeakPhase2(cfg, s, acc.(raised := true), leaked)
      case Some(slots) => LeakPhase2(cfg, s, Enter(acc, Req(s.store, id), id, n, slots, partial), leaked)
  {
    hide SchedInv, QueuesInv, WorkInv, LeakSlots, Allocate, Total, Live, NumNew;
    LeakAllocate(cfg, acc.runningMap, acc.slots.value, leaked, id);
    RunningMapCount(s, acc, id);
    if AllocateFor(acc.slots, id).Some? {
      var slots := AllocateFor(acc.slots, id).value;
      EnterQueues(cfg, s, acc, id, n, slots, partial);
      EnterWork(cfg, s, acc, id, n, slots, partial);
    }
  }

  lemma {:induction false} LeakRunPhase2(cfg: Config, s: Sched, acc: Phase2, leaked: set<ReqId>)
    requires LeakPhase2(cfg, s, acc, leaked) && SchedInv(s) && 1 <= cfg.chunkThreshold
    requires forall x :: x in leaked ==> x !in Live(s)
    ensures LeakPhase2(cfg, s, RunPhase2(cfg, s.store, acc), leaked)
    decreases |acc.waiting| + |acc.skipped|
  {
    hide LeakPhase2, LeakPopped, SchedInv, Live, Admit, HeadFits, HoldHeads;
    if Admitting(cfg, acc) {
      if Selectable(cfg, s.store, acc.skipped, acc.partialPrefills) {
        LeakPopSkipped(cfg, s, acc, leaked);
        LeakAdmit(cfg, s, acc.(skipped := acc.skipped[1..]), acc.skipped[0], leaked);
      } else if Selectable(cfg, s.store, acc.waiting, acc.partialPrefills) {
        LeakPopWaiting(cfg, s, acc, leaked);
        LeakAdmit(cfg, s, acc.(waiting := acc.waiting[1..]), acc.waiting[0], leaked);
      } else {
        LeakHoldHeads(cfg, s, acc, leaked);
      }
      FewerWait(cfg, s.store, acc);
      LeakRunPhase2(cfg, s, Phase2Step(cfg, s.store, acc), leaked);
    }
  }

  lemma FewerWait(cfg: Config, store: Store, acc: Phase2)
    requires acc.waiting != [] || acc.skipped != []
    ensures var acc' := Phase2Step(cfg, store, acc);
      |acc'.waiting| + |acc'.skipped| < |acc.waiting| + |acc.skipped|
  {
    hide Admit, HeadFits, HoldHeads;
    if acc.skipped != [] {
      AdmitQueues(cfg, store, acc.(skipped := acc.skipped[1..]), acc.skipped[0]);
    }
    if acc.waiting != [] {
      AdmitQueues(cfg, store, acc.(waiting := acc.waiting[1..]), acc.waiting[0]);
    }
    HoldHeadsQueues(cfg, store, acc);
  }

  lemma AdmitQueues(cfg: Config, store: Store, acc: Phase2, id: ReqId)
    ensures var acc' := Admit(cfg, store, acc, id); acc'.waiting == acc.waiting && acc'.skipped == acc.skipped
  {
    hide NumNew, LimitReached, AllocateFor, Queue.Prepend, MakeRun;
  }

  lemma HoldHeadsQueues(cfg: Config, store: Store, acc: Phase2)
    requires acc.waiting != [] || acc.skipped != []
    ensures var acc' := HoldHeads(cfg, store, acc); |acc'.waiting| + |acc'.skipped| < |acc.waiting| + |acc.skipped|
  {
    hide Queue.Prepend;
  }

  // Every record is for a running request in its current slot.
  ghost predicate LeakWork(s: Sched, slots: Slots, data: seq<RunData>) {
    DistinctIds(data) && forall d :: d in data ==> d.id in slots.reqToSlot && d.slot == slots.reqToSlot[d.id]
  }

  lemma LeakStart(cfg: Config, s: Sched, slots: Slots, p1: Phase1, leaked: set<ReqId>)
    requires SchedInv(s) && LeakSlots(cfg, s.runningMap, slots, leaked) && Phase1Inv(cfg, s, Some(slots), s.runningMap, p1)
    ensures LeakPhase2(cfg, s, StartPhase2(cfg, s, Some(slots), p1), leaked)
  {
    hide RunOk, LeakSlots, DistinctIds, SumTokens;
    assert forall d :: d in p1.data ==> d.id in DataIds(p1.data);
  }

  lemma LeakRecords(cfg: Config, s: Sched, acc: Phase2, leaked: set<ReqId>)
    requires LeakPhase2(cfg, s, acc, leaked) && !acc.raised
    ensures forall d :: d in acc.data ==> d.id in acc.slots.value.reqToSlot && d.slot == acc.slots.value.reqToSlot[d.id]
    ensures DistinctIds(acc.data) && s.runningMap <= acc.runningMap
  {
    hide Dense, InputTokens;
  }

  // Scheduling keeps the leak as it is, and raises only when leaked slots have exhausted the pool.
  lemma {:induction false} LeakScheduled(cfg: Config, s: Sched, slots: Slots, leaked: set<ReqId>)
    requires ValidConfig(cfg) && LeakState(cfg, s, slots, leaked)
    ensures var o := Schedule(cfg, s, Some(slots));
      && o.slots.Some?
      && if o.raised then |o.sched.running| < cfg.maxNumSeqs && |o.sched.running| + |leaked| == cfg.maxNumSeqs
         else
           && LeakState(cfg, o.sched, o.slots.value, leaked) && LeakWork(o.sched, o.slots.value, o.data)
           && o.finished <= o.sched.runningMap && o.sched.store.Keys == s.store.Keys
  {
    hide SchedInv, WorkInv, QueuesInv, Total, RunPhase1, RunPhase2, Advanced, Live, SortBySlot, LeakSlots, DistinctIds;
    var p1 := RunPhase1(cfg, s, Some(slots), SortBySlot(Some(slots), s.running), StartPhase1(cfg));
    Phase1Correct(cfg, s, Some(slots));
    LeakStart(cfg, s, slots, p1, leaked);
    var start := StartPhase2(cfg, s, Some(slots), p1);
    LeakRunPhase2(cfg, s, start, leaked);
    var p2 := RunPhase2(cfg, s.store, start);
    if !p2.raised {
      LeakRecords(cfg, s, p2, leaked);
      FinishLive(cfg, s, p1, p2);
      FinishAdvanced(cfg, s, p1, p2);
      StoreKeys(s.store, p2.data, FinishSchedule(cfg, s, p1, p2).sched.store);
      FinishSchedInv(cfg, s, p1, p2);
    }
  }

  lemma StoreKeys(store: Store, data: seq<RunData>, store': Store)
    requires Advanced(store, data, store')
    ensures store'.Keys == store.Keys
  {
  }

  // ---------------------------------------------------------------- settling over leaked slots

  lemma {:induction false} LeakCondensed(
      cfg: Config, running: set<ReqId>, slots: Slots, ids: set<ReqId>, aborted: set<ReqId>, still: set<ReqId>, freed: set<ReqId>,
      freedSlots: set<nat>, leaked: set<ReqId>)
    requires LeakSlots(cfg, running, slots, leaked) && aborted == ids * (running + leaked) && still <= running - ids
    requires freed == aborted + (running - still) && Current(slots, freed, freedSlots)
    ensures BatchCondense(slots, freed, freedSlots).Some?
    ensures LeakSlots(cfg, still, BatchCondense(slots, freed, freedSlots).value.0, leaked - ids)
  {
    hide Dense, Current, Condensed, BatchCondense;
    BatchCondenseCorrect(slots, |slots.reqToSlot.Keys|, freed, freedSlots);
    var (after, moves) := BatchCondense(slots, freed, freedSlots).value;
    CondensedSlots(slots, freed, after, moves);
    SettledSets(running, leaked, ids, aborted, still);
  }

  // Draining the aborts frees the leaked slots of the requests they name, and no others.
  lemma {:induction false} LeakSettled<S>(
      cfg: Config, e: Engine<S>, data: seq<RunData>, finished: set<ReqId>, sampled: map<ReqId, Token>, ran: bool, leaked: set<ReqId>)
    requires LeakState(cfg, e.sched, e.slots, leaked) && LeakWork(e.sched, e.slots, data)
    ensures Settle(e, data, finished, sampled, ran).Some?
    ensures var e' := Settle(e, data, finished, sampled, ran).value.engine;
      && LeakState(cfg, e'.sched, e'.slots, leaked - AbortIds(e.aborts))
      && e'.sched.store == e.sched.store && e'.aborts == []
  {
    hide SchedInv, Update, AbortSet, Current, Live, DistinctIds, BatchCondense, AbortIds, SlotsOf, LeakSlots, Inverse;
    var ids := AbortIds(e.aborts);
    var u := Update(AbortSet(e.sched, ids), Some(e.slots), data, finished, sampled);
    var aborted := AbortedHolding(e.slots, ids);
    LeakIsInverse(cfg, e.sched, e.slots, leaked, ids);
    FreedPairs(e.sched, e.slots, data, finished, sampled, ids);
    SettledSched(e.sched, e.slots, data, finished, sampled, ids);
    LeakCondensed(
      cfg, e.sched.runningMap, e.slots, ids, aborted, u.sched.runningMap, aborted + u.freedIds,
      SlotsOf(e.slots, aborted) + u.freedSlots, leaked);
  }

  lemma LeakIsInverse(cfg: Config, s: Sched, slots: Slots, leaked: set<ReqId>, ids: set<ReqId>)
    requires LeakState(cfg, s, slots, leaked)
    ensures Inverse(slots.reqToSlot, slots.slotToReq) && s.runningMap <= slots.reqToSlot.Keys
    ensures AbortedHolding(slots, ids) == ids * (s.runningMap + leaked)
  {
    hide SchedInv, Live, Inverse;
  }

  lemma SettledSets(running: set<ReqId>, leaked: set<ReqId>, ids: set<ReqId>, aborted: set<ReqId>, still: set<ReqId>)
    requires leaked !! running && aborted == ids * (running + leaked) && still <= running - ids
    ensures (running + leaked) - (aborted + (running - still)) == still + (leaked - ids)
    ensures leaked - ids !! still
  {
  }

  lemma CondensedSlots(st: Slots, ids: set<ReqId>, after: Slots, moves: seq<Move>)
    requires Condensed(st, ids, after, moves)
    ensures after.maxSlots == st.maxSlots && after.reqToSlot.Keys == st.reqToSlot.Keys - ids
    ensures Dense(after, |after.reqToSlot.Keys|)
  {
    hide Placed, Dense;
  }

  lemma SettledSched(s: Sched, slots: Slots, data: seq<RunData>, finished: set<ReqId>, sampled: map<ReqId, Token>, ids: set<ReqId>)
    requires SchedInv(s) && DistinctIds(data)
    ensures var s' := Update(AbortSet(s, ids), Some(slots), data, finished, sampled).sched;
      && SchedInv(s') && s'.store == s.store && s'.runningMap <= s.runningMap - ids
      && forall id :: id in Live(s') ==> id in Live(s)
  {
    hide SchedInv, Live, Drop, Finishing, FinalOutput, Record, FreedSlot, Finals, Opens;
    AbortKeepsInv(s, ids);
    UpdateKeepsInv(AbortSet(s, ids), Some(slots), data, finished, sampled);
    var s' := Update(AbortSet(s, ids), Some(slots), data, finished, sampled).sched;
    assert forall id :: id in Live(s') ==> Live(s')[id] > 0;
  }

  // ---------------------------------------------------------------- runs with direct aborts

  // Besides what else happens: `abort_requests` is called, as for a client's abort message, and an idle
  // process forgets the aborts still queued.
  datatype Event = Plain(action: Action) | AbortNow(ids: set<ReqId>) | ForgetAborts

  function React<S>(cfg: Config, m: Rnn<S>, e: Engine<S>, ev: Event): Option<Engine<S>> {
    match ev
    case Plain(a) => Apply(cfg, m, e, a)
    case AbortNow(ids) => Some(e.(sched := AbortSet(e.sched, ids)))
    case ForgetAborts => Some(e.(aborts := []))
  }

  // Who holds a slot without running afterwards. A running request aborted directly leaks its slot; a step
  // that settles a batch gives back the slots of those its queued aborts name.
  function LeakedBy<S>(cfg: Config, m: Rnn<S>, e: Engine<S>, leaked: set<ReqId>, ev: Event): set<ReqId> {
    match ev
    case AbortNow(ids) => leaked + ids * e.sched.runningMap
    case Plain(RunStep(oracle, captured)) =>
      if Begin(cfg, m, e, oracle, captured).GoesOn? then leaked - AbortIds(e.aborts) else leaked
    case _ => leaked
  }

  datatype Leaky<S> = Leaky(engine: Engine<S>, leaked: set<ReqId>)

  function RunAll<S>(cfg: Config, m: Rnn<S>, x: Leaky<S>, events: seq<Event>): Option<Leaky<S>> {
    if events == [] then Some(x)
    else
      match RunAll(cfg, m, x, events[..|events| - 1])
      case None => None
      case Some(y) =>
        var ev := events[|events| - 1];
        match React(cfg, m, y.engine, ev)
        case None => None
        case Some(e') => Some(Leaky(e', LeakedBy(cfg, m, y.engine, y.leaked, ev)))
  }

  ghost predicate AllowedAll<S>(cfg: Config, m: Rnn<S>, x: Leaky<S>, events: seq<Event>) {
    forall i :: 0 <= i < |events| ==>
      var r := RunAll(cfg, m, x, events[..i]); r.Some? && events[i].Plain? ==> Allowed(r.value.engine, events[i].action)
  }

  ghost predicate LeakEngine<S>(cfg: Config, x: Leaky<S>) {
    LeakState(cfg, x.engine.sched, x.engine.slots, x.leaked)
  }

  lemma {:induction false} StepLeaks<S>(cfg: Config, m: Rnn<S>, x: Leaky<S>, oracle: map<ReqId, nat>, captured: Option<nat>)
    requires ValidConfig(cfg) && LeakEngine(cfg, x)
    ensures var r, ev := Step(cfg, m, x.engine, oracle, captured), Plain(RunStep(oracle, captured));
      r.Some? ==> LeakEngine(cfg, Leaky(r.value.engine, LeakedBy(cfg, m, x.engine, x.leaked, ev)))
    ensures Begin(cfg, m, x.engine, oracle, captured).GoesOn? ==> Step(cfg, m, x.engine, oracle, captured).Some?
  {
    hide Schedule, Settle, Execute, Sampled, WriteBack, SchedInv, LeakSlots, Live, LeakWork, SumTokens;
    BeginSettles(cfg, m, x.engine, oracle, captured);
    hide Step;
    if HasRequests(x.engine.sched) {
      LeakScheduled(cfg, x.engine.sched, x.engine.slots, x.leaked);
      match Begin(cfg, m, x.engine, oracle, captured)
      case GoesOn(y) => LeakSettled(cfg, y.engine, y.data, y.finished, y.sampled, y.ran, x.leaked);
      case _ =>
    }
  }

  lemma AbortNowLeaks(cfg: Config, s: Sched, slots: Slots, leaked: set<ReqId>, ids: set<ReqId>)
    requires LeakState(cfg, s, slots, leaked)
    ensures LeakState(cfg, AbortSet(s, ids), slots, leaked + ids * s.runningMap)
  {
    hide Dense, Drop, SchedInv, Live, AbortSet;
    AbortKeepsInv(s, ids);
    AbortedFields(s, ids);
    RunningIsLive(s);
    LeakedSets(s.runningMap, leaked, ids);
    GoneFromLive(s, ids, leaked);
  }

  lemma LeakedSets(running: set<ReqId>, leaked: set<ReqId>, ids: set<ReqId>)
    requires leaked !! running
    ensures leaked + ids * running !! running - ids
    ensures (running - ids) + (leaked + ids * running) == running + leaked
  {
  }

  lemma GoneFromLive(s: Sched, ids: set<ReqId>, leaked: set<ReqId>)
    requires SchedInv(s) && forall id :: id in leaked ==> id !in Live(s)
    ensures forall id :: id in leaked + ids ==> id !in Live(AbortSet(s, ids))
  {
    hide SchedInv, Live, AbortSet;
    AbortKeepsInv(s, ids);
    forall id | id in leaked + ids ensures id !in Live(AbortSet(s, ids)) {
      assert Live(AbortSet(s, ids))[id] == 0;
    }
  }

  lemma AbortedFields(s: Sched, ids: set<ReqId>)
    ensures AbortSet(s, ids).runningMap == s.runningMap - ids && AbortSet(s, ids).store == s.store
  {
  }

  lemma RunningIsLive(s: Sched)
    requires SchedInv(s)
    ensures forall id :: id in s.runningMap ==> id in s.store && id in Live(s)
  {
    assert forall id :: id in s.runningMap ==> id in multiset(s.running);
  }

  lemma AddLeaks(cfg: Config, s: Sched, slots: Slots, leaked: set<ReqId>, id: ReqId, r: Request)
    requires LeakState(cfg, s, slots, leaked) && id !in s.store && r.prompt != [] && r.computed == 0
    ensures LeakState(cfg, Enqueue(cfg, s, id, r), slots, leaked)
  {
    hide Dense, LeakSlots, Queue.Add;
    EnqueueKeepsSched(cfg, s, id, r);
    EnqueueLive(cfg, s, id, r);
    hide SchedInv, Live;
    assert forall x :: x in Live(Enqueue(cfg, s, id, r)) ==> x == id || x in Live(s);
  }

  lemma {:induction false} EventLeaks<S>(cfg: Config, m: Rnn<S>, x: Leaky<S>, ev: Event)
    requires ValidConfig(cfg) && LeakEngine(cfg, x) && (ev.Plain? ==> Allowed(x.engine, ev.action))
    ensures var r := React(cfg, m, x.engine, ev);
      r.Some? ==> LeakEngine(cfg, Leaky(r.value, LeakedBy(cfg, m, x.engine, x.leaked, ev)))
  {
    hide Step, Begin, LeakState, AbortSet, Enqueue;
    match ev
    case AbortNow(ids) => AbortNowLeaks(cfg, x.engine.sched, x.engine.slots, x.leaked, ids);
    case ForgetAborts =>
    case Plain(a) =>
      match a
      case AddRequest(id, r) => AddLeaks(cfg, x.engine.sched, x.engine.slots, x.leaked, id, r);
      case QueueAbort(_) =>
      case RunStep(oracle, captured) => StepLeaks(cfg, m, x, oracle, captured);
  }

  lemma InitialLeaks<S>(cfg: Config, e: Engine<S>)
    requires Initial(cfg, e)
    ensures LeakEngine(cfg, Leaky(e, {}))
  {
  }

  lemma {:induction false} LeakKept<S>(cfg: Config, m: Rnn<S>, x: Leaky<S>, events: seq<Event>)
    requires ValidConfig(cfg) && LeakEngine(cfg, x) && AllowedAll(cfg, m, x, events)
    ensures var r := RunAll(cfg, m, x, events); r.Some? ==> LeakEngine(cfg, r.value)
  {
    hide LeakEngine, React, LeakedBy, Allowed;
    if events != [] {
      var n := |events| - 1;
      assert AllowedAll(cfg, m, x, events[..n]) by {
        hide RunAll;
        assert forall i :: 0 <= i < n ==> events[..n][..i] == events[..i];
      }
      LeakKept(cfg, m, x, events[..n]);
      var r := RunAll(cfg, m, x, events[..n]);
      if r.Some? {
        EventLeaks(cfg, m, r.value, events[n]);
      }
    }
  }

  // In every run that has raised nothing: the slot maps hold exactly the running requests and the leaked
  // ones, in the lowest slots.
  lemma {:induction false} LeakIsExact<S>(cfg: Config, m: Rnn<S>, e: Engine<S>, events: seq<Event>)
    requires ValidConfig(cfg) && Initial(cfg, e) && AllowedAll(cfg, m, Leaky(e, {}), events)
    ensures var r := RunAll(cfg, m, Leaky(e, {}), events); r.Some? ==> LeakEngine(cfg, r.value)
  {
    hide LeakEngine, RunAll, Initial, AllowedAll;
    InitialLeaks(cfg, e);
    LeakKept(cfg, m, Leaky(e, {}), events);
  }

  // ---------------------------------------------------------------- what that means

  // The slot maps agree with the running requests exactly when nothing is leaked, and there is no slot for
  // one more request exactly when running and leaked ones fill the pool.
  lemma {:induction false} LeakShows<S>(cfg: Config, x: Leaky<S>, id: ReqId)
    requires LeakEngine(cfg, x) && id !in x.engine.slots.reqToSlot
    ensures x.engine.slots.reqToSlot.Keys == x.engine.sched.runningMap <==> x.leaked == {}
    ensures Allocate(x.engine.slots, id).None? <==> |x.engine.sched.running| + |x.leaked| == cfg.maxNumSeqs
  {
    hide Dense, SchedInv, Allocate;
    RunningCount(x.engine.sched);
    LeakAllocate(cfg, x.engine.sched.runningMap, x.engine.slots, x.leaked, id);
  }

  lemma SoundIsLeakless<S>(cfg: Config, m: Rnn<S>, e: Engine<S>)
    requires EngineInv(cfg, m, e)
    ensures SchedInv(e.sched) && LeakEngine(cfg, Leaky(e, {}))
  {
    hide RowsOk, LongLimit, SchedInv;
    DenseInverse(e.slots, |e.sched.running|);
  }

  // From a sound engine: a direct abort leaves the slot maps in agreement if and only if it names no
  // running request; and it leaves no slot for another request if and only if the pool was full,
  // however few go on running.
  lemma {:induction false} DirectAbortLeaksIff<S>(cfg: Config, m: Rnn<S>, e: Engine<S>, ids: set<ReqId>, id: ReqId)
    requires EngineInv(cfg, m, e) && id !in e.slots.reqToSlot
    ensures e.slots.reqToSlot.Keys == AbortSet(e.sched, ids).runningMap <==> ids !! e.sched.runningMap
    ensures Allocate(e.slots, id).None? <==> |e.sched.running| == cfg.maxNumSeqs
    ensures |AbortSet(e.sched, ids).running| == |e.sched.running| - |ids * e.sched.runningMap|
  {
    hide EngineInv, AbortSet, Allocate, SchedInv, Dense;
    SoundIsLeakless(cfg, m, e);
    LeakShows(cfg, Leaky(e, {}), id);
    AbortNowLeaks(cfg, e.sched, e.slots, {}, ids);
    var x := Leaky(e.(sched := AbortSet(e.sched, ids)), {} + ids * e.sched.runningMap);
    LeakShows(cfg, x, id);
    RunningCount(e.sched);
    AbortKeepsInv(e.sched, ids);
    RunningCount(AbortSet(e.sched, ids));
    AbortedFields(e.sched, ids);
    assert e.sched.runningMap == (e.sched.runningMap - ids) + ids * e.sched.runningMap;
  }

  // With its copy still queued, the next step that settles a batch gives the slots back.
  lemma {:induction false} QueuedCopyRestores<S>(
      cfg: Config, m: Rnn<S>, e: Engine<S>, ids: seq<ReqId>, oracle: map<ReqId, nat>, captured: Option<nat>)
    requires ValidConfig(cfg) && EngineInv(cfg, m, e)
    ensures var named := set id | id in ids;
      var e1 := e.(sched := AbortSet(e.sched, named), aborts := e.aborts + [ids]);
      Begin(cfg, m, e1, oracle, captured).GoesOn? ==>
        && Step(cfg, m, e1, oracle, captured).Some?
        && LeakEngine(cfg, Leaky(Step(cfg, m, e1, oracle, captured).value.engine, {}))
  {
    hide EngineInv, AbortSet, Begin, Step, LeakState;
    var named := set id | id in ids;
    var e1 := e.(sched := AbortSet(e.sched, named), aborts := e.aborts + [ids]);
    SoundIsLeakless(cfg, m, e);
    AbortNowLeaks(cfg, e.sched, e.slots, {}, named);
    assert named <= AbortIds(e1.aborts) by {
      assert ids in e1.aborts;
    }
    var leaked := {} + named * e.sched.runningMap;
    StepLeaks(cfg, m, Leaky(e1, leaked), oracle, captured);
    assert leaked - AbortIds(e1.aborts) == {};
  }

  // Nothing queued, now or later, names the request.
  ghost predicate Unnamed<S>(e: Engine<S>, events: seq<Event>, id: ReqId) {
    id !in AbortIds(e.aborts) && forall ev :: ev in events ==> !Names(ev, id)
  }

  predicate Names(ev: Event, id: ReqId) {
    ev.Plain? && ev.action.QueueAbort? && id in ev.action.ids
  }

  lemma StillUnnamed<S>(cfg: Config, m: Rnn<S>, e: Engine<S>, ev: Event, id: ReqId)
    requires id !in AbortIds(e.aborts) && !Names(ev, id)
    ensures var r := React(cfg, m, e, ev); r.Some? ==> id !in AbortIds(r.value.aborts)
  {
    hide Schedule, Update, AbortSet, BatchCondense, Execute, Sampled, WriteBack, SumTokens;
  }

  // Then its slot is lost for good: through every further run somebody gone keeps holding it.
  lemma {:induction false} LostForGood<S>(cfg: Config, m: Rnn<S>, x: Leaky<S>, events: seq<Event>, id: ReqId)
    requires id in x.leaked && Unnamed(x.engine, events, id)
    ensures var r := RunAll(cfg, m, x, events);
      r.Some? ==> id in r.value.leaked && id !in AbortIds(r.value.engine.aborts)
  {
    hide React, Begin, AbortIds, Names;
    if events != [] {
      var n := |events| - 1;
      assert events[n] in events && forall ev :: ev in events[..n] ==> ev in events;
      LostForGood(cfg, m, x, events[..n], id);
      var r := RunAll(cfg, m, x, events[..n]);
      if r.Some? {
        StillUnnamed(cfg, m, r.value.engine, events[n], id);
      }
    }
  }

  // Once leaked slots fill the pool, every step with somebody waiting raises.
  lemma {:induction false} FullPoolRaises<S>(
      cfg: Config, m: Rnn<S>, x: Leaky<S>, oracle: map<ReqId, nat>, captured: Option<nat>)
    requires ValidConfig(cfg) && (cfg.maxModelLen.Some? ==> cfg.maxModelLen.value >= 2)
    requires LeakEngine(cfg, x) && |x.leaked| == cfg.maxNumSeqs && (x.engine.sched.waiting != [] || x.engine.sched.skipped != [])
    ensures Step(cfg, m, x.engine, oracle, captured) == None
  {
    hide RunPhase2, SchedInv, LeakSlots, Settle, Execute, Admit, HeadFits, Live, Phase2Step, SortBySlot;
    var s, slots := x.engine.sched, Some(x.engine.slots);
    NobodyRuns(cfg, x);
    assert SortBySlot(slots, []) == [] by { NothingToSort(slots); }
    var p1 := RunPhase1(cfg, s, slots, [], StartPhase1(cfg));
    assert p1 == StartPhase1(cfg);
    var start := StartPhase2(cfg, s, slots, p1);
    HeadRaises(cfg, s, start);
    assert Admitting(cfg, start);
    var next := Phase2Step(cfg, s.store, start);
    assert RunPhase2(cfg, s.store, start) == next by { RaisedStops(cfg, s.store, start); }
  }

  // So it takes one direct abort of everything a full engine runs to make it raise from then on.
  lemma {:induction false} FullAbortRaises<S>(
      cfg: Config, m: Rnn<S>, e: Engine<S>, ids: set<ReqId>, id: ReqId, r: Request, oracle: map<ReqId, nat>, captured: Option<nat>)
    requires ValidConfig(cfg) && (cfg.maxModelLen.Some? ==> cfg.maxModelLen.value >= 2)
    requires EngineInv(cfg, m, e) && |e.sched.running| == cfg.maxNumSeqs && e.sched.runningMap <= ids
    requires id !in e.sched.store && r.prompt != [] && r.computed == 0
    ensures Step(cfg, m, e.(sched := Enqueue(cfg, AbortSet(e.sched, ids), id, r)), oracle, captured) == None
  {
    hide EngineInv, AbortSet, Enqueue, Step, LeakState, SchedInv;
    SoundIsLeakless(cfg, m, e);
    AbortNowLeaks(cfg, e.sched, e.slots, {}, ids);
    AbortedFields(e.sched, ids);
    var leaked := {} + ids * e.sched.runningMap;
    AddLeaks(cfg, AbortSet(e.sched, ids), e.slots, leaked, id, r);
    RunningCount(e.sched);
    assert leaked == e.sched.runningMap;
    var x := Leaky(e.(sched := Enqueue(cfg, AbortSet(e.sched, ids), id, r)), leaked);
    SomebodyWaits(cfg, AbortSet(e.sched, ids), id, r);
    FullPoolRaises(cfg, m, x, oracle, captured);
  }

  lemma SomebodyWaits(cfg: Config, s: Sched, id: ReqId, r: Request)
    ensures Enqueue(cfg, s, id, r).waiting != []
  {
    hide Queue.Add;
    Queue.AddElements(cfg.policy, s.store[id := r], s.waiting, id);
    assert id in multiset(Queue.Add(cfg.policy, s.store[id := r], s.waiting, id));
  }

  lemma NothingToSort(slots: Option<Slots>)
    ensures SortBySlot(slots, []) == []
  {
  }

  lemma NobodyRuns<S>(cfg: Config, x: Leaky<S>)
    requires LeakEngine(cfg, x) && |x.leaked| == cfg.maxNumSeqs
    ensures x.engine.sched.running == [] && x.engine.slots.free == []
  {
    var n := |x.engine.slots.reqToSlot.Keys|;
    assert n == |x.engine.sched.runningMap| + |x.leaked|;
    RunningCount(x.engine.sched);
  }

  lemma RaisedStops(cfg: Config, store: Store, acc: Phase2)
    requires Admitting(cfg, acc) && Phase2Step(cfg, store, acc).raised
    ensures RunPhase2(cfg, store, acc) == Phase2Step(cfg, store, acc)
  {
    hide Phase2Step;
    assert !Admitting(cfg, Phase2Step(cfg, store, acc));
  }

  lemma HeadRaises(cfg: Config, s: Sched, acc: Phase2)
    requires ValidConfig(cfg) && (cfg.maxModelLen.Some? ==> cfg.maxModelLen.value >= 2)
    requires SchedInv(s) && acc.waiting == s.waiting && acc.skipped == s.skipped && (acc.waiting != [] || acc.skipped != [])
    requires acc.slots.Some? && acc.slots.value.free == [] && acc.budget == cfg.maxBatchedTokens && acc.partialPrefills == 0
    requires s.running == []
    ensures Phase2Step(cfg, s.store, acc).raised
  {
    if acc.skipped != [] {
      assert acc.skipped[0] in Live(s) by { assert acc.skipped[0] in multiset(s.skipped); }
    }
    if acc.waiting != [] {
      assert acc.waiting[0] in Live(s) by { assert acc.waiting[0] in multiset(s.waiting); }
    }
    hide Live;
  }
}
