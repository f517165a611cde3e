/** When a queued abort is acted on: a step that schedules no token and finishes nobody leaves it queued. */
module QueuedAborts {
  import opened Wrappers
  import opened Requests
  import opened Sorting
  import opened StateSlots
  import opened Scheduling
  import opened SchedulingInvariants
  import opened ModelRunner
  import opened Completion
  import opened EngineStep
  import opened EngineRuns
  import opened EngineDrain

  // A prompt the length limit lets no further.
  predicate HeldUp(cfg: Config, r: Request) {
    !r.IsDecode() && cfg.maxModelLen.Some? && r.computed + 1 >= cfg.maxModelLen.value
  }

  lemma StepOfOne(cfg: Config, s: Sched, slots: Option<Slots>, acc: Phase1, id: ReqId)
    requires ValidConfig(cfg) && acc.budget > 0
    ensures var acc' := Phase1Step(cfg, s, slots, acc, id);
      if HeldUp(cfg, Req(s.store, id)) then acc' == acc else acc'.data != [] || acc'.finished != {}
  {
    var acc' := Phase1Step(cfg, s, slots, acc, id);
    if !HeldUp(cfg, Req(s.store, id)) && acc'.data == [] {
      assert id in acc'.finished;
    }
  }

  // Phase 1 does nothing exactly when everybody running is held up.
  lemma {:induction false} IdleIff(cfg: Config, s: Sched, slots: Option<Slots>, ids: seq<ReqId>, acc: Phase1)
    requires ValidConfig(cfg) && acc.budget > 0 && acc.data == [] && acc.finished == {}
    ensures var r := RunPhase1(cfg, s, slots, ids, acc);
      if forall id :: id in ids ==> HeldUp(cfg, Req(s.store, id)) then r == acc else r.data != [] || r.finished != {}
    decreases |ids|
  {
    hide Phase1Step, HeldUp;
    if ids != [] {
      var acc' := Phase1Step(cfg, s, slots, acc, ids[0]);
      StepOfOne(cfg, s, slots, acc, ids[0]);
      assert forall id :: id in ids <==> id == ids[0] || id in ids[1..];
      if HeldUp(cfg, Req(s.store, ids[0])) {
        IdleIff(cfg, s, slots, ids[1..], acc);
      } else {
        Phase1Grows(cfg, s, slots, ids[1..], acc');
      }
    }
  }

  ghost predicate AllHeldUp(cfg: Config, s: Sched) {
    forall id :: id in s.running ==> HeldUp(cfg, Req(s.store, id))
  }

  // With nobody waiting, a scheduling call does nothing at all exactly when everybody running is held up.
  lemma {:induction false} ScheduleIdleIff(cfg: Config, s: Sched, slots: Option<Slots>)
    requires ValidConfig(cfg) && s.waiting == [] && s.skipped == []
    ensures var o := Schedule(cfg, s, slots);
      if AllHeldUp(cfg, s) then o == Scheduled(s, slots, [], {}, false) else o.data != [] || o.finished != {}
  {
    hide HeldUp, RunPhase1, SortBySlot;
    var ids := SortBySlot(slots, s.running);
    SortBySlotElements(slots, s.running);
    assert forall id :: id in ids <==> id in multiset(ids);
    assert forall id :: id in s.running <==> id in multiset(s.running);
    IdleIff(cfg, s, slots, ids, StartPhase1(cfg));
  }

  // So a queued abort is acted on in the next step exactly when somebody running is not held up; otherwise
  // the step changes nothing.
  lemma {:induction false} AbortDrainedIff<S>(cfg: Config, m: Rnn<S>, e: Engine<S>, oracle: map<ReqId, nat>, captured: Option<nat>)
    requires ValidConfig(cfg) && EngineInv(cfg, m, e) && e.aborts != []
    requires e.sched.waiting == [] && e.sched.skipped == [] && e.sched.running != []
    ensures Step(cfg, m, e, oracle, captured).Some?
    ensures var e' := Step(cfg, m, e, oracle, captured).value.engine;
      && (e'.aborts == [] <==> !AllHeldUp(cfg, e.sched))
      && (AllHeldUp(cfg, e.sched) ==> e' == e)
  {
    hide EngineInv, AllHeldUp, Schedule;
    StepCorrect(cfg, m, e, oracle, captured);
    ScheduleIdleIff(cfg, e.sched, Some(e.slots));
    if AllHeldUp(cfg, e.sched) {
      IdleStep(cfg, m, e, oracle, captured);
    } else {
      hide Step;
      StepSched(cfg, m, e, oracle, captured);
      StepShape(cfg, m, e, oracle, captured);
    }
  }

  lemma IdleStep<S>(cfg: Config, m: Rnn<S>, e: Engine<S>, oracle: map<ReqId, nat>, captured: Option<nat>)
    requires Schedule(cfg, e.sched, Some(e.slots)) == Scheduled(e.sched, Some(e.slots), [], {}, false)
    ensures Step(cfg, m, e, oracle, captured) == Some(Stepped(e, map[], false))
  {
    hide Schedule, Settle, Execute, HasRequests;
  }

  // A prompt that is held up and alone stays, with its abort in the queue, through every number of steps.
  lemma {:induction false} HeldUpForever<S>(cfg: Config, m: Rnn<S>, e: Engine<S>, inputs: seq<(map<ReqId, nat>, Option<nat>)>)
    requires ValidConfig(cfg) && e.sched.waiting == [] && e.sched.skipped == [] && AllHeldUp(cfg, e.sched)
    ensures Steps(cfg, m, e, inputs) == Some(e)
    decreases |inputs|
  {
    hide AllHeldUp, Schedule, Step;
    if inputs != [] {
      ScheduleIdleIff(cfg, e.sched, Some(e.slots));
      IdleStep(cfg, m, e, inputs[0].0, inputs[0].1);
      HeldUpForever(cfg, m, e, inputs[1..]);
    }
  }
}
