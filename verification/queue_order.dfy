/** First come, first served: a scheduling call never reorders requests that stay queued. */
module QueueOrder {
  import opened Wrappers
  import opened Requests
  import opened StateSlots
  import opened Scheduling
  import opened SchedulingInvariants
  import opened Completion
  import Queue = RequestQueue

  // The elements of q that are in keep, in the order of q.
  function Only(q: seq<ReqId>, keep: set<ReqId>): seq<ReqId> {
    if q == [] then [] else if q[0] in keep then [q[0]] + Only(q[1..], keep) else Only(q[1..], keep)
  }

  lemma {:induction false} OnlyConcat(a: seq<ReqId>, b: seq<ReqId>, keep: set<ReqId>)
    ensures Only(a + b, keep) == Only(a, keep) + Only(b, keep)
  {
    if a == [] {
      assert a + b == b;
    } else {
      OnlyConcat(a[1..], b, keep);
      assert (a + b)[1..] == a[1..] + b;
    }
  }

  lemma {:induction false} OnlyNone(q: seq<ReqId>, keep: set<ReqId>)
    requires forall id :: id in q ==> id !in keep
    ensures Only(q, keep) == []
  {
    if q != [] {
      OnlyNone(q[1..], keep);
    }
  }

  // The order in which queued requests will be looked at, during the loop and after it.
  function Order(acc: Phase2): seq<ReqId> {
    Queue.Reverse(acc.held) + acc.skipped + acc.waiting
  }

  // The kept requests all come from one queue, so the other queue has none of them.
  predicate OneSource(acc: Phase2, keep: set<ReqId>) {
    (forall id :: id in acc.skipped ==> id !in keep) || (forall id :: id in acc.waiting ==> id !in keep)
  }

  function PopSkip(acc: Phase2): Phase2
    requires acc.skipped != []
  {
    acc.(skipped := acc.skipped[1..])
  }

  function PopWait(acc: Phase2): Phase2
    requires acc.waiting != []
  {
    acc.(waiting := acc.waiting[1..])
  }

  lemma HoldSkipped(cfg: Config, store: Store, acc: Phase2)
    requires cfg.policy == Fcfs && acc.skipped != []
    ensures Order(Hold(cfg, store, PopSkip(acc), acc.skipped[0])) == Order(acc)
  {
    assert ([acc.skipped[0]] + acc.held)[1..] == acc.held;
    assert acc.skipped == [acc.skipped[0]] + acc.skipped[1..];
  }

  // Moving w past requests that are not kept, or moving a w that is not kept, changes nothing.
  lemma MoveAcross(w: ReqId, middle: seq<ReqId>, keep: set<ReqId>)
    requires w !in keep || forall id :: id in middle ==> id !in keep
    ensures Only([w] + middle, keep) == Only(middle + [w], keep)
  {
    OnlyConcat([w], middle, keep);
    OnlyConcat(middle, [w], keep);
    if w in keep {
      OnlyNone(middle, keep);
    } else {
      OnlyNone([w], keep);
    }
  }

  lemma OnlyBetween(h: seq<ReqId>, a: seq<ReqId>, b: seq<ReqId>, rest: seq<ReqId>, keep: set<ReqId>)
    requires Only(a, keep) == Only(b, keep)
    ensures Only(h + a + rest, keep) == Only(h + b + rest, keep)
  {
    OnlyConcat(h + a, rest, keep);
    OnlyConcat(h, a, keep);
    OnlyConcat(h + b, rest, keep);
    OnlyConcat(h, b, keep);
  }

  lemma HoldWaiting(cfg: Config, store: Store, acc: Phase2, keep: set<ReqId>)
    requires cfg.policy == Fcfs && acc.waiting != [] && OneSource(acc, keep)
    ensures Only(Order(Hold(cfg, store, PopWait(acc), acc.waiting[0])), keep) == Only(Order(acc), keep)
  {
    hide Only;
    var h, w, rest := Queue.Reverse(acc.held), acc.waiting[0], acc.waiting[1..];
    assert w in acc.waiting;
    MoveAcross(w, acc.skipped, keep);
    OnlyBetween(h, [w] + acc.skipped, acc.skipped + [w], rest, keep);
    hide OneSource;
    assert ([w] + acc.held)[1..] == acc.held;
    assert Order(Hold(cfg, store, PopWait(acc), w)) == h + ([w] + acc.skipped) + rest;
    assert acc.waiting == [w] + rest;
    assert Order(acc) == h + (acc.skipped + [w]) + rest;
  }

  lemma DropSkipped(acc: Phase2, keep: set<ReqId>)
    requires acc.skipped != [] && acc.skipped[0] !in keep
    ensures Only(Order(PopSkip(acc)), keep) == Only(Order(acc), keep)
  {
    var h := Queue.Reverse(acc.held);
    OnlyConcat(h + acc.skipped, acc.waiting, keep);
    OnlyConcat(h, acc.skipped, keep);
    OnlyConcat(h + acc.skipped[1..], acc.waiting, keep);
    OnlyConcat(h, acc.skipped[1..], keep);
  }

  lemma DropWaiting(acc: Phase2, keep: set<ReqId>)
    requires acc.waiting != [] && acc.waiting[0] !in keep
    ensures Only(Order(PopWait(acc)), keep) == Only(Order(acc), keep)
  {
    var h := Queue.Reverse(acc.held);
    OnlyConcat(h + acc.skipped, acc.waiting, keep);
    OnlyConcat(h + acc.skipped, acc.waiting[1..], keep);
  }

  // Admitting either holds the request, or enters it, or raises.
  lemma AdmitCases(cfg: Config, store: Store, acc: Phase2, id: ReqId)
    ensures var a := Admit(cfg, store, acc, id);
      || a == Hold(cfg, store, acc, id)
      || a.raised
      || (id in a.runningMap && a.held == acc.held && a.skipped == acc.skipped && a.waiting == acc.waiting)
    ensures var a := Admit(cfg, store, acc, id); a.skipped == acc.skipped && a.waiting == acc.waiting && acc.runningMap <= a.runningMap
  {
  }

  lemma StepKeepsOrder(cfg: Config, store: Store, acc: Phase2, keep: set<ReqId>)
    requires cfg.policy == Fcfs && OneSource(acc, keep) && Admitting(cfg, acc)
    requires keep !! Phase2Step(cfg, store, acc).runningMap && !Phase2Step(cfg, store, acc).raised
    ensures Only(Order(Phase2Step(cfg, store, acc)), keep) == Only(Order(acc), keep)
    ensures OneSource(Phase2Step(cfg, store, acc), keep)
  {
    hide Admit, Only;
    if Selectable(cfg, store, acc.skipped, acc.partialPrefills) {
      AdmitCases(cfg, store, PopSkip(acc), acc.skipped[0]);
      HoldSkipped(cfg, store, acc);
      if acc.skipped[0] !in keep { DropSkipped(acc, keep); }
    } else if Selectable(cfg, store, acc.waiting, acc.partialPrefills) {
      AdmitCases(cfg, store, PopWait(acc), acc.waiting[0]);
      HoldWaiting(cfg, store, acc, keep);
      if acc.waiting[0] !in keep { DropWaiting(acc, keep); }
    } else {
      HeadsKeepOrder(cfg, store, acc, keep);
    }
  }

  lemma HeadsKeepOrder(cfg: Config, store: Store, acc: Phase2, keep: set<ReqId>)
    requires cfg.policy == Fcfs && OneSource(acc, keep)
    ensures Only(Order(HoldHeads(cfg, store, acc)), keep) == Only(Order(acc), keep)
    ensures OneSource(HoldHeads(cfg, store, acc), keep)
  {
    hide Only, Queue.Reverse;
    var a := acc;
    if acc.skipped != [] {
      HoldSkipped(cfg, store, acc);
      a := Hold(cfg, store, PopSkip(acc), acc.skipped[0]);
    }
    assert OneSource(a, keep);
    if a.waiting != [] {
      HoldWaiting(cfg, store, a, keep);
    }
  }

  lemma StepGrowsRunning(cfg: Config, store: Store, acc: Phase2)
    ensures acc.runningMap <= Phase2Step(cfg, store, acc).runningMap
    ensures acc.raised ==> Phase2Step(cfg, store, acc).raised
    ensures Admitting(cfg, acc) ==>
      |Phase2Step(cfg, store, acc).waiting| + |Phase2Step(cfg, store, acc).skipped| < |acc.waiting| + |acc.skipped|
  {
    hide Queue.Prepend, NumNew, AllocateFor, MakeRun, CoversPrompt, LimitReached, HeadFits;
  }

  lemma {:induction false} LoopGrowsRunning(cfg: Config, store: Store, acc: Phase2)
    ensures acc.runningMap <= RunPhase2(cfg, store, acc).runningMap
    ensures acc.raised ==> RunPhase2(cfg, store, acc).raised
    decreases |acc.waiting| + |acc.skipped|
  {
    hide Phase2Step;
    if Admitting(cfg, acc) {
      StepGrowsRunning(cfg, store, acc);
      LoopGrowsRunning(cfg, store, Phase2Step(cfg, store, acc));
    }
  }

  lemma {:induction false} LoopKeepsOrder(cfg: Config, store: Store, acc: Phase2, keep: set<ReqId>)
    requires cfg.policy == Fcfs && OneSource(acc, keep)
    requires keep !! RunPhase2(cfg, store, acc).runningMap && !RunPhase2(cfg, store, acc).raised
    ensures Only(Order(RunPhase2(cfg, store, acc)), keep) == Only(Order(acc), keep)
    decreases |acc.waiting| + |acc.skipped|
  {
    hide Phase2Step, Only, OneSource, Order;
    if Admitting(cfg, acc) {
      StepGrowsRunning(cfg, store, acc);
      LoopGrowsRunning(cfg, store, Phase2Step(cfg, store, acc));
      StepKeepsOrder(cfg, store, acc, keep);
      LoopKeepsOrder(cfg, store, Phase2Step(cfg, store, acc), keep);
    }
  }

  // Requests of one queue that a scheduling call leaves queued come out in their old order,
  // through both reversals of the skipped queue.
  lemma FcfsOrderKept(cfg: Config, s: Sched, slots: Option<Slots>, q: seq<ReqId>, keep: set<ReqId>)
    requires ValidConfig(cfg) && cfg.policy == Fcfs && SchedulerInv(cfg, s, slots)
    requires q == s.waiting || q == s.skipped
    requires forall id :: id in keep ==> id in q
    requires keep !! Schedule(cfg, s, slots).sched.runningMap
    ensures var s' := Schedule(cfg, s, slots).sched; Only(s'.skipped + s'.waiting, keep) == Only(q, keep)
  {
    ScheduleCorrect(cfg, s, slots);
    NotRaised(cfg, s, slots);
    OtherQueueHasNone(cfg, s, slots, q, keep);
    hide StateOk, WorkOk, RunPhase1, RunPhase2, SchedulerInv, Only, Queue.Reverse, Order;
    var p1 := RunPhase1(cfg, s, slots, SortBySlot(slots, s.running), StartPhase1(cfg));
    var start := StartPhase2(cfg, s, slots, p1);
    LoopKeepsOrder(cfg, s.store, start, keep);
    var p2 := RunPhase2(cfg, s.store, start);
    OrderAfter(cfg, s, p1, p2);
    OrderBefore(cfg, s, slots, p1, q, keep);
  }

  lemma OrderAfter(cfg: Config, s: Sched, p1: Phase1, p2: Phase2)
    requires cfg.policy == Fcfs
    ensures var s' := FinishSchedule(cfg, s, p1, p2).sched; s'.skipped + s'.waiting == Order(p2)
  {
    Queue.PrependAllReverses(s.store, p2.skipped, p2.held);
  }

  lemma OrderBefore(cfg: Config, s: Sched, slots: Option<Slots>, p1: Phase1, q: seq<ReqId>, keep: set<ReqId>)
    requires q == s.waiting || q == s.skipped
    requires q == s.waiting ==> forall id :: id in s.skipped ==> id !in keep
    requires q == s.skipped ==> forall id :: id in s.waiting ==> id !in keep
    ensures Only(Order(StartPhase2(cfg, s, slots, p1)), keep) == Only(q, keep)
  {
    hide Only;
    assert Order(StartPhase2(cfg, s, slots, p1)) == s.skipped + s.waiting;
    OnlyConcat(s.skipped, s.waiting, keep);
    if q == s.waiting { OnlyNone(s.skipped, keep); } else { OnlyNone(s.waiting, keep); }
  }

  lemma NotRaised(cfg: Config, s: Sched, slots: Option<Slots>)
    requires StateOk(cfg, s, slots, Schedule(cfg, s, slots))
    ensures !Schedule(cfg, s, slots).raised
  {
    hide Schedule;
  }

  lemma OtherQueueHasNone(cfg: Config, s: Sched, slots: Option<Slots>, q: seq<ReqId>, keep: set<ReqId>)
    requires SchedulerInv(cfg, s, slots) && (q == s.waiting || q == s.skipped)
    requires forall id :: id in keep ==> id in q
    ensures q == s.waiting ==> forall id :: id in s.skipped ==> id !in keep
    ensures q == s.skipped ==> forall id :: id in s.waiting ==> id !in keep
  {
    forall id | id in s.skipped ensures id !in s.waiting {
      assert id in multiset(s.skipped) && (id in s.waiting ==> id in multiset(s.waiting));
      assert Live(s)[id] >= multiset(s.skipped)[id] + multiset(s.waiting)[id];
    }
  }

  // ---------------------------------------------------------------- requests that leave

  lemma {:induction false} OnlyOfDrop(q: seq<ReqId>, ids: set<ReqId>, keep: set<ReqId>)
    requires keep !! ids
    ensures Only(Drop(q, ids), keep) == Only(q, keep)
  {
    if q != [] {
      var n := |q| - 1;
      OnlyOfDrop(q[..n], ids, keep);
      OnlyConcat(q[..n], [q[n]], keep);
      OnlyConcat(Drop(q[..n], ids), [q[n]], keep);
      assert q == q[..n] + [q[n]] && [q[n]][1..] == [];
    }
  }

  // An abort moves nobody who stays: in every list they keep their order.
  lemma {:induction false} AbortKeepsOrder(s: Sched, ids: set<ReqId>, keep: set<ReqId>)
    requires keep !! ids
    ensures var s' := AbortSet(s, ids);
      && Only(s'.waiting, keep) == Only(s.waiting, keep)
      && Only(s'.skipped, keep) == Only(s.skipped, keep)
      && Only(s'.running, keep) == Only(s.running, keep)
  {
    hide Only, Drop;
    OnlyOfDrop(s.waiting, ids - s.runningMap, keep);
    OnlyOfDrop(s.skipped, ids - s.runningMap, keep);
    OnlyOfDrop(s.running, ids * s.runningMap, keep);
  }

  // Nor does recording a batch: the running requests that go on keep their order, the queues are as they were.
  lemma {:induction false} UpdateKeepsOrder(
      s: Sched, slots: Option<Slots>, data: seq<RunData>, finished: set<ReqId>, sampled: map<ReqId, Token>, keep: set<ReqId>)
    requires keep <= Update(s, slots, data, finished, sampled).sched.runningMap
    ensures var s' := Update(s, slots, data, finished, sampled).sched;
      Only(s'.running, keep) == Only(s.running, keep) && s'.waiting == s.waiting && s'.skipped == s.skipped
  {
    hide Only, Drop, Finishing;
    OnlyOfDrop(s.running, Finishing(s, data, finished, sampled), keep);
  }
}
