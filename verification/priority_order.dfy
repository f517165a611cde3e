/** Under the priority policy both waiting queues stay in priority order. */
module PriorityOrder {
  import opened Wrappers
  import opened Requests
  import opened StateSlots
  import opened Scheduling
  import opened SchedulingInvariants
  import Queue = RequestQueue

  ghost predicate QueuesOrdered(store: Store, acc: Phase2) {
    Queue.Ordered(store, acc.waiting) && Queue.Ordered(store, acc.skipped) && Queue.Ordered(store, acc.held)
  }

  lemma TailOrdered(store: Store, q: seq<ReqId>)
    requires Queue.Ordered(store, q) && q != []
    ensures Queue.Ordered(store, q[1..])
  {
  }

  lemma StepKeepsOrdered(cfg: Config, store: Store, acc: Phase2)
    requires cfg.policy == Priority && QueuesOrdered(store, acc)
    ensures QueuesOrdered(store, Phase2Step(cfg, store, acc))
  {
    hide Queue.Ordered, Queue.Push, NumNew, AllocateFor, MakeRun, CoversPrompt, LimitReached, HeadFits, Req;
    if acc.skipped != [] {
      TailOrdered(store, acc.skipped);
      Queue.PushOrdered(store, acc.held, acc.skipped[0]);
      if acc.waiting != [] {
        Queue.PushOrdered(store, Queue.Push(store, acc.held, acc.skipped[0]), acc.waiting[0]);
      }
    }
    if acc.waiting != [] {
      TailOrdered(store, acc.waiting);
      Queue.PushOrdered(store, acc.held, acc.waiting[0]);
    }
  }

  lemma {:induction false} LoopKeepsOrdered(cfg: Config, store: Store, acc: Phase2)
    requires cfg.policy == Priority && QueuesOrdered(store, acc)
    ensures QueuesOrdered(store, RunPhase2(cfg, store, acc))
    decreases |acc.waiting| + |acc.skipped|
  {
    hide Phase2Step, QueuesOrdered;
    if Admitting(cfg, acc) {
      StepKeepsOrdered(cfg, store, acc);
      StepTakes(cfg, store, acc);
      LoopKeepsOrdered(cfg, store, Phase2Step(cfg, store, acc));
    }
  }

  lemma StepTakes(cfg: Config, store: Store, acc: Phase2)
    requires Admitting(cfg, acc)
    ensures var next := Phase2Step(cfg, store, acc); |next.waiting| + |next.skipped| < |acc.waiting| + |acc.skipped|
  {
    hide Queue.Prepend, NumNew, AllocateFor, MakeRun, CoversPrompt, LimitReached, HeadFits;
  }

  // Scheduling changes counters only, which the order does not look at.
  lemma {:induction false} AdvanceKeepsBefore(store: Store, runningMap: set<ReqId>, data: seq<RunData>, a: ReqId, b: ReqId)
    ensures Queue.Before(Advance(store, runningMap, data), a, b) <==> Queue.Before(store, a, b)
  {
    if data != [] {
      AdvanceKeepsBefore(store, runningMap, data[..|data| - 1], a, b);
    }
  }

  lemma SameOrder(store: Store, store': Store, q: seq<ReqId>)
    requires Queue.Ordered(store, q) && forall a, b :: Queue.Before(store', a, b) <==> Queue.Before(store, a, b)
    ensures Queue.Ordered(store', q)
  {
    hide Queue.Before;
  }

  // A scheduling call takes the most urgent request of a queue and leaves both queues in order.
  lemma {:induction false} PriorityKept(cfg: Config, s: Sched, slots: Option<Slots>)
    requires cfg.policy == Priority && Queue.ByPriority(s.store, s.waiting) && Queue.ByPriority(s.store, s.skipped)
    ensures var s' := Schedule(cfg, s, slots).sched; Queue.ByPriority(s'.store, s'.waiting) && Queue.ByPriority(s'.store, s'.skipped)
  {
    hide Queue.Ordered, Queue.ByPriority, RunPhase1, RunPhase2, Advance;
    var p1 := RunPhase1(cfg, s, slots, SortBySlot(slots, s.running), StartPhase1(cfg));
    var start := StartPhase2(cfg, s, slots, p1);
    Queue.OrderedIff(s.store, s.waiting);
    Queue.OrderedIff(s.store, s.skipped);
    NoneOrdered(s.store);
    LoopKeepsOrdered(cfg, s.store, start);
    var p2 := RunPhase2(cfg, s.store, start);
    Queue.PrependAllOrdered(s.store, p2.skipped, p2.held);
    var store' := Advance(s.store, p2.runningMap, p2.data);
    forall a, b
      ensures Queue.Before(store', a, b) <==> Queue.Before(s.store, a, b)
    {
      AdvanceKeepsBefore(s.store, p2.runningMap, p2.data, a, b);
    }
    SameOrder(s.store, store', p2.waiting);
    SameOrder(s.store, store', Queue.PrependAll(Priority, s.store, p2.skipped, p2.held));
    Queue.OrderedIff(store', p2.waiting);
    Queue.OrderedIff(store', Queue.PrependAll(Priority, s.store, p2.skipped, p2.held));
  }

  lemma NoneOrdered(store: Store)
    ensures Queue.Ordered(store, [])
  {
  }
}
