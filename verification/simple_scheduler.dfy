/** The scheduler object: its fields and the loops that update them. */
module SimpleScheduling {
  import opened Wrappers
  import opened Requests
  import opened Sorting
  import opened StateSlots
  import opened Scheduling
  import opened SchedulingInvariants
  import opened Completion
  import Queue = RequestQueue

  class SimpleScheduler {
    const config: Config
    const slotManager: StateSlotManager?
    var requests: Store
    var waiting: seq<ReqId>
    var skippedWaiting: seq<ReqId>
    var running: seq<ReqId>
    var runningMap: set<ReqId>
    var runningOutputTokens: map<ReqId, seq<Token>>

    constructor (config: Config, slotManager: StateSlotManager?)
      ensures this.config == config && this.slotManager == slotManager
      ensures View() == Sched(map[], [], [], [], {}, map[])
    {
      this.config := config;
      this.slotManager := slotManager;
      requests := map[];
      waiting, skippedWaiting, running := [], [], [];
      runningMap, runningOutputTokens := {}, map[];
    }

    function View(): Sched
      reads this
    {
      Sched(requests, waiting, skippedWaiting, running, runningMap, runningOutputTokens)
    }

    function SlotView(): Option<Slots>
      reads slotManager
    {
      if slotManager == null then None else Some(slotManager.View())
    }

    // A request object enters the waiting queue.
    method AddRequest(id: ReqId, request: Request)
      modifies this
      ensures requests == old(requests)[id := request]
      ensures waiting == Queue.Add(config.policy, requests, old(waiting), id)
      ensures View() == old(View()).(store := requests, waiting := waiting)
      ensures multiset(waiting) == multiset(old(waiting)) + multiset{id}
      ensures exists k :: Queue.PlacedAt(config.policy, requests, old(waiting), id, waiting, k)
      ensures forall other :: other in old(requests) && other != id ==> other in requests && requests[other] == old(requests)[other]
      ensures config.policy == Priority && Queue.Ordered(requests, old(waiting)) ==> Queue.Ordered(requests, waiting)
    {
      requests := requests[id := request];
      ghost var k := Queue.AddPlaces(config.policy, requests, waiting, id);
      Queue.AddElements(config.policy, requests, waiting, id);
      waiting := Queue.Add(config.policy, requests, waiting, id);
    }

    function HasRequests(): bool
      reads this
    {
      waiting != [] || skippedWaiting != [] || running != []
    }

    // Phase 1: the running requests in the order of their slots.
    method ScheduleRunning() returns (data: seq<RunData>, finished: set<ReqId>, budget: int)
      ensures Phase1(data, finished, budget)
           == RunPhase1(config, View(), SlotView(), SortBySlot(SlotView(), running), StartPhase1(config))
    {
      hide SortBySlot;
      var sorted := SortBySlot(SlotView(), running);
      data, finished, budget := [], {}, config.maxBatchedTokens;
      ghost var s, slots := View(), SlotView();
      for i := 0 to |sorted|
        invariant RunPhase1(config, s, slots, sorted[i..], Phase1(data, finished, budget))
               == RunPhase1(config, s, slots, sorted, StartPhase1(config))
      {
        ghost var acc := Phase1(data, finished, budget);
        var id := sorted[i];
        assert sorted[i..][1..] == sorted[i + 1..];
        var r := Req(requests, id);
        var n := NewTokens(r, budget);
        if n <= 0 {
          if r.IsDecode() {
            finished := finished + {id};
          }
        } else if ShouldFinish(r, Out(runningOutputTokens, id)) {
          finished := finished + {id};
        } else if CoversPrompt(r, n) && config.maxModelLen.Some? && |r.prompt| + 1 >= config.maxModelLen.value {
          finished := finished + {id};
        } else {
          data := data + [MakeRun(r, id, n, SlotOf(SlotView(), id))];
          budget := budget - n;
        }
        assert Phase1(data, finished, budget) == Phase1Step(config, s, slots, acc, id);
      }
      assert sorted[|sorted|..] == [];
    }

    // min(num_new, threshold, budget, max_model_len - 1 - computed)
    method NewTokens(r: Request, budget: int) returns (n: int)
      ensures n == NumNew(config, r, budget)
    {
      n := if r.IsDecode() then 1 else |r.prompt| - r.computed;
      n := Min(n, config.chunkThreshold);
      n := Min(n, budget);
      if config.maxModelLen.Some? {
        n := Min(n, config.maxModelLen.value - 1 - r.computed);
      }
    }

    // The admission loop's variables.
    ghost function Acc(held: seq<ReqId>, data: seq<RunData>, budget: int, partial: int, raised: bool): Phase2
      reads this, slotManager
    {
      Phase2(waiting, skippedWaiting, held, running, runningMap, runningOutputTokens, SlotView(), data, budget, partial, raised)
    }

    // Whether the head of a queue may be taken, as far as the partial-prefill limits go.
    method HeadMayEnter(queue: seq<ReqId>, partial: int) returns (ok: bool)
      ensures ok == Selectable(config, requests, queue, partial)
    {
      if queue == [] {
        return false;
      }
      var head := Req(requests, queue[0]);
      var remaining := if head.IsDecode() then 0 else |head.prompt| - head.computed;
      if head.IsDecode() || remaining <= config.chunkThreshold {
        return true;
      }
      var limit := if 0 < config.chunkThreshold < remaining then config.maxLongPartialPrefills else config.maxPartialPrefills;
      ok := limit <= 0 || partial < limit;
    }

    // Takes the head of each queue that has one; neither may enter.
    method MoveHeads(held0: seq<ReqId>) returns (held: seq<ReqId>, moved: bool)
      modifies `waiting, `skippedWaiting
      ensures moved <==> old(waiting) != [] || old(skippedWaiting) != []
      ensures moved ==> |waiting| + |skippedWaiting| < |old(waiting)| + |old(skippedWaiting)|
      ensures forall data, budget, partial ::
        Acc(held, data, budget, partial, false) == HoldHeads(config, requests, old(Acc(held0, data, budget, partial, false)))
    {
      held, moved := held0, false;
      if skippedWaiting != [] {
        var head := skippedWaiting[0];
        skippedWaiting := skippedWaiting[1..];
        held := Queue.Prepend(config.policy, requests, held, head);
        moved := true;
      }
      if waiting != [] {
        var head := waiting[0];
        waiting := waiting[1..];
        held := Queue.Prepend(config.policy, requests, held, head);
        moved := true;
      }
    }

    // Phase 2: admit waiting requests while budget, room and limits allow. `raised` is the error of an
    // exhausted slot pool.
    method ScheduleWaiting(data0: seq<RunData>, budget0: int)
      returns (held: seq<ReqId>, data: seq<RunData>, budget: int, partial: int, raised: bool)
      modifies this, slotManager
      ensures Acc(held, data, budget, partial, raised) == RunPhase2(config, old(requests),
                old(Acc([], data0, budget0, CountLong(config, requests, running), false)))
      ensures requests == old(requests)
    {
      hide Admit, HoldHeads, CountLong, HeadFits;
      held, data, budget, raised := [], data0, budget0, false;
      partial := CountPartial();
      while (waiting != [] || skippedWaiting != []) && budget > 0 && |running| < config.maxNumSeqs
        invariant !raised && requests == old(requests)
        invariant RunPhase2(config, requests, Acc(held, data, budget, partial, false))
               == RunPhase2(config, requests, old(Acc([], data0, budget0, CountLong(config, requests, running), false)))
        decreases |waiting| + |skippedWaiting|
      {
        ghost var before := Acc(held, data, budget, partial, false);
        var id;
        var fromSkipped := HeadMayEnter(skippedWaiting, partial);
        var fromWaiting := HeadMayEnter(waiting, partial);
        if fromSkipped {
          id := skippedWaiting[0];
          skippedWaiting := skippedWaiting[1..];
        } else if fromWaiting {
          id := waiting[0];
          waiting := waiting[1..];
        } else {
          var moved;
          held, moved := MoveHeads(held);
          assert Acc(held, data, budget, partial, false) == Phase2Step(config, requests, before);
          if !moved {
            break;
          }
          continue;
        }
        held, data, budget, partial, raised := Enter(id, held, data, budget, partial);
        assert Acc(held, data, budget, partial, raised) == Phase2Step(config, requests, before);
        if raised {
          return;
        }
      }
    }

    // The popped request is put aside or becomes a running one.
    method Enter(id: ReqId, held0: seq<ReqId>, data0: seq<RunData>, budget0: int, partial0: int)
      returns (held: seq<ReqId>, data: seq<RunData>, budget: int, partial: int, raised: bool)
      modifies `running, `runningMap, `runningOutputTokens, slotManager
      ensures Acc(held, data, budget, partial, raised) == Admit(config, requests, old(Acc(held0, data0, budget0, partial0, false)), id)
    {
      held, data, budget, partial, raised := held0, data0, budget0, partial0, false;
      var r := Req(requests, id);
      var n := NewTokens(r, budget);
      if n <= 0 {
        held := Queue.Prepend(config.policy, requests, held, id);
        return;
      }
      var isPartial := !r.IsDecode() && !CoversPrompt(r, n);
      if isPartial && LimitReached(config, r, partial) {
        held := Queue.Prepend(config.policy, requests, held, id);
        return;
      }
      if slotManager != null {
        var slot := slotManager.AllocateSlot(id);
        if slot.None? {
          raised := true;
          return;
        }
      }
      runningOutputTokens := runningOutputTokens[id := []];
      running := running + [id];
      runningMap := runningMap + {id};
      if isPartial {
        partial := partial + 1;
      }
      data := data + [MakeRun(r, id, n, SlotOf(SlotView(), id))];
      budget := budget - n;
    }

    method CountPartial() returns (n: nat)
      ensures n == CountLong(config, requests, running)
    {
      n := 0;
      for i := 0 to |running|
        invariant n == CountLong(config, requests, running[..i])
      {
        assert running[..i + 1][..i] == running[..i];
        var r := Req(requests, running[i]);
        if r.computed < |r.prompt| && |r.prompt| - r.computed > config.chunkThreshold {
          n := n + 1;
        }
      }
      assert running[..|running|] == running;
    }

    // num_computed_tokens += n for every scheduled request that is still running.
    method AdvanceComputed(data: seq<RunData>)
      modifies `requests
      ensures requests == Advance(old(requests), runningMap, data)
    {
      for i := 0 to |data|
        invariant requests == Advance(old(requests), runningMap, data[..i])
      {
        assert data[..i + 1][..i] == data[..i];
        var d := data[i];
        if d.id in runningMap && d.id in requests {
          requests := requests[d.id := requests[d.id].(computed := requests[d.id].computed + d.numTokens)];
        }
      }
      assert data[..|data|] == data;
    }

    // schedule(); with `raised` the scheduler is left where the failing allocation stopped it: those
    // admitted so far run, the popped request and the requests put aside are in no list, and nothing has
    // been counted as computed.
    method ScheduleBatch() returns (data: seq<RunData>, finished: set<ReqId>, raised: bool)
      modifies this, slotManager
      ensures var o := Schedule(config, old(View()), old(SlotView()));
        && raised == o.raised
        && (!raised ==> View() == o.sched && SlotView() == o.slots && data == o.data && finished == o.finished)
      ensures raised ==>
        var s := old(View());
        var p1 := RunPhase1(config, s, old(SlotView()), SortBySlot(old(SlotView()), s.running), StartPhase1(config));
        var p2 := RunPhase2(config, s.store, StartPhase2(config, s, old(SlotView()), p1));
        && View() == Sched(s.store, p2.waiting, p2.skipped, p2.running, p2.runningMap, p2.outputs)
        && SlotView() == p2.slots && data == p2.data && finished == p1.finished
    {
      hide SortBySlot, RunPhase1, RunPhase2, Advance, CountLong;
      var budget;
      data, finished, budget := ScheduleRunning();
      var held, partial;
      held, data, budget, partial, raised := ScheduleWaiting(data, budget);
      if raised {
        return;
      }
      if held != [] {
        skippedWaiting := Queue.PrependAll(config.policy, requests, skippedWaiting, held);
      }
      AdvanceComputed(data);
    }

    // finish_requests with a set of ids, in whatever order the set is walked.
    method FinishRequests(ids: set<ReqId>) returns (finished: set<ReqId>)
      requires SchedInv(View())
      modifies this
      ensures View() == AbortSet(old(View()), ids) && finished == Known(old(View()), ids)
      ensures SchedInv(View())
    {
      hide SchedInv, Drop, Live, AbortSet;
      finished := {};
      var todo := ids;
      ghost var s := View();
      AbortNone(s);
      assert ids - todo == {} && Known(s, {}) == {};
      while todo != {}
        invariant todo <= ids && SchedInv(View())
        invariant View() == AbortSet(s, ids - todo) && finished == Known(s, ids - todo)
      {
        var id :| id in todo;
        ghost var done := ids - todo;
        AbortOne(View(), id);
        AbortMore(s, done, id);
        KnownMore(s, done, id);
        AbortKeepsInv(View(), {id});
        if id in runningMap {
          running := Queue.Remove(running, id);
          runningMap := runningMap - {id};
          runningOutputTokens := runningOutputTokens - {id};
          finished := finished + {id};
        } else if id in waiting {
          waiting := Queue.Remove(waiting, id);
          finished := finished + {id};
        } else if id in skippedWaiting {
          skippedWaiting := Queue.Remove(skippedWaiting, id);
          finished := finished + {id};
        }
        todo := todo - {id};
        assert ids - todo == done + {id};
      }
      assert ids - todo == ids;
    }

    // finish_requests(None): every list is emptied, from the end or from the front.
    method FinishAll() returns (finished: seq<ReqId>)
      requires SchedInv(View())
      modifies this
      ensures View() == old(View()).(waiting := [], skipped := [], running := [], runningMap := {}, outputs := map[])
      ensures multiset(finished) == Live(old(View()))
    {
      hide SchedInv;
      RunningOnce(View());
      finished := FinishRunning();
      var popped := PopAll(waiting);
      waiting := [];
      finished := finished + popped;
      popped := PopAll(skippedWaiting);
      skippedWaiting := [];
      finished := finished + popped;
    }

    // Pops a queue until it is empty.
    method PopAll(queue: seq<ReqId>) returns (popped: seq<ReqId>)
      ensures popped == queue
    {
      popped := [];
      var rest := queue;
      while rest != []
        invariant popped + rest == queue
        decreases |rest|
      {
        popped := popped + [rest[0]];
        rest := rest[1..];
      }
    }

    method FinishRunning() returns (finished: seq<ReqId>)
      requires Once(multiset(running))
      requires (forall id :: id in runningMap <==> id in multiset(running)) && runningOutputTokens.Keys == runningMap
      modifies `running, `runningMap, `runningOutputTokens
      ensures running == [] && runningMap == {} && runningOutputTokens == map[]
      ensures multiset(finished) == multiset(old(running))
    {
      finished := [];
      while running != []
        invariant multiset(finished) + multiset(running) == multiset(old(running))
        invariant (forall id :: id in runningMap <==> id in multiset(running)) && runningOutputTokens.Keys == runningMap
        invariant Once(multiset(running))
        decreases |running|
      {
        var id := running[|running| - 1];
        assert running == running[..|running| - 1] + [id];
        assert multiset(running)[id] == multiset(running[..|running| - 1])[id] + 1;
        running := running[..|running| - 1];
        runningMap := runningMap - {id};
        runningOutputTokens := runningOutputTokens - {id};
        finished := finished + [id];
      }
      assert runningMap == {};
      assert runningOutputTokens == map[];
    }

    // The first loop of update_from_output: tokens are recorded and stop conditions looked for.
    method RecordTokens(data: seq<RunData>, finished: set<ReqId>, sampled: map<ReqId, Token>) returns (ended: set<ReqId>)
      modifies `runningOutputTokens
      ensures runningOutputTokens == Record(old(runningOutputTokens), data, sampled)
      ensures ended == finished + Stopped(old(View()), data, sampled)
    {
      ended := finished;
      for i := 0 to |data|
        invariant runningOutputTokens == Record(old(runningOutputTokens), data[..i], sampled)
        invariant runningOutputTokens.Keys == old(runningOutputTokens).Keys
        invariant ended == finished + Stopped(old(View()), data[..i], sampled)
      {
        var id := data[i].id;
        assert data[..i + 1][..i] == data[..i];
        StoppedMore(old(View()), data[..i], data[i], sampled);
        assert data[..i + 1] == data[..i] + [data[i]];
        if id !in runningOutputTokens {
          continue;
        }
        var tokens := TokensFor(sampled, id);
        runningOutputTokens := runningOutputTokens[id := runningOutputTokens[id] + tokens];
        if id !in ended && id in runningMap {
          var p := Req(requests, id).params;
          if !p.ignoreEos && tokens != [] && p.eosTokenId == Some(tokens[0]) {
            ended := ended + {id};
          }
        }
        if id !in ended && id in runningMap {
          var p := Req(requests, id).params;
          if exists k :: 0 <= k < |tokens| && tokens[k] in p.stopTokenIds {
            ended := ended + {id};
          }
        }
      }
      assert data[..|data|] == data;
    }

    // The second loop: every request that ends leaves, its slot is noted and its last output made.
    method FinishEnded(data: seq<RunData>, ended: set<ReqId>, sampled: map<ReqId, Token>)
      returns (outs: map<ReqId, CoreOutput>, freed: seq<(ReqId, nat)>)
      modifies `running, `runningMap, `runningOutputTokens
      ensures var s := old(View());
        var done := Gone(s, ended);
        && View() == s.(running := Drop(s.running, done), runningMap := s.runningMap - done, outputs := s.outputs - done)
        && outs == Finals(s, SlotView(), data, sampled, s.outputs, done)
        && FreedIds(freed) == FreedIdsOf(SlotView(), data, done) && FreedSlots(freed) == FreedSlotsOf(SlotView(), data, done)
    {
      hide Drop, Classify, FreedSlot, FindData;
      outs, freed := map[], [];
      var todo := ended;
      ghost var s, slots := View(), SlotView();
      NoneGone(s, slots, data, sampled);
      assert ended - todo == {};
      while todo != {}
        invariant todo <= ended
        invariant View() == Without(s, Gone(s, ended - todo))
        invariant outs == Finals(s, slots, data, sampled, s.outputs, Gone(s, ended - todo))
        invariant FreedIds(freed) == FreedIdsOf(slots, data, Gone(s, ended - todo))
        invariant FreedSlots(freed) == FreedSlotsOf(slots, data, Gone(s, ended - todo))
      {
        var id :| id in todo;
        ghost var gone := Gone(s, ended - todo);
        assert ended - (todo - {id}) == ended - todo + {id};
        GoneMore(s, ended - todo, id);
        todo := todo - {id};
        assert id !in gone;
        if id !in runningOutputTokens && id !in runningMap {
          assert Gone(s, ended - todo) == gone;
          continue;
        }
        assert Gone(s, ended - todo) == gone + {id};
        OneMore(s, slots, data, sampled, gone, id);
        var p := if id in runningMap then Some(Req(requests, id).params) else None;
        var completed := Out(runningOutputTokens, id);
        runningMap := runningMap - {id};
        runningOutputTokens := runningOutputTokens - {id};
        running := Drop(running, {id});
        assert View() == Without(s, gone + {id});
        var d := FindData(data, id);
        if slotManager != null {
          var slot := FreedSlot(SlotView(), data, id);
          if slot.None? {
            continue;
          }
          FreedMore(freed, id, slot.value);
          freed := freed + [(id, slot.value)];
        }
        var (reason, stop) := Classify(p, d, completed);
        outs := outs[id := CoreOutput(TokensFor(sampled, id), Some(reason), stop)];
      }
      assert ended - todo == ended;
    }

    // The third loop: the other scheduled requests report their new tokens.
    method ReportOpen(data: seq<RunData>, sampled: map<ReqId, Token>, final: map<ReqId, CoreOutput>)
      returns (outs: map<ReqId, CoreOutput>)
      ensures outs == final + Opens(data, sampled, final.Keys, runningOutputTokens.Keys)
    {
      hide Opens, TokensFor;
      outs := final;
      OpensNone(sampled, final.Keys, runningOutputTokens.Keys);
      for i := 0 to |data|
        invariant outs == final + Opens(data[..i], sampled, final.Keys, runningOutputTokens.Keys)
      {
        var id := data[i].id;
        assert data[..i + 1] == data[..i] + [data[i]];
        OpensMore(data[..i], data[i], sampled, final.Keys, runningOutputTokens.Keys);
        if id !in outs {
          var tokens := TokensFor(sampled, id);
          if tokens == [] {
            continue;
          }
          if id !in runningOutputTokens {
            continue;
          }
          outs := outs[id := CoreOutput(tokens, None, None)];
        }
      }
      assert data[..|data|] == data;
    }

    method UpdateFromOutput(data: seq<RunData>, finished: set<ReqId>, sampled: map<ReqId, Token>)
      returns (outs: map<ReqId, CoreOutput>, freed: seq<(ReqId, nat)>)
      modifies this
      ensures var u := Update(old(View()), SlotView(), data, finished, sampled);
        View() == u.sched && outs == u.outputs && FreedIds(freed) == u.freedIds && FreedSlots(freed) == u.freedSlots
    {
      hide Drop, Classify, FreedSlot, FindData, Record, Stopped, Opens;
      ghost var s := View();
      var ended := RecordTokens(data, finished, sampled);
      ghost var recorded := runningOutputTokens;
      RecordKeys(s.outputs, data, sampled);
      var final;
      final, freed := FinishEnded(data, ended, sampled);
      outs := ReportOpen(data, sampled, final);
      assert runningOutputTokens.Keys == recorded.Keys - Gone(s.(outputs := recorded), ended);
      UpdateAgrees(s, SlotView(), data, finished, sampled);
    }
  }

  // The requests of a set that the bookkeeping still knows.
  function Gone(s: Sched, ended: set<ReqId>): set<ReqId> {
    set id | id in ended && (id in s.outputs || id in s.runningMap)
  }

  function Without(s: Sched, done: set<ReqId>): Sched {
    s.(running := Drop(s.running, done), runningMap := s.runningMap - done, outputs := s.outputs - done)
  }

  function FreedIdsOf(slots: Option<Slots>, data: seq<RunData>, done: set<ReqId>): set<ReqId> {
    set id | id in done && FreedSlot(slots, data, id).Some?
  }

  function FreedSlotsOf(slots: Option<Slots>, data: seq<RunData>, done: set<ReqId>): set<nat> {
    set id | id in done && FreedSlot(slots, data, id).Some? :: FreedSlot(slots, data, id).value
  }

  lemma NoneGone(s: Sched, slots: Option<Slots>, data: seq<RunData>, sampled: map<ReqId, Token>)
    ensures Gone(s, {}) == {} && Without(s, {}) == s && Finals(s, slots, data, sampled, s.outputs, {}) == map[]
    ensures FreedIdsOf(slots, data, {}) == {} && FreedSlotsOf(slots, data, {}) == {}
  {
    DropNone(s.running, {});
    assert s.runningMap - {} == s.runningMap && s.outputs - {} == s.outputs;
  }

  lemma GoneMore(s: Sched, ended: set<ReqId>, id: ReqId)
    ensures Gone(s, ended + {id}) == Gone(s, ended) + if id in s.outputs || id in s.runningMap then {id} else {}
  {
  }

  lemma OneMore(s: Sched, slots: Option<Slots>, data: seq<RunData>, sampled: map<ReqId, Token>, gone: set<ReqId>, id: ReqId)
    requires id !in gone
    ensures slots.None? ==> FreedSlot(slots, data, id).None?
    ensures var one := Without(s, gone);
      Without(s, gone + {id}) == one.(running := Drop(one.running, {id}), runningMap := one.runningMap - {id}, outputs := one.outputs - {id})
    ensures Finals(s, slots, data, sampled, s.outputs, gone + {id}) ==
      if Reported(slots, data, id) then Finals(s, slots, data, sampled, s.outputs, gone)[id := FinalOutput(s, data, sampled, Out(s.outputs, id), id)]
      else Finals(s, slots, data, sampled, s.outputs, gone)
    ensures FreedIdsOf(slots, data, gone + {id}) ==
      FreedIdsOf(slots, data, gone) + if FreedSlot(slots, data, id).Some? then {id} else {}
    ensures FreedSlotsOf(slots, data, gone + {id}) ==
      FreedSlotsOf(slots, data, gone) + if FreedSlot(slots, data, id).Some? then {FreedSlot(slots, data, id).value} else {}
  {
    hide Drop, FindData, FinalOutput;
    DropTwice(s.running, gone, {id});
    assert s.runningMap - gone - {id} == s.runningMap - (gone + {id});
    assert s.outputs - gone - {id} == s.outputs - (gone + {id});
  }

  lemma FreedMore(freed: seq<(ReqId, nat)>, id: ReqId, slot: nat)
    ensures FreedIds(freed + [(id, slot)]) == FreedIds(freed) + {id}
    ensures FreedSlots(freed + [(id, slot)]) == FreedSlots(freed) + {slot}
  {
    assert forall p :: p in freed + [(id, slot)] <==> p in freed || p == (id, slot);
  }

  lemma OpensNone(sampled: map<ReqId, Token>, final: set<ReqId>, known: set<ReqId>)
    ensures Opens([], sampled, final, known) == map[]
  {
  }

  lemma OpensMore(data: seq<RunData>, d: RunData, sampled: map<ReqId, Token>, final: set<ReqId>, known: set<ReqId>)
    ensures Opens(data + [d], sampled, final, known) ==
      if d.id !in final && TokensFor(sampled, d.id) != [] && d.id in known
      then Opens(data, sampled, final, known)[d.id := CoreOutput(TokensFor(sampled, d.id), None, None)]
      else Opens(data, sampled, final, known)
    ensures d.id in Opens(data, sampled, final, known) ==> Opens(data + [d], sampled, final, known) == Opens(data, sampled, final, known)
    ensures forall id :: id in Opens(data, sampled, final, known) ==> id !in final
  {
    hide TokensFor;
    assert forall e :: e in data + [d] <==> e in data || e == d;
  }

  lemma {:induction false} RecordKeys(outputs: map<ReqId, seq<Token>>, data: seq<RunData>, sampled: map<ReqId, Token>)
    ensures Record(outputs, data, sampled).Keys == outputs.Keys
  {
    if data != [] {
      RecordKeys(outputs, data[..|data| - 1], sampled);
    }
  }

  // The three loops one after the other are the update.
  lemma UpdateAgrees(s: Sched, slots: Option<Slots>, data: seq<RunData>, finished: set<ReqId>, sampled: map<ReqId, Token>)
    ensures var u := Update(s, slots, data, finished, sampled);
      var recorded := s.(outputs := Record(s.outputs, data, sampled));
      var done := Gone(recorded, finished + Stopped(s, data, sampled));
      var final := Finals(recorded, slots, data, sampled, recorded.outputs, done);
      && u.sched == Without(recorded, done)
      && u.outputs == final + Opens(data, sampled, final.Keys, recorded.outputs.Keys - done)
      && u.freedIds == FreedIdsOf(slots, data, done) && u.freedSlots == FreedSlotsOf(slots, data, done)
  {
    hide Update, Without, Finals, Opens, FreedIdsOf, FreedSlotsOf, Record, Stopped, Gone, Finishing;
    EndedAgree(s, data, finished, sampled);
    SchedAgrees(s, slots, data, finished, sampled);
    OutputsAgree(s, slots, data, finished, sampled);
    FreedAgree(s, slots, data, finished, sampled);
  }

  lemma EndedAgree(s: Sched, data: seq<RunData>, finished: set<ReqId>, sampled: map<ReqId, Token>)
    ensures Gone(s.(outputs := Record(s.outputs, data, sampled)), finished + Stopped(s, data, sampled)) == Finishing(s, data, finished, sampled)
  {
    hide Stopped, Record;
    RecordKeys(s.outputs, data, sampled);
  }

  lemma SchedAgrees(s: Sched, slots: Option<Slots>, data: seq<RunData>, finished: set<ReqId>, sampled: map<ReqId, Token>)
    ensures Update(s, slots, data, finished, sampled).sched
         == Without(s.(outputs := Record(s.outputs, data, sampled)), Finishing(s, data, finished, sampled))
  {
    hide Drop, FreedSlot, Record, Finishing, TokensFor, FinalOutput;
  }

  lemma FreedAgree(s: Sched, slots: Option<Slots>, data: seq<RunData>, finished: set<ReqId>, sampled: map<ReqId, Token>)
    ensures var u := Update(s, slots, data, finished, sampled);
      var done := Finishing(s, data, finished, sampled);
      u.freedIds == FreedIdsOf(slots, data, done) && u.freedSlots == FreedSlotsOf(slots, data, done)
  {
    hide Drop, FreedSlot, Record, Finishing, TokensFor, FinalOutput;
  }

  lemma OutputsAgree(s: Sched, slots: Option<Slots>, data: seq<RunData>, finished: set<ReqId>, sampled: map<ReqId, Token>)
    ensures var recorded := s.(outputs := Record(s.outputs, data, sampled));
      var done := Finishing(s, data, finished, sampled);
      var final := Finals(recorded, slots, data, sampled, recorded.outputs, done);
      Update(s, slots, data, finished, sampled).outputs == final + Opens(data, sampled, final.Keys, recorded.outputs.Keys - done)
  {
    hide Record, Finishing, Opens, Finals;
    FinalsIgnoreOutputs(s, slots, data, sampled, Record(s.outputs, data, sampled), Finishing(s, data, finished, sampled));
  }

  lemma FinalsIgnoreOutputs(
      s: Sched, slots: Option<Slots>, data: seq<RunData>, sampled: map<ReqId, Token>, recorded: map<ReqId, seq<Token>>, done: set<ReqId>)
    ensures Finals(s.(outputs := recorded), slots, data, sampled, recorded, done) == Finals(s, slots, data, sampled, recorded, done)
  {
    hide FreedSlot, TokensFor, Classify, FindData;
  }

  lemma StoppedMore(s: Sched, data: seq<RunData>, d: RunData, sampled: map<ReqId, Token>)
    ensures Stopped(s, data + [d], sampled) == Stopped(s, data, sampled) +
      if d.id in s.outputs && d.id in s.runningMap && StopHit(Req(s.store, d.id).params, TokensFor(sampled, d.id)) then {d.id} else {}
  {
    hide StopHit;
    assert forall e :: e in data + [d] <==> e in data || e == d;
  }

  lemma RunningOnce(s: Sched)
    requires SchedInv(s)
    ensures Once(multiset(s.running))
    ensures (forall id :: id in s.runningMap <==> id in multiset(s.running)) && s.outputs.Keys == s.runningMap
  {
    forall id
      ensures multiset(s.running)[id] <= 1
    {
      LiveOnce(s, id);
    }
  }

  lemma AbortNone(s: Sched)
    ensures AbortSet(s, {}) == s
  {
    DropNone(s.waiting, {});
    DropNone(s.skipped, {});
    DropNone(s.running, {});
    assert {} - s.runningMap == {} && {} * s.runningMap == {};
    assert s.outputs - {} == s.outputs;
  }

  // Removing the one occurrence of an id is dropping it.
  lemma {:induction false} RemoveIsDrop(q: seq<ReqId>, id: ReqId)
    requires multiset(q)[id] <= 1
    ensures Queue.Remove(q, id) == Drop(q, {id})
  {
    if q != [] {
      DropFront(q, {id});
      assert q == [q[0]] + q[1..];
      if q[0] == id {
        assert id !in q[1..] by { assert multiset(q)[id] == 1 + multiset(q[1..])[id]; }
        DropNone(q[1..], {id});
      } else {
        RemoveIsDrop(q[1..], id);
      }
    }
  }

  lemma {:induction false} DropFront(q: seq<ReqId>, ids: set<ReqId>)
    requires q != []
    ensures Drop(q, ids) == (if q[0] in ids then [] else [q[0]]) + Drop(q[1..], ids)
  {
    if |q| > 1 {
      DropFront(q[..|q| - 1], ids);
      assert q[..|q| - 1][1..] == q[1..][..|q| - 2];
    }
  }

  // What one round of finish_requests does.
  lemma AbortOne(s: Sched, id: ReqId)
    requires SchedInv(s)
    ensures var one := AbortSet(s, {id});
      if id in s.runningMap then
        one == s.(running := Queue.Remove(s.running, id), runningMap := s.runningMap - {id}, outputs := s.outputs - {id})
      else if id in s.waiting then one == s.(waiting := Queue.Remove(s.waiting, id))
      else if id in s.skipped then one == s.(skipped := Queue.Remove(s.skipped, id))
      else one == s
    ensures Known(s, {id}) == if id in s.runningMap || id in s.waiting || id in s.skipped then {id} else {}
  {
    hide SchedInv, Live, Queue.Remove, Drop;
    AtMostOnce(s, id);
    RemoveIsDrop(s.running, id);
    RemoveIsDrop(s.waiting, id);
    RemoveIsDrop(s.skipped, id);
    if id in s.runningMap {
      NothingWaits(s, id);
    } else {
      NothingRuns(s, id);
      if id !in s.waiting {
        DropNone(s.waiting, {id});
      }
      if id !in s.skipped {
        DropNone(s.skipped, {id});
      }
    }
  }

  lemma AtMostOnce(s: Sched, id: ReqId)
    requires SchedInv(s)
    ensures multiset(s.running)[id] <= 1 && multiset(s.waiting)[id] <= 1 && multiset(s.skipped)[id] <= 1
    ensures id in s.waiting ==> id !in s.skipped
  {
    LiveOnce(s, id);
  }

  lemma NothingWaits(s: Sched, id: ReqId)
    requires id in s.runningMap
    ensures AbortSet(s, {id})
         == s.(running := Drop(s.running, {id}), runningMap := s.runningMap - {id}, outputs := s.outputs - {id})
  {
    assert {id} * s.runningMap == {id} && {id} - s.runningMap == {};
    DropNone(s.waiting, {});
    DropNone(s.skipped, {});
  }

  lemma NothingRuns(s: Sched, id: ReqId)
    requires id !in s.runningMap
    ensures AbortSet(s, {id}) == s.(waiting := Drop(s.waiting, {id}), skipped := Drop(s.skipped, {id}))
  {
    assert {id} * s.runningMap == {} && {id} - s.runningMap == {id};
    DropNone(s.running, {});
    assert s.outputs - {} == s.outputs;
    assert s.runningMap - {id} == s.runningMap;
  }

  lemma AbortMore(s: Sched, ids: set<ReqId>, id: ReqId)
    requires id !in ids
    ensures AbortSet(AbortSet(s, ids), {id}) == AbortSet(s, ids + {id})
  {
    hide Drop;
    var map0 := s.runningMap;
    var map1 := map0 - ids;
    assert (ids - map0) + ({id} - map1) == ids + {id} - map0;
    assert (ids * map0) + ({id} * map1) == (ids + {id}) * map0;
    assert map1 - {id} == map0 - (ids + {id});
    assert s.outputs - (ids * map0) - ({id} * map1) == s.outputs - ((ids + {id}) * map0);
    DropTwice(s.waiting, ids - map0, {id} - map1);
    DropTwice(s.skipped, ids - map0, {id} - map1);
    DropTwice(s.running, ids * map0, {id} * map1);
  }

  lemma KnownMore(s: Sched, ids: set<ReqId>, id: ReqId)
    requires id !in ids
    ensures Known(s, ids + {id}) == Known(s, ids) + Known(AbortSet(s, ids), {id})
  {
    hide Drop;
    DropElements(s.waiting, ids - s.runningMap, id);
    DropElements(s.skipped, ids - s.runningMap, id);
  }
}
