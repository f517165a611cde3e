/** What one call of the scheduler keeps: the request accounting, the budget and the limits. */
module SchedulingInvariants {
  import opened Wrappers
  import opened Requests
  import opened Sorting
  import opened StateSlots
  import opened Scheduling
  import Queue = RequestQueue

  ghost predicate Once(ms: multiset<ReqId>) {
    forall id :: ms[id] <= 1
  }

  // The requests the scheduler answers for, with multiplicity.
  ghost function Live(s: Sched): multiset<ReqId> {
    multiset(s.waiting) + multiset(s.skipped) + multiset(s.running)
  }

  // Every live request is in exactly one of the three lists, and the dictionaries agree with `running`.
  ghost predicate SchedInv(s: Sched) {
    && Once(Live(s))
    && (forall id :: id in Live(s) ==> id in s.store && s.store[id].prompt != [])
    && (forall id :: id in s.runningMap <==> id in multiset(s.running))
    && s.outputs.Keys == s.runningMap
    && (forall id :: id in Live(s) && id !in s.runningMap ==> s.store[id].computed == 0)
  }

  // With a slot manager, the occupied slots are 0..|running|-1 and belong to the running requests.
  ghost predicate SlotsInv(cfg: Config, running: seq<ReqId>, runningMap: set<ReqId>, slots: Option<Slots>) {
    slots.Some? ==>
      && Dense(slots.value, |running|)
      && slots.value.reqToSlot.Keys == runningMap
      && slots.value.maxSlots == cfg.maxNumSeqs
  }

  // A scheduled record: a non-empty piece of work within the request and the length limit,
  // for a request that has not reached its token limit.
  ghost predicate RunOk(cfg: Config, s: Sched, slots: Option<Slots>, d: RunData) {
    && d.id in s.store
    && d == MakeRun(s.store[d.id], d.id, d.numTokens, SlotOf(slots, d.id))
    && 1 <= d.numTokens
    && (d.isDecode ==> d.numTokens == 1)
    && (!d.isDecode ==> d.computed + d.numTokens <= |s.store[d.id].prompt|)
    && (cfg.maxModelLen.Some? ==> d.computed + d.numTokens < cfg.maxModelLen.value)
    && !ShouldFinish(s.store[d.id], Out(s.outputs, d.id))
  }

  // One record per request.
  ghost predicate DistinctIds(data: seq<RunData>) {
    forall i, j :: 0 <= i < j < |data| ==> data[i].id != data[j].id
  }

  ghost function DataIds(data: seq<RunData>): set<ReqId> {
    set d | d in data :: d.id
  }

  lemma AppendData(data: seq<RunData>, d: RunData)
    ensures DataIds(data + [d]) == DataIds(data) + {d.id}
    ensures DistinctIds(data) && d.id !in DataIds(data) ==> DistinctIds(data + [d])
    ensures SumTokens(data + [d]) == SumTokens(data) + d.numTokens
  {
    assert (data + [d])[..|data|] == data;
    assert forall e :: e in data + [d] <==> e in data || e == d;
    assert forall i :: 0 <= i < |data| ==> data[i] in data;
  }

  lemma NumNewBounds(cfg: Config, r: Request, budget: int)
    ensures var n := NumNew(cfg, r, budget);
      && n <= budget && n <= cfg.chunkThreshold
      && (r.IsDecode() ==> n <= 1)
      && (!r.IsDecode() ==> r.computed + n <= |r.prompt|)
      && (cfg.maxModelLen.Some? ==> r.computed + n < cfg.maxModelLen.value)
      && (n == budget || n == cfg.chunkThreshold || n == (if r.IsDecode() then 1 else |r.prompt| - r.computed)
          || (cfg.maxModelLen.Some? && r.computed + n == cfg.maxModelLen.value - 1))
  {
  }

  lemma NewRecordOk(cfg: Config, s: Sched, slots: Option<Slots>, id: ReqId, budget: int, n: nat)
    requires id in s.store && n == NumNew(cfg, s.store[id], budget) && 0 < n
    requires !ShouldFinish(s.store[id], Out(s.outputs, id))
    ensures RunOk(cfg, s, slots, MakeRun(s.store[id], id, n, SlotOf(slots, id)))
  {
    NumNewBounds(cfg, s.store[id], budget);
  }

  // ---------------------------------------------------------------- phase 1

  ghost predicate Phase1Inv(cfg: Config, s: Sched, slots: Option<Slots>, done: set<ReqId>, acc: Phase1) {
    && (forall d :: d in acc.data ==> RunOk(cfg, s, slots, d))
    && DistinctIds(acc.data)
    && DataIds(acc.data) + acc.finished <= done
    && DataIds(acc.data) !! acc.finished
    && SumTokens(acc.data) + acc.budget == cfg.maxBatchedTokens && 0 <= acc.budget
  }

  lemma Phase1StepKeeps(cfg: Config, s: Sched, slots: Option<Slots>, done: set<ReqId>, acc: Phase1, id: ReqId)
    requires Phase1Inv(cfg, s, slots, done, acc) && id !in done && id in s.store
    ensures Phase1Inv(cfg, s, slots, done + {id}, Phase1Step(cfg, s, slots, acc, id))
  {
    hide RunOk, NumNew, ShouldFinish, DistinctIds, DataIds, SumTokens, SlotOf, InputTokens;
    var r := s.store[id];
    var n := NumNew(cfg, r, acc.budget);
    NumNewBounds(cfg, r, acc.budget);
    if n > 0 {
      if !ShouldFinish(r, Out(s.outputs, id)) {
        NewRecordOk(cfg, s, slots, id, acc.budget, n);
      }
      var d := MakeRun(r, id, n, SlotOf(slots, id));
      AppendData(acc.data, d);
      assert forall e :: e in acc.data + [d] ==> e in acc.data || e == d;
    }
  }

  lemma {:induction false} RunPhase1Keeps(
      cfg: Config, s: Sched, slots: Option<Slots>, done: set<ReqId>, ids: seq<ReqId>, acc: Phase1)
    requires Phase1Inv(cfg, s, slots, done, acc)
    requires forall id :: id in ids ==> id in s.store && id !in done
    requires Once(multiset(ids))
    ensures Phase1Inv(cfg, s, slots, done + (set id | id in ids), RunPhase1(cfg, s, slots, ids, acc))
    decreases |ids|
  {
    if ids == [] {
      assert done + (set id | id in ids) == done;
    } else {
      assert ids == [ids[0]] + ids[1..];
      Phase1StepKeeps(cfg, s, slots, done, acc, ids[0]);
      assert ids[0] !in ids[1..] by { assert multiset(ids)[ids[0]] == 1 + multiset(ids[1..])[ids[0]]; }
      OnceTail(ids);
      RunPhase1Keeps(cfg, s, slots, done + {ids[0]}, ids[1..], Phase1Step(cfg, s, slots, acc, ids[0]));
      assert done + {ids[0]} + (set id | id in ids[1..]) == done + (set id | id in ids);
    }
  }

  lemma OnceTail(ids: seq<ReqId>)
    requires ids != [] && Once(multiset(ids))
    ensures Once(multiset(ids[1..]))
  {
    assert ids == [ids[0]] + ids[1..];
    assert forall id :: multiset(ids)[id] >= multiset(ids[1..])[id];
  }

  ghost predicate SlotOrdered(slots: Option<Slots>, ids: seq<ReqId>) {
    forall i, j :: 0 <= i < j < |ids| ==> SlotOf(slots, ids[i]) <= SlotOf(slots, ids[j])
  }

  // The running requests are taken in the order of their slots; without slots, in their own order.
  lemma {:induction false} SortBySlotOrders(slots: Option<Slots>, ids: seq<ReqId>)
    ensures SlotOrdered(slots, SortBySlot(slots, ids))
    ensures slots.None? ==> SortBySlot(slots, ids) == ids
  {
    if ids != [] {
      SortBySlotOrders(slots, ids[1..]);
      InsertBySlotOrders(slots, ids[0], SortBySlot(slots, ids[1..]));
      assert ids == [ids[0]] + ids[1..];
    }
  }

  lemma {:induction false} InsertBySlotOrders(slots: Option<Slots>, id: ReqId, ids: seq<ReqId>)
    requires SlotOrdered(slots, ids)
    ensures SlotOrdered(slots, InsertBySlot(slots, id, ids))
    ensures forall x :: x in InsertBySlot(slots, id, ids) ==> x == id || x in ids
    ensures slots.None? ==> InsertBySlot(slots, id, ids) == [id] + ids
  {
    hide SlotOf;
    if ids != [] && SlotOf(slots, id) > SlotOf(slots, ids[0]) {
      InsertBySlotOrders(slots, id, ids[1..]);
      var rest := InsertBySlot(slots, id, ids[1..]);
      forall k | 0 <= k < |rest|
        ensures SlotOf(slots, ids[0]) <= SlotOf(slots, rest[k])
      {
        assert rest[k] in rest;
        if rest[k] != id {
          var j :| 0 <= j < |ids[1..]| && ids[1..][j] == rest[k];
          assert ids[j + 1] == rest[k];
        }
      }
    }
    NoSlots(id);
    if ids != [] {
      NoSlots(ids[0]);
    }
  }

  lemma NoSlots(id: ReqId)
    ensures SlotOf(None, id) == 0
  {
  }

  lemma {:induction false} SortBySlotElements(slots: Option<Slots>, ids: seq<ReqId>)
    ensures multiset(SortBySlot(slots, ids)) == multiset(ids)
  {
    if ids != [] {
      SortBySlotElements(slots, ids[1..]);
      InsertBySlotElements(slots, ids[0], SortBySlot(slots, ids[1..]));
      assert ids == [ids[0]] + ids[1..];
    }
  }

  lemma {:induction false} InsertBySlotElements(slots: Option<Slots>, id: ReqId, ids: seq<ReqId>)
    ensures multiset(InsertBySlot(slots, id, ids)) == multiset(ids) + multiset{id}
  {
    if ids != [] && SlotOf(slots, id) > SlotOf(slots, ids[0]) {
      InsertBySlotElements(slots, id, ids[1..]);
      assert ids == [ids[0]] + ids[1..];
    }
  }

  lemma RunningStored(s: Sched, ids: seq<ReqId>)
    requires SchedInv(s) && multiset(ids) == multiset(s.running)
    ensures Once(multiset(ids))
    ensures forall id :: id in ids <==> id in s.runningMap
    ensures forall id :: id in ids ==> id in s.store
  {
    assert forall id :: id in ids <==> id in multiset(ids);
    assert forall id :: multiset(s.running)[id] <= Live(s)[id];
  }

  lemma StartPhase1Ok(cfg: Config, s: Sched, slots: Option<Slots>)
    requires 0 <= cfg.maxBatchedTokens
    ensures Phase1Inv(cfg, s, slots, {}, StartPhase1(cfg))
  {
  }

  lemma {:induction false} Phase1Correct(cfg: Config, s: Sched, slots: Option<Slots>)
    requires SchedInv(s) && 0 <= cfg.maxBatchedTokens
    ensures Phase1Inv(cfg, s, slots, s.runningMap, RunPhase1(cfg, s, slots, SortBySlot(slots, s.running), StartPhase1(cfg)))
  {
    hide Phase1Inv, RunPhase1, SortBySlot;
    var ids := SortBySlot(slots, s.running);
    SortBySlotElements(slots, s.running);
    RunningStored(s, ids);
    StartPhase1Ok(cfg, s, slots);
    RunPhase1Keeps(cfg, s, slots, {}, ids, StartPhase1(cfg));
    assert {} + (set id | id in ids) == s.runningMap;
  }

  // ---------------------------------------------------------------- phase 2

  ghost function Total(acc: Phase2): multiset<ReqId> {
    multiset(acc.waiting) + multiset(acc.skipped) + multiset(acc.held) + multiset(acc.running)
  }

  // No request is lost or duplicated by the admission loop.
  ghost predicate QueuesInv(s: Sched, acc: Phase2) {
    && s.running <= acc.running
    && (forall id :: id in acc.runningMap <==> id in multiset(acc.running))
    && s.runningMap <= acc.runningMap
    && acc.outputs.Keys == acc.runningMap
    && (forall id :: id in acc.outputs ==> acc.outputs[id] == Out(s.outputs, id))
  }

  // The records cover every request admitted so far and add up to the spent budget.
  ghost predicate WorkInv(cfg: Config, s: Sched, acc: Phase2) {
    && (forall d :: d in acc.data ==> RunOk(cfg, s, acc.slots, d) && d.id in acc.runningMap)
    && DistinctIds(acc.data)
    && (forall id :: id in acc.runningMap && id !in s.runningMap ==> id in DataIds(acc.data))
    && SumTokens(acc.data) + acc.budget == cfg.maxBatchedTokens && 0 <= acc.budget
  }

  // The counter bounds the long prompts among the running requests, and the limits hold.
  ghost predicate LimitsInv(cfg: Config, s: Sched, acc: Phase2) {
    && !acc.raised
    && |acc.running| <= cfg.maxNumSeqs
    && SlotsInv(cfg, acc.running, acc.runningMap, acc.slots)
    && CountLong(cfg, s.store, acc.running) <= acc.partialPrefills
    && (0 < cfg.maxLongPartialPrefills && CountLong(cfg, s.store, s.running) <= cfg.maxLongPartialPrefills
        ==> CountLong(cfg, s.store, acc.running) <= cfg.maxLongPartialPrefills)
  }

  ghost predicate Phase2Inv(cfg: Config, s: Sched, acc: Phase2) {
    Total(acc) == Live(s) && QueuesInv(s, acc) && WorkInv(cfg, s, acc) && LimitsInv(cfg, s, acc)
  }

  // Nobody who already runs changes slot.
  ghost predicate KeepsSlots(a: Phase2, b: Phase2) {
    && a.runningMap <= b.runningMap
    && (a.slots.Some? <==> b.slots.Some?)
    && forall id :: id in a.runningMap ==> SlotOf(b.slots, id) == SlotOf(a.slots, id)
  }

  // Records made in this loop are for newcomers only.
  ghost predicate KeepsData(s: Sched, a: Phase2, b: Phase2) {
    forall d :: d in b.data && d.id in s.runningMap ==> d in a.data
  }

  // `acc` after the request `id` has been taken off its queue.
  ghost predicate Popped(cfg: Config, s: Sched, acc: Phase2, id: ReqId) {
    Total(acc) + multiset{id} == Live(s) && QueuesInv(s, acc) && WorkInv(cfg, s, acc) && LimitsInv(cfg, s, acc)
  }

  lemma PopSkipped(cfg: Config, s: Sched, acc: Phase2)
    requires Phase2Inv(cfg, s, acc) && acc.skipped != []
    ensures Popped(cfg, s, acc.(skipped := acc.skipped[1..]), acc.skipped[0])
  {
    assert acc.skipped == [acc.skipped[0]] + acc.skipped[1..];
  }

  lemma PopWaiting(cfg: Config, s: Sched, acc: Phase2)
    requires Phase2Inv(cfg, s, acc) && acc.waiting != []
    ensures Popped(cfg, s, acc.(waiting := acc.waiting[1..]), acc.waiting[0])
  {
    assert acc.waiting == [acc.waiting[0]] + acc.waiting[1..];
  }

  lemma HoldKeeps(cfg: Config, s: Sched, acc: Phase2, id: ReqId)
    requires Popped(cfg, s, acc, id)
    ensures Phase2Inv(cfg, s, Hold(cfg, s.store, acc, id))
  {
    Queue.PrependElements(cfg.policy, s.store, acc.held, id);
  }

  lemma PoppedIsNew(cfg: Config, s: Sched, acc: Phase2, id: ReqId)
    requires SchedInv(s) && Popped(cfg, s, acc, id)
    ensures id !in acc.runningMap && id in s.store && id !in s.outputs && !s.store[id].IsDecode()
  {
    assert id in Live(s);
    InHandIsNotRunning(Live(s), acc, id);
  }

  lemma InHandIsNotRunning(live: multiset<ReqId>, acc: Phase2, id: ReqId)
    requires Once(live) && Total(acc) + multiset{id} == live
    ensures id !in multiset(acc.running)
  {
    assert live[id] == Total(acc)[id] + 1;
  }

  lemma EnterQueues(cfg: Config, s: Sched, acc: Phase2, id: ReqId, n: nat, slots: Option<Slots>, partial: bool)
    requires Total(acc) + multiset{id} == Live(s) && QueuesInv(s, acc)
    requires id !in s.outputs && id !in acc.runningMap
    ensures var acc' := Enter(acc, Req(s.store, id), id, n, slots, partial); Total(acc') == Live(s) && QueuesInv(s, acc')
  {
    hide Live, MakeRun, Total, Out;
    EnterTotal(acc, Req(s.store, id), id, n, slots, partial);
    assert Out(s.outputs, id) == [] by {
      NoOutput(s.outputs, id);
    }
    assert s.running <= acc.running + [id];
    assert multiset(acc.running + [id]) == multiset(acc.running) + multiset{id};
  }

  lemma NoOutput(outputs: map<ReqId, seq<Token>>, id: ReqId)
    requires id !in outputs
    ensures Out(outputs, id) == []
  {
  }

  lemma EnterTotal(acc: Phase2, r: Request, id: ReqId, n: nat, slots: Option<Slots>, partial: bool)
    ensures Total(Enter(acc, r, id, n, slots, partial)) == Total(acc) + multiset{id}
  {
    hide MakeRun;
    assert multiset(acc.running + [id]) == multiset(acc.running) + multiset{id};
  }

  lemma EnterWork(cfg: Config, s: Sched, acc: Phase2, id: ReqId, n: nat, slots: Option<Slots>, partial: bool)
    requires WorkInv(cfg, s, acc) && id !in acc.runningMap && id in s.store
    requires !ShouldFinish(s.store[id], Out(s.outputs, id))
    requires AllocateFor(acc.slots, id) == Some(slots)
    requires n == NumNew(cfg, Req(s.store, id), acc.budget) && 0 < n
    ensures WorkInv(cfg, s, Enter(acc, Req(s.store, id), id, n, slots, partial))
  {
    hide RunOk, NumNew, AllocateFor, ShouldFinish, SlotOf, SumTokens, InputTokens, DistinctIds, DataIds;
    var d := MakeRun(s.store[id], id, n, SlotOf(slots, id));
    NumNewBounds(cfg, s.store[id], acc.budget);
    NewRecordOk(cfg, s, slots, id, acc.budget, n);
    OldRecordsOk(cfg, s, acc, id, slots);
    AppendData(acc.data, d);
    NotInData(acc.data, acc.runningMap, id);
    assert forall e :: e in acc.data + [d] ==> e in acc.data || e == d;
  }

  lemma NotInData(data: seq<RunData>, running: set<ReqId>, id: ReqId)
    requires id !in running && forall d :: d in data ==> d.id in running
    ensures id !in DataIds(data)
  {
  }

  lemma OldRecordsOk(cfg: Config, s: Sched, acc: Phase2, id: ReqId, slots: Option<Slots>)
    requires forall d :: d in acc.data ==> RunOk(cfg, s, acc.slots, d) && d.id != id
    requires AllocateFor(acc.slots, id) == Some(slots)
    ensures forall d :: d in acc.data ==> RunOk(cfg, s, slots, d)
  {
    forall d | d in acc.data ensures RunOk(cfg, s, slots, d) {
      SlotOfOthers(acc.slots, id, slots, d.id);
    }
  }

  lemma SlotOfOthers(slots: Option<Slots>, id: ReqId, slots': Option<Slots>, other: ReqId)
    requires AllocateFor(slots, id) == Some(slots') && other != id
    ensures SlotOf(slots', other) == SlotOf(slots, other)
  {
  }

  lemma EnterLimits(cfg: Config, s: Sched, acc: Phase2, id: ReqId, n: nat, slots: Option<Slots>, partial: bool)
    requires LimitsInv(cfg, s, acc) && id !in acc.runningMap && id in s.store
    requires AllocateFor(acc.slots, id) == Some(slots) && |acc.running| < cfg.maxNumSeqs
    requires n <= cfg.chunkThreshold
    requires partial == (!Req(s.store, id).IsDecode() && !CoversPrompt(Req(s.store, id), n))
    requires partial ==> !LimitReached(cfg, Req(s.store, id), acc.partialPrefills)
    requires 1 <= cfg.chunkThreshold
    ensures LimitsInv(cfg, s, Enter(acc, Req(s.store, id), id, n, slots, partial))
  {
    if acc.slots.Some? {
      AllocateDense(acc.slots.value, |acc.running|, id);
    }
    assert (acc.running + [id])[..|acc.running|] == acc.running;
    assert IsLong(cfg, s.store[id]) ==> partial;
  }

  lemma AdmitKeeps(cfg: Config, s: Sched, acc: Phase2, id: ReqId)
    requires SchedInv(s) && Popped(cfg, s, acc, id) && |acc.running| < cfg.maxNumSeqs && 1 <= cfg.chunkThreshold
    ensures Phase2Inv(cfg, s, Admit(cfg, s.store, acc, id)) && KeepsSlots(acc, Admit(cfg, s.store, acc, id)) && KeepsData(s, acc, Admit(cfg, s.store, acc, id))
  {
    var r := Req(s.store, id);
    var n := NumNew(cfg, r, acc.budget);
    HoldKeeps(cfg, s, acc, id);
    if n > 0 {
      var partial := !r.IsDecode() && !CoversPrompt(r, n);
      if !(partial && LimitReached(cfg, r, acc.partialPrefills)) {
        EnterKeeps(cfg, s, acc, id, n, partial);
      }
    }
  }

  lemma EnterKeeps(cfg: Config, s: Sched, acc: Phase2, id: ReqId, n: nat, partial: bool)
    requires SchedInv(s) && Popped(cfg, s, acc, id) && |acc.running| < cfg.maxNumSeqs && 1 <= cfg.chunkThreshold
    requires n == NumNew(cfg, Req(s.store, id), acc.budget) && 0 < n
    requires partial == (!Req(s.store, id).IsDecode() && !CoversPrompt(Req(s.store, id), n))
    requires partial ==> !LimitReached(cfg, Req(s.store, id), acc.partialPrefills)
    ensures AllocateFor(acc.slots, id).Some?
    ensures var acc' := Enter(acc, Req(s.store, id), id, n, AllocateFor(acc.slots, id).value, partial);
      Phase2Inv(cfg, s, acc') && KeepsSlots(acc, acc') && KeepsData(s, acc, acc')
  {
    hide SchedInv, QueuesInv, WorkInv, LimitsInv, AllocateFor, Total, Live, KeepsSlots, KeepsData, NumNew, LimitReached;
    PoppedIsNew(cfg, s, acc, id);
    AllocateSucceeds(cfg, s, acc, id);
    var slots := AllocateFor(acc.slots, id).value;
    EnterQueues(cfg, s, acc, id, n, slots, partial);
    EnterWork(cfg, s, acc, id, n, slots, partial);
    NumNewBounds(cfg, Req(s.store, id), acc.budget);
    EnterLimits(cfg, s, acc, id, n, slots, partial);
    EnterKeepsSlots(acc, Req(s.store, id), id, n, slots, partial);
    EnterKeepsData(s, acc, Req(s.store, id), id, n, slots, partial);
  }

  lemma EnterKeepsData(s: Sched, acc: Phase2, r: Request, id: ReqId, n: nat, slots: Option<Slots>, partial: bool)
    requires QueuesInv(s, acc) && id !in acc.runningMap
    ensures KeepsData(s, acc, Enter(acc, r, id, n, slots, partial))
  {
    var d := MakeRun(r, id, n, SlotOf(slots, id));
    assert forall e :: e in acc.data + [d] ==> e in acc.data || e == d;
  }

  lemma AllocateSucceeds(cfg: Config, s: Sched, acc: Phase2, id: ReqId)
    requires LimitsInv(cfg, s, acc) && |acc.running| < cfg.maxNumSeqs && id !in acc.runningMap
    ensures AllocateFor(acc.slots, id).Some?
  {
    if acc.slots.Some? {
      AllocateDense(acc.slots.value, |acc.running|, id);
    }
  }

  lemma EnterKeepsSlots(acc: Phase2, r: Request, id: ReqId, n: nat, slots: Option<Slots>, partial: bool)
    requires AllocateFor(acc.slots, id) == Some(slots) && id !in acc.runningMap
    ensures KeepsSlots(acc, Enter(acc, r, id, n, slots, partial))
  {
    forall other | other in acc.runningMap ensures SlotOf(slots, other) == SlotOf(acc.slots, other) {
      SlotOfOthers(acc.slots, id, slots, other);
    }
  }

  lemma HoldHeadsKeeps(cfg: Config, s: Sched, acc: Phase2)
    requires Phase2Inv(cfg, s, acc)
    ensures var acc' := HoldHeads(cfg, s.store, acc);
      Phase2Inv(cfg, s, acc') && KeepsSlots(acc, acc') && KeepsData(s, acc, acc')
  {
    var a := acc;
    if acc.skipped != [] {
      PopSkipped(cfg, s, acc);
      HoldKeeps(cfg, s, acc.(skipped := acc.skipped[1..]), acc.skipped[0]);
      a := Hold(cfg, s.store, acc.(skipped := acc.skipped[1..]), acc.skipped[0]);
    }
    if a.waiting != [] {
      PopWaiting(cfg, s, a);
      HoldKeeps(cfg, s, a.(waiting := a.waiting[1..]), a.waiting[0]);
    }
  }

  lemma Phase2StepKeeps(cfg: Config, s: Sched, acc: Phase2)
    requires SchedInv(s) && Phase2Inv(cfg, s, acc) && |acc.running| < cfg.maxNumSeqs && 1 <= cfg.chunkThreshold
    ensures var acc' := Phase2Step(cfg, s.store, acc);
      Phase2Inv(cfg, s, acc') && KeepsSlots(acc, acc') && KeepsData(s, acc, acc')
  {
    hide SchedInv, Popped, Phase2Inv, HeadFits, Admit, HoldHeads;
    if Selectable(cfg, s.store, acc.skipped, acc.partialPrefills) {
      PopSkipped(cfg, s, acc);
      AdmitKeeps(cfg, s, acc.(skipped := acc.skipped[1..]), acc.skipped[0]);
    } else if Selectable(cfg, s.store, acc.waiting, acc.partialPrefills) {
      PopWaiting(cfg, s, acc);
      AdmitKeeps(cfg, s, acc.(waiting := acc.waiting[1..]), acc.waiting[0]);
    } else {
      HoldHeadsKeeps(cfg, s, acc);
    }
  }

  lemma {:induction false} RunPhase2Keeps(cfg: Config, s: Sched, acc: Phase2)
    requires SchedInv(s) && Phase2Inv(cfg, s, acc) && 1 <= cfg.chunkThreshold
    ensures var acc' := RunPhase2(cfg, s.store, acc);
      Phase2Inv(cfg, s, acc') && KeepsSlots(acc, acc') && KeepsData(s, acc, acc')
    decreases |acc.waiting| + |acc.skipped|
  {
    hide Phase2Inv, SchedInv;
    if Admitting(cfg, acc) {
      Phase2StepKeeps(cfg, s, acc);
      RunPhase2Keeps(cfg, s, Phase2Step(cfg, s.store, acc));
    }
  }

  // ---------------------------------------------------------------- schedule

  // The counters after the call: each scheduled request moved on by its tokens, nobody else did.
  ghost predicate Advanced(store: Store, data: seq<RunData>, store': Store) {
    && store'.Keys == store.Keys
    && (forall d :: d in data ==> d.id in store && store'[d.id] == store[d.id].(computed := store[d.id].computed + d.numTokens))
    && (forall id :: id in store && id !in DataIds(data) ==> store'[id] == store[id])
  }

  lemma {:induction false} AdvanceCorrect(store: Store, runningMap: set<ReqId>, data: seq<RunData>)
    requires DistinctIds(data)
    requires forall d :: d in data ==> d.id in runningMap && d.id in store
    ensures Advanced(store, data, Advance(store, runningMap, data))
  {
    if data != [] {
      var i := |data| - 1;
      var d := data[i];
      assert forall e :: e in data <==> e in data[..i] || e == d;
      AdvanceCorrect(store, runningMap, data[..i]);
      assert d.id !in DataIds(data[..i]) by {
        assert forall e :: e in data[..i] ==> e.id != d.id;
      }
      assert DataIds(data) == DataIds(data[..i]) + {d.id};
    }
  }

  // The work handed to the executor: bounded, one record per request, covering every newcomer.
  ghost predicate WorkOk(cfg: Config, s: Sched, o: Scheduled) {
    && (forall d :: d in o.data ==> RunOk(cfg, s, o.slots, d) && d.id in o.sched.runningMap)
    && DistinctIds(o.data)
    && SumTokens(o.data) <= cfg.maxBatchedTokens
    && o.finished <= s.runningMap && DataIds(o.data) !! o.finished
    && (forall id :: id in o.sched.runningMap && id !in s.runningMap ==> id in DataIds(o.data))
  }

  // The state after the call: same live requests, `running` only grew, nobody changed slot.
  ghost predicate StateOk(cfg: Config, s: Sched, slots: Option<Slots>, o: Scheduled) {
    && !o.raised
    && SchedInv(o.sched)
    && Live(o.sched) == Live(s)
    && s.running <= o.sched.running && |o.sched.running| <= cfg.maxNumSeqs
    && s.runningMap <= o.sched.runningMap
    && SlotsInv(cfg, o.sched.running, o.sched.runningMap, o.slots)
    && (slots.Some? <==> o.slots.Some?)
    && (forall id :: id in s.runningMap ==> SlotOf(o.slots, id) == SlotOf(slots, id))
    && (forall id :: id in o.sched.outputs ==> o.sched.outputs[id] == Out(s.outputs, id))
    && Advanced(s.store, o.data, o.sched.store)
  }

  ghost predicate SchedulerInv(cfg: Config, s: Sched, slots: Option<Slots>) {
    SchedInv(s) && |s.running| <= cfg.maxNumSeqs && SlotsInv(cfg, s.running, s.runningMap, slots)
  }

  // With a positive limit, at most that many running requests have more than a chunk of prompt left.
  ghost predicate LongLimit(cfg: Config, s: Sched) {
    0 < cfg.maxLongPartialPrefills ==> CountLong(cfg, s.store, s.running) <= cfg.maxLongPartialPrefills
  }

  lemma StartPhase2Inv(cfg: Config, s: Sched, slots: Option<Slots>, p1: Phase1)
    requires SchedulerInv(cfg, s, slots) && Phase1Inv(cfg, s, slots, s.runningMap, p1)
    ensures Phase2Inv(cfg, s, StartPhase2(cfg, s, slots, p1))
  {
    assert forall d :: d in p1.data ==> d.id in DataIds(p1.data);
  }

  lemma {:induction false} CountLongMonotone(cfg: Config, store: Store, store': Store, ids: seq<ReqId>)
    requires forall id :: id in ids && IsLong(cfg, Req(store', id)) ==> IsLong(cfg, Req(store, id))
    ensures CountLong(cfg, store', ids) <= CountLong(cfg, store, ids)
  {
    if ids != [] {
      CountLongMonotone(cfg, store, store', ids[..|ids| - 1]);
    }
  }

  lemma FinishLive(cfg: Config, s: Sched, p1: Phase1, p2: Phase2)
    requires Total(p2) == Live(s)
    ensures Live(FinishSchedule(cfg, s, p1, p2).sched) == Live(s)
  {
    Queue.PrependAllElements(cfg.policy, s.store, p2.skipped, p2.held);
  }

  lemma DataStored(cfg: Config, s: Sched, acc: Phase2)
    requires WorkInv(cfg, s, acc)
    ensures DistinctIds(acc.data) && DataIds(acc.data) <= acc.runningMap
    ensures forall d :: d in acc.data ==> d.id in acc.runningMap && d.id in s.store
  {
  }

  lemma FinishAdvanced(cfg: Config, s: Sched, p1: Phase1, p2: Phase2)
    requires WorkInv(cfg, s, p2)
    ensures Advanced(s.store, p2.data, FinishSchedule(cfg, s, p1, p2).sched.store)
  {
    DataStored(cfg, s, p2);
    AdvanceCorrect(s.store, p2.runningMap, p2.data);
  }

  // Advancing changes counters only, and only those of requests with a record.
  lemma AdvancedFields(store: Store, data: seq<RunData>, store': Store, id: ReqId)
    requires Advanced(store, data, store') && id in store
    ensures id in store' && store'[id] == store[id].(computed := store'[id].computed)
    ensures store[id].computed <= store'[id].computed
    ensures id !in DataIds(data) ==> store'[id] == store[id]
  {
    if id in DataIds(data) {
      var d :| d in data && d.id == id;
    }
  }

  lemma AdvancedKeepsInv(s: Sched, o: Sched, data: seq<RunData>)
    requires SchedInv(s) && Live(o) == Live(s) && Advanced(s.store, data, o.store)
    requires DataIds(data) <= o.runningMap && s.runningMap <= o.runningMap
    requires forall id :: id in o.runningMap <==> id in multiset(o.running)
    requires o.outputs.Keys == o.runningMap
    ensures SchedInv(o)
  {
    hide Live;
    forall id | id in Live(o)
      ensures id in o.store && o.store[id].prompt != [] && (id !in o.runningMap ==> o.store[id].computed == 0)
    {
      AdvancedFields(s.store, data, o.store, id);
    }
  }

  lemma FinishSchedInv(cfg: Config, s: Sched, p1: Phase1, p2: Phase2)
    requires SchedInv(s) && Total(p2) == Live(s) && QueuesInv(s, p2) && WorkInv(cfg, s, p2)
    ensures SchedInv(FinishSchedule(cfg, s, p1, p2).sched)
  {
    hide SchedInv;
    FinishLive(cfg, s, p1, p2);
    FinishAdvanced(cfg, s, p1, p2);
    DataStored(cfg, s, p2);
    AdvancedKeepsInv(s, FinishSchedule(cfg, s, p1, p2).sched, p2.data);
  }

  lemma FinishWork(cfg: Config, s: Sched, slots: Option<Slots>, p1: Phase1, p2: Phase2)
    requires Phase1Inv(cfg, s, slots, s.runningMap, p1) && Phase2Inv(cfg, s, p2)
    requires forall d :: d in p2.data && d.id in s.runningMap ==> d in p1.data
    ensures WorkOk(cfg, s, FinishSchedule(cfg, s, p1, p2))
  {
    assert forall d :: d in p1.data ==> d.id in DataIds(p1.data);
  }

  lemma FinishLong(cfg: Config, s: Sched, p1: Phase1, p2: Phase2)
    requires SchedInv(s) && LongLimit(cfg, s) && Phase2Inv(cfg, s, p2)
    ensures LongLimit(cfg, FinishSchedule(cfg, s, p1, p2).sched)
  {
    var o := FinishSchedule(cfg, s, p1, p2).sched;
    FinishAdvanced(cfg, s, p1, p2);
    forall id | id in p2.running && IsLong(cfg, Req(o.store, id)) ensures IsLong(cfg, Req(s.store, id)) {
      assert id in multiset(p2.running) && id in Live(s);
      AdvancedFields(s.store, p2.data, o.store, id);
    }
    hide WorkInv, QueuesInv, SchedInv, Advanced, Total;
    CountLongMonotone(cfg, s.store, o.store, p2.running);
  }

  // From any good state a scheduling call raises nothing and keeps every promise above.
  lemma {:induction false} ScheduleCorrect(cfg: Config, s: Sched, slots: Option<Slots>)
    requires ValidConfig(cfg) && SchedulerInv(cfg, s, slots)
    ensures StateOk(cfg, s, slots, Schedule(cfg, s, slots)) && WorkOk(cfg, s, Schedule(cfg, s, slots))
    ensures LongLimit(cfg, s) ==> LongLimit(cfg, Schedule(cfg, s, slots).sched)
  {
    hide SchedInv, WorkInv, Total, RunPhase1, RunPhase2, WorkOk, LongLimit, Advanced, Live, SortBySlot, Phase1Inv;
    var p1 := RunPhase1(cfg, s, slots, SortBySlot(slots, s.running), StartPhase1(cfg));
    Phase1Correct(cfg, s, slots);
    var start := StartPhase2(cfg, s, slots, p1);
    StartPhase2Inv(cfg, s, slots, p1);
    RunPhase2Keeps(cfg, s, start);
    var p2 := RunPhase2(cfg, s.store, start);
    FinishLive(cfg, s, p1, p2);
    FinishAdvanced(cfg, s, p1, p2);
    FinishSchedInv(cfg, s, p1, p2);
    FinishWork(cfg, s, slots, p1, p2);
    if LongLimit(cfg, s) {
      FinishLong(cfg, s, p1, p2);
    }
  }
}
