/** The second half of a step: aborts, finished requests and the condense keep the invariant. */
module EngineSettle {
  import opened Wrappers
  import opened Requests
  import opened Sorting
  import opened StateSlots
  import opened Scheduling
  import opened SchedulingInvariants
  import opened ModelRunner
  import opened Completion
  import opened EngineStep

  // Between the forward pass and the end of the step.
  ghost predicate MidInv<S>(
      cfg: Config, m: Rnn<S>, e: Engine<S>, data: seq<RunData>, finished: set<ReqId>, sampled: map<ReqId, Token>)
  {
    && SchedulerInv(cfg, e.sched, Some(e.slots))
    && LongLimit(cfg, e.sched)
    && GpuShape(cfg, e.gpu)
    && DistinctIds(data)
    && (forall d :: d in data ==> d.id in e.slots.reqToSlot && d.slot == e.slots.reqToSlot[d.id])
    && finished <= e.sched.runningMap
    && RowsOk(cfg, m, e.sched.store, e.sched.runningMap, Record(e.sched.outputs, data, sampled), e.slots.reqToSlot, e.gpu)
  }

  lemma {:induction false} DistinctCount(q: seq<ReqId>, ids: set<ReqId>)
    requires Once(multiset(q)) && forall id :: id in ids <==> id in multiset(q)
    ensures |ids| == |q|
  {
    if q == [] {
      assert ids == {};
    } else {
      OnceTail(q);
      assert q == [q[0]] + q[1..];
      assert multiset(q)[q[0]] == 1 + multiset(q[1..])[q[0]];
      DistinctCount(q[1..], ids - {q[0]});
    }
  }

  lemma RunningCount(s: Sched)
    requires SchedInv(s)
    ensures |s.runningMap| == |s.running|
  {
    assert forall id :: multiset(s.running)[id] <= Live(s)[id];
    DistinctCount(s.running, s.runningMap);
  }

  // A finishing request is freed with the slot it holds.
  lemma FinishingSlots(s: Sched, slots: Slots, data: seq<RunData>, done: set<ReqId>)
    requires slots.reqToSlot.Keys >= done && DistinctIds(data)
    requires forall d :: d in data ==> d.id in slots.reqToSlot && d.slot == slots.reqToSlot[d.id]
    ensures forall id :: id in done ==> FreedSlot(Some(slots), data, id) == Some(slots.reqToSlot[id])
  {
    forall id | id in done ensures FreedSlot(Some(slots), data, id) == Some(slots.reqToSlot[id]) {
      FindDataCorrect(data, id);
    }
  }

  lemma FinishingRuns(s: Sched, data: seq<RunData>, finished: set<ReqId>, sampled: map<ReqId, Token>)
    requires SchedInv(s)
    ensures Finishing(s, data, finished, sampled) <= s.runningMap
  {
  }

  lemma HeldSlotsCurrent(slots: Slots, ids: set<ReqId>)
    requires Inverse(slots.reqToSlot, slots.slotToReq) && ids <= slots.reqToSlot.Keys
    ensures Current(slots, ids, SlotsOf(slots, ids))
  {
  }

  lemma FreedUnion(slots: Slots, data: seq<RunData>, aborted: set<ReqId>, done: set<ReqId>, freedIds: set<ReqId>, freedSlots: set<nat>)
    requires forall id :: id in done ==> id in slots.reqToSlot && FreedSlot(Some(slots), data, id) == Some(slots.reqToSlot[id])
    requires freedIds == set id | id in done && FreedSlot(Some(slots), data, id).Some?
    requires freedSlots == set id | id in done && FreedSlot(Some(slots), data, id).Some? :: FreedSlot(Some(slots), data, id).value
    requires aborted <= slots.reqToSlot.Keys
    ensures freedIds == done
    ensures SlotsOf(slots, aborted) + freedSlots == SlotsOf(slots, aborted + done)
  {
    hide FreedSlot;
    assert freedIds == done;
    assert freedSlots == SlotsOf(slots, done);
  }

  // The freed pairs a settle collects are exactly the current slots of the requests that leave, and of
  // those named in the drained aborts that had left before.
  lemma {:induction false} FreedPairs(s: Sched, slots: Slots, data: seq<RunData>, finished: set<ReqId>, sampled: map<ReqId, Token>, ids: set<ReqId>)
    requires SchedInv(s) && s.runningMap <= slots.reqToSlot.Keys && DistinctIds(data)
    requires Inverse(slots.reqToSlot, slots.slotToReq)
    requires forall d :: d in data ==> d.id in slots.reqToSlot && d.slot == slots.reqToSlot[d.id]
    ensures var s1 := AbortSet(s, ids);
      var u := Update(s1, Some(slots), data, finished, sampled);
      var aborted := AbortedHolding(slots, ids);
      && aborted + u.freedIds == aborted + (s.runningMap - u.sched.runningMap)
      && (slots.reqToSlot.Keys == s.runningMap ==> aborted + u.freedIds == s.runningMap - u.sched.runningMap)
      && Current(slots, aborted + u.freedIds, SlotsOf(slots, aborted) + u.freedSlots)
  {
    hide SchedInv, Inverse, Current, FreedSlot, FinalOutput, Record, Finishing, SlotsOf;
    var s1 := AbortSet(s, ids);
    AbortKeepsInv(s, ids);
    var done := Finishing(s1, data, finished, sampled);
    FinishingRuns(s1, data, finished, sampled);
    FinishingSlots(s1, slots, data, done);
    var u := Update(s1, Some(slots), data, finished, sampled);
    var aborted := AbortedHolding(slots, ids);
    FreedUnion(slots, data, aborted, done, u.freedIds, u.freedSlots);
    HeldSlotsCurrent(slots, aborted + done);
  }

  // A survivor's row travels to its new slot.
  lemma RowsMove<T>(rows: seq<T>, before: Slots, ids: set<ReqId>, after: Slots, moves: seq<Move>, id: ReqId)
    requires Condensed(before, ids, after, moves)
    requires |before.reqToSlot.Keys| <= |rows|
    requires id in after.reqToSlot && before.reqToSlot[id] < |rows|
    ensures after.reqToSlot[id] < |rows|
    ensures ApplyMoves(rows, moves)[after.reqToSlot[id]] == rows[before.reqToSlot[id]]
  {
    hide Dense;
    SubsetCount(before.reqToSlot.Keys - ids, before.reqToSlot.Keys);
    CopiesFollow(rows, moves, before.reqToSlot[id]);
  }

  lemma SettleScheduler<S>(
      cfg: Config, m: Rnn<S>, e: Engine<S>, data: seq<RunData>, finished: set<ReqId>, sampled: map<ReqId, Token>)
    requires MidInv(cfg, m, e, data, finished, sampled)
    ensures var s' := Update(AbortSet(e.sched, AbortIds(e.aborts)), Some(e.slots), data, finished, sampled).sched;
      && SchedInv(s') && |s'.running| <= |e.sched.running| && LongLimit(cfg, s')
      && s'.runningMap <= e.sched.runningMap && s'.store == e.sched.store
      && (forall id :: id in s'.runningMap ==> Out(s'.outputs, id) == Out(Record(e.sched.outputs, data, sampled), id))
  {
    hide RowsOk, Live, Record, CountLong, Finishing, Drop, SchedInv, AbortIds, FinalOutput, GpuShape, SlotsInv;
    var ids := AbortIds(e.aborts);
    var s1 := AbortSet(e.sched, ids);
    AbortKeepsInv(e.sched, ids);
    UpdateKeepsInv(s1, Some(e.slots), data, finished, sampled);
    var done := Finishing(s1, data, finished, sampled);
    DropCountLong(cfg, e.sched.store, e.sched.running, ids * e.sched.runningMap);
    DropCountLong(cfg, e.sched.store, s1.running, done);
    SurvivorsKeepOutputs(e.sched, e.slots, data, finished, sampled, ids);
  }

  lemma SurvivorsKeepOutputs(
      s: Sched, slots: Slots, data: seq<RunData>, finished: set<ReqId>, sampled: map<ReqId, Token>, ids: set<ReqId>)
    requires SchedInv(s) && DistinctIds(data)
    ensures var s' := Update(AbortSet(s, ids), Some(slots), data, finished, sampled).sched;
      forall id :: id in s'.runningMap ==> Out(s'.outputs, id) == Out(Record(s.outputs, data, sampled), id)
  {
    hide Drop, Live, FinalOutput, Record, Finishing;
    RecordCorrect(s.outputs, data, sampled);
    RecordCorrect(AbortSet(s, ids).outputs, data, sampled);
  }

  lemma RowsAfterCondense<S>(
      cfg: Config, m: Rnn<S>, store: Store, ids: set<ReqId>, outputs: map<ReqId, seq<Token>>, g: Gpu<S>,
      ids': set<ReqId>, outputs': map<ReqId, seq<Token>>, before: Slots, freed: set<ReqId>, after: Slots, moves: seq<Move>)
    requires RowsOk(cfg, m, store, ids, outputs, before.reqToSlot, g)
    requires Condensed(before, freed, after, moves) && after.reqToSlot.Keys == ids' <= ids
    requires forall id :: id in ids' ==> Out(outputs', id) == Out(outputs, id)
    requires |before.reqToSlot.Keys| <= |g.state| == |g.last|
    ensures RowsOk(cfg, m, store, ids', outputs', after.reqToSlot, ModelRunner.Condense(g, moves))
  {
    hide RequestOk, Condensed;
    forall id | id in ids'
      ensures after.reqToSlot[id] < |g.state|
      ensures ApplyMoves(g.state, moves)[after.reqToSlot[id]] == g.state[before.reqToSlot[id]]
      ensures ApplyMoves(g.last, moves)[after.reqToSlot[id]] == g.last[before.reqToSlot[id]]
    {
      RowsMove(g.state, before, freed, after, moves, id);
      RowsMove(g.last, before, freed, after, moves, id);
    }
  }

  lemma SlotsAfterCondense(cfg: Config, s: Sched, s': Sched, before: Slots, freed: set<ReqId>, after: Slots, moves: seq<Move>)
    requires SlotsInv(cfg, s.running, s.runningMap, Some(before)) && Condensed(before, freed, after, moves)
    requires SchedInv(s') && freed == s.runningMap - s'.runningMap && s'.runningMap <= s.runningMap
    ensures SlotsInv(cfg, s'.running, s'.runningMap, Some(after)) && after.reqToSlot.Keys == s'.runningMap
  {
    RunningCount(s');
    hide SchedInv, Placed;
    assert s.runningMap - freed == s'.runningMap;
  }

  // The end of a step raises nothing and leaves every remaining request as if it had run alone.
  lemma {:induction false} SettleCorrect<S>(
      cfg: Config, m: Rnn<S>, e: Engine<S>, data: seq<RunData>, finished: set<ReqId>, sampled: map<ReqId, Token>, ran: bool)
    requires MidInv(cfg, m, e, data, finished, sampled)
    ensures Settle(e, data, finished, sampled, ran).Some?
    ensures EngineInv(cfg, m, Settle(e, data, finished, sampled, ran).value.engine)
  {
    hide SchedInv, Update, RowsOk, Record, AbortSet, LongLimit, Dense, Current, Condensed;
    var ids := AbortIds(e.aborts);
    var u := Update(AbortSet(e.sched, ids), Some(e.slots), data, finished, sampled);
    var freed := AbortedHolding(e.slots, ids) + u.freedIds;
    var slots := SlotsOf(e.slots, AbortedHolding(e.slots, ids)) + u.freedSlots;
    SettleScheduler(cfg, m, e, data, finished, sampled);
    DenseInverse(e.slots, |e.sched.running|);
    FreedPairs(e.sched, e.slots, data, finished, sampled, ids);
    BatchCondenseCorrect(e.slots, |e.sched.running|, freed, slots);
    var (after, moves) := BatchCondense(e.slots, freed, slots).value;
    hide BatchCondense;
    SlotsAfterCondense(cfg, e.sched, u.sched, e.slots, freed, after, moves);
    RowsAfterCondense(
      cfg, m, e.sched.store, e.sched.runningMap, Record(e.sched.outputs, data, sampled), e.gpu,
      u.sched.runningMap, u.sched.outputs, e.slots, freed, after, moves);
  }

  lemma DenseInverse(st: Slots, n: nat)
    requires Dense(st, n)
    ensures Inverse(st.reqToSlot, st.slotToReq) && |st.reqToSlot.Keys| == n <= st.maxSlots
  {
    DenseCount(st, n);
  }
}
