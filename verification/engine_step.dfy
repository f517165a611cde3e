/** One step of the engine core as a function on its whole state. */
module EngineStep {
  import opened Wrappers
  import opened Requests
  import opened Sorting
  import opened StateSlots
  import opened Scheduling
  import opened SchedulingInvariants
  import opened ModelRunner
  import opened Completion

  // Scheduler, slot manager, device buffers and the queue of abort messages.
  datatype Engine<S> = Engine(sched: Sched, slots: Slots, gpu: Gpu<S>, aborts: seq<seq<ReqId>>)

  datatype Stepped<S> = Stepped(engine: Engine<S>, outputs: map<ReqId, CoreOutput>, ran: bool)

  function AbortIds(aborts: seq<seq<ReqId>>): set<ReqId> {
    set ids, id | ids in aborts && id in ids :: id
  }

  predicate HasRequests(s: Sched) {
    s.waiting != [] || s.skipped != [] || s.running != []
  }

  // The pairs freed by the drained aborts: the named requests that still hold a slot.
  function AbortedHolding(slots: Slots, ids: set<ReqId>): set<ReqId> {
    set id | id in ids && id in slots.reqToSlot
  }

  function SlotsOf(slots: Slots, ids: set<ReqId>): set<nat> {
    set id | id in ids && id in slots.reqToSlot :: slots.reqToSlot[id]
  }

  // From the sampled tokens to the end of the step: drain aborts, update, condense.
  function Settle<S>(e: Engine<S>, data: seq<RunData>, finished: set<ReqId>, sampled: map<ReqId, Token>, ran: bool)
    : Option<Stepped<S>>
  {
    var ids := AbortIds(e.aborts);
    var u := Update(AbortSet(e.sched, ids), Some(e.slots), data, finished, sampled);
    var aborted := AbortedHolding(e.slots, ids);
    match BatchCondense(e.slots, aborted + u.freedIds, SlotsOf(e.slots, aborted) + u.freedSlots)
    case None => None
    case Some((slots, moves)) =>
      Some(Stepped(Engine(u.sched, slots, ModelRunner.Condense(e.gpu, moves), []), u.outputs, ran))
  }

  // EngineCore.step; None when anything inside raised. `captured` is the graph size the runner
  // finds for the batch, if any.
  function Step<S>(cfg: Config, m: Rnn<S>, e: Engine<S>, oracle: map<ReqId, nat>, captured: Option<nat>)
    : Option<Stepped<S>>
  {
    if !HasRequests(e.sched) then Some(Stepped(e, map[], false))
    else
      var o := Schedule(cfg, e.sched, Some(e.slots));
      if o.raised || o.slots.None? then None
      else if SumTokens(o.data) == 0 then
        var e' := e.(sched := o.sched, slots := o.slots.value);
        if o.finished == {} then Some(Stepped(e', map[], false))
        else Settle(e', o.data, o.finished, map[], false)
      else
        match Execute(m, e.gpu, o.slots.value, o.data, captured)
        case None => None
        case Some(g) =>
          var sampled := Sampled(o.data, oracle);
          var g' := g.(last := WriteBack(g.last, o.data, sampled));
          Settle(Engine(o.sched, o.slots.value, g', e.aborts), o.data, o.finished, sampled, true)
  }

  // ---------------------------------------------------------------- the invariant

  // The tokens the model has seen for a request: a prefix of prompt and outputs.
  function Fed(r: Request, outs: seq<Token>): seq<Token> {
    var all := r.prompt + outs;
    if r.computed <= |all| then all[..r.computed] else all
  }

  // Nothing is sampled before the prompt is covered; from then on one token per step.
  ghost predicate OutputsMatch(r: Request, outs: seq<Token>) {
    if r.computed < |r.prompt| then outs == [] else |outs| == r.computed - |r.prompt| + 1
  }

  // A running request and the row of its slot. The row is what running the request alone gives.
  ghost predicate RequestOk<S>(cfg: Config, m: Rnn<S>, r: Request, outs: seq<Token>, row: S, last: Token) {
    && OutputsMatch(r, outs)
    && row == Feed(m, m.zero, Fed(r, outs))
    && (r.IsDecode() ==> last == outs[|outs| - 1])
    && (forall t :: t in outs ==> t >= 0)
    && (r.params.maxTokens.Some? && 1 <= r.params.maxTokens.value ==> |outs| <= r.params.maxTokens.value)
    && (cfg.maxModelLen.Some? ==> r.computed < cfg.maxModelLen.value)
  }

  ghost predicate RowsOk<S>(
      cfg: Config, m: Rnn<S>, store: Store, ids: set<ReqId>, outputs: map<ReqId, seq<Token>>, slots: map<ReqId, nat>, g: Gpu<S>)
  {
    forall id :: id in ids ==>
      && id in store && id in slots && slots[id] < |g.state| == |g.last|
      && RequestOk(cfg, m, store[id], Out(outputs, id), g.state[slots[id]], g.last[slots[id]])
  }

  ghost predicate GpuShape<S>(cfg: Config, g: Gpu<S>) {
    |g.state| == cfg.maxNumSeqs && |g.last| == cfg.maxNumSeqs && (g.minPrev.Some? ==> g.minPrev.value >= 0)
  }

  ghost predicate EngineInv<S>(cfg: Config, m: Rnn<S>, e: Engine<S>) {
    && SchedulerInv(cfg, e.sched, Some(e.slots))
    && LongLimit(cfg, e.sched)
    && GpuShape(cfg, e.gpu)
    && RowsOk(cfg, m, e.sched.store, e.sched.runningMap, e.sched.outputs, e.slots.reqToSlot, e.gpu)
  }

  // ---------------------------------------------------------------- one request through one step

  // The state a record starts from is the request's own, also for a newcomer in a used slot.
  lemma BaseIsOwn<S>(cfg: Config, m: Rnn<S>, s: Sched, slots: Slots, g: Gpu<S>, d: RunData)
    requires RunOk(cfg, s, Some(slots), d) && d.slot < |g.state| == |g.last|
    requires RequestOk(cfg, m, s.store[d.id], Out(s.outputs, d.id), g.state[d.slot], g.last[d.slot])
             || (s.store[d.id].computed == 0 && s.store[d.id].prompt != [] && Out(s.outputs, d.id) == [])
    ensures OutputsMatch(s.store[d.id], Out(s.outputs, d.id))
    ensures Base(m, g.state, d) == Feed(m, m.zero, Fed(s.store[d.id], Out(s.outputs, d.id)))
    ensures d.isDecode ==> Out(s.outputs, d.id) != [] && TokensOf(g.last, d) == [Out(s.outputs, d.id)[|Out(s.outputs, d.id)| - 1]]
  {
  }

  // What a record feeds extends what the request has been fed.
  lemma FedGrows(cfg: Config, s: Sched, slots: Option<Slots>, d: RunData, last: seq<Token>)
    requires RunOk(cfg, s, slots, d)
    requires OutputsMatch(s.store[d.id], Out(s.outputs, d.id))
    requires d.isDecode ==> Out(s.outputs, d.id) != [] && TokensOf(last, d) == [Out(s.outputs, d.id)[|Out(s.outputs, d.id)| - 1]]
    ensures var r, outs := s.store[d.id], Out(s.outputs, d.id);
      Fed(r.(computed := r.computed + d.numTokens), outs) == Fed(r, outs) + TokensOf(last, d)
  {
    var r, outs := s.store[d.id], Out(s.outputs, d.id);
    var all := r.prompt + outs;
    if d.isDecode {
      assert all[..r.computed + 1] == all[..r.computed] + [all[r.computed]];
    } else {
      assert all[..r.computed + d.numTokens] == all[..r.computed] + r.prompt[r.computed..r.computed + d.numTokens];
    }
  }

  // A scheduled request after its forward pass and sample is again as if it had run alone.
  lemma ScheduledStaysOk<S>(
      cfg: Config, m: Rnn<S>, s: Sched, slots: Option<Slots>, d: RunData, last: seq<Token>, row: S, sampled: map<ReqId, Token>)
    requires RunOk(cfg, s, slots, d)
    requires OutputsMatch(s.store[d.id], Out(s.outputs, d.id))
    requires forall t :: t in Out(s.outputs, d.id) ==> t >= 0
    requires d.isDecode ==> Out(s.outputs, d.id) != [] && TokensOf(last, d) == [Out(s.outputs, d.id)[|Out(s.outputs, d.id)| - 1]]
    requires row == Feed(m, Feed(m, m.zero, Fed(s.store[d.id], Out(s.outputs, d.id))), TokensOf(last, d))
    requires d.id in sampled <==> Samples(d)
    requires d.id in sampled ==> sampled[d.id] >= 0
    ensures var r := s.store[d.id].(computed := s.store[d.id].computed + d.numTokens);
      var outs := Out(s.outputs, d.id) + TokensFor(sampled, d.id);
      forall l :: (Samples(d) ==> l == sampled[d.id]) ==> RequestOk(cfg, m, r, outs, row, l)
  {
    var r, outs := s.store[d.id], Out(s.outputs, d.id);
    var r' := r.(computed := r.computed + d.numTokens);
    FedGrows(cfg, s, slots, d, last);
    FeedAppend(m, m.zero, Fed(r, outs), TokensOf(last, d));
    assert row == Feed(m, m.zero, Fed(r', outs));
    FedIgnoresNewest(cfg, s, slots, d, TokensFor(sampled, d.id));
  }

  // The token sampled in this step has not been fed yet.
  lemma FedIgnoresNewest(cfg: Config, s: Sched, slots: Option<Slots>, d: RunData, newest: seq<Token>)
    requires RunOk(cfg, s, slots, d)
    requires OutputsMatch(s.store[d.id], Out(s.outputs, d.id))
    ensures var r, outs := s.store[d.id].(computed := s.store[d.id].computed + d.numTokens), Out(s.outputs, d.id);
      Fed(r, outs + newest) == Fed(r, outs)
  {
    var r, outs := s.store[d.id].(computed := s.store[d.id].computed + d.numTokens), Out(s.outputs, d.id);
    assert r.prompt + (outs + newest) == (r.prompt + outs) + newest;
    assert r.computed <= |r.prompt + outs|;
  }

  // ---------------------------------------------------------------- the batch

  lemma SlotsDistinct(cfg: Config, s: Sched, o: Scheduled)
    requires o.slots.Some? && WorkOk(cfg, s, o) && SlotsInv(cfg, o.sched.running, o.sched.runningMap, o.slots)
    ensures DistinctSlots(o.data, cfg.maxNumSeqs)
    ensures forall d :: d in o.data ==> d.slot == o.slots.value.reqToSlot[d.id] && d.slot < |o.sched.running|
  {
    var st := o.slots.value;
    forall d | d in o.data
      ensures d.id in st.reqToSlot && d.slot == st.reqToSlot[d.id] && d.slot < |o.sched.running| && st.slotToReq[d.slot] == d.id
    {
      assert RunOk(cfg, s, o.slots, d);
    }
    assert forall i :: 0 <= i < |o.data| ==> o.data[i] in o.data;
  }

  lemma {:induction false} MinTokenNonNegative(last: seq<Token>, data: seq<RunData>)
    requires forall d :: d in data ==> d.slot < |last| && last[d.slot] >= 0
    ensures MinToken(last, data).Some? ==> MinToken(last, data).value >= 0
  {
    if data != [] {
      assert forall d :: d in data[1..] ==> d in data;
      MinTokenNonNegative(last, data[1..]);
    }
  }

  // The forward pass raises nothing and touches borrowed pad rows only outside the occupied prefix.
  lemma ExecuteCorrect<S>(m: Rnn<S>, g: Gpu<S>, slots: Slots, n: nat, data: seq<RunData>, captured: Option<nat>)
    requires Dense(slots, n) && data != [] && |g.state| == |g.last|
    requires g.minPrev.Some? ==> g.minPrev.value >= 0
    requires forall d :: d in data ==> d.slot < |g.last| && (d.isDecode ==> g.last[d.slot] >= 0)
    ensures Execute(m, g, slots, data, captured).Some?
    ensures var g' := Execute(m, g, slots, data, captured).value;
      && |g'.state| == |g'.last| == |g.state|
      && (g'.minPrev.Some? ==> g'.minPrev.value >= 0)
      && (forall k :: 0 <= k < n && k < |g.state| ==> g'.state[k] == Forward(m, g.state, g.last, data)[k] && g'.last[k] == g.last[k])
  {
    if IsUniform(data) {
      assert forall d :: d in data ==> d.isDecode;
      MinTokenNonNegative(g.last, data);
      assert forall k :: k in PadsFor(slots, |data|, captured) ==> k >= n;
    }
  }

  // Rows before the batch: running requests own their rows, newcomers start from nothing.
  ghost predicate ReadyFor<S>(cfg: Config, m: Rnn<S>, s: Sched, o: Scheduled, g: Gpu<S>, id: ReqId)
    requires o.slots.Some?
  {
    && id in s.store && id in o.slots.value.reqToSlot && o.slots.value.reqToSlot[id] < |g.state| == |g.last|
    && (RequestOk(cfg, m, s.store[id], Out(s.outputs, id), g.state[o.slots.value.reqToSlot[id]], g.last[o.slots.value.reqToSlot[id]])
        || (id in DataIds(o.data) && s.store[id].computed == 0 && s.store[id].prompt != [] && Out(s.outputs, id) == []))
  }

  lemma AllReady<S>(cfg: Config, m: Rnn<S>, e: Engine<S>, o: Scheduled, id: ReqId)
    requires EngineInv(cfg, m, e) && o.slots.Some?
    requires StateOk(cfg, e.sched, Some(e.slots), o) && WorkOk(cfg, e.sched, o)
    requires id in o.sched.runningMap
    ensures ReadyFor(cfg, m, e.sched, o, e.gpu, id)
  {
    assert id in Live(o.sched) && id in Live(e.sched);
    assert SlotsInv(cfg, o.sched.running, o.sched.runningMap, o.slots);
    var k := o.slots.value.reqToSlot[id];
    assert k in o.slots.value.slotToReq;
    if id in e.sched.runningMap {
      assert SlotOf(o.slots, id) == SlotOf(Some(e.slots), id);
    } else {
      assert id !in e.sched.outputs;
    }
  }

  // The device after the forward pass and the write-back of the samples.
  ghost predicate Executed<S>(m: Rnn<S>, n: nat, data: seq<RunData>, sampled: map<ReqId, Token>, g: Gpu<S>, g': Gpu<S>) {
    && |g'.state| == |g'.last| == |g.state| == |g.last|
    && (forall k :: 0 <= k < n && k < |g.state| ==>
          && g'.state[k] == Forward(m, g.state, g.last, data)[k]
          && g'.last[k] == WriteBack(g.last, data, sampled)[k])
  }

  lemma ScheduledRow<S>(
      cfg: Config, m: Rnn<S>, s: Sched, o: Scheduled, g: Gpu<S>, g': Gpu<S>, sampled: map<ReqId, Token>, d: RunData)
    requires o.slots.Some? && d in o.data && ReadyFor(cfg, m, s, o, g, d.id)
    requires RunOk(cfg, s, o.slots, d) && d.slot < |o.sched.running|
    requires Executed(m, |o.sched.running|, o.data, sampled, g, g') && DistinctSlots(o.data, |g.state|)
    requires forall e :: e in o.data ==> (e.id in sampled <==> Samples(e))
    requires forall id :: id in sampled ==> sampled[id] >= 0
    ensures RequestOk(
      cfg, m, s.store[d.id].(computed := s.store[d.id].computed + d.numTokens),
      Out(s.outputs, d.id) + TokensFor(sampled, d.id), g'.state[d.slot], g'.last[d.slot])
  {
    ForwardIsolated(m, g.state, g.last, o.data);
    WriteBackRows(g.last, o.data, sampled);
    BaseIsOwn(cfg, m, s, o.slots.value, g, d);
    hide RunOk, RequestOk, Base, DistinctSlots;
    assert forall t :: t in Out(s.outputs, d.id) ==> t >= 0 by { OwnTokens(cfg, m, s, o, g, d.id); }
    ScheduledStaysOk(cfg, m, s, o.slots, d, g.last, g'.state[d.slot], sampled);
  }

  lemma OwnTokens<S>(cfg: Config, m: Rnn<S>, s: Sched, o: Scheduled, g: Gpu<S>, id: ReqId)
    requires o.slots.Some? && ReadyFor(cfg, m, s, o, g, id)
    ensures forall t :: t in Out(s.outputs, id) ==> t >= 0
  {
  }

  lemma UnscheduledRow<S>(
      cfg: Config, m: Rnn<S>, s: Sched, o: Scheduled, g: Gpu<S>, g': Gpu<S>, sampled: map<ReqId, Token>, id: ReqId)
    requires o.slots.Some? && ReadyFor(cfg, m, s, o, g, id) && id !in DataIds(o.data)
    requires SlotsInv(cfg, o.sched.running, o.sched.runningMap, o.slots) && id in o.sched.runningMap
    requires forall d :: d in o.data ==> d.id in o.slots.value.reqToSlot && d.slot == o.slots.value.reqToSlot[d.id]
    requires Executed(m, |o.sched.running|, o.data, sampled, g, g') && DistinctSlots(o.data, |g.state|)
    requires forall d :: d in o.data ==> (d.id in sampled <==> Samples(d))
    ensures var k := o.slots.value.reqToSlot[id]; RequestOk(cfg, m, s.store[id], Out(s.outputs, id), g'.state[k], g'.last[k])
  {
    var st := o.slots.value;
    var k := st.reqToSlot[id];
    assert st.slotToReq[k] == id;
    assert forall d :: d in o.data ==> d.slot != k by {
      assert forall d :: d in o.data ==> st.slotToReq[d.slot] == d.id && d.id != id;
    }
    hide RequestOk, Dense, DistinctIds;
    ForwardIsolated(m, g.state, g.last, o.data);
    WriteBackRows(g.last, o.data, sampled);
    assert k < |o.sched.running|;
  }

  lemma BatchRow<S>(
      cfg: Config, m: Rnn<S>, s: Sched, slots: Option<Slots>, o: Scheduled, g: Gpu<S>, g': Gpu<S>, sampled: map<ReqId, Token>, id: ReqId)
    requires StateOk(cfg, s, slots, o) && WorkOk(cfg, s, o) && o.slots.Some?
    requires id in o.sched.runningMap && ReadyFor(cfg, m, s, o, g, id) && id in s.store
    requires |g.state| == cfg.maxNumSeqs
    requires Executed(m, |o.sched.running|, o.data, sampled, g, g')
    requires forall d :: d in o.data ==> (d.id in sampled <==> Samples(d))
    requires forall id :: id in sampled ==> sampled[id] >= 0
    ensures var k := o.slots.value.reqToSlot[id];
      RequestOk(cfg, m, o.sched.store[id], Out(Record(o.sched.outputs, o.data, sampled), id), g'.state[k], g'.last[k])
  {
    hide RequestOk, SchedInv, Live, Record, RunOk, ReadyFor, Executed, DistinctSlots, SlotsInv, TokensFor, LongLimit, DistinctIds, SumTokens;
    OutputsKnown(cfg, s, slots, o, id);
    SlotsDistinct(cfg, s, o);
    RecordCorrect(o.sched.outputs, o.data, sampled);
    if id in DataIds(o.data) {
      var d :| d in o.data && d.id == id;
      ScheduledRow(cfg, m, s, o, g, g', sampled, d);
    } else {
      ReqInSlots(cfg, o);
      UnscheduledRow(cfg, m, s, o, g, g', sampled, id);
    }
  }

  lemma OutputsKnown(cfg: Config, s: Sched, slots: Option<Slots>, o: Scheduled, id: ReqId)
    requires StateOk(cfg, s, slots, o) && id in o.sched.runningMap
    ensures id in o.sched.outputs && Out(o.sched.outputs, id) == Out(s.outputs, id)
  {
  }

  lemma ReqInSlots(cfg: Config, o: Scheduled)
    requires o.slots.Some? && SlotsInv(cfg, o.sched.running, o.sched.runningMap, o.slots)
    ensures forall id :: id in o.sched.runningMap ==> id in o.slots.value.reqToSlot
  {
  }

  // After the forward pass every running request is as if it had run alone, one batch further on.
  lemma BatchRows<S>(cfg: Config, m: Rnn<S>, e: Engine<S>, o: Scheduled, g': Gpu<S>, sampled: map<ReqId, Token>)
    requires EngineInv(cfg, m, e) && o.slots.Some?
    requires StateOk(cfg, e.sched, Some(e.slots), o) && WorkOk(cfg, e.sched, o)
    requires Executed(m, |o.sched.running|, o.data, sampled, e.gpu, g')
    requires forall d :: d in o.data ==> (d.id in sampled <==> Samples(d))
    requires forall id :: id in sampled ==> sampled[id] >= 0
    ensures RowsOk(cfg, m, o.sched.store, o.sched.runningMap, Record(o.sched.outputs, o.data, sampled), o.slots.value.reqToSlot, g')
  {
    hide RequestOk, SchedInv, OutputsMatch, Record, WorkOk;
    forall id | id in o.sched.runningMap
      ensures id in o.sched.store && id in o.slots.value.reqToSlot && o.slots.value.reqToSlot[id] < |g'.state| == |g'.last|
      ensures var k := o.slots.value.reqToSlot[id];
        RequestOk(cfg, m, o.sched.store[id], Out(Record(o.sched.outputs, o.data, sampled), id), g'.state[k], g'.last[k])
    {
      AllReady(cfg, m, e, o, id);
      BatchRow(cfg, m, e.sched, Some(e.slots), o, e.gpu, g', sampled, id);
    }
  }

  lemma SampledIds(data: seq<RunData>, oracle: map<ReqId, nat>)
    requires DistinctIds(data)
    ensures forall d :: d in data ==> (d.id in Sampled(data, oracle) <==> Samples(d))
    ensures forall id :: id in Sampled(data, oracle) ==> Sampled(data, oracle)[id] >= 0
  {
    forall d | d in data && d.id in Sampled(data, oracle) ensures Samples(d) {
      var e :| e in data && Samples(e) && e.id == d.id;
      assert e == d;
    }
  }
}
