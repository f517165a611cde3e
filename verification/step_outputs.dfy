/** What a step answers: who gets an output, with which tokens, and whose output is the last. */
module StepOutputs {
  import opened Wrappers
  import opened Requests
  import opened StateSlots
  import opened Scheduling
  import opened SchedulingInvariants
  import opened ModelRunner
  import opened Completion
  import opened EngineStep
  import opened EngineSettle
  import opened EngineRuns

  // The batch samples a token for the request: it decodes, or its prompt is covered.
  predicate SampledIn(data: seq<RunData>, id: ReqId) {
    exists d :: d in data && d.id == id && (d.isDecode || d.isLastPrefill)
  }

  function TokenFor(oracle: map<ReqId, nat>, id: ReqId): Token {
    if id in oracle then oracle[id] else 0
  }

  // A token a request ends with: its end-of-sequence token, unless ignored, or one of its stop tokens.
  predicate EndsIt(p: SamplingParams, t: Token) {
    (!p.ignoreEos && p.eosTokenId == Some(t)) || t in p.stopTokenIds
  }

  // ---------------------------------------------------------------- one batch applied

  // The samples of a batch.
  ghost predicate SamplesOf(data: seq<RunData>, sampled: map<ReqId, Token>) {
    DistinctIds(data) && forall id :: id in sampled <==> SampledIn(data, id)
  }

  // With a slot manager, every running request has a slot.
  ghost predicate Slotted(s: Sched, slots: Option<Slots>) {
    slots.Some? ==> s.runningMap <= slots.value.reqToSlot.Keys
  }

  lemma StopHitIs(p: SamplingParams, sampled: map<ReqId, Token>, id: ReqId)
    ensures StopHit(p, TokensFor(sampled, id)) <==> id in sampled && EndsIt(p, sampled[id])
  {
    if id in sampled {
      assert TokensFor(sampled, id)[0] == sampled[id];
    }
  }

  // Who leaves: named by the scheduler, or sampled a token that ends it.
  lemma FinishingIs(s: Sched, data: seq<RunData>, finished: set<ReqId>, sampled: map<ReqId, Token>, id: ReqId)
    requires SchedInv(s) && SamplesOf(data, sampled)
    ensures id in Finishing(s, data, finished, sampled) <==>
      id in s.runningMap && (id in finished || (id in sampled && EndsIt(Req(s.store, id).params, sampled[id])))
  {
    hide StopHit, Live, Once, DistinctIds;
    StopHitIs(Req(s.store, id).params, sampled, id);
  }

  lemma UpdatedRunning(s: Sched, slots: Option<Slots>, data: seq<RunData>, finished: set<ReqId>, sampled: map<ReqId, Token>, id: ReqId)
    requires SchedInv(s) && SamplesOf(data, sampled)
    ensures var u := Update(s, slots, data, finished, sampled);
      && (id in u.sched.runningMap <==>
            id in s.runningMap && id !in finished && !(id in sampled && EndsIt(Req(s.store, id).params, sampled[id])))
      && (id in u.sched.runningMap ==> Out(u.sched.outputs, id) == Out(s.outputs, id) + TokensFor(sampled, id))
      && u.sched.store == s.store
  {
    hide StopHit, Live, Once, Finishing, FinalOutput, Opens, Drop, Record, SampledIn;
    FinishingIs(s, data, finished, sampled, id);
    RecordCorrect(s.outputs, data, sampled);
    NotSampled(data, sampled, id);
  }

  lemma NotSampled(data: seq<RunData>, sampled: map<ReqId, Token>, id: ReqId)
    requires SamplesOf(data, sampled)
    ensures id !in DataIds(data) ==> id !in sampled
  {
  }

  // Who is told something, and what.
  lemma UpdatedOutputs(s: Sched, slots: Option<Slots>, data: seq<RunData>, finished: set<ReqId>, sampled: map<ReqId, Token>, id: ReqId)
    requires SchedInv(s) && SamplesOf(data, sampled) && Slotted(s, slots)
    ensures var u := Update(s, slots, data, finished, sampled);
      && (id in u.outputs <==> id in s.runningMap && (id in finished || id in sampled))
      && (id in u.outputs ==>
            && u.outputs[id].tokens == TokensFor(sampled, id)
            && (u.outputs[id].finish.Some? <==> id !in u.sched.runningMap))
  {
    hide StopHit, Live, Once, Finishing, Drop, Record, SampledIn, Classify, DistinctIds, EndsIt;
    var u := Update(s, slots, data, finished, sampled);
    var done := Finishing(s, data, finished, sampled);
    FinishingIs(s, data, finished, sampled, id);
    RecordCorrect(s.outputs, data, sampled);
    if id in done {
      AllReported(s, slots, data, id);
    }
    OpensAre(s, data, sampled, done, id);
  }

  lemma AllReported(s: Sched, slots: Option<Slots>, data: seq<RunData>, id: ReqId)
    requires id in s.runningMap && Slotted(s, slots)
    ensures Reported(slots, data, id)
  {
  }

  lemma OpensAre(s: Sched, data: seq<RunData>, sampled: map<ReqId, Token>, done: set<ReqId>, id: ReqId)
    requires SamplesOf(data, sampled)
    ensures var o := Opens(data, sampled, done, s.outputs.Keys - done);
      && (id in o <==> id in sampled && id in s.outputs && id !in done)
      && (id in o ==> o[id] == CoreOutput(TokensFor(sampled, id), None, None))
  {
    if id in sampled {
      var d :| d in data && d.id == id && (d.isDecode || d.isLastPrefill);
      assert TokensFor(sampled, d.id) != [];
    }
  }

  // A request that ends is told so, unless there is a slot manager that knows no slot for it and the batch
  // has no record of it: then it leaves, and holds back nothing, without a word.
  lemma SilentIffSlotless(s: Sched, slots: Option<Slots>, data: seq<RunData>, finished: set<ReqId>, sampled: map<ReqId, Token>, id: ReqId)
    requires SchedInv(s) && DistinctIds(data) && id in s.runningMap && id in finished
    ensures var u := Update(s, slots, data, finished, sampled);
      && id !in u.sched.runningMap
      && (id in u.outputs <==> slots.None? || id in DataIds(data) || id in slots.value.reqToSlot)
      && (id in u.freedIds <==> slots.Some? && (id in DataIds(data) || id in slots.value.reqToSlot))
  {
    hide SchedInv, Drop, Record, FinalOutput, Stopped;
    FindDataCorrect(data, id);
  }

  // The reason a request ends with: "length" without a token of its own in the batch; otherwise the
  // end-of-sequence token has the say where it is looked for, and the stop tokens where it is not.
  function ReasonFor(p: SamplingParams, t: Option<Token>): (FinishReason, Option<Token>) {
    if t.None? then (Length, None)
    else if !p.ignoreEos && p.eosTokenId.Some? then if p.eosTokenId == t then (Eos, t) else (Length, None)
    else if t.value in p.stopTokenIds then (Stop, t)
    else (Length, None)
  }

  // None of these tokens ends the request.
  ghost predicate NoEnd(p: SamplingParams, tokens: seq<Token>) {
    forall t :: t in tokens ==> !EndsIt(p, t)
  }

  lemma {:induction false} LastStopIs(tokens: seq<Token>, t: Token, stops: seq<Token>)
    requires forall x :: x in tokens ==> x !in stops
    ensures LastStop(tokens + [t], stops) == if t in stops then Some(t) else None
  {
    assert (tokens + [t])[..|tokens|] == tokens;
    NoStopAmong(tokens, stops);
  }

  lemma {:induction false} NoStopAmong(tokens: seq<Token>, stops: seq<Token>)
    requires forall x :: x in tokens ==> x !in stops
    ensures LastStop(tokens, stops) == None
  {
    if tokens != [] {
      var t := tokens[|tokens| - 1];
      assert t in tokens;
      assert forall x :: x in tokens[..|tokens| - 1] ==> x in tokens;
      NoStopAmong(tokens[..|tokens| - 1], stops);
    }
  }

  lemma ClassifyIs(p: SamplingParams, data: seq<RunData>, outs: seq<Token>, sampled: map<ReqId, Token>, id: ReqId)
    requires SamplesOf(data, sampled) && NoEnd(p, outs) && (id in DataIds(data) ==> id in sampled)
    ensures Classify(Some(p), FindData(data, id), outs + TokensFor(sampled, id))
         == ReasonFor(p, if id in sampled then Some(sampled[id]) else None)
  {
    FindDataCorrect(data, id);
    NotSampled(data, sampled, id);
    if id in sampled {
      LastStopIs(outs, sampled[id], p.stopTokenIds);
    }
  }

  // The reason given to a request that leaves.
  lemma UpdatedReason(s: Sched, slots: Option<Slots>, data: seq<RunData>, finished: set<ReqId>, sampled: map<ReqId, Token>, id: ReqId)
    requires SchedInv(s) && SamplesOf(data, sampled) && Slotted(s, slots) && finished !! DataIds(data)
    requires id in s.runningMap && NoEnd(Req(s.store, id).params, Out(s.outputs, id))
    ensures var u := Update(s, slots, data, finished, sampled);
      id !in u.sched.runningMap ==>
        && id in u.outputs && u.outputs[id].finish.Some?
        && (u.outputs[id].finish.value, u.outputs[id].stop)
           == ReasonFor(Req(s.store, id).params, if id in sampled then Some(sampled[id]) else None)
  {
    hide StopHit, Live, Once, Drop, Record, SampledIn, Classify, DistinctIds, EndsIt, NoEnd, Finishing;
    var u := Update(s, slots, data, finished, sampled);
    FinishingIs(s, data, finished, sampled, id);
    RecordCorrect(s.outputs, data, sampled);
    if id in Finishing(s, data, finished, sampled) {
      AllReported(s, slots, data, id);
      NotSampled(data, sampled, id);
      ClassifyIs(Req(s.store, id).params, data, Out(s.outputs, id), sampled, id);
      assert id !in DataIds(data) ==> Out(s.outputs, id) + TokensFor(sampled, id) == Out(s.outputs, id);
      assert Out(Record(s.outputs, data, sampled), id) == Out(s.outputs, id) + TokensFor(sampled, id);
    }
  }

  // ---------------------------------------------------------------- the step

  // The tokens a step samples, by the batch its scheduling call makes.
  function Gained(o: Scheduled, oracle: map<ReqId, nat>, id: ReqId): Option<Token> {
    if SampledIn(o.data, id) then Some(TokenFor(oracle, id)) else None
  }

  function AsTokens(t: Option<Token>): seq<Token> {
    if t.None? then [] else [t.value]
  }

  // What a step answers for one request, where `o` is its scheduling call.
  ghost predicate Answers<S>(
      cfg: Config, e: Engine<S>, e': Engine<S>, outs: map<ReqId, CoreOutput>, oracle: map<ReqId, nat>, id: ReqId)
  {
    var o := Schedule(cfg, e.sched, Some(e.slots));
    var gained := Gained(o, oracle, id);
    var aborted := id in AbortIds(e.aborts);
    var left := id in Live(e.sched) && id !in Live(e'.sched);
    // who is told something, what, and whether it is the last
    && (id in outs <==> !aborted && (gained.Some? || left))
    && (id in outs ==> outs[id].tokens == AsTokens(gained) && (outs[id].finish.Some? <==> left))
    // the record gains exactly that
    && (id in e'.sched.runningMap ==> Out(e'.sched.outputs, id) == Out(e.sched.outputs, id) + AsTokens(gained))
    // who leaves
    && (left && !aborted <==>
          !aborted && id in o.sched.runningMap
          && (id in o.finished || (gained.Some? && EndsIt(Req(e.sched.store, id).params, gained.value))))
    // and why
    && (left && !aborted && NoEnd(Req(e.sched.store, id).params, Out(e.sched.outputs, id)) ==>
          (outs[id].finish.value, outs[id].stop) == ReasonFor(Req(e.sched.store, id).params, gained))
  }

  // The samples of a step are those of its batch.
  lemma SampledAre(data: seq<RunData>, oracle: map<ReqId, nat>)
    requires DistinctIds(data)
    ensures SamplesOf(data, Sampled(data, oracle))
    ensures forall id :: id in Sampled(data, oracle) ==> Sampled(data, oracle)[id] == TokenFor(oracle, id)
  {
    forall id ensures id in Sampled(data, oracle) <==> SampledIn(data, id) {
    }
  }

  // What the first half of a step hands to the second.
  lemma BeginShape<S>(cfg: Config, m: Rnn<S>, e: Engine<S>, oracle: map<ReqId, nat>, captured: Option<nat>)
    ensures var o := Schedule(cfg, e.sched, Some(e.slots));
      match Begin(cfg, m, e, oracle, captured)
      case Raised => true
      case Over(e') =>
        && e'.aborts == e.aborts
        && if HasRequests(e.sched) then e'.sched == o.sched && SumTokens(o.data) == 0 && o.finished == {} else e' == e
      case GoesOn(x) =>
        && HasRequests(e.sched) && o.slots == Some(x.engine.slots) && x.engine.sched == o.sched && x.engine.aborts == e.aborts
        && x.data == o.data && x.finished == o.finished
        && x.sampled == (if SumTokens(o.data) == 0 then map[] else Sampled(o.data, oracle))
        && (x.ran <==> SumTokens(o.data) != 0) && (SumTokens(o.data) == 0 ==> o.finished != {})
  {
    hide Schedule, Execute, Sampled, WriteBack, SumTokens, HasRequests;
  }

  lemma IdleSchedule(cfg: Config, s: Sched, slots: Option<Slots>)
    requires !HasRequests(s)
    ensures Schedule(cfg, s, slots).data == [] && Schedule(cfg, s, slots).finished == {}
    ensures Schedule(cfg, s, slots).sched.runningMap == s.runningMap
  {
  }

  lemma OneAborted(s: Sched, ids: set<ReqId>, id: ReqId)
    requires SchedInv(s)
    ensures var s' := AbortSet(s, ids);
      && SchedInv(s') && s'.store == s.store && s'.runningMap == s.runningMap - ids
      && (id in Live(s') <==> id in Live(s) && id !in ids)
      && (id !in ids ==> Out(s'.outputs, id) == Out(s.outputs, id))
  {
    hide SchedInv, Drop, Live;
    AbortKeepsInv(s, ids);
    assert id in Live(AbortSet(s, ids)) <==> Live(AbortSet(s, ids))[id] > 0;
  }

  // Only running requests finish.
  lemma UpdatedLive(s: Sched, slots: Option<Slots>, data: seq<RunData>, finished: set<ReqId>, sampled: map<ReqId, Token>, id: ReqId)
    requires SchedInv(s) && SamplesOf(data, sampled)
    ensures var s' := Update(s, slots, data, finished, sampled).sched;
      id in Live(s') <==> id in Live(s) && (id in s.runningMap ==> id in s'.runningMap)
  {
    hide SchedInv, Drop, Live, Finishing, FinalOutput, Opens, Record, SampledIn, DistinctIds;
    UpdateKeepsInv(s, slots, data, finished, sampled);
    FinishingIs(s, data, finished, sampled, id);
    UpdatedRunning(s, slots, data, finished, sampled, id);
    var s' := Update(s, slots, data, finished, sampled).sched;
    assert id in Live(s') <==> Live(s')[id] > 0;
  }

  // What the scheduling call says of one request.
  lemma ScheduledFacts(cfg: Config, s: Sched, slots: Option<Slots>, o: Scheduled, id: ReqId)
    requires StateOk(cfg, s, slots, o) && WorkOk(cfg, s, o)
    ensures SchedInv(o.sched) && Live(o.sched) == Live(s) && DistinctIds(o.data) && o.finished !! DataIds(o.data)
    ensures (SampledIn(o.data, id) ==> id in o.sched.runningMap) && (id in o.finished ==> id in o.sched.runningMap)
    ensures id in o.sched.runningMap ==>
      && Req(o.sched.store, id).params == Req(s.store, id).params
      && id in Live(s) && Out(o.sched.outputs, id) == Out(s.outputs, id)
    ensures Slotted(o.sched, o.slots)
  {
    hide RunOk, SchedInv, Slotted, SampledIn, Live;
    ScheduledAreSlotted(cfg, s, slots, o);
    SampledRun(cfg, s, slots, o, id);
    RunningAreLive(o.sched);
    if id in o.sched.runningMap {
      assert id in o.sched.store;
      AdvancedFields(s.store, o.data, o.sched.store, id);
    }
  }

  lemma ScheduledAreSlotted(cfg: Config, s: Sched, slots: Option<Slots>, o: Scheduled)
    requires StateOk(cfg, s, slots, o)
    ensures Slotted(o.sched, o.slots)
  {
    hide Live, SchedInv;
  }

  lemma SampledRun(cfg: Config, s: Sched, slots: Option<Slots>, o: Scheduled, id: ReqId)
    requires StateOk(cfg, s, slots, o) && WorkOk(cfg, s, o)
    ensures (SampledIn(o.data, id) ==> id in o.sched.runningMap) && (id in o.finished ==> id in o.sched.runningMap)
  {
    hide Live, SchedInv;
  }

  lemma RunningAreLive(s: Sched)
    requires SchedInv(s)
    ensures forall id :: id in s.runningMap ==> id in Live(s) && id in s.store && id in s.outputs
  {
    assert forall id :: id in s.runningMap ==> id in multiset(s.running);
  }

  // The same of the batch after it has been applied, with the aborts drained before.
  lemma AppliedAnswers(cfg: Config, s: Sched, slots: Option<Slots>, o: Scheduled, ids: set<ReqId>, sampled: map<ReqId, Token>, id: ReqId)
    requires StateOk(cfg, s, slots, o) && WorkOk(cfg, s, o) && SamplesOf(o.data, sampled)
    ensures var u := Update(AbortSet(o.sched, ids), o.slots, o.data, o.finished, sampled);
      var aborted, left := id in ids, id in Live(s) && id !in Live(u.sched);
      var gained := if id in sampled then Some(sampled[id]) else None;
      && (id in u.outputs <==> !aborted && (gained.Some? || left))
      && (id in u.outputs ==> u.outputs[id].tokens == AsTokens(gained) && (u.outputs[id].finish.Some? <==> left))
      && (id in u.sched.runningMap ==> Out(u.sched.outputs, id) == Out(s.outputs, id) + AsTokens(gained))
      && (left && !aborted <==>
            !aborted && id in o.sched.runningMap
            && (id in o.finished || (gained.Some? && EndsIt(Req(s.store, id).params, gained.value))))
      && (left && !aborted && NoEnd(Req(s.store, id).params, Out(s.outputs, id)) ==>
            (u.outputs[id].finish.value, u.outputs[id].stop) == ReasonFor(Req(s.store, id).params, gained))
  {
    hide StateOk, WorkOk, SchedInv, Live, AbortSet, Update, EndsIt, NoEnd, ReasonFor, SampledIn, DistinctIds;
    var s1 := AbortSet(o.sched, ids);
    var gained := if id in sampled then Some(sampled[id]) else None;
    ScheduledFacts(cfg, s, slots, o, id);
    OneAborted(o.sched, ids, id);
    RunningAreLive(s1);
    UpdatedRunning(s1, o.slots, o.data, o.finished, sampled, id);
    UpdatedOutputs(s1, o.slots, o.data, o.finished, sampled, id);
    UpdatedLive(s1, o.slots, o.data, o.finished, sampled, id);
    if id in s1.runningMap && NoEnd(Req(s.store, id).params, Out(s.outputs, id)) {
      UpdatedReason(s1, o.slots, o.data, o.finished, sampled, id);
    }
  }

  // A step answers exactly that, whatever the batch was.
  lemma {:induction false} StepAnswers<S>(
      cfg: Config, m: Rnn<S>, e: Engine<S>, oracle: map<ReqId, nat>, captured: Option<nat>, id: ReqId)
    requires ValidConfig(cfg) && EngineInv(cfg, m, e)
    ensures Step(cfg, m, e, oracle, captured).Some?
    ensures var st := Step(cfg, m, e, oracle, captured).value; Answers(cfg, e, st.engine, st.outputs, oracle, id)
  {
    hide RowsOk, LongLimit, SchedInv, Live, Schedule, Step, Begin, StateOk, WorkOk, AbortSet, Update, SampledIn, SumTokens, HasRequests;
    var o := Schedule(cfg, e.sched, Some(e.slots));
    StepCorrect(cfg, m, e, oracle, captured);
    ScheduleCorrect(cfg, e.sched, Some(e.slots));
    BeginSettles(cfg, m, e, oracle, captured);
    BeginShape(cfg, m, e, oracle, captured);
    ScheduledFacts(cfg, e.sched, Some(e.slots), o, id);
    RecordsPositive(cfg, e.sched, o);
    SumAtLeastCount(o.data);
    match Begin(cfg, m, e, oracle, captured)
    case Over(e') =>
      if !HasRequests(e.sched) {
        IdleSchedule(cfg, e.sched, Some(e.slots));
      }
      NobodyAnswered(cfg, e, e', o, oracle, id);
    case GoesOn(x) =>
      SampledAre(o.data, oracle);
      assert SumTokens(o.data) == 0 ==> o.data == [];
      NoSamples(o.data);
      assert SamplesOf(o.data, x.sampled);
      AppliedAnswers(cfg, e.sched, Some(e.slots), o, AbortIds(e.aborts), x.sampled, id);
      SettledParts(x.engine, x.data, x.finished, x.sampled, x.ran);
  }

  lemma NoSamples(data: seq<RunData>)
    ensures data == [] ==> SamplesOf(data, map[])
  {
  }

  lemma SettledParts<S>(e: Engine<S>, data: seq<RunData>, finished: set<ReqId>, sampled: map<ReqId, Token>, ran: bool)
    ensures var st := Settle(e, data, finished, sampled, ran);
      var u := Update(AbortSet(e.sched, AbortIds(e.aborts)), Some(e.slots), data, finished, sampled);
      st.Some? ==> st.value.engine.sched == u.sched && st.value.outputs == u.outputs && st.value.ran == ran && st.value.engine.aborts == []
  {
    hide Update, AbortSet, BatchCondense;
  }

  lemma NobodyAnswered<S>(cfg: Config, e: Engine<S>, e': Engine<S>, o: Scheduled, oracle: map<ReqId, nat>, id: ReqId)
    requires o == Schedule(cfg, e.sched, Some(e.slots)) && o.data == [] && o.finished == {}
    requires e'.sched == o.sched || e' == e
    requires Live(o.sched) == Live(e.sched)
    requires id in o.sched.runningMap ==> id in Live(e.sched) && Out(o.sched.outputs, id) == Out(e.sched.outputs, id)
    ensures Answers(cfg, e, e', map[], oracle, id)
  {
    hide Schedule, Live;
  }

  // What a step leaves of everything else: the requests themselves, who can still be live, the abort queue.
  ghost predicate Frames<S>(cfg: Config, e: Engine<S>, e': Engine<S>, ran: bool, id: ReqId) {
    var o := Schedule(cfg, e.sched, Some(e.slots));
    && e'.sched.store.Keys == e.sched.store.Keys && Req(e'.sched.store, id).params == Req(e.sched.store, id).params
    && (id in Live(e'.sched) ==> id in Live(e.sched))
    && (id in o.sched.runningMap && id in Live(e'.sched) <==> id in e'.sched.runningMap)
    && (SampledIn(o.data, id) ==> id in o.sched.runningMap)
    && (id in o.sched.runningMap ==> id in Live(e.sched))
    && (id in e.sched.runningMap ==> id in o.sched.runningMap)
    && (id in AbortIds(e.aborts) && (o.data != [] || o.finished != {}) ==> id !in Live(e'.sched))
    && e'.aborts == (if o.data == [] && o.finished == {} then e.aborts else [])
    && (ran <==> o.data != [])
  }

  lemma AppliedFrames(cfg: Config, s: Sched, slots: Option<Slots>, o: Scheduled, ids: set<ReqId>, sampled: map<ReqId, Token>, id: ReqId)
    requires StateOk(cfg, s, slots, o) && WorkOk(cfg, s, o) && SamplesOf(o.data, sampled)
    ensures var s' := Update(AbortSet(o.sched, ids), o.slots, o.data, o.finished, sampled).sched;
      && s'.store == o.sched.store
      && (id in Live(s') ==> id in Live(s) && id !in ids)
      && (id in o.sched.runningMap && id in Live(s') <==> id in s'.runningMap)
  {
    hide StateOk, WorkOk, SchedInv, Live, AbortSet, Update, EndsIt, NoEnd, ReasonFor, SampledIn, DistinctIds;
    var s1 := AbortSet(o.sched, ids);
    ScheduledFacts(cfg, s, slots, o, id);
    OneAborted(o.sched, ids, id);
    RunningAreLive(s1);
    UpdatedRunning(s1, o.slots, o.data, o.finished, sampled, id);
    UpdatedLive(s1, o.slots, o.data, o.finished, sampled, id);
  }

  lemma SameParams(cfg: Config, s: Sched, slots: Option<Slots>, o: Scheduled, id: ReqId)
    requires StateOk(cfg, s, slots, o)
    ensures o.sched.store.Keys == s.store.Keys && Req(o.sched.store, id).params == Req(s.store, id).params
    ensures s.runningMap <= o.sched.runningMap
  {
    if id in s.store {
      AdvancedFields(s.store, o.data, o.sched.store, id);
    }
  }

  lemma {:induction false} StepFrames<S>(
      cfg: Config, m: Rnn<S>, e: Engine<S>, oracle: map<ReqId, nat>, captured: Option<nat>, id: ReqId)
    requires ValidConfig(cfg) && EngineInv(cfg, m, e)
    ensures Step(cfg, m, e, oracle, captured).Some?
    ensures var st := Step(cfg, m, e, oracle, captured).value; Frames(cfg, e, st.engine, st.ran, id)
  {
    hide RowsOk, LongLimit, SchedInv, Live, Schedule, Step, Begin, StateOk, WorkOk, AbortSet, Update, SampledIn, SumTokens, HasRequests;
    var o := Schedule(cfg, e.sched, Some(e.slots));
    StepCorrect(cfg, m, e, oracle, captured);
    ScheduleCorrect(cfg, e.sched, Some(e.slots));
    BeginSettles(cfg, m, e, oracle, captured);
    BeginShape(cfg, m, e, oracle, captured);
    ScheduledFacts(cfg, e.sched, Some(e.slots), o, id);
    SameParams(cfg, e.sched, Some(e.slots), o, id);
    RunningAreLive(o.sched);
    RunningAreLive(e.sched);
    RecordsPositive(cfg, e.sched, o);
    SumAtLeastCount(o.data);
    NoTokens();
    match Begin(cfg, m, e, oracle, captured)
    case Over(e') =>
      if !HasRequests(e.sched) {
        IdleSchedule(cfg, e.sched, Some(e.slots));
      }
    case GoesOn(x) =>
      SampledAre(o.data, oracle);
      NoSamples(o.data);
      assert SamplesOf(o.data, x.sampled);
      AppliedFrames(cfg, e.sched, Some(e.slots), o, AbortIds(e.aborts), x.sampled, id);
      SettledParts(x.engine, x.data, x.finished, x.sampled, x.ran);
  }

  lemma NoTokens()
    ensures SumTokens([]) == 0
  {
  }
}
