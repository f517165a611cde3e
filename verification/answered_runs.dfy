/** What a request is told over a whole run of the engine. */
module AnsweredRuns {
  import opened Wrappers
  import opened Requests
  import opened StateSlots
  import opened Scheduling
  import opened SchedulingInvariants
  import opened ModelRunner
  import opened Completion
  import opened EngineStep
  import opened EngineRuns
  import opened PipelinedEngine
  import opened StepOutputs
  import Queue = RequestQueue
  import P = Pipeline

  // The outputs of one action; only steps answer.
  function OutputsOf<S>(cfg: Config, m: Rnn<S>, e: Engine<S>, a: Action): map<ReqId, CoreOutput> {
    if !a.RunStep? then map[]
    else
      match Step(cfg, m, e, a.oracle, a.captured)
      case None => map[]
      case Some(st) => st.outputs
  }

  // All outputs a request gets in a run, in order.
  function Told<S>(cfg: Config, m: Rnn<S>, start: Engine<S>, actions: seq<Action>, id: ReqId): seq<CoreOutput> {
    if actions == [] then []
    else
      var n := |actions| - 1;
      var before := Told(cfg, m, start, actions[..n], id);
      match Run(cfg, m, start, actions[..n])
      case None => before
      case Some(e) => before + OneTold(OutputsOf(cfg, m, e, actions[n]), id)
  }

  function OneTold(outs: map<ReqId, CoreOutput>, id: ReqId): seq<CoreOutput> {
    if id in outs then [outs[id]] else []
  }

  // Some abort message of the run names the request.
  ghost predicate Named(actions: seq<Action>, id: ReqId) {
    exists i :: 0 <= i < |actions| && actions[i].QueueAbort? && id in actions[i].ids
  }

  // The reason in an output, for the token it brings.
  ghost predicate ReasonOk(p: SamplingParams, o: CoreOutput) {
    o.finish.Some? ==> (o.finish.value, o.stop) == ReasonFor(p, if o.tokens == [] then None else Some(o.tokens[0]))
  }

  // What the outputs told so far say of a request with these parameters and this record.
  ghost predicate ToldFor(
      p: SamplingParams, stored: bool, live: bool, running: bool, record: seq<Token>, named: bool, told: seq<CoreOutput>)
  {
    // at most one finish, and nothing after it
    && P.EndsOnce(told)
    // a live request has been told its record, token for token, and no finish
    && (live ==> P.Open(told) && P.Tokens(told) == record)
    && (!stored ==> told == [])
    // one that is gone has been told so, unless it was aborted
    && (stored && !live && P.Open(told) ==> named)
    // its record holds no token that ends it, and the reason given fits the last one
    && (running ==> NoEnd(p, record))
    && (forall o :: o in told ==> ReasonOk(p, o))
  }

  ghost predicate ToldOk<S>(e: Engine<S>, named: bool, told: seq<CoreOutput>, id: ReqId) {
    && ToldFor(
         Req(e.sched.store, id).params, id in e.sched.store, id in Live(e.sched), id in e.sched.runningMap,
         Out(e.sched.outputs, id), named, told)
    && (id in AbortIds(e.aborts) ==> named)
  }

  lemma OpenAppend(told: seq<CoreOutput>, o: CoreOutput)
    requires P.Open(told)
    ensures P.EndsOnce(told + [o]) && (P.Open(told + [o]) <==> o.finish.None?)
    ensures P.Tokens(told + [o]) == P.Tokens(told) + o.tokens
  {
    P.TokensAppend(told, o);
    assert (told + [o])[|told|] == o;
  }

  lemma NoOutputs(s: Sched, id: ReqId)
    requires SchedInv(s) && id !in s.runningMap
    ensures Out(s.outputs, id) == []
  {
  }

  lemma NotStored(s: Sched, id: ReqId)
    requires SchedInv(s) && id !in s.store
    ensures id !in Live(s) && id !in s.runningMap
  {
    assert id in s.runningMap ==> id in multiset(s.running);
  }

  // A live request gets a token or leaves, or nothing happens to it.
  lemma ToldNext(
      p: SamplingParams, live: bool, live': bool, running: bool, running': bool, record: seq<Token>, record': seq<Token>,
      gained: Option<Token>, aborted: bool, named: bool, told: seq<CoreOutput>, o: Option<CoreOutput>)
    requires ToldFor(p, true, live, running, record, named, told) && (aborted ==> named)
    requires (live' ==> live) && (running' ==> live') && (live' && !running' ==> record == record' == [] && o == None)
    requires o.Some? <==> live && !aborted && (gained.Some? || !live')
    requires o.Some? ==> o.value.tokens == AsTokens(gained) && (o.value.finish.Some? <==> !live')
    requires running' ==> record' == record + AsTokens(gained) && (aborted ==> gained == None)
    requires running' && gained.Some? ==> !EndsIt(p, gained.value)
    requires live && NoEnd(p, record) && !live' && !aborted ==> (o.value.finish.value, o.value.stop) == ReasonFor(p, gained)
    requires live && !running ==> record == []
    ensures ToldFor(p, true, live', running', record', named, told + if o.Some? then [o.value] else [])
  {
    hide P.Open, P.EndsOnce, P.Tokens, ReasonFor, EndsIt;
    if o.Some? {
      OpenAppend(told, o.value);
      assert forall x :: x in told + [o.value] <==> x in told || x == o.value;
    } else {
      assert told + [] == told;
      assert record + [] == record;
    }
  }

  lemma {:induction false} StepTold<S>(
      cfg: Config, m: Rnn<S>, e: Engine<S>, oracle: map<ReqId, nat>, captured: Option<nat>, named: bool, told: seq<CoreOutput>, id: ReqId)
    requires ValidConfig(cfg) && EngineInv(cfg, m, e) && ToldOk(e, named, told, id)
    ensures Step(cfg, m, e, oracle, captured).Some?
    ensures var st := Step(cfg, m, e, oracle, captured).value;
      ToldOk(st.engine, named, told + OneTold(st.outputs, id), id)
  {
    hide Step, EngineInv, Schedule, Live, SchedInv, AbortIds, SampledIn, EndsIt, NoEnd, ReasonFor, P.Open, P.EndsOnce, P.Tokens, ToldFor;
    StepAnswers(cfg, m, e, oracle, captured, id);
    StepFrames(cfg, m, e, oracle, captured, id);
    StepCorrect(cfg, m, e, oracle, captured);
    var st := Step(cfg, m, e, oracle, captured).value;
    InvParts(cfg, m, e, id);
    InvParts(cfg, m, st.engine, id);
    var o := Schedule(cfg, e.sched, Some(e.slots));
    NoBatchNoSample(o.data, id);
    NobodyNamed(st.engine.aborts, e.aborts, id);
    if id in e.sched.store {
      ToldNext(
        Req(e.sched.store, id).params, id in Live(e.sched), id in Live(st.engine.sched), id in e.sched.runningMap,
        id in st.engine.sched.runningMap, Out(e.sched.outputs, id), Out(st.engine.sched.outputs, id), Gained(o, oracle, id),
        id in AbortIds(e.aborts), named, told, if id in st.outputs then Some(st.outputs[id]) else None);
    } else {
      NeverTold(Req(e.sched.store, id).params, Out(e.sched.outputs, id), named, told);
    }
  }

  lemma NoBatchNoSample(data: seq<RunData>, id: ReqId)
    ensures SampledIn(data, id) ==> data != []
  {
  }

  lemma NobodyNamed(after: seq<seq<ReqId>>, before: seq<seq<ReqId>>, id: ReqId)
    requires after == before || after == []
    ensures id in AbortIds(after) ==> id in AbortIds(before)
  {
  }

  lemma NeverTold(p: SamplingParams, record: seq<Token>, named: bool, told: seq<CoreOutput>)
    requires ToldFor(p, false, false, false, record, named, told)
    ensures told == [] && ToldFor(p, false, false, false, [], named, told + [])
  {
  }

  lemma InvParts<S>(cfg: Config, m: Rnn<S>, e: Engine<S>, id: ReqId)
    requires EngineInv(cfg, m, e)
    ensures SchedInv(e.sched)
    ensures id in e.sched.runningMap ==> id in Live(e.sched)
    ensures id in Live(e.sched) ==> id in e.sched.store
    ensures id !in e.sched.runningMap ==> Out(e.sched.outputs, id) == []
  {
    RunningAreLive(e.sched);
  }

  // ---------------------------------------------------------------- over whole runs

  lemma MoreNamed<S>(e: Engine<S>, a: bool, b: bool, told: seq<CoreOutput>, id: ReqId)
    requires ToldOk(e, a, told, id) && (a ==> b)
    ensures ToldOk(e, b, told, id)
  {
    hide P.Open, P.EndsOnce, P.Tokens, Live, AbortIds, NoEnd;
  }

  lemma AddTold<S>(cfg: Config, m: Rnn<S>, e: Engine<S>, added: ReqId, r: Request, named: bool, told: seq<CoreOutput>, id: ReqId)
    requires EngineInv(cfg, m, e) && ToldOk(e, named, told, id)
    requires added !in e.sched.store && r.prompt != [] && r.computed == 0
    ensures ToldOk(e.(sched := Enqueue(cfg, e.sched, added, r)), named, told, id)
  {
    hide EngineInv, Live, SchedInv, AbortIds, NoEnd, ReasonFor, Queue.Add;
    InvParts(cfg, m, e, id);
    EnqueueLive(cfg, e.sched, added, r);
    assert id in Live(Enqueue(cfg, e.sched, added, r)) <==> id == added || id in Live(e.sched);
  }

  lemma QueueTold<S>(e: Engine<S>, ids: seq<ReqId>, named: bool, told: seq<CoreOutput>, id: ReqId)
    requires ToldOk(e, named, told, id) && (id in ids ==> named)
    ensures ToldOk(e.(aborts := e.aborts + [ids]), named, told, id)
  {
    hide P.Open, P.EndsOnce, P.Tokens, Live, NoEnd;
    forall x | x in e.aborts + [ids] && id in x ensures named {
      assert x in e.aborts || x == ids;
      assert x in e.aborts ==> id in AbortIds(e.aborts);
    }
  }

  lemma NewTold<S>(cfg: Config, e: Engine<S>, named: bool, id: ReqId)
    requires Initial(cfg, e)
    ensures ToldOk(e, named, [], id)
  {
  }

  lemma {:induction false} RunTold<S>(cfg: Config, m: Rnn<S>, start: Engine<S>, actions: seq<Action>, id: ReqId)
    requires ValidConfig(cfg) && Initial(cfg, start) && AllowedRun(cfg, m, start, actions)
    ensures Run(cfg, m, start, actions).Some?
    ensures ToldOk(Run(cfg, m, start, actions).value, Named(actions, id), Told(cfg, m, start, actions, id), id)
  {
    hide Initial, EngineInv, ToldOk, Step, Enqueue, OneTold;
    if actions == [] {
      NewTold(cfg, start, Named(actions, id), id);
    } else {
      var n := |actions| - 1;
      InitialOk(cfg, m, start);
      AllowedPrefix(cfg, m, start, actions);
      RunsNeverRaise(cfg, m, start, actions[..n]);
      RunTold(cfg, m, start, actions[..n], id);
      var e, told := Run(cfg, m, start, actions[..n]).value, Told(cfg, m, start, actions[..n], id);
      assert Allowed(e, actions[n]);
      NamedMore(actions, id);
      MoreNamed(e, Named(actions[..n], id), Named(actions, id), told, id);
      hide Named;
      match actions[n]
      case AddRequest(added, r) =>
        AddTold(cfg, m, e, added, r, Named(actions, id), told, id);
        NothingTold(told, id);
      case QueueAbort(ids) =>
        QueueTold(e, ids, Named(actions, id), told, id);
        NothingTold(told, id);
      case RunStep(oracle, captured) =>
        StepTold(cfg, m, e, oracle, captured, Named(actions, id), told, id);
    }
  }

  lemma NothingTold(told: seq<CoreOutput>, id: ReqId)
    ensures told + OneTold(map[], id) == told
  {
  }

  lemma NamedMore(actions: seq<Action>, id: ReqId)
    requires actions != []
    ensures Named(actions[..|actions| - 1], id) ==> Named(actions, id)
    ensures var a := actions[|actions| - 1]; a.QueueAbort? && id in a.ids ==> Named(actions, id)
  {
    if Named(actions[..|actions| - 1], id) {
      var i :| 0 <= i < |actions| - 1 && actions[..|actions| - 1][i].QueueAbort? && id in actions[..|actions| - 1][i].ids;
      assert actions[i].QueueAbort? && id in actions[i].ids;
    }
  }

  // Over every run from a new engine a request is told exactly what is recorded for it: while it is live
  // its outputs bring its record in order and none is the last; it is told its end at most once and
  // nothing after that; and once it is gone it has been told, unless an abort named it.
  lemma {:induction false} EveryRequestIsTold<S>(cfg: Config, m: Rnn<S>, start: Engine<S>, actions: seq<Action>, id: ReqId)
    requires ValidConfig(cfg) && Initial(cfg, start) && AllowedRun(cfg, m, start, actions)
    ensures Run(cfg, m, start, actions).Some?
    ensures var s := Run(cfg, m, start, actions).value.sched;
      var told := Told(cfg, m, start, actions, id);
      && (forall i :: 0 <= i < |told| - 1 ==> told[i].finish == None)
      && (id in Live(s) ==> P.Tokens(told) == Out(s.outputs, id) && forall i :: 0 <= i < |told| ==> told[i].finish == None)
      && (id in s.store && id !in Live(s) && !Named(actions, id) ==> told != [] && told[|told| - 1].finish != None)
      && (forall o :: o in told && o.finish.Some? ==>
            (o.finish.value, o.stop) == ReasonFor(Req(s.store, id).params, if o.tokens == [] then None else Some(o.tokens[0])))
  {
    hide Run, AllowedRun, Initial, Told, Live, Named, ReasonFor, NoEnd;
    RunTold(cfg, m, start, actions, id);
    var told := Told(cfg, m, start, actions, id);
    if told != [] && told[|told| - 1].finish == None {
      assert P.Open(told);
    }
  }

  // And no running request has recorded a token that ends it.
  lemma {:induction false} RecordsHoldNoEnd<S>(cfg: Config, m: Rnn<S>, start: Engine<S>, actions: seq<Action>, id: ReqId, t: Token)
    requires ValidConfig(cfg) && Initial(cfg, start) && AllowedRun(cfg, m, start, actions)
    ensures Run(cfg, m, start, actions).Some?
    ensures var s := Run(cfg, m, start, actions).value.sched;
      id in s.runningMap && t in Out(s.outputs, id) ==>
        var p := Req(s.store, id).params; (p.ignoreEos || p.eosTokenId != Some(t)) && t !in p.stopTokenIds
  {
    hide Run, AllowedRun, Initial, Told, Live, Named;
    RunTold(cfg, m, start, actions, id);
  }

  // The pipelined step over an executor whose futures are done answers the same.
  lemma {:induction false} QueuedStepAnswers<S>(
      cfg: Config, m: Rnn<S>, e: Engine<S>, size: nat, oracle: map<ReqId, nat>, captured: Option<nat>, id: ReqId)
    requires ValidConfig(cfg) && EngineInv(cfg, m, e) && 1 <= size
    ensures var r := StepQueued(cfg, m, Queued(e, []), size, oracle, captured, true);
      && r.Some? && r.value.state.queue == []
      && Answers(cfg, e, r.value.state.engine, r.value.outputs, oracle, id)
      && Frames(cfg, e, r.value.state.engine, r.value.ran, id)
  {
    hide EngineInv, Answers, Frames, Step, StepQueued;
    DoneFuturesArePlain(cfg, m, e, size, oracle, captured);
    StepAnswers(cfg, m, e, oracle, captured, id);
    StepFrames(cfg, m, e, oracle, captured, id);
  }
}
