/** The pipelined engine: batches in flight, client messages and shutdown, in any interleaving. */
module Pipeline {
  import opened Wrappers
  import opened Requests
  import opened StateSlots
  import opened Scheduling
  import opened SchedulingInvariants
  import opened ModelRunner
  import opened Completion
  import opened EngineStep
  import opened EngineRuns

  // A launched batch: what the scheduler handed out.
  datatype Batch = Batch(data: seq<RunData>, finished: set<ReqId>)

  datatype ShutdownState = Running | Requested | ShuttingDown

  // The engine process without slots. The last five fields are what an observer has seen: the
  // outputs per request in order, all tokens ever recorded, the prompt tokens handed to the model,
  // how often the last chunk was announced, and the identifiers ever used.
  datatype Proc = Proc(
    sched: Sched,
    inflight: seq<Batch>,
    aborts: seq<seq<ReqId>>,
    shutdown: ShutdownState,
    log: map<ReqId, seq<CoreOutput>>,
    recorded: map<ReqId, seq<Token>>,
    fed: map<ReqId, seq<Token>>,
    lastChunks: map<ReqId, nat>,
    used: set<ReqId>)

  function LogOf(log: map<ReqId, seq<CoreOutput>>, id: ReqId): seq<CoreOutput> {
    if id in log then log[id] else []
  }

  function Deliver(log: map<ReqId, seq<CoreOutput>>, outs: map<ReqId, CoreOutput>): map<ReqId, seq<CoreOutput>> {
    map id | id in log.Keys + outs.Keys :: LogOf(log, id) + if id in outs then [outs[id]] else []
  }

  function AbortOutputs(ids: set<ReqId>): map<ReqId, CoreOutput> {
    map id | id in ids :: CoreOutput([], Some(Abort), None)
  }

  function ToSet(ids: seq<ReqId>): set<ReqId> {
    set id | id in ids
  }

  function LiveIds(s: Sched): set<ReqId> {
    ToSet(s.running) + ToSet(s.waiting) + ToSet(s.skipped)
  }

  // Requests aborted by a message or at shutdown leave and are told so.
  function AbortNow(p: Proc, ids: set<ReqId>): Proc {
    p.(sched := AbortSet(p.sched, ids), log := Deliver(p.log, AbortOutputs(Known(p.sched, ids))))
  }

  function CountOf(m: map<ReqId, nat>, id: ReqId): nat {
    if id in m then m[id] else 0
  }

  function FeedChunks(fed: map<ReqId, seq<Token>>, data: seq<RunData>): map<ReqId, seq<Token>> {
    if data == [] then fed
    else
      var f, d := FeedChunks(fed, data[..|data| - 1]), data[|data| - 1];
      f[d.id := Out(f, d.id) + if d.input.Some? then d.input.value else []]
  }

  function CountLast(counts: map<ReqId, nat>, data: seq<RunData>): map<ReqId, nat> {
    if data == [] then counts
    else
      var c, d := CountLast(counts, data[..|data| - 1]), data[|data| - 1];
      c[d.id := CountOf(c, d.id) + if d.isLastPrefill then 1 else 0]
  }

  // Schedules one more batch, whose tokens the model will see.
  function Launch(p: Proc, o: Scheduled): Proc {
    p.(sched := o.sched, inflight := p.inflight + [Batch(o.data, o.finished)],
    fed := FeedChunks(p.fed, o.data), lastChunks := CountLast(p.lastChunks, o.data))
  }

  // Drains the abort queue, whose outputs are dropped, and applies a finished batch.
  function Complete(p: Proc, b: Batch, sampled: map<ReqId, Token>): Proc {
    var s1 := AbortSet(p.sched, AbortIds(p.aborts));
    var u := Update(s1, None, b.data, b.finished, sampled);
    p.(sched := u.sched, aborts := [], log := Deliver(p.log, u.outputs),
    recorded := p.recorded + Record(s1.outputs, b.data, sampled))
  }

  function CompleteOldest(p: Proc, oracle: map<ReqId, nat>): Proc
    requires p.inflight != []
  {
    Complete(p.(inflight := p.inflight[1..]), p.inflight[0], Sampled(p.inflight[0].data, oracle))
  }

  // step_with_batch_queue: schedule first if the queue has room, then apply the oldest batch if done.
  function StepBatchQueue(cfg: Config, q: nat, p: Proc, oracle: map<ReqId, nat>, done: bool): Proc {
    if HasRequests(p.sched) && |p.inflight| < q then
      var o := Schedule(cfg, p.sched, None);
      if SumTokens(o.data) == 0 then
        var p' := p.(sched := o.sched);
        if p.inflight == [] then
          if o.finished == {} then p' else Complete(p', Batch(o.data, o.finished), map[])
        else if done then CompleteOldest(p', oracle) else p'
      else
        var p' := Launch(p, o);
        if done then CompleteOldest(p', oracle) else p'
    else if p.inflight != [] && done then CompleteOldest(p, oracle)
    else p
  }

  datatype Event =
    | ClientAdd(id: ReqId, request: Request)
    | ClientAbort(ids: seq<ReqId>)
    | QueueAbort(ids: seq<ReqId>)
    | ClearAborts
    | EngineStep(oracle: map<ReqId, nat>, done: bool)
    | Signal
    | HandleShutdown(noTimeout: bool)

  function React(cfg: Config, q: nat, p: Proc, ev: Event): Proc {
    match ev
    case ClientAdd(id, r) =>
      if p.shutdown == Running then p.(sched := Enqueue(cfg, p.sched, id, r), used := p.used + {id})
      else
        var p' := p.(sched := AbortSet(p.sched, {id}));
        p'.(log := Deliver(p.log, AbortOutputs({id})), used := p.used + {id})
    case ClientAbort(ids) => AbortNow(p, ToSet(ids))
    case QueueAbort(ids) => p.(aborts := p.aborts + [ids])
    case ClearAborts => p.(aborts := [])
    case EngineStep(oracle, done) => StepBatchQueue(cfg, q, p, oracle, done)
    case Signal => p.(shutdown := Requested)
    case HandleShutdown(noTimeout) =>
      if p.shutdown != Requested then p
      else if noTimeout then AbortNow(p, LiveIds(p.sched)).(shutdown := ShuttingDown)
      else p.(shutdown := ShuttingDown)
  }

  // Identifiers are never reused and prompts are not empty.
  ghost predicate Permitted(p: Proc, ev: Event) {
    ev.ClientAdd? ==> ev.id !in p.used && ev.request.prompt != [] && ev.request.computed == 0
  }

  function RunEvents(cfg: Config, q: nat, p: Proc, events: seq<Event>): Proc {
    if events == [] then p else React(cfg, q, RunEvents(cfg, q, p, events[..|events| - 1]), events[|events| - 1])
  }

  ghost predicate PermittedRun(cfg: Config, q: nat, p: Proc, events: seq<Event>) {
    forall i :: 0 <= i < |events| ==> Permitted(RunEvents(cfg, q, p, events[..i]), events[i])
  }

  function Fresh(): Proc {
    Proc(Sched(map[], [], [], [], {}, map[]), [], [], Running, map[], map[], map[], map[], {})
  }

  // ---------------------------------------------------------------- the invariant

  function Tokens(h: seq<CoreOutput>): seq<Token> {
    if h == [] then [] else Tokens(h[..|h| - 1]) + h[|h| - 1].tokens
  }

  // No output carries a finish reason.
  ghost predicate Open(h: seq<CoreOutput>) {
    forall i :: 0 <= i < |h| ==> h[i].finish.None?
  }

  // At most one output carries a finish reason, and nothing follows it.
  ghost predicate EndsOnce(h: seq<CoreOutput>) {
    forall i :: 0 <= i < |h| - 1 ==> h[i].finish.None?
  }

  function SampleIds(data: seq<RunData>): set<ReqId> {
    set d | d in data && Samples(d) :: d.id
  }

  // The batches in flight that will produce a token for a request.
  function Pending(inflight: seq<Batch>, id: ReqId): nat {
    if inflight == [] then 0
    else Pending(inflight[..|inflight| - 1], id) + if id in SampleIds(inflight[|inflight| - 1].data) then 1 else 0
  }

  // The tokens a request has been scheduled to produce.
  function Produced(r: Request): nat {
    if r.computed < |r.prompt| then 0 else r.computed - |r.prompt| + 1
  }

  ghost predicate CountsOk(cfg: Config, q: nat, r: Request, outs: nat, pending: nat) {
    && r.prompt != [] && outs + pending == Produced(r)
    && (r.params.maxTokens.Some? && 1 <= r.params.maxTokens.value ==> outs + pending <= r.params.maxTokens.value + q - 1)
    && (cfg.maxModelLen.Some? ==> r.computed == 0 || r.computed < cfg.maxModelLen.value)
  }

  // The two length limits, for the tokens recorded for a request.
  ghost predicate WithinLimits(cfg: Config, q: nat, r: Request, recorded: nat) {
    && (r.params.maxTokens.Some? && 1 <= r.params.maxTokens.value ==> recorded <= r.params.maxTokens.value + q - 1)
    && (cfg.maxModelLen.Some? && |r.prompt| <= cfg.maxModelLen.value ==> |r.prompt| + recorded <= cfg.maxModelLen.value)
  }

  // What holds of one identifier at every moment; `pending` are its tokens still to come.
  ghost predicate IdOkWith(cfg: Config, q: nat, p: Proc, id: ReqId, pending: nat) {
    && EndsOnce(LogOf(p.log, id))
    && Tokens(LogOf(p.log, id)) == Out(p.recorded, id)
    && (id in p.sched.store ==> WithinLimits(cfg, q, p.sched.store[id], |Out(p.recorded, id)|))
    && (id !in p.used ==> LogOf(p.log, id) == [] && id !in Live(p.sched) && pending == 0)
    && (id in Live(p.sched) ==>
          && Open(LogOf(p.log, id))
          && Out(p.sched.outputs, id) == Out(p.recorded, id)
          && CountsOk(cfg, q, Req(p.sched.store, id), |Out(p.sched.outputs, id)|, pending))
  }

  ghost predicate IdOk(cfg: Config, q: nat, p: Proc, id: ReqId) {
    IdOkWith(cfg, q, p, id, Pending(p.inflight, id))
  }

  // The prompt tokens handed to the model are the prefix the counter says.
  ghost predicate FedOk(p: Proc, id: ReqId) {
    id in p.sched.store ==>
      var r := p.sched.store[id];
      && id in p.used
      && Out(p.fed, id) == FedPrompt(r)
      && CountOf(p.lastChunks, id) == if r.computed < |r.prompt| then 0 else 1
  }

  ghost predicate ProcInv(cfg: Config, q: nat, p: Proc) {
    && SchedulerInv(cfg, p.sched, None)
    && |p.inflight| <= q
    && (forall b :: b in p.inflight ==> DistinctIds(b.data))
    && (forall id :: IdOk(cfg, q, p, id))
    && (forall id :: FedOk(p, id))
    && (forall id :: id !in p.used ==> id !in p.sched.store && Out(p.fed, id) == [] && CountOf(p.lastChunks, id) == 0)
  }

  // ---------------------------------------------------------------- aborts

  lemma TokensAppend(h: seq<CoreOutput>, o: CoreOutput)
    ensures Tokens(h + [o]) == Tokens(h) + o.tokens
  {
    assert (h + [o])[..|h|] == h;
  }

  lemma KnownIsLive(s: Sched, ids: set<ReqId>)
    requires SchedInv(s)
    ensures Known(s, ids) == set id | id in ids && id in Live(s)
  {
    forall id ensures id in Live(s) <==> id in s.runningMap || id in s.waiting || id in s.skipped {
      assert id in s.waiting <==> id in multiset(s.waiting);
      assert id in s.skipped <==> id in multiset(s.skipped);
    }
  }

  // Prompt and parameters of a request never change, and no other request appears.
  ghost predicate SameKind(s: Sched, s': Sched, id: ReqId) {
    id in s'.store ==> id in s.store && s'.store[id].prompt == s.store[id].prompt && s'.store[id].params == s.store[id].params
  }

  // A request whose history does not change and which is not newly live.
  lemma IdStays(cfg: Config, q: nat, p: Proc, p': Proc, id: ReqId, pending: nat)
    requires IdOkWith(cfg, q, p, id, pending) && p'.used >= p.used && (id in p'.used ==> id in p.used)
    requires LogOf(p'.log, id) == LogOf(p.log, id) && Out(p'.recorded, id) == Out(p.recorded, id)
    requires id in Live(p'.sched) ==>
      id in Live(p.sched) && Req(p'.sched.store, id) == Req(p.sched.store, id) && Out(p'.sched.outputs, id) == Out(p.sched.outputs, id)
    requires SameKind(p.sched, p'.sched, id)
    ensures IdOkWith(cfg, q, p', id, pending)
  {
  }

  // A live request gets its last output and leaves.
  lemma IdEnds(cfg: Config, q: nat, p: Proc, p': Proc, id: ReqId, pending: nat, pending': nat, o: CoreOutput)
    requires IdOkWith(cfg, q, p, id, pending) && p'.used >= p.used
    requires id in Live(p.sched) && id !in Live(p'.sched)
    requires LogOf(p'.log, id) == LogOf(p.log, id) + [o] && Out(p'.recorded, id) == Out(p.recorded, id) + o.tokens
    requires SameKind(p.sched, p'.sched, id)
    requires |o.tokens| <= pending
    ensures IdOkWith(cfg, q, p', id, pending')
  {
    TokensAppend(LogOf(p.log, id), o);
  }

  // A request that is not live after the event keeps its history whatever is pending.
  lemma IdRests(cfg: Config, q: nat, p: Proc, p': Proc, id: ReqId, pending: nat, pending': nat)
    requires IdOkWith(cfg, q, p, id, pending) && p'.used >= p.used
    requires LogOf(p'.log, id) == LogOf(p.log, id) && Out(p'.recorded, id) == Out(p.recorded, id)
    requires id !in Live(p'.sched) && pending' <= pending
    requires id in p'.used ==> id in p.used
    requires SameKind(p.sched, p'.sched, id)
    ensures IdOkWith(cfg, q, p', id, pending')
  {
  }

  // A live request gets one more token and stays.
  lemma IdGrows(cfg: Config, q: nat, p: Proc, p': Proc, id: ReqId, pending: nat, o: CoreOutput)
    requires IdOkWith(cfg, q, p, id, pending + |o.tokens|) && p'.used >= p.used
    requires id in Live(p.sched) && id in Live(p'.sched) && o.finish.None?
    requires LogOf(p'.log, id) == LogOf(p.log, id) + [o] && Out(p'.recorded, id) == Out(p.recorded, id) + o.tokens
    requires Req(p'.sched.store, id) == Req(p.sched.store, id) && Out(p'.sched.outputs, id) == Out(p.sched.outputs, id) + o.tokens
    ensures IdOkWith(cfg, q, p', id, pending)
  {
    TokensAppend(LogOf(p.log, id), o);
  }

  lemma AbortFacts(s: Sched, ids: set<ReqId>, id: ReqId)
    requires SchedInv(s)
    ensures id in Live(AbortSet(s, ids)) <==> id in Live(s) && id !in ids
    ensures AbortSet(s, ids).store == s.store
    ensures id !in ids ==> Out(AbortSet(s, ids).outputs, id) == Out(s.outputs, id)
  {
    AbortKeepsInv(s, ids);
    assert id in Live(AbortSet(s, ids)) <==> Live(AbortSet(s, ids))[id] > 0;
  }

  lemma AbortIdOk(cfg: Config, q: nat, p: Proc, ids: set<ReqId>, id: ReqId)
    requires SchedInv(p.sched) && IdOk(cfg, q, p, id)
    ensures IdOk(cfg, q, AbortNow(p, ids), id)
  {
    hide SchedInv, Live, AbortSet, Known, IdOkWith;
    AbortFacts(p.sched, ids, id);
    KnownIsLive(p.sched, ids);
    var p', n := AbortNow(p, ids), Pending(p.inflight, id);
    if id in ids && id in Live(p.sched) {
      IdEnds(cfg, q, p, p', id, n, n, CoreOutput([], Some(Abort), None));
    } else {
      IdStays(cfg, q, p, p', id, n);
    }
  }

  lemma AbortStore(s: Sched, ids: set<ReqId>)
    ensures AbortSet(s, ids).store == s.store && |AbortSet(s, ids).running| <= |s.running|
  {
  }

  lemma AbortNowKeeps(cfg: Config, q: nat, p: Proc, ids: set<ReqId>)
    requires ProcInv(cfg, q, p)
    ensures ProcInv(cfg, q, AbortNow(p, ids))
  {
    hide SchedInv, IdOk, AbortSet, Known, FedOk;
    AbortKeepsInv(p.sched, ids);
    AbortStore(p.sched, ids);
    forall id ensures IdOk(cfg, q, AbortNow(p, ids), id) {
      AbortIdOk(cfg, q, p, ids, id);
    }
    forall id ensures FedOk(AbortNow(p, ids), id) {
      SameFed(p, AbortNow(p, ids), id);
    }
  }

  lemma SameFed(p: Proc, p': Proc, id: ReqId)
    requires FedOk(p, id) && p'.used >= p.used && p'.fed == p.fed && p'.lastChunks == p.lastChunks
    requires id in p'.sched.store ==> id in p.sched.store && p'.sched.store[id] == p.sched.store[id]
    ensures FedOk(p', id)
  {
  }

  // ---------------------------------------------------------------- a finished batch

  lemma SampledKeys(data: seq<RunData>, oracle: map<ReqId, nat>)
    ensures Sampled(data, oracle).Keys == SampleIds(data)
  {
  }

  // The output an update gives a request is exactly its new tokens, with a reason iff it leaves.
  lemma UpdateOutput(s: Sched, data: seq<RunData>, finished: set<ReqId>, sampled: map<ReqId, Token>, id: ReqId)
    requires SchedInv(s) && DistinctIds(data) && sampled.Keys == SampleIds(data)
    ensures var u := Update(s, None, data, finished, sampled);
      && (id in u.outputs ==> id in s.runningMap && u.outputs[id].tokens == TokensFor(sampled, id))
      && (id in u.outputs ==> (u.outputs[id].finish.None? <==> id in u.sched.runningMap))
      && (id in s.runningMap && id !in u.outputs ==> TokensFor(sampled, id) == [] && id in u.sched.runningMap)
  {
    RecordCorrect(s.outputs, data, sampled);
    FinishingAreRunning(s, data, finished, sampled);
    FinalTokens(s, data, sampled, Out(Record(s.outputs, data, sampled), id), id);
    SampledHasData(data, sampled, id);
    RunningOutputs(s);
    hide SchedInv, Record, Finishing, FinalOutput, SampleIds, Drop, DistinctIds;
  }

  lemma RunningOutputs(s: Sched)
    requires SchedInv(s)
    ensures s.outputs.Keys == s.runningMap
  {
  }

  lemma SampledHasData(data: seq<RunData>, sampled: map<ReqId, Token>, id: ReqId)
    requires sampled.Keys == SampleIds(data)
    ensures id in sampled ==> exists d :: d in data && d.id == id
  {
  }

  lemma FinishingAreRunning(s: Sched, data: seq<RunData>, finished: set<ReqId>, sampled: map<ReqId, Token>)
    requires SchedInv(s)
    ensures Finishing(s, data, finished, sampled) <= s.runningMap
  {
  }

  lemma FinalTokens(s: Sched, data: seq<RunData>, sampled: map<ReqId, Token>, completed: seq<Token>, id: ReqId)
    ensures FinalOutput(s, data, sampled, completed, id).tokens == TokensFor(sampled, id)
    ensures FinalOutput(s, data, sampled, completed, id).finish.Some?
  {
  }

  lemma CompleteRecord(s: Sched, data: seq<RunData>, sampled: map<ReqId, Token>, id: ReqId)
    requires SchedInv(s) && DistinctIds(data) && sampled.Keys == SampleIds(data)
    ensures Record(s.outputs, data, sampled).Keys == s.runningMap
    ensures id in s.runningMap ==> Record(s.outputs, data, sampled)[id] == Out(s.outputs, id) + TokensFor(sampled, id)
  {
    RecordCorrect(s.outputs, data, sampled);
    SampledHasData(data, sampled, id);
    hide SchedInv, Record;
    RunningOutputs(s);
  }

  // The scheduler after the update, one identifier at a time.
  lemma UpdateFacts(s: Sched, data: seq<RunData>, finished: set<ReqId>, sampled: map<ReqId, Token>, id: ReqId)
    requires SchedInv(s) && DistinctIds(data) && sampled.Keys == SampleIds(data)
    ensures var s' := Update(s, None, data, finished, sampled).sched;
      && s'.store == s.store && s'.runningMap <= s.runningMap
      && (id in s.runningMap ==> (id in Live(s') <==> id in s'.runningMap))
      && (id !in s.runningMap ==> (id in Live(s') <==> id in Live(s)))
      && Out(s'.outputs, id) == if id in s'.runningMap then Out(s.outputs, id) + TokensFor(sampled, id) else []
  {
    var s' := Update(s, None, data, finished, sampled).sched;
    UpdateKeepsInv(s, None, data, finished, sampled);
    FinishingAreRunning(s, data, finished, sampled);
    CompleteRecord(s, data, sampled, id);
    assert id in s.runningMap ==> id in Live(s) by { if id in s.runningMap { RunningLive(s, id); } }
    hide SchedInv, Live, Record, Finishing, Drop, DistinctIds, SampleIds;
    assert id in Live(s') <==> Live(s')[id] > 0;
    assert id in Live(s) <==> Live(s)[id] > 0;
  }

  lemma RunningLive(s: Sched, id: ReqId)
    requires SchedInv(s) && id in s.runningMap
    ensures id in Live(s)
  {
  }

  lemma WaitingHasNoBatch(cfg: Config, q: nat, p: Proc, id: ReqId, pending: nat)
    requires SchedInv(p.sched) && IdOkWith(cfg, q, p, id, pending)
    requires id in Live(p.sched) && id !in p.sched.runningMap
    ensures pending == 0
  {
  }

  lemma AbortRunning(s: Sched, ids: set<ReqId>)
    ensures AbortSet(s, ids).runningMap == s.runningMap - ids
  {
  }

  lemma NoOutputs(s: Sched, id: ReqId)
    requires SchedInv(s) && id !in s.runningMap
    ensures Out(s.outputs, id) == []
  {
  }

  lemma CompleteRunning(
      cfg: Config, q: nat, p: Proc, s1: Sched, u: Updated, b: Batch, sampled: map<ReqId, Token>, id: ReqId, pending: nat)
    requires s1 == AbortSet(p.sched, AbortIds(p.aborts)) && u == Update(s1, None, b.data, b.finished, sampled)
    requires SchedInv(s1) && DistinctIds(b.data) && sampled.Keys == SampleIds(b.data)
    requires IdOkWith(cfg, q, p, id, pending + if id in SampleIds(b.data) then 1 else 0)
    requires id in s1.runningMap && id in Live(p.sched) && s1.store == p.sched.store
    requires Out(s1.outputs, id) == Out(p.sched.outputs, id)
    ensures IdOkWith(cfg, q, Complete(p, b, sampled), id, pending)
  {
    hide SchedInv, Live, AbortSet, AbortIds, Update, Record, SampleIds, DistinctIds;
    var p' := Complete(p, b, sampled);
    CompleteRecord(s1, b.data, sampled, id);
    UpdateFacts(s1, b.data, b.finished, sampled, id);
    UpdateOutput(s1, b.data, b.finished, sampled, id);
    var pending0 := pending + if id in SampleIds(b.data) then 1 else 0;
    assert Out(p.sched.outputs, id) == Out(p.recorded, id);
    hide IdOkWith;
    if id in u.outputs {
      if u.outputs[id].finish.Some? {
        IdEnds(cfg, q, p, p', id, pending0, pending, u.outputs[id]);
      } else {
        IdGrows(cfg, q, p, p', id, pending, u.outputs[id]);
      }
    } else {
      IdStays(cfg, q, p, p', id, pending);
    }
  }

  // A batch for a request in flight, once applied, is no longer pending; nothing else changes.
  lemma CompleteIdOk(cfg: Config, q: nat, p: Proc, b: Batch, sampled: map<ReqId, Token>, id: ReqId, pending: nat)
    requires SchedInv(p.sched) && DistinctIds(b.data) && sampled.Keys == SampleIds(b.data)
    requires IdOkWith(cfg, q, p, id, pending + if id in SampleIds(b.data) then 1 else 0)
    ensures IdOkWith(cfg, q, Complete(p, b, sampled), id, pending)
  {
    hide SchedInv, Live, AbortSet, AbortIds, Update, Record, SampleIds, DistinctIds;
    var s1 := AbortSet(p.sched, AbortIds(p.aborts));
    var u := Update(s1, None, b.data, b.finished, sampled);
    var p' := Complete(p, b, sampled);
    AbortFacts(p.sched, AbortIds(p.aborts), id);
    AbortKeepsInv(p.sched, AbortIds(p.aborts));
    AbortRunning(p.sched, AbortIds(p.aborts));
    CompleteRecord(s1, b.data, sampled, id);
    UpdateFacts(s1, b.data, b.finished, sampled, id);
    UpdateOutput(s1, b.data, b.finished, sampled, id);
    if id in s1.runningMap {
      RunningLive(s1, id);
      CompleteRunning(cfg, q, p, s1, u, b, sampled, id, pending);
    } else if id in Live(p'.sched) {
      WaitingHasNoBatch(cfg, q, p, id, pending + if id in SampleIds(b.data) then 1 else 0);
      NoOutputs(p.sched, id);
      hide IdOkWith;
      IdStays(cfg, q, p, p', id, pending);
    } else {
      hide IdOkWith;
      IdRests(cfg, q, p, p', id, pending + if id in SampleIds(b.data) then 1 else 0, pending);
    }
  }

  // ---------------------------------------------------------------- a launched batch

  lemma PendingAppend(inflight: seq<Batch>, b: Batch, id: ReqId)
    ensures Pending(inflight + [b], id) == Pending(inflight, id) + if id in SampleIds(b.data) then 1 else 0
  {
    assert (inflight + [b])[..|inflight|] == inflight;
  }

  lemma {:induction false} PendingPop(inflight: seq<Batch>, id: ReqId)
    requires inflight != []
    ensures Pending(inflight, id) == Pending(inflight[1..], id) + if id in SampleIds(inflight[0].data) then 1 else 0
  {
    if |inflight| > 1 {
      var n := |inflight| - 1;
      PendingPop(inflight[..n], id);
      assert inflight[..n][1..] == inflight[1..][..n - 1];
    }
  }

  lemma {:induction false} PendingAtMost(inflight: seq<Batch>, id: ReqId)
    ensures Pending(inflight, id) <= |inflight|
  {
    if inflight != [] {
      PendingAtMost(inflight[..|inflight| - 1], id);
    }
  }

  // Scheduling a request moves its token count with its counter, and respects its limit.
  lemma LaunchCounts(cfg: Config, q: nat, s: Sched, o: Scheduled, d: RunData, pending: nat)
    requires RunOk(cfg, s, o.slots, d) && s.store[d.id].prompt != [] && pending < q
    requires CountsOk(cfg, q, s.store[d.id], |Out(s.outputs, d.id)|, pending)
    ensures CountsOk(
      cfg, q, s.store[d.id].(computed := s.store[d.id].computed + d.numTokens), |Out(s.outputs, d.id)|,
      pending + if Samples(d) then 1 else 0)
  {
  }

  lemma SampleIdsOf(data: seq<RunData>, d: RunData)
    requires DistinctIds(data) && d in data
    ensures d.id in SampleIds(data) <==> Samples(d)
  {
  }

  lemma LaunchScheduled(cfg: Config, q: nat, p: Proc, o: Scheduled, d: RunData)
    requires d in o.data && DistinctIds(o.data) && RunOk(cfg, p.sched, o.slots, d)
    requires Advanced(p.sched.store, o.data, o.sched.store)
    requires IdOk(cfg, q, p, d.id) && d.id in Live(p.sched) && d.id in Live(o.sched) && p.sched.store[d.id].prompt != []
    requires Out(o.sched.outputs, d.id) == Out(p.sched.outputs, d.id) && |p.inflight| < q
    ensures IdOkWith(
      cfg, q, p.(sched := o.sched), d.id, Pending(p.inflight, d.id) + if d.id in SampleIds(o.data) then 1 else 0)
  {
    hide RunOk, CountsOk, Live, SampleIds, DistinctIds, EndsOnce, Open, Tokens;
    PendingAtMost(p.inflight, d.id);
    SampleIdsOf(o.data, d);
    LaunchCounts(cfg, q, p.sched, o, d, Pending(p.inflight, d.id));
  }

  lemma LaunchIdOk(cfg: Config, q: nat, p: Proc, o: Scheduled, id: ReqId)
    requires SchedInv(p.sched) && IdOk(cfg, q, p, id) && StateOk(cfg, p.sched, None, o) && WorkOk(cfg, p.sched, o)
    requires o.data != [] ==> |p.inflight| < q
    ensures IdOkWith(
      cfg, q, p.(sched := o.sched), id, Pending(p.inflight, id) + if id in SampleIds(o.data) then 1 else 0)
  {
    hide SchedInv, Live, RunOk, SampleIds, DistinctIds, IdOkWith, StateOk, WorkOk, SameKind, Advanced, LogOf;
    OutsAfterLaunch(cfg, p.sched, o, id);
    LaunchFacts(cfg, p.sched, o, id);
    if id in DataIds(o.data) {
      var d :| d in o.data && d.id == id;
      LaunchScheduled(cfg, q, p, o, d);
    } else {
      NotSampled(o.data, id);
      IdStays(cfg, q, p, p.(sched := o.sched), id, Pending(p.inflight, id));
    }
  }

  lemma LaunchFacts(cfg: Config, s: Sched, o: Scheduled, id: ReqId)
    requires SchedInv(s) && StateOk(cfg, s, None, o) && WorkOk(cfg, s, o)
    ensures DistinctIds(o.data) && Advanced(s.store, o.data, o.sched.store) && SameKind(s, o.sched, id)
    ensures forall d :: d in o.data ==> RunOk(cfg, s, o.slots, d)
  {
    hide RunOk, Live, SchedInv;
  }

  lemma NotSampled(data: seq<RunData>, id: ReqId)
    requires id !in DataIds(data)
    ensures id !in SampleIds(data)
  {
  }

  // What a scheduling call leaves unchanged for one identifier.
  lemma OutsAfterLaunch(cfg: Config, s: Sched, o: Scheduled, id: ReqId)
    requires SchedInv(s) && StateOk(cfg, s, None, o) && WorkOk(cfg, s, o)
    ensures Out(o.sched.outputs, id) == Out(s.outputs, id)
    ensures id in Live(o.sched) <==> id in Live(s)
    ensures id in DataIds(o.data) ==> id in Live(s) && id in s.store && s.store[id].prompt != []
    ensures id !in DataIds(o.data) ==> Req(o.sched.store, id) == Req(s.store, id)
  {
  }

  // ---------------------------------------------------------------- prefill coverage

  lemma {:induction false} ChunksAt(fed: map<ReqId, seq<Token>>, counts: map<ReqId, nat>, data: seq<RunData>, id: ReqId)
    requires DistinctIds(data)
    ensures id !in DataIds(data) ==>
      Out(FeedChunks(fed, data), id) == Out(fed, id) && CountOf(CountLast(counts, data), id) == CountOf(counts, id)
    ensures forall d :: d in data && d.id == id ==>
      && Out(FeedChunks(fed, data), id) == Out(fed, id) + (if d.input.Some? then d.input.value else [])
      && CountOf(CountLast(counts, data), id) == CountOf(counts, id) + if d.isLastPrefill then 1 else 0
  {
    if data != [] {
      var i := |data| - 1;
      assert forall d :: d in data <==> d in data[..i] || d == data[i];
      ChunksAt(fed, counts, data[..i], id);
      assert forall d :: d in data[..i] ==> d.id != data[i].id;
    }
  }

  // The prefix of its prompt a request has been fed, and the same after one more record.
  function FedPrompt(r: Request): seq<Token> {
    r.prompt[..if r.computed < |r.prompt| then r.computed else |r.prompt|]
  }

  lemma ChunkExtends(cfg: Config, s: Sched, slots: Option<Slots>, d: RunData)
    requires RunOk(cfg, s, slots, d)
    ensures var r := s.store[d.id];
      FedPrompt(r.(computed := r.computed + d.numTokens)) == FedPrompt(r) + if d.input.Some? then d.input.value else []
    ensures var r := s.store[d.id];
      d.isLastPrefill <==> r.computed < |r.prompt| <= r.computed + d.numTokens
  {
    var r := s.store[d.id];
    if !d.isDecode {
      assert r.prompt[..r.computed] + r.prompt[r.computed..r.computed + d.numTokens] == r.prompt[..r.computed + d.numTokens];
    }
  }

  lemma ScheduledFed(cfg: Config, p: Proc, o: Scheduled, d: RunData)
    requires d in o.data && RunOk(cfg, p.sched, o.slots, d) && Advanced(p.sched.store, o.data, o.sched.store)
    requires DistinctIds(o.data) && FedOk(p, d.id)
    ensures FedOk(Launch(p, o), d.id)
  {
    hide FeedChunks, CountLast, DistinctIds, RunOk, FedPrompt;
    ChunksAt(p.fed, p.lastChunks, o.data, d.id);
    ChunkExtends(cfg, p.sched, o.slots, d);
  }

  lemma LaunchFed(cfg: Config, p: Proc, o: Scheduled, id: ReqId)
    requires FedOk(p, id) && WorkOk(cfg, p.sched, o) && Advanced(p.sched.store, o.data, o.sched.store)
    ensures FedOk(Launch(p, o), id)
  {
    hide RunOk, FedOk, DistinctIds, Launch;
    if id in DataIds(o.data) {
      var d :| d in o.data && d.id == id;
      ScheduledFed(cfg, p, o, d);
    } else {
      UnscheduledFed(p, o, id);
    }
  }

  lemma UnscheduledFed(p: Proc, o: Scheduled, id: ReqId)
    requires FedOk(p, id) && id !in DataIds(o.data) && DistinctIds(o.data) && Advanced(p.sched.store, o.data, o.sched.store)
    ensures FedOk(Launch(p, o), id)
  {
    ChunksAt(p.fed, p.lastChunks, o.data, id);
    hide FeedChunks, CountLast, DistinctIds;
  }

  // ---------------------------------------------------------------- events

  // The scheduling half of a step.
  lemma LaunchKeeps(cfg: Config, q: nat, p: Proc, o: Scheduled)
    requires ValidConfig(cfg) && ProcInv(cfg, q, p) && o == Schedule(cfg, p.sched, None)
    requires o.data != [] && |p.inflight| < q
    ensures ProcInv(cfg, q, Launch(p, o))
  {
    hide SchedInv, IdOk, FedOk, Schedule, RunOk, DistinctIds;
    ScheduleCorrect(cfg, p.sched, None);
    var p' := Launch(p, o);
    forall id ensures IdOk(cfg, q, p', id) {
      LaunchIdOk(cfg, q, p, o, id);
      PendingAppend(p.inflight, Batch(o.data, o.finished), id);
      SameSched(cfg, q, p.(sched := o.sched), p', id);
    }
    forall id ensures FedOk(p', id) {
      LaunchFed(cfg, p, o, id);
    }
    UnusedFed(cfg, p, o);
  }

  lemma SameSched(cfg: Config, q: nat, p: Proc, p': Proc, id: ReqId)
    requires IdOkWith(cfg, q, p, id, Pending(p'.inflight, id))
    requires p'.sched == p.sched && p'.log == p.log && p'.recorded == p.recorded && p'.used == p.used
    ensures IdOk(cfg, q, p', id)
  {
  }

  lemma UnusedFed(cfg: Config, p: Proc, o: Scheduled)
    requires WorkOk(cfg, p.sched, o) && Advanced(p.sched.store, o.data, o.sched.store)
    requires forall id :: id !in p.used ==> id !in p.sched.store && Out(p.fed, id) == [] && CountOf(p.lastChunks, id) == 0
    ensures var p' := Launch(p, o);
      forall id :: id !in p.used ==> id !in p'.sched.store && Out(p'.fed, id) == [] && CountOf(p'.lastChunks, id) == 0
  {
    hide FeedChunks, CountLast, RunOk;
    forall id | id !in p.used ensures Out(Launch(p, o).fed, id) == [] && CountOf(Launch(p, o).lastChunks, id) == 0 {
      assert id !in DataIds(o.data) by {
        assert forall d :: d in o.data ==> d.id in p.sched.store;
      }
      ChunksAt(p.fed, p.lastChunks, o.data, id);
    }
  }

  // A scheduling call that hands out nothing changes neither requests nor histories.
  lemma IdleKeeps(cfg: Config, q: nat, p: Proc, o: Scheduled)
    requires ValidConfig(cfg) && ProcInv(cfg, q, p) && o == Schedule(cfg, p.sched, None) && o.data == []
    ensures ProcInv(cfg, q, p.(sched := o.sched))
    ensures DataIds(o.data) == {}
  {
    hide SchedInv, IdOk, FedOk, Schedule, RunOk, DistinctIds;
    ScheduleCorrect(cfg, p.sched, None);
    var p' := p.(sched := o.sched);
    forall id ensures IdOk(cfg, q, p', id) {
      LaunchIdOk(cfg, q, p, o, id);
      SameSched(cfg, q, p', p', id);
    }
    forall id ensures FedOk(p', id) {
      SameFed(p, p', id);
    }
  }

  // Applying a batch, in or out of the queue, keeps the invariant.
  lemma CompleteKeeps(cfg: Config, q: nat, p: Proc, b: Batch, sampled: map<ReqId, Token>)
    requires SchedulerInv(cfg, p.sched, None) && |p.inflight| <= q && (forall c :: c in p.inflight ==> DistinctIds(c.data))
    requires DistinctIds(b.data) && sampled.Keys == SampleIds(b.data)
    requires forall id :: IdOkWith(cfg, q, p, id, Pending(p.inflight, id) + if id in SampleIds(b.data) then 1 else 0)
    requires forall id :: FedOk(p, id)
    requires forall id :: id !in p.used ==> id !in p.sched.store && Out(p.fed, id) == [] && CountOf(p.lastChunks, id) == 0
    ensures ProcInv(cfg, q, Complete(p, b, sampled))
  {
    hide SchedInv, IdOkWith, FedOk, AbortSet, Update, Record, DistinctIds, SampleIds, AbortIds;
    var p' := Complete(p, b, sampled);
    CompleteSched(cfg, p, b, sampled);
    forall id ensures IdOk(cfg, q, p', id) {
      CompleteIdOk(cfg, q, p, b, sampled, id, Pending(p.inflight, id));
    }
    forall id ensures FedOk(p', id) {
      SameFed(p, p', id);
    }
  }

  lemma CompleteSched(cfg: Config, p: Proc, b: Batch, sampled: map<ReqId, Token>)
    requires SchedulerInv(cfg, p.sched, None) && DistinctIds(b.data)
    ensures SchedulerInv(cfg, Complete(p, b, sampled).sched, None)
    ensures Complete(p, b, sampled).sched.store == p.sched.store
  {
    hide SchedInv, Live, Finishing, Record, AbortIds, Deliver, Finals, Opens, FreedSlot;
    AbortKeepsInv(p.sched, AbortIds(p.aborts));
    UpdateKeepsInv(AbortSet(p.sched, AbortIds(p.aborts)), None, b.data, b.finished, sampled);
  }

  lemma ScheduleBasics(cfg: Config, q: nat, p: Proc, o: Scheduled)
    requires ValidConfig(cfg) && ProcInv(cfg, q, p) && o == Schedule(cfg, p.sched, None)
    ensures SumTokens(o.data) == 0 <==> o.data == []
  {
    ScheduleCorrect(cfg, p.sched, None);
    RecordsPositive(cfg, p.sched, o);
    SumAtLeastCount(o.data);
  }

  lemma CompleteOldestKeeps(cfg: Config, q: nat, p: Proc, oracle: map<ReqId, nat>)
    requires ProcInv(cfg, q, p) && p.inflight != []
    ensures ProcInv(cfg, q, CompleteOldest(p, oracle))
  {
    hide SchedInv, FedOk, DistinctIds, SampleIds, Complete, SchedulerInv;
    var p', b := p.(inflight := p.inflight[1..]), p.inflight[0];
    SampledKeys(b.data, oracle);
    forall id ensures IdOkWith(cfg, q, p', id, Pending(p'.inflight, id) + if id in SampleIds(b.data) then 1 else 0) {
      assert IdOk(cfg, q, p, id);
      PendingPop(p.inflight, id);
      SameHistory(cfg, q, p, p', id, Pending(p.inflight, id));
      hide IdOkWith, Pending;
    }
    forall id ensures FedOk(p', id) {
      SameFed(p, p', id);
    }
    hide IdOkWith, Pending;
    CompleteKeeps(cfg, q, p', b, Sampled(b.data, oracle));
  }

  lemma SameHistory(cfg: Config, q: nat, p: Proc, p': Proc, id: ReqId, pending: nat)
    requires IdOkWith(cfg, q, p, id, pending)
    requires p'.sched == p.sched && p'.log == p.log && p'.recorded == p.recorded && p'.used == p.used
    ensures IdOkWith(cfg, q, p', id, pending)
  {
  }

  // Finished requests that hold no tokens this step are reported at once when nothing is in flight.
  lemma ZeroTokensKeeps(cfg: Config, q: nat, p: Proc, o: Scheduled)
    requires ValidConfig(cfg) && ProcInv(cfg, q, p) && o == Schedule(cfg, p.sched, None) && o.data == []
    ensures ProcInv(cfg, q, Complete(p.(sched := o.sched), Batch(o.data, o.finished), map[]))
  {
    IdleKeeps(cfg, q, p, o);
    NotSampledAny(o.data);
    hide SchedInv, FedOk, Schedule, SampleIds, Complete, IdOkWith;
    var p' := p.(sched := o.sched);
    forall id ensures IdOkWith(cfg, q, p', id, Pending(p'.inflight, id) + if id in SampleIds(o.data) then 1 else 0) {
      assert IdOk(cfg, q, p', id);
    }
    CompleteKeeps(cfg, q, p', Batch(o.data, o.finished), map[]);
  }

  lemma NotSampledAny(data: seq<RunData>)
    requires data == []
    ensures SampleIds(data) == {}
  {
  }

  lemma {:induction false} StepBatchQueueKeeps(cfg: Config, q: nat, p: Proc, oracle: map<ReqId, nat>, done: bool)
    requires ValidConfig(cfg) && ProcInv(cfg, q, p)
    ensures ProcInv(cfg, q, StepBatchQueue(cfg, q, p, oracle, done))
  {
    hide ProcInv, Schedule, Complete, CompleteOldest, HasRequests;
    if HasRequests(p.sched) && |p.inflight| < q {
      var o := Schedule(cfg, p.sched, None);
      ScheduleBasics(cfg, q, p, o);
      if o.data == [] {
        IdleKeeps(cfg, q, p, o);
        ZeroTokensKeeps(cfg, q, p, o);
        if p.inflight != [] && done {
          CompleteOldestKeeps(cfg, q, p.(sched := o.sched), oracle);
        }
      } else {
        LaunchKeeps(cfg, q, p, o);
        if done {
          CompleteOldestKeeps(cfg, q, Launch(p, o), oracle);
        }
      }
    } else if p.inflight != [] && done {
      CompleteOldestKeeps(cfg, q, p, oracle);
    }
  }

  lemma AddIdOk(cfg: Config, q: nat, p: Proc, id: ReqId, r: Request, x: ReqId)
    requires SchedInv(p.sched) && id !in p.used && id !in p.sched.store && r.prompt != [] && r.computed == 0
    requires IdOk(cfg, q, p, x) && 1 <= q
    ensures IdOk(cfg, q, p.(sched := Enqueue(cfg, p.sched, id, r), used := p.used + {id}), x)
  {
    hide Live, Pending;
    EnqueueLive(cfg, p.sched, id, r);
    NoOutputs(p.sched, id);
    assert x in Live(Enqueue(cfg, p.sched, id, r)) <==> x == id || x in Live(p.sched);
  }

  lemma AddKeepsProc(cfg: Config, q: nat, p: Proc, id: ReqId, r: Request)
    requires ValidConfig(cfg) && ProcInv(cfg, q, p) && 1 <= q
    requires id !in p.used && r.prompt != [] && r.computed == 0
    ensures ProcInv(cfg, q, p.(sched := Enqueue(cfg, p.sched, id, r), used := p.used + {id}))
  {
    hide SchedInv, IdOk, DistinctIds, FedOk;
    var p' := p.(sched := Enqueue(cfg, p.sched, id, r), used := p.used + {id});
    EnqueueKeepsSched(cfg, p.sched, id, r);
    forall x ensures IdOk(cfg, q, p', x) {
      AddIdOk(cfg, q, p, id, r, x);
    }
    forall x ensures FedOk(p', x) {
      AddFed(cfg, p, id, r, x);
    }
  }

  lemma AddFed(cfg: Config, p: Proc, id: ReqId, r: Request, x: ReqId)
    requires FedOk(p, x) && r.prompt != [] && r.computed == 0
    requires Out(p.fed, id) == [] && CountOf(p.lastChunks, id) == 0
    ensures FedOk(p.(sched := Enqueue(cfg, p.sched, id, r), used := p.used + {id}), x)
  {
  }

  // A request rejected during shutdown was never known; it is told so once.
  lemma RejectKeeps(cfg: Config, q: nat, p: Proc, id: ReqId)
    requires ProcInv(cfg, q, p) && id !in p.used
    ensures ProcInv(
      cfg, q, p.(sched := AbortSet(p.sched, {id}), log := Deliver(p.log, AbortOutputs({id})), used := p.used + {id}))
  {
    hide SchedInv, DistinctIds, FedOk, AbortSet, Live;
    var p' := p.(sched := AbortSet(p.sched, {id}), log := Deliver(p.log, AbortOutputs({id})), used := p.used + {id});
    AbortKeepsInv(p.sched, {id});
    AbortStore(p.sched, {id});
    forall x ensures IdOk(cfg, q, p', x) {
      assert IdOk(cfg, q, p, x);
      AbortFacts(p.sched, {id}, x);
      if x == id {
        TokensAppend([], CoreOutput([], Some(Abort), None));
      } else {
        IdStays(cfg, q, p, p', x, Pending(p.inflight, x));
      }
    }
    forall x ensures FedOk(p', x) {
      SameFed(p, p', x);
    }
  }

  lemma {:induction false} ReactKeeps(cfg: Config, q: nat, p: Proc, ev: Event)
    requires ValidConfig(cfg) && 1 <= q && ProcInv(cfg, q, p) && Permitted(p, ev)
    ensures ProcInv(cfg, q, React(cfg, q, p, ev))
  {
    match ev
    case ClientAdd(id, r) =>
      hide ProcInv;
      if p.shutdown == Running { AddKeepsProc(cfg, q, p, id, r); } else { RejectKeeps(cfg, q, p, id); }
    case ClientAbort(ids) => hide ProcInv; AbortNowKeeps(cfg, q, p, ToSet(ids));
    case QueueAbort(ids) => OthersKeep(cfg, q, p, p.(aborts := p.aborts + [ids]));
    case ClearAborts => OthersKeep(cfg, q, p, p.(aborts := []));
    case EngineStep(oracle, done) => hide ProcInv; StepBatchQueueKeeps(cfg, q, p, oracle, done);
    case Signal => OthersKeep(cfg, q, p, p.(shutdown := Requested));
    case HandleShutdown(noTimeout) =>
      if p.shutdown == Requested && noTimeout {
        AbortNowKeeps(cfg, q, p, LiveIds(p.sched));
        OthersKeep(cfg, q, AbortNow(p, LiveIds(p.sched)), React(cfg, q, p, ev));
      } else {
        OthersKeep(cfg, q, p, React(cfg, q, p, ev));
      }
  }

  lemma OthersKeep(cfg: Config, q: nat, p: Proc, p': Proc)
    requires ProcInv(cfg, q, p) && p' == p.(aborts := p'.aborts, shutdown := p'.shutdown)
    ensures ProcInv(cfg, q, p')
  {
    hide SchedInv, FedOk, DistinctIds;
    forall id ensures IdOk(cfg, q, p', id) {
      assert IdOk(cfg, q, p, id);
      SameHistory(cfg, q, p, p', id, Pending(p.inflight, id));
    }
    forall id ensures FedOk(p', id) {
      SameFed(p, p', id);
    }
  }

  lemma FreshOk(cfg: Config, q: nat)
    ensures ProcInv(cfg, q, Fresh())
  {
  }

  lemma PermittedPrefix(cfg: Config, q: nat, p: Proc, events: seq<Event>)
    requires PermittedRun(cfg, q, p, events) && events != []
    ensures PermittedRun(cfg, q, p, events[..|events| - 1])
  {
    hide RunEvents, Permitted;
    var i := |events| - 1;
    assert forall j :: 0 <= j < i ==> events[..i][..j] == events[..j];
  }

  // Every interleaving of arrivals, aborts, steps, completions and shutdown keeps the invariant.
  lemma {:induction false} RunEventsKeeps(cfg: Config, q: nat, events: seq<Event>)
    requires ValidConfig(cfg) && 1 <= q && PermittedRun(cfg, q, Fresh(), events)
    ensures ProcInv(cfg, q, RunEvents(cfg, q, Fresh(), events))
  {
    hide ProcInv, React, Permitted, Fresh;
    if events == [] {
      FreshOk(cfg, q);
    } else {
      var i := |events| - 1;
      PermittedPrefix(cfg, q, Fresh(), events);
      RunEventsKeeps(cfg, q, events[..i]);
      assert events[..|events|] == events;
      ReactKeeps(cfg, q, RunEvents(cfg, q, Fresh(), events[..i]), events[i]);
    }
  }

  // ---------------------------------------------------------------- what it means

  // However events interleave, a request is told at most once how it ended, nothing follows that,
  // what was delivered is exactly what was recorded, in order, and the length limits hold.
  lemma {:induction false} TerminalSafety(cfg: Config, q: nat, events: seq<Event>, id: ReqId)
    requires ValidConfig(cfg) && 1 <= q && PermittedRun(cfg, q, Fresh(), events)
    ensures var p := RunEvents(cfg, q, Fresh(), events);
      && EndsOnce(LogOf(p.log, id))
      && Tokens(LogOf(p.log, id)) == Out(p.recorded, id)
      && (id in p.sched.running ==> Open(LogOf(p.log, id)) && Out(p.sched.outputs, id) == Out(p.recorded, id))
      && (id in p.sched.store ==> WithinLimits(cfg, q, p.sched.store[id], |Out(p.recorded, id)|))
  {
    RunEventsKeeps(cfg, q, events);
    hide RunEvents, PermittedRun, Fresh;
    var p := RunEvents(cfg, q, Fresh(), events);
    assert IdOk(cfg, q, p, id);
    if id in p.sched.running {
      assert id in multiset(p.sched.running) && id in Live(p.sched);
    }
  }

  // The chunks handed to the model for a request concatenate to the prefix of its prompt its counter
  // says, and the last chunk is announced once, exactly when the whole prompt is covered.
  lemma {:induction false} PrefillCoverage(cfg: Config, q: nat, events: seq<Event>, id: ReqId)
    requires ValidConfig(cfg) && 1 <= q && PermittedRun(cfg, q, Fresh(), events)
    ensures var p := RunEvents(cfg, q, Fresh(), events);
      id in p.sched.store ==>
        var r := p.sched.store[id];
        && Out(p.fed, id) == r.prompt[..if r.computed < |r.prompt| then r.computed else |r.prompt|]
        && CountOf(p.lastChunks, id) == if r.computed < |r.prompt| then 0 else 1
  {
    RunEventsKeeps(cfg, q, events);
    hide RunEvents, PermittedRun, Fresh;
    assert FedOk(RunEvents(cfg, q, Fresh(), events), id);
  }
}
