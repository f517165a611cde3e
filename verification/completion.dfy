/** Recording sampled tokens, finishing and aborting requests. */
module Completion {
  import opened Wrappers
  import opened Requests
  import opened StateSlots
  import opened Scheduling
  import opened SchedulingInvariants

  datatype FinishReason = Length | Eos | Stop | Abort

  // One output for one request.
  datatype CoreOutput = CoreOutput(tokens: seq<Token>, finish: Option<FinishReason>, stop: Option<Token>)

  function Drop(q: seq<ReqId>, ids: set<ReqId>): (r: seq<ReqId>)
    ensures |r| <= |q|
  {
    if q == [] then [] else if q[|q| - 1] in ids then Drop(q[..|q| - 1], ids) else Drop(q[..|q| - 1], ids) + [q[|q| - 1]]
  }

  lemma {:induction false} DropElements(q: seq<ReqId>, ids: set<ReqId>, id: ReqId)
    ensures multiset(Drop(q, ids))[id] == if id in ids then 0 else multiset(q)[id]
  {
    if q != [] {
      DropElements(q[..|q| - 1], ids, id);
      assert q == q[..|q| - 1] + [q[|q| - 1]];
    }
  }

  lemma {:induction false} DropNone(q: seq<ReqId>, ids: set<ReqId>)
    requires forall id :: id in q ==> id !in ids
    ensures Drop(q, ids) == q
  {
    if q != [] {
      DropNone(q[..|q| - 1], ids);
      assert q == q[..|q| - 1] + [q[|q| - 1]];
    }
  }

  lemma {:induction false} DropTwice(q: seq<ReqId>, a: set<ReqId>, b: set<ReqId>)
    ensures Drop(Drop(q, a), b) == Drop(q, a + b)
  {
    if q != [] {
      var p, x := q[..|q| - 1], q[|q| - 1];
      DropTwice(p, a, b);
      if x !in a {
        assert (Drop(p, a) + [x])[..|Drop(p, a)|] == Drop(p, a);
      }
    }
  }

  lemma {:induction false} DropCountLong(cfg: Config, store: Store, q: seq<ReqId>, ids: set<ReqId>)
    ensures CountLong(cfg, store, Drop(q, ids)) <= CountLong(cfg, store, q)
  {
    if q != [] {
      var p, x := q[..|q| - 1], q[|q| - 1];
      DropCountLong(cfg, store, p, ids);
      if x !in ids {
        assert (Drop(p, ids) + [x])[..|Drop(p, ids)|] == Drop(p, ids);
      }
    }
  }

  // ---------------------------------------------------------------- finish_requests

  // The requests a set of identifiers names among the live ones.
  function Known(s: Sched, ids: set<ReqId>): set<ReqId> {
    set id | id in ids && (id in s.runningMap || id in s.waiting || id in s.skipped)
  }

  // All live requests named by `ids` leave; the order in which the set is walked does not matter.
  function AbortSet(s: Sched, ids: set<ReqId>): Sched {
    s.(waiting := Drop(s.waiting, ids - s.runningMap),
    skipped := Drop(s.skipped, ids - s.runningMap),
    running := Drop(s.running, ids * s.runningMap),
    runningMap := s.runningMap - ids,
    outputs := s.outputs - (ids * s.runningMap))
  }

  lemma LiveOnce(s: Sched, id: ReqId)
    requires Once(Live(s))
    ensures multiset(s.waiting)[id] + multiset(s.skipped)[id] + multiset(s.running)[id] == Live(s)[id] <= 1
  {
  }

  lemma RemovalKeepsInv(s: Sched, s': Sched, gone: set<ReqId>)
    requires SchedInv(s)
    requires forall id :: Live(s')[id] == if id in gone then 0 else Live(s)[id]
    requires forall id :: multiset(s'.running)[id] == if id in gone then 0 else multiset(s.running)[id]
    requires s'.store == s.store && s'.runningMap == s.runningMap - gone && s'.outputs.Keys == s'.runningMap
    ensures SchedInv(s')
  {
    hide Live;
    assert forall id :: id in s'.runningMap <==> id in multiset(s'.running);
    assert forall id :: id in Live(s') ==> id in Live(s) && id !in gone;
  }

  lemma {:induction false} AbortKeepsInv(s: Sched, ids: set<ReqId>)
    requires SchedInv(s)
    ensures SchedInv(AbortSet(s, ids))
    ensures forall id :: Live(AbortSet(s, ids))[id] == if id in ids then 0 else Live(s)[id]
  {
    var s' := AbortSet(s, ids);
    forall id
      ensures Live(s')[id] == if id in ids then 0 else Live(s)[id]
      ensures multiset(s'.running)[id] == if id in ids then 0 else multiset(s.running)[id]
    {
      LiveOnce(s, id);
      DropElements(s.waiting, ids - s.runningMap, id);
      DropElements(s.skipped, ids - s.runningMap, id);
      DropElements(s.running, ids * s.runningMap, id);
    }
    hide SchedInv, Live, Drop;
    RemovalKeepsInv(s, s', ids);
  }

  // ---------------------------------------------------------------- update_from_output

  function TokensFor(sampled: map<ReqId, Token>, id: ReqId): seq<Token> {
    if id in sampled then [sampled[id]] else []
  }

  // running_output_tokens after the batch: scheduled requests that are still known get their tokens.
  function Record(outputs: map<ReqId, seq<Token>>, data: seq<RunData>, sampled: map<ReqId, Token>): map<ReqId, seq<Token>> {
    if data == [] then outputs
    else
      var o := Record(outputs, data[..|data| - 1], sampled);
      var id := data[|data| - 1].id;
      if id in o then o[id := o[id] + TokensFor(sampled, id)] else o
  }

  // An end-of-sequence or stop token among the new tokens ends the request.
  predicate StopHit(p: SamplingParams, tokens: seq<Token>) {
    || (!p.ignoreEos && tokens != [] && p.eosTokenId == Some(tokens[0]))
    || (exists i :: 0 <= i < |tokens| && tokens[i] in p.stopTokenIds)
  }

  function Stopped(s: Sched, data: seq<RunData>, sampled: map<ReqId, Token>): set<ReqId> {
    set d | d in data && d.id in s.outputs && d.id in s.runningMap && StopHit(Req(s.store, d.id).params, TokensFor(sampled, d.id)) :: d.id
  }

  function FindData(data: seq<RunData>, id: ReqId): Option<RunData> {
    if data == [] then None
    else if data[|data| - 1].id == id then Some(data[|data| - 1])
    else FindData(data[..|data| - 1], id)
  }

  // The last of the tokens that is a stop token.
  function LastStop(tokens: seq<Token>, stops: seq<Token>): Option<Token> {
    if tokens == [] then None
    else if tokens[|tokens| - 1] in stops then Some(tokens[|tokens| - 1])
    else LastStop(tokens[..|tokens| - 1], stops)
  }

  function Classify(p: Option<SamplingParams>, d: Option<RunData>, completed: seq<Token>): (FinishReason, Option<Token>) {
    if d.None? || !(d.value.isDecode || d.value.isLastPrefill) then (Length, None)
    else if p.None? || completed == [] then (Length, None)
    else if !p.value.ignoreEos && p.value.eosTokenId.Some? then
      if completed[|completed| - 1] == p.value.eosTokenId.value then (Eos, p.value.eosTokenId) else (Length, None)
    else if p.value.stopTokenIds != [] then
      match LastStop(completed, p.value.stopTokenIds)
      case None => (Length, None)
      case Some(t) => (Stop, Some(t))
    else (Length, None)
  }

  datatype Updated = Updated(
    sched: Sched,
    outputs: map<ReqId, CoreOutput>,
    freedIds: set<ReqId>,
    freedSlots: set<nat>)

  // The requests a batch really finishes: named, and not gone already.
  function Finishing(s: Sched, data: seq<RunData>, finished: set<ReqId>, sampled: map<ReqId, Token>): set<ReqId> {
    set id | id in finished + Stopped(s, data, sampled) && (id in s.outputs || id in s.runningMap)
  }

  // The slot recorded as freed for a finishing request, if the bookkeeping knows one.
  function FreedSlot(slots: Option<Slots>, data: seq<RunData>, id: ReqId): Option<nat> {
    if slots.None? then None
    else if FindData(data, id).Some? then Some(FindData(data, id).value.slot)
    else if id in slots.value.reqToSlot then Some(slots.value.reqToSlot[id])
    else None
  }

  // With a slot manager, a finishing request whose slot is unknown gets no output.
  predicate Reported(slots: Option<Slots>, data: seq<RunData>, id: ReqId) {
    slots.None? || FreedSlot(slots, data, id).Some?
  }

  function FinalOutput(s: Sched, data: seq<RunData>, sampled: map<ReqId, Token>, completed: seq<Token>, id: ReqId): CoreOutput {
    var p := if id in s.runningMap then Some(Req(s.store, id).params) else None;
    var (reason, stop) := Classify(p, FindData(data, id), completed);
    CoreOutput(TokensFor(sampled, id), Some(reason), stop)
  }

  // The last outputs of the requests that end,
  function Finals(
      s: Sched, slots: Option<Slots>, data: seq<RunData>, sampled: map<ReqId, Token>, recorded: map<ReqId, seq<Token>>, done: set<ReqId>)
    : map<ReqId, CoreOutput>
  {
    map id | id in done && Reported(slots, data, id) :: FinalOutput(s, data, sampled, Out(recorded, id), id)
  }

  // and the new tokens of those that go on.
  function Opens(data: seq<RunData>, sampled: map<ReqId, Token>, final: set<ReqId>, known: set<ReqId>): map<ReqId, CoreOutput> {
    map d | d in data && d.id !in final && TokensFor(sampled, d.id) != [] && d.id in known
      :: d.id := CoreOutput(TokensFor(sampled, d.id), None, None)
  }

  function Update(
      s: Sched, slots: Option<Slots>, data: seq<RunData>, finished: set<ReqId>, sampled: map<ReqId, Token>): Updated
  {
    var recorded := Record(s.outputs, data, sampled);
    var done := Finishing(s, data, finished, sampled);
    var final := Finals(s, slots, data, sampled, recorded, done);
    Updated(
      s.(running := Drop(s.running, done), runningMap := s.runningMap - done, outputs := recorded - done),
      final + Opens(data, sampled, final.Keys, recorded.Keys - done),
      set id | id in done && FreedSlot(slots, data, id).Some?,
      set id | id in done && FreedSlot(slots, data, id).Some? :: FreedSlot(slots, data, id).value)
  }

  lemma {:induction false} RecordCorrect(outputs: map<ReqId, seq<Token>>, data: seq<RunData>, sampled: map<ReqId, Token>)
    requires DistinctIds(data)
    ensures Record(outputs, data, sampled).Keys == outputs.Keys
    ensures forall id :: id in outputs ==>
      Record(outputs, data, sampled)[id] == if id in DataIds(data) then outputs[id] + TokensFor(sampled, id) else outputs[id]
  {
    if data != [] {
      var i := |data| - 1;
      RecordCorrect(outputs, data[..i], sampled);
      assert forall d :: d in data <==> d in data[..i] || d == data[i];
      assert DataIds(data) == DataIds(data[..i]) + {data[i].id};
      assert forall d :: d in data[..i] ==> d.id != data[i].id;
      assert data[i].id !in DataIds(data[..i]);
    }
  }

  lemma {:induction false} FindDataCorrect(data: seq<RunData>, id: ReqId)
    requires DistinctIds(data)
    ensures FindData(data, id).Some? <==> id in DataIds(data)
    ensures FindData(data, id).Some? ==> FindData(data, id).value in data && FindData(data, id).value.id == id
    ensures forall d :: d in data && d.id == id ==> FindData(data, id) == Some(d)
  {
    if data != [] {
      var i := |data| - 1;
      assert forall d :: d in data <==> d in data[..i] || d == data[i];
      FindDataCorrect(data[..i], id);
      assert forall d :: d in data[..i] ==> d.id != data[i].id;
    }
  }

  lemma UpdateKeepsInv(s: Sched, slots: Option<Slots>, data: seq<RunData>, finished: set<ReqId>, sampled: map<ReqId, Token>)
    requires SchedInv(s) && DistinctIds(data)
    ensures SchedInv(Update(s, slots, data, finished, sampled).sched)
    ensures var s' := Update(s, slots, data, finished, sampled).sched;
      forall id :: Live(s')[id] == if id in Finishing(s, data, finished, sampled) then 0 else Live(s)[id]
  {
    var s' := Update(s, slots, data, finished, sampled).sched;
    var done := Finishing(s, data, finished, sampled);
    RecordCorrect(s.outputs, data, sampled);
    forall id
      ensures Live(s')[id] == if id in done then 0 else Live(s)[id]
      ensures multiset(s'.running)[id] == if id in done then 0 else multiset(s.running)[id]
    {
      LiveOnce(s, id);
      DropElements(s.running, done, id);
    }
    hide SchedInv, Live, Drop, Record, Finishing;
    RemovalKeepsInv(s, s', done);
  }
}
