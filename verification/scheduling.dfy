/** What one call of the scheduler computes, as functions on its state. */
module Scheduling {
  import opened Wrappers
  import opened Requests
  import opened Sorting
  import opened StateSlots
  import Queue = RequestQueue

  // What the model runner is told about one scheduled request.
  datatype RunData = RunData(
    id: ReqId,
    computed: nat,
    numTokens: nat,
    input: Option<seq<Token>>,
    isDecode: bool,
    isLastPrefill: bool,
    slot: nat)

  // The scheduler's fields. `runningMap` is the key set of the id-to-request dictionary.
  datatype Sched = Sched(
    store: Store,
    waiting: seq<ReqId>,
    skipped: seq<ReqId>,
    running: seq<ReqId>,
    runningMap: set<ReqId>,
    outputs: map<ReqId, seq<Token>>)

  function SlotOf(slots: Option<Slots>, id: ReqId): nat {
    if slots.Some? && id in slots.value.reqToSlot then slots.value.reqToSlot[id] else 0
  }

  function Out(outputs: map<ReqId, seq<Token>>, id: ReqId): seq<Token> {
    if id in outputs then outputs[id] else []
  }

  // The number of tokens a request may run this step under the chunk, budget and length limits.
  function NumNew(cfg: Config, r: Request, budget: int): int {
    var wanted := if r.IsDecode() then 1 else r.Remaining();
    var n := Min(Min(wanted, cfg.chunkThreshold), budget);
    if cfg.maxModelLen.Some? then Min(n, cfg.maxModelLen.value - 1 - r.computed) else n
  }

  // prompt[computed : computed + n], clamped as a Python slice is
  function InputTokens(r: Request, n: nat): Option<seq<Token>> {
    if r.IsDecode() then None
    else
      var end := if r.computed + n <= |r.prompt| then r.computed + n else |r.prompt|;
      Some(r.prompt[r.computed..end])
  }

  predicate ShouldFinish(r: Request, outputs: seq<Token>) {
    r.IsDecode() && r.params.maxTokens.Some? && |outputs| >= r.params.maxTokens.value
  }

  predicate CoversPrompt(r: Request, n: nat) {
    !r.IsDecode() && r.computed + n >= |r.prompt|
  }

  function MakeRun(r: Request, id: ReqId, n: nat, slot: nat): RunData {
    RunData(id, r.computed, n, InputTokens(r, n), r.IsDecode(), CoversPrompt(r, n), slot)
  }

  // ---------------------------------------------------------------- phase 1: running requests

  // Stable sort by slot index; with no slot manager every key is 0.
  function InsertBySlot(slots: Option<Slots>, id: ReqId, ids: seq<ReqId>): seq<ReqId> {
    if ids == [] || SlotOf(slots, id) <= SlotOf(slots, ids[0]) then [id] + ids
    else [ids[0]] + InsertBySlot(slots, id, ids[1..])
  }

  function SortBySlot(slots: Option<Slots>, ids: seq<ReqId>): seq<ReqId> {
    if ids == [] then [] else InsertBySlot(slots, ids[0], SortBySlot(slots, ids[1..]))
  }

  datatype Phase1 = Phase1(data: seq<RunData>, finished: set<ReqId>, budget: int)

  function Phase1Step(cfg: Config, s: Sched, slots: Option<Slots>, acc: Phase1, id: ReqId): Phase1 {
    var r := Req(s.store, id);
    var n := NumNew(cfg, r, acc.budget);
    if n <= 0 then
      if r.IsDecode() then acc.(finished := acc.finished + {id}) else acc
    else if ShouldFinish(r, Out(s.outputs, id)) then
      acc.(finished := acc.finished + {id})
    else if CoversPrompt(r, n) && cfg.maxModelLen.Some? && |r.prompt| + 1 >= cfg.maxModelLen.value then
      acc.(finished := acc.finished + {id})
    else
      acc.(data := acc.data + [MakeRun(r, id, n, SlotOf(slots, id))], budget := acc.budget - n)
  }

  function RunPhase1(cfg: Config, s: Sched, slots: Option<Slots>, ids: seq<ReqId>, acc: Phase1): Phase1
    decreases |ids|
  {
    if ids == [] then acc else RunPhase1(cfg, s, slots, ids[1..], Phase1Step(cfg, s, slots, acc, ids[0]))
  }

  // ---------------------------------------------------------------- phase 2: waiting requests

  // A prompt that will not fit in one chunk.
  predicate IsLong(cfg: Config, r: Request) {
    !r.IsDecode() && r.Remaining() > cfg.chunkThreshold
  }

  // The number of running requests with more than one chunk of prompt left.
  function CountLong(cfg: Config, store: Store, ids: seq<ReqId>): nat {
    if ids == [] then 0
    else CountLong(cfg, store, ids[..|ids| - 1]) + if IsLong(cfg, Req(store, ids[|ids| - 1])) then 1 else 0
  }

  function PrefillLimit(cfg: Config, r: Request): int {
    if 0 < cfg.chunkThreshold < r.Remaining() then cfg.maxLongPartialPrefills else cfg.maxPartialPrefills
  }

  predicate LimitReached(cfg: Config, r: Request, partialPrefills: int) {
    PrefillLimit(cfg, r) > 0 && partialPrefills >= PrefillLimit(cfg, r)
  }

  // The head of a queue may be admitted, as far as the partial-prefill limits go.
  predicate HeadFits(cfg: Config, r: Request, partialPrefills: int) {
    r.IsDecode() || r.Remaining() <= cfg.chunkThreshold || !LimitReached(cfg, r, partialPrefills)
  }

  // The variables of the admission loop; `held` is the queue of requests skipped this step and
  // `raised` records that the allocator had no slot to give.
  datatype Phase2 = Phase2(
    waiting: seq<ReqId>,
    skipped: seq<ReqId>,
    held: seq<ReqId>,
    running: seq<ReqId>,
    runningMap: set<ReqId>,
    outputs: map<ReqId, seq<Token>>,
    slots: Option<Slots>,
    data: seq<RunData>,
    budget: int,
    partialPrefills: int,
    raised: bool)

  function Hold(cfg: Config, store: Store, acc: Phase2, id: ReqId): Phase2 {
    acc.(held := Queue.Prepend(cfg.policy, store, acc.held, id))
  }

  function AllocateFor(slots: Option<Slots>, id: ReqId): Option<Option<Slots>> {
    match slots
    case None => Some(None)
    case Some(st) =>
      match Allocate(st, id)
      case None => None
      case Some(p) => Some(Some(p.0))
  }

  // The request has been popped; it is admitted or put aside.
  function Admit(cfg: Config, store: Store, acc: Phase2, id: ReqId): Phase2 {
    var r := Req(store, id);
    var n := NumNew(cfg, r, acc.budget);
    if n <= 0 then Hold(cfg, store, acc, id)
    else
      var partial := !r.IsDecode() && !CoversPrompt(r, n);
      if partial && LimitReached(cfg, r, acc.partialPrefills) then Hold(cfg, store, acc, id)
      else
        match AllocateFor(acc.slots, id)
        case None => acc.(raised := true)
        case Some(slots) => Enter(acc, r, id, n, slots, partial)
  }

  function Enter(acc: Phase2, r: Request, id: ReqId, n: nat, slots: Option<Slots>, partial: bool): Phase2 {
    acc.(
    slots := slots,
    outputs := acc.outputs[id := []],
    running := acc.running + [id],
    runningMap := acc.runningMap + {id},
    partialPrefills := if partial then acc.partialPrefills + 1 else acc.partialPrefills,
    data := acc.data + [MakeRun(r, id, n, SlotOf(slots, id))],
    budget := acc.budget - n)
  }

  // Both heads are over their limit: move them aside.
  function HoldHeads(cfg: Config, store: Store, acc: Phase2): Phase2 {
    var a := if acc.skipped == [] then acc else Hold(cfg, store, acc.(skipped := acc.skipped[1..]), acc.skipped[0]);
    if a.waiting == [] then a else Hold(cfg, store, a.(waiting := a.waiting[1..]), a.waiting[0])
  }

  predicate Selectable(cfg: Config, store: Store, q: seq<ReqId>, partialPrefills: int) {
    q != [] && HeadFits(cfg, Req(store, q[0]), partialPrefills)
  }

  function Phase2Step(cfg: Config, store: Store, acc: Phase2): Phase2 {
    if Selectable(cfg, store, acc.skipped, acc.partialPrefills) then
      Admit(cfg, store, acc.(skipped := acc.skipped[1..]), acc.skipped[0])
    else if Selectable(cfg, store, acc.waiting, acc.partialPrefills) then
      Admit(cfg, store, acc.(waiting := acc.waiting[1..]), acc.waiting[0])
    else HoldHeads(cfg, store, acc)
  }

  predicate Admitting(cfg: Config, acc: Phase2) {
    (acc.waiting != [] || acc.skipped != []) && acc.budget > 0 && |acc.running| < cfg.maxNumSeqs && !acc.raised
  }

  function RunPhase2(cfg: Config, store: Store, acc: Phase2): Phase2
    decreases |acc.waiting| + |acc.skipped|
  {
    if Admitting(cfg, acc) then RunPhase2(cfg, store, Phase2Step(cfg, store, acc)) else acc
  }

  // ---------------------------------------------------------------- schedule

  function SumTokens(data: seq<RunData>): nat {
    if data == [] then 0 else SumTokens(data[..|data| - 1]) + data[|data| - 1].numTokens
  }

  // num_computed_tokens += n for every scheduled request that is still running
  function Advance(store: Store, runningMap: set<ReqId>, data: seq<RunData>): Store {
    if data == [] then store
    else
      var st := Advance(store, runningMap, data[..|data| - 1]);
      var d := data[|data| - 1];
      if d.id in runningMap && d.id in st then st[d.id := st[d.id].(computed := st[d.id].computed + d.numTokens)] else st
  }

  datatype Scheduled = Scheduled(
    sched: Sched,
    slots: Option<Slots>,
    data: seq<RunData>,
    finished: set<ReqId>,
    raised: bool)

  function StartPhase1(cfg: Config): Phase1 {
    Phase1([], {}, cfg.maxBatchedTokens)
  }

  function StartPhase2(cfg: Config, s: Sched, slots: Option<Slots>, p1: Phase1): Phase2 {
    Phase2(s.waiting, s.skipped, [], s.running, s.runningMap, s.outputs, slots, p1.data, p1.budget,
           CountLong(cfg, s.store, s.running), false)
  }

  function Schedule(cfg: Config, s: Sched, slots: Option<Slots>): Scheduled {
    var p1 := RunPhase1(cfg, s, slots, SortBySlot(slots, s.running), StartPhase1(cfg));
    var p2 := RunPhase2(cfg, s.store, StartPhase2(cfg, s, slots, p1));
    FinishSchedule(cfg, s, p1, p2)
  }

  function FinishSchedule(cfg: Config, s: Sched, p1: Phase1, p2: Phase2): Scheduled {
    Scheduled(
      Sched(
        Advance(s.store, p2.runningMap, p2.data),
        p2.waiting,
        Queue.PrependAll(cfg.policy, s.store, p2.skipped, p2.held),
        p2.running, p2.runningMap, p2.outputs),
      p2.slots, p2.data, p1.finished, p2.raised)
  }
}
