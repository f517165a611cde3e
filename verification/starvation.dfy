/** Which budgets let a decoding request be finished before its time. */
module Starvation {
  import opened Wrappers
  import opened Requests
  import opened Sorting
  import opened StateSlots
  import opened Scheduling
  import opened SchedulingInvariants
  import opened EarlyFinish

  // ---------------------------------------------------------------- the budget in closed form

  // A prompt one short of the length limit whose last chunk is due: it ends the request and costs
  // nothing, unless the budget does not reach for it.
  predicate EndsAtLimit(cfg: Config, r: Request) {
    && cfg.maxModelLen.Some? && !r.IsDecode()
    && |r.prompt| + 1 == cfg.maxModelLen.value && r.Remaining() <= cfg.chunkThreshold
  }

  // The tokens a running request takes where the budget does not matter.
  function Need(cfg: Config, s: Sched, id: ReqId): nat {
    var r := Req(s.store, id);
    if EndsAtLimit(cfg, r) || ShouldFinish(r, Out(s.outputs, id)) then 0
    else
      var wanted := Min(if r.IsDecode() then 1 else r.Remaining(), cfg.chunkThreshold);
      var n := if cfg.maxModelLen.Some? then Min(wanted, cfg.maxModelLen.value - 1 - r.computed) else wanted;
      if n <= 0 then 0 else n
  }

  function Needs(cfg: Config, s: Sched, ids: seq<ReqId>): nat {
    if ids == [] then 0 else Needs(cfg, s, ids[..|ids| - 1]) + Need(cfg, s, ids[|ids| - 1])
  }

  // The budget does not reach for the last chunk of some prompt at the limit, which takes all of it.
  predicate Drained(cfg: Config, s: Sched, ids: seq<ReqId>, budget: int) {
    exists j :: 0 <= j < |ids| && DrainedBy(cfg, s, ids, budget, j)
  }

  predicate DrainedBy(cfg: Config, s: Sched, ids: seq<ReqId>, budget: int, j: nat)
    requires j < |ids|
  {
    EndsAtLimit(cfg, Req(s.store, ids[j])) && budget - Needs(cfg, s, ids[..j]) < Req(s.store, ids[j]).Remaining()
  }

  function Left(cfg: Config, s: Sched, ids: seq<ReqId>, budget: int): int {
    if Drained(cfg, s, ids, budget) || budget <= Needs(cfg, s, ids) then 0 else budget - Needs(cfg, s, ids)
  }

  lemma StepTakes(cfg: Config, s: Sched, slots: Option<Slots>, acc: Phase1, id: ReqId)
    requires acc.budget >= 0 && 1 <= cfg.chunkThreshold
    ensures var b, r := Phase1Step(cfg, s, slots, acc, id).budget, Req(s.store, id);
      b == if EndsAtLimit(cfg, r) then if acc.budget >= r.Remaining() then acc.budget else 0
           else if acc.budget >= Need(cfg, s, id) then acc.budget - Need(cfg, s, id) else 0
  {
  }

  lemma {:induction false} DrainedMore(cfg: Config, s: Sched, ids: seq<ReqId>, budget: int)
    requires ids != []
    ensures Drained(cfg, s, ids, budget) <==>
      Drained(cfg, s, ids[..|ids| - 1], budget) || DrainedBy(cfg, s, ids, budget, |ids| - 1)
  {
    hide EndsAtLimit, Needs;
    var n := |ids| - 1;
    assert forall j :: 0 <= j < n ==> ids[..n][..j] == ids[..j] && ids[..n][j] == ids[j];
    forall j | 0 <= j < n ensures DrainedBy(cfg, s, ids, budget, j) <==> DrainedBy(cfg, s, ids[..n], budget, j) {
    }
  }

  // What phase 1 leaves of the budget.
  lemma {:induction false} LeftIs(cfg: Config, s: Sched, slots: Option<Slots>, ids: seq<ReqId>, acc: Phase1)
    requires acc.budget >= 0 && 1 <= cfg.chunkThreshold
    ensures RunPhase1(cfg, s, slots, ids, acc).budget == Left(cfg, s, ids, acc.budget)
    decreases |ids|
  {
    hide Phase1Step, EndsAtLimit, Need, Drained;
    if ids == [] {
      assert !Drained(cfg, s, ids, acc.budget) by { NoneDrained(cfg, s, acc.budget); }
    } else {
      var n := |ids| - 1;
      LeftIs(cfg, s, slots, ids[..n], acc);
      Phase1Split(cfg, s, slots, ids, acc, n);
      var before := RunPhase1(cfg, s, slots, ids[..n], acc);
      assert ids[n..] == [ids[n]] && [ids[n]][1..] == [];
      assert RunPhase1(cfg, s, slots, [ids[n]], before) == Phase1Step(cfg, s, slots, before, ids[n]);
      StepTakes(cfg, s, slots, before, ids[n]);
      DrainedMore(cfg, s, ids, acc.budget);
      LimitNeedsNothing(cfg, s, ids[n]);
    }
  }

  lemma NoneDrained(cfg: Config, s: Sched, budget: int)
    ensures !Drained(cfg, s, [], budget)
  {
  }

  lemma LimitNeedsNothing(cfg: Config, s: Sched, id: ReqId)
    ensures EndsAtLimit(cfg, Req(s.store, id)) ==> Need(cfg, s, id) == 0 && Req(s.store, id).Remaining() > 0
  {
  }

  // A request that may go on is finished exactly when what the requests in lower slots need is at least
  // the budget, or the budget stops short of the last chunk of a prompt at the length limit.
  lemma {:induction false} FinishedEarlyIffNeeds(cfg: Config, s: Sched, slots: Option<Slots>, k: nat)
    requires SchedInv(s) && ValidConfig(cfg) && k < |SortBySlot(slots, s.running)|
    requires MayGoOn(cfg, s, SortBySlot(slots, s.running)[k])
    ensures var ids, b := SortBySlot(slots, s.running), cfg.maxBatchedTokens;
      ids[k] in Schedule(cfg, s, slots).finished <==> Needs(cfg, s, ids[..k]) >= b || Drained(cfg, s, ids[..k], b)
  {
    hide SchedInv, MayGoOn, Schedule, SortBySlot, Needs, Drained, RunPhase1;
    FinishedEarlyIff(cfg, s, slots, k);
    LeftIs(cfg, s, slots, SortBySlot(slots, s.running)[..k], StartPhase1(cfg));
  }

  // ---------------------------------------------------------------- a crowd that starves somebody

  // The k-th of n requests; only their being different matters.
  function Name(k: nat): ReqId {
    ReqId(seq(k, _ => 'r'))
  }

  lemma NamesDiffer(a: nat, b: nat)
    ensures Name(a) == Name(b) ==> a == b
  {
    assert |Name(a).name| == a && |Name(b).name| == b;
  }

  const TEN_TOKENS := SamplingParams(Some(10), None, false, [])

  // Prompts that take all they can of the budget, and behind them a request that decodes.
  function Waiting(cfg: Config): Request
    requires 0 <= MaxTake(cfg)
  {
    Request(seq(MaxTake(cfg) + 1, _ => 0), TEN_TOKENS, 0, 0.0, 0)
  }

  const BEHIND := Request([0], TEN_TOKENS, 0, 0.0, 1)

  function Row(n: nat): (r: seq<ReqId>)
    ensures |r| == n
  {
    seq(n, k requires 0 <= k => Name(k))
  }

  function Names(n: nat): set<ReqId> {
    set id | id in Row(n)
  }

  function Crowd(cfg: Config): Sched
    requires 0 <= MaxTake(cfg) && 1 <= cfg.maxNumSeqs
  {
    var n := cfg.maxNumSeqs;
    Sched(
      map id | id in Names(n) :: if id == Name(n - 1) then BEHIND else Waiting(cfg),
      [], [], Row(n), Names(n),
      map id | id in Names(n) :: if id == Name(n - 1) then [0] else [])
  }

  // Its slots: the k-th request in slot k.
  function CrowdSlots(n: nat): Slots {
    Slots(n, map id | id in Names(n) :: |id.name|, map k: nat | k < n :: Name(k), [], [])
  }

  lemma RowOnce(n: nat)
    ensures Once(multiset(Row(n)))
    ensures forall k :: 0 <= k < n ==> Row(n)[k] in Names(n)
  {
    var row := Row(n);
    forall i, j | 0 <= i < j < n ensures row[i] != row[j] {
      NamesDiffer(i, j);
    }
    DistinctOnce(row);
  }

  lemma {:induction false} DistinctOnce(ids: seq<ReqId>)
    requires forall i, j :: 0 <= i < j < |ids| ==> ids[i] != ids[j]
    ensures Once(multiset(ids))
  {
    if ids != [] {
      var n := |ids| - 1;
      DistinctOnce(ids[..n]);
      assert ids == ids[..n] + [ids[n]];
      assert ids[n] !in ids[..n];
    }
  }

  lemma CrowdSlotsDense(n: nat)
    ensures Dense(CrowdSlots(n), n) && CrowdSlots(n).reqToSlot.Keys == Names(n) && CrowdSlots(n).maxSlots == n
  {
    var st := CrowdSlots(n);
    forall id | id in Names(n)
      ensures |id.name| < n && Name(|id.name|) == id
    {
      var k :| 0 <= k < n && Row(n)[k] == id;
      assert |Name(k).name| == k;
    }
    forall k: nat | k < n
      ensures Name(k) in Names(n) && |Name(k).name| == k
    {
      assert Row(n)[k] == Name(k);
    }
  }

  lemma CrowdInv(cfg: Config, slots: Option<Slots>)
    requires ValidConfig(cfg) && 0 <= MaxTake(cfg)
    requires slots == None || slots == Some(CrowdSlots(cfg.maxNumSeqs))
    ensures SchedInv(Crowd(cfg)) && SchedulerInv(cfg, Crowd(cfg), slots)
  {
    hide Dense, CrowdSlots, SchedInv;
    CrowdSchedInv(cfg);
    CrowdSlotsDense(cfg.maxNumSeqs);
  }

  lemma CrowdSchedInv(cfg: Config)
    requires ValidConfig(cfg) && 0 <= MaxTake(cfg)
    ensures SchedInv(Crowd(cfg))
  {
    var s := Crowd(cfg);
    RowOnce(cfg.maxNumSeqs);
    hide Row;
    assert Live(s) == multiset(s.running);
    assert |Waiting(cfg).prompt| >= 1;
  }

  lemma {:induction false} InOrder(slots: Option<Slots>, ids: seq<ReqId>)
    requires SlotOrdered(slots, ids)
    ensures SortBySlot(slots, ids) == ids
  {
    if ids != [] {
      assert SlotOrdered(slots, ids[1..]);
      InOrder(slots, ids[1..]);
      assert ids == [ids[0]] + ids[1..];
    }
  }

  lemma CrowdOrder(cfg: Config, slots: Option<Slots>)
    requires slots == None || slots == Some(CrowdSlots(cfg.maxNumSeqs))
    ensures SortBySlot(slots, Row(cfg.maxNumSeqs)) == Row(cfg.maxNumSeqs)
  {
    var n := cfg.maxNumSeqs;
    forall i, j | 0 <= i < j < n ensures SlotOf(slots, Row(n)[i]) <= SlotOf(slots, Row(n)[j]) {
      assert Row(n)[i] in Names(n) && Row(n)[j] in Names(n);
      assert |Name(i).name| == i && |Name(j).name| == j;
    }
    InOrder(slots, Row(n));
  }

  lemma {:induction false} CrowdNeeds(cfg: Config, k: nat)
    requires ValidConfig(cfg) && 1 <= MaxTake(cfg) && k < cfg.maxNumSeqs
    ensures Needs(cfg, Crowd(cfg), Row(cfg.maxNumSeqs)[..k]) == k * MaxTake(cfg)
  {
    hide Need, Crowd, Row, MaxTake;
    var row := Row(cfg.maxNumSeqs);
    if k == 0 {
      assert row[..0] == [];
    } else {
      CrowdNeeds(cfg, k - 1);
      assert row[..k][..k - 1] == row[..k - 1] && row[..k][k - 1] == row[k - 1];
      NeedsAll(cfg, k - 1);
      assert k * MaxTake(cfg) == (k - 1) * MaxTake(cfg) + MaxTake(cfg);
    }
  }

  lemma NeedsAll(cfg: Config, k: nat)
    requires ValidConfig(cfg) && 1 <= MaxTake(cfg) && k < cfg.maxNumSeqs - 1
    ensures Need(cfg, Crowd(cfg), Row(cfg.maxNumSeqs)[k]) == MaxTake(cfg)
  {
    var n := cfg.maxNumSeqs;
    assert Row(n)[k] in Names(n);
    NamesDiffer(k, n - 1);
    assert Req(Crowd(cfg).store, Row(n)[k]) == Waiting(cfg);
  }

  lemma LastMayGoOn(cfg: Config)
    requires ValidConfig(cfg) && 2 <= MaxTake(cfg)
    ensures MayGoOn(cfg, Crowd(cfg), Name(cfg.maxNumSeqs - 1)) && Row(cfg.maxNumSeqs)[cfg.maxNumSeqs - 1] == Name(cfg.maxNumSeqs - 1)
  {
    var n := cfg.maxNumSeqs;
    assert Row(n)[n - 1] in Names(n);
    assert Req(Crowd(cfg).store, Name(n - 1)) == BEHIND;
  }

  // The crowd starves the last of its requests.
  lemma {:induction false} CrowdStarves(cfg: Config, slots: Option<Slots>)
    requires ValidConfig(cfg) && (cfg.maxNumSeqs - 1) * MaxTake(cfg) >= cfg.maxBatchedTokens
    requires slots == None || slots == Some(CrowdSlots(cfg.maxNumSeqs))
    ensures 2 <= MaxTake(cfg)
    ensures var id := Name(cfg.maxNumSeqs - 1);
      SchedulerInv(cfg, Crowd(cfg), slots) && MayGoOn(cfg, Crowd(cfg), id) && id in Schedule(cfg, Crowd(cfg), slots).finished
  {
    hide Schedule, MaxTake, SchedulerInv, MayGoOn, SortBySlot, Needs, Drained, CrowdSlots, Row, Crowd, SchedInv;
    var n := cfg.maxNumSeqs;
    MoreThanOneEach(n - 1, MaxTake(cfg), cfg.maxBatchedTokens);
    CrowdInv(cfg, slots);
    CrowdOrder(cfg, slots);
    LastMayGoOn(cfg);
    CrowdRuns(cfg);
    FinishedEarlyIffNeeds(cfg, Crowd(cfg), slots, n - 1);
    CrowdNeeds(cfg, n - 1);
  }

  lemma CrowdRuns(cfg: Config)
    requires 0 <= MaxTake(cfg) && 1 <= cfg.maxNumSeqs
    ensures Crowd(cfg).running == Row(cfg.maxNumSeqs)
  {
  }

  lemma MoreThanOneEach(a: nat, b: int, c: int)
    requires a * b >= c > a
    ensures b >= 2
  {
    if b <= 1 {
      AtMostOneEach(a, b);
    }
  }

  lemma AtMostOneEach(a: nat, b: int)
    requires b <= 1
    ensures a * b <= a
  {
  }

  // In no state the scheduler keeps to is a request that may go on finished.
  ghost predicate NobodyEverStarves(cfg: Config, managed: bool) {
    forall s, slots: Option<Slots>, id ::
      SchedulerInv(cfg, s, slots) && slots.Some? == managed && MayGoOn(cfg, s, id) ==> id !in Schedule(cfg, s, slots).finished
  }

  // With or without a slot manager: nobody is starved in any state, if and only if all sequences but one,
  // each taking as much as it can, leave something of the budget.
  lemma {:induction false} NobodyStarvesIff(cfg: Config, managed: bool)
    requires ValidConfig(cfg)
    ensures NobodyEverStarves(cfg, managed) <==> (cfg.maxNumSeqs - 1) * MaxTake(cfg) < cfg.maxBatchedTokens
  {
    hide Schedule, MaxTake, MayGoOn, Crowd, CrowdSlots, SchedInv, SlotsInv;
    if (cfg.maxNumSeqs - 1) * MaxTake(cfg) < cfg.maxBatchedTokens {
      forall s, slots: Option<Slots>, id | SchedulerInv(cfg, s, slots) && slots.Some? == managed && MayGoOn(cfg, s, id)
        ensures id !in Schedule(cfg, s, slots).finished
      {
        NobodyStarves(cfg, s, slots, id);
      }
    } else {
      CrowdStarves(cfg, if managed then Some(CrowdSlots(cfg.maxNumSeqs)) else None);
    }
  }
}
