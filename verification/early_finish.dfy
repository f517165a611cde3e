/** Requests that end sooner, or under another name, than their own limits say. */
module EarlyFinish {
  import opened Wrappers
  import opened Requests
  import opened Sorting
  import opened StateSlots
  import opened Scheduling
  import opened SchedulingInvariants
  import opened Completion

  // A decoding request that none of its own limits ends.
  ghost predicate MayGoOn(cfg: Config, s: Sched, id: ReqId) {
    var r := Req(s.store, id);
    && r.IsDecode() && !ShouldFinish(r, Out(s.outputs, id))
    && (cfg.maxModelLen.Some? ==> r.computed + 1 < cfg.maxModelLen.value)
  }

  // Such a request is nevertheless finished exactly when the budget is spent before its turn.
  lemma FinishedIffStarved(cfg: Config, s: Sched, slots: Option<Slots>, acc: Phase1, id: ReqId)
    requires MayGoOn(cfg, s, id) && 1 <= cfg.chunkThreshold && id !in acc.finished
    ensures id in Phase1Step(cfg, s, slots, acc, id).finished <==> acc.budget <= 0
  {
  }

  lemma {:induction false} Phase1Split(cfg: Config, s: Sched, slots: Option<Slots>, ids: seq<ReqId>, acc: Phase1, k: nat)
    requires k <= |ids|
    ensures RunPhase1(cfg, s, slots, ids, acc) == RunPhase1(cfg, s, slots, ids[k..], RunPhase1(cfg, s, slots, ids[..k], acc))
    decreases k
  {
    hide Phase1Step;
    if k == 0 {
      assert ids[0..] == ids && ids[..0] == [];
    } else {
      Phase1Split(cfg, s, slots, ids[1..], Phase1Step(cfg, s, slots, acc, ids[0]), k - 1);
      assert ids[1..][k - 1..] == ids[k..] && ids[..k][1..] == ids[1..][..k - 1];
    }
  }

  lemma {:induction false} OthersDoNotFinish(cfg: Config, s: Sched, slots: Option<Slots>, ids: seq<ReqId>, acc: Phase1, id: ReqId)
    requires id !in ids
    ensures id in RunPhase1(cfg, s, slots, ids, acc).finished <==> id in acc.finished
    decreases |ids|
  {
    if ids != [] {
      assert id in Phase1Step(cfg, s, slots, acc, ids[0]).finished <==> id in acc.finished;
      hide Phase1Step;
      OthersDoNotFinish(cfg, s, slots, ids[1..], Phase1Step(cfg, s, slots, acc, ids[0]), id);
    }
  }

  // What is left of the budget when the k-th running request in slot order has its turn.
  function BudgetAt(cfg: Config, s: Sched, slots: Option<Slots>, k: nat): int
    requires k <= |SortBySlot(slots, s.running)|
  {
    RunPhase1(cfg, s, slots, SortBySlot(slots, s.running)[..k], StartPhase1(cfg)).budget
  }

  // A whole scheduling call finishes a request that may go on exactly when the requests in lower slots
  // leave nothing of the budget.
  lemma FinishedEarlyIff(cfg: Config, s: Sched, slots: Option<Slots>, k: nat)
    requires SchedInv(s) && 1 <= cfg.chunkThreshold && k < |SortBySlot(slots, s.running)|
    requires MayGoOn(cfg, s, SortBySlot(slots, s.running)[k])
    ensures SortBySlot(slots, s.running)[k] in Schedule(cfg, s, slots).finished <==> BudgetAt(cfg, s, slots, k) <= 0
  {
    hide RunPhase2, MayGoOn, SortBySlot;
    var ids := SortBySlot(slots, s.running);
    var id := ids[k];
    SortBySlotElements(slots, s.running);
    RunningStored(s, ids);
    OnceAt(ids, k);
    var before := RunPhase1(cfg, s, slots, ids[..k], StartPhase1(cfg));
    Phase1Split(cfg, s, slots, ids, StartPhase1(cfg), k);
    OthersDoNotFinish(cfg, s, slots, ids[..k], StartPhase1(cfg), id);
    FinishedIffStarved(cfg, s, slots, before, id);
    assert ids[k..][1..] == ids[k + 1..];
    hide Phase1Step;
    OthersDoNotFinish(cfg, s, slots, ids[k + 1..], Phase1Step(cfg, s, slots, before, id), id);
  }

  lemma OnceAt(ids: seq<ReqId>, k: nat)
    requires Once(multiset(ids)) && k < |ids|
    ensures ids[k] !in ids[..k] && ids[k] !in ids[k + 1..]
  {
    assert ids == ids[..k] + [ids[k]] + ids[k + 1..];
    assert multiset(ids)[ids[k]] == multiset(ids[..k])[ids[k]] + 1 + multiset(ids[k + 1..])[ids[k]];
  }

  // The most tokens one request can take of the budget in one step.
  function MaxTake(cfg: Config): int {
    if cfg.maxModelLen.Some? then Min(cfg.chunkThreshold, cfg.maxModelLen.value - 1) else cfg.chunkThreshold
  }

  // One request after another, each takes at most that much.
  lemma {:induction false} BudgetLasts(cfg: Config, s: Sched, slots: Option<Slots>, ids: seq<ReqId>, acc: Phase1, id: ReqId)
    requires 1 <= cfg.chunkThreshold && (ids != [] ==> acc.budget > (|ids| - 1) * MaxTake(cfg))
    requires MayGoOn(cfg, s, id) && id !in acc.finished
    ensures id !in RunPhase1(cfg, s, slots, ids, acc).finished
    decreases |ids|
  {
    hide Phase1Step, MayGoOn, MaxTake;
    if ids != [] {
      var m := MaxTake(cfg);
      TakesPositive(cfg, s, id);
      StepTakesAtMost(cfg, s, slots, acc, ids[0]);
      Monotone(0, |ids| - 1, m);
      if ids[0] == id {
        FinishedIffStarved(cfg, s, slots, acc, id);
      }
      OneFewer(|ids| - 1, m);
      BudgetLasts(cfg, s, slots, ids[1..], Phase1Step(cfg, s, slots, acc, ids[0]), id);
    }
  }

  lemma OneFewer(n: nat, m: int)
    ensures n * m == (n - 1) * m + m
  {
  }

  lemma TakesPositive(cfg: Config, s: Sched, id: ReqId)
    requires 1 <= cfg.chunkThreshold && MayGoOn(cfg, s, id)
    ensures 1 <= MaxTake(cfg)
  {
  }

  lemma StepTakesAtMost(cfg: Config, s: Sched, slots: Option<Slots>, acc: Phase1, id: ReqId)
    requires 1 <= cfg.chunkThreshold && 1 <= MaxTake(cfg)
    ensures var acc' := Phase1Step(cfg, s, slots, acc, id);
      acc'.budget >= acc.budget - MaxTake(cfg) && acc'.finished <= acc.finished + {id}
  {
  }

  // With room in the budget for all the sequences but one, nobody is starved.
  lemma NobodyStarves(cfg: Config, s: Sched, slots: Option<Slots>, id: ReqId)
    requires 1 <= cfg.chunkThreshold && (cfg.maxNumSeqs - 1) * MaxTake(cfg) < cfg.maxBatchedTokens
    requires |s.running| <= cfg.maxNumSeqs && MayGoOn(cfg, s, id)
    ensures id !in Schedule(cfg, s, slots).finished
  {
    hide RunPhase1, RunPhase2, MayGoOn, MaxTake;
    var ids := SortBySlot(slots, s.running);
    SortBySlotElements(slots, s.running);
    assert |ids| == |multiset(ids)| == |multiset(s.running)| == |s.running|;
    TakesPositive(cfg, s, id);
    if ids != [] {
      Monotone(|ids| - 1, cfg.maxNumSeqs - 1, MaxTake(cfg));
    }
    BudgetLasts(cfg, s, slots, ids, StartPhase1(cfg), id);
  }

  lemma Monotone(a: nat, b: nat, c: nat)
    requires a <= b
    ensures a * c <= b * c
  {
  }

  // For instance, the chunk of a prompt takes the budget of four, and the request behind it is finished
  // with one of its ten tokens.
  const FOUR := Config(None, 4, 4, 2, 0, 0, Fcfs)
  const PROMPT := ReqId("a")
  const STARVED := ReqId("b")
  const TEN := SamplingParams(Some(10), None, false, [])
  const STORE: Store := map[
    PROMPT := Request([1, 2, 3, 4, 5, 6, 7, 8], TEN, 0, 0.0, 4),
    STARVED := Request([1], TEN, 0, 0.0, 1)]
  const CROWDED := Sched(STORE, [], [], [PROMPT, STARVED], {PROMPT, STARVED}, map[PROMPT := [], STARVED := [9]])

  lemma StarvationHappens()
    ensures ValidConfig(FOUR) && SchedulerInv(FOUR, CROWDED, None) && MayGoOn(FOUR, CROWDED, STARVED)
    ensures STARVED in Schedule(FOUR, CROWDED, None).finished
  {
    assert Live(CROWDED) == multiset{PROMPT, STARVED};
    hide RunPhase2, Live;
    StarvedInPhase1();
  }

  lemma StarvedInPhase1()
    ensures STARVED in RunPhase1(FOUR, CROWDED, None, SortBySlot(None, CROWDED.running), StartPhase1(FOUR)).finished
  {
    var two, one := [PROMPT, STARVED], [STARVED];
    assert two[1..] == one && one[1..] == [];
    assert SortBySlot(None, one) == one;
    assert SortBySlot(None, two) == two;
    var acc := Phase1Step(FOUR, CROWDED, None, StartPhase1(FOUR), PROMPT);
    assert acc.budget == 0;
    var acc2 := Phase1Step(FOUR, CROWDED, None, acc, STARVED);
    assert STARVED in acc2.finished;
    hide Phase1Step, SortBySlot;
    assert RunPhase1(FOUR, CROWDED, None, one, acc) == RunPhase1(FOUR, CROWDED, None, [], acc2) == acc2;
  }

  // ---------------------------------------------------------------- the reason reported

  // For a request that got a token: "eos" is the end-of-sequence token last, "stop" is a stop token,
  // but only where the end-of-sequence token is switched off or not set.
  lemma ReasonsAre(p: SamplingParams, d: RunData, completed: seq<Token>)
    requires (d.isDecode || d.isLastPrefill) && completed != []
    ensures var (reason, stop) := Classify(Some(p), Some(d), completed);
      && (reason == Eos <==> !p.ignoreEos && p.eosTokenId == Some(completed[|completed| - 1]))
      && (reason == Stop <==> (p.ignoreEos || p.eosTokenId == None) && AnyStop(completed, p.stopTokenIds))
      && (reason == Stop ==> stop.Some? && stop.value in completed && stop.value in p.stopTokenIds)
      && (reason == Eos || reason == Stop || reason == Length)
  {
    LastStopFinds(completed, p.stopTokenIds);
  }

  ghost predicate AnyStop(tokens: seq<Token>, stops: seq<Token>) {
    exists t :: t in tokens && t in stops
  }

  lemma {:induction false} LastStopFinds(tokens: seq<Token>, stops: seq<Token>)
    ensures LastStop(tokens, stops).Some? <==> AnyStop(tokens, stops)
    ensures LastStop(tokens, stops).Some? ==> LastStop(tokens, stops).value in tokens && LastStop(tokens, stops).value in stops
  {
    if tokens != [] {
      var init, last := tokens[..|tokens| - 1], tokens[|tokens| - 1];
      LastStopFinds(init, stops);
      assert forall t :: t in tokens <==> t in init || t == last;
    }
  }

  // A request whose last token is a stop token says so exactly when no end-of-sequence token is looked
  // for; where one is, that token has the say.
  lemma StopIsNamedIff(p: SamplingParams, d: RunData, completed: seq<Token>)
    requires (d.isDecode || d.isLastPrefill) && completed != []
    requires completed[|completed| - 1] in p.stopTokenIds
    ensures var last := completed[|completed| - 1];
      && StopHit(p, [last])
      && Classify(Some(p), Some(d), completed).0 ==
        if p.ignoreEos || p.eosTokenId == None then Stop else if p.eosTokenId == Some(last) then Eos else Length
  {
    ReasonsAre(p, d, completed);
    assert completed[|completed| - 1] in completed;
    var last := [completed[|completed| - 1]];
    assert last[0] in p.stopTokenIds;
  }
}
