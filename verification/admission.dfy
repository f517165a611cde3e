/** Who runs in a scheduling call and who ends, who is admitted, in which order, and why others are not. */
module Admission {
  import opened Wrappers
  import opened Requests
  import opened StateSlots
  import opened Scheduling
  import opened SchedulingInvariants
  import opened EarlyFinish
  import Queue = RequestQueue

  // ---------------------------------------------------------------- the rules, spelled out

  // The tokens a request would be given: its prompt left or one decode, within a chunk, the budget and the
  // length limit.
  function Grant(cfg: Config, r: Request, budget: int): int {
    var left := if r.computed >= |r.prompt| then 1 else |r.prompt| - r.computed;
    var chunk := if left <= cfg.chunkThreshold then left else cfg.chunkThreshold;
    var fits := if chunk <= budget then chunk else budget;
    match cfg.maxModelLen
    case None => fits
    case Some(limit) => if fits <= limit - 1 - r.computed then fits else limit - 1 - r.computed
  }

  // The limit on prompts handed out in part: one for prompts longer than a chunk, another for the rest.
  function LimitFor(cfg: Config, r: Request): int {
    if |r.prompt| - r.computed > cfg.chunkThreshold then cfg.maxLongPartialPrefills else cfg.maxPartialPrefills
  }

  predicate AtLimit(limit: int, partials: int) {
    limit > 0 && partials >= limit
  }

  // A request is put aside when there is nothing to give it, or only part of its prompt while the limit
  // on such prompts is reached.
  predicate Barred(cfg: Config, r: Request, budget: int, partials: int) {
    var n := Grant(cfg, r, budget);
    n <= 0 || (r.computed + n < |r.prompt| && AtLimit(LimitFor(cfg, r), partials))
  }

  // More than a chunk left while the limit on such prompts is reached: whatever the budget, it is barred.
  predicate OverLong(cfg: Config, r: Request, partials: int) {
    |r.prompt| - r.computed > cfg.chunkThreshold && AtLimit(cfg.maxLongPartialPrefills, partials)
  }

  // The records that hand out a prompt in part.
  function Partials(data: seq<RunData>): nat {
    if data == [] then 0
    else
      var d := data[|data| - 1];
      Partials(data[..|data| - 1]) + if !d.isDecode && !d.isLastPrefill then 1 else 0
  }

  lemma OverLongIsBarred(cfg: Config, r: Request, budget: int, partials: int)
    requires OverLong(cfg, r, partials)
    ensures Barred(cfg, r, budget, partials)
  {
  }

  // As the budget shrinks and the count grows, who is barred stays barred.
  lemma StaysBarred(cfg: Config, r: Request, budget: int, partials: int, budget': int, partials': int)
    requires Barred(cfg, r, budget, partials) && budget' <= budget && partials <= partials'
    ensures Barred(cfg, r, budget', partials')
  {
  }

  // ---------------------------------------------------------------- the loop's tests

  lemma GrantIs(cfg: Config, r: Request, budget: int)
    ensures NumNew(cfg, r, budget) == Grant(cfg, r, budget)
  {
  }

  // A head is taken unless it is over the limit on long prompts.
  lemma HeadFitsIff(cfg: Config, r: Request, partials: int)
    requires 1 <= cfg.chunkThreshold
    ensures HeadFits(cfg, r, partials) <==> !OverLong(cfg, r, partials)
  {
  }

  // A request taken off its queue is put aside if it is barred; otherwise it enters with its grant.
  lemma AdmitIs(cfg: Config, store: Store, acc: Phase2, id: ReqId)
    requires 1 <= cfg.chunkThreshold
    ensures var r := Req(store, id);
      var n := Grant(cfg, r, acc.budget);
      var a := Admit(cfg, store, acc, id);
      if Barred(cfg, r, acc.budget, acc.partialPrefills) then a == Hold(cfg, store, acc, id)
      else
        match AllocateFor(acc.slots, id)
        case None => a.raised
        case Some(slots) =>
          && n >= 1
          && a == Enter(acc, r, id, n, slots, r.computed < |r.prompt| && r.computed + n < |r.prompt|)
  {
    hide NumNew, AllocateFor;
    GrantIs(cfg, Req(store, id), acc.budget);
    hide Grant;
  }

  // ---------------------------------------------------------------- one after another

  // Everybody here has been admitted, or is barred by now.
  ghost predicate Past(cfg: Config, store: Store, q: seq<ReqId>, admitted: seq<ReqId>, budget: int, partials: int) {
    forall id :: id in q ==> id in admitted || Barred(cfg, Req(store, id), budget, partials)
  }

  // It is this request's turn after `admitted`: everybody before it in its own queue has been passed; and if
  // it comes from the waiting queue so has the whole skipped queue, unless the head there is over the limit
  // on long prompts.
  ghost predicate Turn(
      cfg: Config, s: Sched, admitted: seq<ReqId>, budget: int, partials: int, id: ReqId, ks: nat, kw: nat)
  {
    && ks <= |s.skipped| && kw <= |s.waiting|
    && Past(cfg, s.store, s.skipped[..ks], admitted, budget, partials)
    && Past(cfg, s.store, s.waiting[..kw], admitted, budget, partials)
    && ((ks < |s.skipped| && id == s.skipped[ks])
        || (kw < |s.waiting| && id == s.waiting[kw] && (ks == |s.skipped| || OverLong(cfg, Req(s.store, s.skipped[ks]), partials))))
  }

  // The budget and the count of partly given prompts before the i-th newcomer.
  function BudgetBefore(budget: int, recs: seq<RunData>, i: nat): int
    requires i <= |recs|
  {
    budget - SumTokens(recs[..i])
  }

  function PartialsBefore(cfg: Config, s: Sched, recs: seq<RunData>, i: nat): int
    requires i <= |recs|
  {
    CountLong(cfg, s.store, s.running) + Partials(recs[..i])
  }

  // The i-th newcomer is not barred when its turn comes, and is given what there is to give.
  ghost predicate EntersRight(cfg: Config, s: Sched, budget: int, ids: seq<ReqId>, recs: seq<RunData>, i: nat)
    requires i < |ids| == |recs|
  {
    var b, c := BudgetBefore(budget, recs, i), PartialsBefore(cfg, s, recs, i);
    var r := Req(s.store, ids[i]);
    && !Barred(cfg, r, b, c)
    && recs[i].id == ids[i] && recs[i].numTokens == Grant(cfg, r, b)
    && exists ks: nat, kw: nat :: Turn(cfg, s, ids[..i], b, c, ids[i], ks, kw)
  }

  ghost predicate AllRight(cfg: Config, s: Sched, budget: int, ids: seq<ReqId>, recs: seq<RunData>) {
    |ids| == |recs| && forall i :: 0 <= i < |ids| ==> EntersRight(cfg, s, budget, ids, recs, i)
  }

  // The admission loop under way: `ids` have been admitted with `recs`, `ks` and `kw` taken off the queues.
  ghost predicate LoopInv(
      cfg: Config, s: Sched, budget: int, data: seq<RunData>, acc: Phase2, ids: seq<ReqId>, recs: seq<RunData>, ks: nat, kw: nat)
  {
    && acc.running == s.running + ids && acc.data == data + recs
    && ks <= |s.skipped| && acc.skipped == s.skipped[ks..]
    && kw <= |s.waiting| && acc.waiting == s.waiting[kw..]
    && acc.budget == budget - SumTokens(recs)
    && acc.partialPrefills == CountLong(cfg, s.store, s.running) + Partials(recs)
    && Past(cfg, s.store, s.skipped[..ks], ids, acc.budget, acc.partialPrefills)
    && Past(cfg, s.store, s.waiting[..kw], ids, acc.budget, acc.partialPrefills)
    && Past(cfg, s.store, acc.held, [], acc.budget, acc.partialPrefills)
    && (forall id :: id in s.skipped[..ks] || id in s.waiting[..kw] ==> id in ids || id in acc.held)
    && (forall id :: id in acc.held ==> id in s.skipped[..ks] || id in s.waiting[..kw])
    && AllRight(cfg, s, budget, ids, recs)
  }

  lemma PastMore(cfg: Config, store: Store, q: seq<ReqId>, a: seq<ReqId>, x: ReqId, b: int, c: int, b': int, c': int)
    requires Past(cfg, store, q, a, b, c) && b' <= b && c <= c'
    ensures Past(cfg, store, q, a + [x], b', c') && Past(cfg, store, q, a, b', c')
  {
    hide Barred;
    forall id | id in q && Barred(cfg, Req(store, id), b, c) ensures Barred(cfg, Req(store, id), b', c') {
      StaysBarred(cfg, Req(store, id), b, c, b', c');
    }
  }

  lemma PastSnoc(cfg: Config, store: Store, q: seq<ReqId>, k: nat, a: seq<ReqId>, b: int, c: int)
    requires k < |q| && Past(cfg, store, q[..k], a, b, c)
    requires q[k] in a || Barred(cfg, Req(store, q[k]), b, c)
    ensures Past(cfg, store, q[..k + 1], a, b, c)
  {
    hide Barred;
    assert q[..k + 1] == q[..k] + [q[k]];
  }

  // What has been settled about earlier newcomers stays so.
  lemma RightSnoc(cfg: Config, s: Sched, budget: int, ids: seq<ReqId>, recs: seq<RunData>, id: ReqId, d: RunData, ks: nat, kw: nat)
    requires AllRight(cfg, s, budget, ids, recs) && d.id == id
    requires var b, c := budget - SumTokens(recs), CountLong(cfg, s.store, s.running) + Partials(recs);
      && !Barred(cfg, Req(s.store, id), b, c) && d.numTokens == Grant(cfg, Req(s.store, id), b)
      && Turn(cfg, s, ids, b, c, id, ks, kw)
    ensures AllRight(cfg, s, budget, ids + [id], recs + [d])
  {
    hide Barred, Turn, Grant, Partials, SumTokens, CountLong;
    var ids', recs' := ids + [id], recs + [d];
    forall i | 0 <= i < |ids'| ensures EntersRight(cfg, s, budget, ids', recs', i) {
      if i < |ids| {
        assert EntersRight(cfg, s, budget, ids, recs, i);
        assert ids'[..i] == ids[..i] && recs'[..i] == recs[..i];
      } else {
        assert ids'[..i] == ids && recs'[..i] == recs;
        assert Turn(cfg, s, ids'[..i], BudgetBefore(budget, recs', i), PartialsBefore(cfg, s, recs', i), id, ks, kw);
      }
    }
  }

  lemma CountsSnoc(recs: seq<RunData>, d: RunData)
    ensures SumTokens(recs + [d]) == SumTokens(recs) + d.numTokens
    ensures Partials(recs + [d]) == Partials(recs) + if !d.isDecode && !d.isLastPrefill then 1 else 0
  {
    assert (recs + [d])[..|recs|] == recs;
  }

  // Putting the head of a queue aside.
  lemma HoldSkipped(
      cfg: Config, s: Sched, budget: int, data: seq<RunData>, acc: Phase2, ids: seq<ReqId>, recs: seq<RunData>, ks: nat, kw: nat)
    requires LoopInv(cfg, s, budget, data, acc, ids, recs, ks, kw) && acc.skipped != []
    requires Barred(cfg, Req(s.store, acc.skipped[0]), acc.budget, acc.partialPrefills)
    ensures LoopInv(
      cfg, s, budget, data, Hold(cfg, s.store, acc.(skipped := acc.skipped[1..]), acc.skipped[0]), ids, recs, ks + 1, kw)
  {
    hide Barred, AllRight, SumTokens, Partials, CountLong, Queue.Prepend;
    PastSnoc(cfg, s.store, s.skipped, ks, ids, acc.budget, acc.partialPrefills);
    HeldMore(cfg, s.store, acc.held, acc.skipped[0]);
    assert s.skipped[..ks + 1] == s.skipped[..ks] + [acc.skipped[0]];
  }

  lemma HoldWaiting(
      cfg: Config, s: Sched, budget: int, data: seq<RunData>, acc: Phase2, ids: seq<ReqId>, recs: seq<RunData>, ks: nat, kw: nat)
    requires LoopInv(cfg, s, budget, data, acc, ids, recs, ks, kw) && acc.waiting != []
    requires Barred(cfg, Req(s.store, acc.waiting[0]), acc.budget, acc.partialPrefills)
    ensures LoopInv(
      cfg, s, budget, data, Hold(cfg, s.store, acc.(waiting := acc.waiting[1..]), acc.waiting[0]), ids, recs, ks, kw + 1)
  {
    hide Barred, AllRight, SumTokens, Partials, CountLong, Queue.Prepend;
    PastSnoc(cfg, s.store, s.waiting, kw, ids, acc.budget, acc.partialPrefills);
    HeldMore(cfg, s.store, acc.held, acc.waiting[0]);
    assert s.waiting[..kw + 1] == s.waiting[..kw] + [acc.waiting[0]];
  }

  lemma HeldMore(cfg: Config, store: Store, held: seq<ReqId>, id: ReqId)
    ensures forall x :: x in Queue.Prepend(cfg.policy, store, held, id) <==> x in held || x == id
  {
    var q := Queue.Prepend(cfg.policy, store, held, id);
    Queue.PrependElements(cfg.policy, store, held, id);
    assert forall x :: x in q <==> x in multiset(q);
    assert forall x :: x in held <==> x in multiset(held);
  }

  lemma EnterKeepsLoop(
      cfg: Config, s: Sched, budget: int, data: seq<RunData>, acc: Phase2, acc': Phase2, ids: seq<ReqId>, recs: seq<RunData>,
      ks: nat, kw: nat, ks': nat, kw': nat, id: ReqId, d: RunData)
    requires LoopInv(cfg, s, budget, data, acc, ids, recs, ks, kw)
    requires Turn(cfg, s, ids, acc.budget, acc.partialPrefills, id, ks, kw)
    requires !Barred(cfg, Req(s.store, id), acc.budget, acc.partialPrefills)
    requires d.id == id && d.numTokens == Grant(cfg, Req(s.store, id), acc.budget)
    requires acc'.running == acc.running + [id] && acc'.data == acc.data + [d] && acc'.held == acc.held
    requires acc'.budget == acc.budget - d.numTokens
    requires acc'.partialPrefills == acc.partialPrefills + if !d.isDecode && !d.isLastPrefill then 1 else 0
    requires (ks' == ks && acc'.skipped == acc.skipped) || (ks' == ks + 1 && acc.skipped != [] && id == acc.skipped[0] && acc'.skipped == acc.skipped[1..])
    requires (kw' == kw && acc'.waiting == acc.waiting) || (kw' == kw + 1 && acc.waiting != [] && id == acc.waiting[0] && acc'.waiting == acc.waiting[1..])
    ensures LoopInv(cfg, s, budget, data, acc', ids + [id], recs + [d], ks', kw')
  {
    hide Barred, AllRight, SumTokens, Partials, CountLong, Turn, Past, Grant;
    var b, c, b', c' := acc.budget, acc.partialPrefills, acc'.budget, acc'.partialPrefills;
    CountsSnoc(recs, d);
    RightSnoc(cfg, s, budget, ids, recs, id, d, ks, kw);
    assert s.running + ids + [id] == s.running + (ids + [id]) && data + recs + [d] == data + (recs + [d]);
    PastMore(cfg, s.store, s.skipped[..ks], ids, id, b, c, b', c');
    PastMore(cfg, s.store, s.waiting[..kw], ids, id, b, c, b', c');
    PastMore(cfg, s.store, acc.held, [], id, b, c, b', c');
    assert id in ids + [id];
    if ks' == ks + 1 {
      PastSnoc(cfg, s.store, s.skipped, ks, ids + [id], b', c');
      assert s.skipped[..ks + 1] == s.skipped[..ks] + [id];
    }
    if kw' == kw + 1 {
      PastSnoc(cfg, s.store, s.waiting, kw, ids + [id], b', c');
      assert s.waiting[..kw + 1] == s.waiting[..kw] + [id];
    }
  }

  // The record of a newcomer, and the count it adds to.
  lemma EnterIs(acc: Phase2, r: Request, id: ReqId, n: nat, slots: Option<Slots>)
    ensures var partial := r.computed < |r.prompt| && r.computed + n < |r.prompt|;
      var a := Enter(acc, r, id, n, slots, partial);
      var d := MakeRun(r, id, n, SlotOf(slots, id));
      && a.running == acc.running + [id] && a.data == acc.data + [d] && a.budget == acc.budget - d.numTokens
      && d.id == id && d.numTokens == n
      && a.partialPrefills == acc.partialPrefills + (if !d.isDecode && !d.isLastPrefill then 1 else 0)
      && a.held == acc.held && a.skipped == acc.skipped && a.waiting == acc.waiting && a.raised == acc.raised
  {
  }

  // One turn of the loop.
  lemma {:induction false} LoopStep(
      cfg: Config, s: Sched, budget: int, data: seq<RunData>, acc: Phase2, ids: seq<ReqId>, recs: seq<RunData>, ks: nat, kw: nat)
    returns (ids': seq<ReqId>, recs': seq<RunData>, ks': nat, kw': nat)
    requires 1 <= cfg.chunkThreshold && Admitting(cfg, acc) && LoopInv(cfg, s, budget, data, acc, ids, recs, ks, kw)
    ensures var acc' := Phase2Step(cfg, s.store, acc);
      acc'.raised || LoopInv(cfg, s, budget, data, acc', ids', recs', ks', kw')
  {
    hide Barred, AllRight, SumTokens, Partials, CountLong, Past, Grant, Admit, HeadFits, AllocateFor, LoopInv, OverLong, Enter, MakeRun, Hold, HoldHeads;
    var store := s.store;
    QueuesAre(cfg, s, budget, data, acc, ids, recs, ks, kw);
    ids', recs', ks', kw' := ids, recs, ks, kw;
    if acc.skipped != [] {
      HeadFitsIff(cfg, Req(store, acc.skipped[0]), acc.partialPrefills);
    }
    if acc.waiting != [] {
      HeadFitsIff(cfg, Req(store, acc.waiting[0]), acc.partialPrefills);
    }
    if Selectable(cfg, store, acc.skipped, acc.partialPrefills) {
      ids', recs' := TakeSkipped(cfg, s, budget, data, acc, ids, recs, ks, kw);
      ks' := ks + 1;
    } else if Selectable(cfg, store, acc.waiting, acc.partialPrefills) {
      ids', recs' := TakeWaiting(cfg, s, budget, data, acc, ids, recs, ks, kw);
      kw' := kw + 1;
    } else {
      ks', kw' := MoveBoth(cfg, s, budget, data, acc, ids, recs, ks, kw);
    }
  }

  lemma QueuesAre(
      cfg: Config, s: Sched, budget: int, data: seq<RunData>, acc: Phase2, ids: seq<ReqId>, recs: seq<RunData>, ks: nat, kw: nat)
    requires LoopInv(cfg, s, budget, data, acc, ids, recs, ks, kw)
    ensures ks <= |s.skipped| && acc.skipped == s.skipped[ks..] && kw <= |s.waiting| && acc.waiting == s.waiting[kw..]
    ensures Past(cfg, s.store, s.skipped[..ks], ids, acc.budget, acc.partialPrefills)
    ensures Past(cfg, s.store, s.waiting[..kw], ids, acc.budget, acc.partialPrefills)
  {
    hide Past, AllRight;
  }

  lemma {:induction false} TakeSkipped(
      cfg: Config, s: Sched, budget: int, data: seq<RunData>, acc: Phase2, ids: seq<ReqId>, recs: seq<RunData>, ks: nat, kw: nat)
    returns (ids': seq<ReqId>, recs': seq<RunData>)
    requires 1 <= cfg.chunkThreshold && LoopInv(cfg, s, budget, data, acc, ids, recs, ks, kw) && acc.skipped != []
    ensures var acc' := Admit(cfg, s.store, acc.(skipped := acc.skipped[1..]), acc.skipped[0]);
      acc'.raised || LoopInv(cfg, s, budget, data, acc', ids', recs', ks + 1, kw)
  {
    hide Barred, AllRight, SumTokens, Partials, CountLong, Past, Grant, Admit, AllocateFor, LoopInv, Enter, MakeRun, Hold;
    var id := acc.skipped[0];
    var popped := acc.(skipped := acc.skipped[1..]);
    QueuesAre(cfg, s, budget, data, acc, ids, recs, ks, kw);
    AdmitIs(cfg, s.store, popped, id);
    ids', recs' := ids, recs;
    if Barred(cfg, Req(s.store, id), acc.budget, acc.partialPrefills) {
      HoldSkipped(cfg, s, budget, data, acc, ids, recs, ks, kw);
    } else if AllocateFor(acc.slots, id).Some? {
      var slots := AllocateFor(acc.slots, id).value;
      var r, n := Req(s.store, id), Grant(cfg, Req(s.store, id), acc.budget);
      EnterIs(popped, r, id, n, slots);
      ids', recs' := ids + [id], recs + [MakeRun(r, id, n, SlotOf(slots, id))];
      EnterKeepsLoop(
        cfg, s, budget, data, acc, Admit(cfg, s.store, popped, id), ids, recs, ks, kw, ks + 1, kw, id,
        MakeRun(r, id, n, SlotOf(slots, id)));
    }
  }

  lemma {:induction false} TakeWaiting(
      cfg: Config, s: Sched, budget: int, data: seq<RunData>, acc: Phase2, ids: seq<ReqId>, recs: seq<RunData>, ks: nat, kw: nat)
    returns (ids': seq<ReqId>, recs': seq<RunData>)
    requires 1 <= cfg.chunkThreshold && LoopInv(cfg, s, budget, data, acc, ids, recs, ks, kw) && acc.waiting != []
    requires acc.skipped == [] || OverLong(cfg, Req(s.store, acc.skipped[0]), acc.partialPrefills)
    ensures var acc' := Admit(cfg, s.store, acc.(waiting := acc.waiting[1..]), acc.waiting[0]);
      acc'.raised || LoopInv(cfg, s, budget, data, acc', ids', recs', ks, kw + 1)
  {
    hide Barred, AllRight, SumTokens, Partials, CountLong, Past, Grant, Admit, AllocateFor, LoopInv, Enter, MakeRun, Hold, OverLong;
    var id := acc.waiting[0];
    var popped := acc.(waiting := acc.waiting[1..]);
    QueuesAre(cfg, s, budget, data, acc, ids, recs, ks, kw);
    AdmitIs(cfg, s.store, popped, id);
    ids', recs' := ids, recs;
    if Barred(cfg, Req(s.store, id), acc.budget, acc.partialPrefills) {
      HoldWaiting(cfg, s, budget, data, acc, ids, recs, ks, kw);
    } else if AllocateFor(acc.slots, id).Some? {
      var slots := AllocateFor(acc.slots, id).value;
      var r, n := Req(s.store, id), Grant(cfg, Req(s.store, id), acc.budget);
      EnterIs(popped, r, id, n, slots);
      ids', recs' := ids + [id], recs + [MakeRun(r, id, n, SlotOf(slots, id))];
      EnterKeepsLoop(
        cfg, s, budget, data, acc, Admit(cfg, s.store, popped, id), ids, recs, ks, kw, ks, kw + 1, id,
        MakeRun(r, id, n, SlotOf(slots, id)));
    }
  }

  lemma {:induction false} MoveBoth(
      cfg: Config, s: Sched, budget: int, data: seq<RunData>, acc: Phase2, ids: seq<ReqId>, recs: seq<RunData>, ks: nat, kw: nat)
    returns (ks': nat, kw': nat)
    requires LoopInv(cfg, s, budget, data, acc, ids, recs, ks, kw)
    requires acc.skipped == [] || OverLong(cfg, Req(s.store, acc.skipped[0]), acc.partialPrefills)
    requires acc.waiting == [] || OverLong(cfg, Req(s.store, acc.waiting[0]), acc.partialPrefills)
    ensures LoopInv(cfg, s, budget, data, HoldHeads(cfg, s.store, acc), ids, recs, ks', kw')
  {
    hide Barred, LoopInv, OverLong, Queue.Prepend;
    ks', kw' := ks, kw;
    var a := acc;
    if acc.skipped != [] {
      OverLongIsBarred(cfg, Req(s.store, acc.skipped[0]), acc.budget, acc.partialPrefills);
      HoldSkipped(cfg, s, budget, data, acc, ids, recs, ks, kw);
      a := Hold(cfg, s.store, acc.(skipped := acc.skipped[1..]), acc.skipped[0]);
      ks' := ks + 1;
    }
    if a.waiting != [] {
      OverLongIsBarred(cfg, Req(s.store, a.waiting[0]), a.budget, a.partialPrefills);
      HoldWaiting(cfg, s, budget, data, a, ids, recs, ks', kw);
      kw' := kw + 1;
    }
  }

  lemma {:induction false} Loop(
      cfg: Config, s: Sched, budget: int, data: seq<RunData>, acc: Phase2, ids: seq<ReqId>, recs: seq<RunData>, ks: nat, kw: nat)
    returns (ids': seq<ReqId>, recs': seq<RunData>, ks': nat, kw': nat)
    requires 1 <= cfg.chunkThreshold && LoopInv(cfg, s, budget, data, acc, ids, recs, ks, kw)
    ensures var acc' := RunPhase2(cfg, s.store, acc);
      acc'.raised || (!Admitting(cfg, acc') && LoopInv(cfg, s, budget, data, acc', ids', recs', ks', kw'))
    decreases |acc.waiting| + |acc.skipped|
  {
    hide LoopInv, Phase2Step;
    ids', recs', ks', kw' := ids, recs, ks, kw;
    if Admitting(cfg, acc) {
      ids', recs', ks', kw' := LoopStep(cfg, s, budget, data, acc, ids, recs, ks, kw);
      FewerQueued(cfg, s.store, acc);
      if !Phase2Step(cfg, s.store, acc).raised {
        ids', recs', ks', kw' := Loop(cfg, s, budget, data, Phase2Step(cfg, s.store, acc), ids', recs', ks', kw');
      }
    }
  }

  lemma FewerQueued(cfg: Config, store: Store, acc: Phase2)
    requires Admitting(cfg, acc)
    ensures var a := Phase2Step(cfg, store, acc); |a.waiting| + |a.skipped| < |acc.waiting| + |acc.skipped|
  {
    hide HeadFits, NumNew, LimitReached, AllocateFor, Queue.Prepend, MakeRun;
  }

  // ---------------------------------------------------------------- the whole call

  lemma StartLoop(cfg: Config, s: Sched, slots: Option<Slots>, p1: Phase1)
    ensures LoopInv(cfg, s, p1.budget, p1.data, StartPhase2(cfg, s, slots, p1), [], [], 0, 0)
  {
    hide CountLong;
    assert s.running + [] == s.running && p1.data + [] == p1.data;
    assert s.skipped[0..] == s.skipped && s.waiting[0..] == s.waiting;
  }

  // What the newcomers of a call leave of the budget, and count of partly given prompts.
  function BudgetIn(cfg: Config, o: Scheduled, recs: seq<RunData>): int
    requires |recs| <= |o.data|
  {
    cfg.maxBatchedTokens - SumTokens(o.data[..|o.data| - |recs|])
  }

  function BudgetOut(cfg: Config, o: Scheduled, recs: seq<RunData>): int
    requires |recs| <= |o.data|
  {
    BudgetIn(cfg, o, recs) - SumTokens(recs)
  }

  function PartialsOut(cfg: Config, s: Sched, recs: seq<RunData>): int {
    CountLong(cfg, s.store, s.running) + Partials(recs)
  }

  // Who is queued after the call: those not reached, and those put aside because they are barred.
  ghost predicate QueuesRight(cfg: Config, s: Sched, o: Scheduled, ids: seq<ReqId>, b: int, c: int, ks: nat, kw: nat) {
    && ks <= |s.skipped| && kw <= |s.waiting| && o.sched.waiting == s.waiting[kw..]
    && Past(cfg, s.store, s.skipped[..ks], ids, b, c) && Past(cfg, s.store, s.waiting[..kw], ids, b, c)
    && (forall id :: id in s.skipped[ks..] ==> id in o.sched.skipped)
    && (forall id :: id in o.sched.skipped && id !in s.skipped[ks..] ==>
          (id in s.skipped[..ks] || id in s.waiting[..kw]) && Barred(cfg, Req(s.store, id), b, c))
  }

  lemma {:induction false} EndOfLoop(
      cfg: Config, s: Sched, budget: int, p1: Phase1, acc: Phase2, ids: seq<ReqId>, recs: seq<RunData>, ks: nat, kw: nat)
    requires LoopInv(cfg, s, budget, p1.data, acc, ids, recs, ks, kw)
    ensures QueuesRight(cfg, s, FinishSchedule(cfg, s, p1, acc), ids, acc.budget, acc.partialPrefills, ks, kw)
  {
    hide Barred, AllRight, SumTokens, Partials, CountLong, Advance, Queue.PrependAll;
    var q := Queue.PrependAll(cfg.policy, s.store, acc.skipped, acc.held);
    Queue.PrependAllElements(cfg.policy, s.store, acc.skipped, acc.held);
    assert forall id :: id in q <==> id in multiset(q);
    assert forall id :: id in acc.skipped <==> id in multiset(acc.skipped);
    assert forall id :: id in acc.held <==> id in multiset(acc.held);
  }

  // A call admits requests one after another, each in its turn, and stops only for want of budget or room.
  lemma {:induction false} AdmissionIs(cfg: Config, s: Sched, slots: Option<Slots>)
    returns (ids: seq<ReqId>, recs: seq<RunData>, ks: nat, kw: nat)
    requires ValidConfig(cfg) && SchedulerInv(cfg, s, slots)
    ensures var o := Schedule(cfg, s, slots);
      && o.sched.running == s.running + ids
      && |recs| == |ids| <= |o.data| && recs == o.data[|o.data| - |recs|..]
      && AllRight(cfg, s, BudgetIn(cfg, o, recs), ids, recs)
      && QueuesRight(cfg, s, o, ids, BudgetOut(cfg, o, recs), PartialsOut(cfg, s, recs), ks, kw)
      && (BudgetOut(cfg, o, recs) > 0 && |o.sched.running| < cfg.maxNumSeqs ==>
            o.sched.waiting == [] && ks == |s.skipped|)
  {
    hide SchedInv, StateOk, WorkOk, LoopInv, AllRight, QueuesRight, RunPhase1, RunPhase2, SortBySlot, Partials, CountLong, Advance, Phase1Inv;
    var p1 := RunPhase1(cfg, s, slots, SortBySlot(slots, s.running), StartPhase1(cfg));
    var start := StartPhase2(cfg, s, slots, p1);
    var p2 := RunPhase2(cfg, s.store, start);
    ScheduleCorrect(cfg, s, slots);
    NotRaised(cfg, s, slots, Schedule(cfg, s, slots));
    Phase1Correct(cfg, s, slots);
    BudgetIs(cfg, s, slots, s.runningMap, p1);
    StartLoop(cfg, s, slots, p1);
    ids, recs, ks, kw := Loop(cfg, s, p1.budget, p1.data, start, [], [], 0, 0);
    EndOfLoop(cfg, s, p1.budget, p1, p2, ids, recs, ks, kw);
    LoopParts(cfg, s, p1.budget, p1.data, p2, ids, recs, ks, kw);
    var o := Schedule(cfg, s, slots);
    assert o.data == p1.data + recs && o.data[..|o.data| - |recs|] == p1.data && o.data[|o.data| - |recs|..] == recs;
  }

  lemma NotRaised(cfg: Config, s: Sched, slots: Option<Slots>, o: Scheduled)
    requires StateOk(cfg, s, slots, o)
    ensures !o.raised
  {
  }

  lemma BudgetIs(cfg: Config, s: Sched, slots: Option<Slots>, done: set<ReqId>, p1: Phase1)
    requires Phase1Inv(cfg, s, slots, done, p1)
    ensures p1.budget == cfg.maxBatchedTokens - SumTokens(p1.data)
  {
  }

  lemma LoopParts(
      cfg: Config, s: Sched, budget: int, data: seq<RunData>, acc: Phase2, ids: seq<ReqId>, recs: seq<RunData>, ks: nat, kw: nat)
    requires LoopInv(cfg, s, budget, data, acc, ids, recs, ks, kw)
    ensures acc.running == s.running + ids && acc.data == data + recs && |ids| == |recs| && AllRight(cfg, s, budget, ids, recs)
    ensures acc.budget == budget - SumTokens(recs) && acc.partialPrefills == PartialsOut(cfg, s, recs)
    ensures ks <= |s.skipped| && acc.skipped == s.skipped[ks..] && acc.waiting == s.waiting[kw..]
  {
    hide EntersRight, Past;
  }

  // ---------------------------------------------------------------- what that means

  // The records of the newcomers, who are the last to be scheduled, and what was left of the budget for them.
  function NewRecords(s: Sched, o: Scheduled): seq<RunData> {
    var n := |o.sched.running| - |s.running|;
    if 0 <= n <= |o.data| then o.data[|o.data| - n..] else []
  }

  function BudgetForNew(cfg: Config, s: Sched, o: Scheduled): int {
    BudgetIn(cfg, o, NewRecords(s, o))
  }

  // Nobody is left queued without a reason: after a call that stops with budget and room to spare every
  // request still queued is barred.
  lemma {:induction false} QueuedAreBarred(cfg: Config, s: Sched, slots: Option<Slots>, id: ReqId)
    requires ValidConfig(cfg) && SchedulerInv(cfg, s, slots)
    ensures var o := Schedule(cfg, s, slots);
      var b := cfg.maxBatchedTokens - SumTokens(o.data);
      b > 0 && |o.sched.running| < cfg.maxNumSeqs && (id in o.sched.waiting || id in o.sched.skipped) ==>
        Barred(cfg, Req(s.store, id), b, PartialsOut(cfg, s, NewRecords(s, o)))
  {
    hide Schedule, SchedulerInv, AllRight, Barred, Partials, CountLong;
    var ids, recs, ks, kw := AdmissionIs(cfg, s, slots);
    var o := Schedule(cfg, s, slots);
    SumSplit(o.data[..|o.data| - |recs|], recs);
    assert o.data[..|o.data| - |recs|] + recs == o.data;
    if BudgetOut(cfg, o, recs) > 0 && |o.sched.running| < cfg.maxNumSeqs && (id in o.sched.waiting || id in o.sched.skipped) {
      assert id !in s.skipped[ks..];
      assert Barred(cfg, Req(s.store, id), BudgetOut(cfg, o, recs), PartialsOut(cfg, s, recs));
    }
  }

  lemma {:induction false} SumSplit(a: seq<RunData>, b: seq<RunData>)
    ensures SumTokens(a + b) == SumTokens(a) + SumTokens(b)
  {
    if b == [] {
      assert a + b == a;
    } else {
      SumSplit(a, b[..|b| - 1]);
      assert (a + b)[..|a + b| - 1] == a + b[..|b| - 1];
    }
  }

  // The head of the skipped queue goes first: if its prompt fits a chunk, the length limit and the budget
  // that is left, and there is room for one more, it is the first newcomer.
  lemma {:induction false} SkippedHeadFirst(cfg: Config, s: Sched, slots: Option<Slots>)
    requires ValidConfig(cfg) && SchedulerInv(cfg, s, slots) && s.skipped != [] && |s.running| < cfg.maxNumSeqs
    requires var prompt := Req(s.store, s.skipped[0]).prompt;
      && |prompt| <= cfg.chunkThreshold && |prompt| <= BudgetForNew(cfg, s, Schedule(cfg, s, slots))
      && (cfg.maxModelLen.Some? ==> |prompt| < cfg.maxModelLen.value)
    ensures var o := Schedule(cfg, s, slots);
      |s.running| < |o.sched.running| && o.sched.running[|s.running|] == s.skipped[0]
  {
    hide Schedule, SchedulerInv, Partials, CountLong, SumTokens, SchedInv, SlotsInv;
    var o := Schedule(cfg, s, slots);
    var y := s.skipped[0];
    var ids, recs, ks, kw := AdmissionIs(cfg, s, slots);
    QueuedIsNew(cfg, s, slots, y);
    var b := BudgetForNew(cfg, s, o);
    assert b == BudgetIn(cfg, o, recs);
    assert recs[..0] == [] && ids[..0] == [];
    NoTokensAtAll();
    assert y in s.skipped[..|s.skipped|];
    if ids == [] {
      assert false;
    } else {
      assert EntersRight(cfg, s, b, ids, recs, 0);
      var c := PartialsBefore(cfg, s, recs, 0);
      var ks0: nat, kw0: nat :| Turn(cfg, s, ids[..0], b, c, ids[0], ks0, kw0);
      FirstOfSkipped(cfg, s, b, c, ids[0], ks0, kw0);
    }
  }

  lemma NoTokensAtAll()
    ensures SumTokens([]) == 0
  {
  }

  lemma QueuedIsNew(cfg: Config, s: Sched, slots: Option<Slots>, id: ReqId)
    requires SchedulerInv(cfg, s, slots) && id in s.skipped
    ensures Req(s.store, id).computed == 0 && Req(s.store, id).prompt != []
  {
    assert id in multiset(s.skipped) && id in Live(s);
    assert id !in s.runningMap by {
      assert Live(s)[id] >= multiset(s.skipped)[id] + multiset(s.running)[id];
    }
  }

  lemma FirstOfSkipped(cfg: Config, s: Sched, b: int, c: int, id: ReqId, ks: nat, kw: nat)
    requires s.skipped != [] && Turn(cfg, s, [], b, c, id, ks, kw)
    requires !Barred(cfg, Req(s.store, s.skipped[0]), b, c) && !OverLong(cfg, Req(s.store, s.skipped[0]), c)
    ensures id == s.skipped[0]
  {
    hide Barred, OverLong;
    HeadInPrefix(s.skipped, ks);
  }

  lemma HeadInPrefix(q: seq<ReqId>, k: nat)
    requires q != [] && k <= |q|
    ensures k > 0 ==> q[0] in q[..k]
  {
  }

  // ---------------------------------------------------------------- who runs and who ends

  // A running request whose turn comes with this much of the budget left is ended: there is nothing to give
  // a decoding one, or it has all its tokens; or its prompt is covered where the length limit ends it.
  predicate Ended(cfg: Config, r: Request, outs: seq<Token>, budget: int) {
    var n := Grant(cfg, r, budget);
    if r.computed >= |r.prompt| then n <= 0 || (r.params.maxTokens.Some? && |outs| >= r.params.maxTokens.value)
    else n > 0 && r.computed + n >= |r.prompt| && cfg.maxModelLen.Some? && |r.prompt| + 1 >= cfg.maxModelLen.value
  }

  predicate HasRecord(data: seq<RunData>, id: ReqId, n: int) {
    exists d :: d in data && d.id == id && d.numTokens == n
  }

  predicate IsScheduled(data: seq<RunData>, id: ReqId) {
    exists d :: d in data && d.id == id
  }

  lemma TurnOf(cfg: Config, s: Sched, slots: Option<Slots>, acc: Phase1, id: ReqId)
    requires id !in acc.finished && !IsScheduled(acc.data, id)
    ensures var a := Phase1Step(cfg, s, slots, acc, id);
      var r, n := Req(s.store, id), Grant(cfg, Req(s.store, id), acc.budget);
      var ended := Ended(cfg, r, Out(s.outputs, id), acc.budget);
      && (id in a.finished <==> ended)
      && (IsScheduled(a.data, id) <==> n > 0 && !ended)
      && (IsScheduled(a.data, id) ==> HasRecord(a.data, id, n))
  {
    hide NumNew;
    GrantIs(cfg, Req(s.store, id), acc.budget);
    var a := Phase1Step(cfg, s, slots, acc, id);
    hide Grant;
    if a.data != acc.data {
      assert a.data[|a.data| - 1] in a.data;
      assert forall d :: d in a.data <==> d in acc.data || d == a.data[|a.data| - 1];
    }
  }

  lemma {:induction false} OthersSame(cfg: Config, s: Sched, slots: Option<Slots>, ids: seq<ReqId>, acc: Phase1, id: ReqId, n: int)
    requires id !in ids
    ensures var r := RunPhase1(cfg, s, slots, ids, acc);
      && (IsScheduled(r.data, id) <==> IsScheduled(acc.data, id)) && (HasRecord(r.data, id, n) <==> HasRecord(acc.data, id, n))
    decreases |ids|
  {
    hide NumNew, ShouldFinish;
    if ids != [] {
      var a := Phase1Step(cfg, s, slots, acc, ids[0]);
      assert forall d :: d in a.data ==> d in acc.data || d.id == ids[0];
      assert forall d :: d in acc.data ==> d in a.data;
      hide Phase1Step;
      OthersSame(cfg, s, slots, ids[1..], a, id, n);
    }
  }

  // The k-th running request in slot order is ended or gets its grant, by what the ones before it leave.
  lemma {:induction false} RunningTurn(cfg: Config, s: Sched, slots: Option<Slots>, k: nat)
    requires ValidConfig(cfg) && SchedulerInv(cfg, s, slots) && k < |SortBySlot(slots, s.running)|
    ensures var o, id := Schedule(cfg, s, slots), SortBySlot(slots, s.running)[k];
      var b := BudgetAt(cfg, s, slots, k);
      var n := Grant(cfg, Req(s.store, id), b);
      var ended := Ended(cfg, Req(s.store, id), Out(s.outputs, id), b);
      && (id in o.finished <==> ended)
      && (IsScheduled(o.data, id) <==> n > 0 && !ended)
      && (IsScheduled(o.data, id) ==> HasRecord(o.data, id, n))
  {
    hide RunPhase2, SortBySlot, SchedInv, SlotsInv, Grant, Ended, HasRecord, IsScheduled, AllRight, QueuesRight, Partials, CountLong;
    var ids := SortBySlot(slots, s.running);
    var id, b := ids[k], BudgetAt(cfg, s, slots, k);
    SortBySlotElements(slots, s.running);
    RunningStored(s, ids);
    OnceAt(ids, k);
    var before := RunPhase1(cfg, s, slots, ids[..k], StartPhase1(cfg));
    Phase1Split(cfg, s, slots, ids, StartPhase1(cfg), k);
    OthersDoNotFinish(cfg, s, slots, ids[..k], StartPhase1(cfg), id);
    NothingScheduled(id);
    OthersSame(cfg, s, slots, ids[..k], StartPhase1(cfg), id, 0);
    TurnOf(cfg, s, slots, before, id);
    assert ids[k..][1..] == ids[k + 1..];
    hide Phase1Step;
    var after := Phase1Step(cfg, s, slots, before, id);
    var n := Grant(cfg, Req(s.store, id), b);
    OthersDoNotFinish(cfg, s, slots, ids[k + 1..], after, id);
    OthersSame(cfg, s, slots, ids[k + 1..], after, id, n);
    var p1 := RunPhase1(cfg, s, slots, ids, StartPhase1(cfg));
    hide RunPhase1;
    NewcomersAreOthers(cfg, s, slots, p1, id, n);
  }

  lemma NothingScheduled(id: ReqId)
    ensures !IsScheduled([], id)
  {
  }

  lemma NewcomersAreOthers(cfg: Config, s: Sched, slots: Option<Slots>, p1: Phase1, id: ReqId, n: int)
    requires ValidConfig(cfg) && SchedulerInv(cfg, s, slots) && id in s.runningMap
    requires p1 == RunPhase1(cfg, s, slots, SortBySlot(slots, s.running), StartPhase1(cfg))
    ensures var o := Schedule(cfg, s, slots);
      && (IsScheduled(o.data, id) <==> IsScheduled(p1.data, id)) && (HasRecord(o.data, id, n) <==> HasRecord(p1.data, id, n))
  {
    hide SchedInv, SlotsInv, LoopInv, RunPhase1, SortBySlot, Phase1Inv, Partials, CountLong, WorkInv, LimitsInv;
    var start := StartPhase2(cfg, s, slots, p1);
    Phase1Correct(cfg, s, slots);
    StartPhase2Inv(cfg, s, slots, p1);
    RunPhase2Keeps(cfg, s, start);
    LoopGrows(cfg, s, start);
    var p2 := RunPhase2(cfg, s.store, start);
    hide RunPhase2;
    assert forall d :: d in p1.data ==> d in p2.data;
    assert forall d :: d in p2.data && d.id in s.runningMap ==> d in p1.data;
  }

  // The loop only adds records.
  lemma {:induction false} LoopGrows(cfg: Config, s: Sched, acc: Phase2)
    ensures acc.data <= RunPhase2(cfg, s.store, acc).data
    decreases |acc.waiting| + |acc.skipped|
  {
    hide Phase2Step;
    if Admitting(cfg, acc) {
      FewerQueued(cfg, s.store, acc);
      StepGrows(cfg, s.store, acc);
      LoopGrows(cfg, s, Phase2Step(cfg, s.store, acc));
    }
  }

  lemma StepGrows(cfg: Config, store: Store, acc: Phase2)
    ensures acc.data <= Phase2Step(cfg, store, acc).data
  {
    hide HeadFits, NumNew, LimitReached, AllocateFor, Queue.Prepend, MakeRun;
  }
}
