/** A run from a new engine at the end of which a decoding request is finished before its time. */
module StarvationRun {
  import opened Wrappers
  import opened Requests
  import opened Sorting
  import opened StateSlots
  import opened Scheduling
  import opened SchedulingInvariants
  import opened ModelRunner
  import opened Completion
  import opened EngineStep
  import opened EngineSettle
  import opened EngineRuns
  import opened EarlyFinish
  import opened Starvation

  // Three requests arrive, the abort of the first is queued, one step runs. The prompt of the third, put
  // in the last slot, is moved into the slot the first one leaves, in front of the second.
  const SMALL := Config(None, 4, 4, 3, 0, 0, Fcfs)
  const LEAVER := ReqId("x")
  const DECODER := ReqId("d")
  const LONG := ReqId("p")
  const X := Request([1], TEN_TOKENS, 0, 0.0, 0)
  const D := Request([2], TEN_TOKENS, 0, 0.0, 0)
  const P := Request([3, 4, 5, 6, 7, 8], TEN_TOKENS, 0, 0.0, 0)

  const ARRIVALS := [AddRequest(LEAVER, X), AddRequest(DECODER, D), AddRequest(LONG, P), QueueAbort([LEAVER])]

  function Brandnew<S>(m: Rnn<S>): Engine<S> {
    Engine(
      Sched(map[], [], [], [], {}, map[]), Slots(3, map[], map[], Range(0, 3), []),
      Gpu([m.zero, m.zero, m.zero], [-1, -1, -1], None), [])
  }

  function Three(): Sched {
    Sched(map[LEAVER := X, DECODER := D, LONG := P], [LEAVER, DECODER, LONG], [], [], {}, map[])
  }

  function Before<S>(m: Rnn<S>): Engine<S> {
    Brandnew(m).(sched := Three(), aborts := [[LEAVER]])
  }

  lemma Arrive<S>(m: Rnn<S>)
    ensures Run(SMALL, m, Brandnew(m), ARRIVALS) == Some(Before(m))
    ensures AllowedRun(SMALL, m, Brandnew(m), ARRIVALS)
  {
    var e := Brandnew(m);
    var e1 := e.(sched := Sched(map[LEAVER := X], [LEAVER], [], [], {}, map[]));
    var e2 := e.(sched := Sched(map[LEAVER := X, DECODER := D], [LEAVER, DECODER], [], [], {}, map[]));
    var e3 := e.(sched := Three());
    assert ARRIVALS[..1][..0] == [] && ARRIVALS[..2][..1] == ARRIVALS[..1] && ARRIVALS[..3][..2] == ARRIVALS[..2];
    assert ARRIVALS[..3] == ARRIVALS[..|ARRIVALS| - 1];
    assert [] + [LEAVER] == [LEAVER] && [LEAVER] + [DECODER] == [LEAVER, DECODER];
    assert [LEAVER, DECODER] + [LONG] == [LEAVER, DECODER, LONG] && [] + [[LEAVER]] == [[LEAVER]];
    assert Enqueue(SMALL, e.sched, LEAVER, X) == e1.sched;
    assert Enqueue(SMALL, e1.sched, DECODER, D) == e2.sched;
    assert Enqueue(SMALL, e2.sched, LONG, P) == e3.sched;
    assert Run(SMALL, m, e, ARRIVALS[..0]) == Some(e);
    assert Run(SMALL, m, e, ARRIVALS[..1]) == Some(e1);
    assert Run(SMALL, m, e, ARRIVALS[..2]) == Some(e2);
    assert Run(SMALL, m, e, ARRIVALS[..3]) == Some(e3);
  }

  // ---------------------------------------------------------------- the step

  function Data3(): seq<RunData> {
    [RunData(LEAVER, 0, 1, Some([1]), false, true, 0), RunData(DECODER, 0, 1, Some([2]), false, true, 1),
     RunData(LONG, 0, 2, Some([3, 4]), false, false, 2)]
  }

  function Slots3(): Slots {
    Slots(3, map[LEAVER := 0, DECODER := 1, LONG := 2], map[0 := LEAVER, 1 := DECODER, 2 := LONG], [], [])
  }

  function Acc1(): Phase2 {
    Phase2([DECODER, LONG], [], [], [LEAVER], {LEAVER}, map[LEAVER := []],
           Some(Slots(3, map[LEAVER := 0], map[0 := LEAVER], [1, 2], [])), [Data3()[0]], 3, 0, false)
  }

  function Acc2(): Phase2 {
    Phase2([LONG], [], [], [LEAVER, DECODER], {LEAVER, DECODER}, map[LEAVER := [], DECODER := []],
           Some(Slots(3, map[LEAVER := 0, DECODER := 1], map[0 := LEAVER, 1 := DECODER], [2], [])),
           [Data3()[0], Data3()[1]], 2, 0, false)
  }

  function Acc3(): Phase2 {
    Phase2([], [], [], [LEAVER, DECODER, LONG], {LEAVER, DECODER, LONG}, map[LEAVER := [], DECODER := [], LONG := []],
           Some(Slots3()), Data3(), 0, 1, false)
  }

  lemma Admit1()
    ensures Phase2Step(SMALL, Three().store, StartPhase2(SMALL, Three(), Some(Slots(3, map[], map[], Range(0, 3), [])), StartPhase1(SMALL)))
         == Acc1()
  {
    hide CountLong;
    assert CountLong(SMALL, Three().store, []) == 0 by { NoneLong(); }
    assert Range(0, 3) == [0, 1, 2] && [0, 1, 2][1..] == [1, 2];
    assert [LEAVER, DECODER, LONG][1..] == [DECODER, LONG] && [1][0..1] == [1];
    assert [] + [Data3()[0]] == [Data3()[0]] && [] + [LEAVER] == [LEAVER];
  }

  lemma NoneLong()
    ensures CountLong(SMALL, Three().store, []) == 0
  {
  }

  lemma Admit2()
    ensures Phase2Step(SMALL, Three().store, Acc1()) == Acc2()
  {
    assert [1, 2][1..] == [2] && [DECODER, LONG][1..] == [LONG] && [2][0..1] == [2];
    assert [Data3()[0]] + [Data3()[1]] == [Data3()[0], Data3()[1]] && [LEAVER] + [DECODER] == [LEAVER, DECODER];
  }

  lemma Admit3()
    ensures Phase2Step(SMALL, Three().store, Acc2()) == Acc3()
  {
    assert [2][1..] == [] && [LONG][1..] == [] && P.prompt[0..2] == [3, 4];
    assert [Data3()[0], Data3()[1]] + [Data3()[2]] == Data3() && [LEAVER, DECODER] + [LONG] == [LEAVER, DECODER, LONG];
  }

  function Running3(): Sched {
    Sched(
      map[LEAVER := X.(computed := 1), DECODER := D.(computed := 1), LONG := P.(computed := 2)],
      [], [], [LEAVER, DECODER, LONG], {LEAVER, DECODER, LONG}, map[LEAVER := [], DECODER := [], LONG := []])
  }

  lemma AdvanceAll()
    ensures Advance(Three().store, Acc3().runningMap, Data3()) == Running3().store
  {
    var d1, d2 := [Data3()[0]], [Data3()[0], Data3()[1]];
    assert Data3()[..2] == d2 && d2[..1] == d1 && d1[..0] == [];
    var st1 := Three().store[LEAVER := X.(computed := 1)];
    assert Advance(Three().store, Acc3().runningMap, d1) == st1;
    assert Advance(Three().store, Acc3().runningMap, d2) == st1[DECODER := D.(computed := 1)];
  }

  lemma AllAdmitted<S>(m: Rnn<S>)
    ensures Schedule(SMALL, Three(), Some(Brandnew(m).slots)) == Scheduled(Running3(), Some(Slots3()), Data3(), {}, false)
  {
    hide Phase2Step, Advance;
    Admit1();
    Admit2();
    Admit3();
    AdvanceAll();
    var store := Three().store;
    assert RunPhase2(SMALL, store, Acc3()) == Acc3();
    assert RunPhase2(SMALL, store, Acc2()) == Acc3();
    assert RunPhase2(SMALL, store, Acc1()) == Acc3();
  }

  lemma Sample3()
    ensures SumTokens(Data3()) == 4 && !IsUniform(Data3())
    ensures Sampled(Data3(), map[]) == map[LEAVER := 0, DECODER := 0]
  {
    var d1, d2 := [Data3()[0]], [Data3()[0], Data3()[1]];
    assert Data3()[..2] == d2 && d2[..1] == d1 && d1[..0] == [];
    assert SumTokens(d1) == 1 && SumTokens(d2) == 2;
    assert Data3()[0] in Data3() && Data3()[1] in Data3() && !Samples(Data3()[2]);
    assert forall d :: d in Data3() ==> d == Data3()[0] || d == Data3()[1] || d == Data3()[2];
  }

  ghost predicate AllRan<S>(x: Middle<S>) {
    && x.engine.sched == Running3() && x.engine.slots == Slots3() && x.engine.aborts == [[LEAVER]]
    && x.data == Data3() && x.finished == {} && x.sampled == map[LEAVER := 0, DECODER := 0]
  }

  lemma BeginsWithAll<S>(m: Rnn<S>) returns (x: Middle<S>)
    ensures Begin(SMALL, m, Before(m), map[], None) == GoesOn(x) && AllRan(x)
  {
    hide Schedule, Forward, WriteBack, SumTokens, Sampled, IsUniform, Data3, Running3, Slots3;
    AllAdmitted(m);
    Sample3();
    assert Data3() != [] by { assert SumTokens([]) == 0 by { NoTokens(); } }
    assert HasRequests(Before(m).sched);
    x := Begin(SMALL, m, Before(m), map[], None).middle;
  }

  lemma NoTokens()
    ensures SumTokens([]) == 0
  {
  }

  // What the step leaves: the first is gone, the second has one token, the third two of its six.
  function After3(): Sched {
    Running3().(running := [DECODER, LONG], runningMap := {DECODER, LONG}, outputs := map[DECODER := [0], LONG := []])
  }

  function Aborted3(): Sched {
    After3().(outputs := map[DECODER := [], LONG := []])
  }

  lemma AbortLeaver()
    ensures AbortIds([[LEAVER]]) == {LEAVER} && AbortSet(Running3(), {LEAVER}) == Aborted3()
  {
    assert [LEAVER] in [[LEAVER]] && LEAVER in [LEAVER];
    assert Running3().outputs - {LEAVER} == map[DECODER := [], LONG := []];
    assert {LEAVER} * Running3().runningMap == {LEAVER} && Running3().runningMap - {LEAVER} == {DECODER, LONG};
    OthersStay();
  }

  lemma OthersStay()
    ensures Drop([LEAVER, DECODER, LONG], {LEAVER}) == [DECODER, LONG]
  {
    var two := [LEAVER, DECODER];
    assert [LEAVER, DECODER, LONG][..2] == two && two[..1] == [LEAVER] && [LEAVER][..0] == [];
    assert Drop([LEAVER], {LEAVER}) == [];
    assert Drop(two, {LEAVER}) == [] + [DECODER] == [DECODER];
    assert [DECODER] + [LONG] == [DECODER, LONG];
  }

  lemma Recorded3(sampled: map<ReqId, Token>)
    requires sampled == map[LEAVER := 0, DECODER := 0]
    ensures Record(Aborted3().outputs, Data3(), sampled) == After3().outputs
    ensures Finishing(Aborted3(), Data3(), {}, sampled) == {}
  {
    var d1, d2 := [Data3()[0]], [Data3()[0], Data3()[1]];
    assert Data3()[..2] == d2 && d2[..1] == d1 && d1[..0] == [];
    assert [] + [0] == [0];
    var outputs := Aborted3().outputs;
    assert Record(outputs, d1, sampled) == outputs;
    assert Record(outputs, d2, sampled) == outputs[DECODER := [0]];
    assert Record(outputs, Data3(), sampled) == outputs[DECODER := [0]][LONG := []];
    assert Stopped(Aborted3(), Data3(), sampled) == {};
  }

  lemma LeaverLeaves<S>(x: Middle<S>)
    requires AllRan(x)
    ensures var u := Update(AbortSet(x.engine.sched, AbortIds(x.engine.aborts)), Some(x.engine.slots), x.data, x.finished, x.sampled);
      u.freedIds == {} && u.freedSlots == {} && u.sched == After3()
    ensures AbortedHolding(x.engine.slots, AbortIds(x.engine.aborts)) == {LEAVER} && SlotsOf(x.engine.slots, {LEAVER}) == {0}
  {
    hide FinalOutput, Opens, Finals, Finishing, FreedSlot, AbortSet, AbortIds, Record;
    AbortLeaver();
    Recorded3(x.sampled);
    DropNone([DECODER, LONG], {});
    assert {DECODER, LONG} - {} == {DECODER, LONG} && After3().outputs - {} == After3().outputs;
  }

  lemma LongMoves(after: Slots, moves: seq<Move>)
    requires Condensed(Slots3(), {LEAVER}, after, moves)
    ensures after.reqToSlot == map[LONG := 0, DECODER := 1]
  {
    assert Slots3().reqToSlot.Keys - {LEAVER} == {DECODER, LONG};
    assert DECODER !in Relocated(Slots3().reqToSlot, after.reqToSlot);
    hide Condensed, Placed;
    assert Dense(after, 2) && after.reqToSlot.Keys == {DECODER, LONG} && after.reqToSlot[DECODER] == 1;
    OtherPlace(after);
  }

  lemma OtherPlace(after: Slots)
    requires Dense(after, 2) && after.reqToSlot.Keys == {DECODER, LONG} && after.reqToSlot[DECODER] == 1
    ensures after.reqToSlot[LONG] == 0
  {
    assert after.reqToSlot[LONG] in after.slotToReq;
  }

  lemma Settled3<S>(x: Middle<S>)
    requires AllRan(x)
    ensures var r := Settle(x.engine, x.data, x.finished, x.sampled, x.ran);
      r.Some? && r.value.engine.sched == After3() && r.value.engine.slots.reqToSlot == map[LONG := 0, DECODER := 1]
  {
    hide Update, AbortSet, AbortIds, BatchCondense, Slots3, Dense, Current, Condensed, After3, Running3, Data3, SlotsOf;
    LeaverLeaves(x);
    Slots3Dense();
    BatchCondenseCorrect(Slots3(), 3, {LEAVER}, {0});
    var (after, moves) := BatchCondense(Slots3(), {LEAVER}, {0}).value;
    LongMoves(after, moves);
    assert {LEAVER} + {} == {LEAVER} && {0} + {} == {0};
  }

  lemma {:induction false} AfterStep<S>(m: Rnn<S>) returns (e: Engine<S>)
    ensures Run(SMALL, m, Brandnew(m), ARRIVALS + [RunStep(map[], None)]) == Some(e)
    ensures AllowedRun(SMALL, m, Brandnew(m), ARRIVALS + [RunStep(map[], None)])
    ensures ValidConfig(SMALL) && Initial(SMALL, Brandnew(m)) && EngineInv(SMALL, m, e)
    ensures e.sched == After3() && e.slots.reqToSlot == map[LONG := 0, DECODER := 1]
  {
    hide AllowedRun, EngineInv, Before, Step, Begin, Settle, AllRan, After3, Initial;
    var actions := ARRIVALS + [RunStep(map[], None)];
    assert actions[..|actions| - 1] == ARRIVALS;
    Arrive(m);
    MoreAllowed(m);
    NewIsInitial(m);
    InitialOk(SMALL, m, Brandnew(m));
    RunsNeverRaise(SMALL, m, Brandnew(m), actions);
    var x := BeginsWithAll(m);
    BeginSettles(SMALL, m, Before(m), map[], None);
    Settled3(x);
    e := Run(SMALL, m, Brandnew(m), actions).value;
  }

  lemma NewIsInitial<S>(m: Rnn<S>)
    ensures ValidConfig(SMALL) && Initial(SMALL, Brandnew(m))
  {
    assert Brandnew(m).slots.free == [0, 1, 2] by { assert Range(0, 3) == [0, 1, 2]; }
  }

  lemma Slots3Dense()
    ensures Dense(Slots3(), 3) && Current(Slots3(), {LEAVER}, {0})
  {
    assert Range(3, 3) == [];
  }

  lemma MoreAllowed<S>(m: Rnn<S>)
    requires AllowedRun(SMALL, m, Brandnew(m), ARRIVALS)
    ensures AllowedRun(SMALL, m, Brandnew(m), ARRIVALS + [RunStep(map[], None)])
  {
    hide Run;
    var actions := ARRIVALS + [RunStep(map[], None)];
    assert forall i :: 0 <= i < 4 ==> actions[..i] == ARRIVALS[..i] && actions[i] == ARRIVALS[i];
  }

  // ---------------------------------------------------------------- the call that starves

  // The next scheduling call finishes the second request after one of its ten tokens, whatever the model.
  lemma {:induction false} StarvedInARun<S>(m: Rnn<S>) returns (actions: seq<Action>)
    ensures ValidConfig(SMALL) && Initial(SMALL, Brandnew(m)) && AllowedRun(SMALL, m, Brandnew(m), actions)
    ensures Run(SMALL, m, Brandnew(m), actions).Some?
    ensures var e := Run(SMALL, m, Brandnew(m), actions).value;
      && MayGoOn(SMALL, e.sched, DECODER) && |Out(e.sched.outputs, DECODER)| == 1
      && DECODER in Schedule(SMALL, e.sched, Some(e.slots)).finished
  {
    hide Run, AllowedRun, Initial, Schedule, RowsOk, LongLimit, GpuShape;
    actions := ARRIVALS + [RunStep(map[], None)];
    var e := AfterStep(m);
    LongFirst(e.slots);
    var ids := SortBySlot(Some(e.slots), e.sched.running);
    assert ids[..1] == [LONG] && [LONG][..0] == [];
    assert Need(SMALL, After3(), LONG) == 4;
    hide Need, SortBySlot;
    assert Needs(SMALL, After3(), [LONG]) == 4;
    FinishedEarlyIffNeeds(SMALL, e.sched, Some(e.slots), 1);
  }

  lemma LongFirst(st: Slots)
    requires st.reqToSlot == map[LONG := 0, DECODER := 1]
    ensures SortBySlot(Some(st), [DECODER, LONG]) == [LONG, DECODER]
  {
    assert [DECODER, LONG][1..] == [LONG] && [LONG][1..] == [];
    assert SortBySlot(Some(st), [LONG]) == [LONG];
    assert InsertBySlot(Some(st), DECODER, [LONG]) == [LONG] + InsertBySlot(Some(st), DECODER, []);
  }
}
