/** The engine over an executor that ignores the moves of a condense, as the single-process one does. */
module IgnoringExecutor {
  import opened Wrappers
  import opened Requests
  import opened Sorting
  import opened StateSlots
  import opened Scheduling
  import opened SchedulingInvariants
  import opened ModelRunner
  import opened Completion
  import opened EngineStep
  import opened EngineSettle
  import opened EngineRuns
  import opened ExecutorCondense

  // ---------------------------------------------------------------- without the moves

  // The requests and slots a settle frees.
  function FreedIdsOf<S>(x: Middle<S>): set<ReqId> {
    var ids := AbortIds(x.engine.aborts);
    AbortedHolding(x.engine.slots, ids)
    + Update(AbortSet(x.engine.sched, ids), Some(x.engine.slots), x.data, x.finished, x.sampled).freedIds
  }

  function FreedSlotsOf<S>(x: Middle<S>): set<nat> {
    var ids := AbortIds(x.engine.aborts);
    SlotsOf(x.engine.slots, AbortedHolding(x.engine.slots, ids))
    + Update(AbortSet(x.engine.sched, ids), Some(x.engine.slots), x.data, x.finished, x.sampled).freedSlots
  }

  // The step over an executor that does nothing with the moves.
  function StepIgnoring<S>(cfg: Config, m: Rnn<S>, e: Engine<S>, oracle: map<ReqId, nat>, captured: Option<nat>): Option<Engine<S>> {
    match Begin(cfg, m, e, oracle, captured)
    case Raised => None
    case Over(e') => Some(e')
    case GoesOn(x) =>
      match Settle(x.engine, x.data, x.finished, x.sampled, x.ran)
      case None => None
      case Some(st) => Some(st.engine.(gpu := x.engine.gpu))
  }

  // The slots this step frees are the highest occupied ones.
  ghost predicate FreesHighest<S>(cfg: Config, m: Rnn<S>, e: Engine<S>, oracle: map<ReqId, nat>, captured: Option<nat>) {
    match Begin(cfg, m, e, oracle, captured)
    case GoesOn(x) => forall s :: s in FreedSlotsOf(x) ==> s >= |x.engine.sched.running| - |FreedSlotsOf(x)|
    case _ => true
  }

  lemma FreedAreCurrent<S>(cfg: Config, m: Rnn<S>, x: Middle<S>)
    requires MidInv(cfg, m, x.engine, x.data, x.finished, x.sampled)
    ensures Dense(x.engine.slots, |x.engine.sched.running|)
    ensures Current(x.engine.slots, FreedIdsOf(x), FreedSlotsOf(x))
  {
    hide SchedInv, Update, RowsOk, Record, AbortSet, LongLimit, Current;
    FreedPairs(x.engine.sched, x.engine.slots, x.data, x.finished, x.sampled, AbortIds(x.engine.aborts));
  }

  // What a settle does with slots and rows.
  lemma SettleCondenses<S>(cfg: Config, m: Rnn<S>, x: Middle<S>)
    requires MidInv(cfg, m, x.engine, x.data, x.finished, x.sampled)
    ensures BatchCondense(x.engine.slots, FreedIdsOf(x), FreedSlotsOf(x)).Some?
    ensures var r := Settle(x.engine, x.data, x.finished, x.sampled, x.ran);
      var (after, moves) := BatchCondense(x.engine.slots, FreedIdsOf(x), FreedSlotsOf(x)).value;
      r.Some? && r.value.engine.slots == after && r.value.engine.gpu == ModelRunner.Condense(x.engine.gpu, moves)
  {
    FreedAreCurrent(cfg, m, x);
    BatchCondenseCorrect(x.engine.slots, |x.engine.sched.running|, FreedIdsOf(x), FreedSlotsOf(x));
    hide BatchCondense, Update, MidInv, Dense, Current;
  }

  // Where the freed slots are the highest, ignoring the moves makes no difference.
  lemma {:induction false} SameWhenHighest<S>(cfg: Config, m: Rnn<S>, e: Engine<S>, oracle: map<ReqId, nat>, captured: Option<nat>)
    requires ValidConfig(cfg) && EngineInv(cfg, m, e) && FreesHighest(cfg, m, e, oracle, captured)
    ensures var st := Step(cfg, m, e, oracle, captured);
      st.Some? && StepIgnoring(cfg, m, e, oracle, captured) == Some(st.value.engine)
  {
    hide EngineInv, Step, Begin, Settle, MidInv, FreedIdsOf, FreedSlotsOf;
    StepCorrect(cfg, m, e, oracle, captured);
    BeginSettles(cfg, m, e, oracle, captured);
    BeginOk(cfg, m, e, oracle, captured);
    match Begin(cfg, m, e, oracle, captured)
    case Raised =>
    case Over(_) =>
    case GoesOn(x) =>
      FreedAreCurrent(cfg, m, x);
      NothingMovesIff(x.engine.slots, |x.engine.sched.running|, FreedIdsOf(x), FreedSlotsOf(x));
      SettleCondenses(cfg, m, x);
  }

  function ApplyIgnoring<S>(cfg: Config, m: Rnn<S>, e: Engine<S>, a: Action): Option<Engine<S>> {
    match a
    case RunStep(oracle, captured) => StepIgnoring(cfg, m, e, oracle, captured)
    case _ => Apply(cfg, m, e, a)
  }

  function RunIgnoring<S>(cfg: Config, m: Rnn<S>, e: Engine<S>, actions: seq<Action>): Option<Engine<S>> {
    if actions == [] then Some(e)
    else
      match RunIgnoring(cfg, m, e, actions[..|actions| - 1])
      case None => None
      case Some(e') => ApplyIgnoring(cfg, m, e', actions[|actions| - 1])
  }

  ghost predicate HighestAt<S>(cfg: Config, m: Rnn<S>, e: Engine<S>, a: Action) {
    a.RunStep? ==> FreesHighest(cfg, m, e, a.oracle, a.captured)
  }

  // In every step the slots freed are the highest.
  ghost predicate AlwaysHighest<S>(cfg: Config, m: Rnn<S>, e: Engine<S>, actions: seq<Action>) {
    forall i :: 0 <= i < |actions| ==>
      var r := Run(cfg, m, e, actions[..i]); r.Some? ==> HighestAt(cfg, m, r.value, actions[i])
  }

  lemma HighestPrefix<S>(cfg: Config, m: Rnn<S>, e: Engine<S>, actions: seq<Action>)
    requires AlwaysHighest(cfg, m, e, actions) && actions != []
    ensures AlwaysHighest(cfg, m, e, actions[..|actions| - 1])
  {
    hide Run, HighestAt;
    var i := |actions| - 1;
    assert forall j :: 0 <= j < i ==> actions[..i][..j] == actions[..j];
  }

  // Then the engine over the ignoring executor runs as over one that keeps the interface's promise, and
  // with it all that is proved of such runs.
  lemma {:induction false} RunsAgree<S>(cfg: Config, m: Rnn<S>, e: Engine<S>, actions: seq<Action>)
    requires ValidConfig(cfg) && EngineInv(cfg, m, e) && AllowedRun(cfg, m, e, actions) && AlwaysHighest(cfg, m, e, actions)
    ensures RunIgnoring(cfg, m, e, actions) == Run(cfg, m, e, actions)
  {
    hide EngineInv, Step, StepIgnoring, FreesHighest, Allowed;
    if actions != [] {
      var i := |actions| - 1;
      AllowedPrefix(cfg, m, e, actions);
      HighestPrefix(cfg, m, e, actions);
      RunsAgree(cfg, m, e, actions[..i]);
      RunsNeverRaise(cfg, m, e, actions[..i]);
      var e' := Run(cfg, m, e, actions[..i]).value;
      assert HighestAt(cfg, m, e', actions[i]);
      if actions[i].RunStep? {
        SameWhenHighest(cfg, m, e', actions[i].oracle, actions[i].captured);
      }
    }
  }

  lemma {:induction false} IsolationWhenHighest<S>(cfg: Config, m: Rnn<S>, start: Engine<S>, actions: seq<Action>, id: ReqId)
    requires ValidConfig(cfg) && Initial(cfg, start) && AllowedRun(cfg, m, start, actions) && AlwaysHighest(cfg, m, start, actions)
    ensures RunIgnoring(cfg, m, start, actions).Some?
    ensures OwnRowIn(m, RunIgnoring(cfg, m, start, actions).value, id)
  {
    hide Initial, Run, RunIgnoring, AllowedRun, AlwaysHighest;
    InitialOk(cfg, m, start);
    RunsAgree(cfg, m, start, actions);
    BatchIsolation(cfg, m, start, actions, id);
  }

  // A running request finds in its slot the state of running it alone.
  ghost predicate OwnRowIn<S>(m: Rnn<S>, e: Engine<S>, id: ReqId) {
    id in e.sched.running ==>
      && id in e.slots.reqToSlot && e.slots.reqToSlot[id] < |e.gpu.state|
      && e.gpu.state[e.slots.reqToSlot[id]] == Feed(m, m.zero, Fed(Req(e.sched.store, id), Out(e.sched.outputs, id)))
  }

  // ---------------------------------------------------------------- otherwise isolation fails

  // A survivor that has to move finds the row of the request that left the slot it is given.
  lemma {:induction false} SurvivorFindsLeaversRow<S>(cfg: Config, m: Rnn<S>, x: Middle<S>, id: ReqId)
    requires MidInv(cfg, m, x.engine, x.data, x.finished, x.sampled)
    requires Settle(x.engine, x.data, x.finished, x.sampled, x.ran).Some?
    requires var after := Settle(x.engine, x.data, x.finished, x.sampled, x.ran).value.engine.slots;
      id in after.reqToSlot && id in x.engine.slots.reqToSlot && after.reqToSlot[id] != x.engine.slots.reqToSlot[id]
    ensures var after := Settle(x.engine, x.data, x.finished, x.sampled, x.ran).value.engine.slots;
      var k := after.reqToSlot[id];
      && k in x.engine.slots.slotToReq
      && var owner := x.engine.slots.slotToReq[k];
        && owner !in after.reqToSlot && owner in x.engine.sched.runningMap && k < |x.engine.gpu.state|
        && x.engine.gpu.state[k]
           == Feed(m, m.zero, Fed(Req(x.engine.sched.store, owner), Out(Record(x.engine.sched.outputs, x.data, x.sampled), owner)))
  {
    hide Settle, Update, SchedInv, LongLimit, Record, FreedIdsOf, FreedSlotsOf;
    FreedAreCurrent(cfg, m, x);
    BatchCondenseCorrect(x.engine.slots, |x.engine.sched.running|, FreedIdsOf(x), FreedSlotsOf(x));
    SettleCondenses(cfg, m, x);
    var (after, moves) := BatchCondense(x.engine.slots, FreedIdsOf(x), FreedSlotsOf(x)).value;
    hide BatchCondense;
    MovedOntoLeaver(x.engine.slots, |x.engine.sched.running|, FreedIdsOf(x), after, moves, id);
  }

  lemma MovedOntoLeaver(st: Slots, n: nat, ids: set<ReqId>, after: Slots, moves: seq<Move>, id: ReqId)
    requires Dense(st, n) && Condensed(st, ids, after, moves)
    requires id in after.reqToSlot && after.reqToSlot[id] != st.reqToSlot[id]
    ensures var k := after.reqToSlot[id]; k in st.slotToReq && st.slotToReq[k] !in after.reqToSlot
  {
    MovesAreRelocations(st, ids, after, moves);
    DenseCount(st, n);
    SubsetCount(st.reqToSlot.Keys - ids, st.reqToSlot.Keys);
    var k := after.reqToSlot[id];
    assert k < |st.reqToSlot.Keys - ids|;
    var mv :| mv in moves && mv.dst == k;
  }

  // Two requests arrive, an abort of the first is queued, one step runs.
  const CFG := Config(None, 4, 8, 2, 0, 0, Fcfs)
  const FIRST := ReqId("a")
  const SECOND := ReqId("b")
  const TEN := SamplingParams(Some(10), None, false, [])
  const ONE := Request([1], TEN, 0, 0.0, 0)
  const TWO := Request([2], TEN, 0, 0.0, 0)
  const ACTIONS := [AddRequest(FIRST, ONE), AddRequest(SECOND, TWO), QueueAbort([FIRST]), RunStep(map[], None)]

  // A model whose state is what it has read.
  function Recorder(): Rnn<seq<Token>> {
    Rnn([], (s: seq<Token>, t: Token) => s + [t])
  }

  function NewEngine(): Engine<seq<Token>> {
    Engine(Sched(map[], [], [], [], {}, map[]), Slots(2, map[], map[], Range(0, 2), []), Gpu([[], []], [-1, -1], None), [])
  }

  function Arrived(): Sched {
    Sched(map[FIRST := ONE, SECOND := TWO], [FIRST, SECOND], [], [], {}, map[])
  }

  function Queued(): Engine<seq<Token>> {
    NewEngine().(sched := Arrived(), aborts := [[FIRST]])
  }

  lemma ThreeActions()
    ensures RunIgnoring(CFG, Recorder(), NewEngine(), ACTIONS[..3]) == Some(Queued())
    ensures Run(CFG, Recorder(), NewEngine(), ACTIONS[..3]) == Some(Queued())
    ensures AllowedRun(CFG, Recorder(), NewEngine(), ACTIONS)
  {
    var m, e := Recorder(), NewEngine();
    var e1 := e.(sched := Sched(map[FIRST := ONE], [FIRST], [], [], {}, map[]));
    var e2 := e.(sched := Arrived());
    assert ACTIONS[..1][..0] == [] && ACTIONS[..2][..1] == ACTIONS[..1] && ACTIONS[..3][..2] == ACTIONS[..2];
    assert [] + [FIRST] == [FIRST] && [FIRST] + [SECOND] == [FIRST, SECOND];
    assert map[FIRST := ONE][SECOND := TWO] == map[FIRST := ONE, SECOND := TWO];
    assert Enqueue(CFG, e.sched, FIRST, ONE) == e1.sched;
    assert Enqueue(CFG, e1.sched, SECOND, TWO) == e2.sched;
    assert RunIgnoring(CFG, m, e, ACTIONS[..0]) == Some(e) == Run(CFG, m, e, ACTIONS[..0]);
    assert RunIgnoring(CFG, m, e, ACTIONS[..1]) == Some(e1) == Run(CFG, m, e, ACTIONS[..1]);
    assert RunIgnoring(CFG, m, e, ACTIONS[..2]) == Some(e2) == Run(CFG, m, e, ACTIONS[..2]);
    assert [] + [[FIRST]] == [[FIRST]];
    assert RunIgnoring(CFG, m, e, ACTIONS[..3]) == Some(Queued()) == Run(CFG, m, e, ACTIONS[..3]);
  }

  function Slots2(): Slots {
    Slots(2, map[FIRST := 0, SECOND := 1], map[0 := FIRST, 1 := SECOND], [], [])
  }

  function Data2(): seq<RunData> {
    [RunData(FIRST, 0, 1, Some([1]), false, true, 0), RunData(SECOND, 0, 1, Some([2]), false, true, 1)]
  }

  function Running2(): Sched {
    Sched(
      map[FIRST := ONE.(computed := 1), SECOND := TWO.(computed := 1)],
      [], [], [FIRST, SECOND], {FIRST, SECOND}, map[FIRST := [], SECOND := []])
  }

  // The admission loop with one and with both requests admitted.
  function Acc1(): Phase2 {
    Phase2([SECOND], [], [], [FIRST], {FIRST}, map[FIRST := []],
           Some(Slots(2, map[FIRST := 0], map[0 := FIRST], [1], [])), [Data2()[0]], 7, 0, false)
  }

  function Acc2(): Phase2 {
    Phase2([], [], [], [FIRST, SECOND], {FIRST, SECOND}, map[FIRST := [], SECOND := []], Some(Slots2()), Data2(), 6, 0, false)
  }

  lemma AdmitFirst()
    ensures Phase2Step(CFG, Arrived().store, StartPhase2(CFG, Arrived(), Some(NewEngine().slots), StartPhase1(CFG))) == Acc1()
  {
    hide CountLong;
    assert CountLong(CFG, Arrived().store, []) == 0 by { NoneLong(); }
    assert Range(0, 2) == [0, 1] && [0, 1][1..] == [1] && [FIRST, SECOND][1..] == [SECOND] && [1][0..1] == [1];
    assert [] + [Data2()[0]] == [Data2()[0]] && [] + [FIRST] == [FIRST];
  }

  lemma NoneLong()
    ensures CountLong(CFG, Arrived().store, []) == 0
  {
  }

  lemma AdmitSecond()
    ensures Phase2Step(CFG, Arrived().store, Acc1()) == Acc2()
  {
    assert [1][1..] == [] && [SECOND][1..] == [] && [2][0..1] == [2];
    assert [Data2()[0]] + [Data2()[1]] == Data2() && [FIRST] + [SECOND] == [FIRST, SECOND];
  }

  lemma BothAdmitted()
    ensures Schedule(CFG, Arrived(), Some(NewEngine().slots)) == Scheduled(Running2(), Some(Slots2()), Data2(), {}, false)
  {
    hide Phase2Step;
    AdmitFirst();
    AdmitSecond();
    var store := Arrived().store;
    assert RunPhase2(CFG, store, Acc2()) == Acc2();
    assert RunPhase2(CFG, store, Acc1()) == Acc2();
    AdvanceBoth(store);
  }

  lemma AdvanceBoth(store: Store)
    requires store == Arrived().store
    ensures Advance(store, {FIRST, SECOND}, Data2()) == Running2().store
  {
    var d1 := Data2()[0];
    assert Data2()[..1] == [d1] && [d1][..0] == [];
    assert Advance(store, {FIRST, SECOND}, [d1]) == store[FIRST := ONE.(computed := 1)];
  }

  lemma BothSample()
    ensures SumTokens(Data2()) == 2 && !IsUniform(Data2())
    ensures Sampled(Data2(), map[]) == map[FIRST := 0, SECOND := 0]
  {
    var d1, d2 := Data2()[0], Data2()[1];
    assert Data2()[..1] == [d1] && [d1][..0] == [];
    assert SumTokens([d1]) == 1;
    assert d1 in Data2() && d2 in Data2();
    assert forall d :: d in Data2() ==> d == d1 || d == d2;
  }

  // The two records have been run and sampled; the abort is still queued.
  ghost predicate BothRan(x: Middle<seq<Token>>) {
    && x.engine.sched == Running2() && x.engine.slots == Slots2() && x.engine.aborts == [[FIRST]]
    && x.data == Data2() && x.finished == {} && x.sampled == map[FIRST := 0, SECOND := 0]
  }

  lemma BeginsWithBoth() returns (x: Middle<seq<Token>>)
    ensures Begin(CFG, Recorder(), Queued(), map[], None) == GoesOn(x) && BothRan(x)
  {
    hide Schedule, Forward, WriteBack, SumTokens, Sampled, IsUniform, Data2, Running2, Slots2;
    BothAdmitted();
    BothSample();
    assert Data2() != [] by { BothSample(); assert SumTokens([]) == 0 by { NoTokens(); } }
    assert HasRequests(Queued().sched);
    x := Begin(CFG, Recorder(), Queued(), map[], None).middle;
  }

  lemma NoTokens()
    ensures SumTokens([]) == 0
  {
  }

  // The aborted request leaves, the other one goes on with its token.
  function Aborted2(): Sched {
    Running2().(running := [SECOND], runningMap := {SECOND}, outputs := map[SECOND := []])
  }

  lemma AbortFirst()
    ensures AbortIds([[FIRST]]) == {FIRST} && AbortSet(Running2(), {FIRST}) == Aborted2()
  {
    assert [FIRST] in [[FIRST]] && FIRST in [FIRST];
    assert Running2().outputs - {FIRST} == map[SECOND := []];
    assert {FIRST} * Running2().runningMap == {FIRST} && Running2().runningMap - {FIRST} == {SECOND};
    OnlySecondStays();
  }

  lemma OnlySecondStays()
    ensures Drop([FIRST, SECOND], {FIRST}) == [SECOND]
  {
    assert [FIRST, SECOND][..1] == [FIRST] && [FIRST][..0] == [];
    assert Drop([FIRST], {FIRST}) == [];
    assert [] + [SECOND] == [SECOND];
  }

  lemma RecordedAre(sampled: map<ReqId, Token>)
    requires sampled == map[FIRST := 0, SECOND := 0]
    ensures Record(map[SECOND := []], Data2(), sampled) == map[SECOND := [0]]
    ensures Out(Record(Running2().outputs, Data2(), sampled), FIRST) == [0]
  {
    var d1, d2 := Data2()[0], Data2()[1];
    assert Data2()[..1] == [d1] && [d1][..0] == [];
    assert [] + [0] == [0];
    assert Record(map[SECOND := []], [d1], sampled) == map[SECOND := []];
    assert Record(Running2().outputs, [d1], sampled) == map[FIRST := [0], SECOND := []];
  }

  lemma NobodyFinishes(sampled: map<ReqId, Token>)
    requires sampled == map[FIRST := 0, SECOND := 0]
    ensures Finishing(Aborted2(), Data2(), {}, sampled) == {}
  {
    assert forall d :: d in Data2() ==> Req(Running2().store, d.id).params == TEN || d.id !in Running2().store;
    assert Stopped(Aborted2(), Data2(), sampled) == {};
  }

  lemma FirstLeaves(x: Middle<seq<Token>>)
    requires BothRan(x)
    ensures var u := Update(AbortSet(x.engine.sched, AbortIds(x.engine.aborts)), Some(x.engine.slots), x.data, x.finished, x.sampled);
      u.freedIds == {} && u.freedSlots == {} && u.sched == Aborted2().(outputs := map[SECOND := [0]])
  {
    hide FinalOutput, Opens, Finals, Finishing, FreedSlot, AbortSet, AbortIds, Record;
    AbortFirst();
    NobodyFinishes(x.sampled);
    RecordedAre(x.sampled);
    DropNone([SECOND], {});
    assert {SECOND} - {} == {SECOND};
    assert map[SECOND := [0]] - {} == map[SECOND := [0]];
  }

  lemma FirstIsFreed(x: Middle<seq<Token>>)
    requires BothRan(x)
    ensures FreedIdsOf(x) == {FIRST} && FreedSlotsOf(x) == {0}
  {
    hide Update, AbortSet, AbortIds, Data2, Running2;
    FirstLeaves(x);
    AbortFirst();
    assert AbortedHolding(Slots2(), {FIRST}) == {FIRST};
    assert SlotsOf(Slots2(), {FIRST}) == {0};
  }

  // What the ignoring step leaves: the second request in slot 0, whose row is the first one's.
  lemma {:induction false} SecondFindsFirst(x: Middle<seq<Token>>)
    requires BothRan(x) && MidInv(CFG, Recorder(), x.engine, x.data, x.finished, x.sampled)
    ensures var st := Settle(x.engine, x.data, x.finished, x.sampled, x.ran);
      && st.Some? && st.value.engine.sched == Aborted2().(outputs := map[SECOND := [0]])
      && SECOND in st.value.engine.slots.reqToSlot && st.value.engine.slots.reqToSlot[SECOND] == 0
    ensures 0 < |x.engine.gpu.state| && x.engine.gpu.state[0] == Feed(Recorder(), [], Fed(Running2().store[FIRST], [0]))
  {
    hide MidInv, FreedIdsOf, FreedSlotsOf, Record, Update, BatchCondense, AbortSet, AbortIds, Feed, Fed, Condensed;
    var m := Recorder();
    FreedAreCurrent(CFG, m, x);
    SettleCondenses(CFG, m, x);
    FirstIsFreed(x);
    BatchCondenseCorrect(x.engine.slots, 2, {FIRST}, {0});
    var (after, moves) := BatchCondense(x.engine.slots, {FIRST}, {0}).value;
    SecondMoves(after, moves);
    FirstLeaves(x);
    SettleSched(x);
    hide Settle, Slots2, Running2;
    assert Slots2().reqToSlot[SECOND] == 1 && Slots2().slotToReq[0] == FIRST by { PlacesOfTwo(); }
    SurvivorFindsLeaversRow(CFG, m, x, SECOND);
    RecordedAre(x.sampled);
    TwoStored();
  }

  lemma PlacesOfTwo()
    ensures SECOND in Slots2().reqToSlot && Slots2().reqToSlot[SECOND] == 1
    ensures 0 in Slots2().slotToReq && Slots2().slotToReq[0] == FIRST
  {
  }

  lemma TwoStored()
    ensures FIRST in Running2().store && SECOND in Running2().store && Aborted2().store == Running2().store
    ensures Req(Running2().store, FIRST) == Running2().store[FIRST] && Req(Running2().store, SECOND) == Running2().store[SECOND]
  {
  }

  lemma SettleSched<S>(x: Middle<S>)
    ensures var st := Settle(x.engine, x.data, x.finished, x.sampled, x.ran);
      var u := Update(AbortSet(x.engine.sched, AbortIds(x.engine.aborts)), Some(x.engine.slots), x.data, x.finished, x.sampled);
      st.Some? ==> st.value.engine.sched == u.sched
  {
    hide Update, AbortSet, AbortIds, BatchCondense;
  }

  // From a new engine, in one step: the second request, moved into the slot the first one left, finds
  // there the state of the first.
  lemma {:induction false} IgnoredMovesBreakIsolation()
    ensures ValidConfig(CFG) && Initial(CFG, NewEngine()) && AllowedRun(CFG, Recorder(), NewEngine(), ACTIONS)
    ensures var r := RunIgnoring(CFG, Recorder(), NewEngine(), ACTIONS);
      r.Some? && SECOND in r.value.sched.running && !OwnRowIn(Recorder(), r.value, SECOND)
  {
    hide Begin, MidInv, Settle, AllowedRun, Run, EngineInv, Feed, Fed, Running2, Initial, Queued, BothRan;
    var m := Recorder();
    ThreeActions();
    assert ACTIONS[..3] == ACTIONS[..|ACTIONS| - 1];
    QueuedOk();
    var x := BeginsWithBoth();
    BeginOk(CFG, m, Queued(), map[], None);
    SecondFindsFirst(x);
    RowsDiffer();
    TwoStored();
  }

  lemma QueuedOk()
    ensures ValidConfig(CFG) && Initial(CFG, NewEngine()) && EngineInv(CFG, Recorder(), Queued())
  {
    hide AllowedRun, Run, EngineInv, Queued;
    assert NewEngine().slots.free == [0, 1] by { assert Range(0, 2) == [0, 1]; }
    var m := Recorder();
    ThreeActions();
    InitialOk(CFG, m, NewEngine());
    AllowedPrefix(CFG, m, NewEngine(), ACTIONS);
    assert ACTIONS[..3] == ACTIONS[..|ACTIONS| - 1];
    RunsNeverRaise(CFG, m, NewEngine(), ACTIONS[..3]);
  }

  lemma SecondMoves(after: Slots, moves: seq<Move>)
    requires Condensed(Slots2(), {FIRST}, after, moves)
    ensures after.reqToSlot.Keys == {SECOND} && after.reqToSlot[SECOND] == 0
  {
    assert Slots2().reqToSlot.Keys - {FIRST} == {SECOND};
  }

  lemma RowsDiffer()
    ensures Feed(Recorder(), [], Fed(Running2().store[FIRST], [0])) != Feed(Recorder(), [], Fed(Running2().store[SECOND], [0]))
  {
    assert ([1] + [0])[..1] == [1] && ([2] + [0])[..1] == [2];
    assert [1][..0] == [] && [2][..0] == [];
    assert [] + [1] == [1] && [] + [2] == [2];
  }
}
