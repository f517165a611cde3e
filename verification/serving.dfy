/** The client's side of a run: outputs are processed message by message, finished requests are removed. */
module Serving {
  import opened Wrappers
  import opened Requests
  import D = Detokenizing
  import O = OutputCollecting
  import opened OutputProcessing
  import opened OutputProcessors

  // The requests still known, everything streamed so far, and the requests the engine was asked to abort.
  datatype Server = Server(states: map<ReqId, ReqState>, streamed: seq<(ReqId, O.RequestOutput)>, aborted: seq<ReqId>)

  // A request arrives, or the outputs of one engine step do.
  datatype Event = Arrive(id: ReqId, state: ReqState) | Message(outs: seq<CoreOut>)

  function React(s: Server, e: Event): Server {
    match e
    case Arrive(id, st) => s.(states := s.states[id := st])
    case Message(outs) =>
      var p := ProcessAll(s.states, outs);
      Server(p.states - Noted(p.finishedIds), s.streamed + p.streaming, s.aborted + p.aborts)
  }

  function Noted(ids: seq<ReqId>): set<ReqId> {
    set id | id in ids
  }

  lemma NotedMore(ids: seq<ReqId>, i: nat)
    requires i < |ids|
    ensures Noted(ids[..i + 1]) == Noted(ids[..i]) + {ids[i]}
  {
    assert ids[..i + 1] == ids[..i] + [ids[i]];
  }

  function Serve(s: Server, events: seq<Event>): Server {
    if events == [] then s else React(Serve(s, events[..|events| - 1]), events[|events| - 1])
  }

  // An engine step has at most one output for a request.
  predicate OneForEach(outs: seq<CoreOut>) {
    forall i, j :: 0 <= i < j < |outs| ==> outs[i].id != outs[j].id
  }

  // What comes after the arrival of `id`: it does not arrive again.
  ghost predicate Later(events: seq<Event>, id: ReqId) {
    forall e :: e in events ==> match e case Arrive(other, _) => other != id case Message(outs) => OneForEach(outs)
  }

  function InputsOver(events: seq<Event>, id: ReqId): seq<(seq<nat>, Option<string>)> {
    if events == [] then []
    else
      InputsOver(events[..|events| - 1], id)
      + match events[|events| - 1] case Arrive(_, _) => [] case Message(outs) => InputsFor(outs, id)
  }

  lemma {:induction false} NoInput(outs: seq<CoreOut>, id: ReqId)
    requires forall c :: c in outs ==> c.id != id
    ensures InputsFor(outs, id) == []
  {
    if outs != [] {
      NoInput(outs[..|outs| - 1], id);
    }
  }

  lemma {:induction false} AtMostOneInput(outs: seq<CoreOut>, id: ReqId)
    requires OneForEach(outs)
    ensures |InputsFor(outs, id)| <= 1
  {
    if outs != [] {
      var n := |outs| - 1;
      if outs[n].id == id {
        NoInput(outs[..n], id);
      } else {
        AtMostOneInput(outs[..n], id);
      }
    }
  }

  // A request unknown to the processor is skipped.
  lemma {:induction false} UnknownSkipped(states: map<ReqId, ReqState>, outs: seq<CoreOut>, id: ReqId)
    requires id !in states
    ensures var p := ProcessAll(states, outs); id !in p.states && StreamedTo(p.streaming, id) == []
  {
    hide ProcessOne;
    if outs != [] {
      var n := |outs| - 1;
      UnknownSkipped(states, outs[..n], id);
      var p := ProcessAll(states, outs[..n]);
      StreamedElse(p, outs[n], id);
    }
  }

  lemma StreamedElse(p: Processed, c: CoreOut, id: ReqId)
    requires c.id != id || c.id !in p.states
    ensures StreamedTo(ProcessNext(p, c).streaming, id) == StreamedTo(p.streaming, id)
  {
    hide ProcessOne;
    if c.id in p.states {
      var o := ProcessOne(p.states[c.id], c.tokens, c.finish).1;
      if o.Some? {
        assert (p.streaming + [(c.id, o.value)])[..|p.streaming|] == p.streaming;
      } else {
        assert p.streaming + [] == p.streaming;
      }
    }
  }

  // Exactly the finished requests are noted for removal.
  lemma {:induction false} FinishedAreNoted(states: map<ReqId, ReqState>, outs: seq<CoreOut>, id: ReqId)
    requires id in states && !states[id].finished
    ensures var p := ProcessAll(states, outs); id in p.states && (id in p.finishedIds <==> p.states[id].finished)
  {
    if outs != [] {
      FinishedAreNoted(states, outs[..|outs| - 1], id);
      NotesFinished(ProcessAll(states, outs[..|outs| - 1]), outs[|outs| - 1], id);
    }
  }

  lemma NotesFinished(p: Processed, c: CoreOut, id: ReqId)
    requires id in p.states && (id in p.finishedIds <==> p.states[id].finished)
    ensures var p' := ProcessNext(p, c); id in p'.states && (id in p'.finishedIds <==> p'.states[id].finished)
  {
    hide D.Update, MakeOutput;
    if c.id in p.states {
      StaysFinished(p.states[c.id], c.tokens, c.finish);
    }
  }

  lemma StaysFinished(st: ReqState, ids: seq<nat>, finish: Option<string>)
    ensures var (st', o, _) := ProcessOne(st, ids, finish);
      && (st.finished ==> st'.finished) && (st'.finished ==> o.Some?)
  {
    hide D.Update, D.NextDelta, D.Visible;
  }

  lemma {:induction false} StreamedAppend(a: seq<(ReqId, O.RequestOutput)>, b: seq<(ReqId, O.RequestOutput)>, id: ReqId)
    ensures StreamedTo(a + b, id) == StreamedTo(a, id) + StreamedTo(b, id)
  {
    if b == [] {
      assert a + b == a;
    } else {
      var n := |b| - 1;
      StreamedAppend(a, b[..n], id);
      assert (a + b)[..|a + b| - 1] == a + b[..n];
    }
  }

  // One message, seen by one request.
  lemma {:induction false} MessageServes(s: Server, outs: seq<CoreOut>, id: ReqId)
    requires OneForEach(outs) && (id in s.states ==> !s.states[id].finished)
    ensures var t := React(s, Message(outs));
      var x := InputsFor(outs, id);
      if id !in s.states then id !in t.states && StreamedTo(t.streamed, id) == StreamedTo(s.streamed, id)
      else
        var run := ProcessRun(s.states[id], x);
        && (id in t.states <==> !run.state.finished) && (id in t.states ==> t.states[id] == run.state)
        && StreamedTo(t.streamed, id) == StreamedTo(s.streamed, id) + run.produced
  {
    hide ProcessAll, ProcessRun, StreamedTo, InputsFor;
    StreamedAppend(s.streamed, ProcessAll(s.states, outs).streaming, id);
    if id in s.states {
      RequestsAreIndependent(s.states, outs, id);
      FinishedAreNoted(s.states, outs, id);
    } else {
      UnknownSkipped(s.states, outs, id);
    }
  }

  // One request in the course of events: as on its own with the outputs up to the one it finishes with.
  ghost predicate ServedAlone(s: Server, t: Server, id: ReqId, st: ReqState, inputs: seq<(seq<nat>, Option<string>)>) {
    var run := ProcessRun(st, Kept(st, inputs));
    && (id in t.states <==> !run.state.finished) && (id in t.states ==> t.states[id] == run.state)
    && StreamedTo(t.streamed, id) == StreamedTo(s.streamed, id) + run.produced
  }

  lemma MoreInput(st: ReqState, inputs: seq<(seq<nat>, Option<string>)>, x: (seq<nat>, Option<string>))
    ensures var kept, run := Kept(st, inputs), ProcessRun(st, Kept(st, inputs));
      if run.state.finished then Kept(st, inputs + [x]) == kept
      else
        var next, one := ProcessRun(st, Kept(st, inputs + [x])), ProcessRun(run.state, [x]);
        next.state == one.state && next.produced == run.produced + one.produced
  {
    hide ProcessOne;
    var kept := Kept(st, inputs);
    assert (inputs + [x])[..|inputs|] == inputs && (kept + [x])[..|kept|] == kept && [x][..0] == [];
  }

  lemma MessageKeepsAlone(s: Server, t: Server, outs: seq<CoreOut>, id: ReqId, st: ReqState, inputs: seq<(seq<nat>, Option<string>)>)
    requires OneForEach(outs) && ServedAlone(s, t, id, st, inputs)
    ensures ServedAlone(s, React(t, Message(outs)), id, st, inputs + InputsFor(outs, id))
  {
    hide React, StreamedTo, Kept, ProcessOne, InputsFor, OneForEach;
    MessageServes(t, outs, id);
    AtMostOneInput(outs, id);
    var x := InputsFor(outs, id);
    if x == [] {
      assert inputs + x == inputs;
    } else {
      assert x == [x[0]];
      MoreInput(st, inputs, x[0]);
    }
  }

  lemma {:induction false} EachIsServed(s: Server, events: seq<Event>, id: ReqId)
    requires id in s.states && !s.states[id].finished && Later(events, id)
    ensures ServedAlone(s, Serve(s, events), id, s.states[id], InputsOver(events, id))
  {
    hide ProcessOne, StreamedTo, InputsFor, ServedAlone;
    if events == [] {
      NothingYet(s, id);
    } else {
      var n := |events| - 1;
      assert events[n] in events && forall e :: e in events[..n] ==> e in events;
      EachIsServed(s, events[..n], id);
      match events[n]
      case Message(outs) =>
        MessageKeepsAlone(s, Serve(s, events[..n]), outs, id, s.states[id], InputsOver(events[..n], id));
      case Arrive(other, state) =>
        assert InputsOver(events, id) == InputsOver(events[..n], id);
        OtherArrives(s, Serve(s, events[..n]), other, state, id, InputsOver(events[..n], id));
    }
  }

  lemma NothingYet(s: Server, id: ReqId)
    requires id in s.states && !s.states[id].finished
    ensures ServedAlone(s, s, id, s.states[id], [])
  {
  }

  lemma OtherArrives(s: Server, t: Server, other: ReqId, state: ReqState, id: ReqId, inputs: seq<(seq<nat>, Option<string>)>)
    requires id in s.states && other != id && ServedAlone(s, t, id, s.states[id], inputs)
    ensures ServedAlone(s, React(t, Arrive(other, state)), id, s.states[id], inputs)
  {
    hide ProcessRun, StreamedTo, Kept;
  }

  // For every course of events after its arrival, a request read in deltas has been sent its text and its
  // token ids, up to and including the output it finishes with; it is known until then and no longer.
  lemma {:induction false} ServedCompletely(
      s: Server, events: seq<Event>, id: ReqId, tokenizer: Option<D.Tokenizer>, p: D.Params)
    requires forall st :: st in p.stop ==> st != []
    requires id in s.states && s.states[id] == NewState(Delta, tokenizer, p) && Later(events, id)
    requires StreamedTo(s.streamed, id) == []
    ensures var t := Serve(s, events);
      var inputs := InputsOver(events, id);
      var kept := Kept(s.states[id], inputs);
      var run := ProcessRun(s.states[id], kept);
      && StreamedTo(t.streamed, id) == run.produced && DeltaOk(run, AllIds(kept))
      && kept <= inputs && (kept == inputs || run.state.finished)
      && (id in t.states <==> !run.state.finished)
      && (id in t.states ==> t.states[id].sent == |t.states[id].tokenIds|)
  {
    hide Serve, ProcessRun, DeltaOk, StreamedTo, InputsOver, Kept;
    var kept := Kept(s.states[id], InputsOver(events, id));
    EachIsServed(s, events, id);
    DeltasAreComplete(tokenizer, p, InputsOver(events, id));
    OffsetIsCurrent(ProcessRun(s.states[id], kept), AllIds(kept));
  }

  // Between messages the offset of ids sent is current, so nothing is ever sent twice.
  lemma OffsetIsCurrent(run: Run, ids: seq<nat>)
    requires DeltaOk(run, ids)
    ensures run.state.finished || run.state.sent == |run.state.tokenIds|
  {
  }

  // Only two outputs for one request in a single message could send ids twice: the request is removed
  // after the message, and finishing leaves the offset behind.
  lemma {:induction false} SecondInMessageRepeats(st: ReqState, a: seq<nat>, reason: string, b: seq<nat>, finish: Option<string>, id: ReqId)
    requires st.kind == Delta && st.sent == |st.tokenIds| == 0 && a != []
    ensures var p := ProcessAll(map[id := st], [CoreOut(id, a, Some(reason)), CoreOut(id, b, finish)]);
      O.Ids(StreamedTo(p.streaming, id), 0) == a + (a + b)
  {
    var outs := [CoreOut(id, a, Some(reason)), CoreOut(id, b, finish)];
    var inputs: seq<(seq<nat>, Option<string>)> := [(a, Some(reason)), (b, finish)];
    assert outs[..1] == [outs[0]] && outs[..1][..0] == [];
    assert InputsFor([outs[0]], id) == [inputs[0]] && [inputs[0]] + [inputs[1]] == inputs;
    assert InputsFor(outs, id) == inputs;
    RequestsAreIndependent(map[id := st], outs, id);
    TwoSnapshots(st, a, reason, b, finish);
  }

  lemma TwoSnapshots(st: ReqState, a: seq<nat>, reason: string, b: seq<nat>, finish: Option<string>)
    requires st.kind == Delta && st.sent == |st.tokenIds| == 0 && a != []
    ensures O.Ids(ProcessRun(st, [(a, Some(reason)), (b, finish)]).produced, 0) == a + (a + b)
  {
    hide D.Update, D.NextDelta, D.Visible;
    var inputs: seq<(seq<nat>, Option<string>)> := [(a, Some(reason)), (b, finish)];
    assert inputs[..1] == [inputs[0]] && inputs[..1][..0] == [];
    var (st1, o1, _) := ProcessOne(st, a, Some(reason));
    var (st2, o2, _) := ProcessOne(st1, b, finish);
    assert st.tokenIds + a == a && a + b == st1.tokenIds + b;
    assert ProcessRun(st, [inputs[0]]) == Run(st1, [o1.value]) by { assert [] + [o1.value] == [o1.value]; }
    assert ProcessRun(st, inputs) == Run(st2, [o1.value] + [o2.value]);
    OneCompletion(o1.value.outputs[0]);
    OneCompletion(o2.value.outputs[0]);
    O.Snoc([], o1.value, 0);
    O.Snoc([o1.value], o2.value, 0);
    assert [] + [o1.value] == [o1.value];
    assert a[0..] == a && (a + b)[0..] == a + b;
  }

  // ---------------------------------------------------------------- the loop on the objects

  // LLMEngine.step after the engine's outputs have arrived.
  method Step(processor: OutputProcessor, outs: seq<CoreOut>) returns (streaming: seq<(ReqId, O.RequestOutput)>, aborts: seq<ReqId>)
    requires processor.Valid()
    modifies processor, processor.owner.Keys
    ensures processor.Valid()
    ensures Server(processor.States(), streaming, aborts) == React(Server(old(processor.States()), [], []), Message(outs))
  {
    hide ProcessAll, OutputProcessor.States, OutputProcessor.Valid, Noted;
    streaming, aborts := processor.ProcessOutputs(outs);
    ghost var states := processor.States();
    assert [] + streaming == streaming && [] + aborts == aborts;
    var finished := processor.GetAndClearFinishedIds();
    assert finished[..0] == [] && states - Noted([]) == states by { NoneNoted(); }
    for i := 0 to |finished|
      invariant processor.Valid() && processor.owner == old(processor.owner)
      invariant processor.States() == states - Noted(finished[..i])
    {
      processor.RemoveRequest(finished[i]);
      NotedMore(finished, i);
      RemoveMore(states, Noted(finished[..i]), finished[i]);
    }
    assert finished[..|finished|] == finished;
  }

  lemma NoneNoted()
    ensures Noted([]) == {}
  {
  }

  lemma RemoveMore<T>(m: map<ReqId, T>, ids: set<ReqId>, id: ReqId)
    ensures m - ids - {id} == m - (ids + {id})
  {
  }
}
