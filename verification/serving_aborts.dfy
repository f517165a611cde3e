/** Which requests the engine is asked to abort: those whose text ended them while the engine had not. */
module ServingAborts {
  import opened Wrappers
  import opened Requests
  import D = Detokenizing
  import O = OutputCollecting
  import opened OutputProcessing
  import opened OutputProcessors
  import opened Serving
  import opened Snapshots

  // The text of a known request reaches a stop string with an output the engine has not ended it with.
  ghost predicate TextEnds(s: Server, outs: seq<CoreOut>, id: ReqId) {
    && id in s.states
    && exists i :: 0 <= i < |outs| && outs[i].id == id && outs[i].finish.None?
                   && D.Update(s.states[id].detok, outs[i].tokens, false).1.Some?
  }

  // What one output asks for.
  lemma AbortOf(p: Processed, c: CoreOut)
    ensures ProcessNext(p, c).aborts
      == p.aborts + if c.id in p.states && c.finish.None? && D.Update(p.states[c.id].detok, c.tokens, false).1.Some? then [c.id] else []
  {
    hide D.Update, MakeOutput;
    assert p.aborts + [] == p.aborts;
  }

  lemma TextEndsMore(s: Server, outs: seq<CoreOut>, id: ReqId)
    requires outs != []
    ensures var n := |outs| - 1;
      TextEnds(s, outs, id) <==>
        TextEnds(s, outs[..n], id)
        || (id in s.states && outs[n].id == id && outs[n].finish.None? && D.Update(s.states[id].detok, outs[n].tokens, false).1.Some?)
  {
    hide D.Update;
    var n := |outs| - 1;
    if TextEnds(s, outs[..n], id) {
      var i :| 0 <= i < n && outs[..n][i].id == id && outs[..n][i].finish.None?
               && D.Update(s.states[id].detok, outs[..n][i].tokens, false).1.Some?;
      assert outs[i] == outs[..n][i];
    }
    if TextEnds(s, outs, id) {
      var i :| 0 <= i < |outs| && outs[i].id == id && outs[i].finish.None?
               && D.Update(s.states[id].detok, outs[i].tokens, false).1.Some?;
      assert i < n ==> outs[i] == outs[..n][i];
    }
  }

  // A request without an output in a message is as it was.
  lemma {:induction false} Untouched(states: map<ReqId, ReqState>, outs: seq<CoreOut>, id: ReqId)
    requires forall c :: c in outs ==> c.id != id
    ensures var p := ProcessAll(states, outs); (id in p.states <==> id in states) && (id in states ==> p.states[id] == states[id])
  {
    hide ProcessOne;
    if outs != [] {
      Untouched(states, outs[..|outs| - 1], id);
    }
  }

  lemma {:induction false} MessageAborts(s: Server, outs: seq<CoreOut>, id: ReqId)
    requires OneForEach(outs)
    ensures id in ProcessAll(s.states, outs).aborts <==> TextEnds(s, outs, id)
  {
    hide TextEnds, ProcessNext, D.Update;
    if outs == [] {
      NoOutputs(s, id);
    } else {
      var n := |outs| - 1;
      MessageAborts(s, outs[..n], id);
      TextEndsMore(s, outs, id);
      AbortOf(ProcessAll(s.states, outs[..n]), outs[n]);
      Untouched(s.states, outs[..n], outs[n].id);
    }
  }

  lemma NoOutputs(s: Server, id: ReqId)
    ensures !TextEnds(s, [], id) && ProcessAll(s.states, []).aborts == []
  {
  }

  // One message, at any time: the engine is asked to abort a request if and only if it is known, the
  // message has an output for it without a finish, and its text reaches a stop string with that.
  lemma {:induction false} AskedToAbortIff(s: Server, outs: seq<CoreOut>, id: ReqId)
    requires OneForEach(outs)
    ensures var t := React(s, Message(outs));
      && s.aborted <= t.aborted
      && (id in t.aborted[|s.aborted|..] <==> TextEnds(s, outs, id))
  {
    hide ProcessAll, TextEnds;
    MessageAborts(s, outs, id);
    var a := ProcessAll(s.states, outs).aborts;
    assert (s.aborted + a)[|s.aborted|..] == a;
  }

  // ---------------------------------------------------------------- over a whole course of events

  // The outputs end the request by its text while the engine goes on.
  ghost predicate TextEndedIt(d: D.Detok, inputs: Inputs) {
    inputs != [] && Matched(d, inputs) && inputs[|inputs| - 1].1.None?
  }

  // Whatever comes after a request has arrived: the engine is asked to abort it if and only if its text
  // ended it while the engine had not.
  lemma {:induction false} AbortedIffTextEndedIt(
      s: Server, events: seq<Event>, id: ReqId, kind: OutputKind, tokenizer: Option<D.Tokenizer>, p: D.Params)
    requires forall st :: st in p.stop ==> st != []
    requires id in s.states && s.states[id] == NewState(kind, tokenizer, p) && Later(events, id)
    requires id !in s.aborted
    ensures var d := D.Fresh(tokenizer, p);
      id in Serve(s, events).aborted <==> TextEndedIt(d, UpToEnd(d, InputsOver(events, id)))
  {
    hide ProcessAll, TextEndedIt, UpToEnd, OneForEach, TextEnds, Matched, InputsFor, Detokenized;
    var d := D.Fresh(tokenizer, p);
    if events == [] {
      NothingEndedIt(d);
    } else {
      var n := |events| - 1;
      assert events[n] in events && forall e :: e in events[..n] ==> e in events;
      AbortedIffTextEndedIt(s, events[..n], id, kind, tokenizer, p);
      match events[n]
      case Arrive(_, _) =>
        assert InputsOver(events, id) == InputsOver(events[..n], id);
      case Message(outs) =>
        EachIsServed(s, events[..n], id);
        SnapshotsAre(kind, tokenizer, p, InputsOver(events[..n], id));
        MessageAborts(Serve(s, events[..n]), outs, id);
        MessageEnds(s, Serve(s, events[..n]), outs, id, kind, tokenizer, p, InputsOver(events[..n], id));
    }
  }

  // And it has been shown just what its kind says of the outputs up to the one it is over with, the reason
  // with the last of them only.
  lemma {:induction false} EveryKindIsServed(
      s: Server, events: seq<Event>, id: ReqId, kind: OutputKind, tokenizer: Option<D.Tokenizer>, p: D.Params)
    requires forall st :: st in p.stop ==> st != []
    requires id in s.states && s.states[id] == NewState(kind, tokenizer, p) && Later(events, id)
    requires StreamedTo(s.streamed, id) == []
    ensures var d, t := D.Fresh(tokenizer, p), Serve(s, events);
      var kept := UpToEnd(d, InputsOver(events, id));
      var shown := StreamedTo(t.streamed, id);
      && shown == Shown(kind, d, kept) && (id in t.states <==> !Over(d, kept))
      && (Over(d, kept) ==>
            && shown != [] && (forall i :: 0 <= i < |shown| - 1 ==> GoesOn(shown[i]))
            && EndsFor(shown[|shown| - 1], if Matched(d, kept) then Some("stop") else kept[|kept| - 1].1))
  {
    hide Serve, InputsOver, UpToEnd, Shown, Over, Matched, ProcessRun, Kept, StreamedTo, GoesOn, EndsFor;
    var d := D.Fresh(tokenizer, p);
    var inputs := InputsOver(events, id);
    EachIsServed(s, events, id);
    SnapshotsAre(kind, tokenizer, p, inputs);
    UpToEndIs(d, inputs);
    ShownReasons(kind, d, UpToEnd(d, inputs));
  }

  lemma NothingEndedIt(d: D.Detok)
    ensures !TextEndedIt(d, UpToEnd(d, []))
  {
  }

  // One message for a request that has taken these outputs before.
  lemma {:induction false} MessageEnds(
      s: Server, t: Server, outs: seq<CoreOut>, id: ReqId, kind: OutputKind, tokenizer: Option<D.Tokenizer>, p: D.Params, inputs: Inputs)
    requires OneForEach(outs) && ServedAlone(s, t, id, NewState(kind, tokenizer, p), inputs)
    requires forall st :: st in p.stop ==> st != []
    ensures var d := D.Fresh(tokenizer, p);
      TextEndedIt(d, UpToEnd(d, inputs + InputsFor(outs, id))) <==> TextEndedIt(d, UpToEnd(d, inputs)) || TextEnds(t, outs, id)
  {
    hide ServedAlone, TextEndedIt, UpToEnd, TextEnds, InputsFor, OneForEach;
    AtMostOneInput(outs, id);
    var x := InputsFor(outs, id);
    InputsAre(outs, id);
    if x == [] {
      assert inputs + x == inputs;
      NoInputNoEnd(t, outs, id);
    } else {
      assert x == [x[0]];
      InputEnds(s, t, id, kind, tokenizer, p, inputs, x[0]);
      OneInputEnds(t, outs, id);
    }
  }

  // The inputs of a message for a request are its outputs.
  lemma {:induction false} InputsAre(outs: seq<CoreOut>, id: ReqId)
    ensures forall i :: 0 <= i < |outs| && outs[i].id == id ==> (outs[i].tokens, outs[i].finish) in InputsFor(outs, id)
    ensures forall x :: x in InputsFor(outs, id) ==> exists i :: 0 <= i < |outs| && outs[i].id == id && (outs[i].tokens, outs[i].finish) == x
  {
    if outs != [] {
      var n := |outs| - 1;
      InputsAre(outs[..n], id);
      assert forall i :: 0 <= i < n ==> outs[..n][i] == outs[i];
    }
  }

  lemma NoInputNoEnd(t: Server, outs: seq<CoreOut>, id: ReqId)
    requires InputsFor(outs, id) == []
    ensures !TextEnds(t, outs, id)
  {
    hide InputsFor, D.Update;
    InputsAre(outs, id);
  }

  lemma OneInputEnds(t: Server, outs: seq<CoreOut>, id: ReqId)
    requires |InputsFor(outs, id)| == 1
    ensures var x := InputsFor(outs, id)[0];
      TextEnds(t, outs, id) <==> id in t.states && x.1.None? && D.Update(t.states[id].detok, x.0, false).1.Some?
  {
    hide InputsFor, D.Update;
    InputsAre(outs, id);
    var x := InputsFor(outs, id)[0];
    assert x in InputsFor(outs, id);
    var k :| 0 <= k < |outs| && outs[k].id == id && (outs[k].tokens, outs[k].finish) == x;
    if TextEnds(t, outs, id) {
      var i :| 0 <= i < |outs| && outs[i].id == id && outs[i].finish.None?
               && D.Update(t.states[id].detok, outs[i].tokens, false).1.Some?;
      assert (outs[i].tokens, outs[i].finish) in InputsFor(outs, id);
    }
  }

  lemma {:induction false} InputEnds(
      s: Server, t: Server, id: ReqId, kind: OutputKind, tokenizer: Option<D.Tokenizer>, p: D.Params, inputs: Inputs, x: (seq<nat>, Option<string>))
    requires ServedAlone(s, t, id, NewState(kind, tokenizer, p), inputs)
    requires forall st :: st in p.stop ==> st != []
    ensures var d := D.Fresh(tokenizer, p);
      TextEndedIt(d, UpToEnd(d, inputs + [x])) <==>
        TextEndedIt(d, UpToEnd(d, inputs))
        || (id in t.states && x.1.None? && D.Update(t.states[id].detok, x.0, false).1.Some?)
  {
    hide ProcessRun, Kept, D.Update, StreamedTo, Shown, AllIds, Why;
    var d := D.Fresh(tokenizer, p);
    var kept := UpToEnd(d, inputs);
    assert (inputs + [x])[..|inputs|] == inputs;
    SnapshotsAre(kind, tokenizer, p, inputs);
    UpToEndIs(d, inputs);
    if !Over(d, kept) {
      assert (kept + [x])[..|kept|] == kept;
      CourseShows(kind, tokenizer, p, kept);
      var st := t.states[id];
      UpdateAnyOffset(Detokenized(d, kept), x.0, false, st.detok.sentOffset);
    }
  }
}
