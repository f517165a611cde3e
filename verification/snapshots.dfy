/** What a client is shown: the snapshots of each kind of request, the finish reason, and when it ends. */
module Snapshots {
  import opened Wrappers
  import opened Utf8
  import D = Detokenizing
  import P = DetokenizingProps
  import O = OutputCollecting
  import opened OutputProcessing

  // ---------------------------------------------------------------- the text so far does not depend on reads

  lemma TokenAnyOffset(d: D.Detok, off: nat, id: nat, k: nat)
    ensures var (d', off') := D.DecodeToken(d, off, id); D.DecodeToken(d.(sentOffset := k), off, id) == (d'.(sentOffset := k), off')
  {
    hide Decode;
  }

  lemma {:induction false} TokensAnyOffset(d: D.Detok, off: nat, ids: seq<nat>, k: nat)
    ensures var (d', off') := D.DecodeTokens(d, off, ids); D.DecodeTokens(d.(sentOffset := k), off, ids) == (d'.(sentOffset := k), off')
    decreases |ids|
  {
    hide D.DecodeToken;
    if ids != [] {
      TokenAnyOffset(d, off, ids[0], k);
      var (d1, off1) := D.DecodeToken(d, off, ids[0]);
      TokensAnyOffset(d1, off1, ids[1..], k);
    }
  }

  lemma CheckAnyOffset(d: D.Detok, off: nat, k: nat)
    ensures var (d', m) := D.CheckStop(d, off); D.CheckStop(d.(sentOffset := k), off) == (d'.(sentOffset := k), m)
  {
    D.SearchTextFinds(d.text, off, d.params.stop);
    D.SearchBytesFinds(EncodeAll(d.text) + d.buffer, D.MinBytes(d), D.MaxBytes(d.params.stop), d.params.stop);
    hide D.SearchText, D.SearchBytes, EncodeAll, OccursAt, D.DecodeIgnore, D.MaxBytes;
  }

  // An update does not look at how much has been handed out.
  lemma UpdateAnyOffset(d: D.Detok, ids: seq<nat>, stopTerminated: bool, k: nat)
    ensures var (d', m) := D.Update(d, ids, stopTerminated);
      D.Update(d.(sentOffset := k), ids, stopTerminated) == (d'.(sentOffset := k), m)
  {
    if ids != [] {
      TokensAnyOffset(d, |d.text|, D.Decoded(d, ids, stopTerminated), k);
      CheckAnyOffset(D.Extend(d, ids, stopTerminated).0, D.Extend(d, ids, stopTerminated).1, k);
      hide D.DecodeTokens, D.CheckStop;
    }
  }

  lemma {:induction false} TokensLeaveOffset(d: D.Detok, off: nat, ids: seq<nat>)
    ensures D.DecodeTokens(d, off, ids).0.sentOffset == d.sentOffset
    decreases |ids|
  {
    hide Decode;
    if ids != [] {
      var (d1, off1) := D.DecodeToken(d, off, ids[0]);
      TokensLeaveOffset(d1, off1, ids[1..]);
    }
  }

  lemma UpdateLeavesOffset(d: D.Detok, ids: seq<nat>, stopTerminated: bool)
    ensures D.Update(d, ids, stopTerminated).0.sentOffset == d.sentOffset
  {
    UpdateAnyOffset(d, ids, stopTerminated, d.sentOffset);
  }

  // ---------------------------------------------------------------- what the outputs say

  type Inputs = seq<(seq<nat>, Option<string>)>

  // The detokenizer after these outputs, if nothing is read from it.
  function Detokenized(d: D.Detok, inputs: Inputs): D.Detok {
    if inputs == [] then d
    else D.Update(Detokenized(d, inputs[..|inputs| - 1]), inputs[|inputs| - 1].0, inputs[|inputs| - 1].1.Some?).0
  }

  // The last of these outputs brings the text to a stop string.
  predicate Matched(d: D.Detok, inputs: Inputs)
    requires inputs != []
  {
    D.Update(Detokenized(d, inputs[..|inputs| - 1]), inputs[|inputs| - 1].0, inputs[|inputs| - 1].1.Some?).1.Some?
  }

  // The request is over with the last of these outputs: the engine says so, or the text does.
  predicate Over(d: D.Detok, inputs: Inputs) {
    inputs != [] && (inputs[|inputs| - 1].1.Some? || Matched(d, inputs))
  }

  // Why: a stop string in the text comes before whatever the engine says.
  function Why(d: D.Detok, inputs: Inputs): Option<string> {
    if inputs == [] then None
    else if Matched(d, inputs) then Some("stop")
    else inputs[|inputs| - 1].1
  }

  // The outputs up to and including the first the request is over with.
  function UpToEnd(d: D.Detok, inputs: Inputs): Inputs {
    if inputs == [] then []
    else
      var before := UpToEnd(d, inputs[..|inputs| - 1]);
      if Over(d, before) then before else before + [inputs[|inputs| - 1]]
  }

  // None of these is over before the last.
  ghost predicate OverLate(d: D.Detok, inputs: Inputs) {
    forall i :: 0 <= i < |inputs| ==> !Over(d, inputs[..i])
  }

  lemma {:induction false} UpToEndIs(d: D.Detok, inputs: Inputs)
    ensures var kept := UpToEnd(d, inputs);
      && kept <= inputs && OverLate(d, kept) && (kept == inputs || Over(d, kept))
  {
    hide Over;
    if inputs != [] {
      var n := |inputs| - 1;
      UpToEndIs(d, inputs[..n]);
      var kept := UpToEnd(d, inputs[..n]);
      if !Over(d, kept) {
        assert kept == inputs[..n] && kept + [inputs[n]] == inputs;
        assert forall i :: 0 <= i < |kept| ==> inputs[..i] == kept[..i];
      }
    }
  }

  // ---------------------------------------------------------------- the snapshots

  // The text shown after these outputs: all of it once the request is over.
  function TextShown(d: D.Detok, inputs: Inputs): string {
    if inputs == [] then [] else D.Visible(Detokenized(d, inputs), Over(d, inputs))
  }

  function SnapshotOf(text: string, ids: seq<nat>, over: bool, why: Option<string>): O.RequestOutput {
    O.RequestOutput([O.Completion(0, text, ids, why)], over, why)
  }

  // All there is after these outputs.
  function Whole(d: D.Detok, inputs: Inputs): O.RequestOutput {
    SnapshotOf(TextShown(d, inputs), AllIds(inputs), Over(d, inputs), Why(d, inputs))
  }

  // What the last of these outputs adds.
  function Added(d: D.Detok, inputs: Inputs): O.RequestOutput
    requires inputs != []
  {
    var before, now := TextShown(d, inputs[..|inputs| - 1]), TextShown(d, inputs);
    SnapshotOf(if |before| < |now| then now[|before|..] else [], inputs[|inputs| - 1].0, Over(d, inputs), Why(d, inputs))
  }

  // What a client of each kind is shown in the course of these outputs.
  function Shown(kind: OutputKind, d: D.Detok, inputs: Inputs): seq<O.RequestOutput> {
    if inputs == [] then []
    else
      Shown(kind, d, inputs[..|inputs| - 1])
      + match kind
        case Delta => [Added(d, inputs)]
        case Cumulative => [Whole(d, inputs)]
        case FinalOnly => if Over(d, inputs) then [Whole(d, inputs)] else []
  }

  // The state of a request in the course of its outputs.
  ghost predicate InCourse(kind: OutputKind, d: D.Detok, inputs: Inputs, st: ReqState) {
    && st.kind == kind && st.tokenIds == AllIds(inputs)
    && st.finished == Over(d, inputs) && st.reason == Why(d, inputs)
    && st.detok == Detokenized(d, inputs).(sentOffset := st.detok.sentOffset)
    && (!st.finished && kind == Delta ==> st.sent == |st.tokenIds|)
  }

  // One more output for a request that is not over.
  lemma {:induction false} OneMore(kind: OutputKind, d: D.Detok, inputs: Inputs, x: (seq<nat>, Option<string>), st: ReqState)
    requires InCourse(kind, d, inputs, st) && !st.finished
    ensures var all := inputs + [x];
      var (st', o, abort) := ProcessOne(st, x.0, x.1);
      var sent := st.detok.sentOffset;
      var now := TextShown(d, all);
      && InCourse(kind, d, all, st')
      && (abort <==> Matched(d, all) && x.1.None?)
      && o == (match kind
               case Delta => Some(SnapshotOf(if sent < |now| then now[sent..] else [], x.0, Over(d, all), Why(d, all)))
               case Cumulative => Some(Whole(d, all))
               case FinalOnly => if Over(d, all) then Some(Whole(d, all)) else None)
  {
    hide D.Update, D.HeldBack;
    var all := inputs + [x];
    assert all[..|inputs|] == inputs;
    UpdateAnyOffset(Detokenized(d, inputs), x.0, x.1.Some?, st.detok.sentOffset);
    if kind == Delta {
      assert (st.tokenIds + x.0)[|st.tokenIds|..] == x.0;
    }
  }

  // What a delta client has been sent is the text shown, and the next delta goes on from there.
  ghost predicate DeltaSent(d: D.Detok, inputs: Inputs, st: ReqState) {
    P.InStep(P.Reader(st.detok, TextShown(d, inputs), st.finished))
  }

  lemma {:induction false} DeltaGoesOn(d: D.Detok, inputs: Inputs, x: (seq<nat>, Option<string>), st: ReqState)
    requires InCourse(Delta, d, inputs, st) && !st.finished && DeltaSent(d, inputs, st)
    ensures var all := inputs + [x];
      && DeltaSent(d, all, ProcessOne(st, x.0, x.1).0)
      && st.detok.sentOffset == |TextShown(d, inputs)| <= |TextShown(d, all)|
  {
    hide D.Update, P.Quiet, P.SentOk;
    var all := inputs + [x];
    assert all[..|inputs|] == inputs;
    UpdateAnyOffset(Detokenized(d, inputs), x.0, x.1.Some?, st.detok.sentOffset);
    P.DeliverInStep(P.Reader(st.detok, TextShown(d, inputs), false), x.0, x.1.Some?);
  }

  lemma StartsInCourse(kind: OutputKind, tokenizer: Option<D.Tokenizer>, p: D.Params)
    requires forall st :: st in p.stop ==> st != []
    ensures var start := NewState(kind, tokenizer, p);
      InCourse(kind, start.detok, [], start) && DeltaSent(start.detok, [], start)
  {
    P.FreshInStep(tokenizer, p);
  }

  lemma NotFinished(kind: OutputKind, d: D.Detok, inputs: Inputs, st: ReqState)
    requires InCourse(kind, d, inputs, st) && !Over(d, inputs)
    ensures !st.finished
  {
  }

  // Everything shown to a request that takes its outputs up to the one it is over with.
  lemma {:induction false} CourseShows(kind: OutputKind, tokenizer: Option<D.Tokenizer>, p: D.Params, inputs: Inputs)
    requires OverLate(D.Fresh(tokenizer, p), inputs) && forall st :: st in p.stop ==> st != []
    ensures var d, run := D.Fresh(tokenizer, p), ProcessRun(NewState(kind, tokenizer, p), inputs);
      && InCourse(kind, d, inputs, run.state) && (kind == Delta ==> DeltaSent(d, inputs, run.state))
      && run.produced == Shown(kind, d, inputs)
  {
    hide ProcessOne, InCourse, Over, Whole, DeltaSent, TextShown, SnapshotOf;
    var d, start := D.Fresh(tokenizer, p), NewState(kind, tokenizer, p);
    StartsInCourse(kind, tokenizer, p);
    if inputs != [] {
      var n := |inputs| - 1;
      assert inputs[..n] + [inputs[n]] == inputs && forall i :: 0 <= i < n ==> inputs[..n][..i] == inputs[..i];
      CourseShows(kind, tokenizer, p, inputs[..n]);
      var st := ProcessRun(start, inputs[..n]).state;
      NotFinished(kind, d, inputs[..n], st);
      OneMore(kind, d, inputs[..n], inputs[n], st);
      if kind == Delta {
        DeltaGoesOn(d, inputs[..n], inputs[n], st);
        AddedIs(d, inputs);
      }
    }
  }

  lemma AddedIs(d: D.Detok, inputs: Inputs)
    requires inputs != []
    ensures var before, now := TextShown(d, inputs[..|inputs| - 1]), TextShown(d, inputs);
      Added(d, inputs)
      == SnapshotOf(if |before| < |now| then now[|before|..] else [], inputs[|inputs| - 1].0, Over(d, inputs), Why(d, inputs))
  {
    hide TextShown, Over, Why;
  }

  // ---------------------------------------------------------------- for every request

  // Whatever comes for a request: it takes the outputs up to the first it is over with, and is shown what
  // its kind says of these.
  lemma {:induction false} SnapshotsAre(kind: OutputKind, tokenizer: Option<D.Tokenizer>, p: D.Params, inputs: Inputs)
    requires forall st :: st in p.stop ==> st != []
    ensures var d, start := D.Fresh(tokenizer, p), NewState(kind, tokenizer, p);
      var kept := UpToEnd(d, inputs);
      var run := ProcessRun(start, kept);
      && Kept(start, inputs) == kept && run.produced == Shown(kind, d, kept)
      && run.state.tokenIds == AllIds(kept) && run.state.finished == Over(d, kept) && run.state.reason == Why(d, kept)
  {
    hide ProcessRun, Shown, Over, Why;
    if inputs != [] {
      SnapshotsAre(kind, tokenizer, p, inputs[..|inputs| - 1]);
    }
    UpToEndIs(D.Fresh(tokenizer, p), inputs);
    CourseShows(kind, tokenizer, p, UpToEnd(D.Fresh(tokenizer, p), inputs));
  }

  // A snapshot that ends nothing gives no reason.
  predicate GoesOn(o: O.RequestOutput) {
    !o.finished && o.finishReason == None && forall c :: c in o.outputs ==> c.finishReason == None
  }

  // A snapshot that ends the request for this reason.
  predicate EndsFor(o: O.RequestOutput, why: Option<string>) {
    o.finished && o.finishReason == why && o.outputs != [] && forall c :: c in o.outputs ==> c.finishReason == why
  }

  // The finish reason, for a request of any kind: the snapshot of the output it is over with gives it,
  // "stop" where the text reached a stop string and else the engine's, and no snapshot before gives any.
  lemma {:induction false} ReasonIsGivenOnce(kind: OutputKind, tokenizer: Option<D.Tokenizer>, p: D.Params, inputs: Inputs)
    requires forall st :: st in p.stop ==> st != []
    ensures var d, start := D.Fresh(tokenizer, p), NewState(kind, tokenizer, p);
      var kept := UpToEnd(d, inputs);
      var produced := ProcessRun(start, Kept(start, inputs)).produced;
      if Over(d, kept) then
        && produced != [] && (forall i :: 0 <= i < |produced| - 1 ==> GoesOn(produced[i]))
        && EndsFor(produced[|produced| - 1], if Matched(d, kept) then Some("stop") else kept[|kept| - 1].1)
      else forall i :: 0 <= i < |produced| ==> GoesOn(produced[i])
  {
    hide ProcessRun, Shown, Over, Why, Matched, GoesOn, EndsFor, UpToEnd;
    var d := D.Fresh(tokenizer, p);
    SnapshotsAre(kind, tokenizer, p, inputs);
    UpToEndIs(d, inputs);
    ShownReasons(kind, d, UpToEnd(d, inputs));
  }

  lemma {:induction false} ShownReasons(kind: OutputKind, d: D.Detok, inputs: Inputs)
    requires OverLate(d, inputs)
    ensures var shown := Shown(kind, d, inputs);
      if Over(d, inputs) then
        && shown != [] && (forall i :: 0 <= i < |shown| - 1 ==> GoesOn(shown[i]))
        && EndsFor(shown[|shown| - 1], if Matched(d, inputs) then Some("stop") else inputs[|inputs| - 1].1)
      else forall i :: 0 <= i < |shown| ==> GoesOn(shown[i])
  {
    hide Shown, Over, Why, Matched, GoesOn, EndsFor;
    if inputs == [] {
      NothingShown(kind, d);
    } else {
      var n := |inputs| - 1;
      forall i | 0 <= i <= n ensures !Over(d, inputs[..n][..i]) {
        assert inputs[..n][..i] == inputs[..i];
      }
      ShownGoesOn(kind, d, inputs[..n]);
      LastShown(kind, d, inputs);
    }
  }

  lemma NothingShown(kind: OutputKind, d: D.Detok)
    ensures Shown(kind, d, []) == [] && !Over(d, [])
  {
  }

  lemma {:induction false} ShownGoesOn(kind: OutputKind, d: D.Detok, inputs: Inputs)
    requires forall i :: 0 <= i <= |inputs| ==> !Over(d, inputs[..i])
    ensures forall o :: o in Shown(kind, d, inputs) ==> GoesOn(o)
  {
    hide Over, GoesOn, EndsFor, Matched;
    if inputs != [] {
      var n := |inputs| - 1;
      assert inputs[..|inputs|] == inputs && forall i :: 0 <= i <= n ==> inputs[..n][..i] == inputs[..i];
      ShownGoesOn(kind, d, inputs[..n]);
      LastShown(kind, d, inputs);
    }
  }

  // What the last output adds to what is shown.
  lemma LastShown(kind: OutputKind, d: D.Detok, inputs: Inputs)
    requires inputs != []
    ensures var before, now := Shown(kind, d, inputs[..|inputs| - 1]), Shown(kind, d, inputs);
      if Over(d, inputs) then
        && |now| == |before| + 1 && now[..|before|] == before
        && EndsFor(now[|before|], if Matched(d, inputs) then Some("stop") else inputs[|inputs| - 1].1)
      else now == before || (|now| == |before| + 1 && now[..|before|] == before && GoesOn(now[|before|]))
  {
    hide TextShown, D.Update, AllIds;
  }

  // The three kinds: a cumulative client is shown everything so far each time, a client of the final
  // output nothing before the end and everything then, a delta client what is new each time.
  lemma {:induction false} KindsShow(d: D.Detok, inputs: Inputs, i: nat)
    requires OverLate(d, inputs)
    ensures |Shown(Cumulative, d, inputs)| == |Shown(Delta, d, inputs)| == |inputs|
    ensures i < |inputs| ==>
      && Shown(Cumulative, d, inputs)[i] == Whole(d, inputs[..i + 1])
      && Shown(Delta, d, inputs)[i] == Added(d, inputs[..i + 1])
    ensures Shown(FinalOnly, d, inputs) == if Over(d, inputs) then [Whole(d, inputs)] else []
  {
    hide Over, Whole, Added;
    if inputs == [] {
      NothingShown(FinalOnly, d);
    } else {
      var n := |inputs| - 1;
      assert forall k :: 0 <= k <= n ==> inputs[..n][..k] == inputs[..k];
      KindsShow(d, inputs[..n], i);
      assert inputs[..|inputs|] == inputs && inputs[..n][..n] == inputs[..n];
      assert i < n ==> inputs[..n][..i + 1] == inputs[..i + 1];
    }
  }

  // At the end everything is shown: all ids, and the text to its end.
  lemma {:induction false} EverythingAtTheEnd(d: D.Detok, inputs: Inputs)
    requires Over(d, inputs)
    ensures Whole(d, inputs).outputs == [O.Completion(0, Detokenized(d, inputs).text, AllIds(inputs), Why(d, inputs))]
  {
    hide Detokenized, AllIds, Why, D.Update;
    var t := Detokenized(d, inputs).text;
    assert t[..|t|] == t;
  }
}
