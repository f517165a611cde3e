/** From engine outputs to what the client reads: per-request state, snapshots and delta delivery. */
module OutputProcessing {
  import opened Wrappers
  import opened Utf8
  import D = Detokenizing
  import P = DetokenizingProps
  import O = OutputCollecting

  datatype OutputKind = Cumulative | Delta | FinalOnly

  // The state of one request in the output processor.
  datatype ReqState = ReqState(
    kind: OutputKind,
    tokenIds: seq<nat>,
    sent: nat,
    finished: bool,
    reason: Option<string>,
    detok: D.Detok)

  function NewState(kind: OutputKind, tokenizer: Option<D.Tokenizer>, p: D.Params): ReqState {
    ReqState(kind, [], 0, false, None, D.Fresh(tokenizer, p))
  }

  function Suffix<T>(s: seq<T>, n: nat): seq<T> {
    if n <= |s| then s[n..] else []
  }

  // make_request_output: the snapshot, and the state after the detokenizer handed out its text.
  function MakeOutput(st: ReqState): (ReqState, O.RequestOutput) {
    var (d, text) := if st.kind == Delta then D.NextDelta(st.detok, st.finished) else (st.detok, D.Visible(st.detok, st.finished));
    var ids := if st.kind == Delta then Suffix(st.tokenIds, st.sent) else st.tokenIds;
    (st.(detok := d), O.RequestOutput([O.Completion(0, text, ids, st.reason)], st.finished, st.reason))
  }

  // One engine output for a request: the new state, what goes to the client, whether the engine is
  // asked to abort.
  function ProcessOne(st: ReqState, ids: seq<nat>, finish: Option<string>): (ReqState, Option<O.RequestOutput>, bool) {
    var (d, m) := D.Update(st.detok, ids, finish.Some?);
    var st1 := st.(
      tokenIds := st.tokenIds + ids,
      detok := d,
      finished := st.finished || finish.Some? || m.Some?,
      reason := if m.Some? then Some("stop") else if finish.Some? then finish else st.reason);
    var (st2, o) := MakeOutput(st1);
    var abort := m.Some? && finish.None?;
    if st.kind == FinalOnly && !st2.finished then (st2, None, abort)
    else (if st2.finished then st2 else st2.(sent := |st2.tokenIds|), Some(o), abort)
  }

  datatype Run = Run(state: ReqState, produced: seq<O.RequestOutput>)

  function ProcessRun(st: ReqState, inputs: seq<(seq<nat>, Option<string>)>): Run {
    if inputs == [] then Run(st, [])
    else
      var r := ProcessRun(st, inputs[..|inputs| - 1]);
      var (ids, finish) := inputs[|inputs| - 1];
      var (st', o, _) := ProcessOne(r.state, ids, finish);
      Run(st', r.produced + if o.Some? then [o.value] else [])
  }

  // ---------------------------------------------------------------- what a delta client gets

  function AllIds(inputs: seq<(seq<nat>, Option<string>)>): seq<nat> {
    if inputs == [] then [] else AllIds(inputs[..|inputs| - 1]) + inputs[|inputs| - 1].0
  }

  // Nothing comes for a request after it has finished.
  ghost predicate EndsInTime(st: ReqState, inputs: seq<(seq<nat>, Option<string>)>) {
    forall i :: 0 <= i < |inputs| ==> !ProcessRun(st, inputs[..i]).state.finished
  }

  ghost predicate DeltaOk(run: Run, ids: seq<nat>) {
    var st := run.state;
    && st.kind == Delta && st.tokenIds == ids
    && O.Ids(run.produced, 0) == ids && O.Texts(run.produced, 0) == D.Visible(st.detok, st.finished)
    && (O.AnyFinished(run.produced) <==> st.finished)
    && (forall o :: o in run.produced ==> O.OneEach(o.outputs))
    && P.InStep(P.Reader(st.detok, O.Texts(run.produced, 0), st.finished))
    && (!st.finished ==> st.sent == |ids|)
  }

  lemma ProcessKeepsDelta(run: Run, seen: seq<nat>, ids: seq<nat>, finish: Option<string>)
    requires DeltaOk(run, seen) && !run.state.finished
    ensures var (st', o, _) := ProcessOne(run.state, ids, finish);
      o.Some? && DeltaOk(Run(st', run.produced + [o.value]), seen + ids)
  {
    var st := run.state;
    var r := P.Reader(st.detok, O.Texts(run.produced, 0), st.finished);
    P.DeliverInStep(r, ids, finish.Some?);
    var (st', o, _) := ProcessOne(st, ids, finish);
    O.Snoc(run.produced, o.value, 0);
    OneCompletion(o.value.outputs[0]);
    hide P.InStep, D.Update, D.NextDelta, D.Visible;
    assert (seen + ids)[|seen|..] == ids;
    SentIsVisible(P.Deliver(r, ids, finish.Some?));
  }

  lemma SentIsVisible(r: P.Reader)
    requires P.InStep(r)
    ensures r.sent == D.Visible(r.d, r.finished)
  {
  }

  lemma OneCompletion(c: O.Completion)
    ensures c.index == 0 ==> O.TextOf([c], 0) == c.text && O.IdsOf([c], 0) == c.tokenIds
    ensures O.OneEach([c])
  {
    assert [c][1..] == [];
  }

  // The token ids read so far stay complete after one more output if and only if the offset of ids sent
  // is current; finishing does not move it, so an output after the finish repeats ids.
  lemma {:induction false} IdsStayCompleteIff(run: Run, ids: seq<nat>, finish: Option<string>)
    requires run.state.kind == Delta && run.state.sent <= |run.state.tokenIds|
    requires O.Ids(run.produced, 0) == run.state.tokenIds
    ensures var (st', o, _) := ProcessOne(run.state, ids, finish);
      && o.Some? && st'.tokenIds == run.state.tokenIds + ids
      && (O.Ids(run.produced + [o.value], 0) == st'.tokenIds <==> run.state.sent == |run.state.tokenIds|)
      && (st'.finished ==> st'.sent == run.state.sent)
  {
    hide D.Update, D.NextDelta, D.Visible;
    var st := run.state;
    var (st', o, _) := ProcessOne(st, ids, finish);
    O.Snoc(run.produced, o.value, 0);
    OneCompletion(o.value.outputs[0]);
    var suffix := (st.tokenIds + ids)[st.sent..];
    assert |st.tokenIds + suffix| == |st.tokenIds + ids| + (|st.tokenIds| - st.sent);
    if st.sent == |st.tokenIds| {
      assert suffix == ids;
    }
  }

  lemma {:induction false} DeltasWhileOpen(
      tokenizer: Option<D.Tokenizer>, p: D.Params, inputs: seq<(seq<nat>, Option<string>)>)
    requires forall st :: st in p.stop ==> st != []
    requires EndsInTime(NewState(Delta, tokenizer, p), inputs)
    ensures DeltaOk(ProcessRun(NewState(Delta, tokenizer, p), inputs), AllIds(inputs))
  {
    hide DeltaOk, ProcessOne;
    var start := NewState(Delta, tokenizer, p);
    if inputs == [] {
      NewIsDelta(tokenizer, p);
    } else {
      var n := |inputs| - 1;
      assert EndsInTime(start, inputs[..n]) by {
        assert forall i :: 0 <= i < n ==> inputs[..n][..i] == inputs[..i];
      }
      DeltasWhileOpen(tokenizer, p, inputs[..n]);
      ProcessKeepsDelta(ProcessRun(start, inputs[..n]), AllIds(inputs[..n]), inputs[n].0, inputs[n].1);
    }
  }

  // The outputs a request takes: it is removed after the one it finishes with.
  function Kept(st: ReqState, inputs: seq<(seq<nat>, Option<string>)>): seq<(seq<nat>, Option<string>)> {
    if inputs == [] then []
    else
      var kept := Kept(st, inputs[..|inputs| - 1]);
      if ProcessRun(st, kept).state.finished then kept else kept + [inputs[|inputs| - 1]]
  }

  // These are all up to and including the finishing one.
  lemma {:induction false} KeptIs(st: ReqState, inputs: seq<(seq<nat>, Option<string>)>)
    ensures var kept := Kept(st, inputs);
      && kept <= inputs && EndsInTime(st, kept)
      && (kept == inputs || ProcessRun(st, kept).state.finished)
  {
    hide ProcessRun, EndsInTime;
    if inputs == [] {
      NothingEnds(st);
    } else {
      var n := |inputs| - 1;
      KeptIs(st, inputs[..n]);
      var kept := Kept(st, inputs[..n]);
      if !ProcessRun(st, kept).state.finished {
        assert kept == inputs[..n] && kept + [inputs[n]] == inputs;
        OneMoreEnds(st, kept, inputs[n]);
      }
    }
  }

  lemma NothingEnds(st: ReqState)
    ensures EndsInTime(st, [])
  {
  }

  lemma OneMoreEnds(st: ReqState, kept: seq<(seq<nat>, Option<string>)>, x: (seq<nat>, Option<string>))
    requires EndsInTime(st, kept) && !ProcessRun(st, kept).state.finished
    ensures EndsInTime(st, kept + [x])
  {
    hide ProcessRun;
    forall i | 0 <= i < |kept + [x]| ensures !ProcessRun(st, (kept + [x])[..i]).state.finished {
      assert (kept + [x])[..i] == kept[..i];
      if i == |kept| {
        assert kept[..i] == kept;
      }
    }
  }

  // The deltas of a request concatenate to its text and to its token ids, up to and including the output
  // it finishes with, and the finish shows once.
  lemma {:induction false} DeltasAreComplete(
      tokenizer: Option<D.Tokenizer>, p: D.Params, inputs: seq<(seq<nat>, Option<string>)>)
    requires forall st :: st in p.stop ==> st != []
    ensures var start := NewState(Delta, tokenizer, p);
      var kept := Kept(start, inputs);
      && DeltaOk(ProcessRun(start, kept), AllIds(kept))
      && kept <= inputs && (kept == inputs || ProcessRun(start, kept).state.finished)
  {
    hide DeltaOk, ProcessRun, Kept, EndsInTime;
    var start := NewState(Delta, tokenizer, p);
    KeptIs(start, inputs);
    DeltasWhileOpen(tokenizer, p, Kept(start, inputs));
  }

  lemma NewIsDelta(tokenizer: Option<D.Tokenizer>, p: D.Params)
    requires forall st :: st in p.stop ==> st != []
    ensures DeltaOk(Run(NewState(Delta, tokenizer, p), []), [])
  {
    P.FreshInStep(tokenizer, p);
  }

  // ---------------------------------------------------------------- through the collector

  // The outputs of a run put into the collector one by one, with gets anywhere between.
  ghost predicate PutsAre(calls: seq<O.Call>, produced: seq<O.RequestOutput>) {
    O.DoAll(calls, true).produced == produced
  }

  lemma {:induction false} PutsWellBuilt(calls: seq<O.Call>)
    requires forall o :: o in O.DoAll(calls, true).produced ==> O.OneEach(o.outputs)
    ensures O.WellBuilt(calls)
  {
    hide O.OneEach;
    if calls != [] {
      var n := |calls| - 1;
      var x := O.DoAll(calls[..n], true);
      assert O.DoAll(calls, true) == O.Do(x, calls[n], true);
      assert forall o :: o in x.produced ==> o in O.Do(x, calls[n], true).produced;
      PutsWellBuilt(calls[..n]);
      assert calls[n].PutCall? ==> calls[n].o in O.Do(x, calls[n], true).produced;
      assert forall c :: c in calls <==> c in calls[..n] || c == calls[n];
    }
  }

  // End to end: whatever the engine outputs for a request and however the client's reads fall between
  // them, what the client has read and what waits for it are exactly the request's tokens and text, up to
  // and including the output it finishes with.
  lemma {:induction false} ClientReadsEverything(
      tokenizer: Option<D.Tokenizer>, p: D.Params, inputs: seq<(seq<nat>, Option<string>)>, calls: seq<O.Call>)
    requires forall st :: st in p.stop ==> st != []
    requires PutsAre(calls, ProcessRun(NewState(Delta, tokenizer, p), Kept(NewState(Delta, tokenizer, p), inputs)).produced)
    ensures var kept := Kept(NewState(Delta, tokenizer, p), inputs);
      var st := ProcessRun(NewState(Delta, tokenizer, p), kept).state;
      var seen := O.Seen(O.DoAll(calls, true));
      && O.Texts(seen, 0) == D.Visible(st.detok, st.finished)
      && (st.finished ==> O.Texts(seen, 0) == st.detok.text)
      && O.Ids(seen, 0) == AllIds(kept)
      && (O.AnyFinished(seen) <==> st.finished)
      && kept <= inputs && (kept == inputs || st.finished)
  {
    hide O.DoAll, ProcessRun, O.Texts, O.Ids, O.Seen, O.AnyFinished, O.WellBuilt, Kept;
    var run := ProcessRun(NewState(Delta, tokenizer, p), Kept(NewState(Delta, tokenizer, p), inputs));
    DeltasAreComplete(tokenizer, p, inputs);
    PutsWellBuilt(calls);
    O.DeltaLossless(calls, 0);
    P.FinishedShowsAll(P.Reader(run.state.detok, O.Texts(run.produced, 0), run.state.finished));
  }
}
