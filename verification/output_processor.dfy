/** The output objects: a mergeable snapshot, the collector's single slot, and the processor's loop. */
module OutputProcessors {
  import opened Wrappers
  import opened Requests
  import D = Detokenizing
  import opened IncrementalDetokenizing
  import O = OutputCollecting
  import opened OutputProcessing

  class RequestOutput {
    var outputs: seq<O.Completion>
    var finished: bool
    var finishReason: Option<string>

    constructor (o: O.RequestOutput)
      ensures View() == o
    {
      outputs, finished, finishReason := o.outputs, o.finished, o.finishReason;
    }

    function View(): O.RequestOutput
      reads this
    {
      O.RequestOutput(outputs, finished, finishReason)
    }

    // Merge a later output into this one: same index in place, a new index at the end.
    method AddOutput(next: RequestOutput, aggregate: bool)
      requires next != this
      modifies this
      ensures View() == O.Add(old(View()), next.View(), aggregate)
    {
      finished := finished || next.finished;
      finishReason := if next.finishReason.Some? then next.finishReason else finishReason;
      assert next.outputs[0..] == next.outputs;
      for i := 0 to |next.outputs|
        invariant O.MergeAll(outputs, next.outputs[i..], aggregate) == O.MergeAll(old(outputs), next.outputs, aggregate)
        invariant finished == (old(finished) || next.finished)
        invariant finishReason == if next.finishReason.Some? then next.finishReason else old(finishReason)
      {
        assert next.outputs[i..][1..] == next.outputs[i + 1..];
        MergeCompletion(next.outputs[i], aggregate);
      }
      assert next.outputs[|next.outputs|..] == [];
    }

    method MergeCompletion(next: O.Completion, aggregate: bool)
      modifies `outputs
      ensures outputs == O.MergeOne(old(outputs), next, aggregate)
    {
      for i := 0 to |outputs|
        invariant outputs == old(outputs)
        invariant forall k :: 0 <= k < i ==> outputs[k].index != next.index
      {
        if outputs[i].index == next.index {
          MergeAt(outputs, next, i, aggregate);
          outputs := outputs[i := O.MergeInto(outputs[i], next, aggregate)];
          return;
        }
      }
      MergeAt(outputs, next, |outputs|, aggregate);
      outputs := outputs + [next];
    }
  }

  // Merging changes the first completion with the index, or adds one at the end.
  lemma {:induction false} MergeAt(outs: seq<O.Completion>, next: O.Completion, i: nat, aggregate: bool)
    requires i <= |outs| && forall k :: 0 <= k < i ==> outs[k].index != next.index
    requires i < |outs| ==> outs[i].index == next.index
    ensures O.MergeOne(outs, next, aggregate) ==
      if i < |outs| then outs[i := O.MergeInto(outs[i], next, aggregate)] else outs + [next]
  {
    if i > 0 {
      MergeAt(outs[1..], next, i - 1, aggregate);
      assert outs == [outs[0]] + outs[1..];
    }
  }

  // One pending output per request; what comes before it is read is merged into it.
  class RequestOutputCollector {
    const aggregate: bool
    var output: RequestOutput?

    constructor (kind: OutputKind)
      ensures aggregate == (kind == Delta) && View() == None
    {
      aggregate := kind == Delta;
      output := null;
    }

    function View(): Option<O.RequestOutput>
      reads this, output
    {
      if output == null then None else Some(output.View())
    }

    method Put(o: RequestOutput)
      requires o != output
      modifies this, output
      ensures View() == O.Put(old(View()), old(o.View()), aggregate)
      ensures output == (if old(output) == null then o else old(output))
    {
      if output == null {
        output := o;
      } else {
        output.AddOutput(o, aggregate);
      }
    }

    method GetNowait() returns (o: RequestOutput?)
      modifies this
      ensures o == old(output) && View() == None
      ensures o != null ==> Some(o.View()) == old(View())
    {
      o := output;
      if o != null {
        output := null;
      }
    }
  }

  // What the processor keeps for a request.
  class RequestState {
    const kind: OutputKind
    const detokenizer: IncrementalDetokenizer
    var tokenIds: seq<nat>
    var sentTokensOffset: nat
    var finished: bool
    var finishReason: Option<string>

    constructor (kind: OutputKind, tokenizer: Option<D.Tokenizer>, p: D.Params)
      ensures fresh(detokenizer) && detokenizer.Sized() && View() == NewState(kind, tokenizer, p)
    {
      this.kind := kind;
      detokenizer := new IncrementalDetokenizer(tokenizer, p);
      tokenIds, sentTokensOffset, finished, finishReason := [], 0, false, None;
    }

    function View(): ReqState
      reads this, detokenizer
    {
      ReqState(kind, tokenIds, sentTokensOffset, finished, finishReason, detokenizer.View())
    }

    method MakeRequestOutput() returns (o: RequestOutput)
      requires detokenizer.Sized()
      modifies detokenizer
      ensures fresh(o) && (View(), o.View()) == MakeOutput(old(View()))
    {
      var ids, text;
      if kind == Delta {
        ids := if sentTokensOffset <= |tokenIds| then tokenIds[sentTokensOffset..] else [];
        text := detokenizer.GetNextOutputText(finished, true);
      } else {
        ids := tokenIds;
        text := detokenizer.GetNextOutputText(finished, false);
      }
      o := new RequestOutput(O.RequestOutput([O.Completion(0, text, ids, finishReason)], finished, finishReason));
    }

    // One engine output: record, decode, look for stop strings, build the snapshot.
    method Process(newTokenIds: seq<nat>, finish: Option<string>) returns (o: RequestOutput?, abort: bool)
      requires detokenizer.Sized()
      modifies this, detokenizer
      ensures o != null ==> fresh(o)
      ensures (View(), if o == null then None else Some(o.View()), abort) == ProcessOne(old(View()), newTokenIds, finish)
    {
      hide D.Update, D.NextDelta, D.Visible;
      tokenIds := tokenIds + newTokenIds;
      if finish.Some? {
        finishReason := finish;
        finished := true;
      }
      abort := false;
      var matched := detokenizer.Update(newTokenIds, finish.Some?);
      if matched.Some? {
        finished := true;
        finishReason := Some("stop");
        abort := finish.None?;
      }
      var output := MakeRequestOutput();
      if kind == FinalOnly && !finished {
        o := null;
        return;
      }
      o := output;
      if !finished {
        sentTokensOffset := |tokenIds|;
      }
    }
  }

  // ---------------------------------------------------------------- all requests of a step

  datatype CoreOut = CoreOut(id: ReqId, tokens: seq<nat>, finish: Option<string>)

  // Everything process_outputs changes or returns.
  datatype Processed = Processed(
    states: map<ReqId, ReqState>,
    streaming: seq<(ReqId, O.RequestOutput)>,
    aborts: seq<ReqId>,
    finishedIds: seq<ReqId>)

  function ProcessNext(p: Processed, c: CoreOut): Processed {
    if c.id !in p.states then p
    else
      var (st, o, abort) := ProcessOne(p.states[c.id], c.tokens, c.finish);
      Processed(
        p.states[c.id := st],
        p.streaming + if o.Some? then [(c.id, o.value)] else [],
        p.aborts + if abort then [c.id] else [],
        p.finishedIds + if o.Some? && st.finished then [c.id] else [])
  }

  function ProcessAll(states: map<ReqId, ReqState>, outs: seq<CoreOut>): Processed {
    if outs == [] then Processed(states, [], [], [])
    else ProcessNext(ProcessAll(states, outs[..|outs| - 1]), outs[|outs| - 1])
  }

  function InputsFor(outs: seq<CoreOut>, id: ReqId): seq<(seq<nat>, Option<string>)> {
    if outs == [] then []
    else
      var last := outs[|outs| - 1];
      InputsFor(outs[..|outs| - 1], id) + if last.id == id then [(last.tokens, last.finish)] else []
  }

  function StreamedTo(streaming: seq<(ReqId, O.RequestOutput)>, id: ReqId): seq<O.RequestOutput> {
    if streaming == [] then []
    else
      var last := streaming[|streaming| - 1];
      StreamedTo(streaming[..|streaming| - 1], id) + if last.0 == id then [last.1] else []
  }

  // Requests do not disturb each other: each gets what its own outputs alone give.
  lemma {:induction false} RequestsAreIndependent(states: map<ReqId, ReqState>, outs: seq<CoreOut>, id: ReqId)
    requires id in states
    ensures var p := ProcessAll(states, outs);
      id in p.states && Run(p.states[id], StreamedTo(p.streaming, id)) == ProcessRun(states[id], InputsFor(outs, id))
  {
    hide ProcessOne;
    if outs != [] {
      var n := |outs| - 1;
      var p := ProcessAll(states, outs[..n]);
      RequestsAreIndependent(states, outs[..n], id);
      StreamedMore(states, outs[..n], outs[n], id);
      if outs[n].id == id {
        var inputs := InputsFor(outs[..n], id);
        assert InputsFor(outs, id)[..|inputs|] == inputs;
      } else {
        assert InputsFor(outs, id) == InputsFor(outs[..n], id);
      }
    }
  }

  lemma StreamedMore(states: map<ReqId, ReqState>, outs: seq<CoreOut>, c: CoreOut, id: ReqId)
    requires id in ProcessAll(states, outs).states
    ensures var p := ProcessAll(states, outs);
      StreamedTo(ProcessNext(p, c).streaming, id) ==
        StreamedTo(p.streaming, id) +
        if c.id == id && ProcessOne(p.states[id], c.tokens, c.finish).1.Some?
        then [ProcessOne(p.states[id], c.tokens, c.finish).1.value] else []
  {
    hide ProcessOne;
    var p := ProcessAll(states, outs);
    if c.id in p.states {
      var o := ProcessOne(p.states[c.id], c.tokens, c.finish).1;
      if o.Some? {
        assert (p.streaming + [(c.id, o.value)])[..|p.streaming|] == p.streaming;
      } else {
        assert p.streaming + [] == p.streaming;
      }
    }
  }

  class OutputProcessor {
    var requests: map<ReqId, RequestState>
    var finishedIds: seq<ReqId>
    ghost var owner: map<object, ReqId>

    constructor ()
      ensures requests == map[] && owner == map[] && Valid()
    {
      requests, finishedIds, owner := map[], [], map[];
    }

    // No two requests share an object.
    ghost predicate Valid()
      reads `requests, `owner
    {
      && this !in owner
      && forall id :: id in requests ==>
          && requests[id] in owner && owner[requests[id]] == id
          && requests[id].detokenizer in owner && owner[requests[id].detokenizer] == id
          && requests[id].detokenizer.Sized()
    }

    ghost function States(): map<ReqId, ReqState>
      requires Valid()
      reads `requests, `owner, owner.Keys
    {
      map id | id in requests :: requests[id].View()
    }

    lemma StateKeys()
      requires Valid()
      ensures States().Keys == requests.Keys
    {
    }

    method AddRequest(id: ReqId, kind: OutputKind, tokenizer: Option<D.Tokenizer>, p: D.Params)
      requires Valid() && id !in requests
      modifies `requests, `owner
      ensures Valid() && fresh(owner.Keys - old(owner.Keys))
      ensures States() == old(States())[id := NewState(kind, tokenizer, p)]
    {
      hide NewState, IncrementalDetokenizer.View, IncrementalDetokenizer.Sized;
      var state := new RequestState(kind, tokenizer, p);
      assert state !in owner && state.detokenizer !in owner;
      requests := requests[id := state];
      owner := owner[state := id][state.detokenizer := id];
    }

    method GetAndClearFinishedIds() returns (ids: seq<ReqId>)
      requires Valid()
      modifies `finishedIds
      ensures ids == old(finishedIds) && finishedIds == []
      ensures Valid() && States() == old(States())
    {
      ids := finishedIds;
      finishedIds := [];
    }

    // The record goes; an id no longer known is skipped.
    method RemoveRequest(id: ReqId)
      requires Valid()
      modifies `requests
      ensures Valid() && requests == old(requests) - {id} && States() == old(States()) - {id}
    {
      requests := requests - {id};
    }

    // process_outputs for requests that are read synchronously.
    method ProcessOutputs(outs: seq<CoreOut>) returns (streaming: seq<(ReqId, O.RequestOutput)>, aborts: seq<ReqId>)
      requires Valid()
      modifies `finishedIds, owner.Keys
      ensures Valid() && requests == old(requests) && owner == old(owner)
      ensures Processed(States(), streaming, aborts, finishedIds) == ProcessAll(old(States()), outs)
    {
      hide ProcessNext, States;
      finishedIds, streaming, aborts := [], [], [];
      for i := 0 to |outs|
        invariant Valid() && requests == old(requests) && owner == old(owner)
        invariant Processed(States(), streaming, aborts, finishedIds) == ProcessAll(old(States()), outs[..i])
      {
        assert outs[..i + 1][..i] == outs[..i];
        var more, abort := ProcessOutput(outs[i], streaming, aborts);
        streaming := streaming + more;
        aborts := aborts + abort;
      }
      assert outs[..|outs|] == outs;
    }

    // Only the state of the request named changes.
    method ProcessFor(id: ReqId, state: RequestState, tokens: seq<nat>, finish: Option<string>)
      returns (o: RequestOutput?, stop: bool)
      requires Valid() && id in requests && requests[id] == state
      modifies state, state.detokenizer
      ensures Valid() && (o != null ==> fresh(o))
      ensures var r := ProcessOne(old(States())[id], tokens, finish);
        && States() == old(States())[id := r.0] && state.finished == r.0.finished
        && (if o == null then None else Some(o.View())) == r.1 && stop == r.2
    {
      hide ProcessOne;
      o, stop := state.Process(tokens, finish);
    }

    // The body of the loop: what one engine output adds.
    method ProcessOutput(c: CoreOut, ghost streaming: seq<(ReqId, O.RequestOutput)>, ghost aborts: seq<ReqId>)
      returns (more: seq<(ReqId, O.RequestOutput)>, abort: seq<ReqId>)
      requires Valid()
      modifies `finishedIds, owner.Keys
      ensures Valid() && requests == old(requests) && owner == old(owner)
      ensures Processed(States(), streaming + more, aborts + abort, finishedIds)
           == ProcessNext(Processed(old(States()), streaming, aborts, old(finishedIds)), c)
    {
      hide ProcessOne, States;
      StateKeys();
      more, abort := [], [];
      if c.id !in requests {
        return;
      }
      var state := requests[c.id];
      var o, stop := ProcessFor(c.id, state, c.tokens, c.finish);
      if stop {
        abort := [c.id];
      }
      if o != null {
        more := [(c.id, o.View())];
        if state.finished {
          finishedIds := finishedIds + [c.id];
        }
      }
    }
  }
}
