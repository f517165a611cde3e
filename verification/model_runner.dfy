/** The model runner: recurrent state and last token kept per slot, for an arbitrary model. */
module ModelRunner {
  import opened Wrappers
  import opened Requests
  import opened StateSlots
  import opened Scheduling

  // A recurrent model, seen one token at a time. S is everything the forward pass leaves behind
  // for a sequence, its last logits included.
  datatype Rnn<!S> = Rnn(zero: S, next: (S, Token) -> S)

  // Runs the model over tokens, one sequence on its own.
  function Feed<S>(m: Rnn<S>, s: S, tokens: seq<Token>): S {
    if tokens == [] then s else m.next(Feed(m, s, tokens[..|tokens| - 1]), tokens[|tokens| - 1])
  }

  lemma {:induction false} FeedAppend<S>(m: Rnn<S>, s: S, a: seq<Token>, b: seq<Token>)
    ensures Feed(m, s, a + b) == Feed(m, Feed(m, s, a), b)
  {
    if b == [] {
      assert a + b == a;
    } else {
      FeedAppend(m, s, a, b[..|b| - 1]);
      assert (a + b)[..|a + b| - 1] == a + b[..|b| - 1];
    }
  }

  // The buffers on the device. `minPrev` is the smallest token of the previous uniform batch.
  datatype Gpu<S> = Gpu(state: seq<S>, last: seq<Token>, minPrev: Option<int>)

  // The tokens one record feeds: its prompt chunk, or the token cached for its slot.
  function TokensOf(last: seq<Token>, d: RunData): seq<Token> {
    match d.input
    case Some(tokens) => tokens
    case None => if d.slot < |last| then [last[d.slot]] else []
  }

  // The state a record starts from: zero for the first chunk of a prompt.
  function Base<S>(m: Rnn<S>, state: seq<S>, d: RunData): S
    requires d.slot < |state|
  {
    if !d.isDecode && d.computed == 0 then m.zero else state[d.slot]
  }

  // One forward pass over a batch, every record in the row of its slot.
  function Forward<S>(m: Rnn<S>, state: seq<S>, last: seq<Token>, data: seq<RunData>): (r: seq<S>)
    ensures |r| == |state|
  {
    if data == [] then state
    else
      var st := Forward(m, state, last, data[..|data| - 1]);
      var d := data[|data| - 1];
      if d.slot < |st| then st[d.slot := Feed(m, Base(m, st, d), TokensOf(last, d))] else st
  }

  ghost predicate DistinctSlots(data: seq<RunData>, rows: nat) {
    && (forall d :: d in data ==> d.slot < rows)
    && (forall i, j :: 0 <= i < j < |data| ==> data[i].slot != data[j].slot)
  }

  // Batching does not mix rows: each record's row depends on its own row and tokens only.
  lemma {:induction false} ForwardIsolated<S>(m: Rnn<S>, state: seq<S>, last: seq<Token>, data: seq<RunData>)
    requires DistinctSlots(data, |state|)
    ensures forall d :: d in data ==> Forward(m, state, last, data)[d.slot] == Feed(m, Base(m, state, d), TokensOf(last, d))
    ensures forall k :: 0 <= k < |state| && (forall d :: d in data ==> d.slot != k)
                        ==> Forward(m, state, last, data)[k] == state[k]
  {
    if data != [] {
      var i := |data| - 1;
      assert forall d :: d in data <==> d in data[..i] || d == data[i];
      ForwardIsolated(m, state, last, data[..i]);
      assert forall d :: d in data[..i] ==> d.slot != data[i].slot;
    }
  }

  function SetRows<T>(rows: seq<T>, at: seq<nat>, x: T): (r: seq<T>)
    ensures |r| == |rows|
    ensures forall k :: 0 <= k < |rows| ==> r[k] == if k in at then x else rows[k]
  {
    seq(|rows|, k requires 0 <= k < |rows| => if k in at then x else rows[k])
  }

  // A batch in which every request decodes one token.
  predicate IsUniform(data: seq<RunData>) {
    data != [] && SumTokens(data) == |data| && forall i :: 0 <= i < |data| ==> data[i].isDecode
  }

  function MinToken(last: seq<Token>, data: seq<RunData>): Option<int> {
    if data == [] then None
    else
      var t := if data[0].slot < |last| then last[data[0].slot] else -1;
      match MinToken(last, data[1..])
      case None => Some(t)
      case Some(u) => Some(if t <= u then t else u)
  }

  // The free slots borrowed to fill a batch up to a captured size; none without a graph or room.
  function PadsFor(slots: Slots, batch: nat, captured: Option<nat>): seq<nat> {
    if captured.Some? && batch < captured.value && captured.value - batch <= |slots.free|
    then slots.free[..captured.value - batch] else []
  }

  // One forward pass; None is the RuntimeError about a slot without a sampled token.
  function Execute<S>(m: Rnn<S>, g: Gpu<S>, slots: Slots, data: seq<RunData>, captured: Option<nat>): Option<Gpu<S>> {
    if data == [] then Some(g)
    else if !IsUniform(data) then Some(g.(state := Forward(m, g.state, g.last, data)))
    else if g.minPrev.Some? && g.minPrev.value < 0 then None
    else
      var pads := PadsFor(slots, |data|, captured);
      Some(Gpu(
             SetRows(Forward(m, g.state, g.last, data), pads, m.zero),
             SetRows(g.last, pads, 0),
             MinToken(g.last, data)))
  }

  // Outside its own slots a batch clears the first free ones and leaves the others as they were.
  ghost predicate PadsAre<S>(m: Rnn<S>, g: Gpu<S>, g': Gpu<S>, data: seq<RunData>, slots: Slots, pads: nat) {
    && pads <= |slots.free|
    && |g'.state| == |g'.last| == |g.state| == |g.last|
    && forall k :: 0 <= k < |g.state| && (forall d :: d in data ==> d.slot != k) ==>
        if k in slots.free[..pads] then g'.state[k] == m.zero && g'.last[k] == 0
        else g'.state[k] == g.state[k] && g'.last[k] == g.last[k]
  }

  // A pass over a batch of decodes: it fails if and only if a token of the one before was missing; else it
  // feeds each request the token of its slot, leaves the least of these tokens for the next such batch,
  // and clears as many of the first free slots as the captured size has more rows than the batch, if there
  // are that many, and touches no other.
  lemma {:induction false} UniformPass<S>(m: Rnn<S>, g: Gpu<S>, slots: Slots, data: seq<RunData>, captured: Option<nat>)
    requires IsUniform(data) && DistinctSlots(data, |g.state|) && |g.last| == |g.state|
    requires forall d :: d in data ==> d.slot !in slots.free
    ensures var r := Execute(m, g, slots, data, captured);
      && (r.None? <==> g.minPrev.Some? && g.minPrev.value < 0)
      && (r.Some? ==>
            && |r.value.state| == |r.value.last| == |g.state|
            && (forall d :: d in data ==>
                  && r.value.state[d.slot] == Feed(m, g.state[d.slot], TokensOf(g.last, d)) && r.value.last[d.slot] == g.last[d.slot])
            && PadsAre(m, g, r.value, data, slots,
                       if captured.Some? && |data| < captured.value <= |data| + |slots.free| then captured.value - |data| else 0)
            && r.value.minPrev.Some? && (exists d :: d in data && r.value.minPrev.value == g.last[d.slot])
            && forall d :: d in data ==> r.value.minPrev.value <= g.last[d.slot])
  {
    hide Feed, Forward, MinToken, TokensOf;
    ForwardIsolated(m, g.state, g.last, data);
    LeastToken(g.last, data);
    var pads := PadsFor(slots, |data|, captured);
    assert forall x :: x in pads ==> x in slots.free;
    assert data[0] in data;
  }

  lemma {:induction false} LeastToken(last: seq<Token>, data: seq<RunData>)
    requires data != [] && forall d :: d in data ==> d.slot < |last|
    ensures MinToken(last, data).Some?
    ensures exists d :: d in data && MinToken(last, data).value == last[d.slot]
    ensures forall d :: d in data ==> MinToken(last, data).value <= last[d.slot]
  {
    assert data[0] in data && forall d :: d in data <==> d == data[0] || d in data[1..];
    if data[1..] != [] {
      LeastToken(last, data[1..]);
      var d :| d in data[1..] && MinToken(last, data[1..]).value == last[d.slot];
      assert d in data;
    }
  }

  // Only decodes and last prompt chunks produce a token.
  predicate Samples(d: RunData) {
    d.isDecode || d.isLastPrefill
  }

  // The sampler may answer anything; `oracle` is what it answers for each request this step.
  function Sampled(data: seq<RunData>, oracle: map<ReqId, nat>): map<ReqId, Token> {
    map d | d in data && Samples(d) :: d.id := if d.id in oracle then oracle[d.id] else 0
  }

  // The sampled tokens written to the per-slot cache.
  function WriteBack(last: seq<Token>, data: seq<RunData>, sampled: map<ReqId, Token>): (r: seq<Token>)
    ensures |r| == |last|
  {
    if data == [] then last
    else
      var l := WriteBack(last, data[..|data| - 1], sampled);
      var d := data[|data| - 1];
      if Samples(d) && d.id in sampled && d.slot < |l| then l[d.slot := sampled[d.id]] else l
  }

  lemma {:induction false} WriteBackRows(last: seq<Token>, data: seq<RunData>, sampled: map<ReqId, Token>)
    requires DistinctSlots(data, |last|)
    requires forall d :: d in data && Samples(d) ==> d.id in sampled
    ensures forall d :: d in data ==> WriteBack(last, data, sampled)[d.slot] == if Samples(d) then sampled[d.id] else last[d.slot]
    ensures forall k :: 0 <= k < |last| && (forall d :: d in data ==> d.slot != k) ==> WriteBack(last, data, sampled)[k] == last[k]
  {
    if data != [] {
      var i := |data| - 1;
      assert forall d :: d in data <==> d in data[..i] || d == data[i];
      WriteBackRows(last, data[..i], sampled);
      assert forall d :: d in data[..i] ==> d.slot != data[i].slot;
    }
  }

  // The state moves of a condense, as the executor interface promises them.
  function Condense<S>(g: Gpu<S>, moves: seq<Move>): Gpu<S> {
    g.(state := ApplyMoves(g.state, moves), last := ApplyMoves(g.last, moves))
  }
}
