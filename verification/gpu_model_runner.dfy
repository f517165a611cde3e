/** The runner object: rows of state and cached tokens in arrays, one row per slot. */
module GpuModelRunner {
  import opened Wrappers
  import opened Requests
  import opened Sorting
  import opened StateSlots
  import opened Scheduling
  import opened SchedulingInvariants
  import opened ModelRunner
  import opened Flattening

  class GPUModelRunner<S> {
    const model: Rnn<S>
    const slotManager: StateSlotManager
    const state: array<S>
    const lastSampledToken: array<Token>
    const inputIds: array<Token>
    const queryStartLoc: array<nat>
    var minPrev: Option<int>

    constructor (model: Rnn<S>, slotManager: StateSlotManager, maxSeqs: nat, maxBatchedTokens: nat)
      ensures this.model == model && this.slotManager == slotManager
      ensures fresh(state) && fresh(lastSampledToken) && fresh(inputIds) && fresh(queryStartLoc) && Valid()
      ensures state.Length == maxSeqs && inputIds.Length == maxBatchedTokens && queryStartLoc.Length == maxSeqs + 1
      ensures View() == Gpu(seq(maxSeqs, _ => model.zero), seq(maxSeqs, _ => -1), None)
    {
      this.model, this.slotManager := model, slotManager;
      state := new S[maxSeqs](_ => model.zero);
      lastSampledToken := new Token[maxSeqs](_ => -1);
      inputIds := new Token[maxBatchedTokens](_ => 0);
      queryStartLoc := new nat[maxSeqs + 1](_ => 0);
      minPrev := None;
    }

    ghost predicate Valid() {
      && state.Length == lastSampledToken.Length
      && Apart(state, lastSampledToken) && Apart(inputIds, lastSampledToken) && Apart(queryStartLoc, lastSampledToken)
      && Apart(inputIds, state) && Apart(queryStartLoc, state) && Apart(queryStartLoc, inputIds)
    }

    function View(): Gpu<S>
      reads this, state, lastSampledToken
    {
      Gpu(state[..], lastSampledToken[..], minPrev)
    }

    // ---------------------------------------------------------------- one forward pass

    method ExecuteModel(data: seq<RunData>, captured: Option<nat>) returns (ok: bool)
      requires Valid() && DistinctSlots(data, state.Length) && Feedable(lastSampledToken[..], data)
      requires SumTokens(data) <= inputIds.Length && |data| < queryStartLoc.Length
      requires Consistent(slotManager.View()) && slotManager.padSlots == [] && slotManager.maxSlots <= state.Length
      requires forall d :: d in data ==> d.slot !in slotManager.freeSlots
      modifies `minPrev, state, lastSampledToken, inputIds, queryStartLoc, slotManager
      ensures slotManager.View() == old(slotManager.View())
      ensures match Execute(model, old(View()), old(slotManager.View()), data, captured)
        case None => !ok
        case Some(g) => ok && View() == g
    {
      if data == [] {
        return true;
      }
      var uniform := IsUniformDecode(data);
      if uniform {
        ok := ExecuteUniformDecode(data, captured);
      } else {
        ExecuteEager(data);
        ok := true;
      }
    }

    // _is_uniform_decode
    method IsUniformDecode(data: seq<RunData>) returns (uniform: bool)
      ensures uniform == IsUniform(data)
    {
      if SumTokens(data) == 0 || SumTokens(data) != |data| {
        return false;
      }
      for i := 0 to |data|
        invariant forall k :: 0 <= k < i ==> data[k].isDecode
      {
        if !data[i].isDecode {
          return false;
        }
      }
      uniform := true;
    }

    method ExecuteEager(data: seq<RunData>)
      requires Valid() && DistinctSlots(data, state.Length) && Feedable(lastSampledToken[..], data)
      requires SumTokens(data) <= inputIds.Length && |data| < queryStartLoc.Length
      modifies state, inputIds, queryStartLoc
      ensures state[..] == Forward(model, old(state[..]), lastSampledToken[..], data)
    {
      hide Forward, Zeroed, Flat, Offsets, Feed, TokensOf, Lengths;
      ghost var before, last := state[..], lastSampledToken[..];
      ZeroNewStates(data);
      var total := PrepareInputIds(data);
      var tokens, starts := inputIds[..total], queryStartLoc[..|data| + 1];
      SegmentsFit(last, data);
      ForwardFlat(SlotList(data), tokens, starts);
      EagerIsForward(model, before, state[..], last, data);
    }

    // Zero state for new requests.
    method ZeroNewStates(data: seq<RunData>)
      requires forall d :: d in data ==> d.slot < state.Length
      modifies state
      ensures state[..] == Zeroed(model, old(state[..]), data)
    {
      for i := 0 to |data|
        invariant state[..] == Zeroed(model, old(state[..]), data[..i])
      {
        assert data[..i + 1] == data[..i] + [data[i]];
        ZeroedMore(model, old(state[..]), data[..i], data[i]);
        if !data[i].isDecode && data[i].computed == 0 {
          state[data[i].slot] := model.zero;
        }
      }
      assert data[..|data|] == data;
    }

    // Build the flat tokens and their offsets in the preallocated buffers.
    method PrepareInputIds(data: seq<RunData>) returns (total: nat)
      requires Valid() && Feedable(lastSampledToken[..], data)
      requires SumTokens(data) <= inputIds.Length && |data| < queryStartLoc.Length
      modifies inputIds, queryStartLoc
      ensures total == SumTokens(data) <= inputIds.Length
      ensures inputIds[..total] == Flat(lastSampledToken[..], data)
      ensures queryStartLoc[..|data| + 1] == Offsets(Lengths(data))
    {
      ghost var last := lastSampledToken[..];
      var tokens := CollectTokens(data);
      var offsets := Accumulate(data);
      FlatLength(lastSampledToken[..], data);
      total := |tokens|;
      forall k | 0 <= k < total {
        inputIds[k] := tokens[k];
      }
      assert inputIds[..total] == tokens;
      forall k | 0 <= k < |offsets| {
        queryStartLoc[k] := offsets[k];
      }
      assert inputIds[..total] == tokens && lastSampledToken[..] == last;
    }

    method CollectTokens(data: seq<RunData>) returns (tokens: seq<Token>)
      requires Feedable(lastSampledToken[..], data)
      ensures tokens == Flat(lastSampledToken[..], data)
    {
      tokens := [];
      for i := 0 to |data|
        invariant tokens == Flat(lastSampledToken[..], data[..i])
      {
        assert data[..i + 1][..i] == data[..i];
        match data[i].input
        case Some(chunk) => tokens := tokens + chunk;
        case None => tokens := tokens + [lastSampledToken[data[i].slot]];
      }
      assert data[..|data|] == data;
    }

    // The model call: every segment is fed to the row of its slot.
    method ForwardFlat(slots: seq<nat>, tokens: seq<Token>, starts: seq<nat>)
      requires |starts| == |slots| + 1 && forall i :: 0 <= i < |slots| ==> Fits(starts, |tokens|, i)
      requires DistinctRows(slots, state.Length)
      modifies state
      ensures forall i :: 0 <= i < |slots| ==> state[slots[i]] == Feed(model, old(state[slots[i]]), Segment(tokens, starts, i))
      ensures forall k :: 0 <= k < state.Length && k !in slots ==> state[k] == old(state[k])
    {
      for i := 0 to |slots|
        invariant forall j :: 0 <= j < i ==> state[slots[j]] == Feed(model, old(state[slots[j]]), Segment(tokens, starts, j))
        invariant forall j :: i <= j < |slots| ==> state[slots[j]] == old(state[slots[j]])
        invariant forall k :: 0 <= k < state.Length && k !in slots ==> state[k] == old(state[k])
      {
        state[slots[i]] := Feed(model, state[slots[i]], Segment(tokens, starts, i));
      }
    }

    // ---------------------------------------------------------------- uniform decode

    // One token for every row, with borrowed rows filling the batch up to a captured size.
    method ExecuteUniformDecode(data: seq<RunData>, captured: Option<nat>) returns (ok: bool)
      requires Valid() && DistinctSlots(data, state.Length) && Feedable(lastSampledToken[..], data) && IsUniform(data)
      requires Consistent(slotManager.View()) && slotManager.padSlots == [] && slotManager.maxSlots <= state.Length
      requires forall d :: d in data ==> d.slot !in slotManager.freeSlots
      modifies `minPrev, state, lastSampledToken, slotManager
      ensures slotManager.View() == old(slotManager.View())
      ensures match Execute(model, old(View()), old(slotManager.View()), data, captured)
        case None => !ok
        case Some(g) => ok && View() == g
    {
      hide Consistent, Forward, Feed, MinToken, SumTokens, ReleasePads;
      ghost var slots0, rows, last := slotManager.View(), state[..], lastSampledToken[..];
      var slots := SlotList(data);
      var tokens := Gather(slots);
      if minPrev.Some? && minPrev.value < 0 {
        return false;
      }
      minPrev := MinTokenOf(data);
      var pads := [];
      if captured.Some? && captured.value > |data| && captured.value - |data| <= |slotManager.freeSlots| {
        var reserved := slotManager.ReservePadSlots(captured.value - |data|);
        pads := reserved.value;
      }
      assert pads == PadsFor(slots0, |data|, captured);
      PadsApart(slots0, |pads|);
      Replay(slots, tokens, pads);
      if pads != [] {
        slotManager.ReleasePadSlots();
      }
      ReleaseUndoesReserve(slots0, |pads|);
      UniformIsForward(model, rows, state[..], last, data, pads);
      ok := true;
    }

    // The pass over the batch and the borrowed rows, which are cleared before and after.
    method Replay(slots: seq<nat>, tokens: seq<Token>, pads: seq<nat>)
      requires Valid() && |tokens| == |slots| && DistinctRows(slots + pads, state.Length)
      requires forall i :: 0 <= i < |slots| ==> slots[i] < state.Length
      modifies state, lastSampledToken
      ensures forall i :: 0 <= i < |slots| ==> state[slots[i]] == Feed(model, old(state[slots[i]]), [tokens[i]])
      ensures forall k :: 0 <= k < state.Length && k in pads ==> state[k] == model.zero
      ensures forall k :: 0 <= k < state.Length && k !in slots && k !in pads ==> state[k] == old(state[k])
      ensures lastSampledToken[..] == SetRows(old(lastSampledToken[..]), pads, 0)
    {
      hide Feed;
      ghost var rows := state[..];
      ghost var all := slots + pads;
      assert forall i :: 0 <= i < |pads| ==> all[|slots| + i] == pads[i];
      assert forall i :: 0 <= i < |slots| ==> all[i] == slots[i];
      ClearRows(pads);
      var flat, starts := tokens + seq(|pads|, _ => 0), Range(0, |slots + pads| + 1);
      ForwardFlat(slots + pads, flat, starts);
      forall i | 0 <= i < |slots|
        ensures state[slots[i]] == Feed(model, rows[slots[i]], [tokens[i]])
      {
        assert all[i] == slots[i] && Segment(flat, starts, i) == [tokens[i]];
      }
      ClearRows(pads);
    }

    method MinTokenOf(data: seq<RunData>) returns (m: Option<int>)
      requires forall d :: d in data ==> d.slot < lastSampledToken.Length
      ensures m == MinToken(lastSampledToken[..], data)
    {
      m := None;
      var i := |data|;
      while i > 0
        invariant 0 <= i <= |data| && m == MinToken(lastSampledToken[..], data[i..])
      {
        i := i - 1;
        assert data[i..][1..] == data[i + 1..];
        var t := lastSampledToken[data[i].slot];
        m := match m case None => Some(t) case Some(u) => Some(if t <= u then t else u);
      }
      assert data[0..] == data;
    }

    method Gather(slots: seq<nat>) returns (tokens: seq<Token>)
      requires forall i :: 0 <= i < |slots| ==> slots[i] < lastSampledToken.Length
      ensures |tokens| == |slots| && forall i :: 0 <= i < |slots| ==> tokens[i] == lastSampledToken[slots[i]]
    {
      tokens := [];
      for i := 0 to |slots|
        invariant |tokens| == i && forall k :: 0 <= k < i ==> tokens[k] == lastSampledToken[slots[k]]
      {
        tokens := tokens + [lastSampledToken[slots[i]]];
      }
    }

    // Zero rows and cached token of the borrowed slots.
    method ClearRows(rows: seq<nat>)
      requires Valid() && forall i :: 0 <= i < |rows| ==> rows[i] < state.Length
      modifies state, lastSampledToken
      ensures state[..] == SetRows(old(state[..]), rows, model.zero)
      ensures lastSampledToken[..] == SetRows(old(lastSampledToken[..]), rows, 0)
    {
      for i := 0 to |rows|
        invariant forall k :: 0 <= k < state.Length ==> state[k] == if k in rows[..i] then model.zero else old(state[k])
        invariant forall k :: 0 <= k < lastSampledToken.Length ==>
          lastSampledToken[k] == if k in rows[..i] then 0 else old(lastSampledToken[k])
      {
        assert rows[..i + 1] == rows[..i] + [rows[i]];
        state[rows[i]] := model.zero;
        lastSampledToken[rows[i]] := 0;
      }
      assert rows[..|rows|] == rows;
    }

    // ---------------------------------------------------------------- sampling and moving

    // Samples for decodes and last chunks and writes the tokens to the per-slot cache.
    method SampleTokens(data: seq<RunData>, oracle: map<ReqId, nat>) returns (sampled: map<ReqId, Token>)
      requires Valid() && forall d :: d in data ==> d.slot < lastSampledToken.Length
      modifies lastSampledToken
      ensures sampled == Sampled(data, oracle)
      ensures lastSampledToken[..] == WriteBack(old(lastSampledToken[..]), data, sampled)
    {
      var need := CollectNeed(data);
      NeedIs(data);
      sampled := Sampled(data, oracle);
      WriteBackNeeds(lastSampledToken[..], data, sampled);
      StoreTokens(need, sampled);
    }

    method CollectNeed(data: seq<RunData>) returns (need: seq<RunData>)
      ensures need == Need(data)
    {
      need := [];
      for i := 0 to |data|
        invariant need == Need(data[..i])
      {
        assert data[..i + 1][..i] == data[..i];
        if Samples(data[i]) {
          need := need + [data[i]];
        }
      }
      assert data[..|data|] == data;
    }

    // With the slots 0..n-1 in order the tokens are copied in one block.
    method StoreTokens(need: seq<RunData>, sampled: map<ReqId, Token>)
      requires forall d :: d in need ==> Samples(d) && d.id in sampled && d.slot < lastSampledToken.Length
      modifies lastSampledToken
      ensures lastSampledToken[..] == WriteBack(old(lastSampledToken[..]), need, sampled)
    {
      ghost var last := lastSampledToken[..];
      var positions := SlotList(need);
      if positions == Range(0, |need|) {
        for i := 0 to |need|
          invariant lastSampledToken[..] == WriteBack(last, need[..i], sampled)
        {
          assert need[..i + 1][..i] == need[..i] && positions[i] == i && need[i] in need;
          lastSampledToken[i] := sampled[need[i].id];
        }
      } else {
        for i := 0 to |need|
          invariant lastSampledToken[..] == WriteBack(last, need[..i], sampled)
        {
          assert need[..i + 1][..i] == need[..i] && need[i] in need;
          lastSampledToken[positions[i]] := sampled[need[i].id];
        }
      }
      assert need[..|need|] == need;
    }

    // The state moves of a condense, one copy after the other.
    method CondenseRows(moves: seq<Move>)
      requires Valid() && forall m :: m in moves ==> m.src < state.Length && m.dst < state.Length
      modifies state, lastSampledToken
      ensures View() == ModelRunner.Condense(old(View()), moves)
    {
      for i := 0 to |moves|
        invariant state[..] == ApplyMoves(old(state[..]), moves[..i])
        invariant lastSampledToken[..] == ApplyMoves(old(lastSampledToken[..]), moves[..i])
      {
        assert moves[..i + 1][..i] == moves[..i];
        state[moves[i].dst] := state[moves[i].src];
        lastSampledToken[moves[i].dst] := lastSampledToken[moves[i].src];
      }
      assert moves[..|moves|] == moves;
    }
  }

  // The records of a batch that get a token.
  function Need(data: seq<RunData>): seq<RunData> {
    if data == [] then []
    else Need(data[..|data| - 1]) + if Samples(data[|data| - 1]) then [data[|data| - 1]] else []
  }

  lemma {:induction false} NeedIs(data: seq<RunData>)
    ensures forall d :: d in Need(data) <==> d in data && Samples(d)
  {
    if data != [] {
      NeedIs(data[..|data| - 1]);
      assert data == data[..|data| - 1] + [data[|data| - 1]];
    }
  }

  lemma {:induction false} WriteBackNeeds(last: seq<Token>, data: seq<RunData>, sampled: map<ReqId, Token>)
    ensures WriteBack(last, Need(data), sampled) == WriteBack(last, data, sampled)
  {
    if data != [] {
      WriteBackNeeds(last, data[..|data| - 1], sampled);
      var d := data[|data| - 1];
      if Samples(d) {
        assert Need(data)[..|Need(data)| - 1] == Need(data[..|data| - 1]);
      } else {
        assert Need(data) == Need(data[..|data| - 1]);
      }
    }
  }

  ghost predicate Apart(a: object, b: object) {
    a != b
  }

  method Accumulate(data: seq<RunData>) returns (offsets: seq<nat>)
    ensures offsets == Offsets(Lengths(data))
  {
    var sum := 0;
    offsets := [0];
    for i := 0 to |data|
      invariant offsets == Offsets(Lengths(data[..i])) && sum == Sum(Lengths(data[..i]))
    {
      assert data[..i + 1][..i] == data[..i];
      assert Lengths(data[..i + 1])[..i] == Lengths(data[..i]);
      sum := sum + data[i].numTokens;
      offsets := offsets + [sum];
    }
    assert data[..|data|] == data;
  }

  ghost predicate DistinctRows(slots: seq<nat>, rows: nat) {
    && (forall i :: 0 <= i < |slots| ==> slots[i] < rows)
    && (forall i, j :: 0 <= i < j < |slots| ==> slots[i] != slots[j])
  }

  predicate Fits(starts: seq<nat>, total: nat, i: nat) {
    i + 1 < |starts| && starts[i] <= starts[i + 1] <= total
  }

  function Segment(tokens: seq<Token>, starts: seq<nat>, i: nat): seq<Token>
    requires Fits(starts, |tokens|, i)
  {
    tokens[starts[i]..starts[i + 1]]
  }

  function SlotList(data: seq<RunData>): (s: seq<nat>)
    ensures |s| == |data| && forall i :: 0 <= i < |data| ==> s[i] == data[i].slot
  {
    seq(|data|, i requires 0 <= i < |data| => data[i].slot)
  }

  // Every record has its tokens at hand: a chunk of the announced length, or one cached token.
  ghost predicate Feedable(last: seq<Token>, data: seq<RunData>) {
    && (forall d :: d in data ==> |TokensOf(last, d)| == d.numTokens && d.slot < |last|)
    && (forall d :: d in data ==> (d.isDecode <==> d.input.None?))
  }

  lemma SegmentsFit(last: seq<Token>, data: seq<RunData>)
    requires Feedable(last, data)
    ensures |Flat(last, data)| == SumTokens(data)
    ensures forall i :: 0 <= i < |data| ==> Fits(Offsets(Lengths(data)), |Flat(last, data)|, i)
    ensures forall i :: 0 <= i < |data| ==> Segment(Flat(last, data), Offsets(Lengths(data)), i) == TokensOf(last, data[i])
  {
    FlatLength(last, data);
    forall i | 0 <= i < |data|
      ensures Fits(Offsets(Lengths(data)), |Flat(last, data)|, i)
      ensures Segment(Flat(last, data), Offsets(Lengths(data)), i) == TokensOf(last, data[i])
    {
      SegmentsAreTokens(last, data, i);
    }
  }

  function Zeroed<S>(m: Rnn<S>, state: seq<S>, data: seq<RunData>): (r: seq<S>)
    ensures |r| == |state|
  {
    if data == [] then state
    else
      var r := Zeroed(m, state, data[..|data| - 1]);
      var d := data[|data| - 1];
      if !d.isDecode && d.computed == 0 && d.slot < |r| then r[d.slot := m.zero] else r
  }

  lemma ZeroedMore<S>(m: Rnn<S>, state: seq<S>, data: seq<RunData>, d: RunData)
    ensures Zeroed(m, state, data + [d]) ==
      var r := Zeroed(m, state, data);
      if !d.isDecode && d.computed == 0 && d.slot < |r| then r[d.slot := m.zero] else r
  {
    assert (data + [d])[..|data|] == data;
  }

  // Zeroing first gives each record the row it starts from.
  lemma {:induction false} ZeroedIsBase<S>(m: Rnn<S>, state: seq<S>, data: seq<RunData>)
    requires DistinctSlots(data, |state|)
    ensures forall d :: d in data ==> Zeroed(m, state, data)[d.slot] == Base(m, state, d)
    ensures forall k :: 0 <= k < |state| && (forall d :: d in data ==> d.slot != k) ==> Zeroed(m, state, data)[k] == state[k]
  {
    if data != [] {
      var i := |data| - 1;
      assert forall d :: d in data <==> d in data[..i] || d == data[i];
      ZeroedIsBase(m, state, data[..i]);
      assert forall d :: d in data[..i] ==> d.slot != data[i].slot;
    }
  }

  lemma PadsApart(st: Slots, n: nat)
    requires Consistent(st) && n <= |st.free|
    ensures forall i, j :: 0 <= i < j < n ==> st.free[i] != st.free[j]
    ensures forall i :: 0 <= i < n ==> st.free[i] < st.maxSlots
  {
    forall i | 0 <= i < n
      ensures st.free[i] < st.maxSlots && multiset(st.free)[st.free[i]] == 1
    {
      RangeElements(0, st.maxSlots, st.free[i]);
      assert (multiset(st.free) + multiset(st.pad) + multiset(st.slotToReq.Keys))[st.free[i]] >= multiset(st.free)[st.free[i]];
    }
    forall i, j | 0 <= i < j < n
      ensures st.free[i] != st.free[j]
    {
      assert st.free == st.free[..j] + st.free[j..];
      assert multiset(st.free)[st.free[i]] == multiset(st.free[..j])[st.free[i]] + multiset(st.free[j..])[st.free[i]];
      assert st.free[..j][i] == st.free[i] && st.free[j..][0] == st.free[j];
    }
  }

  // Feeding one cached token to each row, with the borrowed rows cleared after, is the forward pass.
  lemma UniformIsForward<S>(m: Rnn<S>, before: seq<S>, after: seq<S>, last: seq<Token>, data: seq<RunData>, pads: seq<nat>)
    requires DistinctSlots(data, |before|) && |after| == |before| == |last| && IsUniform(data)
    requires forall i :: 0 <= i < |data| ==> data[i].input.None? && data[i].slot !in pads
    requires forall i :: 0 <= i < |data| ==> after[data[i].slot] == Feed(m, before[data[i].slot], [last[data[i].slot]])
    requires forall k :: 0 <= k < |before| && k in pads ==> after[k] == m.zero
    requires forall k :: 0 <= k < |before| && k !in SlotList(data) && k !in pads ==> after[k] == before[k]
    ensures after == SetRows(Forward(m, before, last, data), pads, m.zero)
  {
    hide Forward, Feed;
    ForwardIsolated(m, before, last, data);
    forall k | 0 <= k < |before|
      ensures after[k] == SetRows(Forward(m, before, last, data), pads, m.zero)[k]
    {
      if i :| 0 <= i < |data| && data[i].slot == k {
        assert data[i] in data;
      } else {
        assert forall d :: d in data ==> d.slot != k;
        assert k !in SlotList(data);
      }
    }
  }

  // Zeroing, flattening and feeding every segment is the forward pass.
  lemma EagerIsForward<S>(m: Rnn<S>, before: seq<S>, after: seq<S>, last: seq<Token>, data: seq<RunData>)
    requires DistinctSlots(data, |before|) && |after| == |before|
    requires forall i :: 0 <= i < |data| ==>
      after[data[i].slot] == Feed(m, Zeroed(m, before, data)[data[i].slot], TokensOf(last, data[i]))
    requires forall k :: 0 <= k < |before| && k !in SlotList(data) ==> after[k] == Zeroed(m, before, data)[k]
    ensures after == Forward(m, before, last, data)
  {
    hide Forward, Zeroed, TokensOf;
    ForwardIsolated(m, before, last, data);
    ZeroedIsBase(m, before, data);
    forall k | 0 <= k < |before|
      ensures after[k] == Forward(m, before, last, data)[k]
    {
      if i :| 0 <= i < |data| && data[i].slot == k {
        assert data[i] in data;
      } else {
        assert forall d :: d in data ==> d.slot != k;
        assert k !in SlotList(data);
      }
    }
  }
}
