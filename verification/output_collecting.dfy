/** Request outputs on their way to a consumer: snapshots, and the single-slot merging collector. */
module OutputCollecting {
  import opened Wrappers

  datatype Completion = Completion(index: nat, text: string, tokenIds: seq<int>, finishReason: Option<string>)

  datatype RequestOutput = RequestOutput(outputs: seq<Completion>, finished: bool, finishReason: Option<string>)

  function MergeInto(c: Completion, next: Completion, aggregate: bool): Completion {
    if aggregate then c.(text := c.text + next.text, tokenIds := c.tokenIds + next.tokenIds, finishReason := next.finishReason)
    else next
  }

  // One completion of the newer output: merged into the first with its index, or appended.
  function MergeOne(outs: seq<Completion>, next: Completion, aggregate: bool): seq<Completion> {
    if outs == [] then [next]
    else if outs[0].index == next.index then [MergeInto(outs[0], next, aggregate)] + outs[1..]
    else [outs[0]] + MergeOne(outs[1..], next, aggregate)
  }

  function MergeAll(outs: seq<Completion>, nexts: seq<Completion>, aggregate: bool): seq<Completion>
    decreases |nexts|
  {
    if nexts == [] then outs else MergeAll(MergeOne(outs, nexts[0], aggregate), nexts[1..], aggregate)
  }

  // RequestOutput.add
  function Add(o: RequestOutput, next: RequestOutput, aggregate: bool): RequestOutput {
    RequestOutput(
      MergeAll(o.outputs, next.outputs, aggregate),
      o.finished || next.finished,
      if next.finishReason.Some? then next.finishReason else o.finishReason)
  }

  // put(): an empty slot takes the output, a full one merges it.
  function Put(slot: Option<RequestOutput>, o: RequestOutput, aggregate: bool): Option<RequestOutput> {
    match slot
    case None => Some(o)
    case Some(held) => Some(Add(held, o, aggregate))
  }

  // ---------------------------------------------------------------- what a consumer gets

  // At most one completion per index, as every output is built.
  ghost predicate OneEach(outs: seq<Completion>) {
    forall i, j :: 0 <= i < j < |outs| ==> outs[i].index != outs[j].index
  }

  function TextOf(outs: seq<Completion>, k: nat): string {
    if outs == [] then [] else (if outs[0].index == k then outs[0].text else []) + TextOf(outs[1..], k)
  }

  function IdsOf(outs: seq<Completion>, k: nat): seq<int> {
    if outs == [] then [] else (if outs[0].index == k then outs[0].tokenIds else []) + IdsOf(outs[1..], k)
  }

  lemma {:induction false} NoneOfIndex(outs: seq<Completion>, k: nat)
    requires forall c :: c in outs ==> c.index != k
    ensures TextOf(outs, k) == [] && IdsOf(outs, k) == []
  {
    if outs != [] {
      NoneOfIndex(outs[1..], k);
    }
  }

  lemma {:induction false} MergeOneIndices(outs: seq<Completion>, next: Completion, aggregate: bool)
    requires OneEach(outs)
    ensures OneEach(MergeOne(outs, next, aggregate))
    ensures forall c :: c in MergeOne(outs, next, aggregate) ==> c.index == next.index || exists e :: e in outs && e.index == c.index
  {
    if outs != [] && outs[0].index != next.index {
      MergeOneIndices(outs[1..], next, aggregate);
      var r := MergeOne(outs[1..], next, aggregate);
      assert forall i :: 0 <= i < |r| ==> r[i] in r && r[i].index != outs[0].index;
    }
  }

  lemma RestLacks(outs: seq<Completion>)
    requires OneEach(outs) && outs != []
    ensures OneEach(outs[1..]) && forall c :: c in outs[1..] ==> c.index != outs[0].index
  {
  }

  lemma OfFirst(c: Completion, rest: seq<Completion>, k: nat)
    ensures TextOf([c] + rest, k) == (if c.index == k then c.text else []) + TextOf(rest, k)
    ensures IdsOf([c] + rest, k) == (if c.index == k then c.tokenIds else []) + IdsOf(rest, k)
  {
  }

  lemma {:induction false} MergeOneDelta(outs: seq<Completion>, next: Completion, k: nat)
    requires OneEach(outs)
    ensures TextOf(MergeOne(outs, next, true), k) == TextOf(outs, k) + if next.index == k then next.text else []
    ensures IdsOf(MergeOne(outs, next, true), k) == IdsOf(outs, k) + if next.index == k then next.tokenIds else []
  {
    if outs == [] {
      assert [next][1..] == [];
    } else {
      hide OneEach, TextOf, IdsOf;
      var rest := outs[1..];
      assert outs == [outs[0]] + rest;
      RestLacks(outs);
      OfFirst(outs[0], rest, k);
      if outs[0].index == next.index {
        OfFirst(MergeInto(outs[0], next, true), rest, k);
        if k == next.index {
          NoneOfIndex(rest, k);
          assert TextOf(outs, k) == outs[0].text && IdsOf(outs, k) == outs[0].tokenIds;
        }
      } else {
        OfFirst(outs[0], MergeOne(rest, next, true), k);
        MergeOneDelta(rest, next, k);
      }
    }
  }

  lemma {:induction false} MergeAllDelta(outs: seq<Completion>, nexts: seq<Completion>, k: nat)
    requires OneEach(outs)
    ensures OneEach(MergeAll(outs, nexts, true))
    ensures TextOf(MergeAll(outs, nexts, true), k) == TextOf(outs, k) + TextOf(nexts, k)
    ensures IdsOf(MergeAll(outs, nexts, true), k) == IdsOf(outs, k) + IdsOf(nexts, k)
    decreases |nexts|
  {
    if nexts != [] {
      MergeOneIndices(outs, nexts[0], true);
      MergeOneDelta(outs, nexts[0], k);
      MergeAllDelta(MergeOne(outs, nexts[0], true), nexts[1..], k);
    }
  }

  lemma {:induction false} MergeOneLatest(outs: seq<Completion>, next: Completion)
    ensures next in MergeOne(outs, next, false)
    ensures forall c :: c in outs && c.index != next.index ==> c in MergeOne(outs, next, false)
  {
    if outs != [] && outs[0].index != next.index {
      MergeOneLatest(outs[1..], next);
    }
  }

  lemma {:induction false} MergeAllLatest(outs: seq<Completion>, nexts: seq<Completion>)
    requires OneEach(nexts)
    ensures forall c :: c in nexts ==> c in MergeAll(outs, nexts, false)
    ensures forall c :: c in outs && (forall n :: n in nexts ==> n.index != c.index) ==> c in MergeAll(outs, nexts, false)
    decreases |nexts|
  {
    if nexts != [] {
      MergeOneLatest(outs, nexts[0]);
      MergeAllLatest(MergeOne(outs, nexts[0], false), nexts[1..]);
      assert forall n :: n in nexts[1..] ==> n.index != nexts[0].index;
      assert forall c :: c in nexts <==> c == nexts[0] || c in nexts[1..];
    }
  }

  // ---------------------------------------------------------------- producer, slot and consumer

  // Puts and gets in some order, with everything produced and everything received so far.
  datatype Exchange = Exchange(slot: Option<RequestOutput>, produced: seq<RequestOutput>, received: seq<RequestOutput>)

  datatype Call = PutCall(o: RequestOutput) | GetCall

  function Do(x: Exchange, c: Call, aggregate: bool): Exchange {
    match c
    case PutCall(o) => x.(slot := Put(x.slot, o, aggregate), produced := x.produced + [o])
    case GetCall => if x.slot.None? then x else x.(slot := None, received := x.received + [x.slot.value])
  }

  function DoAll(calls: seq<Call>, aggregate: bool): Exchange {
    if calls == [] then Exchange(None, [], []) else Do(DoAll(calls[..|calls| - 1], aggregate), calls[|calls| - 1], aggregate)
  }

  function Texts(os: seq<RequestOutput>, k: nat): string {
    if os == [] then [] else Texts(os[..|os| - 1], k) + TextOf(os[|os| - 1].outputs, k)
  }

  function Ids(os: seq<RequestOutput>, k: nat): seq<int> {
    if os == [] then [] else Ids(os[..|os| - 1], k) + IdsOf(os[|os| - 1].outputs, k)
  }

  predicate AnyFinished(os: seq<RequestOutput>) {
    exists i :: 0 <= i < |os| && os[i].finished
  }

  // The finish reason last given.
  function Reason(os: seq<RequestOutput>): Option<string> {
    if os == [] then None
    else if os[|os| - 1].finishReason.Some? then os[|os| - 1].finishReason
    else Reason(os[..|os| - 1])
  }

  // What the consumer has, together with what waits in the slot.
  function Seen(x: Exchange): seq<RequestOutput> {
    x.received + if x.slot.Some? then [x.slot.value] else []
  }

  ghost predicate WellBuilt(calls: seq<Call>) {
    forall c :: c in calls && c.PutCall? ==> OneEach(c.o.outputs)
  }

  lemma Snoc(os: seq<RequestOutput>, o: RequestOutput, k: nat)
    ensures Texts(os + [o], k) == Texts(os, k) + TextOf(o.outputs, k)
    ensures Ids(os + [o], k) == Ids(os, k) + IdsOf(o.outputs, k)
    ensures AnyFinished(os + [o]) <==> AnyFinished(os) || o.finished
    ensures Reason(os + [o]) == if o.finishReason.Some? then o.finishReason else Reason(os)
  {
    assert (os + [o])[..|os|] == os;
    if AnyFinished(os) {
      var i :| 0 <= i < |os| && os[i].finished;
      assert (os + [o])[i].finished;
    }
    assert (os + [o])[|os|] == o;
  }

  ghost predicate DeltaInv(x: Exchange, k: nat) {
    && Texts(Seen(x), k) == Texts(x.produced, k)
    && Ids(Seen(x), k) == Ids(x.produced, k)
    && (AnyFinished(Seen(x)) <==> AnyFinished(x.produced)) && Reason(Seen(x)) == Reason(x.produced)
    && (x.slot.Some? ==> OneEach(x.slot.value.outputs))
  }

  lemma PutKeepsDelta(x: Exchange, o: RequestOutput, k: nat)
    requires DeltaInv(x, k) && OneEach(o.outputs)
    ensures DeltaInv(Do(x, PutCall(o), true), k)
  {
    hide Texts, Ids, TextOf, IdsOf, MergeAll, AnyFinished, Reason, OneEach;
    Snoc(x.produced, o, k);
    match x.slot
    case None =>
      assert Seen(x) == x.received;
      Snoc(x.received, o, k);
    case Some(held) =>
      Snoc(x.received, held, k);
      Snoc(x.received, Add(held, o, true), k);
      MergeAllDelta(held.outputs, o.outputs, k);
  }

  // Lossless collector, delta mode: whatever the order of puts and gets, text, token ids and the
  // finished flag reach the consumer unchanged.
  lemma {:induction false} DeltaLossless(calls: seq<Call>, k: nat)
    requires WellBuilt(calls)
    ensures DeltaInv(DoAll(calls, true), k)
  {
    if calls != [] {
      var n := |calls| - 1;
      assert calls[n] in calls && forall c :: c in calls[..n] ==> c in calls;
      DeltaLossless(calls[..n], k);
      var x := DoAll(calls[..n], true);
      if calls[n].PutCall? {
        PutKeepsDelta(x, calls[n].o, k);
      } else if x.slot.Some? {
        assert Seen(Do(x, GetCall, true)) == Seen(x);
      }
    }
  }

  predicate Shows(a: seq<Completion>, b: seq<Completion>) {
    forall c :: c in b ==> c in a
  }

  // The newest snapshot a consumer has or will get next shows every completion last produced, and what
  // waits shows one for each index.
  ghost predicate LatestInv(x: Exchange) {
    && (x.produced != [] ==>
          && Seen(x) != []
          && Shows(Seen(x)[|Seen(x)| - 1].outputs, x.produced[|x.produced| - 1].outputs))
    && (AnyFinished(Seen(x)) <==> AnyFinished(x.produced)) && Reason(Seen(x)) == Reason(x.produced)
    && (x.slot.Some? ==> OneEach(x.slot.value.outputs))
  }

  lemma {:induction false} MergeAllIndices(outs: seq<Completion>, nexts: seq<Completion>, aggregate: bool)
    requires OneEach(outs)
    ensures OneEach(MergeAll(outs, nexts, aggregate))
    decreases |nexts|
  {
    if nexts != [] {
      MergeOneIndices(outs, nexts[0], aggregate);
      MergeAllIndices(MergeOne(outs, nexts[0], aggregate), nexts[1..], aggregate);
    }
  }

  lemma PutKeepsLatest(x: Exchange, o: RequestOutput)
    requires LatestInv(x) && OneEach(o.outputs)
    ensures LatestInv(Do(x, PutCall(o), false))
  {
    hide Texts, Ids, TextOf, IdsOf, MergeAll, AnyFinished, Reason, OneEach;
    Snoc(x.produced, o, 0);
    match x.slot
    case None =>
      assert Seen(x) == x.received;
      Snoc(x.received, o, 0);
    case Some(held) =>
      Snoc(x.received, held, 0);
      Snoc(x.received, Add(held, o, false), 0);
      MergeAllLatest(held.outputs, o.outputs);
      MergeAllIndices(held.outputs, o.outputs, false);
  }

  // Lossless collector, cumulative mode: the consumer always has the latest snapshot next.
  lemma {:induction false} CumulativeLatest(calls: seq<Call>)
    requires WellBuilt(calls)
    ensures LatestInv(DoAll(calls, false))
  {
    if calls != [] {
      var n := |calls| - 1;
      assert calls[n] in calls && forall c :: c in calls[..n] ==> c in calls;
      CumulativeLatest(calls[..n]);
      var x := DoAll(calls[..n], false);
      if calls[n].PutCall? {
        PutKeepsLatest(x, calls[n].o);
      } else if x.slot.Some? {
        assert Seen(Do(x, GetCall, false)) == Seen(x);
      }
    }
  }

  // ---------------------------------------------------------------- the finish reason of each completion

  // The reason given for completion k.
  function ReasonIn(outs: seq<Completion>, k: nat): Option<Option<string>> {
    if outs == [] then None else if outs[0].index == k then Some(outs[0].finishReason) else ReasonIn(outs[1..], k)
  }

  // The reason last given for it.
  function LastReason(os: seq<RequestOutput>, k: nat): Option<Option<string>> {
    if os == [] then None
    else if ReasonIn(os[|os| - 1].outputs, k).Some? then ReasonIn(os[|os| - 1].outputs, k)
    else LastReason(os[..|os| - 1], k)
  }

  lemma {:induction false} MergeOneReason(outs: seq<Completion>, next: Completion, aggregate: bool, k: nat)
    ensures ReasonIn(MergeOne(outs, next, aggregate), k) == if next.index == k then Some(next.finishReason) else ReasonIn(outs, k)
  {
    if outs != [] {
      var r := MergeOne(outs, next, aggregate);
      if outs[0].index == next.index {
        assert r[1..] == outs[1..];
      } else {
        MergeOneReason(outs[1..], next, aggregate, k);
        assert r[1..] == MergeOne(outs[1..], next, aggregate);
      }
    }
  }

  lemma {:induction false} MergeAllReason(outs: seq<Completion>, nexts: seq<Completion>, aggregate: bool, k: nat)
    requires OneEach(nexts)
    ensures ReasonIn(MergeAll(outs, nexts, aggregate), k) == if ReasonIn(nexts, k).Some? then ReasonIn(nexts, k) else ReasonIn(outs, k)
    decreases |nexts|
  {
    if nexts != [] {
      MergeOneReason(outs, nexts[0], aggregate, k);
      MergeAllReason(MergeOne(outs, nexts[0], aggregate), nexts[1..], aggregate, k);
      if nexts[0].index == k {
        NoReason(nexts[1..], k);
      }
    }
  }

  lemma {:induction false} NoReason(outs: seq<Completion>, k: nat)
    requires forall c :: c in outs ==> c.index != k
    ensures ReasonIn(outs, k) == None
  {
    if outs != [] {
      NoReason(outs[1..], k);
    }
  }

  lemma LastReasonSnoc(os: seq<RequestOutput>, o: RequestOutput, k: nat)
    ensures LastReason(os + [o], k) == if ReasonIn(o.outputs, k).Some? then ReasonIn(o.outputs, k) else LastReason(os, k)
  {
    assert (os + [o])[..|os|] == os;
  }

  // In both modes and however puts and gets alternate: of each completion the consumer has the finish
  // reason last produced for it.
  lemma {:induction false} ReasonsKept(calls: seq<Call>, aggregate: bool, k: nat)
    requires WellBuilt(calls)
    ensures var x := DoAll(calls, aggregate); LastReason(Seen(x), k) == LastReason(x.produced, k)
  {
    hide ReasonIn, MergeAll, LastReason, OneEach;
    if calls == [] {
      assert Seen(DoAll(calls, aggregate)) == [] == DoAll(calls, aggregate).produced;
    } else {
      var n := |calls| - 1;
      assert calls[n] in calls && forall c :: c in calls[..n] ==> c in calls;
      ReasonsKept(calls[..n], aggregate, k);
      var x := DoAll(calls[..n], aggregate);
      match calls[n]
      case PutCall(o) =>
        LastReasonSnoc(x.produced, o, k);
        if x.slot.None? {
          assert Seen(x) == x.received;
          LastReasonSnoc(x.received, o, k);
        } else {
          LastReasonSnoc(x.received, x.slot.value, k);
          LastReasonSnoc(x.received, Add(x.slot.value, o, aggregate), k);
          MergeAllReason(x.slot.value.outputs, o.outputs, aggregate, k);
        }
      case GetCall =>
        assert Seen(Do(x, GetCall, aggregate)) == Seen(x);
    }
  }
}
