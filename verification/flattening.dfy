/** A batch as one flat row of tokens with offsets, and the way back to the requests. */
module Flattening {
  import opened Wrappers
  import opened Requests
  import opened Scheduling
  import opened SchedulingInvariants
  import opened ModelRunner

  function Lengths(data: seq<RunData>): (l: seq<nat>)
    ensures |l| == |data|
  {
    if data == [] then [] else Lengths(data[..|data| - 1]) + [data[|data| - 1].numTokens]
  }

  function Sum(lens: seq<nat>): nat {
    if lens == [] then 0 else Sum(lens[..|lens| - 1]) + lens[|lens| - 1]
  }

  // [0] followed by the running sums
  function Offsets(lens: seq<nat>): (o: seq<nat>)
    ensures |o| == |lens| + 1
  {
    if lens == [] then [0] else Offsets(lens[..|lens| - 1]) + [Sum(lens)]
  }

  // The tokens of every record, one record after the other.
  function Flat(last: seq<Token>, data: seq<RunData>): seq<Token> {
    if data == [] then [] else Flat(last, data[..|data| - 1]) + TokensOf(last, data[|data| - 1])
  }

  function MaxLength(lens: seq<nat>): (m: nat)
    ensures forall i :: 0 <= i < |lens| ==> lens[i] <= m
    ensures lens == [] ==> m == 1
  {
    if lens == [] then 1
    else if |lens| == 1 then lens[0]
    else
      var m := MaxLength(lens[..|lens| - 1]);
      if lens[|lens| - 1] > m then lens[|lens| - 1] else m
  }

  // ---------------------------------------------------------------- offsets and segments

  lemma {:induction false} OffsetsSum(lens: seq<nat>, i: nat)
    requires i <= |lens|
    ensures Offsets(lens)[i] == Sum(lens[..i])
    ensures i < |lens| ==> Offsets(lens)[i + 1] == Offsets(lens)[i] + lens[i]
    ensures Offsets(lens)[i] <= Sum(lens)
  {
    if i == |lens| {
      assert lens[..i] == lens;
    } else {
      var init := lens[..|lens| - 1];
      OffsetsSum(init, i);
      assert init[..i] == lens[..i];
      if i == |lens| - 1 {
        assert init[..i] == init;
      }
    }
  }

  // Token t lies in segment i.
  predicate InSegment(starts: seq<nat>, i: nat, t: nat)
    requires i + 1 < |starts|
  {
    starts[i] <= t < starts[i + 1]
  }

  lemma {:induction false} OffsetsAscend(lens: seq<nat>, i: nat, j: nat)
    requires i <= j <= |lens|
    ensures Offsets(lens)[i] <= Offsets(lens)[j]
    decreases j
  {
    if i < j {
      OffsetsAscend(lens, i, j - 1);
      OffsetsSum(lens, j - 1);
    }
  }

  // Every token lies in exactly one segment.
  lemma {:induction false} SegmentExists(lens: seq<nat>, t: nat) returns (i: nat)
    requires t < Sum(lens)
    ensures i < |lens| && InSegment(Offsets(lens), i, t)
  {
    var n := |lens| - 1;
    OffsetsSum(lens, n);
    OffsetsSum(lens, n + 1);
    assert lens[..n + 1] == lens;
    if t >= Sum(lens[..n]) {
      i := n;
    } else {
      i := SegmentExists(lens[..n], t);
    }
  }

  lemma {:induction false} SegmentUnique(lens: seq<nat>, i: nat, j: nat, t: nat)
    requires i < |lens| && j < |lens|
    requires InSegment(Offsets(lens), i, t) && InSegment(Offsets(lens), j, t)
    ensures i == j
  {
    hide Offsets;
    if i < j {
      OffsetsAscend(lens, i + 1, j);
    } else if j < i {
      OffsetsAscend(lens, j + 1, i);
    }
  }

  // The offsets find each record's own tokens in the flat row.
  lemma {:induction false} SegmentsAreTokens(last: seq<Token>, data: seq<RunData>, i: nat)
    requires i < |data| && forall d :: d in data ==> |TokensOf(last, d)| == d.numTokens
    ensures |Flat(last, data)| == Sum(Lengths(data))
    ensures var o := Offsets(Lengths(data));
      o[i] <= o[i + 1] <= |Flat(last, data)| && Flat(last, data)[o[i]..o[i + 1]] == TokensOf(last, data[i])
  {
    hide TokensOf, Sum;
    var n := |data| - 1;
    var lens := Lengths(data);
    assert lens[..n] == Lengths(data[..n]);
    FlatLength(last, data);
    FlatLength(last, data[..n]);
    OffsetsSum(lens, n);
    OffsetsSum(lens, n + 1);
    assert lens[..n + 1] == lens;
    if i < n {
      SegmentsAreTokens(last, data[..n], i);
      assert Offsets(lens)[..n + 1] == Offsets(lens[..n]);
      assert Offsets(lens)[i] == Offsets(lens[..n])[i] && Offsets(lens)[i + 1] == Offsets(lens[..n])[i + 1];
      assert Flat(last, data)[..|Flat(last, data[..n])|] == Flat(last, data[..n]);
    }
  }

  lemma {:induction false} FlatLength(last: seq<Token>, data: seq<RunData>)
    requires forall d :: d in data ==> |TokensOf(last, d)| == d.numTokens
    ensures |Flat(last, data)| == Sum(Lengths(data)) == SumTokens(data)
  {
    if data != [] {
      FlatLength(last, data[..|data| - 1]);
    }
  }

  // ---------------------------------------------------------------- uniform batches

  // total_tokens == B * max_t holds exactly when no segment is shorter than the longest.
  lemma {:induction false} UniformIff(lens: seq<nat>, max: nat)
    requires forall i :: 0 <= i < |lens| ==> lens[i] <= max
    ensures Sum(lens) <= |lens| * max
    ensures Sum(lens) == |lens| * max <==> forall i :: 0 <= i < |lens| ==> lens[i] == max
  {
    if lens != [] {
      var n := |lens| - 1;
      assert forall i :: 0 <= i < n ==> lens[..n][i] == lens[i];
      UniformIff(lens[..n], max);
      assert (n + 1) * max == n * max + max;
    }
  }

  method IsUniformBatch(lens: seq<nat>) returns (uniform: bool)
    ensures uniform <==> forall i :: 0 <= i < |lens| ==> lens[i] == MaxLength(lens)
  {
    UniformIff(lens, MaxLength(lens));
    uniform := Sum(lens) == |lens| * MaxLength(lens);
  }

  // ---------------------------------------------------------------- the loops

  // _build_req_id: the segment of every token.
  method BuildReqId(lens: seq<nat>, queryStartLoc: seq<nat>, total: nat) returns (reqId: array<int>)
    requires queryStartLoc == Offsets(lens) && total == Sum(lens)
    ensures fresh(reqId) && reqId.Length == total
    ensures forall t, i :: 0 <= t < total && 0 <= i < |lens| ==> (reqId[t] == i <==> InSegment(queryStartLoc, i, t))
    ensures forall t :: 0 <= t < total ==> 0 <= reqId[t] < |lens|
  {
    reqId := new int[total];
    var batch := |queryStartLoc| - 1;
    for i := 0 to batch
      invariant forall t, k :: 0 <= t < total && 0 <= k < i && InSegment(queryStartLoc, k, t) ==> reqId[t] == k
    {
      OffsetsSum(lens, i);
      OffsetsSum(lens, i + 1);
      var start, end := queryStartLoc[i], queryStartLoc[i + 1];
      forall t, k | 0 <= t < total && 0 <= k < i && InSegment(queryStartLoc, k, t)
        ensures !(start <= t < end)
      {
        if start <= t < end {
          SegmentUnique(lens, k, i, t);
        }
      }
      forall t | start <= t < end {
        reqId[t] := i;
      }
    }
    forall t | 0 <= t < total
      ensures 0 <= reqId[t] < |lens| && InSegment(queryStartLoc, reqId[t], t)
    {
      var i := SegmentExists(lens, t);
    }
    forall t, i, j | 0 <= t < total && 0 <= i < |lens| && 0 <= j < |lens| && InSegment(queryStartLoc, i, t) && InSegment(queryStartLoc, j, t)
      ensures i == j
    {
      SegmentUnique(lens, i, j, t);
    }
  }
}
