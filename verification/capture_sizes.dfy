/** The batch sizes for which decode graphs are captured, and the size a batch is padded to. */
module CaptureSizes {
  import opened Wrappers
  import opened Sorting

  // range(lo, hi, step)
  function Stride(lo: nat, hi: nat, step: nat): seq<nat>
    requires step > 0
    decreases hi - lo
  {
    if lo >= hi then [] else [lo] + Stride(lo + step, hi, step)
  }

  function UpTo(sizes: seq<nat>, max: nat): (r: seq<nat>)
    ensures forall x :: x in r <==> x in sizes && x <= max
  {
    if sizes == [] then [] else (if sizes[0] <= max then [sizes[0]] else []) + UpTo(sizes[1..], max)
  }

  function Elements(sizes: seq<nat>): set<nat> {
    set x | x in sizes
  }

  function Limit(maxSeqs: int, maxTokens: int): int {
    Min(Min(maxSeqs, 512), maxTokens)
  }

  function Strides(max: nat): seq<nat> {
    UpTo([1, 2, 4] + Stride(8, 256, 8) + Stride(256, max + 1, 16), max)
  }

  function Closed(sizes: seq<nat>, max: nat): seq<nat> {
    if sizes == [] || sizes[|sizes| - 1] < max then sizes + [max] else sizes
  }

  function DefaultCaptureSizes(maxSeqs: int, maxTokens: int): seq<nat> {
    var max := Limit(maxSeqs, maxTokens);
    if max < 1 then [] else SortedSeq(Elements(Closed(Strides(max), max)))
  }

  // ---------------------------------------------------------------- the sizes

  ghost predicate Increasing(s: seq<nat>) {
    forall i, j :: 0 <= i < j < |s| ==> s[i] < s[j]
  }

  lemma {:induction false} SortedSeqIncreases(s: set<nat>)
    ensures Increasing(SortedSeq(s))
    ensures forall x :: x in SortedSeq(s) <==> x in s
    decreases |s|
  {
    if s != {} {
      var m := MinOf(s);
      var rest := SortedSeq(s - {m});
      SortedSeqIncreases(s - {m});
      assert forall i :: 0 <= i < |rest| ==> rest[i] in rest;
      assert SortedSeq(s) == [m] + rest;
    }
  }

  predicate Divides(step: nat, x: nat)
    requires step == 8 || step == 16
  {
    if step == 8 then x % 8 == 0 else x % 16 == 0
  }

  lemma {:induction false} StrideElements(lo: nat, hi: nat, step: nat, x: nat)
    requires step == 8 || step == 16
    ensures x in Stride(lo, hi, step) <==> lo <= x < hi && Divides(step, x - lo)
    decreases hi - lo
  {
    if lo < hi {
      StrideElements(lo + step, hi, step, x);
    }
  }

  // What is captured: every size the strides name up to the limit, and the limit.
  predicate OnStride(x: nat) {
    x in {1, 2, 4} || (8 <= x < 256 && x % 8 == 0) || (256 <= x && x % 16 == 0)
  }

  // The captured sizes grow strictly and end at the limit.
  lemma CapturedSizes(maxSeqs: int, maxTokens: int)
    requires Limit(maxSeqs, maxTokens) >= 1
    ensures var sizes := DefaultCaptureSizes(maxSeqs, maxTokens);
      && Increasing(sizes)
      && (forall x :: x in sizes <==> 1 <= x <= Limit(maxSeqs, maxTokens) && (OnStride(x) || x == Limit(maxSeqs, maxTokens)))
      && sizes != [] && sizes[|sizes| - 1] == Limit(maxSeqs, maxTokens)
  {
    hide Strides, OnStride, SortedSeq, Closed, Increasing;
    var max := Limit(maxSeqs, maxTokens);
    var sizes := DefaultCaptureSizes(maxSeqs, maxTokens);
    SortedSeqIncreases(Elements(Closed(Strides(max), max)));
    forall x: nat
      ensures x in sizes <==> 1 <= x <= max && (OnStride(x) || x == max)
    {
      ClosedSizes(max, x);
    }
    LastIsGreatest(sizes, max);
  }

  lemma LastIsGreatest(sizes: seq<nat>, max: nat)
    requires Increasing(sizes) && max in sizes && forall x :: x in sizes ==> x <= max
    ensures sizes != [] && sizes[|sizes| - 1] == max
  {
    assert sizes[|sizes| - 1] in sizes;
  }

  lemma ClosedSizes(max: nat, x: nat)
    requires max >= 1
    ensures x in Closed(Strides(max), max) <==> 1 <= x <= max && (OnStride(x) || x == max)
  {
    hide Strides, OnStride;
    var kept := Strides(max);
    KeptSizes(max, x);
    if kept != [] {
      assert kept[|kept| - 1] in kept;
      KeptSizes(max, kept[|kept| - 1]);
    }
  }

  lemma KeptSizes(max: nat, x: nat)
    ensures x in Strides(max) <==> 1 <= x <= max && OnStride(x)
  {
    hide Stride;
    StrideElements(8, 256, 8, x);
    StrideElements(256, max + 1, 16, x);
  }

  // ---------------------------------------------------------------- padding

  // The smallest captured size that holds a batch.
  ghost predicate IsPadded(sizes: seq<nat>, batch: nat, padded: nat) {
    padded in sizes && padded >= batch && forall s :: s in sizes && s >= batch ==> padded <= s
  }

  // A size on the strides near any batch.
  lemma NextOnStride(b: nat) returns (w: nat)
    requires 1 <= b <= 512
    ensures OnStride(w) && b <= w <= b + 15 && (b <= 256 ==> w <= b + 7)
  {
    if b <= 8 {
      w := if b == 1 then 1 else if b == 2 then 2 else if b <= 4 then 4 else 8;
    } else if b <= 256 {
      w := (b + 7) / 8 * 8;
    } else {
      w := (b + 15) / 16 * 16;
    }
  }

  // With the default sizes and at most 512 sequences, padding never goes past the limit and adds at
  // most 15 rows, at most 7 up to a batch of 256.
  lemma {:induction false} PaddingBound(maxSeqs: int, maxTokens: int, batch: nat, padded: nat)
    requires 1 <= batch <= maxSeqs <= 512 && maxSeqs <= maxTokens
    requires IsPadded(DefaultCaptureSizes(maxSeqs, maxTokens), batch, padded)
    ensures padded <= maxSeqs && padded - batch <= 15 && (batch <= 256 ==> padded - batch <= 7)
  {
    hide DefaultCaptureSizes, OnStride;
    CapturedSizes(maxSeqs, maxTokens);
    var w := NextOnStride(batch);
    assert maxSeqs in DefaultCaptureSizes(maxSeqs, maxTokens);
  }

  // ---------------------------------------------------------------- the graph manager

  class CUDAGraphManager {
    const captureShapes: seq<nat>
    const maxBatchSize: nat
    var captureSizes: seq<nat>
    var bsToPadded: map<nat, nat>
    var entries: set<nat>

    // Without any sizes the first 64 are taken.
    constructor (sizes: seq<nat>, maxBatchSize: nat)
      ensures captureShapes == (if sizes == [] then Stride(1, 65, 1) else sizes)
      ensures this.maxBatchSize == maxBatchSize && entries == {} && Valid()
    {
      var shapes := if sizes == [] then Stride(1, 65, 1) else sizes;
      captureShapes := shapes;
      this.maxBatchSize := maxBatchSize;
      entries := {};
      captureSizes := SortedSeq(Elements(shapes));
      new;
      SortedSeqIncreases(Elements(shapes));
      bsToPadded := ComputeBsToPadded();
    }

    // Every batch size has the least captured size that holds it, if there is one.
    ghost predicate Valid()
      reads this
    {
      && Increasing(captureSizes)
      && (forall s :: s in captureSizes <==> s in captureShapes)
      && IsPaddingTable(bsToPadded, captureSizes, maxBatchSize)
    }

    method ComputeBsToPadded() returns (mapping: map<nat, nat>)
      requires Increasing(captureSizes)
      ensures IsPaddingTable(mapping, captureSizes, maxBatchSize)
    {
      mapping := map[];
      for bs := 1 to maxBatchSize + 1
        invariant IsPaddingTable(mapping, captureSizes, bs - 1)
      {
        var padded := None;
        for i := 0 to |captureSizes|
          invariant padded == None && forall k :: 0 <= k < i ==> captureSizes[k] < bs
        {
          if captureSizes[i] >= bs {
            padded := Some(captureSizes[i]);
            break;
          }
        }
        if padded.Some? {
          mapping := mapping[bs := padded.value];
        }
      }
    }

    method Capture(size: nat)
      requires Valid()
      modifies `entries
      ensures Valid() && entries == old(entries) + {size}
    {
      entries := entries + {size};
    }

    ghost predicate Replayable(batch: nat, padded: nat)
      reads this
    {
      1 <= batch && padded <= maxBatchSize && IsPadded(captureShapes, batch, padded) && padded in entries
    }

    // The size of the graph to replay; None runs the batch without one.
    function GraphWithPadding(batch: nat): (padded: Option<nat>)
      requires Valid()
      reads this
      ensures padded.Some? ==> Replayable(batch, padded.value)
      ensures padded.None? ==> forall p :: !Replayable(batch, p)
    {
      assert forall p :: Replayable(batch, p) ==> IsPadded(captureSizes, batch, p);
      if batch !in bsToPadded || bsToPadded[batch] > maxBatchSize || bsToPadded[batch] !in entries then None
      else Some(bsToPadded[batch])
    }
  }

  ghost predicate IsPaddingTable(mapping: map<nat, nat>, sizes: seq<nat>, maxBatch: nat) {
    && (forall b :: b in mapping ==> 1 <= b <= maxBatch && IsPadded(sizes, b, mapping[b]))
    && (forall b, p :: 1 <= b <= maxBatch && IsPadded(sizes, b, p) ==> b in mapping)
  }
}
