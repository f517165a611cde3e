/** Whole streams: what a run of updates has decoded, where it ends, and when stop strings stay in the text. */
module StopStrings {
  import opened Wrappers
  import opened Utf8
  import opened Detokenizing
  import opened DetokenizingProps

  // The bytes one update stands for, and those of a run of updates.
  function Fed(tokenizer: Option<Tokenizer>, p: Params, ids: seq<nat>, stopTerminated: bool): Bytes {
    BytesOf(tokenizer, p, ReadOf(p, ids, stopTerminated))
  }

  function AllBytes(tokenizer: Option<Tokenizer>, p: Params, inputs: seq<(seq<nat>, bool)>): Bytes {
    if inputs == [] then []
    else AllBytes(tokenizer, p, inputs[..|inputs| - 1]) + Fed(tokenizer, p, inputs[|inputs| - 1].0, inputs[|inputs| - 1].1)
  }

  // The text of the whole stream.
  function Whole(tokenizer: Option<Tokenizer>, p: Params, inputs: seq<(seq<nat>, bool)>): string {
    Decode(AllBytes(tokenizer, p, inputs)).0
  }

  // The tokens a run of updates reads.
  function ReadIds(p: Params, inputs: seq<(seq<nat>, bool)>): seq<nat> {
    if inputs == [] then []
    else ReadIds(p, inputs[..|inputs| - 1]) + ReadOf(p, inputs[|inputs| - 1].0, inputs[|inputs| - 1].1)
  }

  lemma {:induction false} AllBytesAre(tokenizer: Option<Tokenizer>, p: Params, inputs: seq<(seq<nat>, bool)>)
    ensures AllBytes(tokenizer, p, inputs) == BytesOf(tokenizer, p, ReadIds(p, inputs))
  {
    hide ReadOf;
    if inputs != [] {
      var n := |inputs| - 1;
      AllBytesAre(tokenizer, p, inputs[..n]);
      BytesAppend(tokenizer, p, ReadIds(p, inputs[..n]), ReadOf(p, inputs[n].0, inputs[n].1));
    }
  }

  // The length of the text of the first minTokens tokens read.
  function MinRead(tokenizer: Option<Tokenizer>, p: Params, inputs: seq<(seq<nat>, bool)>): nat {
    MinText(tokenizer, p, ReadIds(p, inputs))
  }

  ghost predicate StopsNotEmpty(p: Params) {
    forall st :: st in p.stop ==> st != []
  }

  // ---------------------------------------------------------------- token boundaries, over a run

  lemma UpdateKeeps(d: Detok, ids: seq<nat>, stopTerminated: bool)
    ensures var (d', m) := Update(d, ids, stopTerminated);
      m.None? ==> d'.tokenizer == d.tokenizer && d'.params == d.params
  {
    hide DecodeTokens, TextMatch, ByteMatch;
    TokensSame(d, |d.text|, Decoded(d, ids, stopTerminated));
  }

  // Until a run ends, text and buffer are the decoding of everything fed.
  lemma {:induction false} RunDecodes(tokenizer: Option<Tokenizer>, p: Params, inputs: seq<(seq<nat>, bool)>)
    ensures var r := DeliverAll(Start(tokenizer, p), inputs);
      !r.finished ==>
        && r.d.tokenizer == tokenizer && r.d.params == p
        && Decodes(r.d, AllBytes(tokenizer, p, inputs))
  {
    hide Update, BytesOf, Decode;
    if inputs == [] {
      NothingDecodes(tokenizer, p);
    } else {
      var n := |inputs| - 1;
      RunDecodes(tokenizer, p, inputs[..n]);
      var r := DeliverAll(Start(tokenizer, p), inputs[..n]);
      if !r.finished {
        UpdateKeeps(r.d, inputs[n].0, inputs[n].1);
        if Update(r.d, inputs[n].0, inputs[n].1).1.None? {
          TokenBoundariesDoNotMatter(r.d, inputs[n].0, inputs[n].1, AllBytes(tokenizer, p, inputs[..n]), 0);
        }
      }
    }
  }

  lemma NothingDecodes(tokenizer: Option<Tokenizer>, p: Params)
    ensures Decodes(Fresh(tokenizer, p), [])
  {
  }

  // However a byte stream is cut into tokens and updates: two runs that were fed the same bytes have the
  // same text, the same undecoded bytes and have sent the same, and the text is the longest prefix that
  // is well-formed.
  lemma {:induction false} SameBytesSameText(
      t1: Option<Tokenizer>, inputs1: seq<(seq<nat>, bool)>, t2: Option<Tokenizer>, inputs2: seq<(seq<nat>, bool)>, p: Params)
    requires StopsNotEmpty(p) && AllBytes(t1, p, inputs1) == AllBytes(t2, p, inputs2)
    requires !DeliverAll(Start(t1, p), inputs1).finished && !DeliverAll(Start(t2, p), inputs2).finished
    ensures var r1, r2 := DeliverAll(Start(t1, p), inputs1), DeliverAll(Start(t2, p), inputs2);
      var all := AllBytes(t1, p, inputs1);
      && r1.d.text == r2.d.text && r1.d.buffer == r2.d.buffer && r1.sent == r2.sent
      && EncodeAll(r1.d.text) + r1.d.buffer == all
      && forall k: nat :: k <= |all| && WellFormed(all[..k]) ==> k <= |EncodeAll(r1.d.text)|
  {
    hide DeliverAll, Start, AllBytes, Decode, InStep;
    var all := AllBytes(t1, p, inputs1);
    RunDecodes(t1, p, inputs1);
    RunDecodes(t2, p, inputs2);
    DecodeSplits(all);
    AlwaysInStep(t1, p, inputs1);
    AlwaysInStep(t2, p, inputs2);
    SentIs(DeliverAll(Start(t1, p), inputs1));
    SentIs(DeliverAll(Start(t2, p), inputs2));
    forall k: nat | k <= |all| && WellFormed(all[..k])
      ensures k <= |EncodeAll(Decode(all).0)|
    {
      LongestWellFormedPrefix(all, k);
    }
  }

  lemma SentIs(r: Reader)
    requires InStep(r)
    ensures r.sent == Visible(r.d, r.finished)
  {
  }

  // ---------------------------------------------------------------- where a run ends

  // A run that has not ended.
  ghost predicate Going(tokenizer: Option<Tokenizer>, p: Params, inputs: seq<(seq<nat>, bool)>, r: Reader) {
    && !r.finished && Quiet(r.d) && SentOk(r.d)
    && r.d.tokenizer == tokenizer && r.d.params == p
    && HasRead(r.d, ReadIds(p, inputs))
  }

  // An update that neither ends nor matches has read its tokens.
  lemma UpdateReads(d: Detok, ids: seq<nat>, before: seq<nat>)
    requires HasRead(d, before) && Update(d, ids, false).1.None?
    ensures HasRead(Update(d, ids, false).0, before + ids)
  {
    hide TextMatch, ByteMatch, Extend, BytesOf, Decode;
    if ids == [] {
      assert before + ids == before;
    } else {
      ExtendReads(d, ids, false, before);
    }
  }

  lemma NothingReadYet(tokenizer: Option<Tokenizer>, p: Params)
    ensures HasRead(Fresh(tokenizer, p), [])
  {
  }

  lemma DeltaReads(d: Detok, ids: seq<nat>, finished: bool)
    requires HasRead(d, ids)
    ensures HasRead(NextDelta(d, finished).0, ids)
  {
    hide BytesOf, Decode, Visible;
  }

  lemma {:induction false} RunReads(tokenizer: Option<Tokenizer>, p: Params, inputs: seq<(seq<nat>, bool)>)
    ensures var r := DeliverAll(Start(tokenizer, p), inputs); !r.finished ==> HasRead(r.d, ReadIds(p, inputs))
  {
    hide Update, HasRead, NextDelta;
    if inputs == [] {
      NothingReadYet(tokenizer, p);
    } else {
      var n := |inputs| - 1;
      RunReads(tokenizer, p, inputs[..n]);
      var r := DeliverAll(Start(tokenizer, p), inputs[..n]);
      var (d, m) := Update(r.d, inputs[n].0, inputs[n].1);
      if !r.finished && !inputs[n].1 && m.None? {
        UpdateKeeps(r.d, inputs[n].0, inputs[n].1);
        RunDecodes(tokenizer, p, inputs[..n]);
        UpdateReads(r.d, inputs[n].0, ReadIds(p, inputs[..n]));
        DeltaReads(d, ReadIds(p, inputs), false);
      }
    }
  }

  lemma GoesOn(tokenizer: Option<Tokenizer>, p: Params, inputs: seq<(seq<nat>, bool)>)
    requires StopsNotEmpty(p)
    ensures var r := DeliverAll(Start(tokenizer, p), inputs); r.finished || Going(tokenizer, p, inputs, r)
  {
    hide DeliverAll, Start, AllBytes, Decodes, Quiet, SentOk, HasRead;
    RunDecodes(tokenizer, p, inputs);
    RunReads(tokenizer, p, inputs);
    AlwaysInStep(tokenizer, p, inputs);
  }

  lemma CompletableFront(a: Bytes, b: Bytes)
    requires Completable(a + b)
    ensures Completable(a)
  {
    var x: Bytes :| WellFormed(a + b + x);
    assert a + b + x == a + (b + x);
  }

  lemma {:induction false} CompletablePrefix(tokenizer: Option<Tokenizer>, p: Params, inputs: seq<(seq<nat>, bool)>, k: nat)
    requires k <= |inputs| && Completable(AllBytes(tokenizer, p, inputs))
    ensures Completable(AllBytes(tokenizer, p, inputs[..k]))
    decreases |inputs|
  {
    hide Completable, Fed;
    if k == |inputs| {
      assert inputs[..k] == inputs;
    } else {
      var n := |inputs| - 1;
      CompletableFront(AllBytes(tokenizer, p, inputs[..n]), Fed(tokenizer, p, inputs[n].0, inputs[n].1));
      CompletablePrefix(tokenizer, p, inputs[..n], k);
      assert inputs[..n][..k] == inputs[..k];
    }
  }

  // One stop string: an update matches exactly when the text so far contains it past the minimum.
  lemma {:induction false} ExactStep(
      tokenizer: Option<Tokenizer>, p: Params, inputs: seq<(seq<nat>, bool)>, u: string, r: Reader, next: (seq<nat>, bool))
    requires p.stop == [u] && Going(tokenizer, p, inputs, r)
    requires Completable(AllBytes(tokenizer, p, inputs + [next]))
    ensures var (d', m) := Update(r.d, next.0, next.1);
      var all := inputs + [next];
      && (m.Some? <==> FirstAfter(Whole(tokenizer, p, all), u, MinRead(tokenizer, p, all)).Some?)
      && d'.text == CutAfter(Whole(tokenizer, p, all), u, MinRead(tokenizer, p, all), p.includeStop)
  {
    hide Completable, Decode, Update, AllBytes, Quiet, SentOk, BytesOf, HasRead, FirstAfter, CutAfter, MinText;
    var all := inputs + [next];
    assert all[..|all| - 1] == inputs;
    AllBytesAre(tokenizer, p, all);
    WindowedSearchIsExact(r.d, next.0, next.1, u, ReadIds(p, inputs));
  }

  lemma NoCheck(d: Detok, ids: seq<nat>, stopTerminated: bool)
    requires d.tokenizer.None? || ids == []
    ensures var (d', m) := Update(d, ids, stopTerminated); m.None? && d'.text == d.text
  {
    NoTextWithout(d, ids, stopTerminated);
    TokensSame(d, |d.text|, Decoded(d, ids, stopTerminated));
  }

  lemma NoTextWithout(d: Detok, ids: seq<nat>, stopTerminated: bool)
    ensures d.tokenizer.None? ==> DecodeTokens(d, |d.text|, Decoded(d, ids, stopTerminated)).0.text == d.text
  {
    if d.tokenizer.None? {
      NoTokenizer(d, |d.text|, Decoded(d, ids, stopTerminated));
    }
  }

  // The last of these updates ends the stream: by itself, or because the text now contains the stop string
  // past the text of the first minTokens tokens.
  predicate Ends(tokenizer: Option<Tokenizer>, p: Params, u: string, inputs: seq<(seq<nat>, bool)>) {
    inputs != [] && (inputs[|inputs| - 1].1 || FirstAfter(Whole(tokenizer, p, inputs), u, MinRead(tokenizer, p, inputs)).Some?)
  }

  lemma {:induction false} NotEnded(tokenizer: Option<Tokenizer>, p: Params, u: string, inputs: seq<(seq<nat>, bool)>)
    requires p.stop == [u] && u != [] && Completable(AllBytes(tokenizer, p, inputs))
    requires forall k :: 0 <= k <= |inputs| ==> !Ends(tokenizer, p, u, inputs[..k])
    ensures !DeliverAll(Start(tokenizer, p), inputs).finished
  {
    hide Completable, Going, AllBytes, Update, Fed, Decode, FirstAfter, MinRead;
    if inputs != [] {
      var n := |inputs| - 1;
      assert forall k :: 0 <= k <= n ==> inputs[..n][..k] == inputs[..k];
      CompletablePrefix(tokenizer, p, inputs, n);
      NotEnded(tokenizer, p, u, inputs[..n]);
      GoesOn(tokenizer, p, inputs[..n]);
      assert inputs[..|inputs|] == inputs == inputs[..n] + [inputs[n]];
      ExactStep(tokenizer, p, inputs[..n], u, DeliverAll(Start(tokenizer, p), inputs[..n]), inputs[n]);
    }
  }

  lemma LastBytes(tokenizer: Option<Tokenizer>, p: Params, inputs: seq<(seq<nat>, bool)>)
    requires inputs != []
    ensures AllBytes(tokenizer, p, inputs) ==
      AllBytes(tokenizer, p, inputs[..|inputs| - 1]) + Fed(tokenizer, p, inputs[|inputs| - 1].0, inputs[|inputs| - 1].1)
  {
  }

  lemma {:induction false} FinishedStays(r: Reader, inputs: seq<(seq<nat>, bool)>, k: nat)
    requires k <= |inputs| && DeliverAll(r, inputs[..k]).finished
    ensures DeliverAll(r, inputs) == DeliverAll(r, inputs[..k])
    decreases |inputs|
  {
    if k == |inputs| {
      assert inputs[..k] == inputs;
    } else {
      assert inputs[..|inputs| - 1][..k] == inputs[..k];
      FinishedStays(r, inputs[..|inputs| - 1], k);
    }
  }

  // One stop string, any minimum, good bytes: the run ends with the first update that ends the stream, and
  // what was sent is the text up to there, cut at the first occurrence past the minimum if there is one.
  lemma {:induction false} EndsAtFirstOccurrence(
      tokenizer: Option<Tokenizer>, p: Params, u: string, inputs: seq<(seq<nat>, bool)>, k: nat)
    requires p.stop == [u] && u != [] && Completable(AllBytes(tokenizer, p, inputs))
    requires k <= |inputs| && Ends(tokenizer, p, u, inputs[..k])
    requires forall j :: 0 <= j < k ==> !Ends(tokenizer, p, u, inputs[..j])
    ensures var r := DeliverAll(Start(tokenizer, p), inputs);
      && r.finished && r == DeliverAll(Start(tokenizer, p), inputs[..k])
      && r.sent == r.d.text == CutAfter(Whole(tokenizer, p, inputs[..k]), u, MinRead(tokenizer, p, inputs[..k]), p.includeStop)
  {
    hide Completable, Going, AllBytes, Update, Fed, Decode, FirstAfter, CutAfter, MinRead, InStep, NextDelta;
    var first, n := inputs[..k], k - 1;
    assert first[..n] == inputs[..n] && forall j :: 0 <= j <= n ==> first[..n][..j] == inputs[..j];
    CompletablePrefix(tokenizer, p, inputs, k);
    CompletablePrefix(tokenizer, p, inputs, n);
    NotEnded(tokenizer, p, u, first[..n]);
    GoesOn(tokenizer, p, first[..n]);
    var r := DeliverAll(Start(tokenizer, p), first[..n]);
    assert first == first[..n] + [first[n]];
    ExactStep(tokenizer, p, first[..n], u, r, first[n]);
    DeliveredText(r, first[n].0, first[n].1);
    FinishedStays(Start(tokenizer, p), inputs, k);
    AlwaysInStep(tokenizer, p, first);
    FinishedShowsAll(DeliverAll(Start(tokenizer, p), first));
  }

  lemma DeliveredText(r: Reader, ids: seq<nat>, stopTerminated: bool)
    requires !r.finished
    ensures var (d, m) := Update(r.d, ids, stopTerminated);
      var r' := Deliver(r, ids, stopTerminated);
      && r'.d.text == d.text && r'.d.minOffset == d.minOffset
      && (r'.finished <==> stopTerminated || m.Some?)
  {
    hide Update;
  }

  // So a run has ended if and only if some update ended the stream, and until then nothing is missing.
  lemma {:induction false} EndsIff(tokenizer: Option<Tokenizer>, p: Params, u: string, inputs: seq<(seq<nat>, bool)>)
    requires p.stop == [u] && u != [] && Completable(AllBytes(tokenizer, p, inputs))
    ensures var r := DeliverAll(Start(tokenizer, p), inputs);
      && (r.finished <==> exists k :: 0 <= k <= |inputs| && Ends(tokenizer, p, u, inputs[..k]))
      && (!r.finished ==> r.d.text == Whole(tokenizer, p, inputs))
  {
    hide Completable, AllBytes, Ends, DeliverAll, Start, Decode;
    if exists k :: 0 <= k <= |inputs| && Ends(tokenizer, p, u, inputs[..k]) {
      var k := FirstEnd(tokenizer, p, u, inputs, |inputs|);
      EndsAtFirstOccurrence(tokenizer, p, u, inputs, k);
    } else {
      NotEnded(tokenizer, p, u, inputs);
      RunDecodes(tokenizer, p, inputs);
    }
  }

  lemma {:induction false} FirstEnd(tokenizer: Option<Tokenizer>, p: Params, u: string, inputs: seq<(seq<nat>, bool)>, n: nat)
    returns (k: nat)
    requires n <= |inputs| && exists k :: 0 <= k <= n && Ends(tokenizer, p, u, inputs[..k])
    ensures k <= n && Ends(tokenizer, p, u, inputs[..k]) && forall j :: 0 <= j < k ==> !Ends(tokenizer, p, u, inputs[..j])
  {
    hide Ends;
    if n > 0 && exists k :: 0 <= k <= n - 1 && Ends(tokenizer, p, u, inputs[..k]) {
      k := FirstEnd(tokenizer, p, u, inputs, n - 1);
    } else {
      k := n;
    }
  }

  // ---------------------------------------------------------------- several stop strings

  // A stop string is left in the text, past the first `min` characters, which are not looked at: anywhere
  // there or, where the match itself is kept, before the end.
  ghost predicate StopLeft(p: Params, text: string, min: nat) {
    exists st, i: nat :: st in p.stop && OccursAt(text, st, i) && min < i + |st| && (p.includeStop ==> i + |st| < |text|)
  }

  predicate EndsWith(t: string, u: string) {
    |u| <= |t| && t[|t| - |u|..] == u
  }

  // The first stop string occurs in every other one, at its end if there is a minimum.
  predicate FirstInAll(p: Params) {
    forall u :: u in p.stop ==> if p.minTokens == 0 then Contains(u, p.stop[0]) else EndsWith(u, p.stop[0])
  }

  lemma OccursInside(t: string, st: string, i: nat, a: string, j: nat)
    requires OccursAt(t, st, i) && OccursAt(st, a, j)
    ensures OccursAt(t, a, i + j)
  {
    forall x | 0 <= x < |a| ensures t[i + j + x] == a[x] {
      assert a[x] == st[j + x] == t[i..i + |st|][j + x];
    }
  }

  // Where it occurs in another one that ends past the minimum, it ends past it too.
  lemma FirstOccursIn(p: Params, st: string, text: string, i: nat, min: nat) returns (j: nat)
    requires FirstInAll(p) && StopsNotEmpty(p) && (p.minTokens == 0 ==> min == 0)
    requires st in p.stop && OccursAt(text, st, i) && min < i + |st|
    ensures p.stop != [] && i <= j && OccursAt(text, p.stop[0], j) && min < j + |p.stop[0]| <= i + |st|
  {
    var a := p.stop[0];
    assert a in p.stop;
    var k := if p.minTokens == 0 then Find(st, a, 0).value else |st| - |a|;
    OccursInside(text, st, i, a, k);
    j := i + k;
  }

  // If the first stop string occurs in all of them, it is the one found, at its first occurrence.
  lemma FirstWins(d0: Detok, d: Detok, off: nat)
    requires Quiet(d0) && Extended(d0, d, off) && TextMatch(d, off).Some?
    requires FirstInAll(d.params) && (d.params.minTokens == 0 ==> d.minOffset == 0)
    ensures d.params.stop != []
    ensures var a := d.params.stop[0];
      FirstAfter(d.text, a, d.minOffset).Some? && TextMatch(d, off) == Some((a, FirstAfter(d.text, a, d.minOffset).value))
  {
    StopsOf(d0, d, off);
    hide Quiet, Extended, FirstInAll, FirstAfter;
    SearchTextFinds(d.text, off, d.params.stop);
    OffsetInside(d0, d, off);
    var (st, i) := TextMatch(d, off).value;
    var j := FirstOccursIn(d.params, st, d.text, i, d.minOffset);
    var a := d.params.stop[0];
    assert a in d.params.stop;
    WindowSees(d0, d, off, a);
    FirstAfterIs(d.text, a, d.minOffset);
  }

  lemma StopsOf(d0: Detok, d: Detok, off: nat)
    requires Quiet(d0) && Extended(d0, d, off)
    ensures StopsNotEmpty(d.params)
  {
  }

  // Cutting at the first occurrence of a string all stop strings contain leaves none of them.
  lemma CutLeavesNothing(p: Params, text: string, min: nat)
    requires FirstInAll(p) && StopsNotEmpty(p) && p.stop != [] && (p.minTokens == 0 ==> min == 0)
    requires FirstAfter(text, p.stop[0], min).Some?
    ensures !StopLeft(p, CutAfter(text, p.stop[0], min, p.includeStop), min)
  {
    hide FirstInAll, FirstAfter;
    var a := p.stop[0];
    assert a in p.stop;
    FirstAfterIs(text, a, min);
    var cut := CutAfter(text, a, min, p.includeStop);
    forall st, k: nat | st in p.stop && OccursAt(cut, st, k) && min < k + |st|
      ensures p.includeStop && k + |st| >= |cut|
    {
      var j := FirstOccursIn(p, st, cut, k, min);
      OccursInMore(cut, text, a, j);
    }
  }

  lemma OccursInMore(a: string, b: string, st: string, i: nat)
    requires a <= b && OccursAt(a, st, i)
    ensures OccursAt(b, st, i)
  {
    assert a[i..i + |st|] == b[i..i + |st|];
  }

  lemma QuietLeavesNothing(d: Detok)
    requires Quiet(d)
    ensures !StopLeft(d.params, d.text, d.minOffset)
  {
  }

  // One update of a good stream leaves no stop string that contains the first one.
  lemma {:induction false} StepLeavesNothing(
      tokenizer: Option<Tokenizer>, p: Params, inputs: seq<(seq<nat>, bool)>, r: Reader, ids: seq<nat>, stopTerminated: bool)
    requires StopsNotEmpty(p) && FirstInAll(p) && Going(tokenizer, p, inputs, r)
    requires Completable(AllBytes(tokenizer, p, inputs) + Fed(tokenizer, p, ids, stopTerminated))
    ensures var d' := Update(r.d, ids, stopTerminated).0; !StopLeft(p, d'.text, d'.minOffset)
  {
    hide Completable, AllBytes, Quiet, SentOk, BytesOf, Decodes, Extend, Extended, TextMatch, ByteMatch, StopLeft, FirstInAll;
    var (d', m) := Update(r.d, ids, stopTerminated);
    if m.None? {
      UpdateCorrect(r.d, ids, stopTerminated);
      QuietLeavesNothing(d');
    } else {
      if tokenizer.None? || ids == [] {
        NoCheck(r.d, ids, stopTerminated);
        assert false;
      }
      var (d1, off) := Extend(r.d, ids, stopTerminated);
      UpdateExtends(r.d, ids, stopTerminated);
      var read := ReadIds(p, inputs) + ReadOf(p, ids, stopTerminated);
      ExtendReads(r.d, ids, stopTerminated, ReadIds(p, inputs));
      NothingBefore(tokenizer, p, read);
      AllBytesAre(tokenizer, p, inputs);
      BytesAppend(tokenizer, p, ReadIds(p, inputs), ReadOf(p, ids, stopTerminated));
      MatchLeavesNothing(r.d, d1, off, BytesOf(tokenizer, p, read));
    }
  }

  // Without a minimum the text before it is empty.
  lemma NothingBefore(tokenizer: Option<Tokenizer>, p: Params, ids: seq<nat>)
    ensures p.minTokens == 0 ==> MinText(tokenizer, p, ids) == 0
  {
    assert ids[..0] == [];
  }

  lemma MatchLeavesNothing(d0: Detok, d: Detok, off: nat, all: Bytes)
    requires Quiet(d0) && Extended(d0, d, off) && Decodes(d, all) && Completable(all)
    requires FirstInAll(d.params) && (d.params.minTokens == 0 ==> d.minOffset == 0)
    requires CheckStop(d, off).1.Some?
    ensures var d' := CheckStop(d, off).0; !StopLeft(d.params, d'.text, d'.minOffset)
  {
    hide Quiet, Extended, Decodes, Completable, ByteMatch, TextMatch, StopLeft, FirstInAll;
    if TextMatch(d, off).None? {
      NoByteMatch(d0, d, off, all);
      assert false;
    }
    FirstWins(d0, d, off);
    StopsOf(d0, d, off);
    CutLeavesNothing(d.params, d.text, d.minOffset);
  }

  lemma {:induction false} RunLeavesNothing(tokenizer: Option<Tokenizer>, p: Params, inputs: seq<(seq<nat>, bool)>)
    requires StopsNotEmpty(p) && FirstInAll(p) && Completable(AllBytes(tokenizer, p, inputs))
    ensures var d := DeliverAll(Start(tokenizer, p), inputs).d; !StopLeft(p, d.text, d.minOffset)
  {
    hide Completable, AllBytes, Going, Update, Fed, StopLeft, FirstInAll;
    if inputs == [] {
      FreshInStep(tokenizer, p);
      QuietLeavesNothing(Fresh(tokenizer, p));
    } else {
      var n := |inputs| - 1;
      CompletablePrefix(tokenizer, p, inputs, n);
      LastBytes(tokenizer, p, inputs);
      var r := DeliverAll(Start(tokenizer, p), inputs[..n]);
      if r.finished {
        RunLeavesNothing(tokenizer, p, inputs[..n]);
      } else {
        GoesOn(tokenizer, p, inputs[..n]);
        StepLeavesNothing(tokenizer, p, inputs[..n], r, inputs[n].0, inputs[n].1);
        DeliveredText(r, inputs[n].0, inputs[n].1);
      }
    }
  }

  // ---------------------------------------------------------------- and only then

  // A token for the bytes the minimum covers, one for the bytes after it, and one for nothing.
  function Parts(first: Bytes, rest: Bytes): Option<Tokenizer> {
    Some(Tokenizer([first, rest, []], {}))
  }

  // One update: as many tokens as the minimum asks for, and the rest.
  function PartIds(n: nat): seq<nat> {
    if n == 0 then [] else if n == 1 then [0] else PartIds(n - 1) + [2]
  }

  function InOne(p: Params): seq<(seq<nat>, bool)> {
    [(PartIds(p.minTokens) + [1], false)]
  }

  lemma {:induction false} PartBytes(p: Params, n: nat, first: Bytes, rest: Bytes)
    ensures |PartIds(n)| == n && BytesOf(Parts(first, rest), p, PartIds(n)) == if n == 0 then [] else first
  {
    if n == 1 {
      BytesSnoc(Parts(first, rest), p, [], 0);
      assert [] + [0] == [0] && [] + first == first;
    } else if n > 1 {
      PartBytes(p, n - 1, first, rest);
      BytesSnoc(Parts(first, rest), p, PartIds(n - 1), 2);
      assert first + [] == first;
    }
  }

  // What the detokenizer holds of the update when it looks for stop strings.
  function AfterParts(p: Params, first: Bytes, rest: Bytes): (Detok, nat) {
    Extend(Fresh(Parts(first, rest), p), PartIds(p.minTokens) + [1], false)
  }

  lemma {:induction false} PartsRead(p: Params, first: Bytes, rest: Bytes)
    requires StopsNotEmpty(p) && (p.minTokens == 0 ==> first == [])
    ensures AllBytes(Parts(first, rest), p, InOne(p)) == first + rest
    ensures var (d, off) := AfterParts(p, first, rest);
      && d.params == p && (d.text, d.buffer) == Decode(first + rest) && d.minOffset == off == |Decode(first).0|
    ensures var (d, off) := AfterParts(p, first, rest);
      var after := DeliverAll(Start(Parts(first, rest), p), InOne(p)).d;
      after.text == CheckStop(d, off).0.text && after.minOffset == d.minOffset
  {
    hide DecodeTokens, NextDelta, CheckStop, BytesOf, Decode, Quiet;
    var t, ids := Parts(first, rest), PartIds(p.minTokens) + [1];
    PartBytes(p, p.minTokens, first, rest);
    BytesSnoc(t, p, PartIds(p.minTokens), 1);
    assert BytesOf(t, p, ids) == first + rest;
    assert InOne(p)[..0] == [] && [] + ids == ids && [] + (first + rest) == first + rest;
    assert ids[..p.minTokens] == PartIds(p.minTokens);
    FreshInStep(t, p);
    NothingReadYet(t, p);
    UpdateExtends(Fresh(t, p), ids, false);
    ExtendReads(Fresh(t, p), ids, false, []);
    AllBytesAre(t, p, InOne(p));
    assert ReadIds(p, InOne(p)[..0]) == [];
    DeliveredText(Start(t, p), ids, false);
    CheckKeepsMinimum(AfterParts(p, first, rest).0, AfterParts(p, first, rest).1);
  }

  lemma CheckKeepsMinimum(d: Detok, off: nat)
    ensures CheckStop(d, off).0.minOffset == d.minOffset
  {
    hide TextMatch, ByteMatch;
  }

  // A character that does not end `a`, and as many of them as `a` is long.
  function Other(a: string): char
    requires a != []
  {
    if a[|a| - 1] == 'x' then 'y' else 'x'
  }

  function Repeat(c: char, n: nat): string {
    seq(n, _ => c)
  }

  // All of `u` but its last character where there is a minimum.
  function Front(p: Params, u: string): string
    requires u != []
  {
    if p.minTokens == 0 then [] else u[..|u| - 1]
  }

  // `u` does not hold the first stop string where this would be seen in time.
  predicate Apart(p: Params, u: string)
    requires p.stop != []
  {
    if p.minTokens == 0 then !Contains(u, p.stop[0]) else !EndsWith(u, p.stop[0])
  }

  // `u`, filling, the first stop string.
  function Leaving(p: Params, u: string): string
    requires p.stop != [] && p.stop[0] != []
  {
    u + Repeat(Other(p.stop[0]), |p.stop[0]|) + p.stop[0]
  }

  lemma NotBefore(p: Params, u: string, i: nat)
    requires p.stop != [] && p.stop[0] != [] && u != [] && Apart(p, u)
    requires i < |u| && |Front(p, u)| < i + |p.stop[0]|
    ensures !OccursAt(Leaving(p, u), p.stop[0], i)
  {
    var a, t := p.stop[0], Leaving(p, u);
    assert forall k :: |u| <= k < |u| + |a| ==> t[k] == Other(a);
    if i + |a| <= |u| {
      assert t[i..i + |a|] == u[i..i + |a|];
      assert p.minTokens == 0 ==> !OccursAt(u, a, i);
      assert p.minTokens != 0 ==> i + |a| == |u| && u[i..i + |a|] == u[|u| - |a|..];
    } else {
      assert t[i..i + |a|][|a| - 1] == t[i + |a| - 1];
    }
  }

  // Between `u` and a later `a` nothing but these: the first `a` past the front starts after `u`.
  lemma FirstIsLater(p: Params, u: string)
    requires p.stop != [] && p.stop[0] != [] && u != [] && Apart(p, u)
    ensures var a, t := p.stop[0], Leaving(p, u);
      && OccursAt(t, u, 0) && |Front(p, u)| < |u| < |t| && Front(p, u) <= t
      && Find(t, a, WindowStart(|Front(p, u)|, a)).Some? && |u| <= Find(t, a, WindowStart(|Front(p, u)|, a)).value
  {
    var a, t, m := p.stop[0], Leaving(p, u), |Front(p, u)|;
    var x := u + Repeat(Other(a), |a|);
    assert t == x + a && t[|x|..] == a && OccursAt(t, a, |x|);
    assert t[..|u|] == u;
    hide OccursAt, Leaving, Apart, Front;
    forall i: nat | i < |u| && WindowStart(m, a) <= i ensures !OccursAt(t, a, i) {
      NotBefore(p, u, i);
    }
  }

  // Such a stop string can be left by one update of well-formed bytes.
  lemma {:induction false} OneUpdateLeaves(p: Params, u: string)
    requires StopsNotEmpty(p) && u in p.stop && Apart(p, u)
    ensures exists tokenizer ::
      && Completable(AllBytes(tokenizer, p, InOne(p)))
      && var d := DeliverAll(Start(tokenizer, p), InOne(p)).d; StopLeft(p, d.text, d.minOffset)
  {
    hide DeliverAll, Start, AllBytes, Decode, EncodeAll, ByteMatch, Apart, Leaving, InOne, AfterParts;
    var a := p.stop[0];
    assert a in p.stop;
    var t, v := Leaving(p, u), Front(p, u);
    FirstIsLater(p, u);
    hide Front;
    var first, rest := EncodeAll(v), EncodeAll(t[|v|..]);
    assert v + t[|v|..] == t;
    EncodeAllAppend(v, t[|v|..]);
    DecodeOfEncodeAll(v);
    DecodeOfEncodeAll(t);
    NoFront(p, u);
    PartsRead(p, first, rest);
    assert Completable(first + rest) by { assert first + rest + [] == first + rest; assert WellFormed(first + rest + []); }
    var (d, off) := AfterParts(p, first, rest);
    var i := Find(t, a, WindowStart(|v|, a)).value;
    assert TextMatch(d, off) == Some((a, i));
    var cut := if p.includeStop then t[..i + |a|] else t[..i];
    assert CheckStop(d, off).0.text == cut;
    assert cut[0..|u|] == u;
    assert OccursAt(cut, u, 0);
    assert StopLeft(p, cut, d.minOffset);
  }

  lemma NoFront(p: Params, u: string)
    requires u != []
    ensures p.minTokens == 0 ==> EncodeAll(Front(p, u)) == []
  {
  }

  // No good stream, however tokenized, leaves a stop string.
  ghost predicate NothingLeft(p: Params) {
    forall tokenizer, inputs :: Completable(AllBytes(tokenizer, p, inputs)) ==>
      var d := DeliverAll(Start(tokenizer, p), inputs).d; !StopLeft(p, d.text, d.minOffset)
  }

  // With several stop strings the text past the minimum is free of them, whatever is generated, if and only
  // if the first of the list occurs in every other one, at its end if there is a minimum.
  lemma {:induction false} NothingLeftIff(p: Params)
    requires StopsNotEmpty(p)
    ensures NothingLeft(p) <==> FirstInAll(p)
  {
    hide Contains, EndsWith, StopLeft, Completable, AllBytes, DeliverAll, Start;
    if FirstInAll(p) {
      forall tokenizer, inputs | Completable(AllBytes(tokenizer, p, inputs))
        ensures var d := DeliverAll(Start(tokenizer, p), inputs).d; !StopLeft(p, d.text, d.minOffset)
      {
        RunLeavesNothing(tokenizer, p, inputs);
      }
    } else {
      var u :| u in p.stop && if p.minTokens == 0 then !Contains(u, p.stop[0]) else !EndsWith(u, p.stop[0]);
      OneUpdateLeaves(p, u);
    }
  }

  // ---------------------------------------------------------------- bad bytes

  // A byte that starts no character, the stop string, filling, the stop string again.
  function BadBytes(p: Params): Bytes
    requires p.stop != []
  {
    [0xFF] + EncodeAll(p.stop[0]) + Filling(MaxBytes(p.stop) + 1) + EncodeAll(p.stop[0])
  }

  function Filling(n: nat): Bytes {
    seq(n, _ => 0x78)
  }

  lemma {:induction false} MaxBytesBounds(stops: seq<string>, st: string)
    requires st in stops
    ensures |EncodeAll(st)| <= MaxBytes(stops)
  {
    if st != stops[0] {
      MaxBytesBounds(stops[1..], st);
    }
  }

  // The byte search looks at the end only.
  lemma MatchIsLate(p: Params)
    requires p.stop != []
    ensures var b := EncodeAll(p.stop[0]);
      var r := SearchBytes(BadBytes(p), 0, MaxBytes(p.stop), p.stop);
      r.Some? && r.value.0 == p.stop[0] && |b| + 2 <= r.value.1 && OccursAt(BadBytes(p), b, r.value.1)
  {
    hide EncodeAll, MaxBytes;
    var b, m := EncodeAll(p.stop[0]), MaxBytes(p.stop);
    assert BadBytes(p)[1 + |b| + m + 1..] == b;
    assert OccursAt(BadBytes(p), b, 1 + |b| + m + 1);
    assert ByteStart(BadBytes(p), 0, m, p.stop[0]) == |b| + 2;
  }

  // What is kept of them has the first stop string in it.
  lemma BadBytesIgnored(p: Params, end: nat)
    requires p.stop != [] && |EncodeAll(p.stop[0])| + 2 <= end <= |BadBytes(p)|
    ensures var text := DecodeIgnore(BadBytes(p)[..end]); p.stop[0] <= text && |p.stop[0]| < |text|
  {
    hide EncodeAll, MaxBytes;
    var a := p.stop[0];
    var b := EncodeAll(a);
    var rest := BadBytes(p)[2 + |b|..end];
    assert BadBytes(p)[..end] == [0xFF] + (b + ([0x78] + rest));
    assert BadBytes(p)[..end][1..] == b + ([0x78] + rest);
    assert Width(BadBytes(p)[..end]) == 0;
    IgnoreKeepsText(a, [0x78] + rest);
    assert Width([0x78] + rest) == 1;
  }

  lemma {:induction false} BadUpdateLeaves(p: Params)
    requires StopsNotEmpty(p) && p.stop != []
    ensures var d := DeliverAll(Start(Parts([], BadBytes(p)), p), InOne(p)).d; StopLeft(p, d.text, d.minOffset)
  {
    hide DeliverAll, Start, AllBytes, DecodeIgnore, BadBytes, SearchBytes, MaxBytes, InOne, AfterParts;
    var bytes := BadBytes(p);
    assert [] + bytes == bytes && EncodeAll([]) == [] && Decode([]).0 == [];
    PartsRead(p, [], bytes);
    NothingDecoded(p);
    var (d, off) := AfterParts(p, [], bytes);
    MatchIsLate(p);
    var i := SearchBytes(bytes, 0, MaxBytes(p.stop), p.stop).value.1;
    assert ByteMatch(d) == Some((p.stop[0], i)) by { assert MinBytes(d) == 0; }
    var end := if p.includeStop then i + |EncodeAll(p.stop[0])| else i;
    BadBytesIgnored(p, end);
    assert p.stop[0] in p.stop;
    assert OccursAt(DecodeIgnore(bytes[..end]), p.stop[0], 0);
  }

  lemma NothingDecoded(p: Params)
    requires p.stop != []
    ensures Decode(BadBytes(p)) == ([], BadBytes(p)) && BadBytes(p) != []
  {
    assert BadBytes(p)[0] == 0xFF;
  }

  // On bytes that are no UTF-8 a stop string can always be left: the promise needs a good stream.
  lemma {:induction false} NothingEverLeftIff(p: Params)
    requires StopsNotEmpty(p)
    ensures (forall tokenizer, inputs ::
               var d := DeliverAll(Start(tokenizer, p), inputs).d; !StopLeft(p, d.text, d.minOffset)) <==> p.stop == []
  {
    hide DeliverAll, Start, InOne, Parts, BadBytes;
    if p.stop != [] {
      BadUpdateLeaves(p);
    }
  }
}
