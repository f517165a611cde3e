/** The text of a run in terms of all tokens generated: which are read, which are not, and how much is held back. */
module GeneratedText {
  import opened Wrappers
  import opened Utf8
  import opened Detokenizing
  import opened DetokenizingProps
  import opened StopStrings
  import G = Greedy

  // ---------------------------------------------------------------- the token that ends a request

  // Where the text must not show what ends it, the token the engine ends a request with is not looked at:
  // any other in its place gives the same text, the same match and the same state.
  lemma LastTokenUnread(d: Detok, ids: seq<nat>, t: nat, u: nat)
    requires !d.params.includeStop
    ensures Update(d, ids + [t], true) == Update(d, ids + [u], true)
  {
    hide DecodeTokens, CheckStop;
    assert (ids + [t])[..|ids|] == (ids + [u])[..|ids|] == ids;
  }

  // Every other token is read: without stop strings one update adds the text of its tokens.
  lemma {:induction false} EveryOtherTokenIsRead(d: Detok, ids: seq<nat>, t: nat, before: seq<nat>)
    requires Decodes(d, BytesOf(d.tokenizer, d.params, before)) && d.params.stop == []
    ensures forall ended :: ended && !d.params.includeStop ==>
      Decodes(Update(d, ids + [t], ended).0, BytesOf(d.tokenizer, d.params, before + ids))
    ensures forall ended :: !ended || d.params.includeStop ==>
      Decodes(Update(d, ids + [t], ended).0, BytesOf(d.tokenizer, d.params, before + ids + [t]))
  {
    hide Decodes, BytesOf, Update;
    assert (ids + [t])[..|ids|] == ids;
    forall ended: bool ensures
      Decodes(Update(d, ids + [t], ended).0, BytesOf(d.tokenizer, d.params, before) + BytesOf(d.tokenizer, d.params, ReadOf(d.params, ids + [t], ended)))
    {
      WithoutStopsNoMatch(d, ids + [t], ended);
      TokenBoundariesDoNotMatter(d, ids + [t], ended, BytesOf(d.tokenizer, d.params, before), 0);
    }
    BytesAppend(d.tokenizer, d.params, before, ids);
    BytesAppend(d.tokenizer, d.params, before, ids + [t]);
    assert before + (ids + [t]) == before + ids + [t];
  }

  lemma WithoutStopsNoMatch(d: Detok, ids: seq<nat>, stopTerminated: bool)
    requires d.params.stop == []
    ensures Update(d, ids, stopTerminated).1.None?
  {
    hide EncodeAll, DecodeTokens;
    TokensSame(d, |d.text|, Decoded(d, ids, stopTerminated));
  }

  // ---------------------------------------------------------------- a whole run

  // All tokens generated.
  function Generated(inputs: seq<(seq<nat>, bool)>): seq<nat> {
    if inputs == [] then [] else Generated(inputs[..|inputs| - 1]) + inputs[|inputs| - 1].0
  }

  // Updates of which none but the last may end the request.
  predicate EndsLast(inputs: seq<(seq<nat>, bool)>) {
    forall i :: 0 <= i < |inputs| - 1 ==> !inputs[i].1
  }

  lemma {:induction false} AllAreRead(p: Params, inputs: seq<(seq<nat>, bool)>)
    requires forall i :: 0 <= i < |inputs| ==> !inputs[i].1
    ensures ReadIds(p, inputs) == Generated(inputs)
  {
    if inputs != [] {
      AllAreRead(p, inputs[..|inputs| - 1]);
    }
  }

  // The tokens whose text is wanted: all of them, less the one the engine ended with if that is not.
  function Wanted(p: Params, inputs: seq<(seq<nat>, bool)>): seq<nat> {
    var all := Generated(inputs);
    if inputs != [] && inputs[|inputs| - 1].1 && inputs[|inputs| - 1].0 != [] && !p.includeStop && |all| >= 1
    then all[..|all| - 1] else all
  }

  lemma {:induction false} ReadAreWanted(p: Params, inputs: seq<(seq<nat>, bool)>)
    requires EndsLast(inputs)
    ensures ReadIds(p, inputs) == Wanted(p, inputs)
  {
    if inputs != [] {
      var n := |inputs| - 1;
      AllAreRead(p, inputs[..n]);
      var ids := inputs[n].0;
      if ids != [] {
        assert (Generated(inputs[..n]) + ids)[..|Generated(inputs[..n]) + ids| - 1] == Generated(inputs[..n]) + ids[..|ids| - 1];
      }
    }
  }

  // Without stop strings: what a delta reader has been sent once the engine has ended a request, and what
  // the text is all the while, is the text of all its tokens, less the one that ended it where that is not
  // wanted.
  lemma {:induction false} EngineEndedText(tokenizer: Option<Tokenizer>, p: Params, inputs: seq<(seq<nat>, bool)>)
    requires p.stop == [] && EndsLast(inputs)
    ensures var r := DeliverAll(Start(tokenizer, p), inputs);
      && r.d.text == r.sent == Decode(BytesOf(tokenizer, p, Wanted(p, inputs))).0
      && (r.finished <==> inputs != [] && inputs[|inputs| - 1].1)
  {
    hide Update, BytesOf, Decode, InStep, Wanted, AllBytes;
    LittleIsHeldBack(tokenizer, p, inputs);
    ReadAreWanted(p, inputs);
    AllBytesAre(tokenizer, p, inputs);
    if inputs == [] {
      NoTokensNoText(tokenizer, p);
    } else {
      var n := |inputs| - 1;
      var before := inputs[..n];
      assert forall i :: 0 <= i < n ==> before[i] == inputs[i];
      NotEndedYet(tokenizer, p, before);
      RunDecodes(tokenizer, p, before);
      var r := DeliverAll(Start(tokenizer, p), before);
      WithoutStopsNoMatch(r.d, inputs[n].0, inputs[n].1);
      TokenBoundariesDoNotMatter(r.d, inputs[n].0, inputs[n].1, AllBytes(tokenizer, p, before), 0);
      LastBytes(tokenizer, p, inputs);
      DeliveredText(r, inputs[n].0, inputs[n].1);
    }
  }

  lemma NoTokensNoText(tokenizer: Option<Tokenizer>, p: Params)
    ensures Decode(BytesOf(tokenizer, p, Wanted(p, []))).0 == ""
  {
  }

  lemma {:induction false} NotEndedYet(tokenizer: Option<Tokenizer>, p: Params, inputs: seq<(seq<nat>, bool)>)
    requires p.stop == [] && forall i :: 0 <= i < |inputs| ==> !inputs[i].1
    ensures !DeliverAll(Start(tokenizer, p), inputs).finished
  {
    hide Update, NextDelta;
    if inputs != [] {
      var n := |inputs| - 1;
      NotEndedYet(tokenizer, p, inputs[..n]);
      RunDecodes(tokenizer, p, inputs[..n]);
      WithoutStopsNoMatch(DeliverAll(Start(tokenizer, p), inputs[..n]).d, inputs[n].0, inputs[n].1);
    }
  }

  // One stop string, good bytes: the same, cut where the text of the wanted tokens first contains it past
  // that of the first minTokens.
  lemma {:induction false} EngineEndedCut(tokenizer: Option<Tokenizer>, p: Params, u: string, inputs: seq<(seq<nat>, bool)>)
    requires p.stop == [u] && u != [] && inputs != [] && EndsLast(inputs) && inputs[|inputs| - 1].1
    requires Completable(BytesOf(tokenizer, p, Wanted(p, inputs)))
    requires !DeliverAll(Start(tokenizer, p), inputs[..|inputs| - 1]).finished
    ensures var r := DeliverAll(Start(tokenizer, p), inputs);
      var ids := Wanted(p, inputs);
      && r.finished
      && r.sent == r.d.text == CutAfter(Decode(BytesOf(tokenizer, p, ids)).0, u, MinText(tokenizer, p, ids), p.includeStop)
  {
    hide Update, BytesOf, Decode, InStep, Wanted, AllBytes, Completable, FirstAfter, CutAfter, MinText, Going;
    var n := |inputs| - 1;
    assert inputs == inputs[..n] + [inputs[n]];
    ReadAreWanted(p, inputs);
    AllBytesAre(tokenizer, p, inputs);
    GoesOn(tokenizer, p, inputs[..n]);
    var r := DeliverAll(Start(tokenizer, p), inputs[..n]);
    ExactStep(tokenizer, p, inputs[..n], u, r, inputs[n]);
    DeliveredText(r, inputs[n].0, inputs[n].1);
    AlwaysInStep(tokenizer, p, inputs);
    FinishedShowsAll(DeliverAll(Start(tokenizer, p), inputs));
  }

  // Any stop strings: a match is an occurrence of one of them in the text of all that was read, past that of
  // the first minTokens tokens, or in the bytes after it, and the text is cut there; without a match no stop
  // string occurs past the minimum.
  lemma {:induction false} MatchCutsWhatWasRead(d: Detok, ids: seq<nat>, stopTerminated: bool, before: seq<nat>)
    requires Quiet(d) && SentOk(d) && HasRead(d, before)
    ensures var (d', m) := Update(d, ids, stopTerminated);
      var read := before + ReadOf(d.params, ids, stopTerminated);
      var all := BytesOf(d.tokenizer, d.params, read);
      var text, min := Decode(all).0, MinText(d.tokenizer, d.params, read);
      match m
      case None => d'.text == text && forall st, i: nat :: st in d.params.stop && OccursAt(text, st, i) ==> i + |st| <= min
      case Some(st) =>
        && st in d.params.stop
        && ((exists i: nat :: OccursAt(text, st, i) && min < i + |st| && d'.text == text[..if d.params.includeStop then i + |st| else i])
            || (exists i: nat :: OccursAt(all, EncodeAll(st), i) && |EncodeAll(text)| <= i
                                 && d'.text == DecodeIgnore(all[..if d.params.includeStop then i + |EncodeAll(st)| else i])))
  {
    hide Extended, SentOk, Decode, BytesOf, EncodeAll, DecodeIgnore, DecodeTokens, MinText, ReadOf, SearchText, SearchBytes, ByteMatch, TextMatch, Quiet, NoStop;
    var read := before + ReadOf(d.params, ids, stopTerminated);
    if ids == [] {
      NothingReadHere(d, stopTerminated, before);
    } else {
      var (d1, off) := Extend(d, ids, stopTerminated);
      UpdateExtends(d, ids, stopTerminated);
      ExtendReads(d, ids, stopTerminated, before);
      StopsValid(d, d1, off);
      if d1.count > d1.params.minTokens && d1.tokenizer.Some? {
        CheckCuts(d, d1, off, BytesOf(d.tokenizer, d.params, read));
      } else {
        if d.tokenizer.None? {
          NoTokenizer(d, |d.text|, Decoded(d, ids, stopTerminated));
        }
        UncheckedMeansNoStop(d, d1, off);
        NoStopIs(d1);
      }
    }
  }

  lemma NothingReadHere(d: Detok, stopTerminated: bool, before: seq<nat>)
    requires Quiet(d) && HasRead(d, before)
    ensures before + ReadOf(d.params, [], stopTerminated) == before
    ensures d.text == Decode(BytesOf(d.tokenizer, d.params, before)).0
    ensures forall st, i: nat :: st in d.params.stop && OccursAt(d.text, st, i) ==> i + |st| <= MinText(d.tokenizer, d.params, before)
  {
    hide Decode, BytesOf;
    assert before + [] == before;
  }

  lemma NoStopIs(d: Detok)
    requires NoStop(d)
    ensures forall st, i: nat :: st in d.params.stop && OccursAt(d.text, st, i) ==> i + |st| <= d.minOffset
  {
  }

  lemma CheckCuts(d0: Detok, d: Detok, off: nat, all: Bytes)
    requires Quiet(d0) && Extended(d0, d, off) && Decodes(d, all)
    ensures var (d', m) := CheckStop(d, off);
      match m
      case None => d' == d && forall st, i: nat :: st in d.params.stop && OccursAt(d.text, st, i) ==> i + |st| <= d.minOffset
      case Some(st) =>
        && st in d.params.stop
        && ((exists i: nat :: OccursAt(d.text, st, i) && d.minOffset < i + |st| && d'.text == d.text[..if d.params.includeStop then i + |st| else i])
            || (exists i: nat :: OccursAt(all, EncodeAll(st), i) && |EncodeAll(d.text)| <= i
                                 && d'.text == DecodeIgnore(all[..if d.params.includeStop then i + |EncodeAll(st)| else i])))
  {
    SearchTextFinds(d.text, off, d.params.stop);
    SearchBytesFinds(EncodeAll(d.text) + d.buffer, MinBytes(d), MaxBytes(d.params.stop), d.params.stop);
    DecodeSplits(all);
    hide Quiet, SearchText, SearchBytes, NoStop, Decode, EncodeAll, DecodeIgnore;
    match TextMatch(d, off)
    case Some((st, i)) =>
      assert OccursAt(d.text, st, i) && d.minOffset < i + |st| by { OffsetInside(d0, d, off); }
    case None =>
      NoMatchMeansNoStop(d0, d, off);
      NoStopIs(d);
      match ByteMatch(d)
      case Some((st, i)) => {
        StopsValid(d0, d, off);
        ByteMatchIsInBuffer(d, st, i);
        assert OccursAt(all, EncodeAll(st), i) && |EncodeAll(d.text)| <= i;
      }
      case None =>
  }

  // ---------------------------------------------------------------- bytes not decodable yet

  lemma {:induction false} SearchBytesMisses(full: Bytes, minBytes: nat, maxBytes: nat, stops: seq<string>)
    requires SearchBytes(full, minBytes, maxBytes, stops).None?
    ensures forall st, i: nat :: st in stops && minBytes <= i && |full| <= i + |EncodeAll(st)| + maxBytes ==>
      !OccursAt(full, EncodeAll(st), i)
  {
    hide EncodeAll, OccursAt;
    if stops != [] {
      SearchBytesMisses(full, minBytes, maxBytes, stops[1..]);
      assert forall st :: st in stops <==> st == stops[0] || st in stops[1..];
    }
  }

  // Past the minimum a stop string is found among the bytes not decodable yet as well, if no more follow
  // it than the longest stop string has.
  lemma {:induction false} BytesAreSearched(d: Detok, ids: seq<nat>, stopTerminated: bool, before: seq<nat>, st: string, i: nat)
    requires Quiet(d) && HasRead(d, before) && d.tokenizer.Some?
    requires ids != [] && |before| + |ids| > d.params.minTokens
    requires Update(d, ids, stopTerminated).1.None?
    ensures var all := BytesOf(d.tokenizer, d.params, before + ReadOf(d.params, ids, stopTerminated));
      && Decode(all).1 != [] && st in d.params.stop && |EncodeAll(Decode(all).0)| <= i
      && (exists other :: other in d.params.stop && |all| <= i + |EncodeAll(st)| + |EncodeAll(other)|)
      ==> !OccursAt(all, EncodeAll(st), i)
  {
    var (d1, off) := Extend(d, ids, stopTerminated);
    UpdateExtends(d, ids, stopTerminated);
    ExtendReads(d, ids, stopTerminated, before);
    StopsValid(d, d1, off);
    var all := BytesOf(d.tokenizer, d.params, before + ReadOf(d.params, ids, stopTerminated));
    DecodeSplits(all);
    hide Quiet, Extended, Extend, TextMatch, SearchBytes, Decode, EncodeAll, OccursAt, BytesOf, ReadOf, HasRead, MaxBytes;
    assert ByteMatch(d1).None? by {
      assert CheckStop(d1, off).1.None?;
    }
    if d1.buffer != [] {
      SearchBytesMisses(all, MinBytes(d1), MaxBytes(d1.params.stop), d1.params.stop);
      MinInText(d1);
      forall other | other in d.params.stop ensures |EncodeAll(other)| <= MaxBytes(d.params.stop) {
        MaxBytesBounds(d.params.stop, other);
      }
    }
  }

  lemma MinInText(d: Detok)
    requires Valid(d)
    ensures MinBytes(d) <= |EncodeAll(d.text)|
  {
    EncodeAllAppend(d.text[..d.minOffset], d.text[d.minOffset..]);
    assert d.text == d.text[..d.minOffset] + d.text[d.minOffset..];
  }

  // Of the pieces bytes are cut into, the characters that are whole.
  function WholeOnes(pieces: seq<Bytes>, text: string): string {
    if pieces == [] || text == [] then []
    else (if pieces[0] == Encode(text[0]) then [text[0]] else []) + WholeOnes(pieces[1..], text[1..])
  }

  lemma {:induction false} TailsAreDropped(b: Bytes, rest: Bytes)
    requires forall i :: 0 <= i < |b| ==> Tail(b[i])
    ensures DecodeIgnore(b + rest) == DecodeIgnore(rest)
  {
    if b == [] {
      assert b + rest == rest;
    } else {
      TailsAreDropped(b[1..], rest);
      assert (b + rest)[1..] == b[1..] + rest && (b + rest)[0] == b[0];
      assert Width(b + rest) == 0;
    }
  }

  lemma PieceIsDropped(b: Bytes, rest: Bytes)
    requires G.BadPiece(b, b + rest)
    ensures DecodeIgnore(b + rest) == DecodeIgnore(rest)
  {
    assert (b + rest)[1..] == b[1..] + rest;
    if |b| > 1 {
      var c: char :| b <= Encode(c);
      LeadAndTails(c as int);
    }
    TailsAreDropped(b[1..], rest);
  }

  // Where a cut leaves bytes that are no text, the text is what decoding with replacement gives without
  // the replaced pieces.
  lemma {:induction false} IgnoringIs(pieces: seq<Bytes>, text: string)
    requires G.Renders(pieces, text)
    ensures DecodeIgnore(G.Flat(pieces)) == WholeOnes(pieces, text)
    decreases |pieces|
  {
    hide Encode, G.BadPiece, Width, Point;
    if pieces != [] {
      var rest := G.Flat(pieces[1..]);
      IgnoringIs(pieces[1..], text[1..]);
      if pieces[0] == Encode(text[0]) {
        Decode1OfEncode(text[0], rest);
      } else {
        PieceIsDropped(pieces[0], rest);
      }
    }
  }

  // ---------------------------------------------------------------- what is held back

  lemma {:induction false} LongestStop(stops: seq<string>) returns (k: nat)
    requires stops != []
    ensures k < |stops| && |stops[k]| == MaxLength(stops)
  {
    if |stops[0]| >= MaxLength(stops[1..]) {
      k := 0;
    } else {
      k := LongestStop(stops[1..]);
      k := k + 1;
    }
  }

  // No more is held back than the beginning of a stop string: while a run goes on, everything is sent at
  // once if the match itself is wanted or there are no stop strings, and otherwise fewer characters are
  // missing than some stop string has.
  lemma {:induction false} LittleIsHeldBack(tokenizer: Option<Tokenizer>, p: Params, inputs: seq<(seq<nat>, bool)>)
    requires StopsNotEmpty(p)
    ensures var r := DeliverAll(Start(tokenizer, p), inputs);
      && r.sent <= r.d.text
      && (r.finished || p.includeStop || p.stop == [] ==> r.sent == r.d.text)
      && (r.sent == r.d.text || exists k :: 0 <= k < |p.stop| && |r.d.text| - |r.sent| < |p.stop[k]|)
  {
    hide DeliverAll, Start, Quiet, SentOk, Decodes;
    var r := DeliverAll(Start(tokenizer, p), inputs);
    AlwaysInStep(tokenizer, p, inputs);
    RunDecodes(tokenizer, p, inputs);
    if !r.finished && p.stop != [] {
      var k := LongestStop(p.stop);
      assert p.stop[k] in p.stop;
    }
  }

  // What one update reports as new is the text it added, from where stop strings are looked for.
  lemma NewTextIs(d: Detok, ids: seq<nat>, stopTerminated: bool)
    requires Quiet(d) && Update(d, ids, stopTerminated).1.None?
    ensures var d' := Update(d, ids, stopTerminated).0;
      && d.text <= d'.text && d'.minOffset <= |d'.text|
      && d'.lastNew == (if ids == [] then [] else d'.text[(if d'.minOffset > |d.text| then d'.minOffset else |d.text|)..])
      && (d.params.minTokens == 0 ==> d'.text == d.text + d'.lastNew)
  {
    hide Quiet, NoStop, TextMatch, ByteMatch, DecodeTokens;
    if ids != [] {
      UpdateExtends(d, ids, stopTerminated);
      QuietOffset(d);
      if d.params.minTokens == 0 {
        NoMinimum(d, |d.text|, Decoded(d, ids, stopTerminated));
      }
    } else {
      QuietOffset(d);
    }
  }

  lemma QuietOffset(d: Detok)
    requires Quiet(d)
    ensures d.minOffset <= |d.text|
  {
  }
}
