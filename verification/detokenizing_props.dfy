/** Streaming never retracts, token boundaries do not matter, and the windowed stop search is exact. */
module DetokenizingProps {
  import opened Wrappers
  import opened Utf8
  import opened Detokenizing

  // ---------------------------------------------------------------- token boundaries

  // The bytes a token stands for, none for a special token that is skipped.
  function Feed(tokenizer: Option<Tokenizer>, p: Params, id: nat): Bytes {
    if tokenizer.None? || (p.skipSpecial && id in tokenizer.value.special) then [] else tokenizer.value.TokenBytes(id)
  }

  function BytesOf(tokenizer: Option<Tokenizer>, p: Params, ids: seq<nat>): Bytes {
    if ids == [] then [] else Feed(tokenizer, p, ids[0]) + BytesOf(tokenizer, p, ids[1..])
  }

  // Text and buffer are what decoding all bytes fed at once gives.
  predicate Decodes(d: Detok, fed: Bytes) {
    Decode(fed) == (d.text, d.buffer)
  }

  lemma TokenDecodes(d: Detok, off: nat, id: nat, fed: Bytes)
    requires Decodes(d, fed)
    ensures Decodes(DecodeToken(d, off, id).0, fed + Feed(d.tokenizer, d.params, id))
  {
    var b := Feed(d.tokenizer, d.params, id);
    DecodeAppend(fed, b);
    if b == [] {
      DecodeRest(fed);
      assert fed + b == fed && d.buffer + b == d.buffer && d.text + [] == d.text;
    }
  }

  // What decoding leaves over cannot be decoded any further.
  lemma DecodeRest(s: Bytes)
    ensures var r := Decode(s).1; Decode1(r).None? && Decode(r) == ([], r)
  {
    DecodeSplits(s);
  }

  lemma {:induction false} TokensDecode(d: Detok, off: nat, ids: seq<nat>, fed: Bytes)
    requires Decodes(d, fed)
    ensures Decodes(DecodeTokens(d, off, ids).0, fed + BytesOf(d.tokenizer, d.params, ids))
    decreases |ids|
  {
    hide Decodes, Feed, DecodeToken;
    if ids == [] {
      assert fed + [] == fed;
    } else {
      var (d', off') := DecodeToken(d, off, ids[0]);
      var b := Feed(d.tokenizer, d.params, ids[0]);
      TokenDecodes(d, off, ids[0], fed);
      SameTokenizer(d, off, ids[0]);
      TokensDecode(d', off', ids[1..], fed + b);
      assert fed + b + BytesOf(d.tokenizer, d.params, ids[1..]) == fed + BytesOf(d.tokenizer, d.params, ids);
    }
  }

  lemma SameTokenizer(d: Detok, off: nat, id: nat)
    ensures var d' := DecodeToken(d, off, id).0; d'.tokenizer == d.tokenizer && d'.params == d.params
  {
  }

  // The tokens of an update that are read: all of them, but for the last where the engine ended with it and
  // what ends the output is not wanted in it.
  function ReadOf(p: Params, ids: seq<nat>, stopTerminated: bool): seq<nat> {
    if stopTerminated && !p.includeStop && |ids| >= 1 then ids[..|ids| - 1] else ids
  }

  lemma DecodedIs(d: Detok, ids: seq<nat>, stopTerminated: bool)
    ensures Decoded(d, ids, stopTerminated) == ReadOf(d.params, ids, stopTerminated)
  {
  }

  // Before a match, an update leaves text and buffer as decoding everything fed so far in one go,
  // and the text is the longest well-formed prefix of it.
  lemma TokenBoundariesDoNotMatter(d: Detok, ids: seq<nat>, stopTerminated: bool, fed: Bytes, k: nat)
    requires Decodes(d, fed) && Update(d, ids, stopTerminated).1.None?
    ensures var (d', _) := Update(d, ids, stopTerminated);
      var all := fed + BytesOf(d.tokenizer, d.params, ReadOf(d.params, ids, stopTerminated));
      && Decodes(d', all)
      && all == EncodeAll(d'.text) + d'.buffer
      && (k <= |all| && WellFormed(all[..k]) ==> k <= |EncodeAll(d'.text)|)
  {
    var used := ReadOf(d.params, ids, stopTerminated);
    DecodedIs(d, ids, stopTerminated);
    TokensDecode(d, |d.text|, used, fed);
    var all := fed + BytesOf(d.tokenizer, d.params, used);
    DecodeSplits(all);
    if ids == [] {
      assert all == fed;
    }
    if k <= |all| && WellFormed(all[..k]) {
      LongestWellFormedPrefix(all, k);
    }
  }

  // ---------------------------------------------------------------- what an update does to the text

  // No stop string ends in the text after the first minTokens tokens.
  ghost predicate NoStop(d: Detok) {
    forall st, i: nat :: st in d.params.stop && OccursAt(d.text, st, i) ==> i + |st| <= d.minOffset
  }

  // A detokenizer that has not matched yet.
  ghost predicate Quiet(d: Detok) {
    && Valid(d) && NoStop(d)
    && (d.count <= d.params.minTokens ==> d.minOffset == |d.text|)
    && Decode1(d.buffer).None?
  }

  // `d` after some tokens of an update of `d0`; stop strings will be looked for from `off`.
  ghost predicate Extended(d0: Detok, d: Detok, off: nat) {
    && d.params == d0.params && d.tokenizer == d0.tokenizer && d.sentOffset == d0.sentOffset
    && d0.text <= d.text && |d0.text| <= off <= |d.text| && d.minOffset <= |d.text|
    && ((off == |d0.text| && d.minOffset == d0.minOffset) || off == d.minOffset)
    && (d.count <= d.params.minTokens ==> d.minOffset == |d.text|)
    && Decode1(d.buffer).None?
  }

  lemma TokenExtends(d0: Detok, d: Detok, off: nat, id: nat)
    requires Extended(d0, d, off)
    ensures var (d', off') := DecodeToken(d, off, id); Extended(d0, d', off')
  {
    if d.tokenizer.Some? {
      DecodeRest(d.buffer + d.tokenizer.value.TokenBytes(id));
    }
  }

  lemma {:induction false} TokensExtend(d0: Detok, d: Detok, off: nat, ids: seq<nat>)
    requires Extended(d0, d, off)
    ensures var (d', off') := DecodeTokens(d, off, ids); Extended(d0, d', off')
    decreases |ids|
  {
    hide Extended;
    if ids != [] {
      TokenExtends(d0, d, off, ids[0]);
      var (d', off') := DecodeToken(d, off, ids[0]);
      TokensExtend(d0, d', off', ids[1..]);
    }
  }

  lemma UpdateExtends(d: Detok, ids: seq<nat>, stopTerminated: bool)
    requires Quiet(d)
    ensures var (d', off) := Extend(d, ids, stopTerminated); Extended(d, d', off)
  {
    hide NoStop;
    TokensExtend(d, d, |d.text|, Decoded(d, ids, stopTerminated));
  }

  lemma OccursInPrefix(a: string, b: string, st: string, i: nat)
    requires a <= b && OccursAt(b, st, i) && i + |st| <= |a|
    ensures OccursAt(a, st, i)
  {
    assert b[i..i + |st|] == a[i..i + |st|];
  }

  // If the window shows nothing, the whole text shows nothing.
  lemma NoMatchMeansNoStop(d0: Detok, d: Detok, off: nat)
    requires Quiet(d0) && Extended(d0, d, off) && TextMatch(d, off).None?
    ensures NoStop(d)
  {
    SearchTextFinds(d.text, off, d.params.stop);
    forall st, i: nat | st in d.params.stop && OccursAt(d.text, st, i) ensures i + |st| <= d.minOffset {
      assert i + |st| <= off;
      if i + |st| <= |d0.text| {
        OccursInPrefix(d0.text, d.text, st, i);
      }
    }
  }

  // While nothing is checked, everything lies in the text of the first minTokens tokens.
  lemma UncheckedMeansNoStop(d0: Detok, d: Detok, off: nat)
    requires Quiet(d0) && Extended(d0, d, off)
    requires d.count <= d.params.minTokens || d.tokenizer.None?
    requires d.tokenizer.None? ==> d.text == d0.text && d.minOffset == d0.minOffset
    ensures NoStop(d)
  {
  }

  lemma {:induction false} NoTokenizer(d: Detok, off: nat, ids: seq<nat>)
    requires d.tokenizer.None?
    ensures var (d', _) := DecodeTokens(d, off, ids); d'.text == d.text && d'.minOffset == d.minOffset
    decreases |ids|
  {
    if ids != [] {
      NoTokenizer(DecodeToken(d, off, ids[0]).0, off, ids[1..]);
    }
  }

  lemma {:induction false} MaxLengthBounds(stops: seq<string>, st: string)
    requires st in stops
    ensures |st| <= MaxLength(stops)
  {
    if st != stops[0] {
      MaxLengthBounds(stops[1..], st);
    }
  }

  // The text sent so far lies before everything held back.
  ghost predicate SentOk(d: Detok) {
    d.sentOffset == 0 || d.sentOffset + HeldBack(d.params) <= |d.text|
  }

  // A cut at a match in the window keeps everything that was sent.
  lemma CutKeepsSent(d0: Detok, d: Detok, off: nat, st: string, i: nat)
    requires Quiet(d0) && SentOk(d0) && Extended(d0, d, off)
    requires TextMatch(d, off) == Some((st, i)) && OccursAt(d.text, st, i)
    ensures d0.text[..SentLength(d0)] <= CutText(d, st, i).text
  {
    SearchTextFinds(d.text, off, d.params.stop);
    MaxLengthBounds(d.params.stop, st);
    var cut := CutText(d, st, i).text;
    assert cut <= d.text;
    assert |cut| >= d0.sentOffset;
  }

  function SentLength(d: Detok): nat {
    if d.sentOffset <= |d.text| then d.sentOffset else |d.text|
  }

  lemma {:induction false} IgnoreKeepsText(t: string, x: Bytes)
    ensures DecodeIgnore(EncodeAll(t) + x) == t + DecodeIgnore(x)
  {
    if t == [] {
      assert EncodeAll(t) + x == x;
    } else {
      assert EncodeAll(t) + x == Encode(t[0]) + (EncodeAll(t[1..]) + x);
      Decode1OfEncode(t[0], EncodeAll(t[1..]) + x);
      IgnoreKeepsText(t[1..], x);
    }
  }

  // A match of the byte search lies in the undecodable bytes, never in the text.
  lemma ByteMatchIsInBuffer(d: Detok, st: string, i: nat)
    requires Valid(d) && NoStop(d) && Decode1(d.buffer).None?
    requires ByteMatch(d) == Some((st, i))
    ensures st in d.params.stop && OccursAt(EncodeAll(d.text) + d.buffer, EncodeAll(st), i)
    ensures |EncodeAll(d.text)| <= i
  {
    var full := EncodeAll(d.text) + d.buffer;
    SearchBytesFinds(full, MinBytes(d), MaxBytes(d.params.stop), d.params.stop);
    if i < |EncodeAll(d.text)| {
      var j := MatchIsAligned(d.text, d.buffer, st, i);
      assert j >= d.minOffset by {
        if j < d.minOffset {
          ShorterEncoding(d.text, j, d.minOffset);
        }
      }
      assert false;
    }
  }

  lemma ShorterEncoding(t: string, a: nat, b: nat)
    requires a < b <= |t|
    ensures |EncodeAll(t[..a])| < |EncodeAll(t[..b])|
  {
    assert t[..b] == t[..a] + t[a..b];
    EncodeAllAppend(t[..a], t[a..b]);
    assert EncodeAll(t[a..b]) == Encode(t[a]) + EncodeAll(t[a..b][1..]);
  }

  lemma CutBytesKeepsText(d: Detok, st: string, i: nat)
    requires Valid(d) && NoStop(d) && Decode1(d.buffer).None? && ByteMatch(d) == Some((st, i))
    requires OccursAt(EncodeAll(d.text) + d.buffer, EncodeAll(st), i)
    ensures d.text <= CutBytes(d, EncodeAll(d.text) + d.buffer, st, i).text
  {
    ByteMatchIsInBuffer(d, st, i);
    var full := EncodeAll(d.text) + d.buffer;
    var end := if d.params.includeStop then i + |EncodeAll(st)| else i;
    assert full[..end] == EncodeAll(d.text) + d.buffer[..end - |EncodeAll(d.text)|];
    IgnoreKeepsText(d.text, d.buffer[..end - |EncodeAll(d.text)|]);
  }

  // ---------------------------------------------------------------- one update

  // Where and how a match cuts: at an occurrence in the window, or in the undecodable bytes.
  ghost predicate CutAt(d: Detok, st: string, d': Detok) {
    || (exists i: nat :: OccursAt(d.text, st, i) && d' == CutText(d, st, i))
    || (exists i: nat :: OccursAt(EncodeAll(d.text) + d.buffer, EncodeAll(st), i) && |EncodeAll(d.text)| <= i
                         && d' == CutBytes(d, EncodeAll(d.text) + d.buffer, st, i) && d.text <= d'.text)
  }

  lemma CheckStopCorrect(d0: Detok, d: Detok, off: nat)
    requires Quiet(d0) && SentOk(d0) && Extended(d0, d, off)
    ensures var (d', m) := CheckStop(d, off);
      && (m.None? ==> d' == d && NoStop(d))
      && (m.Some? ==> m.value in d.params.stop && CutAt(d, m.value, d') && d0.text[..SentLength(d0)] <= d'.text
                      && d'.sentOffset == d0.sentOffset)
  {
    SearchTextFinds(d.text, off, d.params.stop);
    SearchBytesFinds(EncodeAll(d.text) + d.buffer, MinBytes(d), MaxBytes(d.params.stop), d.params.stop);
    hide Quiet, SearchText, SearchBytes, NoStop, SentOk;
    match TextMatch(d, off)
    case Some((st, i)) => CutKeepsSent(d0, d, off, st, i);
    case None =>
      NoMatchMeansNoStop(d0, d, off);
      match ByteMatch(d)
      case Some((st, i)) => {
        StopsValid(d0, d, off);
        ByteMatchIsInBuffer(d, st, i);
        CutBytesKeepsText(d, st, i);
        SentInside(d0, d, off);
      }
      case None =>
  }

  lemma StopsValid(d0: Detok, d: Detok, off: nat)
    requires Quiet(d0) && Extended(d0, d, off)
    ensures Valid(d)
  {
  }

  lemma SentInside(d0: Detok, d: Detok, off: nat)
    requires Extended(d0, d, off)
    ensures d0.text[..SentLength(d0)] <= d.text
  {
  }

  // An update either leaves the detokenizer quiet with more text, or matches and keeps what was sent.
  lemma UpdateCorrect(d: Detok, ids: seq<nat>, stopTerminated: bool)
    requires Quiet(d) && SentOk(d)
    ensures var (d', m) := Update(d, ids, stopTerminated);
      && d'.params == d.params && d'.sentOffset == d.sentOffset
      && (m.None? ==> Quiet(d') && SentOk(d') && d.text <= d'.text)
      && (m.Some? ==> m.value in d.params.stop
                      && CutAt(Extend(d, ids, stopTerminated).0, m.value, d')
                      && d.text[..SentLength(d)] <= d'.text)
  {
    if ids != [] {
      var (d1, off) := Extend(d, ids, stopTerminated);
      UpdateExtends(d, ids, stopTerminated);
      StopsValid(d, d1, off);
      if d.tokenizer.None? {
        NoTokenizer(d, |d.text|, Decoded(d, ids, stopTerminated));
      }
      if d1.count > d1.params.minTokens && d1.tokenizer.Some? {
        CheckStopCorrect(d, d1, off);
        hide NoStop, CutAt, CheckStop, Extend, DecodeTokens;
      } else {
        UncheckedMeansNoStop(d, d1, off);
      }
    }
  }

  // ---------------------------------------------------------------- streaming

  // A reader that takes a delta after every update.
  datatype Reader = Reader(d: Detok, sent: string, finished: bool)

  function Deliver(r: Reader, ids: seq<nat>, stopTerminated: bool): Reader {
    if r.finished then r
    else
      var (d1, m) := Update(r.d, ids, stopTerminated);
      var finished := stopTerminated || m.Some?;
      var (d2, delta) := NextDelta(d1, finished);
      Reader(d2, r.sent + delta, finished)
  }

  function DeliverAll(r: Reader, inputs: seq<(seq<nat>, bool)>): Reader {
    if inputs == [] then r
    else Deliver(DeliverAll(r, inputs[..|inputs| - 1]), inputs[|inputs| - 1].0, inputs[|inputs| - 1].1)
  }

  // What was sent is exactly the cumulative text: nothing is missing and nothing was taken back.
  ghost predicate InStep(r: Reader) {
    && r.sent == Visible(r.d, r.finished)
    && |r.sent| == r.d.sentOffset
    && (!r.finished ==> Quiet(r.d) && SentOk(r.d))
  }

  lemma DeltaInStep(d: Detok, finished: bool, sent: string)
    requires sent <= d.text && |sent| == d.sentOffset
    requires !finished ==> |sent| == 0 || |sent| + HeldBack(d.params) <= |d.text|
    ensures var (d', delta) := NextDelta(d, finished);
      && sent + delta == Visible(d, finished) && |sent + delta| == d'.sentOffset
      && d' == d.(sentOffset := d'.sentOffset)
      && (!finished ==> SentOk(d'))
  {
    var v := Visible(d, finished);
    assert v <= d.text;
    if |sent| < |v| {
      assert d.text[..|sent|] == sent;
      assert sent + d.text[|sent|..|v|] == d.text[..|v|];
    } else {
      assert d.text[..|sent|] == sent;
      assert |v| == |sent|;
    }
  }

  lemma DeliverInStep(r: Reader, ids: seq<nat>, stopTerminated: bool)
    requires InStep(r)
    ensures InStep(Deliver(r, ids, stopTerminated))
    ensures r.sent <= Deliver(r, ids, stopTerminated).sent
  {
    if !r.finished {
      UpdateCorrect(r.d, ids, stopTerminated);
      var (d1, m) := Update(r.d, ids, stopTerminated);
      assert r.sent == r.d.text[..SentLength(r.d)];
      hide Quiet, Update, CutAt, NextDelta;
      assert r.sent <= d1.text;
      DeltaInStep(d1, stopTerminated || m.Some?, r.sent);
      if m.None? {
        QuietDelta(d1, stopTerminated || m.Some?);
      }
    }
  }

  lemma QuietDelta(d: Detok, finished: bool)
    requires Quiet(d)
    ensures Quiet(NextDelta(d, finished).0)
  {
  }

  function Start(tokenizer: Option<Tokenizer>, p: Params): Reader {
    Reader(Fresh(tokenizer, p), [], false)
  }

  lemma {:induction false} AlwaysInStep(tokenizer: Option<Tokenizer>, p: Params, inputs: seq<(seq<nat>, bool)>)
    requires forall st :: st in p.stop ==> st != []
    ensures InStep(DeliverAll(Start(tokenizer, p), inputs))
  {
    hide InStep, Deliver, Start;
    if inputs == [] {
      FreshInStep(tokenizer, p);
    } else {
      var n := |inputs| - 1;
      AlwaysInStep(tokenizer, p, inputs[..n]);
      DeliverInStep(DeliverAll(Start(tokenizer, p), inputs[..n]), inputs[n].0, inputs[n].1);
    }
  }

  lemma {:induction false} SentGrows(tokenizer: Option<Tokenizer>, p: Params, inputs: seq<(seq<nat>, bool)>, k: nat)
    requires forall st :: st in p.stop ==> st != []
    requires k <= |inputs|
    ensures DeliverAll(Start(tokenizer, p), inputs[..k]).sent <= DeliverAll(Start(tokenizer, p), inputs).sent
  {
    hide InStep, Deliver, Start;
    if k == |inputs| {
      assert inputs[..k] == inputs;
    } else {
      var n := |inputs| - 1;
      AlwaysInStep(tokenizer, p, inputs[..n]);
      DeliverInStep(DeliverAll(Start(tokenizer, p), inputs[..n]), inputs[n].0, inputs[n].1);
      SentGrows(tokenizer, p, inputs[..n], k);
      assert inputs[..n][..k] == inputs[..k];
    }
  }

  // Streaming never retracts: after any updates the concatenated deltas are the cumulative text, they
  // extend everything sent before, and when finished they are the whole, possibly cut, text.
  lemma {:induction false} StreamingNeverRetracts(tokenizer: Option<Tokenizer>, p: Params, inputs: seq<(seq<nat>, bool)>, k: nat)
    requires forall st :: st in p.stop ==> st != []
    requires k <= |inputs|
    ensures var r := DeliverAll(Start(tokenizer, p), inputs);
      && r.sent == Visible(r.d, r.finished)
      && (r.finished ==> r.sent == r.d.text)
      && DeliverAll(Start(tokenizer, p), inputs[..k]).sent <= r.sent
  {
    hide Deliver, Start;
    AlwaysInStep(tokenizer, p, inputs);
    SentGrows(tokenizer, p, inputs, k);
    FinishedShowsAll(DeliverAll(Start(tokenizer, p), inputs));
  }

  lemma FinishedShowsAll(r: Reader)
    requires InStep(r)
    ensures r.finished ==> r.sent == r.d.text
  {
  }

  lemma FreshInStep(tokenizer: Option<Tokenizer>, p: Params)
    requires forall st :: st in p.stop ==> st != []
    ensures InStep(Start(tokenizer, p))
    ensures Decodes(Fresh(tokenizer, p), [])
  {
    assert forall st, i: nat :: st in p.stop ==> !OccursAt([], st, i);
  }

  // ---------------------------------------------------------------- the windowed search is exact

  predicate Contains(t: string, u: string) {
    Find(t, u, 0).Some?
  }

  // A byte stream that can still be completed to well-formed UTF-8.
  ghost predicate Completable(s: Bytes) {
    exists x: Bytes :: WellFormed(s + x)
  }

  // The bytes left over from a good stream are the beginning of one character.
  lemma BufferIsOnePartialCharacter(r: Bytes) returns (x: Bytes, t: string)
    requires Decode1(r).None? && Completable(r) && r != []
    ensures r + x == EncodeAll(t) && t != [] && |r| < |Encode(t[0])|
  {
    x :| WellFormed(r + x);
    DecodeSplits(r + x);
    t := Decode(r + x).0;
    assert r + x == EncodeAll(t) + [] == EncodeAll(t);
    assert t != [];
    PartialCharacter(r, x, t);
  }

  lemma PartialCharacter(r: Bytes, x: Bytes, t: string)
    requires Decode1(r).None? && t != [] && r + x == EncodeAll(t)
    ensures |r| < |Encode(t[0])|
  {
    hide Decode1, Encode;
    var n := |Encode(t[0])|;
    assert EncodeAll(t)[..n] == Encode(t[0]);
    if n <= |r| {
      assert r[..n] == (r + x)[..n];
      FrontDecodes(r, t[0]);
    }
  }

  lemma FrontDecodes(r: Bytes, c: char)
    requires |Encode(c)| <= |r| && r[..|Encode(c)|] == Encode(c)
    ensures Decode1(r).Some?
  {
    Decode1OfEncode(c, r[|Encode(c)|..]);
    assert r == Encode(c) + r[|Encode(c)|..];
  }

  // The incomplete character at the end of a good stream contains no encoded text.
  lemma BufferHasNoMatch(r: Bytes, u: string, i: nat)
    requires Decode1(r).None? && Completable(r) && u != []
    ensures !OccursAt(r, EncodeAll(u), i)
  {
    if r != [] {
      var x, t := BufferIsOnePartialCharacter(r);
      if i == 0 {
        assert EncodeAll([]) + r == r;
        if OccursAt(r, EncodeAll(u), 0) {
          FrontMatches([], r, u);
        }
      } else {
        InsideCharacter(r, x, t, u, i);
      }
    }
  }

  lemma InsideCharacter(r: Bytes, x: Bytes, t: string, u: string, i: nat)
    requires u != [] && t != [] && r + x == EncodeAll(t) && |r| < |Encode(t[0])| && 0 < i
    ensures !OccursAt(r, EncodeAll(u), i)
  {
    if OccursAt(r, EncodeAll(u), i) {
      assert |EncodeAll(u)| >= 1;
      assert (r + x)[i..i + |EncodeAll(u)|] == r[i..i + |EncodeAll(u)|];
      NoMatchInside(t[0], EncodeAll(t[1..]), u, i);
    }
  }

  lemma CompletableRest(s: Bytes)
    requires Completable(s)
    ensures Completable(Decode(s).1)
  {
    var x :| WellFormed(s + x);
    DecodeAppend(s, x);
  }

  // The first occurrence that ends after the first m characters.
  function FirstAfter(text: string, u: string, m: nat): Option<nat> {
    Find(text, u, if m + 1 >= |u| then m + 1 - |u| else 0)
  }

  lemma FirstAfterIs(text: string, u: string, m: nat)
    requires u != []
    ensures match FirstAfter(text, u, m)
      case Some(i) => OccursAt(text, u, i) && i + |u| > m && forall j: nat :: j < i && OccursAt(text, u, j) ==> j + |u| <= m
      case None => forall j: nat :: OccursAt(text, u, j) ==> j + |u| <= m
  {
    hide OccursAt;
  }

  // Of one stop string, the window sees the first occurrence in the whole text that ends after the text of
  // the first minTokens tokens.
  lemma WindowSees(d0: Detok, d: Detok, off: nat, u: string)
    requires Quiet(d0) && Extended(d0, d, off) && u in d.params.stop
    ensures Find(d.text, u, WindowStart(off, u)) == FirstAfter(d.text, u, d.minOffset)
  {
    hide Quiet, Extended;
    OffsetInside(d0, d, off);
    var from := WindowStart(d.minOffset, u);
    forall i: nat | from <= i < WindowStart(off, u) ensures !OccursAt(d.text, u, i) {
      SeenBefore(d0, d, off, u, i);
    }
    FindFromBetween(d.text, u, from, WindowStart(off, u) - from);
  }

  lemma WindowSeesAll(d0: Detok, d: Detok, off: nat, u: string)
    requires Quiet(d0) && Extended(d0, d, off) && d.params.stop == [u]
    ensures TextMatch(d, off) == match FirstAfter(d.text, u, d.minOffset) case None => None case Some(i) => Some((u, i))
  {
    hide Quiet, Extended, SearchText, FirstAfter;
    SearchOne(d.text, off, u);
    OffsetInside(d0, d, off);
    WindowSees(d0, d, off, u);
    if off == |d.text| {
      NothingPastEnd(d.text, u);
    }
  }

  lemma NothingPastEnd(text: string, u: string)
    requires u != []
    ensures Find(text, u, WindowStart(|text|, u)) == None
  {
  }

  lemma SearchOne(text: string, off: nat, u: string)
    ensures SearchText(text, off, [u])
            == if Find(text, u, WindowStart(off, u)).Some? then Some((u, Find(text, u, WindowStart(off, u)).value)) else None
  {
    assert [u][1..] == [];
    hide Find;
    assert SearchText(text, off, [u][1..]) == None;
  }

  lemma OffsetInside(d0: Detok, d: Detok, off: nat)
    requires Quiet(d0) && Extended(d0, d, off)
    ensures d.minOffset <= off <= |d.text|
    ensures forall u :: u in d.params.stop ==> u != []
  {
  }

  lemma {:induction false} FindFromBetween<T>(s: seq<T>, p: seq<T>, from: nat, n: nat)
    requires forall i: nat :: from <= i < from + n ==> !OccursAt(s, p, i)
    ensures Find(s, p, from) == Find(s, p, from + n)
    decreases n
  {
    if n > 0 {
      FindFromBetween(s, p, from + 1, n - 1);
      assert !OccursAt(s, p, from);
    }
  }

  // What the window leaves out after the minimum was searched before.
  lemma SeenBefore(d0: Detok, d: Detok, off: nat, u: string, i: nat)
    requires Quiet(d0) && Extended(d0, d, off) && u in d.params.stop
    requires d.minOffset < i + |u| <= off
    ensures !OccursAt(d.text, u, i)
  {
    if OccursAt(d.text, u, i) {
      OccursInPrefix(d0.text, d.text, u, i);
    }
  }

  // With minTokens 0 the offset of the minimum never moves.
  lemma {:induction false} NoMinimum(d: Detok, off: nat, ids: seq<nat>)
    requires d.params.minTokens == 0
    ensures var (d', off') := DecodeTokens(d, off, ids);
      d'.minOffset == d.minOffset && d'.count == d.count + |ids| && d'.params == d.params && d'.tokenizer == d.tokenizer
    decreases |ids|
  {
    if ids != [] {
      var (d1, off1) := DecodeToken(d, off, ids[0]);
      NoMinimum(d1, off1, ids[1..]);
    }
  }

  // The length of the text of the first minTokens tokens.
  function MinText(tokenizer: Option<Tokenizer>, p: Params, ids: seq<nat>): nat {
    |Decode(BytesOf(tokenizer, p, if p.minTokens <= |ids| then ids[..p.minTokens] else ids)).0|
  }

  // The detokenizer has read these tokens and not matched.
  ghost predicate HasRead(d: Detok, ids: seq<nat>) {
    && Decodes(d, BytesOf(d.tokenizer, d.params, ids))
    && d.count == |ids| && d.minOffset == MinText(d.tokenizer, d.params, ids)
  }

  lemma {:induction false} BytesSnoc(tokenizer: Option<Tokenizer>, p: Params, ids: seq<nat>, id: nat)
    ensures BytesOf(tokenizer, p, ids + [id]) == BytesOf(tokenizer, p, ids) + Feed(tokenizer, p, id)
  {
    hide Feed;
    if ids == [] {
      assert ([] + [id])[1..] == [];
      assert [] + [id] == [id];
      assert Feed(tokenizer, p, id) + [] == [] + Feed(tokenizer, p, id);
    } else {
      BytesSnoc(tokenizer, p, ids[1..], id);
      assert (ids + [id])[1..] == ids[1..] + [id] && (ids + [id])[0] == ids[0];
    }
  }

  lemma {:induction false} BytesAppend(tokenizer: Option<Tokenizer>, p: Params, a: seq<nat>, b: seq<nat>)
    ensures BytesOf(tokenizer, p, a + b) == BytesOf(tokenizer, p, a) + BytesOf(tokenizer, p, b)
  {
    hide Feed;
    if a == [] {
      assert a + b == b;
    } else {
      BytesAppend(tokenizer, p, a[1..], b);
      assert (a + b)[1..] == a[1..] + b && (a + b)[0] == a[0];
    }
  }

  // The minimum only counts the first tokens.
  lemma MinTextOfMore(tokenizer: Option<Tokenizer>, p: Params, ids: seq<nat>, id: nat)
    ensures MinText(tokenizer, p, ids + [id])
            == if p.minTokens <= |ids| then MinText(tokenizer, p, ids) else |Decode(BytesOf(tokenizer, p, ids + [id])).0|
    ensures p.minTokens > |ids| ==> MinText(tokenizer, p, ids) == |Decode(BytesOf(tokenizer, p, ids)).0|
  {
    hide BytesOf, Decode;
    if p.minTokens <= |ids| {
      assert (ids + [id])[..p.minTokens] == ids[..p.minTokens];
    } else if p.minTokens == |ids + [id]| {
      assert (ids + [id])[..p.minTokens] == ids + [id];
    }
  }

  lemma TokenRead(d: Detok, off: nat, id: nat, ids: seq<nat>)
    requires HasRead(d, ids)
    ensures HasRead(DecodeToken(d, off, id).0, ids + [id])
  {
    hide BytesOf, Decode, MinText, Feed, DecodeToken;
    var p, t := d.params, d.tokenizer;
    BytesSnoc(t, p, ids, id);
    TokenDecodes(d, off, id, BytesOf(t, p, ids));
    MinTextOfMore(t, p, ids, id);
    SameTokenizer(d, off, id);
    MinimumKept(d, off, id);
  }

  // While the minimum is not reached, its offset is the length of the text, and then it stays.
  lemma MinimumKept(d: Detok, off: nat, id: nat)
    ensures var d' := DecodeToken(d, off, id).0;
      && d'.count == d.count + 1
      && (d.count < d.params.minTokens && d.minOffset == |d.text| ==> d'.minOffset == |d'.text|)
      && (d.count >= d.params.minTokens ==> d'.minOffset == d.minOffset)
  {
    hide Decode;
  }

  lemma {:induction false} TokensRead(d: Detok, off: nat, more: seq<nat>, ids: seq<nat>)
    requires HasRead(d, ids)
    ensures HasRead(DecodeTokens(d, off, more).0, ids + more)
    decreases |more|
  {
    hide HasRead, DecodeToken;
    if more == [] {
      assert ids + more == ids;
    } else {
      TokenRead(d, off, more[0], ids);
      var (d1, off1) := DecodeToken(d, off, more[0]);
      TokensRead(d1, off1, more[1..], ids + [more[0]]);
      assert ids + [more[0]] + more[1..] == ids + more;
    }
  }

  // The text a match of `u` leaves that ends after the first m characters.
  function CutAfter(whole: string, u: string, m: nat, includeStop: bool): string {
    match FirstAfter(whole, u, m)
    case None => whole
    case Some(i) => if includeStop then whole[..i + |u|] else whole[..i]
  }

  // One stop string, a byte stream that is well-formed so far: an update reports a match exactly when the
  // whole text contains the stop string past the text of the first minTokens tokens, and cuts at its first
  // occurrence there.
  lemma {:induction false} WindowedSearchIsExact(d: Detok, ids: seq<nat>, stopTerminated: bool, u: string, before: seq<nat>)
    requires Quiet(d) && SentOk(d) && d.params.stop == [u] && HasRead(d, before)
    requires Completable(BytesOf(d.tokenizer, d.params, before + ReadOf(d.params, ids, stopTerminated)))
    ensures var (d', m) := Update(d, ids, stopTerminated);
      var read := before + ReadOf(d.params, ids, stopTerminated);
      var whole := Decode(BytesOf(d.tokenizer, d.params, read)).0;
      var min := MinText(d.tokenizer, d.params, read);
      && (m.Some? <==> FirstAfter(whole, u, min).Some?)
      && d'.text == CutAfter(whole, u, min, d.params.includeStop)
      && (m.None? && !stopTerminated ==> HasRead(d', read))
  {
    hide Extended, Quiet, SentOk, Extend, Decodes, CheckStop, BytesOf, Completable, Decode, FirstAfter, ReadOf, HasRead;
    var read := before + ReadOf(d.params, ids, stopTerminated);
    if ids == [] {
      NothingRead(d, stopTerminated, before, u);
    } else {
      var (d1, off) := Extend(d, ids, stopTerminated);
      UpdateExtends(d, ids, stopTerminated);
      ExtendReads(d, ids, stopTerminated, before);
      StopsValid(d, d1, off);
      if d1.count > d1.params.minTokens && d1.tokenizer.Some? {
        CheckIsExact(d, d1, off, u, BytesOf(d.tokenizer, d.params, read));
        CheckKeeps(d1, off);
      } else {
        NoneUnchecked(d, d1, off, ids, stopTerminated, u);
      }
    }
  }

  // Without new tokens nothing changes.
  lemma NothingRead(d: Detok, stopTerminated: bool, before: seq<nat>, u: string)
    requires Quiet(d) && d.params.stop == [u] && HasRead(d, before)
    ensures var (d', m) := Update(d, [], stopTerminated);
      var read := before + ReadOf(d.params, [], stopTerminated);
      && read == before && m == None && HasRead(d', before)
      && d'.text == d.text == Decode(BytesOf(d.tokenizer, d.params, before)).0
      && FirstAfter(d.text, u, d.minOffset) == None && d.minOffset == MinText(d.tokenizer, d.params, before)
  {
    QuietHasNone(d, u);
    hide BytesOf, Decode, FirstAfter;
    assert before + [] == before;
  }

  lemma QuietHasNone(d: Detok, u: string)
    requires Quiet(d) && u in d.params.stop
    ensures FirstAfter(d.text, u, d.minOffset) == None
  {
    FirstAfterIs(d.text, u, d.minOffset);
    hide FirstAfter, OccursAt;
  }

  // What an update has read when it looks for stop strings.
  lemma ExtendReads(d: Detok, ids: seq<nat>, stopTerminated: bool, before: seq<nat>)
    requires HasRead(d, before) && ids != []
    ensures var (d1, _) := Extend(d, ids, stopTerminated);
      var read := before + ReadOf(d.params, ids, stopTerminated);
      && Decodes(d1, BytesOf(d.tokenizer, d.params, read)) && d1.text == Decode(BytesOf(d.tokenizer, d.params, read)).0
      && d1.minOffset == MinText(d.tokenizer, d.params, read)
      && d1.params == d.params && d1.tokenizer == d.tokenizer
      && d1.count == |before| + |ids|
      && (!stopTerminated ==> HasRead(d1, read))
  {
    var used := ReadOf(d.params, ids, stopTerminated);
    DecodedIs(d, ids, stopTerminated);
    TokensRead(d, |d.text|, used, before);
    TokensSame(d, |d.text|, used);
    hide DecodeTokens, BytesOf, Decode;
  }

  lemma {:induction false} TokensSame(d: Detok, off: nat, ids: seq<nat>)
    ensures var (d', _) := DecodeTokens(d, off, ids); d'.tokenizer == d.tokenizer && d'.params == d.params
    decreases |ids|
  {
    hide DecodeToken;
    if ids != [] {
      SameTokenizer(d, off, ids[0]);
      TokensSame(DecodeToken(d, off, ids[0]).0, DecodeToken(d, off, ids[0]).1, ids[1..]);
    }
  }

  lemma CheckKeeps(d: Detok, off: nat)
    ensures var (d', m) := CheckStop(d, off); m == None ==> d' == d
  {
    hide TextMatch, ByteMatch;
  }

  // Where nothing is checked there is nothing to find yet.
  lemma NoneUnchecked(d: Detok, d1: Detok, off: nat, ids: seq<nat>, stopTerminated: bool, u: string)
    requires Quiet(d) && Extended(d, d1, off) && ids != [] && (d1, off) == Extend(d, ids, stopTerminated)
    requires d1.count <= d1.params.minTokens || d1.tokenizer.None?
    requires u in d1.params.stop
    ensures FirstAfter(d1.text, u, d1.minOffset) == None
  {
    if d.tokenizer.None? {
      NoTokenizer(d, |d.text|, Decoded(d, ids, stopTerminated));
    }
    UncheckedMeansNoStop(d, d1, off);
    FirstAfterIs(d1.text, u, d1.minOffset);
    hide FirstAfter, OccursAt, DecodeTokens;
  }

  lemma CheckIsExact(d0: Detok, d: Detok, off: nat, u: string, all: Bytes)
    requires Quiet(d0) && Extended(d0, d, off) && d.params.stop == [u]
    requires Decodes(d, all) && Completable(all)
    ensures var (d', m) := CheckStop(d, off);
      && (m.Some? <==> FirstAfter(d.text, u, d.minOffset).Some?)
      && d'.text == CutAfter(d.text, u, d.minOffset, d.params.includeStop)
  {
    hide Extended, Quiet, Decodes, Completable, TextMatch, ByteMatch, Find;
    WindowSeesAll(d0, d, off, u);
    if FirstAfter(d.text, u, d.minOffset) == None {
      NoByteMatch(d0, d, off, all);
    }
  }

  // The byte search finds nothing that the text search has not found.
  lemma NoByteMatch(d: Detok, d1: Detok, off: nat, all: Bytes)
    requires Quiet(d) && Extended(d, d1, off) && Decodes(d1, all) && Completable(all)
    requires TextMatch(d1, off).None?
    ensures ByteMatch(d1).None?
  {
    NoMatchMeansNoStop(d, d1, off);
    StopsValid(d, d1, off);
    ExtendedRest(d, d1, off, all);
    hide Decodes, Quiet, Extended, TextMatch, ByteMatch, NoStop, Completable;
    if ByteMatch(d1).Some? {
      var (st, i) := ByteMatch(d1).value;
      ByteMatchIsInBuffer(d1, st, i);
      NotInBuffer(d1, st, i);
    }
  }

  lemma ExtendedRest(d: Detok, d1: Detok, off: nat, all: Bytes)
    requires Extended(d, d1, off) && Decodes(d1, all) && Completable(all)
    ensures Decode1(d1.buffer).None? && Completable(d1.buffer)
  {
    CompletableRest(all);
  }

  lemma NotInBuffer(d: Detok, st: string, i: nat)
    requires Valid(d) && st in d.params.stop && |EncodeAll(d.text)| <= i
    requires Decode1(d.buffer).None? && Completable(d.buffer)
    ensures !OccursAt(EncodeAll(d.text) + d.buffer, EncodeAll(st), i)
  {
    hide OccursAt, Completable, Decode1, EncodeAll;
    OccursShift(EncodeAll(d.text), d.buffer, EncodeAll(st), i - |EncodeAll(d.text)|);
    BufferHasNoMatch(d.buffer, st, i - |EncodeAll(d.text)|);
  }

  // ---------------------------------------------------------------- several stop strings

  // The match reported is that of the first stop string in the list that occurs in its window.
  lemma {:induction false} ListOrderWins(text: string, off: nat, stops: seq<string>) returns (k: nat)
    requires SearchText(text, off, stops).Some?
    ensures k < |stops|
    ensures var (st, i) := SearchText(text, off, stops).value;
      && stops[k] == st && Find(text, st, WindowStart(off, st)) == Some(i)
      && forall j :: 0 <= j < k ==> Find(text, stops[j], WindowStart(off, stops[j])).None?
  {
    if Find(text, stops[0], WindowStart(off, stops[0])).Some? {
      k := 0;
    } else {
      k := ListOrderWins(text, off, stops[1..]);
      k := k + 1;
    }
  }

  // So an earlier occurrence of a later stop string survives in the output: with stop strings "b"
  // and "a", the text "ab" is cut to "a".
  lemma EarlierStopCanSurvive()
    ensures var p := Params(true, 0, ["b", "a"], false);
      var d := Fresh(Some(Tokenizer([[], [0x61, 0x62]], {0})), p);
      var (d', m) := Update(d, [1], false);
      m == Some("b") && d'.text == "a" && OccursAt(d'.text, "a", 0)
  {
    var p := Params(true, 0, ["b", "a"], false);
    var d := Fresh(Some(Tokenizer([[], [0x61, 0x62]], {0})), p);
    var b: Bytes := [0x61, 0x62];
    assert b == EncodeAll("ab") by { assert "ab"[1..] == "b" && "b"[1..] == ""; }
    DecodeOfEncodeAll("ab");
    assert [] + b == b;
    var d2 := d.(count := 1, text := "ab", buffer := []);
    assert DecodeToken(d, 0, 1) == (d2, 0) by { assert "" + "ab" == "ab"; }
    assert [1][1..] == [];
    assert DecodeTokens(d2, 0, []) == (d2, 0);
    assert Find("ab", "b", 0) == Find("ab", "b", 1) == Some(1) by {
      assert "ab"[0..1] == "a" && "ab"[1..2] == "b";
    }
    assert SearchText("ab", 0, ["b", "a"]) == Some(("b", 1));
    assert "ab"[..1] == "a";
  }
}
