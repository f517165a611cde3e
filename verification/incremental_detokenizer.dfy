/** The detokenizer object: text, byte buffer, counters and offsets updated token by token. */
module IncrementalDetokenizing {
  import opened Wrappers
  import opened Utf8
  import D = Detokenizing

  class IncrementalDetokenizer {
    const tokenizer: Option<D.Tokenizer>
    const params: D.Params
    const stopBufferLength: nat
    const maxStopBytes: nat
    var outputText: string
    var byteBuffer: Bytes
    var lastNewText: string
    var outputTokenCount: nat
    var lastOutputTextOffset: nat
    var minTokensStopCheckOffset: nat

    constructor (tokenizer: Option<D.Tokenizer>, params: D.Params)
      ensures View() == D.Fresh(tokenizer, params) && Sized()
    {
      this.tokenizer, this.params := tokenizer, params;
      stopBufferLength := D.HeldBack(params);
      maxStopBytes := D.MaxBytes(params.stop);
      outputText, byteBuffer, lastNewText := [], [], [];
      outputTokenCount, lastOutputTextOffset, minTokensStopCheckOffset := 0, 0, 0;
    }

    function View(): D.Detok
      reads this
    {
      D.Detok(tokenizer, params, outputText, byteBuffer, outputTokenCount, lastOutputTextOffset, minTokensStopCheckOffset, lastNewText)
    }

    // The two lengths computed once from the stop strings.
    predicate Sized() {
      stopBufferLength == D.HeldBack(params) && maxStopBytes == D.MaxBytes(params.stop)
    }

    // Decode new tokens and check stop strings; the matched one, if any.
    method Update(newTokenIds: seq<nat>, stopTerminated: bool) returns (matched: Option<string>)
      requires Sized()
      modifies this
      ensures (View(), matched) == D.Update(old(View()), newTokenIds, stopTerminated)
    {
      hide D.CheckStop, D.DecodeToken;
      if newTokenIds == [] {
        lastNewText := [];
        return None;
      }
      var off := DecodeNew(D.Decoded(View(), newTokenIds, stopTerminated));
      if stopTerminated && !params.includeStop {
        outputTokenCount := outputTokenCount + 1;
      }
      lastNewText := if off <= |outputText| then outputText[off..] else [];
      matched := None;
      if outputTokenCount > params.minTokens && tokenizer.Some? {
        matched := CheckStopStrings(off);
      }
    }

    // The token loop; `off` is where the check for stop strings starts.
    method DecodeNew(ids: seq<nat>) returns (off: nat)
      modifies this
      ensures (View(), off) == D.DecodeTokens(old(View()), |old(outputText)|, ids)
    {
      off := |outputText|;
      ghost var d, start := View(), |outputText|;
      assert ids[0..] == ids;
      for i := 0 to |ids|
        invariant D.DecodeTokens(View(), off, ids[i..]) == D.DecodeTokens(d, start, ids)
      {
        ghost var before, offBefore := View(), off;
        assert ids[i..][1..] == ids[i + 1..];
        outputTokenCount := outputTokenCount + 1;
        if tokenizer.None? {
          assert (View(), off) == D.DecodeToken(before, offBefore, ids[i]);
          continue;
        }
        if params.skipSpecial && ids[i] in tokenizer.value.special {
          assert (View(), off) == D.DecodeToken(before, offBefore, ids[i]);
          continue;
        }
        byteBuffer := byteBuffer + tokenizer.value.TokenBytes(ids[i]);
        TryDecodeBuffer();
        if params.minTokens > 0 && outputTokenCount <= params.minTokens {
          off := |outputText|;
          minTokensStopCheckOffset := |outputText|;
        }
        assert (View(), off) == D.DecodeToken(before, offBefore, ids[i]);
      }
      assert ids[|ids|..] == [];
    }

    // Everything decodable moves from the buffer to the text.
    method TryDecodeBuffer()
      modifies `outputText, `byteBuffer
      ensures View() == D.DecodeBuffer(old(View()))
      ensures EncodeAll(outputText) + byteBuffer == EncodeAll(old(outputText)) + old(byteBuffer)
      ensures Decode1(byteBuffer).None?
    {
      hide Decode1, Encode, EncodeAll;
      var (decoded, rest) := Decode(byteBuffer);
      DecodeSplits(byteBuffer);
      EncodeAllAppend(outputText, decoded);
      outputText := outputText + decoded;
      byteBuffer := rest;
    }

    // The text that is new to the reader, or all of it; the tail that a stop string may still need is held back.
    method GetNextOutputText(finished: bool, delta: bool) returns (text: string)
      requires Sized()
      modifies `lastOutputTextOffset
      ensures delta ==> (View(), text) == D.NextDelta(old(View()), finished)
      ensures !delta ==> text == D.Visible(View(), finished) && View() == old(View())
    {
      var held := if finished then 0 else stopBufferLength;
      if !delta {
        return if held <= |outputText| then outputText[..|outputText| - held] else [];
      }
      var length := |outputText| - held;
      if lastOutputTextOffset < length {
        text := outputText[lastOutputTextOffset..length];
        lastOutputTextOffset := length;
      } else {
        text := [];
      }
    }

    // The text window first, then the bytes that are not text yet.
    method CheckStopStrings(off: nat) returns (matched: Option<string>)
      requires Sized()
      modifies `outputText, `byteBuffer
      ensures (View(), matched) == D.CheckStop(old(View()), off)
    {
      hide D.SearchText, D.SearchBytes, D.DecodeIgnore, D.MinBytes, EncodeAll;
      ghost var d := View();
      var found := SearchNewText(off);
      if found.Some? {
        var (st, i) := found.value;
        outputText := if params.includeStop then outputText[..i + |st|] else outputText[..i];
        return Some(st);
      }
      if byteBuffer != [] {
        var full := EncodeAll(outputText) + byteBuffer;
        var hit := SearchAllBytes(full);
        if hit.Some? {
          var (st, i) := hit.value;
          outputText := D.DecodeIgnore(if params.includeStop then full[..i + |EncodeAll(st)|] else full[..i]);
          byteBuffer := [];
          return Some(st);
        }
      }
      matched := None;
    }

    method SearchNewText(off: nat) returns (found: Option<(string, nat)>)
      ensures found == D.TextMatch(View(), off)
      ensures found.Some? ==> OccursAt(outputText, found.value.0, found.value.1)
    {
      hide Find, OccursAt;
      found := None;
      if off >= |outputText| {
        return;
      }
      for i := 0 to |params.stop|
        invariant found == None
        invariant D.SearchText(outputText, off, params.stop[i..]) == D.SearchText(outputText, off, params.stop)
      {
        var st := params.stop[i];
        assert params.stop[i..][1..] == params.stop[i + 1..];
        var idx := Find(outputText, st, D.WindowStart(off, st));
        if idx.Some? {
          return Some((st, idx.value));
        }
      }
    }

    method SearchAllBytes(full: Bytes) returns (found: Option<(string, nat)>)
      requires Sized()
      ensures found == D.SearchBytes(full, D.MinBytes(View()), D.MaxBytes(params.stop), params.stop)
      ensures found.Some? ==> OccursAt(full, EncodeAll(found.value.0), found.value.1)
    {
      hide Find, OccursAt, EncodeAll, D.MaxBytes;
      found := None;
      var minBytes := D.MinBytes(View());
      for i := 0 to |params.stop|
        invariant found == None
        invariant D.SearchBytes(full, minBytes, maxStopBytes, params.stop[i..]) == D.SearchBytes(full, minBytes, maxStopBytes, params.stop)
      {
        var st := params.stop[i];
        assert params.stop[i..][1..] == params.stop[i + 1..];
        var idx := Find(full, EncodeAll(st), D.ByteStart(full, minBytes, maxStopBytes, st));
        if idx.Some? {
          return Some((st, idx.value));
        }
      }
    }
  }
}
