/** Incremental detokenization and stop strings, as functions on the detokenizer's state. */
module Detokenizing {
  import opened Wrappers
  import opened Utf8

  datatype Tokenizer = Tokenizer(tokens: seq<Bytes>, special: set<nat>) {
    function TokenBytes(id: nat): Bytes {
      if id < |tokens| then tokens[id] else []
    }
  }

  datatype Params = Params(skipSpecial: bool, minTokens: nat, stop: seq<string>, includeStop: bool)

  // The detokenizer of one request. sentOffset marks the text handed out by delta reads, minOffset
  // the text of the first minTokens tokens.
  datatype Detok = Detok(
    tokenizer: Option<Tokenizer>,
    params: Params,
    text: string,
    buffer: Bytes,
    count: nat,
    sentOffset: nat,
    minOffset: nat,
    lastNew: string)

  // Stop strings are not empty; the offsets lie inside the text.
  ghost predicate Valid(d: Detok) {
    (forall st :: st in d.params.stop ==> st != []) && d.minOffset <= |d.text|
  }

  function Fresh(tokenizer: Option<Tokenizer>, params: Params): Detok {
    Detok(tokenizer, params, [], [], 0, 0, 0, [])
  }

  function MaxLength(stops: seq<string>): nat {
    if stops == [] then 0
    else
      var m := MaxLength(stops[1..]);
      if |stops[0]| >= m then |stops[0]| else m
  }

  function MaxBytes(stops: seq<string>): nat {
    if stops == [] then 0
    else
      var m, n := MaxBytes(stops[1..]), |EncodeAll(stops[0])|;
      if n >= m then n else m
  }

  // How many characters are held back while a stop string could still be completed.
  function HeldBack(p: Params): nat {
    if p.stop != [] && !p.includeStop && MaxLength(p.stop) >= 1 then MaxLength(p.stop) - 1 else 0
  }

  // _try_decode_buffer: strict decoding reports the start of the first bad or incomplete sequence.
  function DecodeBuffer(d: Detok): Detok {
    var (t, rest) := Decode(d.buffer);
    d.(text := d.text + t, buffer := rest)
  }

  // One token of the decode loop; `off` is the position from which stop strings are looked for.
  function DecodeToken(d: Detok, off: nat, id: nat): (Detok, nat) {
    var d1 := d.(count := d.count + 1);
    if d.tokenizer.None? then (d1, off)
    else if d.params.skipSpecial && id in d.tokenizer.value.special then (d1, off)
    else
      var d2 := DecodeBuffer(d1.(buffer := d1.buffer + d.tokenizer.value.TokenBytes(id)));
      if d.params.minTokens > 0 && d2.count <= d.params.minTokens then (d2.(minOffset := |d2.text|), |d2.text|)
      else (d2, off)
  }

  function DecodeTokens(d: Detok, off: nat, ids: seq<nat>): (Detok, nat)
    decreases |ids|
  {
    if ids == [] then (d, off)
    else
      var (d', off') := DecodeToken(d, off, ids[0]);
      DecodeTokens(d', off', ids[1..])
  }

  // The tokens an update decodes: a terminating stop token is left out unless it is wanted.
  function Decoded(d: Detok, ids: seq<nat>, stopTerminated: bool): seq<nat> {
    if ids != [] && stopTerminated && !d.params.includeStop then ids[..|ids| - 1] else ids
  }

  // update() up to the stop check: the new state and the position the check starts from.
  function Extend(d: Detok, ids: seq<nat>, stopTerminated: bool): (Detok, nat) {
    var (d1, off) := DecodeTokens(d, |d.text|, Decoded(d, ids, stopTerminated));
    var d2 := if stopTerminated && !d.params.includeStop then d1.(count := d1.count + 1) else d1;
    (d2.(lastNew := if off <= |d2.text| then d2.text[off..] else []), off)
  }

  function Update(d: Detok, ids: seq<nat>, stopTerminated: bool): (Detok, Option<string>) {
    if ids == [] then (d.(lastNew := []), None)
    else
      var (d', off) := Extend(d, ids, stopTerminated);
      if d'.count > d'.params.minTokens && d'.tokenizer.Some? then CheckStop(d', off) else (d', None)
  }

  // Where the window for one stop string begins.
  function WindowStart(off: nat, st: string): nat {
    if off + 1 >= |st| then off + 1 - |st| else 0
  }

  // The first stop string of the list found in the window, and where.
  function SearchText(text: string, off: nat, stops: seq<string>): Option<(string, nat)> {
    if stops == [] then None
    else
      match Find(text, stops[0], WindowStart(off, stops[0]))
      case Some(i) => Some((stops[0], i))
      case None => SearchText(text, off, stops[1..])
  }

  function ByteStart(full: Bytes, minBytes: nat, maxBytes: nat, st: string): nat {
    var n := |EncodeAll(st)| + maxBytes;
    if |full| >= n && |full| - n > minBytes then |full| - n else minBytes
  }

  function SearchBytes(full: Bytes, minBytes: nat, maxBytes: nat, stops: seq<string>): Option<(string, nat)> {
    if stops == [] then None
    else
      match Find(full, EncodeAll(stops[0]), ByteStart(full, minBytes, maxBytes, stops[0]))
      case Some(i) => Some((stops[0], i))
      case None => SearchBytes(full, minBytes, maxBytes, stops[1..])
  }

  // bytes.decode(errors="ignore"): undecodable bytes are dropped one by one.
  function DecodeIgnore(s: Bytes): string
    decreases |s|
  {
    if s == [] then []
    else
      match Decode1(s)
      case None => DecodeIgnore(s[1..])
      case Some((c, n)) => [c] + DecodeIgnore(s[n..])
  }

  function CutText(d: Detok, st: string, i: nat): Detok
    requires OccursAt(d.text, st, i)
  {
    d.(text := if d.params.includeStop then d.text[..i + |st|] else d.text[..i])
  }

  function CutBytes(d: Detok, full: Bytes, st: string, i: nat): Detok
    requires OccursAt(full, EncodeAll(st), i)
  {
    d.(text := DecodeIgnore(if d.params.includeStop then full[..i + |EncodeAll(st)|] else full[..i]), buffer := [])
  }

  function MinBytes(d: Detok): nat {
    |EncodeAll(if d.minOffset <= |d.text| then d.text[..d.minOffset] else d.text)|
  }

  function ByteMatch(d: Detok): Option<(string, nat)> {
    if d.buffer == [] then None
    else SearchBytes(EncodeAll(d.text) + d.buffer, MinBytes(d), MaxBytes(d.params.stop), d.params.stop)
  }

  lemma {:induction false} SearchTextFinds(text: string, off: nat, stops: seq<string>)
    ensures var r := SearchText(text, off, stops);
      && (r.Some? ==> r.value.0 in stops && WindowStart(off, r.value.0) <= r.value.1 && OccursAt(text, r.value.0, r.value.1))
      && (r.None? ==> forall st, i :: st in stops && WindowStart(off, st) <= i ==> !OccursAt(text, st, i))
  {
    if stops != [] {
      SearchTextFinds(text, off, stops[1..]);
      assert forall st :: st in stops <==> st == stops[0] || st in stops[1..];
    }
  }

  lemma {:induction false} SearchBytesFinds(full: Bytes, minBytes: nat, maxBytes: nat, stops: seq<string>)
    ensures var r := SearchBytes(full, minBytes, maxBytes, stops);
      r.Some? ==> r.value.0 in stops && minBytes <= r.value.1 && OccursAt(full, EncodeAll(r.value.0), r.value.1)
  {
    if stops != [] {
      SearchBytesFinds(full, minBytes, maxBytes, stops[1..]);
      assert forall st :: st in stops <==> st == stops[0] || st in stops[1..];
    }
  }

  function TextMatch(d: Detok, off: nat): Option<(string, nat)> {
    if off < |d.text| then SearchText(d.text, off, d.params.stop) else None
  }

  // _check_stop_strings: the text window first, then the bytes not decodable yet.
  function CheckStop(d: Detok, off: nat): (Detok, Option<string>) {
    SearchTextFinds(d.text, off, d.params.stop);
    SearchBytesFinds(EncodeAll(d.text) + d.buffer, MinBytes(d), MaxBytes(d.params.stop), d.params.stop);
    match TextMatch(d, off)
    case Some((st, i)) => (CutText(d, st, i), Some(st))
    case None =>
      match ByteMatch(d)
      case Some((st, i)) => (CutBytes(d, EncodeAll(d.text) + d.buffer, st, i), Some(st))
      case None => (d, None)
  }

  // What a delta read hands out, and what a cumulative read shows.
  function Visible(d: Detok, finished: bool): string {
    var held := if finished then 0 else HeldBack(d.params);
    if held <= |d.text| then d.text[..|d.text| - held] else []
  }

  function NextDelta(d: Detok, finished: bool): (Detok, string) {
    var length := |Visible(d, finished)|;
    if d.sentOffset < length then (d.(sentOffset := length), d.text[d.sentOffset..length]) else (d, [])
  }
}
