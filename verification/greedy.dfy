/** Greedy longest-match tokenization as a function of the vocabulary, and what it guarantees. */
module Greedy {
  import opened Wrappers
  import opened Utf8

  type Vocab = map<Bytes, nat>

  // The length of the longest entry at the front of s, among the first n bytes; 0 if there is none.
  function Longest(vocab: Vocab, s: Bytes, n: nat): (l: nat)
    requires n <= |s|
    ensures l <= n && (l > 0 ==> s[..l] in vocab)
    ensures forall m :: l < m <= n ==> s[..m] !in vocab
  {
    if n == 0 then 0 else if s[..n] in vocab then n else Longest(vocab, s, n - 1)
  }

  predicate Begins(vocab: Vocab, b: Byte) {
    exists k :: k in vocab && k != [] && k[0] == b
  }

  // What is emitted at the front of s, and how many bytes it takes. Where longer entries begin but
  // none ends, the number stored for "no entry" goes out and one byte is skipped.
  function Front(vocab: Vocab, s: Bytes): (e: (int, nat))
    requires s != []
    ensures 0 < e.1 <= |s|
  {
    var n := Longest(vocab, s, |s|);
    if n == 0 then (-1, 1) else (vocab[s[..n]], n)
  }

  // encode() on bytes; None where a byte begins no entry and the missing node is dereferenced.
  function Encoded(vocab: Vocab, s: Bytes): Option<seq<int>>
    decreases |s|
  {
    if s == [] then Some([])
    else if !Begins(vocab, s[0]) then None
    else
      var (id, n) := Front(vocab, s);
      match Encoded(vocab, s[n..])
      case None => None
      case Some(ids) => Some([id] + ids)
  }

  // ---------------------------------------------------------------- back to bytes

  // Reading the table of tokens: an id past the end is skipped, a negative one counts from the end.
  function Entry(table: seq<Bytes>, id: int): Option<Bytes> {
    if id >= |table| then Some([])
    else if id >= 0 then Some(table[id])
    else if -id <= |table| then Some(table[|table| + id])
    else None
  }

  function Join(table: seq<Bytes>, ids: seq<int>): Option<Bytes> {
    if ids == [] then Some([])
    else
      match (Entry(table, ids[0]), Join(table, ids[1..]))
      case (Some(x), Some(xs)) => Some(x + xs)
      case _ => None
  }

  // The bytes of a bad or incomplete sequence that one replacement character stands for.
  function BadWidth(s: Bytes): (n: nat)
    requires s != [] && Width(s) == 0
    ensures 1 <= n <= 3 && n <= |s|
  {
    if 0xE0 <= s[0] <= 0xEF && |s| >= 2 && Second3(s[0], s[1]) then 2
    else if 0xF0 <= s[0] <= 0xF4 && |s| >= 2 && Second4(s[0], s[1]) then if |s| >= 3 && Tail(s[2]) then 3 else 2
    else 1
  }

  // bytes.decode("utf-8", errors="replace")
  function DecodeReplacing(s: Bytes): string
    decreases |s|
  {
    if s == [] then []
    else if Width(s) == 0 then ['\U{FFFD}'] + DecodeReplacing(s[BadWidth(s)..])
    else [Point(s) as char] + DecodeReplacing(s[Width(s)..])
  }

  function Decoded(table: seq<Bytes>, ids: seq<int>): Option<string> {
    match Join(table, ids)
    case None => None
    case Some(bytes) => Some(DecodeReplacing(bytes))
  }

  // ---------------------------------------------------------------- properties

  // The table gives back every entry of the vocabulary.
  ghost predicate Agree(vocab: Vocab, table: seq<Bytes>) {
    forall k :: k in vocab ==> vocab[k] < |table| && table[vocab[k]] == k
  }

  ghost predicate HasAllBytes(vocab: Vocab) {
    forall b: Byte :: [b] in vocab
  }

  lemma AllBytesMatch(vocab: Vocab, s: Bytes)
    requires HasAllBytes(vocab) && s != []
    ensures Begins(vocab, s[0]) && Longest(vocab, s, |s|) > 0
  {
    assert s[..1] == [s[0]];
  }

  // With every single byte an entry, encoding is lossless.
  lemma {:induction false} BytesRoundTrip(vocab: Vocab, table: seq<Bytes>, s: Bytes)
    requires HasAllBytes(vocab) && Agree(vocab, table)
    ensures Encoded(vocab, s).Some? && Join(table, Encoded(vocab, s).value) == Some(s)
    ensures forall id :: id in Encoded(vocab, s).value ==> 0 <= id < |table|
    decreases |s|
  {
    if s != [] {
      AllBytesMatch(vocab, s);
      var (id, n) := Front(vocab, s);
      BytesRoundTrip(vocab, table, s[n..]);
      var ids := Encoded(vocab, s[n..]).value;
      assert ([id] + ids)[1..] == ids;
      assert s == s[..n] + s[n..];
    }
  }

  lemma {:induction false} ReplacingKeepsText(t: string)
    ensures DecodeReplacing(EncodeAll(t)) == t
  {
    if t != [] {
      Decode1OfEncode(t[0], EncodeAll(t[1..]));
      ReplacingKeepsText(t[1..]);
      assert t == [t[0]] + t[1..];
    }
  }

  // ---------------------------------------------------------------- bytes that are no text

  // The bytes are the beginning of some character, or all of one.
  ghost predicate Opens(b: Bytes) {
    exists c: char :: b <= Encode(c)
  }

  // What one replacement character stands for: no character is at the front of s, and b is as much of s as
  // still begins one, at least one byte.
  ghost predicate BadPiece(b: Bytes, s: Bytes) {
    && Decode1(s).None? && b != [] && b <= s
    && (|b| == 1 || Opens(b))
    && forall m :: |b| < m <= |s| ==> !Opens(s[..m])
  }

  function Flat(pieces: seq<Bytes>): Bytes {
    if pieces == [] then [] else pieces[0] + Flat(pieces[1..])
  }

  // Every piece is the encoding of the character in its place, or stands replaced.
  ghost predicate Renders(pieces: seq<Bytes>, text: string) {
    if pieces == [] || text == [] then pieces == [] && text == []
    else
      && (pieces[0] == Encode(text[0]) || (text[0] == '\U{FFFD}' && BadPiece(pieces[0], Flat(pieces))))
      && Renders(pieces[1..], text[1..])
  }

  lemma OpensWith(b: Bytes, x: Bytes)
    requires Width(b + x) > 0 && Width(b + x) == |b + x|
    ensures Opens(b)
  {
    EncodeOfDecode1(b + x);
    assert b <= Encode(Decode1(b + x).value.0);
  }

  lemma BadWidthOpens(s: Bytes)
    requires s != [] && Width(s) == 0 && BadWidth(s) > 1
    ensures Opens(s[..BadWidth(s)])
  {
    if s[0] <= 0xEF {
      OpensWith(s[..2], [0x80]);
    } else if BadWidth(s) == 2 {
      OpensWith(s[..2], [0x80, 0x80]);
    } else {
      OpensWith(s[..3], [0x80]);
    }
  }

  lemma CharacterInFront(s: Bytes, c: char)
    requires Encode(c) <= s
    ensures Width(s) > 0
  {
    Decode1OfEncode(c, s[|Encode(c)|..]);
    assert s == Encode(c) + s[|Encode(c)|..];
  }

  lemma BadWidthIsLongest(s: Bytes, m: nat)
    requires s != [] && Width(s) == 0 && m <= |s| && Opens(s[..m])
    ensures m <= BadWidth(s)
  {
    var c: char :| s[..m] <= Encode(c);
    if Encode(c) <= s {
      CharacterInFront(s, c);
      assert false;
    }
    Decode1OfEncode(c, []);
    assert Encode(c) + [] == Encode(c);
    hide Encode, Point;
    assert forall i :: 0 <= i < m ==> s[i] == s[..m][i] == Encode(c)[i];
  }

  lemma BadWidthIsPiece(s: Bytes)
    requires s != [] && Width(s) == 0
    ensures BadPiece(s[..BadWidth(s)], s)
  {
    hide Opens;
    var n := BadWidth(s);
    if n > 1 {
      BadWidthOpens(s);
    }
    forall m | n < m <= |s| ensures !Opens(s[..m]) {
      if Opens(s[..m]) {
        BadWidthIsLongest(s, m);
        assert false;
      }
    }
  }

  lemma BadPieceIsOne(a: Bytes, b: Bytes, s: Bytes)
    requires BadPiece(a, s) && BadPiece(b, s)
    ensures a == b
  {
    hide Opens;
    assert a == s[..|a|] && b == s[..|b|];
  }

  lemma {:induction false} ReplacingRenders(s: Bytes) returns (pieces: seq<Bytes>)
    ensures Flat(pieces) == s && Renders(pieces, DecodeReplacing(s))
    decreases |s|
  {
    hide BadPiece, Width, Point, Octets;
    if s == [] {
      pieces := [];
    } else {
      var n := if Width(s) == 0 then BadWidth(s) else Width(s);
      var rest := ReplacingRenders(s[n..]);
      pieces := [s[..n]] + rest;
      assert pieces[1..] == rest && s == s[..n] + s[n..];
      if Width(s) == 0 {
        BadWidthIsPiece(s);
      } else {
        EncodeOfDecode1(s);
      }
    }
  }

  lemma {:induction false} RendersIsReplacing(pieces: seq<Bytes>, text: string)
    requires Renders(pieces, text)
    ensures text == DecodeReplacing(Flat(pieces))
    decreases |pieces|
  {
    hide BadPiece, Width, Point, Octets, Encode;
    if pieces != [] {
      var s, rest := Flat(pieces), Flat(pieces[1..]);
      RendersIsReplacing(pieces[1..], text[1..]);
      assert s[|pieces[0]|..] == rest;
      if pieces[0] == Encode(text[0]) {
        Decode1OfEncode(text[0], rest);
      } else {
        PieceHasNoText(pieces[0], s);
        BadWidthIsPiece(s);
        BadPieceIsOne(pieces[0], s[..BadWidth(s)], s);
      }
    }
  }

  lemma PieceHasNoText(b: Bytes, s: Bytes)
    requires BadPiece(b, s)
    ensures s != [] && Width(s) == 0
  {
  }

  // What decoding with replacement gives for any bytes: they are cut, in one way only, into the encodings
  // of its characters and pieces that begin a character and do not go on with it, one U+FFFD for each.
  lemma {:induction false} ReplacingIs(s: Bytes, text: string)
    ensures DecodeReplacing(s) == text <==> exists pieces :: Flat(pieces) == s && Renders(pieces, text)
  {
    hide DecodeReplacing, Renders, Flat;
    var pieces := ReplacingRenders(s);
    forall pieces | Flat(pieces) == s && Renders(pieces, text) ensures DecodeReplacing(s) == text {
      RendersIsReplacing(pieces, text);
    }
  }

  // ---------------------------------------------------------------- round trips of text

  // decode(encode(text)) == text, for every text.
  lemma TextRoundTrip(vocab: Vocab, table: seq<Bytes>, text: string)
    requires HasAllBytes(vocab) && Agree(vocab, table)
    ensures var ids := Encoded(vocab, EncodeAll(text)); ids.Some? && Decoded(table, ids.value) == Some(text)
  {
    BytesRoundTrip(vocab, table, EncodeAll(text));
    ReplacingKeepsText(text);
  }

  // Every byte string is encoded without an error and without an invented id exactly when all 256
  // single bytes are entries.
  lemma AllBytesNeeded(vocab: Vocab)
    ensures HasAllBytes(vocab) <==> forall s: Bytes :: Encoded(vocab, s).Some? && -1 !in Encoded(vocab, s).value
  {
    if HasAllBytes(vocab) {
      forall s: Bytes
        ensures Encoded(vocab, s).Some? && -1 !in Encoded(vocab, s).value
      {
        NoneInvented(vocab, s);
      }
    } else {
      var b: Byte :| [b] !in vocab;
      var s := MissingByte(vocab, b);
      assert !(Encoded(vocab, s).Some? && -1 !in Encoded(vocab, s).value);
    }
  }

  lemma MissingByte(vocab: Vocab, b: Byte) returns (s: Bytes)
    requires [b] !in vocab
    ensures !(Encoded(vocab, s).Some? && -1 !in Encoded(vocab, s).value)
  {
    s := [b];
    assert s[..1] == s && s[1..] == [];
    assert Longest(vocab, s, |s|) == 0;
    assert Front(vocab, s) == (-1, 1) && Encoded(vocab, s[1..]) == Some([]);
    assert Begins(vocab, s[0]) ==> Encoded(vocab, s).value[0] == -1;
  }

  lemma {:induction false} NoneInvented(vocab: Vocab, s: Bytes)
    requires HasAllBytes(vocab)
    ensures Encoded(vocab, s).Some? && -1 !in Encoded(vocab, s).value
    decreases |s|
  {
    if s != [] {
      AllBytesMatch(vocab, s);
      NoneInvented(vocab, s[Front(vocab, s).1..]);
    }
  }

  // ---------------------------------------------------------------- greedy, said without the algorithm

  // At every position the entry of the id emitted there is the longest one that matches.
  ghost predicate LongestEach(vocab: Vocab, table: seq<Bytes>, s: Bytes, ids: seq<int>)
    decreases |ids|
  {
    if ids == [] then s == []
    else
      && 0 <= ids[0] < |table|
      && LongestEntry(vocab, s, table[ids[0]]) && vocab[table[ids[0]]] == ids[0]
      && LongestEach(vocab, table, s[|table[ids[0]]|..], ids[1..])
  }

  ghost predicate LongestEntry(vocab: Vocab, s: Bytes, e: Bytes) {
    e in vocab && e != [] && e <= s && forall k :: k in vocab && k <= s ==> |k| <= |e|
  }

  lemma LongestIsEntry(vocab: Vocab, s: Bytes)
    requires Longest(vocab, s, |s|) > 0
    ensures LongestEntry(vocab, s, s[..Longest(vocab, s, |s|)])
  {
    forall k | k in vocab && k <= s
      ensures |k| <= Longest(vocab, s, |s|)
    {
      assert k == s[..|k|];
    }
  }

  lemma EntryIsLongest(vocab: Vocab, s: Bytes, e: Bytes)
    requires LongestEntry(vocab, s, e)
    ensures Longest(vocab, s, |s|) == |e| && s[..|e|] == e
  {
    assert s[..|e|] == e;
    assert s[..Longest(vocab, s, |s|)] <= s;
  }

  // The encoding is the one and only sequence of longest matches.
  lemma {:induction false} GreedyIsLongest(vocab: Vocab, table: seq<Bytes>, s: Bytes, ids: seq<int>)
    requires Agree(vocab, table)
    ensures LongestEach(vocab, table, s, ids) <==> Encoded(vocab, s) == Some(ids) && -1 !in ids
    decreases |ids|
  {
    if s != [] && ids != [] {
      if Longest(vocab, s, |s|) > 0 {
        LongestIsEntry(vocab, s);
        var n := Longest(vocab, s, |s|);
        assert Begins(vocab, s[0]) by {
          assert s[..n] in vocab && s[..n][0] == s[0];
        }
        GreedyIsLongest(vocab, table, s[n..], ids[1..]);
        assert ids == [ids[0]] + ids[1..];
        if LongestEach(vocab, table, s, ids) {
          EntryIsLongest(vocab, s, table[ids[0]]);
        }
      } else if LongestEach(vocab, table, s, ids) {
        EntryIsLongest(vocab, s, table[ids[0]]);
        assert false;
      }
    }
  }

  // ---------------------------------------------------------------- every vocabulary, every id

  // What encoding emits, also where entries are missing: at every position the id of the longest entry that
  // matches; where none does but some entry begins with the byte there, -1 for that byte.
  ghost predicate Emits(vocab: Vocab, s: Bytes, ids: seq<int>)
    decreases |ids|
  {
    if s == [] || ids == [] then s == [] && ids == []
    else
      || (exists e :: LongestEntry(vocab, s, e) && vocab[e] == ids[0] && Emits(vocab, s[|e|..], ids[1..]))
      || (ids[0] == -1 && NoEntry(vocab, s) && Begins(vocab, s[0]) && Emits(vocab, s[1..], ids[1..]))
  }

  ghost predicate NoEntry(vocab: Vocab, s: Bytes) {
    forall k :: k in vocab && k <= s ==> k == []
  }

  lemma NoEntryIff(vocab: Vocab, s: Bytes)
    ensures NoEntry(vocab, s) <==> Longest(vocab, s, |s|) == 0
  {
    var n := Longest(vocab, s, |s|);
    if n == 0 {
      forall k | k in vocab && k <= s ensures k == [] {
        assert k == s[..|k|];
      }
    } else {
      assert s[..n] <= s && s[..n] in vocab;
    }
  }

  // Where a longest entry matches, its first byte begins an entry.
  lemma EntryBegins(vocab: Vocab, s: Bytes, e: Bytes)
    requires LongestEntry(vocab, s, e)
    ensures s != [] && Begins(vocab, s[0]) && Front(vocab, s) == (vocab[e], |e|) && !NoEntry(vocab, s)
  {
    EntryIsLongest(vocab, s, e);
    assert e[0] == s[0];
  }

  lemma IsInVocab(vocab: Vocab, s: Bytes, e: Bytes)
    requires LongestEntry(vocab, s, e)
    ensures e in vocab
  {
  }

  // For every vocabulary and all bytes these are the ids, and encoding fails exactly where there are none:
  // on the way it comes to a byte no entry begins with.
  lemma {:induction false} EncodingIs(vocab: Vocab, s: Bytes, ids: seq<int>)
    ensures Emits(vocab, s, ids) <==> Encoded(vocab, s) == Some(ids)
    decreases |ids|
  {
    hide LongestEntry, NoEntry, Begins;
    if s != [] && ids != [] {
      NoEntryIff(vocab, s);
      forall e | LongestEntry(vocab, s, e)
        ensures e in vocab && Begins(vocab, s[0]) && Front(vocab, s) == (vocab[e], |e|) && !NoEntry(vocab, s)
      {
        IsInVocab(vocab, s, e);
        EntryBegins(vocab, s, e);
      }
      var n := Front(vocab, s).1;
      if Longest(vocab, s, |s|) > 0 {
        LongestIsEntry(vocab, s);
        assert s[..n] in vocab;
      }
      EncodingIs(vocab, s[n..], ids[1..]);
      assert Encoded(vocab, s[n..]) == Some(ids[1..]) ==> [ids[0]] + ids[1..] == ids;
      if Encoded(vocab, s) == Some(ids) {
        assert ([Front(vocab, s).0] + Encoded(vocab, s[n..]).value)[1..] == Encoded(vocab, s[n..]).value;
      }
    }
  }

  // The bytes of one id when decoding: its entry, nothing past the end of the table, and for a negative id
  // the entry counted from the end.
  ghost predicate StandsFor(table: seq<Bytes>, id: int, b: Bytes) {
    && -|table| <= id
    && b == if id >= |table| then [] else if id < 0 then table[|table| + id] else table[id]
  }

  // Decoding joins the bytes of the ids and fails exactly for an id below all entries.
  lemma {:induction false} JoinIs(table: seq<Bytes>, ids: seq<int>) returns (pieces: seq<Bytes>)
    ensures Join(table, ids).Some? <==> forall id :: id in ids ==> -|table| <= id
    ensures Join(table, ids).Some? ==>
      |pieces| == |ids| && Join(table, ids) == Some(Flat(pieces)) && forall i :: 0 <= i < |ids| ==> StandsFor(table, ids[i], pieces[i])
  {
    pieces := [];
    if ids != [] {
      var rest := JoinIs(table, ids[1..]);
      assert ids == [ids[0]] + ids[1..];
      if forall id :: id in ids ==> -|table| <= id {
        assert ids[0] in ids && forall id :: id in ids[1..] ==> id in ids;
        assert Entry(table, ids[0]).Some? && Join(table, ids[1..]).Some?;
      }
      if Join(table, ids).Some? {
        pieces := [Entry(table, ids[0]).value] + rest;
        assert pieces[1..] == rest;
      }
    }
  }
}
