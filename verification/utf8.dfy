/** UTF-8 as defined in section 4 of RFC 3629: encoding, decoding, and how byte strings line up. */
module Utf8 {
  import opened Wrappers

  type Byte = x: int | 0 <= x < 256

  type Bytes = seq<Byte>

  // The octets of a code point.
  function Octets(v: int): (b: Bytes)
    requires 0 <= v < 0x11_0000
    ensures 1 <= |b| <= 4
  {
    if v < 0x80 then [v]
    else if v < 0x800 then [0xC0 + v / 64, 0x80 + v % 64]
    else if v < 0x1_0000 then [0xE0 + v / 4096, 0x80 + v / 64 % 64, 0x80 + v % 64]
    else [0xF0 + v / 262144, 0x80 + v / 4096 % 64, 0x80 + v / 64 % 64, 0x80 + v % 64]
  }

  function Encode(c: char): (b: Bytes)
    ensures 1 <= |b| <= 4
  {
    Octets(c as int)
  }

  // UTF8-tail
  predicate Tail(b: Byte) {
    0x80 <= b <= 0xBF
  }

  // The second octet of a three-octet character: no overlong forms, no surrogates.
  predicate Second3(a: Byte, b: Byte) {
    if a == 0xE0 then 0xA0 <= b <= 0xBF else if a == 0xED then 0x80 <= b <= 0x9F else Tail(b)
  }

  // The second octet of a four-octet character: no overlong forms, nothing above U+10FFFF.
  predicate Second4(a: Byte, b: Byte) {
    if a == 0xF0 then 0x90 <= b <= 0xBF else if a == 0xF4 then 0x80 <= b <= 0x8F else Tail(b)
  }

  // How many octets the character at the front takes; 0 if no complete character is there.
  function Width(s: Bytes): (n: nat)
    ensures n <= |s|
  {
    if s == [] then 0
    else if s[0] <= 0x7F then 1
    else if 0xC2 <= s[0] <= 0xDF && |s| >= 2 && Tail(s[1]) then 2
    else if 0xE0 <= s[0] <= 0xEF && |s| >= 3 && Second3(s[0], s[1]) && Tail(s[2]) then 3
    else if 0xF0 <= s[0] <= 0xF4 && |s| >= 4 && Second4(s[0], s[1]) && Tail(s[2]) && Tail(s[3]) then 4
    else 0
  }

  // The code point of the character at the front.
  function Point(s: Bytes): (v: int)
    requires Width(s) > 0
    ensures 0 <= v < 0xD800 || 0xE000 <= v < 0x11_0000
  {
    var a: int := s[0];
    if Width(s) == 1 then a
    else
      var b: int := s[1] - 0x80;
      if Width(s) == 2 then (a - 0xC0) * 64 + b
      else
        var c: int := s[2] - 0x80;
        if Width(s) == 3 then (a - 0xE0) * 4096 + b * 64 + c
        else
          var d: int := s[3] - 0x80;
          (a - 0xF0) * 262144 + b * 4096 + c * 64 + d
  }

  // The character at the front of a byte string and its length, if there is a complete one.
  function Decode1(s: Bytes): Option<(char, nat)> {
    if Width(s) == 0 then None else Some((Point(s) as char, Width(s)))
  }

  // Base-64 digits determine a number and are determined by it.
  lemma Div64(q: int, r: int)
    requires 0 <= q && 0 <= r < 64
    ensures (q * 64 + r) / 64 == q && (q * 64 + r) % 64 == r
  {
  }

  lemma Div4096(v: int)
    requires 0 <= v
    ensures v / 4096 == v / 64 / 64
  {
    var q, r := v / 64, v % 64;
    var q2, r2 := q / 64, q % 64;
    assert v == q2 * 4096 + r2 * 64 + r;
  }

  lemma Div262144(v: int)
    requires 0 <= v
    ensures v / 262144 == v / 64 / 64 / 64
  {
    Div4096(v);
    var q, r := v / 4096, v % 4096;
    var q2, r2 := q / 64, q % 64;
    assert v == q2 * 262144 + r2 * 4096 + r;
  }

  lemma DigitsUnique(a: int, b: int, c: int, d: int)
    requires 0 <= a && 0 <= b < 64 && 0 <= c < 64 && 0 <= d < 64
    ensures var v := a * 262144 + b * 4096 + c * 64 + d;
      v / 262144 == a && v / 4096 % 64 == b && v / 64 % 64 == c && v % 64 == d && v / 4096 == a * 64 + b && v / 64 == a * 4096 + b * 64 + c
  {
    var v := a * 262144 + b * 4096 + c * 64 + d;
    Div4096(v);
    Div262144(v);
    Div64(a * 4096 + b * 64 + c, d);
    Div64(a * 64 + b, c);
    Div64(a, b);
  }

  // What is decoded is exactly what encodes to those bytes.
  lemma Decode1Encodes(s: Bytes)
    requires Width(s) > 0
    ensures Octets(Point(s)) == s[..Width(s)]
  {
    var n := Width(s);
    if n == 2 {
      Encodes2(s);
    } else if n == 3 {
      Encodes3(s);
    } else if n == 4 {
      Encodes4(s);
    }
  }

  lemma Encodes2(s: Bytes)
    requires Width(s) == 2
    ensures Octets(Point(s)) == s[..2]
  {
    DigitsUnique(0, 0, s[0] - 0xC0, s[1] - 0x80);
  }

  lemma Encodes3(s: Bytes)
    requires Width(s) == 3
    ensures Octets(Point(s)) == s[..3]
  {
    DigitsUnique(0, s[0] - 0xE0, s[1] - 0x80, s[2] - 0x80);
  }

  lemma Encodes4(s: Bytes)
    requires Width(s) == 4
    ensures Octets(Point(s)) == s[..4]
  {
    DigitsUnique(s[0] - 0xF0, s[1] - 0x80, s[2] - 0x80, s[3] - 0x80);
  }

  lemma Digits(v: int)
    requires 0 <= v
    ensures v == v / 64 * 64 + v % 64
    ensures v == v / 4096 * 4096 + v / 64 % 64 * 64 + v % 64
    ensures v == v / 262144 * 262144 + v / 4096 % 64 * 4096 + v / 64 % 64 * 64 + v % 64
  {
    Div4096(v);
    Div262144(v);
  }

  // Encoding a scalar value and reading it back.
  lemma OctetsDecode(v: int, x: Bytes)
    requires 0 <= v < 0xD800 || 0xE000 <= v < 0x11_0000
    ensures Width(Octets(v) + x) == |Octets(v)| && Point(Octets(v) + x) == v
  {
    if v >= 0x1_0000 {
      OctetsDecode4(v, x);
    } else if v >= 0x800 {
      OctetsDecode3(v, x);
    } else {
      Digits(v);
    }
  }

  lemma OctetsDecode3(v: int, x: Bytes)
    requires 0x800 <= v < 0xD800 || 0xE000 <= v < 0x1_0000
    ensures Width(Octets(v) + x) == 3 && Point(Octets(v) + x) == v
  {
    Digits(v);
    var s := Octets(v) + x;
    assert s[0] == 0xE0 + v / 4096 && s[1] == 0x80 + v / 64 % 64 && s[2] == 0x80 + v % 64;
  }

  lemma OctetsDecode4(v: int, x: Bytes)
    requires 0x1_0000 <= v < 0x11_0000
    ensures Width(Octets(v) + x) == 4 && Point(Octets(v) + x) == v
  {
    Digits(v);
    var s := Octets(v) + x;
    assert s[0] == 0xF0 + v / 262144 && s[1] == 0x80 + v / 4096 % 64 && s[2] == 0x80 + v / 64 % 64 && s[3] == 0x80 + v % 64;
  }

  // Only the first octet of a character can start one.
  lemma LeadAndTails(v: int)
    requires 0 <= v < 0x11_0000
    ensures !Tail(Octets(v)[0])
    ensures forall i :: 1 <= i < |Octets(v)| ==> Tail(Octets(v)[i])
  {
  }

  lemma WidthOfMore(s: Bytes, x: Bytes)
    requires Width(s) > 0
    ensures Width(s + x) == Width(s) && Point(s + x) == Point(s)
  {
  }

  // ---------------------------------------------------------------- strings

  function EncodeAll(t: string): Bytes {
    if t == [] then [] else Encode(t[0]) + EncodeAll(t[1..])
  }

  // The longest decodable prefix of a byte string as text, and the bytes after it.
  function Decode(s: Bytes): (string, Bytes)
    decreases |s|
  {
    if Decode1(s).None? then ([], s)
    else
      var (c, n) := Decode1(s).value;
      var (t, rest) := Decode(s[n..]);
      ([c] + t, rest)
  }

  lemma Decode1OfEncode(c: char, x: Bytes)
    ensures Decode1(Encode(c) + x) == Some((c, |Encode(c)|))
    ensures (Encode(c) + x)[|Encode(c)|..] == x
  {
    OctetsDecode(c as int, x);
  }

  lemma EncodeOfDecode1(s: Bytes)
    requires Decode1(s).Some?
    ensures var (c, n) := Decode1(s).value; n <= |s| && Encode(c) == s[..n] && s == Encode(c) + s[n..]
  {
    Decode1Encodes(s);
  }

  lemma {:induction false} EncodeAllAppend(a: string, b: string)
    ensures EncodeAll(a + b) == EncodeAll(a) + EncodeAll(b)
  {
    hide Encode;
    if a == [] {
      assert a + b == b;
    } else {
      EncodeAllAppend(a[1..], b);
      assert (a + b)[1..] == a[1..] + b && (a + b)[0] == a[0];
    }
  }

  // Decoding splits a byte string into encoded text and a rest that starts no character.
  lemma {:induction false} DecodeSplits(s: Bytes)
    ensures var (t, r) := Decode(s); s == EncodeAll(t) + r && Decode1(r).None?
    decreases |s|
  {
    if Decode1(s).Some? {
      EncodeOfDecode1(s);
      var (c, n) := Decode1(s).value;
      DecodeSplits(s[n..]);
      var (t, r) := Decode(s[n..]);
      assert ([c] + t)[1..] == t;
    }
  }

  // There is only one such split.
  lemma {:induction false} DecodeUnique(t: string, r: Bytes)
    requires Decode1(r).None?
    ensures Decode(EncodeAll(t) + r) == (t, r)
  {
    hide Encode, Decode1;
    if t == [] {
      assert EncodeAll(t) + r == r;
    } else {
      var s := EncodeAll(t) + r;
      assert s == Encode(t[0]) + (EncodeAll(t[1..]) + r);
      Decode1OfEncode(t[0], EncodeAll(t[1..]) + r);
      DecodeUnique(t[1..], r);
      assert t == [t[0]] + t[1..];
    }
  }

  // Text round trip.
  lemma DecodeOfEncodeAll(t: string)
    ensures Decode(EncodeAll(t)) == (t, [])
  {
    DecodeUnique(t, []);
    assert EncodeAll(t) + [] == EncodeAll(t);
  }

  // Decoding in two pieces, keeping the undecodable rest of the first, is decoding at once.
  lemma {:induction false} DecodeAppend(a: Bytes, b: Bytes)
    ensures var (t, r) := Decode(a); var (t2, r2) := Decode(r + b); Decode(a + b) == (t + t2, r2)
    decreases |a|
  {
    if Decode1(a).None? {
      assert [] + Decode(a + b).0 == Decode(a + b).0;
    } else {
      var (c, n) := Decode1(a).value;
      WidthOfMore(a, b);
      assert (a + b)[n..] == a[n..] + b;
      DecodeAppend(a[n..], b);
      var (t, r) := Decode(a[n..]);
      var t2 := Decode(r + b).0;
      assert [c] + t + t2 == [c] + (t + t2);
    }
  }

  predicate WellFormed(s: Bytes) {
    Decode(s).1 == []
  }

  lemma WellFormedIffEncoded(s: Bytes)
    ensures WellFormed(s) <==> exists t :: EncodeAll(t) == s
  {
    DecodeSplits(s);
    if WellFormed(s) {
      assert EncodeAll(Decode(s).0) == s;
    }
    if t :| EncodeAll(t) == s {
      DecodeOfEncodeAll(t);
    }
  }

  // The decoded text is the longest well-formed prefix.
  lemma LongestWellFormedPrefix(s: Bytes, k: nat)
    requires k <= |s| && WellFormed(s[..k])
    ensures k <= |EncodeAll(Decode(s).0)|
  {
    DecodeAppend(s[..k], s[k..]);
    assert s[..k] + s[k..] == s;
    DecodeSplits(s[..k]);
    EncodeAllAppend(Decode(s[..k]).0, Decode(Decode(s[..k]).1 + s[k..]).0);
  }

  // ---------------------------------------------------------------- searching

  predicate OccursAt<T(==)>(s: seq<T>, p: seq<T>, i: nat) {
    i + |p| <= |s| && s[i..i + |p|] == p
  }

  // str.find and bytes.find with a start position; None stands for -1
  function Find<T(==)>(s: seq<T>, p: seq<T>, from: nat): (r: Option<nat>)
    ensures r.Some? ==> from <= r.value && OccursAt(s, p, r.value)
    ensures r.Some? ==> forall i :: from <= i < r.value ==> !OccursAt(s, p, i)
    ensures r.None? ==> forall i :: from <= i ==> !OccursAt(s, p, i)
    decreases |s| + 1 - from
  {
    if from + |p| > |s| then None
    else if s[from..from + |p|] == p then Some(from)
    else Find(s, p, from + 1)
  }

  // An encoded text at the front of encoded text plus rest is a prefix of the text.
  lemma FrontMatches(t: string, r: Bytes, u: string)
    requires Decode1(r).None? && OccursAt(EncodeAll(t) + r, EncodeAll(u), 0)
    ensures OccursAt(t, u, 0)
  {
    var s := EncodeAll(t) + r;
    var rest := s[|EncodeAll(u)|..];
    assert s == EncodeAll(u) + rest;
    DecodeUnique(t, r);
    DecodeOfEncodeAll(u);
    DecodeAppend(EncodeAll(u), rest);
  }

  // Encoded text never starts inside a character.
  lemma NoMatchInside(c: char, x: Bytes, u: string, i: nat)
    requires u != [] && 0 < i < |Encode(c)|
    ensures !OccursAt(Encode(c) + x, EncodeAll(u), i)
  {
    LeadAndTails(c as int);
    LeadAndTails(u[0] as int);
    var s := Encode(c) + x;
    assert s[i] == Encode(c)[i];
    if i + |EncodeAll(u)| <= |s| {
      assert s[i..i + |EncodeAll(u)|][0] == s[i];
      assert EncodeAll(u)[0] == Encode(u[0])[0];
    }
  }

  lemma OccursShift<T>(a: seq<T>, b: seq<T>, p: seq<T>, i: nat)
    ensures OccursAt(a + b, p, |a| + i) <==> OccursAt(b, p, i)
  {
    if i + |p| <= |b| {
      assert (a + b)[|a| + i..|a| + i + |p|] == b[i..i + |p|];
    }
  }

  // UTF-8 synchronizes itself: encoded text found in encoded text is found at a character boundary.
  lemma {:induction false} MatchIsAligned(t: string, r: Bytes, u: string, i: nat) returns (j: nat)
    requires u != [] && Decode1(r).None? && i < |EncodeAll(t)|
    requires OccursAt(EncodeAll(t) + r, EncodeAll(u), i)
    ensures j < |t| && |EncodeAll(t[..j])| == i && OccursAt(t, u, j)
  {
    hide OccursAt, Encode;
    if i == 0 {
      FrontMatches(t, r, u);
      j := 0;
    } else {
      var n := |Encode(t[0])|;
      assert EncodeAll(t) + r == Encode(t[0]) + (EncodeAll(t[1..]) + r);
      if i < n {
        NoMatchInside(t[0], EncodeAll(t[1..]) + r, u, i);
        assert false;
      }
      OccursShift(Encode(t[0]), EncodeAll(t[1..]) + r, EncodeAll(u), i - n);
      var k := MatchIsAligned(t[1..], r, u, i - n);
      j := k + 1;
      assert t == [t[0]] + t[1..];
      OccursShift([t[0]], t[1..], u, k);
      assert t[..j][1..] == t[1..][..k];
    }
  }
}
