/** Python's `list.sort()` and `sorted()` on slot numbers, and the ranges they produce. */
module Sorting {

  function Min(a: int, b: int): int {
    if a <= b then a else b
  }

  function Range(lo: nat, hi: nat): (r: seq<nat>)
    requires lo <= hi
    ensures |r| == hi - lo
    ensures forall i :: 0 <= i < |r| ==> r[i] == lo + i
  {
    seq(hi - lo, i requires 0 <= i => lo + i)
  }

  predicate Ascending(s: seq<nat>) {
    |s| <= 1 || (s[0] <= s[1] && Ascending(s[1..]))
  }

  function Insert(x: nat, s: seq<nat>): (r: seq<nat>)
    ensures r != [] && (r[0] == x || (s != [] && r[0] == s[0]))
    ensures Ascending(s) ==> Ascending(r)
  {
    if s == [] then [x]
    else if x <= s[0] then
      var r := [x] + s;
      assert r[1..] == s;
      r
    else
      var rest := Insert(x, s[1..]);
      var r := [s[0]] + rest;
      assert r[1..] == rest;
      r
  }

  lemma {:induction false} InsertKeepsElements(x: nat, s: seq<nat>)
    ensures multiset(Insert(x, s)) == multiset(s) + multiset{x}
  {
    if s != [] && x > s[0] {
      InsertKeepsElements(x, s[1..]);
      assert s == [s[0]] + s[1..];
    }
  }

  // list.sort()
  function Sort(s: seq<nat>): (r: seq<nat>)
    ensures Ascending(r)
  {
    if s == [] then [] else Insert(s[0], Sort(s[1..]))
  }

  lemma {:induction false} SortKeepsElements(s: seq<nat>)
    ensures multiset(Sort(s)) == multiset(s)
  {
    if s != [] {
      SortKeepsElements(s[1..]);
      InsertKeepsElements(s[0], Sort(s[1..]));
      assert s == [s[0]] + s[1..];
    }
  }

  lemma {:induction false} HeadIsLeast(s: seq<nat>, x: nat)
    requires Ascending(s) && x in multiset(s)
    ensures s != [] && s[0] <= x
  {
    if x != s[0] {
      assert s == [s[0]] + s[1..];
      assert x in multiset(s[1..]);
      HeadIsLeast(s[1..], x);
    }
  }

  // A sorted list is determined by its elements.
  lemma {:induction false} AscendingUnique(a: seq<nat>, b: seq<nat>)
    requires Ascending(a) && Ascending(b) && multiset(a) == multiset(b)
    ensures a == b
  {
    if a == [] {
      assert |multiset(b)| == 0;
    } else {
      SameHead(a, b);
      RemoveHead(a);
      RemoveHead(b);
      AscendingUnique(a[1..], b[1..]);
      assert a == [a[0]] + a[1..] && b == [b[0]] + b[1..];
    }
  }

  lemma SameHead(a: seq<nat>, b: seq<nat>)
    requires Ascending(a) && Ascending(b) && multiset(a) == multiset(b)
    requires a != []
    ensures b != [] && a[0] == b[0]
  {
    assert a[0] in multiset(a);
    HeadIsLeast(b, a[0]);
    assert b[0] in multiset(b);
    HeadIsLeast(a, b[0]);
  }

  lemma RemoveHead(s: seq<nat>)
    requires s != []
    ensures multiset(s[1..]) == multiset(s) - multiset{s[0]}
  {
    assert s == [s[0]] + s[1..];
  }

  lemma {:induction false} RangeAscending(lo: nat, hi: nat)
    requires lo <= hi
    ensures Ascending(Range(lo, hi))
    decreases hi - lo
  {
    if lo < hi {
      RangeAscending(lo + 1, hi);
      assert Range(lo, hi)[1..] == Range(lo + 1, hi);
    }
  }

  // Sorting any rearrangement of two adjacent ranges joins them.
  lemma SortJoinsRanges(s: seq<nat>, lo: nat, mid: nat, hi: nat)
    requires lo <= mid <= hi
    requires multiset(s) == multiset(Range(lo, mid)) + multiset(Range(mid, hi))
    ensures Sort(s) == Range(lo, hi)
  {
    assert Range(lo, hi) == Range(lo, mid) + Range(mid, hi);
    SortKeepsElements(s);
    RangeAscending(lo, hi);
    AscendingUnique(Sort(s), Range(lo, hi));
  }

  lemma {:induction false} MinExists(s: set<nat>) returns (m: nat)
    requires s != {}
    ensures m in s && forall x :: x in s ==> m <= x
  {
    m :| m in s;
    var others := s - {m};
    assert s == others + {m};
    if others != {} {
      var k := MinExists(others);
      m := Min(k, m);
    }
  }

  // min(s)
  function MinOf(s: set<nat>): (m: nat)
    requires s != {}
    ensures m in s && forall x :: x in s ==> m <= x
  {
    assert exists m :: m in s && forall x :: x in s ==> m <= x by { var m := MinExists(s); }
    var m :| m in s && forall x :: x in s ==> m <= x;
    m
  }

  lemma {:induction false} MaxExists(s: set<nat>) returns (m: nat)
    requires s != {}
    ensures m in s && forall x :: x in s ==> x <= m
  {
    m :| m in s;
    var others := s - {m};
    assert s == others + {m};
    if others != {} {
      var k := MaxExists(others);
      m := if k <= m then m else k;
    }
  }

  // max(s)
  function MaxOf(s: set<nat>): (m: nat)
    requires s != {}
    ensures m in s && forall x :: x in s ==> x <= m
  {
    assert exists m :: m in s && forall x :: x in s ==> x <= m by { var m := MaxExists(s); }
    var m :| m in s && forall x :: x in s ==> x <= m;
    m
  }

  // sorted(s)
  function SortedSeq(s: set<nat>): (r: seq<nat>)
  {
    if s == {} then [] else
      var m := MinOf(s);
      [m] + SortedSeq(s - {m})
  }

  lemma {:induction false} SortedSeqOfRange(s: set<nat>, lo: nat, hi: nat)
    requires lo <= hi
    requires forall x :: x in s <==> lo <= x < hi
    ensures SortedSeq(s) == Range(lo, hi)
    decreases hi - lo
  {
    if lo < hi {
      assert lo in s;
      assert MinOf(s) == lo;
      SortedSeqOfRange(s - {lo}, lo + 1, hi);
      assert Range(lo, hi) == [lo] + Range(lo + 1, hi);
    } else {
      assert s == {};
    }
  }

  // The slots lo..hi-1 as a set.
  function Slice(lo: nat, hi: nat): (s: set<nat>)
    requires lo <= hi
    ensures forall x: nat :: x in s <==> lo <= x < hi
    decreases hi - lo
  {
    if lo == hi then {} else {lo} + Slice(lo + 1, hi)
  }

  lemma {:induction false} SliceCount(s: set<nat>, lo: nat, hi: nat)
    requires lo <= hi
    requires forall x: nat :: x in s <==> lo <= x < hi
    ensures |s| == hi - lo
    decreases hi - lo
  {
    if lo < hi {
      assert lo in s;
      SliceCount(s - {lo}, lo + 1, hi);
    } else {
      assert s == {};
    }
  }

  lemma SubsetCount<T>(a: set<T>, b: set<T>)
    requires a <= b
    ensures |a| <= |b|
  {
    assert b == a + (b - a);
  }
}
