/** Exactly when a condense raises: what gaps between occupied slots do to the slide. */
module CondenseGaps {
  import opened Wrappers
  import opened Requests
  import opened Sorting
  import opened StateSlots

  ghost function Below(slots: set<nat>, g: nat): set<nat> {
    set s | s in slots && s < g
  }

  ghost function Between(slots: set<nat>, g: nat, last: int): set<nat> {
    set s | s in slots && g < s <= last
  }

  // An empty slot the slide will look up: more holes below it than occupied slots above it.
  ghost predicate Overtaken(c: CondenseState, g: nat) {
    g <= c.last && g !in c.slotToReq && g !in c.holes
    && |Below(c.holes, g)| > |Between(c.slotToReq.Keys, g, c.last)|
  }

  ghost predicate Apart(c: CondenseState, firstHole: nat) {
    c.holes !! c.slotToReq.Keys && forall h :: h in c.holes ==> firstHole <= h
  }

  lemma NoneBelow(c: CondenseState, g: nat)
    requires forall h :: h in c.holes ==> g <= h
    ensures Below(c.holes, g) == {} && !Overtaken(c, g)
  {
  }

  // Passing a hole changes nothing for the slots below.
  lemma PassHole(c: CondenseState, g: nat)
    requires c.last in c.holes && c.holes !! c.slotToReq.Keys
    ensures Overtaken(c.(last := c.last - 1), g) <==> Overtaken(c, g)
  {
    if g < c.last {
      assert Between(c.slotToReq.Keys, g, c.last - 1) == Between(c.slotToReq.Keys, g, c.last);
    }
  }

  // A move takes one hole from below and one occupied slot from above every empty slot in between.
  lemma PassMove(c: CondenseState, dst: nat, g: nat)
    requires 0 <= c.last && c.last in c.slotToReq && c.last !in c.holes
    requires dst in c.holes && dst !in c.slotToReq && dst < c.last && forall h :: h in c.holes ==> dst <= h
    ensures Overtaken(MoveDown(c, dst), g) <==> Overtaken(c, g)
  {
    var c' := MoveDown(c, dst);
    var last: nat := c.last;
    if g < last && g != dst {
      assert c'.slotToReq.Keys == c.slotToReq.Keys + {dst} - {last};
      if dst < g {
        assert Below(c'.holes, g) == Below(c.holes, g) - {dst} && dst in Below(c.holes, g);
        assert Between(c'.slotToReq.Keys, g, last - 1) == Between(c.slotToReq.Keys, g, last) - {last};
        assert last in Between(c.slotToReq.Keys, g, last);
      } else {
        assert Below(c'.holes, g) == {} == Below(c.holes, g);
      }
    }
  }

  lemma MoveKeepsApart(c: CondenseState, firstHole: nat, dst: nat)
    requires Apart(c, firstHole) && firstHole <= c.last && c.last in c.slotToReq && dst in c.holes
    ensures Apart(MoveDown(c, dst), firstHole) && MoveDown(c, dst).last == c.last - 1
  {
  }

  // The slide raises exactly when some slot is overtaken.
  lemma {:induction false} SlideRaisesIff(firstHole: nat, c: CondenseState)
    requires Apart(c, firstHole)
    ensures CondenseLoop(firstHole, c).None? <==> exists g: nat :: Overtaken(c, g)
    decreases c.last - firstHole + 1
  {
    hide Overtaken, MoveDown;
    if c.last < firstHole {
      forall g: nat
        ensures !Overtaken(c, g)
      {
        PastTheEnd(c, firstHole, g);
      }
    } else if c.last in c.holes {
      var c' := c.(last := c.last - 1);
      SlideRaisesIff(firstHole, c');
      forall g: nat
        ensures Overtaken(c', g) <==> Overtaken(c, g)
      {
        PassHole(c, g);
      }
    } else {
      var unfilled := set s | s in c.holes && s < c.last;
      assert forall s :: s in c.holes && s < c.last ==> s in unfilled;
      if unfilled == {} {
        forall g: nat
          ensures !Overtaken(c, g)
        {
          NothingUnfilled(c, g);
        }
      } else if c.last !in c.slotToReq {
        LastIsOvertaken(c, MinOf(unfilled));
      } else {
        var dst := MinOf(unfilled);
        MoveKeepsApart(c, firstHole, dst);
        SlideRaisesIff(firstHole, MoveDown(c, dst));
        forall g: nat
          ensures Overtaken(MoveDown(c, dst), g) <==> Overtaken(c, g)
        {
          PassMove(c, dst, g);
        }
      }
    }
  }

  lemma PastTheEnd(c: CondenseState, firstHole: nat, g: nat)
    requires Apart(c, firstHole) && c.last < firstHole
    ensures !Overtaken(c, g)
  {
    if g <= c.last {
      NoneBelow(c, g);
    }
  }

  lemma NothingUnfilled(c: CondenseState, g: nat)
    requires forall h :: h in c.holes ==> c.last <= h
    ensures !Overtaken(c, g)
  {
    if g <= c.last {
      NoneBelow(c, g);
    }
  }

  lemma LastIsOvertaken(c: CondenseState, h: nat)
    requires 0 <= c.last && c.last !in c.holes && c.last !in c.slotToReq && h in c.holes && h < c.last
    ensures Overtaken(c, c.last)
  {
    assert h in Below(c.holes, c.last);
    assert Between(c.slotToReq.Keys, c.last, c.last) == {};
  }

  // ---------------------------------------------------------------- the whole condense

  ghost function SurvivorsAbove(st: Slots, slots: set<nat>, g: nat): set<nat> {
    set s | s in st.slotToReq && s !in slots && s > g
  }

  // An empty slot below some survivor, with more freed slots below it than survivors above it.
  ghost predicate Trap(st: Slots, slots: set<nat>, g: nat) {
    g !in st.slotToReq && SurvivorsAbove(st, slots, g) != {} && |Below(slots, g)| > |SurvivorsAbove(st, slots, g)|
  }

  lemma TrapIsOvertaken(st: Slots, slots: set<nat>, c: CondenseState, g: nat)
    requires forall s :: s in slots ==> s in st.slotToReq
    requires slots != {} && c.holes == slots && c.slotToReq == st.slotToReq - slots
    requires c.last == LastOccupied(c.slotToReq, MinOf(slots))
    ensures Overtaken(c, g) <==> Trap(st, slots, g)
  {
    assert c.slotToReq.Keys == st.slotToReq.Keys - slots;
    assert forall s :: s in c.slotToReq <==> s in st.slotToReq && s !in slots;
    assert forall s :: s in c.slotToReq ==> s <= c.last;
    assert Between(c.slotToReq.Keys, g, c.last) == SurvivorsAbove(st, slots, g);
    if c.slotToReq.Keys == {} {
      if g <= c.last {
        NoneBelow(c, g);
      }
    } else if g <= c.last && g !in c.slotToReq {
      var last: nat := c.last;
      assert last in SurvivorsAbove(st, slots, g);
    }
  }

  // With current pairs a condense raises if and only if there is an empty slot below some survivor
  // with more freed slots below it than survivors above it.
  lemma {:induction false} CondenseRaisesIff(st: Slots, ids: set<ReqId>, slots: set<nat>)
    requires Current(st, ids, slots) && slots != {}
    ensures BatchCondense(st, ids, slots).None? <==> exists g: nat :: Trap(st, slots, g)
  {
    hide Trap, Overtaken, CondenseLoop;
    var s0 := st.slotToReq - slots;
    var c := CondenseState(LastOccupied(s0, MinOf(slots)), slots, st.reqToSlot - ids, s0, []);
    SlideRaisesIff(MinOf(slots), c);
    forall g: nat
      ensures Overtaken(c, g) <==> Trap(st, slots, g)
    {
      TrapIsOvertaken(st, slots, c, g);
    }
  }

  // ---------------------------------------------------------------- an allocator that gets there

  function AllocateAll(st: Slots, ids: seq<ReqId>): Slots
    decreases |ids|
  {
    if ids == [] then st
    else match Allocate(st, ids[0])
      case None => st
      case Some((st', _)) => AllocateAll(st', ids[1..])
  }

  // A new allocator of four slots after four allocations and the release of the third.
  lemma TrapIsReachable() returns (st: Slots, ids: set<ReqId>, slots: set<nat>)
    ensures var (a, b, c, d) := (ReqId("a"), ReqId("b"), ReqId("c"), ReqId("d"));
      Free(AllocateAll(Slots(4, map[], map[], Range(0, 4), []), [a, b, c, d]), c) == Some((st, 2))
    ensures Current(st, ids, slots) && slots != {} && BatchCondense(st, ids, slots).None?
  {
    var a, b, c, d := ReqId("a"), ReqId("b"), ReqId("c"), ReqId("d");
    FourAllocated(a, b, c, d);
    st := ThirdFreed(a, b, c, d);
    ids, slots := {a, b}, {0, 1};
    ItIsATrap(st, slots);
    hide BatchCondense, Trap, Free, AllocateAll;
    CondenseRaisesIff(st, ids, slots);
  }

  lemma ThirdFreed(a: ReqId, b: ReqId, c: ReqId, d: ReqId) returns (st: Slots)
    requires a != b && a != c && a != d && b != c && b != d && c != d
    ensures st == Slots(4, map[a := 0, b := 1, d := 3], map[0 := a, 1 := b, 3 := d], [2], [])
    ensures Free(Slots(4, map[a := 0, b := 1, c := 2, d := 3], map[0 := a, 1 := b, 2 := c, 3 := d], [], []), c) == Some((st, 2))
  {
    st := Slots(4, map[a := 0, b := 1, d := 3], map[0 := a, 1 := b, 3 := d], [2], []);
    assert [] + [2] == [2] && Sort([2]) == [2] by { assert [2][1..] == []; }
    assert map[a := 0, b := 1, c := 2, d := 3] - {c} == st.reqToSlot;
    assert map[0 := a, 1 := b, 2 := c, 3 := d] - {2} == st.slotToReq;
  }

  lemma ItIsATrap(st: Slots, slots: set<nat>)
    requires st.slotToReq.Keys == {0, 1, 3} && slots == {0, 1}
    ensures Trap(st, slots, 2)
  {
    assert Below(slots, 2) == {0, 1} && SurvivorsAbove(st, slots, 2) == {3};
  }

  lemma FourAllocated(a: ReqId, b: ReqId, c: ReqId, d: ReqId)
    requires a != b && a != c && a != d && b != c && b != d && c != d
    ensures AllocateAll(Slots(4, map[], map[], Range(0, 4), []), [a, b, c, d]) ==
      Slots(4, map[a := 0, b := 1, c := 2, d := 3], map[0 := a, 1 := b, 2 := c, 3 := d], [], [])
  {
    var r4, r3, r2 := Range(0, 4), [1, 2, 3], [2, 3];
    assert r4 == [0, 1, 2, 3] && r4[1..] == r3 && r3[1..] == r2 && r2[1..] == [3] && [3][1..] == [];
    var i4, i3, i2 := [a, b, c, d], [b, c, d], [c, d];
    assert i4[1..] == i3 && i3[1..] == i2 && i2[1..] == [d] && [d][1..] == [];
    var s3 := Slots(4, map[a := 0], map[0 := a], r3, []);
    var s2 := Slots(4, map[a := 0, b := 1], map[0 := a, 1 := b], r2, []);
    var s1 := Slots(4, map[a := 0, b := 1, c := 2], map[0 := a, 1 := b, 2 := c], [3], []);
    var s0 := Slots(4, map[a := 0, b := 1, c := 2, d := 3], map[0 := a, 1 := b, 2 := c, 3 := d], [], []);
    assert AllocateAll(s0, []) == s0;
    assert AllocateAll(s1, [d]) == s0;
    assert AllocateAll(s2, i2) == s0;
    assert AllocateAll(s3, i3) == s0;
  }
}
