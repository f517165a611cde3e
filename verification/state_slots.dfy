/** The allocator that maps requests to rows of the recurrent-state buffers. */
module StateSlots {
  import opened Wrappers
  import opened Requests
  import opened Sorting

  datatype Slots = Slots(
    maxSlots: nat,
    reqToSlot: map<ReqId, nat>,
    slotToReq: map<nat, ReqId>,
    free: seq<nat>,
    pad: seq<nat>)

  // One state move of a condense: copy row src onto row dst.
  datatype Move = Move(src: nat, dst: nat)

  ghost predicate Inverse(reqToSlot: map<ReqId, nat>, slotToReq: map<nat, ReqId>) {
    && (forall id :: id in reqToSlot ==> reqToSlot[id] in slotToReq && slotToReq[reqToSlot[id]] == id)
    && (forall s :: s in slotToReq ==> slotToReq[s] in reqToSlot && reqToSlot[slotToReq[s]] == s)
  }

  // The occupied slots are exactly 0..n-1 and the free list is the sorted rest.
  ghost predicate Dense(st: Slots, n: nat) {
    && n <= st.maxSlots
    && Inverse(st.reqToSlot, st.slotToReq)
    && (forall s: nat :: s in st.slotToReq <==> s < n)
    && st.free == Range(n, st.maxSlots)
    && st.pad == []
  }

  // Under density the number of occupied slots is the number of requests.
  lemma DenseCount(st: Slots, n: nat)
    requires Dense(st, n)
    ensures |st.reqToSlot.Keys| == n
  {
    SliceCount(st.slotToReq.Keys, 0, n);
    BijectionCount(st.reqToSlot, st.slotToReq);
  }

  lemma {:induction false} BijectionCount(f: map<ReqId, nat>, g: map<nat, ReqId>)
    requires Inverse(f, g)
    ensures |f.Keys| == |g.Keys|
    decreases |f|
  {
    if f.Keys == {} {
      assert g.Keys == {} by {
        if s :| s in g.Keys { assert g[s] in f; }
      }
    } else {
      var id :| id in f;
      var f', g' := f - {id}, g - {f[id]};
      assert f'.Keys == f.Keys - {id};
      assert g'.Keys == g.Keys - {f[id]};
      BijectionCount(f', g');
    }
  }

  // ------------------------------------------------- the other slot operations

  // None stands for the RuntimeError of an exhausted pool.
  function Allocate(st: Slots, id: ReqId): Option<(Slots, nat)> {
    if st.free == [] then None
    else
      var slot := st.free[0];
      Some((st.(free := st.free[1..], reqToSlot := st.reqToSlot[id := slot], slotToReq := st.slotToReq[slot := id]), slot))
  }

  // None stands for the KeyError of a request without a slot.
  function Free(st: Slots, id: ReqId): Option<(Slots, nat)> {
    if id !in st.reqToSlot then None
    else
      var slot := st.reqToSlot[id];
      Some((st.(reqToSlot := st.reqToSlot - {id}, slotToReq := st.slotToReq - {slot}, free := Sort(st.free + [slot])), slot))
  }

  // Borrows the n lowest free slots; None stands for the RuntimeError.
  function ReservePads(st: Slots, n: nat): Option<(Slots, seq<nat>)> {
    if n > |st.free| then None
    else Some((st.(pad := st.free[..n], free := st.free[n..]), st.free[..n]))
  }

  function ReleasePads(st: Slots): Slots {
    if st.pad == [] then st else st.(free := Sort(st.free + st.pad), pad := [])
  }

  // Every slot is free, lent out as a pad or occupied, and only one of these.
  ghost predicate Consistent(st: Slots) {
    && Inverse(st.reqToSlot, st.slotToReq)
    && Ascending(st.free)
    && multiset(st.free) + multiset(st.pad) + multiset(st.slotToReq.Keys) == multiset(Range(0, st.maxSlots))
  }

  lemma {:induction false} RangeElements(lo: nat, hi: nat, x: nat)
    requires lo <= hi
    ensures multiset(Range(lo, hi))[x] == if lo <= x < hi then 1 else 0
    decreases hi - lo
  {
    if lo < hi {
      assert Range(lo, hi) == [lo] + Range(lo + 1, hi);
      RangeElements(lo + 1, hi, x);
    }
  }

  lemma DenseIsConsistent(st: Slots, n: nat)
    requires Dense(st, n)
    ensures Consistent(st)
  {
    RangeAscending(n, st.maxSlots);
    forall x: nat ensures (multiset(st.free) + multiset(st.pad) + multiset(st.slotToReq.Keys))[x] == multiset(Range(0, st.maxSlots))[x] {
      RangeElements(n, st.maxSlots, x);
      RangeElements(0, st.maxSlots, x);
    }
  }

  // A fresh request gets the lowest free slot and keeps the prefix dense; only a full pool fails.
  lemma AllocateDense(st: Slots, n: nat, id: ReqId)
    requires Dense(st, n) && id !in st.reqToSlot
    ensures Allocate(st, id).Some? <==> n < st.maxSlots
    ensures Allocate(st, id).Some? ==> Allocate(st, id).value.1 == n && Dense(Allocate(st, id).value.0, n + 1)
  {
    if n < st.maxSlots {
      assert Range(n, st.maxSlots)[1..] == Range(n + 1, st.maxSlots);
    }
  }

  lemma FreeIsUnoccupied(st: Slots)
    requires Consistent(st) && st.free != []
    ensures st.free[0] !in st.slotToReq
  {
    RangeElements(0, st.maxSlots, st.free[0]);
    assert st.free == [st.free[0]] + st.free[1..];
    assert (multiset(st.free) + multiset(st.pad) + multiset(st.slotToReq.Keys))[st.free[0]] <= 1;
  }

  lemma InverseMore(reqToSlot: map<ReqId, nat>, slotToReq: map<nat, ReqId>, id: ReqId, slot: nat)
    requires Inverse(reqToSlot, slotToReq) && id !in reqToSlot && slot !in slotToReq
    ensures Inverse(reqToSlot[id := slot], slotToReq[slot := id])
    ensures multiset(slotToReq[slot := id].Keys) == multiset(slotToReq.Keys) + multiset{slot}
  {
    assert slotToReq[slot := id].Keys == slotToReq.Keys + {slot};
  }

  // Allocation keeps every slot accounted for.
  lemma AllocateConsistent(st: Slots, id: ReqId)
    requires Consistent(st) && id !in st.reqToSlot && st.free != []
    ensures Consistent(Allocate(st, id).value.0)
  {
    hide Inverse;
    var (st', slot) := Allocate(st, id).value;
    FreeIsUnoccupied(st);
    InverseMore(st.reqToSlot, st.slotToReq, id, slot);
    assert st.free == [slot] + st'.free;
    assert multiset(st.free) == multiset{slot} + multiset(st'.free);
  }

  // Giving a slot back keeps every slot accounted for.
  lemma FreeConsistent(st: Slots, id: ReqId)
    requires Consistent(st) && id in st.reqToSlot
    ensures Consistent(Free(st, id).value.0)
  {
    var (st', slot) := Free(st, id).value;
    SortKeepsElements(st.free + [slot]);
    assert st'.slotToReq.Keys == st.slotToReq.Keys - {slot};
  }

  // Releasing the pads undoes the reservation.
  lemma ReleaseUndoesReserve(st: Slots, n: nat)
    requires Consistent(st) && st.pad == [] && n <= |st.free|
    ensures Consistent(ReservePads(st, n).value.0)
    ensures ReleasePads(ReservePads(st, n).value.0) == st
  {
    assert st.free == st.free[..n] + st.free[n..];
    SuffixAscending(st.free, n);
    if n == 0 {
      assert st.free[0..] == st.free;
    } else {
      SortKeepsElements(st.free[n..] + st.free[..n]);
      AscendingUnique(Sort(st.free[n..] + st.free[..n]), st.free);
    }
  }

  lemma {:induction false} SuffixAscending(s: seq<nat>, n: nat)
    requires Ascending(s) && n <= |s|
    ensures Ascending(s[n..])
  {
    if n == 0 {
      assert s[0..] == s;
    } else {
      SuffixAscending(s[1..], n - 1);
      assert s[1..][n - 1..] == s[n..];
    }
  }

  // ---------------------------------------------------------------- condense

  // The variables of the condensing loop.
  datatype CondenseState = CondenseState(
    last: int,
    holes: set<nat>,
    reqToSlot: map<ReqId, nat>,
    slotToReq: map<nat, ReqId>,
    moves: seq<Move>)

  // The back-to-front slide. None stands for the KeyError of looking up an empty slot.
  function CondenseLoop(firstHole: nat, c: CondenseState): Option<CondenseState>
    decreases c.last - firstHole + 1
  {
    if c.last < firstHole then Some(c)
    else if c.last in c.holes then CondenseLoop(firstHole, c.(last := c.last - 1))
    else
      var unfilled := set s | s in c.holes && s < c.last;
      if unfilled == {} then Some(c)
      else if c.last !in c.slotToReq then None
      else CondenseLoop(firstHole, MoveDown(c, MinOf(unfilled)))
  }

  // Moves the request in the last occupied slot to the hole dst.
  function MoveDown(c: CondenseState, dst: nat): CondenseState
    requires 0 <= c.last && c.last in c.slotToReq
  {
    var id := c.slotToReq[c.last];
    CondenseState(
      c.last - 1,
      c.holes + {c.last} - {dst},
      c.reqToSlot[id := dst],
      c.slotToReq[dst := id] - {c.last},
      c.moves + [Move(c.last, dst)])
  }

  // Where a request that sat in slot s sits after the moves.
  function Follow(moves: seq<Move>, s: nat): nat {
    if moves == [] then s
    else
      var m := moves[|moves| - 1];
      var t := Follow(moves[..|moves| - 1], s);
      if t == m.src then m.dst else t
  }

  // The moves carried out one after another as copies between rows.
  function ApplyMoves<T>(rows: seq<T>, moves: seq<Move>): (r: seq<T>)
    ensures |r| == |rows|
  {
    if moves == [] then rows
    else
      var m := moves[|moves| - 1];
      var r := ApplyMoves(rows, moves[..|moves| - 1]);
      if m.src < |r| && m.dst < |r| then r[m.dst := r[m.src]] else r
  }

  ghost predicate LoopInv(orig: map<ReqId, nat>, n: nat, k: nat, firstHole: nat, c: CondenseState) {
    && k <= n && c.last < n
    && (forall s :: s in c.holes ==> firstHole <= s < n && s !in c.slotToReq)
    && (forall s: nat :: s < n ==> s in c.holes || s in c.slotToReq)
    && (forall s :: s in c.slotToReq ==> s < n)
    && (forall s: nat :: c.last < s < n ==> s in c.holes)
    && |c.holes| == n - k
    && Inverse(c.reqToSlot, c.slotToReq)
    && (forall id :: id in c.reqToSlot ==> id in orig && orig[id] < n)
  }

  lemma MoveDownBounds(orig: map<ReqId, nat>, n: nat, k: nat, firstHole: nat, c: CondenseState, dst: nat)
    requires LoopInv(orig, n, k, firstHole, c)
    requires 0 <= c.last && c.last !in c.holes
    requires dst in c.holes && dst < c.last && forall s :: s in c.holes ==> dst <= s
    ensures dst < k <= c.last
  {
    var last: nat := c.last;
    var above, within := Slice(last + 1, n), Slice(dst, n);
    SliceCount(above, last + 1, n);
    SliceCount(within, dst, n);
    SubsetCount(above + {dst}, c.holes);
    SubsetCount(c.holes, within - {last});
  }

  lemma MoveDownKeepsInv(orig: map<ReqId, nat>, n: nat, k: nat, firstHole: nat, c: CondenseState, dst: nat)
    requires LoopInv(orig, n, k, firstHole, c)
    requires 0 <= c.last && c.last !in c.holes && c.last in c.slotToReq && firstHole <= c.last
    requires dst in c.holes && dst < c.last && forall s :: s in c.holes ==> dst <= s
    ensures LoopInv(orig, n, k, firstHole, MoveDown(c, dst))
  {
    var c' := MoveDown(c, dst);
    var last: nat := c.last;
    assert c'.holes == (c.holes - {dst}) + {last};
  }

  // Where the survivors are: `orig` are the slots on entry, `vacated` the freed ones.
  ghost predicate SurvivorInv(orig: map<ReqId, nat>, vacated: set<nat>, k: nat, c: CondenseState) {
    && (forall id :: id in c.reqToSlot ==> id in orig && orig[id] !in vacated)
    && (forall id :: id in c.reqToSlot ==> Follow(c.moves, orig[id]) == c.reqToSlot[id])
    && (forall id :: id in c.reqToSlot && c.reqToSlot[id] != orig[id] ==> c.reqToSlot[id] < k <= orig[id])
    && |Relocated(orig, c.reqToSlot)| == |c.moves|
  }

  // What the moves so far look like: from the tail into freed slots below the new boundary k.
  ghost predicate MovesInv(vacated: set<nat>, n: nat, k: nat, c: CondenseState) {
    && (forall h :: h in c.holes && h < k ==> h in vacated)
    && (forall m :: m in c.moves ==> c.last < m.src < n && k <= m.src)
    && (forall m :: m in c.moves ==> m.dst < k && m.dst in vacated && m.dst !in c.holes)
    && OneWay(c.moves)
  }

  // No slot is the source of two moves, nor the destination of two moves.
  ghost predicate OneWay(moves: seq<Move>) {
    forall i, j :: 0 <= i < j < |moves| ==> moves[i].src != moves[j].src && moves[i].dst != moves[j].dst
  }

  ghost function Relocated(before: map<ReqId, nat>, after: map<ReqId, nat>): set<ReqId> {
    set id | id in after && id in before && after[id] != before[id]
  }

  lemma FollowStep(moves: seq<Move>, m: Move, s: nat)
    ensures Follow(moves + [m], s) == if Follow(moves, s) == m.src then m.dst else Follow(moves, s)
  {
    assert (moves + [m])[..|moves|] == moves;
  }

  lemma MoveDownKeepsMoves(vacated: set<nat>, n: nat, k: nat, c: CondenseState, dst: nat)
    requires MovesInv(vacated, n, k, c)
    requires 0 <= c.last < n && c.last in c.slotToReq
    requires dst in c.holes && dst < k <= c.last
    ensures MovesInv(vacated, n, k, MoveDown(c, dst))
  {
    assert forall i :: 0 <= i < |c.moves| ==> c.moves[i] in c.moves;
  }

  lemma MoveDownKeepsSurvivors(
      orig: map<ReqId, nat>, vacated: set<nat>, n: nat, k: nat, firstHole: nat, c: CondenseState, dst: nat)
    requires LoopInv(orig, n, k, firstHole, c) && SurvivorInv(orig, vacated, k, c)
    requires 0 <= c.last && c.last in c.slotToReq
    requires dst in c.holes && dst < k <= c.last
    ensures SurvivorInv(orig, vacated, k, MoveDown(c, dst))
  {
    var c' := MoveDown(c, dst);
    var moved := c.slotToReq[c.last];
    assert orig[moved] == c.last;
    forall id | id in c'.reqToSlot ensures Follow(c'.moves, orig[id]) == c'.reqToSlot[id] {
      FollowStep(c.moves, Move(c.last, dst), orig[id]);
    }
    assert Relocated(orig, c'.reqToSlot) == Relocated(orig, c.reqToSlot) + {moved};
  }

  ghost predicate CondenseInv(
      orig: map<ReqId, nat>, vacated: set<nat>, n: nat, k: nat, firstHole: nat, c: CondenseState)
  {
    && LoopInv(orig, n, k, firstHole, c)
    && SurvivorInv(orig, vacated, k, c)
    && MovesInv(vacated, n, k, c)
  }

  ghost predicate OccupiedPrefix(slotToReq: map<nat, ReqId>, k: nat) {
    forall s: nat :: s in slotToReq <==> s < k
  }

  lemma MoveDownKeepsCondenseInv(
      orig: map<ReqId, nat>, vacated: set<nat>, n: nat, k: nat, firstHole: nat, c: CondenseState, dst: nat)
    requires CondenseInv(orig, vacated, n, k, firstHole, c)
    requires firstHole <= c.last && c.last !in c.holes && c.last in c.slotToReq
    requires dst in c.holes && dst < c.last && forall s :: s in c.holes && s < c.last ==> dst <= s
    ensures CondenseInv(orig, vacated, n, k, firstHole, MoveDown(c, dst))
  {
    MoveDownBounds(orig, n, k, firstHole, c, dst);
    MoveDownKeepsInv(orig, n, k, firstHole, c, dst);
    MoveDownKeepsSurvivors(orig, vacated, n, k, firstHole, c, dst);
    MoveDownKeepsMoves(vacated, n, k, c, dst);
  }

  // The slide never fails, and when it stops the occupied slots are 0..k-1.
  lemma {:induction false} CondenseLoopCorrect(
      orig: map<ReqId, nat>, vacated: set<nat>, n: nat, k: nat, firstHole: nat, c: CondenseState)
    requires CondenseInv(orig, vacated, n, k, firstHole, c)
    requires firstHole <= n
    ensures CondenseLoop(firstHole, c).Some?
    ensures var r := CondenseLoop(firstHole, c).value;
      && CondenseInv(orig, vacated, n, k, firstHole, r)
      && r.reqToSlot.Keys == c.reqToSlot.Keys
      && OccupiedPrefix(r.slotToReq, k)
    decreases c.last - firstHole + 1
  {
    hide CondenseInv, OccupiedPrefix, MoveDown;
    if c.last < firstHole {
      StoppedBelow(orig, vacated, n, k, firstHole, c);
    } else if c.last in c.holes {
      StepOver(orig, vacated, n, k, firstHole, c);
      CondenseLoopCorrect(orig, vacated, n, k, firstHole, c.(last := c.last - 1));
    } else {
      LastIsOccupied(orig, vacated, n, k, firstHole, c);
      var unfilled := set s | s in c.holes && s < c.last;
      assert forall s :: s in c.holes && s < c.last ==> s in unfilled;
      if unfilled == {} {
        StoppedFull(orig, vacated, n, k, firstHole, c);
      } else {
        var dst := MinOf(unfilled);
        MoveDownKeepsCondenseInv(orig, vacated, n, k, firstHole, c, dst);
        CondenseLoopCorrect(orig, vacated, n, k, firstHole, MoveDown(c, dst));
      }
    }
  }

  lemma LastIsOccupied(orig: map<ReqId, nat>, vacated: set<nat>, n: nat, k: nat, firstHole: nat, c: CondenseState)
    requires CondenseInv(orig, vacated, n, k, firstHole, c) && firstHole <= c.last && c.last !in c.holes
    ensures c.last in c.slotToReq
    ensures forall dst: nat :: MoveDown(c, dst).reqToSlot.Keys == c.reqToSlot.Keys && MoveDown(c, dst).last == c.last - 1
  {
  }

  lemma StepOver(orig: map<ReqId, nat>, vacated: set<nat>, n: nat, k: nat, firstHole: nat, c: CondenseState)
    requires CondenseInv(orig, vacated, n, k, firstHole, c) && c.last in c.holes
    ensures CondenseInv(orig, vacated, n, k, firstHole, c.(last := c.last - 1))
  {
  }

  lemma StoppedBelow(orig: map<ReqId, nat>, vacated: set<nat>, n: nat, k: nat, firstHole: nat, c: CondenseState)
    requires CondenseInv(orig, vacated, n, k, firstHole, c) && c.last < firstHole <= n
    ensures OccupiedPrefix(c.slotToReq, k)
  {
    SliceCount(c.holes, firstHole, n);
  }

  lemma StoppedFull(orig: map<ReqId, nat>, vacated: set<nat>, n: nat, k: nat, firstHole: nat, c: CondenseState)
    requires CondenseInv(orig, vacated, n, k, firstHole, c)
    requires 0 <= c.last && c.last !in c.holes && forall s :: s in c.holes ==> s >= c.last
    ensures OccupiedPrefix(c.slotToReq, k)
  {
    SliceCount(c.holes, c.last + 1, n);
  }

  // Appends to the free list the slots that are not on it yet.
  function AppendMissing(free: seq<nat>, slots: seq<nat>): seq<nat>
    decreases |slots|
  {
    if slots == [] then free
    else if slots[0] in free then AppendMissing(free, slots[1..])
    else AppendMissing(free + [slots[0]], slots[1..])
  }

  lemma {:induction false} AppendMissingAll(free: seq<nat>, slots: seq<nat>)
    requires forall i :: 0 <= i < |slots| ==> slots[i] !in free
    requires forall i, j :: 0 <= i < j < |slots| ==> slots[i] != slots[j]
    ensures AppendMissing(free, slots) == free + slots
    decreases |slots|
  {
    if slots != [] {
      AppendMissingAll(free + [slots[0]], slots[1..]);
      assert free + [slots[0]] + slots[1..] == free + slots;
    } else {
      assert free + slots == free;
    }
  }

  // max(slot_to_req.keys()), or the position before the first hole when nothing is left
  function LastOccupied(slotToReq: map<nat, ReqId>, firstHole: nat): (m: int)
    ensures slotToReq.Keys == {} ==> m == firstHole - 1
    ensures slotToReq.Keys != {} ==> m in slotToReq && forall s :: s in slotToReq ==> s <= m
  {
    if slotToReq.Keys == {} then firstHole - 1 else MaxOf(slotToReq.Keys)
  }

  // All slots of finished requests are given back in one go; None stands for a KeyError.
  function BatchCondense(st: Slots, ids: set<ReqId>, slots: set<nat>): Option<(Slots, seq<Move>)>
  {
    if slots == {} then Some((st, []))
    else
      var reqToSlot, slotToReq := st.reqToSlot - ids, st.slotToReq - slots;
      var firstHole := MinOf(slots);
      match CondenseLoop(firstHole, CondenseState(LastOccupied(slotToReq, firstHole), slots, reqToSlot, slotToReq, []))
      case None => None
      case Some(c) =>
        var free := Sort(AppendMissing(st.free, SortedSeq(c.holes)));
        Some((Slots(st.maxSlots, c.reqToSlot, c.slotToReq, free, st.pad), c.moves))
  }

  // The freed pairs are current: exactly the slots of the named requests.
  ghost predicate Current(st: Slots, ids: set<ReqId>, slots: set<nat>) {
    && (forall id :: id in ids ==> id in st.reqToSlot && st.reqToSlot[id] in slots)
    && (forall s :: s in slots ==> s in st.slotToReq && st.slotToReq[s] in ids)
  }

  // The moves relocate the survivors of `before` to their places in `after`, one way and one each.
  ghost predicate Placed(before: map<ReqId, nat>, after: map<ReqId, nat>, k: nat, moves: seq<Move>) {
    && (forall id :: id in after ==> id in before && Follow(moves, before[id]) == after[id])
    && OneWay(moves)
    && (forall m :: m in moves ==> m.dst < k <= m.src < |before.Keys|)
    && (forall m, id :: m in moves && id in after ==> m.dst != before[id])
    && |Relocated(before, after)| == |moves|
    && (forall id :: id in Relocated(before, after) ==> before[id] >= k)
  }

  // The promise of a condense: dense again, only the named requests gone, and the moves say how.
  ghost predicate Condensed(st: Slots, ids: set<ReqId>, after: Slots, moves: seq<Move>) {
    var k := |st.reqToSlot.Keys - ids|;
    && after.maxSlots == st.maxSlots
    && after.reqToSlot.Keys == st.reqToSlot.Keys - ids
    && Dense(after, k)
    && Placed(st.reqToSlot, after.reqToSlot, k, moves)
  }

  lemma CondenseStarts(st: Slots, n: nat, ids: set<ReqId>, slots: set<nat>) returns (k: nat, c: CondenseState)
    requires Dense(st, n) && Current(st, ids, slots) && slots != {}
    ensures k == n - |slots|
    ensures c == CondenseState(
                   LastOccupied(st.slotToReq - slots, MinOf(slots)), slots, st.reqToSlot - ids, st.slotToReq - slots, [])
    ensures CondenseInv(st.reqToSlot, slots, n, k, MinOf(slots), c)
  {
    SubsetCount(slots, st.slotToReq.Keys);
    SliceCount(st.slotToReq.Keys, 0, n);
    k := n - |slots|;
    c := CondenseState(
      LastOccupied(st.slotToReq - slots, MinOf(slots)), slots, st.reqToSlot - ids, st.slotToReq - slots, []);
    assert Relocated(st.reqToSlot, c.reqToSlot) == {};
    forall s: nat | c.last < s < n ensures s in c.holes {
      assert s in slots || s in st.slotToReq - slots;
    }
  }

  lemma {:induction false} SurvivorCount(st: Slots, n: nat, ids: set<ReqId>, slots: set<nat>)
    requires Dense(st, n) && Current(st, ids, slots)
    ensures |st.reqToSlot.Keys| == n && |slots| <= n
    ensures |st.reqToSlot.Keys - ids| == n - |slots|
  {
    DenseCount(st, n);
    BijectionCount(st.reqToSlot - ids, st.slotToReq - slots);
    assert (st.reqToSlot - ids).Keys == st.reqToSlot.Keys - ids;
    assert (st.slotToReq - slots).Keys == st.slotToReq.Keys - slots;
    SliceCount(st.slotToReq.Keys, 0, n);
    SubsetCount(slots, st.slotToReq.Keys);
  }

  lemma FreeListRestored(free: seq<nat>, holes: set<nat>, k: nat, n: nat, max: nat)
    requires k <= n <= max && free == Range(n, max)
    requires forall h: nat :: h in holes <==> k <= h < n
    ensures Sort(AppendMissing(free, SortedSeq(holes))) == Range(k, max)
  {
    SortedSeqOfRange(holes, k, n);
    AppendMissingAll(free, Range(k, n));
    SortJoinsRanges(free + Range(k, n), k, n, max);
  }

  // On a dense prefix with current pairs the condense raises nothing and keeps its promise.
  lemma BatchCondenseCorrect(st: Slots, n: nat, ids: set<ReqId>, slots: set<nat>)
    requires Dense(st, n) && Current(st, ids, slots)
    ensures BatchCondense(st, ids, slots).Some?
    ensures var (after, moves) := BatchCondense(st, ids, slots).value; Condensed(st, ids, after, moves)
  {
    SurvivorCount(st, n, ids, slots);
    if slots == {} {
      NothingFreed(st, n, ids);
    } else {
      var k, c := CondenseStarts(st, n, ids, slots);
      CondenseLoopCorrect(st.reqToSlot, slots, n, k, MinOf(slots), c);
      var r := CondenseLoop(MinOf(slots), c).value;
      FreeListRestored(st.free, r.holes, k, n, st.maxSlots);
      SlideGivesPlaced(st.reqToSlot, slots, n, k, MinOf(slots), r);
    }
  }

  lemma SlideGivesPlaced(before: map<ReqId, nat>, slots: set<nat>, n: nat, k: nat, firstHole: nat, r: CondenseState)
    requires CondenseInv(before, slots, n, k, firstHole, r) && |before.Keys| == n
    ensures Placed(before, r.reqToSlot, k, r.moves)
  {
  }

  lemma NothingFreed(st: Slots, n: nat, ids: set<ReqId>)
    requires Dense(st, n) && Current(st, ids, {})
    ensures Condensed(st, ids, st, [])
  {
    DenseCount(st, n);
    assert ids == {};
    assert Relocated(st.reqToSlot, st.reqToSlot) == {};
    assert st.reqToSlot.Keys - ids == st.reqToSlot.Keys;
  }

  // The moves, run as copies in the order given, bring every survivor's row to its new slot.
  lemma {:induction false} CopiesFollow<T>(rows: seq<T>, moves: seq<Move>, s: nat)
    requires OneWay(moves) && s < |rows|
    requires forall m :: m in moves ==> m.src < |rows| && m.dst < |rows| && m.dst != s
    ensures Follow(moves, s) < |rows|
    ensures Follow(moves, s) == s || exists m :: m in moves && m.dst == Follow(moves, s)
    ensures ApplyMoves(rows, moves)[Follow(moves, s)] == rows[s]
  {
    if moves != [] {
      var i := |moves| - 1;
      assert forall m :: m in moves[..i] ==> m in moves;
      assert moves[i] in moves;
      CopiesFollow(rows, moves[..i], s);
      assert forall m :: m in moves[..i] ==> m.dst != moves[i].dst;
    }
  }

  // Nothing can do with fewer moves: every placement of the survivors in 0..k-1 relocates as many.
  lemma FewestMoves(st: Slots, ids: set<ReqId>, after: Slots, moves: seq<Move>, other: map<ReqId, nat>)
    requires Condensed(st, ids, after, moves)
    requires other.Keys == after.reqToSlot.Keys
    requires forall id :: id in other ==> other[id] < |other.Keys|
    ensures |moves| <= |Relocated(st.reqToSlot, other)|
  {
    SubsetCount(Relocated(st.reqToSlot, after.reqToSlot), Relocated(st.reqToSlot, other));
  }

  // ---------------------------------------------------------------- the allocator

  class StateSlotManager {
    const maxSlots: nat
    var reqToSlot: map<ReqId, nat>
    var slotToReq: map<nat, ReqId>
    var freeSlots: seq<nat>
    var padSlots: seq<nat>

    function View(): Slots
      reads this
    {
      Slots(maxSlots, reqToSlot, slotToReq, freeSlots, padSlots)
    }

    constructor (maxSlots: nat)
      ensures this.maxSlots == maxSlots
      ensures Dense(View(), 0)
    {
      this.maxSlots := maxSlots;
      reqToSlot, slotToReq := map[], map[];
      freeSlots := Range(0, maxSlots);
      padSlots := [];
    }

    method ReservePadSlots(n: nat) returns (r: Option<seq<nat>>)
      modifies this
      ensures match ReservePads(old(View()), n)
        case None => r == None && View() == old(View())
        case Some((st, pads)) => r == Some(pads) && View() == st
    {
      if n > |freeSlots| {
        return None;
      }
      padSlots := freeSlots[..n];
      freeSlots := freeSlots[n..];
      return Some(padSlots);
    }

    method ReleasePadSlots()
      modifies this
      ensures View() == ReleasePads(old(View()))
    {
      if padSlots != [] {
        freeSlots := freeSlots + padSlots;
        freeSlots := Sort(freeSlots);
        padSlots := [];
      }
    }

    method AllocateSlot(id: ReqId) returns (r: Option<nat>)
      modifies this
      ensures match Allocate(old(View()), id)
        case None => r == None && View() == old(View())
        case Some((st, slot)) => r == Some(slot) && View() == st
      ensures old(Consistent(View())) && id !in old(reqToSlot) ==> Consistent(View())
    {
      hide Consistent;
      if freeSlots == [] {
        return None;
      }
      if Consistent(View()) && id !in reqToSlot {
        AllocateConsistent(View(), id);
      }
      var slot := freeSlots[0];
      freeSlots := freeSlots[1..];
      reqToSlot := reqToSlot[id := slot];
      slotToReq := slotToReq[slot := id];
      return Some(slot);
    }

    method FreeSlot(id: ReqId) returns (r: Option<nat>)
      modifies this
      ensures match Free(old(View()), id)
        case None => r == None && View() == old(View())
        case Some((st, slot)) => r == Some(slot) && View() == st
      ensures old(Consistent(View())) ==> Consistent(View())
    {
      hide Consistent;
      if id !in reqToSlot {
        return None;
      }
      if Consistent(View()) {
        FreeConsistent(View(), id);
      }
      var slot := reqToSlot[id];
      reqToSlot := reqToSlot - {id};
      slotToReq := slotToReq - {slot};
      freeSlots := freeSlots + [slot];
      freeSlots := Sort(freeSlots);
      return Some(slot);
    }

    // Puts the remaining holes back on the free list and sorts it.
    method ReturnHoles(holes: set<nat>)
      modifies this`freeSlots
      ensures freeSlots == Sort(AppendMissing(old(freeSlots), SortedSeq(holes)))
    {
      var rest := SortedSeq(holes);
      for i := 0 to |rest|
        invariant AppendMissing(freeSlots, rest[i..]) == AppendMissing(old(freeSlots), rest)
      {
        if rest[i] !in freeSlots {
          freeSlots := freeSlots + [rest[i]];
        }
        assert rest[i..][1..] == rest[i + 1..];
      }
      freeSlots := Sort(freeSlots);
    }

    // Removes all freed requests from both maps.
    method DropFreed(freed: seq<(ReqId, nat)>) returns (freedSet: set<nat>)
      modifies this`reqToSlot, this`slotToReq
      ensures reqToSlot == old(reqToSlot) - FreedIds(freed)
      ensures slotToReq == old(slotToReq) - FreedSlots(freed)
      ensures freedSet == FreedSlots(freed)
    {
      freedSet := {};
      for i := 0 to |freed|
        invariant reqToSlot == old(reqToSlot) - FreedIds(freed[..i])
        invariant slotToReq == old(slotToReq) - FreedSlots(freed[..i])
        invariant freedSet == FreedSlots(freed[..i])
      {
        assert freed[..i + 1] == freed[..i] + [freed[i]];
        reqToSlot := reqToSlot - {freed[i].0};
        slotToReq := slotToReq - {freed[i].1};
        freedSet := freedSet + {freed[i].1};
      }
      assert freed[..|freed|] == freed;
    }

    // Slides requests from the back into the lowest holes; None is the KeyError of an empty slot.
    method Slide(freed: set<nat>) returns (r: Option<(seq<Move>, set<nat>)>)
      requires freed != {}
      modifies this`reqToSlot, this`slotToReq
      ensures var first := MinOf(freed);
        match CondenseLoop(first, CondenseState(LastOccupied(old(slotToReq), first), freed, old(reqToSlot), old(slotToReq), []))
        case None => r == None
        case Some(c) => r == Some((c.moves, c.holes)) && reqToSlot == c.reqToSlot && slotToReq == c.slotToReq
    {
      var freedSet: set<nat> := freed;
      var firstHole := MinOf(freedSet);
      var moves: seq<Move> := [];
      var last := LastOccupied(slotToReq, firstHole);
      ghost var start := CondenseState(last, freedSet, reqToSlot, slotToReq, moves);
      while last >= firstHole
        invariant CondenseLoop(firstHole, CondenseState(last, freedSet, reqToSlot, slotToReq, moves)) == CondenseLoop(firstHole, start)
        decreases last - firstHole + 1
      {
        while last >= firstHole && last in freedSet
          invariant CondenseLoop(firstHole, CondenseState(last, freedSet, reqToSlot, slotToReq, moves)) == CondenseLoop(firstHole, start)
          decreases last - firstHole + 1
        {
          last := last - 1;
        }
        if last < firstHole {
          break;
        }
        var unfilled := set s | s in freedSet && s < last;
        if unfilled == {} {
          break;
        }
        if last !in slotToReq {
          return None;
        }
        var dst := MinOf(unfilled);
        ghost var next := MoveDown(CondenseState(last, freedSet, reqToSlot, slotToReq, moves), dst);
        var id := slotToReq[last];
        reqToSlot := reqToSlot[id := dst];
        slotToReq := slotToReq[dst := id] - {last};
        freedSet := freedSet + {last} - {dst};
        moves := moves + [Move(last, dst)];
        last := last - 1;
        assert next == CondenseState(last, freedSet, reqToSlot, slotToReq, moves);
      }
      return Some((moves, freedSet));
    }

    // On None, the KeyError, the maps keep whatever the interrupted slide left in them.
    method CondenseBatch(freed: seq<(ReqId, nat)>) returns (r: Option<seq<Move>>)
      modifies this
      ensures match BatchCondense(old(View()), FreedIds(freed), FreedSlots(freed))
        case None => r == None
        case Some((st, moves)) => r == Some(moves) && View() == st
    {
      if freed == [] {
        return Some([]);
      }
      var freedSet := DropFreed(freed);
      assert freed[0].1 in freedSet;
      var slid := Slide(freedSet);
      if slid == None {
        return None;
      }
      ReturnHoles(slid.value.1);
      return Some(slid.value.0);
    }
  }

  function FreedIds(freed: seq<(ReqId, nat)>): set<ReqId> {
    set p | p in freed :: p.0
  }

  function FreedSlots(freed: seq<(ReqId, nat)>): set<nat> {
    set p | p in freed :: p.1
  }
}