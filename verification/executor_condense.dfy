/** What a condense asks of the executor, and what an executor that ignores it leaves behind. */
module ExecutorCondense {
  import opened Requests
  import opened Sorting
  import opened StateSlots

  // Every survivor finds its row in its new slot.
  ghost predicate RowsFollow<T>(rows: seq<T>, rows': seq<T>, before: map<ReqId, nat>, after: map<ReqId, nat>) {
    forall id :: id in after ==>
      id in before && before[id] < |rows| && after[id] < |rows'| && rows'[after[id]] == rows[before[id]]
  }

  ghost predicate SameRows<T>(rows: seq<T>, moves: seq<Move>) {
    forall m :: m in moves ==> m.src < |rows| && m.dst < |rows| && rows[m.src] == rows[m.dst]
  }

  // A request is moved by the one move from its slot, and not again.
  lemma {:induction false} FollowIs(moves: seq<Move>, k: nat, s: nat)
    requires OneWay(moves) && forall m :: m in moves ==> m.dst < k <= m.src
    ensures forall m :: m in moves && m.src == s ==> Follow(moves, s) == m.dst
    ensures (forall m :: m in moves ==> m.src != s) ==> Follow(moves, s) == s
  {
    if moves != [] {
      var i := |moves| - 1;
      assert forall m :: m in moves <==> m in moves[..i] || m == moves[i];
      FollowIs(moves[..i], k, s);
      assert forall m :: m in moves[..i] ==> m.src != moves[i].src;
    }
  }

  ghost function Sources(moves: seq<Move>): set<nat> {
    set m | m in moves :: m.src
  }

  ghost function Places(at: map<ReqId, nat>, ids: set<ReqId>): set<nat>
    requires ids <= at.Keys
  {
    set id | id in ids :: at[id]
  }

  lemma {:induction false} SourcesCount(moves: seq<Move>)
    requires OneWay(moves)
    ensures |Sources(moves)| == |moves|
  {
    if moves != [] {
      var i := |moves| - 1;
      assert forall m :: m in moves <==> m in moves[..i] || m == moves[i];
      SourcesCount(moves[..i]);
      assert Sources(moves) == Sources(moves[..i]) + {moves[i].src};
      assert forall m :: m in moves[..i] ==> m.src != moves[i].src;
    }
  }

  lemma {:induction false} PlacesCount(at: map<ReqId, nat>, ids: set<ReqId>)
    requires ids <= at.Keys && forall a, b :: a in at && b in at && at[a] == at[b] ==> a == b
    ensures |Places(at, ids)| == |ids|
    decreases |ids|
  {
    if ids != {} {
      var id :| id in ids;
      PlacesCount(at, ids - {id});
      assert Places(at, ids) == Places(at, ids - {id}) + {at[id]};
    }
  }

  // The sources of the moves are exactly where the relocated requests were.
  lemma SourcesAreRelocated(st: Slots, ids: set<ReqId>, after: Slots, moves: seq<Move>)
    requires Inverse(st.reqToSlot, st.slotToReq) && Condensed(st, ids, after, moves)
    ensures Sources(moves) == Places(st.reqToSlot, Relocated(st.reqToSlot, after.reqToSlot))
  {
    var k := |st.reqToSlot.Keys - ids|;
    var moved := Relocated(st.reqToSlot, after.reqToSlot);
    hide Dense;
    SourcesCount(moves);
    PlacesCount(st.reqToSlot, moved);
    forall id | id in moved
      ensures st.reqToSlot[id] in Sources(moves)
    {
      FollowIs(moves, k, st.reqToSlot[id]);
    }
    SameSize(Places(st.reqToSlot, moved), Sources(moves));
  }

  lemma SameSize<T>(a: set<T>, b: set<T>)
    requires a <= b && |a| == |b|
    ensures a == b
  {
    SubsetCount(b - a, b);
    assert b == a + (b - a);
  }

  // The abstract contract: an executor that performs the moves brings every row along.
  lemma MovesCarryRows<T>(rows: seq<T>, st: Slots, n: nat, ids: set<ReqId>, slots: set<nat>)
    requires Dense(st, n) && Current(st, ids, slots) && n <= |rows|
    ensures BatchCondense(st, ids, slots).Some?
    ensures var (after, moves) := BatchCondense(st, ids, slots).value;
      RowsFollow(rows, ApplyMoves(rows, moves), st.reqToSlot, after.reqToSlot)
  {
    BatchCondenseCorrect(st, n, ids, slots);
    DenseCount(st, n);
    var (after, moves) := BatchCondense(st, ids, slots).value;
    hide BatchCondense;
    SubsetCount(st.reqToSlot.Keys - ids, st.reqToSlot.Keys);
    forall id | id in after.reqToSlot
      ensures after.reqToSlot[id] < |rows| && ApplyMoves(rows, moves)[after.reqToSlot[id]] == rows[st.reqToSlot[id]]
    {
      CopiesFollow(rows, moves, st.reqToSlot[id]);
    }
  }

  // An executor that ignores the moves, as the single-process one does, keeps every survivor's row if
  // and only if each move would have copied a row onto an equal one.
  lemma IgnoringMovesIsSafeIff<T>(rows: seq<T>, st: Slots, n: nat, ids: set<ReqId>, slots: set<nat>)
    requires Dense(st, n) && Current(st, ids, slots) && n <= |rows|
    ensures BatchCondense(st, ids, slots).Some?
    ensures var (after, moves) := BatchCondense(st, ids, slots).value;
      RowsFollow(rows, rows, st.reqToSlot, after.reqToSlot) <==> SameRows(rows, moves)
  {
    BatchCondenseCorrect(st, n, ids, slots);
    DenseCount(st, n);
    var (after, moves) := BatchCondense(st, ids, slots).value;
    hide BatchCondense;
    SubsetCount(st.reqToSlot.Keys - ids, st.reqToSlot.Keys);
    MovesAreRelocations(st, ids, after, moves);
    forall id | id in after.reqToSlot
      ensures id in st.reqToSlot && st.reqToSlot[id] < |rows| && after.reqToSlot[id] < |rows|
    {
    }
    hide *;
    RelocationsDecide(rows, st.reqToSlot, after.reqToSlot, moves);
  }

  lemma RelocationsDecide<T>(rows: seq<T>, before: map<ReqId, nat>, after: map<ReqId, nat>, moves: seq<Move>)
    requires forall id :: id in after ==> id in before && before[id] < |rows| && after[id] < |rows|
    requires forall m :: m in moves ==> exists id :: id in after && id in before && before[id] == m.src && after[id] == m.dst
    requires forall id :: id in after && after[id] != before[id] ==> exists m :: m in moves && m.src == before[id] && m.dst == after[id]
    ensures RowsFollow(rows, rows, before, after) <==> SameRows(rows, moves)
  {
  }

  // The moves say of every survivor, and only of survivors, where it came from and where it went.
  lemma MovesAreRelocations(st: Slots, ids: set<ReqId>, after: Slots, moves: seq<Move>)
    requires Inverse(st.reqToSlot, st.slotToReq) && Condensed(st, ids, after, moves)
    ensures forall m :: m in moves ==>
      exists id :: id in after.reqToSlot && id in st.reqToSlot && st.reqToSlot[id] == m.src && after.reqToSlot[id] == m.dst
    ensures forall id :: id in after.reqToSlot && after.reqToSlot[id] != st.reqToSlot[id] ==>
      exists m :: m in moves && m.src == st.reqToSlot[id] && m.dst == after.reqToSlot[id]
  {
    hide Dense;
    var k := |st.reqToSlot.Keys - ids|;
    SourcesAreRelocated(st, ids, after, moves);
    forall m | m in moves
      ensures exists id :: id in after.reqToSlot && id in st.reqToSlot && st.reqToSlot[id] == m.src && after.reqToSlot[id] == m.dst
    {
      assert m.src in Sources(moves);
      var id :| id in Relocated(st.reqToSlot, after.reqToSlot) && st.reqToSlot[id] == m.src;
      FollowIs(moves, k, m.src);
    }
    forall id | id in after.reqToSlot && after.reqToSlot[id] != st.reqToSlot[id]
      ensures exists m :: m in moves && m.src == st.reqToSlot[id] && m.dst == after.reqToSlot[id]
    {
      FollowIs(moves, k, st.reqToSlot[id]);
    }
  }

  // Nothing has to move exactly when the freed slots are the highest occupied ones.
  lemma NothingMovesIff(st: Slots, n: nat, ids: set<ReqId>, slots: set<nat>)
    requires Dense(st, n) && Current(st, ids, slots)
    ensures BatchCondense(st, ids, slots).Some?
    ensures BatchCondense(st, ids, slots).value.1 == [] <==> forall s :: s in slots ==> s >= n - |slots|
  {
    BatchCondenseCorrect(st, n, ids, slots);
    SurvivorCount(st, n, ids, slots);
    var (after, moves) := BatchCondense(st, ids, slots).value;
    hide BatchCondense;
    var k := n - |slots|;
    if moves == [] {
      forall s: nat | s < k
        ensures s !in slots
      {
        UnmovedStays(st, ids, after, s);
      }
    } else if forall s :: s in slots ==> s >= k {
      SourcesAreRelocated(st, ids, after, moves);
      assert moves[0].src in Sources(moves);
      var id :| id in Relocated(st.reqToSlot, after.reqToSlot) && st.reqToSlot[id] == moves[0].src;
      HighSlotsAreFreed(st, n, ids, slots);
      assert false;
    }
  }

  lemma UnmovedStays(st: Slots, ids: set<ReqId>, after: Slots, s: nat)
    requires Inverse(st.reqToSlot, st.slotToReq) && Condensed(st, ids, after, []) && s < |st.reqToSlot.Keys - ids|
    ensures s in st.slotToReq && st.slotToReq[s] !in ids
  {
    var id := after.slotToReq[s];
    assert Follow([], st.reqToSlot[id]) == after.reqToSlot[id];
  }

  // As many slots as were freed lie at or above k, so if all freed ones do, nothing else does.
  lemma HighSlotsAreFreed(st: Slots, n: nat, ids: set<ReqId>, slots: set<nat>)
    requires Dense(st, n) && Current(st, ids, slots) && |slots| <= n && forall s :: s in slots ==> s >= n - |slots|
    ensures forall s: nat :: n - |slots| <= s < n ==> s in slots
  {
    var high := Slice(n - |slots|, n);
    SliceCount(high, n - |slots|, n);
    assert slots <= high;
    SameSize(slots, high);
  }

  // So ignoring the moves is harmless whatever the rows hold exactly when nothing has to move: when the
  // freed slots are the highest occupied ones, which a caller can see beforehand.
  lemma {:induction false} IgnoringIsHarmlessIff(st: Slots, n: nat, ids: set<ReqId>, slots: set<nat>)
    requires Dense(st, n) && Current(st, ids, slots)
    ensures BatchCondense(st, ids, slots).Some?
    ensures (forall rows: seq<nat> :: n <= |rows| ==> HarmlessFor(rows, st, ids, slots))
            <==> forall s :: s in slots ==> s >= n - |slots|
  {
    NothingMovesIff(st, n, ids, slots);
    var (after, moves) := BatchCondense(st, ids, slots).value;
    forall rows: seq<nat> | n <= |rows|
      ensures HarmlessFor(rows, st, ids, slots) <==> SameRows(rows, moves)
    {
      IgnoringMovesIsSafeIff(rows, st, n, ids, slots);
    }
    if moves != [] {
      BatchCondenseCorrect(st, n, ids, slots);
      var rows := Range(0, n + moves[0].src + 1);
      assert moves[0] in moves && rows[moves[0].src] != rows[moves[0].dst];
      assert !HarmlessFor(rows, st, ids, slots);
    }
  }

  ghost predicate HarmlessFor<T>(rows: seq<T>, st: Slots, ids: set<ReqId>, slots: set<nat>) {
    BatchCondense(st, ids, slots).Some?
    && RowsFollow(rows, rows, st.reqToSlot, BatchCondense(st, ids, slots).value.0.reqToSlot)
  }
}
