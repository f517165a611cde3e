/** The waiting queues: a deque under FCFS, a list kept in priority order otherwise. */
module RequestQueue {
  import opened Requests

  // The order of the heap: lower priority value first, then earlier arrival.
  predicate Before(store: Store, a: ReqId, b: ReqId) {
    var x, y := Req(store, a), Req(store, b);
    x.priority < y.priority || (x.priority == y.priority && x.arrival < y.arrival)
  }

  function Push(store: Store, q: seq<ReqId>, id: ReqId): seq<ReqId> {
    if q == [] || Before(store, id, q[0]) then [id] + q else [q[0]] + Push(store, q[1..], id)
  }

  function Add(policy: Policy, store: Store, q: seq<ReqId>, id: ReqId): seq<ReqId> {
    match policy
    case Fcfs => q + [id]
    case Priority => Push(store, q, id)
  }

  function Prepend(policy: Policy, store: Store, q: seq<ReqId>, id: ReqId): seq<ReqId> {
    match policy
    case Fcfs => [id] + q
    case Priority => Push(store, q, id)
  }

  // extendleft for a deque, repeated insertion for a heap: one prepend per element of `ids`
  function PrependAll(policy: Policy, store: Store, q: seq<ReqId>, ids: seq<ReqId>): seq<ReqId>
    decreases |ids|
  {
    if ids == [] then q else PrependAll(policy, store, Prepend(policy, store, q, ids[0]), ids[1..])
  }

  function Remove(q: seq<ReqId>, id: ReqId): seq<ReqId> {
    if q == [] then [] else if q[0] == id then q[1..] else [q[0]] + Remove(q[1..], id)
  }

  lemma {:induction false} PushElements(store: Store, q: seq<ReqId>, id: ReqId)
    ensures multiset(Push(store, q, id)) == multiset(q) + multiset{id}
  {
    if q != [] && !Before(store, id, q[0]) {
      PushElements(store, q[1..], id);
      assert q == [q[0]] + q[1..];
    }
  }

  lemma AddElements(policy: Policy, store: Store, q: seq<ReqId>, id: ReqId)
    ensures multiset(Add(policy, store, q, id)) == multiset(q) + multiset{id}
  {
    PushElements(store, q, id);
  }

  lemma PrependElements(policy: Policy, store: Store, q: seq<ReqId>, id: ReqId)
    ensures multiset(Prepend(policy, store, q, id)) == multiset(q) + multiset{id}
  {
    PushElements(store, q, id);
  }

  lemma {:induction false} PrependAllElements(policy: Policy, store: Store, q: seq<ReqId>, ids: seq<ReqId>)
    ensures multiset(PrependAll(policy, store, q, ids)) == multiset(q) + multiset(ids)
    decreases |ids|
  {
    if ids != [] {
      PrependElements(policy, store, q, ids[0]);
      PrependAllElements(policy, store, Prepend(policy, store, q, ids[0]), ids[1..]);
      assert ids == [ids[0]] + ids[1..];
    }
  }

  lemma {:induction false} RemoveElements(q: seq<ReqId>, id: ReqId)
    ensures multiset(Remove(q, id)) == multiset(q) - multiset{id}
  {
    if q != [] {
      assert q == [q[0]] + q[1..];
      RemoveElements(q[1..], id);
    }
  }

  // No one stands behind somebody who should come later.
  ghost predicate Ordered(store: Store, q: seq<ReqId>) {
    forall i, j :: 0 <= i < j < |q| ==> !Before(store, q[j], q[i])
  }

  // Priority values do not fall along the queue, and among equal ones arrival times do not.
  ghost predicate ByPriority(store: Store, q: seq<ReqId>) {
    forall i, j :: 0 <= i < j < |q| ==>
      var x, y := Req(store, q[i]), Req(store, q[j]);
      x.priority <= y.priority && (x.priority == y.priority ==> x.arrival <= y.arrival)
  }

  lemma OrderedIff(store: Store, q: seq<ReqId>)
    ensures Ordered(store, q) <==> ByPriority(store, q)
  {
    hide Req;
  }

  // The head of a queue in order is the most urgent request in it, and the first to arrive of those.
  lemma {:induction false} HeadIsMostUrgent(store: Store, q: seq<ReqId>, id: ReqId)
    requires Ordered(store, q) && id in q
    ensures var head, other := Req(store, q[0]), Req(store, id);
      head.priority < other.priority || (head.priority == other.priority && head.arrival <= other.arrival)
  {
    hide Req;
    OrderedIff(store, q);
    var i :| 0 <= i < |q| && q[i] == id;
  }

  // Adding keeps the order, so the head is always a least one.
  lemma {:induction false} PushOrdered(store: Store, q: seq<ReqId>, id: ReqId)
    requires Ordered(store, q)
    ensures Ordered(store, Push(store, q, id))
    ensures forall x :: x in Push(store, q, id) ==> x == id || x in q
  {
    if q != [] && !Before(store, id, q[0]) {
      PushOrdered(store, q[1..], id);
      var rest := Push(store, q[1..], id);
      assert forall k :: 0 <= k < |rest| ==> rest[k] in rest;
    }
  }

  // `q'` is `q` with one more: under FCFS at the end, otherwise behind everybody it need not precede and
  // in front of the first it precedes.
  ghost predicate PlacedAt(policy: Policy, store: Store, q: seq<ReqId>, id: ReqId, q': seq<ReqId>, k: nat) {
    && k <= |q| && q' == q[..k] + [id] + q[k..]
    && match policy
       case Fcfs => k == |q|
       case Priority => (forall j :: 0 <= j < k ==> !Before(store, id, q[j])) && (k < |q| ==> Before(store, id, q[k]))
  }

  lemma {:induction false} PushPlaces(store: Store, q: seq<ReqId>, id: ReqId) returns (k: nat)
    ensures PlacedAt(Priority, store, q, id, Push(store, q, id), k)
  {
    if q == [] || Before(store, id, q[0]) {
      k := 0;
    } else {
      k := PushPlaces(store, q[1..], id);
      assert Push(store, q, id) == [q[0]] + (q[1..][..k] + [id] + q[1..][k..]);
      assert [q[0]] + q[1..][..k] == q[..k + 1] && q[1..][k..] == q[k + 1..];
      k := k + 1;
    }
  }

  // Adding moves nobody: the others keep their places before and behind the newcomer.
  lemma AddPlaces(policy: Policy, store: Store, q: seq<ReqId>, id: ReqId) returns (k: nat)
    ensures PlacedAt(policy, store, q, id, Add(policy, store, q, id), k)
    ensures policy == Priority && Ordered(store, q) ==> Ordered(store, Add(policy, store, q, id))
  {
    match policy
    case Fcfs =>
      k := |q|;
      assert q[..k] + [id] + q[k..] == q + [id];
    case Priority =>
      k := PushPlaces(store, q, id);
      if Ordered(store, q) {
        PushOrdered(store, q, id);
      }
  }

  lemma {:induction false} PrependAllOrdered(store: Store, q: seq<ReqId>, ids: seq<ReqId>)
    requires Ordered(store, q)
    ensures Ordered(store, PrependAll(Priority, store, q, ids))
    decreases |ids|
  {
    if ids != [] {
      PushOrdered(store, q, ids[0]);
      PrependAllOrdered(store, Push(store, q, ids[0]), ids[1..]);
    }
  }

  function Reverse(s: seq<ReqId>): seq<ReqId> {
    if s == [] then [] else Reverse(s[1..]) + [s[0]]
  }

  // extendleft reverses: the last of `ids` ends up in front.
  lemma {:induction false} PrependAllReverses(store: Store, q: seq<ReqId>, ids: seq<ReqId>)
    ensures PrependAll(Fcfs, store, q, ids) == Reverse(ids) + q
    decreases |ids|
  {
    if ids == [] {
      assert Reverse(ids) + q == q;
    } else {
      var rest, last := Reverse(ids[1..]), [ids[0]];
      PrependAllReverses(store, last + q, ids[1..]);
      assert rest + (last + q) == rest + last + q;
    }
  }
}
