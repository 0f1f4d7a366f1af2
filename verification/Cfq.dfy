/**
 * CFQ on values: per-process queues with their sorted list, FIFO and next
 * request, the service tree with its cached leftmost node, and the counters
 * that must agree with all of them.
 */
module Cfq {
  import opened Common

  type Id = int

  datatype Rq = Rq(id: Id, pos: nat, sync: bool)

  /** A `cfq_queue`: `asyncs` and `syncs` are `queued[0]` and `queued[1]`. */
  datatype Cq = Cq(
    sync: bool, onRr: bool, sort: seq<Rq>, fifo: seq<Id>, next: Option<Id>,
    asyncs: int, syncs: int, dispatched: nat)

  /** `tree` is the service tree in order, by queue number; `left` its cached leftmost node. */
  datatype State = State(
    queues: seq<Cq>, tree: seq<int>, left: Option<int>, busy: int, rqQueued: int, syncFlight: int)

  /** `cfq_choose_req` at some moment: whether the first of two requests is preferred. */
  type Preference = (Rq, Rq) -> bool

  // ---- the service tree ------------------------------------------------------------

  datatype Tree = Leaf | Node(l: Tree, q: int, r: Tree)

  function InOrder(t: Tree): seq<int> {
    match t
    case Leaf => []
    case Node(l, q, r) => InOrder(l) + [q] + InOrder(r)
  }

  /** The descent of `cfq_service_tree_add`: `before(x)` sends the newcomer left of `x`. */
  function Descend(t: Tree, q: int, before: int -> bool): Tree {
    match t
    case Leaf => Node(Leaf, q, Leaf)
    case Node(l, x, r) => if before(x) then Node(Descend(l, q, before), x, r) else Node(l, x, Descend(r, q, before))
  }

  /** Its `left` flag: it never turned right. */
  function StaysLeft(t: Tree, before: int -> bool): bool {
    match t
    case Leaf => true
    case Node(l, x, r) => before(x) && StaysLeft(l, before)
  }

  /** A tree that holds `s` in order. */
  function Spine(s: seq<int>): (t: Tree)
    ensures InOrder(t) == s
  {
    if s == [] then Leaf else Node(Leaf, s[0], Spine(s[1..]))
  }

  /** What a descent meets: its key unchanged or not, the shape balancing left, and how each node compares. */
  datatype Descent = Descent(sameKey: bool, shape: Tree, before: int -> bool)

  /** The tree as it stands: any shape that holds it in order. */
  function Shape(at: Descent, tree: seq<int>): (t: Tree)
    ensures InOrder(t) == tree
  {
    if InOrder(at.shape) == tree then at.shape else Spine(tree)
  }

  /**
   * Whatever the tree's shape and however its nodes compare, the newcomer ends
   * up at some place in the order, and first exactly when the flag says so.
   */
  lemma {:induction false} DescendInserts(t: Tree, q: int, before: int -> bool) returns (k: nat)
    ensures k <= |InOrder(t)| && InOrder(Descend(t, q, before)) == InsertAt(InOrder(t), k, q)
    ensures k == 0 <==> StaysLeft(t, before)
  {
    match t
    case Leaf => k := 0;
    case Node(l, x, r) =>
      if before(x) {
        k := DescendInserts(l, q, before);
        var a := InOrder(l);
        assert InsertAt(a + [x] + InOrder(r), k, q) == InsertAt(a, k, q) + [x] + InOrder(r);
      } else {
        var m := DescendInserts(r, q, before);
        var a, b := InOrder(l) + [x], InOrder(r);
        k := |a| + m;
        assert InsertAt(a + b, k, q) == a + InsertAt(b, m, q);
      }
  }

  function Set(s: State, i: nat, q: Cq): State
    requires i < |s.queues|
  {
    s.(queues := s.queues[i := q])
  }

  /** `cfq_rb_erase` */
  function Erase(s: State, i: nat): State {
    s.(tree := Without(s.tree, i), left := if s.left == Some(i) then None else s.left)
  }

  /** The descent into `s`, which does not hold `i`. */
  function Link(s: State, i: nat, at: Descent): State {
    var t := Shape(at, s.tree);
    s.(tree := InOrder(Descend(t, i, at.before)), left := if StaysLeft(t, at.before) then Some(i) else s.left)
  }

  /** `cfq_service_tree_add` */
  function ServiceAdd(s: State, i: nat, at: Descent): State {
    if i in s.tree && at.sameKey then s
    else Link(if i in s.tree then Erase(s, i) else s, i, at)
  }

  /** `cfq_resort_rr_list` */
  function Resort(s: State, i: nat, at: Descent): State
    requires i < |s.queues|
  {
    if s.queues[i].onRr then ServiceAdd(s, i, at) else s
  }

  /** `cfq_add_cfqq_rr` */
  function AddRr(s: State, i: nat, at: Descent): State
    requires i < |s.queues|
  {
    Resort(Set(s, i, s.queues[i].(onRr := true)).(busy := s.busy + 1), i, at)
  }

  /** `cfq_del_cfqq_rr` */
  function DelRr(s: State, i: nat): State
    requires i < |s.queues|
  {
    var t := Set(s, i, s.queues[i].(onRr := false)).(busy := s.busy - 1);
    if i in t.tree then Erase(t, i) else t
  }

  /** `cfq_rb_first` */
  function First(s: State): Option<int> {
    if s.left.Some? then s.left else if s.tree == [] then None else Some(s.tree[0])
  }

  // ---- one queue's requests ------------------------------------------------------------

  function Pick(prefer: Preference, a: Option<Rq>, b: Option<Rq>): Option<Id> {
    if a.None? && b.None? then None
    else if a.None? then Some(b.value.id)
    else if b.None? || prefer(a.value, b.value) then Some(a.value.id)
    else Some(b.value.id)
  }

  /** `cfq_find_next_rq` */
  function FindNext(prefer: Preference, sort: seq<Rq>, k: nat): Option<Id>
    requires k < |sort|
  {
    var prev := if k > 0 then Some(sort[k - 1]) else None;
    var next := if k + 1 < |sort| then Some(sort[k + 1]) else if k > 0 then Some(sort[0]) else None;
    Pick(prefer, next, prev)
  }

  function Bit(b: bool): int {
    if b then 1 else 0
  }

  function Counted(q: Cq, sync: bool, d: int): Cq {
    q.(syncs := q.syncs + (if sync then d else 0), asyncs := q.asyncs + (if sync then 0 else d))
  }

  /** `cfq_remove_request`, as far as the queue's own lists go. */
  function RemoveQ(prefer: Preference, q: Cq, k: nat): Cq
    requires k < |q.sort|
  {
    var r := q.sort[k];
    Counted(q, r.sync, -1).(next := if q.next == Some(r.id) then FindNext(prefer, q.sort, k) else q.next,
                            fifo := Without(q.fifo, r.id), sort := RemoveAt(q.sort, k))
  }

  function Place(sort: seq<Rq>, p: nat): nat
    ensures Place(sort, p) <= |sort|
  {
    if sort == [] || sort[0].pos >= p then 0 else 1 + Place(sort[1..], p)
  }

  /** The request `elv_rb_add` finds in the way. */
  function Alias(sort: seq<Rq>, p: nat): Option<nat> {
    var k := Place(sort, p);
    if k < |sort| && sort[k].pos == p then Some(k) else None
  }

  // ---- requests across the scheduler ------------------------------------------------------

  /** `cfq_remove_request` */
  function Remove(prefer: Preference, s: State, i: nat, k: nat): State
    requires i < |s.queues| && k < |s.queues[i].sort|
  {
    var t := Set(s, i, RemoveQ(prefer, s.queues[i], k)).(rqQueued := s.rqQueued - 1);
    if t.queues[i].onRr && t.queues[i].sort == [] then DelRr(t, i) else t
  }

  /** `cfq_dispatch_insert` */
  function DispatchInsert(prefer: Preference, s: State, i: nat, k: nat): State
    requires i < |s.queues| && k < |s.queues[i].sort|
  {
    var q := s.queues[i];
    var t := Remove(prefer, Set(s, i, q.(next := FindNext(prefer, q.sort, k))), i, k);
    Set(t, i, t.queues[i].(dispatched := t.queues[i].dispatched + 1)).(syncFlight := t.syncFlight + Bit(q.sync))
  }

  function InsertQ(q: Cq, r: Rq): Cq {
    q.(sort := InsertAt(q.sort, Place(q.sort, r.pos), r))
  }

  function Chosen(prefer: Preference, q: Cq, r: Rq): Option<Id> {
    if q.next.None? || q.next == Some(r.id) then Some(r.id)
    else if Old(q.sort, q.next.value).Some? && prefer(Old(q.sort, q.next.value).value, r) then q.next
    else Some(r.id)
  }

  /** The queued request with identity `x`. */
  function Old(sort: seq<Rq>, x: Id): Option<Rq> {
    if sort == [] then None else if sort[0].id == x then Some(sort[0]) else Old(sort[1..], x)
  }

  /** `cfq_add_rq_rb`: an alias is dispatched, the request takes its place, the queue joins the rr list. */
  function AddRqRb(prefer: Preference, s: State, i: nat, r: Rq, at: Descent): State
    requires i < |s.queues|
  {
    var s1 := Set(s, i, Counted(s.queues[i], r.sync, 1));
    var a := Alias(s1.queues[i].sort, r.pos);
    var s2 := if a.Some? then DispatchInsert(prefer, s1, i, a.value) else s1;
    var s3 := Set(s2, i, InsertQ(s2.queues[i], r));
    var s4 := if s3.queues[i].onRr then s3 else AddRr(s3, i, at);
    Set(s4, i, s4.queues[i].(next := Chosen(prefer, s4.queues[i], r)))
  }

  /** `cfq_insert_request` */
  function Insert(prefer: Preference, s: State, i: nat, r: Rq, at: Descent): State
    requires i < |s.queues|
  {
    var t := AddRqRb(prefer, s, i, r, at);
    Set(t, i, t.queues[i].(fifo := t.queues[i].fifo + [r.id])).(rqQueued := t.rqQueued + 1)
  }

  /** `cfq_reposition_rq_rb` after a front merge moved the request at `k` down to sector `p`. */
  function Reposition(prefer: Preference, s: State, i: nat, k: nat, p: nat, at: Descent): State
    requires i < |s.queues| && k < |s.queues[i].sort|
  {
    var q := s.queues[i];
    var r := q.sort[k];
    AddRqRb(prefer, Set(s, i, Counted(q, r.sync, -1).(sort := RemoveAt(q.sort, k))), i, r.(pos := p), at)
  }

  /** `cfq_completed_request` */
  function Complete(s: State, i: nat): State
    requires i < |s.queues| && s.queues[i].dispatched > 0
  {
    var q := s.queues[i];
    Set(s, i, q.(dispatched := q.dispatched - 1)).(syncFlight := s.syncFlight - Bit(q.sync))
  }

  // ---- the tree's invariant ---------------------------------------------------------------------

  ghost predicate Member(s: State, i: int) {
    0 <= i < |s.queues| && s.queues[i].onRr
  }

  /** The tree holds exactly the queues on the rr list, once; `busy_queues` counts them; the cache is empty or right. */
  ghost predicate TreeOk(s: State) {
    && NoDup(s.tree) && s.busy == |s.tree|
    && (forall i {:trigger i in s.tree} {:trigger Member(s, i)} :: i in s.tree <==> Member(s, i))
    && (s.left.Some? ==> s.tree != [] && s.left.value == s.tree[0])
  }

  /** The same queues are on the rr list, and tree and counters are untouched. */
  ghost predicate SameTree(s: State, t: State) {
    && t.tree == s.tree && t.left == s.left && t.busy == s.busy && |t.queues| == |s.queues|
    && forall j :: 0 <= j < |s.queues| ==> t.queues[j].onRr == s.queues[j].onRr
  }

  lemma SameTreeOk(s: State, t: State)
    requires TreeOk(s) && SameTree(s, t)
    ensures TreeOk(t)
  {
    forall i ensures Member(t, i) <==> Member(s, i) {
    }
  }

  lemma {:induction false} WithoutLength(s: seq<int>, x: int)
    requires x in s
    ensures |Without(s, x)| == |s| - 1
  {
    if s[0] != x { WithoutLength(s[1..], x); }
  }

  lemma EraseFacts(s: State, i: nat)
    requires NoDup(s.tree) && (s.left.Some? ==> s.tree != [] && s.left.value == s.tree[0]) && i in s.tree
    ensures var t := Erase(s, i);
            && NoDup(t.tree) && |t.tree| == |s.tree| - 1 && (forall j :: j in t.tree <==> j in s.tree && j != i)
            && (t.left.Some? ==> t.tree != [] && t.left.value == t.tree[0])
  {
    WithoutNoDup(s.tree, i);
    WithoutLength(s.tree, i);
    forall j ensures j in Without(s.tree, i) <==> j in s.tree && j != i {
      WithoutIn(s.tree, i, j);
    }
  }

  lemma InsertNoDup(s: seq<int>, k: nat, x: int)
    requires NoDup(s) && k <= |s| && x !in s
    ensures NoDup(InsertAt(s, k, x))
  {
  }

  /** Linking adds one node to the order, and caches it exactly when it is the first. */
  lemma LinkFacts(s: State, i: nat, at: Descent)
    requires NoDup(s.tree) && i !in s.tree && (s.left.Some? ==> s.tree != [] && s.left.value == s.tree[0])
    ensures var t := Link(s, i, at);
            && NoDup(t.tree) && |t.tree| == |s.tree| + 1 && (forall j :: j in t.tree <==> j in s.tree || j == i)
            && (t.left.Some? ==> t.left.value == t.tree[0])
  {
    hide InOrder, Descend, StaysLeft;
    var k := DescendInserts(Shape(at, s.tree), i, at.before);
    InsertNoDup(s.tree, k, i);
    forall j ensures j in InsertAt(s.tree, k, i) <==> j in s.tree || j == i {
      InsertIn(s.tree, k, i, j);
    }
  }

  lemma ServiceAddOk(s: State, i: nat, at: Descent)
    requires TreeOk(s) && Member(s, i)
    ensures TreeOk(ServiceAdd(s, i, at))
  {
    if !at.sameKey {
      hide Link, Erase;
      EraseFacts(s, i);
      LinkFacts(Erase(s, i), i, at);
      SameQueues(s, i, at);
      forall j ensures Member(ServiceAdd(s, i, at), j) <==> Member(s, j) {
      }
    }
  }

  lemma SameQueues(s: State, i: nat, at: Descent)
    ensures Erase(s, i) == s.(tree := Erase(s, i).tree, left := Erase(s, i).left)
    ensures var t := Link(Erase(s, i), i, at); t == s.(tree := t.tree, left := t.left)
    ensures var t := Link(s, i, at); t == s.(tree := t.tree, left := t.left)
  {
  }

  /** A queue that was not on the rr list joins it, somewhere in the order. */
  lemma AddRrOk(s: State, i: nat, at: Descent)
    requires TreeOk(s) && i < |s.queues| && !s.queues[i].onRr
    ensures var t := AddRr(s, i, at); TreeOk(t) && t.queues == s.queues[i := s.queues[i].(onRr := true)]
    ensures var t := AddRr(s, i, at); t.rqQueued == s.rqQueued && t.syncFlight == s.syncFlight
  {
    hide Link;
    assert !Member(s, i);
    var s1 := Set(s, i, s.queues[i].(onRr := true)).(busy := s.busy + 1);
    LinkFacts(s1, i, at);
    SameQueues(s1, i, at);
    var t := AddRr(s, i, at);
    forall j ensures j in t.tree <==> Member(t, j) {
      assert j != i ==> (Member(t, j) <==> Member(s, j));
    }
  }

  lemma DelRrOk(s: State, i: nat)
    requires TreeOk(s) && Member(s, i)
    ensures var t := DelRr(s, i); TreeOk(t) && t.queues == s.queues[i := s.queues[i].(onRr := false)]
    ensures var t := DelRr(s, i); t.rqQueued == s.rqQueued && t.syncFlight == s.syncFlight
  {
    EraseFacts(s, i);
    var t := DelRr(s, i);
    forall j ensures j in t.tree <==> Member(t, j) {
      assert j != i ==> (Member(t, j) <==> Member(s, j));
    }
  }

  /** So the cached and the walked first node agree. */
  lemma FirstIsFirst(s: State)
    requires TreeOk(s)
    ensures First(s) == if s.tree == [] then None else Some(s.tree[0])
  {
  }

  lemma LeftFree(s: State, left: Option<int>)
    requires TreeOk(s) && (left.Some? ==> s.tree != [] && left.value == s.tree[0])
    ensures TreeOk(s.(left := left))
  {
    forall i ensures Member(s.(left := left), i) <==> Member(s, i) {
    }
  }

  // ---- a queue's invariant ------------------------------------------------------------------------

  ghost predicate Ascending(sort: seq<Rq>) {
    forall i, j :: 0 <= i < j < |sort| ==> sort[i].pos < sort[j].pos
  }

  ghost predicate Distinct(sort: seq<Rq>) {
    forall i, j :: 0 <= i < j < |sort| ==> sort[i].id != sort[j].id
  }

  ghost predicate Has(sort: seq<Rq>, x: Id) {
    exists i :: 0 <= i < |sort| && sort[i].id == x
  }

  function SyncOne(r: Rq): nat {
    if r.sync then 1 else 0
  }

  function AsyncOne(r: Rq): nat {
    if r.sync then 0 else 1
  }

  /** The sorted list is in order, and `queued[]` counts it. */
  ghost predicate Sorted(q: Cq) {
    Ascending(q.sort) && Distinct(q.sort) && q.syncs == Sum(q.sort, SyncOne) && q.asyncs == Sum(q.sort, AsyncOne)
  }

  /** The FIFO holds the same requests; something is next, and on the rr list, iff there is anything at all. */
  ghost predicate QueueOk(q: Cq) {
    && Sorted(q)
    && NoDup(q.fifo) && (forall x :: x in q.fifo <==> Has(q.sort, x))
    && (q.onRr <==> q.sort != []) && (q.next.Some? <==> q.sort != []) && (q.next.Some? ==> Has(q.sort, q.next.value))
  }

  lemma RemoveHas(sort: seq<Rq>, k: nat, x: Id)
    requires Distinct(sort) && k < |sort|
    ensures Has(RemoveAt(sort, k), x) <==> Has(sort, x) && x != sort[k].id
  {
    var t := RemoveAt(sort, k);
    if Has(sort, x) && x != sort[k].id {
      var i :| 0 <= i < |sort| && sort[i].id == x;
      assert t[if i < k then i else i - 1].id == x;
    }
    if Has(t, x) {
      var i :| 0 <= i < |t| && t[i].id == x;
      assert sort[if i < k then i else i + 1].id == x;
    }
  }

  lemma RemoveSorted(q: Cq, k: nat)
    requires Sorted(q) && k < |q.sort|
    ensures Sorted(Counted(q, q.sort[k].sync, -1).(sort := RemoveAt(q.sort, k)))
    ensures forall x :: Has(RemoveAt(q.sort, k), x) <==> Has(q.sort, x) && x != q.sort[k].id
  {
    hide Sum;
    SumRemove(q.sort, k, SyncOne);
    SumRemove(q.sort, k, AsyncOne);
    forall x ensures Has(RemoveAt(q.sort, k), x) <==> Has(q.sort, x) && x != q.sort[k].id {
      RemoveHas(q.sort, k, x);
    }
  }

  lemma {:induction false} PlaceSplits(sort: seq<Rq>, p: nat)
    requires Ascending(sort)
    ensures forall i :: 0 <= i < Place(sort, p) ==> sort[i].pos < p
    ensures forall i :: Place(sort, p) <= i < |sort| ==> sort[i].pos >= p
  {
    if sort != [] && sort[0].pos < p { PlaceSplits(sort[1..], p); }
  }

  lemma InsertHas(sort: seq<Rq>, k: nat, r: Rq, x: Id)
    requires k <= |sort|
    ensures Has(InsertAt(sort, k, r), x) <==> Has(sort, x) || x == r.id
  {
    var t := InsertAt(sort, k, r);
    if Has(sort, x) {
      var i :| 0 <= i < |sort| && sort[i].id == x;
      assert t[if i < k then i else i + 1].id == x;
    }
    assert t[k].id == r.id;
    if Has(t, x) && x != r.id {
      var i :| 0 <= i < |t| && t[i].id == x;
      assert sort[if i < k then i else i - 1].id == x;
    }
  }

  lemma InsertInOrder(sort: seq<Rq>, r: Rq)
    requires Ascending(sort) && Distinct(sort) && !Has(sort, r.id) && Alias(sort, r.pos).None?
    ensures var t := InsertAt(sort, Place(sort, r.pos), r); Ascending(t) && Distinct(t)
  {
    PlaceSplits(sort, r.pos);
    var k := Place(sort, r.pos);
    var t := InsertAt(sort, k, r);
    forall i, j | 0 <= i < j < |t| ensures t[i].pos < t[j].pos && t[i].id != t[j].id {
      if k < j && k < |sort| { assert sort[k].pos <= sort[j - 1].pos; }
    }
  }

  lemma InsertSorted(q: Cq, r: Rq)
    requires Sorted(q) && !Has(q.sort, r.id) && Alias(q.sort, r.pos).None?
    ensures Sorted(InsertQ(Counted(q, r.sync, 1), r))
    ensures forall x :: Has(InsertQ(q, r).sort, x) <==> Has(q.sort, x) || x == r.id
  {
    hide Sum;
    var k := Place(q.sort, r.pos);
    InsertInOrder(q.sort, r);
    SumInsert(q.sort, k, r, SyncOne);
    SumInsert(q.sort, k, r, AsyncOne);
    forall x ensures Has(InsertAt(q.sort, k, r), x) <==> Has(q.sort, x) || x == r.id {
      InsertHas(q.sort, k, r, x);
    }
  }

  /** A neighbour exists iff there is another request, and it is one of them. */
  lemma FindNextHas(prefer: Preference, sort: seq<Rq>, k: nat)
    requires Distinct(sort) && k < |sort|
    ensures FindNext(prefer, sort, k).Some? <==> |sort| > 1
    ensures FindNext(prefer, sort, k).Some? ==>
            Has(sort, FindNext(prefer, sort, k).value) && FindNext(prefer, sort, k).value != sort[k].id
  {
    if k > 0 { assert Has(sort, sort[k - 1].id) && Has(sort, sort[0].id); }
    if k + 1 < |sort| { assert Has(sort, sort[k + 1].id); }
  }

  /** Removing one of a queue's requests, `next_rq` possibly recomputed first. */
  lemma RemoveQOk(prefer: Preference, q: Cq, k: nat)
    requires QueueOk(q) && k < |q.sort|
    ensures var t := RemoveQ(prefer, q, k); QueueOk(t.(onRr := t.sort != [])) && t.onRr && |t.sort| == |q.sort| - 1
  {
    hide Sum, FindNext;
    var x, t := q.sort[k].id, RemoveQ(prefer, q, k);
    RemoveSorted(q, k);
    FindNextHas(prefer, q.sort, k);
    assert Has(q.sort, x);
    WithoutNoDup(q.fifo, x);
    forall y ensures y in Without(q.fifo, x) <==> y in q.fifo && y != x {
      WithoutIn(q.fifo, x, y);
    }
    if q.next != Some(x) { assert Has(t.sort, q.next.value) <==> Has(q.sort, q.next.value); }
    if t.sort == [] { assert !Has(t.sort, 0); }
  }

  // ---- each step on one queue and the tree -----------------------------------------------------------

  /** What a removal leaves of the queue, the rr flag included. */
  function Removed(prefer: Preference, q: Cq, k: nat): Cq
    requires k < |q.sort|
  {
    var t := RemoveQ(prefer, q, k);
    t.(onRr := t.onRr && t.sort != [])
  }

  function Dispatched(prefer: Preference, q: Cq, k: nat): Cq
    requires k < |q.sort|
  {
    var t := Removed(prefer, q.(next := FindNext(prefer, q.sort, k)), k);
    t.(dispatched := t.dispatched + 1)
  }

  function Added(prefer: Preference, q: Cq, r: Rq): Cq {
    var q1 := Counted(q, r.sync, 1);
    var a := Alias(q.sort, r.pos);
    var q2 := if a.Some? then Dispatched(prefer, q1, a.value) else q1;
    var q4 := InsertQ(q2, r).(onRr := true);
    q4.(next := Chosen(prefer, q4, r))
  }

  lemma SetTree(s: State, i: nat, q: Cq)
    requires TreeOk(s) && i < |s.queues| && q.onRr == s.queues[i].onRr
    ensures TreeOk(Set(s, i, q))
  {
    SameTreeOk(s, Set(s, i, q));
  }

  lemma CountersFree(s: State, rqQueued: int, syncFlight: int)
    requires TreeOk(s)
    ensures TreeOk(s.(rqQueued := rqQueued, syncFlight := syncFlight))
  {
    SameTreeOk(s, s.(rqQueued := rqQueued, syncFlight := syncFlight));
  }

  lemma RemoveIs(prefer: Preference, s: State, i: nat, k: nat)
    requires TreeOk(s) && i < |s.queues| && k < |s.queues[i].sort|
    ensures var t := Remove(prefer, s, i, k);
            && TreeOk(t) && t.queues == s.queues[i := Removed(prefer, s.queues[i], k)]
            && t.rqQueued == s.rqQueued - 1 && t.syncFlight == s.syncFlight
  {
    hide TreeOk, RemoveAt, FindNext, Without;
    var q := RemoveQ(prefer, s.queues[i], k);
    SetTree(s, i, q);
    CountersFree(Set(s, i, q), s.rqQueued - 1, s.syncFlight);
    var t := Set(s, i, q).(rqQueued := s.rqQueued - 1);
    if q.onRr && q.sort == [] { DelRrOk(t, i); }
  }

  lemma DispatchIs(prefer: Preference, s: State, i: nat, k: nat)
    requires TreeOk(s) && i < |s.queues| && k < |s.queues[i].sort|
    ensures var t := DispatchInsert(prefer, s, i, k);
            && TreeOk(t) && t.queues == s.queues[i := Dispatched(prefer, s.queues[i], k)]
            && t.rqQueued == s.rqQueued - 1 && t.syncFlight == s.syncFlight + Bit(s.queues[i].sync)
  {
    hide TreeOk, Removed, Remove, FindNext;
    var q := s.queues[i];
    var s1 := Set(s, i, q.(next := FindNext(prefer, q.sort, k)));
    SetTree(s, i, s1.queues[i]);
    RemoveIs(prefer, s1, i, k);
    var t := Remove(prefer, s1, i, k);
    var d := t.queues[i].(dispatched := t.queues[i].dispatched + 1);
    SetTree(t, i, d);
    CountersFree(Set(t, i, d), t.rqQueued, t.syncFlight + Bit(q.sync));
  }

  lemma AddIs(prefer: Preference, s: State, i: nat, r: Rq, at: Descent)
    requires TreeOk(s) && i < |s.queues|
    ensures var t, q := AddRqRb(prefer, s, i, r, at), s.queues[i];
            && TreeOk(t) && t.queues == s.queues[i := Added(prefer, q, r)]
            && t.rqQueued == s.rqQueued - Bit(Alias(q.sort, r.pos).Some?)
            && t.syncFlight == s.syncFlight + Bit(Alias(q.sort, r.pos).Some? && q.sync)
  {
    hide TreeOk, Alias, DispatchInsert, Dispatched, InsertQ, Chosen, AddRr;
    var q1 := Counted(s.queues[i], r.sync, 1);
    var s1 := Set(s, i, q1);
    SetTree(s, i, q1);
    var a := Alias(q1.sort, r.pos);
    AliasBound(q1.sort, r.pos);
    if a.Some? { DispatchIs(prefer, s1, i, a.value); }
    var s2 := if a.Some? then DispatchInsert(prefer, s1, i, a.value) else s1;
    InsertFrame(s2.queues[i], r);
    SetTree(s2, i, InsertQ(s2.queues[i], r));
    var s3 := Set(s2, i, InsertQ(s2.queues[i], r));
    if !s3.queues[i].onRr { AddRrOk(s3, i, at); }
    var s4 := if s3.queues[i].onRr then s3 else AddRr(s3, i, at);
    SetTree(s4, i, s4.queues[i].(next := Chosen(prefer, s4.queues[i], r)));
  }

  lemma AliasBound(sort: seq<Rq>, p: nat)
    ensures Alias(sort, p).Some? ==> 0 <= Alias(sort, p).value < |sort|
  {
  }

  lemma InsertFrame(q: Cq, r: Rq)
    ensures InsertQ(q, r) == q.(sort := InsertQ(q, r).sort)
  {
  }

  // ---- and on its lists ---------------------------------------------------------------------------------

  lemma RemovedOk(prefer: Preference, q: Cq, k: nat)
    requires QueueOk(q) && k < |q.sort|
    ensures QueueOk(Removed(prefer, q, k)) && |Removed(prefer, q, k).sort| == |q.sort| - 1
  {
    RemoveQOk(prefer, q, k);
  }

  lemma DispatchedOk(prefer: Preference, q: Cq, k: nat)
    requires QueueOk(q) && k < |q.sort|
    ensures QueueOk(Dispatched(prefer, q, k)) && |Dispatched(prefer, q, k).sort| == |q.sort| - 1
  {
    hide Sum, FindNext, RemoveQ;
    var x := FindNext(prefer, q.sort, k);
    FindNextHas(prefer, q.sort, k);
    if |q.sort| > 1 {
      RemovedOk(prefer, q.(next := x), k);
      DispatchedFrame(Removed(prefer, q.(next := x), k));
    } else {
      DispatchedLast(prefer, q, k);
    }
  }

  lemma DispatchedFrame(q: Cq)
    requires QueueOk(q)
    ensures QueueOk(q.(dispatched := q.dispatched + 1))
  {
    hide Sum;
  }

  lemma DispatchedLast(prefer: Preference, q: Cq, k: nat)
    requires QueueOk(q) && |q.sort| == 1 && k == 0
    ensures QueueOk(Dispatched(prefer, q, k)) && Dispatched(prefer, q, k).sort == []
  {
    hide Sum;
    assert FindNext(prefer, q.sort, k) == None;
    RemoveSorted(q, k);
    var x := q.sort[0].id;
    WithoutNoDup(q.fifo, x);
    forall y ensures y in Without(q.fifo, x) <==> y in q.fifo && y != x {
      WithoutIn(q.fifo, x, y);
    }
    assert Has(q.sort, x);
  }

  /** The identity of the request that has to make way. */
  function AliasId(q: Cq, r: Rq): Option<Id> {
    var a := Alias(q.sort, r.pos);
    if a.Some? then Some(q.sort[a.value].id) else None
  }

  /** What `Added` leaves, for a queue whose sorted list does not hold the request. */
  ghost predicate AddedAs(q: Cq, r: Rq, t: Cq) {
    var a := AliasId(q, r);
    && Sorted(t) && t.onRr && t.sync == q.sync
    && (forall x :: Has(t.sort, x) <==> x == r.id || (Has(q.sort, x) && Some(x) != a))
    && t.fifo == (if a.Some? then Without(q.fifo, a.value) else q.fifo)
    && t.next.Some? && Has(t.sort, t.next.value)
    && |t.sort| == |q.sort| + 1 - Bit(a.Some?) && t.dispatched == q.dispatched + Bit(a.Some?)
  }

  /** The queue once the alias is out of the way: what is left has no request at that sector. */
  lemma ClearedFor(prefer: Preference, q: Cq, r: Rq)
    requires Sorted(q) && Alias(q.sort, r.pos).Some?
    ensures var k := Alias(q.sort, r.pos).value; var t := Dispatched(prefer, q, k);
            && Sorted(t) && Alias(t.sort, r.pos).None? && t.sort == RemoveAt(q.sort, k)
            && (forall x :: Has(t.sort, x) <==> Has(q.sort, x) && x != q.sort[k].id)
            && (t.next.Some? ==> Has(t.sort, t.next.value))
  {
    hide Sum;
    var k := Alias(q.sort, r.pos).value;
    RemoveSorted(q, k);
    FindNextHas(prefer, q.sort, k);
    NoAlias(q.sort, k, r.pos);
  }

  lemma NoAlias(sort: seq<Rq>, k: nat, p: nat)
    requires Ascending(sort) && k < |sort| && sort[k].pos == p
    ensures Alias(RemoveAt(sort, k), p).None?
  {
    var t := RemoveAt(sort, k);
    forall i | 0 <= i < |t| ensures t[i].pos != p {
      assert t[i] == sort[if i < k then i else i + 1];
    }
  }

  /** Dispatching the alias first and counting the newcomer first come to the same. */
  lemma CountLater(prefer: Preference, q: Cq, r: Rq, k: nat)
    requires k < |q.sort|
    ensures Dispatched(prefer, Counted(q, r.sync, 1), k) == Counted(Dispatched(prefer, q, k), r.sync, 1)
  {
    hide FindNext, Without, RemoveAt;
  }

  lemma AddedFacts(prefer: Preference, q: Cq, r: Rq)
    requires Sorted(q) && !Has(q.sort, r.id) && (q.next.Some? ==> Has(q.sort, q.next.value) || q.next.value == r.id)
    ensures AddedAs(q, r, Added(prefer, q, r))
  {
    hide Sum, FindNext, Place, Without;
    var a := Alias(q.sort, r.pos);
    AliasBound(q.sort, r.pos);
    var q2 := if a.Some? then Dispatched(prefer, q, a.value) else q;
    if a.Some? {
      ClearedFor(prefer, q, r);
      CountLater(prefer, q, r, a.value);
    }
    InsertSorted(q2, r);
    InsertFrame(Counted(q2, r.sync, 1), r);
    var t := Added(prefer, q, r);
    assert t.sort == InsertQ(q2, r).sort;
    assert Has(t.sort, r.id);
  }

  lemma SortedFrame(q: Cq, fifo: seq<Id>)
    requires Sorted(q)
    ensures Sorted(q.(fifo := fifo))
  {
  }

  /** A new request: it goes to the tail of the FIFO too. */
  lemma InsertedOk(prefer: Preference, q: Cq, r: Rq)
    requires QueueOk(q) && !Has(q.sort, r.id)
    ensures var t := Added(prefer, q, r); QueueOk(t.(fifo := t.fifo + [r.id]))
  {
    hide Added, AliasId, Sorted, Has;
    AddedFacts(prefer, q, r);
    FifoLeft(q.fifo, AliasId(q, r));
    var t := Added(prefer, q, r);
    assert r.id !in t.fifo;
    SortedFrame(t, t.fifo + [r.id]);
    SomeSort(t);
  }

  lemma SomeSort(q: Cq)
    requires q.next.Some? && Has(q.sort, q.next.value)
    ensures q.sort != []
  {
  }

  lemma FifoLeft(fifo: seq<Id>, a: Option<Id>)
    requires NoDup(fifo)
    ensures var t := if a.Some? then Without(fifo, a.value) else fifo;
            NoDup(t) && forall y :: y in t <==> y in fifo && Some(y) != a
  {
    if a.Some? {
      WithoutNoDup(fifo, a.value);
      forall y ensures y in Without(fifo, a.value) <==> y in fifo && y != a.value {
        WithoutIn(fifo, a.value, y);
      }
    }
  }

  /** The queue while the request at `k` is out of the sorted list for a moment. */
  function Lifted(q: Cq, k: nat): Cq
    requires k < |q.sort|
  {
    Counted(q, q.sort[k].sync, -1).(sort := RemoveAt(q.sort, k))
  }

  /** The FIFO keeps the request, so it matches again once the request is back. */
  lemma BackAgain(q: Cq, k: nat, r: Rq, t: Cq)
    requires QueueOk(q) && k < |q.sort| && r.id == q.sort[k].id && AddedAs(Lifted(q, k), r, t)
    requires forall x :: Has(RemoveAt(q.sort, k), x) <==> Has(q.sort, x) && x != r.id
    ensures QueueOk(t)
  {
    hide Sorted, Has, AliasId;
    var l := Lifted(q, k);
    var a := AliasId(l, r);
    AliasHas(l, r);
    FifoLeft(q.fifo, a);
    SomeSort(t);
    HasIt(q.sort, k);
  }

  lemma HasIt(sort: seq<Rq>, k: nat)
    requires k < |sort|
    ensures Has(sort, sort[k].id)
  {
  }

  lemma RepositionedOk(prefer: Preference, q: Cq, k: nat, p: nat)
    requires QueueOk(q) && k < |q.sort|
    ensures QueueOk(Added(prefer, Lifted(q, k), q.sort[k].(pos := p)))
  {
    hide Added, AddedAs, Sorted, Has;
    var r, l := q.sort[k].(pos := p), Lifted(q, k);
    RemoveSorted(q, k);
    AddedFacts(prefer, l, r);
    BackAgain(q, k, r, Added(prefer, l, r));
  }

  lemma AliasHas(q: Cq, r: Rq)
    ensures AliasId(q, r).Some? ==> Has(q.sort, AliasId(q, r).value)
  {
  }

  // ---- every reachable state -------------------------------------------------------------------------------

  function Pending(q: Cq): nat {
    |q.sort|
  }

  function InFlight(q: Cq): nat {
    if q.sync then q.dispatched else 0
  }

  /** Everything agrees: lists, tree, flags and counters. */
  ghost predicate Ok(s: State) {
    && TreeOk(s) && (forall i :: 0 <= i < |s.queues| ==> QueueOk(s.queues[i]))
    && s.rqQueued == Sum(s.queues, Pending) && s.syncFlight == Sum(s.queues, InFlight)
  }

  /** One queue changes; the counters move with it. */
  lemma OkFrom(s: State, t: State, i: nat, q: Cq)
    requires Ok(s) && i < |s.queues| && TreeOk(t) && t.queues == s.queues[i := q] && QueueOk(q)
    requires t.rqQueued == s.rqQueued - Pending(s.queues[i]) + Pending(q)
    requires t.syncFlight == s.syncFlight - InFlight(s.queues[i]) + InFlight(q)
    ensures Ok(t)
  {
    hide QueueOk, TreeOk, Sum;
    SumUpdate(s.queues, i, q, Pending);
    SumUpdate(s.queues, i, q, InFlight);
  }

  lemma RemoveOk(prefer: Preference, s: State, i: nat, k: nat)
    requires Ok(s) && i < |s.queues| && k < |s.queues[i].sort|
    ensures Ok(Remove(prefer, s, i, k))
  {
    hide QueueOk, TreeOk, Remove, Sum, FindNext;
    RemoveIs(prefer, s, i, k);
    RemovedOk(prefer, s.queues[i], k);
    OkFrom(s, Remove(prefer, s, i, k), i, Removed(prefer, s.queues[i], k));
  }

  lemma DispatchOk(prefer: Preference, s: State, i: nat, k: nat)
    requires Ok(s) && i < |s.queues| && k < |s.queues[i].sort|
    ensures var t := DispatchInsert(prefer, s, i, k);
            && Ok(t) && t.queues == s.queues[i := Dispatched(prefer, s.queues[i], k)]
            && |t.queues[i].sort| == |s.queues[i].sort| - 1
  {
    hide QueueOk, TreeOk, DispatchInsert, Sum, FindNext;
    DispatchIs(prefer, s, i, k);
    DispatchedOk(prefer, s.queues[i], k);
    OkFrom(s, DispatchInsert(prefer, s, i, k), i, Dispatched(prefer, s.queues[i], k));
  }

  /** No queued request anywhere has this identity. */
  ghost predicate Unused(s: State, i: nat, x: Id)
    requires i < |s.queues|
  {
    !Has(s.queues[i].sort, x)
  }

  lemma InsertOk(prefer: Preference, s: State, i: nat, r: Rq, at: Descent)
    requires Ok(s) && i < |s.queues| && Unused(s, i, r.id)
    ensures Ok(Insert(prefer, s, i, r, at))
  {
    hide QueueOk, TreeOk, AddRqRb, Added, Sum, Alias, Sorted, Has;
    var q := s.queues[i];
    AddIs(prefer, s, i, r, at);
    AddedBalance(prefer, q, r);
    InsertedOk(prefer, q, r);
    var t1, a := AddRqRb(prefer, s, i, r, at), Added(prefer, q, r);
    var u := a.(fifo := a.fifo + [r.id]);
    SetTree(t1, i, u);
    CountersFree(Set(t1, i, u), t1.rqQueued + 1, t1.syncFlight);
    OkFrom(s, Insert(prefer, s, i, r, at), i, u);
  }

  lemma AddedBalance(prefer: Preference, q: Cq, r: Rq)
    requires QueueOk(q) && !Has(q.sort, r.id)
    ensures var t, a := Added(prefer, q, r), Alias(q.sort, r.pos).Some?;
            |t.sort| == |q.sort| + 1 - Bit(a) && t.dispatched == q.dispatched + Bit(a) && t.sync == q.sync
  {
    hide Sorted, Added, Alias, Has;
    AddedFacts(prefer, q, r);
  }

  lemma RepositionBalance(prefer: Preference, q: Cq, k: nat, r: Rq)
    requires QueueOk(q) && k < |q.sort| && r.id == q.sort[k].id
    ensures var l := Lifted(q, k); var t, a := Added(prefer, l, r), Alias(l.sort, r.pos).Some?;
            |t.sort| == |q.sort| - Bit(a) && t.dispatched == q.dispatched + Bit(a) && t.sync == q.sync
  {
    hide Sorted, Added, Alias, Has;
    RemoveSorted(q, k);
    AddedFacts(prefer, Lifted(q, k), r);
  }

  lemma RepositionOk(prefer: Preference, s: State, i: nat, k: nat, p: nat, at: Descent)
    requires Ok(s) && i < |s.queues| && k < |s.queues[i].sort|
    ensures Ok(Reposition(prefer, s, i, k, p, at))
  {
    hide QueueOk, TreeOk, AddRqRb, Added, Sum, Alias, Sorted;
    var q := s.queues[i];
    var l, r := Lifted(q, k), q.sort[k].(pos := p);
    SetTree(s, i, l);
    AddIs(prefer, Set(s, i, l), i, r, at);
    RepositionBalance(prefer, q, k, r);
    RepositionedOk(prefer, q, k, p);
    OkFrom(s, Reposition(prefer, s, i, k, p, at), i, Added(prefer, l, r));
  }

  lemma CompleteOk(s: State, i: nat)
    requires Ok(s) && i < |s.queues| && s.queues[i].dispatched > 0
    ensures Ok(Complete(s, i))
  {
    hide Sum;
    var q := s.queues[i].(dispatched := s.queues[i].dispatched - 1);
    SetTree(s, i, q);
    CountersFree(Set(s, i, q), s.rqQueued, s.syncFlight - Bit(q.sync));
    OkFrom(s, Complete(s, i), i, q);
  }

  lemma ResortOk(s: State, i: nat, at: Descent)
    requires Ok(s) && i < |s.queues|
    ensures Ok(Resort(s, i, at))
  {
    hide Sum, QueueOk;
    if s.queues[i].onRr { ServiceAddOk(s, i, at); }
  }

  /** Filling the cache. */
  lemma LookOk(s: State)
    requires Ok(s)
    ensures Ok(s.(left := First(s)))
  {
    hide QueueOk, Sum, NoDup;
    FirstIsFirst(s);
    LeftFree(s, First(s));
  }

  datatype Step =
    | NewQueue(sync: bool)
    | InsertOne(i: nat, r: Rq, at: Descent)
    | FrontMerge(i: nat, k: nat, p: nat, at: Descent)
    | MergeAway(i: nat, k: nat)
    | DispatchOne(i: nat, k: nat)
    | CompleteOne(i: nat)
    | ResortOne(i: nat, at: Descent)
    | LookFirst

  const EMPTY := State([], [], None, 0, 0, 0)

  function Fresh(sync: bool): Cq {
    Cq(sync, false, [], [], None, 0, 0, 0)
  }

  /** Steps about queues or requests that are not there do nothing. */
  function Apply(prefer: Preference, s: State, step: Step): State {
    match step
    case NewQueue(sync) => s.(queues := s.queues + [Fresh(sync)])
    case InsertOne(i, r, at) =>
      if i < |s.queues| && Old(s.queues[i].sort, r.id).None? then Insert(prefer, s, i, r, at) else s
    case FrontMerge(i, k, p, at) =>
      if i < |s.queues| && k < |s.queues[i].sort| then Reposition(prefer, s, i, k, p, at) else s
    case MergeAway(i, k) => if i < |s.queues| && k < |s.queues[i].sort| then Remove(prefer, s, i, k) else s
    case DispatchOne(i, k) => if i < |s.queues| && k < |s.queues[i].sort| then DispatchInsert(prefer, s, i, k) else s
    case CompleteOne(i) => if i < |s.queues| && s.queues[i].dispatched > 0 then Complete(s, i) else s
    case ResortOne(i, at) => if i < |s.queues| then Resort(s, i, at) else s
    case LookFirst => s.(left := First(s))
  }

  function Run(s: State, steps: seq<(Preference, Step)>): State
    decreases |steps|
  {
    if steps == [] then s else Apply(steps[|steps| - 1].0, Run(s, steps[..|steps| - 1]), steps[|steps| - 1].1)
  }

  lemma {:induction false} OldNone(sort: seq<Rq>, x: Id)
    requires Old(sort, x).None?
    ensures forall i :: 0 <= i < |sort| ==> sort[i].id != x
  {
    if sort != [] {
      OldNone(sort[1..], x);
      forall i | 0 <= i < |sort| ensures sort[i].id != x {
        if i > 0 { assert sort[i] == sort[1..][i - 1]; }
      }
    }
  }

  lemma NewQueueOk(s: State, sync: bool)
    requires Ok(s)
    ensures Ok(s.(queues := s.queues + [Fresh(sync)]))
  {
    var t := s.(queues := s.queues + [Fresh(sync)]);
    SumAppend(s.queues, Fresh(sync), Pending);
    SumAppend(s.queues, Fresh(sync), InFlight);
    forall j ensures Member(t, j) <==> Member(s, j) {
    }
    FreshOk(sync);
    hide QueueOk, Sum;
  }

  lemma FreshOk(sync: bool)
    ensures QueueOk(Fresh(sync))
  {
    assert forall x :: !Has([], x);
  }

  lemma ApplyOk(prefer: Preference, s: State, step: Step)
    requires Ok(s)
    ensures Ok(Apply(prefer, s, step))
  {
    hide Ok, Insert, Reposition, Remove, DispatchInsert, Complete, Resort;
    match step
    case NewQueue(sync) => NewQueueOk(s, sync);
    case InsertOne(i, r, at) =>
      if i < |s.queues| && Old(s.queues[i].sort, r.id).None? {
        OldNone(s.queues[i].sort, r.id);
        InsertOk(prefer, s, i, r, at);
      }
    case FrontMerge(i, k, p, at) =>
      if i < |s.queues| && k < |s.queues[i].sort| { RepositionOk(prefer, s, i, k, p, at); }
    case MergeAway(i, k) => if i < |s.queues| && k < |s.queues[i].sort| { RemoveOk(prefer, s, i, k); }
    case DispatchOne(i, k) => if i < |s.queues| && k < |s.queues[i].sort| { DispatchOk(prefer, s, i, k); }
    case CompleteOne(i) => if i < |s.queues| && s.queues[i].dispatched > 0 { CompleteOk(s, i); }
    case ResortOne(i, at) => if i < |s.queues| { ResortOk(s, i, at); }
    case LookFirst => LookOk(s);
  }

  /**
   * In every reachable state a queue is on the rr list, in the tree, nonempty
   * and has a next request, all or none; the counters are what they count; and
   * the cached leftmost node is absent or the first.
   */
  lemma {:induction false} RunOk(steps: seq<(Preference, Step)>)
    ensures Ok(Run(EMPTY, steps))
    decreases |steps|
  {
    if steps != [] {
      RunOk(steps[..|steps| - 1]);
      ApplyOk(steps[|steps| - 1].0, Run(EMPTY, steps[..|steps| - 1]), steps[|steps| - 1].1);
    }
  }
}
