/**
 * What the CFQ operations move, and the order they keep: a queue's FIFO is in
 * order of arrival over every run, and the next request is a neighbour on the
 * disk.
 */
module CfqRuns {
  import opened Common
  import opened Cfq

  // ---- the next request ---------------------------------------------------------------------

  /** No queued request lies between two positions. */
  ghost predicate NoneBetween(sort: seq<Rq>, lo: nat, hi: nat) {
    forall m :: 0 <= m < |sort| ==> !(lo < sort[m].pos < hi)
  }

  /** `j` is next to `k` on the disk, or the lowest when `k` is the highest. */
  ghost predicate Near(sort: seq<Rq>, k: nat, j: nat)
    requires k < |sort| && j < |sort|
  {
    || (sort[k].pos < sort[j].pos && NoneBetween(sort, sort[k].pos, sort[j].pos))
    || (sort[j].pos < sort[k].pos && NoneBetween(sort, sort[j].pos, sort[k].pos))
    || forall m :: 0 <= m < |sort| ==> sort[j].pos <= sort[m].pos <= sort[k].pos
  }

  lemma NextDoor(sort: seq<Rq>, k: nat)
    requires Ascending(sort) && k + 1 < |sort|
    ensures Near(sort, k, k + 1) && Near(sort, k + 1, k)
  {
    forall m | 0 <= m < |sort| ensures !(sort[k].pos < sort[m].pos < sort[k + 1].pos) {
      if m < k { assert sort[m].pos < sort[k].pos; } else if m > k + 1 { assert sort[k + 1].pos < sort[m].pos; }
    }
  }

  /** `cfq_find_next_rq` answers with a neighbour: the preferred one where there are two. */
  lemma FindNextNear(prefer: Preference, sort: seq<Rq>, k: nat) returns (j: nat)
    requires Ascending(sort) && k < |sort| && |sort| > 1
    ensures j < |sort| && j != k && FindNext(prefer, sort, k) == Some(sort[j].id) && Near(sort, k, j)
    ensures 0 < k && k + 1 < |sort| ==>
              j == if prefer(sort[k + 1], sort[k - 1]) then k + 1 else k - 1
  {
    if k > 0 { NextDoor(sort, k - 1); }
    if k + 1 < |sort| { NextDoor(sort, k); }
    if k + 1 < |sort| && (k == 0 || prefer(sort[k + 1], sort[k - 1])) {
      j := k + 1;
    } else if k + 1 == |sort| && prefer(sort[0], sort[k - 1]) {
      j := 0;
    } else {
      j := k - 1;
    }
  }

  /** `next` is a neighbour of the request at `k`; nothing, if that is alone. */
  ghost predicate NextNear(sort: seq<Rq>, k: nat, next: Option<Id>)
    requires k < |sort|
  {
    if |sort| == 1 then next.None?
    else exists j :: 0 <= j < |sort| && j != k && Near(sort, k, j) && next == Some(sort[j].id)
  }

  lemma FindNextIsNear(prefer: Preference, sort: seq<Rq>, k: nat)
    requires Ascending(sort) && k < |sort|
    ensures NextNear(sort, k, FindNext(prefer, sort, k))
  {
    if |sort| > 1 {
      hide Near, FindNext;
      var j := FindNextNear(prefer, sort, k);
    }
  }

  // ---- what one operation does to a queue's requests ---------------------------------

  /** `t` is `q` without request `x`. */
  ghost predicate Lost(q: Cq, t: Cq, x: Id) {
    t.fifo == Without(q.fifo, x) && forall y :: Has(t.sort, y) <==> Has(q.sort, y) && y != x
  }

  /** Only queue `i` differs. */
  ghost predicate OnlyQueue(s: State, t: State, i: nat) {
    |t.queues| == |s.queues| && forall j :: 0 <= j < |s.queues| && j != i ==> t.queues[j] == s.queues[j]
  }

  lemma RemovedLoses(prefer: Preference, q: Cq, k: nat)
    requires QueueOk(q) && k < |q.sort|
    ensures var t, x := Removed(prefer, q, k), q.sort[k].id;
            && Lost(q, t, x) && t.dispatched == q.dispatched
            && if q.next == Some(x) then NextNear(q.sort, k, t.next) else t.next == q.next
  {
    hide Sum, FindNext, Near;
    RemoveSorted(q, k);
    FindNextIsNear(prefer, q.sort, k);
  }

  lemma DispatchedLoses(prefer: Preference, q: Cq, k: nat)
    requires QueueOk(q) && k < |q.sort|
    ensures var t := Dispatched(prefer, q, k);
            Lost(q, t, q.sort[k].id) && t.dispatched == q.dispatched + 1 && NextNear(q.sort, k, t.next)
  {
    hide Sum, FindNext, Near;
    RemoveSorted(q, k);
    FindNextIsNear(prefer, q.sort, k);
  }

  /** Merging a request away takes it, and only it, from its queue; if it was next, a neighbour is. */
  lemma RemoveTakes(prefer: Preference, s: State, i: nat, k: nat)
    requires Ok(s) && i < |s.queues| && k < |s.queues[i].sort|
    ensures var t := Remove(prefer, s, i, k);
            && OnlyQueue(s, t, i) && Lost(s.queues[i], t.queues[i], s.queues[i].sort[k].id)
            && t.queues[i].dispatched == s.queues[i].dispatched
            && if s.queues[i].next == Some(s.queues[i].sort[k].id) then NextNear(s.queues[i].sort, k, t.queues[i].next)
               else t.queues[i].next == s.queues[i].next
  {
    hide QueueOk, TreeOk, Remove, Removed, Sum, Lost, NextNear;
    RemoveIs(prefer, s, i, k);
    RemovedLoses(prefer, s.queues[i], k);
  }

  /** Dispatching takes it, counts one more request at the driver and makes a neighbour the next. */
  lemma DispatchTakes(prefer: Preference, s: State, i: nat, k: nat)
    requires Ok(s) && i < |s.queues| && k < |s.queues[i].sort|
    ensures var t := DispatchInsert(prefer, s, i, k);
            && OnlyQueue(s, t, i) && Lost(s.queues[i], t.queues[i], s.queues[i].sort[k].id)
            && t.queues[i].dispatched == s.queues[i].dispatched + 1
            && NextNear(s.queues[i].sort, k, t.queues[i].next)
  {
    hide QueueOk, TreeOk, DispatchInsert, Dispatched, Sum, Lost, NextNear;
    DispatchIs(prefer, s, i, k);
    DispatchedLoses(prefer, s.queues[i], k);
  }

  /** `a` is the request queued at sector `p`, if there is one. */
  ghost predicate InTheWay(sort: seq<Rq>, p: nat, a: Option<Id>) {
    && (a.None? ==> forall k :: 0 <= k < |sort| ==> sort[k].pos != p)
    && (a.Some? ==> exists k :: 0 <= k < |sort| && sort[k].pos == p && sort[k].id == a.value)
  }

  lemma AliasInTheWay(q: Cq, r: Rq)
    requires Ascending(q.sort)
    ensures InTheWay(q.sort, r.pos, AliasId(q, r))
  {
    PlaceSplits(q.sort, r.pos);
    var k := Place(q.sort, r.pos);
    if AliasId(q, r).None? {
      forall j | 0 <= j < |q.sort| ensures q.sort[j].pos != r.pos {
        if j >= k { assert q.sort[k].pos <= q.sort[j].pos; }
      }
    }
  }

  /** The queue gains `r` at the tail of its FIFO and loses the request in its way, which goes to the driver. */
  ghost predicate Gained(q: Cq, t: Cq, r: Rq, a: Option<Id>) {
    && InTheWay(q.sort, r.pos, a)
    && (forall x :: Has(t.sort, x) <==> x == r.id || (Has(q.sort, x) && Some(x) != a))
    && t.fifo == (if a.Some? then Without(q.fifo, a.value) else q.fifo) + [r.id]
    && t.dispatched == q.dispatched + Bit(a.Some?)
  }

  lemma OkParts(s: State, i: nat)
    requires Ok(s) && i < |s.queues|
    ensures TreeOk(s) && QueueOk(s.queues[i])
  {
  }

  /** Whoever was next and is preferred to the newcomer stays next; otherwise the newcomer is. */
  ghost predicate NextChosen(prefer: Preference, q: Cq, t: Cq, r: Rq) {
    t.next == if exists o :: o in q.sort && q.next == Some(o.id) && prefer(o, r) then q.next else Some(r.id)
  }

  lemma {:induction false} OldIs(sort: seq<Rq>, o: Rq)
    requires o in sort && Distinct(sort)
    ensures Old(sort, o.id) == Some(o)
  {
    if sort[0] != o {
      assert o in sort[1..];
      var k :| 0 <= k < |sort| && sort[k] == o;
      assert sort[0].id != sort[k].id;
      OldIs(sort[1..], o);
    }
  }

  lemma {:induction false} OldIn(sort: seq<Rq>, x: Id)
    ensures Old(sort, x).Some? ==> Old(sort, x).value in sort && Old(sort, x).value.id == x
  {
    if sort != [] && sort[0].id != x { OldIn(sort[1..], x); }
  }

  /** With nothing in the way the lists only gain `r`, and then the next request is chosen. */
  lemma AddedPlain(prefer: Preference, q: Cq, r: Rq)
    requires Alias(q.sort, r.pos).None?
    ensures var sort := InsertAt(q.sort, Place(q.sort, r.pos), r);
            Added(prefer, q, r).next == Chosen(prefer, q.(sort := sort), r)
  {
    hide Alias, Place, Old;
  }

  lemma ChosenIs(prefer: Preference, q: Cq, sort: seq<Rq>, r: Rq)
    requires Distinct(sort) && (forall o :: o in sort <==> o in q.sort || o == r)
    requires (forall o :: o in q.sort ==> o.id != r.id) && q.next != Some(r.id)
    ensures NextChosen(prefer, q, q.(next := Chosen(prefer, q.(sort := sort), r)), r)
  {
    hide Old, Distinct;
    if q.next.Some? {
      OldIn(sort, q.next.value);
      if o :| o in q.sort && q.next == Some(o.id) && prefer(o, r) { OldIs(sort, o); }
    }
  }

  lemma InsertedNext(prefer: Preference, q: Cq, r: Rq)
    requires QueueOk(q) && !Has(q.sort, r.id) && Alias(q.sort, r.pos).None?
    ensures NextChosen(prefer, q, Added(prefer, q, r), r)
  {
    hide Sum, Added, Alias, Place, Chosen, NextChosen;
    AddedPlain(prefer, q, r);
    var k := Place(q.sort, r.pos);
    DistinctWith(q.sort, k, r);
    var sort := InsertAt(q.sort, k, r);
    forall o ensures o in sort <==> o in q.sort || o == r { InsertIn(q.sort, k, r, o); }
    hide InsertAt;
    ChosenIs(prefer, q, sort, r);
    SameChoice(prefer, q, q.(next := Chosen(prefer, q.(sort := sort), r)), Added(prefer, q, r), r);
  }

  lemma SameChoice(prefer: Preference, q: Cq, t: Cq, u: Cq, r: Rq)
    requires NextChosen(prefer, q, t, r) && u.next == t.next
    ensures NextChosen(prefer, q, u, r)
  {
  }

  lemma DistinctWith(sort: seq<Rq>, k: nat, r: Rq)
    requires Distinct(sort) && !Has(sort, r.id) && k <= |sort|
    ensures Distinct(InsertAt(sort, k, r))
  {
    var t := InsertAt(sort, k, r);
    forall i, j | 0 <= i < j < |t| ensures t[i].id != t[j].id {
      assert t[i] == if i < k then sort[i] else if i == k then r else sort[i - 1];
      assert t[j] == if j < k then sort[j] else if j == k then r else sort[j - 1];
    }
  }

  lemma InsertIs(prefer: Preference, s: State, i: nat, r: Rq, at: Descent)
    requires TreeOk(s) && i < |s.queues|
    ensures var u := Added(prefer, s.queues[i], r);
            Insert(prefer, s, i, r, at).queues == s.queues[i := u.(fifo := u.fifo + [r.id])]
  {
    hide TreeOk, AddRqRb, Added, Alias;
    AddIs(prefer, s, i, r, at);
  }

  lemma InsertedGains(prefer: Preference, q: Cq, r: Rq)
    requires QueueOk(q) && !Has(q.sort, r.id)
    ensures var u := Added(prefer, q, r); Gained(q, u.(fifo := u.fifo + [r.id]), r, AliasId(q, r))
  {
    hide QueueOk, Added, Sorted, Has, AliasId, InTheWay;
    InOrderOf(q);
    QueueSorted(q);
    AddedFacts(prefer, q, r);
    AliasInTheWay(q, r);
  }

  lemma InsertGives(prefer: Preference, s: State, i: nat, r: Rq, at: Descent)
    requires Ok(s) && i < |s.queues| && Unused(s, i, r.id)
    ensures var t := Insert(prefer, s, i, r, at);
            OnlyQueue(s, t, i) && Gained(s.queues[i], t.queues[i], r, AliasId(s.queues[i], r))
  {
    hide Ok, QueueOk, TreeOk, Insert, Added, Has, AliasId, Gained;
    OkParts(s, i);
    InsertIs(prefer, s, i, r, at);
    InsertedGains(prefer, s.queues[i], r);
  }

  lemma InOrderOf(q: Cq)
    requires QueueOk(q)
    ensures Ascending(q.sort)
  {
  }

  lemma QueueSorted(q: Cq)
    requires QueueOk(q)
    ensures Sorted(q) && (q.next.Some? ==> Has(q.sort, q.next.value))
  {
  }

  /** A front merge keeps the request's place in the FIFO; only what was in its way leaves. */
  ghost predicate Kept(q: Cq, t: Cq, a: Option<Id>) {
    && (forall x :: Has(t.sort, x) <==> Has(q.sort, x) && Some(x) != a)
    && t.fifo == (if a.Some? then Without(q.fifo, a.value) else q.fifo)
    && t.dispatched == q.dispatched + Bit(a.Some?)
  }

  lemma RepositionIs(prefer: Preference, s: State, i: nat, k: nat, p: nat, at: Descent)
    requires TreeOk(s) && i < |s.queues| && k < |s.queues[i].sort|
    ensures var q := s.queues[i];
            Reposition(prefer, s, i, k, p, at).queues ==
            s.queues[i := Added(prefer, Lifted(q, k), q.sort[k].(pos := p))]
  {
    hide TreeOk, AddRqRb, Added, Alias;
    var l := Lifted(s.queues[i], k);
    SetTree(s, i, l);
    AddIs(prefer, Set(s, i, l), i, s.queues[i].sort[k].(pos := p), at);
  }

  lemma RepositionedKeeps(prefer: Preference, q: Cq, k: nat, p: nat)
    requires QueueOk(q) && k < |q.sort|
    ensures var l, r := Lifted(q, k), q.sort[k].(pos := p);
            AliasId(l, r) != Some(r.id) && Kept(q, Added(prefer, l, r), AliasId(l, r))
  {
    var l, r := Lifted(q, k), q.sort[k].(pos := p);
    hide QueueOk, Added, Sorted, Has, AliasId, RemoveAt;
    QueueSorted(q);
    RemoveSorted(q, k);
    HasIt(q.sort, k);
    AddedFacts(prefer, l, r);
    AliasHas(l, r);
    LiftedKeeps(q, k, r, Added(prefer, l, r));
  }

  lemma LiftedKeeps(q: Cq, k: nat, r: Rq, t: Cq)
    requires k < |q.sort| && r.id == q.sort[k].id && Has(q.sort, r.id) && AddedAs(Lifted(q, k), r, t)
    requires forall x :: Has(RemoveAt(q.sort, k), x) <==> Has(q.sort, x) && x != r.id
    requires var a := AliasId(Lifted(q, k), r); a.Some? ==> Has(RemoveAt(q.sort, k), a.value)
    ensures AliasId(Lifted(q, k), r) != Some(r.id) && Kept(q, t, AliasId(Lifted(q, k), r))
  {
    hide Sorted, Has, AliasId, RemoveAt;
  }

  lemma RepositionKeeps(prefer: Preference, s: State, i: nat, k: nat, p: nat, at: Descent)
    requires Ok(s) && i < |s.queues| && k < |s.queues[i].sort|
    ensures var q, t := s.queues[i], Reposition(prefer, s, i, k, p, at);
            var a := AliasId(Lifted(q, k), q.sort[k].(pos := p));
            OnlyQueue(s, t, i) && a != Some(q.sort[k].id) && Kept(q, t.queues[i], a)
  {
    hide Ok, QueueOk, TreeOk, Reposition, Added, Has, AliasId, Kept;
    OkParts(s, i);
    RepositionIs(prefer, s, i, k, p, at);
    RepositionedKeeps(prefer, s.queues[i], k, p);
  }

  // ---- the FIFO is in order of arrival ---------------------------------------------------

  /** The step inserts a request into queue `i`. */
  predicate Arrives(s: State, step: Step, i: nat) {
    step.InsertOne? && step.i == i && i < |s.queues| && Old(s.queues[i].sort, step.r.id).None?
  }

  /** The requests a run inserted into queue `i`, in order. */
  function Arrived(steps: seq<(Preference, Step)>, i: nat): seq<Id>
    decreases |steps|
  {
    if steps == [] then []
    else
      var pre, step := steps[..|steps| - 1], steps[|steps| - 1].1;
      if Arrives(Run(EMPTY, pre), step, i) then Arrived(pre, i) + [step.r.id] else Arrived(pre, i)
  }

  /** When `x` last arrived. */
  function Since(arrived: seq<Id>, x: Id): int {
    if arrived == [] then -1
    else if arrived[|arrived| - 1] == x then |arrived| - 1 else Since(arrived[..|arrived| - 1], x)
  }

  ghost predicate InOrder(arrived: seq<Id>, fifo: seq<Id>) {
    && (forall k :: 0 <= k < |fifo| ==> 0 <= Since(arrived, fifo[k]) < |arrived|)
    && forall k, l :: 0 <= k < l < |fifo| ==> Since(arrived, fifo[k]) < Since(arrived, fifo[l])
  }

  lemma SinceMore(arrived: seq<Id>, x: Id, y: Id)
    ensures Since(arrived + [x], y) == if x == y then |arrived| else Since(arrived, y)
  {
    assert (arrived + [x])[..|arrived|] == arrived;
  }

  lemma OrderTail(arrived: seq<Id>, fifo: seq<Id>, x: Id)
    requires InOrder(arrived, fifo) && x !in fifo
    ensures InOrder(arrived + [x], fifo + [x])
  {
    hide Since;
    var a, f := arrived + [x], fifo + [x];
    forall k | 0 <= k < |f| ensures Since(a, f[k]) == if k < |fifo| then Since(arrived, fifo[k]) else |arrived| {
      SinceMore(arrived, x, f[k]);
    }
  }

  lemma OrderWithout(arrived: seq<Id>, fifo: seq<Id>, x: Id)
    requires InOrder(arrived, fifo)
    ensures InOrder(arrived, Without(fifo, x))
  {
    hide Since;
    var f := Without(fifo, x);
    forall k | 0 <= k < |f| ensures 0 <= Since(arrived, f[k]) < |arrived| {
      var m := WithoutOne(fifo, x, k);
    }
    forall k, l | 0 <= k < l < |f| ensures Since(arrived, f[k]) < Since(arrived, f[l]) {
      var m, n := WithoutOrder(fifo, x, k, l);
    }
  }

  /** Nothing arrives: the FIFO stays or loses a request. */
  ghost predicate Shrinks(f: seq<Id>, g: seq<Id>) {
    g == f || exists x :: g == Without(f, x)
  }

  lemma OrderShrinks(arrived: seq<Id>, f: seq<Id>, g: seq<Id>)
    requires InOrder(arrived, f) && Shrinks(f, g)
    ensures InOrder(arrived, g)
  {
    if g != f {
      var x :| g == Without(f, x);
      OrderWithout(arrived, f, x);
    }
  }

  lemma OrderInsert(prefer: Preference, s: State, i: nat, r: Rq, at: Descent, arrived: seq<Id>)
    requires Ok(s) && i < |s.queues| && Unused(s, i, r.id) && InOrder(arrived, s.queues[i].fifo)
    ensures OnlyQueue(s, Insert(prefer, s, i, r, at), i)
    ensures InOrder(arrived + [r.id], Insert(prefer, s, i, r, at).queues[i].fifo)
  {
    var q := s.queues[i];
    NotQueued(q, r.id);
    hide Ok, Insert, InOrder, Unused, Has, InTheWay;
    InsertGives(prefer, s, i, r, at);
    var a := AliasId(q, r);
    hide AliasId;
    if a.Some? {
      OrderWithout(arrived, q.fifo, a.value);
      WithoutIn(q.fifo, a.value, r.id);
      OrderTail(arrived, Without(q.fifo, a.value), r.id);
    } else {
      OrderTail(arrived, q.fifo, r.id);
    }
  }

  lemma NotQueued(q: Cq, x: Id)
    requires QueueOk(q) && !Has(q.sort, x)
    ensures x !in q.fifo
  {
  }

  lemma ServiceKeepsQueues(s: State, i: nat, at: Descent)
    requires i < |s.queues|
    ensures Resort(s, i, at).queues == s.queues
  {
    SameQueues(s, i, at);
  }

  /** Every step but an insertion into queue `i` only shrinks its FIFO. */
  lemma OthersShrink(prefer: Preference, s: State, step: Step, i: nat)
    requires Ok(s) && i < |s.queues|
    requires step.InsertOne? ==> step.i != i || Old(s.queues[i].sort, step.r.id).Some?
    ensures i < |Apply(prefer, s, step).queues| && Shrinks(s.queues[i].fifo, Apply(prefer, s, step).queues[i].fifo)
  {
    hide Ok, Insert, Reposition, Remove, DispatchInsert, Resort, Has, Old, AliasId;
    match step
    case NewQueue(sync) =>
    case InsertOne(j, r, at) =>
      if j < |s.queues| && Old(s.queues[j].sort, r.id).None? {
        OldNone(s.queues[j].sort, r.id);
        InsertElsewhere(prefer, s, j, r, at);
      }
    case FrontMerge(j, k, p, at) =>
      if j < |s.queues| && k < |s.queues[j].sort| {
        RepositionKeeps(prefer, s, j, k, p, at);
        KeptShrinks(s.queues[j], Reposition(prefer, s, j, k, p, at).queues[j],
                    AliasId(Lifted(s.queues[j], k), s.queues[j].sort[k].(pos := p)));
      }
    case MergeAway(j, k) => if j < |s.queues| && k < |s.queues[j].sort| { RemoveTakes(prefer, s, j, k); }
    case DispatchOne(j, k) => if j < |s.queues| && k < |s.queues[j].sort| { DispatchTakes(prefer, s, j, k); }
    case CompleteOne(j) =>
    case ResortOne(j, at) => if j < |s.queues| { ServiceKeepsQueues(s, j, at); }
    case LookFirst =>
  }

  lemma KeptShrinks(q: Cq, t: Cq, a: Option<Id>)
    requires Kept(q, t, a)
    ensures Shrinks(q.fifo, t.fifo)
  {
    if a.Some? { assert t.fifo == Without(q.fifo, a.value); }
  }

  lemma InsertElsewhere(prefer: Preference, s: State, j: nat, r: Rq, at: Descent)
    requires Ok(s) && j < |s.queues| && forall k :: 0 <= k < |s.queues[j].sort| ==> s.queues[j].sort[k].id != r.id
    ensures OnlyQueue(s, Insert(prefer, s, j, r, at), j)
  {
    InsertGives(prefer, s, j, r, at);
  }

  /** In every reachable state each queue's FIFO is in the order its requests last arrived. */
  lemma {:induction false} RunFifo(steps: seq<(Preference, Step)>, i: nat)
    ensures var s := Run(EMPTY, steps); i < |s.queues| ==> InOrder(Arrived(steps, i), s.queues[i].fifo)
    ensures i >= |Run(EMPTY, steps).queues| ==> Arrived(steps, i) == []
    decreases |steps|
  {
    if steps != [] {
      hide Ok, Apply, InOrder;
      var n := |steps| - 1;
      RunFifo(steps[..n], i);
      RunOk(steps[..n]);
      FifoStep(steps[n].0, Run(EMPTY, steps[..n]), steps[n].1, i, Arrived(steps[..n], i));
    }
  }

  lemma FifoStep(prefer: Preference, s: State, step: Step, i: nat, arrived: seq<Id>)
    requires Ok(s) && (i < |s.queues| ==> InOrder(arrived, s.queues[i].fifo))
    requires i >= |s.queues| ==> arrived == []
    ensures var t := Apply(prefer, s, step);
            var now := if Arrives(s, step, i) then arrived + [step.r.id] else arrived;
            (i < |t.queues| ==> InOrder(now, t.queues[i].fifo)) && (i >= |t.queues| ==> now == [])
  {
    if i >= |s.queues| {
      hide Ok, Insert, Reposition, Remove, DispatchInsert, Complete, Resort;
      NewFifo(prefer, s, step, i);
    } else if Arrives(s, step, i) {
      hide Ok, Insert, InOrder;
      OldNone(s.queues[i].sort, step.r.id);
      OrderInsert(prefer, s, i, step.r, step.at, arrived);
    } else {
      hide Ok, Apply, InOrder, Shrinks;
      OthersShrink(prefer, s, step, i);
      OrderShrinks(arrived, s.queues[i].fifo, Apply(prefer, s, step).queues[i].fifo);
    }
  }

  lemma NewFifo(prefer: Preference, s: State, step: Step, i: nat)
    requires Ok(s) && i >= |s.queues|
    ensures var t := Apply(prefer, s, step); i < |t.queues| ==> t.queues[i].fifo == []
  {
    if !step.NewQueue? { SameNumber(prefer, s, step); }
  }

  lemma SameNumber(prefer: Preference, s: State, step: Step)
    requires Ok(s) && !step.NewQueue?
    ensures |Apply(prefer, s, step).queues| == |s.queues|
  {
    hide Ok, Insert, Reposition, Remove, DispatchInsert, Resort, Has, Old, AliasId;
    match step
    case InsertOne(j, r, at) =>
      if j < |s.queues| && Old(s.queues[j].sort, r.id).None? {
        OldNone(s.queues[j].sort, r.id);
        InsertElsewhere(prefer, s, j, r, at);
      }
    case FrontMerge(j, k, p, at) =>
      if j < |s.queues| && k < |s.queues[j].sort| { RepositionKeeps(prefer, s, j, k, p, at); }
    case MergeAway(j, k) => if j < |s.queues| && k < |s.queues[j].sort| { RemoveTakes(prefer, s, j, k); }
    case DispatchOne(j, k) => if j < |s.queues| && k < |s.queues[j].sort| { DispatchTakes(prefer, s, j, k); }
    case CompleteOne(j) =>
    case ResortOne(j, at) => if j < |s.queues| { ServiceKeepsQueues(s, j, at); }
    case LookFirst =>
  }
}
