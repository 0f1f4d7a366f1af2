/** CFQ's dispatching code on its `cfq_data`: single dispatches, the alias loop, and forced dispatch. */
module CfqCode {
  import opened Common
  import opened Cfq

  class CfqData {
    var queues: seq<Cq>
    var tree: seq<int>
    var left: Option<int>
    var busy: int
    var rqQueued: int
    var syncFlight: int

    function View(): State
      reads this
    {
      State(queues, tree, left, busy, rqQueued, syncFlight)
    }

    /** `cfq_rb_first`: fills the cache when it is empty. */
    method RbFirst() returns (first: Option<int>)
      requires TreeOk(View())
      modifies `left
      ensures TreeOk(View()) && View() == old(View()).(left := left)
      ensures first == if tree == [] then None else Some(tree[0])
    {
      if left.None? && tree != [] {
        left := Some(tree[0]);
      }
      LeftFree(old(View()), left);
      return left;
    }

    method SetQueue(i: nat, q: Cq)
      requires i < |queues|
      modifies `queues
      ensures View() == Set(old(View()), i, q)
    {
      queues := queues[i := q];
    }

    /** `cfq_rb_erase` */
    method RbErase(i: nat)
      modifies `tree, `left
      ensures View() == Erase(old(View()), i)
    {
      if left == Some(i) {
        left := None;
      }
      tree := Without(tree, i);
    }

    /** `cfq_del_cfqq_rr`; its BUG_ONs are the assertions. */
    method DelCfqqRr(i: nat)
      requires TreeOk(View()) && i < |queues| && queues[i].onRr
      modifies this
      ensures View() == DelRr(old(View()), i)
    {
      hide Without;
      assert queues[i].onRr;
      assert busy > 0 by { SomeBusy(View(), i); }
      SetQueue(i, queues[i].(onRr := false));
      if i in tree {
        RbErase(i);
      }
      busy := busy - 1;
    }

    /** `cfq_service_tree_add`: the descent, and the node linked in where it ends. */
    method ServiceTreeAdd(i: nat, at: Descent)
      modifies `tree, `left
      ensures View() == ServiceAdd(old(View()), i, at)
    {
      hide Without, Erase;
      if i in tree {
        if at.sameKey {
          return;
        }
        RbErase(i);
      }
      var before, after, onLeft := FindPlace(Shape(at, tree), i, at.before);
      if onLeft {
        left := Some(i);
      }
      tree := before + [i] + after;
    }

    /** `cfq_add_cfqq_rr`; its BUG_ON is the assertion. */
    method AddCfqqRr(i: nat, at: Descent)
      requires i < |queues| && !queues[i].onRr
      modifies this
      ensures View() == AddRr(old(View()), i, at) && |queues| == |old(queues)|
    {
      hide ServiceAdd;
      assert !queues[i].onRr;
      SetQueue(i, queues[i].(onRr := true));
      busy := busy + 1;
      ServiceTreeAdd(i, at);
    }

    /** `cfq_del_rq_rb`; its BUG_ON on `queued[]` is the assertion. */
    method DelRqRb(i: nat, k: nat)
      requires TreeOk(View()) && i < |queues| && k < |queues[i].sort| && Backed(queues[i])
      modifies this
      ensures var t := Set(old(View()), i, Lifted(old(queues[i]), k));
              View() == if t.queues[i].onRr && t.queues[i].sort == [] then DelRr(t, i) else t
    {
      hide DelRr, TreeOk, Backed;
      var q, r := queues[i], queues[i].sort[k];
      SetTwice(View(), i, Counted(q, r.sync, -1), Lifted(q, k));
      assert (if r.sync then q.syncs else q.asyncs) > 0 by { BackedOne(q, k); }
      SetTree(View(), i, Lifted(q, k));
      SetQueue(i, Counted(q, r.sync, -1));
      SetQueue(i, queues[i].(sort := RemoveAt(q.sort, k)));
      if queues[i].onRr && queues[i].sort == [] {
        DelCfqqRr(i);
      }
    }

    /** `cfq_remove_request` */
    method RemoveRequest(prefer: Preference, i: nat, k: nat)
      requires TreeOk(View()) && i < |queues| && k < |queues[i].sort| && Backed(queues[i])
      modifies this
      ensures View() == Remove(prefer, old(View()), i, k)
    {
      hide TreeOk, DelRr, Without, FindNext, RemoveAt, Backed;
      var r := queues[i].sort[k];
      ghost var s := View();
      ghost var q := s.queues[i].(fifo := Without(s.queues[i].fifo, r.id),
                                  next := RemoveQ(prefer, s.queues[i], k).next);
      SetTwice(s, i, s.queues[i].(next := q.next), q);
      SetTwice(s, i, q, Lifted(q, k));
      assert Lifted(q, k) == RemoveQ(prefer, s.queues[i], k);
      SetTree(s, i, q);
      BackedFrame(s.queues[i], q);
      if queues[i].next == Some(r.id) {
        SetQueue(i, queues[i].(next := FindNext(prefer, queues[i].sort, k)));
      }
      SetQueue(i, queues[i].(fifo := Without(queues[i].fifo, r.id)));
      assert View() == Set(s, i, q);
      DelRqRb(i, k);
      rqQueued := rqQueued - 1;
      DelFrame(Set(s, i, RemoveQ(prefer, s.queues[i], k)), i, s.rqQueued - 1);
    }

    /** `cfq_dispatch_insert` */
    method Dispatch(prefer: Preference, i: nat, k: nat)
      requires TreeOk(View()) && i < |queues| && k < |queues[i].sort| && Backed(queues[i])
      modifies this
      ensures View() == DispatchInsert(prefer, old(View()), i, k)
    {
      hide TreeOk, Remove, FindNext, Backed;
      var q := queues[i].(next := FindNext(prefer, queues[i].sort, k));
      RemoveKeeps(prefer, Set(View(), i, q), i, k);
      SetTree(View(), i, q);
      BackedFrame(queues[i], q);
      SetQueue(i, q);
      RemoveRequest(prefer, i, k);
      SetQueue(i, queues[i].(dispatched := queues[i].dispatched + 1));
      if queues[i].sync {
        syncFlight := syncFlight + 1;
      }
    }

    /** `elv_rb_add`: the place of a request in the way, or none and the new request in order. */
    method RbAdd(i: nat, r: Rq) returns (alias: Option<nat>)
      requires i < |queues|
      modifies `queues
      ensures alias == Alias(old(queues[i]).sort, r.pos)
      ensures View() == if alias.Some? then old(View()) else Set(old(View()), i, InsertQ(old(queues[i]), r))
    {
      var sort := queues[i].sort;
      var k := 0;
      while k < |sort| && sort[k].pos < r.pos
        invariant k <= |sort| && Place(sort, r.pos) == k + Place(sort[k..], r.pos)
      {
        k := k + 1;
      }
      if k < |sort| && sort[k].pos == r.pos {
        return Some(k);
      }
      SetQueue(i, queues[i].(sort := InsertAt(sort, k, r)));
      return None;
    }

    /** `cfq_add_rq_rb`; its BUG_ON is the assertion. */
    method AddRq(prefer: Preference, i: nat, r: Rq, at: Descent)
      requires TreeOk(View()) && i < |queues| && Ascending(queues[i].sort) && Backed(queues[i])
      modifies this
      ensures View() == AddRqRb(prefer, old(View()), i, r, at)
    {
      hide TreeOk, Alias, DispatchInsert, InsertQ, AddRr, Chosen, Ascending, Backed;
      BackedMore(queues[i], r.sync);
      SetTree(View(), i, Counted(queues[i], r.sync, 1));
      SetQueue(i, Counted(queues[i], r.sync, 1));
      ghost var s1 := View();
      AliasBound(s1.queues[i].sort, r.pos);
      var alias := RbAdd(i, r);
      if alias.Some? { SecondTry(prefer, s1, i, r); }
      while alias.Some?
        invariant i < |queues|
        invariant alias.Some? ==> View() == s1 && alias == Alias(s1.queues[i].sort, r.pos)
        invariant alias.None? ==>
          var a := Alias(s1.queues[i].sort, r.pos);
          var s2 := if a.Some? then DispatchInsert(prefer, s1, i, a.value) else s1;
          i < |s2.queues| && View() == Set(s2, i, InsertQ(s2.queues[i], r))
        decreases alias.Some?
      {
        Dispatch(prefer, i, alias.value);
        alias := RbAdd(i, r);
      }
      if !queues[i].onRr {
        AddCfqqRr(i, at);
      }
      SomeChosen(prefer, queues[i], r);
      SetQueue(i, queues[i].(next := Chosen(prefer, queues[i], r)));
      assert queues[i].next.Some?;
    }

    /** `__cfq_forced_dispatch_cfqq`; its BUG_ON is the assertion. */
    method ForcedDispatchQueue(prefer: Preference, i: nat) returns (dispatched: nat)
      requires Ok(View()) && i < |queues|
      modifies this
      ensures Ok(View()) && |queues| == |old(queues)| && queues[i].sort == []
      ensures dispatched == |old(queues[i]).sort| && rqQueued == old(rqQueued) - dispatched
    {
      hide Ok, TreeOk, DispatchInsert, Dispatched, QueueOk, Backed;
      dispatched := 0;
      OkQueue(View(), i);
      while queues[i].next.Some?
        invariant Ok(View()) && i < |queues| == |old(queues)| && QueueOk(queues[i])
        invariant dispatched + |queues[i].sort| == |old(queues[i]).sort| && rqQueued == old(rqQueued) - dispatched
        decreases |queues[i].sort|
      {
        NextQueued(queues[i]);
        OkTree(View());
        OkBacked(queues[i]);
        var k := IndexOf(queues[i].sort, queues[i].next.value);
        DispatchOk(prefer, View(), i, k);
        DispatchCounts(prefer, View(), i, k);
        Dispatch(prefer, i, k);
        OkQueue(View(), i);
        dispatched := dispatched + 1;
      }
      NoneLeft(queues[i]);
      assert queues[i].fifo == [];
    }

    /** `cfq_forced_dispatch`: it ends, and everything is dispatched; its BUG_ON is the assertion. */
    method ForcedDispatch(prefer: Preference) returns (dispatched: nat)
      requires Ok(View())
      modifies this
      ensures Ok(View()) && tree == [] && forall i :: 0 <= i < |queues| ==> queues[i].sort == [] && queues[i].fifo == []
      ensures dispatched == old(rqQueued) && rqQueued == 0
    {
      hide Ok, QueueOk;
      dispatched := 0;
      PendingNat(View());
      OkTree(View());
      var first := RbFirst();
      CacheOk(old(View()), left);
      while first.Some?
        invariant Ok(View()) && TreeOk(View()) && rqQueued >= 0 && dispatched + rqQueued == old(rqQueued)
        invariant first == if tree == [] then None else Some(tree[0])
        decreases rqQueued
      {
        FirstBusy(View());
        var n := ForcedDispatchQueue(prefer, first.value);
        dispatched := dispatched + n;
        PendingNat(View());
        OkTree(View());
        ghost var s := View();
        first := RbFirst();
        CacheOk(s, left);
      }
      AllEmpty(View());
      assert busy == 0;
    }
  }

  /** The loop of `cfq_service_tree_add`: what comes before the new node and what behind, and its `left` flag. */
  method FindPlace(t: Tree, i: int, isBefore: int -> bool) returns (before: seq<int>, after: seq<int>, onLeft: bool)
    ensures InOrder(Descend(t, i, isBefore)) == before + [i] + after
    ensures onLeft == StaysLeft(t, isBefore)
  {
    var p := t;
    onLeft, before, after := true, [], [];
    while p.Node?
      invariant InOrder(Descend(t, i, isBefore)) == before + InOrder(Descend(p, i, isBefore)) + after
      invariant StaysLeft(t, isBefore) <==> onLeft && StaysLeft(p, isBefore)
      decreases p
    {
      DescendStep(p, i, isBefore, before, after);
      if isBefore(p.q) {
        after := [p.q] + InOrder(p.r) + after;
        p := p.l;
      } else {
        before := before + InOrder(p.l) + [p.q];
        onLeft := false;
        p := p.r;
      }
    }
  }

  lemma DescendStep(p: Tree, i: int, isBefore: int -> bool, before: seq<int>, after: seq<int>)
    requires p.Node?
    ensures var all := before + InOrder(Descend(p, i, isBefore)) + after;
            if isBefore(p.q) then all == before + InOrder(Descend(p.l, i, isBefore)) + ([p.q] + InOrder(p.r) + after)
            else all == before + InOrder(p.l) + [p.q] + InOrder(Descend(p.r, i, isBefore)) + after
  {
  }

  /** `queued[]` covers at least what is on the sorted list. */
  ghost predicate Backed(q: Cq) {
    q.syncs >= Sum(q.sort, SyncOne) && q.asyncs >= Sum(q.sort, AsyncOne)
  }

  lemma BackedOne(q: Cq, k: nat)
    requires Backed(q) && k < |q.sort|
    ensures (if q.sort[k].sync then q.syncs else q.asyncs) > 0
  {
    hide Sum;
    SumUpdate(q.sort, k, q.sort[k], SyncOne);
    SumUpdate(q.sort, k, q.sort[k], AsyncOne);
  }

  lemma BackedFrame(q: Cq, t: Cq)
    requires Backed(q) && t == q.(next := t.next, fifo := t.fifo)
    ensures Backed(t)
  {
  }

  lemma BackedMore(q: Cq, sync: bool)
    requires Backed(q)
    ensures Backed(Counted(q, sync, 1))
  {
  }

  lemma OkBacked(q: Cq)
    requires QueueOk(q)
    ensures Backed(q)
  {
  }

  lemma SetTwice(s: State, i: nat, q: Cq, t: Cq)
    requires i < |s.queues|
    ensures Set(Set(s, i, q), i, t) == Set(s, i, t)
  {
    assert s.queues[i := q][i := t] == s.queues[i := t];
  }

  lemma SomeChosen(prefer: Preference, q: Cq, r: Rq)
    ensures Chosen(prefer, q, r).Some?
  {
  }

  lemma SomeBusy(s: State, i: nat)
    requires TreeOk(s) && i < |s.queues| && s.queues[i].onRr
    ensures s.busy > 0
  {
    assert Member(s, i);
  }

  /** The tree and the counters do not meet. */
  lemma DelFrame(s: State, i: nat, n: int)
    requires i < |s.queues|
    ensures DelRr(s.(rqQueued := n), i) == DelRr(s, i).(rqQueued := n) && DelRr(s, i).rqQueued == s.rqQueued
  {
  }

  function IndexOf(sort: seq<Rq>, x: Id): (k: nat)
    requires Has(sort, x)
    ensures k < |sort| && sort[k].id == x
  {
    if sort[0].id == x then 0
    else
      assert Has(sort[1..], x) by {
        var i :| 0 <= i < |sort| && sort[i].id == x;
        assert sort[1..][i - 1].id == x;
      }
      1 + IndexOf(sort[1..], x)
  }

  lemma OkQueue(s: State, i: nat)
    requires Ok(s) && i < |s.queues|
    ensures QueueOk(s.queues[i])
  {
  }

  lemma OkTree(s: State)
    requires Ok(s)
    ensures TreeOk(s)
  {
  }

  lemma CacheOk(s: State, left: Option<int>)
    requires Ok(s) && TreeOk(s.(left := left))
    ensures Ok(s.(left := left))
  {
  }

  lemma NextQueued(q: Cq)
    requires QueueOk(q) && q.next.Some?
    ensures Has(q.sort, q.next.value)
  {
  }

  lemma NoneLeft(q: Cq)
    requires QueueOk(q) && q.next.None?
    ensures q.sort == [] && q.fifo == []
  {
    if |q.fifo| > 0 {
      var x := FirstOf(q.fifo);
      assert false;
    }
  }

  lemma FirstOf(s: seq<Id>) returns (x: Id)
    requires |s| > 0
    ensures x in s
  {
    x := s[0];
  }

  lemma DispatchCounts(prefer: Preference, s: State, i: nat, k: nat)
    requires Ok(s) && i < |s.queues| && k < |s.queues[i].sort|
    ensures DispatchInsert(prefer, s, i, k).rqQueued == s.rqQueued - 1
  {
    DispatchIs(prefer, s, i, k);
  }

  lemma PendingNat(s: State)
    requires Ok(s)
    ensures s.rqQueued >= 0
  {
  }

  /** The first queue of the tree is a real one and has something to dispatch. */
  lemma FirstBusy(s: State)
    requires Ok(s) && s.tree != []
    ensures 0 <= s.tree[0] < |s.queues| && s.queues[s.tree[0]].sort != []
  {
    assert s.tree[0] in s.tree;
    assert Member(s, s.tree[0]);
  }

  lemma AllEmpty(s: State)
    requires Ok(s) && s.tree == []
    ensures s.busy == 0 && s.rqQueued == 0
    ensures forall i :: 0 <= i < |s.queues| ==> s.queues[i].sort == [] && s.queues[i].fifo == []
  {
    forall i | 0 <= i < |s.queues| ensures s.queues[i].sort == [] && s.queues[i].fifo == [] {
      assert !Member(s, i);
      NoneLeft(s.queues[i]);
    }
    NothingPending(s.queues);
  }

  lemma {:induction false} NothingPending(queues: seq<Cq>)
    requires forall i :: 0 <= i < |queues| ==> queues[i].sort == []
    ensures Sum(queues, Pending) == 0
  {
    if queues != [] { NothingPending(queues[..|queues| - 1]); }
  }

  lemma RemoveKeeps(prefer: Preference, s: State, i: nat, k: nat)
    requires i < |s.queues| && k < |s.queues[i].sort|
    ensures |Remove(prefer, s, i, k).queues| == |s.queues| && Remove(prefer, s, i, k).queues[i].sync == s.queues[i].sync
  {
    hide Without, FindNext;
  }

  /** With the alias gone the second try finds nothing in the way. */
  lemma SecondTry(prefer: Preference, s: State, i: nat, r: Rq)
    requires i < |s.queues| && Ascending(s.queues[i].sort) && Alias(s.queues[i].sort, r.pos).Some?
    ensures var t := DispatchInsert(prefer, s, i, Alias(s.queues[i].sort, r.pos).value);
            |t.queues| == |s.queues| && Alias(t.queues[i].sort, r.pos).None?
  {
    hide Without, FindNext;
    NoAlias(s.queues[i].sort, Alias(s.queues[i].sort, r.pos).value, r.pos);
  }
}
