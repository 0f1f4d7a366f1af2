/**
 * The anticipatory scheduler's choice of the next request in one direction.
 * A queued request is known by its start sector; the sorted list holds each
 * sector once.
 */
module AsSched {
  import opened Common

  const MAXBACK: nat := 1024 * 1024
  const BACK_PENALTY: nat := 2

  /** Too far behind the head to seek back to. */
  predicate Wraps(last: nat, s: nat) {
    s < last && s + MAXBACK < last
  }

  /** The cost of going to `s`, backwards at a penalty. */
  function Cost(last: nat, s: nat): nat {
    if s >= last then s - last else (last - s) * BACK_PENALTY
  }

  /** `as_choose_req` on two requests. */
  function ChooseTwo(last: nat, s1: nat, s2: nat): nat {
    if s1 == s2 then s2
    else if !Wraps(last, s1) && Wraps(last, s2) then s1
    else if !Wraps(last, s2) && Wraps(last, s1) then s2
    else if Wraps(last, s1) && Wraps(last, s2) then if s1 <= s2 then s1 else s2
    else if Cost(last, s1) < Cost(last, s2) then s1
    else if Cost(last, s2) < Cost(last, s1) then s2
    else if s1 >= s2 then s1 else s2
  }

  /** `as_choose_req`, either of them possibly absent. */
  function Choose(last: nat, r1: Option<nat>, r2: Option<nat>): Option<nat> {
    if r1.None? then r2 else if r2.None? then r1 else Some(ChooseTwo(last, r1.value, r2.value))
  }

  /** `a` is preferred to `b`, or is `b`. */
  predicate Beats(last: nat, a: nat, b: nat) {
    ChooseTwo(last, a, b) == a
  }

  lemma BeatsTotal(last: nat, a: nat, b: nat)
    ensures Beats(last, a, b) || Beats(last, b, a)
    ensures Beats(last, a, b) && Beats(last, b, a) ==> a == b
    ensures ChooseTwo(last, a, b) == ChooseTwo(last, b, a)
    ensures ChooseTwo(last, a, b) == a || ChooseTwo(last, a, b) == b
  {
  }

  lemma BeatsTransitive(last: nat, a: nat, b: nat, c: nat)
    requires Beats(last, a, b) && Beats(last, b, c)
    ensures Beats(last, a, c)
  {
  }

  /**
   * The order in numbers. Ahead of the head the lower sector wins. A sector behind it, no more than 1048576, costs
   * twice its distance, wins over one ahead that is farther than that, and over any farther behind. Beyond that a
   * sector loses to all within reach, and the lowest such wins.
   */
  lemma PreferenceIs(last: nat, a: nat, b: nat)
    requires a != b
    ensures last <= a && last <= b ==> (Beats(last, a, b) <==> a < b)
    ensures a < last <= b && last - a <= 1048576 ==> (Beats(last, a, b) <==> 2 * (last - a) < b - last)
    ensures a < last && b < last && last - a <= 1048576 && last - b <= 1048576 ==> (Beats(last, a, b) <==> a > b)
    ensures (a >= last || last - a <= 1048576) && b < last && last - b > 1048576 ==> Beats(last, a, b)
    ensures a < last && b < last && last - a > 1048576 && last - b > 1048576 ==> (Beats(last, a, b) <==> a < b)
  {
  }

  // ---- the sorted list ---------------------------------------------------------

  ghost predicate Ascending(q: seq<nat>) {
    forall i, j :: 0 <= i < j < |q| ==> q[i] < q[j]
  }

  /** The whole list holds nothing better than `r`, and `r` is on it; nothing for an empty list. */
  ghost predicate Best(last: nat, q: seq<nat>, r: Option<nat>) {
    if r.None? then q == [] else r.value in q && forall s :: s in q ==> Beats(last, r.value, s)
  }

  lemma BestUnique(last: nat, q: seq<nat>, r: Option<nat>, t: Option<nat>)
    requires Best(last, q, r) && Best(last, q, t)
    ensures r == t
  {
    if r.Some? && t.Some? { BeatsTotal(last, r.value, t.value); }
  }

  /** `as_find_next_rq`: only the neighbours of the request at `k`, or the first one if it is the last. */
  function FindNext(last: nat, q: seq<nat>, k: nat): Option<nat>
    requires k < |q|
  {
    var prev := if k > 0 then Some(q[k - 1]) else None;
    var next := if k + 1 < |q| then Some(q[k + 1]) else if k > 0 then Some(q[0]) else None;
    Choose(last, next, prev)
  }

  // ---- the local search is global ---------------------------------------------------

  /** Of the requests behind the head, the nearest is best if it can be reached, else the very first. */
  lemma BestBehind(last: nat, q: seq<nat>, i: nat, j: nat)
    requires Ascending(q) && i <= j < |q| && q[j] < last
    ensures !Wraps(last, q[j]) ==> Beats(last, q[j], q[i])
    ensures Wraps(last, q[j]) ==> Beats(last, q[i], q[j])
  {
  }

  /** Of the requests at or ahead of the head, the nearest is best. */
  lemma BestAhead(last: nat, q: seq<nat>, i: nat, j: nat)
    requires Ascending(q) && i <= j < |q| && q[i] >= last
    ensures Beats(last, q[i], q[j])
  {
  }

  /** Nothing is queued strictly between the removed request at `k` and the head. */
  ghost predicate NoneInside(last: nat, q: seq<nat>, k: nat)
    requires k < |q|
  {
    k + 1 < |q| ==> q[k + 1] >= last
  }

  lemma RemoveIn(q: seq<nat>, k: nat, s: nat)
    requires Ascending(q) && k < |q|
    ensures s in RemoveAt(q, k) <==> s in q && s != q[k]
  {
    var t := RemoveAt(q, k);
    if s in q && s != q[k] {
      var i :| 0 <= i < |q| && q[i] == s;
      assert t[if i < k then i else i - 1] == s;
    }
    if s in t {
      var i :| 0 <= i < |t| && t[i] == s;
      assert q[if i < k then i else i + 1] == s;
    }
  }

  /** If no request starts between the one leaving and the head, its neighbours include the best of the rest. */
  lemma NeighboursSuffice(last: nat, q: seq<nat>, k: nat)
    requires Ascending(q) && k < |q| && (k > 0 ==> q[k - 1] < last) && NoneInside(last, q, k)
    ensures Best(last, RemoveAt(q, k), FindNext(last, q, k))
  {
    var r := FindNext(last, q, k);
    if |q| > 1 {
      assert r.value in q && r.value != q[k];
      RemoveIn(q, k, r.value);
      forall s | s in RemoveAt(q, k) ensures Beats(last, r.value, s) {
        RemoveIn(q, k, s);
        var j :| 0 <= j < |q| && q[j] == s;
        NeighbourBeats(last, q, k, j);
      }
    }
  }

  lemma NeighbourBeats(last: nat, q: seq<nat>, k: nat, j: nat)
    requires Ascending(q) && k < |q| && (k > 0 ==> q[k - 1] < last) && NoneInside(last, q, k) && j < |q| && j != k
    ensures FindNext(last, q, k).Some? && Beats(last, FindNext(last, q, k).value, q[j])
  {
    if k > 0 { BestBehind(last, q, 0, k - 1); }
    if j < k { BestBehind(last, q, j, k - 1); BestBehind(last, q, 0, j); } else { BestAhead(last, q, k + 1, j); }
  }

  /** What decides when the request leaving reaches past the start of the next one. */
  predicate NeighbourWins(last: nat, q: seq<nat>, k: nat)
    requires k < |q|
  {
    || k + 1 == |q| || q[k + 1] >= last
    || (if Wraps(last, q[k + 1])
        then k <= 1 && Wraps(last, q[|q| - 1])
        else k + 2 == |q| || (q[k + 2] >= last && Cost(last, q[k + 1]) < Cost(last, q[k + 2])))
  }

  lemma InsideWraps(last: nat, q: seq<nat>, k: nat)
    requires Ascending(q) && k + 1 < |q| && Wraps(last, q[k + 1])
    ensures Best(last, RemoveAt(q, k), FindNext(last, q, k)) <==> k <= 1 && Wraps(last, q[|q| - 1])
  {
    var r := FindNext(last, q, k).value;
    assert r == if k > 0 then q[k - 1] else q[k + 1];
    RemoveIn(q, k, r);
    RemoveIn(q, k, q[|q| - 1]);
    RemoveIn(q, k, q[0]);
    if k <= 1 && Wraps(last, q[|q| - 1]) {
      forall s | s in RemoveAt(q, k) ensures Beats(last, r, s) {
        RemoveIn(q, k, s);
        var j :| 0 <= j < |q| && q[j] == s;
      }
    }
  }

  lemma InsideReached(last: nat, q: seq<nat>, k: nat)
    requires Ascending(q) && k + 1 < |q| && q[k + 1] < last && !Wraps(last, q[k + 1])
    ensures Best(last, RemoveAt(q, k), FindNext(last, q, k))
       <==> k + 2 == |q| || (q[k + 2] >= last && Cost(last, q[k + 1]) < Cost(last, q[k + 2]))
  {
    var r := q[k + 1];
    assert FindNext(last, q, k) == Some(r);
    RemoveIn(q, k, r);
    if k + 2 < |q| { RemoveIn(q, k, q[k + 2]); }
    if k + 2 == |q| || (q[k + 2] >= last && Cost(last, r) < Cost(last, q[k + 2])) {
      forall s | s in RemoveAt(q, k) ensures Beats(last, r, s) {
        RemoveIn(q, k, s);
        var j :| 0 <= j < |q| && q[j] == s;
        if j <= k { BestBehind(last, q, j, k + 1); } else if j > k + 1 { BestAhead(last, q, k + 2, j); }
      }
    }
  }

  /**
   * Looking only at the neighbours of the request that leaves finds the best of
   * the rest exactly when this test on the list passes.
   */
  lemma NeighboursExact(last: nat, q: seq<nat>, k: nat)
    requires Ascending(q) && k < |q| && q[k] <= last
    ensures Best(last, RemoveAt(q, k), FindNext(last, q, k)) <==> NeighbourWins(last, q, k)
  {
    if k + 1 == |q| || q[k + 1] >= last {
      NeighboursSuffice(last, q, k);
    } else if Wraps(last, q[k + 1]) {
      InsideWraps(last, q, k);
    } else {
      InsideReached(last, q, k);
    }
  }

  /** A request of 8 sectors leaves two others starting inside it: the far one is cached, the near one is better. */
  lemma InsideMisleads()
    ensures FindNext(108, [100, 102, 106], 0) == Some(102) && Beats(108, 106, 102) &&
            !NeighbourWins(108, [100, 102, 106], 0)
  {
  }

  // ---- the scheduler's steps ---------------------------------------------------------

  datatype State = State(q: seq<nat>, last: nat, next: Option<nat>)

  function Place(q: seq<nat>, s: nat): nat
    ensures Place(q, s) <= |q|
  {
    if q == [] || q[0] >= s then 0 else 1 + Place(q[1..], s)
  }

  /** `as_move_to_dispatch` of the request at `k`, `len` sectors long. */
  function Dispatch(st: State, k: nat, len: nat): State
    requires k < |st.q|
  {
    var last := st.q[k] + len;
    State(RemoveAt(st.q, k), last, FindNext(last, st.q, k))
  }

  /** `as_remove_queued_request` when another request has swallowed the one at `k`. */
  function Drop(st: State, k: nat): State
    requires k < |st.q|
  {
    State(RemoveAt(st.q, k), st.last, if st.next == Some(st.q[k]) then FindNext(st.last, st.q, k) else st.next)
  }

  /** `as_add_rq_rb` and `as_update_rq`; a request already at that sector, `len` long, is dispatched first. */
  function Add(st: State, s: nat, len: nat): State {
    var k := Place(st.q, s);
    var t := if k < |st.q| && st.q[k] == s then Dispatch(st, k, len) else st;
    t.(q := InsertAt(t.q, Place(t.q, s), s), next := Choose(t.last, Some(s), t.next))
  }

  datatype Step = AddOne(s: nat, len: nat) | DispatchOne(k: nat, len: nat) | DropOne(k: nat)

  function Apply(st: State, step: Step): State {
    match step
    case AddOne(s, len) => Add(st, s, len)
    case DispatchOne(k, len) => if k < |st.q| then Dispatch(st, k, len) else st
    case DropOne(k) => if k < |st.q| then Drop(st, k) else st
  }

  /** Nothing dispatched by this step covers the start of a request that stays. */
  predicate Clear(st: State, step: Step) {
    match step
    case AddOne(s, len) =>
      var k := Place(st.q, s);
      k < |st.q| && st.q[k] == s ==> NeighbourWins(s + len, st.q, k)
    case DispatchOne(k, len) => k < |st.q| ==> NeighbourWins(st.q[k] + len, st.q, k)
    case DropOne(_) => true
  }

  function Run(st: State, steps: seq<Step>): State
    decreases |steps|
  {
    if steps == [] then st else Apply(Run(st, steps[..|steps| - 1]), steps[|steps| - 1])
  }

  ghost predicate AllClear(st: State, steps: seq<Step>) {
    forall i :: 0 <= i < |steps| ==> Clear(Run(st, steps[..i]), steps[i])
  }

  /** The list is in order and `next_rq` is its best request. */
  ghost predicate Good(st: State) {
    Ascending(st.q) && Best(st.last, st.q, st.next)
  }

  lemma DispatchGood(st: State, k: nat, len: nat)
    requires Ascending(st.q) && k < |st.q|
    ensures Good(Dispatch(st, k, len)) <==> NeighbourWins(st.q[k] + len, st.q, k)
  {
    hide Best, NeighbourWins, FindNext;
    NeighboursExact(st.q[k] + len, st.q, k);
    RemoveAscending(st.q, k);
  }

  lemma RemoveAscending(q: seq<nat>, k: nat)
    requires Ascending(q) && k < |q|
    ensures Ascending(RemoveAt(q, k))
  {
  }

  /** Losing the best request to a merge: its neighbours include the new best, wherever the head is. */
  lemma DropGood(st: State, k: nat)
    requires Good(st) && k < |st.q|
    ensures Good(Drop(st, k))
  {
    var q, last := st.q, st.last;
    if st.next == Some(q[k]) {
      if k > 0 { assert q[k - 1] in q; }
      if k + 1 < |q| { assert q[k + 1] in q; }
      if Wraps(last, q[k]) {
        DropWrapped(last, q, k);
      } else {
        NeighboursSuffice(last, q, k);
      }
    } else {
      RemoveIn(q, k, st.next.value);
      forall s | s in RemoveAt(q, k) ensures Beats(last, st.next.value, s) {
        RemoveIn(q, k, s);
      }
    }
  }

  lemma DropWrapped(last: nat, q: seq<nat>, k: nat)
    requires Ascending(q) && k < |q| && Wraps(last, q[k]) && Best(last, q, Some(q[k]))
    ensures Best(last, RemoveAt(q, k), FindNext(last, q, k))
  {
    assert q[0] in q && q[|q| - 1] in q;
    assert k == 0;
    if |q| > 1 {
      assert Wraps(last, q[|q| - 1]);
      assert FindNext(last, q, k) == Some(q[1]);
      RemoveIn(q, k, q[1]);
      forall s | s in RemoveAt(q, k) ensures Beats(last, q[1], s) {
        RemoveIn(q, k, s);
        var j :| 0 <= j < |q| && q[j] == s;
      }
    }
  }

  lemma {:induction false} PlaceSplits(q: seq<nat>, s: nat)
    requires Ascending(q)
    ensures forall i :: 0 <= i < Place(q, s) ==> q[i] < s
    ensures forall i :: Place(q, s) <= i < |q| ==> q[i] >= s
  {
    if q != [] && q[0] < s { PlaceSplits(q[1..], s); }
  }

  lemma InsertAscending(q: seq<nat>, s: nat)
    requires Ascending(q) && s !in q
    ensures Ascending(InsertAt(q, Place(q, s), s))
    ensures forall x :: x in InsertAt(q, Place(q, s), s) <==> x in q || x == s
  {
    PlaceSplits(q, s);
    hide Place;
    var k := Place(q, s);
    forall x ensures x in InsertAt(q, k, s) <==> x in q || x == s {
      InsertIn(q, k, s, x);
    }
  }

  lemma BestOfBoth(last: nat, q: seq<nat>, r: Option<nat>, t: seq<nat>, s: nat)
    requires Best(last, q, r) && forall x :: x in t <==> x in q || x == s
    ensures Best(last, t, Choose(last, Some(s), r))
  {
    hide ChooseTwo;
    var c := Choose(last, Some(s), r).value;
    if r.Some? { BeatsTotal(last, s, r.value); } else { BeatsTotal(last, s, s); }
    forall x | x in t ensures Beats(last, c, x) {
      if r.Some? {
        BeatsTotal(last, c, c);
        if x in q { BeatsTransitive(last, c, r.value, x); }
      }
    }
  }

  lemma InsertGood(st: State, s: nat)
    requires Good(st) && s !in st.q
    ensures Good(st.(q := InsertAt(st.q, Place(st.q, s), s), next := Choose(st.last, Some(s), st.next)))
  {
    hide Best, Place, Choose, Ascending;
    InsertAscending(st.q, s);
    BestOfBoth(st.last, st.q, st.next, InsertAt(st.q, Place(st.q, s), s), s);
  }

  lemma AddGood(st: State, s: nat, len: nat)
    requires Good(st) && Clear(st, AddOne(s, len))
    ensures Good(Add(st, s, len))
  {
    PlaceSplits(st.q, s);
    var k := Place(st.q, s);
    if k < |st.q| && st.q[k] == s {
      DispatchGood(st, k, len);
      RemoveIn(st.q, k, s);
      InsertGood(Dispatch(st, k, len), s);
    } else {
      assert s !in st.q;
      InsertGood(st, s);
    }
  }

  /**
   * Over every run of adds, dispatches and request merges in which no dispatch
   * misleads the search, `next_rq` is the best request of the whole list.
   */
  lemma {:induction false} RunGood(st: State, steps: seq<Step>)
    requires Good(st) && AllClear(st, steps)
    ensures Good(Run(st, steps))
    decreases |steps|
  {
    if steps != [] {
      var n := |steps| - 1;
      forall i | 0 <= i < n ensures steps[..n][i] == steps[i] && steps[..n][..i] == steps[..i] {
      }
      RunGood(st, steps[..n]);
      var t := Run(st, steps[..n]);
      match steps[n]
      case AddOne(s, len) => AddGood(t, s, len);
      case DispatchOne(k, len) => if k < |t.q| { DispatchGood(t, k, len); }
      case DropOne(k) => if k < |t.q| { DropGood(t, k); }
    }
  }

  /** So from an empty queue on, `next_rq` is the one request no other beats, and nothing when there is none. */
  lemma RunBest(last: nat, steps: seq<Step>, r: Option<nat>)
    requires AllClear(State([], last, None), steps)
    ensures var t := Run(State([], last, None), steps); Best(t.last, t.q, r) <==> r == t.next
  {
    hide Run, AllClear;
    var t := Run(State([], last, None), steps);
    RunGood(State([], last, None), steps);
    if Best(t.last, t.q, r) { BestUnique(t.last, t.q, r, t.next); }
  }

  // ---- the code on as_data ---------------------------------------------------------------

  class AsData {
    var sort: seq<nat>
    var last: nat
    var next: Option<nat>

    function View(): State
      reads this
    {
      State(sort, last, next)
    }

    /** `as_remove_queued_request` */
    method RemoveQueued(k: nat)
      requires k < |sort|
      modifies `sort, `next
      ensures View() == Drop(old(View()), k)
    {
      if next == Some(sort[k]) {
        next := FindNext(last, sort, k);
      }
      sort := RemoveAt(sort, k);
    }

    /** `as_move_to_dispatch` */
    method MoveToDispatch(k: nat, len: nat)
      requires k < |sort| && Ascending(sort)
      modifies this
      ensures View() == Dispatch(old(View()), k, len)
    {
      last := sort[k] + len;
      next := FindNext(last, sort, k);
      assert next != Some(sort[k]);
      RemoveQueued(k);
    }

    /** `elv_rb_add`: the index of a request already there, or the new one in its place. */
    method RbAdd(s: nat) returns (alias: Option<nat>)
      modifies `sort
      ensures var k := Place(old(sort), s);
              if k < |old(sort)| && old(sort)[k] == s then alias == Some(k) && sort == old(sort)
              else alias == None && sort == InsertAt(old(sort), k, s)
    {
      var k := 0;
      while k < |sort| && sort[k] < s
        invariant k <= |sort| && Place(sort, s) == k + Place(sort[k..], s)
      {
        k := k + 1;
      }
      if k < |sort| && sort[k] == s {
        return Some(k);
      }
      sort := InsertAt(sort, k, s);
      return None;
    }

    /** `as_add_rq_rb` and `as_update_rq` */
    method AddRequest(s: nat, len: nat)
      requires Ascending(sort)
      modifies this
      ensures View() == Add(old(View()), s, len)
    {
      hide Place, FindNext, Choose;
      ghost var st := View();
      var alias := RbAdd(s);
      if alias.Some? { SecondTry(st.q, s); }
      while alias.Some?
        invariant alias.Some? ==>
                  View() == st && 0 <= alias.value < |st.q| && st.q[alias.value] == s && alias.value == Place(st.q, s)
        invariant alias.None? ==>
          var k := Place(st.q, s);
          var t := if k < |st.q| && st.q[k] == s then Dispatch(st, k, len) else st;
          View() == t.(q := InsertAt(t.q, Place(t.q, s), s))
        decreases alias.Some?
      {
        MoveToDispatch(alias.value, len);
        alias := RbAdd(s);
      }
      next := Choose(last, Some(s), next);
    }
  }

  lemma SecondTry(q: seq<nat>, s: nat)
    requires Ascending(q) && Place(q, s) < |q| && q[Place(q, s)] == s
    ensures var t := RemoveAt(q, Place(q, s)); !(Place(t, s) < |t| && t[Place(t, s)] == s)
  {
    var k := Place(q, s);
    var t := RemoveAt(q, k);
    RemoveIn(q, k, s);
    forall i | 0 <= i < |t| ensures t[i] != s {
      assert t[i] in t;
    }
  }
}
