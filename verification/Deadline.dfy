/**
 * The deadline I/O scheduler on values: per direction a sector-sorted list, a
 * FIFO and a cached next request, and the batching and starvation counters.
 */
module Deadline {
  import opened Common

  type Id = int

  datatype Dir = Read | Write

  /** One direction: the sorted tree in order, the FIFO, and `next_rq`. */
  datatype Side = Side(sort: seq<Id>, fifo: seq<Id>, next: Option<Id>)

  datatype Tunables = Tunables(expireRead: nat, expireWrite: nat, batch: nat, starve: nat)

  /** `pos` and `expiry` are the requests' own sector and FIFO time; `out` is what went to the dispatch queue. */
  datatype State = State(
    read: Side, write: Side, batching: nat, starved: nat,
    pos: map<Id, nat>, expiry: map<Id, nat>, now: nat, out: seq<Id>)

  const EMPTY := Side([], [], None)

  function Init(now: nat): State {
    State(EMPTY, EMPTY, 0, 0, map[], map[], now, [])
  }

  function Get(s: State, d: Dir): Side {
    if d.Read? then s.read else s.write
  }

  function Put(s: State, d: Dir, side: Side): State {
    if d.Read? then s.(read := side) else s.(write := side)
  }

  function Pos(pos: map<Id, nat>, x: Id): nat {
    if x in pos then pos[x] else 0
  }

  function Time(expiry: map<Id, nat>, x: Id): nat {
    if x in expiry then expiry[x] else 0
  }

  function Expire(t: Tunables, d: Dir): nat {
    if d.Read? then t.expireRead else t.expireWrite
  }

  /** The request after `x` in the list. */
  function After(s: seq<Id>, x: Id): Option<Id> {
    if s == [] then None else if s[0] == x then (if |s| > 1 then Some(s[1]) else None) else After(s[1..], x)
  }

  /** Where a request at sector `p` belongs. */
  function Place(pos: map<Id, nat>, sort: seq<Id>, p: nat): nat
    ensures Place(pos, sort, p) <= |sort|
  {
    if sort == [] || Pos(pos, sort[0]) >= p then 0 else 1 + Place(pos, sort[1..], p)
  }

  /** The queued request that already starts at sector `p`, which `elv_rb_add` hands back. */
  function Alias(pos: map<Id, nat>, sort: seq<Id>, p: nat): Option<Id> {
    var k := Place(pos, sort, p);
    if k < |sort| && Pos(pos, sort[k]) == p then Some(sort[k]) else None
  }

  /** `deadline_remove_request` */
  function Remove(side: Side, x: Id): Side {
    Side(Without(side.sort, x), Without(side.fifo, x), if side.next == Some(x) then After(side.sort, x) else side.next)
  }

  /** `deadline_move_request` */
  function Move(s: State, d: Dir, x: Id): State {
    var cleared := s.(read := s.read.(next := None), write := s.write.(next := None), out := s.out + [x]);
    var side := Get(cleared, d).(next := After(Get(s, d).sort, x));
    Put(cleared, d, Remove(side, x))
  }

  /** `deadline_add_rq_rb`: requests in the way go to the dispatch queue first. */
  function AddSorted(s: State, d: Dir, x: Id): State {
    var p := Pos(s.pos, x);
    var a := Alias(s.pos, Get(s, d).sort, p);
    var t := if a.Some? then Move(s, d, a.value) else s;
    var side := Get(t, d);
    Put(t, d, side.(sort := InsertAt(side.sort, Place(t.pos, side.sort, p), x)))
  }

  /** `deadline_add_request` */
  function Add(tn: Tunables, s: State, d: Dir, x: Id, p: nat): State {
    var t := AddSorted(s.(pos := s.pos[x := p]), d, x);
    var side := Get(t, d);
    Put(t.(expiry := t.expiry[x := t.now + Expire(tn, d)]), d, side.(fifo := side.fifo + [x]))
  }

  /** A front merge moves `x` down to sector `p`: `deadline_merged_request` repositions it. */
  function FrontMerge(s: State, d: Dir, x: Id, p: nat): State {
    var side := Get(s, d);
    AddSorted(Put(s, d, side.(sort := Without(side.sort, x))).(pos := s.pos[x := p]), d, x)
  }

  /** `list_move(&req->queuelist, &next->queuelist)`: `x` leaves its place and lands behind `y`. */
  function MoveBehind(fifo: seq<Id>, x: Id, y: Id): seq<Id> {
    var rest := Without(fifo, x);
    InsertAt(rest, IndexAfter(rest, y), x)
  }

  function IndexAfter(s: seq<Id>, y: Id): nat
    ensures IndexAfter(s, y) <= |s|
  {
    if s == [] then 0 else if s[0] == y then 1 else 1 + IndexAfter(s[1..], y)
  }

  /** `deadline_merged_requests`: `x` absorbs `y` and inherits the earlier deadline. */
  function MergeRequests(s: State, d: Dir, x: Id, y: Id): State {
    var side := Get(s, d);
    if Time(s.expiry, y) < Time(s.expiry, x) then
      Put(s.(expiry := s.expiry[x := Time(s.expiry, y)]), d, Remove(side.(fifo := MoveBehind(side.fifo, x, y)), y))
    else
      Put(s, d, Remove(side, y))
  }

  // ---- deadline_dispatch_requests ------------------------------------------------

  /** A batch is running: the cached next request, writes first. */
  function Next(s: State): Option<(Dir, Id)> {
    if s.write.next.Some? then Some((Write, s.write.next.value))
    else if s.read.next.Some? then Some((Read, s.read.next.value))
    else None
  }

  predicate Batches(tn: Tunables, s: State) {
    Next(s).Some? && s.batching < tn.batch
  }

  /** `deadline_check_fifo` */
  predicate HeadExpired(s: State, d: Dir)
    requires Get(s, d).fifo != []
  {
    s.now > Time(s.expiry, Get(s, d).fifo[0])
  }

  function Find(s: State, d: Dir): Id
    requires Get(s, d).fifo != []
  {
    if HeadExpired(s, d) || Get(s, d).next.None? then Get(s, d).fifo[0] else Get(s, d).next.value
  }

  /** Reads go first unless writes have waited `writes_starved` times. */
  function Choose(tn: Tunables, s: State): Dir {
    if s.read.fifo != [] && (s.write.fifo == [] || s.starved < tn.starve) then Read else Write
  }

  function Starved(tn: Tunables, s: State): nat {
    if Choose(tn, s).Write? then 0 else if s.write.fifo != [] then s.starved + 1 else s.starved
  }

  predicate Empty(s: State) {
    s.read.fifo == [] && s.write.fifo == []
  }

  /** The direction and request the next call dispatches, if any. */
  function Pick(tn: Tunables, s: State): Option<(Dir, Id)> {
    if Batches(tn, s) then Next(s)
    else if Empty(s) then None
    else Some((Choose(tn, s), Find(s, Choose(tn, s))))
  }

  function Dispatch(tn: Tunables, s: State): State {
    if Batches(tn, s) then
      var (d, x) := Next(s).value;
      Move(s.(batching := s.batching + 1), d, x)
    else if Empty(s) then s
    else
      var d := Choose(tn, s);
      Move(s.(batching := 1, starved := Starved(tn, s)), d, Find(s, d))
  }

  // ---- runs --------------------------------------------------------------------------

  /** Steps that do not make sense in a state (an unknown request, a used identity) do nothing. */
  datatype Step =
    | AddOne(d: Dir, x: Id, p: nat)
    | MergeFront(d: Dir, x: Id, p: nat)
    | MergeTwo(d: Dir, x: Id, y: Id)
    | DispatchOne
    | Tick(dt: nat)

  function Apply(tn: Tunables, s: State, step: Step): State {
    match step
    case AddOne(d, x, p) => if x in s.pos then s else Add(tn, s, d, x, p)
    case MergeFront(d, x, p) => if x in Get(s, d).sort then FrontMerge(s, d, x, p) else s
    case MergeTwo(d, x, y) =>
      if x in Get(s, d).sort && y in Get(s, d).sort && x != y then MergeRequests(s, d, x, y) else s
    case DispatchOne => Dispatch(tn, s)
    case Tick(dt) => s.(now := s.now + dt)
  }

  function Run(tn: Tunables, s: State, steps: seq<Step>): State
    decreases |steps|
  {
    if steps == [] then s else Apply(tn, Run(tn, s, steps[..|steps| - 1]), steps[|steps| - 1])
  }

  // ---- what every step keeps ----------------------------------------------------------

  ghost predicate BySector(pos: map<Id, nat>, s: seq<Id>) {
    forall i, j :: 0 <= i < j < |s| ==> Pos(pos, s[i]) < Pos(pos, s[j])
  }

  ghost predicate ByExpiry(expiry: map<Id, nat>, s: seq<Id>) {
    forall i, j :: 0 <= i < j < |s| ==> Time(expiry, s[i]) <= Time(expiry, s[j])
  }

  /** The sorted list and the FIFO hold the same requests, each in its own order; `next_rq` is one of them. */
  ghost predicate SideOk(pos: map<Id, nat>, expiry: map<Id, nat>, side: Side, horizon: nat) {
    && (forall x :: x in side.sort <==> x in side.fifo)
    && NoDup(side.fifo) && BySector(pos, side.sort) && ByExpiry(expiry, side.fifo)
    && (forall x :: x in side.fifo ==> x in pos && Time(expiry, x) <= horizon)
    && (side.next.Some? ==> side.next.value in side.sort)
  }

  /** What every state keeps: both directions in order, apart from each other, and one batch at most. */
  ghost predicate Ok(tn: Tunables, s: State) {
    && SideOk(s.pos, s.expiry, s.read, s.now + tn.expireRead)
    && SideOk(s.pos, s.expiry, s.write, s.now + tn.expireWrite)
    && (s.read.next.None? || s.write.next.None?)
    && (forall x :: x in s.read.sort ==> x !in s.write.sort)
  }

  // ---- list facts -----------------------------------------------------------------------

  lemma WithoutKeeps(pos: map<Id, nat>, expiry: map<Id, nat>, s: seq<Id>, x: Id)
    ensures NoDup(s) ==> NoDup(Without(s, x))
    ensures BySector(pos, s) ==> BySector(pos, Without(s, x))
    ensures ByExpiry(expiry, s) ==> ByExpiry(expiry, Without(s, x))
  {
    forall i: nat, j: nat | i < j < |Without(s, x)|
      ensures NoDup(s) ==> Without(s, x)[i] != Without(s, x)[j]
      ensures BySector(pos, s) ==> Pos(pos, Without(s, x)[i]) < Pos(pos, Without(s, x)[j])
      ensures ByExpiry(expiry, s) ==> Time(expiry, Without(s, x)[i]) <= Time(expiry, Without(s, x)[j])
    {
      var k, l := WithoutOrder(s, x, i, j);
    }
  }

  lemma SectorNoDup(pos: map<Id, nat>, s: seq<Id>)
    requires BySector(pos, s)
    ensures NoDup(s)
  {
  }

  lemma {:induction false} AfterIn(s: seq<Id>, x: Id)
    requires NoDup(s)
    ensures After(s, x).Some? ==> After(s, x).value in s && After(s, x).value != x
  {
    if s != [] && s[0] != x { AfterIn(s[1..], x); }
  }

  lemma {:induction false} PlaceSplits(pos: map<Id, nat>, s: seq<Id>, p: nat)
    requires BySector(pos, s)
    ensures forall i :: 0 <= i < Place(pos, s, p) ==> Pos(pos, s[i]) < p
    ensures forall i :: Place(pos, s, p) <= i < |s| ==> Pos(pos, s[i]) >= p
  {
    if s != [] && Pos(pos, s[0]) < p { PlaceSplits(pos, s[1..], p); }
  }

  lemma InsertSorted(pos: map<Id, nat>, s: seq<Id>, x: Id)
    requires BySector(pos, s) && Alias(pos, s, Pos(pos, x)).None?
    ensures BySector(pos, InsertAt(s, Place(pos, s, Pos(pos, x)), x))
  {
    var k := Place(pos, s, Pos(pos, x));
    PlaceSplits(pos, s, Pos(pos, x));
    var t := InsertAt(s, k, x);
    forall i, j | 0 <= i < j < |t| ensures Pos(pos, t[i]) < Pos(pos, t[j]) {
      if k < j && k < |s| { assert Pos(pos, s[k]) <= Pos(pos, s[j - 1]); }
    }
  }

  lemma AliasGone(pos: map<Id, nat>, s: seq<Id>, p: nat)
    requires BySector(pos, s) && Alias(pos, s, p).Some?
    ensures var a := Alias(pos, s, p).value; a in s && Pos(pos, a) == p && Alias(pos, Without(s, a), p).None?
  {
    var a := Alias(pos, s, p).value;
    var t := Without(s, a);
    SectorNoDup(pos, s);
    WithoutKeeps(pos, map[], s, a);
    var k := Place(pos, t, p);
    if k < |t| && Pos(pos, t[k]) == p {
      WithoutIn(s, a, t[k]);
      SamePlace(pos, s, t[k], a);
    }
  }

  lemma SamePlace(pos: map<Id, nat>, s: seq<Id>, x: Id, y: Id)
    requires BySector(pos, s) && x in s && y in s && Pos(pos, x) == Pos(pos, y)
    ensures x == y
  {
    var i :| 0 <= i < |s| && s[i] == x;
    var j :| 0 <= j < |s| && s[j] == y;
    assert i < j || j < i || i == j;
  }

  // ---- each step keeps Ok ------------------------------------------------------------------

  lemma RemoveOk(pos: map<Id, nat>, expiry: map<Id, nat>, side: Side, h: nat, x: Id)
    requires SideOk(pos, expiry, side, h)
    ensures SideOk(pos, expiry, Remove(side, x), h)
    ensures forall y :: y in Remove(side, x).sort <==> y in side.sort && y != x
    ensures side.next.None? ==> Remove(side, x).next.None?
  {
    SectorNoDup(pos, side.sort);
    WithoutKeeps(pos, expiry, side.sort, x);
    WithoutKeeps(pos, expiry, side.fifo, x);
    AfterIn(side.sort, x);
    forall y ensures y in Without(side.sort, x) <==> y in side.sort && y != x
             ensures y in Without(side.fifo, x) <==> y in side.fifo && y != x
    {
      WithoutIn(side.sort, x, y);
      WithoutIn(side.fifo, x, y);
    }
  }

  /** `deadline_move_request` on the direction of the request. */
  function Moved(side: Side, x: Id): Side {
    Remove(side.(next := After(side.sort, x)), x)
  }

  lemma MovedOk(pos: map<Id, nat>, expiry: map<Id, nat>, side: Side, h: nat, x: Id)
    requires SideOk(pos, expiry, side, h)
    ensures SideOk(pos, expiry, Moved(side, x), h)
    ensures forall y :: y in Moved(side, x).sort <==> y in side.sort && y != x
  {
    SectorNoDup(pos, side.sort);
    AfterIn(side.sort, x);
    RemoveOk(pos, expiry, side.(next := After(side.sort, x)), h, x);
  }

  function Other(d: Dir): Dir {
    if d.Read? then Write else Read
  }

  function Unnexted(side: Side): Side {
    side.(next := None)
  }

  /** The two directions together, seen from direction `d`. */
  ghost predicate Both(tn: Tunables, s: State, d: Dir) {
    && SideOk(s.pos, s.expiry, Get(s, d), s.now + Expire(tn, d))
    && SideOk(s.pos, s.expiry, Get(s, Other(d)), s.now + Expire(tn, Other(d)))
    && (Get(s, d).next.None? || Get(s, Other(d)).next.None?)
    && (forall x :: x in Get(s, d).sort ==> x !in Get(s, Other(d)).sort)
  }

  lemma BothIsOk(tn: Tunables, s: State, d: Dir)
    ensures Ok(tn, s) <==> Both(tn, s, d)
  {
    hide SideOk;
  }

  lemma MoveIs(s: State, d: Dir, x: Id)
    ensures var t := Move(s, d, x); var o := Other(d);
            Get(t, d) == Moved(Get(s, d), x) && Get(t, o) == Unnexted(Get(s, o)) && Same(s, t)
  {
    hide Without, After;
  }

  /** Nothing but the directions' lists, and the dispatch queue, differs. */
  ghost predicate Same(s: State, t: State) {
    t.pos == s.pos && t.expiry == s.expiry && t.now == s.now && t.batching == s.batching && t.starved == s.starved
  }

  lemma MoveOk(tn: Tunables, s: State, d: Dir, x: Id)
    requires Ok(tn, s)
    ensures Ok(tn, Move(s, d, x))
  {
    var o := Other(d);
    BothIsOk(tn, s, d);
    MovedOk(s.pos, s.expiry, Get(s, d), s.now + Expire(tn, d), x);
    UnnextedOk(s.pos, s.expiry, Get(s, o), s.now + Expire(tn, o));
    MoveIs(s, d, x);
    hide Move, Moved, Ok, SideOk;
    OkFrom(tn, Move(s, d, x), d, Moved(Get(s, d), x), Unnexted(Get(s, o)));
  }

  /** `deadline_add_rq_rb` on the direction of the request. */
  function Added(pos: map<Id, nat>, side: Side, x: Id): Side {
    var p := Pos(pos, x);
    var a := Alias(pos, side.sort, p);
    var base := if a.Some? then Moved(side, a.value) else side;
    base.(sort := InsertAt(base.sort, Place(pos, base.sort, p), x))
  }

  function AliasOf(pos: map<Id, nat>, side: Side, x: Id): Option<Id> {
    Alias(pos, side.sort, Pos(pos, x))
  }

  lemma AddSortedIs(s: State, d: Dir, x: Id)
    ensures var t := AddSorted(s, d, x); var o := Other(d);
            && Get(t, d) == Added(s.pos, Get(s, d), x) && Same(s, t)
            && Get(t, o) == if AliasOf(s.pos, Get(s, d), x).Some? then Unnexted(Get(s, o)) else Get(s, o)
  {
    hide Move, Moved, Alias, Place;
    var a := AliasOf(s.pos, Get(s, d), x);
    if a.Some? { MoveIs(s, d, a.value); }
  }

  /** Without the requests in its way, `x` joins the sorted list; the rest of the direction is as the move left it. */
  lemma AddedFacts(pos: map<Id, nat>, side: Side, x: Id)
    requires BySector(pos, side.sort) && (side.next.Some? ==> side.next.value in side.sort || side.next.value == x)
    ensures var a, t := AliasOf(pos, side, x), Added(pos, side, x);
            && BySector(pos, t.sort) && (a.Some? ==> a.value in side.sort)
            && (forall y :: y in t.sort <==> y == x || (y in side.sort && Some(y) != a))
            && t.fifo == (if a.Some? then Without(side.fifo, a.value) else side.fifo)
            && (t.next.Some? ==> t.next.value in t.sort) && (a.None? ==> t.next == side.next)
  {
    var sort, p, a := side.sort, Pos(pos, x), AliasOf(pos, side, x);
    SectorNoDup(pos, sort);
    var rest := if a.Some? then Without(sort, a.value) else sort;
    if a.Some? {
      AliasGone(pos, sort, p);
      AfterIn(sort, a.value);
      WithoutKeeps(pos, map[], sort, a.value);
      forall y ensures y in rest <==> y in sort && y != a.value {
        WithoutIn(sort, a.value, y);
      }
    }
    InsertSorted(pos, rest, x);
    var k := Place(pos, rest, p);
    forall y ensures y in InsertAt(rest, k, x) <==> y in rest || y == x {
      InsertIn(rest, k, x, y);
    }
    hide InsertAt, Without, After, Place, BySector, NoDup;
  }

  /** Positions and deadlines of a request that is not on a side do not matter to it. */
  lemma SideFrame(pos: map<Id, nat>, expiry: map<Id, nat>, side: Side, h: nat, x: Id, p: nat, e: nat)
    requires SideOk(pos, expiry, side, h) && x !in side.sort
    ensures SideOk(pos[x := p], expiry, side, h) && SideOk(pos, expiry[x := e], side, h) &&
            SideOk(pos[x := p], expiry[x := e], side, h)
  {
  }

  /** The FIFO loses the alias, if there is one, and nothing else. */
  lemma FifoLeft(pos: map<Id, nat>, expiry: map<Id, nat>, fifo: seq<Id>, a: Option<Id>)
    requires NoDup(fifo) && ByExpiry(expiry, fifo)
    ensures var left := if a.Some? then Without(fifo, a.value) else fifo;
            NoDup(left) && ByExpiry(expiry, left) && forall y :: y in left <==> y in fifo && Some(y) != a
  {
    if a.Some? {
      WithoutKeeps(pos, expiry, fifo, a.value);
      forall y ensures y in Without(fifo, a.value) <==> y in fifo && y != a.value {
        WithoutIn(fifo, a.value, y);
      }
    }
  }

  lemma FifoTail(expiry: map<Id, nat>, fifo: seq<Id>, h: nat, x: Id)
    requires NoDup(fifo) && ByExpiry(expiry, fifo) && x !in fifo && forall y :: y in fifo ==> Time(expiry, y) <= h
    ensures var e := expiry[x := h];
            NoDup(fifo + [x]) && ByExpiry(e, fifo + [x]) && forall y :: y in fifo + [x] ==> Time(e, y) <= h
  {
    var t := fifo + [x];
    forall i, j | 0 <= i < j < |t| ensures Time(expiry[x := h], t[i]) <= Time(expiry[x := h], t[j]) && t[i] != t[j] {
      assert t[i] in fifo;
    }
  }

  lemma AddedFifo(pos: map<Id, nat>, expiry: map<Id, nat>, side: Side, h: nat, x: Id)
    requires SideOk(pos, expiry, side, h) && x !in side.sort && x in pos
    ensures var a, f := AliasOf(pos, side, x), Added(pos, side, x).fifo + [x];
            && NoDup(f) && ByExpiry(expiry[x := h], f)
            && (forall y :: y in f ==> y in pos && Time(expiry[x := h], y) <= h)
            && (forall y :: y in f <==> y == x || (y in side.sort && Some(y) != a))
  {
    hide Added, Without, AliasOf, NoDup, ByExpiry, BySector, Time;
    AddedFacts(pos, side, x);
    FifoLeft(pos, expiry, side.fifo, AliasOf(pos, side, x));
    FifoTail(expiry, Added(pos, side, x).fifo, h, x);
  }

  /** A new request, expiring no sooner than any other. */
  lemma AddedOk(pos: map<Id, nat>, expiry: map<Id, nat>, side: Side, h: nat, x: Id)
    requires SideOk(pos, expiry, side, h) && x !in side.sort && x in pos
    ensures var t := Added(pos, side, x); SideOk(pos, expiry[x := h], t.(fifo := t.fifo + [x]), h)
  {
    hide Added, AliasOf, NoDup, ByExpiry, BySector, Time;
    AddedFacts(pos, side, x);
    AddedFifo(pos, expiry, side, h, x);
  }

  /** Knowing the two directions of `t` is enough. */
  lemma OkFrom(tn: Tunables, t: State, d: Dir, side: Side, other: Side)
    requires Get(t, d) == side && Get(t, Other(d)) == other
    requires SideOk(t.pos, t.expiry, side, t.now + Expire(tn, d)) &&
             SideOk(t.pos, t.expiry, other, t.now + Expire(tn, Other(d)))
    requires (side.next.None? || other.next.None?) && forall x :: x in side.sort ==> x !in other.sort
    ensures Ok(tn, t)
  {
    hide SideOk;
  }

  lemma UnnextedOk(pos: map<Id, nat>, expiry: map<Id, nat>, side: Side, h: nat)
    requires SideOk(pos, expiry, side, h)
    ensures SideOk(pos, expiry, Unnexted(side), h)
  {
  }

  /** Adding to one direction, from the other direction's point of view. */
  lemma OtherOk(pos: map<Id, nat>, expiry: map<Id, nat>, side: Side, other: Side, h: nat, x: Id, a: Option<Id>, t: Side)
    requires SideOk(pos, expiry, other, h) && x !in other.sort && (side.next.None? || other.next.None?)
    requires forall y :: y in side.sort ==> y !in other.sort
    requires (forall y :: y in t.sort ==> y == x || y in side.sort) && (a.None? ==> t.next == side.next)
    ensures var o := if a.Some? then Unnexted(other) else other;
            SideOk(pos, expiry, o, h) && (t.next.None? || o.next.None?) && forall y :: y in t.sort ==> y !in o.sort
  {
    UnnextedOk(pos, expiry, other, h);
    hide SideOk;
  }

  lemma AddOther(tn: Tunables, s: State, d: Dir, x: Id, p: nat)
    requires Both(tn, s, d) && x !in s.pos
    ensures var pos, h := s.pos[x := p], s.now + Expire(tn, d);
            var side, other := Get(s, d), Get(s, Other(d));
            var a, t := AliasOf(pos, side, x), Added(pos, side, x);
            var o := if a.Some? then Unnexted(other) else other;
            && SideOk(pos, s.expiry[x := h], o, s.now + Expire(tn, Other(d)))
            && (t.next.None? || o.next.None?) && forall y :: y in t.sort ==> y !in o.sort
  {
    var pos, h, oh := s.pos[x := p], s.now + Expire(tn, d), s.now + Expire(tn, Other(d));
    var side, other := Get(s, d), Get(s, Other(d));
    SideFrame(s.pos, s.expiry, side, h, x, p, h);
    SideFrame(s.pos, s.expiry, other, oh, x, p, h);
    AddedFacts(pos, side, x);
    hide Added, AliasOf;
    OtherOk(pos, s.expiry[x := h], side, other, oh, x, AliasOf(pos, side, x), Added(pos, side, x));
  }

  lemma AddOk(tn: Tunables, s: State, d: Dir, x: Id, p: nat)
    requires Ok(tn, s) && x !in s.pos
    ensures Ok(tn, Add(tn, s, d, x, p))
  {
    hide AddSorted, Added, Ok, AliasOf, BySector, NoDup, ByExpiry, Time;
    var s1, h := s.(pos := s.pos[x := p]), s.now + Expire(tn, d);
    var side, other := Get(s, d), Get(s, Other(d));
    BothIsOk(tn, s, d);
    AddOther(tn, s, d, x, p);
    SideFrame(s.pos, s.expiry, side, h, x, p, h);
    AddedOk(s1.pos, s.expiry, side, h, x);
    AddSortedIs(s1, d, x);
    var t := Added(s1.pos, side, x);
    OkFrom(tn, Add(tn, s, d, x, p), d, t.(fifo := t.fifo + [x]),
           if AliasOf(s1.pos, side, x).Some? then Unnexted(other) else other);
  }

  /** Repositioning: the sorted list loses `x` first, the FIFO keeps it. */
  function Repositioned(pos: map<Id, nat>, side: Side, x: Id): Side {
    Added(pos, side.(sort := Without(side.sort, x)), x)
  }

  lemma RepositionedFacts(pos: map<Id, nat>, expiry: map<Id, nat>, side: Side, h: nat, x: Id, p: nat)
    requires SideOk(pos, expiry, side, h) && x in side.sort
    ensures var pos', bare := pos[x := p], side.(sort := Without(side.sort, x));
            var a, t := AliasOf(pos', bare, x), Repositioned(pos', side, x);
            && BySector(pos', t.sort) && a != Some(x)
            && (forall y :: y in t.sort <==> y in side.sort && Some(y) != a)
            && t.fifo == (if a.Some? then Without(side.fifo, a.value) else side.fifo)
            && (t.next.Some? ==> t.next.value in t.sort) && (a.None? ==> t.next == side.next)
  {
    var pos', bare := pos[x := p], side.(sort := Without(side.sort, x));
    SectorNoDup(pos, side.sort);
    WithoutKeeps(pos, expiry, side.sort, x);
    forall y ensures y in bare.sort <==> y in side.sort && y != x {
      WithoutIn(side.sort, x, y);
    }
    assert BySector(pos', bare.sort);
    AddedFacts(pos', bare, x);
    hide Added, Without, AliasOf, BySector, NoDup, ByExpiry;
  }

  /** A side that lost at most the alias, still in both orders, is in step. */
  lemma KeptSide(pos: map<Id, nat>, expiry: map<Id, nat>, side: Side, h: nat, pos': map<Id, nat>, a: Option<Id>,
                 t: Side)
    requires SideOk(pos, expiry, side, h) && BySector(pos', t.sort) && pos'.Keys >= pos.Keys
    requires forall y :: y in t.sort <==> y in side.sort && Some(y) != a
    requires NoDup(t.fifo) && ByExpiry(expiry, t.fifo) && forall y :: y in t.fifo <==> y in side.fifo && Some(y) != a
    requires t.next.Some? ==> t.next.value in t.sort
    ensures SideOk(pos', expiry, t, h)
  {
    hide NoDup, BySector, ByExpiry, Time;
  }

  lemma RepositionedOk(pos: map<Id, nat>, expiry: map<Id, nat>, side: Side, h: nat, x: Id, p: nat)
    requires SideOk(pos, expiry, side, h) && x in side.sort
    ensures SideOk(pos[x := p], expiry, Repositioned(pos[x := p], side, x), h)
  {
    hide Repositioned, Without, AliasOf, BySector, NoDup, ByExpiry, Time;
    var a := AliasOf(pos[x := p], side.(sort := Without(side.sort, x)), x);
    RepositionedFacts(pos, expiry, side, h, x, p);
    FifoLeft(pos, expiry, side.fifo, a);
    KeptSide(pos, expiry, side, h, pos[x := p], a, Repositioned(pos[x := p], side, x));
  }

  lemma FrontMergeOk(tn: Tunables, s: State, d: Dir, x: Id, p: nat)
    requires Ok(tn, s) && x in Get(s, d).sort
    ensures Ok(tn, FrontMerge(s, d, x, p))
  {
    hide AddSorted, Added, Ok, AliasOf, BySector, NoDup, ByExpiry, Time, Without;
    var pos', h, oh := s.pos[x := p], s.now + Expire(tn, d), s.now + Expire(tn, Other(d));
    var side, other := Get(s, d), Get(s, Other(d));
    var bare := side.(sort := Without(side.sort, x));
    BothIsOk(tn, s, d);
    RepositionedOk(s.pos, s.expiry, side, h, x, p);
    RepositionedFacts(s.pos, s.expiry, side, h, x, p);
    SideFrame(s.pos, s.expiry, other, oh, x, p, 0);
    var a, t := AliasOf(pos', bare, x), Repositioned(pos', side, x);
    OtherOk(pos', s.expiry, side, other, oh, x, a, t);
    AddSortedIs(Put(s, d, bare).(pos := pos'), d, x);
    OkFrom(tn, FrontMerge(s, d, x, p), d, t, if a.Some? then Unnexted(other) else other);
  }

  // ---- merging requests ------------------------------------------------------------------------

  lemma {:induction false} WithoutSplit(pre: seq<Id>, x: Id, post: seq<Id>)
    requires x !in pre
    ensures Without(pre + [x] + post, x) == pre + post
    decreases |pre|
  {
    var s := pre + [x] + post;
    if pre == [] {
      assert s == [x] + post;
    } else {
      WithoutSplit(pre[1..], x, post);
      assert s[1..] == pre[1..] + [x] + post;
      assert [pre[0]] + (pre[1..] + post) == pre + post;
    }
  }

  lemma {:induction false} IndexAfterIs(pre: seq<Id>, y: Id, post: seq<Id>)
    requires y !in pre
    ensures IndexAfter(pre + [y] + post, y) == |pre| + 1
    decreases |pre|
  {
    if pre != [] {
      IndexAfterIs(pre[1..], y, post);
      assert (pre + [y] + post)[1..] == pre[1..] + [y] + post;
    }
  }

  /** `x`, which stood behind `y`, takes `y`'s place. */
  lemma MoveBehindReplaces(pre: seq<Id>, y: Id, mid: seq<Id>, x: Id, post: seq<Id>)
    requires NoDup(pre + [y] + mid + [x] + post)
    ensures var fifo := pre + [y] + mid + [x] + post; Without(MoveBehind(fifo, x, y), y) == pre + [x] + mid + post
  {
    hide Without, IndexAfter, NoDup;
    Apart(pre, y, mid, x, post);
    WithoutSplit(pre + [y] + mid, x, post);
    var rest := pre + [y] + (mid + post);
    assert pre + [y] + mid + post == rest;
    IndexAfterIs(pre, y, mid + post);
    InsertBehind(pre, y, x, mid + post);
    assert [x] + (mid + post) == [x] + mid + post;
    WithoutSplit(pre, y, [x] + mid + post);
    assert pre + ([x] + mid + post) == pre + [x] + mid + post;
  }

  lemma InsertBehind(pre: seq<Id>, y: Id, x: Id, post: seq<Id>)
    ensures InsertAt(pre + [y] + post, |pre| + 1, x) == pre + [y] + ([x] + post)
  {
  }

  lemma Apart(pre: seq<Id>, y: Id, mid: seq<Id>, x: Id, post: seq<Id>)
    requires NoDup(pre + [y] + mid + [x] + post)
    ensures x !in pre + [y] + mid && y !in pre
  {
    var fifo := pre + [y] + mid + [x] + post;
    var front := pre + [y] + mid;
    forall i | 0 <= i < |front| ensures front[i] != x {
      assert fifo[i] == front[i] && fifo[|front|] == x;
    }
    forall i | 0 <= i < |pre| ensures pre[i] != y {
      assert fifo[i] == pre[i] && fifo[|pre|] == y;
    }
  }

  /** `y` expires first: `x` takes its place and its deadline, so the FIFO stays in order. */
  lemma TakenOver(expiry: map<Id, nat>, pre: seq<Id>, y: Id, mid: seq<Id>, x: Id, post: seq<Id>)
    requires var fifo := pre + [y] + mid + [x] + post; NoDup(fifo) && ByExpiry(expiry, fifo)
    ensures var e, f := expiry[x := Time(expiry, y)], pre + [x] + mid + post;
            && NoDup(f) && ByExpiry(e, f)
            && (forall z :: z in f <==> z in pre + [y] + mid + [x] + post && z != y)
            && (forall z :: z in f ==> Time(e, z) <= Time(expiry, z) || z == x)
  {
    var fifo, f, e := pre + [y] + mid + [x] + post, pre + [x] + mid + post, expiry[x := Time(expiry, y)];
    Apart(pre, y, mid, x, post);
    assert y in pre + [y] + mid;
    forall i, j | 0 <= i < j < |f| ensures f[i] != f[j] && Time(e, f[i]) <= Time(e, f[j]) {
      Stands(pre, y, mid, x, post, i);
      Stands(pre, y, mid, x, post, j);
    }
    forall i | 0 <= i < |f| ensures f[i] in fifo && f[i] != y {
      Stands(pre, y, mid, x, post, i);
    }
    forall z | z in fifo && z != y ensures z in f {
    }
  }

  /** Where the elements of the shortened FIFO stood, and what that says about them. */
  lemma Stands(pre: seq<Id>, y: Id, mid: seq<Id>, x: Id, post: seq<Id>, i: nat)
    requires NoDup(pre + [y] + mid + [x] + post) && i < |pre| + 1 + |mid| + |post|
    ensures var fifo, f := pre + [y] + mid + [x] + post, pre + [x] + mid + post;
            if i == |pre| then f[i] == x && fifo[i] == y
            else if i < |pre| + 1 + |mid| then f[i] == fifo[i] && f[i] != x && f[i] != y
            else f[i] == fifo[i + 1] && f[i] != x && f[i] != y
  {
    var fifo := pre + [y] + mid + [x] + post;
    assert fifo[|pre|] == y && fifo[|pre| + 1 + |mid|] == x;
  }

  /** Two members of an ordered FIFO, the second expiring earlier: it stands in front. */
  lemma Parts(expiry: map<Id, nat>, fifo: seq<Id>, x: Id, y: Id) returns (pre: seq<Id>, mid: seq<Id>, post: seq<Id>)
    requires x in fifo && y in fifo && ByExpiry(expiry, fifo) && Time(expiry, y) < Time(expiry, x)
    ensures fifo == pre + [y] + mid + [x] + post
  {
    var i :| 0 <= i < |fifo| && fifo[i] == x;
    var j :| 0 <= j < |fifo| && fifo[j] == y;
    assert j < i;
    pre, mid, post := fifo[..j], fifo[j + 1..i], fifo[i + 1..];
  }

  /** `deadline_merged_requests` on the direction, with the deadlines it leaves. */
  function Merged(expiry: map<Id, nat>, side: Side, x: Id, y: Id): Side {
    if Time(expiry, y) < Time(expiry, x) then Remove(side.(fifo := MoveBehind(side.fifo, x, y)), y) else Remove(side, y)
  }

  function MergedExpiry(expiry: map<Id, nat>, x: Id, y: Id): map<Id, nat> {
    if Time(expiry, y) < Time(expiry, x) then expiry[x := Time(expiry, y)] else expiry
  }

  lemma MergedOk(pos: map<Id, nat>, expiry: map<Id, nat>, side: Side, h: nat, x: Id, y: Id)
    requires SideOk(pos, expiry, side, h) && x in side.sort && y in side.sort && x != y
    ensures SideOk(pos, MergedExpiry(expiry, x, y), Merged(expiry, side, x, y), h)
    ensures forall z :: z in Merged(expiry, side, x, y).sort <==> z in side.sort && z != y
    ensures side.next.None? ==> Merged(expiry, side, x, y).next.None?
  {
    RemoveOk(pos, expiry, side, h, y);
    if Time(expiry, y) < Time(expiry, x) {
      var pre, mid, post := Parts(expiry, side.fifo, x, y);
      MoveBehindReplaces(pre, y, mid, x, post);
      TakenOver(expiry, pre, y, mid, x, post);
      MergedMoved(pos, expiry, side, h, x, y);
    }
  }

  lemma MergedMoved(pos: map<Id, nat>, expiry: map<Id, nat>, side: Side, h: nat, x: Id, y: Id)
    requires SideOk(pos, expiry, side, h) && SideOk(pos, expiry, Remove(side, y), h) && x in side.sort && y in side.sort
    requires forall z :: z in Remove(side, y).sort <==> z in side.sort && z != y
    requires Time(expiry, y) < Time(expiry, x)
    requires var e, f := expiry[x := Time(expiry, y)], Without(MoveBehind(side.fifo, x, y), y);
             && NoDup(f) && ByExpiry(e, f) && (forall z :: z in f <==> z in side.fifo && z != y)
             && (forall z :: z in f ==> Time(e, z) <= Time(expiry, z) || z == x)
    ensures SideOk(pos, MergedExpiry(expiry, x, y), Merged(expiry, side, x, y), h)
    ensures Merged(expiry, side, x, y).sort == Remove(side, y).sort &&
            Merged(expiry, side, x, y).next == Remove(side, y).next
  {
    hide Without, After, MoveBehind, NoDup, BySector, ByExpiry;
    var t := Merged(expiry, side, x, y);
    forall z ensures z in t.sort <==> z in t.fifo {
    }
    forall z | z in t.fifo ensures z in pos && Time(MergedExpiry(expiry, x, y), z) <= h {
      assert z in side.fifo && y in side.fifo;
    }
  }

  lemma MergeRequestsOk(tn: Tunables, s: State, d: Dir, x: Id, y: Id)
    requires Ok(tn, s) && x in Get(s, d).sort && y in Get(s, d).sort && x != y
    ensures Ok(tn, MergeRequests(s, d, x, y))
  {
    hide Ok, NoDup, BySector, ByExpiry, Remove, MoveBehind;
    var t, o := MergeRequests(s, d, x, y), Other(d);
    BothIsOk(tn, s, d);
    MergedOk(s.pos, s.expiry, Get(s, d), s.now + Expire(tn, d), x, y);
    SideFrame(s.pos, s.expiry, Get(s, o), s.now + Expire(tn, o), x, 0, Time(s.expiry, y));
    OkFrom(tn, t, d, Merged(s.expiry, Get(s, d), x, y), Get(s, o));
  }

  // ---- dispatching ----------------------------------------------------------------------------------

  lemma Later(tn: Tunables, s: State, dt: nat)
    requires Ok(tn, s)
    ensures Ok(tn, s.(now := s.now + dt))
  {
  }

  /** The pick is always a queued request, so the BUG_ONs on empty trees cannot fire. */
  lemma PickQueued(tn: Tunables, s: State)
    requires Ok(tn, s)
    ensures Pick(tn, s).None? <==> Empty(s)
    ensures Pick(tn, s).Some? ==> var (d, x) := Pick(tn, s).value; x in Get(s, d).sort && x in Get(s, d).fifo
    ensures Pick(tn, s).Some? ==> Dispatch(tn, s).out == s.out + [Pick(tn, s).value.1]
  {
    hide Without, After;
  }

  lemma CountersFree(tn: Tunables, s: State, batching: nat, starved: nat)
    ensures Ok(tn, s.(batching := batching, starved := starved)) <==> Ok(tn, s)
  {
    hide SideOk;
  }

  lemma DispatchOk(tn: Tunables, s: State)
    requires Ok(tn, s)
    ensures Ok(tn, Dispatch(tn, s))
  {
    hide Ok, Move;
    if Batches(tn, s) {
      var s1 := s.(batching := s.batching + 1);
      CountersFree(tn, s, s1.batching, s1.starved);
      MoveOk(tn, s1, Next(s).value.0, Next(s).value.1);
    } else if !Empty(s) {
      var s1 := s.(batching := 1, starved := Starved(tn, s));
      CountersFree(tn, s, s1.batching, s1.starved);
      MoveOk(tn, s1, Choose(tn, s), Find(s, Choose(tn, s)));
    }
  }

  lemma ApplyOk(tn: Tunables, s: State, step: Step)
    requires Ok(tn, s)
    ensures Ok(tn, Apply(tn, s, step))
  {
    hide Ok, Add, FrontMerge, MergeRequests, Dispatch;
    match step
    case AddOne(d, x, p) => if x !in s.pos { AddOk(tn, s, d, x, p); }
    case MergeFront(d, x, p) => if x in Get(s, d).sort { FrontMergeOk(tn, s, d, x, p); }
    case MergeTwo(d, x, y) =>
      if x in Get(s, d).sort && y in Get(s, d).sort && x != y { MergeRequestsOk(tn, s, d, x, y); }
    case DispatchOne => DispatchOk(tn, s);
    case Tick(dt) => Later(tn, s, dt);
  }

  /** Every run keeps both indexes of each direction in step and in order, with one batch at most. */
  lemma {:induction false} RunOk(tn: Tunables, now: nat, steps: seq<Step>)
    ensures Ok(tn, Run(tn, Init(now), steps))
    decreases |steps|
  {
    if steps != [] {
      RunOk(tn, now, steps[..|steps| - 1]);
      ApplyOk(tn, Run(tn, Init(now), steps[..|steps| - 1]), steps[|steps| - 1]);
    }
  }

  lemma HeadEarliest(pos: map<Id, nat>, expiry: map<Id, nat>, side: Side, h: nat, x: Id)
    requires SideOk(pos, expiry, side, h) && x in side.sort
    ensures side.fifo != [] && side.fifo[0] in side.sort && Time(expiry, side.fifo[0]) <= Time(expiry, x)
  {
    var i :| 0 <= i < |side.fifo| && side.fifo[i] == x;
    assert side.fifo[0] in side.fifo;
  }

  /** So looking at the head of the FIFO finds an expired request exactly when there is one. */
  lemma HeadTells(tn: Tunables, now: nat, steps: seq<Step>, d: Dir)
    requires Get(Run(tn, Init(now), steps), d).fifo != []
    ensures var s := Run(tn, Init(now), steps);
            HeadExpired(s, d) <==> exists x :: x in Get(s, d).sort && s.now > Time(s.expiry, x)
  {
    hide Run, SideOk, Time;
    RunOk(tn, now, steps);
    var s := Run(tn, Init(now), steps);
    var side, h := Get(s, d), s.now + Expire(tn, d);
    FifoSorted(s.pos, s.expiry, side, h);
    HeadEarliest(s.pos, s.expiry, side, h, side.fifo[0]);
    forall x | x in side.sort ensures Time(s.expiry, side.fifo[0]) <= Time(s.expiry, x) {
      HeadEarliest(s.pos, s.expiry, side, h, x);
    }
  }

  lemma FifoSorted(pos: map<Id, nat>, expiry: map<Id, nat>, side: Side, h: nat)
    requires SideOk(pos, expiry, side, h) && side.fifo != []
    ensures side.fifo[0] in side.sort
  {
    assert side.fifo[0] in side.fifo;
  }

  // ---- starvation ---------------------------------------------------------------------------------------

  function Larger(a: nat, b: nat): nat {
    if a > b then a else b
  }

  function Monus(a: nat, b: nat): nat {
    if a > b then a - b else 0
  }

  /** How many reads can still be picked while a write waits. */
  function Patience(tn: Tunables, s: State): nat {
    Monus(tn.starve, s.starved) * Larger(1, tn.batch) + Monus(Larger(1, tn.batch), s.batching)
  }

  lemma MulMono(a: nat, b: nat, c: nat)
    requires a <= b
    ensures a * c <= b * c
  {
  }

  lemma PatienceBound(tn: Tunables, s: State)
    ensures Patience(tn, s) <= (tn.starve + 1) * Larger(1, tn.batch)
  {
    MulMono(Monus(tn.starve, s.starved), tn.starve, Larger(1, tn.batch));
  }

  lemma CountersKept(s: State, d: Dir, x: Id)
    ensures Same(s, Move(s, d, x)) && Same(s, AddSorted(s, d, x))
  {
    MoveIs(s, d, x);
    AddSortedIs(s, d, x);
  }

  /** Picking a read while a write is queued uses up patience. */
  lemma ReadPickCosts(tn: Tunables, s: State)
    requires s.write.fifo != [] && Pick(tn, s).Some? && Pick(tn, s).value.0.Read?
    ensures Patience(tn, Dispatch(tn, s)) < Patience(tn, s)
  {
    hide Move;
    var b := Larger(1, tn.batch);
    if Batches(tn, s) {
      CountersKept(s.(batching := s.batching + 1), Read, Next(s).value.1);
    } else {
      var w := Monus(tn.starve, s.starved);
      CountersKept(s.(batching := 1, starved := Starved(tn, s)), Read, Find(s, Read));
      assert w >= 1 && Monus(tn.starve, s.starved + 1) == w - 1;
      assert (w - 1) * b + b == w * b;
    }
  }

  /** Nothing else changes the counters. */
  lemma OthersFree(tn: Tunables, s: State, step: Step)
    requires !step.DispatchOne?
    ensures Patience(tn, Apply(tn, s, step)) == Patience(tn, s)
    ensures Apply(tn, s, step).batching == s.batching && Apply(tn, s, step).starved == s.starved
  {
    hide AddSorted, Patience, Remove, MoveBehind, Without;
    match step {
      case AddOne(d, x, p) => CountersKept(s.(pos := s.pos[x := p]), d, x);
      case MergeFront(d, x, p) =>
        CountersKept(Put(s, d, Get(s, d).(sort := Without(Get(s, d).sort, x))).(pos := s.pos[x := p]), d, x);
      case _ =>
    }
    SameCounters(tn, s, Apply(tn, s, step));
  }

  lemma SameCounters(tn: Tunables, s: State, t: State)
    requires t.batching == s.batching && t.starved == s.starved
    ensures Patience(tn, t) == Patience(tn, s)
  {
  }

  function Dispatches(steps: seq<Step>): nat {
    if steps == [] then 0
    else Dispatches(steps[..|steps| - 1]) + (if steps[|steps| - 1].DispatchOne? then 1 else 0)
  }

  /** Every dispatch of the run picks a read, and each time a write is waiting. */
  ghost predicate WritesWait(tn: Tunables, s: State, steps: seq<Step>) {
    forall k :: 0 <= k < |steps| && steps[k].DispatchOne? ==>
      var t := Run(tn, s, steps[..k]);
      t.write.fifo != [] && Pick(tn, t).Some? && Pick(tn, t).value.0.Read?
  }

  lemma {:induction false} WaitCosts(tn: Tunables, s: State, steps: seq<Step>)
    requires WritesWait(tn, s, steps)
    ensures Dispatches(steps) + Patience(tn, Run(tn, s, steps)) <= Patience(tn, s)
    decreases |steps|
  {
    if steps != [] {
      hide Patience, Apply, Pick;
      var n := |steps| - 1;
      var t := Run(tn, s, steps[..n]);
      forall k | 0 <= k < n ensures steps[..n][k] == steps[k] && steps[..n][..k] == steps[..k] {
      }
      WaitCosts(tn, s, steps[..n]);
      StepCosts(tn, t, steps[n]);
    }
  }

  lemma StepCosts(tn: Tunables, s: State, step: Step)
    requires step.DispatchOne? ==> s.write.fifo != [] && Pick(tn, s).Some? && Pick(tn, s).value.0.Read?
    ensures Patience(tn, Apply(tn, s, step)) + (if step.DispatchOne? then 1 else 0) <= Patience(tn, s)
  {
    if step.DispatchOne? { ReadPickCosts(tn, s); } else { OthersFree(tn, s, step); }
  }

  /**
   * From any state, whatever is added, merged or moved aside in between: while
   * a write stays queued, at most `(writes_starved + 1) * max(1, fifo_batch)`
   * reads are picked in a row.
   */
  lemma ReadsBounded(tn: Tunables, s: State, steps: seq<Step>)
    requires WritesWait(tn, s, steps)
    ensures Dispatches(steps) <= (tn.starve + 1) * Larger(1, tn.batch)
  {
    WaitCosts(tn, s, steps);
    PatienceBound(tn, s);
  }
}
