/**
 * What the deadline scheduler picks and keeps, read off the run: how long a
 * batch goes on, when writes get their turn, where the next batch request
 * comes from, and that no request is lost.
 */
module DeadlineRuns {
  import opened Common
  import opened Deadline

  // ---- batches and turns, counted from the run ------------------------------------------

  /** Requests picked so far in the batch that is running. */
  function InBatch(tn: Tunables, now: nat, steps: seq<Step>): nat
    decreases |steps|
  {
    if steps == [] then 0
    else
      var pre := steps[..|steps| - 1];
      var s, n := Run(tn, Init(now), pre), InBatch(tn, now, pre);
      if !steps[|steps| - 1].DispatchOne? || Pick(tn, s).None? then n
      else if Next(s).Some? && n < tn.batch then n + 1 else 1
  }

  /** A request is lined up, and the batch may pick it. */
  predicate GoesOn(tn: Tunables, now: nat, steps: seq<Step>) {
    Next(Run(tn, Init(now), steps)).Some? && InBatch(tn, now, steps) < tn.batch
  }

  /** Batches that began with a read past a waiting write, since the last one that began with a write. */
  function PassedOver(tn: Tunables, now: nat, steps: seq<Step>): nat
    decreases |steps|
  {
    if steps == [] then 0
    else
      var pre := steps[..|steps| - 1];
      var s, n := Run(tn, Init(now), pre), PassedOver(tn, now, pre);
      if !steps[|steps| - 1].DispatchOne? || Pick(tn, s).None? || GoesOn(tn, now, pre) then n
      else if Pick(tn, s).value.0.Write? then 0
      else if s.write.fifo != [] then n + 1 else n
  }

  /** The two counters are these counts. */
  lemma {:induction false} CountersTell(tn: Tunables, now: nat, steps: seq<Step>)
    ensures var s := Run(tn, Init(now), steps);
            s.batching == InBatch(tn, now, steps) && s.starved == PassedOver(tn, now, steps)
    decreases |steps|
  {
    if steps != [] {
      var n := |steps| - 1;
      var s := Run(tn, Init(now), steps[..n]);
      CountersTell(tn, now, steps[..n]);
      if steps[n].DispatchOne? { DispatchCounts(tn, s); } else { OthersFree(tn, s, steps[n]); }
    }
  }

  lemma DispatchCounts(tn: Tunables, s: State)
    ensures var t, p, on := Dispatch(tn, s), Pick(tn, s), Next(s).Some? && s.batching < tn.batch;
            && t.batching == (if p.None? then s.batching else if on then s.batching + 1 else 1)
            && t.starved == (if p.None? || on then s.starved else if p.value.0.Write? then 0
                             else if s.write.fifo != [] then s.starved + 1 else s.starved)
  {
    hide Move;
    if Batches(tn, s) {
      CountersKept(s.(batching := s.batching + 1), Next(s).value.0, Next(s).value.1);
    } else if !Empty(s) {
      CountersKept(s.(batching := 1, starved := Starved(tn, s)), Choose(tn, s), Find(s, Choose(tn, s)));
    }
  }

  /** Some queued request of this direction has expired. */
  ghost predicate Expired(s: State, d: Dir) {
    exists y :: y in Get(s, d).sort && s.now > Time(s.expiry, y)
  }

  /**
   * In every reachable state: a batch goes on with the request lined up as long as it has had fewer than `fifo_batch`;
   * a new one begins with a write, if both directions wait, exactly when at least `writes_starved` batches in turn
   * began with a read; and it begins with the request that expires first if one has expired or none is lined up.
   */
  lemma PickExact(tn: Tunables, now: nat, steps: seq<Step>)
    ensures var s := Run(tn, Init(now), steps); var p := Pick(tn, s);
            && (p.None? <==> s.read.fifo == [] && s.write.fifo == [])
            && (GoesOn(tn, now, steps) ==> p.Some? && Some(p.value.1) == Get(s, p.value.0).next)
            && (!GoesOn(tn, now, steps) && p.Some? ==>
                  var (d, x) := p.value;
                  && (s.read.fifo != [] && s.write.fifo != [] ==>
                    (d.Write? <==> PassedOver(tn, now, steps) >= tn.starve))
                  && Get(s, d).fifo != []
                  && (!Expired(s, d) && Get(s, d).next.Some? ==> Some(x) == Get(s, d).next)
                  && (Expired(s, d) || Get(s, d).next.None? ==>
                        forall y :: y in Get(s, d).sort ==> Time(s.expiry, x) <= Time(s.expiry, y)))
  {
    hide Run, InBatch, PassedOver, Ok, SideOk;
    var s := Run(tn, Init(now), steps);
    CountersTell(tn, now, steps);
    RunOk(tn, now, steps);
    PickQueued(tn, s);
    if s.read.fifo != [] { HeadFirst(tn, s, Read); }
    if s.write.fifo != [] { HeadFirst(tn, s, Write); }
  }

  lemma HeadFirst(tn: Tunables, s: State, d: Dir)
    requires Ok(tn, s) && Get(s, d).fifo != []
    ensures var side := Get(s, d);
            && side.fifo[0] in side.sort && (side.next.Some? ==> side.next.value in side.fifo)
            && forall y :: y in side.sort ==> Time(s.expiry, side.fifo[0]) <= Time(s.expiry, y)
  {
    BothIsOk(tn, s, d);
    var side, h := Get(s, d), s.now + Expire(tn, d);
    FifoSorted(s.pos, s.expiry, side, h);
    forall y | y in side.sort ensures Time(s.expiry, side.fifo[0]) <= Time(s.expiry, y) {
      HeadEarliest(s.pos, s.expiry, side, h, y);
    }
  }

  // ---- the request lined up -----------------------------------------------------------------

  /** `y` is the queued request next above `x` on the disk, or there is none. */
  ghost predicate IsLatter(pos: map<Id, nat>, sort: seq<Id>, x: Id, y: Option<Id>) {
    && (y.None? ==> forall z :: z in sort ==> Pos(pos, z) <= Pos(pos, x))
    && (y.Some? ==> y.value in sort && Pos(pos, y.value) > Pos(pos, x))
    && (y.Some? ==> forall z :: z in sort && Pos(pos, z) > Pos(pos, x) ==> Pos(pos, y.value) <= Pos(pos, z))
  }

  lemma {:induction false} AfterIsLatter(pos: map<Id, nat>, sort: seq<Id>, x: Id)
    requires BySector(pos, sort) && x in sort
    ensures IsLatter(pos, sort, x, After(sort, x))
  {
    if sort[0] != x {
      assert BySector(pos, sort[1..]);
      AfterIsLatter(pos, sort[1..], x);
      var i :| 0 <= i < |sort| && sort[i] == x;
      assert Pos(pos, sort[0]) < Pos(pos, sort[i]);
      assert forall z :: z in sort <==> z == sort[0] || z in sort[1..];
    } else {
      assert forall i :: 1 < i < |sort| ==> Pos(pos, sort[1]) < Pos(pos, sort[i]);
      assert forall i :: 0 < i < |sort| ==> Pos(pos, sort[0]) < Pos(pos, sort[i]);
    }
  }

  /** A dispatch lines up the queued request next above the one it took, in that direction only. */
  lemma DispatchLinesUp(tn: Tunables, s: State)
    requires Ok(tn, s) && Pick(tn, s).Some?
    ensures var (d, x) := Pick(tn, s).value; var t := Dispatch(tn, s);
            && IsLatter(s.pos, Get(s, d).sort, x, Get(t, d).next) && Get(t, Other(d)).next.None?
            && t.pos == s.pos && (forall y :: y in Get(t, d).sort <==> y in Get(s, d).sort && y != x)
            && Get(t, Other(d)).sort == Get(s, Other(d)).sort
  {
    hide IsLatter, Move, Moved, Ok, SideOk;
    var (d, x) := Pick(tn, s).value;
    PickQueued(tn, s);
    BothIsOk(tn, s, d);
    SideSorted(s.pos, s.expiry, Get(s, d), s.now + Expire(tn, d));
    AfterIsLatter(s.pos, Get(s, d).sort, x);
    MovedOk(s.pos, s.expiry, Get(s, d), s.now + Expire(tn, d), x);
    MovedNext(s.pos, Get(s, d), x);
    if Batches(tn, s) {
      MoveIs(s.(batching := s.batching + 1), d, x);
    } else {
      MoveIs(s.(batching := 1, starved := Starved(tn, s)), d, x);
    }
  }

  lemma SideSorted(pos: map<Id, nat>, expiry: map<Id, nat>, side: Side, h: nat)
    requires SideOk(pos, expiry, side, h)
    ensures BySector(pos, side.sort) && (side.next.Some? ==> side.next.value in side.sort)
  {
  }

  lemma MovedNext(pos: map<Id, nat>, side: Side, x: Id)
    requires BySector(pos, side.sort) && x in side.sort
    ensures Moved(side, x).next == After(side.sort, x)
  {
    hide BySector;
    AfterIsLatter(pos, side.sort, x);
  }

  /** A request merge leaves the request lined up alone, unless it was the one absorbed: then the next above that. */
  lemma MergeLinesUp(tn: Tunables, s: State, d: Dir, x: Id, y: Id)
    requires Ok(tn, s) && x in Get(s, d).sort && y in Get(s, d).sort && x != y
    ensures var t := MergeRequests(s, d, x, y);
            && (if Get(s, d).next == Some(y) then IsLatter(s.pos, Get(s, d).sort, y, Get(t, d).next)
                else Get(t, d).next == Get(s, d).next)
            && (forall z :: z in Get(t, d).sort <==> z in Get(s, d).sort && z != y)
            && Get(t, Other(d)) == Get(s, Other(d))
  {
    hide IsLatter, Ok, SideOk, Without, MoveBehind, After, BySector;
    BothIsOk(tn, s, d);
    SideSorted(s.pos, s.expiry, Get(s, d), s.now + Expire(tn, d));
    AfterIsLatter(s.pos, Get(s, d).sort, y);
    MergedOk(s.pos, s.expiry, Get(s, d), s.now + Expire(tn, d), x, y);
  }

  // ---- deadlines ------------------------------------------------------------------------------

  /** A request gets its direction's time from now, at the tail of the FIFO. */
  lemma AddExpires(tn: Tunables, s: State, d: Dir, x: Id, p: nat)
    ensures var t := Add(tn, s, d, x, p);
            && Time(t.expiry, x) == s.now + (if d.Read? then tn.expireRead else tn.expireWrite)
            && t.pos == s.pos[x := p] && Get(t, d).fifo != [] && Get(t, d).fifo[|Get(t, d).fifo| - 1] == x
            && forall y :: y != x ==> Time(t.expiry, y) == Time(s.expiry, y)
  {
    hide AddSorted;
    CountersKept(s.(pos := s.pos[x := p]), d, x);
  }

  /** An absorbing request has the earlier of the two deadlines. */
  lemma MergeInherits(s: State, d: Dir, x: Id, y: Id)
    ensures var t, a, b := MergeRequests(s, d, x, y), Time(s.expiry, x), Time(s.expiry, y);
            Time(t.expiry, x) == (if b < a then b else a) && forall z :: z != x ==>
              Time(t.expiry, z) == Time(s.expiry, z)
  {
    hide Remove, MoveBehind;
  }

  // ---- no request is lost -----------------------------------------------------------------------

  function Bit(b: bool): nat {
    if b then 1 else 0
  }

  function Times(q: seq<Id>, x: Id): nat {
    if q == [] then 0 else Times(q[..|q| - 1], x) + Bit(q[|q| - 1] == x)
  }

  /** Where a request is: dispatched, or queued in a direction. */
  function Places(s: State, x: Id): nat {
    Times(s.out, x) + Bit(x in s.read.sort) + Bit(x in s.write.sort)
  }

  /** Requests a run merged into others. */
  function Absorbed(tn: Tunables, now: nat, steps: seq<Step>): set<Id>
    decreases |steps|
  {
    if steps == [] then {}
    else
      var pre, last := steps[..|steps| - 1], steps[|steps| - 1];
      var s := Run(tn, Init(now), pre);
      Absorbed(tn, now, pre) +
      if last.MergeTwo? && last.x in Get(s, last.d).sort && last.y in Get(s, last.d).sort && last.x != last.y
      then {last.y} else {}
  }

  lemma TimesSnoc(q: seq<Id>, y: Id, x: Id)
    ensures Times(q + [y], x) == Times(q, x) + Bit(y == x)
  {
    assert (q + [y])[..|q|] == q;
  }

  /** The alias a new or moved request finds goes to the dispatch queue, and nothing else does. */
  lemma AddSortedOut(s: State, d: Dir, x: Id)
    ensures var a := AliasOf(s.pos, Get(s, d), x);
            AddSorted(s, d, x).out == if a.Some? then s.out + [a.value] else s.out
  {
    hide Alias, Place;
  }

  /** A request not seen before is on neither side. */
  lemma NotYet(tn: Tunables, s: State, x: Id)
    requires Ok(tn, s) && x !in s.pos
    ensures x !in s.read.sort && x !in s.write.sort
  {
  }

  /** What a direction lost to the dispatch queue is there. */
  lemma OneOut(s: State, t: State, d: Dir, a: Option<Id>, z: Id)
    requires t.out == (if a.Some? then s.out + [a.value] else s.out) && Get(t, Other(d)).sort == Get(s, Other(d)).sort
    requires (a.Some? ==> a.value in Get(s, d).sort) && (z in Get(t, d).sort <==> z in Get(s, d).sort && Some(z) != a)
    ensures Places(t, z) == Places(s, z)
  {
    if a.Some? { TimesSnoc(s.out, a.value, z); }
  }

  lemma AddPlaces(tn: Tunables, s: State, d: Dir, x: Id, p: nat, z: Id)
    requires Ok(tn, s) && x !in s.pos
    ensures Places(Add(tn, s, d, x, p), z) == Places(s, z) + Bit(z == x) && Add(tn, s, d, x, p).pos == s.pos[x := p]
  {
    hide AddSorted, Added, Ok, SideOk, AliasOf, BySector, Times;
    var s1, side, h := s.(pos := s.pos[x := p]), Get(s, d), s.now + Expire(tn, d);
    NotYet(tn, s, x);
    BothIsOk(tn, s, d);
    SideFrame(s.pos, s.expiry, side, h, x, p, 0);
    SideSorted(s1.pos, s.expiry, side, h);
    AddedFacts(s1.pos, side, x);
    AddSortedIs(s1, d, x);
    AddSortedOut(s1, d, x);
    var a := AliasOf(s1.pos, side, x);
    if a.Some? { TimesSnoc(s.out, a.value, z); }
  }

  lemma FrontMergePlaces(tn: Tunables, s: State, d: Dir, x: Id, p: nat, z: Id)
    requires Ok(tn, s) && x in Get(s, d).sort
    ensures Places(FrontMerge(s, d, x, p), z) == Places(s, z) && FrontMerge(s, d, x, p).pos == s.pos[x := p] &&
            x in s.pos
  {
    hide AddSorted, Added, Ok, SideOk, AliasOf, BySector, Places, Without;
    var pos', side, h := s.pos[x := p], Get(s, d), s.now + Expire(tn, d);
    var bare := side.(sort := Without(side.sort, x));
    BothIsOk(tn, s, d);
    Known(s.pos, s.expiry, side, h, x);
    RepositionedFacts(s.pos, s.expiry, side, h, x, p);
    var s1, a := Put(s, d, bare).(pos := pos'), AliasOf(pos', bare, x);
    AddSortedIs(s1, d, x);
    AddSortedOut(s1, d, x);
    AliasQueued(s.pos, s.expiry, side, h, x, p);
    OneOut(s, FrontMerge(s, d, x, p), d, a, z);
  }

  lemma Known(pos: map<Id, nat>, expiry: map<Id, nat>, side: Side, h: nat, x: Id)
    requires SideOk(pos, expiry, side, h) && x in side.sort
    ensures x in pos
  {
  }

  lemma AliasQueued(pos: map<Id, nat>, expiry: map<Id, nat>, side: Side, h: nat, x: Id, p: nat)
    requires SideOk(pos, expiry, side, h) && x in side.sort
    ensures var a := AliasOf(pos[x := p], side.(sort := Without(side.sort, x)), x); a.Some? ==> a.value in side.sort
  {
    var sort := Without(side.sort, x);
    var k := Place(pos[x := p], sort, p);
    if k < |sort| { WithoutIn(side.sort, x, sort[k]); }
  }

  lemma MergePlaces(tn: Tunables, s: State, d: Dir, x: Id, y: Id, z: Id)
    requires Ok(tn, s) && x in Get(s, d).sort && y in Get(s, d).sort && x != y
    ensures Places(MergeRequests(s, d, x, y), z) + Bit(z == y) == Places(s, z) && MergeRequests(s, d, x, y).pos == s.pos
    ensures y in s.pos
  {
    hide Remove, MoveBehind, Ok, SideOk, Times;
    BothIsOk(tn, s, d);
    Known(s.pos, s.expiry, Get(s, d), s.now + Expire(tn, d), y);
    MergedOk(s.pos, s.expiry, Get(s, d), s.now + Expire(tn, d), x, y);
    assert y !in Get(s, Other(d)).sort;
  }

  lemma DispatchPlaces(tn: Tunables, s: State, z: Id)
    requires Ok(tn, s)
    ensures Places(Dispatch(tn, s), z) == Places(s, z) && Dispatch(tn, s).pos == s.pos
  {
    hide Dispatch, IsLatter, Ok, Places, Pick;
    PickQueued(tn, s);
    if Pick(tn, s).Some? {
      DispatchLinesUp(tn, s);
      OneOut(s, Dispatch(tn, s), Pick(tn, s).value.0, Some(Pick(tn, s).value.1), z);
    } else {
      NoneLeft(tn, s);
    }
  }

  lemma NoneLeft(tn: Tunables, s: State)
    requires Pick(tn, s).None?
    ensures Dispatch(tn, s) == s
  {
  }

  /** The identities a run added. */
  function Arrived(steps: seq<Step>): set<Id> {
    set k | 0 <= k < |steps| && steps[k].AddOne? :: steps[k].x
  }

  lemma ArrivedMore(steps: seq<Step>)
    requires steps != []
    ensures var n := |steps| - 1;
            Arrived(steps) == Arrived(steps[..n]) + if steps[n].AddOne? then {steps[n].x} else {}
  {
    var n := |steps| - 1;
    forall x | x in Arrived(steps[..n]) ensures x in Arrived(steps) {
      var k :| 0 <= k < n && steps[..n][k].AddOne? && steps[..n][k].x == x;
      assert steps[k].x == x;
    }
    forall x | x in Arrived(steps) && !(steps[n].AddOne? && steps[n].x == x) ensures x in Arrived(steps[..n]) {
      var k :| 0 <= k < |steps| && steps[k].AddOne? && steps[k].x == x;
      assert steps[..n][k].x == x;
    }
  }

  /** In every reachable state each request ever added is in exactly one place: queued, dispatched or absorbed. */
  lemma {:induction false} RunOnce(tn: Tunables, now: nat, steps: seq<Step>, z: Id)
    ensures var s := Run(tn, Init(now), steps);
            && (z in s.pos <==> z in Arrived(steps))
            && Places(s, z) + Bit(z in Absorbed(tn, now, steps)) == Bit(z in Arrived(steps))
    decreases |steps|
  {
    if steps != [] {
      hide Places, Ok, Add, FrontMerge, MergeRequests, Dispatch, Arrived;
      var n := |steps| - 1;
      var s := Run(tn, Init(now), steps[..n]);
      RunOnce(tn, now, steps[..n], z);
      RunOk(tn, now, steps[..n]);
      ArrivedMore(steps);
      match steps[n]
      case AddOne(d, x, p) => if x !in s.pos { AddPlaces(tn, s, d, x, p, z); }
      case MergeFront(d, x, p) => if x in Get(s, d).sort { FrontMergePlaces(tn, s, d, x, p, z); }
      case MergeTwo(d, x, y) =>
        if x in Get(s, d).sort && y in Get(s, d).sort && x != y { MergePlaces(tn, s, d, x, y, z); }
      case DispatchOne => DispatchPlaces(tn, s, z);
      case Tick(dt) => SamePlaces(s, dt, z);
    }
  }

  lemma SamePlaces(s: State, dt: nat, z: Id)
    ensures Places(s.(now := s.now + dt), z) == Places(s, z)
  {
  }
}
