/** The deadline scheduler's code on its `deadline_data`, proved to compute the steps of `Deadline`. */
module DeadlineCode {
  import opened Common
  import opened Deadline

  class DeadlineData {
    const tunables: Tunables
    var read: Side
    var write: Side
    var batching: nat
    var starved: nat
    var pos: map<Id, nat>
    var expiry: map<Id, nat>
    var now: nat
    var out: seq<Id>

    function View(): Deadline.State
      reads this
    {
      Deadline.State.State(read, write, batching, starved, pos, expiry, now, out)
    }

    constructor (tn: Tunables, jiffies: nat)
      ensures tunables == tn && View() == Init(jiffies)
    {
      tunables := tn;
      read, write, batching, starved, pos, expiry, now, out := EMPTY, EMPTY, 0, 0, map[], map[], jiffies, [];
    }

    method SetSide(d: Dir, side: Side)
      modifies `read, `write
      ensures View() == Put(old(View()), d, side)
    {
      if d.Read? {
        read := side;
      } else {
        write := side;
      }
    }

    /** `deadline_remove_request`: off the FIFO, `next_rq` on to the latter request, off the tree. */
    method RemoveRequest(d: Dir, x: Id)
      modifies `read, `write
      ensures View() == Put(old(View()), d, Remove(Get(old(View()), d), x))
    {
      hide Without, After;
      var side := Get(View(), d);
      var fifo := Without(side.fifo, x);
      var next := side.next;
      if next == Some(x) {
        next := After(side.sort, x);
      }
      SetSide(d, Side(Without(side.sort, x), fifo, next));
    }

    /** `deadline_move_request` */
    method MoveRequest(d: Dir, x: Id)
      modifies `read, `write, `out
      ensures View() == Move(old(View()), d, x)
    {
      hide Without, After, Remove;
      var latter := After(Get(View(), d).sort, x);
      read := read.(next := None);
      write := write.(next := None);
      SetSide(d, Get(View(), d).(next := latter));
      RemoveRequest(d, x);
      out := out + [x];
    }

    /** `elv_rb_add`: the request already at that sector, or nothing and `x` in its place. */
    method RbAdd(d: Dir, x: Id) returns (alias: Option<Id>)
      modifies `read, `write
      ensures alias == AliasOf(pos, Get(old(View()), d), x)
      ensures View() == if alias.Some? then old(View()) else
                         var side := Get(old(View()), d);
                         Put(old(View()), d, side.(sort := InsertAt(side.sort, Place(pos, side.sort, Pos(pos, x)), x)))
    {
      var side := Get(View(), d);
      var p := Pos(pos, x);
      var k := 0;
      while k < |side.sort| && Pos(pos, side.sort[k]) < p
        invariant k <= |side.sort| && Place(pos, side.sort, p) == k + Place(pos, side.sort[k..], p)
      {
        k := k + 1;
      }
      if k < |side.sort| && Pos(pos, side.sort[k]) == p {
        return Some(side.sort[k]);
      }
      SetSide(d, side.(sort := InsertAt(side.sort, k, x)));
      return None;
    }

    /** `deadline_add_rq_rb` */
    method AddRqRb(d: Dir, x: Id)
      requires BySector(pos, Get(View(), d).sort)
      modifies `read, `write, `out
      ensures View() == AddSorted(old(View()), d, x)
    {
      hide Move, Place, BySector;
      ghost var s := View();
      var alias := RbAdd(d, x);
      if alias.Some? {
        SecondTry(s, d, x);
      }
      while alias.Some?
        invariant alias.Some? ==> View() == s && alias == AliasOf(s.pos, Get(s, d), x)
        invariant alias.None? ==> View() == AddSorted(s, d, x)
        decreases alias.Some?
      {
        MoveRequest(d, alias.value);
        alias := RbAdd(d, x);
      }
    }

    /** `deadline_add_request` */
    method AddRequest(d: Dir, x: Id, p: nat)
      requires Ok(tunables, View()) && x !in pos
      modifies `read, `write, `out, `pos, `expiry
      ensures View() == Add(tunables, old(View()), d, x, p)
    {
      hide AddSorted;
      StillSorted(tunables, View(), d, x, p);
      pos := pos[x := p];
      AddRqRb(d, x);
      expiry := expiry[x := now + Expire(tunables, d)];
      var side := Get(View(), d);
      SetSide(d, side.(fifo := side.fifo + [x]));
    }

    /** `deadline_merged_request`, after the merge moved the request's start to `p`. */
    method FrontMerged(d: Dir, x: Id, p: nat)
      requires Ok(tunables, View()) && x in Get(View(), d).sort
      modifies `read, `write, `out, `pos
      ensures View() == FrontMerge(old(View()), d, x, p)
    {
      hide AddSorted, Without;
      SortedWithout(tunables, View(), d, x, p);
      var side := Get(View(), d);
      SetSide(d, side.(sort := Without(side.sort, x)));
      pos := pos[x := p];
      AddRqRb(d, x);
    }

    /** `deadline_merged_requests` */
    method MergedRequests(d: Dir, x: Id, y: Id)
      modifies `read, `write, `expiry
      ensures View() == MergeRequests(old(View()), d, x, y)
    {
      hide Remove, MoveBehind;
      if Time(expiry, y) < Time(expiry, x) {
        var side := Get(View(), d);
        SetSide(d, side.(fifo := MoveBehind(side.fifo, x, y)));
        expiry := expiry[x := Time(expiry, y)];
      }
      RemoveRequest(d, y);
    }

    /**
     * The selection at `dispatch_find_request`: the request that expires first if any has expired or the batch is at
     * its end, else the batch's next.
     */
    method FindRequest(d: Dir) returns (x: Id)
      requires Ok(tunables, View()) && Get(View(), d).fifo != []
      ensures x == Find(View(), d) && x in Get(View(), d).sort && x in Get(View(), d).fifo
      ensures Get(View(), d).next.None? || Expired(d) ==>
                forall y :: y in Get(View(), d).sort ==> Time(expiry, x) <= Time(expiry, y)
      ensures Expired(d) ==> now > Time(expiry, x)
      ensures !Expired(d) && Get(View(), d).next.Some? ==> Some(x) == Get(View(), d).next
    {
      var side := Get(View(), d);
      HeadFirst(tunables, View(), d);
      if now > Time(expiry, side.fifo[0]) || side.next.None? {
        x := side.fifo[0];
      } else {
        x := side.next.value;
      }
    }

    /** Some queued request of this direction has expired. */
    ghost predicate Expired(d: Dir)
      reads this
    {
      exists y :: y in Get(View(), d).sort && now > Time(expiry, y)
    }

    /** `deadline_dispatch_requests`; its BUG_ONs on an empty tree are the assertions. */
    method DispatchRequests() returns (n: nat)
      requires Ok(tunables, View())
      modifies `read, `write, `out, `batching, `starved
      ensures View() == Dispatch(tunables, old(View()))
      ensures n == if Pick(tunables, old(View())).Some? then 1 else 0
    {
      hide Move, Ok, Expired;
      var hasReads, hasWrites := read.fifo != [], write.fifo != [];
      var d: Dir, x: Id;
      if write.next.Some? {
        d, x := Write, write.next.value;
      } else if read.next.Some? {
        d, x := Read, read.next.value;
      } else {
        d, x := Read, 0;
      }
      if !(write.next.Some? || read.next.Some?) || batching >= tunables.batch {
        var chosen := false;
        if hasReads {
          assert read.sort != [] by { TreeNonempty(tunables, View(), Read); }
          if hasWrites {
            chosen := starved >= tunables.starve;
            starved := starved + 1;
          }
        }
        if hasReads && !chosen {
          d := Read;
        } else if hasWrites {
          assert write.sort != [] by { TreeNonempty(tunables, old(View()), Write); }
          starved := 0;
          d := Write;
        } else {
          return 0;
        }
        OkAnyway(tunables, old(View()), View());
        x := FindRequest(d);
        batching := 0;
      }
      batching := batching + 1;
      MoveRequest(d, x);
      return 1;
    }
  }

  lemma HeadFirst(tn: Tunables, s: Deadline.State, d: Dir)
    requires Ok(tn, s) && Get(s, d).fifo != []
    ensures var side := Get(s, d);
            && side.fifo[0] in side.sort && (side.next.Some? ==> side.next.value in side.fifo)
            && forall y :: y in side.sort ==> Time(s.expiry, side.fifo[0]) <= Time(s.expiry, y)
  {
    BothIsOk(tn, s, d);
    var side, h := Get(s, d), s.now + Expire(tn, d);
    FifoSorted(s.pos, s.expiry, side, h);
    forall y | y in side.sort ensures Time(s.expiry, side.fifo[0]) <= Time(s.expiry, y) {
      HeadEarliest(s.pos, s.expiry, side, h, y);
    }
  }

  /** The invariant does not look at the counters. */
  lemma OkAnyway(tn: Tunables, s: Deadline.State, t: Deadline.State)
    requires Ok(tn, s) && t == s.(batching := t.batching, starved := t.starved)
    ensures Ok(tn, t)
  {
  }

  lemma TreeNonempty(tn: Tunables, s: Deadline.State, d: Dir)
    requires Ok(tn, s) && Get(s, d).fifo != []
    ensures Get(s, d).sort != []
  {
    assert Get(s, d).fifo[0] in Get(s, d).fifo;
  }

  /** Once the alias is out of the way the second try succeeds. */
  lemma SecondTry(s: Deadline.State, d: Dir, x: Id)
    requires BySector(s.pos, Get(s, d).sort) && AliasOf(s.pos, Get(s, d), x).Some?
    ensures var t := Move(s, d, AliasOf(s.pos, Get(s, d), x).value);
            t.pos == s.pos && AliasOf(t.pos, Get(t, d), x).None?
  {
    AliasGone(s.pos, Get(s, d).sort, Pos(s.pos, x));
    MoveIs(s, d, AliasOf(s.pos, Get(s, d), x).value);
  }

  lemma StillSorted(tn: Tunables, s: Deadline.State, d: Dir, x: Id, p: nat)
    requires Ok(tn, s) && x !in s.pos
    ensures BySector(s.pos[x := p], Get(s, d).sort)
  {
    BothIsOk(tn, s, d);
    SideFrame(s.pos, s.expiry, Get(s, d), s.now + Expire(tn, d), x, p, 0);
  }

  lemma SortedWithout(tn: Tunables, s: Deadline.State, d: Dir, x: Id, p: nat)
    requires Ok(tn, s)
    ensures BySector(s.pos[x := p], Without(Get(s, d).sort, x))
  {
    var sort := Get(s, d).sort;
    var t := Without(sort, x);
    BothIsOk(tn, s, d);
    SectorNoDup(s.pos, sort);
    WithoutKeeps(s.pos, s.expiry, sort, x);
    hide Without, SideOk;
    forall i, j | 0 <= i < j < |t| ensures Pos(s.pos[x := p], t[i]) < Pos(s.pos[x := p], t[j]) {
      WithoutIn(sort, x, t[i]);
      WithoutIn(sort, x, t[j]);
    }
  }
}
