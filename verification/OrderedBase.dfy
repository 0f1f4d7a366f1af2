/** What every step of the ordered sequence keeps, in every ordering mode. */
module OrderedBase {
  import opened Common
  import opened OrderedQueue

  predicate KindId(r: Request) {
    && (r.kind.PreFlush? <==> r.id == PRE_ID)
    && (r.kind.BarProxy? <==> r.id == BAR_ID)
    && (r.kind.PostFlush? <==> r.id == POST_ID)
  }

  /** No request is in two places. */
  ghost predicate Apart(d: seq<Request>, s: seq<Request>, v: set<Request>) {
    && (forall i, j :: 0 <= i < j < |d| ==> d[i].id != d[j].id)
    && (forall i, j :: 0 <= i < j < |s| ==> s[i].id != s[j].id)
    && (forall i, j :: 0 <= i < |d| && 0 <= j < |s| ==> d[i].id != s[j].id)
    && (forall r, i :: r in v && 0 <= i < |d| ==> r.id != d[i].id)
    && (forall r, i :: r in v && 0 <= i < |s| ==> r.id != s[i].id)
    && (forall r, t :: r in v && t in v && r.id == t.id ==> r == t)
  }

  predicate InDispatch(r: Request, nextId: nat) {
    && KindId(r) && r.id < nextId
    && (!r.kind.Fs? ==> r.soft)
    && (r.kind.Fs? && r.hard ==> !r.started)
  }

  predicate InSched(r: Request, nextId: nat) {
    KindId(r) && r.id < nextId && r.kind.Fs? && !r.hard && !r.started
  }

  predicate InDriver(r: Request, nextId: nat) {
    KindId(r) && r.id < nextId && r.started && !(r.kind.Fs? && r.hard)
  }

  /** Every listed request has the shape its place asks for. */
  ghost predicate Shaped(q: Queue) {
    && FIRST_ID <= q.nextId
    && (forall i :: 0 <= i < |q.dispatch| ==> InDispatch(q.dispatch[i], q.nextId))
    && (forall i :: 0 <= i < |q.sched| ==> InSched(q.sched[i], q.nextId))
    && (forall r :: r in q.driver ==> InDriver(r, q.nextId))
  }

  function FsOf(v: set<Request>): set<Request> { set r | r in v && r.IsFs() }

  /** `in_flight` counts the fs requests at the driver. */
  ghost predicate Counted(q: Queue) { q.inFlight == |FsOf(q.driver)| }

  ghost predicate Has(d: seq<Request>, v: set<Request>, id: nat) {
    (exists i :: 0 <= i < |d| && d[i].id == id) || (exists r :: r in v && r.id == id)
  }

  predicate Pending(ordseq: Phases, bit: Phases) { !ordseq.Idle() && !ordseq.Meets(bit) }

  /** A phase bit is clear exactly while its proxy is queued or at the driver. */
  ghost predicate Phased(q: Queue) {
    && (Has(q.dispatch, q.driver, PRE_ID) <==> Pending(q.ordseq, BIT_PREFLUSH))
    && (Has(q.dispatch, q.driver, BAR_ID) <==> Pending(q.ordseq, BIT_BAR))
    && (Has(q.dispatch, q.driver, POST_ID) <==> Pending(q.ordseq, BIT_POSTFLUSH))
  }

  /** The bits and the method of the sequence in progress, if any. */
  predicate Method(ordseq: Phases, ordered: Mode, next: Mode, empty: bool) {
    && LegalMode(next)
    && (!ordseq.Idle() ==>
        && ordseq.started && !ordseq.Full()
        && next != NONE && ordered == Effective(next, empty)
        && ordseq.Includes(SkippedPhases(ordered))
        && (!ordered.byDrain ==> ordseq.drain))
  }

  /** The original of the sequence in progress is on no list; proxies leave only after the drain. */
  ghost predicate Stashed(q: Queue) {
    !q.ordseq.Idle() ==>
      && IsBar(q.orig) && KindId(q.orig) && q.orig.id < q.nextId
      && Fresh(q.dispatch, q.sched, q.driver, q.orig.id)
      && (forall r :: r in q.driver && r.IsProxy() ==> q.ordseq.drain)
  }

  ghost predicate Fresh(d: seq<Request>, s: seq<Request>, v: set<Request>, id: nat) {
    && (forall i :: 0 <= i < |d| ==> d[i].id != id)
    && (forall i :: 0 <= i < |s| ==> s[i].id != id)
    && (forall r :: r in v ==> r.id != id)
  }

  predicate IsBar(r: Request) { r.kind.Fs? && r.hard }

  predicate Odd(n: nat) { n % 2 == 1 }

  /** The queued barriers close the epochs from `lo` up to `hi`, one each, in order. */
  ghost predicate Barriers(d: seq<Request>, lo: nat, hi: nat) {
    && lo <= hi
    && (forall i :: 0 <= i < |d| && IsBar(d[i]) ==> lo <= d[i].epoch < hi && d[i].color == Odd(d[i].epoch))
    && (forall i, j :: 0 <= i < j < |d| && IsBar(d[i]) && IsBar(d[j]) ==> d[i].epoch < d[j].epoch)
    && (forall e :: lo <= e < hi ==> Closed(d, e))
  }

  ghost predicate Closed(d: seq<Request>, e: nat) {
    exists i :: 0 <= i < |d| && IsBar(d[i]) && d[i].epoch == e
  }

  /** The first epoch whose barrier has not begun. */
  function Lowest(q: Queue): nat { q.done + (if !q.ordseq.Idle() then 1 else 0) }

  ghost predicate Epochs(q: Queue) {
    && Barriers(q.dispatch, Lowest(q), q.epoch)
    && q.ordcolor == Odd(q.epoch)
    && (!q.ordseq.Idle() ==> q.orig.epoch == q.done && q.orig.color == Odd(q.done))
  }

  ghost predicate Base(q: Queue) {
    && Apart(q.dispatch, q.sched, q.driver)
    && Shaped(q) && Counted(q) && Phased(q) && Stashed(q) && Epochs(q)
    && Method(q.ordseq, q.ordered, q.nextOrdered, q.orig.sectors == 0)
    && !q.bug
  }

  lemma InitBase(mode: Mode)
    requires LegalMode(mode)
    ensures Base(Init(mode))
  {}

  /** `q` with other lists; everything else as it was. */
  predicate OnlyLists(q: Queue, r: Queue) {
    r == q.(dispatch := r.dispatch, sched := r.sched, endSector := r.endSector, boundary := r.boundary)
  }

  lemma ApartInsert(d: seq<Request>, k: nat, x: Request, s: seq<Request>, v: set<Request>)
    requires Apart(d, s, v) && k <= |d| && Fresh(d, s, v, x.id)
    ensures Apart(InsertAt(d, k, x), s, v)
  {
    var e := InsertAt(d, k, x);
    forall i, j | 0 <= i < j < |e| ensures e[i].id != e[j].id {
      assert e[i] == if i < k then d[i] else if i == k then x else d[i - 1];
      assert e[j] == if j < k then d[j] else if j == k then x else d[j - 1];
    }
  }

  lemma ApartUnsched(d: seq<Request>, s: seq<Request>, v: set<Request>, i: nat)
    requires Apart(d, s, v) && i < |s|
    ensures Apart(d, RemoveAt(s, i), v) && Fresh(d, RemoveAt(s, i), v, s[i].id)
  {}

  lemma ApartTail(d: seq<Request>, s: seq<Request>, v: set<Request>)
    requires Apart(d, s, v) && d != []
    ensures Apart(d[1..], s, v) && Fresh(d[1..], s, v, d[0].id)
  {}

  lemma ApartUndrive(d: seq<Request>, s: seq<Request>, v: set<Request>, r: Request)
    requires Apart(d, s, v) && r in v
    ensures Apart(d, s, v - {r}) && Fresh(d, s, v - {r}, r.id)
  {}

  lemma HasInsert(d: seq<Request>, k: nat, x: Request, v: set<Request>, id: nat)
    requires k <= |d|
    ensures Has(InsertAt(d, k, x), v, id) <==> id == x.id || Has(d, v, id)
  {
    var e := InsertAt(d, k, x);
    assert e[k].id == x.id;
    if i :| 0 <= i < |d| && d[i].id == id {
      assert e[if i < k then i else i + 1].id == id;
    }
    if j :| 0 <= j < |e| && e[j].id == id && j != k {
      assert d[if j < k then j else j - 1].id == id;
    }
  }

  lemma HasInserts(d: seq<Request>, k: nat, x: Request, v: set<Request>)
    requires k <= |d|
    ensures forall id :: Has(InsertAt(d, k, x), v, id) <==> id == x.id || Has(d, v, id)
  {
    forall id ensures Has(InsertAt(d, k, x), v, id) <==> id == x.id || Has(d, v, id) {
      HasInsert(d, k, x, v, id);
    }
  }

  lemma BarriersInsert(d: seq<Request>, k: nat, x: Request, lo: nat, hi: nat)
    requires k <= |d| && !IsBar(x) && Barriers(d, lo, hi)
    ensures Barriers(InsertAt(d, k, x), lo, hi)
  {
    var e := InsertAt(d, k, x);
    forall n | lo <= n < hi ensures Closed(e, n) {
      assert Closed(d, n);
      var i :| 0 <= i < |d| && IsBar(d[i]) && d[i].epoch == n;
      assert IsBar(e[if i < k then i else i + 1]);
    }
    forall i, j | 0 <= i < j < |e| && IsBar(e[i]) && IsBar(e[j]) ensures e[i].epoch < e[j].epoch {
      assert e[i] == if i < k then d[i] else d[i - 1];
      assert e[j] == if j < k then d[j] else d[j - 1];
    }
    forall i | 0 <= i < |e| && IsBar(e[i]) ensures lo <= e[i].epoch < hi && e[i].color == Odd(e[i].epoch) {
      assert e[i] == if i < k then d[i] else d[i - 1];
    }
  }

  lemma BarriersTail(d: seq<Request>, lo: nat, hi: nat)
    requires d != [] && !IsBar(d[0]) && Barriers(d, lo, hi)
    ensures Barriers(d[1..], lo, hi)
  {
    forall n | lo <= n < hi ensures Closed(d[1..], n) {
      assert Closed(d, n);
      var i :| 0 <= i < |d| && IsBar(d[i]) && d[i].epoch == n;
      assert IsBar(d[1..][i - 1]);
    }
  }

  /** A barrier at the head closes the lowest epoch. */
  lemma BarriersPop(d: seq<Request>, lo: nat, hi: nat)
    requires d != [] && IsBar(d[0]) && Barriers(d, lo, hi)
    ensures d[0].epoch == lo && Barriers(d[1..], lo + 1, hi)
  {
    assert Closed(d, lo);
    var k :| 0 <= k < |d| && IsBar(d[k]) && d[k].epoch == lo;
    assert k == 0;
    forall n | lo + 1 <= n < hi ensures Closed(d[1..], n) {
      assert Closed(d, n);
      var i :| 0 <= i < |d| && IsBar(d[i]) && d[i].epoch == n;
      assert IsBar(d[1..][i - 1]);
    }
  }

  lemma BarriersPush(d: seq<Request>, x: Request, lo: nat, hi: nat)
    requires IsBar(x) && x.epoch == hi && x.color == Odd(hi) && Barriers(d, lo, hi)
    ensures Barriers(d + [x], lo, hi + 1)
  {
    var e := d + [x];
    forall n | lo <= n < hi + 1 ensures Closed(e, n) {
      if n == hi {
        assert IsBar(e[|d|]);
      } else {
        assert Closed(d, n);
        var i :| 0 <= i < |d| && IsBar(d[i]) && d[i].epoch == n;
        assert IsBar(e[i]);
      }
    }
  }

  /** Queueing a request that is nowhere else, anywhere in the dispatch list. */
  lemma InsertBase(q: Queue, k: nat, x: Request)
    requires Base(q) && k <= |q.dispatch|
    requires Fresh(q.dispatch, q.sched, q.driver, x.id) && InDispatch(x, q.nextId) && !IsBar(x)
    requires x.id >= FIRST_ID && (!q.ordseq.Idle() ==> x.id != q.orig.id)
    ensures Base(q.(dispatch := InsertAt(q.dispatch, k, x)))
  {
    ApartInsert(q.dispatch, k, x, q.sched, q.driver);
    HasInserts(q.dispatch, k, x, q.driver);
    BarriersInsert(q.dispatch, k, x, Lowest(q), q.epoch);
    var r := q.(dispatch := InsertAt(q.dispatch, k, x));
    forall i | 0 <= i < |r.dispatch| ensures InDispatch(r.dispatch[i], r.nextId) {
      assert r.dispatch[i] == if i < k then q.dispatch[i] else if i == k then x else q.dispatch[i - 1];
    }
  }

  /** Where a moved request lands. */
  function LandsAt(q: Queue, p: Pick): (k: nat)
    requires p.index < |q.sched|
    ensures k <= |q.dispatch|
  {
    if p.tail then |q.dispatch| else SortIndex(q.dispatch, q.sched[p.index], q.endSector)
  }

  lemma MoveLists(q: Queue, p: Pick)
    ensures OnlyLists(q, Move(q, p))
    ensures p.index < |q.sched| ==>
              && Move(q, p).dispatch == InsertAt(q.dispatch, LandsAt(q, p), q.sched[p.index])
              && Move(q, p).sched == RemoveAt(q.sched, p.index)
  {}

  lemma UnschedBase(q: Queue, i: nat)
    requires Base(q) && i < |q.sched|
    ensures Base(q.(sched := RemoveAt(q.sched, i)))
    ensures Fresh(q.dispatch, RemoveAt(q.sched, i), q.driver, q.sched[i].id)
  {
    ApartUnsched(q.dispatch, q.sched, q.driver, i);
  }

  lemma MoveBase(q: Queue, p: Pick)
    requires Base(q)
    ensures Base(Move(q, p)) && OnlyLists(q, Move(q, p))
  {
    MoveLists(q, p);
    if p.index < |q.sched| {
      UnschedBase(q, p.index);
      InsertBase(q.(sched := RemoveAt(q.sched, p.index)), LandsAt(q, p), q.sched[p.index]);
    }
  }

  lemma {:induction false} MovesBase(q: Queue, ps: seq<Pick>)
    requires Base(q)
    ensures Base(Moves(q, ps)) && OnlyLists(q, Moves(q, ps))
    decreases ps
  {
    if ps != [] {
      MoveBase(q, ps[0]);
      MovesBase(Move(q, ps[0]), ps[1..]);
    }
  }

  lemma {:induction false} MovesAll(q: Queue, all: seq<Pick>)
    requires |all| == |q.sched| && forall i :: 0 <= i < |all| ==> all[i].index < |all| - i
    ensures Moves(q, all).sched == []
    decreases all
  {
    if all != [] {
      assert all[0].index < |all|;
      forall i | 0 <= i < |all[1..]| ensures all[1..][i].index < |all[1..]| - i {
        assert all[i + 1].index < |all| - i - 1;
      }
      MovesAll(Move(q, all[0]), all[1..]);
    }
  }

  /** A forced drain leaves nothing held. */
  lemma DrainBase(q: Queue, ps: seq<Pick>)
    requires Base(q)
    ensures Base(Drain(q, ps)) && OnlyLists(q, Drain(q, ps)) && Drain(q, ps).sched == []
  {
    MovesBase(q, DrainOrder(|q.sched|, ps));
    MovesAll(q, DrainOrder(|q.sched|, ps));
  }

  // ---- handing the head to the driver, and taking a request back ----

  lemma FsOfAdd(v: set<Request>, r: Request)
    requires r !in v
    ensures FsOf(v + {r}) == if r.IsFs() then FsOf(v) + {r} else FsOf(v)
    ensures |FsOf(v + {r})| == |FsOf(v)| + (if r.IsFs() then 1 else 0)
  {}

  lemma FsOfSub(v: set<Request>, r: Request)
    requires r in v
    ensures |FsOf(v - {r})| == |FsOf(v)| - (if r.IsFs() then 1 else 0)
  {
    FsOfAdd(v - {r}, r);
    assert v - {r} + {r} == v;
  }

  lemma HasStart(d: seq<Request>, v: set<Request>, id: nat)
    requires d != []
    ensures Has(d[1..], v + {d[0]}, id) <==> Has(d, v, id)
  {
    if i :| 0 <= i < |d| && d[i].id == id {
      if i > 0 { assert d[1..][i - 1].id == id; } else { assert d[0] in v + {d[0]}; }
    }
    if i :| 0 <= i < |d[1..]| && d[1..][i].id == id {
      assert d[i + 1].id == id;
    }
  }

  /** What a granted request may be. */
  ghost predicate Grantable(q: Queue) {
    && q.dispatch != [] && !IsBar(q.dispatch[0])
    && (q.dispatch[0].IsProxy() ==> q.ordseq.drain)
  }

  /** Presence is all that `Phased` and the exclusion of the original depend on. */
  lemma SamePresence(q: Queue, t: Queue)
    requires Phased(q) && t.ordseq == q.ordseq
    requires forall id :: Has(t.dispatch, t.driver, id) <==> Has(q.dispatch, q.driver, id)
    ensures Phased(t)
  {}

  lemma StartPlaces(q: Queue)
    requires q.dispatch != [] && Apart(q.dispatch, q.sched, q.driver)
    ensures var t := Start(q);
            && Apart(t.dispatch, t.sched, t.driver)
            && forall id :: Has(t.dispatch, t.driver, id) <==> Has(q.dispatch, q.driver, id)
  {
    ApartTail(q.dispatch, q.sched, q.driver);
    forall id ensures Has(Start(q).dispatch, Start(q).driver, id) <==> Has(q.dispatch, q.driver, id) {
      HasStart(q.dispatch, q.driver, id);
    }
  }

  lemma StartShaped(q: Queue)
    requires Shaped(q) && Counted(q) && Apart(q.dispatch, q.sched, q.driver)
    requires Grantable(q) && q.dispatch[0].started
    ensures Shaped(Start(q)) && Counted(Start(q))
  {
    FsOfAdd(q.driver, q.dispatch[0]);
  }

  lemma StartStashed(q: Queue)
    requires Stashed(q) && Grantable(q)
    ensures Stashed(Start(q))
  {}

  lemma StartEpochs(q: Queue)
    requires Epochs(q) && Grantable(q)
    ensures Epochs(Start(q))
  {
    BarriersTail(q.dispatch, Lowest(q), q.epoch);
  }

  lemma StartBase(q: Queue)
    requires Base(q) && Grantable(q) && q.dispatch[0].started
    ensures Base(Start(q))
  {
    StartPlaces(q);
    StartShaped(q);
    SamePresence(q, Start(q));
    StartStashed(q);
    StartEpochs(q);
  }

  predicate Marked(q: Queue, m: Queue)
    requires q.dispatch != []
  {
    m == q.(dispatch := [q.dispatch[0].(started := true)] + q.dispatch[1..],
            endSector := m.endSector, boundary := m.boundary)
  }

  lemma MarkPlaces(q: Queue, m: Queue)
    requires q.dispatch != [] && Marked(q, m) && Apart(q.dispatch, q.sched, q.driver)
    ensures Apart(m.dispatch, m.sched, m.driver)
    ensures forall id :: Has(m.dispatch, m.driver, id) <==> Has(q.dispatch, q.driver, id)
  {
    assert forall i :: 0 <= i < |m.dispatch| ==> m.dispatch[i].id == q.dispatch[i].id;
  }

  lemma MarkBarriers(q: Queue, m: Queue, lo: nat, hi: nat)
    requires q.dispatch != [] && Marked(q, m) && Barriers(q.dispatch, lo, hi)
    ensures Barriers(m.dispatch, lo, hi)
  {
    forall e | lo <= e < hi ensures Closed(m.dispatch, e) {
      assert Closed(q.dispatch, e);
      var i :| 0 <= i < |q.dispatch| && IsBar(q.dispatch[i]) && q.dispatch[i].epoch == e;
      assert IsBar(m.dispatch[i]);
    }
  }

  lemma MarkShaped(q: Queue, m: Queue)
    requires Grantable(q) && Marked(q, m) && Shaped(q) && Stashed(q)
    ensures Shaped(m) && Stashed(m)
  {
    assert forall i :: 0 < i < |m.dispatch| ==> m.dispatch[i] == q.dispatch[i];
  }

  lemma MarkBase(q: Queue, m: Queue)
    requires Base(q) && Grantable(q) && Marked(q, m)
    ensures Base(m) && Grantable(m)
  {
    MarkPlaces(q, m);
    MarkBarriers(q, m, Lowest(q), q.epoch);
    SamePresence(q, m);
    MarkShaped(q, m);
  }

  lemma RequeuePlaces(q: Queue, r: Request)
    requires Apart(q.dispatch, q.sched, q.driver) && r in q.driver
    ensures var t := Requeue(q, r);
            && Apart(t.dispatch, t.sched, t.driver)
            && forall id :: Has(t.dispatch, t.driver, id) <==> Has(q.dispatch, q.driver, id)
  {
    var k := RequeuedAt(q, r);
    ApartUndrive(q.dispatch, q.sched, q.driver, r);
    RequeueIs(q, r);
    var x := r.(started := false, soft := true);
    ApartInsert(q.dispatch, k, x, q.sched, q.driver - {r});
    HasInserts(q.dispatch, k, x, q.driver - {r});
  }

  function RequeuedAt(q: Queue, r: Request): (k: nat)
    ensures k <= |q.dispatch|
  {
    if q.ordseq.Idle() then 0
    else RequeueIndex(q.dispatch, q.orig, ReqSeq(q.orig, r.(started := false, soft := true)))
  }

  lemma RequeueIs(q: Queue, r: Request)
    ensures Requeue(q, r) ==
            Settled(q, r).(dispatch := InsertAt(q.dispatch, RequeuedAt(q, r), r.(started := false, soft := true)))
  {}

  lemma RequeueShaped(q: Queue, r: Request)
    requires Shaped(q) && Stashed(q) && Counted(q) && r in q.driver
    ensures Shaped(Requeue(q, r)) && Stashed(Requeue(q, r)) && Counted(Requeue(q, r))
  {
    RequeueIs(q, r);
    FsOfSub(q.driver, r);
    var t := Requeue(q, r);
    var k := RequeuedAt(q, r);
    forall i | 0 <= i < |t.dispatch|
      ensures InDispatch(t.dispatch[i], t.nextId) && (!q.ordseq.Idle() ==> t.dispatch[i].id != q.orig.id)
    {
      assert t.dispatch[i] == if i < k then q.dispatch[i] else if i == k then r.(started := false, soft := true)
                              else q.dispatch[i - 1];
    }
  }

  lemma RequeueBase(q: Queue, r: Request)
    requires Base(q) && r in q.driver
    ensures Base(Requeue(q, r))
  {
    RequeueIs(q, r);
    RequeuePlaces(q, r);
    RequeueShaped(q, r);
    SamePresence(q, Requeue(q, r));
    BarriersInsert(q.dispatch, RequeuedAt(q, r), r.(started := false, soft := true), Lowest(q), q.epoch);
  }

  // ---- completing phases ----

  /** Setting a bit that is clear: which phases stay pending, and when the sequence is over. */
  lemma BitSet(ordseq: Phases, bit: Phases)
    requires ordseq.started && !ordseq.Meets(bit)
    requires OneBit(bit)
    ensures (CurSeq(ordseq.Or(bit)) == SEQ_DONE) == (ordseq.Or(bit).Full())
    ensures Pending(ordseq.Or(bit), BIT_PREFLUSH) <==> bit != BIT_PREFLUSH && Pending(ordseq, BIT_PREFLUSH)
    ensures Pending(ordseq.Or(bit), BIT_BAR) <==> bit != BIT_BAR && Pending(ordseq, BIT_BAR)
    ensures Pending(ordseq.Or(bit), BIT_POSTFLUSH) <==> bit != BIT_POSTFLUSH && Pending(ordseq, BIT_POSTFLUSH)
    ensures ordseq.Or(bit).started
    ensures ordseq.drain ==> ordseq.Or(bit).drain
  {}

  lemma BitsKept(ordseq: Phases, bit: Phases, skip: Phases)
    requires ordseq.Includes(skip)
    ensures ordseq.Or(bit).Includes(skip)
  {}

  /** No proxy is left when every phase bit is set. */
  lemma AllSet(ordseq: Phases, bit: Phases)
    requires ordseq.Or(bit).Full() && OneBit(bit)
    ensures bit != BIT_PREFLUSH ==> !Pending(ordseq, BIT_PREFLUSH)
    ensures bit != BIT_BAR ==> !Pending(ordseq, BIT_BAR)
    ensures bit != BIT_POSTFLUSH ==> !Pending(ordseq, BIT_POSTFLUSH)
  {}

  lemma MethodKept(ordseq: Phases, bit: Phases, ordered: Mode, next: Mode, empty: bool)
    requires Method(ordseq, ordered, next, empty) && !ordseq.Idle() && !ordseq.Meets(bit)
    requires OneBit(bit)
    ensures Method(if ordseq.Or(bit).Full() then IDLE else ordseq.Or(bit), ordered, next, empty)
  {
    BitSet(ordseq, bit);
    BitsKept(ordseq, bit, SkippedPhases(ordered));
  }

  /** The proxy of a phase, by id. */
  function PhaseId(k: Kind): nat {
    match k
    case PreFlush => PRE_ID
    case BarProxy => BAR_ID
    case PostFlush => POST_ID
    case Fs => FIRST_ID
    case Special => FIRST_ID
  }

  /** Every proxy but the one being completed answers to its bit. */
  ghost predicate PhasedBut(q: Queue, bit: Phases) {
    && (bit == BIT_PREFLUSH || (Has(q.dispatch, q.driver, PRE_ID) <==> Pending(q.ordseq, BIT_PREFLUSH)))
    && (bit == BIT_BAR || (Has(q.dispatch, q.driver, BAR_ID) <==> Pending(q.ordseq, BIT_BAR)))
    && (bit == BIT_POSTFLUSH || (Has(q.dispatch, q.driver, POST_ID) <==> Pending(q.ordseq, BIT_POSTFLUSH)))
    && (bit == BIT_PREFLUSH ==> !Has(q.dispatch, q.driver, PRE_ID))
    && (bit == BIT_BAR ==> !Has(q.dispatch, q.driver, BAR_ID))
    && (bit == BIT_POSTFLUSH ==> !Has(q.dispatch, q.driver, POST_ID))
  }

  /** The queue in the middle of completing the phase `bit`. */
  ghost predicate MidPhase(q: Queue, bit: Phases) {
    && OneBit(bit)
    && !q.ordseq.Idle() && !q.ordseq.Meets(bit)
    && Apart(q.dispatch, q.sched, q.driver)
    && Shaped(q) && Counted(q) && PhasedBut(q, bit) && Stashed(q) && Epochs(q)
    && Method(q.ordseq, q.ordered, q.nextOrdered, q.orig.sectors == 0)
    && !q.bug
  }

  /** `t` is `q` with the phase `bit` complete, and the sequence over if that was the last one. */
  predicate PhasedFrom(q: Queue, t: Queue, bit: Phases) {
    t == q.(orderr := t.orderr, log := t.log,
            ordseq := if q.ordseq.Or(bit).Full() then IDLE else q.ordseq.Or(bit),
            done := if q.ordseq.Or(bit).Full() then q.done + 1 else q.done)
  }

  lemma CompleteSeqIs(q: Queue, bit: Phases, error: int)
    requires q.ordseq.started && !q.ordseq.Meets(bit) && !q.bug
    requires OneBit(bit)
    ensures PhasedFrom(q, CompleteSeq(q, bit, error), bit)
  {
    BitSet(q.ordseq, bit);
  }

  lemma PhaseDone(q: Queue, t: Queue, bit: Phases)
    requires MidPhase(q, bit) && PhasedFrom(q, t, bit)
    ensures Phased(t)
  {
    BitSet(q.ordseq, bit);
    if q.ordseq.Or(bit).Full() { AllSet(q.ordseq, bit); }
  }

  lemma PhasedBase(q: Queue, t: Queue, bit: Phases)
    requires MidPhase(q, bit) && PhasedFrom(q, t, bit)
    ensures Base(t)
  {
    PhaseDone(q, t, bit);
    BitSet(q.ordseq, bit);
    MethodKept(q.ordseq, bit, q.ordered, q.nextOrdered, q.orig.sectors == 0);
    assert Stashed(t);
    assert Epochs(t) by { assert Lowest(t) == Lowest(q); }
  }

  lemma PhaseBase(q: Queue, bit: Phases, error: int)
    requires MidPhase(q, bit)
    ensures Base(CompleteSeq(q, bit, error))
  {
    CompleteSeqIs(q, bit, error);
    PhasedBase(q, CompleteSeq(q, bit, error), bit);
  }
}
