/** On a drain-ordered queue the dispatch list is sorted by epoch and phase; nothing crosses a barrier. */
module OrderedDrain {
  import opened Common
  import opened OrderedQueue
  import opened OrderedBase
  import opened OrderedSteps

  predicate DrainMode(m: Mode) { m == DRAIN || m == DRAIN_FLUSH || m == DRAIN_FUA }

  /** Barrier ordering applies to fs requests and to the proxies. */
  predicate Subject(r: Request) { !r.kind.Special? }

  /** Epoch first, then place within the epoch: requests, preflush, barrier, postflush, next barrier. */
  function Rank(r: Request, done: nat): nat {
    match r.kind
    case PreFlush => done * 8 + 2
    case BarProxy => done * 8 + 3
    case PostFlush => done * 8 + 4
    case Fs => r.epoch * 8 + (if r.hard then 5 else 1)
    case Special => 0
  }

  ghost predicate Sorted(d: seq<Request>, done: nat) {
    forall i, j :: 0 <= i < j < |d| && Subject(d[i]) && Subject(d[j]) ==> Rank(d[i], done) <= Rank(d[j], done)
  }

  /** What orders the queue: its lists, whether a sequence is in progress and drained, and the epochs. */
  datatype Order = Order(d: seq<Request>, s: seq<Request>, v: set<Request>, active: bool, drained: bool,
                         done: nat, epoch: nat)

  function OrderOf(q: Queue): Order {
    Order(q.dispatch, q.sched, q.driver, !q.ordseq.Idle(), !q.ordseq.Idle() && q.ordseq.drain, q.done, q.epoch)
  }

  predicate Colored(r: Request) { r.color == Odd(r.epoch) }

  ghost predicate InEpochs(o: Order) {
    && (forall i :: 0 <= i < |o.d| && o.d[i].kind.Fs? ==> Colored(o.d[i]) && o.done <= o.d[i].epoch <= o.epoch)
    && (forall i :: 0 <= i < |o.s| ==> Colored(o.s[i]) && o.s[i].epoch == o.epoch)
    && (forall r :: r in o.v && r.kind.Fs? ==> Colored(r) && r.epoch == o.done && !o.drained)
    && (o.active ==> forall i :: 0 <= i < |o.d| && o.d[i].kind.Fs? && o.d[i].epoch == o.done ==>
          o.d[i].soft && !o.drained)
  }

  /** What `Base` says about the lists, as far as ordering needs it. */
  ghost predicate Frame(o: Order) {
    && Barriers(o.d, o.done + (if o.active then 1 else 0), o.epoch)
    && (forall i :: 0 <= i < |o.d| ==> (!o.d[i].kind.Fs? ==> o.d[i].soft) && (o.d[i].IsProxy() ==> o.active))
    && (forall i :: 0 <= i < |o.s| ==> o.s[i].kind.Fs? && !o.s[i].hard)
    && (o.drained ==> o.active)
  }

  ghost predicate Ranked(o: Order) { Sorted(o.d, o.done) && InEpochs(o) }

  lemma BaseFrame(q: Queue)
    requires Base(q)
    ensures Frame(OrderOf(q))
  {
    if q.ordseq.Idle() { NoProxies(q); }
  }

  /** Inserting at `k` keeps the list sorted when its neighbours allow it. */
  lemma SortedInsert(d: seq<Request>, k: nat, x: Request, done: nat)
    requires k <= |d| && Sorted(d, done)
    requires Subject(x) ==> forall i :: 0 <= i < k && Subject(d[i]) ==> Rank(d[i], done) <= Rank(x, done)
    requires Subject(x) ==> forall i :: k <= i < |d| && Subject(d[i]) ==> Rank(x, done) <= Rank(d[i], done)
    ensures Sorted(InsertAt(d, k, x), done)
  {
    var e := InsertAt(d, k, x);
    forall i, j | 0 <= i < j < |e| && Subject(e[i]) && Subject(e[j])
      ensures Rank(e[i], done) <= Rank(e[j], done)
    {
      assert e[i] == if i < k then d[i] else if i == k then x else d[i - 1];
      assert e[j] == if j < k then d[j] else if j == k then x else d[j - 1];
    }
  }

  /** A request of the current epoch ranks at least as high as everything queued. */
  lemma NewestRank(o: Order, x: Request, i: nat)
    requires Ranked(o) && Frame(o) && i < |o.d| && Subject(o.d[i])
    requires x.kind.Fs? && x.epoch == o.epoch
    ensures Rank(o.d[i], o.done) <= Rank(x, o.done)
  {
    if o.d[i].kind.Fs? && o.d[i].hard { assert IsBar(o.d[i]); }
  }

  function LowestOf(o: Order): nat { o.done + (if o.active then 1 else 0) }

  /** A request of a closed epoch is followed by the barrier that closes it. */
  lemma BarrierBehind(o: Order, i: nat) returns (j: nat)
    requires Ranked(o) && Frame(o) && i < |o.d|
    requires o.d[i].kind.Fs? && !o.d[i].hard && LowestOf(o) <= o.d[i].epoch < o.epoch
    ensures i < j < |o.d| && IsBar(o.d[j]) && o.d[j].epoch == o.d[i].epoch
  {
    assert Closed(o.d, o.d[i].epoch);
    j :| 0 <= j < |o.d| && IsBar(o.d[j]) && o.d[j].epoch == o.d[i].epoch;
    assert Rank(o.d[i], o.done) < Rank(o.d[j], o.done);
  }

  /** A request of a later epoch is preceded by the barrier of each epoch still open before it. */
  lemma BarrierBefore(o: Order, i: nat, e: nat) returns (j: nat)
    requires Ranked(o) && Frame(o) && i < |o.d|
    requires o.d[i].kind.Fs? && LowestOf(o) <= e < o.d[i].epoch
    ensures j < i && IsBar(o.d[j]) && o.d[j].epoch == e
  {
    assert Closed(o.d, e);
    j :| 0 <= j < |o.d| && IsBar(o.d[j]) && o.d[j].epoch == e;
    assert Rank(o.d[j], o.done) < Rank(o.d[i], o.done);
  }

  /** Everything a sorted insertion passes is of the current epoch: an older request is followed by
      the barrier that closes its epoch, or was requeued, and either stops the walk. */
  lemma PassedIsNewest(o: Order, i: nat)
    requires Ranked(o) && Frame(o) && i < |o.d|
    requires forall j :: i <= j < |o.d| ==> !o.d[j].soft && !o.d[j].hard
    ensures o.d[i].kind.Fs? && o.d[i].epoch == o.epoch
  {
    if LowestOf(o) <= o.d[i].epoch < o.epoch {
      var j := BarrierBehind(o, i);
      assert false;
    }
  }

  lemma MoveRanked(o: Order, n: nat, k: nat, p: Order)
    requires Ranked(o) && Frame(o) && n < |o.s| && k <= |o.d|
    requires forall j :: k <= j < |o.d| ==> !o.d[j].soft && !o.d[j].hard
    requires p == o.(d := InsertAt(o.d, k, o.s[n]), s := RemoveAt(o.s, n))
    ensures Ranked(p)
  {
    var x := o.s[n];
    forall i | 0 <= i < k && Subject(o.d[i]) ensures Rank(o.d[i], o.done) <= Rank(x, o.done) { NewestRank(o, x, i); }
    forall i | k <= i < |o.d| && Subject(o.d[i]) ensures Rank(x, o.done) <= Rank(o.d[i], o.done) {
      PassedIsNewest(o, i);
    }
    SortedInsert(o.d, k, x, o.done);
    assert o.active ==> o.done < o.epoch;
    forall i | 0 <= i < |p.d| ensures p.d[i] == if i < k then o.d[i] else if i == k then x else o.d[i - 1] {}
  }

  lemma MoveOrder(q: Queue, p: Pick)
    requires Base(q) && Ranked(OrderOf(q))
    ensures Ranked(OrderOf(Move(q, p)))
  {
    BaseFrame(q);
    MoveLists(q, p);
    if p.index < |q.sched| {
      MoveRanked(OrderOf(q), p.index, LandsAt(q, p), OrderOf(Move(q, p)));
    }
  }

  lemma {:induction false} MovesOrder(q: Queue, ps: seq<Pick>)
    requires Base(q) && Ranked(OrderOf(q))
    ensures Ranked(OrderOf(Moves(q, ps)))
    decreases ps
  {
    if ps != [] {
      MoveOrder(q, ps[0]);
      MoveBase(q, ps[0]);
      MovesOrder(Move(q, ps[0]), ps[1..]);
    }
  }

  /** Appending a request of the current epoch, or any special request. */
  lemma AppendRanked(o: Order, x: Request, p: Order)
    requires Ranked(o) && Frame(o) && !x.IsProxy()
    requires x.kind.Fs? ==> Colored(x) && x.epoch == o.epoch
    requires p == o.(d := o.d + [x])
    ensures Ranked(p)
  {
    forall i | 0 <= i < |o.d| && Subject(o.d[i]) && Subject(x) ensures Rank(o.d[i], o.done) <= Rank(x, o.done) {
      NewestRank(o, x, i);
    }
    assert InsertAt(o.d, |o.d|, x) == o.d + [x];
    SortedInsert(o.d, |o.d|, x, o.done);
  }

  /** The barrier that closes the current epoch; the scheduler holds nothing. */
  lemma CloseRanked(o: Order, b: Request, p: Order)
    requires Ranked(o) && Frame(o) && o.s == []
    requires IsBar(b) && Colored(b) && b.epoch == o.epoch
    requires p == o.(d := o.d + [b], epoch := o.epoch + 1)
    ensures Ranked(p)
  {
    AppendRanked(o, b, o.(d := o.d + [b]));
  }

  lemma FrontRanked(o: Order, x: Request, p: Order)
    requires Ranked(o) && x.kind.Special? && p == o.(d := [x] + o.d)
    ensures Ranked(p)
  {
    assert InsertAt(o.d, 0, x) == [x] + o.d;
    SortedInsert(o.d, 0, x, o.done);
  }

  // ---- what may be granted ----

  /** The head, if it carries the colour of the epoch in progress, is of that very epoch. */
  lemma HeadEpoch(o: Order)
    requires Ranked(o) && Frame(o) && o.d != [] && o.d[0].kind.Fs?
    requires if o.active then o.d[0].color == Odd(o.done) else !o.d[0].hard
    ensures o.d[0].epoch == o.done
  {
    if LowestOf(o) < o.d[0].epoch {
      var j := BarrierBefore(o, 0, LowestOf(o));
      assert false;
    }
  }

  /** The head is a request the driver may have now: of the epoch in progress, before its drain. */
  predicate Due(o: Order) {
    o.d != [] && (o.d[0].kind.Fs? ==> o.d[0].epoch == o.done && !o.drained)
  }

  lemma HeadDue(o: Order)
    requires Ranked(o) && Frame(o) && o.d != []
    requires o.d[0].kind.Fs? ==> if o.active then o.d[0].color == Odd(o.done) else !o.d[0].hard
    ensures Due(o)
  {
    if o.d[0].kind.Fs? { HeadEpoch(o); }
  }

  ghost predicate Drainable(q: Queue) {
    Base(q) && DrainMode(q.nextOrdered) && Ranked(OrderOf(q))
  }

  lemma NotByTag(ordseq: Phases, ordered: Mode, next: Mode, empty: bool)
    requires Method(ordseq, ordered, next, empty) && DrainMode(next) && !ordseq.Idle()
    ensures !ordered.byTag && ordered.byDrain
  {}

  lemma UndrainedPhase(ordseq: Phases)
    requires ordseq.started
    ensures !ordseq.drain ==> CurSeq(ordseq) == SEQ_DRAIN
    ensures CurSeq(ordseq) == SEQ_DRAIN ==> !ordseq.drain
  {}

  lemma ProxyPending(ordseq: Phases, orig: Request, r: Request)
    requires r.IsProxy() && Pending(ordseq, PhaseOf(r.kind)) && ordseq.started
    ensures CurSeq(ordseq) <= ReqSeq(orig, r)
  {}

  /** The head never belongs to a phase that is over: the WARN_ON of `blk_do_ordered` is quiet. */
  lemma HeadNotPast(q: Queue)
    requires Drainable(q) && !q.ordseq.Idle() && q.dispatch != [] && Subject(q.dispatch[0])
    ensures CurSeq(q.ordseq) <= ReqSeq(q.orig, q.dispatch[0])
  {
    var r := q.dispatch[0];
    assert InDispatch(r, q.nextId);
    if r.IsProxy() {
      assert Has(q.dispatch, q.driver, r.id);
      ProxyPending(q.ordseq, q.orig, r);
    } else if r.color == q.orig.color {
      BaseFrame(q);
      HeadDue(OrderOf(q));
      UndrainedPhase(q.ordseq);
    }
  }

  /** A granted fs request is of the epoch in progress. */
  lemma GrantDue(q: Queue)
    requires Drainable(q) && q.dispatch != [] && !q.ordseq.Idle() && DoOrdered(q).rq.Some?
    ensures Due(OrderOf(q)) && DoOrdered(q).q == q
  {
    NotByTag(q.ordseq, q.ordered, q.nextOrdered, q.orig.sectors == 0);
    var r := q.dispatch[0];
    if Subject(r) { HeadNotPast(q); }
    BaseFrame(q);
    HeadDue(OrderOf(q));
  }

  // ---- starting ----

  lemma NoneInFlight(v: set<Request>)
    requires |FsOf(v)| == 0
    ensures forall r :: r in v ==> !r.IsFs()
  {
    assert forall r :: r in v && r.IsFs() ==> r in FsOf(v);
    assert FsOf(v) == {};
  }

  lemma ProxiesSorted(m: Mode, orig: Request, done: nat)
    ensures Sorted(Proxies(m, orig), done)
    ensures forall i :: 0 <= i < |Proxies(m, orig)| ==>
              Proxies(m, orig)[i].IsProxy() && Rank(Proxies(m, orig)[i], done) <= done * 8 + 4
  {
    var pre, post := FlushRq(PRE_ID, PreFlush), FlushRq(POST_ID, PostFlush);
    assert Rank(pre, done) <= Rank(BarRq(orig), done) <= Rank(post, done) <= done * 8 + 4;
    hide Rank, FlushRq, BarRq;
  }

  /** Behind the barrier that closes the lowest epoch everything is of a later one. */
  lemma BehindBarrier(o: Order)
    requires Ranked(o) && Frame(o) && !o.active && o.d != [] && IsBar(o.d[0])
    ensures o.d[0].epoch == o.done
    ensures forall i :: 0 < i < |o.d| && o.d[i].kind.Fs? ==> o.done < o.d[i].epoch
  {
    BarriersPop(o.d, o.done, o.epoch);
    forall i | 0 < i < |o.d| && o.d[i].kind.Fs? ensures o.done < o.d[i].epoch {
      if IsBar(o.d[i]) { assert o.d[0].epoch < o.d[i].epoch; }
    }
  }

  lemma StartRanked(o: Order, p: seq<Request>, t: Order)
    requires Ranked(o) && Frame(o) && !o.active && o.d != [] && IsBar(o.d[0])
    requires Sorted(p, o.done) && forall i :: 0 <= i < |p| ==> p[i].IsProxy() && Rank(p[i], o.done) <= o.done * 8 + 4
    requires t == o.(d := p + o.d[1..], active := true, drained := t.drained)
    requires t.drained ==> forall r :: r in o.v ==> !r.kind.Fs?
    ensures Ranked(t)
  {
    BehindBarrier(o);
    forall i, j | 0 <= i < j < |t.d| && Subject(t.d[i]) && Subject(t.d[j])
      ensures Rank(t.d[i], o.done) <= Rank(t.d[j], o.done)
    {
      if i >= |p| {
        assert t.d[i] == o.d[i - |p| + 1] && t.d[j] == o.d[j - |p| + 1];
      } else if j >= |p| {
        assert t.d[j] == o.d[j - |p| + 1];
      }
    }
  }

  /** The epoch in progress ends: nothing of it is left. */
  lemma EndRanked(o: Order, t: Order)
    requires Ranked(o) && o.active && o.drained
    requires forall i :: 0 <= i < |o.d| ==> !o.d[i].IsProxy()
    requires t == o.(active := false, drained := false, done := o.done + 1)
    ensures Ranked(t)
  {}

  lemma NoProxyPrefix(m: Mode, orig: Request)
    requires !m.preflush && !m.bar && !m.postflush
    ensures Proxies(m, orig) == []
  {}

  lemma StartedRanked(q: Queue, t: Queue)
    requires Drainable(q) && StartedFrom(q, t)
    ensures Ranked(OrderOf(t))
  {
    BaseFrame(q);
    NoProxies(q);
    var o := OrderOf(q);
    var p := Proxies(t.ordered, q.dispatch[0]);
    ProxiesSorted(t.ordered, q.dispatch[0], q.done);
    var waits := Waits(t.ordered, q.inFlight);
    if !waits {
      assert t.ordered.byDrain;
      NoneInFlight(q.driver);
    }
    var a := o.(d := p + o.d[1..], active := true, drained := !waits);
    StartRanked(o, p, a);
    if t.ordseq.Idle() {
      NoProxyPrefix(t.ordered, q.dispatch[0]);
      EndRanked(a, OrderOf(t));
    }
  }

  lemma InProgressDrain(q: Queue)
    requires Drainable(q) && q.dispatch != [] && !q.ordseq.Idle()
    ensures var v := DoOrdered(q); v.q == q && (v.rq.Some? ==> Due(OrderOf(q)))
  {
    NotByTag(q.ordseq, q.ordered, q.nextOrdered, q.orig.sectors == 0);
    if Subject(q.dispatch[0]) { HeadNotPast(q); }
    if DoOrdered(q).rq.Some? { GrantDue(q); }
  }

  /** A granted proxy is no fs request of any epoch. */
  lemma StartDue(q: Queue)
    requires q.dispatch != [] && StartVerdict(q).rq.Some?
    ensures Due(OrderOf(StartVerdict(q).q))
  {
    ProxiesSorted(Sequenced(q).ordered, q.dispatch[0], q.done);
    assert StartVerdict(q).rq.value == Proxies(Sequenced(q).ordered, q.dispatch[0])[0];
  }

  lemma BarrierHeadDrain(q: Queue)
    requires Drainable(q) && q.dispatch != [] && q.ordseq.Idle() && q.dispatch[0].IsBarrier()
    ensures Ranked(OrderOf(DoOrdered(q).q)) && StartedFrom(q, DoOrdered(q).q)
    ensures DoOrdered(q) == StartVerdict(q)
  {
    assert InDispatch(q.dispatch[0], q.nextId);
    NoProxies(q);
    StartOrderedIs(q);
    StartedRanked(q, DoOrdered(q).q);
  }

  lemma DoOrderedDrain(q: Queue)
    requires Drainable(q) && q.dispatch != []
    ensures var v := DoOrdered(q);
            Drainable(v.q) && v.q.warn == q.warn && (v.rq.Some? ==> Due(OrderOf(v.q)))
  {
    DoOrderedBase(q);
    if !q.ordseq.Idle() {
      InProgressDrain(q);
    } else if q.dispatch[0].IsBarrier() {
      BarrierHeadDrain(q);
      if DoOrdered(q).rq.Some? { StartDue(q); }
    } else {
      BaseFrame(q);
      HeadDue(OrderOf(q));
    }
  }

  lemma {:induction false} NextRequestDrain(q: Queue, calls: seq<seq<Pick>>)
    requires Drainable(q)
    ensures var (n, rq) := NextRequest(q, calls);
            Drainable(n) && n.warn == q.warn && (rq.Some? ==> Due(OrderOf(n)))
    decreases |calls|, |q.dispatch|
  {
    if q.dispatch != [] {
      DoOrderedDrain(q);
      if !DoOrdered(q).stop {
        GoneShrinks(q);
        NextRequestDrain(DoOrdered(q).q, calls);
      }
    } else if calls != [] && |Moves(q, calls[0]).sched| != |q.sched| {
      MovesBase(q, calls[0]);
      MovesOrder(q, calls[0]);
      NextRequestDrain(Moves(q, calls[0]), calls[1..]);
    }
  }

  lemma MarkOrder(o: Order, t: Order)
    requires Ranked(o) && o.d != [] && t == o.(d := [o.d[0].(started := true)] + o.d[1..])
    ensures Ranked(t) && (Due(o) ==> Due(t))
  {
    forall i | 0 <= i < |t.d| ensures t.d[i] == o.d[i].(started := t.d[i].started) {}
  }

  lemma PeekDrain(q: Queue, calls: seq<seq<Pick>>)
    requires Drainable(q)
    ensures var (p, granted) := Peek(q, calls);
            Drainable(p) && p.warn == q.warn && (granted ==> Due(OrderOf(p)))
  {
    NextRequestDrain(q, calls);
    PeekMarks(q, calls);
    PeekBase(q, calls);
    if Peek(q, calls).1 { MarkOrder(OrderOf(NextRequest(q, calls).0), OrderOf(Peek(q, calls).0)); }
  }

  lemma HandRanked(o: Order, t: Order)
    requires Ranked(o) && Due(o) && t == o.(d := o.d[1..], v := o.v + {o.d[0]})
    ensures Ranked(t)
  {}

  lemma FetchDrain(q: Queue, calls: seq<seq<Pick>>)
    requires Drainable(q)
    ensures Drainable(Fetch(q, calls)) && Fetch(q, calls).warn == q.warn
  {
    FetchBase(q, calls);
    PeekDrain(q, calls);
    var p := Peek(q, calls).0;
    if Peek(q, calls).1 { HandRanked(OrderOf(p), OrderOf(Start(p))); }
  }

  // ---- requeue ----

  lemma SeqFloor(orig: Request, r: Request)
    ensures SEQ_DRAIN <= ReqSeq(orig, r) <= SEQ_DONE
    ensures ReqSeq(orig, r) == SEQ_DRAIN <==> r.kind.Special? || (r.kind.Fs? && r.color == orig.color)
    ensures ReqSeq(orig, r) == SEQ_DONE <==> r.kind.Fs? && r.color != orig.color
  {}

  /** Back at the head of the epoch in progress. */
  lemma RequeueFsRanked(o: Order, r: Request, x: Request, t: Order)
    requires Ranked(o) && Frame(o) && r in o.v && r.kind.Fs? && !r.hard
    requires x == r.(started := false, soft := true)
    requires t == o.(d := InsertAt(o.d, 0, x), v := o.v - {r})
    ensures Ranked(t)
  {
    SortedInsert(o.d, 0, x, o.done);
    forall i | 0 < i < |t.d| ensures t.d[i] == o.d[i - 1] {}
  }

  /** Before the first request of a later phase. */
  lemma RequeueProxyRanked(o: Order, orig: Request, r: Request, x: Request, k: nat, t: Order)
    requires Ranked(o) && Frame(o) && o.active && r in o.v && r.IsProxy()
    requires orig.color == Odd(o.done)
    requires x == r.(started := false, soft := true)
    requires k <= |o.d| && forall i :: 0 <= i < k ==> ReqSeq(orig, o.d[i]) < ReqSeq(orig, x)
    requires k < |o.d| ==> ReqSeq(orig, x) <= ReqSeq(orig, o.d[k])
    requires t == o.(d := InsertAt(o.d, k, x), v := o.v - {r})
    ensures Ranked(t)
  {
    forall i | 0 <= i < k && Subject(o.d[i]) ensures Rank(o.d[i], o.done) <= Rank(x, o.done) {
      ProxyBehind(o, orig, x, k, i);
    }
    forall i | k <= i < |o.d| && Subject(o.d[i]) ensures Rank(x, o.done) <= Rank(o.d[i], o.done) {
      SeqFloor(orig, o.d[k]);
      assert Rank(x, o.done) <= Rank(o.d[k], o.done);
    }
    hide Rank, ReqSeq;
    SortedInsert(o.d, k, x, o.done);
    forall i | 0 <= i < |t.d| ensures t.d[i] == if i < k then o.d[i] else if i == k then x else o.d[i - 1] {}
  }

  /** What comes before the proxy in sequence order comes before it in rank. */
  lemma ProxyBehind(o: Order, orig: Request, x: Request, k: nat, i: nat)
    requires Ranked(o) && Frame(o) && o.active && x.IsProxy() && orig.color == Odd(o.done)
    requires i < k <= |o.d| && Subject(o.d[i]) && forall j :: 0 <= j < k ==> ReqSeq(orig, o.d[j]) < ReqSeq(orig, x)
    ensures Rank(o.d[i], o.done) <= Rank(x, o.done)
  {
    SeqFloor(orig, o.d[i]);
    if o.d[i].kind.Fs? && o.done + 1 < o.d[i].epoch {
      var j := BarrierBefore(o, i, o.done + 1);
      assert false;
    }
  }

  lemma RequeueSpecialRanked(o: Order, r: Request, x: Request, k: nat, t: Order)
    requires Ranked(o) && k <= |o.d| && x.kind.Special?
    requires t == o.(d := InsertAt(o.d, k, x), v := o.v - {r})
    ensures Ranked(t)
  {
    SortedInsert(o.d, k, x, o.done);
    forall i | 0 <= i < |t.d| ensures t.d[i] == if i < k then o.d[i] else if i == k then x else o.d[i - 1] {}
  }

  lemma RequeuedFirst(q: Queue, r: Request)
    requires !q.ordseq.Idle() ==> r.color == q.orig.color
    requires r.kind.Fs?
    ensures RequeuedAt(q, r) == 0
  {
    var x := r.(started := false, soft := true);
    SeqFloor(q.orig, x);
    if RequeuedAt(q, r) > 0 { SeqFloor(q.orig, q.dispatch[0]); }
  }

  lemma RequeueOrder(q: Queue, r: Request)
    ensures OrderOf(Requeue(q, r)) ==
            OrderOf(q).(d := InsertAt(q.dispatch, RequeuedAt(q, r), r.(started := false, soft := true)),
                        v := q.driver - {r})
  {
    RequeueIs(q, r);
  }

  lemma RequeueFsDrain(q: Queue, r: Request)
    requires Drainable(q) && r in q.driver && r.kind.Fs?
    ensures Ranked(OrderOf(Requeue(q, r)))
  {
    assert InDriver(r, q.nextId);
    assert Colored(r) && r.epoch == q.done;
    BaseFrame(q);
    RequeuedFirst(q, r);
    RequeueOrder(q, r);
    RequeueFsRanked(OrderOf(q), r, r.(started := false, soft := true), OrderOf(Requeue(q, r)));
  }

  lemma RequeueProxyDrain(q: Queue, r: Request, k: nat, t: Order)
    requires Drainable(q) && r in q.driver && r.IsProxy() && k == RequeuedAt(q, r)
    requires t == OrderOf(q).(d := InsertAt(q.dispatch, k, r.(started := false, soft := true)), v := q.driver - {r})
    ensures Ranked(t)
  {
    BaseFrame(q);
    ProxyPhase(q, r);
    RequeueProxyRanked(OrderOf(q), q.orig, r, r.(started := false, soft := true), k, t);
  }

  lemma RequeueRanked(q: Queue, r: Request)
    requires Drainable(q) && r in q.driver
    ensures Ranked(OrderOf(Requeue(q, r)))
  {
    RequeueOrder(q, r);
    if r.kind.Fs? {
      RequeueFsDrain(q, r);
    } else if r.IsProxy() {
      RequeueProxyDrain(q, r, RequeuedAt(q, r), OrderOf(Requeue(q, r)));
    } else {
      RequeueSpecialRanked(OrderOf(q), r, r.(started := false, soft := true), RequeuedAt(q, r), OrderOf(Requeue(q, r)));
    }
  }

  lemma RequeueDrain(q: Queue, r: Request)
    requires Drainable(q) && r in q.driver
    ensures Drainable(Requeue(q, r)) && Requeue(q, r).warn == q.warn
  {
    RequeueBase(q, r);
    RequeueRanked(q, r);
  }

  // ---- completion ----

  /** The drain ends: with nothing in flight, a head of a later phase means nothing of this epoch is queued. */
  lemma DrainedRanked(o: Order, orig: Request, t: Order)
    requires Ranked(o) && Frame(o) && o.active && orig.color == Odd(o.done)
    requires forall r :: r in o.v ==> !r.kind.Fs?
    requires o.d == [] || ReqSeq(orig, o.d[0]) > SEQ_DRAIN
    requires t == o.(drained := true)
    ensures Ranked(t)
  {
    if o.d != [] {
      SeqFloor(orig, o.d[0]);
      assert Subject(o.d[0]) && Rank(o.d[0], o.done) > o.done * 8 + 1;
      forall i | 0 <= i < |o.d| && o.d[i].kind.Fs? ensures o.done < o.d[i].epoch {
        assert i > 0 ==> Rank(o.d[0], o.done) <= Rank(o.d[i], o.done);
        if IsBar(o.d[i]) { assert o.done + 1 <= o.d[i].epoch; }
      }
    }
  }

  /** No proxy is queued when the last phase completes. */
  lemma LastPhase(q: Queue, bit: Phases)
    requires MidPhase(q, bit) && q.ordseq.Or(bit).Full()
    ensures forall i :: 0 <= i < |q.dispatch| ==> !q.dispatch[i].IsProxy()
  {
    AllSet(q.ordseq, bit);
    forall i | 0 <= i < |q.dispatch| ensures !q.dispatch[i].IsProxy() {
      assert InDispatch(q.dispatch[i], q.nextId);
      assert Has(q.dispatch, q.driver, q.dispatch[i].id);
    }
  }

  lemma PhaseRanked(q: Queue, t: Queue, bit: Phases)
    requires MidPhase(q, bit) && PhasedFrom(q, t, bit)
    requires Ranked(OrderOf(q).(drained := true))
    requires bit == BIT_DRAIN || q.ordseq.drain
    ensures Ranked(OrderOf(t))
  {
    BitSet(q.ordseq, bit);
    var o := OrderOf(q).(drained := true);
    if q.ordseq.Or(bit).Full() {
      LastPhase(q, bit);
      EndRanked(o, OrderOf(t));
    } else {
      assert q.ordseq.Or(bit).drain;
      assert OrderOf(t) == o;
    }
  }

  lemma SettledRanked(o: Order, r: Request)
    requires Ranked(o)
    ensures Ranked(o.(v := o.v - {r}))
  {}

  lemma DrainedDrain(s: Queue)
    requires Drainable(s) && Drained(s)
    ensures Ranked(OrderOf(CompleteSeq(s, BIT_DRAIN, 0)))
  {
    BaseFrame(s);
    NoneInFlight(s.driver);
    DrainPending(s.ordseq);
    DrainedRanked(OrderOf(s), s.orig, OrderOf(s).(drained := true));
    CompleteSeqIs(s, BIT_DRAIN, 0);
    PhaseRanked(s, CompleteSeq(s, BIT_DRAIN, 0), BIT_DRAIN);
  }

  lemma SettledDrain(q: Queue, r: Request)
    requires Drainable(q) && r in q.driver && !r.IsProxy()
    ensures Drainable(Settled(q, r))
  {
    SettledBase(q, r);
    SettledRanked(OrderOf(q), r);
  }

  lemma ElvCompletedDrain(q: Queue, r: Request)
    requires Drainable(q) && r in q.driver && !r.IsProxy()
    ensures Ranked(OrderOf(ElvCompleted(q, r)))
  {
    SettledDrain(q, r);
    if Drained(Settled(q, r)) { DrainedDrain(Settled(q, r)); }
  }

  lemma ProxyDoneRanked(s: Queue, bit: Phases, error: int)
    requires MidPhase(s, bit) && Ranked(OrderOf(s)) && s.ordseq.drain
    ensures Ranked(OrderOf(CompleteSeq(s, bit, error)))
  {
    CompleteSeqIs(s, bit, error);
    PhaseRanked(s, CompleteSeq(s, bit, error), bit);
  }

  lemma CompleteProxyDrain(q: Queue, r: Request, error: int)
    requires Drainable(q) && r in q.driver && r.IsProxy()
    ensures Ranked(OrderOf(Complete(q, r, error)))
  {
    CompleteProxyIs(q, r, error);
    var p := Reported(q, r, error);
    NotedBase(q, p.orderr, p.log);
    ProxyPhase(q, r);
    ProxySettled(p, r);
    SettledRanked(OrderOf(q), r);
    ProxyDoneRanked(Settled(p, r), PhaseOf(r.kind), error);
  }

  lemma CompleteDrain(q: Queue, r: Request, error: int)
    requires Drainable(q) && r in q.driver
    ensures Ranked(OrderOf(Complete(q, r, error)))
  {
    if r.IsProxy() {
      CompleteProxyDrain(q, r, error);
    } else if r.kind.Fs? {
      var n := q.(log := q.log + [Completed(r.id)]);
      NotedBase(q, q.orderr, n.log);
      assert OrderOf(n) == OrderOf(q);
      ElvCompletedDrain(n, r);
    } else {
      ElvCompletedDrain(q, r);
    }
  }

  // ---- adding ----

  lemma BackRanked(n: Queue, r: Request, order: seq<Pick>)
    requires Base(n) && Ranked(OrderOf(n)) && !r.IsProxy() && !IsBar(r)
    requires r.kind.Fs? ==> Colored(r) && r.epoch == n.epoch
    ensures Ranked(OrderOf(Insert(n, r, Back, order)))
  {
    DrainBase(n, order);
    MovesOrder(n, DrainOrder(|n.sched|, order));
    var d := Drain(n, order);
    BaseFrame(d);
    AppendRanked(OrderOf(d), r.(soft := true), OrderOf(Insert(n, r, Back, order)));
  }

  lemma SortRanked(o: Order, r: Request)
    requires Ranked(o) && Colored(r) && r.epoch == o.epoch
    ensures Ranked(o.(s := o.s + [r]))
  {}

  lemma InsertRanked(n: Queue, r: Request, where: Where, order: seq<Pick>)
    requires Base(n) && Ranked(OrderOf(n)) && !r.IsProxy() && !IsBar(r)
    requires r.kind.Fs? ==> Colored(r) && r.epoch == n.epoch
    requires if where.Front? then r.kind.Special? else where.Sort? ==> r.kind.Fs?
    ensures Ranked(OrderOf(Insert(n, r, where, order)))
  {
    match where
    case Front => FrontRanked(OrderOf(n), r.(soft := true), OrderOf(Insert(n, r, where, order)));
    case Back => BackRanked(n, r, order);
    case Sort => SortRanked(OrderOf(n), r);
  }

  lemma BarrierRanked(n: Queue, b: Request, order: seq<Pick>, t: Queue)
    requires Base(n) && Ranked(OrderOf(n)) && ClosedFrom(n, b, order, t)
    requires IsBar(b) && b.epoch == n.epoch && Colored(b)
    ensures Ranked(OrderOf(t))
  {
    DrainBase(n, order);
    MovesOrder(n, DrainOrder(|n.sched|, order));
    var d := Drain(n, order);
    BaseFrame(d);
    CloseRanked(OrderOf(d), b, OrderOf(t));
  }

  lemma RoomRanked(q: Queue, n: Queue)
    requires Drainable(q) && q.nextId <= n.nextId
    requires n == q.(nextId := n.nextId, endSector := n.endSector, boundary := n.boundary, log := n.log)
    ensures Base(n) && Ranked(OrderOf(n)) && n.ordcolor == Odd(n.epoch)
  {
    FreshIdBase(q, n);
    assert OrderOf(n) == OrderOf(q);
  }

  lemma AddSpecialDrain(q: Queue, s: Step)
    requires Drainable(q) && s.AddSpecial?
    ensures var r := Blank(q.nextId, Special).(color := q.ordcolor);
            Ranked(OrderOf(Insert(SpecialRoom(q), r, SpecialWhere(s), s.order)))
  {
    FreshIdBase(q, SpecialRoom(q));
    assert OrderOf(SpecialRoom(q)) == OrderOf(q);
    InsertRanked(SpecialRoom(q), Blank(q.nextId, Special).(color := q.ordcolor), SpecialWhere(s), s.order);
  }

  lemma AddBarrierDrain(q: Queue, s: Step, t: Queue)
    requires Drainable(q) && s.AddBarrier? && ClosedFrom(BarrierRoom(q, s), QueuedBarrier(q, s), s.order, t)
    ensures Ranked(OrderOf(t))
  {
    FreshIdBase(q, BarrierRoom(q, s));
    assert OrderOf(BarrierRoom(q, s)) == OrderOf(q);
    BarrierRanked(BarrierRoom(q, s), QueuedBarrier(q, s), s.order, t);
  }

  lemma FsBackRanked(q: Queue, s: Step)
    requires Drainable(q) && s.AddFs?
    ensures Ranked(OrderOf(Insert(FsRoom(q, s), NewFs(q, s).(color := q.ordcolor), Back, s.order)))
  {
    FsRoomRanked(q, s);
    BackRanked(FsRoom(q, s), NewFs(q, s).(color := q.ordcolor), s.order);
  }

  lemma FsSortRanked(q: Queue, s: Step)
    requires Drainable(q) && s.AddFs?
    ensures Ranked(OrderOf(Insert(FsRoom(q, s), NewFs(q, s).(color := q.ordcolor), Sort, s.order)))
  {
    FsRoomRanked(q, s);
    HeldRanked(FsRoom(q, s), NewFs(q, s).(color := q.ordcolor), s.order);
  }

  lemma HeldRanked(n: Queue, r: Request, order: seq<Pick>)
    requires Ranked(OrderOf(n)) && Colored(r) && r.epoch == n.epoch
    ensures Ranked(OrderOf(Insert(n, r, Sort, order)))
  {
    SortRanked(OrderOf(n), r);
    assert OrderOf(Insert(n, r, Sort, order)) == OrderOf(n).(s := n.sched + [r]);
  }

  lemma FsRoomRanked(q: Queue, s: Step)
    requires Drainable(q) && s.AddFs?
    ensures Base(FsRoom(q, s)) && Ranked(OrderOf(FsRoom(q, s))) && FsRoom(q, s).epoch == q.epoch
    ensures q.ordcolor == Odd(q.epoch)
  {
    RoomRanked(q, FsRoom(q, s));
  }

  lemma ApplyFsRanked(q: Queue, s: Step)
    requires Drainable(q) && s.AddFs?
    ensures Ranked(OrderOf(Apply(q, s)))
  {
    AddFsIs(q, s);
    if FsWhere(s).Back? { FsBackRanked(q, s); } else { FsSortRanked(q, s); }
  }

  lemma ApplyRanked(q: Queue, s: Step)
    requires Drainable(q)
    ensures Ranked(OrderOf(Apply(q, s)))
  {
    hide Base, Ranked, Moves, Peek, Fetch, Complete, Requeue, AddRequest;
    match s
    case AddFs(_, _, _, _, _, _, _) => ApplyFsRanked(q, s);
    case AddBarrier(_, _, _, _) => AddBarrierIs(q, s); AddBarrierDrain(q, s, Apply(q, s));
    case AddSpecial(_, _) => AddSpecialIs(q, s); AddSpecialDrain(q, s);
    case Elevator(picks) => MovesOrder(q, picks);
    case PeekOnly(calls) => PeekDrain(q, calls);
    case FetchOne(calls) => FetchDrain(q, calls);
    case CompleteOne(rq, error) => if rq in q.driver { CompleteDrain(q, rq, error); }
    case RequeueOne(rq) => if rq in q.driver { RequeueDrain(q, rq); }
  }

  // ---- the WARN_ON, and the mode, over a step ----

  predicate SameMode(q: Queue, t: Queue) { t.nextOrdered == q.nextOrdered && t.warn == q.warn }

  lemma {:induction false} MovesMode(q: Queue, ps: seq<Pick>)
    ensures SameMode(q, Moves(q, ps))
    decreases ps
  {
    if ps != [] { MovesMode(Move(q, ps[0]), ps[1..]); }
  }

  lemma InsertMode(n: Queue, r: Request, where: Where, order: seq<Pick>)
    ensures SameMode(n, Insert(n, r, where, order))
  {
    if where.Back? { MovesMode(n, DrainOrder(|n.sched|, order)); }
  }

  /** An empty barrier on a tag-ordered queue drains and has no other phase. */
  lemma TagDrains(ordseq: Phases, ordered: Mode, next: Mode, empty: bool)
    requires Method(ordseq, ordered, next, empty) && !ordseq.Idle() && !DrainMode(next) && !ordered.byTag
    ensures CurSeq(ordseq) == SEQ_DRAIN
  {}

  lemma DoOrderedMode(q: Queue)
    requires Base(q) && q.dispatch != [] && (DrainMode(q.nextOrdered) ==> Ranked(OrderOf(q)))
    ensures SameMode(q, DoOrdered(q).q)
  {
    if DrainMode(q.nextOrdered) {
      DoOrderedDrain(q);
      DoOrderedCases(q);
    } else if !q.ordseq.Idle() {
      SeqFloor(q.orig, q.dispatch[0]);
      if !q.ordered.byTag { TagDrains(q.ordseq, q.ordered, q.nextOrdered, q.orig.sectors == 0); }
    } else {
      DoOrderedCases(q);
    }
  }

  ghost predicate Calm(q: Queue) { Base(q) && (DrainMode(q.nextOrdered) ==> Ranked(OrderOf(q))) }

  lemma {:induction false} NextRequestMode(q: Queue, calls: seq<seq<Pick>>)
    requires Calm(q)
    ensures SameMode(q, NextRequest(q, calls).0)
    decreases |calls|, |q.dispatch|
  {
    if q.dispatch != [] {
      DoOrderedMode(q);
      if !DoOrdered(q).stop {
        GoneShrinks(q);
        DoOrderedBase(q);
        if DrainMode(q.nextOrdered) { DoOrderedDrain(q); }
        NextRequestMode(DoOrdered(q).q, calls);
      }
    } else if calls != [] && |Moves(q, calls[0]).sched| != |q.sched| {
      MovesBase(q, calls[0]);
      MovesMode(q, calls[0]);
      if DrainMode(q.nextOrdered) { MovesOrder(q, calls[0]); }
      NextRequestMode(Moves(q, calls[0]), calls[1..]);
    }
  }

  lemma AddMode(q: Queue, s: Step)
    requires s.AddFs? || s.AddSpecial? || s.AddBarrier?
    ensures SameMode(q, Apply(q, s))
  {
    if s.AddFs? {
      AddFsIs(q, s);
      InsertMode(FsRoom(q, s), NewFs(q, s).(color := q.ordcolor), FsWhere(s), s.order);
    } else if s.AddSpecial? {
      AddSpecialIs(q, s);
      InsertMode(SpecialRoom(q), Blank(q.nextId, Special).(color := q.ordcolor), SpecialWhere(s), s.order);
    } else {
      AddBarrierIs(q, s);
      MovesMode(BarrierRoom(q, s), DrainOrder(|q.sched|, s.order));
    }
  }

  lemma CompleteSeqMode(q: Queue, bits: Phases, error: int)
    ensures SameMode(q, CompleteSeq(q, bits, error))
  {}

  lemma ElvCompletedMode(q: Queue, r: Request)
    ensures SameMode(q, ElvCompleted(q, r))
  {
    CompleteSeqMode(Settled(q, r), BIT_DRAIN, 0);
  }

  lemma CompleteMode(q: Queue, r: Request, error: int)
    ensures SameMode(q, Complete(q, r, error))
  {
    if r.IsProxy() {
      CompleteProxyIs(q, r, error);
      ElvCompletedMode(Reported(q, r, error), r);
      CompleteSeqMode(ElvCompleted(Reported(q, r, error), r), PhaseOf(r.kind), error);
    } else {
      ElvCompletedMode(if r.kind.Fs? then q.(log := q.log + [Completed(r.id)]) else q, r);
    }
  }

  lemma ApplyMode(q: Queue, s: Step)
    requires Calm(q)
    ensures SameMode(q, Apply(q, s))
  {
    match s
    case Elevator(picks) => MovesMode(q, picks);
    case PeekOnly(calls) => NextRequestMode(q, calls); PeekMarks(q, calls);
    case FetchOne(calls) => NextRequestMode(q, calls); PeekMarks(q, calls);
    case CompleteOne(rq, error) => CompleteMode(q, rq, error);
    case RequeueOne(rq) =>
    case _ => AddMode(q, s);
  }

  lemma ApplyCalm(q: Queue, s: Step)
    requires Calm(q)
    ensures Calm(Apply(q, s)) && SameMode(q, Apply(q, s))
  {
    ApplyBase(q, s);
    ApplyMode(q, s);
    if DrainMode(q.nextOrdered) { ApplyRanked(q, s); }
  }

  /** In every run and every ordering mode the WARN_ON of `blk_do_ordered` is quiet; on a
      drain-ordered queue the dispatch list stays sorted by epoch and phase. */
  lemma {:induction false} RunCalm(mode: Mode, steps: seq<Step>)
    requires LegalMode(mode)
    ensures var q := Run(Init(mode), steps);
            Calm(q) && q.nextOrdered == mode && !q.warn && !q.bug
    decreases |steps|
  {
    if steps == [] {
      InitBase(mode);
    } else {
      RunCalm(mode, steps[..|steps| - 1]);
      ApplyCalm(Run(Init(mode), steps[..|steps| - 1]), steps[|steps| - 1]);
    }
  }

  /** A proxy granted on a drain-ordered queue is the proxy of the current phase. */
  lemma ProxyInTurn(q: Queue)
    requires Drainable(q) && !q.ordseq.Idle() && q.dispatch != [] && q.dispatch[0].IsProxy()
    ensures DoOrdered(q).rq.Some? <==> ReqSeq(q.orig, q.dispatch[0]) == CurSeq(q.ordseq)
  {
    NotByTag(q.ordseq, q.ordered, q.nextOrdered, q.orig.sectors == 0);
    HeadNotPast(q);
  }
}
