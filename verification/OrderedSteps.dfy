/** Every operation of the queue keeps `Base`, so no BUG_ON of the ordered sequence can fire. */
module OrderedSteps {
  import opened Common
  import opened OrderedQueue
  import opened OrderedBase

  // ---- completion ----

  lemma HasUndrive(d: seq<Request>, v: set<Request>, r: Request, id: nat)
    requires id != r.id
    ensures Has(d, v - {r}, id) <==> Has(d, v, id)
  {
    if x :| x in v && x.id == id { assert x in v - {r}; }
  }

  /** What taking `r` from the driver leaves true. */
  lemma SettledParts(q: Queue, r: Request)
    requires Base(q) && r in q.driver
    ensures var s := Settled(q, r);
            && Apart(s.dispatch, s.sched, s.driver) && Shaped(s) && Counted(s) && Stashed(s) && Epochs(s)
            && !Has(s.dispatch, s.driver, r.id)
            && forall id :: id != r.id ==> (Has(s.dispatch, s.driver, id) <==> Has(q.dispatch, q.driver, id))
  {
    ApartUndrive(q.dispatch, q.sched, q.driver, r);
    FsOfSub(q.driver, r);
    forall id | id != r.id
      ensures Has(q.dispatch, q.driver - {r}, id) <==> Has(q.dispatch, q.driver, id)
    {
      HasUndrive(q.dispatch, q.driver, r, id);
    }
  }

  lemma SettledBase(q: Queue, r: Request)
    requires Base(q) && r in q.driver && !r.IsProxy()
    ensures Base(Settled(q, r))
  {
    SettledParts(q, r);
  }

  lemma DrainPending(ordseq: Phases)
    ensures CurSeq(ordseq) == SEQ_DRAIN ==> !ordseq.drain && !ordseq.Idle()
  {}

  lemma ElvCompletedBase(q: Queue, r: Request)
    requires Base(q) && r in q.driver && !r.IsProxy()
    ensures Base(ElvCompleted(q, r))
  {
    SettledBase(q, r);
    if Drained(Settled(q, r)) {
      DrainPending(q.ordseq);
      PhaseBase(Settled(q, r), BIT_DRAIN, 0);
    }
  }

  /** A proxy at the driver: its own phase is pending and the drain is over. */
  lemma ProxyPhase(q: Queue, r: Request)
    requires Base(q) && r in q.driver && r.IsProxy()
    ensures !q.ordseq.Idle() && !q.ordseq.Meets(PhaseOf(r.kind)) && q.ordseq.drain
    ensures CurSeq(q.ordseq) != SEQ_DRAIN
    ensures ProxyBit(PhaseOf(r.kind))
    ensures r.id == PhaseId(r.kind)
  {
    assert InDriver(r, q.nextId);
    assert Has(q.dispatch, q.driver, r.id);
    DrainPending(q.ordseq);
  }

  lemma ProxySettled(q: Queue, r: Request)
    requires Base(q) && r in q.driver && r.IsProxy()
    ensures MidPhase(Settled(q, r), PhaseOf(r.kind))
    ensures ElvCompleted(q, r) == Settled(q, r)
  {
    ProxyPhase(q, r);
    SettledParts(q, r);
  }

  /** The bookkeeping of the model does not matter to `Base`. */
  lemma NotedBase(q: Queue, orderr: int, log: seq<Event>)
    requires Base(q)
    ensures Base(q.(orderr := orderr, log := log))
  {}

  lemma ProxyCompleteBase(q: Queue, r: Request, error: int)
    requires Base(q) && r in q.driver && r.IsProxy()
    ensures Base(CompleteSeq(ElvCompleted(q, r), PhaseOf(r.kind), error))
  {
    ProxySettled(q, r);
    PhaseBase(Settled(q, r), PhaseOf(r.kind), error);
  }

  /** The queue as the end of the barrier proxy's bios leaves it: the error noted. */
  function Reported(q: Queue, r: Request, error: int): Queue {
    var noted := q.(log := q.log + [ProxyDone(q.orig.id, r.kind, error)]);
    if r.kind.BarProxy? then Record(noted, error) else noted
  }

  lemma CompleteProxyIs(q: Queue, r: Request, error: int)
    requires r.IsProxy()
    ensures Complete(q, r, error) ==
            CompleteSeq(ElvCompleted(Reported(q, r, error), r), PhaseOf(r.kind), error)
  {}

  lemma CompleteBase(q: Queue, r: Request, error: int)
    requires Base(q) && r in q.driver
    ensures Base(Complete(q, r, error))
  {
    hide Base;
    if r.IsProxy() {
      CompleteProxyIs(q, r, error);
      var p := Reported(q, r, error);
      NotedBase(q, p.orderr, p.log);
      ProxyCompleteBase(p, r, error);
    } else if r.kind.Fs? {
      NotedBase(q, q.orderr, q.log + [Completed(r.id)]);
      ElvCompletedBase(q.(log := q.log + [Completed(r.id)]), r);
    } else {
      ElvCompletedBase(q, r);
    }
  }

  // ---- starting a sequence ----

  lemma StartBits(next: Mode, empty: bool, wait: bool)
    requires LegalMode(next) && next != NONE
    requires wait ==> Effective(next, empty).byDrain
    ensures var m := Effective(next, empty);
            var skip := SkippedPhases(m).Or(if wait then IDLE else BIT_DRAIN);
            var ordseq := if Over(BIT_STARTED, skip) then IDLE else BIT_STARTED.Or(skip);
            && !BIT_STARTED.Meets(skip)
            && Method(ordseq, m, next, empty)
            && (Pending(ordseq, BIT_PREFLUSH) <==> m.preflush)
            && (Pending(ordseq, BIT_BAR) <==> m.bar)
            && (Pending(ordseq, BIT_POSTFLUSH) <==> m.postflush)
            && (!ordseq.Idle() && !wait ==> ordseq.drain)
            && (wait ==> !ordseq.Idle())
  {}

  /** Requests embedded in the queue, each at most once. */
  ghost predicate Embedded(p: seq<Request>, nextId: nat) {
    && (forall i :: 0 <= i < |p| ==> InDispatch(p[i], nextId) && p[i].IsProxy() && !IsBar(p[i]))
    && (forall i, j :: 0 <= i < j < |p| ==> p[i].id != p[j].id)
  }

  lemma ProxiesEmbedded(m: Mode, orig: Request, nextId: nat)
    requires FIRST_ID <= nextId
    ensures Embedded(Proxies(m, orig), nextId)
    ensures forall id :: Has(Proxies(m, orig), {}, id) <==>
              || (id == PRE_ID && m.preflush)
              || (id == BAR_ID && m.bar)
              || (id == POST_ID && m.postflush)
  {
    var p := Proxies(m, orig);
    var a := if m.preflush then 1 else 0;
    var b := a + if m.bar then 1 else 0;
    if m.preflush { assert p[0] == FlushRq(PRE_ID, PreFlush); }
    if m.bar { assert p[a] == BarRq(orig); }
    if m.postflush { assert p[b] == FlushRq(POST_ID, PostFlush); }
  }

  lemma PrefixPlaces(p: seq<Request>, d: seq<Request>, s: seq<Request>, v: set<Request>, nextId: nat)
    requires Embedded(p, nextId) && Apart(d, s, v)
    requires forall i :: 0 <= i < |d| ==> d[i].id >= FIRST_ID
    requires forall i :: 0 <= i < |s| ==> s[i].id >= FIRST_ID
    requires forall r :: r in v ==> r.id >= FIRST_ID
    ensures Apart(p + d, s, v)
    ensures forall id :: Has(p + d, v, id) <==> Has(p, {}, id) || Has(d, v, id)
  {
    forall id ensures Has(p + d, v, id) <==> Has(p, {}, id) || Has(d, v, id) {
      if i :| 0 <= i < |d| && d[i].id == id { assert (p + d)[|p| + i].id == id; }
      if i :| 0 <= i < |p| && p[i].id == id { assert (p + d)[i].id == id; }
    }
  }

  lemma PrefixBarriers(p: seq<Request>, d: seq<Request>, lo: nat, hi: nat)
    requires forall i :: 0 <= i < |p| ==> !IsBar(p[i])
    requires Barriers(d, lo, hi)
    ensures Barriers(p + d, lo, hi)
  {
    forall e | lo <= e < hi ensures Closed(p + d, e) {
      assert Closed(d, e);
      var i :| 0 <= i < |d| && IsBar(d[i]) && d[i].epoch == e;
      assert IsBar((p + d)[|p| + i]);
    }
  }

  /** Between sequences no proxy is listed anywhere. */
  lemma NoProxies(q: Queue)
    requires Base(q) && q.ordseq.Idle()
    ensures forall i :: 0 <= i < |q.dispatch| ==> q.dispatch[i].id >= FIRST_ID
    ensures forall i :: 0 <= i < |q.sched| ==> q.sched[i].id >= FIRST_ID
    ensures forall r :: r in q.driver ==> r.id >= FIRST_ID
  {
    forall i | 0 <= i < |q.dispatch| ensures q.dispatch[i].id >= FIRST_ID {
      assert Has(q.dispatch, q.driver, q.dispatch[i].id);
    }
    forall r | r in q.driver ensures r.id >= FIRST_ID {
      assert Has(q.dispatch, q.driver, r.id);
    }
  }

  predicate Startable(q: Queue) {
    q.ordseq.Idle() && q.nextOrdered != NONE && q.dispatch != [] && IsBar(q.dispatch[0])
  }

  lemma SequencedIs(q: Queue)
    requires Startable(q) && !q.dispatch[0].started
    ensures Sequenced(q) ==
            q.(dispatch := Proxies(HeadMode(q), q.dispatch[0]) + q.dispatch[1..], orderr := 0,
               ordered := HeadMode(q), ordseq := BIT_STARTED, orig := q.dispatch[0],
               log := q.log + [Started(q.dispatch[0].id, HeadMode(q))])
  {
    assert q.ordseq.Or(BIT_STARTED) == BIT_STARTED;
  }

  /** `t` is `q` with the sequence of its head barrier begun. */
  predicate StartedFrom(q: Queue, t: Queue) {
    && Startable(q) && !q.dispatch[0].started
    && t == q.(dispatch := Proxies(HeadMode(q), q.dispatch[0]) + q.dispatch[1..], orderr := 0,
               ordered := HeadMode(q), ordseq := t.ordseq, orig := q.dispatch[0],
               done := (if t.ordseq.Idle() then q.done + 1 else q.done),
               log := q.log + [Started(q.dispatch[0].id, HeadMode(q))] +
                      (if t.ordseq.Idle() then [Ended(q.dispatch[0].id, 0)] else []))
    && Method(t.ordseq, t.ordered, t.nextOrdered, q.dispatch[0].sectors == 0)
    && (Pending(t.ordseq, BIT_PREFLUSH) <==> t.ordered.preflush)
    && (Pending(t.ordseq, BIT_BAR) <==> t.ordered.bar)
    && (Pending(t.ordseq, BIT_POSTFLUSH) <==> t.ordered.postflush)
    && (!t.ordseq.Idle() && !Waits(t.ordered, q.inFlight) ==> t.ordseq.drain)
    && (Waits(t.ordered, q.inFlight) ==> !t.ordseq.Idle() && !t.ordseq.drain)
  }

  /** The second half of `start_ordered`, on the queued sequence. */
  lemma SkippedIs(q: Queue, s: Queue)
    requires Startable(q) && LegalMode(q.nextOrdered) && !q.bug && !q.dispatch[0].started
    requires s == q.(dispatch := Proxies(HeadMode(q), q.dispatch[0]) + q.dispatch[1..], orderr := 0,
                     ordered := HeadMode(q), ordseq := BIT_STARTED, orig := q.dispatch[0],
                     log := q.log + [Started(q.dispatch[0].id, HeadMode(q))])
    ensures StartedFrom(q, CompleteSeq(s, StartSkip(s), 0))
  {
    StartBits(q.nextOrdered, q.dispatch[0].sectors == 0, Waits(HeadMode(q), q.inFlight));
    hide Method, Pending, Proxies, Effective, SkippedPhases, Over;
  }

  lemma StartOrderedIs(q: Queue)
    requires Startable(q) && !q.dispatch[0].started && LegalMode(q.nextOrdered) && !q.bug
    ensures StartedFrom(q, StartOrdered(q))
  {
    SequencedIs(q);
    SkippedIs(q, Sequenced(q));
  }

  lemma StartedPlaces(q: Queue, t: Queue)
    requires Base(q) && StartedFrom(q, t)
    ensures Apart(t.dispatch, t.sched, t.driver) && Phased(t)
  {
    var head := q.dispatch[0];
    var p := Proxies(t.ordered, head);
    ProxiesEmbedded(t.ordered, head, q.nextId);
    NoProxies(q);
    ApartTail(q.dispatch, q.sched, q.driver);
    PrefixPlaces(p, q.dispatch[1..], q.sched, q.driver, q.nextId);
    assert forall id: nat :: id < FIRST_ID ==> !Has(q.dispatch[1..], q.driver, id);
  }

  lemma StartedShaped(q: Queue, t: Queue)
    requires Base(q) && StartedFrom(q, t)
    ensures Shaped(t) && Counted(t)
  {
    ProxiesEmbedded(t.ordered, q.dispatch[0], q.nextId);
  }

  lemma StartedStash(q: Queue, t: Queue)
    requires Base(q) && StartedFrom(q, t)
    ensures Stashed(t)
  {
    var head := q.dispatch[0];
    assert InDispatch(head, q.nextId);
    ProxiesEmbedded(t.ordered, head, q.nextId);
    NoProxies(q);
    ApartTail(q.dispatch, q.sched, q.driver);
  }

  lemma StartedEpochs(q: Queue, t: Queue)
    requires Epochs(q) && StartedFrom(q, t) && FIRST_ID <= q.nextId
    ensures Epochs(t)
  {
    var head := q.dispatch[0];
    ProxiesEmbedded(t.ordered, head, q.nextId);
    BarriersPop(q.dispatch, Lowest(q), q.epoch);
    PrefixBarriers(Proxies(t.ordered, head), q.dispatch[1..], q.done + 1, q.epoch);
  }

  lemma StartedBase(q: Queue, t: Queue)
    requires Base(q) && StartedFrom(q, t)
    ensures Base(t)
  {
    StartedPlaces(q, t);
    StartedShaped(q, t);
    StartedStash(q, t);
    StartedEpochs(q, t);
  }

  // ---- the fetch loop ----

  lemma HasTail(d: seq<Request>, v: set<Request>, id: nat)
    requires d != [] && d[0].id != id
    ensures Has(d[1..], v, id) <==> Has(d, v, id)
  {
    if i :| 0 <= i < |d| && d[i].id == id { assert d[1..][i - 1].id == id; }
    if i :| 0 <= i < |d[1..]| && d[1..][i].id == id { assert d[i + 1].id == id; }
  }

  predicate RejectedFrom(q: Queue, t: Queue) {
    && q.ordseq.Idle() && q.dispatch != [] && IsBar(q.dispatch[0])
    && t == q.(dispatch := q.dispatch[1..], done := q.done + 1, log := q.log + [Rejected(q.dispatch[0].id)])
  }

  lemma RejectedBase(q: Queue, t: Queue)
    requires Base(q) && RejectedFrom(q, t)
    ensures Base(t)
  {
    NoProxies(q);
    ApartTail(q.dispatch, q.sched, q.driver);
    BarriersPop(q.dispatch, Lowest(q), q.epoch);
    HasTail(q.dispatch, q.driver, PRE_ID);
    HasTail(q.dispatch, q.driver, BAR_ID);
    HasTail(q.dispatch, q.driver, POST_ID);
  }

  /** A barrier queued behind the sequence in progress belongs to the next epoch, so it waits. */
  lemma NextBarrierWaits(q: Queue)
    requires Base(q) && !q.ordseq.Idle() && q.dispatch != [] && IsBar(q.dispatch[0])
    ensures ReqSeq(q.orig, q.dispatch[0]) == SEQ_DONE && CurSeq(q.ordseq) < SEQ_DONE
  {
    BarriersPop(q.dispatch, Lowest(q), q.epoch);
  }

  lemma ProxyTurn(q: Queue)
    requires Base(q) && !q.ordseq.Idle() && q.dispatch != [] && q.dispatch[0].IsProxy()
    requires ReqSeq(q.orig, q.dispatch[0]) <= CurSeq(q.ordseq)
    ensures q.ordseq.drain
  {}

  /** How `DoOrdered` can answer, as relations between the queue before and after. */
  lemma DoOrderedCases(q: Queue)
    requires Base(q) && q.dispatch != []
    ensures var v := DoOrdered(q);
            || StartedFrom(q, v.q)
            || RejectedFrom(q, v.q)
            || v.q == q.(warn := v.q.warn)
  {
    var r := q.dispatch[0];
    assert InDispatch(r, q.nextId);
    if q.ordseq.Idle() && r.IsBarrier() {
      NoProxies(q);
      if q.nextOrdered != NONE { StartOrderedIs(q); }
    }
  }

  lemma DoOrderedBase(q: Queue)
    requires Base(q) && q.dispatch != []
    ensures Base(DoOrdered(q).q)
  {
    hide DoOrdered, StartedFrom, RejectedFrom;
    DoOrderedCases(q);
    var t := DoOrdered(q).q;
    if StartedFrom(q, t) {
      StartedBase(q, t);
    } else if RejectedFrom(q, t) {
      RejectedBase(q, t);
    }
  }

  lemma TagSkipsDrain(ordseq: Phases, ordered: Mode, next: Mode, empty: bool)
    requires Method(ordseq, ordered, next, empty) && !ordseq.Idle() && ordered.byTag
    ensures ordseq.drain
  {}

  lemma StartGrants(q: Queue)
    requires Base(q) && Startable(q)
    ensures StartVerdict(q).rq.Some? ==> Grantable(StartVerdict(q).q)
  {
    assert InDispatch(q.dispatch[0], q.nextId);
    StartOrderedIs(q);
    if StartVerdict(q).rq.Some? {
      ProxiesEmbedded(HeadMode(q), q.dispatch[0], q.nextId);
      assert StartVerdict(q).rq.value == Proxies(HeadMode(q), q.dispatch[0])[0];
    }
  }

  lemma InProgressGrants(q: Queue)
    requires Base(q) && q.dispatch != [] && !q.ordseq.Idle()
    ensures DoOrdered(q).rq.Some? ==> Grantable(q)
  {
    var r := q.dispatch[0];
    assert InDispatch(r, q.nextId);
    if q.ordered.byTag { TagSkipsDrain(q.ordseq, q.ordered, q.nextOrdered, q.orig.sectors == 0); }
    if IsBar(r) {
      NextBarrierWaits(q);
    } else if r.IsProxy() && ReqSeq(q.orig, r) <= CurSeq(q.ordseq) {
      ProxyTurn(q);
    }
  }

  lemma GrantableKept(q: Queue, t: Queue)
    requires Grantable(q) && t == q.(warn := t.warn)
    ensures Grantable(t)
  {}

  /** What the loop grants is never an unstarted barrier, nor a proxy before the drain is over. */
  lemma DoOrderedGrants(q: Queue)
    requires Base(q) && q.dispatch != []
    ensures DoOrdered(q).rq.Some? ==> Grantable(DoOrdered(q).q)
  {
    if !q.ordseq.Idle() {
      InProgressGrants(q);
      if DoOrdered(q).rq.Some? { GrantableKept(q, DoOrdered(q).q); }
    } else {
      NoProxies(q);
      assert InDispatch(q.dispatch[0], q.nextId);
      if Startable(q) { StartGrants(q); }
    }
  }

  lemma {:induction false} NextRequestBase(q: Queue, calls: seq<seq<Pick>>)
    requires Base(q)
    ensures var (n, rq) := NextRequest(q, calls); Base(n) && (rq.Some? ==> Grantable(n))
    decreases |calls|, |q.dispatch|
  {
    if q.dispatch != [] {
      var v := DoOrdered(q);
      DoOrderedBase(q);
      DoOrderedGrants(q);
      if !v.stop {
        GoneShrinks(q);
        NextRequestBase(v.q, calls);
      }
    } else if calls != [] && |Moves(q, calls[0]).sched| != |q.sched| {
      MovesBase(q, calls[0]);
      NextRequestBase(Moves(q, calls[0]), calls[1..]);
    }
  }

  lemma PeekMarks(q: Queue, calls: seq<seq<Pick>>)
    ensures var (n, rq) := NextRequest(q, calls);
            var (p, granted) := Peek(q, calls);
            && granted == rq.Some?
            && (granted ==> n.dispatch != [] && Marked(n, p) && p.dispatch[0].started)
            && (!granted ==> p == n)
  {}

  lemma PeekBase(q: Queue, calls: seq<seq<Pick>>)
    requires Base(q)
    ensures var (p, granted) := Peek(q, calls); Base(p) && (granted ==> Grantable(p) && p.dispatch[0].started)
  {
    NextRequestBase(q, calls);
    PeekMarks(q, calls);
    if Peek(q, calls).1 {
      MarkBase(NextRequest(q, calls).0, Peek(q, calls).0);
    }
  }

  lemma FetchBase(q: Queue, calls: seq<seq<Pick>>)
    requires Base(q)
    ensures Base(Fetch(q, calls))
  {
    PeekBase(q, calls);
    if Peek(q, calls).1 { StartBase(Peek(q, calls).0); }
  }

  // ---- adding requests ----

  /** A fresh id, and the fields that only steer sorting, do not matter to `Base`. */
  lemma FreshIdBase(q: Queue, t: Queue)
    requires Base(q)
    requires t == q.(nextId := t.nextId, endSector := t.endSector, boundary := t.boundary, log := t.log)
    requires q.nextId <= t.nextId
    ensures Base(t) && Fresh(t.dispatch, t.sched, t.driver, q.nextId)
    ensures !t.ordseq.Idle() ==> t.orig.id != q.nextId
  {}

  lemma AppendBase(q: Queue, x: Request)
    requires Base(q)
    requires Fresh(q.dispatch, q.sched, q.driver, x.id) && InDispatch(x, q.nextId) && !IsBar(x)
    requires x.id >= FIRST_ID && (!q.ordseq.Idle() ==> x.id != q.orig.id)
    ensures Base(q.(dispatch := q.dispatch + [x]))
  {
    InsertBase(q, |q.dispatch|, x);
    assert InsertAt(q.dispatch, |q.dispatch|, x) == q.dispatch + [x];
  }

  lemma SchedBase(q: Queue, x: Request)
    requires Base(q)
    requires Fresh(q.dispatch, q.sched, q.driver, x.id) && InSched(x, q.nextId)
    requires !q.ordseq.Idle() ==> x.id != q.orig.id
    ensures Base(q.(sched := q.sched + [x]))
  {}

  /** A request no list holds stays so while the scheduler drains. */
  lemma {:induction false} MovesFresh(q: Queue, ps: seq<Pick>, id: nat)
    requires Fresh(q.dispatch, q.sched, q.driver, id)
    ensures Fresh(Moves(q, ps).dispatch, Moves(q, ps).sched, Moves(q, ps).driver, id)
    decreases ps
  {
    if ps != [] {
      MoveLists(q, ps[0]);
      MovesFresh(Move(q, ps[0]), ps[1..], id);
    }
  }

  /** The queue `q` has room for the request id `id`. */
  ghost predicate Room(q: Queue, id: nat) {
    && Base(q) && Fresh(q.dispatch, q.sched, q.driver, id) && FIRST_ID <= id < q.nextId
    && (!q.ordseq.Idle() ==> id != q.orig.id)
  }

  lemma DrainRoom(q: Queue, ps: seq<Pick>, id: nat)
    requires Room(q, id)
    ensures Room(Drain(q, ps), id)
  {
    DrainBase(q, ps);
    MovesFresh(q, DrainOrder(|q.sched|, ps), id);
  }

  lemma FrontBase(q: Queue, x: Request)
    requires Room(q, x.id) && InDispatch(x.(soft := true), q.nextId) && !IsBar(x)
    ensures Base(Insert(q, x, Front, []))
  {
    var y := x.(soft := true);
    InsertBase(q, 0, y);
    assert InsertAt(q.dispatch, 0, y) == [y] + q.dispatch;
  }

  lemma BackBase(q: Queue, x: Request, order: seq<Pick>)
    requires Room(q, x.id) && InDispatch(x.(soft := true), q.nextId) && !IsBar(x)
    ensures Base(Insert(q, x, Back, order))
  {
    DrainRoom(q, order, x.id);
    var d := Drain(q, order);
    DrainBase(q, order);
    AppendBase(d, x.(soft := true));
  }

  /** The queue a new request is inserted into: fresh id taken, boundary moved if it is one. */
  function FsRoom(q: Queue, s: Step): Queue
    requires s.AddFs?
  {
    q.(nextId := q.nextId + 1, log := q.log + [Added(q.nextId, q.epoch, Data(s.write, s.discard, s.pos, s.sectors))],
       endSector := if s.soft then s.pos + s.sectors else q.endSector,
       boundary := if s.soft then Some(q.nextId) else q.boundary)
  }

  function FsWhere(s: Step): Where
    requires s.AddFs?
  {
    if s.soft || !s.elvpriv then Back else Sort
  }

  lemma AddFsIs(q: Queue, s: Step)
    requires s.AddFs?
    ensures Apply(q, s) == Insert(FsRoom(q, s), NewFs(q, s).(color := q.ordcolor), FsWhere(s), s.order)
  {}

  lemma FsInsertBase(n: Queue, r: Request, where: Where, order: seq<Pick>)
    requires Room(n, r.id) && InSched(r, n.nextId) && !where.Front?
    ensures Base(Insert(n, r, where, order))
  {
    if where.Back? { BackBase(n, r, order); } else { SchedBase(n, r); }
  }

  function SpecialRoom(q: Queue): Queue { q.(nextId := q.nextId + 1) }

  function SpecialWhere(s: Step): Where
    requires s.AddSpecial?
  {
    if s.front then Front else Back
  }

  lemma AddSpecialIs(q: Queue, s: Step)
    requires s.AddSpecial?
    ensures Apply(q, s) ==
            Insert(SpecialRoom(q), Blank(q.nextId, Special).(color := q.ordcolor), SpecialWhere(s), s.order)
  {}

  /** Moving requests neither reads nor writes the colour and the epoch. */
  lemma MoveFrame(q: Queue, p: Pick, c: bool, e: nat)
    ensures Move(q.(ordcolor := c, epoch := e), p) == Move(q, p).(ordcolor := c, epoch := e)
  {}

  lemma {:induction false} MovesFrame(q: Queue, ps: seq<Pick>, c: bool, e: nat)
    ensures Moves(q.(ordcolor := c, epoch := e), ps) == Moves(q, ps).(ordcolor := c, epoch := e)
    decreases ps
  {
    if ps != [] {
      MoveFrame(q, ps[0], c, e);
      MovesFrame(Move(q, ps[0]), ps[1..], c, e);
    }
  }

  function BarrierRoom(q: Queue, s: Step): Queue
    requires s.AddBarrier?
  {
    q.(nextId := q.nextId + 1, log := q.log + [AddedBarrier(q.nextId, q.epoch, Data(s.write, false, s.pos, s.sectors))],
       endSector := s.pos + s.sectors, boundary := Some(q.nextId))
  }

  function QueuedBarrier(q: Queue, s: Step): Request
    requires s.AddBarrier?
  {
    NewBarrier(q, s).(color := q.ordcolor, soft := true)
  }

  lemma HardAdd(q: Queue, r: Request, order: seq<Pick>)
    requires r.kind.Fs? && r.hard && !r.color
    ensures AddRequest(q, r, Sort, true, order) ==
            Insert(q.(ordcolor := !q.ordcolor, endSector := r.EndSector(), boundary := Some(r.id)),
                   r.(color := q.ordcolor), Back, order)
  {}

  lemma AddBarrierInserts(q: Queue, s: Step)
    requires s.AddBarrier?
    ensures Apply(q, s) == Insert(BarrierRoom(q, s).(ordcolor := !q.ordcolor, epoch := q.epoch + 1),
                                  NewBarrier(q, s).(color := q.ordcolor), Back, s.order)
  {
    hide Insert;
    var n := q.(nextId := q.nextId + 1, epoch := q.epoch + 1, log := q.log + [AddedBarrier(q.nextId, q.epoch,
      Data(s.write, false, s.pos, s.sectors))]);
    HardAdd(n, NewBarrier(q, s), s.order);
    assert Apply(q, s) == AddRequest(n, NewBarrier(q, s), Sort, true, s.order);
  }

  /** `t` is `n` drained, with the barrier `b` appended and the epoch closed. */
  predicate ClosedFrom(n: Queue, b: Request, order: seq<Pick>, t: Queue) {
    var d := Drain(n, order);
    t == d.(dispatch := d.dispatch + [b], ordcolor := !n.ordcolor, epoch := n.epoch + 1)
  }

  lemma ClosingInsert(n: Queue, b: Request, order: seq<Pick>)
    ensures ClosedFrom(n, b.(soft := true), order,
                       Insert(n.(ordcolor := !n.ordcolor, epoch := n.epoch + 1), b, Back, order))
  {
    MovesFrame(n, DrainOrder(|n.sched|, order), !n.ordcolor, n.epoch + 1);
  }

  lemma AddBarrierIs(q: Queue, s: Step)
    requires s.AddBarrier?
    ensures ClosedFrom(BarrierRoom(q, s), QueuedBarrier(q, s), s.order, Apply(q, s))
  {
    AddBarrierInserts(q, s);
    ClosingInsert(BarrierRoom(q, s), NewBarrier(q, s).(color := q.ordcolor), s.order);
  }

  lemma ClosePlaces(d: Queue, b: Request, t: Queue)
    requires Apart(d.dispatch, d.sched, d.driver) && Fresh(d.dispatch, d.sched, d.driver, b.id) && IsBar(b) && KindId(b)
    requires t == d.(dispatch := d.dispatch + [b], ordcolor := !d.ordcolor, epoch := d.epoch + 1)
    requires Phased(d)
    ensures Apart(t.dispatch, t.sched, t.driver) && Phased(t)
  {
    ApartInsert(d.dispatch, |d.dispatch|, b, d.sched, d.driver);
    HasInserts(d.dispatch, |d.dispatch|, b, d.driver);
    assert InsertAt(d.dispatch, |d.dispatch|, b) == d.dispatch + [b];
  }

  /** Appending the barrier that closes the current epoch. */
  lemma CloseEpochBase(d: Queue, b: Request, t: Queue)
    requires Base(d) && Fresh(d.dispatch, d.sched, d.driver, b.id) && (!d.ordseq.Idle() ==> b.id != d.orig.id)
    requires IsBar(b) && b.epoch == d.epoch && b.color == d.ordcolor && InDispatch(b, d.nextId)
    requires t == d.(dispatch := d.dispatch + [b], ordcolor := !d.ordcolor, epoch := d.epoch + 1)
    ensures Base(t)
  {
    hide Apart, Phased, Barriers;
    ClosePlaces(d, b, t);
    BarriersPush(d.dispatch, b, Lowest(d), d.epoch);
  }

  lemma BarrierInsertBase(n: Queue, b: Request, order: seq<Pick>, t: Queue)
    requires Room(n, b.id) && InDispatch(b, n.nextId)
    requires IsBar(b) && b.epoch == n.epoch && b.color == n.ordcolor && ClosedFrom(n, b, order, t)
    ensures Base(t)
  {
    DrainRoom(n, order, b.id);
    DrainBase(n, order);
    CloseEpochBase(Drain(n, order), b, t);
  }

  // ---- runs ----

  lemma NewRoom(q: Queue, n: Queue)
    requires Base(q) && q.nextId < n.nextId
    requires n == q.(nextId := n.nextId, endSector := n.endSector, boundary := n.boundary, log := n.log)
    ensures Room(n, q.nextId)
  {
    FreshIdBase(q, n);
  }

  lemma AddFsBase(q: Queue, s: Step, t: Queue)
    requires Base(q) && s.AddFs?
    requires t == Insert(FsRoom(q, s), NewFs(q, s).(color := q.ordcolor), FsWhere(s), s.order)
    ensures Base(t)
  {
    NewRoom(q, FsRoom(q, s));
    FsInsertBase(FsRoom(q, s), NewFs(q, s).(color := q.ordcolor), FsWhere(s), s.order);
  }

  lemma AddSpecialBase(q: Queue, s: Step, t: Queue)
    requires Base(q) && s.AddSpecial?
    requires t == Insert(SpecialRoom(q), Blank(q.nextId, Special).(color := q.ordcolor), SpecialWhere(s), s.order)
    ensures Base(t)
  {
    var n := SpecialRoom(q);
    NewRoom(q, n);
    var r := Blank(q.nextId, Special).(color := q.ordcolor);
    if s.front { FrontBase(n, r); } else { BackBase(n, r, s.order); }
  }

  lemma AddBarrierBase(q: Queue, s: Step, t: Queue)
    requires Base(q) && s.AddBarrier? && ClosedFrom(BarrierRoom(q, s), QueuedBarrier(q, s), s.order, t)
    ensures Base(t)
  {
    NewRoom(q, BarrierRoom(q, s));
    BarrierInsertBase(BarrierRoom(q, s), QueuedBarrier(q, s), s.order, t);
  }

  lemma AddBase(q: Queue, s: Step)
    requires Base(q) && (s.AddFs? || s.AddBarrier? || s.AddSpecial?)
    ensures Base(Apply(q, s))
  {
    if s.AddFs? {
      AddFsIs(q, s);
      AddFsBase(q, s, Apply(q, s));
    } else if s.AddSpecial? {
      AddSpecialIs(q, s);
      AddSpecialBase(q, s, Apply(q, s));
    } else {
      AddBarrierIs(q, s);
      AddBarrierBase(q, s, Apply(q, s));
    }
  }

  lemma ApplyBase(q: Queue, s: Step)
    requires Base(q)
    ensures Base(Apply(q, s))
  {
    hide Base, Moves, Peek, Fetch, Complete, Requeue, AddRequest;
    match s
    case Elevator(picks) => MovesBase(q, picks);
    case PeekOnly(calls) => PeekBase(q, calls);
    case FetchOne(calls) => FetchBase(q, calls);
    case CompleteOne(rq, error) => if rq in q.driver { CompleteBase(q, rq, error); }
    case RequeueOne(rq) => if rq in q.driver { RequeueBase(q, rq); }
    case _ => AddBase(q, s);
  }

  /** In every run and every ordering mode, no BUG_ON of the ordered sequence fires. */
  lemma {:induction false} RunBase(mode: Mode, steps: seq<Step>)
    requires LegalMode(mode)
    ensures Base(Run(Init(mode), steps)) && !Run(Init(mode), steps).bug
    decreases |steps|
  {
    if steps == [] {
      InitBase(mode);
    } else {
      RunBase(mode, steps[..|steps| - 1]);
      ApplyBase(Run(Init(mode), steps[..|steps| - 1]), steps[|steps| - 1]);
    }
  }
}
