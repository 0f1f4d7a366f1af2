/**
  What the driver is handed. Over every run, read off the log alone: each fs request and each barrier proxy that reaches
  the driver moves what was submitted under its id, a flush moves nothing, and each sequence runs by the method the
  queue and the barrier's length ask for.
*/
module OrderedData {
  import opened Common
  import opened OrderedQueue
  import opened OrderedBase
  import opened OrderedSteps
  import opened OrderedDrain

  const NO_DATA := Data(false, false, 0, 0)

  predicate Adds(e: Event) { e.Added? || e.AddedBarrier? }

  /** The request was added under this id, as a barrier or not, to move this. */
  ghost predicate Recorded(log: seq<Event>, id: nat, bar: bool, data: Data) {
    exists k :: 0 <= k < |log| && Adds(log[k]) && log[k].AddedBarrier? == bar && log[k].id == id && log[k].data == data
  }

  /** The method of a sequence: the queue's, but an empty barrier is neither written nor flushed after, and drains
      if no flush precedes it either. */
  predicate MethodFor(mode: Mode, sectors: nat, m: Mode) {
    && m.preflush == mode.preflush && m.fua == mode.fua
    && m.bar == (mode.bar && sectors > 0) && m.postflush == (mode.postflush && sectors > 0)
    && m.byDrain == (mode.byDrain || (mode.byTag && sectors == 0 && !mode.preflush))
    && m.byTag == (mode.byTag && (sectors > 0 || mode.preflush))
  }

  /** A barrier that asks for this method was added. */
  ghost predicate AskedFor(log: seq<Event>, mode: Mode, id: nat, m: Mode) {
    exists k :: 0 <= k < |log| && log[k].AddedBarrier? && log[k].id == id && MethodFor(mode, log[k].data.sectors, m)
  }

  ghost predicate FaithfulAt(mode: Mode, log: seq<Event>, e: Event) {
    && (e.Issued? ==> Recorded(log, e.id, false, e.data))
    && (e.IssuedProxy? && e.kind.BarProxy? ==> Recorded(log, e.id, true, e.data))
    && (e.IssuedProxy? && !e.kind.BarProxy? ==> e.data == NO_DATA)
    && (e.Started? ==> AskedFor(log, mode, e.id, e.mode))
    && (Adds(e) ==> forall i :: 0 <= i < |log| && Adds(log[i]) ==> log[i].id != e.id)
  }

  /** What reaches the driver was submitted so; each id is added once. */
  ghost predicate Faithful(mode: Mode, log: seq<Event>) {
    forall k :: 0 <= k < |log| ==> FaithfulAt(mode, log[..k], log[k])
  }

  /** A listed request moves what it should; `data` is what the original of the sequence in progress moves. */
  ghost predicate Right(log: seq<Event>, data: Data, r: Request) {
    && (r.kind.Fs? ==> Recorded(log, r.id, r.hard, r.Payload()))
    && (r.kind.BarProxy? ==> r.Payload() == data)
    && (r.kind.PreFlush? || r.kind.PostFlush? ==> r.Payload() == NO_DATA)
  }

  ghost predicate AllRight(log: seq<Event>, data: Data, d: seq<Request>, s: seq<Request>, v: set<Request>) {
    && (forall i :: 0 <= i < |d| ==> Right(log, data, d[i]))
    && (forall i :: 0 <= i < |s| ==> s[i].kind.Fs? && Right(log, data, s[i]))
    && (forall r :: r in v ==> Right(log, data, r))
  }

  /** The request of this id, as it was added, ends at this sector. */
  ghost predicate EndsThere(log: seq<Event>, id: nat, sector: nat) {
    exists k :: 0 <= k < |log| && Adds(log[k]) && log[k].id == id && log[k].data.pos + log[k].data.sectors == sector
  }

  /** `end_sector` is the end of the boundary request, while there is one. */
  ghost predicate Bounded(log: seq<Event>, boundary: Option<nat>, endSector: nat) {
    boundary.Some? ==> EndsThere(log, boundary.value, endSector)
  }

  ghost predicate Carried(q: Queue) {
    && Bounded(q.log, q.boundary, q.endSector)
    && AllRight(q.log, q.orig.Payload(), q.dispatch, q.sched, q.driver)
    && (IsBar(q.orig) ==> Recorded(q.log, q.orig.id, true, q.orig.Payload()))
    && Faithful(q.nextOrdered, q.log)
    && (forall k :: 0 <= k < |q.log| && Adds(q.log[k]) ==> q.log[k].id < q.nextId)
  }

  // ---- longer logs ----

  lemma RecordedMore(log: seq<Event>, more: seq<Event>, id: nat, bar: bool, data: Data)
    requires Recorded(log, id, bar, data)
    ensures Recorded(log + more, id, bar, data)
  {
    var k :| 0 <= k < |log| && Adds(log[k]) && log[k].AddedBarrier? == bar && log[k].id == id && log[k].data == data;
    assert (log + more)[k] == log[k];
  }

  lemma RightMore(log: seq<Event>, more: seq<Event>, data: Data, r: Request)
    requires Right(log, data, r)
    ensures Right(log + more, data, r)
  {
    if r.kind.Fs? { RecordedMore(log, more, r.id, r.hard, r.Payload()); }
  }

  lemma AllRightMore(log: seq<Event>, more: seq<Event>, data: Data, d: seq<Request>, s: seq<Request>, v: set<Request>)
    requires AllRight(log, data, d, s, v)
    ensures AllRight(log + more, data, d, s, v)
  {
    hide Right;
    forall i | 0 <= i < |d| ensures Right(log + more, data, d[i]) { RightMore(log, more, data, d[i]); }
    forall i | 0 <= i < |s| ensures Right(log + more, data, s[i]) { RightMore(log, more, data, s[i]); }
    forall r | r in v ensures Right(log + more, data, r) { RightMore(log, more, data, r); }
  }

  lemma BoundedMore(log: seq<Event>, more: seq<Event>, boundary: Option<nat>, endSector: nat)
    requires Bounded(log, boundary, endSector)
    ensures Bounded(log + more, boundary, endSector)
  {
    if boundary.Some? {
      var k :| 0 <= k < |log| && Adds(log[k]) && log[k].id == boundary.value &&
               log[k].data.pos + log[k].data.sectors == endSector;
      assert (log + more)[k] == log[k];
    }
  }

  lemma RecordedEnds(log: seq<Event>, r: Request)
    requires Recorded(log, r.id, r.hard, r.Payload())
    ensures EndsThere(log, r.id, r.EndSector())
  {
  }

  lemma FaithfulSnoc(mode: Mode, log: seq<Event>, e: Event)
    requires Faithful(mode, log) && FaithfulAt(mode, log, e)
    ensures Faithful(mode, log + [e])
  {
    hide FaithfulAt;
    var l := log + [e];
    forall k | 0 <= k < |l| ensures FaithfulAt(mode, l[..k], l[k]) {
      if k < |log| {
        assert l[..k] == log[..k] && FaithfulAt(mode, log[..k], log[k]);
      } else {
        assert l[..k] == log;
      }
    }
  }

  predicate QuietEvent(e: Event) { e.Completed? || e.ProxyDone? || e.Ended? || e.Rejected? }

  predicate AllQuiet(es: seq<Event>) { forall k :: 0 <= k < |es| ==> QuietEvent(es[k]) }

  lemma {:induction false} FaithfulQuiet(mode: Mode, log: seq<Event>, es: seq<Event>)
    requires Faithful(mode, log) && AllQuiet(es)
    ensures Faithful(mode, log + es)
    decreases |es|
  {
    hide Faithful;
    if es == [] {
      assert log + es == log;
    } else {
      var n := |es| - 1;
      FaithfulQuiet(mode, log, es[..n]);
      FaithfulSnoc(mode, log + es[..n], es[n]);
      assert log + es == log + es[..n] + [es[n]];
    }
  }

  /** Lists of right requests and a log that only grew by completions. */
  lemma CarriedOn(q: Queue, t: Queue, es: seq<Event>)
    requires Carried(q) && t.orig == q.orig && t.nextOrdered == q.nextOrdered && t.nextId >= q.nextId
    requires AllQuiet(es) && t.log == q.log + es && Bounded(q.log, t.boundary, t.endSector)
    requires AllRight(q.log, q.orig.Payload(), t.dispatch, t.sched, t.driver)
    ensures Carried(t)
  {
    hide AllRight, Faithful, Recorded, Bounded;
    FaithfulQuiet(q.nextOrdered, q.log, es);
    BoundedMore(q.log, es, t.boundary, t.endSector);
    AllRightMore(q.log, es, q.orig.Payload(), t.dispatch, t.sched, t.driver);
    if IsBar(q.orig) { RecordedMore(q.log, es, q.orig.id, true, q.orig.Payload()); }
  }

  lemma CarriedLists(q: Queue, t: Queue)
    requires Carried(q) && t.orig == q.orig && t.nextOrdered == q.nextOrdered && t.nextId >= q.nextId && t.log == q.log
    requires AllRight(q.log, q.orig.Payload(), t.dispatch, t.sched, t.driver)
    requires Bounded(q.log, t.boundary, t.endSector)
    ensures Carried(t)
  {
    assert q.log + [] == q.log;
    CarriedOn(q, t, []);
  }

  // ---- moving, adding, requeueing ----

  lemma InsertRight(log: seq<Event>, data: Data, d: seq<Request>, k: nat, x: Request)
    requires k <= |d| && Right(log, data, x) && forall i :: 0 <= i < |d| ==> Right(log, data, d[i])
    ensures forall i :: 0 <= i < |InsertAt(d, k, x)| ==> Right(log, data, InsertAt(d, k, x)[i])
  {
    hide Right;
    var e := InsertAt(d, k, x);
    forall i | 0 <= i < |e| ensures Right(log, data, e[i]) {
      assert e[i] == if i < k then d[i] else if i == k then x else d[i - 1];
    }
  }

  lemma MoveCarried(q: Queue, p: Pick)
    requires Carried(q)
    ensures Carried(Move(q, p))
  {
    hide Right, Faithful, Recorded, Move;
    MoveLists(q, p);
    if p.index < |q.sched| {
      InsertRight(q.log, q.orig.Payload(), q.dispatch, LandsAt(q, p), q.sched[p.index]);
      MoveBounds(q, p);
    } else {
      MoveNone(q, p);
    }
    CarriedLists(q, Move(q, p));
  }

  /** A request put at the tail becomes the boundary. */
  lemma MoveBounds(q: Queue, p: Pick)
    requires Carried(q) && p.index < |q.sched|
    ensures Bounded(q.log, Move(q, p).boundary, Move(q, p).endSector)
  {
    var r := q.sched[p.index];
    assert r.kind.Fs? && Right(q.log, q.orig.Payload(), r);
    hide Recorded, EndsThere;
    RecordedEnds(q.log, r);
  }

  lemma MoveNone(q: Queue, p: Pick)
    requires p.index >= |q.sched|
    ensures Move(q, p) == q
  {}

  lemma {:induction false} MovesCarried(q: Queue, ps: seq<Pick>)
    requires Carried(q)
    ensures Carried(Moves(q, ps))
    decreases ps
  {
    hide Carried, Move;
    if ps != [] {
      MoveCarried(q, ps[0]);
      MovesCarried(Move(q, ps[0]), ps[1..]);
    }
  }

  lemma {:induction false} MovesSame(q: Queue, ps: seq<Pick>)
    ensures var t := Moves(q, ps);
            t.log == q.log && t.orig == q.orig && t.nextOrdered == q.nextOrdered && t.nextId == q.nextId
    decreases ps
  {
    if ps != [] { MovesSame(Move(q, ps[0]), ps[1..]); }
  }

  lemma InsertCarried(q: Queue, r: Request, where: Where, order: seq<Pick>)
    requires Carried(q) && Right(q.log, q.orig.Payload(), r) && (where.Sort? ==> r.kind.Fs?)
    ensures Carried(Insert(q, r, where, order))
  {
    hide Faithful, Recorded, Moves;
    var x := r.(soft := true);
    match where
    case Front =>
      InsertRight(q.log, q.orig.Payload(), q.dispatch, 0, x);
      assert InsertAt(q.dispatch, 0, x) == [x] + q.dispatch;
      CarriedLists(q, Insert(q, r, where, order));
    case Back =>
      var ps := DrainOrder(|q.sched|, order);
      var d := Moves(q, ps);
      MovesCarried(q, ps);
      MovesSame(q, ps);
      InsertRight(d.log, d.orig.Payload(), d.dispatch, |d.dispatch|, x);
      assert InsertAt(d.dispatch, |d.dispatch|, x) == d.dispatch + [x];
      CarriedLists(d, Insert(q, r, where, order));
    case Sort =>
      CarriedLists(q, Insert(q, r, where, order));
  }

  /** A new id, logged with what it moves. */
  lemma RoomCarried(q: Queue, t: Queue, e: Event)
    requires Carried(q) && Adds(e) && e.id == q.nextId && t.log == q.log + [e] && t.nextId == q.nextId + 1
    requires t == q.(log := t.log, nextId := t.nextId, endSector := t.endSector, boundary := t.boundary,
                     ordcolor := t.ordcolor, epoch := t.epoch)
    requires || (t.boundary == q.boundary && t.endSector == q.endSector)
             || (t.boundary == Some(e.id) && t.endSector == e.data.pos + e.data.sectors)
    ensures Carried(t) && Recorded(t.log, e.id, e.AddedBarrier?, e.data)
  {
    hide AllRight, Faithful;
    FaithfulSnoc(q.nextOrdered, q.log, e);
    BoundedMore(q.log, [e], q.boundary, q.endSector);
    AllRightMore(q.log, [e], q.orig.Payload(), q.dispatch, q.sched, q.driver);
    if IsBar(q.orig) { RecordedMore(q.log, [e], q.orig.id, true, q.orig.Payload()); }
    assert t.log[|q.log|] == e;
  }

  lemma AddFsCarried(q: Queue, s: Step)
    requires Carried(q) && s.AddFs?
    ensures Carried(Apply(q, s))
  {
    hide Carried, Insert, Recorded, Apply;
    AddFsIs(q, s);
    RoomCarried(q, FsRoom(q, s), Added(q.nextId, q.epoch, Data(s.write, s.discard, s.pos, s.sectors)));
    InsertCarried(FsRoom(q, s), NewFs(q, s).(color := q.ordcolor), FsWhere(s), s.order);
  }

  lemma AddBarrierCarried(q: Queue, s: Step)
    requires Carried(q) && s.AddBarrier?
    ensures Carried(Apply(q, s))
  {
    hide Carried, Insert, Recorded, Apply;
    AddBarrierInserts(q, s);
    var n := BarrierRoom(q, s).(ordcolor := !q.ordcolor, epoch := q.epoch + 1);
    RoomCarried(q, n, AddedBarrier(q.nextId, q.epoch, Data(s.write, false, s.pos, s.sectors)));
    InsertCarried(n, NewBarrier(q, s).(color := q.ordcolor), Back, s.order);
  }

  lemma AddSpecialCarried(q: Queue, s: Step)
    requires Carried(q) && s.AddSpecial?
    ensures Carried(Apply(q, s))
  {
    hide Insert, Recorded, Apply, AllRight, Faithful;
    AddSpecialIs(q, s);
    CarriedLists(q, SpecialRoom(q));
    InsertCarried(SpecialRoom(q), Blank(q.nextId, Special).(color := q.ordcolor), SpecialWhere(s), s.order);
  }

  lemma RequeueCarried(q: Queue, r: Request)
    requires Carried(q) && r in q.driver
    ensures Carried(Requeue(q, r))
  {
    hide Faithful, Recorded, Requeue;
    RequeueIs(q, r);
    InsertRight(q.log, q.orig.Payload(), q.dispatch, RequeuedAt(q, r), r.(started := false, soft := true));
    CarriedLists(q, Requeue(q, r));
  }

  // ---- completion ----

  /** Completing leaves the lists and adds nothing but completions to the log. */
  predicate Retires(q: Queue, t: Queue, r: Request, es: seq<Event>) {
    && t.dispatch == q.dispatch && t.sched == q.sched && t.driver == q.driver - {r} && t.orig == q.orig
    && t.nextOrdered == q.nextOrdered && t.nextId == q.nextId && t.log == q.log + es && AllQuiet(es)
    && t.boundary == q.boundary && t.endSector == q.endSector
  }

  lemma EndQuiet(q: Queue, bits: Phases, error: int) returns (es: seq<Event>)
    ensures var t := CompleteSeq(q, bits, error);
            t == q.(bug := t.bug, ordseq := t.ordseq, done := t.done, log := t.log, orderr := t.orderr)
    ensures CompleteSeq(q, bits, error).log == q.log + es && AllQuiet(es)
  {
    es := if Over(q.ordseq, bits) then [Ended(q.orig.id, Record(q, error).orderr)] else [];
  }

  lemma ElvQuiet(q: Queue, r: Request) returns (es: seq<Event>)
    ensures Retires(q, ElvCompleted(q, r), r, es)
  {
    hide CompleteSeq;
    es := [];
    if Drained(Settled(q, r)) { es := EndQuiet(Settled(q, r), BIT_DRAIN, 0); }
  }

  lemma CompleteRetires(q: Queue, r: Request, error: int) returns (es: seq<Event>)
    ensures Retires(q, Complete(q, r, error), r, es)
  {
    hide CompleteSeq, ElvCompleted;
    if r.kind.Fs? {
      var n := q.(log := q.log + [Completed(r.id)]);
      es := ElvQuiet(n, r);
      assert n.log + es == q.log + ([Completed(r.id)] + es);
      es := [Completed(r.id)] + es;
    } else if r.kind.Special? {
      es := ElvQuiet(q, r);
    } else {
      var done := ProxyDone(q.orig.id, r.kind, error);
      var n := Reported(q, r, error);
      var more := ElvQuiet(n, r);
      es := EndQuiet(ElvCompleted(n, r), PhaseOf(r.kind), error);
      assert q.log + [done] + more + es == q.log + ([done] + more + es);
      es := [done] + more + es;
    }
  }

  lemma CompleteCarried(q: Queue, r: Request, error: int)
    requires Carried(q)
    ensures Carried(Complete(q, r, error))
  {
    hide Faithful, Recorded, Complete, Right;
    var es := CompleteRetires(q, r, error);
    CarriedOn(q, Complete(q, r, error), es);
  }

  // ---- the fetch loop ----

  lemma MethodIs(mode: Mode, sectors: nat)
    requires LegalMode(mode) && mode != NONE
    ensures MethodFor(mode, sectors, Effective(mode, sectors == 0))
  {}

  /** The proxies move what the barrier moves, or nothing. */
  lemma ProxiesRight(log: seq<Event>, m: Mode, orig: Request)
    ensures forall i :: 0 <= i < |Proxies(m, orig)| ==> Right(log, orig.Payload(), Proxies(m, orig)[i])
  {}

  /** Without proxies on the lists it does not matter what the original moves. */
  lemma NoProxyRight(log: seq<Event>, a: Data, b: Data, r: Request)
    requires Right(log, a, r) && !r.IsProxy()
    ensures Right(log, b, r)
  {}

  lemma NoneListed(q: Queue)
    requires Base(q) && q.ordseq.Idle()
    ensures forall i :: 0 <= i < |q.dispatch| ==> !q.dispatch[i].IsProxy()
    ensures forall r :: r in q.driver ==> !r.IsProxy()
  {
    NoProxies(q);
    forall i | 0 <= i < |q.dispatch| ensures !q.dispatch[i].IsProxy() { assert InDispatch(q.dispatch[i], q.nextId); }
  }

  lemma StartedLists(q: Queue, t: Queue)
    requires Base(q) && Carried(q) && StartedFrom(q, t)
    ensures AllRight(q.log, t.orig.Payload(), t.dispatch, t.sched, t.driver)
  {
    hide Base, Right, Recorded, Faithful, Method, Pending, Effective, Bounded;
    NoneListed(q);
    var p, a, b := Proxies(HeadMode(q), q.dispatch[0]), q.orig.Payload(), t.orig.Payload();
    ProxiesRight(q.log, HeadMode(q), q.dispatch[0]);
    forall i | 0 <= i < |t.dispatch| ensures Right(q.log, b, t.dispatch[i]) {
      if i >= |p| {
        assert t.dispatch[i] == q.dispatch[i - |p| + 1];
        NoProxyRight(q.log, a, b, t.dispatch[i]);
      }
    }
    forall i | 0 <= i < |t.sched| ensures Right(q.log, b, t.sched[i]) { NoProxyRight(q.log, a, b, t.sched[i]); }
    forall r | r in t.driver ensures Right(q.log, b, r) { NoProxyRight(q.log, a, b, r); }
  }

  lemma StartedFaithful(q: Queue, t: Queue)
    requires Base(q) && Carried(q) && StartedFrom(q, t)
    ensures Faithful(q.nextOrdered, q.log + [Started(q.dispatch[0].id, HeadMode(q))])
  {
    hide Faithful, AllRight, Base, Method, Pending, Proxies, Effective, MethodFor;
    var r := q.dispatch[0];
    NextLegal(q);
    HeadRecorded(q);
    MethodIs(q.nextOrdered, r.sectors);
    var k :| 0 <= k < |q.log| && q.log[k].AddedBarrier? && q.log[k].id == r.id && q.log[k].data == r.Payload();
    assert AskedFor(q.log, q.nextOrdered, r.id, HeadMode(q));
    FaithfulSnoc(q.nextOrdered, q.log, Started(r.id, HeadMode(q)));
  }

  lemma NextLegal(q: Queue)
    requires Base(q)
    ensures LegalMode(q.nextOrdered)
  {}

  lemma HeadRecorded(q: Queue)
    requires Carried(q) && q.dispatch != [] && IsBar(q.dispatch[0])
    ensures Recorded(q.log, q.dispatch[0].id, true, q.dispatch[0].Payload())
  {
    assert Right(q.log, q.orig.Payload(), q.dispatch[0]);
  }

  lemma StartedCarried(q: Queue, t: Queue)
    requires Base(q) && Carried(q) && StartedFrom(q, t)
    ensures Carried(t)
  {
    hide Base, AllRight, Recorded, Faithful, Method, Pending, Proxies, Effective;
    StartedLists(q, t);
    StartedFaithful(q, t);
    HeadRecorded(q);
    var started := [Started(q.dispatch[0].id, HeadMode(q))];
    var es := if t.ordseq.Idle() then [Ended(q.dispatch[0].id, 0)] else [];
    FaithfulQuiet(q.nextOrdered, q.log + started, es);
    assert t.log == q.log + started + es && t.log == q.log + (started + es);
    AllRightMore(q.log, started + es, t.orig.Payload(), t.dispatch, t.sched, t.driver);
    RecordedMore(q.log, started + es, t.orig.id, true, t.orig.Payload());
    BoundedMore(q.log, started + es, t.boundary, t.endSector);
  }

  lemma DoOrderedCarried(q: Queue)
    requires Base(q) && Carried(q) && q.dispatch != []
    ensures Carried(DoOrdered(q).q)
  {
    hide Base, DoOrdered, StartedFrom, Faithful, Recorded, Right;
    DoOrderedCases(q);
    var t := DoOrdered(q).q;
    if StartedFrom(q, t) {
      StartedCarried(q, t);
    } else if RejectedFrom(q, t) {
      CarriedOn(q, t, [Rejected(q.dispatch[0].id)]);
    } else {
      CarriedLists(q, t);
    }
  }

  lemma {:induction false} NextRequestCarried(q: Queue, calls: seq<seq<Pick>>)
    requires Base(q) && Carried(q)
    ensures Carried(NextRequest(q, calls).0)
    decreases |calls|, |q.dispatch|
  {
    hide Base, Carried, DoOrdered, Moves;
    if q.dispatch != [] {
      DoOrderedBase(q);
      DoOrderedCarried(q);
      if !DoOrdered(q).stop {
        GoneShrinks(q);
        NextRequestCarried(DoOrdered(q).q, calls);
      }
    } else if calls != [] && |Moves(q, calls[0]).sched| != |q.sched| {
      MovesBase(q, calls[0]);
      MovesCarried(q, calls[0]);
      NextRequestCarried(Moves(q, calls[0]), calls[1..]);
    }
  }

  lemma PeekCarried(q: Queue, calls: seq<seq<Pick>>)
    requires Base(q) && Carried(q)
    ensures Carried(Peek(q, calls).0)
  {
    hide Base, Faithful, Recorded, NextRequest, Peek;
    NextRequestCarried(q, calls);
    PeekMarks(q, calls);
    var n, p := NextRequest(q, calls).0, Peek(q, calls).0;
    if Peek(q, calls).1 {
      assert Right(n.log, n.orig.Payload(), n.dispatch[0]);
      PeekBounds(q, calls);
      CarriedLists(n, p);
    }
  }

  /** A granted head stops being the boundary. */
  lemma PeekBounds(q: Queue, calls: seq<seq<Pick>>)
    ensures var n, p := NextRequest(q, calls).0, Peek(q, calls).0;
            p.boundary.None? || (p.boundary == n.boundary && p.endSector == n.endSector)
  {}

  /** What the log says of the head as it goes to the driver. */
  function Handed(q: Queue): seq<Event>
    requires q.dispatch != []
  {
    var r := q.dispatch[0];
    if r.kind.Fs? then [Issued(r.id, r.Payload())]
    else if r.IsProxy() then [IssuedProxy(q.orig.id, r.kind, r.Payload())] else []
  }

  lemma StartIs(q: Queue)
    requires q.dispatch != []
    ensures var t := Start(q);
            t == q.(dispatch := q.dispatch[1..], driver := q.driver + {q.dispatch[0]}, inFlight := t.inFlight,
                    log := q.log + Handed(q))
  {}

  lemma StartCarried(q: Queue)
    requires Base(q) && Carried(q) && Grantable(q)
    ensures Carried(Start(q))
  {
    hide Base, Recorded, Right, Faithful, Start, Handed;
    if q.dispatch[0].IsProxy() { ProxyOrig(q); }
    StartIs(q);
    var t := Start(q);
    assert AllRight(q.log, q.orig.Payload(), t.dispatch, t.sched, t.driver);
    HandedFaithful(q);
    hide AllRight;
    AllRightMore(q.log, Handed(q), q.orig.Payload(), t.dispatch, t.sched, t.driver);
    BoundedMore(q.log, Handed(q), q.boundary, q.endSector);
    if IsBar(q.orig) { RecordedMore(q.log, Handed(q), q.orig.id, true, q.orig.Payload()); }
  }

  lemma ProxyOrig(q: Queue)
    requires Base(q) && q.dispatch != [] && q.dispatch[0].IsProxy()
    ensures IsBar(q.orig)
  {
    assert InDispatch(q.dispatch[0], q.nextId) && Has(q.dispatch, q.driver, q.dispatch[0].id);
  }

  lemma HandedFaithful(q: Queue)
    requires Carried(q) && q.dispatch != [] && (q.dispatch[0].IsProxy() ==> IsBar(q.orig)) && !IsBar(q.dispatch[0])
    ensures Faithful(q.nextOrdered, q.log + Handed(q))
    ensures forall k :: 0 <= k < |Handed(q)| ==> !Adds(Handed(q)[k])
  {
    hide Faithful, Recorded;
    assert Right(q.log, q.orig.Payload(), q.dispatch[0]);
    if Handed(q) == [] {
      assert q.log + [] == q.log;
    } else {
      FaithfulSnoc(q.nextOrdered, q.log, Handed(q)[0]);
    }
  }

  lemma FetchCarried(q: Queue, calls: seq<seq<Pick>>)
    requires Base(q) && Carried(q)
    ensures Carried(Fetch(q, calls))
  {
    hide Base, Carried, Peek, Start;
    PeekCarried(q, calls);
    PeekBase(q, calls);
    if Peek(q, calls).1 { StartCarried(Peek(q, calls).0); }
  }

  // ---- runs ----

  lemma ApplyCarried(q: Queue, s: Step)
    requires Base(q) && Carried(q)
    ensures Carried(Apply(q, s))
  {
    hide Base, Carried, Peek, Fetch, Complete, Requeue, Moves, AddRequest;
    match s
    case AddFs(_, _, _, _, _, _, _) => AddFsCarried(q, s);
    case AddBarrier(_, _, _, _) => AddBarrierCarried(q, s);
    case AddSpecial(_, _) => AddSpecialCarried(q, s);
    case Elevator(picks) => MovesCarried(q, picks);
    case PeekOnly(calls) => PeekCarried(q, calls);
    case FetchOne(calls) => FetchCarried(q, calls);
    case CompleteOne(rq, error) => if rq in q.driver { CompleteCarried(q, rq, error); }
    case RequeueOne(rq) => if rq in q.driver { RequeueCarried(q, rq); }
  }

  lemma {:induction false} RunCarried(mode: Mode, steps: seq<Step>)
    requires LegalMode(mode)
    ensures Carried(Run(Init(mode), steps))
    decreases |steps|
  {
    hide Apply;
    if steps != [] {
      RunCarried(mode, steps[..|steps| - 1]);
      RunBase(mode, steps[..|steps| - 1]);
      ApplyCarried(Run(Init(mode), steps[..|steps| - 1]), steps[|steps| - 1]);
    }
  }

  /**
    In every run and every ordering mode: a barrier proxy queued or at the driver moves what the original of the
    sequence moves; whatever reached the driver was submitted so under its own id, proxies under the id of their
    barrier; and sorting begins where the boundary request ends.
  */
  lemma RunFaithful(mode: Mode, steps: seq<Step>)
    requires LegalMode(mode)
    ensures var q := Run(Init(mode), steps);
            && Faithful(mode, q.log) && Bounded(q.log, q.boundary, q.endSector)
            && (forall r :: (r in q.dispatch || r in q.driver) && r.kind.BarProxy? ==>
                  && (r.write, r.discard, r.pos, r.sectors) ==
                     (q.orig.write, q.orig.discard, q.orig.pos, q.orig.sectors)
                  && Recorded(q.log, q.orig.id, true, r.Payload()))
  {
    hide Run, Faithful;
    RunCarried(mode, steps);
    RunBase(mode, steps);
    RunCalm(mode, steps);
    var q := Run(Init(mode), steps);
    forall r | (r in q.dispatch || r in q.driver) && r.kind.BarProxy?
      ensures Right(q.log, q.orig.Payload(), r) && IsBar(q.orig)
    {
      ListedProxy(q, r);
    }
  }

  lemma ListedProxy(q: Queue, r: Request)
    requires Base(q) && (r in q.dispatch || r in q.driver) && r.kind.BarProxy?
    ensures IsBar(q.orig)
  {
    assert KindId(r) && Has(q.dispatch, q.driver, r.id);
  }
}
