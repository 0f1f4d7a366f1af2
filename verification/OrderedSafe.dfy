/**
  Nothing crosses a barrier. Over every run of a drain-ordered queue, read off the log alone:
  no flush or barrier proxy reaches the driver until every fs request added before that barrier has
  completed, and no fs request added after a barrier reaches the driver until that barrier ended.
*/
module OrderedSafe {
  import opened Common
  import opened OrderedQueue
  import opened OrderedBase
  import opened OrderedSteps
  import opened OrderedEnds
  import opened OrderedDrain

  ghost predicate HasCompleted(log: seq<Event>, id: nat) {
    exists k :: 0 <= k < |log| && log[k] == Completed(id)
  }

  /**
    Event `k` waited for what it has to: a proxy of a barrier, or its end, for every fs request added before that
    barrier; an fs request for every barrier added before it.
  */
  ghost predicate Waited(log: seq<Event>, k: nat)
    requires k < |log|
  {
    && (log[k].IssuedProxy? || log[k].Ended? ==>
          forall i, j :: 0 <= i < j < |log| && log[i].Added? && log[j].AddedBarrier? && log[j].id == log[k].id ==>
            HasCompleted(log[..k], log[i].id))
    && (log[k].Issued? ==>
          forall i, j :: 0 <= i < j < |log| && log[i].AddedBarrier? && log[j].Added? && log[j].id == log[k].id ==>
            HasEnded(log[..k], log[i].id))
  }

  /** The order of events in the log respects every barrier. */
  ghost predicate BarriersHold(log: seq<Event>) {
    forall k :: 0 <= k < |log| ==> Waited(log, k)
  }

  /** What the log is checked against: who is still on a list, and how far the epochs are. */
  datatype Hist = Hist(log: seq<Event>, alive: set<(nat, nat)>, bars: set<(nat, nat)>,
                       active: bool, orig: nat, done: nat, epoch: nat, nextId: nat)

  predicate IsAdd(e: Event) { e.Added? || e.AddedBarrier? }

  /** Epochs in the log rise at each barrier. */
  ghost predicate Timed(log: seq<Event>, epoch: nat) {
    && (forall i :: 0 <= i < |log| && IsAdd(log[i]) ==> log[i].epoch <= epoch)
    && (forall i :: 0 <= i < |log| && log[i].AddedBarrier? ==> log[i].epoch < epoch)
    && (forall i, j :: 0 <= i < j < |log| && IsAdd(log[i]) && IsAdd(log[j]) ==> log[i].epoch <= log[j].epoch)
    && (forall i, j :: 0 <= i < j < |log| && log[i].AddedBarrier? && IsAdd(log[j]) ==> log[i].epoch < log[j].epoch)
  }

  /** Every logged addition is accounted for. */
  ghost predicate Linked(h: Hist) {
    && (forall k :: 0 <= k < |h.log| && h.log[k].Added? ==>
          HasCompleted(h.log, h.log[k].id) || (h.log[k].id, h.log[k].epoch) in h.alive)
    && (forall k :: 0 <= k < |h.log| && h.log[k].Completed? ==>
          forall e :: (h.log[k].id, e) !in h.alive)
    && (forall k :: 0 <= k < |h.log| && h.log[k].AddedBarrier? ==>
          && (h.log[k].epoch < h.done ==> HasEnded(h.log, h.log[k].id))
          && (h.active && h.log[k].epoch == h.done ==> h.log[k].id == h.orig)
          && (h.done + (if h.active then 1 else 0) <= h.log[k].epoch ==> (h.log[k].id, h.log[k].epoch) in h.bars))
  }

  ghost predicate Honest(h: Hist) {
    && Timed(h.log, h.epoch) && Linked(h) && BarriersHold(h.log)
    && (forall k :: 0 <= k < |h.log| ==> h.log[k].id < h.nextId)
  }

  lemma CompletedAppend(log: seq<Event>, e: Event, id: nat)
    ensures HasCompleted(log + [e], id) <==> HasCompleted(log, id) || e == Completed(id)
  {
    var l := log + [e];
    if k :| 0 <= k < |log| && log[k] == Completed(id) { assert l[k] == Completed(id); }
    assert l[|log|] == e;
  }

  lemma LogGrows(log: seq<Event>, e: Event)
    ensures forall x :: HasCompleted(log + [e], x) <==> HasCompleted(log, x) || e == Completed(x)
    ensures forall x :: HasEnded(log + [e], x) <==> HasEnded(log, x) || (e.Ended? && e.id == x)
  {
    forall x ensures HasCompleted(log + [e], x) <==> HasCompleted(log, x) || e == Completed(x)
             ensures HasEnded(log + [e], x) <==> HasEnded(log, x) || (e.Ended? && e.id == x)
    {
      CompletedAppend(log, e, x);
      HasAppend(log, e, x);
    }
  }

  /** Every fs request logged before barrier `b` has completed. */
  ghost predicate AllBefore(log: seq<Event>, b: nat) {
    forall i, j :: 0 <= i < j < |log| && log[i].Added? && log[j].AddedBarrier? && log[j].id == b ==>
      HasCompleted(log, log[i].id)
  }

  /** Every barrier logged before fs request `id` has ended. */
  ghost predicate AllEnded(log: seq<Event>, id: nat) {
    forall i, j :: 0 <= i < j < |log| && log[i].AddedBarrier? && log[j].Added? && log[j].id == id ==>
      HasEnded(log, log[i].id)
  }

  lemma WaitedStill(log: seq<Event>, e: Event, k: nat)
    requires k < |log| && Waited(log, k) && (IsAdd(e) ==> log[k].id != e.id)
    ensures Waited(log + [e], k)
  {
    var l := log + [e];
    assert l[..k] == log[..k] && l[k] == log[k];
    assert forall i :: 0 <= i < |log| ==> l[i] == log[i];
  }

  lemma WaitedNow(log: seq<Event>, e: Event)
    requires e.IssuedProxy? || e.Ended? ==> AllBefore(log, e.id)
    requires e.Issued? ==> AllEnded(log, e.id)
    ensures Waited(log + [e], |log|)
  {
    assert (log + [e])[..|log|] == log;
  }

  /** Appending an event keeps the order when the event itself is due. */
  lemma HoldAppend(log: seq<Event>, e: Event)
    requires BarriersHold(log)
    requires IsAdd(e) ==> forall k :: 0 <= k < |log| ==> log[k].id != e.id
    requires e.IssuedProxy? || e.Ended? ==> AllBefore(log, e.id)
    requires e.Issued? ==> AllEnded(log, e.id)
    ensures BarriersHold(log + [e])
  {
    hide Waited, AllBefore, AllEnded;
    WaitedNow(log, e);
    forall k | 0 <= k < |log| ensures Waited(log + [e], k) { WaitedStill(log, e, k); }
  }

  lemma TimedAppend(log: seq<Event>, e: Event, epoch: nat)
    requires Timed(log, epoch) && !IsAdd(e)
    ensures Timed(log + [e], epoch)
  {}

  lemma LinkedAppend(h: Hist, e: Event, g: Hist)
    requires Linked(h) && !IsAdd(e) && !e.Completed? && !e.Ended?
    requires g == h.(log := h.log + [e])
    ensures Linked(g)
  {
    LogGrows(h.log, e);
  }

  lemma LinkedComplete(h: Hist, id: nat, g: Hist)
    requires Linked(h)
    requires g == h.(log := h.log + [Completed(id)], alive := g.alive)
    requires forall p :: p in g.alive <==> p in h.alive && p.0 != id
    ensures Linked(g)
  {
    LogGrows(h.log, Completed(id));
  }

  lemma LinkedEnd(h: Hist, error: int, g: Hist)
    requires Linked(h) && h.active
    requires g == h.(log := h.log + [Ended(h.orig, error)], active := false, done := h.done + 1)
    ensures Linked(g)
  {
    LogGrows(h.log, Ended(h.orig, error));
  }

  lemma LinkedAdd(h: Hist, e: Event, g: Hist)
    requires Linked(h) && IsAdd(e) && e.id == h.nextId && e.epoch == h.epoch
    requires h.done + (if h.active then 1 else 0) <= h.epoch
    requires forall k :: 0 <= k < |h.log| ==> h.log[k].id < h.nextId
    requires g == h.(log := h.log + [e], alive := g.alive, bars := g.bars, nextId := g.nextId, epoch := g.epoch)
    requires g.alive == if e.Added? then h.alive + {(e.id, e.epoch)} else h.alive
    requires g.bars == if e.Added? then h.bars else h.bars + {(e.id, e.epoch)}
    ensures Linked(g)
  {
    LogGrows(h.log, e);
  }

  lemma TimedAdd(log: seq<Event>, e: Event, epoch: nat)
    requires Timed(log, epoch) && IsAdd(e) && e.epoch == epoch
    ensures Timed(log + [e], if e.Added? then epoch else epoch + 1)
  {}

  /** An event of no consequence to ordering. */
  lemma HistOther(h: Hist, e: Event, g: Hist)
    requires Honest(h) && (e.Started? || e.ProxyDone? || e.Rejected?) && e.id < h.nextId
    requires g == h.(log := h.log + [e])
    ensures Honest(g)
  {
    HoldAppend(h.log, e);
    TimedAppend(h.log, e, h.epoch);
    LinkedAppend(h, e, g);
  }

  lemma IssueDue(h: Hist, id: nat)
    requires Honest(h) && (id, h.done) in h.alive && (forall e :: (id, e) in h.alive ==> e == h.done)
    ensures AllEnded(h.log, id)
  {
    assert !HasCompleted(h.log, id);
    forall i, j | 0 <= i < j < |h.log| && h.log[i].AddedBarrier? && h.log[j].Added? && h.log[j].id == id
      ensures HasEnded(h.log, h.log[i].id)
    {
      assert h.log[j].epoch == h.done;
    }
  }

  /** A granted fs request: alive, and of the epoch in progress. */
  lemma HistIssue(h: Hist, id: nat, data: Data, g: Hist)
    requires Honest(h) && AllEnded(h.log, id) && id < h.nextId && g == h.(log := h.log + [Issued(id, data)])
    ensures Honest(g)
  {
    HoldAppend(h.log, Issued(id, data));
    TimedAppend(h.log, Issued(id, data), h.epoch);
    LinkedAppend(h, Issued(id, data), g);
  }

  lemma ProxyDue(h: Hist)
    requires Honest(h) && h.active && !HasEnded(h.log, h.orig) && (forall e :: (h.orig, e) !in h.bars)
    requires forall p :: p in h.alive ==> h.done < p.1
    ensures AllBefore(h.log, h.orig)
  {
    forall i, j | 0 <= i < j < |h.log| && h.log[i].Added? && h.log[j].AddedBarrier? && h.log[j].id == h.orig
      ensures HasCompleted(h.log, h.log[i].id)
    {
      assert h.log[j].epoch == h.done;
      assert (h.log[i].id, h.log[i].epoch) !in h.alive;
    }
  }

  /** A granted proxy: everything alive is of a later epoch. */
  lemma HistIssueProxy(h: Hist, kind: Kind, data: Data, g: Hist)
    requires Honest(h) && AllBefore(h.log, h.orig) && h.orig < h.nextId
    requires g == h.(log := h.log + [IssuedProxy(h.orig, kind, data)])
    ensures Honest(g)
  {
    HoldAppend(h.log, IssuedProxy(h.orig, kind, data));
    TimedAppend(h.log, IssuedProxy(h.orig, kind, data), h.epoch);
    LinkedAppend(h, IssuedProxy(h.orig, kind, data), g);
  }

  /** An fs request ends and is on no list any more. */
  lemma HistComplete(h: Hist, id: nat, g: Hist)
    requires Honest(h) && id < h.nextId
    requires g == h.(log := h.log + [Completed(id)], alive := g.alive)
    requires forall p :: p in g.alive <==> p in h.alive && p.0 != id
    ensures Honest(g)
  {
    HoldAppend(h.log, Completed(id));
    TimedAppend(h.log, Completed(id), h.epoch);
    LinkedComplete(h, id, g);
  }

  /** An fs request joins the current epoch. */
  lemma HistAdd(h: Hist, data: Data, g: Hist)
    requires Honest(h) && h.done + (if h.active then 1 else 0) <= h.epoch
    requires g == h.(log := h.log + [Added(h.nextId, h.epoch, data)], alive := h.alive + {(h.nextId, h.epoch)},
                     nextId := h.nextId + 1)
    ensures Honest(g)
  {
    HoldAppend(h.log, Added(h.nextId, h.epoch, data));
    TimedAdd(h.log, Added(h.nextId, h.epoch, data), h.epoch);
    LinkedAdd(h, Added(h.nextId, h.epoch, data), g);
  }

  /** A barrier closes the current epoch. */
  lemma HistAddBarrier(h: Hist, data: Data, g: Hist)
    requires Honest(h) && h.done + (if h.active then 1 else 0) <= h.epoch
    requires g == h.(log := h.log + [AddedBarrier(h.nextId, h.epoch, data)], bars := h.bars + {(h.nextId, h.epoch)},
                     nextId := h.nextId + 1, epoch := h.epoch + 1)
    ensures Honest(g)
  {
    HoldAppend(h.log, AddedBarrier(h.nextId, h.epoch, data));
    TimedAdd(h.log, AddedBarrier(h.nextId, h.epoch, data), h.epoch);
    LinkedAdd(h, AddedBarrier(h.nextId, h.epoch, data), g);
  }

  /** The barrier of the lowest epoch begins its sequence. */
  lemma HistStart(h: Hist, b: nat, m: Mode, g: Hist)
    requires Honest(h) && !h.active && (b, h.done) in h.bars && b < h.nextId
    requires forall p :: p in h.bars && p.1 == h.done ==> p.0 == b
    requires g == h.(log := h.log + [Started(b, m)], bars := h.bars - {(b, h.done)}, active := true, orig := b)
    ensures Honest(g)
  {
    HistOther(h, Started(b, m), h.(log := h.log + [Started(b, m)]));
  }

  /** The sequence in progress is over. */
  lemma HistEnd(h: Hist, error: int, g: Hist)
    requires Honest(h) && h.active && h.orig < h.nextId && AllBefore(h.log, h.orig)
    requires g == h.(log := h.log + [Ended(h.orig, error)], active := false, done := h.done + 1)
    ensures Honest(g)
  {
    HoldAppend(h.log, Ended(h.orig, error));
    TimedAppend(h.log, Ended(h.orig, error), h.epoch);
    LinkedEnd(h, error, g);
  }

  // ---- the history of each operation ----

  /** The fs requests of a list, barriers or not, with their epochs. */
  function Picked(s: seq<Request>, hard: bool): set<(nat, nat)> {
    set i | 0 <= i < |s| && s[i].kind.Fs? && s[i].hard == hard :: (s[i].id, s[i].epoch)
  }

  function AtDriver(v: set<Request>): set<(nat, nat)> {
    set r | r in v && r.kind.Fs? && !r.hard :: (r.id, r.epoch)
  }

  function AliveOf(q: Queue): set<(nat, nat)> {
    Picked(q.dispatch, false) + Picked(q.sched, false) + AtDriver(q.driver)
  }

  function HistOf(q: Queue): Hist {
    Hist(q.log, AliveOf(q), Picked(q.dispatch, true), !q.ordseq.Idle(), q.orig.id, q.done, q.epoch, q.nextId)
  }

  function Pair(r: Request, hard: bool): set<(nat, nat)> {
    if r.kind.Fs? && r.hard == hard then {(r.id, r.epoch)} else {}
  }

  lemma PickedInsert(d: seq<Request>, k: nat, x: Request, hard: bool)
    requires k <= |d|
    ensures Picked(InsertAt(d, k, x), hard) == Picked(d, hard) + Pair(x, hard)
  {
    var e := InsertAt(d, k, x);
    forall p | p in Picked(d, hard) ensures p in Picked(e, hard) {
      var i :| 0 <= i < |d| && d[i].kind.Fs? && d[i].hard == hard && (d[i].id, d[i].epoch) == p;
      assert e[if i < k then i else i + 1] == d[i];
    }
    forall p | p in Picked(e, hard) ensures p in Picked(d, hard) + Pair(x, hard) {
      var i :| 0 <= i < |e| && e[i].kind.Fs? && e[i].hard == hard && (e[i].id, e[i].epoch) == p;
      if i != k { assert d[if i < k then i else i - 1] == e[i]; }
    }
    assert e[k] == x;
  }

  lemma PickedRemove(d: seq<Request>, k: nat, hard: bool)
    requires k < |d|
    ensures Picked(d, hard) == Picked(RemoveAt(d, k), hard) + Pair(d[k], hard)
  {
    assert InsertAt(RemoveAt(d, k), k, d[k]) == d;
    PickedInsert(RemoveAt(d, k), k, d[k], hard);
  }

  lemma PickedTail(d: seq<Request>, hard: bool)
    requires d != []
    ensures Picked(d, hard) == Picked(d[1..], hard) + Pair(d[0], hard)
  {
    assert RemoveAt(d, 0) == d[1..];
    PickedRemove(d, 0, hard);
  }

  lemma PickedPrefix(p: seq<Request>, d: seq<Request>, hard: bool)
    requires forall i :: 0 <= i < |p| ==> !p[i].kind.Fs?
    ensures Picked(p + d, hard) == Picked(d, hard)
  {
    forall x | x in Picked(d, hard) ensures x in Picked(p + d, hard) {
      var i :| 0 <= i < |d| && d[i].kind.Fs? && d[i].hard == hard && (d[i].id, d[i].epoch) == x;
      assert (p + d)[|p| + i] == d[i];
    }
  }

  lemma MoveHist(q: Queue, p: Pick)
    requires forall i :: 0 <= i < |q.sched| ==> q.sched[i].kind.Fs? && !q.sched[i].hard
    ensures HistOf(Move(q, p)) == HistOf(q)
  {
    MoveLists(q, p);
    if p.index < |q.sched| {
      PickedInsert(q.dispatch, LandsAt(q, p), q.sched[p.index], false);
      PickedInsert(q.dispatch, LandsAt(q, p), q.sched[p.index], true);
      PickedRemove(q.sched, p.index, false);
    }
  }

  lemma {:induction false} MovesHist(q: Queue, ps: seq<Pick>)
    requires forall i :: 0 <= i < |q.sched| ==> q.sched[i].kind.Fs? && !q.sched[i].hard
    ensures HistOf(Moves(q, ps)) == HistOf(q)
    decreases ps
  {
    if ps != [] {
      MoveHist(q, ps[0]);
      MoveLists(q, ps[0]);
      MovesHist(Move(q, ps[0]), ps[1..]);
    }
  }

  ghost predicate Sound(q: Queue) {
    Base(q) && EndInv(ViewOf(q)) && DrainMode(q.nextOrdered) && Ranked(OrderOf(q)) && Honest(HistOf(q))
  }

  // ---- starting a sequence ----

  lemma HeadPair(q: Queue)
    requires Apart(q.dispatch, q.sched, q.driver) && q.dispatch != []
    requires IsBar(q.dispatch[0]) && Barriers(q.dispatch, q.done, q.epoch)
    ensures var b := q.dispatch[0];
            && b.epoch == q.done && (b.id, q.done) in Picked(q.dispatch, true)
            && (forall p :: p in Picked(q.dispatch, true) && p.1 == q.done ==> p.0 == b.id)
            && Picked(q.dispatch[1..], true) == Picked(q.dispatch, true) - {(b.id, q.done)}
            && (forall e :: (b.id, e) !in Picked(q.dispatch[1..], true))
  {
    var d := q.dispatch;
    BarriersPop(d, q.done, q.epoch);
    PickedTail(d, true);
    forall p | p in Picked(d, true) && p.1 == q.done ensures p.0 == d[0].id {
      var i :| 0 <= i < |d| && d[i].kind.Fs? && d[i].hard && (d[i].id, d[i].epoch) == p;
      assert i == 0;
    }
    forall p | p in Picked(d[1..], true) ensures p.0 != d[0].id {
      var i :| 0 <= i < |d[1..]| && d[1..][i].kind.Fs? && d[1..][i].hard && (d[1..][i].id, d[1..][i].epoch) == p;
      assert d[i + 1] == d[1..][i];
    }
  }

  /** The history once the sequence of the head barrier has begun, and when it is over at once. */
  function StartHist(h: Hist, b: nat, m: Mode, over: bool): Hist {
    var g := h.(log := h.log + [Started(b, m)], bars := h.bars - {(b, h.done)}, active := true, orig := b);
    if over then g.(log := g.log + [Ended(b, 0)], active := false, done := h.done + 1) else g
  }

  lemma StartHistHonest(h: Hist, b: nat, m: Mode, over: bool)
    requires Honest(h) && !h.active && (b, h.done) in h.bars && b < h.nextId && !HasEnded(h.log, b)
    requires forall p :: p in h.bars && p.1 == h.done ==> p.0 == b
    requires forall e :: (b, e) in h.bars ==> e == h.done
    requires over ==> forall p :: p in h.alive ==> h.done < p.1
    ensures Honest(StartHist(h, b, m, over))
  {
    hide Honest;
    var g := StartHist(h, b, m, false);
    HistStart(h, b, m, g);
    if over {
      HasAppend(h.log, Started(b, m), b);
      ProxyDue(g);
      HistEnd(g, 0, StartHist(h, b, m, true));
    }
  }

  lemma StartedHist(q: Queue, t: Queue)
    requires StartedFrom(q, t) && FIRST_ID <= q.nextId
    requires Picked(q.dispatch[1..], true) == Picked(q.dispatch, true) - {(q.dispatch[0].id, q.done)}
    ensures HistOf(t) == StartHist(HistOf(q), q.dispatch[0].id, t.ordered, t.ordseq.Idle())
  {
    var p, e := Proxies(t.ordered, q.dispatch[0]), Started(q.dispatch[0].id, t.ordered);
    ProxiesEmbedded(t.ordered, q.dispatch[0], q.nextId);
    assert forall i :: 0 <= i < |p| ==> !p[i].kind.Fs?;
    PickedPrefix(p, q.dispatch[1..], true);
    PickedPrefix(p, q.dispatch[1..], false);
    PickedTail(q.dispatch, false);
    assert q.log + [e] + [] == q.log + [e];
  }

  /** Whoever is still alive is of an epoch that is not over. */
  lemma AliveFrom(q: Queue)
    requires Ranked(OrderOf(q)) && q.done <= q.epoch
    ensures forall p :: p in AliveOf(q) ==> q.done <= p.1
  {
    var o := OrderOf(q);
    forall p | p in AliveOf(q) ensures q.done <= p.1 {
      if p in Picked(q.dispatch, false) {
        var i :| 0 <= i < |q.dispatch| && q.dispatch[i].kind.Fs? && !q.dispatch[i].hard &&
                 (q.dispatch[i].id, q.dispatch[i].epoch) == p;
        assert o.d[i].kind.Fs?;
      } else if p in Picked(q.sched, false) {
        var i :| 0 <= i < |q.sched| && (q.sched[i].id, q.sched[i].epoch) == p;
        assert o.s[i].epoch == o.epoch;
      }
    }
  }

  lemma WaitingNotEnded(q: Queue)
    requires EndInv(ViewOf(q)) && q.dispatch != [] && IsBar(q.dispatch[0])
    ensures !HasEnded(q.log, q.dispatch[0].id)
  {
    assert q.dispatch[0].id in ViewOf(q).waiting;
  }

  lemma StartedHonest(q: Queue, t: Queue)
    requires Sound(q) && StartedFrom(q, t)
    ensures Honest(HistOf(t))
  {
    hide Honest, EndInv, Ranked, StartHist, Proxies;
    assert InDispatch(q.dispatch[0], q.nextId);
    HeadPair(q);
    StartedHist(q, t);
    WaitingNotEnded(q);
    if t.ordseq.Idle() {
      StartedRanked(q, t);
      StartedBase(q, t);
      EpochsOpen(t);
      AliveFrom(t);
      StartAlive(HistOf(q), q.dispatch[0].id, t.ordered, true);
    }
    StartHistHonest(HistOf(q), q.dispatch[0].id, t.ordered, t.ordseq.Idle());
  }

  lemma StartAlive(h: Hist, b: nat, m: Mode, over: bool)
    ensures StartHist(h, b, m, over).alive == h.alive
  {}

  lemma NeverRejected(q: Queue)
    requires Base(q) && q.nextOrdered != NONE && q.dispatch != []
    ensures StartedFrom(q, DoOrdered(q).q) || DoOrdered(q).q == q.(warn := DoOrdered(q).q.warn)
  {
    var r := q.dispatch[0];
    assert InDispatch(r, q.nextId);
    if q.ordseq.Idle() && r.IsBarrier() {
      NoProxies(q);
      StartOrderedIs(q);
    }
  }

  lemma DoOrderedHonest(q: Queue)
    requires Sound(q) && q.dispatch != []
    ensures Honest(HistOf(DoOrdered(q).q))
  {
    NeverRejected(q);
    var t := DoOrdered(q).q;
    if StartedFrom(q, t) {
      StartedHonest(q, t);
    } else {
      assert HistOf(t) == HistOf(q);
    }
  }

  lemma DoOrderedSound(q: Queue)
    requires Sound(q) && q.dispatch != []
    ensures Sound(DoOrdered(q).q)
  {
    DoOrderedGood(q);
    DoOrderedDrain(q);
    DoOrderedHonest(q);
  }

  lemma MovesSound(q: Queue, ps: seq<Pick>)
    requires Sound(q)
    ensures Sound(Moves(q, ps))
  {
    MovesBase(q, ps);
    MovesViews(q, ps);
    MovesOrder(q, ps);
    MovesMode(q, ps);
  }

  lemma MovesViews(q: Queue, ps: seq<Pick>)
    requires Base(q)
    ensures ViewOf(Moves(q, ps)) == ViewOf(q) && HistOf(Moves(q, ps)) == HistOf(q)
  {
    MovesView(q, ps);
    MovesHist(q, ps);
  }

  lemma {:induction false} NextRequestSound(q: Queue, calls: seq<seq<Pick>>)
    requires Sound(q)
    ensures Sound(NextRequest(q, calls).0)
    decreases |calls|, |q.dispatch|
  {
    if q.dispatch != [] {
      DoOrderedSound(q);
      if !DoOrdered(q).stop {
        GoneShrinks(q);
        NextRequestSound(DoOrdered(q).q, calls);
      }
    } else if calls != [] && |Moves(q, calls[0]).sched| != |q.sched| {
      MovesSound(q, calls[0]);
      NextRequestSound(Moves(q, calls[0]), calls[1..]);
    }
  }

  lemma MarkHist(q: Queue, m: Queue)
    requires q.dispatch != [] && Marked(q, m)
    ensures HistOf(m) == HistOf(q)
  {
    var x := q.dispatch[0].(started := true);
    assert m.dispatch[1..] == q.dispatch[1..];
    PickedTail(q.dispatch, true);
    PickedTail(q.dispatch, false);
    PickedTail(m.dispatch, true);
    PickedTail(m.dispatch, false);
  }

  lemma PeekHonest(q: Queue, calls: seq<seq<Pick>>)
    requires Sound(q)
    ensures Honest(HistOf(Peek(q, calls).0)) && EndInv(ViewOf(Peek(q, calls).0))
  {
    NextRequestSound(q, calls);
    PeekMarks(q, calls);
    if Peek(q, calls).1 {
      MarkHist(NextRequest(q, calls).0, Peek(q, calls).0);
      MarkView(NextRequest(q, calls).0, Peek(q, calls).0);
    }
  }

  // ---- handing over ----

  lemma HeadAlive(q: Queue)
    requires Apart(q.dispatch, q.sched, q.driver) && q.dispatch != [] && q.dispatch[0].kind.Fs? && !q.dispatch[0].hard
    ensures var r := q.dispatch[0];
            (r.id, r.epoch) in AliveOf(q) && forall e :: (r.id, e) in AliveOf(q) ==> e == r.epoch
  {
    var r := q.dispatch[0];
    assert (r.id, r.epoch) in Picked(q.dispatch, false);
    forall e | (r.id, e) in AliveOf(q) ensures e == r.epoch {
      if (r.id, e) in Picked(q.dispatch, false) {
        var i :| 0 <= i < |q.dispatch| && q.dispatch[i].kind.Fs? && !q.dispatch[i].hard &&
                 (q.dispatch[i].id, q.dispatch[i].epoch) == (r.id, e);
        assert i == 0;
      }
    }
  }

  lemma AliveLater(q: Queue)
    requires Ranked(OrderOf(q)) && !q.ordseq.Idle() && q.ordseq.drain && q.done < q.epoch
    ensures forall p :: p in AliveOf(q) ==> q.done < p.1
  {
    var o := OrderOf(q);
    forall p | p in AliveOf(q) ensures q.done < p.1 {
      if p in Picked(q.dispatch, false) {
        var i :| 0 <= i < |q.dispatch| && q.dispatch[i].kind.Fs? && !q.dispatch[i].hard &&
                 (q.dispatch[i].id, q.dispatch[i].epoch) == p;
        assert o.d[i].kind.Fs?;
      } else if p in Picked(q.sched, false) {
        var i :| 0 <= i < |q.sched| && (q.sched[i].id, q.sched[i].epoch) == p;
        assert o.s[i].epoch == o.epoch;
      }
    }
  }

  lemma StartKeepsAlive(q: Queue)
    requires q.dispatch != [] && !IsBar(q.dispatch[0])
    ensures AliveOf(Start(q)) == AliveOf(q) && Picked(Start(q).dispatch, true) == Picked(q.dispatch, true)
  {
    var r := q.dispatch[0];
    PickedTail(q.dispatch, true);
    PickedTail(q.dispatch, false);
    assert AtDriver(q.driver + {r}) == AtDriver(q.driver) + Pair(r, false) by {
      if r.kind.Fs? { assert r in q.driver + {r}; }
      forall p | p in AtDriver(q.driver) ensures p in AtDriver(q.driver + {r}) {
        var x :| x in q.driver && x.kind.Fs? && !x.hard && (x.id, x.epoch) == p;
        assert x in q.driver + {r};
      }
    }
  }

  lemma HandFs(q: Queue, h: Hist, g: Hist)
    requires Honest(h) && h == HistOf(q) && Base(q) && Due(OrderOf(q))
    requires q.dispatch[0].kind.Fs? && !q.dispatch[0].hard
    requires g == h.(log := h.log + [Issued(q.dispatch[0].id, q.dispatch[0].Payload())])
    ensures Honest(g)
  {
    assert InDispatch(q.dispatch[0], q.nextId);
    HeadAlive(q);
    IssueDue(h, q.dispatch[0].id);
    HistIssue(h, q.dispatch[0].id, q.dispatch[0].Payload(), g);
  }

  lemma OrigNotWaiting(q: Queue)
    requires Stashed(q) && !q.ordseq.Idle()
    ensures forall e :: (q.orig.id, e) !in Picked(q.dispatch, true)
  {}

  lemma HandProxy(q: Queue, g: Hist)
    requires Sound(q) && Grantable(q) && q.dispatch[0].IsProxy()
    requires g == HistOf(q).(log := q.log + [IssuedProxy(q.orig.id, q.dispatch[0].kind, q.dispatch[0].Payload())])
    ensures Honest(g)
  {
    BaseFrame(q);
    assert !q.ordseq.Idle();
    AliveLater(q);
    OrigNotWaiting(q);
    ProxyDue(HistOf(q));
    HistIssueProxy(HistOf(q), q.dispatch[0].kind, q.dispatch[0].Payload(), g);
  }

  lemma StartHonest(q: Queue)
    requires Sound(q) && Grantable(q) && Due(OrderOf(q))
    ensures Honest(HistOf(Start(q)))
  {
    StartKeepsAlive(q);
    if q.dispatch[0].kind.Fs? {
      HandFs(q, HistOf(q), HistOf(Start(q)));
    } else if q.dispatch[0].IsProxy() {
      HandProxy(q, HistOf(Start(q)));
    }
  }

  lemma FetchHonest(q: Queue, calls: seq<seq<Pick>>)
    requires Sound(q)
    ensures Honest(HistOf(Fetch(q, calls)))
  {
    PeekHonest(q, calls);
    PeekBase(q, calls);
    PeekDrain(q, calls);
    if Peek(q, calls).1 { StartHonest(Peek(q, calls).0); }
  }

  // ---- completion and requeue ----

  lemma DriverAlive(q: Queue, r: Request)
    requires Apart(q.dispatch, q.sched, q.driver) && r in q.driver && r.kind.Fs? && !r.hard
    ensures forall p :: p in AliveOf(Settled(q, r)) <==> p in AliveOf(q) && p.0 != r.id
  {
    forall p | p in AliveOf(q) && p.0 != r.id ensures p in AliveOf(Settled(q, r)) {
      if p in AtDriver(q.driver) {
        var x :| x in q.driver && x.kind.Fs? && !x.hard && (x.id, x.epoch) == p;
        assert x in q.driver - {r};
      }
    }
  }

  lemma DriverOther(q: Queue, r: Request)
    requires !r.kind.Fs?
    ensures AliveOf(Settled(q, r)) == AliveOf(q)
  {
    forall p | p in AtDriver(q.driver) ensures p in AtDriver(q.driver - {r}) {
      var x :| x in q.driver && x.kind.Fs? && !x.hard && (x.id, x.epoch) == p;
      assert x in q.driver - {r};
    }
  }

  /** `t` is `q` with a phase complete; if that was the last one, nothing of this epoch is alive. */
  ghost predicate Finishes(q: Queue, t: Queue) {
    && !HasEnded(q.log, q.orig.id) && q.orig.id < q.nextId && (forall e :: (q.orig.id, e) !in Picked(q.dispatch, true))
    && Ranked(OrderOf(t)) && t.done <= t.epoch
  }

  /** Completing a phase: nothing more is logged, or the end. */
  lemma PhaseHonest(q: Queue, bits: Phases, error: int)
    requires Honest(HistOf(q)) && !q.ordseq.Idle() && Finishes(q, CompleteSeq(q, bits, error))
    ensures Honest(HistOf(CompleteSeq(q, bits, error)))
  {
    hide Honest, Ranked;
    var t := CompleteSeq(q, bits, error);
    if Over(q.ordseq, bits) {
      AliveFrom(t);
      assert AliveOf(t) == AliveOf(q) && t.done == q.done + 1;
      ProxyDue(HistOf(q));
      HistEnd(HistOf(q), Record(q, error).orderr, HistOf(t));
    } else {
      assert !q.ordseq.Or(bits).Idle();
      assert HistOf(t) == HistOf(q);
    }
  }

  lemma ElvHonest(s: Queue)
    requires Honest(HistOf(s)) && (Drained(s) ==> Finishes(s, CompleteSeq(s, BIT_DRAIN, 0)))
    ensures Drained(s) ==> Honest(HistOf(CompleteSeq(s, BIT_DRAIN, 0)))
  {
    hide Honest, Finishes;
    if Drained(s) { PhaseHonest(s, BIT_DRAIN, 0); }
  }

  lemma OrigFacts(q: Queue)
    requires Base(q) && !q.ordseq.Idle()
    ensures q.orig.id < q.nextId && (forall e :: (q.orig.id, e) !in Picked(q.dispatch, true))
  {
    OrigNotWaiting(q);
  }

  lemma EpochsOpen(q: Queue)
    requires Base(q)
    ensures q.done <= q.epoch
  {}

  /** What completing `r` leaves, as far as the end of the sequence needs it. */
  lemma CompleteFinishes(q: Queue, r: Request, error: int, s: Queue)
    requires Sound(q) && r in q.driver && !q.ordseq.Idle()
    requires s.orig == q.orig && s.nextId == q.nextId && s.dispatch == q.dispatch
    requires s.log == q.log || (exists e: Event :: !e.Ended? && s.log == q.log + [e])
    ensures Finishes(s, Complete(q, r, error))
  {
    hide Honest, EndInv, Base, Ranked, Complete, Picked;
    CompleteDrain(q, r, error);
    CompleteBase(q, r, error);
    EpochsOpen(Complete(q, r, error));
    OrigFacts(q);
    NotEndedYet(ViewOf(q));
    if e: Event :| !e.Ended? && s.log == q.log + [e] { HasAppend(q.log, e, q.orig.id); }
  }

  lemma NotEndedYet(v: View)
    requires EndInv(v) && v.active
    ensures !HasEnded(v.log, v.orig)
  {}

  lemma CompleteFsHonest(q: Queue, r: Request)
    requires Sound(q) && r in q.driver && r.kind.Fs?
    ensures Honest(HistOf(ElvCompleted(q.(log := q.log + [Completed(r.id)]), r)))
  {
    hide Honest, EndInv, Ranked, Finishes;
    assert InDriver(r, q.nextId);
    var n := q.(log := q.log + [Completed(r.id)]);
    DriverAlive(q, r);
    HistComplete(HistOf(q), r.id, HistOf(Settled(n, r)));
    if Drained(Settled(n, r)) { CompleteFinishes(q, r, 0, Settled(n, r)); }
    ElvHonest(Settled(n, r));
  }

  lemma CompleteProxyHonest(q: Queue, r: Request, error: int)
    requires Sound(q) && !q.ordseq.Idle() && r in q.driver && r.IsProxy()
    requires Complete(q, r, error) == CompleteSeq(Answered(q, r, error), PhaseOf(r.kind), error)
    ensures Honest(HistOf(Complete(q, r, error)))
  {
    hide Honest, EndInv, Ranked, Finishes, Complete, CompleteSeq;
    var s, e := Answered(q, r, error), ProxyDone(q.orig.id, r.kind, error);
    DriverOther(q, r);
    HistOther(HistOf(q), e, HistOf(s));
    assert !e.Ended? && s.log == q.log + [e];
    CompleteFinishes(q, r, error, s);
    PhaseHonest(s, PhaseOf(r.kind), error);
  }

  lemma CompleteHonest(q: Queue, r: Request, error: int)
    requires Sound(q) && r in q.driver
    ensures Honest(HistOf(Complete(q, r, error)))
  {
    hide Honest, EndInv, Ranked, Finishes;
    if r.IsProxy() {
      ProxyPhase(q, r);
      AnsweredIs(q, r, error);
      CompleteProxyHonest(q, r, error);
    } else if r.kind.Fs? {
      CompleteFsHonest(q, r);
    } else {
      DriverOther(q, r);
      assert HistOf(Settled(q, r)) == HistOf(q);
      if Drained(Settled(q, r)) { CompleteFinishes(q, r, error, Settled(q, r)); }
      ElvHonest(Settled(q, r));
    }
  }

  lemma RequeueHist(q: Queue, r: Request)
    requires r in q.driver && !IsBar(r)
    ensures HistOf(Requeue(q, r)) == HistOf(q)
  {
    RequeueIs(q, r);
    var x := r.(started := false, soft := true);
    PickedInsert(q.dispatch, RequeuedAt(q, r), x, true);
    PickedInsert(q.dispatch, RequeuedAt(q, r), x, false);
    assert AtDriver(q.driver) == AtDriver(q.driver - {r}) + Pair(x, false) by {
      forall p | p in AtDriver(q.driver) ensures p in AtDriver(q.driver - {r}) + Pair(x, false) {
        var y :| y in q.driver && y.kind.Fs? && !y.hard && (y.id, y.epoch) == p;
        if y != r { assert y in q.driver - {r}; }
      }
    }
  }

  // ---- adding ----

  lemma FrontHist(n: Queue, r: Request, order: seq<Pick>)
    requires !IsBar(r)
    ensures HistOf(Insert(n, r, Front, order)) == HistOf(n).(alive := AliveOf(n) + Pair(r, false))
  {
    var y := r.(soft := true);
    assert InsertAt(n.dispatch, 0, y) == [y] + n.dispatch;
    PickedInsert(n.dispatch, 0, y, true);
    PickedInsert(n.dispatch, 0, y, false);
  }

  lemma AppendHist(d: Queue, y: Request)
    requires !IsBar(y)
    ensures HistOf(d.(dispatch := d.dispatch + [y])) == HistOf(d).(alive := AliveOf(d) + Pair(y, false))
  {
    assert InsertAt(d.dispatch, |d.dispatch|, y) == d.dispatch + [y];
    PickedInsert(d.dispatch, |d.dispatch|, y, true);
    PickedInsert(d.dispatch, |d.dispatch|, y, false);
  }

  lemma BackHist(n: Queue, r: Request, order: seq<Pick>)
    requires forall i :: 0 <= i < |n.sched| ==> n.sched[i].kind.Fs? && !n.sched[i].hard
    requires !IsBar(r)
    ensures HistOf(Insert(n, r, Back, order)) == HistOf(n).(alive := AliveOf(n) + Pair(r, false))
  {
    MovesHist(n, DrainOrder(|n.sched|, order));
    AppendHist(Drain(n, order), r.(soft := true));
    assert HistOf(Drain(n, order)).alive == HistOf(n).alive;
  }

  lemma SortHist(n: Queue, r: Request, order: seq<Pick>)
    ensures HistOf(Insert(n, r, Sort, order)) == HistOf(n).(alive := AliveOf(n) + Pair(r, false))
  {
    assert InsertAt(n.sched, |n.sched|, r) == n.sched + [r];
    PickedInsert(n.sched, |n.sched|, r, false);
  }

  lemma InsertHist(n: Queue, r: Request, where: Where, order: seq<Pick>)
    requires forall i :: 0 <= i < |n.sched| ==> n.sched[i].kind.Fs? && !n.sched[i].hard
    requires !IsBar(r)
    ensures HistOf(Insert(n, r, where, order)) == HistOf(n).(alive := AliveOf(n) + Pair(r, false))
  {
    match where
    case Front => FrontHist(n, r, order);
    case Back => BackHist(n, r, order);
    case Sort => SortHist(n, r, order);
  }

  lemma AddFsHonest(q: Queue, s: Step)
    requires Base(q) && Honest(HistOf(q)) && s.AddFs?
    ensures Honest(HistOf(Apply(q, s)))
  {
    hide Honest, Insert;
    AddFsIs(q, s);
    InsertHist(FsRoom(q, s), NewFs(q, s).(color := q.ordcolor), FsWhere(s), s.order);
    HistAdd(HistOf(q), Data(s.write, s.discard, s.pos, s.sectors), HistOf(Apply(q, s)));
  }

  lemma HistIdle(h: Hist, g: Hist)
    requires Honest(h) && g == h.(nextId := h.nextId + 1)
    ensures Honest(g)
  {}

  lemma AddSpecialHonest(q: Queue, s: Step)
    requires Base(q) && Honest(HistOf(q)) && s.AddSpecial?
    ensures Honest(HistOf(Apply(q, s)))
  {
    AddSpecialIs(q, s);
    SpecialHist(q, SpecialWhere(s), s.order);
    HistIdle(HistOf(q), HistOf(Apply(q, s)));
  }

  lemma SpecialHist(q: Queue, where: Where, order: seq<Pick>)
    requires forall i :: 0 <= i < |q.sched| ==> q.sched[i].kind.Fs? && !q.sched[i].hard
    ensures HistOf(Insert(SpecialRoom(q), Blank(q.nextId, Special).(color := q.ordcolor), where, order)) ==
            HistOf(q).(nextId := q.nextId + 1)
  {
    InsertHist(SpecialRoom(q), Blank(q.nextId, Special).(color := q.ordcolor), where, order);
  }

  lemma ClosedHist(q: Queue, n: Queue, b: Request, order: seq<Pick>, t: Queue)
    requires forall i :: 0 <= i < |n.sched| ==> n.sched[i].kind.Fs? && !n.sched[i].hard
    requires IsBar(b) && ClosedFrom(n, b, order, t)
    ensures HistOf(t) == HistOf(n).(bars := Picked(n.dispatch, true) + {(b.id, b.epoch)}, epoch := n.epoch + 1)
  {
    MovesHist(n, DrainOrder(|n.sched|, order));
    var d := Drain(n, order);
    assert InsertAt(d.dispatch, |d.dispatch|, b) == d.dispatch + [b];
    PickedInsert(d.dispatch, |d.dispatch|, b, true);
    PickedInsert(d.dispatch, |d.dispatch|, b, false);
  }

  lemma AddBarrierHonest(q: Queue, s: Step, t: Queue)
    requires Base(q) && Honest(HistOf(q)) && s.AddBarrier?
    requires ClosedFrom(BarrierRoom(q, s), QueuedBarrier(q, s), s.order, t)
    ensures Honest(HistOf(t))
  {
    ClosedHist(q, BarrierRoom(q, s), QueuedBarrier(q, s), s.order, t);
    HistAddBarrier(HistOf(q), Data(s.write, false, s.pos, s.sectors), HistOf(t));
  }

  // ---- the theorem ----

  lemma AddHonest(q: Queue, s: Step)
    requires Base(q) && Honest(HistOf(q)) && (s.AddFs? || s.AddBarrier? || s.AddSpecial?)
    ensures Honest(HistOf(Apply(q, s)))
  {
    if s.AddFs? {
      AddFsHonest(q, s);
    } else if s.AddSpecial? {
      AddSpecialHonest(q, s);
    } else {
      AddBarrierIs(q, s);
      AddBarrierHonest(q, s, Apply(q, s));
    }
  }

  lemma OtherHonest(q: Queue, s: Step)
    requires Sound(q) && (s.Elevator? || s.CompleteOne? || s.RequeueOne?)
    ensures Honest(HistOf(Apply(q, s)))
  {
    hide Honest, Moves, Complete, Requeue;
    if s.Elevator? {
      MovesHist(q, s.picks);
    } else if s.rq in q.driver {
      if s.CompleteOne? { CompleteHonest(q, s.rq, s.error); } else { RequeueHist(q, s.rq); }
    }
  }

  lemma ApplyHonest(q: Queue, s: Step)
    requires Sound(q)
    ensures Honest(HistOf(Apply(q, s)))
  {
    if s.PeekOnly? {
      PeekHonest(q, s.calls);
    } else if s.FetchOne? {
      FetchHonest(q, s.calls);
    } else if s.AddFs? || s.AddBarrier? || s.AddSpecial? {
      AddHonest(q, s);
    } else {
      OtherHonest(q, s);
    }
  }

  lemma ApplySound(q: Queue, s: Step)
    requires Sound(q)
    ensures Sound(Apply(q, s))
  {
    ApplyGood(q, s);
    ApplyCalm(q, s);
    ApplyHonest(q, s);
  }

  lemma NothingYet(v: View, h: Hist)
    requires v.log == [] && !v.active && v.waiting == {} && h.log == []
    ensures EndInv(v) && Honest(h)
  {}

  lemma InitSound(mode: Mode)
    requires DrainMode(mode)
    ensures Sound(Init(mode))
  {
    InitBase(mode);
    var q := Init(mode);
    assert BarIds(q.dispatch) == {};
    NothingYet(ViewOf(q), HistOf(q));
    InitRanked(mode);
  }

  lemma InitRanked(mode: Mode)
    ensures Ranked(OrderOf(Init(mode)))
  {}

  lemma {:induction false} RunSound(mode: Mode, steps: seq<Step>)
    requires DrainMode(mode)
    ensures Sound(Run(Init(mode), steps))
    decreases |steps|
  {
    if steps == [] {
      InitSound(mode);
    } else {
      RunSound(mode, steps[..|steps| - 1]);
      ApplySound(Run(Init(mode), steps[..|steps| - 1]), steps[|steps| - 1]);
    }
  }

  /**
    In every run of a drain-ordered queue nothing crosses a barrier, in either direction, and a barrier ends only
    after everything added before it.
  */
  lemma RunBarriersHold(mode: Mode, steps: seq<Step>)
    requires DrainMode(mode)
    ensures BarriersHold(Run(Init(mode), steps).log)
  {
    RunSound(mode, steps);
  }
}
