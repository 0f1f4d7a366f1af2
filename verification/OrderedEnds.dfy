/**
  Each started sequence ends its original request exactly once, with the first error seen.
  In every ordering mode; the current phase never moves back.
*/
module OrderedEnds {
  import opened Common
  import opened OrderedQueue
  import opened OrderedBase
  import opened OrderedSteps

  /** The first nonzero error the proxies of barrier `b` reported. */
  function SeqError(log: seq<Event>, b: nat): int {
    if log == [] then 0
    else
      var last := log[|log| - 1];
      var before := SeqError(log[..|log| - 1], b);
      if before != 0 then before
      else if last.ProxyDone? && last.id == b then last.error else 0
  }

  ghost predicate HasEnded(log: seq<Event>, b: nat) {
    exists k :: 0 <= k < |log| && log[k].Ended? && log[k].id == b
  }

  ghost predicate HasStarted(log: seq<Event>, b: nat) {
    exists k :: 0 <= k < |log| && log[k].Started? && log[k].id == b
  }

  /** Every end in the log: of a started sequence, once, with the first error seen before it. */
  ghost predicate EndsOnce(log: seq<Event>) {
    && (forall i, j :: 0 <= i < j < |log| && log[i].Ended? && log[j].Ended? ==> log[i].id != log[j].id)
    && (forall k :: 0 <= k < |log| && log[k].Ended? ==> log[k].error == SeqError(log[..k], log[k].id))
    && (forall k :: 0 <= k < |log| && log[k].Ended? ==> HasStarted(log[..k], log[k].id))
  }

  /** The phases a method asks for, and those that are complete. */
  predicate Asks(m: Mode, k: Kind) {
    (k.PreFlush? && m.preflush) || (k.BarProxy? && m.bar) || (k.PostFlush? && m.postflush)
  }

  predicate BitOf(p: Phases, k: Kind) {
    (k.PreFlush? && p.preflush) || (k.BarProxy? && p.bar) || (k.PostFlush? && p.postflush)
  }

  /** The method barrier `b` was started by. */
  function MethodOf(log: seq<Event>, b: nat): Mode {
    if log == [] then NONE
    else
      var last := log[|log| - 1];
      if last.Started? && last.id == b then last.mode else MethodOf(log[..|log| - 1], b)
  }

  /** How often a proxy of this kind reported for barrier `b`. */
  function Reports(log: seq<Event>, b: nat, k: Kind): nat {
    if log == [] then 0
    else
      var last := log[|log| - 1];
      Reports(log[..|log| - 1], b, k) + if last.ProxyDone? && last.id == b && last.kind == k then 1 else 0
  }

  /** Each phase its method asks for has reported once, and no other. */
  ghost predicate AllReported(log: seq<Event>, b: nat) {
    forall k :: Reports(log, b, k) == if Asks(MethodOf(log, b), k) then 1 else 0
  }

  /** Every end in the log comes after one report of each phase its method asks for. */
  ghost predicate EndsComplete(log: seq<Event>) {
    forall k :: 0 <= k < |log| && log[k].Ended? ==> AllReported(log[..k], log[k].id)
  }

  predicate AboutSequence(e: Event) { e.Started? || e.Ended? || e.ProxyDone? }

  /** The part of the state the ends depend on. */
  datatype View = View(log: seq<Event>, active: bool, orig: nat, orderr: int, waiting: set<nat>, nextId: nat,
                       bits: Phases, mode: Mode)

  function BarIds(d: seq<Request>): set<nat> { set i | 0 <= i < |d| && IsBar(d[i]) :: d[i].id }

  function ViewOf(q: Queue): View {
    View(q.log, !q.ordseq.Idle(), q.orig.id, q.orderr, BarIds(q.dispatch), q.nextId, q.ordseq, q.ordered)
  }

  /** The phases of the sequence in progress that are complete are those that reported, once each. */
  ghost predicate Tallied(v: View) {
    && MethodOf(v.log, v.orig) == v.mode
    && forall k :: Reports(v.log, v.orig, k) == if Asks(v.mode, k) && BitOf(v.bits, k) then 1 else 0
  }

  ghost predicate PhaseInv(v: View) { EndsComplete(v.log) && (v.active ==> Tallied(v)) }

  ghost predicate EndInv(v: View) { OnceInv(v) && PhaseInv(v) }

  ghost predicate OnceInv(v: View) {
    && EndsOnce(v.log)
    && (forall k :: 0 <= k < |v.log| && v.log[k].Started? ==>
          HasEnded(v.log, v.log[k].id) || (v.active && v.orig == v.log[k].id))
    && (v.active ==> HasStarted(v.log, v.orig) && !HasEnded(v.log, v.orig) && v.orderr == SeqError(v.log, v.orig))
    && (v.active ==> v.orig < v.nextId && v.orig !in v.waiting)
    && (forall k :: 0 <= k < |v.log| && AboutSequence(v.log[k]) ==>
          v.log[k].id < v.nextId && v.log[k].id !in v.waiting)
    && (forall b :: b in v.waiting ==> b < v.nextId)
  }

  lemma HasAppend(log: seq<Event>, e: Event, b: nat)
    ensures HasStarted(log + [e], b) <==> HasStarted(log, b) || (e.Started? && e.id == b)
    ensures HasEnded(log + [e], b) <==> HasEnded(log, b) || (e.Ended? && e.id == b)
  {
    var l := log + [e];
    if k :| 0 <= k < |log| && log[k].Started? && log[k].id == b { assert l[k] == log[k]; }
    if k :| 0 <= k < |log| && log[k].Ended? && log[k].id == b { assert l[k] == log[k]; }
    assert l[|log|] == e;
  }

  lemma ErrorAppend(log: seq<Event>, e: Event, b: nat)
    ensures SeqError(log + [e], b) ==
            if SeqError(log, b) != 0 then SeqError(log, b)
            else if e.ProxyDone? && e.id == b then e.error else 0
  {
    assert (log + [e])[..|log|] == log;
  }

  lemma TallyAppend(log: seq<Event>, e: Event, b: nat)
    ensures MethodOf(log + [e], b) == if e.Started? && e.id == b then e.mode else MethodOf(log, b)
    ensures forall k :: Reports(log + [e], b, k) ==
              Reports(log, b, k) + if e.ProxyDone? && e.id == b && e.kind == k then 1 else 0
  {
    assert (log + [e])[..|log|] == log;
  }

  /** `log + [e]` is in order when `log` is and `e` is a due end or no end. */
  lemma EndsAppend(log: seq<Event>, e: Event)
    requires EndsOnce(log)
    requires e.Ended? ==> !HasEnded(log, e.id) && e.error == SeqError(log, e.id) && HasStarted(log, e.id)
    ensures EndsOnce(log + [e])
  {
    var l := log + [e];
    assert l[..|log|] == log;
    forall k | 0 <= k < |log| ensures l[..k] == log[..k] {}
  }

  lemma CompleteAppend(log: seq<Event>, e: Event)
    requires EndsComplete(log) && (e.Ended? ==> AllReported(log, e.id))
    ensures EndsComplete(log + [e])
  {
    hide AllReported;
    var l := log + [e];
    assert l[..|log|] == log;
    forall k | 0 <= k < |log| ensures l[..k] == log[..k] {}
  }

  /** An event that is no part of a sequence; a barrier may join those waiting. */
  lemma ViewOther(v: View, e: Event, w: View)
    requires EndInv(v) && !AboutSequence(e)
    requires w == v.(log := v.log + [e], waiting := w.waiting, nextId := w.nextId) && v.nextId <= w.nextId
    requires forall b :: b in w.waiting ==> b in v.waiting || v.nextId <= b < w.nextId
    ensures EndInv(w)
  {
    hide PhaseInv;
    assert PhaseInv(w) by { PhaseOther(v, e, w); }
    EndsAppend(v.log, e);
    forall b ensures HasStarted(w.log, b) <==> HasStarted(v.log, b)
             ensures HasEnded(w.log, b) <==> HasEnded(v.log, b) { HasAppend(v.log, e, b); }
    ErrorAppend(v.log, e, v.orig);
  }

  lemma PhaseOther(v: View, e: Event, w: View)
    requires PhaseInv(v) && !AboutSequence(e)
    requires w == v.(log := v.log + [e], waiting := w.waiting, nextId := w.nextId)
    ensures PhaseInv(w)
  {
    CompleteAppend(v.log, e);
    TallyAppend(v.log, e, v.orig);
  }

  /** Nothing logged. */
  lemma ViewQuiet(v: View, w: View)
    requires EndInv(v) && w == v.(waiting := w.waiting, nextId := w.nextId) && v.nextId <= w.nextId
    requires forall b :: b in w.waiting ==> b in v.waiting || v.nextId <= b < w.nextId
    ensures EndInv(w)
  {}

  lemma {:induction false} NoErrors(log: seq<Event>, b: nat)
    requires forall k :: 0 <= k < |log| && log[k].ProxyDone? ==> log[k].id != b
    ensures SeqError(log, b) == 0 && forall k :: Reports(log, b, k) == 0
  {
    if log != [] { NoErrors(log[..|log| - 1], b); }
  }

  /** A waiting barrier's sequence begins. */
  lemma ViewStart(v: View, b: nat, w: View)
    requires EndInv(v) && !v.active && b in v.waiting
    requires w == v.(log := v.log + [Started(b, w.mode)], active := true, orig := b, orderr := 0,
                     waiting := w.waiting, bits := w.bits, mode := w.mode)
    requires w.waiting == v.waiting - {b} && forall k :: Asks(w.mode, k) ==> !BitOf(w.bits, k)
    ensures EndInv(w)
  {
    hide PhaseInv;
    var e := Started(b, w.mode);
    EndsAppend(v.log, e);
    forall x ensures HasStarted(w.log, x) <==> HasStarted(v.log, x) || x == b
             ensures HasEnded(w.log, x) <==> HasEnded(v.log, x) { HasAppend(v.log, e, x); }
    NoErrors(v.log, b);
    ErrorAppend(v.log, e, b);
    assert PhaseInv(w) by { PhaseStart(v, b, w); }
  }

  lemma PhaseStart(v: View, b: nat, w: View)
    requires PhaseInv(v) && forall k :: Reports(v.log, b, k) == 0
    requires w == v.(log := v.log + [Started(b, w.mode)], active := true, orig := b, orderr := 0,
                     waiting := w.waiting, bits := w.bits, mode := w.mode)
    requires forall k :: Asks(w.mode, k) ==> !BitOf(w.bits, k)
    ensures PhaseInv(w)
  {
    CompleteAppend(v.log, Started(b, w.mode));
    TallyAppend(v.log, Started(b, w.mode), b);
  }

  /** A proxy of the sequence in progress reports, and its phase is complete. */
  lemma ViewReport(v: View, k: Kind, error: int, w: View)
    requires EndInv(v) && v.active && Asks(v.mode, k) && !BitOf(v.bits, k)
    requires w == v.(log := v.log + [ProxyDone(v.orig, k, error)], bits := v.bits.Or(PhaseOf(k)),
                     orderr := if error != 0 && v.orderr == 0 then error else v.orderr)
    ensures EndInv(w)
  {
    hide PhaseInv;
    var e := ProxyDone(v.orig, k, error);
    EndsAppend(v.log, e);
    forall b ensures HasStarted(w.log, b) <==> HasStarted(v.log, b)
             ensures HasEnded(w.log, b) <==> HasEnded(v.log, b) { HasAppend(v.log, e, b); }
    ErrorAppend(v.log, e, v.orig);
    assert PhaseInv(w) by { PhaseReport(v, k, error, w); }
  }

  lemma PhaseReport(v: View, k: Kind, error: int, w: View)
    requires PhaseInv(v) && v.active && Asks(v.mode, k) && !BitOf(v.bits, k)
    requires w == v.(log := v.log + [ProxyDone(v.orig, k, error)], bits := v.bits.Or(PhaseOf(k)), orderr := w.orderr)
    ensures PhaseInv(w)
  {
    CompleteAppend(v.log, ProxyDone(v.orig, k, error));
    TallyAppend(v.log, ProxyDone(v.orig, k, error), v.orig);
    assert forall j :: BitOf(w.bits, j) <==> BitOf(v.bits, j) || j == k;
  }

  /** The sequence in progress is over. */
  lemma ViewEnd(v: View, w: View)
    requires EndInv(v) && v.active && forall k :: Asks(v.mode, k) ==> BitOf(v.bits, k)
    requires w == v.(log := v.log + [Ended(v.orig, v.orderr)], active := false, bits := w.bits)
    ensures EndInv(w)
  {
    hide EndsComplete;
    var e := Ended(v.orig, v.orderr);
    EndsAppend(v.log, e);
    forall b ensures HasStarted(w.log, b) <==> HasStarted(v.log, b)
             ensures HasEnded(w.log, b) <==> HasEnded(v.log, b) || b == v.orig { HasAppend(v.log, e, b); }
    CompleteAppend(v.log, e);
  }

  // ---- the view of each operation ----

  lemma BarIdsInsert(d: seq<Request>, k: nat, x: Request)
    requires k <= |d|
    ensures BarIds(InsertAt(d, k, x)) == if IsBar(x) then BarIds(d) + {x.id} else BarIds(d)
  {
    var e := InsertAt(d, k, x);
    forall b | b in BarIds(d) ensures b in BarIds(e) {
      var i :| 0 <= i < |d| && IsBar(d[i]) && d[i].id == b;
      assert e[if i < k then i else i + 1] == d[i];
    }
    forall b | b in BarIds(e) ensures b in BarIds(d) || (IsBar(x) && b == x.id) {
      var i :| 0 <= i < |e| && IsBar(e[i]) && e[i].id == b;
      if i != k { assert d[if i < k then i else i - 1] == e[i]; }
    }
    if IsBar(x) { assert e[k] == x; }
  }

  lemma BarIdsTail(d: seq<Request>)
    requires d != [] && forall i, j :: 0 <= i < j < |d| ==> d[i].id != d[j].id
    ensures BarIds(d[1..]) == if IsBar(d[0]) then BarIds(d) - {d[0].id} else BarIds(d)
  {
    var e := d[1..];
    forall b | b in BarIds(e) ensures b in BarIds(d) && b != d[0].id {
      var i :| 0 <= i < |e| && IsBar(e[i]) && e[i].id == b;
      assert d[i + 1] == e[i];
    }
    forall b | b in BarIds(d) && (b != d[0].id || !IsBar(d[0])) ensures b in BarIds(e) {
      var i :| 0 <= i < |d| && IsBar(d[i]) && d[i].id == b;
      assert e[i - 1] == d[i];
    }
  }

  lemma BarIdsPrefix(p: seq<Request>, d: seq<Request>)
    requires forall i :: 0 <= i < |p| ==> !IsBar(p[i])
    ensures BarIds(p + d) == BarIds(d)
  {
    forall b | b in BarIds(d) ensures b in BarIds(p + d) {
      var i :| 0 <= i < |d| && IsBar(d[i]) && d[i].id == b;
      assert (p + d)[|p| + i] == d[i];
    }
  }

  lemma {:induction false} MovesView(q: Queue, ps: seq<Pick>)
    requires forall i :: 0 <= i < |q.sched| ==> !IsBar(q.sched[i])
    ensures ViewOf(Moves(q, ps)) == ViewOf(q)
    decreases ps
  {
    if ps != [] {
      MoveLists(q, ps[0]);
      if ps[0].index < |q.sched| { BarIdsInsert(q.dispatch, LandsAt(q, ps[0]), q.sched[ps[0].index]); }
      MovesView(Move(q, ps[0]), ps[1..]);
    }
  }

  ghost predicate Good(q: Queue) { Base(q) && EndInv(ViewOf(q)) }

  lemma StartedWaiting(q: Queue, t: Queue)
    requires StartedFrom(q, t) && FIRST_ID <= q.nextId
    requires forall i, j :: 0 <= i < j < |q.dispatch| ==> q.dispatch[i].id != q.dispatch[j].id
    ensures BarIds(t.dispatch) == BarIds(q.dispatch) - {q.dispatch[0].id}
  {
    ProxiesEmbedded(t.ordered, q.dispatch[0], q.nextId);
    BarIdsTail(q.dispatch);
    BarIdsPrefix(Proxies(t.ordered, q.dispatch[0]), q.dispatch[1..]);
  }

  /** A waiting barrier's sequence begins and, when every phase is skipped, ends. */
  function StartView(v: View, b: nat, m: Mode, bits: Phases): View {
    var over := bits.Idle();
    v.(log := v.log + [Started(b, m)] + (if over then [Ended(b, 0)] else []), active := !over, orig := b,
       orderr := 0, waiting := v.waiting - {b}, bits := bits, mode := m)
  }

  lemma ViewStartOver(v: View, b: nat, m: Mode, bits: Phases)
    requires EndInv(v) && !v.active && b in v.waiting
    requires forall k :: Asks(m, k) ==> !bits.Idle() && !BitOf(bits, k)
    ensures EndInv(StartView(v, b, m, bits))
  {
    var w := v.(log := v.log + [Started(b, m)], active := true, orig := b, orderr := 0,
                waiting := v.waiting - {b}, bits := bits, mode := m);
    ViewStart(v, b, w);
    if bits.Idle() {
      ViewEnd(w, StartView(v, b, m, bits));
    } else {
      assert v.log + [Started(b, m)] + [] == v.log + [Started(b, m)];
    }
  }

  lemma StartedView(q: Queue, t: Queue)
    requires StartedFrom(q, t) && BarIds(t.dispatch) == BarIds(q.dispatch) - {q.dispatch[0].id}
    ensures ViewOf(t) == StartView(ViewOf(q), q.dispatch[0].id, t.ordered, t.ordseq)
    ensures forall k :: Asks(t.ordered, k) ==> !t.ordseq.Idle() && !BitOf(t.ordseq, k)
  {}

  lemma StartedEnds(q: Queue, t: Queue)
    requires EndInv(ViewOf(q)) && q.ordseq.Idle() && q.dispatch != [] && IsBar(q.dispatch[0])
    requires ViewOf(t) == StartView(ViewOf(q), q.dispatch[0].id, t.ordered, t.ordseq)
    requires forall k :: Asks(t.ordered, k) ==> !t.ordseq.Idle() && !BitOf(t.ordseq, k)
    ensures EndInv(ViewOf(t))
  {
    hide EndInv;
    ViewStartOver(ViewOf(q), q.dispatch[0].id, t.ordered, t.ordseq);
  }

  lemma RejectedEnds(q: Queue, t: Queue)
    requires Good(q) && RejectedFrom(q, t)
    ensures EndInv(ViewOf(t))
  {
    BarIdsTail(q.dispatch);
    ViewOther(ViewOf(q), Rejected(q.dispatch[0].id), ViewOf(t));
  }

  lemma DoOrderedGood(q: Queue)
    requires Good(q) && q.dispatch != []
    ensures Good(DoOrdered(q).q)
  {
    DoOrderedBase(q);
    DoOrderedCases(q);
    var t := DoOrdered(q).q;
    if StartedFrom(q, t) {
      StartedWaiting(q, t);
      StartedView(q, t);
      StartedEnds(q, t);
    } else if RejectedFrom(q, t) {
      RejectedEnds(q, t);
    } else {
      assert ViewOf(t) == ViewOf(q);
    }
  }

  lemma {:induction false} NextRequestGood(q: Queue, calls: seq<seq<Pick>>)
    requires Good(q)
    ensures Good(NextRequest(q, calls).0)
    decreases |calls|, |q.dispatch|
  {
    hide EndInv;
    if q.dispatch != [] {
      DoOrderedGood(q);
      if !DoOrdered(q).stop {
        GoneShrinks(q);
        NextRequestGood(DoOrdered(q).q, calls);
      }
    } else if calls != [] && |Moves(q, calls[0]).sched| != |q.sched| {
      MovesBase(q, calls[0]);
      MovesView(q, calls[0]);
      NextRequestGood(Moves(q, calls[0]), calls[1..]);
    }
  }

  lemma MarkView(q: Queue, m: Queue)
    requires q.dispatch != [] && Marked(q, m)
    ensures ViewOf(m) == ViewOf(q)
  {
    forall b | b in BarIds(q.dispatch) ensures b in BarIds(m.dispatch) {
      var i :| 0 <= i < |q.dispatch| && IsBar(q.dispatch[i]) && q.dispatch[i].id == b;
      assert IsBar(m.dispatch[i]);
    }
    forall b | b in BarIds(m.dispatch) ensures b in BarIds(q.dispatch) {
      var i :| 0 <= i < |m.dispatch| && IsBar(m.dispatch[i]) && m.dispatch[i].id == b;
      assert IsBar(q.dispatch[i]);
    }
  }

  lemma PeekGood(q: Queue, calls: seq<seq<Pick>>)
    requires Good(q)
    ensures Good(Peek(q, calls).0)
  {
    PeekBase(q, calls);
    NextRequestGood(q, calls);
    PeekMarks(q, calls);
    if Peek(q, calls).1 { MarkView(NextRequest(q, calls).0, Peek(q, calls).0); }
  }

  lemma StartEnds(q: Queue)
    requires Good(q) && Grantable(q)
    ensures EndInv(ViewOf(Start(q)))
  {
    hide EndInv;
    var r := q.dispatch[0];
    BarIdsTail(q.dispatch);
    if r.kind.Fs? {
      ViewOther(ViewOf(q), Issued(r.id, r.Payload()), ViewOf(Start(q)));
    } else if r.IsProxy() {
      ViewOther(ViewOf(q), IssuedProxy(q.orig.id, r.kind, r.Payload()), ViewOf(Start(q)));
    } else {
      ViewQuiet(ViewOf(q), ViewOf(Start(q)));
    }
  }

  lemma FetchGood(q: Queue, calls: seq<seq<Pick>>)
    requires Good(q)
    ensures Good(Fetch(q, calls))
  {
    FetchBase(q, calls);
    PeekBase(q, calls);
    PeekGood(q, calls);
    if Peek(q, calls).1 { StartEnds(Peek(q, calls).0); }
  }

  /** With every bit set no phase the method asks for is left. */
  lemma OverSet(ordseq: Phases, bits: Phases)
    requires Over(ordseq, bits)
    ensures forall k: Kind :: k.PreFlush? || k.BarProxy? || k.PostFlush? ==> BitOf(ordseq.Or(bits), k)
  {}

  /** The drain completes: nothing more is logged, or the end. */
  lemma DrainEnds(q: Queue)
    requires EndInv(ViewOf(q)) && !q.ordseq.Idle()
    ensures EndInv(ViewOf(CompleteSeq(q, BIT_DRAIN, 0)))
  {
    var v, t := ViewOf(q).(bits := q.ordseq.Or(BIT_DRAIN)), CompleteSeq(q, BIT_DRAIN, 0);
    DrainBit(ViewOf(q), v);
    hide EndInv;
    if Over(q.ordseq, BIT_DRAIN) {
      OverSet(q.ordseq, BIT_DRAIN);
      ViewEnd(v, ViewOf(t));
    } else {
      assert !q.ordseq.Or(BIT_DRAIN).Idle();
      assert ViewOf(t) == v;
    }
  }

  lemma DrainBit(v: View, w: View)
    requires EndInv(v) && w == v.(bits := v.bits.Or(BIT_DRAIN))
    ensures EndInv(w)
  {
    assert forall k :: BitOf(w.bits, k) <==> BitOf(v.bits, k);
  }

  lemma ElvCompletedEnds(q: Queue, r: Request)
    requires EndInv(ViewOf(q))
    ensures EndInv(ViewOf(ElvCompleted(q, r)))
  {
    hide EndInv;
    assert ViewOf(Settled(q, r)) == ViewOf(q);
    if Drained(Settled(q, r)) { DrainEnds(Settled(q, r)); }
  }

  /** The queue whose phase `r` completes: `r` back from the driver and its error recorded. */
  function Answered(q: Queue, r: Request, error: int): Queue {
    Record(Settled(q, r).(log := q.log + [ProxyDone(q.orig.id, r.kind, error)]), error)
  }

  /** The two places that record an error record the same one, once. */
  lemma RecordTwice(s: Queue, bits: Phases, error: int)
    ensures CompleteSeq(s, bits, error) == CompleteSeq(Record(s, error), bits, error)
  {
    assert Record(Record(s, error), error) == Record(s, error);
  }

  lemma NotDraining(q: Queue, r: Request)
    requires CurSeq(q.ordseq) != SEQ_DRAIN
    ensures ElvCompleted(q, r) == Settled(q, r)
  {}

  lemma AnsweredIs(q: Queue, r: Request, error: int)
    requires r.IsProxy() && CurSeq(q.ordseq) != SEQ_DRAIN
    ensures Complete(q, r, error) == CompleteSeq(Answered(q, r, error), PhaseOf(r.kind), error)
  {
    CompleteProxyIs(q, r, error);
    var p := Reported(q, r, error);
    NotDraining(p, r);
    RecordTwice(Settled(p, r), PhaseOf(r.kind), error);
  }

  lemma ProxyAsked(q: Queue, r: Request)
    requires Base(q) && r in q.driver && r.IsProxy()
    ensures Asks(q.ordered, r.kind) && !BitOf(q.ordseq, r.kind) && !q.ordseq.Idle()
  {
    ProxyPhase(q, r);
  }

  lemma CompleteProxyEnds(q: Queue, r: Request, error: int)
    requires EndInv(ViewOf(q)) && !q.ordseq.Idle() && Asks(q.ordered, r.kind) && !BitOf(q.ordseq, r.kind)
    ensures EndInv(ViewOf(CompleteSeq(Answered(q, r, error), PhaseOf(r.kind), error)))
  {
    hide EndInv;
    var s, bit := Answered(q, r, error), PhaseOf(r.kind);
    var v, t := ViewOf(s).(bits := q.ordseq.Or(bit)), CompleteSeq(s, bit, error);
    ViewReport(ViewOf(q), r.kind, error, v);
    if Over(q.ordseq, bit) {
      OverSet(q.ordseq, bit);
      ViewEnd(v, ViewOf(t));
    } else {
      assert !q.ordseq.Or(bit).Idle();
      assert ViewOf(t) == v;
    }
  }

  lemma CompleteGood(q: Queue, r: Request, error: int)
    requires Good(q) && r in q.driver
    ensures Good(Complete(q, r, error))
  {
    hide Base;
    CompleteBase(q, r, error);
    if r.IsProxy() {
      ProxyPhase(q, r);
      ProxyAsked(q, r);
      AnsweredIs(q, r, error);
      CompleteProxyEnds(q, r, error);
    } else if r.kind.Fs? {
      var n := q.(log := q.log + [Completed(r.id)]);
      ViewOther(ViewOf(q), Completed(r.id), ViewOf(n));
      ElvCompletedEnds(n, r);
    } else {
      ElvCompletedEnds(q, r);
    }
  }

  lemma RequeueGood(q: Queue, r: Request)
    requires Good(q) && r in q.driver
    ensures Good(Requeue(q, r))
  {
    hide EndInv;
    RequeueBase(q, r);
    RequeueIs(q, r);
    BarIdsInsert(q.dispatch, RequeuedAt(q, r), r.(started := false, soft := true));
  }

  lemma InsertView(n: Queue, r: Request, where: Where, order: seq<Pick>)
    requires forall i :: 0 <= i < |n.sched| ==> !IsBar(n.sched[i])
    requires !IsBar(r)
    ensures ViewOf(Insert(n, r, where, order)) == ViewOf(n)
  {
    var y := r.(soft := true);
    match where
    case Front =>
      BarIdsInsert(n.dispatch, 0, y);
      assert InsertAt(n.dispatch, 0, y) == [y] + n.dispatch;
    case Back =>
      MovesView(n, DrainOrder(|n.sched|, order));
      var d := Drain(n, order);
      BarIdsInsert(d.dispatch, |d.dispatch|, y);
      assert InsertAt(d.dispatch, |d.dispatch|, y) == d.dispatch + [y];
    case Sort =>
  }

  lemma AddFsEnds(q: Queue, s: Step)
    requires Good(q) && s.AddFs?
    ensures EndInv(ViewOf(Insert(FsRoom(q, s), NewFs(q, s).(color := q.ordcolor), FsWhere(s), s.order)))
  {
    InsertView(FsRoom(q, s), NewFs(q, s).(color := q.ordcolor), FsWhere(s), s.order);
    ViewOther(ViewOf(q), Added(q.nextId, q.epoch, Data(s.write, s.discard, s.pos, s.sectors)), ViewOf(FsRoom(q, s)));
  }

  lemma AddSpecialEnds(q: Queue, s: Step)
    requires Good(q) && s.AddSpecial?
    ensures var r := Blank(q.nextId, Special).(color := q.ordcolor);
            EndInv(ViewOf(Insert(SpecialRoom(q), r, SpecialWhere(s), s.order)))
  {
    InsertView(SpecialRoom(q), Blank(q.nextId, Special).(color := q.ordcolor), SpecialWhere(s), s.order);
    ViewQuiet(ViewOf(q), ViewOf(SpecialRoom(q)));
  }

  lemma AddBarrierEnds(q: Queue, s: Step, t: Queue)
    requires Good(q) && s.AddBarrier? && ClosedFrom(BarrierRoom(q, s), QueuedBarrier(q, s), s.order, t)
    ensures EndInv(ViewOf(t))
  {
    hide EndInv;
    var n := BarrierRoom(q, s);
    var b := QueuedBarrier(q, s);
    MovesView(n, DrainOrder(|n.sched|, s.order));
    var d := Drain(n, s.order);
    BarIdsInsert(d.dispatch, |d.dispatch|, b);
    assert InsertAt(d.dispatch, |d.dispatch|, b) == d.dispatch + [b];
    ViewOther(ViewOf(q), AddedBarrier(q.nextId, q.epoch, Data(s.write, false, s.pos, s.sectors)), ViewOf(t));
  }

  lemma AddEnds(q: Queue, s: Step)
    requires Good(q) && (s.AddFs? || s.AddBarrier? || s.AddSpecial?)
    ensures EndInv(ViewOf(Apply(q, s)))
  {
    if s.AddFs? {
      AddFsIs(q, s);
      AddFsEnds(q, s);
    } else if s.AddSpecial? {
      AddSpecialIs(q, s);
      AddSpecialEnds(q, s);
    } else {
      AddBarrierIs(q, s);
      AddBarrierEnds(q, s, Apply(q, s));
    }
  }

  lemma ApplyEnds(q: Queue, s: Step)
    requires Good(q)
    ensures EndInv(ViewOf(Apply(q, s)))
  {
    hide EndInv, Peek, Fetch, Complete, Requeue, Moves, AddRequest;
    match s
    case Elevator(picks) => MovesView(q, picks);
    case PeekOnly(calls) => PeekGood(q, calls);
    case FetchOne(calls) => FetchGood(q, calls);
    case CompleteOne(rq, error) => if rq in q.driver { CompleteGood(q, rq, error); }
    case RequeueOne(rq) => if rq in q.driver { RequeueGood(q, rq); }
    case _ => AddEnds(q, s);
  }

  lemma ApplyGood(q: Queue, s: Step)
    requires Good(q)
    ensures Good(Apply(q, s))
  {
    ApplyBase(q, s);
    ApplyEnds(q, s);
  }

  lemma {:induction false} RunGood(mode: Mode, steps: seq<Step>)
    requires LegalMode(mode)
    ensures Good(Run(Init(mode), steps))
    decreases |steps|
  {
    if steps == [] {
      InitBase(mode);
    } else {
      RunGood(mode, steps[..|steps| - 1]);
      ApplyGood(Run(Init(mode), steps[..|steps| - 1]), steps[|steps| - 1]);
    }
  }

  // ---- the theorems ----

  /** Some phase of the sequence in progress is still outstanding. */
  ghost predicate Outstanding(q: Queue) {
    !q.ordseq.drain || exists id: nat :: id < FIRST_ID && Has(q.dispatch, q.driver, id)
  }

  lemma ClearBit(ordseq: Phases)
    requires ordseq.started && !ordseq.Full()
    ensures !ordseq.drain || !ordseq.preflush || !ordseq.bar || !ordseq.postflush
  {}

  lemma StillOutstanding(q: Queue)
    requires Base(q) && !q.ordseq.Idle()
    ensures Outstanding(q)
  {
    ClearBit(q.ordseq);
    if !q.ordseq.preflush {
      assert Has(q.dispatch, q.driver, PRE_ID);
    } else if !q.ordseq.bar {
      assert Has(q.dispatch, q.driver, BAR_ID);
    } else if !q.ordseq.postflush {
      assert Has(q.dispatch, q.driver, POST_ID);
    }
  }

  /**
    In every run, in every ordering mode: each end is of a started sequence, happens once, after
    one report of each phase the method asks for, and carries the first nonzero error reported;
    every started sequence has ended, except one in progress, and that one still has an
    outstanding phase. No BUG_ON fires.
  */
  lemma RunEndsOnce(mode: Mode, steps: seq<Step>)
    requires LegalMode(mode)
    ensures var q := Run(Init(mode), steps);
            && EndsOnce(q.log) && EndsComplete(q.log) && !q.bug
            && (forall k :: 0 <= k < |q.log| && q.log[k].Started? ==>
                  HasEnded(q.log, q.log[k].id) || (!q.ordseq.Idle() && q.orig.id == q.log[k].id))
            && (!q.ordseq.Idle() ==> Outstanding(q) && !HasEnded(q.log, q.orig.id))
  {
    RunGood(mode, steps);
    var q := Run(Init(mode), steps);
    if !q.ordseq.Idle() { StillOutstanding(q); }
  }

  /** The sequence in progress stays the one in progress, with at least the same phases done. */
  predicate Onward(q: Queue, t: Queue) {
    t.ordseq.Idle() || (t.orig == q.orig && t.ordseq.Includes(q.ordseq))
  }

  lemma MoreBits(a: Phases, b: Phases)
    requires !a.Idle() && a.Includes(b)
    ensures CurSeq(b) <= CurSeq(a)
  {}

  lemma {:induction false} MovesOnward(q: Queue, ps: seq<Pick>)
    ensures Moves(q, ps).ordseq == q.ordseq && Moves(q, ps).orig == q.orig
    decreases ps
  {
    if ps != [] { MovesOnward(Move(q, ps[0]), ps[1..]); }
  }

  lemma {:induction false} NextRequestOnward(q: Queue, calls: seq<seq<Pick>>)
    requires !q.ordseq.Idle()
    ensures NextRequest(q, calls).0.ordseq == q.ordseq && NextRequest(q, calls).0.orig == q.orig
    decreases |calls|, |q.dispatch|
  {
    if q.dispatch == [] && calls != [] && |Moves(q, calls[0]).sched| != |q.sched| {
      MovesOnward(q, calls[0]);
      NextRequestOnward(Moves(q, calls[0]), calls[1..]);
    }
  }

  lemma PhaseOnward(q: Queue, s: Queue, t: Queue, bit: Phases)
    requires PhasedFrom(s, t, bit) && s.ordseq == q.ordseq && s.orig == q.orig
    ensures Onward(q, t)
  {}

  lemma CompleteProxyOnward(q: Queue, r: Request, error: int)
    requires Base(q) && r in q.driver && r.IsProxy()
    ensures Onward(q, Complete(q, r, error))
  {
    ProxyPhase(q, r);
    AnsweredIs(q, r, error);
    CompleteSeqIs(Answered(q, r, error), PhaseOf(r.kind), error);
    PhaseOnward(q, Answered(q, r, error), Complete(q, r, error), PhaseOf(r.kind));
  }

  lemma DrainOnward(q: Queue, s: Queue)
    requires s.ordseq == q.ordseq && s.orig == q.orig && !s.bug && Drained(s) && s.ordseq.started
    ensures Onward(q, CompleteSeq(s, BIT_DRAIN, 0))
  {
    DrainPending(s.ordseq);
    CompleteSeqIs(s, BIT_DRAIN, 0);
    PhaseOnward(q, s, CompleteSeq(s, BIT_DRAIN, 0), BIT_DRAIN);
  }

  lemma ElvOnward(q: Queue, n: Queue, r: Request)
    requires n.ordseq == q.ordseq && n.orig == q.orig && !n.bug && n.ordseq.started
    ensures Onward(q, ElvCompleted(n, r))
  {
    hide CompleteSeq;
    if Drained(Settled(n, r)) { DrainOnward(q, Settled(n, r)); }
  }

  lemma StartedBit(q: Queue)
    requires Base(q) && !q.ordseq.Idle()
    ensures q.ordseq.started && !q.bug
  {
  }

  lemma CompleteOnward(q: Queue, r: Request, error: int)
    requires Base(q) && !q.ordseq.Idle() && r in q.driver
    ensures Onward(q, Complete(q, r, error))
  {
    hide Base, CompleteSeq, ElvCompleted, Onward;
    StartedBit(q);
    if r.IsProxy() {
      CompleteProxyOnward(q, r, error);
    } else if r.kind.Fs? {
      ElvOnward(q, q.(log := q.log + [Completed(r.id)]), r);
    } else {
      ElvOnward(q, q, r);
    }
  }

  lemma InsertOnward(n: Queue, r: Request, where: Where, order: seq<Pick>)
    ensures Insert(n, r, where, order).ordseq == n.ordseq && Insert(n, r, where, order).orig == n.orig
  {
    if where.Back? { MovesOnward(n, DrainOrder(|n.sched|, order)); }
  }

  lemma AddOnward(q: Queue, s: Step)
    requires s.AddFs? || s.AddSpecial? || s.AddBarrier?
    ensures Apply(q, s).ordseq == q.ordseq && Apply(q, s).orig == q.orig
  {
    if s.AddFs? {
      AddFsIs(q, s);
      InsertOnward(FsRoom(q, s), NewFs(q, s).(color := q.ordcolor), FsWhere(s), s.order);
    } else if s.AddSpecial? {
      AddSpecialIs(q, s);
      InsertOnward(SpecialRoom(q), Blank(q.nextId, Special).(color := q.ordcolor), SpecialWhere(s), s.order);
    } else {
      AddBarrierIs(q, s);
      MovesOnward(BarrierRoom(q, s), DrainOrder(|q.sched|, s.order));
    }
  }

  lemma FetchOnward(q: Queue, calls: seq<seq<Pick>>)
    requires !q.ordseq.Idle()
    ensures Onward(q, Peek(q, calls).0) && Onward(q, Fetch(q, calls))
  {
    NextRequestOnward(q, calls);
    PeekMarks(q, calls);
  }

  lemma ApplyOnward(q: Queue, s: Step)
    requires Base(q) && !q.ordseq.Idle()
    ensures Onward(q, Apply(q, s))
  {
    match s
    case Elevator(picks) => MovesOnward(q, picks);
    case PeekOnly(calls) => FetchOnward(q, calls);
    case FetchOne(calls) => FetchOnward(q, calls);
    case CompleteOne(rq, error) => if rq in q.driver { CompleteOnward(q, rq, error); }
    case RequeueOne(rq) => if rq in q.driver { RequeueIs(q, rq); }
    case _ => AddOnward(q, s);
  }

  /** In every run, while a sequence is in progress its current phase never moves back. */
  lemma PhaseNeverBack(mode: Mode, steps: seq<Step>, s: Step)
    requires LegalMode(mode) && !Run(Init(mode), steps).ordseq.Idle()
    ensures var q := Run(Init(mode), steps);
            var t := Run(Init(mode), steps + [s]);
            t.ordseq.Idle() || (t.orig == q.orig && CurSeq(q.ordseq) <= CurSeq(t.ordseq))
  {
    RunBase(mode, steps);
    var q := Run(Init(mode), steps);
    assert (steps + [s])[..|steps|] == steps;
    ApplyOnward(q, s);
    if !Apply(q, s).ordseq.Idle() { MoreBits(Apply(q, s).ordseq, q.ordseq); }
  }
}
