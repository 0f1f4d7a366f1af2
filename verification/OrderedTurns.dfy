/**
  The phases of a sequence reach the driver in turn. Over every run of a drain-ordered queue, read off the log: the
  barrier proxy is issued only after the flush before it has reported, the flush after it only after the barrier proxy.
*/
module OrderedTurns {
  import opened Common
  import opened OrderedQueue
  import opened OrderedBase
  import opened OrderedSteps
  import opened OrderedEnds
  import opened OrderedDrain
  import opened OrderedData

  /** The order of the phases. */
  function Turn(k: Kind): nat {
    match k
    case PreFlush => 1
    case BarProxy => 2
    case PostFlush => 3
    case Fs => 0
    case Special => 0
  }

  /** Every phase before this one that barrier `b`'s method asks for has reported. */
  ghost predicate Turned(log: seq<Event>, b: nat, kind: Kind) {
    forall j :: 0 < Turn(j) < Turn(kind) && Asks(MethodOf(log, b), j) ==> Reports(log, b, j) == 1
  }

  ghost predicate InTurn(log: seq<Event>) {
    forall k :: 0 <= k < |log| && log[k].IssuedProxy? ==> Turned(log[..k], log[k].id, log[k].kind)
  }

  lemma TurnSnoc(log: seq<Event>, e: Event)
    requires InTurn(log) && (e.IssuedProxy? ==> Turned(log, e.id, e.kind))
    ensures InTurn(log + [e])
  {
    hide Turned;
    var l := log + [e];
    forall k | 0 <= k < |l| && l[k].IssuedProxy? ensures Turned(l[..k], l[k].id, l[k].kind) {
      if k < |log| {
        assert l[..k] == log[..k] && log[k].IssuedProxy?;
      } else {
        assert l[..k] == log;
      }
    }
  }

  /** The log grew, by no proxy. */
  predicate NoProxyYet(log: seq<Event>, l: seq<Event>) {
    log <= l && forall k :: |log| <= k < |l| ==> !l[k].IssuedProxy?
  }

  lemma {:induction false} TurnKept(log: seq<Event>, l: seq<Event>)
    requires InTurn(log) && NoProxyYet(log, l)
    ensures InTurn(l)
    decreases |l| - |log|
  {
    if |l| == |log| {
      assert l == log;
    } else {
      TurnSnoc(log, l[|log|]);
      TurnKept(log + [l[|log|]], l);
    }
  }

  // ---- what a grant shows ----

  /** The head proxy's phase is not ahead of the sequence. */
  predicate HeadTurn(q: Queue) {
    q.dispatch != [] && q.dispatch[0].IsProxy() ==>
      q.ordseq.started && ReqSeq(q.orig, q.dispatch[0]) <= CurSeq(q.ordseq)
  }

  lemma FirstProxy(m: Mode, orig: Request, bits: Phases)
    requires Proxies(m, orig) != [] && bits.started && bits.drain
    requires Pending(bits, BIT_PREFLUSH) <==> m.preflush
    requires Pending(bits, BIT_BAR) <==> m.bar
    requires Pending(bits, BIT_POSTFLUSH) <==> m.postflush
    ensures ReqSeq(orig, Proxies(m, orig)[0]) <= CurSeq(bits)
  {}

  lemma StartGrant(q: Queue)
    requires Base(q) && Startable(q) && StartVerdict(q).rq.Some?
    ensures HeadTurn(StartVerdict(q).q)
  {
    assert InDispatch(q.dispatch[0], q.nextId);
    StartOrderedIs(q);
    var t := StartOrdered(q);
    var p := Proxies(HeadMode(q), q.dispatch[0]);
    hide Base, Proxies, Effective;
    assert p != [] && t.dispatch[0] == p[0];
    SomePending(t.ordered, q.dispatch[0], t.ordseq);
    FirstProxy(t.ordered, q.dispatch[0], t.ordseq);
  }

  lemma SomePending(m: Mode, orig: Request, bits: Phases)
    requires Proxies(m, orig) != []
    requires Pending(bits, BIT_PREFLUSH) <==> m.preflush
    requires Pending(bits, BIT_BAR) <==> m.bar
    requires Pending(bits, BIT_POSTFLUSH) <==> m.postflush
    ensures !bits.Idle()
  {}

  lemma Underway(q: Queue)
    requires Base(q) && !q.ordseq.Idle() && DrainMode(q.nextOrdered)
    ensures q.ordseq.started && !q.ordered.byTag
  {
    NotByTag(q.ordseq, q.ordered, q.nextOrdered, q.orig.sectors == 0);
  }

  lemma GrantTurn(q: Queue)
    requires Base(q) && DrainMode(q.nextOrdered) && q.dispatch != [] && DoOrdered(q).rq.Some?
    ensures HeadTurn(DoOrdered(q).q)
  {
    var r := q.dispatch[0];
    assert InDispatch(r, q.nextId);
    if !q.ordseq.Idle() {
      Underway(q);
    } else {
      NoProxies(q);
      hide Base, StartVerdict;
      if r.IsBarrier() { StartGrant(q); }
    }
  }

  lemma {:induction false} NextTurn(q: Queue, calls: seq<seq<Pick>>)
    requires Drainable(q)
    ensures NextRequest(q, calls).1.Some? ==> HeadTurn(NextRequest(q, calls).0)
    decreases |calls|, |q.dispatch|
  {
    hide DoOrdered, Moves, HeadTurn, Base;
    if q.dispatch != [] {
      if DoOrdered(q).rq.Some? { GrantTurn(q); }
      if !DoOrdered(q).stop {
        DoOrderedDrain(q);
        GoneShrinks(q);
        NextTurn(DoOrdered(q).q, calls);
      }
    } else if calls != [] && |Moves(q, calls[0]).sched| != |q.sched| {
      MovesBase(q, calls[0]);
      MovesOrder(q, calls[0]);
      NextTurn(Moves(q, calls[0]), calls[1..]);
    }
  }

  lemma PeekTurn(q: Queue, calls: seq<seq<Pick>>)
    requires Drainable(q)
    ensures Peek(q, calls).1 ==> HeadTurn(Peek(q, calls).0)
  {
    hide Drainable, NextRequest, Peek;
    NextTurn(q, calls);
    PeekMarks(q, calls);
  }

  lemma EarlierBits(ordseq: Phases, orig: Request, r: Request, j: Kind)
    requires r.IsProxy() && ordseq.started && ReqSeq(orig, r) <= CurSeq(ordseq) && 0 < Turn(j) < Turn(r.kind)
    ensures BitOf(ordseq, j)
  {}

  /** The proxy at the head follows the reports of the phases before it. */
  lemma HeadTurned(q: Queue)
    requires Good(q) && HeadTurn(q) && q.dispatch != [] && q.dispatch[0].IsProxy()
    ensures Turned(q.log, q.orig.id, q.dispatch[0].kind)
  {
    hide Base;
    assert Tallied(ViewOf(q));
    hide EndInv;
    var r := q.dispatch[0];
    forall j | 0 < Turn(j) < Turn(r.kind) && Asks(MethodOf(q.log, q.orig.id), j)
      ensures Reports(q.log, q.orig.id, j) == 1
    {
      EarlierBits(q.ordseq, q.orig, r, j);
    }
  }

  lemma StartTurned(q: Queue)
    requires Good(q) && HeadTurn(q) && q.dispatch != [] && InTurn(q.log)
    ensures InTurn(Start(q).log)
  {
    hide Good, HeadTurn, InTurn, Turned, Start;
    StartIs(q);
    if q.dispatch[0].IsProxy() { HeadTurned(q); }
    if Handed(q) == [] {
      assert q.log + [] == q.log;
    } else {
      TurnSnoc(q.log, Handed(q)[0]);
    }
  }

  // ---- every other step issues no proxy ----

  lemma DoOrderedQuiet(q: Queue)
    requires Base(q) && q.dispatch != []
    ensures NoProxyYet(q.log, DoOrdered(q).q.log)
  {
    hide Base, DoOrdered, Method, Pending;
    DoOrderedCases(q);
  }

  lemma {:induction false} NextQuiet(q: Queue, calls: seq<seq<Pick>>)
    requires Base(q)
    ensures NoProxyYet(q.log, NextRequest(q, calls).0.log)
    decreases |calls|, |q.dispatch|
  {
    hide Base, DoOrdered, Moves;
    if q.dispatch != [] {
      DoOrderedQuiet(q);
      DoOrderedBase(q);
      if !DoOrdered(q).stop {
        GoneShrinks(q);
        NextQuiet(DoOrdered(q).q, calls);
      }
    } else if calls != [] && |Moves(q, calls[0]).sched| != |q.sched| {
      MovesBase(q, calls[0]);
      MovesSame(q, calls[0]);
      NextQuiet(Moves(q, calls[0]), calls[1..]);
    }
  }

  lemma PeekTurned(q: Queue, calls: seq<seq<Pick>>)
    requires Base(q) && InTurn(q.log)
    ensures InTurn(Peek(q, calls).0.log)
  {
    hide Base, NextRequest, Peek, InTurn;
    NextQuiet(q, calls);
    PeekMarks(q, calls);
    TurnKept(q.log, NextRequest(q, calls).0.log);
  }

  lemma AddQuiet(q: Queue, s: Step)
    requires s.AddFs? || s.AddBarrier? || s.AddSpecial?
    ensures NoProxyYet(q.log, Apply(q, s).log)
  {
    hide Apply, Moves;
    if s.AddFs? {
      AddFsIs(q, s);
      MovesSame(FsRoom(q, s), DrainOrder(|q.sched|, s.order));
    } else if s.AddSpecial? {
      AddSpecialIs(q, s);
      MovesSame(SpecialRoom(q), DrainOrder(|q.sched|, s.order));
    } else {
      AddBarrierIs(q, s);
      MovesSame(BarrierRoom(q, s), DrainOrder(|q.sched|, s.order));
    }
  }

  lemma ApplyTurned(q: Queue, s: Step)
    requires Good(q) && Drainable(q) && InTurn(q.log)
    ensures InTurn(Apply(q, s).log)
  {
    hide Good, Drainable, InTurn, Peek, Start, Complete, Requeue, Moves, AddRequest, HeadTurn;
    match s
    case Elevator(picks) => MovesSame(q, picks);
    case PeekOnly(calls) =>
      DrainableBase(q);
      PeekTurned(q, calls);
    case FetchOne(calls) =>
      DrainableBase(q);
      PeekTurned(q, calls);
      PeekTurn(q, calls);
      PeekGood(q, calls);
      if Peek(q, calls).1 { StartTurned(Peek(q, calls).0); }
    case CompleteOne(rq, error) =>
      if rq in q.driver {
        var es := CompleteRetires(q, rq, error);
        TurnKept(q.log, q.log + es);
      }
    case RequeueOne(rq) => RequeueIs(q, rq);
    case _ =>
      AddQuiet(q, s);
      TurnKept(q.log, Apply(q, s).log);
  }

  lemma DrainableBase(q: Queue)
    requires Drainable(q)
    ensures Base(q)
  {}

  /** In every run of a drain-ordered queue the phases of each sequence are issued in turn. */
  lemma {:induction false} RunInTurn(mode: Mode, steps: seq<Step>)
    requires DrainMode(mode)
    ensures InTurn(Run(Init(mode), steps).log)
    decreases |steps|
  {
    if steps != [] {
      hide InTurn, Apply;
      var n := |steps| - 1;
      RunInTurn(mode, steps[..n]);
      RunGood(mode, steps[..n]);
      RunCalm(mode, steps[..n]);
      ApplyTurned(Run(Init(mode), steps[..n]), steps[n]);
    }
  }
}
