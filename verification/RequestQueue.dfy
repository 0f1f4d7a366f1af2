/**
  The request queue as the kernel runs it: fields updated in place, lists walked by loops.
  Each method is proved to do what the functions of OrderedQueue say, one step of a run at a time, so
  what holds over every run of those functions holds of every sequence of calls.
*/
module RequestQueues {
  import opened Common
  import Spec = OrderedQueue
  import opened OrderedQueue
  import OrderedEnds
  import OrderedDrain
  import OrderedSafe
  import OrderedData
  import OrderedTurns

  class RequestQueue {
    var dispatch: seq<Request>
    var sched: seq<Request>
    var driver: set<Request>
    var inFlight: int
    var ordcolor: bool
    var ordseq: Phases
    var orderr: int
    var ordered: Mode
    var nextOrdered: Mode
    var orig: Request
    var endSector: nat
    var boundary: Option<nat>
    var bug: bool
    var warn: bool
    var nextId: nat
    var epoch: nat
    ghost var done: nat
    ghost var log: seq<Event>

    ghost function State(): Queue
      reads this
    {
      Queue(dispatch, sched, driver, inFlight, ordcolor, ordseq, orderr, ordered, nextOrdered, orig,
            endSector, boundary, bug, warn, nextId, epoch, done, log)
    }

    constructor (mode: Mode)
      ensures State() == Init(mode)
    {
      dispatch, sched, driver, inFlight := [], [], {}, 0;
      ordcolor, ordseq, orderr, ordered, nextOrdered := false, IDLE, 0, mode, mode;
      orig, endSector, boundary := Blank(0, Fs), 0, None;
      bug, warn, nextId := false, false, FIRST_ID;
      epoch, done, log := 0, 0, [];
    }

    /** Setting phase bits; when all are set the sequence is over and the original ends. */
    method SetBits(bits: Phases) returns (ended: bool)
      modifies `bug, `ordseq, `done, `log
      ensures State() == Spec.SetBits(old(State()), bits)
      ensures ended == Over(old(ordseq), bits)
    {
      hide Over, Phases.Or, Phases.Meets;
      bug := bug || ordseq.Meets(bits);
      ended := Over(ordseq, bits);
      ordseq := ordseq.Or(bits);
      if ended {
        ordseq := IDLE;
        done, log := done + 1, log + [Ended(orig.id, orderr)];
      }
    }

    /** `blk_ordered_complete_seq` */
    method CompleteSeq(bits: Phases, error: int) returns (ended: bool)
      modifies `orderr, `bug, `ordseq, `done, `log
      ensures State() == Spec.CompleteSeq(old(State()), bits, error)
      ensures ended == Over(old(ordseq), bits)
    {
      if error != 0 && orderr == 0 {
        orderr := error;
      }
      assert State() == Record(old(State()), error);
      ended := SetBits(bits);
    }

    /** `blk_dequeue_request` on the head of the dispatch list */
    method Dequeue() returns (rq: Request)
      requires dispatch != []
      modifies `dispatch, `inFlight
      ensures rq == old(dispatch)[0] && dispatch == old(dispatch)[1..]
      ensures inFlight == old(inFlight) + Accounted(rq)
    {
      rq := dispatch[0];
      dispatch := dispatch[1..];
      if rq.started && rq.IsFs() {
        inFlight := inFlight + 1;
      }
    }

    /** `start_ordered`: choose the method of this sequence. */
    method ChooseMethod()
      requires dispatch != []
      modifies `ordered
      ensures ordered == Effective(nextOrdered, dispatch[0].sectors == 0)
    {
      ordered := nextOrdered;
      if dispatch[0].sectors == 0 {
        ordered := ordered.(bar := false, postflush := false);
        if ordered.byTag && !ordered.preflush {
          ordered := ordered.(byTag := false);
          ordered := ordered.(byDrain := true);
        }
      }
    }

    /** `start_ordered`: stack the proxies at the head, in reverse order. */
    method StackProxies() returns (rq: Option<Request>)
      modifies `dispatch
      ensures dispatch == Proxies(ordered, orig) + old(dispatch)
      ensures rq == if Proxies(ordered, orig) == [] then None else Some(Proxies(ordered, orig)[0])
    {
      rq := None;
      if ordered.postflush {
        rq := Some(FlushRq(POST_ID, PostFlush));
        dispatch := [rq.value] + dispatch;
      }
      if ordered.bar {
        rq := Some(BarRq(orig));
        dispatch := [rq.value] + dispatch;
      }
      if ordered.preflush {
        rq := Some(FlushRq(PRE_ID, PreFlush));
        dispatch := [rq.value] + dispatch;
      }
    }

    /** `start_ordered`: stash away the original request. */
    method StashOriginal()
      requires dispatch != []
      modifies `dispatch, `inFlight, `orderr, `ordered, `ordseq, `orig, `log
      ensures orderr == 0 && ordered == Effective(nextOrdered, old(dispatch)[0].sectors == 0)
      ensures ordseq == old(ordseq).Or(BIT_STARTED)
      ensures orig == old(dispatch)[0] && dispatch == old(dispatch)[1..]
      ensures inFlight == old(inFlight) + Accounted(orig) && log == old(log) + [Started(orig.id, ordered)]
    {
      orderr := 0;
      ChooseMethod();
      ordseq := ordseq.Or(BIT_STARTED);
      orig := Dequeue();
      log := log + [Started(orig.id, ordered)];
    }

    /** The first half of `start_ordered`: stash the original and queue its proxies. */
    method QueueSequence() returns (rq: Option<Request>)
      requires dispatch != []
      modifies `dispatch, `inFlight, `orderr, `ordered, `ordseq, `orig, `log
      ensures State() == Sequenced(old(State()))
      ensures rq == if Proxies(ordered, orig) == [] then None else Some(Proxies(ordered, orig)[0])
    {
      hide Proxies;
      StashOriginal();
      rq := StackProxies();
    }

    /** `start_ordered` */
    method StartOrdered() returns (rq: Option<Request>, keep: bool)
      requires dispatch != [] && ordseq.Idle()
      modifies this
      ensures Verdict(State(), rq, keep) == StartVerdict(old(State()))
    {
      rq := QueueSequence();
      label queued:
      var skip := IDLE;
      if !ordered.postflush {
        skip := skip.Or(BIT_POSTFLUSH);
      }
      if !ordered.bar {
        skip := skip.Or(BIT_BAR);
      }
      if !ordered.preflush {
        skip := skip.Or(BIT_PREFLUSH);
      }
      if ordered.byDrain && inFlight != 0 {
        rq := None;
      } else {
        skip := skip.Or(BIT_DRAIN);
      }
      assert skip == StartSkip(State());
      var ended := CompleteSeq(skip, 0);
      keep := !ended;
    }

    /** Queue ordering is not supported: end the barrier at the head. */
    method RejectBarrier()
      requires dispatch != []
      modifies `dispatch, `inFlight, `done, `log
      ensures State() ==
              Unlinked(old(State())).(done := old(done) + 1, log := old(log) + [Rejected(old(dispatch)[0].id)])
    {
      var rq := Dequeue();
      done, log := done + 1, log + [Rejected(rq.id)];
    }

    /** An ordered sequence is in progress. */
    method WaitForTurn() returns (rq: Option<Request>)
      requires dispatch != [] && !ordseq.Idle()
      modifies `warn
      ensures Verdict(State(), rq, true) == Spec.DoOrdered(old(State()))
    {
      var head := dispatch[0];
      rq := Some(head);
      if !head.kind.Special? {
        if ordered.byTag {
          if head.IsBarrier() && head.id != BAR_ID {
            rq := None;
          }
        } else {
          warn := warn || ReqSeq(orig, head) < CurSeq(ordseq);
          if ReqSeq(orig, head) > CurSeq(ordseq) {
            rq := None;
          }
        }
      }
    }

    /** `blk_do_ordered` on the head of the dispatch list */
    method DoOrdered() returns (rq: Option<Request>, stop: bool)
      requires dispatch != []
      modifies this
      ensures Verdict(State(), rq, stop) == Spec.DoOrdered(old(State()))
    {
      rq, stop := None, true;
      if !ordseq.Idle() {
        rq := WaitForTurn();
      } else if !dispatch[0].IsBarrier() {
        rq := Some(dispatch[0]);
      } else if nextOrdered != NONE {
        rq, stop := StartOrdered();
      } else {
        RejectBarrier();
        stop := false;
      }
    }

    /** `elv_dispatch_sort`: walk back over what the held request may pass. */
    method SortPlace(rq: Request) returns (k: nat)
      ensures k == SortIndex(dispatch, rq, endSector)
    {
      k := |dispatch|;
      while k > 0 && Passes(rq, dispatch[k - 1], endSector)
        invariant k <= |dispatch|
        invariant SortIndex(dispatch[..k], rq, endSector) == SortIndex(dispatch, rq, endSector)
      {
        assert dispatch[..k][..k - 1] == dispatch[..k - 1];
        k := k - 1;
      }
    }

    /** `elv_dispatch_sort` */
    method DispatchSort(i: nat)
      requires i < |sched|
      modifies `dispatch, `sched
      ensures State() == Spec.Move(old(State()), Pick(i, false))
    {
      var rq := sched[i];
      sched := RemoveAt(sched, i);
      var k := SortPlace(rq);
      dispatch := InsertAt(dispatch, k, rq);
    }

    /** `elv_dispatch_add_tail` */
    method DispatchAddTail(i: nat)
      requires i < |sched|
      modifies `dispatch, `sched, `endSector, `boundary
      ensures State() == Spec.Move(old(State()), Pick(i, true))
    {
      var rq := sched[i];
      sched := RemoveAt(sched, i);
      endSector := rq.EndSector();
      boundary := Some(rq.id);
      dispatch := dispatch + [rq];
    }

    method Move(p: Pick)
      modifies `dispatch, `sched, `endSector, `boundary
      ensures State() == Spec.Move(old(State()), p)
    {
      if p.index < |sched| {
        if p.tail {
          DispatchAddTail(p.index);
        } else {
          DispatchSort(p.index);
        }
      }
    }

    /** One unforced `elevator_dispatch_fn`: `moved` is its result. */
    method DispatchSome(picks: seq<Pick>) returns (moved: bool)
      modifies `dispatch, `sched, `endSector, `boundary
      ensures State() == Spec.Moves(old(State()), picks)
      ensures moved == (|sched| != old(|sched|))
    {
      var n := |sched|;
      var k := 0;
      while k < |picks|
        invariant 0 <= k <= |picks|
        invariant Spec.Moves(State(), picks[k..]) == Spec.Moves(old(State()), picks)
      {
        assert picks[k..][1..] == picks[k + 1..];
        Move(picks[k]);
        k := k + 1;
      }
      moved := |sched| != n;
    }

    /** `elv_drain_elevator` */
    method DrainElevator(order: seq<Pick>)
      modifies `dispatch, `sched, `endSector, `boundary
      ensures State() == Spec.Drain(old(State()), order)
    {
      var rest := order;
      while sched != []
        invariant Spec.Drain(State(), rest) == Spec.Drain(old(State()), order)
        decreases |sched|, |rest|
      {
        label turn:
        if rest != [] && rest[0].index >= |sched| {
          rest := rest[1..];
        } else {
          var p := if rest == [] then Pick(0, false) else rest[0];
          ghost var tail := if rest == [] then [] else rest[1..];
          DrainUnrolls(State(), rest, p, tail);
          Move(p);
          rest := if rest == [] then [] else rest[1..];
        }
      }
    }

    /** `__elv_next_request` */
    method NextRequest(calls: seq<seq<Pick>>) returns (rq: Option<Request>)
      modifies this
      ensures (State(), rq) == Spec.NextRequest(old(State()), calls)
    {
      var rest := calls;
      while true
        invariant Spec.NextRequest(State(), rest) == Spec.NextRequest(old(State()), calls)
        decreases |rest|
      {
        while dispatch != []
          invariant Spec.NextRequest(State(), rest) == Spec.NextRequest(old(State()), calls)
          decreases |dispatch|
        {
          ghost var before := State();
          var stop;
          rq, stop := DoOrdered();
          if stop {
            return;
          }
          GoneShrinks(before);
        }
        if rest == [] {
          return None;
        }
        ghost var before := State();
        var moved := DispatchSome(rest[0]);
        if !moved {
          MovedNothing(before, rest[0]);
          return None;
        }
        rest := rest[1..];
      }
    }

    /** `blk_peek_request` */
    method PeekRequest(calls: seq<seq<Pick>>) returns (granted: bool)
      modifies this
      ensures (State(), granted) == Spec.Peek(old(State()), calls)
    {
      var rq := NextRequest(calls);
      granted := rq.Some?;
      if granted {
        var head := dispatch[0];
        dispatch := [head.(started := true)] + dispatch[1..];
        if boundary.None? || boundary.value == head.id {
          endSector := head.EndSector();
          boundary := None;
        }
      }
    }

    /** `blk_start_request` on the head: it goes to the driver. */
    method StartRequest() returns (rq: Request)
      requires dispatch != []
      modifies `dispatch, `inFlight, `driver, `log
      ensures State() == Spec.Start(old(State())) && rq == old(dispatch)[0] && rq in driver
    {
      rq := Dequeue();
      driver := driver + {rq};
      log := if rq.kind.Fs? then log + [Issued(rq.id, rq.Payload())]
             else if rq.IsProxy() then log + [IssuedProxy(orig.id, rq.kind, rq.Payload())] else log;
    }

    /** `blk_fetch_request` */
    method FetchRequest(calls: seq<seq<Pick>>) returns (rq: Option<Request>)
      modifies this
      ensures State() == Spec.Fetch(old(State()), calls)
      ensures rq.Some? ==> rq.value in driver
    {
      var granted := PeekRequest(calls);
      if granted {
        var r := StartRequest();
        return Some(r);
      }
      return None;
    }

    /** `elv_insert` at one of the three places a new request can go */
    method Insert(r: Request, where: Where, order: seq<Pick>)
      modifies `dispatch, `sched, `endSector, `boundary
      ensures State() == Spec.Insert(old(State()), r, where, order)
    {
      match where
      case Front =>
        dispatch := [r.(soft := true)] + dispatch;
      case Back =>
        DrainElevator(order);
        dispatch := dispatch + [r.(soft := true)];
      case Sort =>
        sched := sched + [r];
    }

    /** `__elv_add_request`: a barrier toggles the colour, a placed one bounds sorting. */
    method MarkBoundary(r: Request)
      modifies `endSector, `boundary, `ordcolor
      ensures State() == Spec.MarkBoundary(old(State()), r)
    {
      if r.hard {
        ordcolor := !ordcolor;
      }
      if r.IsFs() || r.discard {
        endSector := r.EndSector();
        boundary := Some(r.id);
      }
    }

    /** `__elv_add_request` */
    method AddRequest(r0: Request, where: Where, elvpriv: bool, order: seq<Pick>)
      modifies `dispatch, `sched, `endSector, `boundary, `ordcolor
      ensures State() == Spec.AddRequest(old(State()), r0, where, elvpriv, order)
    {
      hide Spec.Insert, Spec.MarkBoundary;
      var r := r0.(color := r0.color || ordcolor);
      var place := where;
      if r.soft || r.hard {
        MarkBoundary(r);
        if where.Sort? {
          place := Back;
        }
      } else if !elvpriv && where.Sort? {
        place := Back;
      }
      Insert(r, place, order);
    }

    /** `elv_insert` for a requeue: the place of `x` in phase order. */
    method RequeuePlace(x: Request) returns (k: nat)
      ensures k == if ordseq.Idle() then 0 else RequeueIndex(dispatch, orig, ReqSeq(orig, x))
    {
      k := 0;
      if !ordseq.Idle() {
        var seqno := ReqSeq(orig, x);
        while k < |dispatch| && ReqSeq(orig, dispatch[k]) < seqno
          invariant 0 <= k <= |dispatch|
          invariant RequeueIndex(dispatch, orig, seqno) == k + RequeueIndex(dispatch[k..], orig, seqno)
        {
          assert dispatch[k..][1..] == dispatch[k + 1..];
          k := k + 1;
        }
      }
    }

    /** `elv_requeue_request`: back into the list, in phase order while a sequence is in progress. */
    method RequeueRequest(r: Request)
      requires r in driver
      modifies `dispatch, `driver, `inFlight
      ensures State() == Spec.Requeue(old(State()), r)
    {
      hide RequeueIndex, Accounted;
      driver := driver - {r};
      inFlight := inFlight - Accounted(r);
      var x := r.(started := false, soft := true);
      var k := RequeuePlace(x);
      assert k == 0 ==> InsertAt(dispatch, 0, x) == [x] + dispatch;
      dispatch := InsertAt(dispatch, k, x);
    }

    /** `elv_completed_request` */
    method CompletedRequest(r: Request)
      modifies `driver, `inFlight, `orderr, `bug, `ordseq, `done, `log
      ensures State() == ElvCompleted(old(State()), r)
    {
      driver := driver - {r};
      inFlight := inFlight - Accounted(r);
      if && !ordseq.Idle() && inFlight == 0 && CurSeq(ordseq) == SEQ_DRAIN
         && (dispatch == [] || ReqSeq(orig, dispatch[0]) > SEQ_DRAIN)
      {
        var ended := CompleteSeq(BIT_DRAIN, 0);
      }
    }

    /** The end of the barrier proxy's bios: the error is recorded. */
    method NoteProxy(r: Request, error: int)
      modifies `log, `orderr
      ensures log == old(log) + [ProxyDone(orig.id, r.kind, error)]
      ensures orderr == if r.kind.BarProxy? && error != 0 && old(orderr) == 0 then error else old(orderr)
    {
      log := log + [ProxyDone(orig.id, r.kind, error)];
      if r.kind.BarProxy? && error != 0 && orderr == 0 {
        orderr := error;
      }
    }

    /** `pre_flush_end_io`, `bar_end_io`, `post_flush_end_io` */
    method EndProxy(r: Request, error: int)
      requires r in driver && r.IsProxy()
      modifies `driver, `inFlight, `orderr, `bug, `ordseq, `done, `log
      ensures State() == Complete(old(State()), r, error)
    {
      NoteProxy(r, error);
      CompletedRequest(r);
      var ended := CompleteSeq(PhaseOf(r.kind), error);
    }

    /** The driver ends `r`. */
    method EndRequest(r: Request, error: int)
      requires r in driver
      modifies `driver, `inFlight, `orderr, `bug, `ordseq, `done, `log
      ensures State() == Complete(old(State()), r, error)
    {
      if r.IsProxy() {
        EndProxy(r, error);
      } else {
        log := if r.kind.Fs? then log + [Completed(r.id)] else log;
        CompletedRequest(r);
      }
    }

    /** A new fs request. */
    method SubmitFs(s: Step)
      requires s.AddFs?
      modifies this
      ensures State() == Apply(old(State()), s)
    {
      hide Spec.AddRequest;
      var r := Request(nextId, Fs, false, s.soft, false, false, s.write, s.discard, s.pos, s.sectors, epoch);
      log := log + [Added(nextId, epoch, Data(s.write, s.discard, s.pos, s.sectors))];
      nextId := nextId + 1;
      AddRequest(r, Sort, s.elvpriv, s.order);
    }

    /** A new barrier. */
    method SubmitBarrier(s: Step)
      requires s.AddBarrier?
      modifies this
      ensures State() == Apply(old(State()), s)
    {
      hide Spec.AddRequest;
      var r := Request(nextId, Fs, true, false, false, false, s.write, false, s.pos, s.sectors, epoch);
      log := log + [AddedBarrier(nextId, epoch, Data(s.write, false, s.pos, s.sectors))];
      nextId, epoch := nextId + 1, epoch + 1;
      AddRequest(r, Sort, true, s.order);
    }

    /** A new special request. */
    method SubmitSpecial(s: Step)
      requires s.AddSpecial?
      modifies this
      ensures State() == Apply(old(State()), s)
    {
      hide Spec.AddRequest;
      var r := Blank(nextId, Special);
      nextId := nextId + 1;
      AddRequest(r, if s.front then Front else Back, false, s.order);
    }

    /** The driver is done with `rq`, or hands it back. */
    method Return(s: Step)
      requires s.CompleteOne? || s.RequeueOne?
      modifies this
      ensures State() == Apply(old(State()), s)
    {
      hide Complete, Requeue;
      if s.rq in driver {
        if s.CompleteOne? {
          EndRequest(s.rq, s.error);
        } else {
          RequeueRequest(s.rq);
        }
      }
    }

    /** One step of a run. */
    method Execute(s: Step)
      modifies this
      ensures State() == Apply(old(State()), s)
    {
      if s.AddFs? {
        SubmitFs(s);
      } else if s.AddBarrier? {
        SubmitBarrier(s);
      } else if s.AddSpecial? {
        SubmitSpecial(s);
      } else if s.CompleteOne? || s.RequeueOne? {
        Return(s);
      } else {
        hide Spec.Fetch, Spec.Peek, Spec.Moves;
        if s.Elevator? {
          var moved := DispatchSome(s.picks);
        } else if s.PeekOnly? {
          var granted := PeekRequest(s.calls);
        } else {
          var rq := FetchRequest(s.calls);
        }
      }
    }

    /**
      Any calls, from a new queue on: barriers hold, each sequence ends once and complete, and the driver gets what was
      submitted.
    */
    method ExecuteAll(steps: seq<Step>, ghost mode: Mode)
      requires LegalMode(mode) && State() == Init(mode)
      modifies this
      ensures State() == Run(Init(mode), steps) && !bug && !warn
      ensures OrderedEnds.EndsOnce(log) && OrderedEnds.EndsComplete(log)
      ensures OrderedData.Faithful(mode, log)
      ensures OrderedDrain.DrainMode(mode) ==> OrderedSafe.BarriersHold(log) && OrderedTurns.InTurn(log)
    {
      hide Apply;
      var k := 0;
      while k < |steps|
        invariant 0 <= k <= |steps| && State() == Run(Init(mode), steps[..k])
      {
        assert steps[..k + 1][..k] == steps[..k];
        Execute(steps[k]);
        k := k + 1;
      }
      assert steps[..k] == steps;
      OrderedEnds.RunEndsOnce(mode, steps);
      OrderedDrain.RunCalm(mode, steps);
      OrderedData.RunFaithful(mode, steps);
      if OrderedDrain.DrainMode(mode) {
        OrderedSafe.RunBarriersHold(mode, steps);
        OrderedTurns.RunInTurn(mode, steps);
      }
    }
  }

  /** One round of a forced drain. */
  lemma DrainUnrolls(q: Queue, rest: seq<Pick>, p: Pick, tail: seq<Pick>)
    requires q.sched != [] && (rest == [] || rest[0].index < |q.sched|)
    requires p == (if rest == [] then Pick(0, false) else rest[0]) && tail == (if rest == [] then [] else rest[1..])
    ensures Spec.Drain(q, rest) == Spec.Drain(Spec.Move(q, p), tail)
  {
    var all := DrainOrder(|q.sched|, rest);
    assert all == [p] + DrainOrder(|q.sched| - 1, tail);
    assert all[1..] == DrainOrder(|q.sched| - 1, tail);
  }

  lemma {:induction false} MovesShrink(q: Queue, ps: seq<Pick>)
    ensures |Spec.Moves(q, ps).sched| <= |q.sched|
    ensures |Spec.Moves(q, ps).sched| == |q.sched| ==> Spec.Moves(q, ps) == q
    decreases ps
  {
    if ps != [] { MovesShrink(Spec.Move(q, ps[0]), ps[1..]); }
  }

  lemma MovedNothing(q: Queue, ps: seq<Pick>)
    requires |Spec.Moves(q, ps).sched| == |q.sched|
    ensures Spec.Moves(q, ps) == q
  {
    MovesShrink(q, ps);
  }
}