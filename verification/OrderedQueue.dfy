/**
  The ordered (barrier) sequence of a request queue as a function of its state:
  block/blk-barrier.c, the dispatch list of block/elevator.c and the fetch loop of block/blk.h.

  A request is a record; the lists of the queue hold such records and the flags the code changes
  in place (REQ_SOFTBARRIER, REQ_STARTED) are fields of them. What the I/O scheduler decides
  (which held request it moves to the dispatch list, and when) is a parameter of each operation.
  The history fields `epoch`, `done` and `log` are written by the operations and read by none.
*/
module OrderedQueue {
  import opened Common

  /** QUEUE_ORDERED_*: the bits of an ordering method. */
  datatype Mode = Mode(byDrain: bool, byTag: bool, preflush: bool, bar: bool, postflush: bool, fua: bool)

  const NONE := Mode(false, false, false, false, false, false)
  const DRAIN := Mode(true, false, false, true, false, false)
  const DRAIN_FLUSH := Mode(true, false, true, true, true, false)
  const DRAIN_FUA := Mode(true, false, true, true, false, true)
  const TAG := Mode(false, true, false, true, false, false)
  const TAG_FLUSH := Mode(false, true, true, true, true, false)
  const TAG_FUA := Mode(false, true, true, true, false, true)

  /** The methods `blk_queue_ordered` accepts. */
  predicate LegalMode(m: Mode) {
    m == NONE || m == DRAIN || m == DRAIN_FLUSH || m == DRAIN_FUA || m == TAG || m == TAG_FLUSH || m == TAG_FUA
  }

  /** The bits of `ordseq`: which phases of the sequence are complete. */
  datatype Phases = Phases(started: bool, drain: bool, preflush: bool, bar: bool, postflush: bool)
  {
    function Or(b: Phases): Phases {
      Phases(started || b.started, drain || b.drain, preflush || b.preflush, bar || b.bar, postflush || b.postflush)
    }

    predicate Idle() { !started && !drain && !preflush && !bar && !postflush }

    predicate Full() { started && drain && preflush && bar && postflush }

    predicate Meets(b: Phases) {
      || (started && b.started) || (drain && b.drain) || (preflush && b.preflush)
      || (bar && b.bar) || (postflush && b.postflush)
    }

    predicate Includes(b: Phases) {
      && (b.started ==> started) && (b.drain ==> drain) && (b.preflush ==> preflush)
      && (b.bar ==> bar) && (b.postflush ==> postflush)
    }
  }

  const IDLE := Phases(false, false, false, false, false)
  const BIT_STARTED := IDLE.(started := true)
  const BIT_DRAIN := IDLE.(drain := true)
  const BIT_PREFLUSH := IDLE.(preflush := true)
  const BIT_BAR := IDLE.(bar := true)
  const BIT_POSTFLUSH := IDLE.(postflush := true)

  predicate ProxyBit(b: Phases) { b == BIT_PREFLUSH || b == BIT_BAR || b == BIT_POSTFLUSH }

  predicate OneBit(b: Phases) { b == BIT_DRAIN || ProxyBit(b) }

  // The values the phases compare by: QUEUE_ORDSEQ_*.
  const SEQ_STARTED := 0x01
  const SEQ_DRAIN := 0x02
  const SEQ_PREFLUSH := 0x04
  const SEQ_BAR := 0x08
  const SEQ_POSTFLUSH := 0x10
  const SEQ_DONE := 0x20

  /** The three requests embedded in the queue; every other request has an id from 3 up. */
  const PRE_ID := 0
  const BAR_ID := 1
  const POST_ID := 2
  const FIRST_ID := 3

  datatype Kind = Fs | Special | PreFlush | BarProxy | PostFlush

  datatype Request = Request(
    id: nat, kind: Kind, hard: bool, soft: bool, started: bool, color: bool,
    write: bool, discard: bool, pos: nat, sectors: nat, epoch: nat)
  {
    predicate IsFs() { kind.Fs? || kind.BarProxy? }
    predicate IsProxy() { kind.PreFlush? || kind.BarProxy? || kind.PostFlush? }
    predicate IsBarrier() { IsFs() && hard }
    function EndSector(): nat { pos + sectors }
    function Payload(): Data { Data(write, discard, pos, sectors) }
  }

  /** What a request moves: direction, discard flag, place on disk and length. */
  datatype Data = Data(write: bool, discard: bool, pos: nat, sectors: nat)

  datatype Event =
    | Added(id: nat, epoch: nat, data: Data)  // an fs request entered the queue
    | AddedBarrier(id: nat, epoch: nat, data: Data)
    | Issued(id: nat, data: Data)             // an fs request reached the driver
    | Completed(id: nat)                      // the driver ended an fs request
    | Started(id: nat, mode: Mode)            // the sequence of a barrier began, by this method
    | IssuedProxy(id: nat, kind: Kind, data: Data)  // a flush or the barrier proxy reached the driver
    | ProxyDone(id: nat, kind: Kind, error: int)
    | Ended(id: nat, error: int)              // the original barrier was ended
    | Rejected(id: nat)                       // ended with -EOPNOTSUPP, ordering unsupported

  /** One move of the scheduler: which held request, and tail or sorted insertion. */
  datatype Pick = Pick(index: nat, tail: bool)

  datatype Queue = Queue(
    dispatch: seq<Request>, sched: seq<Request>, driver: set<Request>, inFlight: int,
    ordcolor: bool, ordseq: Phases, orderr: int, ordered: Mode, nextOrdered: Mode,
    orig: Request,                            // meaningful while !ordseq.Idle()
    endSector: nat, boundary: Option<nat>,
    bug: bool, warn: bool,                    // a BUG_ON or the WARN_ON has fired
    nextId: nat, epoch: nat, done: nat, log: seq<Event>)

  function Blank(id: nat, kind: Kind): Request {
    Request(id, kind, false, false, false, false, false, false, 0, 0, 0)
  }

  function Init(mode: Mode): Queue {
    Queue([], [], {}, 0, false, IDLE, 0, mode, mode, Blank(0, Fs), 0, None, false, false, FIRST_ID, 0, 0, [])
  }

  /** `1 << ffz(ordseq)`: the value of the lowest clear bit. */
  function CurSeq(ordseq: Phases): nat {
    if ordseq.Idle() then 0
    else if !ordseq.started then SEQ_STARTED
    else if !ordseq.drain then SEQ_DRAIN
    else if !ordseq.preflush then SEQ_PREFLUSH
    else if !ordseq.bar then SEQ_BAR
    else if !ordseq.postflush then SEQ_POSTFLUSH
    else SEQ_DONE
  }

  function ReqSeq(orig: Request, r: Request): nat {
    match r.kind
    case PreFlush => SEQ_PREFLUSH
    case BarProxy => SEQ_BAR
    case PostFlush => SEQ_POSTFLUSH
    case Special => SEQ_DRAIN
    case Fs => if r.color == orig.color then SEQ_DRAIN else SEQ_DONE
  }

  /** The first error stays. */
  function Record(q: Queue, error: int): Queue {
    q.(orderr := if error != 0 && q.orderr == 0 then error else q.orderr)
  }

  /** With `bits` set, no phase is left. */
  predicate Over(ordseq: Phases, bits: Phases) { CurSeq(ordseq.Or(bits)) == SEQ_DONE }

  function SetBits(q: Queue, bits: Phases): Queue {
    var over := Over(q.ordseq, bits);
    q.(bug := q.bug || q.ordseq.Meets(bits),
       ordseq := if over then IDLE else q.ordseq.Or(bits),
       done := if over then q.done + 1 else q.done,
       log := if over then q.log + [Ended(q.orig.id, q.orderr)] else q.log)
  }

  /** `blk_ordered_complete_seq`. */
  function CompleteSeq(q: Queue, bits: Phases, error: int): Queue { SetBits(Record(q, error), bits) }

  /** The method of this sequence: an empty barrier has no BAR and no POSTFLUSH, and drains
      when that leaves a tag-ordered queue nothing to issue. */
  function Effective(mode: Mode, empty: bool): Mode {
    if !empty then mode
    else
      var m := mode.(bar := false, postflush := false);
      if m.byTag && !m.preflush then m.(byTag := false, byDrain := true) else m
  }

  function FlushRq(id: nat, kind: Kind): Request { Blank(id, kind).(hard := true, soft := true) }

  function BarRq(orig: Request): Request {
    Blank(BAR_ID, BarProxy).(hard := orig.hard, soft := true, write := orig.write,
                             discard := orig.discard, pos := orig.pos, sectors := orig.sectors)
  }

  /** The proxies a sequence issues, in issue order. */
  function Proxies(m: Mode, orig: Request): seq<Request> {
    (if m.preflush then [FlushRq(PRE_ID, PreFlush)] else []) +
    (if m.bar then [BarRq(orig)] else []) +
    (if m.postflush then [FlushRq(POST_ID, PostFlush)] else [])
  }

  function SkippedPhases(m: Mode): Phases { Phases(false, false, !m.preflush, !m.bar, !m.postflush) }

  predicate Waits(m: Mode, inFlight: int) { m.byDrain && inFlight != 0 }

  /** `blk_dequeue_request` on the head of the dispatch list. */
  function Unlinked(q: Queue): Queue
    requires q.dispatch != []
  {
    q.(dispatch := q.dispatch[1..], inFlight := q.inFlight + Accounted(q.dispatch[0]))
  }

  function HeadMode(q: Queue): Mode
    requires q.dispatch != []
  {
    Effective(q.nextOrdered, q.dispatch[0].sectors == 0)
  }

  function Accounted(r: Request): int { if r.started && r.IsFs() then 1 else 0 }

  /** The queue with the sequence of its head barrier queued, before skipped phases complete. */
  function Sequenced(q: Queue): Queue
    requires q.dispatch != []
  {
    q.(dispatch := Proxies(HeadMode(q), q.dispatch[0]) + q.dispatch[1..],
       inFlight := q.inFlight + Accounted(q.dispatch[0]), orderr := 0, ordered := HeadMode(q),
       ordseq := q.ordseq.Or(BIT_STARTED), orig := q.dispatch[0],
       log := q.log + [Started(q.dispatch[0].id, HeadMode(q))])
  }

  function StartSkip(s: Queue): Phases {
    SkippedPhases(s.ordered).Or(if Waits(s.ordered, s.inFlight) then IDLE else BIT_DRAIN)
  }

  function StartOrdered(q: Queue): Queue
    requires q.dispatch != []
  {
    var s := Sequenced(q);
    CompleteSeq(s, StartSkip(s), 0)
  }

  /** What `blk_do_ordered` leaves: the queue, the request it grants, and whether to stop. */
  datatype Verdict = Verdict(q: Queue, rq: Option<Request>, stop: bool)

  function StartVerdict(q: Queue): (v: Verdict)
    requires q.dispatch != []
    ensures v.q == StartOrdered(q)
    ensures v.rq.Some? ==> v.q.dispatch != [] && v.rq.value == v.q.dispatch[0]
  {
    var s := Sequenced(q);
    var proxies := Proxies(s.ordered, q.dispatch[0]);
    var t := CompleteSeq(s, StartSkip(s), 0);
    assert t.dispatch == proxies + q.dispatch[1..];
    Verdict(t, if Waits(s.ordered, s.inFlight) || proxies == [] then None else Some(proxies[0]), !t.ordseq.Idle())
  }

  function DoOrdered(q: Queue): (v: Verdict)
    requires q.dispatch != []
    ensures v.rq.Some? ==> v.q.dispatch != [] && v.rq.value == v.q.dispatch[0]
  {
    var rq := q.dispatch[0];
    if q.ordseq.Idle() then
      if !rq.IsBarrier() then Verdict(q, Some(rq), true)
      else if q.nextOrdered != NONE then StartVerdict(q)
      else Verdict(Unlinked(q).(done := q.done + 1, log := q.log + [Rejected(rq.id)]), None, false)
    else if rq.kind.Special? then Verdict(q, Some(rq), true)
    else if q.ordered.byTag then
      Verdict(q, if rq.IsBarrier() && rq.id != BAR_ID then None else Some(rq), true)
    else
      var seqno := ReqSeq(q.orig, rq);
      Verdict(q.(warn := q.warn || seqno < CurSeq(q.ordseq)),
              if seqno > CurSeq(q.ordseq) then None else Some(rq), true)
  }

  /** `pos` does not stop the backward walk of `elv_dispatch_sort`. */
  predicate Passes(rq: Request, pos: Request, boundary: nat) {
    && rq.discard == pos.discard
    && rq.write == pos.write
    && !pos.soft && !pos.hard && !pos.started
    && if rq.pos >= boundary then pos.pos < boundary || rq.pos < pos.pos
       else pos.pos < boundary && rq.pos < pos.pos
  }

  function SortIndex(d: seq<Request>, rq: Request, boundary: nat): (k: nat)
    ensures k <= |d|
    ensures forall i :: k <= i < |d| ==> Passes(rq, d[i], boundary)
    ensures k == 0 || !Passes(rq, d[k - 1], boundary)
  {
    if d == [] || !Passes(rq, d[|d| - 1], boundary) then |d|
    else SortIndex(d[..|d| - 1], rq, boundary)
  }

  /** One held request goes to the dispatch list, by `elv_dispatch_sort` or `elv_dispatch_add_tail`. */
  function Move(q: Queue, p: Pick): Queue {
    if p.index >= |q.sched| then q
    else
      var rq := q.sched[p.index];
      var rest := RemoveAt(q.sched, p.index);
      if p.tail then
        q.(sched := rest, dispatch := q.dispatch + [rq], endSector := rq.EndSector(), boundary := Some(rq.id))
      else
        q.(sched := rest, dispatch := InsertAt(q.dispatch, SortIndex(q.dispatch, rq, q.endSector), rq))
  }

  function Moves(q: Queue, ps: seq<Pick>): Queue
    decreases ps
  {
    if ps == [] then q else Moves(Move(q, ps[0]), ps[1..])
  }

  /** The moves of a forced drain of `n` held requests: the scheduler's order, then the leftovers. */
  function DrainOrder(n: nat, ps: seq<Pick>): (all: seq<Pick>)
    ensures |all| == n && forall i :: 0 <= i < n ==> all[i].index < n - i
    decreases n, |ps|
  {
    if n == 0 then []
    else if ps == [] then [Pick(0, false)] + DrainOrder(n - 1, [])
    else if ps[0].index >= n then DrainOrder(n, ps[1..])
    else [ps[0]] + DrainOrder(n - 1, ps[1..])
  }

  /** `elv_drain_elevator`: forced dispatch until nothing is held. */
  function Drain(q: Queue, ps: seq<Pick>): Queue { Moves(q, DrainOrder(|q.sched|, ps)) }

  lemma NothingToIssue(m: Mode, orig: Request, bits: Phases)
    requires Over(BIT_STARTED, SkippedPhases(m).Or(bits)) && !bits.preflush && !bits.bar && !bits.postflush
    ensures Proxies(m, orig) == []
  {}

  lemma StartedGone(q: Queue)
    requires q.dispatch != [] && q.ordseq.Idle() && StartOrdered(q).ordseq.Idle()
    ensures StartOrdered(q).dispatch == q.dispatch[1..]
  {
    var s := Sequenced(q);
    assert s.ordseq == BIT_STARTED;
    assert Over(BIT_STARTED, StartSkip(s));
    NothingToIssue(s.ordered, q.dispatch[0], if Waits(s.ordered, s.inFlight) then IDLE else BIT_DRAIN);
  }

  /** A request reported as gone has left the dispatch list and put nothing in its place. */
  lemma GoneShrinks(q: Queue)
    requires q.dispatch != []
    requires !DoOrdered(q).stop
    ensures q.ordseq.Idle() && DoOrdered(q).q.ordseq.Idle()
    ensures DoOrdered(q).q.dispatch == q.dispatch[1..]
  {
    if q.nextOrdered != NONE { StartedGone(q); }
  }

  /** `__elv_next_request`: each element of `calls` is what one unforced scheduler dispatch moves. */
  function NextRequest(q: Queue, calls: seq<seq<Pick>>): (r: (Queue, Option<Request>))
    ensures r.1.Some? ==> r.0.dispatch != [] && r.1.value == r.0.dispatch[0]
    decreases |calls|, |q.dispatch|
  {
    if q.dispatch != [] then
      var v := DoOrdered(q);
      if v.stop then (v.q, v.rq)
      else
        GoneShrinks(q);
        NextRequest(v.q, calls)
    else if calls == [] then (q, None)
    else if |Moves(q, calls[0]).sched| == |q.sched| then (q, None)
    else NextRequest(Moves(q, calls[0]), calls[1..])
  }

  /** `blk_peek_request`: the granted head is marked REQ_STARTED. */
  function Peek(q: Queue, calls: seq<seq<Pick>>): (r: (Queue, bool))
    ensures r.1 ==> r.0.dispatch != []
  {
    var (n, rq) := NextRequest(q, calls);
    if rq.None? then (n, false)
    else
      var head := n.dispatch[0];
      var m := n.(dispatch := [head.(started := true)] + n.dispatch[1..]);
      (if m.boundary.None? || m.boundary.value == head.id
       then m.(endSector := head.EndSector(), boundary := None) else m, true)
  }

  /** `blk_start_request` on the head. */
  function Start(q: Queue): Queue
    requires q.dispatch != []
  {
    var r := q.dispatch[0];
    var u := Unlinked(q);
    u.(driver := u.driver + {r},
       log := if r.kind.Fs? then u.log + [Issued(r.id, r.Payload())]
              else if r.IsProxy() then u.log + [IssuedProxy(q.orig.id, r.kind, r.Payload())] else u.log)
  }

  function Fetch(q: Queue, calls: seq<seq<Pick>>): Queue {
    var (p, granted) := Peek(q, calls);
    if granted then Start(p) else p
  }

  datatype Where = Front | Back | Sort

  function Insert(q: Queue, r: Request, where: Where, order: seq<Pick>): Queue {
    match where
    case Front => q.(dispatch := [r.(soft := true)] + q.dispatch)
    case Back => var d := Drain(q, order); d.(dispatch := d.dispatch + [r.(soft := true)])
    case Sort => q.(sched := q.sched + [r])
  }

  /** A marked request toggles the colour if it is a barrier, and bounds sorting if it has a place on disk. */
  function MarkBoundary(q: Queue, r: Request): Queue {
    var placed := r.IsFs() || r.discard;
    q.(ordcolor := if r.hard then !q.ordcolor else q.ordcolor,
       endSector := if placed then r.EndSector() else q.endSector,
       boundary := if placed then Some(r.id) else q.boundary)
  }

  /** `__elv_add_request`. */
  function AddRequest(q: Queue, r0: Request, where: Where, elvpriv: bool, order: seq<Pick>): Queue {
    var r := r0.(color := r0.color || q.ordcolor);
    if r.soft || r.hard then Insert(MarkBoundary(q, r), r, if where.Sort? then Back else where, order)
    else Insert(q, r, if !elvpriv && where.Sort? then Back else where, order)
  }

  function RequeueIndex(d: seq<Request>, orig: Request, seqno: nat): (k: nat)
    ensures k <= |d|
    ensures forall i :: 0 <= i < k ==> ReqSeq(orig, d[i]) < seqno
    ensures k < |d| ==> seqno <= ReqSeq(orig, d[k])
  {
    if d == [] || seqno <= ReqSeq(orig, d[0]) then 0 else 1 + RequeueIndex(d[1..], orig, seqno)
  }

  function Settled(q: Queue, r: Request): Queue {
    q.(driver := q.driver - {r}, inFlight := q.inFlight - Accounted(r))
  }

  /** `elv_requeue_request`. */
  function Requeue(q: Queue, r: Request): Queue {
    var s := Settled(q, r);
    var x := r.(started := false, soft := true);
    if q.ordseq.Idle() then s.(dispatch := [x] + s.dispatch)
    else s.(dispatch := InsertAt(s.dispatch, RequeueIndex(s.dispatch, q.orig, ReqSeq(q.orig, x)), x))
  }

  /** The drain test of `elv_completed_request`. */
  predicate Drained(q: Queue) {
    && !q.ordseq.Idle() && q.inFlight == 0 && CurSeq(q.ordseq) == SEQ_DRAIN
    && (q.dispatch == [] || ReqSeq(q.orig, q.dispatch[0]) > SEQ_DRAIN)
  }

  /** `elv_completed_request`. */
  function ElvCompleted(q: Queue, r: Request): Queue {
    var s := Settled(q, r);
    if Drained(s) then CompleteSeq(s, BIT_DRAIN, 0) else s
  }

  function PhaseOf(k: Kind): Phases {
    match k
    case PreFlush => BIT_PREFLUSH
    case BarProxy => BIT_BAR
    case PostFlush => BIT_POSTFLUSH
    case Fs => IDLE
    case Special => IDLE
  }

  /** The driver ends `r`: `__blk_end_request_all` and the `end_io` of the proxies. */
  function Complete(q: Queue, r: Request, error: int): Queue {
    if r.kind.Fs? then ElvCompleted(q.(log := q.log + [Completed(r.id)]), r)
    else if r.kind.Special? then ElvCompleted(q, r)
    else
      var noted := q.(log := q.log + [ProxyDone(q.orig.id, r.kind, error)]);
      var recorded := if r.kind.BarProxy? then Record(noted, error) else noted;
      CompleteSeq(ElvCompleted(recorded, r), PhaseOf(r.kind), error)
  }

  datatype Step =
    | AddFs(write: bool, discard: bool, soft: bool, pos: nat, sectors: nat, elvpriv: bool, order: seq<Pick>)
    | AddBarrier(write: bool, pos: nat, sectors: nat, order: seq<Pick>)
    | AddSpecial(front: bool, order: seq<Pick>)
    | Elevator(picks: seq<Pick>)
    | PeekOnly(calls: seq<seq<Pick>>)
    | FetchOne(calls: seq<seq<Pick>>)
    | CompleteOne(rq: Request, error: int)
    | RequeueOne(rq: Request)

  function NewFs(q: Queue, s: Step): Request
    requires s.AddFs?
  {
    Request(q.nextId, Fs, false, s.soft, false, false, s.write, s.discard, s.pos, s.sectors, q.epoch)
  }

  function NewBarrier(q: Queue, s: Step): Request
    requires s.AddBarrier?
  {
    Request(q.nextId, Fs, true, false, false, false, s.write, false, s.pos, s.sectors, q.epoch)
  }

  function Apply(q: Queue, s: Step): Queue {
    match s
    case AddFs(write, discard, _, pos, sectors, elvpriv, order) =>
      AddRequest(q.(nextId := q.nextId + 1,
                    log := q.log + [Added(q.nextId, q.epoch, Data(write, discard, pos, sectors))]),
                 NewFs(q, s), Sort, elvpriv, order)
    case AddBarrier(write, pos, sectors, order) =>
      AddRequest(q.(nextId := q.nextId + 1, epoch := q.epoch + 1,
                    log := q.log + [AddedBarrier(q.nextId, q.epoch, Data(write, false, pos, sectors))]),
                 NewBarrier(q, s), Sort, true, order)
    case AddSpecial(front, order) =>
      AddRequest(q.(nextId := q.nextId + 1), Blank(q.nextId, Special), if front then Front else Back, false, order)
    case Elevator(picks) => Moves(q, picks)
    case PeekOnly(calls) => Peek(q, calls).0
    case FetchOne(calls) => Fetch(q, calls)
    case CompleteOne(rq, error) => if rq in q.driver then Complete(q, rq, error) else q
    case RequeueOne(rq) => if rq in q.driver then Requeue(q, rq) else q
  }

  /** The state after a run: any sequence of steps, each a no-op when it does not apply. */
  function Run(q: Queue, steps: seq<Step>): Queue
    decreases |steps|
  {
    if steps == [] then q else Apply(Run(q, steps[..|steps| - 1]), steps[|steps| - 1])
  }
}
