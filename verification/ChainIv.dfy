/**
 * The asynchronous chain-IV generator as a transition system: any number of
 * callers and work-queue invocations take atomic steps in any order over the
 * shared INUSE bit, request queue, `iv`, `err` and postponed work item.
 */
module ChainIv {
  import opened Common

  type Iv = nat

  const EINPROGRESS: int := -115
  const EBUSY: int := -16
  const MAX_QLEN: nat := 100

  /** Where a thread stands; each constructor names the next atomic action. */
  datatype Pc =
    | FirstTry
    | FirstCheck
    | FirstSwitch
    | FirstSeed
    | FirstClear(seedErr: int)
    | Entry
    | EntryLook
    | EntryBack
    | TailCopy
    | TailEncrypt(giv: Iv)
    | TailStore(out: Iv)
    | SchedErr
    | SchedLook(ret: int)
    | SchedClear(ret: int)
    | SchedRecheck(ret: int)
    | SchedRetake(ret: int)
    | SchedQueue(ret: int)
    | Enqueue
    | PostTry(err: int)
    | PostErr(err: int)
    | WorkDequeue
    | Done(ret: int)

  /** `rq` is the request the thread works for; `backlog` its CRYPTO_TFM_REQ_MAY_BACKLOG flag. */
  datatype Thread = Thread(pc: Pc, rq: nat, backlog: bool)

  /** One encryption: by which thread, of which request, under which IV, with which outcome. */
  datatype Enc = Enc(who: nat, rq: nat, giv: Iv, err: int, out: Iv)

  /**
   * The shared context. `first` says the entry pointer is still the seeding
   * one; `calls`, `log`, `refused`, `seeded`, `seed`, and the requests the
   * queue `accepted` and gave out (`dequeued`) record history; `bug` is the
   * BUG_ON of `async_chainiv_schedule_work`.
   */
  datatype State = State(
    inuse: bool, first: bool, iv: Iv, err: int, queue: seq<nat>, pending: bool, threads: seq<Thread>,
    calls: nat, log: seq<Enc>, refused: seq<nat>, seeded: bool, seed: Iv, bug: bool, accepted: seq<nat>,
      dequeued: seq<nat>)

  /** What the outside answers: the RNG's or the cipher's error and the bytes it wrote. */
  datatype Answer = Answer(err: int, value: Iv)

  datatype Step = Call(backlog: bool) | StartWork | Advance(i: nat, answer: Answer)

  function Init(iv: Iv): State {
    State(false, true, iv, 0, [], false, [], 0, [], [], false, 0, false, [], [])
  }

  predicate Full(s: State) {
    |s.queue| >= MAX_QLEN
  }

  /** The queue turns the thread's request away. */
  predicate TurnsAway(s: State, t: Thread) {
    t.pc.Enqueue? && Full(s) && !t.backlog
  }

  /** Control flow of `async_chainiv_givencrypt_first` and `async_chainiv_givencrypt`. */
  function NextEntry(s: State, pc: Pc, a: Answer): Pc {
    match pc
    case FirstTry => if s.inuse then Entry else FirstCheck
    case FirstCheck => if s.first then FirstSwitch else FirstClear(0)
    case FirstSwitch => FirstSeed
    case FirstSeed => FirstClear(a.err)
    case FirstClear(e) => if e == 0 then Entry else Done(e)
    case Entry => if s.inuse then Enqueue else EntryLook
    case EntryLook => if s.queue != [] then EntryBack else TailCopy
    case EntryBack => Enqueue
    case _ => pc
  }

  /** Control flow of `async_chainiv_givencrypt_tail` and `async_chainiv_schedule_work`. */
  function NextTail(s: State, pc: Pc, a: Answer): Pc {
    match pc
    case TailCopy => TailEncrypt(s.iv)
    case TailEncrypt(_) => if a.err != 0 then SchedErr else TailStore(a.value)
    case TailStore(_) => SchedErr
    case SchedErr => SchedLook(s.err)
    case SchedLook(ret) => if s.queue == [] then SchedClear(ret) else SchedQueue(ret)
    case SchedClear(ret) => SchedRecheck(ret)
    case SchedRecheck(ret) => if s.queue == [] then Done(ret) else SchedRetake(ret)
    case SchedRetake(ret) => if s.inuse then Done(ret) else SchedQueue(ret)
    case SchedQueue(ret) => Done(ret)
    case _ => pc
  }

  /** Control flow of `async_chainiv_postpone_request` and `async_chainiv_do_postponed`. */
  function NextPost(s: State, pc: Pc): Pc {
    match pc
    case Enqueue => PostTry(if Full(s) then EBUSY else EINPROGRESS)
    case PostTry(err) => if s.inuse then Done(err) else PostErr(err)
    case PostErr(_) => SchedErr
    case WorkDequeue => if s.queue == [] then SchedErr else TailCopy
    case _ => pc
  }

  function Next(s: State, pc: Pc, a: Answer): Pc {
    if InEntry(pc) then NextEntry(s, pc, a) else if InPost(pc) then NextPost(s, pc) else NextTail(s, pc, a)
  }

  predicate InEntry(pc: Pc) {
    || pc.FirstTry? || pc.FirstCheck? || pc.FirstSwitch? || pc.FirstSeed? || pc.FirstClear? || pc.Entry?
    || pc.EntryLook? || pc.EntryBack?
  }

  predicate InPost(pc: Pc) {
    pc.Enqueue? || pc.PostTry? || pc.PostErr? || pc.WorkDequeue?
  }

  /** The `test_and_set_bit` actions. */
  predicate SetsBit(pc: Pc) {
    pc.FirstTry? || pc.Entry? || pc.SchedRetake? || pc.PostTry?
  }

  /** The `clear_bit` actions. */
  predicate ClearsBit(pc: Pc) {
    pc.FirstClear? || pc.EntryBack? || pc.SchedClear?
  }

  function NextQueue(s: State, t: Thread): seq<nat> {
    if t.pc.Enqueue? && !TurnsAway(s, t) then s.queue + [t.rq]
    else if t.pc.WorkDequeue? && s.queue != [] then s.queue[1..]
    else s.queue
  }

  function NextThread(s: State, t: Thread, a: Answer): Thread {
    Thread(Next(s, t.pc, a),
           if t.pc.WorkDequeue? && s.queue != [] then s.queue[0] else t.rq,
           t.backlog)
  }

  predicate Refuses(s: State, t: Thread) {
    TurnsAway(s, t) || (t.pc.FirstClear? && t.pc.seedErr != 0)
  }

  /** Thread `i` performs its next atomic action. */
  function Move(s: State, i: nat, a: Answer): State
    requires i < |s.threads|
  {
    var t := s.threads[i];
    s.(threads := s.threads[i := NextThread(s, t, a)],
       inuse := SetsBit(t.pc) || (s.inuse && !ClearsBit(t.pc)),
       first := s.first && !t.pc.FirstSwitch?,
       iv := if t.pc.FirstSeed? then a.value else if t.pc.TailStore? then t.pc.out else s.iv,
       err := if t.pc.TailEncrypt? then a.err else if t.pc.PostErr? then t.pc.err else s.err,
       queue := NextQueue(s, t),
       pending := s.pending || t.pc.SchedQueue?,
       bug := s.bug || (s.pending && t.pc.SchedQueue?),
       log := if t.pc.TailEncrypt? then s.log + [Enc(i, t.rq, t.pc.giv, a.err, a.value)] else s.log,
       refused := if Refuses(s, t) then s.refused + [t.rq] else s.refused,
       seeded := s.seeded || t.pc.FirstSeed?,
       seed := if t.pc.FirstSeed? then a.value else s.seed,
       accepted := if t.pc.Enqueue? && !TurnsAway(s, t) then s.accepted + [t.rq] else s.accepted,
       dequeued := if t.pc.WorkDequeue? && s.queue != [] then s.dequeued + [s.queue[0]] else s.dequeued)
  }

  predicate Enabled(s: State, step: Step) {
    match step
    case Call(_) => true
    case StartWork => s.pending
    case Advance(i, _) => i < |s.threads| && !s.threads[i].pc.Done?
  }

  /** The thread a call or a work-queue invocation starts. */
  function Newcomer(s: State, step: Step): Thread {
    if step.Call? then Thread(if s.first then FirstTry else Entry, s.calls, step.backlog)
    else Thread(WorkDequeue, 0, false)
  }

  function Apply(s: State, step: Step): State {
    if !Enabled(s, step) then s
    else if step.Advance? then Move(s, step.i, step.answer)
    else s.(calls := s.calls + Bit(step.Call?), pending := s.pending && step.Call?,
            threads := s.threads + [Newcomer(s, step)])
  }

  function Run(s: State, steps: seq<Step>): State
    decreases |steps|
  {
    if steps == [] then s else Apply(Run(s, steps[..|steps| - 1]), steps[|steps| - 1])
  }

  // ---- counting threads -------------------------------------------------

  /** A thread between winning the bit and giving it up, one way or another. */
  predicate HoldsBit(pc: Pc) {
    || pc.FirstCheck? || pc.FirstSwitch? || pc.FirstSeed? || pc.FirstClear? || pc.EntryLook? || pc.EntryBack?
    || pc.TailCopy? || pc.TailEncrypt? || pc.TailStore? || pc.SchedErr? || pc.SchedLook? || pc.SchedClear?
    || pc.SchedQueue? || pc.PostErr? || pc.WorkDequeue?
  }

  /** The actions that read or write `ctx->iv`. */
  predicate TouchesIv(pc: Pc) {
    pc.FirstSeed? || pc.TailCopy? || pc.TailStore?
  }

  /** A thread without the bit that will still look at the queue, or make someone look, before it ends. */
  predicate WillLook(pc: Pc) {
    pc.FirstTry? || pc.Entry? || pc.Enqueue? || pc.PostTry? || pc.SchedRecheck? || pc.SchedRetake?
  }

  function Bit(b: bool): nat {
    if b then 1 else 0
  }

  function Holder(t: Thread): nat {
    Bit(HoldsBit(t.pc))
  }

  function Looker(t: Thread): nat {
    Bit(WillLook(t.pc))
  }

  // ---- ownership and wakeups --------------------------------------------

  /** The INUSE bit is one token: a thread has it, or the pending work item does. */
  ghost predicate Owned(s: State) {
    Sum(s.threads, Holder) + Bit(s.pending) == Bit(s.inuse)
  }

  /** A nonempty queue with INUSE clear has somebody on the way to it. */
  ghost predicate Awake(s: State) {
    !s.inuse && s.queue != [] ==> Sum(s.threads, Looker) > 0
  }

  /** The one step that can lose a wakeup: giving up after the RNG failed. */
  predicate AbandonsSeed(s: State, step: Step) {
    step.Advance? && step.i < |s.threads| && s.threads[step.i].pc.FirstClear? && s.threads[step.i].pc.seedErr != 0
  }

  lemma HolderSteps(s: State, t: Thread, a: Answer)
    requires HoldsBit(t.pc) ==> s.inuse && !s.pending
    requires s.inuse ==> HoldsBit(t.pc) || !HoldsBit(NextThread(s, t, a).pc)
    ensures Holder(NextThread(s, t, a)) + Bit(s.pending || t.pc.SchedQueue?) + Bit(s.inuse)
         == Holder(t) + Bit(s.pending) + Bit(SetsBit(t.pc) || (s.inuse && !ClearsBit(t.pc)))
  {
  }

  lemma MoveOwned(s: State, i: nat, a: Answer)
    requires i < |s.threads| && Owned(s)
    ensures Owned(Move(s, i, a))
    ensures Move(s, i, a).bug ==> s.bug
  {
    var t := s.threads[i];
    SumUpdate(s.threads, i, NextThread(s, t, a), Holder);
    HolderSteps(s, t, a);
  }

  lemma ApplyOwned(s: State, step: Step)
    requires Owned(s)
    ensures Owned(Apply(s, step)) && (Apply(s, step).bug ==> s.bug)
  {
    hide Move, Sum;
    if Enabled(s, step) {
      if step.Advance? { MoveOwned(s, step.i, step.answer); } else { SumAppend(s.threads, Newcomer(s, step), Holder); }
    }
  }

  lemma MoveAwake(s: State, i: nat, a: Answer)
    requires i < |s.threads| && Owned(s) && Awake(s) && !AbandonsSeed(s, Advance(i, a))
    ensures Awake(Move(s, i, a))
  {
    var t := s.threads[i];
    SumUpdate(s.threads, i, NextThread(s, t, a), Looker);
    SumUpdate(s.threads, i, t, Holder);
  }

  /** Everybody but thread `i` has finished. */
  ghost predicate LastOne(s: State, i: nat) {
    forall j :: 0 <= j < |s.threads| && j != i ==> s.threads[j].pc.Done?
  }

  /** Neither in possession of the bit nor going to look: finished. */
  lemma Idlers(ts: seq<Thread>, i: nat)
    requires i < |ts| && Sum(ts, Holder) == Holder(ts[i])
    ensures Sum(ts, Looker) == Looker(ts[i]) <==> forall j :: 0 <= j < |ts| && j != i ==> ts[j].pc.Done?
  {
    SumOnly(ts, i, Holder);
    if Sum(ts, Looker) == Looker(ts[i]) { SumOnly(ts, i, Looker); }
    if forall j :: 0 <= j < |ts| && j != i ==> ts[j].pc.Done? { OnlyTerm(ts, i, Looker); }
  }

  lemma {:induction false} SumOnly(ts: seq<Thread>, i: nat, f: Thread -> nat)
    requires i < |ts| && Sum(ts, f) == f(ts[i])
    ensures forall j :: 0 <= j < |ts| && j != i ==> f(ts[j]) == 0
  {
    forall j | 0 <= j < |ts| && j != i ensures f(ts[j]) == 0 {
      if i < j { SumPair(ts, i, j, f); } else { SumPair(ts, j, i, f); }
    }
  }

  lemma {:induction false} OnlyTerm(ts: seq<Thread>, i: nat, f: Thread -> nat)
    requires i < |ts| && forall j :: 0 <= j < |ts| && j != i ==> f(ts[j]) == 0
    ensures Sum(ts, f) == f(ts[i])
  {
    var n := |ts| - 1;
    if i < n { OnlyTerm(ts[..n], i, f); } else { NoTerm(ts[..n], f); }
  }

  lemma {:induction false} NoTerm(ts: seq<Thread>, f: Thread -> nat)
    requires forall j :: 0 <= j < |ts| ==> f(ts[j]) == 0
    ensures Sum(ts, f) == 0
  {
    if ts != [] { NoTerm(ts[..|ts| - 1], f); }
  }

  lemma AbandonAwake(s: State, step: Step)
    requires Owned(s) && AbandonsSeed(s, step)
    ensures Awake(Apply(s, step)) <==> s.queue == [] || !LastOne(s, step.i)
  {
    var ts, u := s.threads, NextThread(s, s.threads[step.i], step.answer);
    SumUpdate(ts, step.i, u, Looker);
    SumUpdate(ts, step.i, ts[step.i], Holder);
    Idlers(ts, step.i);
  }

  /**
   * Every step but an abandoned seed keeps the wakeup. That one loses it exactly when it leaves requests in the
   * queue and everybody else has finished.
   */
  lemma ApplyAwake(s: State, step: Step)
    requires Owned(s) && Awake(s)
    ensures !Awake(Apply(s, step)) <==> AbandonsSeed(s, step) && s.queue != [] && LastOne(s, step.i)
  {
    if AbandonsSeed(s, step) {
      AbandonAwake(s, step);
    } else if Enabled(s, step) {
      if step.Advance? { MoveAwake(s, step.i, step.answer); } else { SumAppend(s.threads, Newcomer(s, step), Looker); }
    }
  }

  lemma {:induction false} RunOwned(iv: Iv, steps: seq<Step>)
    ensures Owned(Run(Init(iv), steps)) && !Run(Init(iv), steps).bug
    decreases |steps|
  {
    if steps != [] {
      RunOwned(iv, steps[..|steps| - 1]);
      ApplyOwned(Run(Init(iv), steps[..|steps| - 1]), steps[|steps| - 1]);
    }
  }

  /**
   * Step `k` gave up on the RNG with requests in the queue, everybody else had finished, and nobody has called since.
   */
  ghost predicate StrandsAt(s: State, steps: seq<Step>, k: nat) {
    && k < |steps| && AbandonsSeed(Run(s, steps[..k]), steps[k])
    && Run(s, steps[..k]).queue != [] && LastOne(Run(s, steps[..k]), steps[k].i)
    && forall j :: k < j < |steps| ==> !steps[j].Call?
  }

  ghost predicate Strands(s: State, steps: seq<Step>) {
    exists k: nat :: StrandsAt(s, steps, k)
  }

  /** Nothing left to run. */
  ghost predicate Quiet(s: State) {
    !s.pending && forall i :: 0 <= i < |s.threads| ==> s.threads[i].pc.Done?
  }

  lemma AbandonQuiets(s: State, step: Step)
    requires Owned(s) && AbandonsSeed(s, step) && LastOne(s, step.i)
    ensures var n := Apply(s, step); Quiet(n) && n.queue == s.queue
  {
    SumUpdate(s.threads, step.i, s.threads[step.i], Holder);
  }

  /** A stranded state stays as it is until the next call. */
  lemma {:induction false} StrandedStays(iv: Iv, steps: seq<Step>, k: nat)
    requires StrandsAt(Init(iv), steps, k)
    ensures Quiet(Run(Init(iv), steps)) && Run(Init(iv), steps).queue != []
    decreases |steps|
  {
    var n := |steps| - 1;
    if k == n {
      RunOwned(iv, steps[..k]);
      AbandonQuiets(Run(Init(iv), steps[..k]), steps[k]);
    } else {
      assert steps[..n][..k] == steps[..k];
      assert StrandsAt(Init(iv), steps[..n], k);
      StrandedStays(iv, steps[..n], k);
    }
  }

  lemma StrandsMore(s: State, steps: seq<Step>)
    requires steps != [] && Strands(s, steps[..|steps| - 1]) && !steps[|steps| - 1].Call?
    ensures Strands(s, steps)
  {
    var n := |steps| - 1;
    var k: nat :| StrandsAt(s, steps[..n], k);
    assert steps[..n][..k] == steps[..k];
    assert StrandsAt(s, steps, k);
  }

  /** A call to a system at rest is itself on the way to look. */
  lemma CallWakes(s: State, step: Step)
    requires step.Call?
    ensures Awake(Apply(s, step))
  {
    SumAppend(s.threads, Newcomer(s, step), Looker);
  }

  lemma {:induction false} SleepersStrand(iv: Iv, steps: seq<Step>)
    requires !Awake(Run(Init(iv), steps))
    ensures Strands(Init(iv), steps)
    decreases |steps|
  {
    if steps != [] {
      var n := |steps| - 1;
      var s := Run(Init(iv), steps[..n]);
      if steps[n].Call? { CallWakes(s, steps[n]); }
      RunOwned(iv, steps[..n]);
      if Awake(s) {
        ApplyAwake(s, steps[n]);
        assert StrandsAt(Init(iv), steps, n);
      } else {
        SleepersStrand(iv, steps[..n]);
        StrandsMore(Init(iv), steps);
      }
    }
  }

  /**
   * Over every interleaving: a nonempty queue with INUSE clear has somebody on the way to it, unless the last caller
   * to finish gave up on the RNG and left the queue to nobody.
   */
  lemma RunAwake(iv: Iv, steps: seq<Step>)
    ensures Awake(Run(Init(iv), steps)) <==> !Strands(Init(iv), steps)
  {
    var s := Run(Init(iv), steps);
    if Strands(Init(iv), steps) {
      var k: nat :| StrandsAt(Init(iv), steps, k);
      StrandedStays(iv, steps, k);
      RunOwned(iv, steps);
      AllDone(s.threads, Holder);
      AllDone(s.threads, Looker);
    } else if !Awake(s) {
      SleepersStrand(iv, steps);
    }
  }

  /**
   * Over every interleaving: one thread at most stands at an access to `iv`,
   * and `queue_work` never finds the work already queued.
   */
  lemma RunExclusive(iv: Iv, steps: seq<Step>, i: nat, j: nat)
    requires var s := Run(Init(iv), steps); i < |s.threads| && j < |s.threads|
    requires var s := Run(Init(iv), steps); TouchesIv(s.threads[i].pc) && TouchesIv(s.threads[j].pc)
    ensures i == j && !Run(Init(iv), steps).pending && !Run(Init(iv), steps).bug
  {
    var s := Run(Init(iv), steps);
    RunOwned(iv, steps);
    SumUpdate(s.threads, i, s.threads[i], Holder);
    if i < j {
      SumPair(s.threads, i, j, Holder);
    } else if j < i {
      SumPair(s.threads, j, i, Holder);
    }
  }

  // ---- every request is encrypted once ----------------------------------

  /** The thread is bringing its request to the cipher or to the queue. */
  predicate Carries(pc: Pc) {
    || pc.FirstTry? || pc.FirstCheck? || pc.FirstSwitch? || pc.FirstSeed? || pc.FirstClear? || pc.Entry?
    || pc.EntryLook? || pc.EntryBack? || pc.TailCopy? || pc.TailEncrypt? || pc.Enqueue?
  }

  function Carrier(rq: nat): Thread -> nat {
    (t: Thread) => Bit(Carries(t.pc) && t.rq == rq)
  }

  function Times(q: seq<nat>, rq: nat): nat {
    if q == [] then 0 else Bit(q[0] == rq) + Times(q[1..], rq)
  }

  function Encryptions(log: seq<Enc>, rq: nat): nat {
    if log == [] then 0 else Encryptions(log[..|log| - 1], rq) + Bit(log[|log| - 1].rq == rq)
  }

  lemma {:induction false} TimesAppend(q: seq<nat>, x: nat, rq: nat)
    ensures Times(q + [x], rq) == Times(q, rq) + Bit(x == rq)
  {
    if q == [] {
      assert q + [x] == [x];
    } else {
      assert (q + [x])[1..] == q[1..] + [x];
      TimesAppend(q[1..], x, rq);
    }
  }

  lemma EncryptionsAppend(log: seq<Enc>, e: Enc, rq: nat)
    ensures Encryptions(log + [e], rq) == Encryptions(log, rq) + Bit(e.rq == rq)
  {
    assert (log + [e])[..|log|] == log;
  }

  /** Each call is carried by one thread, waits in the queue, was encrypted, or was refused: one of them, once. */
  ghost predicate Conserved(s: State, rq: nat) {
    Sum(s.threads, Carrier(rq)) + Times(s.queue, rq) + Encryptions(s.log, rq) + Times(s.refused, rq)
      == Bit(rq < s.calls)
  }

  lemma CarrierSteps(s: State, t: Thread, a: Answer, rq: nat)
    ensures Carrier(rq)(NextThread(s, t, a)) + Times(NextQueue(s, t), rq) + Bit(t.pc.TailEncrypt? && t.rq == rq)
          + Bit(Refuses(s, t) && t.rq == rq) == Carrier(rq)(t) + Times(s.queue, rq)
  {
    TimesAppend(s.queue, t.rq, rq);
  }

  lemma MoveConserved(s: State, i: nat, a: Answer, rq: nat)
    requires i < |s.threads| && Conserved(s, rq)
    ensures Conserved(Move(s, i, a), rq)
  {
    var t := s.threads[i];
    SumUpdate(s.threads, i, NextThread(s, t, a), Carrier(rq));
    CarrierSteps(s, t, a, rq);
    TimesAppend(s.refused, t.rq, rq);
    if t.pc.TailEncrypt? { EncryptionsAppend(s.log, Enc(i, t.rq, t.pc.giv, a.err, a.value), rq); }
  }

  lemma ApplyConserved(s: State, step: Step, rq: nat)
    requires Conserved(s, rq)
    ensures Conserved(Apply(s, step), rq)
  {
    if Enabled(s, step) {
      if step.Advance? {
        MoveConserved(s, step.i, step.answer, rq);
      } else {
        SumAppend(s.threads, Newcomer(s, step), Carrier(rq));
      }
    }
  }

  lemma {:induction false} RunConserved(iv: Iv, steps: seq<Step>, rq: nat)
    ensures Conserved(Run(Init(iv), steps), rq)
    decreases |steps|
  {
    if steps != [] {
      RunConserved(iv, steps[..|steps| - 1], rq);
      ApplyConserved(Run(Init(iv), steps[..|steps| - 1]), steps[|steps| - 1], rq);
    }
  }

  lemma {:induction false} AllDone(ts: seq<Thread>, f: Thread -> nat)
    requires forall i :: 0 <= i < |ts| ==> ts[i].pc.Done?
    requires forall t: Thread :: t.pc.Done? ==> f(t) == 0
    ensures Sum(ts, f) == 0
  {
    if ts != [] { AllDone(ts[..|ts| - 1], f); }
  }

  /**
   * When everything has come to rest, INUSE is clear, and the queue is empty (the BUG_ON of `async_chainiv_exit`)
   * unless the run stranded it. Each request was encrypted once, or refused, or is one of the stranded.
   */
  lemma RunQuiet(iv: Iv, steps: seq<Step>, rq: nat)
    requires Quiet(Run(Init(iv), steps)) && rq < Run(Init(iv), steps).calls
    ensures var s := Run(Init(iv), steps); !s.inuse && (s.queue == [] <==> !Strands(Init(iv), steps))
    ensures var s := Run(Init(iv), steps); Encryptions(s.log, rq) + Times(s.refused, rq) + Times(s.queue, rq) == 1
  {
    var s := Run(Init(iv), steps);
    RunOwned(iv, steps);
    RunAwake(iv, steps);
    RunConserved(iv, steps, rq);
    AllDone(s.threads, Holder);
    AllDone(s.threads, Looker);
    AllDone(s.threads, Carrier(rq));
  }

  lemma RunSnoc(s: State, steps: seq<Step>, step: Step)
    ensures Run(s, steps + [step]) == Apply(Run(s, steps), step)
  {
    assert (steps + [step])[..|steps|] == steps;
  }

  lemma RunThree(s: State, steps: seq<Step>, x: Step, y: Step, z: Step)
    ensures Run(s, steps + [x, y, z]) == Apply(Apply(Apply(Run(s, steps), x), y), z)
  {
    hide Apply;
    RunSnoc(s, steps, x);
    RunSnoc(s, steps + [x], y);
    RunSnoc(s, steps + [x] + [y], z);
    assert steps + [x, y, z] == steps + [x] + [y] + [z];
  }

  function Pair(first: bool, one: Pc, two: Pc, queue: seq<nat>): State {
    Init(0).(inuse := true, first := first, calls := 2, queue := queue, accepted := queue,
             threads := [Thread(one, 0, false), Thread(two, 1, false)])
  }

  const ADVANCE_ONE := Advance(0, Answer(0, 0))
  const ADVANCE_TWO := Advance(1, Answer(0, 0))

  lemma BothEnter()
    ensures Apply(Apply(Apply(Init(0), Call(false)), Call(false)), ADVANCE_ONE) == Pair(true, FirstCheck, FirstTry, [])
  {
  }

  lemma OneSwitches()
    ensures Apply(Apply(Apply(Pair(true, FirstCheck, FirstTry, []), ADVANCE_ONE), ADVANCE_ONE), ADVANCE_TWO)
         == Pair(false, FirstSeed, Entry, [])
  {
  }

  lemma TwoWaits()
    ensures Apply(Apply(Apply(Pair(false, FirstSeed, Entry, []), ADVANCE_TWO), ADVANCE_TWO), ADVANCE_TWO)
         == Pair(false, FirstSeed, Done(EINPROGRESS), [1])
  {
  }

  /** One caller is seeding; a second one found INUSE set and left its request in the queue. */
  lemma StrandingReached() returns (steps: seq<Step>)
    ensures Run(Init(0), steps) == Pair(false, FirstSeed, Done(EINPROGRESS), [1])
  {
    RunThree(Init(0), [], Call(false), Call(false), ADVANCE_ONE);
    BothEnter();
    steps := [] + [Call(false), Call(false), ADVANCE_ONE];
    RunThree(Init(0), steps, ADVANCE_ONE, ADVANCE_ONE, ADVANCE_TWO);
    OneSwitches();
    steps := steps + [ADVANCE_ONE, ADVANCE_ONE, ADVANCE_TWO];
    RunThree(Init(0), steps, ADVANCE_TWO, ADVANCE_TWO, ADVANCE_TWO);
    TwoWaits();
    steps := steps + [ADVANCE_TWO, ADVANCE_TWO, ADVANCE_TWO];
  }

  /** Without the RNG: the second caller's request stays queued with INUSE clear and nobody left to see it. */
  lemma SeedFailureStrands()
    ensures exists steps: seq<Step> :: var s := Run(Init(0), steps); Quiet(s) && !s.inuse && s.queue == [1]
  {
    var steps := StrandingReached();
    var bad := Advance(0, Answer(-1, 0));
    RunThree(Init(0), steps, bad, bad, bad);
    GivesUp(bad);
    assert Quiet(Run(Init(0), steps + [bad, bad, bad]));
  }

  lemma GivesUp(bad: Step)
    requires bad == Advance(0, Answer(-1, 0))
    ensures var s := Apply(Apply(Apply(Pair(false, FirstSeed, Done(EINPROGRESS), [1]), bad), bad), bad);
            Quiet(s) && !s.inuse && s.queue == [1]
  {
    var one := Apply(Pair(false, FirstSeed, Done(EINPROGRESS), [1]), bad);
    assert one.threads == [Thread(FirstClear(-1), 0, false), Thread(Done(EINPROGRESS), 1, false)];
    var two := Apply(one, bad);
    assert two.threads == [Thread(Done(-1), 0, false), Thread(Done(EINPROGRESS), 1, false)];
  }

  // ---- the IV chain and the reported errors -------------------------------

  lemma {:induction false} SumBelow(ts: seq<Thread>, i: nat, f: Thread -> nat, g: Thread -> nat)
    requires i < |ts| && forall t: Thread :: f(t) <= g(t)
    ensures Sum(ts, f) - f(ts[i]) <= Sum(ts, g) - g(ts[i])
    ensures Sum(ts, f) <= Sum(ts, g)
    decreases |ts|
  {
    var n := |ts| - 1;
    if i < n {
      SumBelow(ts[..n], i, f, g);
    } else if n > 0 {
      SumBelow(ts[..n], 0, f, g);
    }
  }

  /** The holder of the bit is the only thread any holder-only count sees. */
  lemma OnlyHolder(s: State, i: nat, f: Thread -> nat)
    requires Owned(s) && i < |s.threads| && HoldsBit(s.threads[i].pc) && forall t: Thread :: f(t) <= Holder(t)
    ensures Sum(s.threads, f) == f(s.threads[i]) && s.inuse && !s.pending
  {
    SumBelow(s.threads, i, f, Holder);
    SumUpdate(s.threads, i, s.threads[i], f);
    SumUpdate(s.threads, i, s.threads[i], Holder);
  }

  lemma SameHolder(s: State, i: nat, j: nat)
    requires Owned(s) && i < |s.threads| && HoldsBit(s.threads[i].pc) && j < |s.threads| && HoldsBit(s.threads[j].pc)
    ensures i == j
  {
    if i < j { SumPair(s.threads, i, j, Holder); }
    if j < i { SumPair(s.threads, j, i, Holder); }
  }

  function Checker(t: Thread): nat {
    Bit(t.pc.FirstCheck? || t.pc.FirstSwitch?)
  }

  function Seeder(t: Thread): nat {
    Bit(t.pc.FirstSeed?)
  }

  function Storer(t: Thread): nat {
    Bit(t.pc.TailStore?)
  }

  /** Until the seed is written the bit is free and untried, or its holder is on the way to write it. */
  ghost predicate Seeding(s: State) {
    !s.seeded ==>
      && s.log == []
      && (s.inuse && s.first ==> Sum(s.threads, Checker) == 1)
      && (s.inuse && !s.first ==> Sum(s.threads, Seeder) == 1)
      && (!s.inuse ==> s.first && forall i :: 0 <= i < |s.threads| ==> s.threads[i].pc.FirstTry?)
  }

  lemma MoveSeeding(s: State, i: nat, a: Answer)
    requires i < |s.threads| && Owned(s) && Seeding(s)
    ensures Seeding(Move(s, i, a))
  {
    var t := s.threads[i];
    SumUpdate(s.threads, i, NextThread(s, t, a), Checker);
    SumUpdate(s.threads, i, NextThread(s, t, a), Seeder);
    if HoldsBit(t.pc) {
      OnlyHolder(s, i, Checker);
      OnlyHolder(s, i, Seeder);
    } else if !s.inuse && |s.threads| > 0 {
      SumBelow(s.threads, 0, Checker, Holder);
    }
  }

  lemma ApplySeeding(s: State, step: Step)
    requires Owned(s) && Seeding(s)
    ensures Seeding(Apply(s, step))
  {
    if Enabled(s, step) {
      if step.Advance? {
        MoveSeeding(s, step.i, step.answer);
      } else {
        SumAppend(s.threads, Newcomer(s, step), Checker);
        SumAppend(s.threads, Newcomer(s, step), Seeder);
        if step.StartWork? && |s.threads| > 0 {
          SumBelow(s.threads, 0, Checker, Holder);
          SumBelow(s.threads, 0, Seeder, Holder);
        }
      }
    }
  }

  /** The IV the next encryption must start from: the last output, unless that encryption failed. */
  function Head(s: State): Iv {
    if s.log == [] then s.seed else After(s.log[|s.log| - 1])
  }

  function After(e: Enc): Iv {
    if e.err == 0 then e.out else e.giv
  }

  /** The log is one chain from the seed. */
  ghost predicate Chain(s: State) {
    && (s.log != [] ==> s.log[0].giv == s.seed)
    && forall k :: 0 < k < |s.log| ==> s.log[k].giv == After(s.log[k - 1])
  }

  ghost predicate View(s: State, pc: Pc) {
    && (pc.TailEncrypt? ==> s.seeded && pc.giv == s.iv)
    && (pc.TailStore? ==> s.seeded && pc.out == Head(s))
  }

  /** `iv` is the chain's head except while a thread is about to store it, and threads hold current values. */
  ghost predicate Current(s: State) {
    && (s.seeded && Sum(s.threads, Storer) == 0 ==> s.iv == Head(s))
    && forall i :: 0 <= i < |s.threads| ==> View(s, s.threads[i].pc)
  }

  /** A holder past the seeding function finds the context seeded. */
  lemma LateSeeded(s: State, i: nat)
    requires Owned(s) && Seeding(s) && i < |s.threads|
    requires HoldsBit(s.threads[i].pc) && Checker(s.threads[i]) == 0 && Seeder(s.threads[i]) == 0
    ensures s.seeded
  {
    OnlyHolder(s, i, Checker);
    OnlyHolder(s, i, Seeder);
  }

  ghost predicate SeedView(s: State, pc: Pc) {
    && (pc.FirstSwitch? ==> s.first)
    && (pc.FirstSeed? ==> !s.first && !s.seeded)
  }

  /** The pointer is switched once, and the seed written once after that. */
  ghost predicate Once(s: State) {
    && (s.seeded ==> !s.first)
    && forall i :: 0 <= i < |s.threads| ==> SeedView(s, s.threads[i].pc)
  }

  lemma MoveOnce(s: State, i: nat, a: Answer)
    requires i < |s.threads| && Owned(s) && Once(s)
    ensures Once(Move(s, i, a))
  {
    var t := s.threads[i];
    var n := Move(s, i, a);
    assert SeedView(s, t.pc);
    forall j: nat | j < |s.threads| ensures SeedView(n, n.threads[j].pc) {
      var pc := s.threads[j].pc;
      assert SeedView(s, pc);
      if j != i && (pc.FirstSwitch? || pc.FirstSeed?) && HoldsBit(t.pc) { SameHolder(s, i, j); }
    }
  }

  lemma ViewKept(s: State, i: nat, a: Answer, j: nat)
    requires i < |s.threads| && j < |s.threads| && Owned(s) && Seeding(s) && Once(s) && Current(s)
    ensures View(Move(s, i, a), Move(s, i, a).threads[j].pc)
  {
    var t := s.threads[i];
    if i == j {
      if t.pc.TailCopy? { LateSeeded(s, i); }
    } else {
      var pc := s.threads[j].pc;
      assert View(s, pc);
      if (pc.TailEncrypt? || pc.TailStore?) && HoldsBit(t.pc) { SameHolder(s, i, j); }
    }
  }

  lemma HeadKept(s: State, i: nat, a: Answer)
    requires i < |s.threads| && Owned(s) && Seeding(s) && Once(s) && Current(s) && Chain(s)
    ensures var n := Move(s, i, a); Chain(n) && (n.seeded && Sum(n.threads, Storer) == 0 ==> n.iv == Head(n))
  {
    var t := s.threads[i];
    assert View(s, t.pc) && SeedView(s, t.pc);
    SumUpdate(s.threads, i, NextThread(s, t, a), Storer);
    if HoldsBit(t.pc) { OnlyHolder(s, i, Storer); }
  }

  lemma MoveCurrent(s: State, i: nat, a: Answer)
    requires i < |s.threads| && Owned(s) && Seeding(s) && Once(s) && Current(s) && Chain(s)
    ensures Current(Move(s, i, a)) && Chain(Move(s, i, a))
  {
    HeadKept(s, i, a);
    hide View, Chain, Sum, Owned, Seeding, Once;
    forall j: nat | j < |s.threads| ensures View(Move(s, i, a), Move(s, i, a).threads[j].pc) {
      ViewKept(s, i, a, j);
    }
  }

  /** Everything the chain argument keeps, step by step. */
  ghost predicate Sound(s: State) {
    Owned(s) && Seeding(s) && Once(s) && Current(s) && Chain(s)
  }

  lemma EnterSound(s: State, step: Step)
    requires Sound(s) && !step.Advance? && Enabled(s, step)
    ensures Once(Apply(s, step)) && Current(Apply(s, step)) && Chain(Apply(s, step))
  {
    var n := Apply(s, step);
    SumAppend(s.threads, Newcomer(s, step), Storer);
    forall j: nat | j < |n.threads| ensures SeedView(n, n.threads[j].pc) && View(n, n.threads[j].pc) {
      if j < |s.threads| { assert SeedView(s, s.threads[j].pc) && View(s, s.threads[j].pc); }
    }
  }

  lemma ApplySound(s: State, step: Step)
    requires Sound(s)
    ensures Sound(Apply(s, step))
  {
    ApplyOwned(s, step);
    ApplySeeding(s, step);
    if Enabled(s, step) {
      if step.Advance? {
        MoveOnce(s, step.i, step.answer);
        MoveCurrent(s, step.i, step.answer);
      } else {
        EnterSound(s, step);
      }
    }
  }

  /**
   * Over every interleaving the encryptions form one chain: the first uses the
   * seed, each later one the output of the last success before it.
   */
  lemma {:induction false} RunChain(iv: Iv, steps: seq<Step>)
    ensures Sound(Run(Init(iv), steps))
    decreases |steps|
  {
    if steps != [] {
      RunChain(iv, steps[..|steps| - 1]);
      ApplySound(Run(Init(iv), steps[..|steps| - 1]), steps[|steps| - 1]);
    }
  }

  /** Before the pointer is switched, requests wait only behind a seeder. */
  ghost predicate Unswitched(s: State) {
    s.first && !s.inuse ==> s.queue == []
  }

  lemma MoveUnswitched(s: State, i: nat, a: Answer)
    requires i < |s.threads| && Sound(s) && Unswitched(s)
    ensures Unswitched(Move(s, i, a))
  {
    if s.first && s.inuse && HoldsBit(s.threads[i].pc) { OnlyHolder(s, i, Checker); }
  }

  /** So whoever is at `FirstTry` when INUSE is clear and requests wait goes on to look, and does not seed. */
  lemma {:induction false} RunUnswitched(iv: Iv, steps: seq<Step>)
    ensures Unswitched(Run(Init(iv), steps))
    decreases |steps|
  {
    if steps != [] {
      var n := |steps| - 1;
      RunUnswitched(iv, steps[..n]);
      RunChain(iv, steps[..n]);
      var s := Run(Init(iv), steps[..n]);
      if steps[n].Advance? && Enabled(s, steps[n]) { MoveUnswitched(s, steps[n].i, steps[n].answer); }
    }
  }

  // ---- first in, first out -----------------------------------------------

  /** What `crypto_enqueue_request` does with a hundred waiting, and with fewer. */
  lemma EnqueueExact(s: State, i: nat, a: Answer)
    requires i < |s.threads| && s.threads[i].pc.Enqueue?
    ensures var t, n := s.threads[i], Move(s, i, a);
            && n.queue == (if |s.queue| < 100 || t.backlog then s.queue + [t.rq] else s.queue)
            && n.refused == (if |s.queue| < 100 || t.backlog then s.refused else s.refused + [t.rq])
            && n.threads[i].pc == PostTry(if |s.queue| < 100 then -115 else -16)
  {
  }

  /** The encryptions of postponed requests, in order. */
  function FromQueue(log: seq<Enc>, accepted: seq<nat>): seq<nat> {
    if log == [] then []
    else
      var rq := log[|log| - 1].rq;
      FromQueue(log[..|log| - 1], accepted) + if rq in accepted then [rq] else []
  }

  /** The thread is about to encrypt a postponed request. */
  predicate Serves(t: Thread, accepted: seq<nat>) {
    (t.pc.TailCopy? || t.pc.TailEncrypt?) && t.rq in accepted
  }

  function InHand(ts: seq<Thread>, accepted: seq<nat>): seq<nat> {
    if ts == [] then []
    else
      var t := ts[|ts| - 1];
      InHand(ts[..|ts| - 1], accepted) + if Serves(t, accepted) then [t.rq] else []
  }

  /** The queue gives out what it took, in order, and what it gave out was encrypted in that order or is about to be. */
  ghost predicate Fifo(s: State) {
    s.accepted == s.dequeued + s.queue && s.dequeued == FromQueue(s.log, s.accepted) + InHand(s.threads, s.accepted)
  }

  lemma {:induction false} InHandOne(ts: seq<Thread>, i: nat, accepted: seq<nat>)
    requires i < |ts| && forall j :: 0 <= j < |ts| && j != i ==> !Serves(ts[j], accepted)
    ensures InHand(ts, accepted) == if Serves(ts[i], accepted) then [ts[i].rq] else []
  {
    var n := |ts| - 1;
    if i < n { InHandOne(ts[..n], i, accepted); } else { InHandNone(ts[..n], accepted); }
  }

  lemma {:induction false} InHandNone(ts: seq<Thread>, accepted: seq<nat>)
    requires forall j :: 0 <= j < |ts| ==> !Serves(ts[j], accepted)
    ensures InHand(ts, accepted) == []
  {
    if ts != [] { InHandNone(ts[..|ts| - 1], accepted); }
  }

  lemma {:induction false} InHandSame(ts: seq<Thread>, us: seq<Thread>, accepted: seq<nat>, more: seq<nat>)
    requires |us| == |ts|
    requires forall j :: 0 <= j < |ts| ==>
               (Serves(ts[j], accepted) <==> Serves(us[j], more)) && (Serves(ts[j], accepted) ==> us[j].rq == ts[j].rq)
    ensures InHand(us, more) == InHand(ts, accepted)
  {
    if ts != [] { InHandSame(ts[..|ts| - 1], us[..|us| - 1], accepted, more); }
  }

  lemma {:induction false} FromQueueMore(log: seq<Enc>, accepted: seq<nat>, rq: nat)
    requires Encryptions(log, rq) == 0
    ensures FromQueue(log, accepted + [rq]) == FromQueue(log, accepted)
  {
    if log != [] { FromQueueMore(log[..|log| - 1], accepted, rq); }
  }

  lemma {:induction false} FromQueueIn(log: seq<Enc>, accepted: seq<nat>, rq: nat)
    requires rq in FromQueue(log, accepted)
    ensures Encryptions(log, rq) > 0
  {
    var n := |log| - 1;
    if log[n].rq != rq { FromQueueIn(log[..n], accepted, rq); }
  }

  lemma FromQueueSnoc(log: seq<Enc>, e: Enc, accepted: seq<nat>)
    ensures FromQueue(log + [e], accepted) == FromQueue(log, accepted) + if e.rq in accepted then [e.rq] else []
  {
    assert (log + [e])[..|log|] == log;
  }

  lemma {:induction false} TimesIn(q: seq<nat>, rq: nat)
    requires rq in q
    ensures Times(q, rq) > 0
  {
    if q[0] != rq { TimesIn(q[1..], rq); }
  }

  /** The holder of the bit is the only one who can be serving. */
  lemma HolderServes(s: State, i: nat)
    requires Owned(s) && i < |s.threads| && HoldsBit(s.threads[i].pc)
    ensures InHand(s.threads, s.accepted) == if Serves(s.threads[i], s.accepted) then [s.threads[i].rq] else []
    ensures forall j :: 0 <= j < |s.threads| && j != i ==> !HoldsBit(s.threads[j].pc)
  {
    forall j: nat | j < |s.threads| && j != i ensures !HoldsBit(s.threads[j].pc) {
      if HoldsBit(s.threads[j].pc) { SameHolder(s, i, j); }
    }
    InHandOne(s.threads, i, s.accepted);
  }

  /** A request a thread carries outside the queue's service was not postponed. */
  lemma FreshCarried(s: State, i: nat)
    requires Owned(s) && Fifo(s) && i < |s.threads| && HoldsBit(s.threads[i].pc)
    requires Conserved(s, s.threads[i].rq) && Carries(s.threads[i].pc) && !Serves(s.threads[i], s.accepted)
    ensures s.threads[i].rq !in s.accepted
  {
    var rq := s.threads[i].rq;
    HolderServes(s, i);
    SumUpdate(s.threads, i, s.threads[i], Carrier(rq));
    if rq in s.queue { TimesIn(s.queue, rq); }
    if rq in FromQueue(s.log, s.accepted) { FromQueueIn(s.log, s.accepted, rq); }
  }

  predicate AtTail(pc: Pc) {
    pc.TailCopy? || pc.TailEncrypt?
  }

  /** What the holder's actions do to the histories, and who is then about to encrypt what. */
  lemma HolderMoves(s: State, i: nat, a: Answer)
    requires i < |s.threads| && HoldsBit(s.threads[i].pc)
    ensures var t, n := s.threads[i], Move(s, i, a); var u := n.threads[i];
            && n.accepted == s.accepted && n.threads == s.threads[i := u]
            && (if t.pc.WorkDequeue? && s.queue != [] then
                  n.queue == s.queue[1..] && n.dequeued == s.dequeued + [s.queue[0]] && u.rq == s.queue[0]
                else n.queue == s.queue && n.dequeued == s.dequeued && u.rq == t.rq)
            && (if t.pc.TailEncrypt? then
                  |n.log| == |s.log| + 1 && n.log[..|s.log|] == s.log && n.log[|s.log|].rq == t.rq
                else n.log == s.log)
    ensures var t := s.threads[i];
            AtTail(Move(s, i, a).threads[i].pc) <==>
              || t.pc.TailCopy? || (t.pc.EntryLook? && s.queue == []) || (t.pc.WorkDequeue? && s.queue != [])
  {
  }

  lemma HolderFifo(s: State, i: nat, a: Answer)
    requires Owned(s) && Fifo(s) && i < |s.threads| && HoldsBit(s.threads[i].pc) && Conserved(s, s.threads[i].rq)
    ensures Fifo(Move(s, i, a))
  {
    hide Move, FromQueue, InHand, Owned, Conserved;
    var t, n := s.threads[i], Move(s, i, a);
    HolderMoves(s, i, a);
    HolderServes(s, i);
    InHandOne(n.threads, i, s.accepted);
    if t.pc.TailEncrypt? {
      assert n.log == s.log + [n.log[|s.log|]];
      FromQueueSnoc(s.log, n.log[|s.log|], s.accepted);
    } else if t.pc.EntryLook? {
      FreshCarried(s, i);
    } else if t.pc.WorkDequeue? && s.queue != [] {
      assert s.queue == [s.queue[0]] + s.queue[1..];
    }
  }

  lemma OtherFifo(s: State, i: nat, a: Answer)
    requires Fifo(s) && i < |s.threads| && !HoldsBit(s.threads[i].pc) && Conserved(s, s.threads[i].rq)
    ensures Fifo(Move(s, i, a))
  {
    hide Sum;
    var t, n := s.threads[i], Move(s, i, a);
    if t.pc.Enqueue? {
      SumUpdate(s.threads, i, t, Carrier(t.rq));
      FromQueueMore(s.log, s.accepted, t.rq);
      forall j: nat | j < |s.threads| && j != i ensures !(Carries(s.threads[j].pc) && s.threads[j].rq == t.rq) {
        if i < j { SumPair(s.threads, i, j, Carrier(t.rq)); } else { SumPair(s.threads, j, i, Carrier(t.rq)); }
      }
    }
    InHandSame(s.threads, n.threads, s.accepted, n.accepted);
  }

  lemma EnterFifo(s: State, step: Step)
    requires Fifo(s) && !step.Advance?
    ensures Fifo(Apply(s, step))
  {
    assert (s.threads + [Newcomer(s, step)])[..|s.threads|] == s.threads;
  }

  /**
   * Over every interleaving postponed requests leave the queue in the order they entered it, and those encrypted so
   * far are the first ones postponed, in that order.
   */
  lemma {:induction false} RunFifo(iv: Iv, steps: seq<Step>)
    ensures var s := Run(Init(iv), steps);
            Fifo(s) && FromQueue(s.log, s.accepted) <= s.dequeued <= s.accepted
    decreases |steps|
  {
    if steps != [] {
      var n := |steps| - 1;
      var s, step := Run(Init(iv), steps[..n]), steps[n];
      RunFifo(iv, steps[..n]);
      RunOwned(iv, steps[..n]);
      if !step.Advance? {
        EnterFifo(s, step);
      } else if Enabled(s, step) {
        RunConserved(iv, steps[..n], s.threads[step.i].rq);
        if HoldsBit(s.threads[step.i].pc) { HolderFifo(s, step.i, step.answer); }
        else { OtherFifo(s, step.i, step.answer); }
      }
    }
  }

  /** Past the cipher, or scheduling after the queue. */
  predicate Past(pc: Pc) {
    pc.TailStore? || pc.SchedErr? || Reports(pc)
  }

  /** Past reading `ctx->err`: the value it will report is fixed. */
  predicate Reports(pc: Pc) {
    pc.SchedLook? || pc.SchedClear? || pc.SchedRecheck? || pc.SchedRetake? || pc.SchedQueue? || pc.Done?
  }

  ghost predicate Told(s: State, e: Enc) {
    && e.who < |s.threads|
    && var t := s.threads[e.who];
    && Past(t.pc) && t.rq == e.rq
    && (Reports(t.pc) ==> t.pc.ret == e.err)
    && (!Reports(t.pc) ==> s.err == e.err)
  }

  /** Whoever encrypted a request reports that encryption's own error, whatever others put in `ctx->err`. */
  ghost predicate Honest(s: State) {
    forall k :: 0 <= k < |s.log| ==> Told(s, s.log[k])
  }

  lemma MoveTold(s: State, i: nat, a: Answer, e: Enc)
    requires i < |s.threads| && Owned(s) && Told(s, e)
    ensures Told(Move(s, i, a), e)
  {
    var t := s.threads[i];
    if i != e.who && HoldsBit(s.threads[e.who].pc) && HoldsBit(t.pc) { SameHolder(s, i, e.who); }
  }

  lemma ApplyHonest(s: State, step: Step)
    requires Owned(s) && Honest(s)
    ensures Honest(Apply(s, step))
  {
    var n := Apply(s, step);
    forall k | 0 <= k < |n.log| ensures Told(n, n.log[k]) {
      if Enabled(s, step) && k < |s.log| {
        assert Told(s, s.log[k]);
        if step.Advance? { MoveTold(s, step.i, step.answer, s.log[k]); }
      }
    }
  }

  lemma {:induction false} RunHonest(iv: Iv, steps: seq<Step>)
    ensures Honest(Run(Init(iv), steps))
    decreases |steps|
  {
    if steps != [] {
      RunHonest(iv, steps[..|steps| - 1]);
      RunOwned(iv, steps[..|steps| - 1]);
      ApplyHonest(Run(Init(iv), steps[..|steps| - 1]), steps[|steps| - 1]);
    }
  }

  // ---- coming to rest -----------------------------------------------------

  /** The request may yet be appended to the queue. */
  function Enqueuer(t: Thread): nat {
    Bit(InEntry(t.pc) || t.pc.Enqueue?)
  }

  /** Steps a thread may still take while no request enters or leaves the queue. */
  function Left(idle: bool): Thread -> nat {
    (t: Thread) =>
      match t.pc
      case FirstTry => 30
      case FirstCheck => 29
      case FirstSwitch => 28
      case FirstSeed => 27
      case FirstClear(_) => 26
      case Entry => 25
      case EntryLook => 24
      case EntryBack => 23
      case Enqueue => 22
      case TailCopy => 11
      case TailEncrypt(_) => 10
      case TailStore(_) => 9
      case PostTry(_) => 10
      case PostErr(_) => 9
      case SchedErr => if idle then 4 else 8
      case SchedLook(_) => if idle then 3 else 7
      case SchedClear(_) => if idle then 2 else 6
      case SchedRecheck(_) => if idle then 1 else 5
      case SchedRetake(_) => if idle then 8 else 4
      case SchedQueue(_) => if idle then 7 else 3
      case WorkDequeue => if idle then 5 else 1
      case Done(_) => 0
  }

  function PendingLeft(s: State): nat {
    if !s.pending then 0 else if s.queue == [] then 6 else 2
  }

  function Work(s: State): nat {
    Sum(s.threads, Left(s.queue == [])) + PendingLeft(s)
  }

  /** Lexicographically: requests that may enter the queue, requests in it, steps until one of those changes. */
  ghost predicate Closer(t: State, s: State) {
    || Sum(t.threads, Enqueuer) < Sum(s.threads, Enqueuer)
    || (Sum(t.threads, Enqueuer) == Sum(s.threads, Enqueuer)
        && (|t.queue| < |s.queue| || (|t.queue| == |s.queue| && Work(t) < Work(s))))
  }

  lemma LeftSteps(s: State, t: Thread, a: Answer)
    requires !t.pc.Done? && NextQueue(s, t) == s.queue && Enqueuer(NextThread(s, t, a)) == Enqueuer(t)
    requires t.pc.SchedQueue? ==> !s.pending
    ensures Left(s.queue == [])(NextThread(s, t, a))
          + (if !t.pc.SchedQueue? then 0 else if s.queue == [] then 6 else 2)
          < Left(s.queue == [])(t)
  {
  }

  lemma MoveCloser(s: State, i: nat, a: Answer)
    requires Owned(s) && i < |s.threads| && !s.threads[i].pc.Done?
    ensures Closer(Move(s, i, a), s)
  {
    hide Sum;
    var t := s.threads[i];
    var u := NextThread(s, t, a);
    SumUpdate(s.threads, i, u, Enqueuer);
    if t.pc.SchedQueue? { OnlyHolder(s, i, Holder); }
    if NextQueue(s, t) == s.queue && Enqueuer(u) == Enqueuer(t) {
      LeftSteps(s, t, a);
      SumUpdate(s.threads, i, u, Left(s.queue == []));
    }
  }

  /** Every step other than a new call brings the system closer to rest. */
  lemma StepCloser(s: State, step: Step)
    requires Owned(s) && Enabled(s, step) && !step.Call?
    ensures Closer(Apply(s, step), s)
  {
    hide Sum, Owned;
    if step.StartWork? {
      SumAppend(s.threads, Newcomer(s, step), Enqueuer);
      SumAppend(s.threads, Newcomer(s, step), Left(s.queue == []));
    } else {
      hide Closer;
      MoveCloser(s, step.i, step.answer);
    }
  }

  lemma {:induction false} RunOn(s: State, step: Step, steps: seq<Step>)
    ensures Run(s, [step] + steps) == Run(Apply(s, step), steps)
    decreases |steps|
  {
    if steps == [] {
      RunSnoc(s, [], step);
      assert [step] + steps == [] + [step];
    } else {
      var n := |steps| - 1;
      assert [step] + steps == ([step] + steps[..n]) + [steps[n]];
      RunSnoc(s, [step] + steps[..n], steps[n]);
      RunOn(s, step, steps[..n]);
    }
  }

  /** From every reachable state, letting the started threads and the worker run brings the system to rest. */
  lemma {:induction false} ComesToRest(s: State) returns (steps: seq<Step>)
    requires Owned(s)
    ensures Quiet(Run(s, steps)) && forall k :: 0 <= k < |steps| ==> !steps[k].Call?
    decreases Sum(s.threads, Enqueuer), |s.queue|, Work(s)
  {
    if Quiet(s) {
      steps := [];
    } else {
      var step := StartWork;
      if !s.pending {
        var i :| 0 <= i < |s.threads| && !s.threads[i].pc.Done?;
        step := Advance(i, Answer(0, 0));
      }
      StepCloser(s, step);
      ApplyOwned(s, step);
      var rest := ComesToRest(Apply(s, step));
      RunOn(s, step, rest);
      steps := [step] + rest;
    }
  }
}
