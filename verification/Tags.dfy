/** Command tags of one queue: the bitmap, the index, the busy list, and what invalidation does to the order. */
module Tags {
  import opened Common

  type Id = int

  /**
   * `map_` and `index` are `real_max_depth` long; `tag` is each tagged request's `rq->tag`; `queue` the dispatch list.
   * `spilt`: a copy has written past the end of its array.
   */
  datatype State = State(
    map_: seq<bool>, index: seq<Option<Id>>, max: nat, busy: seq<Id>, tag: map<Id, nat>, queue: seq<Id>, spilt: bool)

  function Init(depth: nat): State {
    State(seq(depth, _ => false), seq(depth, _ => None), depth, [], map[], [], false)
  }

  /** A tag bit is set iff the index holds the one tagged request with that tag. */
  ghost predicate Agrees(s: State) {
    && |s.map_| == |s.index| && s.max <= |s.index|
    && (forall t :: 0 <= t < |s.index| ==> (s.map_[t] <==> s.index[t].Some?))
    && (forall t :: 0 <= t < |s.index| && s.index[t].Some? ==>
          s.index[t].value in s.tag && s.tag[s.index[t].value] == t)
    && (forall x :: x in s.tag ==> s.tag[x] < |s.index| && s.index[s.tag[x]] == Some(x))
    && NoDup(s.busy) && (forall x :: x in s.busy <==> x in s.tag)
  }

  ghost predicate Ok(s: State) {
    Agrees(s) && !s.spilt
  }

  // ---- blk_queue_start_tag ---------------------------------------------------------

  /** `find_first_zero_bit` */
  function FirstZero(m: seq<bool>, depth: nat): nat
    requires depth <= |m|
  {
    if depth == 0 || !m[0] then 0 else 1 + FirstZero(m[1..], depth - 1)
  }

  /** Tags an asynchronous request may use, two being kept for synchronous ones. */
  function Allowed(max: nat, sync: bool): nat {
    if sync || max <= 1 then max else if max == 2 then 1 else max - 2
  }

  /** No tag for this request now. */
  predicate Refuses(s: State, sync: bool, asyncInFlight: nat)
    requires s.max <= |s.map_|
  {
    || (!sync && s.max > 1 && asyncInFlight > Allowed(s.max, sync))
    || FirstZero(s.map_, Allowed(s.max, sync)) >= Allowed(s.max, sync)
  }

  function Assign(s: State, x: Id, t: nat): State
    requires t < |s.map_| && t < |s.index|
  {
    s.(map_ := s.map_[t := true], index := s.index[t := Some(x)], tag := s.tag[x := t], busy := [x] + s.busy)
  }

  function StartTag(s: State, x: Id, sync: bool, asyncInFlight: nat): State
    requires s.max <= |s.map_| == |s.index|
  {
    if Refuses(s, sync, asyncInFlight) then s else Assign(s, x, FirstZero(s.map_, Allowed(s.max, sync)))
  }

  // ---- blk_queue_end_tag -----------------------------------------------------------

  function EndTag(s: State, x: Id): State
    requires x in s.tag && |s.map_| == |s.index|
  {
    var t := s.tag[x];
    if t >= |s.index| then s
    else s.(map_ := s.map_[t := false], index := s.index[t := None], tag := s.tag - {x}, busy := Without(s.busy, x))
  }

  /** `blk_requeue_request` with no barrier in progress: the tag is given back and the request goes to the head. */
  function Requeue(s: State, x: Id): State
    requires x in s.tag && |s.map_| == |s.index|
  {
    var t := EndTag(s, x);
    t.(queue := [x] + t.queue)
  }

  // ---- blk_queue_resize_tags -------------------------------------------------------

  /** The depth `init_tag_map` settles on. */
  function Clamp(depth: nat, nrRequests: nat): nat {
    if depth > nrRequests * 2 then nrRequests * 2 else depth
  }

  /** What was in the old arrays fits into the new ones. */
  predicate Fits(s: State, depth: nat, nrRequests: nat) {
    depth <= |s.index| || |s.index| <= Clamp(depth, nrRequests)
  }

  /** A fresh array of `n` cells after `xs` was copied to its start; what was written past its end is not in it. */
  function Copied<T>(xs: seq<T>, n: nat, fill: T): seq<T> {
    if |xs| <= n then xs + seq(n - |xs|, _ => fill) else xs[..n]
  }

  function Resize(s: State, depth: nat, nrRequests: nat): State {
    if depth <= |s.index| then s.(max := depth)
    else
      var n := Clamp(depth, nrRequests);
      s.(map_ := Copied(s.map_, n, false), index := Copied(s.index, n, None), max := n,
         spilt := s.spilt || |s.index| > n)
  }

  // ---- blk_queue_invalidate_tags -----------------------------------------------------

  /** Every request on the busy list, from its head, is requeued. */
  function RequeueAll(s: State, xs: seq<Id>): State
    requires |s.map_| == |s.index| && NoDup(xs) && forall x :: x in xs ==> x in s.tag
    decreases |xs|
  {
    if xs == [] then s
    else
      var t := Requeue(s, xs[0]);
      RequeueAll(t, xs[1..])
  }

  function Reversed(xs: seq<Id>): seq<Id> {
    if xs == [] then [] else Reversed(xs[1..]) + [xs[0]]
  }

  // ---- every step keeps the tags straight ---------------------------------------------

  lemma {:induction false} FirstZeroIs(m: seq<bool>, depth: nat)
    requires depth <= |m|
    ensures FirstZero(m, depth) <= depth
    ensures FirstZero(m, depth) < depth ==> !m[FirstZero(m, depth)]
    ensures forall t :: 0 <= t < FirstZero(m, depth) ==> m[t]
  {
    if depth > 0 && m[0] { FirstZeroIs(m[1..], depth - 1); }
  }

  lemma AssignOk(s: State, x: Id, t: nat)
    requires Ok(s) && x !in s.tag && t < |s.index| && !s.map_[t]
    ensures Ok(Assign(s, x, t))
  {
  }

  lemma StartTagOk(s: State, x: Id, sync: bool, asyncInFlight: nat)
    requires Ok(s) && x !in s.tag
    ensures Ok(StartTag(s, x, sync, asyncInFlight))
  {
    FirstZeroIs(s.map_, Allowed(s.max, sync));
    if !Refuses(s, sync, asyncInFlight) { AssignOk(s, x, FirstZero(s.map_, Allowed(s.max, sync))); }
  }

  lemma EndTagOk(s: State, x: Id)
    requires Ok(s) && x in s.tag
    ensures Ok(EndTag(s, x)) && EndTag(s, x).tag == s.tag - {x} && EndTag(s, x).busy == Without(s.busy, x)
  {
    WithoutNoDup(s.busy, x);
    forall y ensures y in Without(s.busy, x) <==> y in s.busy && y != x {
      WithoutIn(s.busy, x, y);
    }
  }

  lemma ResizeOk(s: State, depth: nat, nrRequests: nat)
    requires Ok(s) && Fits(s, depth, nrRequests)
    ensures var t := Resize(s, depth, nrRequests);
            Ok(t) && t.tag == s.tag && forall x :: x in s.tag ==> t.index[s.tag[x]] == Some(x)
  {
  }

  /**
   * A resize copies within bounds and keeps the tags straight exactly when the old arrays fit into the new ones: no
   * more than the old depth is asked for, or the old depth is no more than twice the requests allowed.
   */
  lemma ResizeExact(s: State, depth: nat, nrRequests: nat)
    requires Ok(s)
    ensures Ok(Resize(s, depth, nrRequests)) <==> Fits(s, depth, nrRequests)
    ensures Fits(s, depth, nrRequests) <==> depth <= |s.index| || |s.index| <= 2 * nrRequests
    ensures var t := Resize(s, depth, nrRequests);
            if depth <= |s.index| then t.index == s.index && t.max == depth
            else |t.index| == t.max && (t.max == depth || t.max == 2 * nrRequests < depth)
  {
    if Fits(s, depth, nrRequests) { ResizeOk(s, depth, nrRequests); }
  }

  /** Some tag in use lies past the end of the new arrays. */
  ghost predicate LosesTag(s: State, depth: nat, nrRequests: nat) {
    depth > |s.index| && exists x :: x in s.tag && s.tag[x] >= Clamp(depth, nrRequests)
  }

  /** Of the resizes that do not fit, those that lose a tag in use. */
  lemma ResizeLoses(s: State, depth: nat, nrRequests: nat)
    requires Ok(s)
    ensures Agrees(Resize(s, depth, nrRequests)) <==> !LosesTag(s, depth, nrRequests)
    ensures LosesTag(s, depth, nrRequests) ==> !Fits(s, depth, nrRequests)
  {
    var n, t := Clamp(depth, nrRequests), Resize(s, depth, nrRequests);
    if LosesTag(s, depth, nrRequests) {
      var x :| x in s.tag && s.tag[x] >= n;
      assert x in t.tag && t.tag[x] >= |t.index|;
    } else if !Fits(s, depth, nrRequests) {
      assert forall k :: 0 <= k < n ==> t.index[k] == s.index[k] && t.map_[k] == s.map_[k];
    }
  }

  lemma {:induction false} ReversedIn(xs: seq<Id>, x: Id)
    ensures x in Reversed(xs) <==> x in xs
  {
    if xs != [] {
      ReversedIn(xs[1..], x);
      assert xs == [xs[0]] + xs[1..];
    }
  }

  lemma HeadOnly(s: State)
    requires Ok(s) && s.busy != []
    ensures s.busy[0] in s.tag && Without(s.busy, s.busy[0]) == s.busy[1..]
  {
    var x := s.busy[0];
    assert x in s.busy && x in s.tag;
    assert s.busy == [x] + s.busy[1..] && Without(s.busy, x) == s.busy[1..];
  }

  /** Invalidation frees every tag and puts the requests at the head of the queue in the order they were started. */
  lemma {:induction false} InvalidateOrder(s: State)
    requires Ok(s)
    ensures forall x :: x in s.busy ==> x in s.tag
    ensures var t := RequeueAll(s, s.busy);
            Ok(t) && t.tag == map[] && t.busy == [] && t.queue == Reversed(s.busy) + s.queue
    ensures forall k :: 0 <= k < |RequeueAll(s, s.busy).map_| ==> !RequeueAll(s, s.busy).map_[k]
    decreases |s.busy|
  {
    if s.busy == [] {
      NoTags(s);
    } else {
      var x := s.busy[0];
      HeadOnly(s);
      EndTagOk(s, x);
      var t := Requeue(s, x);
      RequeueKeeps(s, x);
      InvalidateOrder(t);
      assert Reversed(s.busy[1..]) + ([x] + s.queue) == Reversed(s.busy) + s.queue;
    }
  }

  lemma NoTags(s: State)
    requires Ok(s) && s.busy == []
    ensures s.tag == map[] && forall k :: 0 <= k < |s.map_| ==> !s.map_[k]
  {
    forall x ensures x !in s.tag {
      assert x !in s.busy;
    }
  }

  lemma RequeueKeeps(s: State, x: Id)
    requires Ok(s) && x in s.tag && Ok(EndTag(s, x))
    ensures Ok(Requeue(s, x))
  {
    hide NoDup;
  }

  // ---- runs ------------------------------------------------------------------------------

  datatype Step =
    | Start(x: Id, sync: bool, asyncInFlight: nat)
    | End(x: Id)
    | Requeued(x: Id)
    | Resized(depth: nat, nrRequests: nat)
    | Invalidated

  /** The arrays agree in length and the busy list holds tagged requests only, each once. */
  ghost predicate Shaped(s: State) {
    s.max <= |s.map_| == |s.index| && NoDup(s.busy) && forall x :: x in s.busy ==> x in s.tag
  }

  /** Starting a tagged request and ending an untagged one are not taken. */
  ghost function Apply(s: State, step: Step): State {
    if !Shaped(s) then s else
    match step
    case Start(x, sync, n) => if x in s.tag then s else StartTag(s, x, sync, n)
    case End(x) => if x in s.tag then EndTag(s, x) else s
    case Requeued(x) => if x in s.tag then Requeue(s, x) else s
    case Resized(depth, n) => Resize(s, depth, n)
    case Invalidated => RequeueAll(s, s.busy)
  }

  ghost function Run(s: State, steps: seq<Step>): State
    decreases |steps|
  {
    if steps == [] then s else Apply(Run(s, steps[..|steps| - 1]), steps[|steps| - 1])
  }

  /** What a caller has to look at before a resize. */
  predicate Safe(s: State, step: Step) {
    step.Resized? ==> Fits(s, step.depth, step.nrRequests)
  }

  lemma ApplyOk(s: State, step: Step)
    requires Ok(s)
    ensures Ok(Apply(s, step)) <==> Safe(s, step)
    ensures Shaped(s)
  {
    ShapedIfOk(s);
    hide Ok, RequeueAll, StartTag, EndTag, Resize;
    match step
    case Start(x, sync, n) => if x !in s.tag { StartTagOk(s, x, sync, n); }
    case End(x) => if x in s.tag { EndTagOk(s, x); }
    case Requeued(x) =>
      if x in s.tag {
        EndTagOk(s, x);
        RequeueKeeps(s, x);
      }
    case Resized(depth, n) => ResizeExact(s, depth, n);
    case Invalidated => InvalidateOrder(s);
  }

  /** What has been written past an array stays written. */
  lemma SpiltStays(s: State, step: Step)
    requires s.spilt
    ensures Apply(s, step).spilt
  {
    if Shaped(s) && step.Invalidated? { RequeueSpilt(s, s.busy); }
  }

  lemma {:induction false} RequeueSpilt(s: State, xs: seq<Id>)
    requires |s.map_| == |s.index| && NoDup(xs) && forall x :: x in xs ==> x in s.tag
    ensures RequeueAll(s, xs).spilt == s.spilt
    decreases |xs|
  {
    if xs != [] { RequeueSpilt(Requeue(s, xs[0]), xs[1..]); }
  }

  lemma ShapedIfOk(s: State)
    requires Ok(s)
    ensures Shaped(s)
  {
  }

  /** Every resize of the run fitted. */
  ghost predicate AllFit(depth: nat, steps: seq<Step>)
    decreases |steps|
  {
    steps != [] ==>
      var pre := steps[..|steps| - 1];
      AllFit(depth, pre) && Safe(Run(Init(depth), pre), steps[|steps| - 1])
  }

  lemma {:induction false} RunSpilt(depth: nat, steps: seq<Step>)
    requires !AllFit(depth, steps)
    ensures Run(Init(depth), steps).spilt
    decreases |steps|, 0
  {
    if steps != [] {
      var n := |steps| - 1;
      if AllFit(depth, steps[..n]) {
        RunOk(depth, steps[..n]);
        ShapedIfOk(Run(Init(depth), steps[..n]));
      } else {
        RunSpilt(depth, steps[..n]);
        SpiltStays(Run(Init(depth), steps[..n]), steps[n]);
      }
    }
  }

  /**
   * After a run a tag bit is set iff the index holds the one in-flight request with that tag, and nothing was written
   * past an array: exactly when every resize of the run fitted.
   */
  lemma {:induction false} RunOk(depth: nat, steps: seq<Step>)
    ensures Ok(Run(Init(depth), steps)) <==> AllFit(depth, steps)
    decreases |steps|, 1
  {
    if !AllFit(depth, steps) {
      RunSpilt(depth, steps);
    } else if steps != [] {
      var n := |steps| - 1;
      RunOk(depth, steps[..n]);
      ApplyOk(Run(Init(depth), steps[..n]), steps[n]);
    }
  }

  lemma StartSync(s: State, x: Id, k: nat)
    requires Ok(s) && x !in s.tag && k < s.max && !s.map_[k] && forall t :: 0 <= t < k ==> s.map_[t]
    ensures Apply(s, Start(x, true, 0)) == Assign(s, x, k) && Ok(Assign(s, x, k))
  {
    ShapedIfOk(s);
    FirstZeroIs(s.map_, s.max);
    AssignOk(s, x, k);
  }

  const THREE := [Start(10, true, 0), Start(11, true, 0), Start(12, true, 0)]

  lemma ThreeStarted()
    ensures var s := Run(Init(4), THREE); Ok(s) && |s.index| == 4 && 12 in s.tag && s.tag[12] == 2
  {
    var a, b, c := Init(4), Assign(Init(4), 10, 0), Assign(Assign(Init(4), 10, 0), 11, 1);
    StartSync(a, 10, 0);
    StartSync(b, 11, 1);
    StartSync(c, 12, 2);
    hide Ok, Apply, Assign;
    assert THREE[..2][..1] == [THREE[0]] && [THREE[0]][..0] == [];
    assert Run(a, []) == a && Run(a, THREE[..2][..1]) == Apply(a, THREE[0]);
    assert Run(a, THREE[..2]) == Apply(b, THREE[1]);
    assert Run(a, THREE) == Apply(c, THREE[2]);
  }

  /** Asking for one tag more loses one in use: 4 tags, 3 of them in use, 5 asked for, 1 request allowed. */
  lemma ClampLoses()
    ensures var s, t := Run(Init(4), THREE), Run(Init(4), THREE + [Resized(5, 1)]);
            Ok(s) && LosesTag(s, 5, 1) && !Agrees(t) && t.spilt
  {
    ThreeStarted();
    var s := Run(Init(4), THREE);
    assert (THREE + [Resized(5, 1)])[..3] == THREE;
    ShapedIfOk(s);
    ResizeLoses(s, 5, 1);
  }

  // ---- the order of starting ---------------------------------------------------------------

  /** The part of `xs` that is in `keep`, in order. */
  function Kept(xs: seq<Id>, keep: set<Id>): seq<Id> {
    if xs == [] then []
    else Kept(xs[..|xs| - 1], keep) + if xs[|xs| - 1] in keep then [xs[|xs| - 1]] else []
  }

  /** The requests holding a tag after a run, in the order in which they got it. */
  ghost function StartOrder(depth: nat, steps: seq<Step>): seq<Id>
    decreases |steps|
  {
    if steps == [] then []
    else
      var pre, last := steps[..|steps| - 1], steps[|steps| - 1];
      var s, t := Run(Init(depth), pre), Run(Init(depth), steps);
      Kept(StartOrder(depth, pre), t.tag.Keys) +
      if last.Start? && last.x !in s.tag && last.x in t.tag then [last.x] else []
  }

  lemma {:induction false} KeptAll(xs: seq<Id>, keep: set<Id>)
    requires forall x :: x in xs ==> x in keep
    ensures Kept(xs, keep) == xs
  {
    if xs != [] {
      var pre, last := xs[..|xs| - 1], xs[|xs| - 1];
      KeptAll(pre, keep);
      assert last in xs && last in keep && xs == pre + [last];
      assert Kept(xs, keep) == Kept(pre, keep) + [last];
    }
  }

  lemma {:induction false} KeptNone(xs: seq<Id>)
    ensures Kept(xs, {}) == []
  {
    if xs != [] { KeptNone(xs[..|xs| - 1]); }
  }

  lemma {:induction false} ReversedWithout(xs: seq<Id>, x: Id, keep: set<Id>)
    requires NoDup(xs) && forall y :: y in xs ==> (y in keep <==> y != x)
    ensures Reversed(Without(xs, x)) == Kept(Reversed(xs), keep)
  {
    if xs != [] {
      assert xs[0] in xs && Reversed(xs)[..|Reversed(xs)| - 1] == Reversed(xs[1..]);
      if xs[0] == x {
        forall y | y in Reversed(xs[1..]) ensures y in keep { ReversedIn(xs[1..], y); }
        KeptAll(Reversed(xs[1..]), keep);
      } else {
        ReversedWithout(xs[1..], x, keep);
        assert Without(xs, x)[0] == xs[0] && Without(xs, x)[1..] == Without(xs[1..], x);
      }
    }
  }

  lemma BusyKept(s: State, t: State)
    requires Ok(s) && t.busy == s.busy && t.tag.Keys >= s.tag.Keys
    ensures Reversed(t.busy) == Kept(Reversed(s.busy), t.tag.Keys)
  {
    forall x | x in Reversed(s.busy) ensures x in t.tag.Keys { ReversedIn(s.busy, x); }
    KeptAll(Reversed(s.busy), t.tag.Keys);
  }

  lemma BusyLeaves(s: State, x: Id)
    requires Ok(s) && x in s.tag
    ensures Reversed(EndTag(s, x).busy) == Kept(Reversed(s.busy), EndTag(s, x).tag.Keys)
  {
    EndTagOk(s, x);
    ReversedWithout(s.busy, x, EndTag(s, x).tag.Keys);
  }

  lemma BusyJoins(s: State, x: Id, sync: bool, n: nat)
    requires Ok(s) && x !in s.tag
    ensures var t := StartTag(s, x, sync, n);
            Reversed(t.busy) == Kept(Reversed(s.busy), t.tag.Keys) + if x in t.tag then [x] else []
  {
    var t := StartTag(s, x, sync, n);
    if x in t.tag {
      BusyKept(s, t.(busy := s.busy));
      assert t.busy[0] == x && t.busy[1..] == s.busy;
    } else {
      BusyKept(s, t);
    }
  }

  lemma BusyStep(s: State, step: Step)
    requires Ok(s)
    ensures var t := Apply(s, step);
            Reversed(t.busy) == Kept(Reversed(s.busy), t.tag.Keys) +
                                if step.Start? && step.x !in s.tag && step.x in t.tag then [step.x] else []
  {
    ShapedIfOk(s);
    hide Kept, Reversed, StartTag, EndTag, Ok;
    match step
    case Start(x, sync, n) => if x in s.tag { BusyKept(s, s); } else { BusyJoins(s, x, sync, n); }
    case End(x) => if x in s.tag { BusyLeaves(s, x); } else { BusyKept(s, s); }
    case Requeued(x) => if x in s.tag { BusyLeaves(s, x); } else { BusyKept(s, s); }
    case Resized(_, _) => BusyKept(s, Apply(s, step));
    case Invalidated =>
      InvalidateOrder(s);
      KeptNone(Reversed(s.busy));
      assert RequeueAll(s, s.busy).tag.Keys == {};
      NothingReversed();
  }

  lemma NothingReversed()
    ensures Reversed([]) == []
  {
  }

  lemma {:induction false} BusyIsStartOrder(depth: nat, steps: seq<Step>)
    requires AllFit(depth, steps)
    ensures Reversed(Run(Init(depth), steps).busy) == StartOrder(depth, steps)
    decreases |steps|
  {
    if steps != [] {
      var pre := steps[..|steps| - 1];
      BusyIsStartOrder(depth, pre);
      RunOk(depth, pre);
      BusyStep(Run(Init(depth), pre), steps[|steps| - 1]);
    }
  }

  /**
   * After any run whose resizes fitted, invalidation frees every tag and queues the requests in the order they got
   * their tags.
   */
  lemma RunInvalidate(depth: nat, steps: seq<Step>)
    requires AllFit(depth, steps)
    ensures var s, t := Run(Init(depth), steps), Run(Init(depth), steps + [Invalidated]);
            t.tag == map[] && t.busy == [] && t.queue == StartOrder(depth, steps) + s.queue
  {
    RunOk(depth, steps);
    BusyIsStartOrder(depth, steps);
    ShapedIfOk(Run(Init(depth), steps));
    InvalidateOrder(Run(Init(depth), steps));
    assert (steps + [Invalidated])[..|steps|] == steps;
  }

  // ---- tags kept for synchronous requests ------------------------------------------------------

  /** How many tags, from 0 up, an asynchronous request may take of `max`. */
  function AsyncShare(max: nat): nat {
    if max > 2 then max - 2 else if max == 0 then 0 else 1
  }

  /** A synchronous request is refused exactly when every tag is taken; others may not use the last two. */
  lemma RefusesExactly(s: State, sync: bool, asyncInFlight: nat)
    requires Ok(s)
    ensures var share := if sync then s.max else AsyncShare(s.max);
            Refuses(s, sync, asyncInFlight) <==>
              (forall t :: 0 <= t < share ==> s.map_[t]) || (!sync && s.max > 1 && asyncInFlight > share)
  {
    FirstZeroIs(s.map_, Allowed(s.max, sync));
  }

  /** The requests holding a tag after a run that got it as asynchronous ones. */
  ghost function ByAsync(depth: nat, steps: seq<Step>): set<Id>
    decreases |steps|
  {
    if steps == [] then {}
    else
      var pre, last := steps[..|steps| - 1], steps[|steps| - 1];
      var s, t := Run(Init(depth), pre), Run(Init(depth), steps);
      (ByAsync(depth, pre) * t.tag.Keys) +
      if last.Start? && !last.sync && last.x !in s.tag && last.x in t.tag then {last.x} else {}
  }

  /** No step but a resize changes the depth or the tag of a request that keeps one. */
  lemma TagsStay(s: State, step: Step)
    requires Ok(s) && !step.Resized?
    ensures var t := Apply(s, step);
            && t.max == s.max && |t.index| == |s.index|
            && (forall x :: x in s.tag && x in t.tag ==> t.tag[x] == s.tag[x])
            && (step.Start? && step.x !in s.tag && step.x in t.tag ==>
                  t.tag[step.x] < if step.sync then s.max else AsyncShare(s.max))
  {
    ShapedIfOk(s);
    match step
    case Start(x, sync, n) => FirstZeroIs(s.map_, Allowed(s.max, sync));
    case End(x) =>
    case Requeued(x) =>
    case Invalidated =>
      InvalidateOrder(s);
      RequeueDepth(s, s.busy);
  }

  lemma {:induction false} RequeueDepth(s: State, xs: seq<Id>)
    requires |s.map_| == |s.index| && NoDup(xs) && forall x :: x in xs ==> x in s.tag
    ensures RequeueAll(s, xs).max == s.max && |RequeueAll(s, xs).index| == |s.index|
    decreases |xs|
  {
    if xs != [] { RequeueDepth(Requeue(s, xs[0]), xs[1..]); }
  }

  /** At a fixed depth of three or more, asynchronous requests never hold one of the last two tags. */
  lemma {:induction false} RunReserved(depth: nat, steps: seq<Step>)
    requires forall k :: 0 <= k < |steps| ==> !steps[k].Resized?
    ensures var t := Run(Init(depth), steps);
            && Ok(t) && t.max == |t.index| == depth
            && forall x :: x in ByAsync(depth, steps) ==> x in t.tag && t.tag[x] < AsyncShare(depth)
    decreases |steps|
  {
    if steps != [] {
      var n := |steps| - 1;
      RunReserved(depth, steps[..n]);
      var s := Run(Init(depth), steps[..n]);
      TagsStay(s, steps[n]);
      ApplyOk(s, steps[n]);
    }
  }

  /** So while no synchronous request holds a tag, there is one for the next. */
  lemma SyncServed(depth: nat, steps: seq<Step>, asyncInFlight: nat)
    requires depth > 2 && forall k :: 0 <= k < |steps| ==> !steps[k].Resized?
    requires Run(Init(depth), steps).tag.Keys == ByAsync(depth, steps)
    ensures var t := Run(Init(depth), steps); t.max <= |t.map_| && !Refuses(t, true, asyncInFlight)
  {
    hide Run, ByAsync;
    RunReserved(depth, steps);
    var t := Run(Init(depth), steps);
    RefusesExactly(t, true, asyncInFlight);
    assert forall x :: x in t.tag ==> x in t.tag.Keys;
    TopFree(t);
  }

  lemma TopFree(s: State)
    requires Ok(s) && |s.index| > 2 && forall x :: x in s.tag ==> s.tag[x] < |s.index| - 2
    ensures !s.map_[|s.index| - 1]
  {
    var n := |s.index| - 1;
    assert forall x :: x in s.tag ==> s.tag[x] != n;
    assert s.map_[n] <==> s.index[n].Some?;
  }
}
