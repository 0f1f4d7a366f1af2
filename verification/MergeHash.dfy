/** The elevator's merge hash: finding a held request by the sector behind its end. */
module MergeHash {
  import opened Common

  type Id = int

  /** Where a request starts on the disk, and how long it is. */
  datatype Extent = Extent(pos: nat, sectors: nat)

  /** `extent` says where each request lies; `held` are those the scheduler has; `nomerge` may no longer be merged. */
  datatype State = State(buckets: seq<seq<Id>>, extent: map<Id, Extent>, held: set<Id>, nomerge: set<Id>)

  /** Any hash into 64 buckets. */
  type Hash = nat -> nat

  const ENTRIES: nat := 64

  function Bucket(h: Hash, sector: nat): nat
    ensures Bucket(h, sector) < ENTRIES
  {
    h(sector / 8) % ENTRIES
  }

  function Init(): State {
    State(seq(ENTRIES, _ => []), map[], {}, {})
  }

  function At(s: State, x: Id): Extent {
    if x in s.extent then s.extent[x] else Extent(0, 0)
  }

  /** `rq_hash_key` */
  function End(s: State, x: Id): nat {
    At(s, x).pos + At(s, x).sectors
  }

  /** `rq_mergeable` for a request the scheduler holds. */
  predicate Mergeable(s: State, x: Id) {
    x in s.held && x !in s.nomerge
  }

  ghost predicate In(s: State, b: int, x: Id) {
    0 <= b < |s.buckets| && x in s.buckets[b]
  }

  ghost predicate Shaped(s: State) {
    |s.buckets| == ENTRIES && forall b :: 0 <= b < ENTRIES ==> NoDup(s.buckets[b])
  }

  /** Everything hashed is held, in the bucket of its end. */
  ghost predicate InPlace(h: Hash, s: State) {
    forall b, x {:trigger In(s, b, x)} :: In(s, b, x) ==> x in s.held && b == Bucket(h, End(s, x))
  }

  /** Everything held and mergeable is hashed. */
  ghost predicate Findable(h: Hash, s: State) {
    forall x {:trigger Mergeable(s, x)} :: Mergeable(s, x) ==> In(s, Bucket(h, End(s, x)), x)
  }

  ghost predicate Ok(h: Hash, s: State) {
    Shaped(s) && InPlace(h, s) && Findable(h, s)
  }

  // ---- the operations ------------------------------------------------------------------

  /** `__elv_rqhash_del`: out of whatever bucket it is in. */
  function Del(s: State, x: Id): State {
    s.(buckets := seq(|s.buckets|, b requires 0 <= b < |s.buckets| => Without(s.buckets[b], x)))
  }

  /** `elv_rqhash_add` */
  function AddHead(h: Hash, s: State, x: Id): State
    requires |s.buckets| == ENTRIES
  {
    var b := Bucket(h, End(s, x));
    s.(buckets := s.buckets[b := [x] + s.buckets[b]])
  }

  function Held(s: State, x: Id, e: Extent, mergeable: bool): State {
    s.(extent := s.extent[x := e], held := s.held + {x},
       nomerge := if mergeable then s.nomerge - {x} else s.nomerge + {x})
  }

  /** Insertion into the scheduler. */
  function Insert(h: Hash, s: State, x: Id, e: Extent, mergeable: bool): State
    requires |s.buckets| == ENTRIES
  {
    if mergeable then AddHead(h, Held(s, x, e, mergeable), x) else Held(s, x, e, mergeable)
  }

  /** `elv_rqhash_reposition`, after the request became `e`. */
  function Rehash(h: Hash, s: State, x: Id, e: Extent): State
    requires |s.buckets| == ENTRIES
  {
    AddHead(h, Del(s.(extent := s.extent[x := e]), x), x)
  }

  /** A back merge of `n` sectors; `elv_merged_request` rehashes. */
  function BackMerge(h: Hash, s: State, x: Id, n: nat): State
    requires |s.buckets| == ENTRIES
  {
    Rehash(h, s, x, Extent(At(s, x).pos, At(s, x).sectors + n))
  }

  /** A front merge of `n` sectors; `elv_merged_request` leaves the hash alone. */
  function FrontMerge(s: State, x: Id, n: nat): State
    requires n <= At(s, x).pos
  {
    s.(extent := s.extent[x := Extent(At(s, x).pos - n, At(s, x).sectors + n)])
  }

  /** A request merge, perhaps right after a back merge of `n` sectors closed the gap: `y` is gone. */
  function MergeTwo(h: Hash, s: State, x: Id, n: nat, y: Id): State
    requires |s.buckets| == ENTRIES
  {
    Dispatch(Rehash(h, s, x, Extent(At(s, x).pos, At(s, x).sectors + n + At(s, y).sectors)), y)
  }

  /** Dispatch: `elv_rqhash_del`, and the scheduler no longer holds it. */
  function Dispatch(s: State, x: Id): State {
    var t := Del(s, x);
    t.(held := t.held - {x})
  }

  /** REQ_NOMERGE is set; the hash is cleaned up later. */
  function Forbid(s: State, x: Id): State {
    s.(nomerge := s.nomerge + {x})
  }

  /** `elv_rqhash_find`: walks the bucket, dropping what can no longer be merged, up to the first that ends there. */
  function Walk(s: State, bucket: seq<Id>, sector: nat): (Option<Id>, seq<Id>) {
    if bucket == [] then (None, [])
    else if !Mergeable(s, bucket[0]) then Walk(s, bucket[1..], sector)
    else if End(s, bucket[0]) == sector then (Some(bucket[0]), bucket)
    else var (r, rest) := Walk(s, bucket[1..], sector); (r, [bucket[0]] + rest)
  }

  function Find(h: Hash, s: State, sector: nat): Option<Id>
    requires |s.buckets| == ENTRIES
  {
    Walk(s, s.buckets[Bucket(h, sector)], sector).0
  }

  function AfterFind(h: Hash, s: State, sector: nat): State
    requires |s.buckets| == ENTRIES
  {
    var b := Bucket(h, sector);
    s.(buckets := s.buckets[b := Walk(s, s.buckets[b], sector).1])
  }

  // ---- the walk ------------------------------------------------------------------------

  lemma {:induction false} WalkFinds(s: State, bucket: seq<Id>, sector: nat)
    ensures var r := Walk(s, bucket, sector).0;
            && (r.Some? ==> r.value in bucket && Mergeable(s, r.value) && End(s, r.value) == sector)
            && (r.None? ==> forall x :: x in bucket && Mergeable(s, x) ==> End(s, x) != sector)
  {
    if bucket != [] {
      assert bucket == [bucket[0]] + bucket[1..];
      WalkFinds(s, bucket[1..], sector);
    }
  }

  lemma {:induction false} WalkKeeps(s: State, bucket: seq<Id>, sector: nat, x: Id)
    ensures x in Walk(s, bucket, sector).1 ==> x in bucket
    ensures x in bucket && Mergeable(s, x) ==> x in Walk(s, bucket, sector).1
  {
    if bucket != [] {
      assert bucket == [bucket[0]] + bucket[1..];
      WalkKeeps(s, bucket[1..], sector, x);
    }
  }

  lemma {:induction false} WalkNoDup(s: State, bucket: seq<Id>, sector: nat)
    requires NoDup(bucket)
    ensures NoDup(Walk(s, bucket, sector).1)
  {
    if bucket != [] {
      WalkNoDup(s, bucket[1..], sector);
      if Mergeable(s, bucket[0]) && End(s, bucket[0]) != sector {
        WalkKeeps(s, bucket[1..], sector, bucket[0]);
        ConsNoDup(bucket[0], Walk(s, bucket[1..], sector).1);
      }
    }
  }

  lemma ConsNoDup(x: Id, s: seq<Id>)
    requires NoDup(s) && x !in s
    ensures NoDup([x] + s)
  {
  }

  /** The lookup succeeds exactly when a scan of all held mergeable requests would. */
  lemma FindExact(h: Hash, s: State, sector: nat)
    requires Ok(h, s)
    ensures Find(h, s, sector).Some? <==> exists x :: Mergeable(s, x) && End(s, x) == sector
    ensures Find(h, s, sector).Some? ==> var x := Find(h, s, sector).value; Mergeable(s, x) && End(s, x) == sector
  {
    hide Walk;
    WalkFinds(s, s.buckets[Bucket(h, sector)], sector);
    forall x | Mergeable(s, x) && End(s, x) == sector ensures x in s.buckets[Bucket(h, sector)] {
      assert In(s, Bucket(h, End(s, x)), x);
    }
  }

  // ---- what every operation keeps --------------------------------------------------------

  lemma DelFacts(s: State, x: Id)
    requires Shaped(s)
    ensures var t := Del(s, x);
            Shaped(t) && forall b, y {:trigger In(t, b, y)} :: In(t, b, y) <==> In(s, b, y) && y != x
  {
    var t := Del(s, x);
    forall b | 0 <= b < ENTRIES ensures NoDup(t.buckets[b]) {
      WithoutNoDup(s.buckets[b], x);
    }
    forall b, y ensures In(t, b, y) <==> In(s, b, y) && y != x {
      if 0 <= b < ENTRIES { WithoutIn(s.buckets[b], x, y); }
    }
  }

  lemma AddFacts(h: Hash, s: State, x: Id)
    requires Shaped(s) && !In(s, Bucket(h, End(s, x)), x)
    ensures var t, k := AddHead(h, s, x), Bucket(h, End(s, x));
            Shaped(t) && forall b, y {:trigger In(t, b, y)} :: In(t, b, y) <==> In(s, b, y) || (b == k && y == x)
  {
    var k := Bucket(h, End(s, x));
    ConsNoDup(x, s.buckets[k]);
  }

  /** After a rehash only `x` has moved, into the bucket of its new end. */
  lemma RehashOk(h: Hash, s: State, x: Id, e: Extent)
    requires Ok(h, s) && x in s.held
    ensures Ok(h, Rehash(h, s, x, e))
  {
    hide Del, AddHead, NoDup;
    var s1 := s.(extent := s.extent[x := e]);
    SameBuckets(s, s1);
    DelFacts(s1, x);
    var d := Del(s1, x);
    DelFrame(s1, x);
    AddFacts(h, d, x);
    var t := AddHead(h, d, x);
    AddFrame(h, d, x);
    forall y | Mergeable(t, y) ensures In(t, Bucket(h, End(t, y)), y) {
      assert Mergeable(s, y);
      if y != x { assert In(s1, Bucket(h, End(s, y)), y) && In(d, Bucket(h, End(s, y)), y); }
    }
    forall b, y | In(t, b, y) ensures y in t.held && b == Bucket(h, End(t, y)) {
      if y != x { assert In(d, b, y) && In(s1, b, y) && In(s, b, y); } else { assert !In(d, b, y); }
    }
  }

  lemma SameBuckets(s: State, t: State)
    requires t.buckets == s.buckets
    ensures (Shaped(t) <==> Shaped(s)) && forall b, y :: In(t, b, y) <==> In(s, b, y)
  {
  }

  lemma DelFrame(s: State, x: Id)
    ensures var t := Del(s, x);
            |t.buckets| == |s.buckets| && t.extent == s.extent && t.held == s.held && t.nomerge == s.nomerge
  {
  }

  lemma AddFrame(h: Hash, s: State, x: Id)
    requires |s.buckets| == ENTRIES
    ensures var t := AddHead(h, s, x); t.extent == s.extent && t.held == s.held && t.nomerge == s.nomerge
  {
  }

  lemma DispatchOk(h: Hash, s: State, x: Id)
    requires Ok(h, s)
    ensures Ok(h, Dispatch(s, x))
  {
    hide Del, NoDup;
    DelFacts(s, x);
    DelFrame(s, x);
    var d, t := Del(s, x), Dispatch(s, x);
    SameBuckets(d, t);
    forall y | Mergeable(t, y) ensures In(t, Bucket(h, End(t, y)), y) {
      assert Mergeable(s, y) && In(s, Bucket(h, End(s, y)), y) && In(d, Bucket(h, End(s, y)), y);
    }
    forall b, y | In(t, b, y) ensures y in t.held && b == Bucket(h, End(t, y)) {
      assert In(d, b, y) && In(s, b, y);
    }
  }

  /** The absorbing request ends where the absorbed one did. */
  lemma MergeTwoOk(h: Hash, s: State, x: Id, n: nat, y: Id)
    requires Ok(h, s) && x in s.held && x != y && End(s, x) + n == At(s, y).pos
    ensures var t := MergeTwo(h, s, x, n, y); Ok(h, t) && End(t, x) == End(s, y)
  {
    hide InPlace, Findable, Del, AddHead;
    var e := Extent(At(s, x).pos, At(s, x).sectors + n + At(s, y).sectors);
    RehashOk(h, s, x, e);
    var d := Del(s.(extent := s.extent[x := e]), x);
    DelFrame(s.(extent := s.extent[x := e]), x);
    AddFrame(h, d, x);
    DelFrame(Rehash(h, s, x, e), y);
    DispatchOk(h, Rehash(h, s, x, e), y);
  }

  /** A front merge moves the start and not the end, so no request changes its bucket. */
  lemma FrontMergeOk(h: Hash, s: State, x: Id, n: nat)
    requires Ok(h, s) && n <= At(s, x).pos
    ensures Ok(h, FrontMerge(s, x, n))
  {
    hide NoDup;
    var t := FrontMerge(s, x, n);
    SameBuckets(s, t);
    assert forall y :: End(t, y) == End(s, y);
    forall y | Mergeable(t, y) ensures In(t, Bucket(h, End(t, y)), y) {
      assert Mergeable(s, y);
    }
    forall b, y | In(t, b, y) ensures y in t.held && b == Bucket(h, End(t, y)) {
      assert In(s, b, y);
    }
  }

  lemma InsertOk(h: Hash, s: State, x: Id, e: Extent, mergeable: bool)
    requires Ok(h, s) && x !in s.held
    ensures Ok(h, Insert(h, s, x, e, mergeable))
  {
    hide AddHead, NoDup;
    var s1 := Held(s, x, e, mergeable);
    var k, t := Bucket(h, e.pos + e.sectors), Insert(h, s, x, e, mergeable);
    SameBuckets(s, s1);
    assert !In(s, k, x) && !In(s1, k, x);
    if mergeable {
      AddFacts(h, s1, x);
      AddFrame(h, s1, x);
    }
    forall y | Mergeable(t, y) ensures In(t, Bucket(h, End(t, y)), y) {
      if y != x { assert Mergeable(s, y) && In(s, Bucket(h, End(s, y)), y) && In(s1, Bucket(h, End(s, y)), y); }
    }
    forall b, y | In(t, b, y) ensures y in t.held && b == Bucket(h, End(t, y)) {
      assert In(s1, b, y) ==> In(s, b, y);
    }
  }

  lemma ForbidOk(h: Hash, s: State, x: Id)
    requires Ok(h, s)
    ensures Ok(h, Forbid(s, x))
  {
    var t := Forbid(s, x);
    SameBuckets(s, t);
    forall y | Mergeable(t, y) ensures In(t, Bucket(h, End(t, y)), y) {
      assert Mergeable(s, y);
    }
    forall b, y | In(t, b, y) ensures y in t.held && b == Bucket(h, End(t, y)) {
      assert In(s, b, y);
    }
  }

  lemma AfterFindOk(h: Hash, s: State, sector: nat)
    requires Ok(h, s)
    ensures Ok(h, AfterFind(h, s, sector))
  {
    hide Walk;
    var k, t := Bucket(h, sector), AfterFind(h, s, sector);
    WalkNoDup(s, s.buckets[k], sector);
    forall y | Mergeable(t, y) ensures In(t, Bucket(h, End(t, y)), y) {
      assert Mergeable(s, y) && In(s, Bucket(h, End(s, y)), y);
      WalkKeeps(s, s.buckets[k], sector, y);
    }
    forall b, y | In(t, b, y) ensures y in t.held && b == Bucket(h, End(t, y)) {
      WalkKeeps(s, s.buckets[k], sector, y);
      assert In(s, b, y);
    }
  }

  // ---- runs --------------------------------------------------------------------------------

  datatype Step =
    | Inserted(x: Id, e: Extent, mergeable: bool)
    | MergedBack(x: Id, n: nat)
    | MergedFront(x: Id, n: nat)
    | MergedTwo(x: Id, n: nat, y: Id)
    | Dispatched(x: Id)
    | Forbidden(x: Id)
    | Found(sector: nat)

  /** The two requests of a merge: held, distinct, and contiguous once `n` sectors are put between. */
  predicate Adjoin(s: State, x: Id, n: nat, y: Id) {
    x in s.held && y in s.held && x != y && End(s, x) + n == At(s, y).pos
  }

  /** Steps on requests that are not held, or do not meet, do nothing. */
  function Apply(h: Hash, s: State, step: Step): State
    requires |s.buckets| == ENTRIES
  {
    match step
    case Inserted(x, e, mergeable) => if x in s.held then s else Insert(h, s, x, e, mergeable)
    case MergedBack(x, n) => if x in s.held then BackMerge(h, s, x, n) else s
    case MergedFront(x, n) => if x in s.held && n <= At(s, x).pos then FrontMerge(s, x, n) else s
    case MergedTwo(x, n, y) => if Adjoin(s, x, n, y) then MergeTwo(h, s, x, n, y) else s
    case Dispatched(x) => Dispatch(s, x)
    case Forbidden(x) => Forbid(s, x)
    case Found(sector) => AfterFind(h, s, sector)
  }

  lemma ApplyOk(h: Hash, s: State, step: Step)
    requires Ok(h, s)
    ensures Ok(h, Apply(h, s, step))
  {
    hide InPlace, Findable, Insert, Rehash, MergeTwo, FrontMerge, Dispatch, Forbid, AfterFind;
    match step
    case Inserted(x, e, mergeable) => if x !in s.held { InsertOk(h, s, x, e, mergeable); }
    case MergedBack(x, n) => if x in s.held { RehashOk(h, s, x, Extent(At(s, x).pos, At(s, x).sectors + n)); }
    case MergedFront(x, n) => if x in s.held && n <= At(s, x).pos { FrontMergeOk(h, s, x, n); }
    case MergedTwo(x, n, y) => if Adjoin(s, x, n, y) { MergeTwoOk(h, s, x, n, y); }
    case Dispatched(x) => DispatchOk(h, s, x);
    case Forbidden(x) => ForbidOk(h, s, x);
    case Found(sector) => AfterFindOk(h, s, sector);
  }

  function Run(h: Hash, steps: seq<Step>): (s: State)
    ensures |s.buckets| == ENTRIES
  {
    if steps == [] then Init() else Apply(h, Run(h, steps[..|steps| - 1]), steps[|steps| - 1])
  }

  lemma {:induction false} RunOk(h: Hash, steps: seq<Step>)
    ensures Ok(h, Run(h, steps))
  {
    if steps != [] {
      RunOk(h, steps[..|steps| - 1]);
      ApplyOk(h, Run(h, steps[..|steps| - 1]), steps[|steps| - 1]);
    }
  }

  /** After any history the hash finds a request ending at `sector` iff the scheduler holds a mergeable one. */
  lemma RunFind(h: Hash, steps: seq<Step>, sector: nat)
    ensures var s := Run(h, steps); Find(h, s, sector).Some? <==> exists x :: Mergeable(s, x) && End(s, x) == sector
  {
    RunOk(h, steps);
    FindExact(h, Run(h, steps), sector);
  }

  lemma {:induction false} SameBucketWalk(s: State, t: State, bucket: seq<Id>, sector: nat)
    requires t == s.(buckets := t.buckets)
    ensures Walk(t, bucket, sector) == Walk(s, bucket, sector)
  {
    if bucket != [] { SameBucketWalk(s, t, bucket[1..], sector); }
  }

  /** The walk reads one bucket, and nothing of the others. */
  lemma SameWalk(s: State, t: State)
    requires t == s.(buckets := t.buckets)
    ensures forall bucket, sector :: Walk(t, bucket, sector) == Walk(s, bucket, sector)
  {
    forall bucket, sector ensures Walk(t, bucket, sector) == Walk(s, bucket, sector) {
      SameBucketWalk(s, t, bucket, sector);
    }
  }

  // ---- the code on the elevator's buckets -------------------------------------------------------

  class Elevator {
    const hash: Hash
    var buckets: array<seq<Id>>
    var extent: map<Id, Extent>
    var held: set<Id>
    var nomerge: set<Id>

    ghost function View(): State
      reads this, buckets
    {
      State(buckets[..], extent, held, nomerge)
    }

    function EndOf(x: Id): nat
      reads this
    {
      if x in extent then extent[x].pos + extent[x].sectors else 0
    }

    /**
     * `elv_rqhash_add`; its BUG_ON is the second precondition. A lookup at the request's end now gives this request.
     */
    method RqhashAdd(x: Id)
      requires buckets.Length == ENTRIES
      requires forall b :: 0 <= b < ENTRIES ==> x !in buckets[b]
      modifies buckets
      ensures View() == AddHead(hash, old(View()), x)
      ensures Mergeable(View(), x) ==> Find(hash, View(), EndOf(x)) == Some(x)
      ensures forall sector :: Bucket(hash, sector) != Bucket(hash, EndOf(x)) ==>
                Find(hash, View(), sector) == Find(hash, old(View()), sector)
    {
      var b := Bucket(hash, EndOf(x));
      buckets[b] := [x] + buckets[b];
      SameWalk(old(View()), View());
    }

    /** `elv_rqhash_del`: out of the bucket it is in, if it is in one. */
    method RqhashDel(x: Id)
      requires buckets.Length == ENTRIES && Shaped(View())
      modifies buckets
      ensures View() == Del(old(View()), x) && Shaped(View())
      ensures forall b :: 0 <= b < ENTRIES ==> x !in buckets[b]
    {
      ghost var s := View();
      for b := 0 to ENTRIES
        invariant forall k :: 0 <= k < ENTRIES ==>
                  buckets[k] == if k < b then Without(s.buckets[k], x) else s.buckets[k]
      {
        buckets[b] := Without(buckets[b], x);
      }
      assert View() == Del(s, x);
      DelFacts(s, x);
      forall b | 0 <= b < ENTRIES ensures x !in buckets[b] {
        assert !In(View(), b, x) && View().buckets[b] == buckets[b];
      }
    }

    /** `elv_rqhash_reposition` */
    method RqhashReposition(x: Id)
      requires buckets.Length == ENTRIES && Shaped(View())
      modifies buckets
      ensures View() == AddHead(hash, Del(old(View()), x), x)
      ensures Mergeable(View(), x) ==> Find(hash, View(), EndOf(x)) == Some(x)
    {
      RqhashDel(x);
      ghost var s := View();
      RqhashAdd(x);
      assert View() == AddHead(hash, s, x);
    }

    /** `elv_rqhash_find` */
    method RqhashFind(sector: nat) returns (found: Option<Id>)
      requires buckets.Length == ENTRIES
      modifies buckets
      ensures View() == AfterFind(hash, old(View()), sector) && found == Find(hash, old(View()), sector)
    {
      ghost var s := View();
      var b := Bucket(hash, sector);
      var kept, rest := [], buckets[b];
      found := None;
      while rest != [] && found.None?
        invariant found.None? ==> Walk(s, s.buckets[b], sector).0 == Walk(s, rest, sector).0
        invariant found.None? ==> Walk(s, s.buckets[b], sector).1 == kept + Walk(s, rest, sector).1
        invariant found.Some? ==>
                  Walk(s, s.buckets[b], sector).0 == found && Walk(s, s.buckets[b], sector).1 == kept + rest
        invariant View() == s
        decreases |rest|, found.None?
      {
        var x := rest[0];
        if x in held && x !in nomerge {
          if EndOf(x) == sector {
            found := Some(x);
          } else {
            kept := kept + [x];
            rest := rest[1..];
          }
        } else {
          rest := rest[1..];
        }
      }
      buckets[b] := kept + rest;
    }
  }
}
