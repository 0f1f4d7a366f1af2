/**
 * Unregistering an algorithm: `crypto_remove_alg` walks everything built on top
 * of it through the `cra_users` lists, moving spawns between lists as it goes,
 * and removes the instances it finds. (No replacement algorithm.)
 */
module Spawns {
  import opened Common

  type Alg = int
  type Spawn = int

  /** Who is built on whom: the spawns on each algorithm's `cra_users`, and the instance each belongs to. */
  datatype Graph = Graph(users: map<Alg, seq<Spawn>>, inst: map<Spawn, Alg>) {
    function Users(a: Alg): seq<Spawn> {
      if a in users then users[a] else []
    }

    function Inst(s: Spawn): Alg {
      if s in inst then inst[s] else 0
    }

    /** A spawn's list node is on one list, once. */
    ghost predicate Linked() {
      && (forall a, i, j :: 0 <= i < j < |Users(a)| ==> Users(a)[i] != Users(a)[j])
      && (forall a, b, s :: s in Users(a) && s in Users(b) ==> a == b)
    }

    /** `p` is a chain of spawns leading from `a` to `b`. */
    ghost predicate Path(a: Alg, p: seq<Spawn>, b: Alg) {
      && p != [] && p[0] in Users(a) && Inst(p[|p| - 1]) == b
      && forall i :: 0 < i < |p| ==> p[i] in Users(Inst(p[i - 1]))
    }

    /** `b` is built on `a`, directly or through others. */
    ghost predicate Reaches(a: Alg, b: Alg) {
      exists p :: Path(a, p, b)
    }
  }

  lemma ReachesDirect(g: Graph, a: Alg, s: Spawn)
    requires s in g.Users(a)
    ensures g.Reaches(a, g.Inst(s))
  {
    assert g.Path(a, [s], g.Inst(s));
  }

  lemma ReachesOn(g: Graph, a: Alg, b: Alg, s: Spawn)
    requires g.Reaches(a, b) && s in g.Users(b)
    ensures g.Reaches(a, g.Inst(s))
  {
    var p :| g.Path(a, p, b);
    assert g.Path(a, p + [s], g.Inst(s));
  }

  /** `seen` spawns include those of `a` and, with each spawn, those of its instance. */
  ghost predicate Closed(g: Graph, a: Alg, seen: set<Spawn>) {
    && (forall s :: s in g.Users(a) ==> s in seen)
    && (forall s, t :: s in seen && t in g.Users(g.Inst(s)) ==> t in seen)
  }

  lemma {:induction false} ClosedHasAll(g: Graph, a: Alg, seen: set<Spawn>, p: seq<Spawn>, b: Alg)
    requires Closed(g, a, seen) && g.Path(a, p, b)
    ensures p[|p| - 1] in seen
    decreases |p|
  {
    if |p| > 1 {
      var n := |p| - 1;
      assert g.Path(a, p[..n], g.Inst(p[n - 1]));
      ClosedHasAll(g, a, seen, p[..n], g.Inst(p[n - 1]));
    }
  }

  /** Set of instances the spawns belong to. */
  function Insts(g: Graph, spawns: set<Spawn>): set<Alg> {
    set s | s in spawns :: g.Inst(s)
  }

  /** A closed set of spawns that are all reachable has exactly the reachable instances. */
  lemma ClosedIsReach(g: Graph, a: Alg, seen: set<Spawn>)
    requires Closed(g, a, seen) && forall s :: s in seen ==> g.Reaches(a, g.Inst(s))
    ensures forall b :: b in Insts(g, seen) <==> g.Reaches(a, b)
  {
    forall b | g.Reaches(a, b) ensures b in Insts(g, seen) {
      var p :| g.Path(a, p, b);
      ClosedHasAll(g, a, seen, p, b);
    }
  }

  // ---- the walk, on values ----------------------------------------------------

  function Elems(s: seq<Spawn>): set<Spawn> {
    set x | x in s
  }

  /** The walk's lists: what is left of each users list, `top`, the stack, and the spawns done with. */
  datatype Walk = Walk(users: map<Alg, seq<Spawn>>, top: seq<Spawn>, stack: seq<Spawn>, secondary: seq<Spawn>)

  /** What is left of the list of `a`; the walk's own algorithm has moved to `top`. */
  function Rest(g: Graph, alg: Alg, w: Walk, a: Alg): seq<Spawn> {
    if a == alg then w.top else Graph(w.users, g.inst).Users(a)
  }

  ghost predicate Seen(w: Walk, s: Spawn) {
    s in w.stack || s in w.secondary
  }

  /** The list the inner loop is on: the users of the top of the stack, or `top`. */
  function Current(g: Graph, w: Walk): seq<Spawn> {
    if w.stack == [] then w.top else Graph(w.users, g.inst).Users(g.Inst(w.stack[0]))
  }

  /** Only spawns of reachable instances have been seen, none of them `alg`. */
  ghost predicate SeenReachable(g: Graph, alg: Alg, w: Walk) {
    forall s {:trigger Seen(w, s)} :: Seen(w, s) ==> g.Reaches(alg, g.Inst(s)) && g.Inst(s) != alg
  }

  /** What is left of a list was on it, and has not been seen. */
  ghost predicate RestUnseen(g: Graph, alg: Alg, w: Walk) {
    forall a, s {:trigger s in Rest(g, alg, w, a)} :: s in Rest(g, alg, w, a) ==> s in g.Users(a) && !Seen(w, s)
  }

  /** What was on a list is still there, or has been seen. */
  ghost predicate NothingLost(g: Graph, alg: Alg, w: Walk) {
    forall a, s {:trigger s in g.Users(a)} :: s in g.Users(a) ==> s in Rest(g, alg, w, a) || Seen(w, s)
  }

  /** The walk is done with the users of a finished spawn's instance. */
  ghost predicate Exhausted(g: Graph, alg: Alg, w: Walk) {
    forall s {:trigger s in w.secondary} :: s in w.secondary ==> Rest(g, alg, w, g.Inst(s)) == []
  }

  ghost predicate Walking(g: Graph, alg: Alg, w: Walk) {
    && g.Linked() && Graph(w.users, g.inst).Users(alg) == []
    && SeenReachable(g, alg, w) && RestUnseen(g, alg, w) && NothingLost(g, alg, w) && Exhausted(g, alg, w)
    && (forall a :: NoDup(Rest(g, alg, w, a)))
  }

  /** The inner loop takes the first spawn of its list onto the stack. */
  function Push(g: Graph, w: Walk): Walk
    requires Current(g, w) != []
  {
    var s := Current(g, w)[0];
    if w.stack == [] then w.(top := w.top[1..], stack := [s])
    else
      var a := g.Inst(w.stack[0]);
      w.(users := w.users[a := Graph(w.users, g.inst).Users(a)[1..]], stack := [s] + w.stack)
  }

  /** `crypto_more_spawns` takes the finished spawn off the stack. */
  function Pop(w: Walk): Walk
    requires w.stack != []
  {
    w.(stack := w.stack[1..], secondary := [w.stack[0]] + w.secondary)
  }

  /** The algorithm whose list `Push` shortens. */
  function Holder(g: Graph, alg: Alg, w: Walk): Alg {
    if w.stack == [] then alg else g.Inst(w.stack[0])
  }

  lemma PushLists(g: Graph, alg: Alg, w: Walk)
    requires Walking(g, alg, w) && Current(g, w) != []
    ensures var t := Push(g, w); var a := Holder(g, alg, w);
            && Current(g, w) == Rest(g, alg, w, a)
            && Graph(t.users, g.inst).Users(alg) == []
            && forall b :: Rest(g, alg, t, b) == if b == a then Rest(g, alg, w, b)[1..] else Rest(g, alg, w, b)
  {
    if w.stack != [] { assert Seen(w, w.stack[0]); }
  }

  lemma PushReaches(g: Graph, alg: Alg, w: Walk)
    requires Walking(g, alg, w) && Current(g, w) != []
    ensures Current(g, w)[0] in g.Users(Holder(g, alg, w)) && g.Reaches(alg, g.Inst(Current(g, w)[0]))
  {
    var s := Current(g, w)[0];
    var a := Holder(g, alg, w);
    PushLists(g, alg, w);
    assert s in Rest(g, alg, w, a);
    if w.stack == [] {
      ReachesDirect(g, alg, s);
    } else {
      assert Seen(w, w.stack[0]);
      ReachesOn(g, alg, a, s);
    }
  }

  lemma PushSeen(g: Graph, w: Walk, x: Spawn)
    requires Current(g, w) != []
    ensures Seen(Push(g, w), x) <==> Seen(w, x) || x == Current(g, w)[0]
  {
  }

  /** `Push` as its effect on the lists and on what has been seen. */
  ghost predicate Pushed(g: Graph, alg: Alg, w: Walk, t: Walk, a: Alg, s: Spawn) {
    && s in g.Users(a) && s in Rest(g, alg, w, a) && t.secondary == w.secondary
    && (forall b :: Rest(g, alg, t, b) == if b == a then Rest(g, alg, w, b)[1..] else Rest(g, alg, w, b))
    && Rest(g, alg, w, a)[0] == s
    && (forall x {:trigger Seen(t, x)} {:trigger Seen(w, x)} :: Seen(t, x) <==> Seen(w, x) || x == s)
  }

  lemma PushIs(g: Graph, alg: Alg, w: Walk)
    requires Walking(g, alg, w) && Current(g, w) != []
    ensures Pushed(g, alg, w, Push(g, w), Holder(g, alg, w), Current(g, w)[0])
  {
    hide Graph.Reaches, Graph.Linked, Rest, Seen;
    PushLists(g, alg, w);
    PushReaches(g, alg, w);
    forall x ensures Seen(Push(g, w), x) <==> Seen(w, x) || x == Current(g, w)[0] {
      PushSeen(g, w, x);
    }
  }

  lemma PushedUnseen(g: Graph, alg: Alg, w: Walk, t: Walk, a: Alg, s: Spawn)
    requires Pushed(g, alg, w, t, a, s) && RestUnseen(g, alg, w) && g.Linked() && NoDup(Rest(g, alg, w, a))
    ensures RestUnseen(g, alg, t)
  {
    hide Graph.Linked, Rest, Graph.Users, Seen, NoDup;
    TailNoDup(Rest(g, alg, w, a));
    forall b, x | x in Rest(g, alg, t, b) ensures x in g.Users(b) && !Seen(t, x) {
      assert x in Rest(g, alg, w, b);
      if x == s { OneList(g, a, b, s); }
    }
  }

  lemma PushedLost(g: Graph, alg: Alg, w: Walk, t: Walk, a: Alg, s: Spawn)
    requires Pushed(g, alg, w, t, a, s) && NothingLost(g, alg, w)
    ensures NothingLost(g, alg, t)
  {
    hide Rest, Graph.Users, Seen;
    forall b, x | x in g.Users(b) ensures x in Rest(g, alg, t, b) || Seen(t, x) {
      var rest := Rest(g, alg, w, b);
      if x in rest && b == a { assert rest == [s] + rest[1..]; }
    }
  }

  lemma PushedRest(g: Graph, alg: Alg, w: Walk, t: Walk, a: Alg, s: Spawn)
    requires Pushed(g, alg, w, t, a, s) && (forall b :: NoDup(Rest(g, alg, w, b))) && Exhausted(g, alg, w)
    ensures (forall b :: NoDup(Rest(g, alg, t, b))) && Exhausted(g, alg, t)
  {
    hide Rest, Graph.Users, Seen, NoDup;
    forall b ensures NoDup(Rest(g, alg, t, b)) {
      TailNoDup(Rest(g, alg, w, b));
    }
  }

  lemma PushWalks(g: Graph, alg: Alg, w: Walk)
    requires Walking(g, alg, w) && Current(g, w) != [] && g.Inst(Current(g, w)[0]) != alg
    ensures Walking(g, alg, Push(g, w))
  {
    hide Graph.Reaches, Graph.Linked, Rest, RestUnseen, NothingLost, Exhausted, NoDup, Seen;
    var t, a, s := Push(g, w), Holder(g, alg, w), Current(g, w)[0];
    PushIs(g, alg, w);
    PushLists(g, alg, w);
    PushReaches(g, alg, w);
    PushedUnseen(g, alg, w, t, a, s);
    PushedLost(g, alg, w, t, a, s);
    PushedRest(g, alg, w, t, a, s);
    assert SeenReachable(g, alg, t);
  }

  lemma TailNoDup(s: seq<Spawn>)
    requires NoDup(s)
    ensures s != [] ==> NoDup(s[1..]) && s[0] !in s[1..]
  {
  }

  lemma OneList(g: Graph, a: Alg, b: Alg, s: Spawn)
    requires g.Linked() && s in g.Users(a) && s in g.Users(b)
    ensures a == b
  {
  }

  lemma PopSeen(w: Walk, x: Spawn)
    requires w.stack != []
    ensures Seen(Pop(w), x) <==> Seen(w, x)
  {
    assert w.stack == [w.stack[0]] + w.stack[1..];
  }

  lemma PopWalks(g: Graph, alg: Alg, w: Walk)
    requires Walking(g, alg, w) && w.stack != [] && Current(g, w) == []
    ensures Walking(g, alg, Pop(w))
  {
    var t, s := Pop(w), w.stack[0];
    assert Seen(w, s) && Rest(g, alg, w, g.Inst(s)) == [];
    hide Graph.Reaches, Graph.Linked, Graph.Users, Seen;
    forall x ensures Seen(t, x) <==> Seen(w, x) {
      PopSeen(w, x);
    }
    forall a ensures Rest(g, alg, t, a) == Rest(g, alg, w, a) {
    }
  }

  // ---- the walk ends and finds everything ---------------------------------------

  /** Spawns still on some users list. */
  ghost function Unseen(g: Graph, w: Walk): set<Spawn> {
    set a, s | a in g.users && s in g.users[a] && !Seen(w, s) :: s
  }

  lemma PushShrinks(g: Graph, alg: Alg, w: Walk)
    requires Walking(g, alg, w) && Current(g, w) != []
    ensures Unseen(g, Push(g, w)) < Unseen(g, w)
  {
    var s, a := Current(g, w)[0], Holder(g, alg, w);
    PushReaches(g, alg, w);
    PushLists(g, alg, w);
    assert s in Rest(g, alg, w, a);
    assert s in Unseen(g, w) by { assert a in g.users && s in g.users[a] && !Seen(w, s); }
    hide Seen;
    forall x | x in Unseen(g, Push(g, w)) ensures x in Unseen(g, w) && x != s {
      PushSeen(g, w, x);
    }
  }

  lemma PopKeepsUnseen(g: Graph, w: Walk)
    requires w.stack != []
    ensures Unseen(g, Pop(w)) == Unseen(g, w)
  {
    hide Seen;
    forall x ensures Seen(Pop(w), x) <==> Seen(w, x) {
      PopSeen(w, x);
    }
  }

  lemma WalkStarts(g: Graph, alg: Alg, top: seq<Spawn>)
    requires g.Linked() && NoDup(top) && forall s :: s in top <==> s in g.Users(alg)
    ensures Walking(g, alg, Walk(g.users[alg := []], top, [], []))
  {
    hide Graph.Reaches;
    var w := Walk(g.users[alg := []], top, [], []);
    forall a ensures a != alg ==> Rest(g, alg, w, a) == g.Users(a) {
    }
    forall s ensures !Seen(w, s) {
    }
  }

  /**
   * When the stack and `top` are empty, the spawns seen belong to exactly the reachable instances, none of them
   * `alg`.
   */
  lemma WalkEnds(g: Graph, alg: Alg, w: Walk)
    requires Walking(g, alg, w) && w.stack == [] && w.top == []
    ensures forall b :: b in Insts(g, Elems(w.secondary)) <==> g.Reaches(alg, b)
    ensures !g.Reaches(alg, alg)
    ensures forall b :: g.Reaches(alg, b) ==> Graph(w.users, g.inst).Users(b) == []
  {
    hide Graph.Reaches, Graph.Linked;
    var seen := Elems(w.secondary);
    assert forall s :: s in seen <==> Seen(w, s);
    assert Rest(g, alg, w, alg) == [];
    forall s, t | s in seen && t in g.Users(g.Inst(s)) ensures t in seen {
      assert s in w.secondary && Rest(g, alg, w, g.Inst(s)) == [];
    }
    assert Closed(g, alg, seen);
    forall s | s in seen ensures g.Reaches(alg, g.Inst(s)) {
      assert Seen(w, s);
    }
    ClosedIsReach(g, alg, seen);
    forall b | g.Reaches(alg, b) ensures b != alg && Graph(w.users, g.inst).Users(b) == [] {
      assert b in Insts(g, seen);
      var s :| s in seen && g.Inst(s) == b;
      assert Seen(w, s) && s in w.secondary;
    }
  }

  /** Lists of algorithms that are not built on `alg` stay as they were. */
  ghost predicate Untouched(g: Graph, alg: Alg, users: map<Alg, seq<Spawn>>) {
    forall b {:trigger Graph(users, g.inst).Users(b)} ::
      b != alg && !g.Reaches(alg, b) ==> Graph(users, g.inst).Users(b) == g.Users(b)
  }

  lemma PushUntouched(g: Graph, alg: Alg, w: Walk)
    requires Walking(g, alg, w) && Current(g, w) != [] && Untouched(g, alg, w.users)
    ensures Untouched(g, alg, Push(g, w).users)
  {
    hide Graph.Reaches, Graph.Linked;
    var t := Push(g, w);
    forall b | b != alg && !g.Reaches(alg, b) ensures Graph(t.users, g.inst).Users(b) == g.Users(b) {
      assert Graph(w.users, g.inst).Users(b) == g.Users(b);
      if w.stack != [] { assert Seen(w, w.stack[0]); }
    }
  }

  // ---- the code --------------------------------------------------------------------

  /** The algorithms the removal takes: reachable, still live and hashed, their template's reference obtained. */
  ghost predicate Taken(g: Graph, alg: Alg, dead: set<Alg>, hashed: set<Alg>, obtainable: set<Alg>, b: Alg) {
    g.Reaches(alg, b) && b !in dead && b in hashed && b in obtainable
  }

  class Registry {
    const inst: map<Spawn, Alg>
    const obtainable: set<Alg>
    var users: map<Alg, seq<Spawn>>
    var registered: set<Alg>
    var dead: set<Alg>
    var hashed: set<Alg>

    function G(): Graph
      reads this
    {
      Graph(users, inst)
    }

    /** `crypto_remove_spawn`; its BUG_ON is the assertion. */
    method RemoveSpawn(s: Spawn, list: seq<Alg>) returns (list': seq<Alg>)
      requires G().Users(G().Inst(s)) == []
      modifies `dead, `hashed
      ensures dead == old(dead) + {G().Inst(s)}
      ensures var i := G().Inst(s);
              if i !in old(dead) && i in old(hashed) && i in obtainable
              then list' == [i] + list && hashed == old(hashed) - {i}
              else list' == list && hashed == old(hashed)
    {
      list' := list;
      var i := G().Inst(s);
      if i in dead {
        return;
      }
      dead := dead + {i};
      if i !in hashed {
        return;
      }
      if i !in obtainable {
        return;
      }
      list' := [i] + list';
      hashed := hashed - {i};
      assert G().Users(i) == [];
    }

    /** The loop over `secondary_spawns`; every `spawn->alg` is NULL when nothing replaces the algorithm. */
    method RemoveSecondary(secondary: seq<Spawn>, list: seq<Alg>) returns (list': seq<Alg>)
      requires forall s :: s in secondary ==> G().Users(G().Inst(s)) == []
      modifies `dead, `hashed
      ensures dead == old(dead) + Insts(G(), Elems(secondary))
      ensures exists moved: seq<Alg> ::
                && list' == moved + list && NoDup(moved) && hashed == old(hashed) - (set b | b in moved)
                && forall b :: b in moved <==>
                  b in Insts(G(), Elems(secondary)) && b !in old(dead) && b in old(hashed) && b in obtainable
    {
      list' := list;
      ghost var moved: seq<Alg> := [];
      for k := 0 to |secondary|
        invariant dead == old(dead) + Insts(G(), Elems(secondary[..k]))
        invariant list' == moved + list && NoDup(moved) && hashed == old(hashed) - (set b | b in moved)
        invariant forall b :: b in moved <==>
                  b in Insts(G(), Elems(secondary[..k])) && b !in old(dead) && b in old(hashed) && b in obtainable
      {
        var i := G().Inst(secondary[k]);
        InstsNext(G(), secondary, k);
        assert secondary[k] in secondary;
        if i !in dead && i in hashed && i in obtainable { moved := [i] + moved; }
        list' := RemoveSpawn(secondary[k], list');
      }
      assert secondary[..|secondary|] == secondary;
    }

    /** The first loop: everything on `alg`'s list moves to the head of `top`, one by one. */
    method MoveToTop(alg: Alg) returns (top: seq<Spawn>)
      requires G().Linked()
      modifies `users
      ensures users == old(users)[alg := []]
      ensures NoDup(top) && forall s :: s in top <==> s in old(G()).Users(alg)
    {
      ghost var was := G().Users(alg);
      assert NoDup(was);
      top := [];
      var rest := G().Users(alg);
      while rest != []
        invariant |top| + |rest| == |was| && rest == was[|top|..]
        invariant forall i :: 0 <= i < |top| ==> top[i] == was[|top| - 1 - i]
      {
        top := [rest[0]] + top;
        rest := rest[1..];
      }
      users := users[alg := rest];
      forall s ensures s in top <==> s in was {
        if s in was { var i :| 0 <= i < |was| && was[i] == s; assert top[|was| - 1 - i] == s; }
      }
    }

    /** `crypto_remove_spawns` without a replacement. `bug` is its BUG_ON: the walk came back to `alg`. */
    method RemoveSpawns(alg: Alg, list: seq<Alg>) returns (bug: bool, list': seq<Alg>)
      requires G().Linked()
      modifies `users, `dead, `hashed
      ensures bug <==> old(G()).Reaches(alg, alg)
      ensures !bug ==> Swept(old(G()), alg, G())
      ensures !bug ==> forall b :: b in dead <==> b in old(dead) || old(G()).Reaches(alg, b)
      ensures !bug ==> exists moved: seq<Alg> ::
                && list' == moved + list && NoDup(moved) && hashed == old(hashed) - (set b | b in moved)
                && forall b :: b in moved <==> Taken(old(G()), alg, old(dead), old(hashed), obtainable, b)
    {
      hide Graph.Reaches, Graph.Linked, Walking, Untouched;
      ghost var g := G();
      var top := MoveToTop(alg);
      var stack: seq<Spawn>, secondary: seq<Spawn> := [], [];
      WalkStarts(g, alg, top);
      StartUntouched(g, alg);
      var more := true;
      while more
        invariant Walking(g, alg, Walk(users, top, stack, secondary)) && Untouched(g, alg, users)
        invariant !more ==> stack == [] && top == []
        invariant dead == old(dead) && hashed == old(hashed)
        decreases more, Unseen(g, Walk(users, top, stack, secondary)), |stack|
      {
        ghost var w0 := Walk(users, top, stack, secondary);
        while (if stack == [] then top else G().Users(G().Inst(stack[0]))) != []
          invariant Walking(g, alg, Walk(users, top, stack, secondary)) && Untouched(g, alg, users)
          invariant dead == old(dead) && hashed == old(hashed)
          invariant var w := Walk(users, top, stack, secondary); w == w0 || Unseen(g, w) < Unseen(g, w0)
          decreases Unseen(g, Walk(users, top, stack, secondary))
        {
          ghost var w := Walk(users, top, stack, secondary);
          var spawns := if stack == [] then top else G().Users(G().Inst(stack[0]));
          var spawn := spawns[0];
          PushReaches(g, alg, w);
          if G().Inst(spawn) == alg {
            return true, list;
          }
          PushWalks(g, alg, w);
          PushShrinks(g, alg, w);
          PushUntouched(g, alg, w);
          if stack == [] {
            top := top[1..];
          } else {
            users := users[G().Inst(stack[0]) := spawns[1..]];
          }
          stack := [spawn] + stack;
          assert Walk(users, top, stack, secondary) == Push(g, w);
        }
        ghost var w1 := Walk(users, top, stack, secondary);
        if stack == [] {
          more := false;
        } else {
          PopWalks(g, alg, w1);
          PopKeepsUnseen(g, w1);
          secondary := [stack[0]] + secondary;
          stack := stack[1..];
        }
      }
      WalkEnds(g, alg, Walk(users, top, stack, secondary));
      SweepDone(g, alg, Walk(users, top, stack, secondary));
      forall s | s in secondary ensures G().Users(G().Inst(s)) == [] {
        assert s in Elems(secondary);
        assert g.Inst(s) in Insts(g, Elems(secondary));
      }
      assert Insts(G(), Elems(secondary)) == Insts(g, Elems(secondary));
      list' := RemoveSecondary(secondary, list);
      bug := false;
    }

    /** `crypto_remove_alg` */
    method RemoveAlg(alg: Alg) returns (found: bool, bug: bool, list: seq<Alg>)
      requires G().Linked()
      modifies this
      ensures found <==> alg in old(registered)
      ensures !found ==> G() == old(G()) && dead == old(dead) && hashed == old(hashed)
      ensures !found ==> registered == old(registered) && list == []
      ensures bug <==> found && old(G()).Reaches(alg, alg)
      ensures found && !bug ==> Swept(old(G()), alg, G()) && registered == old(registered) - {alg}
      ensures found && !bug ==> forall b :: b in dead <==> b in old(dead) || b == alg || old(G()).Reaches(alg, b)
      ensures found && !bug ==> NoDup(list) && hashed == old(hashed) - (set b | b in list)
      ensures found && !bug ==> forall b :: b in list <==> Taken(old(G()), alg, old(dead), old(hashed), obtainable, b)
    {
      hide Graph.Reaches, Graph.Linked, Swept;
      if alg !in registered {
        return false, false, [];
      }
      dead := dead + {alg};
      registered := registered - {alg};
      bug, list := RemoveSpawns(alg, []);
      found := true;
    }
  }

  /** Everything built on `alg` has lost its users, and nothing else has. */
  ghost predicate Swept(g: Graph, alg: Alg, h: Graph) {
    forall b {:trigger h.Users(b)} :: h.Users(b) == if b == alg || g.Reaches(alg, b) then [] else g.Users(b)
  }

  lemma StartUntouched(g: Graph, alg: Alg)
    ensures Untouched(g, alg, g.users[alg := []])
  {
    hide Graph.Reaches;
  }

  lemma SweepDone(g: Graph, alg: Alg, w: Walk)
    requires Walking(g, alg, w) && Untouched(g, alg, w.users) && w.stack == [] && w.top == []
    ensures Swept(g, alg, Graph(w.users, g.inst))
  {
    hide Graph.Reaches, Graph.Linked;
    WalkEnds(g, alg, w);
  }

  lemma InstsNext(g: Graph, secondary: seq<Spawn>, k: nat)
    requires k < |secondary|
    ensures Insts(g, Elems(secondary[..k + 1])) == Insts(g, Elems(secondary[..k])) + {g.Inst(secondary[k])}
  {
    assert secondary[..k + 1] == secondary[..k] + [secondary[k]];
    assert Elems(secondary[..k + 1]) == Elems(secondary[..k]) + {secondary[k]};
  }
}
