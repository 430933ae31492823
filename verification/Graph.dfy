/** The graph of objects on a host and the references they own. */
module Graph {
  type Refs = map<nat, set<nat>>

  predicate Edge(g: Refs, a: nat, b: nat) {
    a in g && b in g[a]
  }

  /** Every object referenced is known. */
  ghost predicate Closed(g: Refs) {
    forall a, b | Edge(g, a, b) :: b in g
  }

  ghost predicate Walk(g: Refs, p: seq<nat>) {
    p != [] && forall i | 0 < i < |p| :: Edge(g, p[i - 1], p[i])
  }

  /** `a` is `b`, or references it directly or through others. */
  ghost predicate Reaches(g: Refs, a: nat, b: nat) {
    exists p :: Walk(g, p) && p[0] == a && p[|p| - 1] == b
  }

  ghost predicate Acyclic(g: Refs) {
    forall a, b | Edge(g, a, b) :: !Reaches(g, b, a)
  }

  // ─── reachability ───

  lemma ReachesSelf(g: Refs, a: nat)
    ensures Reaches(g, a, a)
  {
    assert Walk(g, [a]);
  }

  lemma ReachesFirst(g: Refs, a: nat, b: nat, c: nat)
    requires Edge(g, a, b) && Reaches(g, b, c)
    ensures Reaches(g, a, c)
  {
    var p :| Walk(g, p) && p[0] == b && p[|p| - 1] == c;
    assert Walk(g, [a] + p);
  }

  lemma {:induction false} ReachesOn(g: Refs, p: seq<nat>, c: nat)
    requires Walk(g, p) && Reaches(g, p[|p| - 1], c)
    ensures Reaches(g, p[0], c)
    decreases |p|
  {
    if |p| > 1 {
      assert Walk(g, p[1..]);
      ReachesOn(g, p[1..], c);
      assert Edge(g, p[1 - 1], p[1]);
      ReachesFirst(g, p[0], p[1], c);
    }
  }

  lemma ReachesTrans(g: Refs, a: nat, b: nat, c: nat)
    requires Reaches(g, a, b) && Reaches(g, b, c)
    ensures Reaches(g, a, c)
  {
    var p :| Walk(g, p) && p[0] == a && p[|p| - 1] == b;
    ReachesOn(g, p, c);
  }

  /** A set that holds what its members reference cannot be left. */
  lemma {:induction false} CannotLeave(g: Refs, closed: set<nat>, p: seq<nat>)
    requires Walk(g, p) && p[0] in closed
    requires forall a, b | a in closed && Edge(g, a, b) :: b in closed
    ensures p[|p| - 1] in closed
    decreases |p|
  {
    if |p| > 1 {
      assert Edge(g, p[1 - 1], p[1]);
      assert Walk(g, p[1..]);
      CannotLeave(g, closed, p[1..]);
    }
  }

  // ─── one more reference ───

  function WithEdge(g: Refs, u: nat, v: nat): Refs
    requires u in g
  {
    g[u := g[u] + {v}]
  }

  /** A walk that may use the new reference either does not need it, or leads to its holder and on from its target. */
  lemma {:induction false} SplitWalk(g: Refs, u: nat, v: nat, p: seq<nat>)
    requires u in g && Walk(WithEdge(g, u, v), p)
    ensures Reaches(g, p[0], p[|p| - 1]) || (Reaches(g, p[0], u) && Reaches(g, v, p[|p| - 1]))
    decreases |p|
  {
    if |p| == 1 {
      ReachesSelf(g, p[0]);
    } else {
      assert Edge(WithEdge(g, u, v), p[1 - 1], p[1]);
      assert Walk(WithEdge(g, u, v), p[1..]);
      SplitWalk(g, u, v, p[1..]);
      if Edge(g, p[0], p[1]) {
        if Reaches(g, p[1], p[|p| - 1]) {
          ReachesFirst(g, p[0], p[1], p[|p| - 1]);
        } else {
          ReachesFirst(g, p[0], p[1], u);
        }
      } else {
        ReachesSelf(g, u);
      }
    }
  }

  lemma MoreReaches(g: Refs, u: nat, v: nat, a: nat, b: nat)
    requires u in g && Reaches(g, a, b)
    ensures Reaches(WithEdge(g, u, v), a, b)
  {
    var p :| Walk(g, p) && p[0] == a && p[|p| - 1] == b;
    assert forall i | 0 < i < |p| :: Edge(g, p[i - 1], p[i]);
    assert Walk(WithEdge(g, u, v), p);
  }

  /** Exactly when a reference makes no cycle: if and only if its target does not already reach its holder. */
  lemma EdgeKeepsAcyclicIff(g: Refs, u: nat, v: nat)
    requires Acyclic(g) && u in g
    ensures Acyclic(WithEdge(g, u, v)) <==> !Reaches(g, v, u)
  {
    var g' := WithEdge(g, u, v);
    if Reaches(g, v, u) {
      MoreReaches(g, u, v, v, u);
      assert Edge(g', u, v);
    } else {
      forall a, b | Edge(g', a, b)
        ensures !Reaches(g', b, a)
      {
        if Reaches(g', b, a) {
          var p :| Walk(g', p) && p[0] == b && p[|p| - 1] == a;
          SplitWalk(g, u, v, p);
          if Edge(g, a, b) {
            ReachesFirst(g, a, b, u);
            ReachesTrans(g, v, a, u);
          }
          assert false;
        }
      }
    }
  }

  lemma FewerReach(g: Refs, g': Refs, a: nat, b: nat)
    requires Reaches(g', a, b) && forall x, y | Edge(g', x, y) :: Edge(g, x, y)
    ensures Reaches(g, a, b)
  {
    var p :| Walk(g', p) && p[0] == a && p[|p| - 1] == b;
    assert forall i | 0 < i < |p| :: Edge(g', p[i - 1], p[i]);
    assert Walk(g, p);
  }

  /** Fewer references make no cycle. */
  lemma FewerKeepAcyclic(g: Refs, g': Refs)
    requires Acyclic(g) && forall a, b | Edge(g', a, b) :: Edge(g, a, b)
    ensures Acyclic(g')
  {
    forall a, b | Edge(g', a, b)
      ensures !Reaches(g', b, a)
    {
      if Reaches(g', b, a) {
        FewerReach(g, g', b, a);
      }
    }
  }

  class Objects {
    /** The objects of a host, each with the objects it references. */
    var refs: Refs

    ghost predicate Valid()
      reads this
    {
      Closed(refs) && Acyclic(refs)
    }

    constructor ()
      ensures Valid() && refs == map[]
    {
      refs := map[];
    }

    /** `found` if and only if the references make a path between the two. */
    method FindPath(from: nat, to: nat) returns (found: bool)
      requires Closed(refs) && from in refs
      ensures found <==> Reaches(refs, from, to)
    {
      var seen: set<nat>, stack := {}, [from];
      ReachesSelf(refs, from);
      while stack != []
        invariant seen <= refs.Keys && to !in seen && from in seen + Members(stack)
        invariant forall x | x in stack :: x in refs && Reaches(refs, from, x)
        invariant forall x | x in seen :: Reaches(refs, from, x)
        invariant forall a, b | a in seen && Edge(refs, a, b) :: b in seen || b in stack
        decreases refs.Keys - seen, |stack|
      {
        var x := stack[|stack| - 1];
        var rest := stack[..|stack| - 1];
        assert stack == rest + [x];
        stack := rest;
        if x == to {
          return true;
        }
        if x !in seen {
          seen := seen + {x};
          var next := Listed(refs[x]);
          forall b | b in next
            ensures b in refs && Reaches(refs, from, b)
          {
            assert Edge(refs, x, b);
            ReachesSelf(refs, b);
            ReachesFirst(refs, x, b, b);
            ReachesTrans(refs, from, x, b);
          }
          stack := stack + next;
        }
      }
      forall p | Walk(refs, p) && p[0] == from
        ensures p[|p| - 1] != to
      {
        CannotLeave(refs, seen, p);
      }
      found := false;
    }

    /** An object references another, which is made if it is not there: refused if that would make a cycle. */
    method Acquire(from: nat, target: nat) returns (ok: bool)
      requires Valid() && from in refs
      modifies this
      ensures Valid() && (ok <==> !Reaches(old(refs), target, from))
      ensures refs == if ok then
                        WithEdge(if target in old(refs) then old(refs) else old(refs)[target := {}], from, target)
                      else old(refs)
    {
      var known := target in refs;
      var cycle := from == target;
      if known && !cycle {
        cycle := FindPath(target, from);
      }
      ReachesSelf(refs, from);
      if known && cycle {
        return false;
      }
      if !known {
        NothingFromLeaf(refs, target, from);
        Introduce(refs, target);
        refs := refs[target := {}];
        NothingFromLeaf(refs, target, from);
      }
      EdgeKeepsAcyclicIff(refs, from, target);
      assert forall a, b | Edge(WithEdge(refs, from, target), a, b) :: Edge(refs, a, b) || b == target;
      refs := WithEdge(refs, from, target);
      ok := true;
    }

    /** An object that a host or a client holds is made if it is not there. */
    method Hold(target: nat)
      requires Valid()
      modifies this
      ensures Valid() && refs == if target in old(refs) then old(refs) else old(refs)[target := {}]
    {
      if target !in refs {
        Introduce(refs, target);
        refs := refs[target := {}];
      }
    }

    /** References end: of an object that is disposed, or of an implementation that retires. */
    method Release(from: nat, targets: set<nat>)
      requires Valid() && from in refs
      modifies this
      ensures Valid() && refs == old(refs)[from := old(refs)[from] - targets]
    {
      ghost var g := refs;
      refs := refs[from := refs[from] - targets];
      FewerKeepAcyclic(g, refs);
    }
  }

  function Members(s: seq<nat>): set<nat> {
    set x | x in s
  }

  method Listed(s: set<nat>) returns (list: seq<nat>)
    ensures forall x :: x in list <==> x in s
  {
    list := [];
    var left := s;
    while left != {}
      invariant left <= s && forall x :: x in list <==> x in s && x !in left
      decreases |left|
    {
      var x :| x in left;
      list, left := list + [x], left - {x};
    }
  }

  /** What references nothing reaches nothing else. */
  lemma NothingFromLeaf(g: Refs, x: nat, b: nat)
    requires (forall y :: !Edge(g, x, y)) && x != b
    ensures !Reaches(g, x, b)
  {
    forall p | Walk(g, p) && p[0] == x
      ensures p[|p| - 1] != b
    {
      CannotLeave(g, {x}, p);
    }
  }

  lemma Introduce(g: Refs, x: nat)
    requires Closed(g) && Acyclic(g) && x !in g
    ensures Closed(g[x := {}]) && Acyclic(g[x := {}])
  {
    var g' := g[x := {}];
    assert forall a, b | Edge(g', a, b) :: Edge(g, a, b);
    FewerKeepAcyclic(g, g');
  }

  // ─── disposal in waves ───

  function HeldBy(g: Refs, holders: set<nat>): set<nat> {
    set a, b | a in holders && a in g && b in g[a] :: b
  }

  /** The members of `remaining` that reach `x` by at least one reference. */
  ghost function Above(g: Refs, remaining: set<nat>, x: nat): set<nat> {
    set y | y in remaining && exists z :: Edge(g, y, z) && Reaches(g, z, x)
  }

  /** In an acyclic graph some member of a set is referenced by none of them. */
  lemma {:induction false} SomeUnheld(g: Refs, remaining: set<nat>, x: nat) returns (top: nat)
    requires Acyclic(g) && x in remaining
    ensures top in remaining && top !in HeldBy(g, remaining)
    decreases Above(g, remaining, x)
  {
    top := x;
    if x in HeldBy(g, remaining) {
      var y :| y in remaining && y in g && x in g[y];
      assert Edge(g, y, x);
      ReachesSelf(g, x);
      assert y in Above(g, remaining, x) && y !in Above(g, remaining, y) by {
        forall z | Edge(g, y, z)
          ensures !Reaches(g, z, y)
        {
        }
      }
      forall w | w in Above(g, remaining, y)
        ensures w in Above(g, remaining, x)
      {
        var z :| Edge(g, w, z) && Reaches(g, z, y);
        ReachesFirst(g, y, x, x);
        ReachesTrans(g, z, y, x);
      }
      top := SomeUnheld(g, remaining, y);
    }
  }

  /** Holders are disposed in earlier waves than what they reference. */
  ghost predicate HoldersFirst(g: Refs, waves: seq<set<nat>>) {
    forall i, j, a, b | 0 <= i < |waves| && 0 <= j < |waves| && a in waves[i] && b in waves[j] && Edge(g, a, b) :: i < j
  }

  /** Every object of a set is in exactly one wave. */
  ghost predicate EachOnce(waves: seq<set<nat>>, objects: set<nat>) {
    && (forall i | 0 <= i < |waves| :: waves[i] <= objects)
    && (forall x | x in objects :: exists i :: 0 <= i < |waves| && x in waves[i])
    && (forall i, j, x | 0 <= i < |waves| && 0 <= j < |waves| && x in waves[i] && x in waves[j] :: i == j)
  }

  function Within(g: Refs, objects: set<nat>): Refs {
    map a | a in g && a in objects :: set b | b in g[a] && b in objects
  }

  /** The waves go down along every walk within the objects disposed. */
  lemma {:induction false} WavesGoDown(g: Refs, objects: set<nat>, waves: seq<set<nat>>, p: seq<nat>, i: nat, j: nat)
    requires HoldersFirst(g, waves) && EachOnce(waves, objects) && Walk(Within(g, objects), p)
    requires i < |waves| && j < |waves| && p[0] in waves[i] && p[|p| - 1] in waves[j]
    ensures i <= j
    decreases |p|
  {
    if |p| > 1 {
      assert Edge(Within(g, objects), p[1 - 1], p[1]);
      var k :| 0 <= k < |waves| && p[1] in waves[k];
      assert Edge(g, p[0], p[1]) && i < k;
      assert Walk(Within(g, objects), p[1..]);
      WavesGoDown(g, objects, waves, p[1..], k, j);
    }
  }

  /** Holders can only go first where there is no cycle. */
  lemma HoldersFirstNeedsAcyclic(g: Refs, objects: set<nat>, waves: seq<set<nat>>)
    requires HoldersFirst(g, waves) && EachOnce(waves, objects)
    ensures Acyclic(Within(g, objects))
  {
    var h := Within(g, objects);
    forall a, b | Edge(h, a, b)
      ensures !Reaches(h, b, a)
    {
      if Reaches(h, b, a) {
        var p :| Walk(h, p) && p[0] == b && p[|p| - 1] == a;
        var i :| 0 <= i < |waves| && a in waves[i];
        var j :| 0 <= j < |waves| && b in waves[j];
        WavesGoDown(g, objects, waves, p, j, i);
        assert Edge(g, a, b);
      }
    }
  }

  /** Nothing left references what went already. */
  ghost predicate GoneUnheld(g: Refs, remaining: set<nat>, gone: set<nat>) {
    forall a, b | a in remaining && b in gone :: !Edge(g, a, b)
  }

  /** Where there is no cycle, a wave is never empty. */
  lemma NeverStuck(g: Refs, objects: set<nat>, remaining: set<nat>)
    requires Acyclic(Within(g, objects)) && remaining <= objects && remaining != {}
    ensures remaining - HeldBy(g, remaining) != {}
  {
    var x :| x in remaining;
    var h := Within(g, objects);
    var top := SomeUnheld(h, remaining, x);
    forall a | a in remaining && a in g
      ensures top !in g[a]
    {
      assert top in g[a] ==> Edge(h, a, top);
    }
    assert top in remaining - HeldBy(g, remaining);
  }

  lemma OnceMore(waves: seq<set<nat>>, gone: set<nat>, wave: set<nat>)
    requires EachOnce(waves, gone) && wave !! gone
    ensures EachOnce(waves + [wave], gone + wave)
  {
    var more := waves + [wave];
    forall x | x in gone + wave
      ensures exists i :: 0 <= i < |more| && x in more[i]
    {
      if x in wave {
        assert x in more[|waves|];
      } else {
        var i :| 0 <= i < |waves| && x in waves[i];
        assert x in more[i];
      }
    }
  }

  lemma HoldersStillFirst(g: Refs, waves: seq<set<nat>>, gone: set<nat>, remaining: set<nat>, wave: set<nat>)
    requires EachOnce(waves, gone) && HoldersFirst(g, waves) && GoneUnheld(g, remaining, gone)
    requires wave <= remaining && GoneUnheld(g, remaining, wave)
    ensures HoldersFirst(g, waves + [wave]) && GoneUnheld(g, remaining - wave, gone + wave)
  {
  }

  function Failing(objects: set<nat>, fails: nat -> bool): set<nat> {
    set x | x in objects && fails(x)
  }

  lemma FailingJoin(a: set<nat>, b: set<nat>, fails: nat -> bool)
    ensures Failing(a, fails) + Failing(b, fails) == Failing(a + b, fails)
  {
  }

  lemma WaveMoves(objects: set<nat>, remaining: set<nat>, gone: set<nat>, wave: set<nat>)
    requires remaining !! gone && remaining + gone == objects && wave <= remaining && wave != {}
    ensures remaining - wave !! gone + wave && (remaining - wave) + (gone + wave) == objects
    ensures wave !! gone && |remaining - wave| < |remaining|
  {
    assert remaining == (remaining - wave) + wave;
  }

  /** The objects left that no object left references; all that are left, should there be none. */
  method Wave(g: Refs, remaining: set<nat>, ghost objects: set<nat>) returns (wave: set<nat>)
    requires remaining != {} && remaining <= objects
    ensures wave <= remaining && wave != {}
    ensures wave == remaining - HeldBy(g, remaining) || (wave == remaining && remaining - HeldBy(g, remaining) == {})
    ensures Acyclic(Within(g, objects)) ==> GoneUnheld(g, remaining, wave)
  {
    wave := remaining - HeldBy(g, remaining);
    if Acyclic(Within(g, objects)) {
      NeverStuck(g, objects, remaining);
      forall a, b | a in remaining && b in wave
        ensures !Edge(g, a, b)
      {
        assert Edge(g, a, b) ==> b in HeldBy(g, remaining);
      }
    }
    if wave == {} {
      wave := remaining;
    }
  }

  /**
   * Wave after wave, those of `objects` that none of the others references any more. Every object goes once, and
   * holders go before what they reference if and only if their references make no cycle.
   */
  method DisposeHoldersFirst(g: Refs, objects: set<nat>, fails: nat -> bool)
    returns (waves: seq<set<nat>>, errors: set<nat>)
    ensures EachOnce(waves, objects) && {} !in waves
    ensures HoldersFirst(g, waves) <==> Acyclic(Within(g, objects))
    ensures errors == Failing(objects, fails)
  {
    var remaining := objects;
    ghost var gone: set<nat> := {};
    ghost var acyclic := Acyclic(Within(g, objects));
    waves, errors := [], {};
    while remaining != {}
      invariant remaining !! gone && remaining + gone == objects && EachOnce(waves, gone) && {} !in waves
      invariant acyclic ==> HoldersFirst(g, waves) && GoneUnheld(g, remaining, gone)
      invariant errors == Failing(gone, fails)
      decreases |remaining|
    {
      var wave := Wave(g, remaining, objects);
      WaveMoves(objects, remaining, gone, wave);
      OnceMore(waves, gone, wave);
      if acyclic {
        HoldersStillFirst(g, waves, gone, remaining, wave);
      }
      FailingJoin(gone, wave, fails);
      remaining, gone := remaining - wave, gone + wave;
      waves := waves + [wave];
      errors := errors + Failing(wave, fails);
    }
    assert gone == objects;
    if HoldersFirst(g, waves) {
      HoldersFirstNeedsAcyclic(g, objects, waves);
    }
  }
}
