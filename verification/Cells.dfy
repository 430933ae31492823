/**
 * The reactive graph of cells and derivations. A source is known by its creation number; a derivation is created over
 * sources that exist, so every dependency points to a smaller number.
 */
module Cells {
  import opened Lists

  /** What a write decides against: the dependencies, the values before it, and the values it may replace. */
  datatype Wave<!V> = Wave(
    sources: map<nat, seq<nat>>,
    values: map<nat, V>,
    affected: set<nat>,
    changed: nat,
    value: V,
    fn: (nat, seq<V>) -> Option<V>,       // a derivation of its sources' values; None: it throws
    valid: (nat, V) -> bool)              // a source's schemas

  predicate Layered(sources: map<nat, seq<nat>>) {
    forall d, s | d in sources && s in sources[d] :: s < d
  }

  predicate Sane<V>(w: Wave<V>) {
    && Layered(w.sources) && w.affected <= w.sources.Keys
    && forall d, s | d in w.sources && s in w.sources[d] :: s in w.values
  }

  /**
   * The value a source has after the write, by definition: the written one, what a derivation makes of its sources'
   * values after the write, or what it was. None if a derivation throws or makes a value that fails its schema.
   */
  function Eval<V>(w: Wave<V>, x: nat): Option<V>
    requires Sane(w) && x in w.values
    decreases x, if x in w.sources then |w.sources[x]| + 1 else 0
  {
    if x == w.changed then Some(w.value)
    else if x !in w.affected then Some(w.values[x])
    else
      var args := EvalAll(w, x, w.sources[x]);
      if args.None? then None
      else
        var next := w.fn(x, args.value);
        if next.Some? && w.valid(x, next.value) then next else None
  }

  function EvalAll<V>(w: Wave<V>, bound: nat, xs: seq<nat>): (r: Option<seq<V>>)
    requires Sane(w) && forall x | x in xs :: x < bound && x in w.values
    ensures r.Some? ==> |r.value| == |xs|
    decreases bound, |xs|
  {
    if xs == [] then Some([])
    else
      assert xs[|xs| - 1] in xs;
      var front, last := EvalAll(w, bound, xs[..|xs| - 1]), Eval(w, xs[|xs| - 1]);
      if front.None? || last.None? then None else Some(front.value + [last.value])
  }

  /** The values of sources as they are read. */
  function Read<V>(values: map<nat, V>, xs: seq<nat>): (r: seq<V>)
    requires forall x | x in xs :: x in values
    ensures |r| == |xs| && forall i | 0 <= i < |xs| :: r[i] == values[xs[i]]
  {
    if xs == [] then []
    else
      assert xs[|xs| - 1] in xs;
      Read(values, xs[..|xs| - 1]) + [values[xs[|xs| - 1]]]
  }

  /** If every source has its value after the write already, reading them is what the definition says. */
  lemma {:induction false} ReadIsEvalAll<V>(w: Wave<V>, bound: nat, xs: seq<nat>, values: map<nat, V>)
    requires Sane(w) && forall x | x in xs :: x < bound && x in w.values && x in values && Eval(w, x) == Some(values[x])
    ensures EvalAll(w, bound, xs) == Some(Read(values, xs))
  {
    if xs != [] {
      var n := |xs| - 1;
      assert xs[n] in xs;
      ReadIsEvalAll(w, bound, xs[..n], values);
    }
  }

  lemma {:induction false} EvalAllNeeds<V>(w: Wave<V>, bound: nat, xs: seq<nat>, i: nat)
    requires Sane(w) && (forall x | x in xs :: x < bound && x in w.values) && i < |xs|
    requires EvalAll(w, bound, xs).Some?
    ensures Eval(w, xs[i]) == Some(EvalAll(w, bound, xs).value[i])
  {
    var n := |xs| - 1;
    assert xs[n] in xs;
    if i < n {
      EvalAllNeeds(w, bound, xs[..n], i);
    }
  }

  /** Every derivation followed equals its function of its sources' values. */
  ghost predicate Consistent<V>(sources: map<nat, seq<nat>>, attached: set<nat>, values: map<nat, V>,
                                fn: (nat, seq<V>) -> Option<V>)
  {
    forall d | d in attached ::
      d in sources && d in values && (forall s | s in sources[d] :: s in values)
      && fn(d, Read(values, sources[d])) == Some(values[d])
  }

  /** `d` follows `s` directly. */
  predicate Edge(sources: map<nat, seq<nat>>, attached: set<nat>, s: nat, d: nat) {
    d in attached && d in sources && s in sources[d]
  }

  ghost predicate Path(sources: map<nat, seq<nat>>, attached: set<nat>, p: seq<nat>) {
    |p| >= 2 && forall i | 0 <= i < |p| - 1 :: Edge(sources, attached, p[i], p[i + 1])
  }

  /** `d` follows `s`, directly or through others. */
  ghost predicate Follows(sources: map<nat, seq<nat>>, attached: set<nat>, s: nat, d: nat) {
    exists p :: Path(sources, attached, p) && p[0] == s && p[|p| - 1] == d
  }

  lemma FollowsEdge(sources: map<nat, seq<nat>>, attached: set<nat>, s: nat, d: nat)
    requires Edge(sources, attached, s, d)
    ensures Follows(sources, attached, s, d)
  {
    assert Path(sources, attached, [s, d]);
  }

  lemma FollowsOn(sources: map<nat, seq<nat>>, attached: set<nat>, s: nat, d: nat, e: nat)
    requires Edge(sources, attached, s, d) && Follows(sources, attached, d, e)
    ensures Follows(sources, attached, s, e)
  {
    var p :| Path(sources, attached, p) && p[0] == d && p[|p| - 1] == e;
    var q := [s] + p;
    forall i | 0 <= i < |q| - 1
      ensures Edge(sources, attached, q[i], q[i + 1])
    {
      if i > 0 {
        assert Edge(sources, attached, p[i - 1], p[i]);
      }
    }
    assert Path(sources, attached, q);
  }

  /** A set that holds the direct followers of `s` and of its own members holds everything that follows `s`. */
  lemma {:induction false} ClosedHoldsPath(sources: map<nat, seq<nat>>, attached: set<nat>, closed: set<nat>, s: nat,
                                           p: seq<nat>)
    requires Path(sources, attached, p) && p[0] == s
    requires forall x, d | (x == s || x in closed) && Edge(sources, attached, x, d) :: d in closed
    ensures p[|p| - 1] in closed
    decreases |p|
  {
    assert Edge(sources, attached, p[0], p[1]);
    if |p| > 2 {
      var q := p[1..];
      forall i | 0 <= i < |q| - 1
        ensures Edge(sources, attached, q[i], q[i + 1])
      {
        assert Edge(sources, attached, p[i + 1], p[i + 2]);
      }
      ClosedHoldsPath(sources, attached, closed, p[1], q);
    }
  }

  lemma ClosedHoldsFollowers(sources: map<nat, seq<nat>>, attached: set<nat>, closed: set<nat>, s: nat)
    requires forall x, d | (x == s || x in closed) && Edge(sources, attached, x, d) :: d in closed
    ensures forall d | Follows(sources, attached, s, d) :: d in closed
  {
    forall d | Follows(sources, attached, s, d)
      ensures d in closed
    {
      var p :| Path(sources, attached, p) && p[0] == s && p[|p| - 1] == d;
      ClosedHoldsPath(sources, attached, closed, s, p);
    }
  }

  lemma {:induction false} FollowersAreLater(sources: map<nat, seq<nat>>, attached: set<nat>, p: seq<nat>)
    requires Layered(sources) && Path(sources, attached, p)
    ensures p[0] < p[|p| - 1]
    decreases |p|
  {
    assert Edge(sources, attached, p[0], p[1]);
    if |p| > 2 {
      var q := p[1..];
      forall i | 0 <= i < |q| - 1
        ensures Edge(sources, attached, q[i], q[i + 1])
      {
        assert Edge(sources, attached, p[i + 1], p[i + 2]);
      }
      FollowersAreLater(sources, attached, q);
    }
  }

  /** The sources of one process: cells and derivations, by creation number. */
  class Sources<V(==)> {
    const fn: (nat, seq<V>) -> Option<V>
    /** What a derivation holds before it is attached. */
    const unset: V

    /** The schemas of a source accept a value; those of a cell change when a reload resets it. */
    var valid: (nat, V) -> bool
    var next: nat
    var sources: map<nat, seq<nat>>
    var values: map<nat, V>
    var dependents: map<nat, set<nat>>
    /** Derivations that follow their sources. */
    var attached: set<nat>
    /** Notifications queued for observers, in order. */
    var queue: seq<(nat, V)>
    /** How often each derivation was computed so far. */
    ghost var computations: multiset<nat>

    constructor (fn: (nat, seq<V>) -> Option<V>, valid: (nat, V) -> bool, unset: V)
      ensures Valid() && values == map[] && queue == []
      ensures this.fn == fn && this.valid == valid && this.unset == unset
    {
      this.fn, this.valid, this.unset := fn, valid, unset;
      next, sources, values, dependents, attached, queue, computations := 0, map[], map[], map[], {}, [], multiset{};
    }

    /** Dependencies point to sources created before, and `dependents` turns them around. */
    ghost predicate Wired()
      reads this
    {
      && Layered(sources) && sources.Keys <= values.Keys && dependents.Keys == values.Keys
      && (forall x | x in values :: x < next)
      && (forall d, s | d in sources && s in sources[d] :: s in values)
      && (forall s, d | s in dependents :: d in dependents[s] <==> Edge(sources, attached, s, d))
    }

    ghost predicate Valid()
      reads this
    {
      Wired() && Consistent(sources, attached, values, fn)
    }

    method CreateCell(value: V) returns (cell: nat)
      requires Valid()
      modifies this
      ensures Valid() && cell == old(next) && cell !in sources && cell !in old(values)
      ensures values == old(values)[cell := value] && attached == old(attached) && queue == old(queue)
      ensures valid == old(valid)
    {
      cell := Create(value);
    }

    /** A source's creation number; nothing follows it yet. */
    method Create(value: V) returns (x: nat)
      requires Valid()
      modifies `next, `values, `dependents
      ensures Valid() && x == old(next) < next && x !in sources && x !in old(values)
      ensures values == old(values)[x := value]
    {
      x := next;
      next := next + 1;
      values, dependents := values[x := value], dependents[x := {}];
      UnreadValue(old(values), x);
    }

    /** A value no followed derivation reads or holds does not matter. */
    lemma UnreadValue(was: map<nat, V>, x: nat)
      requires Consistent(sources, attached, was, fn) && x in values && values == was[x := values[x]]
      requires x !in attached && forall d :: !Edge(sources, attached, x, d)
      ensures Consistent(sources, attached, values, fn)
    {
      forall d | d in attached
        ensures fn(d, Read(values, sources[d])) == Some(values[d])
      {
        assert !Edge(sources, attached, x, d);
        ReadsAgree(was, values, sources[d]);
      }
    }

    method CreateDerived(over: seq<nat>) returns (d: nat)
      requires Valid() && forall s | s in over :: s in values
      modifies this
      ensures Valid() && d == old(next) && sources == old(sources)[d := over] && d !in attached
      ensures values == old(values)[d := unset] && attached == old(attached) && queue == old(queue)
      ensures valid == old(valid)
    {
      d := Create(unset);
      sources := sources[d := over];
    }

    lemma Unfollowed(d: nat)
      requires Valid() && d in dependents && dependents[d] == {}
      ensures forall e :: !Edge(sources, attached, d, e)
    {
    }

    /** Starts following the sources of a derivation, which stays so if it is up to date. */
    method Follow(d: nat)
      requires Valid() && d in sources
      modifies `attached, `dependents
      ensures Wired() && attached == old(attached) + {d}
      ensures Valid() <==> fn(d, Read(values, sources[d])) == Some(values[d])
    {
      attached := attached + {d};
      dependents := map s | s in dependents :: if s in sources[d] then dependents[s] + {d} else dependents[s];
    }

    /** Calls a derivation's function on its sources' values; every computation goes through here. */
    method Compute(d: nat, read: map<nat, V>) returns (next: Option<V>)
      requires d in sources && forall s | s in sources[d] :: s in read
      modifies `computations
      ensures next == fn(d, Read(read, sources[d])) && computations == old(computations) + multiset{d}
    {
      next := fn(d, Read(read, sources[d]));
      computations := computations + multiset{d};
    }

    /**
     * Brings a derivation to life: it has its value now, which a reload may have computed before, and is kept
     * consistent from here on, if it is what computing it gives; it is not brought to life if computing it throws.
     */
    method Attach(d: nat, precomputed: Option<V>) returns (ok: bool)
      requires Valid() && d in sources && d !in attached && dependents[d] == {}
      modifies `values, `attached, `dependents, `computations
      ensures Wired() && (Valid() <==> !ok || fn(d, Read(old(values), sources[d])) == Some(values[d]))
      ensures precomputed.None? ==> Valid()
      ensures computations == if precomputed.Some? then old(computations) else old(computations) + multiset{d}
      ensures ok <==> precomputed.Some? || fn(d, Read(old(values), sources[d])).Some?
      ensures ok ==> attached == old(attached) + {d}
      ensures ok ==> values == old(values)[d := if precomputed.Some? then precomputed.value
                                                else fn(d, Read(old(values), sources[d])).value]
      ensures !ok ==> attached == old(attached) && values == old(values)
    {
      var first := precomputed;
      if first.None? {
        first := Compute(d, values);
      }
      ok := first.Some?;
      if ok {
        FollowWith(d, first.value);
      }
    }

    method FollowWith(d: nat, value: V)
      requires Valid() && d in sources && d !in attached && dependents[d] == {}
      modifies `values, `attached, `dependents
      ensures Wired() && attached == old(attached) + {d} && values == old(values)[d := value]
      ensures Valid() <==> fn(d, Read(old(values), sources[d])) == Some(value)
    {
      SetFirst(d, value);
      Follow(d);
    }

    /** The first value of a derivation; its sources do not notice. */
    method SetFirst(d: nat, value: V)
      requires Valid() && d in sources && d !in attached && dependents[d] == {}
      modifies `values
      ensures Valid() && values == old(values)[d := value] && Read(values, sources[d]) == Read(old(values), sources[d])
    {
      Unfollowed(d);
      values := values[d := value];
      UnreadValue(old(values), d);
      ReadsAgree(old(values), values, sources[d]);
    }

    /** Stops following the sources. */
    method Detach(d: nat)
      requires Valid() && d in attached
      modifies `attached, `dependents
      ensures Valid() && attached == old(attached) - {d}
    {
      attached := attached - {d};
      dependents := map s | s in dependents :: dependents[s] - {d};
    }

    /** The followers of `s` not yet in `pending`, depth first. */
    method Visit(s: nat, pending: set<nat>) returns (all: set<nat>)
      requires Wired() && s in values
      ensures pending <= all
      ensures forall d | Edge(sources, attached, s, d) :: d in all
      ensures forall x, d | x in all && x !in pending && Edge(sources, attached, x, d) :: d in all
      ensures forall x | x in all && x !in pending :: x in attached && Follows(sources, attached, s, x)
      decreases next - s
    {
      all := pending;
      var left := dependents[s];
      while left != {}
        invariant left <= dependents[s] && pending <= all
        invariant forall d | d in dependents[s] && d !in left :: d in all
        invariant forall x, d | x in all && x !in pending && Edge(sources, attached, x, d) :: d in all
        invariant forall x | x in all && x !in pending :: x in attached && Follows(sources, attached, s, x)
        decreases |left|
      {
        var d :| d in left;
        left := left - {d};
        assert Edge(sources, attached, s, d);
        if d !in all {
          FollowsEdge(sources, attached, s, d);
          var more := Visit(d, all + {d});
          forall x | x in more && x !in all + {d}
            ensures Follows(sources, attached, s, x)
          {
            FollowsOn(sources, attached, s, d, x);
          }
          all := more;
        }
      }
    }

    /** Everything that follows `changed`. */
    ghost function Affected(changed: nat): set<nat>
      reads `sources, `attached
    {
      set d | d in attached && Follows(sources, attached, changed, d)
    }

    /** A write that is validated, or one whose caller did so already. */
    ghost function WaveOf(changed: nat, value: V, validate: bool): Wave<V>
      reads `sources, `attached, `values, `valid
    {
      Wave(sources, values, Affected(changed), changed, value, fn, if validate then valid else (x, v) => true)
    }

    method AffectedInOrder(changed: nat) returns (order: seq<nat>)
      requires Wired() && changed in values
      ensures Ascending(order) && forall d :: d in order <==> d in Affected(changed)
    {
      var pending := Visit(changed, {});
      ClosedHoldsFollowers(sources, attached, pending, changed);
      order := Sort(pending);
    }

    lemma AffectedAreLater(changed: nat)
      requires Wired()
      ensures forall d | d in Affected(changed) :: changed < d && d in sources
      ensures forall x: nat, d: nat | (x == changed || x in Affected(changed)) && Edge(sources, attached, x, d) ::
                d in Affected(changed)
    {
      forall d | d in Affected(changed)
        ensures changed < d && d in sources
      {
        var p :| Path(sources, attached, p) && p[0] == changed && p[|p| - 1] == d;
        FollowersAreLater(sources, attached, p);
        assert Edge(sources, attached, p[|p| - 2], p[|p| - 1]);
      }
      forall x: nat, d: nat | (x == changed || x in Affected(changed)) && Edge(sources, attached, x, d)
        ensures d in Affected(changed)
      {
        if x == changed {
          FollowsEdge(sources, attached, changed, d);
        } else {
          var p :| Path(sources, attached, p) && p[0] == changed && p[|p| - 1] == x;
          var q := p + [d];
          forall i | 0 <= i < |q| - 1
            ensures Edge(sources, attached, q[i], q[i + 1])
          {
            if i < |p| - 1 {
              assert Edge(sources, attached, p[i], p[i + 1]);
            }
          }
          assert Path(sources, attached, q);
        }
      }
    }

    /** The candidates have the values after the write of everything in `done`. */
    ghost predicate Computed(w: Wave<V>, done: set<nat>, candidates: map<nat, V>) {
      && Sane(w) && candidates.Keys == done + {w.changed}
      && forall x | x in candidates :: x in w.values && Eval(w, x) == Some(candidates[x])
    }

    /** When the affected sources of a derivation are computed, computing it is what the definition says. */
    lemma NextComputed(w: Wave<V>, done: set<nat>, candidates: map<nat, V>, d: nat)
      requires Computed(w, done, candidates) && d in w.affected && d in w.values && d != w.changed
      requires forall s | s in w.sources[d] && s in w.affected :: s in done
      ensures forall s | s in w.sources[d] :: s in w.values + candidates
      ensures var next := w.fn(d, Read(w.values + candidates, w.sources[d]));
              Eval(w, d) == if next.Some? && w.valid(d, next.value) then next else None
    {
      ReadIsEvalAll(w, d, w.sources[d], w.values + candidates);
    }

    /** In creation order, what the next of the affected depends on is computed before it. */
    lemma NextInOrder(w: Wave<V>, order: seq<nat>, i: nat, candidates: map<nat, V>)
      requires Ascending(order) && (forall d :: d in order <==> d in w.affected) && i < |order|
      requires Computed(w, Among(order, i), candidates) && order[i] in w.values && order[i] != w.changed
      ensures forall s | s in w.sources[order[i]] :: s in w.values + candidates
      ensures var next := w.fn(order[i], Read(w.values + candidates, w.sources[order[i]]));
              Eval(w, order[i]) == if next.Some? && w.valid(order[i], next.value) then next else None
    {
      var d := order[i];
      assert d in order;
      forall s | s in w.sources[d] && s in w.affected
        ensures s in Among(order, i)
      {
        EarlierIsDone(order, i, s);
      }
      NextComputed(w, Among(order, i), candidates, d);
    }

    /** One more of the affected is computed. */
    lemma ComputedMore(w: Wave<V>, order: seq<nat>, i: nat, candidates: map<nat, V>, v: V)
      requires i < |order| && Computed(w, Among(order, i), candidates) && order[i] in w.values
      requires Eval(w, order[i]) == Some(v)
      ensures Computed(w, Among(order, i + 1), candidates[order[i] := v])
    {
      var more := candidates[order[i] := v];
      assert more.Keys == Among(order, i + 1) + {w.changed};
      forall x | x in more
        ensures x in w.values && Eval(w, x) == Some(more[x])
      {
        assert x != order[i] ==> x in candidates;
      }
    }

    /**
     * The values that what follows `changed` has after the write, if all of them can be had. Each is computed exactly
     * once then; if one fails, none is computed twice.
     */
    method ComputeDependents(changed: nat, value: V, validate: bool)
      returns (order: seq<nat>, candidates: Option<map<nat, V>>)
      requires Wired() && changed in values
      modifies `computations
      ensures Sane(WaveOf(changed, value, validate))
      ensures candidates.Some? ==> computations == old(computations) + multiset(Affected(changed))
      ensures computations <= old(computations) + multiset(Affected(changed))
      ensures Ascending(order) && forall d :: d in order <==> d in Affected(changed)
      ensures candidates.Some? ==> Computed(WaveOf(changed, value, validate), Affected(changed), candidates.value)
      ensures candidates.Some? <==> Computable(changed, value, validate)
    {
      order := AffectedInOrder(changed);
      AffectedAreLater(changed);
      AmongAll(order);
      assert Among(order, |order|) == Affected(changed);
      candidates := ComputeInOrder(changed, value, order, validate);
    }

    /** All that follows a source has a value after the write. */
    ghost predicate Computable(changed: nat, value: V, validate: bool)
      requires Wired() && changed in values
      reads this
    {
      AffectedAreLater(changed);
      forall d | d in Affected(changed) :: d in values && Eval(WaveOf(changed, value, validate), d).Some?
    }

    /** Computes what is affected by a write, in creation order. */
    method ComputeInOrder(changed: nat, value: V, order: seq<nat>, validate: bool)
      returns (candidates: Option<map<nat, V>>)
      requires Wired() && changed in values && Sane(WaveOf(changed, value, validate)) && Ascending(order)
      requires (forall d :: d in order <==> d in Affected(changed)) && changed !in order
               && (forall d | d in order :: d in values)
      modifies `computations
      ensures candidates.Some? ==> Computed(WaveOf(changed, value, validate), Among(order, |order|), candidates.value)
      ensures candidates.Some? ==> computations == old(computations) + multiset(Among(order, |order|))
      ensures computations <= old(computations) + multiset(Among(order, |order|))
      ensures candidates.None? ==> exists d :: d in order && Eval(WaveOf(changed, value, validate), d).None?
    {
      var computed: map<nat, V> := map[changed := value];
      for i := 0 to |order|
        invariant Computed(WaveOf(changed, value, validate), Among(order, i), computed)
        invariant computations == old(computations) + multiset(Among(order, i))
      {
        OneMoreOf(order, i);
        var next := ComputeNext(changed, value, order, i, computed, validate);
        if next.None? {
          return None;
        }
        ComputedMore(WaveOf(changed, value, validate), order, i, computed, next.value);
        computed := computed[order[i] := next.value];
      }
      candidates := Some(computed);
    }

    /** The next in creation order; its schemas may refuse its value. */
    method ComputeNext(changed: nat, value: V, order: seq<nat>, i: nat, computed: map<nat, V>, validate: bool)
      returns (next: Option<V>)
      requires Wired() && changed in values && Ascending(order) && i < |order| && order[i] in values
               && order[i] != changed
      requires forall d :: d in order <==> d in Affected(changed)
      requires Computed(WaveOf(changed, value, validate), Among(order, i), computed)
      modifies `computations
      ensures next == Eval(WaveOf(changed, value, validate), order[i])
              && computations == old(computations) + multiset{order[i]}
    {
      assert order[i] in order;
      NextInOrder(WaveOf(changed, value, validate), order, i, computed);
      next := Compute(order[i], values + computed);
      if validate && next.Some? && !valid(order[i], next.value) {
        next := None;
      }
    }

    /** What holds the values after a write is consistent: nothing sees a derivation of old and new values. */
    lemma WaveIsConsistent(changed: nat, value: V, after: map<nat, V>, validate: bool)
      requires Valid() && changed in values && changed !in sources && after.Keys == values.Keys
      requires Sane(WaveOf(changed, value, validate))
               && forall x | x in values :: Eval(WaveOf(changed, value, validate), x) == Some(after[x])
      ensures Consistent(sources, attached, after, fn)
    {
      var w := WaveOf(changed, value, validate);
      AffectedAreLater(changed);
      forall d | d in attached
        ensures fn(d, Read(after, sources[d])) == Some(after[d])
      {
        if d in Affected(changed) {
          ReadIsEvalAll(w, d, sources[d], after);
        } else {
          forall s | s in sources[d]
            ensures after[s] == values[s]
          {
            assert Edge(sources, attached, s, d);
          }
          ReadsAgree(values, after, sources[d]);
        }
      }
    }

    /** Whether a write's value, and everything recomputed from it, meets its schemas and can be had at all. */
    ghost predicate Acceptable(cell: nat, value: V, validate: bool)
      requires Wired() && cell in values
      reads this
    {
      (validate ==> valid(cell, value)) && Computable(cell, value, validate)
    }

    /** What observers are told after a write: the cell's new value, then those of derivations that changed. */
    ghost predicate Told(cell: nat, value: V, affected: set<nat>, was: map<nat, V>, told: seq<(nat, V)>)
      reads `values
    {
      exists order ::
        Ascending(order) && (forall d :: d in order <==> d in affected)
        && (forall d | d in order :: d in was && d in values)
        && told == [(cell, value)] + Notices(order, was, values)
    }

    /**
     * All of a write's values are adopted at once, then its notifications are queued: the cell's, then derivations'.
     */
    method Adopt(cell: nat, value: V, order: seq<nat>, candidates: map<nat, V>, ghost validate: bool)
      requires Valid() && cell in values && cell !in sources
      requires Computed(WaveOf(cell, value, validate), Affected(cell), candidates)
               && forall d | d in order :: d in candidates
      requires Ascending(order) && forall d :: d in order <==> d in Affected(cell)
      modifies `values, `queue
      ensures Valid() && values.Keys == old(values).Keys
      ensures Sane(old(WaveOf(cell, value, validate)))
      ensures forall x | x in values :: Eval(old(WaveOf(cell, value, validate)), x) == Some(values[x])
      ensures old(queue) <= queue && Told(cell, value, old(Affected(cell)), old(values), queue[|old(queue)|..])
    {
      ghost var w := WaveOf(cell, value, validate);
      var was := values;
      WaveIsConsistent(cell, value, values + candidates, validate);
      values := values + candidates;
      var told := [(cell, value)] + Notices(order, was, values);
      queue := queue + told;
      assert queue[|old(queue)|..] == told;
    }

    /** A write whose value its schemas accept, if they are asked. */
    method Publish(cell: nat, value: V, validate: bool) returns (ok: bool)
      requires Valid() && cell in values && cell !in sources && (validate ==> valid(cell, value))
      modifies `values, `queue, `computations
      ensures Valid() && values.Keys == old(values).Keys && Sane(old(WaveOf(cell, value, validate)))
      ensures ok <==> old(Acceptable(cell, value, validate))
      ensures ok ==> computations == old(computations) + multiset(old(Affected(cell)))
      ensures computations <= old(computations) + multiset(old(Affected(cell)))
      ensures !ok ==> values == old(values) && queue == old(queue)
      ensures ok ==> forall x | x in values :: Eval(old(WaveOf(cell, value, validate)), x) == Some(values[x])
      ensures ok ==> old(queue) <= queue && Told(cell, value, old(Affected(cell)), old(values), queue[|old(queue)|..])
    {
      var order, candidates := ComputeDependents(cell, value, validate);
      ok := candidates.Some?;
      if ok {
        Adopt(cell, value, order, candidates.value, validate);
      }
    }

    /**
     * A write. It changes nothing, because a derivation or a validation failed; or (unless there is nothing to publish)
     * every source has its value after the write by definition, each that follows the cell was computed exactly once,
     * and observers are told afterwards.
     */
    method Write(cell: nat, value: V, empty: bool) returns (ok: bool)
      requires Valid() && cell in values && cell !in sources && (empty ==> value == values[cell])
      modifies `values, `queue, `computations
      ensures Valid() && values.Keys == old(values).Keys && Sane(old(WaveOf(cell, value, true)))
      ensures ok <==> empty || old(Acceptable(cell, value, true))
      ensures ok && !empty ==> computations == old(computations) + multiset(old(Affected(cell)))
      ensures computations <= old(computations) + multiset(old(Affected(cell)))
      ensures !ok || empty ==> values == old(values) && queue == old(queue)
      ensures ok && !empty ==> forall x | x in values :: Eval(old(WaveOf(cell, value, true)), x) == Some(values[x])
      ensures ok && !empty ==>
                old(queue) <= queue && Told(cell, value, old(Affected(cell)), old(values), queue[|old(queue)|..])
    {
      AffectedAreLater(cell);
      if empty {
        return true;
      }
      ok := false;
      if valid(cell, value) {
        ok := Publish(cell, value, true);
      }
    }

    /**
     * A reload commit gives a cell a value and a schema: as a write, but neither the value nor what is recomputed from
     * it is validated here, and there is always something to publish. The schema stays also if a derivation throws.
     */
    method Reset(cell: nat, value: V, schema: V -> bool) returns (ok: bool)
      requires Valid() && cell in values && cell !in sources
      modifies `values, `queue, `computations, `valid
      ensures Valid() && values.Keys == old(values).Keys && Sane(old(WaveOf(cell, value, false)))
      ensures forall x, v :: valid(x, v) <==> if x == cell then schema(v) else old(valid)(x, v)
      ensures ok <==> old(Acceptable(cell, value, false))
      ensures ok ==> computations == old(computations) + multiset(old(Affected(cell)))
      ensures computations <= old(computations) + multiset(old(Affected(cell)))
      ensures !ok ==> values == old(values) && queue == old(queue)
      ensures ok ==> forall x | x in values :: Eval(old(WaveOf(cell, value, false)), x) == Some(values[x])
      ensures ok ==> old(queue) <= queue && Told(cell, value, old(Affected(cell)), old(values), queue[|old(queue)|..])
    {
      AffectedAreLater(cell);
      var was := valid;
      valid := (x: nat, v: V) => if x == cell then schema(v) else was(x, v);
      ok := Publish(cell, value, false);
    }
  }

  /** The derivations that publish: those whose value changed. */
  function Notices<V(==)>(order: seq<nat>, was: map<nat, V>, now: map<nat, V>): seq<(nat, V)>
    requires forall d | d in order :: d in was && d in now
  {
    if order == [] then []
    else
      var d := order[|order| - 1];
      assert d in order;
      Notices(order[..|order| - 1], was, now) + if was[d] == now[d] then [] else [(d, now[d])]
  }

  /** The members of a sequence before an index. */
  function Among(order: seq<nat>, i: nat): set<nat>
    requires i <= |order|
  {
    if i == 0 then {} else Among(order, i - 1) + {order[i - 1]}
  }

  lemma {:induction false} AmongAt(order: seq<nat>, i: nat, j: nat)
    requires j < i <= |order|
    ensures order[j] in Among(order, i)
  {
    if j < i - 1 {
      AmongAt(order, i - 1, j);
    }
  }

  /** The next of an ascending sequence is not among those before it. */
  lemma OneMoreOf(order: seq<nat>, i: nat)
    requires Ascending(order) && i < |order|
    ensures multiset(Among(order, i + 1)) == multiset(Among(order, i)) + multiset{order[i]}
    ensures Among(order, i + 1) <= Among(order, |order|)
  {
    AmongBelow(order, i);
    AmongGrows(order, i + 1, |order|);
  }

  lemma {:induction false} AmongBelow(order: seq<nat>, i: nat)
    requires Ascending(order) && i < |order|
    ensures forall x | x in Among(order, i) :: x < order[i]
  {
    if i > 0 {
      AmongBelow(order, i - 1);
    }
  }

  lemma {:induction false} AmongGrows(order: seq<nat>, i: nat, j: nat)
    requires i <= j <= |order|
    ensures Among(order, i) <= Among(order, j)
  {
    if i < j {
      AmongGrows(order, i, j - 1);
    }
  }

  /** In creation order, what was created before is done before. */
  lemma EarlierIsDone(order: seq<nat>, i: nat, s: nat)
    requires Ascending(order) && i < |order| && s in order && s < order[i]
    ensures s in Among(order, i)
  {
    var j :| 0 <= j < |order| && order[j] == s;
    AmongAt(order, i, j);
  }

  lemma {:induction false} AmongMembers(order: seq<nat>, i: nat)
    requires i <= |order|
    ensures forall x | x in Among(order, i) :: x in order
  {
    if i > 0 {
      AmongMembers(order, i - 1);
    }
  }

  lemma AmongAll(order: seq<nat>)
    ensures forall x :: x in Among(order, |order|) <==> x in order
  {
    AmongMembers(order, |order|);
    forall x | x in order
      ensures x in Among(order, |order|)
    {
      var j :| 0 <= j < |order| && order[j] == x;
      AmongAt(order, |order|, j);
    }
  }

  lemma {:induction false} ReadsAgree<V>(a: map<nat, V>, b: map<nat, V>, xs: seq<nat>)
    requires forall x | x in xs :: x in a && x in b && a[x] == b[x]
    ensures Read(a, xs) == Read(b, xs)
  {
    if xs != [] {
      assert xs[|xs| - 1] in xs;
      ReadsAgree(a, b, xs[..|xs| - 1]);
    }
  }
}
