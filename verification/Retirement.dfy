/**
 * The retirement of code versions across a parent host and a child it synced, over the FIFO link from parent to child.
 * A host retains its current code version and the previous one until that retires.
 */
module Retirement {
  import opened Lists

  datatype Frame = Commit(version: nat) | Retire(version: nat) | Call(version: nat)

  /** `roots`: how many roots run on the host in each code version; `allowed`: what the parent retired. */
  datatype Host = Host(current: nat, previous: Option<nat>, roots: map<nat, nat>, allowed: nat)

  /**
   * `had`: the code versions the child retained when it was synced, and those committed to it since; `since`: the
   * parent's code version when it was synced.
   */
  datatype Pair = Pair(parent: Host, child: Host, down: seq<Frame>, had: set<nat>, since: nat)

  datatype Step =
    | Install(version: nat)                 // a reload commits here and is committed to the child
    | RetireParent
    | StartRoot(version: nat)
    | EndRoot(version: nat)
    | CallDown(version: nat)                // a root calls a member of the child
    | TakeFrame
    | ChildSettles(version: nat)            // a call of a root settles on the child

  predicate Retains(h: Host, v: nat) {
    h.current == v || h.previous == Some(v)
  }

  function Running(h: Host, v: nat): nat {
    if v in h.roots then h.roots[v] else 0
  }

  function Roots(h: Host, v: nat, n: nat): Host {
    h.(roots := h.roots[v := n])
  }

  predicate CommitIn(down: seq<Frame>) {
    exists f | f in down :: f.Commit?
  }

  predicate Enabled(p: Pair, step: Step) {
    match step
    // Both hosts retire their previous code version before they vote for a reload, and it is decided at once.
    case Install(v) => v > p.parent.current && p.parent.previous.None? && p.child.previous.None? && !CommitIn(p.down)
    case RetireParent => p.parent.previous.Some? && Running(p.parent, p.parent.previous.value) == 0
    case StartRoot(v) => Retains(p.parent, v)
    case EndRoot(v) => Running(p.parent, v) > 0
    case CallDown(v) => Running(p.parent, v) > 0
    case TakeFrame => p.down != []
    case ChildSettles(v) => Running(p.child, v) > 0
  }

  /** The child's step toward one version: it needs the parent's retire frame and no running root in the old one. */
  function MaybeRetire(c: Host): Host {
    if c.previous.Some? && Running(c, c.previous.value) == 0 && c.previous.value <= c.allowed then
      c.(previous := None)
    else c
  }

  /** A call is `superseded` unless its code version is retained. */
  function Take(c: Host, f: Frame): Host {
    match f
    case Commit(v) => c.(previous := Some(c.current), current := v)
    case Retire(v) => MaybeRetire(c.(allowed := if v > c.allowed then v else c.allowed))
    case Call(v) => if Retains(c, v) then Roots(c, v, Running(c, v) + 1) else c
  }

  function Next(p: Pair, step: Step): Pair
    requires Enabled(p, step)
  {
    match step
    case Install(v) =>
      p.(parent := p.parent.(previous := Some(p.parent.current), current := v),
         down := p.down + [Commit(v)], had := p.had + {v})
    case RetireParent => p.(parent := p.parent.(previous := None), down := p.down + [Retire(p.parent.previous.value)])
    case StartRoot(v) => p.(parent := Roots(p.parent, v, Running(p.parent, v) + 1))
    case EndRoot(v) => p.(parent := Roots(p.parent, v, Running(p.parent, v) - 1))
    case CallDown(v) => p.(down := p.down + [Call(v)])
    case TakeFrame => p.(child := Take(p.child, p.down[0]), down := p.down[1..])
    case ChildSettles(v) => p.(child := MaybeRetire(Roots(p.child, v, Running(p.child, v) - 1)))
  }

  predicate CommitBefore(down: seq<Frame>, i: nat)
    requires i <= |down|
  {
    exists j :: 0 <= j < i && down[j].Commit?
  }

  /** No frame before position `i` lets the child drop code version `v`. */
  predicate KeptUntil(c: Host, down: seq<Frame>, i: nat, v: nat)
    requires i <= |down|
  {
    c.allowed < v && forall j | 0 <= j < i && down[j].Retire? :: down[j].version < v
  }

  /** The child retains `v` when it takes the frame at position `i`; `latest` is the version of a commit under way. */
  ghost predicate FoundAt(c: Host, down: seq<Frame>, latest: nat, i: nat, v: nat)
    requires i <= |down|
  {
    if CommitBefore(down, i) then v == latest || (v == c.current && KeptUntil(c, down, i, v))
    else v == c.current || (c.previous == Some(v) && KeptUntil(c, down, i, v))
  }

  /** Every call under way in a code version the child had finds it. */
  ghost predicate CallsFound(p: Pair) {
    forall i | 0 <= i < |p.down| && p.down[i].Call? && p.down[i].version in p.had ::
      FoundAt(p.child, p.down, p.parent.current, i, p.down[i].version)
  }

  ghost predicate Inv(p: Pair) {
    && (forall v | Running(p.parent, v) > 0 :: Retains(p.parent, v))
    && (p.parent.previous.Some? ==> p.parent.previous.value < p.parent.current)
    && p.child.current in p.had && (p.child.previous.Some? ==> p.child.previous.value in p.had)
    && (forall i | 0 <= i < |p.down| && p.down[i].Commit? ::
          && p.down[i].version == p.parent.current && p.parent.current in p.had
          && p.child.previous.None? && p.child.current < p.parent.current
          && forall j | 0 <= j < |p.down| && p.down[j].Commit? :: i == j)
    && (!CommitIn(p.down) ==> p.child.current == p.parent.current)
    // what the parent retains and the child had, the child will retain
    && (forall v | Retains(p.parent, v) && v in p.had :: FoundAt(p.child, p.down, p.parent.current, |p.down|, v))
    && p.child.allowed < p.parent.current && (forall f | f in p.down && f.Retire? :: f.version < p.parent.current)
    && CallsFound(p)
    && (forall f | f in p.down && f.Call? ::
          f.version <= p.parent.current && (p.since <= f.version ==> f.version in p.had))
    && (forall v | Retains(p.parent, v) && p.since <= v :: v in p.had)
  }

  // ─── every step keeps the invariant ───

  lemma Appended(c: Host, down: seq<Frame>, f: Frame, latest: nat, i: nat, v: nat)
    requires i <= |down|
    ensures FoundAt(c, down + [f], latest, i, v) <==> FoundAt(c, down, latest, i, v)
  {
    assert forall j | 0 <= j < i :: (down + [f])[j] == down[j];
    assert CommitBefore(down + [f], i) <==> CommitBefore(down, i);
    assert KeptUntil(c, down + [f], i, v) <==> KeptUntil(c, down, i, v);
  }

  lemma AtEnd(c: Host, down: seq<Frame>, f: Frame, latest: nat, v: nat)
    requires !f.Commit? && (f.Retire? ==> f.version < v)
    ensures FoundAt(c, down, latest, |down|, v) ==> FoundAt(c, down + [f], latest, |down| + 1, v)
  {
    assert forall j | 0 <= j < |down| :: (down + [f])[j] == down[j];
    assert CommitBefore(down + [f], |down| + 1) <==> CommitBefore(down, |down|);
  }

  lemma SendKeeps(p: Pair, f: Frame)
    requires Inv(p)
    requires f.Call? ==> Retains(p.parent, f.version)
    requires !f.Commit?
    requires f.Retire? ==> f.version < p.parent.current && !Retains(p.parent, f.version) && p.parent.previous.None?
    ensures Inv(p.(down := p.down + [f]))
  {
    var q := p.(down := p.down + [f]);
    assert forall i | 0 <= i < |p.down| :: q.down[i] == p.down[i];
    assert CommitIn(q.down) <==> CommitIn(p.down);
    forall v | Retains(p.parent, v) && v in p.had
      ensures FoundAt(q.child, q.down, q.parent.current, |q.down|, v)
    {
      AtEnd(p.child, p.down, f, p.parent.current, v);
    }
    forall i | 0 <= i < |q.down| && q.down[i].Call? && q.down[i].version in q.had
      ensures FoundAt(q.child, q.down, q.parent.current, i, q.down[i].version)
    {
      Appended(p.child, p.down, f, p.parent.current, i, q.down[i].version);
    }
  }

  lemma InstallKeeps(p: Pair, v: nat)
    requires Inv(p) && Enabled(p, Install(v))
    ensures Inv(Next(p, Install(v)))
  {
    var q := Next(p, Install(v));
    assert q.down[|p.down|] == Commit(v);
    assert forall w :: Running(q.parent, w) == Running(p.parent, w);
    forall i | 0 <= i < |p.down|
      ensures q.down[i] == p.down[i] && !q.down[i].Commit?
    {
      assert p.down[i] in p.down;
    }
    assert CommitBefore(q.down, |q.down|);
    forall i | 0 <= i < |q.down| && q.down[i].Call? && q.down[i].version in q.had
      ensures FoundAt(q.child, q.down, q.parent.current, i, q.down[i].version)
    {
      assert p.down[i] in p.down;
      assert FoundAt(p.child, p.down, p.parent.current, i, p.down[i].version);
      assert !CommitBefore(q.down, i) && !CommitBefore(p.down, i);
      assert KeptUntil(q.child, q.down, i, q.down[i].version) <==> KeptUntil(p.child, p.down, i, p.down[i].version);
    }
    assert CommitIn(q.down);
  }

  /** The child after it took a frame finds what it would have found. */
  lemma Shifted(c: Host, down: seq<Frame>, latest: nat, i: nat, v: nat)
    requires 0 < i <= |down| && FoundAt(c, down, latest, i, v)
    requires down[0].Commit? ==>
               down[0].version == latest && c.previous.None? && forall j | 0 < j < |down| :: !down[j].Commit?
    ensures FoundAt(Take(c, down[0]), down[1..], latest, i - 1, v)
  {
    var c', rest := Take(c, down[0]), down[1..];
    assert forall j | 0 <= j < i - 1 :: rest[j] == down[j + 1];
    assert CommitBefore(down, i) <==> down[0].Commit? || CommitBefore(rest, i - 1) by {
      if CommitBefore(rest, i - 1) {
        var j :| 0 <= j < i - 1 && rest[j].Commit?;
        assert down[j + 1].Commit?;
      }
      if j :| 0 < j < i && down[j].Commit? {
        assert rest[j - 1].Commit?;
      }
    }
    if down[0].Commit? {
      assert !CommitBefore(rest, i - 1);
    }
    if KeptUntil(c, down, i, v) {
      assert c'.allowed < v;
      assert KeptUntil(c', rest, i - 1, v);
    }
  }

  /** Calls under way, and what the child will retain, after the child took a frame. */
  lemma TakeFinds(p: Pair)
    requires Inv(p) && p.down != []
    ensures var q := Next(p, TakeFrame);
            && CallsFound(q)
            && forall v | Retains(q.parent, v) && v in q.had :: FoundAt(q.child, q.down, q.parent.current, |q.down|, v)
  {
    var q := Next(p, TakeFrame);
    forall v | Retains(q.parent, v) && v in q.had
      ensures FoundAt(q.child, q.down, q.parent.current, |q.down|, v)
    {
      Shifted(p.child, p.down, p.parent.current, |p.down|, v);
    }
    forall i | 0 <= i < |q.down| && q.down[i].Call? && q.down[i].version in q.had
      ensures FoundAt(q.child, q.down, q.parent.current, i, q.down[i].version)
    {
      assert p.down[i + 1] == q.down[i];
      Shifted(p.child, p.down, p.parent.current, i + 1, p.down[i + 1].version);
    }
  }

  lemma TakeKeeps(p: Pair)
    requires Inv(p) && p.down != []
    ensures Inv(Next(p, TakeFrame))
  {
    var q := Next(p, TakeFrame);
    TakeFinds(p);
    assert p.down[0] in p.down;
    assert forall i | 0 <= i < |q.down| :: q.down[i] == p.down[i + 1];
    assert forall f | f in q.down :: f in p.down;
    if CommitIn(p.down) && !p.down[0].Commit? {
      var i :| 0 <= i < |p.down| && p.down[i].Commit?;
      assert q.down[i - 1] in q.down;
    }
  }

  lemma SettleKeeps(p: Pair, v: nat)
    requires Inv(p) && Enabled(p, ChildSettles(v))
    ensures Inv(Next(p, ChildSettles(v)))
  {
    var q := Next(p, ChildSettles(v));
    forall i: nat, w: nat | i <= |p.down| && FoundAt(p.child, p.down, p.parent.current, i, w)
      ensures FoundAt(q.child, q.down, q.parent.current, i, w)
    {
      assert KeptUntil(p.child, p.down, i, w) <==> KeptUntil(q.child, q.down, i, w);
    }
  }

  lemma ParentKeeps(p: Pair, step: Step)
    requires Inv(p) && Enabled(p, step) && (step.StartRoot? || step.EndRoot?)
    ensures Inv(Next(p, step))
  {
    var q := Next(p, step);
    assert forall v :: Running(q.parent, v) > 0 ==> v == step.version || Running(p.parent, v) > 0;
    assert forall v :: Retains(q.parent, v) <==> Retains(p.parent, v);
  }

  lemma RetireKeeps(p: Pair)
    requires Inv(p) && Enabled(p, RetireParent)
    ensures Inv(Next(p, RetireParent))
  {
    var q := p.(parent := p.parent.(previous := None));
    assert forall v :: Running(q.parent, v) == Running(p.parent, v);
    assert forall v | Retains(q.parent, v) :: Retains(p.parent, v);
    SendKeeps(q, Retire(p.parent.previous.value));
  }

  lemma StepKeeps(p: Pair, step: Step)
    requires Inv(p) && Enabled(p, step)
    ensures Inv(Next(p, step))
  {
    match step
    case Install(v) => InstallKeeps(p, v);
    case RetireParent => RetireKeeps(p);
    case CallDown(v) => SendKeeps(p, Call(v));
    case TakeFrame => TakeKeeps(p);
    case ChildSettles(v) => SettleKeeps(p, v);
    case _ => ParentKeeps(p, step);
  }

  ghost predicate CanRun(p: Pair, steps: seq<Step>)
    decreases |steps|
  {
    steps == [] || (Enabled(p, steps[0]) && CanRun(Next(p, steps[0]), steps[1..]))
  }

  ghost function After(p: Pair, steps: seq<Step>): Pair
    requires CanRun(p, steps)
    decreases |steps|
  {
    if steps == [] then p else After(Next(p, steps[0]), steps[1..])
  }

  /**
   * In every run without forced retirement: a call that reaches the child finds its code version retained if and only
   * if the child had it when it was synced, or it was committed to the child since; so always from the parent's version
   * at that time on.
   */
  lemma {:induction false} CallFoundIff(p: Pair, steps: seq<Step>)
    requires Inv(p) && CanRun(p, steps)
    ensures var q := After(p, steps);
            && Inv(q)
            && (q.down != [] && q.down[0].Call? ==>
                  (Retains(q.child, q.down[0].version) <==> q.down[0].version in q.had)
                  && (q.since <= q.down[0].version ==> Retains(q.child, q.down[0].version)))
    decreases |steps|
  {
    if steps == [] {
      if p.down != [] && p.down[0].Call? {
        assert p.down[0] in p.down;
        if p.down[0].version in p.had {
          assert FoundAt(p.child, p.down, p.parent.current, 0, p.down[0].version);
        }
      }
    } else {
      StepKeeps(p, steps[0]);
      CallFoundIff(Next(p, steps[0]), steps[1..]);
    }
  }

  function Oldest(h: Host): nat {
    if h.previous.Some? then h.previous.value else h.current
  }

  /** What a host tells a child once it is in step: to retire all that is older than what the host retains. */
  function Announced(h: Host): (frames: seq<Frame>)
    ensures Oldest(h) <= h.current ==> OnlyRetired(h, frames)
  {
    if Oldest(h) > 1 then [Retire(Oldest(h) - 1)] else []
  }

  predicate Below(h: Host, version: nat) {
    forall v | Retains(h, v) :: version < v
  }

  /** Only `retire` frames, of versions older than all that the host retains. */
  predicate OnlyRetired(h: Host, down: seq<Frame>) {
    forall f | f in down :: f.Retire? && Below(h, f.version)
  }

  /** A parent that may sync a child now. */
  ghost predicate Sane(p: Pair) {
    && p.since == p.parent.current
    && (forall v | Running(p.parent, v) > 0 :: Retains(p.parent, v))
    && (p.parent.previous.Some? ==> p.parent.previous.value < p.parent.current)
    && Below(p.parent, p.child.allowed)
  }

  /**
   * A child synced in step: it has the parent's current code version, and perhaps an older one. Announcements of what
   * the parent retired are under way to it, as many as there were.
   */
  lemma SyncedInStep(p: Pair)
    requires Sane(p) && OnlyRetired(p.parent, p.down) && p.child.current == p.parent.current
    requires p.had == {p.child.current} + if p.child.previous.Some? then {p.child.previous.value} else {}
    ensures Inv(p)
  {
    assert Retains(p.parent, p.parent.current);
    forall i | 0 <= i < |p.down|
      ensures p.down[i].Retire? && Below(p.parent, p.down[i].version)
    {
      assert p.down[i] in p.down;
    }
    forall v | Retains(p.parent, v) && v in p.had
      ensures FoundAt(p.child, p.down, p.parent.current, |p.down|, v)
    {
      assert KeptUntil(p.child, p.down, |p.down|, v);
    }
  }

  /**
   * A child synced by reconciling it: the commit of the parent's code version is under way to it, behind what was
   * announced before its vote, and before what is announced now.
   */
  lemma SyncedByReconciling(p: Pair, before: seq<Frame>, after: seq<Frame>)
    requires Sane(p) && p.child.previous.None? && p.child.current < p.parent.current
    requires p.down == before + [Commit(p.parent.current)] + after
    requires OnlyRetired(p.parent, before) && OnlyRetired(p.parent, after)
    requires p.had == {p.child.current, p.parent.current}
    ensures Inv(p)
  {
    var n := |before|;
    assert Retains(p.parent, p.parent.current);
    assert p.down[n] == Commit(p.parent.current) && p.down[n] in p.down;
    forall i | 0 <= i < |p.down| && i != n
      ensures p.down[i].Retire? && Below(p.parent, p.down[i].version)
    {
      assert p.down[i] == if i < n then before[i] else after[i - n - 1];
    }
    assert CommitBefore(p.down, |p.down|);
    forall v | Retains(p.parent, v) && v in p.had
      ensures FoundAt(p.child, p.down, p.parent.current, |p.down|, v)
    {
      assert v == p.child.current ==> KeptUntil(p.child, p.down, |p.down|, v);
    }
  }

  /**
   * What the announcement is for: a child synced in step, with nothing else under way to it, lets go of its older
   * version on hearing it, if and only if no root of that runs there and the parent retains nothing as old.
   */
  lemma AnnouncedRetires(p: Pair)
    requires Sane(p) && p.down == Announced(p.parent) && p.child.current == p.parent.current
    requires p.child.previous.Some? && 0 < p.child.previous.value
    ensures p.down == [] ==> Oldest(p.parent) <= p.child.previous.value
    ensures p.down != [] ==>
              (Next(p, TakeFrame).child.previous.None?
               <==> Running(p.child, p.child.previous.value) == 0 && p.child.previous.value < Oldest(p.parent))
  {
    assert Retains(p.parent, Oldest(p.parent));
  }

  /** A child reconciled from code version 1 to 3 by a parent that still runs roots of 2 does not find 2. */
  lemma SupersededAfterReconciling()
    ensures var parent := Host(3, Some(2), map[2 := 1], 0);
            var p := Pair(parent, Host(1, None, map[], 1), [Commit(3)] + Announced(parent), {1, 3}, 3);
            && Inv(p) && Announced(parent) == [Retire(1)]
            && var steps := [CallDown(2), TakeFrame, TakeFrame];
               && CanRun(p, steps)
               && var q := After(p, steps);
                  q.down == [Call(2)] && Retains(q.parent, 2) && !Retains(q.child, 2)
  {
  }
}
