/**
 * Cluster reloads, coordinated by the server: the reload protocol between the server and every child that connects,
 * over FIFO links, with late hellos, vote deadlines, aborts, reconciliation, and links that are lost.
 */
module Cluster {
  import opened Lists
  import opened Child

  /** What the server knows of the reload it asked a child for. */
  datatype Asking =
    | Idle
    | Asked(id: nat, version: nat)
    | Granted(id: nat, version: nat)
    | Refused(id: nat, version: nat)

  /** A link to a child. `peer` is what the server takes for the child's code version, once a hello named one. */
  datatype Link = Link(open: bool, peer: Option<nat>, asking: Asking, down: seq<Down>, up: seq<Up>, child: State,
                       first: nat)

  // ─── one link ───

  function Target(child: State): nat {
    if child.operation.Some? then child.operation.value.version else child.version
  }

  /** The version a child runs once it took all frames: `next` is the version its prepared operation would install. */
  function Leads(version: nat, next: nat, down: seq<Down>): nat {
    if down == [] then version
    else if down[|down| - 1].Commit? then next else Leads(version, next, down[..|down| - 1])
  }

  /** No frame of a root reaches the child before the code version of the root. */
  predicate InStep(version: nat, next: nat, down: seq<Down>) {
    down == []
    || (InStep(version, next, down[..|down| - 1])
        && (down[|down| - 1].Use? ==> down[|down| - 1].version <= Leads(version, next, down[..|down| - 1])))
  }

  predicate AllUse(down: seq<Down>) {
    forall f | f in down :: f.Use?
  }

  /** The child voted yes and waits for the decision, which is not under way yet. */
  predicate Ready(l: Link, id: nat, version: nat) {
    l.child.operation == Some(Operation(id, version, Prepared, false)) && AllUse(l.down)
  }

  /** An operation that still may vote. */
  predicate Active(l: Link, id: nat) {
    l.child.operation.Some? && l.child.operation.value.id == id && !l.child.operation.value.cancelled
  }

  ghost predicate AskedInv(l: Link, id: nat, version: nat) {
    && (Vote(id, true) in l.up ==> Ready(l, id, version))
    && (Active(l, id) ==> l.child.operation.value.version == version && AllUse(l.down))
    && forall i | 0 <= i < |l.down| && l.down[i].Prepare? && l.down[i].id == id ::
         && l.down[i].version == version && (forall j | i < j < |l.down| :: l.down[j].Use?)
         && (forall yes :: Vote(id, yes) !in l.up) && !Active(l, id)
  }

  /** A commit under way is the first control frame, and names the child's prepared operation. */
  ghost predicate CommitsInv(l: Link) {
    forall i | 0 <= i < |l.down| && l.down[i].Commit? ::
      && (forall j | 0 <= j < i :: l.down[j].Use?)
      && Active(l, l.down[i].id) && l.child.operation.value.stage.Prepared?
  }

  /** Reload ids are used once. */
  ghost predicate Below(l: Link, ids: nat) {
    && (forall f | f in l.down && !f.Use? :: f.id < ids)
    && (forall u | u in l.up && u.Vote? :: u.id < ids)
    && (l.child.operation.Some? && !l.child.operation.value.cancelled ==> l.child.operation.value.id < ids)
    && (!l.asking.Idle? ==> l.asking.id < ids)
  }

  ghost predicate LinkInv(l: Link, ids: nat) {
    && Child.Inv(l.child, l.first) && Below(l, ids) && CommitsInv(l)
    && InStep(l.child.version, Target(l.child), l.down)
    && (l.peer.Some? ==>
          Leads(l.child.version, Target(l.child), l.down) == l.peer.value && forall u | u in l.up :: u.Vote?)
    && (l.peer.None? ==> l.asking.Idle? && l.down == [] && (l.open ==> l.up == [Hello(l.child.version)])
                         && (l.child.operation.Some? ==> l.child.operation.value.cancelled))
    && (l.asking.Asked? ==> AskedInv(l, l.asking.id, l.asking.version))
    && (l.asking.Granted? ==> Ready(l, l.asking.id, l.asking.version))
  }

  lemma Sent(version: nat, next: nat, down: seq<Down>, f: Down)
    ensures Leads(version, next, down + [f]) == if f.Commit? then next else Leads(version, next, down)
    ensures InStep(version, next, down + [f]) <==>
            InStep(version, next, down) && (f.Use? ==> f.version <= Leads(version, next, down))
  {
    assert (down + [f])[..|down|] == down;
  }

  lemma {:induction false} Taken(version: nat, next: nat, down: seq<Down>)
    requires down != []
    ensures var version' := if down[0].Commit? then next else version;
            && Leads(version, next, down) == Leads(version', next, down[1..])
            && (InStep(version, next, down) <==>
                InStep(version', next, down[1..]) && (down[0].Use? ==> down[0].version <= version))
  {
    var version' := if down[0].Commit? then next else version;
    var n := |down| - 1;
    if n == 0 {
      TakenOnly(version, next, down);
    } else {
      var init, rest := down[..n], down[1..];
      assert rest[..n - 1] == init[1..] && init[0] == down[0];
      Taken(version, next, init);
      Sent(version, next, init, down[n]);
      Sent(version', next, init[1..], down[n]);
      assert down == init + [down[n]] && rest == init[1..] + [down[n]];
    }
  }

  lemma TakenOnly(version: nat, next: nat, down: seq<Down>)
    requires |down| == 1
    ensures Leads(version, next, down) == if down[0].Commit? then next else version
    ensures InStep(version, next, down) <==> (down[0].Use? ==> down[0].version <= version)
    ensures forall v :: Leads(v, next, down[1..]) == v && InStep(v, next, down[1..])
  {
    var none: seq<Down> := [];
    assert down[..0] == none && down[1..] == none;
    assert InStep(version, next, down[..0]) && Leads(version, next, down[..0]) == version;
  }

  /** Without a commit under way, the version a prepared operation would install does not matter. */
  lemma {:induction false} NoCommit(version: nat, next: nat, next': nat, down: seq<Down>)
    requires forall f | f in down :: !f.Commit?
    ensures Leads(version, next, down) == version && Leads(version, next', down) == version
    ensures InStep(version, next, down) <==> InStep(version, next', down)
  {
    if down != [] {
      var n := |down| - 1;
      assert down == down[..n] + [down[n]];
      NoCommit(version, next, next', down[..n]);
    }
  }

  function Ask(l: Link, id: nat, version: nat): Link {
    l.(asking := Asked(id, version), down := l.down + [Prepare(id, version)])
  }

  function Decide(l: Link, commit: bool): Link
    requires !l.asking.Idle?
  {
    if commit then l.(asking := Idle, peer := Some(l.asking.version), down := l.down + [Commit(l.asking.id)])
    else l.(asking := Idle, down := l.down + [Abort(l.asking.id)])
  }

  function Use_(l: Link, version: nat): Link {
    l.(down := l.down + [Use(version)])
  }

  /** The server hears a vote: it counts if it is the one awaited. */
  function Hear(l: Link): Link
    requires l.up != [] && l.up[0].Vote?
  {
    var rest := l.(up := l.up[1..]);
    if l.asking.Asked? && l.asking.id == l.up[0].id then
      if l.up[0].yes then rest.(asking := Granted(l.asking.id, l.asking.version))
      else rest.(asking := Refused(l.asking.id, l.asking.version))
    else rest
  }

  lemma AskKeeps(l: Link, ids: nat, id: nat, version: nat)
    requires LinkInv(l, ids) && l.peer.Some? && l.asking.Idle? && ids <= id
    ensures LinkInv(Ask(l, id, version), id + 1)
  {
    Sent(l.child.version, Target(l.child), l.down, Prepare(id, version));
  }

  lemma DecideKeeps(l: Link, ids: nat, commit: bool)
    requires LinkInv(l, ids) && !l.asking.Idle? && (commit ==> l.asking.Granted?)
    ensures LinkInv(Decide(l, commit), ids)
  {
    Sent(l.child.version, Target(l.child), l.down, if commit then Commit(l.asking.id) else Abort(l.asking.id));
  }

  lemma UseKeeps(l: Link, ids: nat, version: nat)
    requires LinkInv(l, ids) && l.peer.Some? && version <= l.peer.value
    ensures LinkInv(Use_(l, version), ids)
  {
    Sent(l.child.version, Target(l.child), l.down, Use(version));
  }

  lemma HearKeeps(l: Link, ids: nat)
    requires LinkInv(l, ids) && l.up != [] && l.up[0].Vote?
    ensures LinkInv(Hear(l), ids)
  {
    assert l.up[0] in l.up;
  }

  lemma HelloKeeps(l: Link, ids: nat)
    requires LinkInv(l, ids) && l.peer.None? && l.open
    ensures l.up == [Hello(l.child.version)]
    ensures LinkInv(l.(peer := Some(l.child.version), up := []), ids)
  {
  }

  /** The child takes a frame. */
  function Take(l: Link): Link
    requires l.down != []
  {
    var step := Handle(l.down[0]);
    l.(down := l.down[1..], child := Child.Next(l.child, step), up := l.up + Sends(l.child, step))
  }

  /** Work of the child settles. */
  function Work(l: Link, step: Child.Step): Link
    requires Child.Enabled(l.child, step)
  {
    l.(child := Child.Next(l.child, step), up := l.up + Sends(l.child, step))
  }

  lemma WorkKeeps(l: Link, ids: nat, step: Child.Step)
    requires LinkInv(l, ids) && Child.Enabled(l.child, step) && !step.Handle? && !step.ParentLost?
    ensures LinkInv(Work(l, step), ids)
  {
    Child.StepKeeps(l.child, step, l.first);
    if !step.RollbackSettled? {
      forall f | f in l.down
        ensures !f.Commit?
      {
        var i :| 0 <= i < |l.down| && l.down[i] == f;
      }
      NoCommit(l.child.version, Target(l.child), Target(Work(l, step).child), l.down);
    }
  }

  /** The child takes a frame of a root: the code version it runs has been installed. */
  lemma TakeUse(l: Link, ids: nat)
    requires LinkInv(l, ids) && l.down != [] && l.down[0].Use?
    ensures LinkInv(Take(l), ids) && l.down[0].version <= l.child.version
  {
    TakeShifts(l, ids);
    assert Take(l).up == l.up;
  }

  /** What is left to take follows on. */
  lemma TakeShifts(l: Link, ids: nat)
    requires LinkInv(l, ids) && l.down != []
    ensures Child.Inv(Take(l).child, l.first)
    ensures var version' := if l.down[0].Commit? then Target(l.child) else l.child.version;
            && Leads(l.child.version, Target(l.child), l.down) == Leads(version', Target(l.child), l.down[1..])
            && InStep(version', Target(l.child), l.down[1..])
            && (l.down[0].Use? ==> l.down[0].version <= l.child.version)
    ensures l.peer.Some?
    ensures !l.down[0].Use? ==> forall f | f in l.down[1..] :: !f.Commit?
    ensures l.down[0].Commit? ==> Active(l, l.down[0].id) && l.child.operation.value.stage.Prepared?
  {
    Child.StepKeeps(l.child, Handle(l.down[0]), l.first);
    Taken(l.child.version, Target(l.child), l.down);
    if !l.down[0].Use? {
      forall f | f in l.down[1..]
        ensures !f.Commit?
      {
        var i :| 0 <= i < |l.down[1..]| && l.down[1..][i] == f;
        assert l.down[i + 1] == f;
      }
    }
  }

  lemma TakeControl(l: Link, ids: nat)
    requires LinkInv(l, ids) && l.down != [] && !l.down[0].Use?
    ensures LinkInv(Take(l), ids)
  {
    TakeShifts(l, ids);
    var t := Take(l);
    NoCommit(t.child.version, Target(l.child), Target(t.child), t.down);
    assert l.down[0] in l.down;
  }

  lemma TakeKeeps(l: Link, ids: nat)
    requires LinkInv(l, ids) && l.down != []
    ensures LinkInv(Take(l), ids)
  {
    if l.down[0].Use? {
      TakeUse(l, ids);
    } else {
      TakeControl(l, ids);
    }
  }
}
