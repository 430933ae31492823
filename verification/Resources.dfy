/**
 * What every run of a `Lifetime` promises: in which order resources open and close, that none closes under what needs
 * it or while an invocation runs, and that an activation is never stuck; and the object as it is updated in place.
 */
module Resources {
  import opened Lists
  import opened Lifetime

  ghost predicate CanRun(s: State, steps: seq<Step>)
    decreases |steps|
  {
    steps == [] || (Enabled(s, steps[0]) && CanRun(Next(s, steps[0]), steps[1..]))
  }

  ghost function After(s: State, steps: seq<Step>): State
    requires CanRun(s, steps)
    decreases |steps|
  {
    if steps == [] then s else After(Next(s, steps[0]), steps[1..])
  }

  /** A resource closes only while nothing opens, no invocation runs, and nothing open depends on it. */
  ghost predicate ClosesSafely(s: State, t: State) {
    forall r | r in s.open && r !in t.open ::
      && t.current == Some(r) && s.opening == {} && s.invocations == {}
      && forall x | x in s.open && x in s.deps :: r !in s.deps[x]
  }

  /** While the close of a resource runs, no invocation does, and nothing opens or is open that depends on it. */
  ghost predicate QuietWhileClosing(s: State) {
    s.current.Some? ==>
      s.invocations == {} && s.opening == {} && forall x | x in s.open && x in s.deps :: s.current.value !in s.deps[x]
  }

  ghost predicate SafeRun(s: State, steps: seq<Step>)
    requires CanRun(s, steps)
    decreases |steps|
  {
    && OrderedOpen(s) && QuietWhileClosing(s)
    && (steps != [] ==> ClosesSafely(s, Next(s, steps[0])) && SafeRun(Next(s, steps[0]), steps[1..]))
  }

  lemma Quiet(s: State)
    requires Inv(s)
    ensures QuietWhileClosing(s)
  {
    if s.current.Some? {
      forall x | x in s.open && x in s.deps
        ensures s.current.value !in s.deps[x]
      {
        assert x in s.order;
        var j :| 0 <= j < |s.order| && s.order[j] == x;
        PrefixHolds(s.order, s.deps, j);
      }
    }
  }

  lemma StepClosesSafely(s: State, step: Step)
    requires Inv(s) && Enabled(s, step)
    ensures ClosesSafely(s, Next(s, step))
  {
    if step.CloseNext? {
      FirstIsLast(s);
    }
  }

  /**
   * Through any interleaving of opens, failures, aborts, calls, listeners and disposal: the order lists exactly the
   * open resources once each, dependencies first; no resource closes that an open one depends on, nor while one opens;
   * and none closes, in a disposal or after a failed activation, before every invocation settled.
   */
  lemma {:induction false} EveryRunIsSafe(s: State, steps: seq<Step>)
    requires Inv(s) && CanRun(s, steps)
    ensures SafeRun(s, steps) && Inv(After(s, steps))
    decreases |steps|
  {
    Quiet(s);
    if steps != [] {
      StepKeeps(s, steps[0]);
      StepClosesSafely(s, steps[0]);
      EveryRunIsSafe(Next(s, steps[0]), steps[1..]);
    }
  }

  /** An object that failed to activate or is disposed keeps nothing open, and goes live only with all its resources. */
  lemma EndsClosed(s: State, steps: seq<Step>)
    requires Initial(s) && CanRun(s, steps)
    ensures var t := After(s, steps);
            && (t.status.Failed? || t.status.Disposed? ==>
                t.open == {} && t.opening == {} && t.order == [] && t.current.None?)
            && (t.status.Live? ==> t.open == t.deps.Keys)
  {
    InitialInv(s);
    EveryRunIsSafe(s, steps);
    var t := After(s, steps);
    assert t.order != [] ==> t.order[0] in t.open;
    forall r | r in t.open
      ensures r in t.deps
    {
      assert r in t.order;
      var j :| 0 <= j < |t.order| && t.order[j] == r;
      PrefixHolds(t.order, t.deps, j);
    }
  }

  // ─── nothing waits for itself ───

  lemma CreatedBefore(deps: map<nat, set<nat>>, r: nat, d: nat)
    requires Created(deps) && r in deps && d in deps[r]
    ensures d < r && d in deps
  {
  }

  /**
   * A resource not settled yet whose dependencies all are: by the order of creation, one exists if any is unsettled.
   */
  lemma {:induction false} SomeReady(s: State, r: nat) returns (ready: nat)
    requires Inv(s) && r in s.deps && r !in s.open + s.failed
    ensures ready in s.deps && ready !in s.open + s.failed && forall d | d in s.deps[ready] :: d in s.open + s.failed
    decreases r
  {
    if forall d | d in s.deps[r] :: d in s.open + s.failed {
      ready := r;
    } else {
      var d :| d in s.deps[r] && d !in s.open + s.failed;
      CreatedBefore(s.deps, r, d);
      ready := SomeReady(s, d);
    }
  }

  /** An activation is never stuck: some open can begin, be given up or end, or they all did. */
  lemma OpeningGoesOn(s: State) returns (step: Step)
    requires Inv(s) && s.phase.Opening?
    ensures Enabled(s, step) && (step.Start? || step.Skip? || step.Settle? || step.OpensSettled?)
  {
    if r :| r in s.opening {
      step := Settle(r, true);
    } else if r :| r in s.deps && r !in s.open + s.failed {
      var ready := SomeReady(s, r);
      if d :| d in s.deps[ready] && d in s.failed {
        assert d in s.deps[ready] * s.failed;
        step := Skip(ready);
      } else {
        step := Start(ready);
      }
    } else {
      step := OpensSettled(true);
    }
  }

  // ─── the order of opens and closes ───

  /** The resource whose open succeeds in a step. */
  function OpenedBy(s: State, step: Step): seq<nat>
    requires Enabled(s, step)
  {
    if step.Settle? && step.ok && !s.aborted then [step.r] else []
  }

  /** The resource that closes in a step. */
  function ClosedBy(s: State, step: Step): seq<nat>
    requires Enabled(s, step)
  {
    if step.CloseNext? && s.closing[0] in s.open then [s.closing[0]] else []
  }

  /** The resources whose opens succeed in a run, as they do. */
  ghost function OpenedIn(s: State, steps: seq<Step>): seq<nat>
    requires CanRun(s, steps)
    decreases |steps|
  {
    if steps == [] then [] else OpenedBy(s, steps[0]) + OpenedIn(Next(s, steps[0]), steps[1..])
  }

  /** The resources that close in a run, as they do. */
  ghost function ClosedIn(s: State, steps: seq<Step>): seq<nat>
    requires CanRun(s, steps)
    decreases |steps|
  {
    if steps == [] then [] else ClosedBy(s, steps[0]) + ClosedIn(Next(s, steps[0]), steps[1..])
  }

  lemma {:induction false} OpensOnlyWhileOpening(s: State, steps: seq<Step>)
    requires Inv(s) && CanRun(s, steps) && !s.phase.Opening?
    ensures OpenedIn(s, steps) == []
    decreases |steps|
  {
    if steps != [] {
      StepKeeps(s, steps[0]);
      OpensOnlyWhileOpening(Next(s, steps[0]), steps[1..]);
    }
  }

  lemma {:induction false} ReverseJoin(a: seq<nat>, b: seq<nat>)
    ensures Reverse(a + b) == Reverse(b) + Reverse(a)
  {
    if b == [] {
      assert a + b == a;
    } else {
      var n := |b| - 1;
      assert (a + b)[..|a + b| - 1] == a + b[..n];
      ReverseJoin(a, b[..n]);
    }
  }

  /** A step moves the order on: it adds what it opened, or takes off its end what it closed, once nothing opens. */
  ghost predicate MovesOn(s: State, step: Step)
    requires Enabled(s, step)
  {
    && s.order + OpenedBy(s, step) == Next(s, step).order + ClosedBy(s, step)
    && (ClosedBy(s, step) != [] ==> !Next(s, step).phase.Opening?)
    && |ClosedBy(s, step)| <= 1
  }

  lemma CloseMovesOn(s: State)
    requires Inv(s) && Enabled(s, CloseNext)
    ensures MovesOn(s, CloseNext)
  {
    FirstIsLast(s);
    assert s.order == s.order[..|s.order| - 1] + [s.closing[0]];
  }

  lemma OtherMovesOn(s: State, step: Step)
    requires Enabled(s, step) && !step.CloseNext? && !step.Settle?
    ensures Next(s, step).order == s.order && OpenedBy(s, step) == [] && ClosedBy(s, step) == []
  {
  }

  lemma OneStep(s: State, step: Step)
    requires Inv(s) && Enabled(s, step)
    ensures MovesOn(s, step)
  {
    match step
    case CloseNext => CloseMovesOn(s);
    case Settle(r, ok) =>
    case _ => OtherMovesOn(s, step);
  }

  lemma Regroup(before: seq<nat>, began: seq<nat>, after: seq<nat>, closed: seq<nat>, more: seq<nat>, end: seq<nat>,
                later: seq<nat>)
    requires before + began == after + closed && after + more == end + later && (closed == [] || more == [])
    ensures before + (began + more) == end + (later + closed)
  {
    assert before + (began + more) == (before + began) + more;
    if closed == [] {
      assert after + closed == after && later + closed == later;
    } else {
      assert after + more == after;
      assert (before + began) + more == before + began;
      assert end + (later + closed) == (end + later) + closed;
    }
  }

  /** In every run, whatever was opened is still open, in that order, or was closed in reverse, the newest first. */
  lemma {:induction false} ClosesInReverse(s: State, steps: seq<Step>)
    requires Inv(s) && CanRun(s, steps)
    ensures s.order + OpenedIn(s, steps) == After(s, steps).order + Reverse(ClosedIn(s, steps))
    decreases |steps|
  {
    if steps == [] {
      assert Reverse(ClosedIn(s, steps)) == [];
    } else {
      var step, t, rest := steps[0], Next(s, steps[0]), steps[1..];
      StepKeeps(s, step);
      ClosesInReverse(t, rest);
      OneStep(s, step);
      if !t.phase.Opening? {
        OpensOnlyWhileOpening(t, rest);
      }
      var closed := ClosedBy(s, step);
      ReverseJoin(closed, ClosedIn(t, rest));
      ReverseShort(closed);
      Regroup(s.order, OpenedBy(s, step), t.order, closed, OpenedIn(t, rest), After(t, rest).order,
              Reverse(ClosedIn(t, rest)));
    }
  }

  lemma ReverseShort(s: seq<nat>)
    requires |s| <= 1
    ensures Reverse(s) == s
  {
    if s != [] {
      assert s[..0] == [];
    }
  }

  /** Once an object is disposed, all that ever opened closed, in reverse. */
  lemma DisposedInReverse(s: State, steps: seq<Step>)
    requires Initial(s) && CanRun(s, steps) && After(s, steps).status.Disposed?
    ensures OpenedIn(s, steps) == Reverse(ClosedIn(s, steps))
  {
    InitialInv(s);
    ClosesInReverse(s, steps);
    EndsClosed(s, steps);
    assert s.order + OpenedIn(s, steps) == OpenedIn(s, steps);
  }

  // ─── the object itself ───

  class Object {
    const deps: map<nat, set<nat>>
    var status: Status
    var phase: Phase
    var disposal: Disposal
    var aborted: bool
    var opening: set<nat>
    var failed: set<nat>
    var open: set<nat>
    var order: seq<nat>
    var listening: bool
    var invocations: set<nat>
    var started: nat
    var closing: seq<nat>
    var current: Option<nat>

    ghost function Now(): State
      reads this
    {
      State(deps, status, phase, disposal, aborted, opening, failed, open, order, listening, invocations, started,
            closing, current)
    }

    ghost predicate Valid()
      reads this
    {
      Inv(Now())
    }

    constructor (deps: map<nat, set<nat>>)
      requires Created(deps)
      ensures Valid() && Initial(Now()) && this.deps == deps
    {
      this.deps, status, phase, disposal, aborted := deps, Activating, Opening, NotAsked, false;
      opening, failed, open, order := {}, {}, {}, [];
      listening, invocations, started, closing, current := false, {}, 0, [], None;
    }

    /** A resource's open begins. */
    method Start(r: nat)
      requires Valid() && Enabled(Now(), Step.Start(r))
      modifies `opening
      ensures Valid() && Now() == Next(old(Now()), Step.Start(r))
    {
      StepKeeps(Now(), Step.Start(r));
      opening := opening + {r};
    }

    /** An open rejects because that of a dependency did. */
    method Skip(r: nat)
      requires Valid() && Enabled(Now(), Step.Skip(r))
      modifies `failed
      ensures Valid() && Now() == Next(old(Now()), Step.Skip(r))
    {
      StepKeeps(Now(), Step.Skip(r));
      failed := failed + {r};
    }

    /** A resource's open ends: it owns the value, unless the activation was aborted meanwhile. */
    method Settle(r: nat, ok: bool) returns (owned: bool)
      requires Valid() && Enabled(Now(), Step.Settle(r, ok))
      modifies `opening, `failed, `open, `order
      ensures Valid() && Now() == Next(old(Now()), Step.Settle(r, ok)) && owned == (ok && !aborted)
    {
      ghost var was := Now();
      StepKeeps(was, Step.Settle(r, ok));
      opening := opening - {r};
      owned := ok && !aborted;
      if owned {
        open := open + {r};
        order := order + [r];
      } else {
        failed := failed + {r};
      }
      assert Now() == Next(was, Step.Settle(r, ok));
    }

    /** What a failed activation stops at once. */
    method FailActivation()
      modifies `listening, `phase
      ensures Now() == Fail(old(Now()))
    {
      listening := false;
      phase := Failing(invocations);
    }

    method OpensSettled(ok: bool)
      requires Valid() && Enabled(Now(), Step.OpensSettled(ok))
      modifies `listening, `phase
      ensures Valid() && Now() == Next(old(Now()), Step.OpensSettled(ok))
    {
      StepKeeps(Now(), Step.OpensSettled(ok));
      if failed != {} || !ok || aborted {
        FailActivation();
      } else {
        phase := Waiting;
      }
    }

    method Waited(ok: bool)
      requires Valid() && Enabled(Now(), Step.Waited(ok))
      modifies `listening, `phase
      ensures Valid() && Now() == Next(old(Now()), Step.Waited(ok))
    {
      StepKeeps(Now(), Step.Waited(ok));
      if !ok || aborted {
        FailActivation();
      } else {
        phase, listening := Finalizing, true;
      }
    }

    /** The object goes live, unless a listener that started released it. */
    method Finish(ok: bool)
      requires Valid() && Enabled(Now(), Step.Finish(ok))
      modifies `listening, `phase, `status
      ensures Valid() && Now() == Next(old(Now()), Step.Finish(ok))
    {
      StepKeeps(Now(), Step.Finish(ok));
      if !ok || aborted {
        FailActivation();
      } else {
        phase, status := Done, Live;
      }
    }

    method Unwind()
      requires Valid() && Enabled(Now(), Step.Unwind)
      modifies `phase, `closing
      ensures Valid() && Now() == Next(old(Now()), Step.Unwind)
    {
      StepKeeps(Now(), Step.Unwind);
      phase, closing := Unwinding, Reverse(order);
    }

    method Unwound()
      requires Valid() && Enabled(Now(), Step.Unwound)
      modifies `phase, `status
      ensures Valid() && Now() == Next(old(Now()), Step.Unwound)
    {
      StepKeeps(Now(), Step.Unwound);
      phase := Done;
      if status.Activating? {
        status := Failed;
      }
    }

    method BeginInvocation()
      modifies `invocations, `started
      ensures Now() == Begin(old(Now()))
    {
      invocations := invocations + {started};
      started := started + 1;
    }

    /** A call is refused unless the object is live. */
    method Invoke() returns (ok: bool)
      requires Valid()
      modifies `invocations, `started
      ensures Valid() && Now() == Next(old(Now()), Step.Invoke) && (ok <==> status.Live?)
    {
      StepKeeps(Now(), Step.Invoke);
      ok := status.Live?;
      if ok {
        BeginInvocation();
      }
    }

    /** A listener's event is dropped once listeners stopped or the object is being disposed. */
    method Deliver() returns (ok: bool)
      requires Valid()
      modifies `invocations, `started
      ensures Valid() && Now() == Next(old(Now()), Step.Deliver) && (ok ==> disposal.NotAsked?)
    {
      StepKeeps(Now(), Step.Deliver);
      ok := listening && (status.Live? || status.Activating?);
      if ok {
        BeginInvocation();
      }
    }

    method InvocationSettles(i: nat)
      requires Valid() && Enabled(Now(), Step.InvocationSettles(i))
      modifies `invocations
      ensures Valid() && Now() == Next(old(Now()), Step.InvocationSettles(i))
    {
      StepKeeps(Now(), Step.InvocationSettles(i));
      invocations := invocations - {i};
    }

    /** Disposal is asked for: at any time, once. */
    method Dispose() returns (first: bool)
      requires Valid()
      modifies `status, `aborted, `disposal
      ensures Valid() && (first <==> old(disposal).NotAsked?)
      ensures Now() == if first then Next(old(Now()), Step.Dispose) else old(Now())
    {
      first := disposal.NotAsked?;
      if first {
        StepKeeps(Now(), Step.Dispose);
        status, aborted, disposal := Disposing, true, Requested;
      }
    }

    method Stop()
      requires Valid() && Enabled(Now(), Step.Stop)
      modifies `listening, `disposal
      ensures Valid() && Now() == Next(old(Now()), Step.Stop)
    {
      StepKeeps(Now(), Step.Stop);
      listening, disposal := false, Settling(invocations);
    }

    method BeginClose()
      requires Valid() && Enabled(Now(), Step.BeginClose)
      modifies `disposal, `closing
      ensures Valid() && Now() == Next(old(Now()), Step.BeginClose)
    {
      StepKeeps(Now(), Step.BeginClose);
      disposal, closing := Closing, Reverse(order);
    }

    /** The next resource closes: it leaves the order before its close runs. */
    method CloseNext()
      requires Valid() && Enabled(Now(), Step.CloseNext)
      modifies `closing, `open, `order, `current
      ensures Valid() && Now() == Next(old(Now()), Step.CloseNext)
    {
      ghost var was := Now();
      StepKeeps(was, Step.CloseNext);
      var r := closing[0];
      closing := closing[1..];
      if r in open {
        open, order, current := open - {r}, Without(order, r), Some(r);
      }
      assert Now() == CloseFirst(was);
    }

    method CloseSettles()
      requires Valid() && Enabled(Now(), Step.CloseSettles)
      modifies `current
      ensures Valid() && Now() == Next(old(Now()), Step.CloseSettles)
    {
      StepKeeps(Now(), Step.CloseSettles);
      current := None;
    }

    method Disposed()
      requires Valid() && Enabled(Now(), Step.Disposed)
      modifies `status, `disposal
      ensures Valid() && Now() == Next(old(Now()), Step.Disposed)
    {
      StepKeeps(Now(), Step.Disposed);
      status, disposal := Status.Disposed, Ended;
    }
  }
}
