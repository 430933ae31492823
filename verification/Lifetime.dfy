/**
 * The resources of one object, from its activation to its disposal: opened concurrently, dependencies first, and closed
 * in reverse. Opens, failures, calls, listeners and the request to dispose the object interleave freely. A resource is
 * known by its creation number; its dependencies were created before it.
 */
module Lifetime {
  import opened Lists

  /** Every resource comes after its dependencies, once. */
  predicate Ordered(order: seq<nat>, deps: map<nat, set<nat>>) {
    order == []
    || (var init, last := order[..|order| - 1], order[|order| - 1];
        Ordered(init, deps) && last !in init && last in deps && forall d | d in deps[last] :: d in init)
  }

  /** No resource of `order` depends on `r`. */
  predicate Unneeded(order: seq<nat>, deps: map<nat, set<nat>>, r: nat) {
    forall x | x in order && x in deps :: r !in deps[x]
  }

  lemma OrderedMore(order: seq<nat>, deps: map<nat, set<nat>>, r: nat)
    requires Ordered(order, deps) && r !in order && r in deps && forall d | d in deps[r] :: d in order
    ensures Ordered(order + [r], deps)
  {
    assert (order + [r])[..|order|] == order;
  }

  /** In a prefix of an order, nothing depends on what comes after it. */
  lemma {:induction false} LaterUnneeded(order: seq<nat>, deps: map<nat, set<nat>>, j: nat, i: nat)
    requires Ordered(order, deps) && j <= i < |order|
    ensures order[j] in deps && order[i] !in deps[order[j]]
    ensures j < i ==> order[j] != order[i]
  {
    var n := |order| - 1;
    var init := order[..n];
    if i == n {
      if j < n {
        PrefixHolds(init, deps, j);
        assert init[j] in init;
      }
    } else {
      LaterUnneeded(init, deps, j, i);
    }
  }

  lemma {:induction false} PrefixHolds(order: seq<nat>, deps: map<nat, set<nat>>, j: nat)
    requires Ordered(order, deps) && j < |order|
    ensures order[j] in deps && forall d | d in deps[order[j]] :: d in order
  {
    var n := |order| - 1;
    assert order == order[..n] + [order[n]];
    if j < n {
      PrefixHolds(order[..n], deps, j);
    }
  }

  /** The steps of an activation: it opens, waits for what it reads, is installed, or fails and unwinds. */
  datatype Phase = Opening | Waiting | Finalizing | Failing(awaited: set<nat>) | Unwinding | Done

  /** The steps of a disposal: it lets an activation end, lets invocations settle, and closes. */
  datatype Disposal = NotAsked | Requested | Settling(awaited: set<nat>) | Closing | Ended

  datatype Status = Activating | Live | Failed | Disposing | Disposed

  datatype State = State(
    deps: map<nat, set<nat>>,           // the resources the factory created, with those they depend on
    status: Status,
    phase: Phase,
    disposal: Disposal,
    aborted: bool,                      // the signal of the activation
    opening: set<nat>,
    failed: set<nat>,                   // their open was rejected, or that of a dependency
    open: set<nat>,
    order: seq<nat>,                    // as their opens succeeded
    listening: bool,                    // listeners are started
    invocations: set<nat>,              // running calls and listeners
    started: nat,
    closing: seq<nat>,                  // what is left of the closes listed when closing began
    current: Option<nat>)               // the resource whose close runs

  datatype Step =
    | Start(r: nat)                     // a resource whose dependencies are open begins to open
    | Skip(r: nat)                      // the open of a dependency was rejected
    | Settle(r: nat, ok: bool)          // an open ends
    | OpensSettled(ok: bool)            // all of them, and the references waited for, are or failed
    | Waited(ok: bool)                  // values were waited for and read; what follows is synchronous
    | Finish(ok: bool)                  // registrations, implementations and listeners are in place, or one failed
    | Unwind                            // a failed activation begins to close
    | Unwound
    | Invoke                            // a call
    | Deliver                           // a listener's event
    | InvocationSettles(i: nat)
    | Dispose
    | Stop                              // the disposal goes on, once no activation runs
    | BeginClose
    | CloseNext
    | CloseSettles
    | Disposed

  function Reverse(s: seq<nat>): seq<nat> {
    if s == [] then [] else [s[|s| - 1]] + Reverse(s[..|s| - 1])
  }

  /** Resources are created after those they depend on. */
  ghost predicate Created(deps: map<nat, set<nat>>) {
    forall r, d | r in deps && d in deps[r] :: d < r && d in deps
  }

  ghost predicate Initial(s: State) {
    && Created(s.deps) && s.status.Activating? && s.phase.Opening? && s.disposal.NotAsked? && !s.aborted && !s.listening
    && s.opening == {} && s.failed == {} && s.open == {} && s.order == [] && s.invocations == {} && s.started == 0
    && s.closing == [] && s.current.None?
  }

  predicate Enabled(s: State, step: Step) {
    match step
    case Start(r) =>
      s.phase.Opening? && r in s.deps && r !in s.opening + s.open + s.failed && s.deps[r] <= s.open
    case Skip(r) =>
      s.phase.Opening? && r in s.deps && r !in s.opening + s.open + s.failed && s.deps[r] * s.failed != {}
    case Settle(r, _) => r in s.opening
    case OpensSettled(_) => s.phase.Opening? && s.opening == {} && s.deps.Keys <= s.open + s.failed
    case Waited(_) => s.phase.Waiting?
    case Finish(_) => s.phase.Finalizing?
    case Unwind => s.phase.Failing? && s.phase.awaited !! s.invocations
    case Unwound => s.phase.Unwinding? && s.closing == [] && s.current.None?
    case Invoke => true
    case Deliver => true
    case InvocationSettles(i) => i in s.invocations
    case Dispose => s.disposal.NotAsked?
    case Stop => s.disposal.Requested? && s.phase.Done?
    case BeginClose => s.disposal.Settling? && s.disposal.awaited !! s.invocations
    case CloseNext => s.closing != [] && s.current.None?
    case CloseSettles => s.current.Some?
    case Disposed => s.disposal.Closing? && s.closing == [] && s.current.None?
  }

  /** An activation fails: its listeners stop, and it waits for what they invoked. */
  function Fail(s: State): State {
    s.(listening := false, phase := Failing(s.invocations))
  }

  function Begin(s: State): State {
    s.(invocations := s.invocations + {s.started}, started := s.started + 1)
  }

  /** The next close of the list: a resource that is not open any more is passed over. */
  function CloseFirst(s: State): State
    requires s.closing != []
  {
    var r, s' := s.closing[0], s.(closing := s.closing[1..]);
    if r in s.open then s'.(open := s.open - {r}, order := Without(s.order, r), current := Some(r)) else s'
  }

  function Next(s: State, step: Step): State
    requires Enabled(s, step)
  {
    match step
    case Start(r) => s.(opening := s.opening + {r})
    case Skip(r) => s.(failed := s.failed + {r})
    case Settle(r, ok) =>
      // A value that comes after an abort is closed at once, and owned by nobody.
      if ok && !s.aborted then s.(opening := s.opening - {r}, open := s.open + {r}, order := s.order + [r])
      else s.(opening := s.opening - {r}, failed := s.failed + {r})
    case OpensSettled(ok) => if s.failed != {} || !ok || s.aborted then Fail(s) else s.(phase := Waiting)
    case Waited(ok) => if !ok || s.aborted then Fail(s) else s.(phase := Finalizing, listening := true)
    case Finish(ok) => if !ok || s.aborted then Fail(s) else s.(phase := Done, status := Live)
    case Unwind => s.(phase := Unwinding, closing := Reverse(s.order))
    case Unwound => s.(phase := Done, status := if s.status.Activating? then Failed else s.status)
    case Invoke => if s.status.Live? then Begin(s) else s
    case Deliver => if s.listening && (s.status.Live? || s.status.Activating?) then Begin(s) else s
    case InvocationSettles(i) => s.(invocations := s.invocations - {i})
    case Dispose => s.(status := Disposing, aborted := true, disposal := Requested)
    case Stop => s.(listening := false, disposal := Settling(s.invocations))
    case BeginClose => s.(disposal := Closing, closing := Reverse(s.order))
    case CloseNext => CloseFirst(s)
    case CloseSettles => s.(current := None)
    case Disposed => s.(status := Status.Disposed, disposal := Ended)
  }

  // ─── what every step keeps ───

  /** Exactly the open resources are in the order, once each, after what they depend on. */
  ghost predicate OrderedOpen(s: State) {
    Ordered(s.order, s.deps) && forall r :: r in s.order <==> r in s.open
  }

  /** Resources open only while the activation opens them, after what they depend on. */
  ghost predicate Opens(s: State) {
    && Created(s.deps) && s.opening !! s.open && s.opening !! s.failed && s.open !! s.failed
       && s.opening + s.failed <= s.deps.Keys
    && (!s.phase.Opening? ==> s.opening == {})
    && (s.phase.Waiting? || s.phase.Finalizing? || s.status.Live? ==> s.deps.Keys <= s.open)
    && (forall r | r in s.opening :: s.deps[r] <= s.open)
  }

  /** While anything closes, the closes left are the reverse of the order. */
  ghost predicate Closes(s: State) {
    && (if s.phase.Unwinding? || s.disposal.Closing? then s.closing == Reverse(s.order)
        else s.closing == [] && s.current.None?)
    && (s.current.Some? ==> s.current.value !in s.open)
    && (s.phase.Unwinding? ==> s.invocations == {})
    && (s.disposal.Closing? || s.disposal.Ended? ==> s.invocations == {})
    && (s.disposal.Ended? || s.status.Failed? ==> s.open == {})
  }

  /** Invocations begin only while nothing waits for them to be over. */
  ghost predicate Phases(s: State) {
    && (s.disposal.NotAsked? <==> s.status.Activating? || s.status.Live? || s.status.Failed?)
    && (s.disposal.Ended? <==> s.status.Disposed?) && (s.disposal.NotAsked? || s.aborted)
    && (s.status.Live? || s.status.Failed? ==> s.phase.Done?) && (s.status.Activating? ==> !s.phase.Done?)
    && (s.disposal.Settling? || s.disposal.Closing? || s.disposal.Ended? ==> s.phase.Done? && !s.listening)
    && (s.phase.Opening? || s.phase.Waiting? ==> !s.listening && s.invocations == {})
    && (s.phase.Failing? ==> !s.listening && s.invocations <= s.phase.awaited)
    && (s.phase.Unwinding? || s.status.Failed? ==> !s.listening)
    && (s.disposal.Settling? ==> s.invocations <= s.disposal.awaited)
  }

  ghost predicate Inv(s: State) {
    OrderedOpen(s) && Opens(s) && Closes(s) && Phases(s)
  }

  lemma InitialInv(s: State)
    requires Initial(s)
    ensures Inv(s)
  {
  }

  lemma SettleKeeps(s: State, r: nat, ok: bool)
    requires Inv(s) && Enabled(s, Settle(r, ok))
    ensures Inv(Next(s, Settle(r, ok)))
  {
    OrderedMore(s.order, s.deps, r);
  }

  /** The first close listed is of the resource opened last: no open resource depends on it. */
  lemma FirstIsLast(s: State)
    requires Inv(s) && Enabled(s, CloseNext)
    ensures s.order != [] && s.closing[0] == s.order[|s.order| - 1] && s.closing[0] in s.open
    ensures s.closing[1..] == Reverse(s.order[..|s.order| - 1])
    ensures Without(s.order, s.closing[0]) == s.order[..|s.order| - 1]
    ensures Unneeded(s.order, s.deps, s.closing[0])
  {
    var n := |s.order| - 1;
    var r := s.order[n];
    assert r in s.order && s.order == s.order[..n] + [r];
    Unaffected(s.order[..n], r);
    forall x | x in s.order && x in s.deps
      ensures r !in s.deps[x]
    {
      var j :| 0 <= j < |s.order| && s.order[j] == x;
      LaterUnneeded(s.order, s.deps, j, n);
    }
  }

  lemma CloseNextKeeps(s: State)
    requires Inv(s) && Enabled(s, CloseNext)
    ensures Inv(Next(s, CloseNext))
  {
    FirstIsLast(s);
    WithoutMembers(s.order, s.closing[0]);
  }

  /** Nothing is left open once the closes listed are over. */
  lemma AllClosed(s: State)
    requires Inv(s) && (s.phase.Unwinding? || s.disposal.Closing?) && s.closing == []
    ensures s.open == {}
  {
    assert s.order == [];
  }

  /** The steps of the activation as a whole. */
  lemma ActivationKeeps(s: State, step: Step)
    requires Inv(s) && Enabled(s, step)
    requires step.OpensSettled? || step.Waited? || step.Finish? || step.Unwind? || step.Unwound?
    ensures Inv(Next(s, step))
  {
    match step
    case OpensSettled(ok) =>
    case Waited(ok) =>
    case Finish(ok) =>
    case Unwind =>
    case Unwound => AllClosed(s);
  }

  /** The steps of the disposal as a whole. */
  lemma DisposalKeeps(s: State, step: Step)
    requires Inv(s) && Enabled(s, step)
    requires step.Dispose? || step.Stop? || step.BeginClose? || step.CloseSettles? || step.Disposed?
    ensures Inv(Next(s, step))
  {
    match step
    case Dispose =>
    case Stop =>
    case BeginClose =>
    case CloseSettles =>
    case Disposed => AllClosed(s);
  }

  lemma InvocationKeeps(s: State, step: Step)
    requires Inv(s) && Enabled(s, step) && (step.Invoke? || step.Deliver? || step.InvocationSettles?)
    ensures Inv(Next(s, step))
  {
  }

  lemma OpeningKeeps(s: State, step: Step)
    requires Inv(s) && Enabled(s, step) && (step.Start? || step.Skip?)
    ensures Inv(Next(s, step))
  {
  }

  lemma StepKeeps(s: State, step: Step)
    requires Inv(s) && Enabled(s, step)
    ensures Inv(Next(s, step))
  {
    if step.Settle? {
      SettleKeeps(s, step.r, step.ok);
    } else if step.CloseNext? {
      CloseNextKeeps(s);
    } else if step.Start? || step.Skip? {
      OpeningKeeps(s, step);
    } else if step.Invoke? || step.Deliver? || step.InvocationSettles? {
      InvocationKeeps(s, step);
    } else if step.Dispose? || step.Stop? || step.BeginClose? || step.CloseSettles? || step.Disposed? {
      DisposalKeeps(s, step);
    } else {
      ActivationKeeps(s, step);
    }
  }
}
