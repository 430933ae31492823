/**
 * What every run of the `PublishQueue` promises its observers, what a listener function sees that subscribes again, and
 * the queue and the fan-out as they are updated in place.
 */
module Publish {
  import opened Lists
  import opened PublishQueue

  ghost predicate CanRun(s: State, steps: seq<Step>)
    decreases |steps|
  {
    steps == [] || (Enabled(s, steps[0]) && CanRun(Next(s, steps[0]), steps[1..]))
  }

  ghost function After(s: State, steps: seq<Step>): State
    requires CanRun(s, steps)
    decreases |steps|
  {
    if steps == [] then s else After(Next(s, steps[0]), steps[1..])
  }

  /** No listener function is subscribed while a revision is on its way to it. */
  ghost predicate NoClash(s: State, steps: seq<Step>)
    requires CanRun(s, steps)
    decreases |steps|
  {
    steps == [] || (!Clashes(s, steps[0]) && NoClash(Next(s, steps[0]), steps[1..]))
  }

  /**
   * In every run, however listeners write re-entrantly: every observer saw its snapshot and then each later revision
   * once, in order; and as soon as all code has returned, it saw the source's last one.
   */
  lemma {:induction false} EveryRevisionOnce(s: State, steps: seq<Step>)
    requires Inv(s) && CanRun(s, steps) && NoClash(s, steps)
    ensures var s' := After(s, steps);
            && Inv(s') && forall o | o in s'.observers ::
                 && o in s'.seen && s'.seen[o] != [] && Consecutive(s'.seen[o])
                 && (s'.stack == [] ==> s'.seen[o][|s'.seen[o]| - 1] == Revision(s', o.source))
    decreases |steps|
  {
    if steps == [] {
      forall o | o in s.observers
        ensures o in s.seen && s.seen[o] != [] && Consecutive(s.seen[o])
        ensures s.stack == [] ==> s.seen[o][|s.seen[o]| - 1] == Revision(s, o.source)
      {
        assert Exact(s, o);
      }
    } else {
      StepKeeps(s, steps[0]);
      EveryRevisionOnce(Next(s, steps[0]), steps[1..]);
    }
  }

  lemma InitialInv()
    ensures Inv(START)
  {
  }

  // ─── the same listener function subscribed again ───

  /** The revisions the queue will bring an observer, in order. */
  function Owed(queue: seq<Task>, o: Observer): seq<nat> {
    if queue == [] then [] else (if Addresses(queue[0], o) then [queue[0].revision] else []) + Owed(queue[1..], o)
  }

  /** The revisions after `from`, up to `to`. */
  function Range(from: nat, to: nat): seq<nat> {
    if to <= from then [] else Range(from, to - 1) + [to]
  }

  /** Observers are listed once, and under their source. */
  ghost predicate Basic(s: State) {
    Distinct(s.observers) && forall t | t in s.queue :: Distinct(t.to) && forall o | o in t.to :: o.source == t.source
  }

  lemma {:induction false} OwedMore(queue: seq<Task>, task: Task, o: Observer)
    ensures Owed(queue + [task], o) == Owed(queue, o) + if Addresses(task, o) then [task.revision] else []
  {
    if queue == [] {
      assert queue + [task] == [task] && [task][1..] == queue;
    } else {
      assert (queue + [task])[1..] == queue[1..] + [task];
      OwedMore(queue[1..], task, o);
    }
  }

  lemma {:induction false} RangeJoin(a: nat, b: nat, c: nat)
    requires a <= b <= c
    ensures Range(a, b) + Range(b, c) == Range(a, c)
  {
    if b == c {
      assert Range(b, c) == [];
    } else {
      RangeJoin(a, b, c - 1);
    }
  }

  /** The first observer of the head is taken off: nothing changes for the others. */
  lemma OwedAfterHead(queue: seq<Task>, o: Observer)
    requires queue != [] && queue[0].to != [] && Distinct(queue[0].to)
    requires queue[0].to[0].source == queue[0].source
    ensures var rest := [queue[0].(to := queue[0].to[1..])] + queue[1..];
            Owed(queue, o) == if o == queue[0].to[0] then [queue[0].revision] + Owed(rest, o) else Owed(rest, o)
  {
    var head := queue[0];
    var rest := [head.(to := head.to[1..])] + queue[1..];
    DistinctRest(head.to);
    assert head.to == [head.to[0]] + head.to[1..];
    assert rest[1..] == queue[1..];
  }

  lemma DeliverBasic(s: State)
    requires Basic(s) && Enabled(s, Deliver)
    ensures Basic(Next(s, Deliver))
  {
    if s.queue != [] {
      var head := s.queue[0];
      assert head in s.queue;
      if head.to != [] {
        DistinctRest(head.to);
        assert forall o | o in head.to[1..] :: o in head.to;
      }
    }
  }

  lemma StepBasic(s: State, step: Step)
    requires Basic(s) && Enabled(s, step)
    ensures Basic(Next(s, step))
  {
    match step
    case Write(source) => OfMembers(s.observers, source);
    case Subscribe(o) =>
      if o !in s.observers {
        DistinctMore(s.observers, o);
      }
    case Unsubscribe(o) => WithoutDistinct(s.observers, o);
    case Deliver => DeliverBasic(s);
    case _ =>
  }

  /** The step subscribes or unsubscribes the observer. */
  predicate Concerns(step: Step, o: Observer) {
    (step.Subscribe? || step.Unsubscribe?) && step.observer == o
  }

  lemma StaysListed(s: State, step: Step, o: Observer)
    requires Enabled(s, step) && !Concerns(step, o) && o in s.observers
    ensures o in Next(s, step).observers
  {
    if step.Unsubscribe? {
      WithoutMembers(s.observers, step.observer);
    }
  }

  /** From `s` to `t`, what an observer saw and what the queue owes it grew by exactly the revisions written. */
  ghost predicate Grows(s: State, t: State, o: Observer) {
    && Revision(s, o.source) <= Revision(t, o.source)
    && Seen(t, o) + Owed(t.queue, o) ==
       (Seen(s, o) + Owed(s.queue, o)) + Range(Revision(s, o.source), Revision(t, o.source))
  }

  lemma SameGrows(s: State, t: State, o: Observer)
    requires t.revisions == s.revisions && Seen(t, o) + Owed(t.queue, o) == Seen(s, o) + Owed(s.queue, o)
    ensures Grows(s, t, o)
  {
    assert Range(Revision(s, o.source), Revision(s, o.source)) == [];
  }

  lemma GrowsOn(s: State, t: State, u: State, o: Observer)
    requires Grows(s, t, o) && Grows(t, u, o)
    ensures Grows(s, u, o)
  {
    var a, b, c := Revision(s, o.source), Revision(t, o.source), Revision(u, o.source);
    var had := Seen(s, o) + Owed(s.queue, o);
    RangeJoin(a, b, c);
    assert (had + Range(a, b)) + Range(b, c) == had + (Range(a, b) + Range(b, c));
  }

  lemma WriteOwes(s: State, source: nat, o: Observer)
    requires Basic(s) && CodeRuns(s) && o in s.observers
    ensures Grows(s, Next(s, Write(source)), o)
  {
    var t := Next(s, Write(source));
    var n := Revision(s, source) + 1;
    var task := Task(source, n, Of(s.observers, source));
    OfMembers(s.observers, source);
    OwedMore(s.queue, task, o);
    if source == o.source {
      OneRevision(Seen(s, o), Owed(s.queue, o), n);
    } else {
      assert Owed(t.queue, o) == Owed(s.queue, o);
      SameRevision(s, t, o);
    }
  }

  lemma OneRevision(seen: seq<nat>, owed: seq<nat>, n: nat)
    requires n > 0
    ensures seen + (owed + [n]) == (seen + owed) + Range(n - 1, n)
  {
    assert Range(n - 1, n) == [] + [n];
  }

  lemma SameRevision(s: State, t: State, o: Observer)
    requires Revision(t, o.source) == Revision(s, o.source) && Seen(t, o) == Seen(s, o)
             && Owed(t.queue, o) == Owed(s.queue, o)
    ensures Grows(s, t, o)
  {
    assert Range(Revision(s, o.source), Revision(s, o.source)) == [];
  }

  /** A task without observers left goes. */
  lemma ShiftOwes(s: State, o: Observer)
    requires Enabled(s, Deliver) && (s.queue == [] || s.queue[0].to == [])
    ensures var t := Next(s, Deliver);
            t.revisions == s.revisions && t.seen == s.seen && Owed(t.queue, o) == Owed(s.queue, o)
  {
  }

  /** The head is handed to its first observer: what that one was owed, it saw. */
  lemma HandOwes(s: State, o: Observer)
    requires Enabled(s, Deliver) && o in s.observers && s.queue != [] && s.queue[0].to != []
    requires Distinct(s.queue[0].to) && s.queue[0].to[0].source == s.queue[0].source
    ensures var t := Next(s, Deliver);
            t.revisions == s.revisions && Seen(t, o) + Owed(t.queue, o) == Seen(s, o) + Owed(s.queue, o)
  {
    var head := s.queue[0];
    var rest := Owed([head.(to := head.to[1..])] + s.queue[1..], o);
    OwedAfterHead(s.queue, o);
    Moved(Seen(s, o), head.revision, rest);
  }

  lemma Moved(seen: seq<nat>, n: nat, owed: seq<nat>)
    ensures (seen + [n]) + owed == seen + ([n] + owed)
  {
  }

  lemma DeliverOwes(s: State, o: Observer)
    requires Basic(s) && Enabled(s, Deliver) && o in s.observers
    ensures Grows(s, Next(s, Deliver), o)
  {
    if s.queue == [] || s.queue[0].to == [] {
      ShiftOwes(s, o);
    } else {
      assert s.queue[0] in s.queue && s.queue[0].to[0] in s.queue[0].to;
      HandOwes(s, o);
    }
    SameGrows(s, Next(s, Deliver), o);
  }

  lemma StepOwes(s: State, step: Step, o: Observer)
    requires Basic(s) && Enabled(s, step) && !Concerns(step, o) && o in s.observers
    ensures Grows(s, Next(s, step), o)
  {
    match step
    case Write(source) => WriteOwes(s, source, o);
    case Deliver => DeliverOwes(s, o);
    case _ => SameRevision(s, Next(s, step), o);
  }

  ghost predicate Undisturbed(steps: seq<Step>, o: Observer) {
    forall step | step in steps :: !Concerns(step, o)
  }

  /**
   * Over every run in which an observer stays subscribed: it is told what it was owed, and then what is written, once
   * each.
   */
  lemma {:induction false} RunOwes(s: State, steps: seq<Step>, o: Observer)
    requires Basic(s) && CanRun(s, steps) && o in s.observers && Undisturbed(steps, o)
    ensures Grows(s, After(s, steps), o)
    decreases |steps|
  {
    if steps == [] {
      SameRevision(s, s, o);
    } else {
      var step, rest := steps[0], steps[1..];
      assert step in steps && forall other | other in rest :: other in steps;
      StepBasic(s, step);
      StaysListed(s, step, o);
      StepOwes(s, step, o);
      RunOwes(Next(s, step), rest, o);
      GrowsOn(s, Next(s, step), After(s, steps), o);
    }
  }

  lemma {:induction false} TidyRun(s: State, steps: seq<Step>)
    requires Tidy(s) && CanRun(s, steps)
    ensures Tidy(After(s, steps))
    decreases |steps|
  {
    if steps != [] {
      TidyKeeps(s, steps[0]);
      TidyRun(Next(s, steps[0]), steps[1..]);
    }
  }

  lemma {:induction false} OwedListed(queue: seq<Task>, o: Observer)
    ensures Owed(queue, o) == [] <==> forall t | t in queue :: !Addresses(t, o)
    ensures forall n | n in Owed(queue, o) :: exists t | t in queue :: Addresses(t, o) && t.revision == n
  {
    if queue != [] {
      assert queue == [queue[0]] + queue[1..];
      OwedListed(queue[1..], o);
    }
  }

  /**
   * What a subscription receives until all code has returned: its snapshot, then the revisions that were on their way
   * to the same listener function when it subscribed, none of them new, then every later one.
   */
  lemma SubscriptionReceives(s: State, o: Observer, steps: seq<Step>)
    requires Inv(s) && CodeRuns(s) && CanRun(Next(s, Subscribe(o)), steps) && Undisturbed(steps, o)
    requires After(Next(s, Subscribe(o)), steps).stack == []
    ensures var t, n := After(Next(s, Subscribe(o)), steps), Revision(s, o.source);
            && Seen(t, o) == [n] + Owed(s.queue, o) + Range(n, Revision(t, o.source))
            && forall r | r in Owed(s.queue, o) :: r <= n
  {
    var t := After(Next(s, Subscribe(o)), steps);
    StepBasic(s, Subscribe(o));
    RunOwes(Next(s, Subscribe(o)), steps, o);
    TidyKeeps(s, Subscribe(o));
    TidyRun(Next(s, Subscribe(o)), steps);
    assert t.queue == [] && Seen(t, o) + Owed(t.queue, o) == Seen(t, o);
    OwedListed(s.queue, o);
  }

  lemma {:induction false} RangeConsecutive(from: nat, to: nat)
    ensures Consecutive([from] + Range(from, to)) && |Range(from, to)| == if to <= from then 0 else to - from
  {
    if to > from {
      RangeConsecutive(from, to - 1);
      assert [from] + Range(from, to) == ([from] + Range(from, to - 1)) + [to];
    }
  }

  /**
   * Exactly which subscriptions see their snapshot and then every later revision once, in order: those made when no
   * revision is on its way to the same listener function.
   */
  lemma SubscriptionExactIff(s: State, o: Observer, steps: seq<Step>)
    requires Inv(s) && CodeRuns(s) && CanRun(Next(s, Subscribe(o)), steps) && Undisturbed(steps, o)
    requires After(Next(s, Subscribe(o)), steps).stack == []
    ensures Consecutive(Seen(After(Next(s, Subscribe(o)), steps), o)) <==> !Listed(s, o)
  {
    var t, n := After(Next(s, Subscribe(o)), steps), Revision(s, o.source);
    SubscriptionReceives(s, o, steps);
    OwedListed(s.queue, o);
    RangeConsecutive(n, Revision(t, o.source));
    var owed := Owed(s.queue, o);
    if owed == [] {
      assert [n] + owed + Range(n, Revision(t, o.source)) == [n] + Range(n, Revision(t, o.source));
    } else {
      assert Seen(t, o)[1] == owed[0] && owed[0] in owed;
    }
  }

  /** A run begins with a step and goes on from the state it leads to. */
  lemma Taken(s: State, step: Step, t: State, rest: seq<Step>)
    requires Enabled(s, step) && Next(s, step) == t && CanRun(t, rest)
    ensures CanRun(s, [step] + rest) && After(s, [step] + rest) == After(t, rest)
  {
    assert ([step] + rest)[1..] == rest;
  }

  const LISTENER := Observer(0, 0)

  /** Nothing was written or subscribed yet. */
  const START := State(map[], [], map[], [], 0, false, [])

  /** A change is held: the listener saw revision 0, and revision 1 is on its way to it. */
  const HELD := State(map[0 := 1], [LISTENER], map[LISTENER := [0]], [Task(0, 1, [LISTENER])], 1, false, [Holding])

  /** The listener function unsubscribes, and subscribes again. */
  lemma Resubscribed(t: State, rest: seq<Step>)
    requires t == HELD.(seen := map[LISTENER := [1]]) && CanRun(t, rest)
    ensures var steps := [Unsubscribe(LISTENER)] + ([Subscribe(LISTENER)] + ([Return] + rest));
            CanRun(HELD, steps) && After(HELD, steps) == After(t, rest)
  {
    var s1 := HELD.(observers := []);
    var s2 := HELD.(seen := map[LISTENER := [1]], stack := [Holding, Listening]);
    assert [LISTENER][..0] == [];
    assert Without([LISTENER][..0], LISTENER) == [];
    assert Without([LISTENER], LISTENER) == [];
    assert [Holding, Listening][..1] == [Holding];
    Taken(s2, Return, t, rest);
    Taken(s1, Subscribe(LISTENER), s2, [Return] + rest);
    Taken(HELD, Unsubscribe(LISTENER), s1, [Subscribe(LISTENER)] + ([Return] + rest));
  }

  lemma Delivered(s: State)
    requires s == HELD.(seen := map[LISTENER := [1]])
    ensures CanRun(s, [Release] + [Deliver]) && Seen(After(s, [Release] + [Deliver]), LISTENER) == [1, 1]
  {
    var noFrames: seq<Frame> := [];
    var s1 := s.(held := 0, draining := true, stack := [Draining]);
    var s2 := s1.(queue := [Task(0, 1, [])], seen := map[LISTENER := [1, 1]], stack := [Draining, Listening]);
    assert [Holding][..0] == noFrames;
    assert [LISTENER][1..] == [] && s1.queue[0] == Task(0, 1, [LISTENER]);
    assert [Task(0, 1, [])] + s1.queue[1..] == s2.queue;
    assert Seen(s1, LISTENER) + [1] == [1, 1];
    assert s1.seen[LISTENER := [1, 1]] == s2.seen;
    assert s1.stack + [Listening] == s2.stack;
    Taken(s1, Deliver, s2, []);
    Taken(s, Release, s1, [Deliver]);
  }

  /** A listener subscribes; then, in a held change, its source is written. */
  lemma HeldReached(rest: seq<Step>)
    requires CanRun(HELD, rest)
    ensures var steps := [Subscribe(LISTENER)] + ([Return] + ([Hold] + ([Write(0)] + rest)));
            CanRun(START, steps) && After(START, steps) == After(HELD, rest)
  {
    var noFrames: seq<Frame> := [];
    var s1 := START.(observers := [LISTENER], seen := map[LISTENER := [0]], stack := [Listening]);
    var s2 := s1.(stack := []);
    var s3 := s2.(held := 1, stack := [Holding]);
    assert [Listening][..0] == noFrames && [LISTENER][..0] == [];
    assert Of([LISTENER][..0], 0) == [] && Of([LISTENER], 0) == [LISTENER];
    assert Next(s3, Write(0)) == HELD;
    Taken(s3, Write(0), HELD, rest);
    Taken(s2, Hold, s3, [Write(0)] + rest);
    Taken(s1, Return, s2, [Hold] + ([Write(0)] + rest));
    Taken(START, Subscribe(LISTENER), s1, [Return] + ([Hold] + ([Write(0)] + rest)));
  }

  /**
   * A listener function that unsubscribes and subscribes again in a held change is notified of what it just saw: a run
   * from the start in which it sees revision 1 twice.
   */
  lemma SeenTwice()
    ensures var again := [Unsubscribe(LISTENER)] + ([Subscribe(LISTENER)] + ([Return] + ([Release] + [Deliver])));
            var steps := [Subscribe(LISTENER)] + ([Return] + ([Hold] + ([Write(0)] + again)));
            CanRun(START, steps) && Seen(After(START, steps), LISTENER) == [1, 1]
  {
    var s := HELD.(seen := map[LISTENER := [1]]);
    Delivered(s);
    Resubscribed(s, [Release] + [Deliver]);
    HeldReached([Unsubscribe(LISTENER)] + ([Subscribe(LISTENER)] + ([Return] + ([Release] + [Deliver]))));
  }

  // ─── the queue and the fan-out, as they are updated in place ───

  /** A bound on the turns left of the loop. */
  function Deliveries(queue: seq<Task>): nat {
    if queue == [] then 0 else 1 + |queue[0].to| + Deliveries(queue[1..])
  }

  lemma DeliveryShrinks(queue: seq<Task>)
    ensures queue != [] ==> Deliveries(queue[1..]) < Deliveries(queue)
    ensures queue != [] && queue[0].to != [] ==>
              Deliveries([queue[0].(to := queue[0].to[1..])] + queue[1..]) < Deliveries(queue)
  {
    if queue != [] && queue[0].to != [] {
      assert ([queue[0].(to := queue[0].to[1..])] + queue[1..])[1..] == queue[1..];
    }
  }

  class Publications {
    var revisions: map<nat, nat>
    var observers: seq<Observer>
    var queue: seq<Task>
    var held: nat
    var draining: bool
    ghost var seen: map<Observer, seq<nat>>
    ghost var stack: seq<Frame>

    constructor ()
      ensures Now() == START
    {
      revisions, observers, queue, held, draining, seen, stack := map[], [], [], 0, false, map[], [];
    }

    ghost function Now(): State
      reads this
    {
      State(revisions, observers, seen, queue, held, draining, stack)
    }

    /** Starts the loop that `Deliver` goes on with, unless it runs already or publications are held. */
    method StartDrain()
      modifies `draining, `stack
      ensures Now() == Drain(old(Now()))
    {
      if draining || held > 0 {
        return;
      }
      draining := true;
      stack := stack + [Draining];
    }

    method Emit(source: nat)
      requires Enabled(Now(), Write(source))
      modifies this
      ensures Now() == Next(old(Now()), Write(source))
    {
      var n := if source in revisions then revisions[source] + 1 else 1;
      revisions := revisions[source := n];
      queue := queue + [Task(source, n, Of(observers, source))];
      StartDrain();
    }

    /** Adds a listener and calls it with the current value. */
    method AddListener(o: Observer) returns (snapshot: nat)
      requires Enabled(Now(), Subscribe(o))
      modifies this
      ensures Now() == Next(old(Now()), Subscribe(o)) && snapshot == Revision(old(Now()), o.source)
    {
      if o !in observers {
        observers := observers + [o];
      }
      snapshot := if o.source in revisions then revisions[o.source] else 0;
      seen := seen[o := [snapshot]];
      stack := stack + [Listening];
    }

    method RemoveListener(o: Observer)
      requires Enabled(Now(), Unsubscribe(o))
      modifies this
      ensures Now() == Next(old(Now()), Unsubscribe(o))
    {
      observers := Without(observers, o);
    }

    method BeginHold()
      requires Enabled(Now(), Hold)
      modifies this
      ensures Now() == Next(old(Now()), Hold)
    {
      held := held + 1;
      stack := stack + [Holding];
    }

    method EndHold()
      requires Enabled(Now(), Release)
      modifies this
      ensures Now() == Next(old(Now()), Release)
    {
      held := held - 1;
      stack := stack[..|stack| - 1];
      StartDrain();
    }

    /** The loop goes on until it calls a listener (`called`) or ends, when the queue is empty. */
    method DrainOn() returns (called: bool)
      requires Inv(Now()) && Enabled(Now(), Deliver)
      modifies this
      ensures Inv(Now()) && observers == old(observers) && revisions == old(revisions) && held == 0
      ensures called ==> CodeRuns(Now()) && draining
      ensures !called ==> queue == [] && !draining
    {
      called := false;
      NothingWhileHeld(Now());
      Popped(stack);
      while draining && !called
        invariant Inv(Now()) && observers == old(observers) && revisions == old(revisions) && held == 0
        invariant !called ==> if draining then Enabled(Now(), Deliver) else queue == []
        invariant called ==> CodeRuns(Now()) && draining
        decreases Deliveries(queue), draining, !called
      {
        StepKeeps(Now(), Deliver);
        DeliveryShrinks(queue);
        called := DeliverOne();
        Popped(old(stack));
      }
    }

    /** One turn of the loop: the next revision, or its next observer. */
    method DeliverOne() returns (called: bool)
      requires Enabled(Now(), Deliver)
      modifies this
      ensures Now() == Next(old(Now()), Deliver) && called == (|stack| > |old(stack)|)
      ensures !called && draining ==> stack == old(stack) && old(queue) != []
    {
      called := false;
      if queue == [] {
        draining := false;
        stack := stack[..|stack| - 1];
      } else if queue[0].to == [] {
        queue := queue[1..];
      } else {
        var task := queue[0];
        var o := task.to[0];
        queue := [task.(to := task.to[1..])] + queue[1..];
        if o in observers {
          called := true;
          seen := seen[o := Seen(Now(), o) + [task.revision]];
          stack := stack + [Listening];
        }
      }
    }
  }
}
