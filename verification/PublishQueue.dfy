/**
 * The one queue of observer notifications, under re-entrant writes: listeners may write, subscribe, unsubscribe and
 * hold publications while they are notified. The call stack is explicit, cut wherever foreign code runs.
 *
 * A source's revisions are numbered; the observers of a source are known by their listener function, as in a `Set`.
 */
module PublishQueue {
  import opened Lists

  datatype Observer = Observer(source: nat, listener: nat)

  /** One revision of a source, and the observers it is still to be delivered to. */
  datatype Task = Task(source: nat, revision: nat, to: seq<Observer>)

  /** What is on the call stack: a body run by `holdPublications`, the loop of `drain`, or a listener. */
  datatype Frame = Holding | Draining | Listening

  datatype State = State(
    revisions: map<nat, nat>,               // revisions adopted, by source
    observers: seq<Observer>,
    seen: map<Observer, seq<nat>>,          // what each observer saw since it last subscribed, its snapshot first
    queue: seq<Task>,                       // the head may be in delivery
    held: nat,
    draining: bool,
    stack: seq<Frame>)                      // innermost last

  datatype Step =
    | Write(source: nat)                    // adopts the next revision and queues it
    | Subscribe(observer: Observer)
    | Unsubscribe(observer: Observer)
    | Hold                                  // `holdPublications` begins
    | Release                               // and ends
    | Return                                // a listener returns
    | Deliver                               // the loop of `drain` goes on

  function Revision(s: State, source: nat): nat {
    if source in s.revisions then s.revisions[source] else 0
  }

  function Of(observers: seq<Observer>, source: nat): seq<Observer> {
    if observers == [] then []
    else
      var last := observers[|observers| - 1];
      Of(observers[..|observers| - 1], source) + if last.source == source then [last] else []
  }

  /** Code other than the loop of `drain` runs. */
  predicate CodeRuns(s: State) {
    s.stack == [] || !s.stack[|s.stack| - 1].Draining?
  }

  function Pop(s: State): State
    requires s.stack != []
  {
    s.(stack := s.stack[..|s.stack| - 1])
  }

  /** Starts the loop, unless it runs already or publications are held. */
  function Drain(s: State): State {
    if s.draining || s.held > 0 then s else s.(draining := true, stack := s.stack + [Draining])
  }

  predicate Enabled(s: State, step: Step) {
    match step
    case Release => s.stack != [] && s.stack[|s.stack| - 1].Holding? && s.held > 0
    case Return => s.stack != [] && s.stack[|s.stack| - 1].Listening?
    case Deliver => s.stack != [] && s.stack[|s.stack| - 1].Draining?
    case _ => CodeRuns(s)
  }

  function Seen(s: State, o: Observer): seq<nat> {
    if o in s.seen then s.seen[o] else []
  }

  function Next(s: State, step: Step): State
    requires Enabled(s, step)
  {
    match step
    case Write(source) =>
      var n := Revision(s, source) + 1;
      Drain(s.(revisions := s.revisions[source := n], queue := s.queue + [Task(source, n, Of(s.observers, source))]))
    case Subscribe(o) =>
      s.(observers := if o in s.observers then s.observers else s.observers + [o],
         seen := s.seen[o := [Revision(s, o.source)]], stack := s.stack + [Listening])
    case Unsubscribe(o) => s.(observers := Without(s.observers, o))
    case Hold => s.(held := s.held + 1, stack := s.stack + [Holding])
    case Release => Drain(Pop(s).(held := s.held - 1))
    case Return => Pop(s)
    case Deliver =>
      if s.queue == [] then Pop(s).(draining := false)
      else
        var task := s.queue[0];
        if task.to == [] then s.(queue := s.queue[1..])
        else
          var o, rest := task.to[0], [task.(to := task.to[1..])] + s.queue[1..];
          if o !in s.observers then s.(queue := rest)
          else s.(queue := rest, seen := s.seen[o := Seen(s, o) + [task.revision]], stack := s.stack + [Listening])
  }

  // ─── what the queue still brings an observer ───

  /** The revision an observer is at after the queue, if the queue takes it on one revision at a time; else None. */
  predicate Addresses(task: Task, o: Observer) {
    task.source == o.source && o in task.to
  }

  function Brings(queue: seq<Task>, o: Observer, at: nat): Option<nat> {
    if queue == [] then Some(at)
    else
      var before, last := Brings(queue[..|queue| - 1], o, at), queue[|queue| - 1];
      if !Addresses(last, o) then before
      else if before.Some? && last.revision == before.value + 1 then Some(last.revision) else None
  }

  predicate Consecutive(seen: seq<nat>) {
    forall i | 0 <= i < |seen| :: seen[i] == seen[0] + i
  }

  ghost predicate Listed(s: State, o: Observer) {
    exists t | t in s.queue :: Addresses(t, o)
  }

  /** An observer saw consecutive revisions since its snapshot, and the queue holds exactly those it has yet to see. */
  ghost predicate Exact(s: State, o: Observer) {
    && o in s.seen && s.seen[o] != [] && Consecutive(s.seen[o])
    && Brings(s.queue, o, s.seen[o][|s.seen[o]| - 1]) == Some(Revision(s, o.source))
  }

  function Count(stack: seq<Frame>, f: Frame): nat {
    if stack == [] then 0 else Count(stack[..|stack| - 1], f) + if stack[|stack| - 1] == f then 1 else 0
  }

  /** No publication is held below the loop of `drain`. */
  predicate Stacked(stack: seq<Frame>) {
    stack == []
    || (Stacked(stack[..|stack| - 1])
        && (stack[|stack| - 1].Draining? ==> Count(stack, Holding) == 0 && Count(stack, Draining) == 1))
  }

  ghost predicate Tidy(s: State) {
    && s.held == Count(s.stack, Holding) && Count(s.stack, Draining) == (if s.draining then 1 else 0)
       && Stacked(s.stack)
    && (s.queue != [] ==> s.draining || s.held > 0)
  }

  ghost predicate Addressed(s: State) {
    forall t | t in s.queue ::
      && Distinct(t.to) && t.revision <= Revision(s, t.source)
      && forall o | o in t.to :: o.source == t.source && o in s.seen
  }

  ghost predicate Inv(s: State) {
    && Tidy(s) && Addressed(s) && Distinct(s.observers)
    && forall o | o in s.observers :: Exact(s, o)
  }

  /** A listener function that is subscribed (again) while a revision is on its way to it. */
  ghost predicate Clashes(s: State, step: Step) {
    step.Subscribe? && Listed(s, step.observer)
  }

  lemma {:induction false} BringsMore(queue: seq<Task>, task: Task, o: Observer, at: nat)
    ensures Brings(queue + [task], o, at) ==
            var before := Brings(queue, o, at);
            if !Addresses(task, o) then before
            else if before.Some? && task.revision == before.value + 1 then Some(task.revision) else None
  {
    assert (queue + [task])[..|queue|] == queue;
  }

  /** The head of the queue comes first. */
  lemma {:induction false} BringsFirst(queue: seq<Task>, o: Observer, at: nat)
    requires queue != [] && Brings(queue, o, at).Some?
    ensures Addresses(queue[0], o) ==> queue[0].revision == at + 1
    ensures Brings(queue, o, at) == Brings(queue[1..], o, if Addresses(queue[0], o) then at + 1 else at)
  {
    var n := |queue| - 1;
    if n == 0 {
      assert queue[..0] == [] && queue[1..] == [];
      assert Brings(queue[..0], o, at) == Some(at);
    } else {
      assert queue[1..][..n - 1] == queue[..n][1..];
      BringsFirst(queue[..n], o, at);
    }
  }

  /** Only whether the head lists an observer matters to it. */
  lemma {:induction false} BringsSame(head: Task, head': Task, rest: seq<Task>, o: Observer, at: nat)
    requires head'.source == head.source && head'.revision == head.revision && Addresses(head', o) == Addresses(head, o)
    ensures Brings([head'] + rest, o, at) == Brings([head] + rest, o, at)
  {
    if rest == [] {
      var none: seq<Task> := [];
      assert [head'] + rest == none + [head'] && [head] + rest == none + [head];
      BringsMore(none, head, o, at);
      BringsMore(none, head', o, at);
    } else {
      var n := |rest| - 1;
      assert [head'] + rest == ([head'] + rest[..n]) + [rest[n]] && [head] + rest == ([head] + rest[..n]) + [rest[n]];
      BringsSame(head, head', rest[..n], o, at);
      BringsMore([head'] + rest[..n], rest[n], o, at);
      BringsMore([head] + rest[..n], rest[n], o, at);
    }
  }

  lemma {:induction false} BringsNothing(queue: seq<Task>, o: Observer, at: nat)
    requires forall t | t in queue :: !Addresses(t, o)
    ensures Brings(queue, o, at) == Some(at)
  {
    if queue != [] {
      assert queue[|queue| - 1] in queue;
      BringsNothing(queue[..|queue| - 1], o, at);
    }
  }

  lemma {:induction false} OfMembers(observers: seq<Observer>, source: nat)
    requires Distinct(observers)
    ensures Distinct(Of(observers, source))
    ensures forall o :: o in Of(observers, source) <==> o in observers && o.source == source
  {
    if observers != [] {
      var n := |observers| - 1;
      OfMembers(observers[..n], source);
      assert observers == observers[..n] + [observers[n]];
      DistinctOrMore(Of(observers[..n], source), observers[n]);
    }
  }

  lemma DistinctOrMore(s: seq<Observer>, o: Observer)
    requires Distinct(s)
    ensures o !in s ==> Distinct(s + [o])
    ensures Distinct(s + [])
  {
    if o !in s {
      DistinctMore(s, o);
    }
    assert s + [] == s;
  }

  // ─── every step keeps the invariant ───

  lemma Pushed(stack: seq<Frame>, f: Frame)
    ensures forall g :: Count(stack + [f], g) == Count(stack, g) + if f == g then 1 else 0
    ensures Stacked(stack + [f]) <==>
            Stacked(stack) && (f.Draining? ==> Count(stack, Holding) == 0 && Count(stack, Draining) == 0)
  {
    assert (stack + [f])[..|stack|] == stack;
  }

  lemma Popped(stack: seq<Frame>)
    requires stack != []
    ensures var rest, f := stack[..|stack| - 1], stack[|stack| - 1];
            && (forall g :: Count(stack, g) == Count(rest, g) + if f == g then 1 else 0)
            && (Stacked(stack) ==>
                  Stacked(rest) && (f.Draining? ==> Count(rest, Holding) == 0 && Count(rest, Draining) == 0))
  {
    assert stack == stack[..|stack| - 1] + [stack[|stack| - 1]];
    Pushed(stack[..|stack| - 1], stack[|stack| - 1]);
  }

  lemma DrainTidy(s: State)
    requires Tidy(s.(queue := []))
    ensures Tidy(Drain(s))
  {
    Pushed(s.stack, Draining);
  }

  lemma PushTidy(s: State, s': State, f: Frame)
    requires Tidy(s) && s'.stack == s.stack + [f] && s'.held == s.held + (if f.Holding? then 1 else 0) && !f.Draining?
    requires s'.draining == s.draining && (s'.queue == [] <==> s.queue == [])
    ensures Tidy(s')
  {
    Pushed(s.stack, f);
  }

  lemma PopTidy(s: State, s': State)
    requires Tidy(s) && s.stack != [] && s'.stack == s.stack[..|s.stack| - 1] && (s'.queue != [] ==> s.queue != [])
    requires s'.held == s.held - (if s.stack[|s.stack| - 1].Holding? then 1 else 0)
    requires s'.draining == (s.draining && !s.stack[|s.stack| - 1].Draining?)
    ensures Tidy(s'.(queue := []))
    ensures s.stack[|s.stack| - 1].Listening? ==> Tidy(s')
  {
    Popped(s.stack);
  }

  lemma TidyKeeps(s: State, step: Step)
    requires Tidy(s) && Enabled(s, step)
    ensures Tidy(Next(s, step))
  {
    match step
    case Write(source) =>
      var n := Revision(s, source) + 1;
      DrainTidy(s.(revisions := s.revisions[source := n],
                   queue := s.queue + [Task(source, n, Of(s.observers, source))]));
    case Subscribe(_) => PushTidy(s, Next(s, step), Listening);
    case Hold => PushTidy(s, Next(s, step), Holding);
    case Release =>
      var popped := Pop(s).(held := s.held - 1);
      PopTidy(s, popped);
      Popped(s.stack);
      DrainTidy(popped);
    case Return => PopTidy(s, Next(s, step));
    case Unsubscribe(_) =>
    case Deliver => DeliverTidy(s);
  }

  lemma DeliverTidy(s: State)
    requires Tidy(s) && Enabled(s, Deliver)
    ensures Tidy(Next(s, Deliver))
  {
    if s.queue == [] {
      PopTidy(s, Next(s, Deliver));
    } else {
      Popped(s.stack);
      var o := if s.queue[0].to == [] then Observer(0, 0) else s.queue[0].to[0];
      if s.queue[0].to != [] && o in s.observers {
        PushTidy(s, Next(s, Deliver), Listening);
      }
    }
  }

  /** The loop delivers only while nothing is held. */
  lemma NothingWhileHeld(s: State)
    requires Tidy(s) && Enabled(s, Deliver)
    ensures s.held == 0
  {
    Popped(s.stack);
  }

  lemma WriteExact(s: State, task: Task, s': State, o: Observer)
    requires Exact(s, o) && s'.seen == s.seen && s'.queue == s.queue + [task] && Distinct(s.observers)
             && o in s.observers
    requires task == Task(task.source, Revision(s, task.source) + 1, Of(s.observers, task.source))
    requires s'.revisions == s.revisions[task.source := task.revision]
    ensures Exact(s', o)
  {
    OfMembers(s.observers, task.source);
    BringsMore(s.queue, task, o, s.seen[o][|s.seen[o]| - 1]);
  }

  lemma WriteAddressed(s: State, task: Task, s': State)
    requires Addressed(s) && Distinct(s.observers) && s'.seen == s.seen && s'.queue == s.queue + [task]
    requires task == Task(task.source, Revision(s, task.source) + 1, Of(s.observers, task.source))
    requires s'.revisions == s.revisions[task.source := task.revision]
    requires forall o | o in s.observers :: o in s.seen
    ensures Addressed(s')
  {
    OfMembers(s.observers, task.source);
    forall t | t in s'.queue
      ensures Distinct(t.to) && t.revision <= Revision(s', t.source)
              && forall o | o in t.to :: o.source == t.source && o in s'.seen
    {
      assert t in s.queue || t == task;
    }
  }

  lemma WriteKeeps(s: State, source: nat)
    requires Inv(s) && CodeRuns(s)
    ensures Inv(Next(s, Write(source)))
  {
    var s' := Next(s, Write(source));
    var task := Task(source, Revision(s, source) + 1, Of(s.observers, source));
    assert s'.queue == s.queue + [task];
    TidyKeeps(s, Write(source));
    assert forall o | o in s.observers :: Exact(s, o);
    WriteAddressed(s, task, s');
    forall o | o in s.observers
      ensures Exact(s', o)
    {
      WriteExact(s, task, s', o);
    }
  }

  lemma SubscribeExact(s: State, o: Observer, s': State)
    requires !Listed(s, o) && s'.queue == s.queue && s'.revisions == s.revisions
    requires s'.seen == s.seen[o := [Revision(s, o.source)]]
    ensures Exact(s', o)
  {
    BringsNothing(s.queue, o, Revision(s, o.source));
  }

  /** Nothing changes for the other observers. */
  lemma OtherExact(s: State, o: Observer, s': State, x: Observer)
    requires Exact(s, x) && x != o && s'.queue == s.queue && s'.revisions == s.revisions
    requires s'.seen == s.seen[o := [Revision(s, o.source)]]
    ensures Exact(s', x)
  {
  }

  lemma SubscribeObservers(s: State, o: Observer, s': State)
    requires !Listed(s, o) && forall x | x in s.observers :: Exact(s, x)
    requires s'.queue == s.queue && s'.revisions == s.revisions && s'.seen == s.seen[o := [Revision(s, o.source)]]
    requires forall x | x in s'.observers :: x in s.observers || x == o
    ensures forall x | x in s'.observers :: Exact(s', x)
  {
    SubscribeExact(s, o, s');
    forall x | x in s'.observers && x != o
      ensures Exact(s', x)
    {
      OtherExact(s, o, s', x);
    }
  }

  lemma SubscribeAddressed(s: State, o: Observer, s': State)
    requires Addressed(s) && Distinct(s.observers)
    requires s'.queue == s.queue && s'.revisions == s.revisions && s'.seen.Keys == s.seen.Keys + {o}
    requires s'.observers == if o in s.observers then s.observers else s.observers + [o]
    ensures Addressed(s') && Distinct(s'.observers)
  {
    if o !in s.observers {
      DistinctMore(s.observers, o);
    }
  }

  lemma SubscribeKeeps(s: State, o: Observer)
    requires Inv(s) && CodeRuns(s) && !Listed(s, o)
    ensures Inv(Next(s, Subscribe(o)))
  {
    TidyKeeps(s, Subscribe(o));
    SubscribeObservers(s, o, Next(s, Subscribe(o)));
    SubscribeAddressed(s, o, Next(s, Subscribe(o)));
  }

  /** Fewer observers. */
  lemma FewerKeep(s: State, fewer: seq<Observer>)
    requires Inv(s) && Distinct(fewer) && forall o | o in fewer :: o in s.observers
    ensures Inv(s.(observers := fewer))
  {
    var s' := s.(observers := fewer);
    assert Addressed(s');
    forall o | o in fewer
      ensures Exact(s', o)
    {
      assert o in s.observers && Exact(s, o);
    }
  }

  lemma UnsubscribeKeeps(s: State, o: Observer)
    requires Inv(s) && CodeRuns(s)
    ensures Inv(Next(s, Unsubscribe(o)))
  {
    WithoutMembers(s.observers, o);
    WithoutDistinct(s.observers, o);
    FewerKeep(s, Without(s.observers, o));
  }

  /** The head was delivered to everyone. */
  lemma ShiftKeeps(s: State)
    requires Inv(s) && Enabled(s, Deliver) && s.queue != [] && s.queue[0].to == []
    ensures Inv(Next(s, Deliver))
  {
    var s' := Next(s, Deliver);
    TidyKeeps(s, Deliver);
    forall o | o in s.observers
      ensures Exact(s', o)
    {
      assert Exact(s, o);
      BringsFirst(s.queue, o, s.seen[o][|s.seen[o]| - 1]);
    }
  }

  /** Once the head no longer lists an observer, the queue brings it what it did with the head's revision seen. */
  lemma AfterHead(queue: seq<Task>, o: Observer, x: Observer, at: nat)
    requires queue != [] && queue[0].to != [] && queue[0].to[0] == o && Distinct(queue[0].to)
             && Brings(queue, x, at).Some?
    requires o.source == queue[0].source
    ensures var rest := [queue[0].(to := queue[0].to[1..])] + queue[1..];
            if x == o then queue[0].revision == at + 1 && Brings(rest, x, at + 1) == Brings(queue, x, at)
            else Brings(rest, x, at) == Brings(queue, x, at)
  {
    var head := queue[0];
    var head' := head.(to := head.to[1..]);
    assert queue == [head] + queue[1..];
    assert x != o ==> (x in head.to <==> x in head'.to) by {
      assert head.to == [o] + head'.to;
    }
    DistinctRest(head.to);
    if x == o {
      BringsFirst(queue, x, at);
      var unlisted := head.(to := []);
      BringsSame(unlisted, head', queue[1..], x, at + 1);
      BringsUnlisted(unlisted, queue[1..], x, at + 1);
    } else {
      BringsSame(head, head', queue[1..], x, at);
    }
  }

  lemma {:induction false} BringsUnlisted(head: Task, rest: seq<Task>, o: Observer, at: nat)
    requires !Addresses(head, o)
    ensures Brings([head] + rest, o, at) == Brings(rest, o, at)
  {
    if rest == [] {
      var none: seq<Task> := [];
      assert [head] + rest == none + [head];
      BringsMore(none, head, o, at);
    } else {
      var n := |rest| - 1;
      assert [head] + rest == ([head] + rest[..n]) + [rest[n]];
      BringsUnlisted(head, rest[..n], o, at);
      BringsMore([head] + rest[..n], rest[n], o, at);
    }
  }

  /** The head is handed to its first observer. */
  lemma HandExact(s: State, s': State, x: Observer)
    requires Exact(s, x) && s.queue != [] && s.queue[0].to != [] && Distinct(s.queue[0].to)
    requires s.queue[0].to[0].source == s.queue[0].source && s'.revisions == s.revisions
    requires s'.queue == [s.queue[0].(to := s.queue[0].to[1..])] + s.queue[1..]
    requires var o := s.queue[0].to[0];
             if x == o then o in s'.seen && s'.seen[o] == s.seen[o] + [s.queue[0].revision]
             else x in s'.seen && s'.seen[x] == s.seen[x]
    ensures Exact(s', x)
  {
    AfterHead(s.queue, s.queue[0].to[0], x, s.seen[x][|s.seen[x]| - 1]);
  }

  lemma HandAddressed(s: State, s': State)
    requires Addressed(s) && s.queue != [] && s.queue[0].to != [] && s'.revisions == s.revisions
    requires s'.queue == [s.queue[0].(to := s.queue[0].to[1..])] + s.queue[1..] && s.seen.Keys <= s'.seen.Keys
    ensures Addressed(s')
  {
    var head := s.queue[0];
    var head' := head.(to := head.to[1..]);
    assert head in s.queue;
    forall t | t in s'.queue
      ensures Distinct(t.to) && t.revision <= Revision(s', t.source)
              && forall o | o in t.to :: o.source == t.source && o in s'.seen
    {
      assert t == head' || t in s.queue;
      assert forall x | x in head'.to :: x in head.to;
      DistinctRest(head.to);
    }
  }

  lemma HandKeeps(s: State)
    requires Inv(s) && Enabled(s, Deliver) && s.queue != [] && s.queue[0].to != []
    ensures Inv(Next(s, Deliver))
  {
    var s' := Next(s, Deliver);
    assert s.queue[0] in s.queue && s.queue[0].to[0] in s.queue[0].to;
    TidyKeeps(s, Deliver);
    HandAddressed(s, s');
    forall x | x in s.observers
      ensures Exact(s', x)
    {
      assert Exact(s, x);
      HandExact(s, s', x);
    }
  }

  /**
   * Every step keeps the invariant, except that of a listener function subscribed while a revision is on its way to it.
   */
  lemma StepKeeps(s: State, step: Step)
    requires Inv(s) && Enabled(s, step) && !Clashes(s, step)
    ensures Inv(Next(s, step))
  {
    match step
    case Write(source) => WriteKeeps(s, source);
    case Subscribe(o) => SubscribeKeeps(s, o);
    case Unsubscribe(o) => UnsubscribeKeeps(s, o);
    case Deliver =>
      if s.queue == [] {
        IdleKeeps(s, step);
      } else if s.queue[0].to == [] {
        ShiftKeeps(s);
      } else {
        HandKeeps(s);
      }
    case _ => IdleKeeps(s, step);
  }

  lemma IdleKeeps(s: State, step: Step)
    requires Inv(s) && Enabled(s, step)
    requires step.Hold? || step.Release? || step.Return? || (step.Deliver? && s.queue == [])
    ensures Inv(Next(s, step))
  {
    TidyKeeps(s, step);
    var s' := Next(s, step);
    forall o | o in s.observers
      ensures Exact(s', o)
    {
      assert Exact(s, o);
    }
  }
}
