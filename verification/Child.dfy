/**
 * What a child does in a cluster reload, as steps: its operation moves through the stages below up to one vote, and the
 * server's decision settles it. `Abort` and `Lose` are enabled in every stage, so the results hold wherever they fall.
 */
module Child {
  import opened Lists

  /** Control frames from the server, and any other frame of a root of a code version. */
  datatype Down = Prepare(id: nat, version: nat) | Commit(id: nat) | Abort(id: nat) | Use(version: nat)

  datatype Up = Hello(version: nat) | Vote(id: nat, yes: bool)

  /** `took`: the operation took the host's reload slot; it fails to begin otherwise. */
  datatype Stage = Loading(took: bool) | Preparing | Prepared

  datatype Operation = Operation(id: nat, version: nat, stage: Stage, cancelled: bool)

  /** What happened to the host's reload slot, and the votes. */
  datatype Event =
    | Took(id: nat)
    | LoadFailed(id: nat)
    | Begun(id: nat)
    | VotedYes(id: nat)
    | Committed(id: nat, version: nat)
    | RolledBack(id: nat)

  /** Events, the last one outermost. */
  datatype Log = Empty | More(before: Log, last: Event)

  /** `rolling`: the reload that is still being rolled back after it had been prepared, with the slot. */
  datatype State = State(version: nat, operation: Option<Operation>, slot: bool, rolling: Option<nat>, events: Log)

  datatype Step =
    | Handle(frame: Down)                   // a frame of the parent
    | Loaded(ok: bool)                      // the modules are loaded, or failed to
    | PrepareSettled(ok: bool)
    | RollbackSettled
    | ParentLost

  predicate Enabled(s: State, step: Step) {
    match step
    case Loaded(ok) => s.operation.Some? && s.operation.value.stage.Loading? && (ok ==> s.operation.value.stage.took)
    case PrepareSettled(_) => s.operation.Some? && s.operation.value.stage.Preparing?
    case RollbackSettled => s.rolling.Some?
    case _ => true
  }

  /** An abort: a prepare under way unwinds when it settles, a prepared reload is rolled back now. */
  function Cancel(s: State, o: Operation): State {
    if o.stage.Prepared? then s.(operation := None, rolling := Some(o.id))
    else s.(operation := Some(o.(cancelled := true)))
  }

  function Next(s: State, step: Step): State
    requires Enabled(s, step)
  {
    match step
    case Handle(Prepare(id, version)) =>
      if s.operation.Some? then s
      else if s.slot then s.(operation := Some(Operation(id, version, Loading(false), false)))
      else
        s.(operation := Some(Operation(id, version, Loading(true), false)), slot := true,
           events := More(s.events, Took(id)))
    case Handle(Commit(id)) =>
      if s.operation.None? || s.operation.value.id != id || !s.operation.value.stage.Prepared? then s
      else s.(version := s.operation.value.version, operation := None, slot := false,
              events := More(s.events, Committed(id, s.operation.value.version)))
    case Handle(Abort(id)) =>
      if s.operation.None? || s.operation.value.id != id then s else Cancel(s, s.operation.value)
    case Handle(Use(_)) => s
    case Loaded(ok) =>
      var o := s.operation.value;
      if !ok then
        if o.stage.took then s.(operation := None, slot := false, events := More(s.events, LoadFailed(o.id)))
        else s.(operation := None)
      else if o.cancelled then
        s.(operation := None, slot := false, events := More(More(s.events, Begun(o.id)), RolledBack(o.id)))
      else s.(operation := Some(o.(stage := Preparing)), events := More(s.events, Begun(o.id)))
    case PrepareSettled(ok) =>
      var o := s.operation.value;
      if ok && !o.cancelled then s.(operation := Some(o.(stage := Prepared)), events := More(s.events, VotedYes(o.id)))
      else s.(operation := None, slot := false, events := More(s.events, RolledBack(o.id)))
    case RollbackSettled =>
      s.(slot := false, rolling := None, events := More(s.events, RolledBack(s.rolling.value)))
    case ParentLost => if s.operation.None? then s else Cancel(s, s.operation.value)
  }

  /** What the child sends on a step. */
  function Sends(s: State, step: Step): seq<Up>
    requires Enabled(s, step)
  {
    match step
    case Handle(Prepare(id, _)) => if s.operation.Some? then [Vote(id, false)] else []
    case Loaded(ok) => if !ok && !s.operation.value.cancelled then [Vote(s.operation.value.id, false)] else []
    case PrepareSettled(ok) => if s.operation.value.cancelled then [] else [Vote(s.operation.value.id, ok)]
    case _ => []
  }

  // ─── the life of a reload ───

  /**
   * What the events so far say of the reload slot: free, taken, or held by a reload that began (and maybe voted yes).
   */
  datatype Ledger = Free | Taken(id: nat) | Running(id: nat, voted: bool) | Broken

  function Enter(l: Ledger, e: Event): Ledger {
    match e
    case Took(id) => if l.Free? then Taken(id) else Broken
    case LoadFailed(id) => if l == Taken(id) then Free else Broken
    case Begun(id) => if l == Taken(id) then Running(id, false) else Broken
    case VotedYes(id) => if l == Running(id, false) then Running(id, true) else Broken
    case Committed(id, _) => if l == Running(id, true) then Free else Broken
    case RolledBack(id) => if l.Running? && l.id == id then Free else Broken
  }

  function Read(events: Log): Ledger {
    match events
    case Empty => Free
    case More(before, last) => Enter(Read(before), last)
  }

  function LastCommitted(events: Log, first: nat): nat {
    match events
    case Empty => first
    case More(before, last) => if last.Committed? then last.version else LastCommitted(before, first)
  }

  /** What the ledger should say of a state. */
  function Expected(s: State): Ledger {
    if s.rolling.Some? then Running(s.rolling.value, true)
    else if s.operation.None? then Free
    else match s.operation.value.stage
         case Loading(took) => if took then Taken(s.operation.value.id) else Free
         case Preparing => Running(s.operation.value.id, false)
         case Prepared => Running(s.operation.value.id, true)
  }

  /**
   * The events tell the reload slot's story without a gap: a reload that began ends in exactly one commit (after its
   * own yes vote) or rollback, which frees the slot, before another takes it; and only commits change the version.
   */
  ghost predicate Inv(s: State, first: nat) {
    && Read(s.events) == Expected(s) && s.slot == !Expected(s).Free?
    && s.version == LastCommitted(s.events, first)
    && (s.rolling.Some? && s.operation.Some? ==> s.operation.value.stage == Loading(false))
    && (s.operation.Some? && s.operation.value.stage.Prepared? ==> !s.operation.value.cancelled)
  }

  lemma StepKeeps(s: State, step: Step, first: nat)
    requires Inv(s, first) && Enabled(s, step)
    ensures Inv(Next(s, step), first)
  {
  }

  /** A child installs a version only by a commit that names its prepared operation, after its own yes vote. */
  lemma InstallsOnlyCommitted(s: State, step: Step, first: nat)
    requires Inv(s, first) && Enabled(s, step) && Next(s, step).version != s.version
    ensures step.Handle? && step.frame.Commit? && Read(s.events) == Running(step.frame.id, true)
    ensures s.operation.Some? && Next(s, step).version == s.operation.value.version
    ensures Next(s, step).operation.None? && !Next(s, step).slot
  {
  }

  ghost predicate CanRun(s: State, steps: seq<Step>)
    decreases |steps|
  {
    steps == [] || (Enabled(s, steps[0]) && CanRun(Next(s, steps[0]), steps[1..]))
  }

  ghost function After(s: State, steps: seq<Step>): State
    requires CanRun(s, steps)
    decreases |steps|
  {
    if steps == [] then s else After(Next(s, steps[0]), steps[1..])
  }

  /** In every run, the events tell the whole story. */
  lemma {:induction false} RunKeeps(s: State, steps: seq<Step>, first: nat)
    requires Inv(s, first) && CanRun(s, steps)
    ensures Inv(After(s, steps), first) && !Read(After(s, steps).events).Broken?
    decreases |steps|
  {
    if steps != [] {
      StepKeeps(s, steps[0], first);
      RunKeeps(Next(s, steps[0]), steps[1..], first);
    }
  }

  lemma NextTaken(s: State, step: Step, rest: seq<Step>)
    requires Enabled(s, step) && CanRun(Next(s, step), rest)
    ensures CanRun(s, [step] + rest) && After(s, [step] + rest) == After(Next(s, step), rest)
  {
    assert ([step] + rest)[1..] == rest;
  }

  /** Rolling back and loads that cannot succeed settle. */
  lemma Unwinds(s: State, first: nat) returns (steps: seq<Step>)
    requires Inv(s, first)
    requires s.operation.Some? ==> !s.operation.value.stage.Prepared? && s.operation.value.cancelled
    ensures CanRun(s, steps) && forall step | step in steps :: !step.Handle?
    ensures var t := After(s, steps); t.operation.None? && !t.slot && t.rolling.None? && t.version == s.version
    decreases s.operation.Some?, s.rolling.Some?
  {
    if s.operation.Some? {
      var step := if s.operation.value.stage.Loading? then Loaded(false) else PrepareSettled(false);
      StepKeeps(s, step, first);
      var rest := Unwinds(Next(s, step), first);
      NextTaken(s, step, rest);
      steps := [step] + rest;
    } else if s.rolling.Some? {
      StepKeeps(s, RollbackSettled, first);
      var rest := Unwinds(Next(s, RollbackSettled), first);
      NextTaken(s, RollbackSettled, rest);
      steps := [RollbackSettled] + rest;
    } else {
      steps := [];
    }
  }

  /**
   * A lost parent never leaves the slot taken: once the work under way settles, it is free, at the version it was at.
   */
  lemma LostParentFreesSlot(s: State, first: nat) returns (steps: seq<Step>)
    requires Inv(s, first)
    ensures CanRun(s, [ParentLost] + steps) && forall step | step in steps :: !step.Handle?
    ensures var t := After(s, [ParentLost] + steps);
            t.operation.None? && !t.slot && t.rolling.None? && t.version == s.version && Read(t.events).Free?
  {
    StepKeeps(s, ParentLost, first);
    steps := Unwinds(Next(s, ParentLost), first);
    NextTaken(s, ParentLost, steps);
    RunKeeps(Next(s, ParentLost), steps, first);
  }

  // ─── as it is updated in place ───

  class Reloads {
    var version: nat
    var operation: Option<Operation>
    var slot: bool
    var rolling: Option<nat>
    ghost var events: Log

    constructor (version: nat)
      ensures Now() == State(version, None, false, None, Empty) && Inv(Now(), version)
    {
      this.version, operation, slot, rolling, events := version, None, false, None, Empty;
    }

    ghost function Now(): State
      reads this
    {
      State(version, operation, slot, rolling, events)
    }

    method OnFrame(frame: Down, ghost first: nat) returns (sent: seq<Up>)
      requires Inv(Now(), first)
      modifies this
      ensures Now() == Next(old(Now()), Handle(frame)) && sent == Sends(old(Now()), Handle(frame)) && Inv(Now(), first)
    {
      StepKeeps(Now(), Handle(frame), first);
      sent := [];
      if frame.Prepare? {
        if operation.Some? {
          sent := [Vote(frame.id, false)];
          return;
        }
        operation := Some(Operation(frame.id, frame.version, Loading(!slot), false));
        if !slot {
          slot := true;
          events := More(events, Took(frame.id));
        }
        return;
      }
      if frame.Use? || operation.None? || operation.value.id != frame.id {
        return;
      }
      if frame.Abort? {
        CancelOperation();
        return;
      }
      if !operation.value.stage.Prepared? {
        return;
      }
      version := operation.value.version;
      operation, slot := None, false;
      events := More(events, Committed(frame.id, version));
    }

    method CancelOperation()
      requires operation.Some?
      modifies this
      ensures Now() == Cancel(old(Now()), old(operation.value))
    {
      if operation.value.stage.Prepared? {
        rolling := Some(operation.value.id);
        operation := None;
      } else {
        operation := Some(operation.value.(cancelled := true));
      }
    }

    method OnParentLost(ghost first: nat)
      requires Inv(Now(), first)
      modifies this
      ensures Now() == Next(old(Now()), ParentLost) && Inv(Now(), first)
    {
      StepKeeps(Now(), ParentLost, first);
      if operation.Some? {
        CancelOperation();
      }
    }

    /** The rest of `#run` after the modules loaded. */
    method OnLoaded(ok: bool, ghost first: nat) returns (sent: seq<Up>)
      requires Inv(Now(), first) && Enabled(Now(), Loaded(ok))
      modifies this
      ensures Now() == Next(old(Now()), Loaded(ok)) && sent == Sends(old(Now()), Loaded(ok)) && Inv(Now(), first)
    {
      StepKeeps(Now(), Loaded(ok), first);
      sent := [];
      var o := operation.value;
      if ok {
        events := More(events, Begun(o.id));
        if !o.cancelled {
          operation := Some(o.(stage := Preparing));
          return;
        }
        events := More(events, RolledBack(o.id));
        slot := false;
      } else if o.stage.took {
        events := More(events, LoadFailed(o.id));
        slot := false;
      }
      operation := None;
      if !ok && !o.cancelled {
        sent := [Vote(o.id, false)];
      }
    }

    /** The rest of `#run` after the prepare settled. */
    method OnPrepareSettled(ok: bool, ghost first: nat) returns (sent: seq<Up>)
      requires Inv(Now(), first) && Enabled(Now(), PrepareSettled(ok))
      modifies this
      ensures Now() == Next(old(Now()), PrepareSettled(ok)) && sent == Sends(old(Now()), PrepareSettled(ok))
              && Inv(Now(), first)
    {
      StepKeeps(Now(), PrepareSettled(ok), first);
      var o := operation.value;
      sent := if o.cancelled then [] else [Vote(o.id, ok)];
      if ok && !o.cancelled {
        operation := Some(o.(stage := Prepared));
        events := More(events, VotedYes(o.id));
      } else {
        operation, slot := None, false;
        events := More(events, RolledBack(o.id));
      }
    }
  }
}
