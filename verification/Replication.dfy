/**
 * What every run of a `Chain` promises: where the consumer stands in the source's history, that nothing wedges a
 * stream, and what values that fail their schema do to it.
 */
module Replication {
  import opened Lists
  import opened Streams
  import opened Chain

  /** The steps can be taken one after the other from `s`. */
  ghost predicate CanRun<V, Op>(w: World<V, Op>, s: System<V, Op>, steps: seq<Step<V, Op>>)
    decreases |steps|
  {
    steps == [] || (Enabled(w, s, steps[0]) && CanRun(w, Next(w, s, steps[0]), steps[1..]))
  }

  ghost function After<V, Op>(w: World<V, Op>, s: System<V, Op>, steps: seq<Step<V, Op>>): System<V, Op>
    requires CanRun(w, s, steps)
    decreases |steps|
  {
    if steps == [] then s else After(w, Next(w, s, steps[0]), steps[1..])
  }

  /** The consumer reached no earlier value of the source than before. */
  ghost predicate NoGoingBack<V, Op>(s: System<V, Op>, s': System<V, Op>) {
    s.history <= s'.history && s.reached <= s'.reached
  }

  lemma OtherStepNeverBack<V, Op>(w: World<V, Op>, s: System<V, Op>, step: Step<V, Op>)
    requires Enabled(w, s, step) && !step.Deliver?
    ensures NoGoingBack(s, Next(w, s, step))
  {
    match step
    case Change(ops, fate) =>
    case Renew(v, fate) =>
    case RelayTake(fate) =>
    case _ =>
  }

  lemma StepNeverBack<V, Op>(w: World<V, Op>, s: System<V, Op>, step: Step<V, Op>)
    requires Inv(w, s) && Enabled(w, s, step)
    ensures NoGoingBack(s, Next(w, s, step))
  {
    if step.Deliver? {
      FirstFrame(w, s);
      ConsumerAdvances(w, s.(down := s.down[1..]), s.down[0]);
    } else {
      OtherStepNeverBack(w, s, step);
    }
  }

  /**
   * In every run, however writes, acknowledgements, drops, resyncs and flushes interleave: the consumer holds a value
   * the source really had, with the ops applied to it that it took after an error, if an error is the latest of the
   * snapshots, resets and errors it took. Its place moves through the source's history without going back, also when it
   * takes up the stream again after an error.
   */
  lemma {:induction false} ConsumerFollowsHistory<V, Op>(w: World<V, Op>, s: System<V, Op>, steps: seq<Step<V, Op>>)
    requires Inv(w, s) && CanRun(w, s, steps)
    ensures var s' := After(w, s, steps);
            && Inv(w, s') && NoGoingBack(s, s') && -1 <= s'.reached < |s'.history|
            && (s'.consumer.None? <==> s'.reached == -1)
            && (s'.consumer.Some? ==>
                  s'.consumer.value.value == ApplyAll(w.apply, s'.history[s'.reached], s'.since))
            && (!s'.stale ==> s'.since == [] && (s'.consumer.Some? ==> s'.consumer.value.at == s'.reached))
    decreases |steps|
  {
    if steps != [] {
      StepKeeps(w, s, steps[0]);
      StepNeverBack(w, s, steps[0]);
      ConsumerFollowsHistory(w, Next(w, s, steps[0]), steps[1..]);
    }
  }

  /** The ops it took since an error bring the value before it to one the source had. */
  ghost predicate Harmless<V, Op>(w: World<V, Op>, s: System<V, Op>)
    requires 0 <= s.reached < |s.history|
  {
    ApplyAll(w.apply, s.history[s.reached], s.since) in s.history
  }

  /**
   * Exactly when what the consumer holds after a run is a value the source had: when it took no ops since an error, or
   * those bring the value before the error to one.
   */
  lemma HoldsRealIff<V, Op>(w: World<V, Op>, s: System<V, Op>, steps: seq<Step<V, Op>>)
    requires Inv(w, s) && CanRun(w, s, steps) && After(w, s, steps).consumer.Some?
    ensures var t := After(w, s, steps);
            && 0 <= t.reached < |t.history|
            && (t.since == [] ==> Harmless(w, t) && t.consumer.value.value == t.history[t.reached])
            && (t.consumer.value.value in t.history <==> Harmless(w, t))
  {
    ConsumerFollowsHistory(w, s, steps);
  }

  /**
   * A snapshot or reset of a value that passes its schema ends what an error began, whatever the consumer took since.
   */
  lemma BaseRecovers<V, Op>(w: World<V, Op>, s: System<V, Op>)
    requires Inv(w, s) && s.down != [] && (s.down[0].Snap? || s.down[0].Reset?)
    ensures var t := Next(w, s, Deliver);
            && !t.stale && s.reached <= t.reached < |s.history|
            && t.consumer == Some(At(s.history[t.reached], t.reached))
  {
    FirstFrame(w, s);
    ConsumerAdvances(w, s.(down := s.down[1..]), s.down[0]);
  }

  /** Nothing is under way any more. */
  predicate Drained<V, Op>(s: System<V, Op>) {
    s.up == [] && s.down == [] && s.resyncs == 0 && s.provider.Nothing? && s.relay.Nothing?
  }

  /**
   * Once both links and all slots are drained, the consumer holds the source's current value, unless the provider's
   * latest snapshot of the stream was an error: then, and only then, it was told so last, and what it holds is the
   * value before the error with the ops applied to it that came since.
   */
  lemma DrainedIsCurrent<V, Op>(w: World<V, Op>, s: System<V, Op>)
    requires Inv(w, s) && s.fed && Drained(s)
    ensures (s.stale <==> s.failed) && !s.awaiting
    ensures !s.failed ==> s.consumer == Some(At(s.history[s.Now()], s.Now()))
    ensures s.consumer.Some? ==>
              && 0 <= s.reached < |s.history|
              && s.consumer.value.value == ApplyAll(w.apply, s.history[s.reached], s.since)
  {
  }

  /** A step of the links and connections, not of the source or of the hold's shape. */
  predicate Delivery<V, Op>(step: Step<V, Op>) {
    step.ProviderFlush? || step.TakeResync? || step.RelayTake? || step.RelayFlush? || step.Deliver?
  }

  function WaitingWork<V, Op>(waiting: Waiting<V, Op>, each: nat): nat {
    if waiting.Nothing? then 0 else 2 * each + 1
  }

  /** A bound on the deliveries left. */
  function Work<V, Op>(s: System<V, Op>): nat {
    |s.down| + WaitingWork(s.relay, 1) + 4 * |s.up| + WaitingWork(s.provider, 4) + 10 * s.resyncs
  }

  /** The next delivery: what is nearest to the consumer goes first. */
  function NextDelivery<V, Op>(s: System<V, Op>): Step<V, Op> {
    if s.down != [] then Deliver
    else if !s.relay.Nothing? then RelayFlush
    else if s.up != [] then RelayTake(Direct)
    else if !s.provider.Nothing? then ProviderFlush
    else TakeResync
  }

  /** A delivery leaves less to deliver, and the source as it was. */
  ghost predicate Progress<V, Op>(s: System<V, Op>, t: System<V, Op>) {
    Work(t) < Work(s) && t.history == s.history && t.fed == s.fed
  }

  lemma DeliveryProgress<V, Op>(w: World<V, Op>, s: System<V, Op>)
    requires s.history != [] && !Drained(s)
    ensures Enabled(w, s, NextDelivery(s)) && Progress(s, Next(w, s, NextDelivery(s)))
  {
    if s.down != [] {
      DeliverProgress(w, s);
    } else if !s.relay.Nothing? {
      FlushProgress(w, s);
    } else if s.up != [] {
      RelayTakeProgress(w, s);
    } else {
      FlushProgress(w, s);
    }
  }

  lemma DeliverProgress<V, Op>(w: World<V, Op>, s: System<V, Op>)
    requires s.history != [] && s.down != []
    ensures Progress(s, Next(w, s, Deliver))
  {
    var t := Next(w, s, Deliver);
    assert t.down == s.down[1..] && t.up == s.up && t.relay == s.relay && t.provider == s.provider;
  }

  /** What waits becomes fewer frames than it was work, and so does a reset asked for. */
  lemma FlushProgress<V, Op>(w: World<V, Op>, s: System<V, Op>)
    requires s.history != []
    ensures !s.relay.Nothing? ==> Progress(s, Next(w, s, RelayFlush))
    ensures !s.provider.Nothing? ==> Progress(s, Next(w, s, ProviderFlush))
    ensures s.provider.Nothing? && s.resyncs > 0 ==> Progress(s, Next(w, s, TakeResync))
  {
    assert !s.relay.Nothing? ==> |Frames(s.relay, Failed)| <= 2;
    assert !s.provider.Nothing? ==> |Frames(s.provider, Renewed(w, s))| <= 2;
  }

  lemma RelayTakeProgress<V, Op>(w: World<V, Op>, s: System<V, Op>)
    requires s.history != [] && s.relay.Nothing? && s.up != []
    ensures Enabled(w, s, RelayTake(Direct))
    ensures Progress(s, Next(w, s, RelayTake(Direct)))
  {
    var t := Next(w, s, RelayTake(Direct));
    assert |t.up| == |s.up| - 1 && |t.down| <= |s.down| + 1 && t.relay == s.relay && t.provider == s.provider;
  }

  /** Deliveries break a stream only by an error of the current value. */
  lemma DeliveryKeepsWhole<V, Op>(w: World<V, Op>, s: System<V, Op>, step: Step<V, Op>)
    requires Enabled(w, s, step) && Delivery(step) && s.fed
    ensures var t := Next(w, s, step);
            t.history == s.history && (Broken(w, t) ==> Broken(w, s) || Invalid(w, s))
  {
    match step
    case RelayTake(fate) =>
      var t := Next(w, s, step);
      assert t.history == s.history && t.provider == s.provider && t.failed == s.failed;
    case _ =>
  }

  /** The next delivery keeps the invariant, leaves less to deliver, and breaks nothing that is whole. */
  lemma NextDelivers<V, Op>(w: World<V, Op>, s: System<V, Op>)
    requires Inv(w, s) && s.fed && !Drained(s)
    ensures Enabled(w, s, NextDelivery(s)) && Delivery(NextDelivery(s))
    ensures var t := Next(w, s, NextDelivery(s));
            Inv(w, t) && Progress(s, t) && (Broken(w, t) ==> Broken(w, s) || Invalid(w, s))
  {
    DeliveryProgress(w, s);
    DeliveryKeepsWhole(w, s, NextDelivery(s));
    StepKeeps(w, s, NextDelivery(s));
  }

  /**
   * No interleaving wedges the stream: from every reachable state some deliveries alone, however much was dropped,
   * drain it, and bring the consumer to the source's current value if that passes its schema and so did the latest
   * snapshot.
   */
  lemma {:induction false} CanCatchUp<V, Op>(w: World<V, Op>, s: System<V, Op>) returns (steps: seq<Step<V, Op>>)
    requires Inv(w, s) && s.fed
    ensures CanRun(w, s, steps) && forall step | step in steps :: Delivery(step)
    ensures var t := After(w, s, steps);
            && Drained(t) && t.history == s.history
            && (!Broken(w, s) && !Invalid(w, s) ==> t.consumer == Some(At(s.history[s.Now()], s.Now())) && !t.stale)
    decreases Work(s)
  {
    if Drained(s) {
      steps := [];
      DrainedIsCurrent(w, s);
    } else {
      var step := NextDelivery(s);
      NextDelivers(w, s);
      var rest := CanCatchUp(w, Next(w, s, step));
      steps := [step] + rest;
      assert steps[1..] == rest;
    }
  }

  /** A valid reset of the source, whatever went wrong before, and some deliveries make the consumer current again. */
  lemma RenewalRecovers<V, Op>(w: World<V, Op>, s: System<V, Op>, v: V, fate: Fate) returns (steps: seq<Step<V, Op>>)
    requires Inv(w, s) && s.fed && w.valid(v) && Enabled(w, s, Renew(v, fate))
    ensures forall step | step in steps :: Delivery(step)
    ensures var t := Next(w, s, Renew(v, fate));
            CanRun(w, t, steps) && After(w, t, steps).consumer == Some(At(v, |s.history|))
  {
    RenewKeeps(w, s, v, fate);
    RenewalIsWhole(w, s, v, fate);
    steps := CanCatchUp(w, Next(w, s, Renew(v, fate)));
  }

  lemma RenewalIsWhole<V, Op>(w: World<V, Op>, s: System<V, Op>, v: V, fate: Fate)
    requires s.fed && w.valid(v) && Enabled(w, s, Renew(v, fate))
    ensures var t := Next(w, s, Renew(v, fate));
            t.fed && t.history == s.history + [v] && !Invalid(w, t) && !Broken(w, t)
  {
  }

  // ─── values that fail their schema ───

  /** This step builds the snapshot or reset of the current value (of the new one, if it is a renewal). */
  predicate Builds<V, Op>(s: System<V, Op>, step: Step<V, Op>) {
    step.Attach? || (step.Renew? && s.fed) || (step.ProviderFlush? && s.provider.Lazy?)
  }

  /** No value that fails its schema is snapshotted by this step: no `error` frame is built. */
  predicate Sound<V, Op>(w: World<V, Op>, s: System<V, Op>, step: Step<V, Op>)
    requires s.history != []
  {
    Builds(s, step) ==> if step.Renew? then w.valid(step.value) else !Invalid(w, s)
  }

  /** The provider's mark is of exactly the steps that build errors, until a step that builds a snapshot. */
  lemma FailedIff<V, Op>(w: World<V, Op>, s: System<V, Op>, step: Step<V, Op>)
    requires Enabled(w, s, step)
    ensures Next(w, s, step).failed <==> if Builds(s, step) then !Sound(w, s, step) else s.failed
  {
  }

  /** No step of the run snapshots a value that fails its schema. */
  ghost predicate SoundRun<V, Op>(w: World<V, Op>, s: System<V, Op>, steps: seq<Step<V, Op>>)
    requires s.history != [] && CanRun(w, s, steps)
    decreases |steps|
  {
    steps == [] || (Sound(w, s, steps[0]) && Next(w, s, steps[0]).history != []
                    && SoundRun(w, Next(w, s, steps[0]), steps[1..]))
  }

  predicate NoErrorWaits<V, Op>(waiting: Waiting<V, Op>) {
    waiting.Slot? && waiting.base.Some? ==> !waiting.base.value.Failed?
  }

  /** No error is under way, nor was one built or taken last. */
  ghost predicate NoErrors<V, Op>(s: System<V, Op>) {
    && (forall p | p in s.up :: !p.Failed?) && (forall p | p in s.down :: !p.Failed?)
    && NoErrorWaits(s.provider) && NoErrorWaits(s.relay) && !s.stale && !s.failed
  }

  lemma SoundStepNoErrors<V, Op>(w: World<V, Op>, s: System<V, Op>, step: Step<V, Op>)
    requires Relaying(s) && Enabled(w, s, step) && NoErrors(s) && Sound(w, s, step)
    ensures NoErrors(Next(w, s, step))
  {
  }

  /**
   * A run whose values pass their schemas tells the consumer of no error: it holds a value of the source throughout.
   */
  lemma {:induction false} SoundRunNeverStale<V, Op>(w: World<V, Op>, s: System<V, Op>, steps: seq<Step<V, Op>>)
    requires Inv(w, s) && NoErrors(s) && CanRun(w, s, steps) && SoundRun(w, s, steps)
    ensures NoErrors(After(w, s, steps))
    decreases |steps|
  {
    if steps != [] {
      StepKeeps(w, s, steps[0]);
      SoundStepNoErrors(w, s, steps[0]);
      SoundRunNeverStale(w, Next(w, s, steps[0]), steps[1..]);
    }
  }

  /** A run begins with a step and goes on from the state it leads to. */
  lemma Taken<V, Op>(w: World<V, Op>, s: System<V, Op>, step: Step<V, Op>, t: System<V, Op>, rest: seq<Step<V, Op>>)
    requires Enabled(w, s, step) && Next(w, s, step) == t && CanRun(w, t, rest)
    ensures CanRun(w, s, [step] + rest) && After(w, s, [step] + rest) == After(w, t, rest)
  {
    assert ([step] + rest)[1..] == rest;
  }

  lemma AddOne(apply: (int, int) -> int)
    requires forall v, op :: apply(v, op) == v + op
    ensures ApplyAll(apply, 7, [1]) == 8
    ensures Receive(Applier(apply), Some(At(0, 0)), Ops([Batch([1], 2)])) == Some(At(1, 2))
  {
    assert [1][..0] == [];
    assert ApplyAll(apply, 7, [1][..0]) == 7 && ApplyAll(apply, 0, [1][..0]) == 0;
    var batches := [Batch([1], 2)];
    assert batches[..0] == [];
    assert ApplyAll(Applier(apply), At(0, 0), batches[..0]) == At(0, 0);
  }

  const DELIVERIES: seq<Step<int, int>> :=
    [RelayTake(Direct), RelayTake(Direct), RelayTake(Direct), Deliver, Deliver, Deliver]

  /** The deliveries of a snapshot, an error and the ops after it. */
  lemma ErrorDelivered(w: World<int, int>, s: System<int, int>, batch: Frame<int, int>)
    requires forall v, op :: w.apply(v, op) == v + op
    requires batch == Ops([Batch([1], 2)])
    requires s == System([0, 7, 8], true, Nothing, [Snap(At(0, 0)), Failed, batch], 0, true, false, Nothing, [],
                         None, -1, false, [], true)
    ensures CanRun(w, s, DELIVERIES)
    ensures var t := After(w, s, DELIVERIES);
            && Drained(t) && t.stale && t.history == [0, 7, 8] && t.consumer == Some(At(1, 2))
            && t.reached == 0 && t.since == [1]
  {
    var snap: Frame<int, int> := Snap(At(0, 0));
    var s4 := s.(urgent := false, up := [Failed, batch], down := [snap]);
    var s5 := s4.(up := [batch], down := [snap, Failed]);
    var s6 := s5.(up := [], down := [snap, Failed, batch]);
    var s7 := s6.(down := [Failed, batch], consumer := Some(At(0, 0)), reached := 0);
    var s8 := s7.(down := [batch], stale := true);
    var s9 := s8.(down := [], consumer := Some(At(1, 2)), since := [1]);
    FlatOne(Batch([1], 2));
    AddOne(w.apply);
    Taken(w, s8, Deliver, s9, []);
    Taken(w, s7, Deliver, s8, [Deliver]);
    Taken(w, s6, Deliver, s7, [Deliver, Deliver]);
    Taken(w, s5, RelayTake(Direct), s6, [Deliver, Deliver, Deliver]);
    Taken(w, s4, RelayTake(Direct), s5, [RelayTake(Direct), Deliver, Deliver, Deliver]);
    Taken(w, s, RelayTake(Direct), s4, [RelayTake(Direct), RelayTake(Direct), Deliver, Deliver, Deliver]);
  }

  const START: System<int, int> :=
    System([0], false, Nothing, [], 0, true, false, Nothing, [], None, -1, false, [], false)

  /** The provider sends a snapshot, the error of a value that fails its schema, and ops after it. */
  lemma ErrorSent(w: World<int, int>, s: System<int, int>, rest: seq<Step<int, int>>)
    requires (forall v, op :: w.apply(v, op) == v + op) && (forall v :: w.valid(v) <==> v != 7)
    requires s == System([0, 7, 8], true, Nothing, [Snap(At(0, 0)), Failed, Ops([Batch([1], 2)])], 0, true, false,
                         Nothing, [], None, -1, false, [], true)
    requires CanRun(w, s, rest)
    ensures var steps := [Attach] + ([Renew(7, Direct)] + ([Change([1], Direct)] + rest));
            CanRun(w, START, steps) && After(w, START, steps) == After(w, s, rest)
  {
    var snap: Frame<int, int> := Snap(At(0, 0));
    var s1 := START.(fed := true, up := [snap]);
    var s2 := s1.(history := [0, 7], failed := true, up := [snap, Failed]);
    AddOne(w.apply);
    Taken(w, s2, Change([1], Direct), s, rest);
    Taken(w, s1, Renew(7, Direct), s2, [Change([1], Direct)] + rest);
    Taken(w, START, Attach, s1, [Renew(7, Direct)] + ([Change([1], Direct)] + rest));
  }

  /**
   * A value that fails its schema is announced by an error the consumer only reports: ops that follow apply to the
   * stale value, and the consumer holds a value the source never had.
   */
  lemma StaleAfterError()
    ensures var w := World((v: int, op: int) => v + op, (v: int) => v != 7);
            var steps := [Attach] + ([Renew(7, Direct)] + ([Change([1], Direct)] + DELIVERIES));
            && Initial(START) && CanRun(w, START, steps)
            && var t := After(w, START, steps);
               && Drained(t) && t.stale && t.history == [0, 7, 8] && t.consumer == Some(At(1, 2))
               && t.reached == 0 && t.since == [1]
  {
    var w := World((v: int, op: int) => v + op, (v: int) => v != 7);
    var batch: Frame<int, int> := Ops([Batch([1], 2)]);
    var s := System([0, 7, 8], true, Nothing, [Snap(At(0, 0)), Failed, batch], 0, true, false, Nothing, [], None, -1,
                    false, [], true);
    ErrorDelivered(w, s, batch);
    ErrorSent(w, s, DELIVERIES);
  }
}
