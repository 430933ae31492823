/**
 * A stream from its provider's connection through a relay's to a consumer, as the views of `Views`: no frame and no
 * slot knows where in the source's history it belongs. Every such run is a run of `Chain`, step by step, with the
 * indices erased; so what `Replication` proves of the consumer holds of it.
 */
module Simulation {
  import opened Lists
  import opened Streams
  import opened Views
  import R = Chain
  import Replication

  /**
   * How many of the provider's frames the relay took, how many asks the provider heard of, and how many frames arrived.
   */
  datatype Net<V, Op> = Net(provider: Feed<V, Op>, taken: nat, relay: Relay<V, Op>, heard: nat, arrived: nat,
                            consumer: Option<V>)

  datatype NetStep<V, Op> =
    | AtProvider(feed: FeedStep<V, Op>)
    | AtRelay(step: RelayStep<V, Op>)
    | AtConsumer

  /** Links are FIFO; a source never publishes an empty change; and only who has a snapshot asks for a reset. */
  ghost predicate Enabled<V, Op>(w: World<V, Op>, n: Net<V, Op>, step: NetStep<V, Op>) {
    match step
    case AtProvider(feed) =>
      && FeedEnabled(w, n.provider, feed) && (feed.Promised? ==> n.heard < n.relay.asked)
      && (feed.Changed? ==> feed.ops != [])
    case AtRelay(step) =>
      && RelayEnabled(n.relay, step)
      && (step.Taken? ==> n.taken < |n.provider.sent| && step.p == n.provider.sent[n.taken])
      && (step.AskedAgain? ==> !n.relay.urgent)
    case AtConsumer => n.arrived < |n.relay.sent|
  }

  ghost function Next<V, Op>(w: World<V, Op>, n: Net<V, Op>, step: NetStep<V, Op>): Net<V, Op>
    requires Enabled(w, n, step)
  {
    match step
    case AtProvider(feed) =>
      n.(provider := FeedNext(w, n.provider, feed), heard := if feed.Promised? then n.heard + 1 else n.heard)
    case AtRelay(step) =>
      n.(relay := RelayNext(n.relay, step), taken := if step.Taken? then n.taken + 1 else n.taken)
    case AtConsumer => n.(consumer := Receive(w.apply, n.consumer, n.relay.sent[n.arrived]), arrived := n.arrived + 1)
  }

  /** The stream has not begun. */
  predicate Initial<V, Op>(n: Net<V, Op>) {
    && !n.provider.fed && !n.provider.failed && n.provider.waiting.Nothing? && n.provider.sent == []
    && !n.relay.awaiting && n.relay.waiting.Nothing? && n.relay.sent == [] && n.relay.asked == 0
    && n.taken == 0 && n.heard == 0 && n.arrived == 0 && n.consumer.None?
  }

  // ─── without the indices ───

  function Plain<V, Op>(p: R.Frame<V, Op>): Payload<V, Op> {
    match p
    case Snap(v) => Snap(v.value)
    case Reset(v) => Reset(v.value)
    case Ops(batches) => Ops(R.Flat(batches))
    case Failed => Failed
  }

  function PlainAll<V, Op>(frames: seq<R.Frame<V, Op>>): (plain: seq<Payload<V, Op>>)
    ensures |plain| == |frames| && forall i | 0 <= i < |frames| :: plain[i] == Plain(frames[i])
  {
    seq(|frames|, i requires 0 <= i < |frames| => Plain(frames[i]))
  }

  function PlainSlot<V, Op>(waiting: Waiting<R.At<V>, R.Batch<Op>>): Waiting<V, Op> {
    match waiting
    case Nothing => Nothing
    case Lazy => Lazy
    case Slot(base, batches) => Slot(if base.Some? then Some(Plain(base.value)) else None, R.Flat(batches))
  }

  function PlainHeld<V>(held: Option<R.At<V>>): Option<V> {
    if held.Some? then Some(held.value.value) else None
  }

  /** No batch is of an empty change. */
  ghost predicate Solid<Op>(batches: seq<R.Batch<Op>>) {
    forall b | b in batches :: b.ops != []
  }

  ghost predicate SolidFrames<V, Op>(frames: seq<R.Frame<V, Op>>) {
    forall p: R.Frame<V, Op> | p in frames && p.Ops? :: Solid(p.ops)
  }

  ghost predicate SolidSlot<V, Op>(waiting: Waiting<R.At<V>, R.Batch<Op>>) {
    waiting.Slot? ==> Solid(waiting.ops) && (waiting.base.Some? ==> !waiting.base.value.Ops?)
  }

  /** Whether an error is the latest snapshot, reset or error among frames. */
  predicate Erred<V, Op>(frames: seq<Payload<V, Op>>) {
    frames != []
    && if frames[|frames| - 1].Ops? then Erred(frames[..|frames| - 1]) else frames[|frames| - 1].Failed?
  }

  /** The ops since the error that is the latest snapshot, reset or error among frames; none if it is no error. */
  function Since<V, Op>(frames: seq<Payload<V, Op>>): (since: seq<Op>)
    ensures !Erred(frames) ==> since == []
  {
    if frames == [] then []
    else
      var before, p := frames[..|frames| - 1], frames[|frames| - 1];
      if p.Ops? then Since(before) + if Erred(before) then p.ops else []
      else if p.Failed? then Since(before) else []
  }

  ghost predicate SameProvider<V, Op>(n: Net<V, Op>, s: R.System<V, Op>) {
    && s.history != [] && s.history[s.Now()] == n.provider.value
    && s.fed == n.provider.fed && s.failed == n.provider.failed && PlainSlot(s.provider) == n.provider.waiting
    && n.taken <= |n.provider.sent| && PlainAll(s.up) == n.provider.sent[n.taken..]
    && SolidSlot(s.provider) && SolidFrames(s.up)
  }

  ghost predicate SameRelay<V, Op>(n: Net<V, Op>, s: R.System<V, Op>) {
    && s.urgent == n.relay.urgent && s.awaiting == n.relay.awaiting && PlainSlot(s.relay) == n.relay.waiting
    && n.heard <= n.relay.asked && s.resyncs == n.relay.asked - n.heard && SolidSlot(s.relay)
  }

  ghost predicate SameConsumer<V, Op>(n: Net<V, Op>, s: R.System<V, Op>) {
    && n.arrived <= |n.relay.sent| && PlainAll(s.down) == n.relay.sent[n.arrived..]
    && PlainHeld(s.consumer) == n.consumer && s.stale == Erred(n.relay.sent[..n.arrived])
    && s.since == Since(n.relay.sent[..n.arrived])
  }

  /** `n` is `s` without the indices. */
  ghost predicate Same<V, Op>(n: Net<V, Op>, s: R.System<V, Op>) {
    SameProvider(n, s) && SameRelay(n, s) && SameConsumer(n, s)
  }

  /** The step of `Chain` that does the same. */
  function Match<V, Op>(n: Net<V, Op>, step: NetStep<V, Op>): R.Step<V, Op> {
    match step
    case AtProvider(Changed(ops, fate)) => R.Change(ops, fate)
    case AtProvider(Renewed(v, fate)) => R.Renew(v, fate)
    case AtProvider(Attached) => R.Attach
    case AtProvider(Detached) => R.Detach
    case AtProvider(MadeRoom) => R.ProviderDrop
    case AtProvider(Flushed) => R.ProviderFlush
    case AtProvider(Promised) => R.TakeResync
    case AtRelay(Taken(p, fate)) => R.RelayTake(if n.relay.awaiting && p.Ops? then Wait else fate)
    case AtRelay(RelayMadeRoom) => R.RelayDrop
    case AtRelay(RelayFlushed) => R.RelayFlush
    case AtRelay(AskedAgain) => R.Ask
    case AtConsumer => R.Deliver
  }

  // ─── erasing ───

  lemma {:induction false} FlatJoin<Op>(a: seq<R.Batch<Op>>, b: seq<R.Batch<Op>>)
    ensures R.Flat(a + b) == R.Flat(a) + R.Flat(b)
  {
    if b == [] {
      assert a + b == a;
    } else {
      var n := |b| - 1;
      assert (a + b)[..|a + b| - 1] == a + b[..n];
      FlatJoin(a, b[..n]);
    }
  }

  lemma FlatEmpty<Op>(batches: seq<R.Batch<Op>>)
    requires Solid(batches)
    ensures R.Flat(batches) == [] <==> batches == []
  {
    if batches != [] {
      assert batches[|batches| - 1] in batches;
    }
  }

  lemma PlainJoin<V, Op>(a: seq<R.Frame<V, Op>>, b: seq<R.Frame<V, Op>>)
    ensures PlainAll(a + b) == PlainAll(a) + PlainAll(b)
  {
  }

  lemma PlainRest<V, Op>(frames: seq<R.Frame<V, Op>>)
    requires frames != []
    ensures PlainAll(frames[1..]) == PlainAll(frames)[1..] && PlainAll(frames)[0] == Plain(frames[0])
  {
  }

  lemma CoalescePlain<V, Op>(waiting: Waiting<R.At<V>, R.Batch<Op>>, p: R.Frame<V, Op>)
    requires SolidSlot(waiting) && (p.Ops? ==> Solid(p.ops))
    ensures PlainSlot(Coalesce(waiting, p)) == Coalesce(PlainSlot(waiting), Plain(p)) && SolidSlot(Coalesce(waiting, p))
  {
    if p.Ops? && waiting.Slot? {
      FlatJoin(waiting.ops, p.ops);
    }
  }

  lemma FramesPlain<V, Op>(waiting: Waiting<R.At<V>, R.Batch<Op>>, renewed: R.Frame<V, Op>)
    requires SolidSlot(waiting) && !renewed.Ops?
    ensures PlainAll(Frames(waiting, renewed)) == Frames(PlainSlot(waiting), Plain(renewed))
    ensures SolidFrames(Frames(waiting, renewed))
  {
    if waiting.Slot? {
      FlatEmpty(waiting.ops);
    }
  }

  lemma ReceivePlain<V, Op>(w: World<V, Op>, held: Option<R.At<V>>, p: R.Frame<V, Op>)
    ensures PlainHeld(Receive(R.Applier(w.apply), held, p)) == Receive(w.apply, PlainHeld(held), Plain(p))
  {
    if p.Ops? && held.Some? {
      R.ApplyFlat(w, held.value, p.ops);
    }
  }

  // ─── every step is matched ───

  /** The provider's frames past those the relay took. */
  lemma SentOnward<V, Op>(sent: seq<Payload<V, Op>>, taken: nat, more: seq<Payload<V, Op>>)
    requires taken <= |sent|
    ensures (sent + more)[taken..] == sent[taken..] + more
  {
  }

  /** The provider sends frames: both links have them last. */
  lemma SendsMore<V, Op>(n: Net<V, Op>, up: seq<R.Frame<V, Op>>, frames: seq<R.Frame<V, Op>>)
    requires n.taken <= |n.provider.sent| && PlainAll(up) == n.provider.sent[n.taken..]
    ensures PlainAll(up + frames) == (n.provider.sent + PlainAll(frames))[n.taken..]
  {
    PlainJoin(up, frames);
    SentOnward(n.provider.sent, n.taken, PlainAll(frames));
  }

  lemma PassesMore<V, Op>(n: Net<V, Op>, down: seq<R.Frame<V, Op>>, frames: seq<R.Frame<V, Op>>)
    requires n.arrived <= |n.relay.sent| && PlainAll(down) == n.relay.sent[n.arrived..]
    ensures PlainAll(down + frames) == (n.relay.sent + PlainAll(frames))[n.arrived..]
    ensures (n.relay.sent + PlainAll(frames))[..n.arrived] == n.relay.sent[..n.arrived]
  {
    PlainJoin(down, frames);
    SentOnward(n.relay.sent, n.arrived, PlainAll(frames));
  }

  lemma PlainOne<V, Op>(p: R.Frame<V, Op>)
    ensures PlainAll([p]) == [Plain(p)]
  {
  }

  lemma SolidMore<V, Op>(a: seq<R.Frame<V, Op>>, b: seq<R.Frame<V, Op>>)
    requires SolidFrames(a) && SolidFrames(b)
    ensures SolidFrames(a + b)
  {
  }

  /** The provider's connection takes a frame. */
  lemma SendMatches<V, Op>(n: Net<V, Op>, s: R.System<V, Op>, p: R.Frame<V, Op>, fate: Fate)
    requires SameProvider(n, s) && (p.Ops? ==> Solid(p.ops)) && Allowed(n.provider.waiting, Plain(p), fate)
    ensures Allowed(s.provider, p, fate)
    ensures SameProvider(n.(provider := FeedSend(n.provider, Plain(p), fate)), R.ProviderSend(s, p, fate))
  {
    SendsMore(n, s.up, [p]);
    PlainOne(p);
    SolidMore(s.up, [p]);
    CoalescePlain(s.provider, p);
  }

  lemma ChangeMatches<V, Op>(w: World<V, Op>, n: Net<V, Op>, s: R.System<V, Op>, ops: seq<Op>, fate: Fate)
    requires Same(n, s) && Enabled(w, n, AtProvider(Changed(ops, fate)))
    ensures R.Enabled(w, s, R.Change(ops, fate))
    ensures Same(Next(w, n, AtProvider(Changed(ops, fate))), R.Next(w, s, R.Change(ops, fate)))
  {
    var value := ApplyAll(w.apply, n.provider.value, ops);
    var n', s' := n.(provider := n.provider.(value := value)), s.(history := s.history + [value]);
    if s.fed {
      var batch := R.Batch(ops, s.Now() + 1);
      R.FlatOne(batch);
      SendMatches(n', s', Ops([batch]), fate);
    }
  }

  lemma BuiltMatches<V, Op>(w: World<V, Op>, value: V, at: nat, first: bool)
    ensures Plain(R.Snapshot(w, value, at, first)) == Built(w.valid(value), value, first)
    ensures !R.Snapshot(w, value, at, first).Ops?
  {
  }

  lemma RenewMatches<V, Op>(w: World<V, Op>, n: Net<V, Op>, s: R.System<V, Op>, v: V, fate: Fate)
    requires Same(n, s) && Enabled(w, n, AtProvider(Renewed(v, fate)))
    ensures R.Enabled(w, s, R.Renew(v, fate))
    ensures Same(Next(w, n, AtProvider(Renewed(v, fate))), R.Next(w, s, R.Renew(v, fate)))
  {
    if s.fed {
      var n' := n.(provider := n.provider.(value := v, failed := !w.valid(v)));
      var s' := s.(history := s.history + [v], failed := !w.valid(v));
      BuiltMatches(w, v, s.Now() + 1, false);
      SendMatches(n', s', R.Snapshot(w, v, s.Now() + 1, false), fate);
    }
  }

  lemma AttachMatches<V, Op>(w: World<V, Op>, n: Net<V, Op>, s: R.System<V, Op>)
    requires Same(n, s) && Enabled(w, n, AtProvider(Attached))
    ensures R.Enabled(w, s, R.Attach) && Same(Next(w, n, AtProvider(Attached)), R.Next(w, s, R.Attach))
  {
    var p := R.Snapshot(w, s.history[s.Now()], s.Now(), true);
    BuiltMatches(w, n.provider.value, s.Now(), true);
    SendsMore(n, s.up, [p]);
    PlainOne(p);
    SolidMore(s.up, [p]);
  }

  lemma FlushMatches<V, Op>(w: World<V, Op>, n: Net<V, Op>, s: R.System<V, Op>)
    requires Same(n, s)
    ensures Same(Next(w, n, AtProvider(Flushed)), R.Next(w, s, R.ProviderFlush))
  {
    var renewed := R.Renewed(w, s);
    BuiltMatches(w, n.provider.value, s.Now(), false);
    FramesPlain(s.provider, renewed);
    SendsMore(n, s.up, Frames(s.provider, renewed));
    SolidMore(s.up, Frames(s.provider, renewed));
  }

  lemma OtherFeedMatches<V, Op>(w: World<V, Op>, n: Net<V, Op>, s: R.System<V, Op>, feed: FeedStep<V, Op>)
    requires Same(n, s) && Enabled(w, n, AtProvider(feed)) && (feed.Detached? || feed.MadeRoom? || feed.Promised?)
    ensures R.Enabled(w, s, Match(n, AtProvider(feed)))
    ensures Same(Next(w, n, AtProvider(feed)), R.Next(w, s, Match(n, AtProvider(feed))))
  {
  }

  lemma FeedMatches<V, Op>(w: World<V, Op>, n: Net<V, Op>, s: R.System<V, Op>, feed: FeedStep<V, Op>)
    requires Same(n, s) && Enabled(w, n, AtProvider(feed))
    ensures R.Enabled(w, s, Match(n, AtProvider(feed)))
    ensures Same(Next(w, n, AtProvider(feed)), R.Next(w, s, Match(n, AtProvider(feed))))
  {
    match feed
    case Changed(ops, fate) => ChangeMatches(w, n, s, ops, fate);
    case Renewed(v, fate) => RenewMatches(w, n, s, v, fate);
    case Attached => AttachMatches(w, n, s);
    case Flushed => FlushMatches(w, n, s);
    case _ => OtherFeedMatches(w, n, s, feed);
  }

  /** The relay takes the frame that comes next. */
  lemma TakesFirst<V, Op>(n: Net<V, Op>, s: R.System<V, Op>)
    requires SameProvider(n, s) && n.taken < |n.provider.sent|
    ensures s.up != [] && Plain(s.up[0]) == n.provider.sent[n.taken] && (s.up[0].Ops? ==> Solid(s.up[0].ops))
    ensures SameProvider(n.(taken := n.taken + 1), s.(up := s.up[1..]))
  {
    PlainRest(s.up);
    assert s.up[0] in s.up && forall p | p in s.up[1..] :: p in s.up;
  }

  /** The relay's connection forwards a frame. */
  lemma RelaySendMatches<V, Op>(n: Net<V, Op>, s: R.System<V, Op>, p: R.Frame<V, Op>, fate: Fate)
    requires SameRelay(n, s) && SameConsumer(n, s) && (p.Ops? ==> Solid(p.ops))
             && Allowed(n.relay.waiting, Plain(p), fate)
    ensures Allowed(s.relay, p, fate)
    ensures var n', s' := n.(relay := RelaySend(n.relay, Plain(p), fate)), R.RelaySend(s, p, fate);
            SameRelay(n', s') && SameConsumer(n', s')
  {
    PassesMore(n, s.down, [p]);
    PlainOne(p);
    CoalescePlain(s.relay, p);
  }

  lemma UrgentMatches<V, Op>(n: Net<V, Op>, s: R.System<V, Op>, p: R.Frame<V, Op>)
    requires SameRelay(n, s) && SameConsumer(n, s)
    ensures var n' := n.(relay := n.relay.(awaiting := false, urgent := false, sent := n.relay.sent + [Plain(p)]));
            var s' := s.(awaiting := false, urgent := false, down := s.down + [p]);
            SameRelay(n', s') && SameConsumer(n', s')
  {
    PassesMore(n, s.down, [p]);
    PlainOne(p);
  }

  lemma TakeMatches<V, Op>(w: World<V, Op>, n: Net<V, Op>, s: R.System<V, Op>, p: Payload<V, Op>, fate: Fate)
    requires Same(n, s) && Enabled(w, n, AtRelay(Taken(p, fate)))
    ensures R.Enabled(w, s, Match(n, AtRelay(Taken(p, fate))))
    ensures Same(Next(w, n, AtRelay(Taken(p, fate))), R.Next(w, s, Match(n, AtRelay(Taken(p, fate)))))
  {
    TakesFirst(n, s);
    var n', s' := n.(taken := n.taken + 1), s.(up := s.up[1..]);
    if n.relay.awaiting && p.Ops? {
    } else if n.relay.urgent {
      UrgentMatches(n', s', s.up[0]);
    } else {
      RelaySendMatches(n'.(relay := n'.relay.(awaiting := false)), s'.(awaiting := false), s.up[0], fate);
    }
  }

  lemma RelayMatches<V, Op>(w: World<V, Op>, n: Net<V, Op>, s: R.System<V, Op>, step: RelayStep<V, Op>)
    requires Same(n, s) && Enabled(w, n, AtRelay(step))
    ensures R.Enabled(w, s, Match(n, AtRelay(step)))
    ensures Same(Next(w, n, AtRelay(step)), R.Next(w, s, Match(n, AtRelay(step))))
  {
    match step
    case Taken(p, fate) => TakeMatches(w, n, s, p, fate);
    case RelayFlushed =>
      FramesPlain(s.relay, Failed);
      PassesMore(n, s.down, Frames(s.relay, Failed));
    case _ =>
  }

  lemma ErredMore<V, Op>(frames: seq<Payload<V, Op>>, p: Payload<V, Op>)
    ensures Erred(frames + [p]) <==> if p.Ops? then Erred(frames) else p.Failed?
    ensures Since(frames + [p]) == if p.Ops? && Erred(frames) then Since(frames) + p.ops
                                   else if p.Ops? || p.Failed? then Since(frames) else []
  {
    assert (frames + [p])[..|frames|] == frames;
  }

  /** What the consumer knows of errors after one more frame. */
  lemma ErredNext<V, Op>(sent: seq<Payload<V, Op>>, arrived: nat)
    requires arrived < |sent|
    ensures var p := sent[arrived];
            && (Erred(sent[..arrived + 1]) <==> if p.Ops? then Erred(sent[..arrived]) else p.Failed?)
            && Since(sent[..arrived + 1]) == if p.Ops? && Erred(sent[..arrived]) then Since(sent[..arrived]) + p.ops
                                             else if p.Ops? || p.Failed? then Since(sent[..arrived]) else []
  {
    ErredMore(sent[..arrived], sent[arrived]);
    assert sent[..arrived + 1] == sent[..arrived] + [sent[arrived]];
  }

  lemma DeliverMatches<V, Op>(w: World<V, Op>, n: Net<V, Op>, s: R.System<V, Op>)
    requires Same(n, s) && Enabled(w, n, AtConsumer)
    ensures R.Enabled(w, s, R.Deliver) && Same(Next(w, n, AtConsumer), R.Next(w, s, R.Deliver))
  {
    PlainRest(s.down);
    ReceivePlain(w, s.consumer, s.down[0]);
    ErredNext(n.relay.sent, n.arrived);
  }

  /** Forward simulation: whatever the connections do to a stream, `Chain` can do, and stays the same system. */
  lemma StepMatches<V, Op>(w: World<V, Op>, n: Net<V, Op>, s: R.System<V, Op>, step: NetStep<V, Op>)
    requires Same(n, s) && Enabled(w, n, step)
    ensures R.Enabled(w, s, Match(n, step)) && Same(Next(w, n, step), R.Next(w, s, Match(n, step)))
  {
    match step
    case AtProvider(feed) => FeedMatches(w, n, s, feed);
    case AtRelay(relayed) => RelayMatches(w, n, s, relayed);
    case AtConsumer => DeliverMatches(w, n, s);
  }

  // ─── runs ───

  ghost predicate CanRun<V, Op>(w: World<V, Op>, n: Net<V, Op>, steps: seq<NetStep<V, Op>>)
    decreases |steps|
  {
    steps == [] || (Enabled(w, n, steps[0]) && CanRun(w, Next(w, n, steps[0]), steps[1..]))
  }

  ghost function After<V, Op>(w: World<V, Op>, n: Net<V, Op>, steps: seq<NetStep<V, Op>>): Net<V, Op>
    requires CanRun(w, n, steps)
    decreases |steps|
  {
    if steps == [] then n else After(w, Next(w, n, steps[0]), steps[1..])
  }

  /** A change or a renewal gives the source a value, even the one it had. */
  predicate Writes<V, Op>(step: NetStep<V, Op>) {
    step.AtProvider? && (step.feed.Changed? || step.feed.Renewed?)
  }

  /** The values of the source, after a step. */
  ghost function Grown<V, Op>(w: World<V, Op>, n: Net<V, Op>, history: seq<V>, step: NetStep<V, Op>): seq<V>
    requires Enabled(w, n, step)
  {
    if Writes(step) then history + [Next(w, n, step).provider.value] else history
  }

  /** Whether an error is the latest snapshot, reset or error the consumer took. */
  ghost predicate Stale<V, Op>(n: Net<V, Op>) {
    n.arrived <= |n.relay.sent| && Erred(n.relay.sent[..n.arrived])
  }

  /** The consumer holds the source's value at a place in its history, with what followed an error applied to it. */
  ghost predicate HoldsAt<V, Op>(w: World<V, Op>, n: Net<V, Op>, history: seq<V>, place: int) {
    && -1 <= place < |history| && n.arrived <= |n.relay.sent|
    && n.consumer ==
       if place < 0 then None
       else Some(ApplyAll(w.apply, history[place], Since(n.relay.sent[..n.arrived])))
  }

  /** From `place` on, the consumer goes through the source's history without going back, all through the run. */
  ghost predicate Follows<V, Op>(w: World<V, Op>, n: Net<V, Op>, history: seq<V>, place: int,
                                 steps: seq<NetStep<V, Op>>)
    requires CanRun(w, n, steps)
    decreases |steps|
  {
    HoldsAt(w, n, history, place)
    && (steps == []
        || exists next :: place <= next
             && Follows(w, Next(w, n, steps[0]), Grown(w, n, history, steps[0]), next, steps[1..]))
  }

  lemma GrowsTheSame<V, Op>(w: World<V, Op>, n: Net<V, Op>, s: R.System<V, Op>, step: NetStep<V, Op>)
    requires Same(n, s) && Enabled(w, n, step) && R.Enabled(w, s, Match(n, step))
    ensures R.Next(w, s, Match(n, step)).history == Grown(w, n, s.history, step)
  {
    match step
    case AtProvider(feed) => FeedGrows(w, n, s, feed);
    case AtRelay(relayed) => RelayGrows(w, n, s, relayed);
    case AtConsumer =>
  }

  lemma FeedGrows<V, Op>(w: World<V, Op>, n: Net<V, Op>, s: R.System<V, Op>, feed: FeedStep<V, Op>)
    requires SameProvider(n, s) && Enabled(w, n, AtProvider(feed)) && R.Enabled(w, s, Match(n, AtProvider(feed)))
    ensures R.Next(w, s, Match(n, AtProvider(feed))).history == Grown(w, n, s.history, AtProvider(feed))
  {
    match feed
    case Changed(ops, fate) =>
    case Renewed(v, fate) =>
    case _ =>
  }

  lemma RelayGrows<V, Op>(w: World<V, Op>, n: Net<V, Op>, s: R.System<V, Op>, step: RelayStep<V, Op>)
    requires R.Enabled(w, s, Match(n, AtRelay(step)))
    ensures R.Next(w, s, Match(n, AtRelay(step))).history == s.history
  {
    match step
    case Taken(p, fate) =>
    case _ =>
  }

  lemma HoldsNow<V, Op>(w: World<V, Op>, n: Net<V, Op>, s: R.System<V, Op>)
    requires Same(n, s) && R.Inv(w, s)
    ensures HoldsAt(w, n, s.history, s.reached)
  {
  }

  /**
   * In every run of the connections' steps, without any index to go by: the consumer holds a value the source really
   * had, with the ops applied to it that followed an error, none unless an error is the latest it took; and it never
   * goes back in the source's history.
   */
  lemma {:induction false} ConsumerFollows<V, Op>(w: World<V, Op>, n: Net<V, Op>, s: R.System<V, Op>,
                                                  steps: seq<NetStep<V, Op>>)
    requires Same(n, s) && R.Inv(w, s) && CanRun(w, n, steps)
    ensures Follows(w, n, s.history, s.reached, steps)
    decreases |steps|
  {
    HoldsNow(w, n, s);
    if steps != [] {
      var step := Match(n, steps[0]);
      StepMatches(w, n, s, steps[0]);
      R.StepKeeps(w, s, step);
      Replication.StepNeverBack(w, s, step);
      GrowsTheSame(w, n, s, steps[0]);
      var t := R.Next(w, s, step);
      ConsumerFollows(w, Next(w, n, steps[0]), t, steps[1..]);
      assert s.reached <= t.reached;
    }
  }

  /** Where a stream begins, both begin. */
  function Begin<V, Op>(n: Net<V, Op>): R.System<V, Op> {
    R.System([n.provider.value], false, Nothing, [], 0, n.relay.urgent, false, Nothing, [], None, -1, false, [], false)
  }

  lemma BeginsTheSame<V, Op>(w: World<V, Op>, n: Net<V, Op>)
    requires Initial(n)
    ensures Same(n, Begin(n)) && R.Inv(w, Begin(n))
  {
    R.InitialInv(w, Begin(n));
  }

  /** The same of every run from a stream's beginning. */
  lemma EveryRunFollows<V, Op>(w: World<V, Op>, n: Net<V, Op>, steps: seq<NetStep<V, Op>>)
    requires Initial(n) && CanRun(w, n, steps)
    ensures Follows(w, n, [n.provider.value], -1, steps)
  {
    BeginsTheSame(w, n);
    ConsumerFollows(w, n, Begin(n), steps);
  }

  /** Everything sent arrived, nothing waits, and no reset is asked for. */
  predicate Drained<V, Op>(n: Net<V, Op>) {
    && n.taken == |n.provider.sent| && n.arrived == |n.relay.sent| && n.heard == n.relay.asked
    && n.provider.waiting.Nothing? && n.relay.waiting.Nothing?
  }

  lemma {:induction false} RunKeepsSame<V, Op>(w: World<V, Op>, n: Net<V, Op>, s: R.System<V, Op>,
                                               steps: seq<NetStep<V, Op>>)
    returns (t: R.System<V, Op>)
    requires Same(n, s) && R.Inv(w, s) && CanRun(w, n, steps)
    ensures Same(After(w, n, steps), t) && R.Inv(w, t)
    decreases |steps|
  {
    t := s;
    if steps != [] {
      StepMatches(w, n, s, steps[0]);
      R.StepKeeps(w, s, Match(n, steps[0]));
      t := RunKeepsSame(w, Next(w, n, steps[0]), R.Next(w, s, Match(n, steps[0])), steps[1..]);
    }
  }

  /** Whenever such a run has drained, the consumer holds the source's value, or was told last of its error. */
  lemma EveryRunDrainsCurrent<V, Op>(w: World<V, Op>, n: Net<V, Op>, steps: seq<NetStep<V, Op>>)
    requires Initial(n) && CanRun(w, n, steps) && Drained(After(w, n, steps)) && After(w, n, steps).provider.fed
    ensures var m := After(w, n, steps);
            (Stale(m) <==> m.provider.failed) && (!m.provider.failed ==> m.consumer == Some(m.provider.value))
  {
    BeginsTheSame(w, n);
    var t := RunKeepsSame(w, n, Begin(n), steps);
    DrainsTheSame(After(w, n, steps), t);
    Replication.DrainedIsCurrent(w, t);
  }

  lemma DrainsTheSame<V, Op>(n: Net<V, Op>, s: R.System<V, Op>)
    requires Same(n, s) && Drained(n)
    ensures Replication.Drained(s) && (s.stale <==> Stale(n))
  {
    assert n.relay.sent[..n.arrived] == n.relay.sent;
    assert |s.up| == |n.provider.sent[n.taken..]| && |s.down| == |n.relay.sent[n.arrived..]|;
  }
}
