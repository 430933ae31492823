/**
 * One state member replicated from its provider through a relay to a consumer, over two FIFO links, as a machine of
 * atomic steps. The flow control of `Connections` decides which steps happen when; here any of them may. That
 * connections do nothing else to a stream is in `Simulation`.
 *
 * Frames carry the index (`at`) of the source value they lead to. No step's effect on values, slots or links reads an
 * index, nor the observers `reached`, `stale`, `since` and `failed`: they only let the invariant say where in the
 * source's history a frame belongs, and which frames follow the error of a value that failed its schema.
 */
module Chain {
  import opened Lists
  import opened Streams

  datatype At<V> = At(value: V, at: nat)

  /** The ops of one source event. */
  datatype Batch<Op> = Batch(ops: seq<Op>, at: nat)

  type Frame<V, Op> = Payload<At<V>, Batch<Op>>

  datatype System<V, Op> = System(
    history: seq<V>,                        // every value the source ever had, the current one last
    fed: bool,                              // the provider streams the member to the relay
    provider: Waiting<At<V>, Batch<Op>>,
    up: seq<Frame<V, Op>>,                  // provider to relay
    resyncs: nat,                           // `resync` frames on their way from relay to provider
    urgent: bool,                           // the relay's next frame of the stream need not wait for its window
    awaiting: bool,                         // the relay dropped ops and ignores more until a reset arrives
    relay: Waiting<At<V>, Batch<Op>>,
    down: seq<Frame<V, Op>>,                // relay to consumer
    consumer: Option<At<V>>,
    reached: int,                           // the newest source value the consumer held (-1: none yet)
    stale: bool,                            // an error is the latest of the snapshots, resets and errors it took
    since: seq<Op>,                         // the ops it took since then, if so
    failed: bool)                           // an error is the latest of those the provider built
  {
    function Now(): int {
      |history| - 1
    }
  }

  datatype Step<V, Op> =
    | Change(ops: seq<Op>, fate: Fate)      // the source changes by ops
    | Renew(value: V, fate: Fate)           // the source is reset (a reload commit)
    | Attach                                // a unit is sent: its snapshot starts the stream
    | Detach                                // the member leaves the variant: its stream stops
    | ProviderDrop                          // another stream needed the room
    | ProviderFlush                         // an acknowledgement made room: what waits is sent
    | TakeResync                            // the provider handles a `resync`
    | RelayTake(relayFate: Fate)            // the relay handles a frame
    | RelayDrop
    | RelayFlush
    | Ask                                   // the consumer asks for a reset
    | Deliver                               // the consumer handles a frame

  function OpsFrame<V, Op>(batches: seq<Batch<Op>>): Frame<V, Op> {
    Ops(batches)
  }

  function ApplyBatch<V, Op>(apply: (V, Op) -> V, held: At<V>, batch: Batch<Op>): At<V> {
    At(ApplyAll(apply, held.value, batch.ops), batch.at)
  }

  /** The ops of batches, one after the other. */
  function Flat<Op>(batches: seq<Batch<Op>>): seq<Op> {
    if batches == [] then [] else Flat(batches[..|batches| - 1]) + batches[|batches| - 1].ops
  }

  function Applier<V, Op>(apply: (V, Op) -> V): (At<V>, Batch<Op>) -> At<V> {
    (held: At<V>, batch: Batch<Op>) => ApplyBatch(apply, held, batch)
  }

  function Snapshot<V, Op>(w: World<V, Op>, v: V, at: nat, first: bool): Frame<V, Op> {
    Built(w.valid(v), At(v, at), first)
  }

  function Renewed<V, Op>(w: World<V, Op>, s: System<V, Op>): Frame<V, Op>
    requires s.history != []
  {
    Snapshot(w, s.history[s.Now()], s.Now(), false)
  }

  /** The current value fails its schema. */
  predicate Invalid<V, Op>(w: World<V, Op>, s: System<V, Op>)
    requires s.history != []
  {
    !w.valid(s.history[s.Now()])
  }

  predicate Enabled<V, Op>(w: World<V, Op>, s: System<V, Op>, step: Step<V, Op>) {
    && s.history != []
    && match step
       case Change(ops, fate) => s.fed ==> Allowed(s.provider, Ops([Batch(ops, s.Now() + 1)]), fate)
       case Renew(v, fate) => s.fed ==> Allowed(s.provider, Snapshot(w, v, s.Now() + 1, false), fate)
       case Attach => !s.fed
       case Detach => s.fed
       case ProviderDrop => s.provider.Slot?
       case ProviderFlush => true
       case TakeResync => s.resyncs > 0
       case RelayTake(fate) => s.up != [] && (s.urgent || Allowed(s.relay, s.up[0], fate))
       case RelayDrop => s.relay.Slot?
       case RelayFlush => true
       case Ask => !s.urgent
       case Deliver => s.down != []
  }

  /** The provider's connection takes a frame of the stream. */
  function ProviderSend<V, Op>(s: System<V, Op>, p: Frame<V, Op>, fate: Fate): (t: System<V, Op>)
    ensures t == s.(up := t.up, provider := t.provider)
  {
    match fate
    case Direct => s.(up := s.up + [p])
    case Wait => s.(provider := Coalesce(s.provider, p))
    case Overflow => s.(provider := Overflowed(false))
  }

  /** The relay forwards a frame over the connection it came for. */
  function RelaySend<V, Op>(s: System<V, Op>, p: Frame<V, Op>, fate: Fate): (t: System<V, Op>)
    ensures t == s.(down := t.down, relay := t.relay, awaiting := t.awaiting, resyncs := t.resyncs)
  {
    match fate
    case Direct => s.(down := s.down + [p])
    case Wait => s.(relay := Coalesce(s.relay, p))
    case Overflow => s.(relay := Overflowed(true), awaiting := true, resyncs := s.resyncs + 1)
  }

  function Next<V, Op>(w: World<V, Op>, s: System<V, Op>, step: Step<V, Op>): System<V, Op>
    requires Enabled(w, s, step)
  {
    var now := s.Now();
    match step
    case Change(ops, fate) =>
      var s' := s.(history := s.history + [ApplyAll(w.apply, s.history[now], ops)]);
      if s.fed then ProviderSend(s', Ops([Batch(ops, now + 1)]), fate) else s'
    case Renew(v, fate) =>
      var s' := s.(history := s.history + [v]);
      if s.fed then ProviderSend(s'.(failed := !w.valid(v)), Snapshot(w, v, now + 1, false), fate) else s'
    case Attach => s.(fed := true, failed := Invalid(w, s), up := s.up + [Snapshot(w, s.history[now], now, true)])
    case Detach => s.(fed := false, provider := Nothing)
    case ProviderDrop => s.(provider := Overflowed(false))
    case ProviderFlush =>
      s.(provider := Nothing, failed := Broken(w, s), up := s.up + Frames(s.provider, Renewed(w, s)))
    case TakeResync => s.(resyncs := s.resyncs - 1, provider := if s.fed then Lazy else s.provider)
    case RelayTake(fate) =>
      var p, s' := s.up[0], s.(up := s.up[1..]);
      if s.awaiting && p.Ops? then s'
      else if s.urgent then s'.(awaiting := false, urgent := false, down := s.down + [p])
      else RelaySend(s'.(awaiting := false), p, fate)
    case RelayDrop => s.(relay := Overflowed(true), awaiting := true, resyncs := s.resyncs + 1)
    case RelayFlush => s.(relay := Nothing, down := s.down + Frames(s.relay, Failed))
    case Ask => s.(awaiting := true, resyncs := s.resyncs + 1)
    case Deliver => Take(w, s.(down := s.down[1..]), s.down[0])
  }

  /** The consumer takes a frame. */
  function Take<V, Op>(w: World<V, Op>, s: System<V, Op>, p: Frame<V, Op>): System<V, Op> {
    var got, stale := Receive(Applier(w.apply), s.consumer, p), if p.Ops? then s.stale else p.Failed?;
    s.(consumer := got, stale := stale, reached := if !stale && got.Some? then got.value.at else s.reached,
       since := if p.Ops? && stale then s.since + Flat(p.ops) else if stale then s.since else [])
  }

  /** The stream's latest snapshot or reset, or the one promised, is the error of a value that fails its schema. */
  predicate Broken<V, Op>(w: World<V, Op>, s: System<V, Op>)
    requires s.history != []
  {
    if s.provider.Lazy? then Invalid(w, s) else s.failed
  }

  predicate Initial<V, Op>(s: System<V, Op>) {
    && |s.history| == 1 && !s.fed && s.provider.Nothing? && s.up == [] && s.resyncs == 0
    && !s.awaiting && s.relay.Nothing? && s.down == []
    && s.consumer.None? && s.reached == -1 && !s.stale && s.since == []
  }

  // ─── where frames lead ───

  /** Where a receiver stands: the newest source value it held, and whether an error came since. */
  datatype Place = Place(at: int, stale: bool)

  /** Where a frame takes a receiver; None if it leaves a gap. Ops that follow an error bring it nowhere. */
  function Advance<V, Op>(i: Place, p: Frame<V, Op>): Option<Place> {
    match p
    case Snap(v) => if i.at <= v.at then Some(Place(v.at, false)) else None
    case Reset(v) => if i.at <= v.at then Some(Place(v.at, false)) else None
    case Failed => Some(Place(i.at, true))
    case Ops(batches) =>
      if i.stale then Some(i)
      else if i.at < 0 || AdvanceBatches(i.at, batches).None? then None
      else Some(Place(AdvanceBatches(i.at, batches).value, false))
  }

  function AdvanceBatches<Op>(i: int, batches: seq<Batch<Op>>): Option<int> {
    if batches == [] then Some(i)
    else
      var n := |batches| - 1;
      var before := AdvanceBatches(i, batches[..n]);
      if before.Some? && batches[n].at == before.value + 1 then Some(batches[n].at) else None
  }

  /** Where frames take what a relay forwards, and whether it still awaits a reset after them. */
  datatype Relayed = Relayed(place: Option<Place>, awaiting: bool)

  function Forward<V, Op>(r: Relayed, p: Frame<V, Op>): Relayed {
    if r.awaiting && p.Ops? then r
    else if r.place.None? then Relayed(None, false)
    else Relayed(Advance(r.place.value, p), false)
  }

  function ForwardAll<V, Op>(r: Relayed, frames: seq<Frame<V, Op>>): Relayed
    decreases |frames|
  {
    if frames == [] then r else ForwardAll(Forward(r, frames[0]), frames[1..])
  }

  /** Where the consumer stands, and after it the frames on its link, what waits at the relay, and so on up. */
  ghost function Held<V, Op>(s: System<V, Op>): Relayed {
    Relayed(Some(Place(s.reached, s.stale)), false)
  }

  ghost function Delivered<V, Op>(s: System<V, Op>): Relayed {
    ForwardAll(Held(s), s.down)
  }

  ghost function Sent<V, Op>(s: System<V, Op>): Relayed {
    ForwardAll(Delivered(s), Frames(s.relay, Failed))
  }

  ghost function Arrived<V, Op>(s: System<V, Op>): Relayed {
    ForwardAll(Sent(s).(awaiting := s.awaiting), s.up)
  }

  ghost function Produced<V, Op>(w: World<V, Op>, s: System<V, Op>): Relayed
    requires s.history != []
  {
    ForwardAll(Arrived(s), Frames(s.provider, Renewed(w, s)))
  }

  /** A frame says the truth about the source's history. */
  ghost predicate Truthful<V, Op>(w: World<V, Op>, history: seq<V>, p: Frame<V, Op>) {
    match p
    case Snap(v) => v.at < |history| && history[v.at] == v.value
    case Reset(v) => v.at < |history| && history[v.at] == v.value
    case Failed => true
    case Ops(batches) => TruthfulBatches(w, history, batches)
  }

  ghost predicate TruthfulBatches<V, Op>(w: World<V, Op>, history: seq<V>, batches: seq<Batch<Op>>) {
    forall b | b in batches :: 0 < b.at < |history| && ApplyAll(w.apply, history[b.at - 1], b.ops) == history[b.at]
  }

  ghost predicate AllTruthful<V, Op>(w: World<V, Op>, history: seq<V>, frames: seq<Frame<V, Op>>) {
    forall p | p in frames :: Truthful(w, history, p)
  }

  ghost predicate TruthfulWaiting<V, Op>(w: World<V, Op>, history: seq<V>, waiting: Waiting<At<V>, Batch<Op>>) {
    waiting.Slot? ==>
      && (waiting.base.Some? ==> !waiting.base.value.Ops? && Truthful(w, history, waiting.base.value))
      && TruthfulBatches(w, history, waiting.ops)
  }

  /** Everything under way is about the source's history. */
  ghost predicate Content<V, Op>(w: World<V, Op>, s: System<V, Op>) {
    && AllTruthful(w, s.history, s.up) && AllTruthful(w, s.history, s.down)
    && TruthfulWaiting(w, s.history, s.provider) && TruthfulWaiting(w, s.history, s.relay)
    && Faithful(w, s)
  }

  /** The consumer holds a value the source had, with the ops applied to it that it took after an error. */
  ghost predicate Faithful<V, Op>(w: World<V, Op>, s: System<V, Op>) {
    && -1 <= s.reached < |s.history|
    && (s.reached < 0 ==> s.consumer.None?)
    && (0 <= s.reached ==>
          s.consumer.Some? && s.consumer.value.value == ApplyAll(w.apply, s.history[s.reached], s.since))
    && (!s.stale ==> s.since == [] && (0 <= s.reached ==> s.consumer.value.at == s.reached))
  }

  /** A stream ends here: at the current value unless its latest snapshot is an error, or a reset was asked for. */
  predicate EndsAt<V, Op>(s: System<V, Op>, r: Relayed, broken: bool)
    requires s.history != []
  {
    && r.place.Some? && r.place.value.at < |s.history|
    && (s.fed && r.awaiting ==> s.resyncs > 0)
    && (s.fed && !r.awaiting ==> r.place.value.stale == broken && (!broken ==> r.place.value.at == s.Now()))
  }

  /**
   * The frames under way continue the consumer's value without a gap, up to the source's current value, except for what
   * the relay asked to be reset, and for what follows an error.
   */
  ghost predicate Gapless<V, Op>(w: World<V, Op>, s: System<V, Op>)
    requires s.history != []
  {
    && EndsAt(s, Produced(w, s), Broken(w, s)) && (!s.fed ==> s.provider.Nothing?) && Relaying(s)
  }

  /** A relay promises nothing, and what it forwards past the window comes first. */
  predicate Relaying<V, Op>(s: System<V, Op>) {
    !s.relay.Lazy? && (s.urgent ==> s.relay.Nothing? && !s.awaiting)
  }

  ghost predicate Inv<V, Op>(w: World<V, Op>, s: System<V, Op>) {
    s.history != [] && Content(w, s) && Gapless(w, s)
  }

  // ─── how frames add up ───

  lemma {:induction false} ForwardJoin<V, Op>(r: Relayed, a: seq<Frame<V, Op>>, b: seq<Frame<V, Op>>)
    ensures ForwardAll(r, a + b) == ForwardAll(ForwardAll(r, a), b)
    decreases |a|
  {
    if a == [] {
      assert a + b == b;
    } else {
      assert (a + b)[1..] == a[1..] + b;
      ForwardJoin(Forward(r, a[0]), a[1..], b);
    }
  }

  lemma ForwardOne<V, Op>(r: Relayed, p: Frame<V, Op>)
    ensures ForwardAll(r, [p]) == Forward(r, p)
  {
    var none: seq<Frame<V, Op>> := [p][1..];
    assert ForwardAll(Forward(r, p), none) == Forward(r, p);
  }

  lemma {:induction false} BatchesJoin<Op>(i: int, a: seq<Batch<Op>>, b: seq<Batch<Op>>)
    ensures AdvanceBatches(i, a + b) ==
            var mid := AdvanceBatches(i, a); if mid.None? then None else AdvanceBatches(mid.value, b)
  {
    if b == [] {
      assert a + b == a;
    } else {
      var n := |b| - 1;
      assert (a + b)[..|a + b| - 1] == a + b[..n];
      BatchesJoin(i, a, b[..n]);
    }
  }

  /** Batches only go forward. */
  lemma {:induction false} BatchesForward<Op>(i: int, batches: seq<Batch<Op>>)
    requires AdvanceBatches(i, batches).Some?
    ensures AdvanceBatches(i, batches).value >= i
  {
    if batches != [] {
      BatchesForward(i, batches[..|batches| - 1]);
    }
  }

  lemma AdvanceForward<V, Op>(i: Place, p: Frame<V, Op>)
    requires Advance(i, p).Some?
    ensures i.at <= Advance(i, p).value.at
  {
    if p.Ops? && !i.stale {
      BatchesForward(i.at, p.ops);
    }
  }

  /** Frames only go forward, and a relay that stopped awaiting a reset does not start again by itself. */
  lemma {:induction false} ForwardMonotone<V, Op>(r: Relayed, frames: seq<Frame<V, Op>>)
    ensures !r.awaiting ==> !ForwardAll(r, frames).awaiting
    ensures ForwardAll(r, frames).place.Some? ==>
              r.place.Some? && r.place.value.at <= ForwardAll(r, frames).place.value.at
    decreases |frames|
  {
    if frames != [] {
      ForwardMonotone(Forward(r, frames[0]), frames[1..]);
      if r.place.Some? && Advance(r.place.value, frames[0]).Some? {
        AdvanceForward(r.place.value, frames[0]);
      }
    }
  }

  /**
   * `a` saw no more than `b`: it is no further, and if it awaits no reset, both stand at the same value unless an error
   * came last for both.
   */
  predicate Behind(a: Relayed, b: Relayed) {
    && a.place.Some? && b.place.Some? && a.place.value.at <= b.place.value.at
    && (!a.awaiting ==> !b.awaiting && a.place.value.stale == b.place.value.stale
                        && (!a.place.value.stale ==> a.place == b.place))
  }

  /** A snapshot, reset or error brings both to the same, wherever they were. */
  lemma BaseMeets<V, Op>(a: Relayed, b: Relayed, p: Frame<V, Op>)
    requires !p.Ops? && a.place.Some? && b.place.Some? && a.place.value.at <= b.place.value.at
    requires Forward(b, p).place.Some?
    ensures Behind(Forward(a, p), Forward(b, p)) && !Forward(a, p).awaiting
  {
  }

  lemma StaysBehind<V, Op>(a: Relayed, b: Relayed, p: Frame<V, Op>)
    requires Behind(a, b) && Forward(b, p).place.Some?
    ensures Behind(Forward(a, p), Forward(b, p))
  {
    if !p.Ops? {
      BaseMeets(a, b, p);
    } else if !b.awaiting {
      AdvanceForward(b.place.value, p);
    }
  }

  /** What a relay ignores while it awaits a reset is covered by the reset, as is what a newer base replaced. */
  lemma {:induction false} AllStayBehind<V, Op>(a: Relayed, b: Relayed, frames: seq<Frame<V, Op>>)
    requires Behind(a, b) && ForwardAll(b, frames).place.Some?
    ensures Behind(ForwardAll(a, frames), ForwardAll(b, frames))
    decreases |frames|
  {
    if frames != [] {
      ForwardMonotone(Forward(b, frames[0]), frames[1..]);
      StaysBehind(a, b, frames[0]);
      AllStayBehind(Forward(a, frames[0]), Forward(b, frames[0]), frames[1..]);
    }
  }

  /** Where a base with ops after it leads. */
  lemma SlotForward<V, Op>(r: Relayed, base: Option<Frame<V, Op>>, batches: seq<Batch<Op>>, renewed: Frame<V, Op>)
    ensures var based := if base.Some? then Forward(r, base.value) else r;
            ForwardAll(r, Frames(Slot(base, batches), renewed)) ==
            if batches == [] then based else Forward(based, OpsFrame<V, Op>(batches))
  {
    var front := if base.Some? then [base.value] else [];
    var rest: seq<Frame<V, Op>> := if batches == [] then [] else [Ops(batches)];
    ForwardJoin(r, front, rest);
    if base.Some? {
      ForwardOne(r, base.value);
    }
    if batches != [] {
      ForwardOne(ForwardAll(r, front), rest[0]);
    }
  }

  lemma OpsForward<V, Op>(r: Relayed, a: seq<Batch<Op>>, b: seq<Batch<Op>>)
    requires r.place.Some? && !r.awaiting && !r.place.value.stale ==> r.place.value.at >= 0
    ensures Forward(Forward(r, OpsFrame<V, Op>(a)), OpsFrame<V, Op>(b)) == Forward(r, OpsFrame<V, Op>(a + b))
  {
    if r.place.Some? && !r.awaiting && !r.place.value.stale {
      BatchesJoin(r.place.value.at, a, b);
      if AdvanceBatches(r.place.value.at, a).Some? {
        BatchesForward(r.place.value.at, a);
      }
    }
  }

  /** Waiting leaves no gap: a frame that joined what waits leads where what waited and then the frame would. */
  lemma CoalesceForward<V, Op>(r: Relayed, w: Waiting<At<V>, Batch<Op>>, p: Frame<V, Op>, renewed: Frame<V, Op>)
    requires p.Ops? ==> !w.Lazy?
    requires Forward(ForwardAll(r, Frames(w, renewed)), p).place.Some?
    ensures var joined := ForwardAll(r, Frames(Coalesce(w, p), renewed));
            var apart := Forward(ForwardAll(r, Frames(w, renewed)), p);
            Behind(joined, apart) && joined.awaiting == apart.awaiting
  {
    ForwardMonotone(r, Frames(w, renewed));
    if !p.Ops? {
      SlotForward(r, Some(p), [], renewed);
      BaseMeets(r, ForwardAll(r, Frames(w, renewed)), p);
    } else if w.Nothing? {
      SlotForward(r, None, p.ops, renewed);
    } else {
      SlotForward(r, w.base, w.ops, renewed);
      SlotForward(r, w.base, w.ops + p.ops, renewed);
      var based := if w.base.Some? then Forward(r, w.base.value) else r;
      if w.ops == [] {
        assert w.ops + p.ops == p.ops;
      } else {
        OpsForward<V, Op>(based, w.ops, p.ops);
      }
    }
  }

  // ─── every step keeps the invariant ───

  /** What is true of the history stays true when it grows. */
  lemma ContentGrows<V, Op>(w: World<V, Op>, s: System<V, Op>, v: V)
    requires Content(w, s)
    ensures Content(w, s.(history := s.history + [v]))
  {
  }

  lemma TruthfulCoalesce<V, Op>(w: World<V, Op>, history: seq<V>, waiting: Waiting<At<V>, Batch<Op>>, p: Frame<V, Op>)
    requires TruthfulWaiting(w, history, waiting) && Truthful(w, history, p)
    ensures TruthfulWaiting(w, history, Coalesce(waiting, p))
  {
  }

  lemma TruthfulFrames<V, Op>(w: World<V, Op>, history: seq<V>, waiting: Waiting<At<V>, Batch<Op>>,
                              renewed: Frame<V, Op>)
    requires TruthfulWaiting(w, history, waiting) && Truthful(w, history, renewed)
    ensures AllTruthful(w, history, Frames(waiting, renewed))
  {
  }

  /** What arrived and then waits ends no further than the newest value. */
  lemma ArrivedFirst<V, Op>(w: World<V, Op>, s: System<V, Op>)
    requires Inv(w, s)
    ensures Arrived(s).place.Some? && Arrived(s).place.value.at <= Produced(w, s).place.value.at
  {
    ForwardMonotone(Arrived(s), Frames(s.provider, Renewed(w, s)));
  }

  /** A stream that is promised a reset ends at the current value, or with its error. */
  lemma LazyProduces<V, Op>(w: World<V, Op>, s: System<V, Op>)
    requires s.history != [] && Arrived(s).place.Some? && Arrived(s).place.value.at <= s.Now()
    ensures EndsAt(s.(provider := Lazy), Produced(w, s.(provider := Lazy)), Invalid(w, s))
    ensures !Produced(w, s.(provider := Lazy)).awaiting
    ensures Produced(w, s.(provider := Nothing)) == Arrived(s)
  {
    ForwardOne(Arrived(s), Renewed(w, s));
  }

  lemma OneBatch<Op>(batches: seq<Batch<Op>>, at: nat)
    requires |batches| == 1 && batches[0].at == at
    ensures AdvanceBatches(at - 1, batches) == Some(at)
  {
    assert batches[..0] == [];
    assert AdvanceBatches(at - 1, batches[..0]) == Some(at - 1);
  }

  /** `p` ends the stream, if it comes after everything before it; a promised reset ends it already. */
  ghost predicate Ends<V, Op>(w: World<V, Op>, s: System<V, Op>, p: Frame<V, Op>)
    requires s.history != []
  {
    && s.fed && Produced(w, s).place.Some? && Produced(w, s).place.value.at < |s.history|
    && if p.Ops? && s.provider.Lazy? then EndsAt(s, Produced(w, s), Invalid(w, s))
       else EndsAt(s, Forward(Produced(w, s), p), s.failed)
  }

  lemma DirectEnds<V, Op>(w: World<V, Op>, s: System<V, Op>, p: Frame<V, Op>)
    requires s.history != [] && Ends(w, s, p) && s.provider.Nothing?
    ensures var t := s.(up := s.up + [p]); EndsAt(t, Produced(w, t), s.failed)
  {
    ForwardJoin(Sent(s).(awaiting := s.awaiting), s.up, [p]);
    ForwardOne(Arrived(s), p);
  }

  lemma WaitEnds<V, Op>(w: World<V, Op>, s: System<V, Op>, p: Frame<V, Op>)
    requires s.history != [] && Ends(w, s, p)
    ensures var t := s.(provider := Coalesce(s.provider, p)); EndsAt(t, Produced(w, t), Broken(w, t))
  {
    var t := s.(provider := Coalesce(s.provider, p));
    assert Arrived(t) == Arrived(s) && Renewed(w, t) == Renewed(w, s);
    if !(p.Ops? && s.provider.Lazy?) {
      CoalesceForward(Arrived(s), s.provider, p, Renewed(w, s));
    }
  }

  /**
   * Flow control may do with a frame what it likes: the stream ends where it would if the frame came after all of it.
   */
  lemma ProviderSendEnds<V, Op>(w: World<V, Op>, s: System<V, Op>, p: Frame<V, Op>, fate: Fate)
    requires s.history != [] && Allowed(s.provider, p, fate) && Ends(w, s, p)
    ensures var t := ProviderSend(s, p, fate); EndsAt(t, Produced(w, t), Broken(w, t))
  {
    match fate
    case Direct => DirectEnds(w, s, p);
    case Wait => WaitEnds(w, s, p);
    case Overflow =>
      ForwardMonotone(Arrived(s), Frames(s.provider, Renewed(w, s)));
      LazyProduces(w, s);
  }

  /** The provider's connection takes the frame of the source's newest value. */
  lemma ProviderSendKeeps<V, Op>(w: World<V, Op>, s: System<V, Op>, p: Frame<V, Op>, fate: Fate)
    requires s.history != [] && Content(w, s) && Allowed(s.provider, p, fate) && Truthful(w, s.history, p)
    requires Relaying(s) && Ends(w, s, p)
    ensures Inv(w, ProviderSend(s, p, fate))
  {
    ProviderSendEnds(w, s, p, fate);
    TruthfulCoalesce(w, s.history, s.provider, p);
  }

  /** The source has a new value that no frame under way knows yet. */
  lemma HistoryGrows<V, Op>(w: World<V, Op>, s: System<V, Op>, v: V)
    requires Inv(w, s)
    ensures var t := s.(history := s.history + [v]);
            && Content(w, t) && Produced(w, t).place.Some? && Produced(w, t).place.value.at < |t.history|
            && if s.provider.Lazy? then EndsAt(t, Produced(w, t), Invalid(w, t)) else Produced(w, t) == Produced(w, s)
  {
    var t := s.(history := s.history + [v]);
    ContentGrows(w, s, v);
    ArrivedFirst(w, s);
    if s.provider.Lazy? {
      assert Arrived(t) == Arrived(s);
      LazyProduces(w, t);
      assert t.(provider := Lazy) == t;
    }
  }

  lemma ChangeKeeps<V, Op>(w: World<V, Op>, s: System<V, Op>, ops: seq<Op>, fate: Fate)
    requires Inv(w, s) && Enabled(w, s, Change(ops, fate))
    ensures Inv(w, Next(w, s, Change(ops, fate)))
  {
    var t := s.(history := s.history + [ApplyAll(w.apply, s.history[s.Now()], ops)]);
    HistoryGrows(w, s, ApplyAll(w.apply, s.history[s.Now()], ops));
    if s.fed {
      OpsEnd(w, s, t, [Batch(ops, t.Now())]);
      ProviderSendKeeps(w, t, Ops([Batch(ops, t.Now())]), fate);
    }
  }

  /** The ops of a change end the stream at the new value, if it ended at the former one. */
  lemma OpsEnd<V, Op>(w: World<V, Op>, s: System<V, Op>, t: System<V, Op>, batches: seq<Batch<Op>>)
    requires Inv(w, s) && s.fed && t == s.(history := t.history) && |t.history| == |s.history| + 1
    requires !s.provider.Lazy? ==> Produced(w, t) == Produced(w, s)
    requires |batches| == 1 && batches[0].at == t.Now()
    ensures !s.provider.Lazy? ==> EndsAt(t, Forward(Produced(w, t), OpsFrame<V, Op>(batches)), t.failed)
  {
    OneBatch(batches, t.Now());
  }

  lemma RenewKeeps<V, Op>(w: World<V, Op>, s: System<V, Op>, v: V, fate: Fate)
    requires Inv(w, s) && Enabled(w, s, Renew(v, fate))
    ensures Inv(w, Next(w, s, Renew(v, fate)))
  {
    HistoryGrows(w, s, v);
    if s.fed {
      var t := s.(history := s.history + [v]);
      var t' := t.(failed := !w.valid(v));
      assert Produced(w, t') == Produced(w, t);
      ProviderSendKeeps(w, t', Snapshot(w, v, t.Now(), false), fate);
    }
  }

  lemma AttachKeeps<V, Op>(w: World<V, Op>, s: System<V, Op>)
    requires Inv(w, s) && Enabled(w, s, Attach)
    ensures Inv(w, Next(w, s, Attach))
  {
    ArrivedFirst(w, s);
    var p := Snapshot(w, s.history[s.Now()], s.Now(), true);
    ForwardJoin(Sent(s).(awaiting := s.awaiting), s.up, [p]);
    ForwardOne(Arrived(s), p);
  }

  lemma ProviderFlushKeeps<V, Op>(w: World<V, Op>, s: System<V, Op>)
    requires Inv(w, s) && Enabled(w, s, ProviderFlush)
    ensures Inv(w, Next(w, s, ProviderFlush))
  {
    TruthfulFrames(w, s.history, s.provider, Renewed(w, s));
    ForwardJoin(Sent(s).(awaiting := s.awaiting), s.up, Frames(s.provider, Renewed(w, s)));
  }

  /** The provider's slot becomes a promise, or goes with its stream. */
  lemma ProviderSlotKeeps<V, Op>(w: World<V, Op>, s: System<V, Op>, step: Step<V, Op>)
    requires Inv(w, s) && Enabled(w, s, step) && (step.Detach? || step.ProviderDrop? || step.TakeResync?)
    ensures Inv(w, Next(w, s, step))
  {
    ArrivedFirst(w, s);
    LazyProduces(w, s);
    var t := Next(w, s, step);
    assert Arrived(t) == Arrived(s) && Renewed(w, t) == Renewed(w, s);
    assert Produced(w, t) == ForwardAll(Arrived(s), Frames(t.provider, Renewed(w, s)));
  }

  /** The stream still ends where it did, if what is sent to the consumer is no further than it was. */
  lemma ProducedBehind<V, Op>(w: World<V, Op>, s: System<V, Op>, t: System<V, Op>, next: Relayed)
    requires s.history != [] && EndsAt(s, Produced(w, s), Broken(w, s)) && Relaying(t)
    requires t == s.(down := t.down, relay := t.relay, up := t.up, awaiting := t.awaiting, urgent := t.urgent,
                     resyncs := t.resyncs)
    requires s.resyncs <= t.resyncs && (s.fed && t.awaiting ==> t.resyncs > 0) && (!s.fed ==> s.provider.Nothing?)
    requires Produced(w, s) == ForwardAll(ForwardAll(next, t.up), Frames(s.provider, Renewed(w, s)))
    requires Behind(Sent(t).(awaiting := t.awaiting), next)
    ensures Gapless(w, t)
  {
    var frames := Frames(s.provider, Renewed(w, s));
    ForwardMonotone(ForwardAll(next, t.up), frames);
    AllStayBehind(Sent(t).(awaiting := t.awaiting), next, t.up);
    AllStayBehind(Arrived(t), ForwardAll(next, t.up), frames);
    ForwardMonotone(Sent(t).(awaiting := t.awaiting), t.up);
    ForwardMonotone(Arrived(t), frames);
  }

  /** Where the frame that arrives at the relay leads. */
  lemma RelayedNext<V, Op>(w: World<V, Op>, s: System<V, Op>)
    requires Inv(w, s) && s.up != [] && !(s.awaiting && s.up[0].Ops?)
    ensures Sent(s).place.Some? && Forward(Sent(s), s.up[0]).place.Some? && !Sent(s).awaiting
    ensures Produced(w, s) ==
            ForwardAll(ForwardAll(Forward(Sent(s), s.up[0]), s.up[1..]), Frames(s.provider, Renewed(w, s)))
    ensures Delivered(s).place.Some? && Delivered(s).place.value.at <= Sent(s).place.value.at && !Delivered(s).awaiting
    ensures Sent(s).place.value.at <= Forward(Sent(s), s.up[0]).place.value.at
  {
    var next := Forward(Sent(s), s.up[0]);
    ForwardMonotone(Held(s), s.down);
    ForwardMonotone(Delivered(s), Frames(s.relay, Failed));
    ArrivedFirst(w, s);
    ForwardMonotone(next, s.up[1..]);
    AdvanceForward(Sent(s).place.value, s.up[0]);
  }

  lemma RelaySendKeeps<V, Op>(w: World<V, Op>, s: System<V, Op>, fate: Fate)
    requires Inv(w, s) && s.up != [] && !(s.awaiting && s.up[0].Ops?)
    requires Allowed(s.relay, s.up[0], fate) && (s.urgent ==> fate.Direct?)
    ensures Inv(w, RelaySend(s.(up := s.up[1..], awaiting := false, urgent := false), s.up[0], fate))
  {
    var p := s.up[0];
    var s0 := s.(up := s.up[1..], awaiting := false, urgent := false);
    var t := RelaySend(s0, p, fate);
    RelayedNext(w, s);
    assert p in s.up;
    assert forall q | q in s.up[1..] :: q in s.up;
    match fate
    case Direct =>
      ForwardJoin(Held(s), s.down, [p]);
      ForwardOne(Delivered(s), p);
      ProducedBehind(w, s, t, Forward(Sent(s), p));
    case Wait =>
      TruthfulCoalesce(w, s.history, s.relay, p);
      CoalesceForward(Delivered(s), s.relay, p, Failed);
      ProducedBehind(w, s, t, Forward(Sent(s), p));
    case Overflow =>
      ProducedBehind(w, s, t, Forward(Sent(s), p));
  }

  lemma RelayDropKeeps<V, Op>(w: World<V, Op>, s: System<V, Op>)
    requires Inv(w, s) && Enabled(w, s, RelayDrop)
    ensures Inv(w, Next(w, s, RelayDrop))
  {
    ForwardMonotone(Delivered(s), Frames(s.relay, Failed));
    ArrivedFirst(w, s);
    ForwardMonotone(Sent(s).(awaiting := s.awaiting), s.up);
    ProducedBehind(w, s, Next(w, s, RelayDrop), Sent(s).(awaiting := s.awaiting));
  }

  /** What the relay still forwards before it ignores more is no further than it was. */
  lemma AskKeeps<V, Op>(w: World<V, Op>, s: System<V, Op>)
    requires Inv(w, s) && Enabled(w, s, Ask)
    ensures Inv(w, Next(w, s, Ask))
  {
    ForwardMonotone(Delivered(s), Frames(s.relay, Failed));
    ArrivedFirst(w, s);
    ForwardMonotone(Sent(s).(awaiting := s.awaiting), s.up);
    ProducedBehind(w, s, Next(w, s, Ask), Sent(s).(awaiting := s.awaiting));
  }

  lemma RelayFlushKeeps<V, Op>(w: World<V, Op>, s: System<V, Op>)
    requires Inv(w, s)
    ensures Inv(w, Next(w, s, RelayFlush))
  {
    var t := Next(w, s, RelayFlush);
    TruthfulFrames(w, s.history, s.relay, Failed);
    ForwardJoin(Held(s), s.down, Frames(s.relay, Failed));
    assert Sent(t) == Sent(s);
    assert Arrived(t) == Arrived(s);
    assert Produced(w, t) == Produced(w, s);
  }

  lemma RelayIgnoresKeeps<V, Op>(w: World<V, Op>, s: System<V, Op>)
    requires Inv(w, s) && s.up != [] && s.awaiting && s.up[0].Ops?
    ensures Inv(w, s.(up := s.up[1..]))
  {
    var t := s.(up := s.up[1..]);
    assert Arrived(t) == Arrived(s);
    assert Produced(w, t) == Produced(w, s);
    assert forall q | q in s.up[1..] :: q in s.up;
  }

  /** Batches that leave no gap bring the value they start from to the value the source had there. */
  lemma {:induction false} BatchesTruthful<V, Op>(w: World<V, Op>, history: seq<V>, held: At<V>,
                                                  batches: seq<Batch<Op>>)
    requires held.at < |history| && history[held.at] == held.value && TruthfulBatches(w, history, batches)
    requires AdvanceBatches(held.at, batches).Some?
    ensures var to := AdvanceBatches(held.at, batches).value;
            0 <= to < |history| && ApplyAll(Applier(w.apply), held, batches) == At(history[to], to)
  {
    if batches != [] {
      var n := |batches| - 1;
      assert batches[n] in batches;
      BatchesTruthful(w, history, held, batches[..n]);
    }
  }

  lemma FlatOne<Op>(b: Batch<Op>)
    ensures Flat([b]) == b.ops
  {
    assert [b][..0] == [];
    assert Flat([b][..0]) == [];
  }

  /** The values of batches are those of their ops. */
  lemma {:induction false} ApplyFlat<V, Op>(w: World<V, Op>, held: At<V>, batches: seq<Batch<Op>>)
    ensures ApplyAll(Applier(w.apply), held, batches).value == ApplyAll(w.apply, held.value, Flat(batches))
  {
    if batches != [] {
      var n := |batches| - 1;
      ApplyFlat(w, held, batches[..n]);
      ApplyJoin(w.apply, held.value, Flat(batches[..n]), batches[n].ops);
    }
  }

  /**
   * The consumer only takes frames that bring it to a value the source had, or that it knows for errors; never back.
   */
  lemma ConsumerAdvances<V, Op>(w: World<V, Op>, s: System<V, Op>, p: Frame<V, Op>)
    requires Faithful(w, s) && Truthful(w, s.history, p) && Advance(Place(s.reached, s.stale), p).Some?
    ensures var t := Take(w, s, p);
            && Faithful(w, t) && s.reached <= t.reached
            && Some(Place(t.reached, t.stale)) == Advance(Place(s.reached, s.stale), p)
  {
    if p.Ops? && !s.stale {
      BatchesTruthful(w, s.history, s.consumer.value, p.ops);
      BatchesForward(s.reached, p.ops);
    } else if p.Ops? && s.consumer.Some? {
      ApplyFlat(w, s.consumer.value, p.ops);
      ApplyJoin(w.apply, s.history[s.reached], s.since, Flat(p.ops));
    }
  }

  lemma FirstFrame<V, Op>(w: World<V, Op>, s: System<V, Op>)
    requires Inv(w, s) && s.down != []
    ensures Truthful(w, s.history, s.down[0]) && Forward(Held(s), s.down[0]).place.Some?
    ensures ForwardAll(Forward(Held(s), s.down[0]), s.down[1..]) == Delivered(s)
  {
    ArrivedFirst(w, s);
    ForwardMonotone(Sent(s).(awaiting := s.awaiting), s.up);
    ForwardMonotone(Delivered(s), Frames(s.relay, Failed));
    ForwardMonotone(Forward(Held(s), s.down[0]), s.down[1..]);
    assert s.down[0] in s.down;
  }

  lemma DeliverKeeps<V, Op>(w: World<V, Op>, s: System<V, Op>)
    requires Inv(w, s) && s.down != []
    ensures Inv(w, Next(w, s, Deliver))
  {
    var t := Next(w, s, Deliver);
    FirstFrame(w, s);
    ConsumerAdvances(w, s.(down := s.down[1..]), s.down[0]);
    assert forall q | q in s.down[1..] :: q in s.down;
    assert Delivered(t) == Delivered(s);
    assert Sent(t) == Sent(s);
    assert Arrived(t) == Arrived(s);
    assert Produced(w, t) == Produced(w, s);
  }

  /** Every step keeps the invariant. */
  lemma StepKeeps<V, Op>(w: World<V, Op>, s: System<V, Op>, step: Step<V, Op>)
    requires Inv(w, s) && Enabled(w, s, step)
    ensures Inv(w, Next(w, s, step))
  {
    match step
    case Change(ops, fate) => ChangeKeeps(w, s, ops, fate);
    case Renew(v, fate) => RenewKeeps(w, s, v, fate);
    case Attach => AttachKeeps(w, s);
    case ProviderFlush => ProviderFlushKeeps(w, s);
    case RelayTake(fate) =>
      if s.awaiting && s.up[0].Ops? {
        RelayIgnoresKeeps(w, s);
      } else {
        RelaySendKeeps(w, s, if s.urgent then Direct else fate);
      }
    case RelayDrop => RelayDropKeeps(w, s);
    case RelayFlush => RelayFlushKeeps(w, s);
    case Ask => AskKeeps(w, s);
    case Deliver => DeliverKeeps(w, s);
    case _ => ProviderSlotKeeps(w, s, step);
  }

  lemma InitialInv<V, Op>(w: World<V, Op>, s: System<V, Op>)
    requires Initial(s)
    ensures Inv(w, s)
  {
  }
}
