/**
 * One stream as the connections it passes see it: at its provider, which has the value, and at a relay, which does not.
 * Every step is what some operation of a connection does to the stream.
 */
module Views {
  import opened Streams

  /** A stream at its provider: the source's value, whether it is followed, what waits, and the frames sent. */
  datatype Feed<V, Op> = Feed(value: V, fed: bool, failed: bool, waiting: Waiting<V, Op>, sent: seq<Payload<V, Op>>)

  datatype FeedStep<V, Op> =
    | Changed(ops: seq<Op>, fate: Fate)
    | Renewed(value: V, fate: Fate)
    | Attached
    | Detached
    | MadeRoom
    | Flushed
    | Promised

  predicate FeedEnabled<V, Op>(w: World<V, Op>, f: Feed<V, Op>, step: FeedStep<V, Op>) {
    match step
    case Changed(ops, fate) => f.fed ==> Allowed(f.waiting, Ops(ops), fate)
    case Renewed(v, fate) => f.fed ==> Allowed(f.waiting, Built(w.valid(v), v, false), fate)
    case Attached => !f.fed
    case Detached => f.fed
    case MadeRoom => f.waiting.Slot?
    case Flushed => true
    case Promised => true
  }

  function FeedSend<V, Op>(f: Feed<V, Op>, p: Payload<V, Op>, fate: Fate): Feed<V, Op> {
    match fate
    case Direct => f.(sent := f.sent + [p])
    case Wait => f.(waiting := Coalesce(f.waiting, p))
    case Overflow => f.(waiting := Overflowed(false))
  }

  function FeedNext<V, Op>(w: World<V, Op>, f: Feed<V, Op>, step: FeedStep<V, Op>): Feed<V, Op>
    requires FeedEnabled(w, f, step)
  {
    match step
    case Changed(ops, fate) =>
      var f' := f.(value := ApplyAll(w.apply, f.value, ops));
      if f.fed then FeedSend(f', Ops(ops), fate) else f'
    case Renewed(v, fate) =>
      if f.fed then FeedSend(f.(value := v, failed := !w.valid(v)), Built(w.valid(v), v, false), fate)
      else f.(value := v)
    case Attached =>
      f.(fed := true, failed := !w.valid(f.value), sent := f.sent + [Built(w.valid(f.value), f.value, true)])
    case Detached => f.(fed := false, waiting := Nothing)
    case MadeRoom => f.(waiting := Overflowed(false))
    case Flushed =>
      f.(waiting := Nothing, failed := if f.waiting.Lazy? then !w.valid(f.value) else f.failed,
         sent := f.sent + Frames(f.waiting, Built(w.valid(f.value), f.value, false)))
    case Promised => f.(waiting := if f.fed then Lazy else f.waiting)
  }

  /**
   * A stream at a relay: what it still forwards past the window, what it ignores, and how often it asked for a reset.
   */
  datatype Relay<V, Op> = Relay(urgent: bool, awaiting: bool, waiting: Waiting<V, Op>, sent: seq<Payload<V, Op>>,
                                asked: nat)

  datatype RelayStep<V, Op> =
    | Taken(p: Payload<V, Op>, fate: Fate)
    | RelayMadeRoom
    | RelayFlushed
    | AskedAgain                            // whom it forwards to asks for a reset

  predicate RelayEnabled<V, Op>(r: Relay<V, Op>, step: RelayStep<V, Op>) {
    match step
    case Taken(p, fate) => (r.awaiting && p.Ops?) || r.urgent || Allowed(r.waiting, p, fate)
    case RelayMadeRoom => r.waiting.Slot?
    case RelayFlushed => true
    case AskedAgain => true
  }

  function RelaySend<V, Op>(r: Relay<V, Op>, p: Payload<V, Op>, fate: Fate): Relay<V, Op> {
    match fate
    case Direct => r.(sent := r.sent + [p])
    case Wait => r.(waiting := Coalesce(r.waiting, p))
    case Overflow => r.(waiting := Overflowed(true), awaiting := true, asked := r.asked + 1)
  }

  function RelayNext<V, Op>(r: Relay<V, Op>, step: RelayStep<V, Op>): Relay<V, Op>
    requires RelayEnabled(r, step)
  {
    match step
    case Taken(p, fate) =>
      if r.awaiting && p.Ops? then r
      else if r.urgent then r.(awaiting := false, urgent := false, sent := r.sent + [p])
      else RelaySend(r.(awaiting := false), p, fate)
    case RelayMadeRoom => r.(waiting := Overflowed(true), awaiting := true, asked := r.asked + 1)
    case RelayFlushed => r.(waiting := Nothing, sent := r.sent + Frames(r.waiting, Failed))
    case AskedAgain => r.(awaiting := true, asked := r.asked + 1)
  }
}
