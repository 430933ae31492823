/** One state member over one link: frames, the slot of what is unsent, and the value a receiver gets from frames. */
module Streams {
  import opened Lists

  /** A state frame: a snapshot, a reset, a batch of ops, or the error of a value that fails its schema. */
  datatype Payload<V, Op> = Snap(value: V) | Reset(value: V) | Ops(ops: seq<Op>) | Failed

  /** A slot's content. `Lazy` has no frames of its own: its reset takes the value the source has when it goes out. */
  datatype Waiting<V, Op> = Nothing | Slot(base: Option<Payload<V, Op>>, ops: seq<Op>) | Lazy

  /** How ops change a value, and which values pass the schema that the consumer is promised. */
  datatype World<!V, !Op> = World(apply: (V, Op) -> V, valid: V -> bool)

  /** What flow control does with a frame: send it, let it wait, or drop what waits of its stream for lack of room. */
  datatype Fate = Direct | Wait | Overflow

  /** What the peer holds of a stream after one more frame: ops need a value to apply to, an error changes nothing. */
  function Receive<V, Op>(apply: (V, Op) -> V, held: Option<V>, p: Payload<V, Op>): Option<V> {
    match p
    case Snap(value) => Some(value)
    case Reset(value) => Some(value)
    case Failed => held
    case Ops(ops) => if held.None? then None else Some(ApplyAll(apply, held.value, ops))
  }

  function ApplyAll<V, Op>(apply: (V, Op) -> V, v: V, ops: seq<Op>): V {
    if ops == [] then v else apply(ApplyAll(apply, v, ops[..|ops| - 1]), ops[|ops| - 1])
  }

  function ReceiveAll<V, Op>(apply: (V, Op) -> V, held: Option<V>, frames: seq<Payload<V, Op>>): Option<V> {
    if frames == [] then held
    else Receive(apply, ReceiveAll(apply, held, frames[..|frames| - 1]), frames[|frames| - 1])
  }

  /** A frame joins what waits: ops are appended, anything else replaces it; a promised reset already covers ops. */
  function Coalesce<V, Op>(w: Waiting<V, Op>, p: Payload<V, Op>): Waiting<V, Op> {
    if !p.Ops? then Slot(Some(p), [])
    else match w
      case Nothing => Slot(None, p.ops)
      case Slot(base, ops) => Slot(base, ops + p.ops)
      case Lazy => Lazy
  }

  /** The frames that sending what waits puts on the link; `renewed` is the frame built for a promised reset. */
  function Frames<V, Op>(w: Waiting<V, Op>, renewed: Payload<V, Op>): seq<Payload<V, Op>> {
    match w
    case Nothing => []
    case Lazy => [renewed]
    case Slot(base, ops) =>
      (if base.Some? then [base.value] else []) + if ops == [] then [] else [Ops(ops)]
  }

  /**
   * A stream's ops that must not wait any longer: a provider promises a reset, a relay forgets them and asks for one.
   */
  function Overflowed<V, Op>(relayed: bool): Waiting<V, Op> {
    if relayed then Nothing else Lazy
  }

  /** The fates open to a frame: on the link only if nothing waits before it, dropped only if it is ops. */
  predicate Allowed<V, Op>(waiting: Waiting<V, Op>, p: Payload<V, Op>, fate: Fate) {
    && (fate.Direct? ==> waiting.Nothing?)
    && (fate.Overflow? ==> p.Ops? && !waiting.Lazy?)
  }

  /** The snapshot or reset of a value: the error of the value instead, if it fails its schema. */
  function Built<V, Op>(valid: bool, value: V, first: bool): (p: Payload<V, Op>)
    ensures p.Failed? <==> !valid
    ensures valid ==> p == Snap(value) || p == Reset(value)
  {
    if !valid then Failed else if first then Snap(value) else Reset(value)
  }

  lemma {:induction false} ApplyJoin<V, Op>(apply: (V, Op) -> V, v: V, a: seq<Op>, b: seq<Op>)
    ensures ApplyAll(apply, v, a + b) == ApplyAll(apply, ApplyAll(apply, v, a), b)
  {
    if b == [] {
      assert a + b == a;
    } else {
      var n := |b| - 1;
      assert (a + b)[..|a + b| - 1] == a + b[..n];
      ApplyJoin(apply, v, a, b[..n]);
    }
  }

  lemma {:induction false} ReceiveJoin<V, Op>(apply: (V, Op) -> V, held: Option<V>, a: seq<Payload<V, Op>>,
                                              b: seq<Payload<V, Op>>)
    ensures ReceiveAll(apply, held, a + b) == ReceiveAll(apply, ReceiveAll(apply, held, a), b)
  {
    if b == [] {
      assert a + b == a;
    } else {
      var n := |b| - 1;
      assert (a + b)[..|a + b| - 1] == a + b[..n];
      ReceiveJoin(apply, held, a, b[..n]);
    }
  }

  lemma ReceiveMore<V, Op>(apply: (V, Op) -> V, held: Option<V>, frames: seq<Payload<V, Op>>, p: Payload<V, Op>)
    ensures ReceiveAll(apply, held, frames + [p]) == Receive(apply, ReceiveAll(apply, held, frames), p)
  {
    assert (frames + [p])[..|frames|] == frames;
  }

  lemma ReceiveOne<V, Op>(apply: (V, Op) -> V, held: Option<V>, p: Payload<V, Op>)
    ensures ReceiveAll(apply, held, [p]) == Receive(apply, held, p)
  {
    assert [p][..0] == [];
    assert ReceiveAll(apply, held, [p][..0]) == held;
  }

  /** What a peer makes of a base with ops after it. */
  lemma ReceiveSlot<V, Op>(apply: (V, Op) -> V, held: Option<V>, base: Option<Payload<V, Op>>, ops: seq<Op>,
                           renewed: Payload<V, Op>)
    ensures ReceiveAll(apply, held, Frames(Slot(base, ops), renewed)) ==
            Receive(apply, if base.Some? then Receive(apply, held, base.value) else held, Ops(ops))
  {
    var front := if base.Some? then [base.value] else [];
    var rest: seq<Payload<V, Op>> := if ops == [] then [] else [Ops(ops)];
    ReceiveJoin(apply, held, front, rest);
    var mid := ReceiveAll(apply, held, front);
    if base.Some? {
      ReceiveOne(apply, held, base.value);
    }
    if ops != [] {
      ReceiveOne(apply, mid, Ops(ops));
    }
  }

  /** What a peer makes of what waits once it is sent: of the base, then of the ops, or of the promised reset. */
  function Settle<V, Op>(apply: (V, Op) -> V, held: Option<V>, w: Waiting<V, Op>, renewed: Payload<V, Op>): Option<V> {
    match w
    case Nothing => held
    case Lazy => Receive(apply, held, renewed)
    case Slot(base, ops) =>
      var based := if base.Some? then Receive(apply, held, base.value) else held;
      if ops == [] then based else Receive(apply, based, Ops(ops))
  }

  lemma SettleIsReplay<V, Op>(apply: (V, Op) -> V, held: Option<V>, w: Waiting<V, Op>, renewed: Payload<V, Op>)
    ensures Settle(apply, held, w, renewed) == ReceiveAll(apply, held, Frames(w, renewed))
  {
    match w
    case Nothing =>
    case Lazy => ReceiveOne(apply, held, renewed);
    case Slot(base, ops) =>
      ReceiveSlot(apply, held, base, ops, renewed);
      ReceiveOps(apply, if base.Some? then Receive(apply, held, base.value) else held, ops, []);
  }

  lemma ReceiveOps<V, Op>(apply: (V, Op) -> V, held: Option<V>, a: seq<Op>, b: seq<Op>)
    ensures Receive(apply, Receive(apply, held, Ops(a)), Ops(b)) == Receive(apply, held, Ops(a + b))
    ensures Receive(apply, held, Ops([])) == held
  {
    if held.Some? {
      ApplyJoin(apply, held.value, a, b);
    }
  }

  /**
   * Waiting changes nothing: the peer makes the same of a frame that joined what waits, unless that is only a promise
   * (which is kept with the value current then), as of what waited followed by the frame.
   */
  lemma CoalesceFaithful<V, Op>(apply: (V, Op) -> V, held: Option<V>, w: Waiting<V, Op>, p: Payload<V, Op>,
                                renewed: Payload<V, Op>)
    requires p.Ops? ==> !w.Lazy?
    requires !p.Failed?
    ensures ReceiveAll(apply, held, Frames(Coalesce(w, p), renewed)) ==
            Receive(apply, ReceiveAll(apply, held, Frames(w, renewed)), p)
  {
    if p.Ops? {
      match w
      case Nothing =>
        ReceiveSlot(apply, held, None, p.ops, renewed);
      case Slot(base, ops) =>
        ReceiveSlot(apply, held, base, ops, renewed);
        ReceiveSlot(apply, held, base, ops + p.ops, renewed);
        ReceiveOps(apply, if base.Some? then Receive(apply, held, base.value) else held, ops, p.ops);
    } else {
      ReceiveSlot(apply, held, Some(p), [], renewed);
      ReceiveOps(apply, Receive(apply, held, p), [], []);
    }
  }
}
