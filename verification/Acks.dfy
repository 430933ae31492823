/**
 * Acknowledgements between the two ends of a link: each end counts the frames it processed and acknowledges bursts of
 * them by a timer. Both hellos announce acknowledgements; links are FIFO and lose nothing while open.
 */
module Acks {
  datatype Message = Hello | Counted | Ack(n: nat)

  /** One end: whether the peer's hello is here, what it counted, its acknowledgement timer, and its outgoing link. */
  datatype End = End(known: bool, sent: nat, acked: nat, received: nat, timer: bool, out: seq<Message>)

  datatype Side = Left | Right

  datatype Pair = Pair(left: End, right: End, violated: bool) {
    function At(s: Side): End {
      if s.Left? then left else right
    }

    function Peer(s: Side): End {
      if s.Left? then right else left
    }

    function With(s: Side, end: End, peer: End): Pair {
      if s.Left? then this.(left := end, right := peer) else this.(left := peer, right := end)
    }
  }

  datatype Step = Send(side: Side) | Acknowledge(side: Side) | Take(side: Side)

  predicate Enabled(p: Pair, step: Step) {
    match step
    case Send(s) => true
    case Acknowledge(s) => p.At(s).timer
    case Take(s) => p.Peer(s).out != []
  }

  /** A frame arrived: it is counted, and an acknowledgement is scheduled once the peer is known to want them. */
  function Count(end: End, hello: bool): End {
    end.(known := end.known || hello, received := end.received + 1, timer := end.timer || end.known || hello)
  }

  /** An acknowledgement that the frames sent contradict, or that comes from a peer not known to send any. */
  predicate Violates(end: End, n: nat) {
    !end.known || n < end.acked || n > end.sent
  }

  function Next(p: Pair, step: Step): Pair
    requires Enabled(p, step)
  {
    match step
    case Send(s) =>
      p.With(s, p.At(s).(sent := p.At(s).sent + 1, out := p.At(s).out + [Counted]), p.Peer(s))
    case Acknowledge(s) =>
      p.With(s, p.At(s).(timer := false, out := p.At(s).out + [Ack(p.At(s).received)]), p.Peer(s))
    case Take(s) =>
      var end, peer := p.At(s), p.Peer(s).(out := p.Peer(s).out[1..]);
      match p.Peer(s).out[0]
      case Hello => p.With(s, Count(end, true), peer)
      case Counted => p.With(s, Count(end, false), peer)
      case Ack(n) =>
        if Violates(end, n) then p.With(s, end, peer).(violated := true) else p.With(s, end.(acked := n), peer)
  }

  predicate Initial(p: Pair) {
    var start := End(false, 1, 0, 0, false, [Hello]);
    p == Pair(start, start, false)
  }

  function CountedIn(out: seq<Message>): nat {
    if out == [] then 0 else CountedIn(out[..|out| - 1]) + if out[|out| - 1].Ack? then 0 else 1
  }

  /** Acknowledgements under way never go back, and never past what was received. */
  predicate Ordered(out: seq<Message>, acked: nat, received: nat) {
    if out == [] then acked <= received
    else
      var last := out[|out| - 1];
      if last.Ack? then
        LastAck(out[..|out| - 1], acked) <= last.n <= received && Ordered(out[..|out| - 1], acked, last.n)
      else Ordered(out[..|out| - 1], acked, received)
  }

  function LastAck(out: seq<Message>, acked: nat): nat {
    if out == [] then acked
    else if out[|out| - 1].Ack? then out[|out| - 1].n else LastAck(out[..|out| - 1], acked)
  }

  /** The frames from `x` to `y`, and their acknowledgements back. */
  ghost predicate Direction(x: End, y: End) {
    && x.sent == y.received + CountedIn(x.out)
    && Ordered(y.out, x.acked, y.received)
    && (!y.known ==> x.out != [] && x.out[0].Hello? && y.received == 0)
    && (y.known && !y.timer ==> LastAck(y.out, x.acked) == y.received)
    && (y.timer ==> y.known)
  }

  ghost predicate Inv(p: Pair) {
    !p.violated && Direction(p.left, p.right) && Direction(p.right, p.left)
  }

  lemma Appended(out: seq<Message>, m: Message, acked: nat, received: nat)
    ensures CountedIn(out + [m]) == CountedIn(out) + if m.Ack? then 0 else 1
    ensures LastAck(out + [m], acked) == if m.Ack? then m.n else LastAck(out, acked)
    ensures Ordered(out + [m], acked, received) <==>
            if m.Ack? then LastAck(out, acked) <= m.n <= received && Ordered(out, acked, m.n)
            else Ordered(out, acked, received)
  {
    assert (out + [m])[..|out|] == out;
  }

  lemma {:induction false} Removed(out: seq<Message>, acked: nat, received: nat)
    requires out != []
    ensures CountedIn(out) == CountedIn(out[1..]) + if out[0].Ack? then 0 else 1
    ensures LastAck(out, acked) == LastAck(out[1..], if out[0].Ack? then out[0].n else acked)
    ensures Ordered(out, acked, received) ==>
            if out[0].Ack? then acked <= out[0].n <= received && Ordered(out[1..], out[0].n, received)
            else Ordered(out[1..], acked, received)
  {
    var n := |out| - 1;
    if n == 0 {
      assert out[1..] == [] && out[..0] == [];
    } else {
      assert out[1..][..n - 1] == out[..n][1..];
      Removed(out[..n], acked, if out[n].Ack? then out[n].n else received);
    }
  }

  lemma {:induction false} OrderedBounds(out: seq<Message>, acked: nat, received: nat, more: nat)
    requires Ordered(out, acked, received) && received <= more
    ensures acked <= LastAck(out, acked) <= received && Ordered(out, acked, more)
  {
    if out != [] {
      var n := |out| - 1;
      var last := out[n];
      OrderedBounds(out[..n], acked, if last.Ack? then last.n else received, if last.Ack? then last.n else more);
    }
  }

  /** `x` sends a frame or an acknowledgement of everything it received: both directions stay in step. */
  lemma SendKeeps(x: End, y: End, ack: bool)
    requires Direction(x, y) && Direction(y, x) && (ack ==> x.timer)
    ensures var x' := if ack then x.(timer := false, out := x.out + [Ack(x.received)])
                      else x.(sent := x.sent + 1, out := x.out + [Counted]);
            Direction(x', y) && Direction(y, x')
  {
    var m := if ack then Ack(x.received) else Counted;
    Appended(x.out, m, y.acked, x.received);
    OrderedBounds(x.out, y.acked, x.received, x.received);
  }

  /** `x` takes a frame or an acknowledgement: the acknowledgement is never a violation. */
  lemma TakeKeeps(x: End, y: End)
    requires Direction(x, y) && Direction(y, x) && y.out != []
    ensures var m, y' := y.out[0], y.(out := y.out[1..]);
            && (m.Ack? ==> !Violates(x, m.n))
            && var x' := if m.Ack? then x.(acked := m.n) else Count(x, m.Hello?);
               Direction(x', y') && Direction(y', x')
  {
    Removed(y.out, x.acked, y.received);
    Removed(y.out, y.acked, y.received);
    OrderedBounds(x.out, y.acked, x.received, x.received + 1);
  }

  /** Every step keeps both directions in step, and no acknowledgement is ever judged a violation. */
  lemma StepKeeps(p: Pair, step: Step)
    requires Inv(p) && Enabled(p, step)
    ensures Inv(Next(p, step))
  {
    match step
    case Send(s) => SendKeeps(p.At(s), p.Peer(s), false);
    case Acknowledge(s) => SendKeeps(p.At(s), p.Peer(s), true);
    case Take(s) => TakeKeeps(p.At(s), p.Peer(s));
  }

  ghost predicate CanRun(p: Pair, steps: seq<Step>)
    decreases |steps|
  {
    steps == [] || (Enabled(p, steps[0]) && CanRun(Next(p, steps[0]), steps[1..]))
  }

  ghost function After(p: Pair, steps: seq<Step>): Pair
    requires CanRun(p, steps)
    decreases |steps|
  {
    if steps == [] then p else After(Next(p, steps[0]), steps[1..])
  }

  /**
   * In every run of two ends that announce acknowledgements: no acknowledgement is a violation, and what an end was
   * acknowledged its peer received and it sent.
   */
  lemma {:induction false} NeverAViolation(p: Pair, steps: seq<Step>)
    requires Inv(p) && CanRun(p, steps)
    ensures var q := After(p, steps);
            Inv(q) && !q.violated && q.left.acked <= q.right.received <= q.left.sent
            && q.right.acked <= q.left.received <= q.right.sent
    decreases |steps|
  {
    if steps == [] {
      OrderedBounds(p.right.out, p.left.acked, p.right.received, p.right.received);
      OrderedBounds(p.left.out, p.right.acked, p.left.received, p.left.received);
    } else {
      StepKeeps(p, steps[0]);
      NeverAViolation(Next(p, steps[0]), steps[1..]);
    }
  }

  lemma InitialInv(p: Pair)
    requires Initial(p)
    ensures Inv(p)
  {
    var out := [Hello];
    assert out[..0] == [];
    assert CountedIn(out[..0]) == 0 && LastAck(out[..0], 0) == 0 && Ordered(out[..0], 0, 0);
  }

  /** Frames an end waits to see acknowledged are under way, or about to be acknowledged, or acknowledged under way. */
  lemma UnackedIsUnderWay(p: Pair, s: Side)
    requires Inv(p) && p.At(s).acked < p.At(s).sent
    ensures CountedIn(p.At(s).out) > 0 || p.Peer(s).timer || LastAck(p.Peer(s).out, p.At(s).acked) > p.At(s).acked
  {
    OrderedBounds(p.Peer(s).out, p.At(s).acked, p.Peer(s).received, p.Peer(s).received);
  }

  function Timer(end: End): nat {
    if end.timer then 2 else 0
  }

  /** A bound on the deliveries and acknowledgements left. */
  function Work(p: Pair): nat {
    4 * CountedIn(p.left.out) + 4 * CountedIn(p.right.out) + |p.left.out| + |p.right.out| + Timer(p.left)
      + Timer(p.right)
  }

  function NextDelivery(p: Pair): Step {
    if p.left.out != [] then Take(Right)
    else if p.right.out != [] then Take(Left)
    else if p.left.timer then Acknowledge(Left)
    else Acknowledge(Right)
  }

  predicate Quiet(p: Pair) {
    p.left.out == [] && p.right.out == [] && !p.left.timer && !p.right.timer
  }

  lemma DeliveryProgress(p: Pair)
    requires Inv(p) && !Quiet(p)
    ensures Enabled(p, NextDelivery(p)) && Work(Next(p, NextDelivery(p))) < Work(p)
    ensures Next(p, NextDelivery(p)).left.sent == p.left.sent && Next(p, NextDelivery(p)).right.sent == p.right.sent
  {
    if p.left.out != [] {
      Removed(p.left.out, 0, 0);
    } else if p.right.out != [] {
      Removed(p.right.out, 0, 0);
    } else if p.left.timer {
      Appended(p.left.out, Ack(p.left.received), 0, 0);
    } else {
      Appended(p.right.out, Ack(p.right.received), 0, 0);
    }
  }

  /**
   * From every reachable state, deliveries and acknowledgement timers alone bring every frame's acknowledgement back.
   */
  lemma {:induction false} AllAcknowledged(p: Pair) returns (steps: seq<Step>)
    requires Inv(p)
    ensures CanRun(p, steps) && forall step | step in steps :: !step.Send?
    ensures var q := After(p, steps);
            && q.left.acked == q.left.sent == p.left.sent && q.right.acked == q.right.sent == p.right.sent
    decreases Work(p)
  {
    if Quiet(p) {
      steps := [];
    } else {
      var step := NextDelivery(p);
      DeliveryProgress(p);
      StepKeeps(p, step);
      var rest := AllAcknowledged(Next(p, step));
      steps := [step] + rest;
      assert steps[1..] == rest;
    }
  }
}
