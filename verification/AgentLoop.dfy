/**
 * The agent loop: turns of an assistant message, its tool calls and their results, with queued messages in between.
 * What the model, the tools and the hooks do is arbitrary, but hooks do not throw; the queues may change whenever the
 * loop waits.
 */
module AgentLoop {
  import opened Transcript

  /** A tool call is known by its place in the assistant message. */
  datatype Event =
    | AgentStart
    | TurnStart
    | MessageStart(message: Message)
    | MessageUpdate(message: Message)
    | MessageEnd(message: Message)
    | ToolStart(call: nat)
    | ToolEnd(call: nat)
    | TurnEnd(message: Message, results: nat)
    | AgentEnd(messages: seq<Message>)

  /** Events, the last one outermost. */
  datatype Log = Empty | More(before: Log, last: Event)

  datatype Phase = Before | Between | InTurn | Over | Wrong

  /**
   * What the events so far amount to. `started`, `ended` and `results` are of the turn's tool calls: how many started,
   * which ended, and how many result messages followed; `steered` counts the turn's steering messages, and `most` the
   * steering messages of any turn.
   */
  datatype Watch = Watch(phase: Phase, turns: nat, talking: bool, started: nat, ended: set<nat>, results: nat,
                         steered: nat, most: nat)

  const START := Watch(Before, 0, false, 0, {}, 0, 0, 0)

  function Max(a: nat, b: nat): nat {
    if a < b then b else a
  }

  /** A message's end, in its turn: a result comes next in source order, after its call ended. */
  function Said(w: Watch, m: Message): Watch {
    if m.origin.Result? then
      if m.origin.call == w.results && m.origin.call in w.ended then w.(talking := false, results := w.results + 1)
      else w.(phase := Wrong)
    else if m.origin.Steering? then
      w.(talking := false, steered := w.steered + 1, most := Max(w.most, w.steered + 1))
    else w.(talking := false)
  }

  function See(w: Watch, e: Event): Watch {
    match e
    case AgentStart => if w.phase.Before? then w.(phase := Between) else w.(phase := Wrong)
    case TurnStart =>
      if w.phase.Between? then w.(phase := InTurn, started := 0, ended := {}, results := 0, steered := 0)
      else w.(phase := Wrong)
    case MessageStart(_) => if w.phase.InTurn? && !w.talking then w.(talking := true) else w.(phase := Wrong)
    case MessageUpdate(_) => if w.phase.InTurn? && w.talking then w else w.(phase := Wrong)
    case MessageEnd(m) => if w.phase.InTurn? && w.talking then Said(w, m) else w.(phase := Wrong)
    case ToolStart(i) =>
      if w.phase.InTurn? && !w.talking && i == w.started then w.(started := w.started + 1) else w.(phase := Wrong)
    case ToolEnd(i) =>
      if w.phase.InTurn? && !w.talking && i < w.started && i !in w.ended then w.(ended := w.ended + {i})
      else w.(phase := Wrong)
    case TurnEnd(_, n) =>
      if w.phase.InTurn? && !w.talking && w.results == w.started == n && (forall i | 0 <= i < n :: i in w.ended)
      then w.(phase := Between, turns := w.turns + 1) else w.(phase := Wrong)
    case AgentEnd(_) => if w.phase.Between? && w.turns > 0 then w.(phase := Over) else w.(phase := Wrong)
  }

  /** A run's events are well formed so far unless the phase is `Wrong`. */
  function Watched(log: Log): Watch {
    match log
    case Empty => START
    case More(before, e) => See(Watched(before), e)
  }

  /** The messages that ended, in order. */
  function Ended(log: Log): seq<Message> {
    match log
    case Empty => []
    case More(before, e) => if e.MessageEnd? then Ended(before) + [e.message] else Ended(before)
  }

  /** The ids of the messages that ended and came from a queue. */
  function Heard(log: Log, origin: Origin): seq<nat> {
    match log
    case Empty => []
    case More(before, e) =>
      if e.MessageEnd? && e.message.origin == origin then Heard(before, origin) + [e.message.id]
      else Heard(before, origin)
  }

  /** A log that goes on from another one. */
  predicate GoesOn(from: Log, log: Log) {
    from == log || (log.More? && GoesOn(from, log.before))
  }

  /** A run that is well formed now was so all along. */
  lemma {:induction false} WellFormedAllAlong(from: Log, log: Log)
    requires GoesOn(from, log) && !Watched(log).phase.Wrong?
    ensures !Watched(from).phase.Wrong?
  {
    if from != log {
      WellFormedAllAlong(from, log.before);
    }
  }

  // ─── batches of tool calls ───

  /** What a tool returned: whether it asks to end the batch's loop. */
  datatype Outcome = Outcome(terminate: bool)

  function ResultMessage(call: nat): Message {
    Message(0, Result(call), false, map[], {})
  }

  function ResultMessages(n: nat): (r: seq<Message>)
    ensures |r| == n && forall i | 0 <= i < n :: r[i] == ResultMessage(i)
  {
    seq(n, i requires 0 <= i < n => ResultMessage(i))
  }

  lemma OneMoreResult(n: nat)
    ensures ResultMessages(n + 1) == ResultMessages(n) + [ResultMessage(n)]
  {
  }

  /** A batch ends the loop if it is not empty and every result says so. */
  predicate Terminates(outcomes: seq<Outcome>) {
    outcomes != [] && forall i | 0 <= i < |outcomes| :: outcomes[i].terminate
  }

  /** How turns that follow each other end: none is left for now, the run is over, or no more turns are followed. */
  datatype End = Idle | RunOver | CutShort

  class Agent {
    var messages: seq<Message>
    const steering: MessageQueue
    const followUp: MessageQueue
    /** The run's signal. */
    var aborted: bool
    /** The events of the run. */
    ghost var log: Log
    /** The transcript and what was taken from the queues before the run. */
    ghost var before: seq<Message>
    ghost var steeredBefore: seq<nat>
    ghost var followedBefore: seq<nat>

    constructor (messages: seq<Message>, steering: MessageQueue, followUp: MessageQueue)
      requires steering != followUp && steering.Valid() && followUp.Valid()
      requires steering.origin == Steering && followUp.origin == FollowUp
      ensures Valid() && this.messages == messages && this.steering == steering && this.followUp == followUp
      ensures Accounted([]) && Watched(log) == START && Ended(log) == []
    {
      this.messages, this.steering, this.followUp, aborted, log := messages, steering, followUp, false, Empty;
      before, steeredBefore, followedBefore := messages, steering.taken, followUp.taken;
    }

    ghost predicate Queues()
      reads this, steering, followUp
    {
      && steering != followUp && steering.Valid() && followUp.Valid()
      && steering.origin == Steering && followUp.origin == FollowUp
    }

    /** The transcript is the one before the run and then the messages that ended. */
    ghost predicate Valid()
      reads this, steering, followUp
    {
      Queues() && messages == before + Ended(log) && !Watched(log).phase.Wrong?
    }

    /** What was taken from the queues was said, in order and once each, or is `pending` to be said. */
    ghost predicate Accounted(pending: seq<Message>)
      reads this, steering, followUp
    {
      && steering.taken == steeredBefore + Heard(log, Steering) + From(pending, |pending|, Steering)
      && followUp.taken == followedBefore + Heard(log, FollowUp) + From(pending, |pending|, FollowUp)
    }

    /** The queues lost nothing to the loop meanwhile. */
    twostate predicate QueuesKept()
      reads this, steering, followUp
    {
      && steering.taken == old(steering.taken) && followUp.taken == old(followUp.taken)
      && (steering.single ==> old(steering.single)) && (followUp.single ==> old(followUp.single))
      && steeredBefore == old(steeredBefore) && followedBefore == old(followedBefore) && before == old(before)
      && (old(aborted) ==> aborted)
    }

    /**
     * Other code runs while the loop waits: it queues and removes messages, sets the queues' modes, and may abort the
     * run.
     */
    method Elsewhere()
      requires Queues()
      modifies steering, followUp, `aborted
      ensures Queues() && QueuesKept()
    {
      var n: nat := *;
      while n > 0
        invariant Queues() && QueuesKept()
      {
        n := n - 1;
        var queue := if n % 2 == 0 then steering else followUp;
        var m: Message := *;
        var choice: int := *;
        if choice == 0 {
          queue.Enqueue(m.(origin := queue.origin));
        } else if choice == 1 {
          queue.Clear();
        } else if choice == 2 {
          var mode: Mode := *;
          queue.SetMode(mode);
        } else {
          var _ := queue.Remove((x: Message) => x.id == m.id);
        }
      }
      var abort: bool := *;
      aborted := aborted || abort;
    }

    /** Reduces the agent's state for an event; listeners run then. */
    method Emit(e: Event)
      requires Valid() && !See(Watched(log), e).phase.Wrong?
      modifies `messages, `log, `aborted, steering, followUp
      ensures Valid() && log == More(old(log), e) && QueuesKept()
    {
      log := More(log, e);
      if e.MessageEnd? {
        messages := messages + [e.message];
      }
      Elsewhere();
    }

    /** The loop is in a turn and nobody is talking. */
    ghost predicate Quiet()
      reads this
    {
      Watched(log).phase.InTurn? && !Watched(log).talking
    }

    /** A complete message. */
    method Say(m: Message)
      requires Valid() && Quiet()
      requires m.origin.Result? ==> m.origin.call == Watched(log).results && m.origin.call in Watched(log).ended
      modifies `messages, `log, `aborted, steering, followUp
      ensures Valid() && Quiet() && QueuesKept()
      ensures Watched(log) == Said(old(Watched(log)).(talking := true), m) && Ended(log) == old(Ended(log)) + [m]
      ensures forall origin :: Heard(log, origin) == if m.origin == origin then old(Heard(log, origin)) + [m.id]
                                                     else old(Heard(log, origin))
    {
      Emit(MessageStart(m));
      Emit(MessageEnd(m));
    }

    /** The next of several messages. */
    method SayNext(ms: seq<Message>, i: nat, ghost was: Log)
      requires i < |ms| && Valid() && Quiet() && !ms[i].origin.Result? && SaidSince(was, log, ms, i)
      modifies `messages, `log, `aborted, steering, followUp
      ensures Valid() && Quiet() && QueuesKept() && SaidSince(was, log, ms, i + 1)
    {
      ghost var mid := log;
      Say(ms[i]);
      SaidMore(was, mid, log, ms, i);
    }

    /** Messages are said, one after the other. */
    method SayAll(ms: seq<Message>)
      requires Valid() && Quiet() && forall m | m in ms :: !m.origin.Result?
      modifies `messages, `log, `aborted, steering, followUp
      ensures Valid() && Quiet() && QueuesKept() && Ended(log) == old(Ended(log)) + ms
      ensures SaidSince(old(log), log, ms, |ms|)
    {
      var i := 0;
      while i < |ms|
        invariant 0 <= i <= |ms| && Valid() && Quiet() && QueuesKept() && SaidSince(old(log), log, ms, i)
      {
        assert ms[i] in ms;
        SayNext(ms, i, old(log));
        i := i + 1;
      }
      FirstPrefix(ms, |ms|);
      assert ms[..|ms|] == ms;
    }

    // ─── tool calls ───

    /** One call after the other, each with its result message, until the run is aborted. */
    method Sequential(n: nat) returns (results: seq<Message>, outcomes: seq<Outcome>)
      requires Valid() && Quiet() && NoCalls(Watched(log))
      modifies `messages, `log, `aborted, steering, followUp
      ensures Valid() && Quiet() && QueuesKept() && |outcomes| == |results| <= n
      ensures CalledSince(old(log), log, |results|, Below(|results|), |results|) && results == ResultMessages(|results|)
      ensures |results| == n || (aborted && |results| > 0)
    {
      results, outcomes := [], [];
      while |results| < n
        invariant Valid() && Quiet() && QueuesKept() && |outcomes| == |results| <= n
        invariant CalledSince(old(log), log, |results|, Below(|results|), |results|)
                  && results == ResultMessages(|results|)
      {
        var i := |results|;
        var outcome: Outcome := *;
        CallOne(i, old(log));
        outcomes := outcomes + [outcome];
        OneMoreResult(i);
        results := results + [ResultMessage(i)];
        if aborted {
          return;
        }
      }
    }

    method Begin(i: nat, ended: set<nat>, results: nat, ghost was: Log)
      requires Valid() && Quiet() && CalledSince(was, log, i, ended, results)
      modifies `messages, `log, `aborted, steering, followUp
      ensures Valid() && Quiet() && QueuesKept() && CalledSince(was, log, i + 1, ended, results)
    {
      Emit(ToolStart(i));
    }

    method End(i: nat, started: nat, ended: set<nat>, results: nat, ghost was: Log)
      requires Valid() && Quiet() && CalledSince(was, log, started, ended, results) && i < started && i !in ended
      modifies `messages, `log, `aborted, steering, followUp
      ensures Valid() && Quiet() && QueuesKept() && CalledSince(was, log, started, ended + {i}, results)
    {
      Emit(ToolEnd(i));
    }

    method Report(i: nat, started: nat, ended: set<nat>, ghost was: Log)
      requires Valid() && Quiet() && CalledSince(was, log, started, ended, i) && i in ended
      modifies `messages, `log, `aborted, steering, followUp
      ensures Valid() && Quiet() && QueuesKept() && CalledSince(was, log, started, ended, i + 1)
    {
      Say(ResultMessage(i));
      OneMoreResult(i);
    }

    /** A call starts, ends, and is reported before the next one. */
    method CallOne(i: nat, ghost was: Log)
      requires Valid() && Quiet() && CalledSince(was, log, i, Below(i), i)
      modifies `messages, `log, `aborted, steering, followUp
      ensures Valid() && Quiet() && QueuesKept() && CalledSince(was, log, i + 1, Below(i + 1), i + 1)
    {
      Begin(i, Below(i), i, was);
      End(i, i + 1, Below(i), i, was);
      Report(i, i + 1, Below(i + 1), was);
    }

    /** Calls are prepared one after the other, until the run is aborted: some end at once, the others are `left`. */
    method Prepare(n: nat) returns (started: nat, ended: set<nat>, outcomes: map<nat, Outcome>)
      requires Valid() && Quiet() && NoCalls(Watched(log))
      modifies `messages, `log, `aborted, steering, followUp
      ensures Valid() && Quiet() && QueuesKept() && started <= n && ended <= Below(started) && outcomes.Keys == ended
      ensures CalledSince(old(log), log, started, ended, 0)
      ensures started == n || (aborted && started > 0)
    {
      started, ended, outcomes := 0, {}, map[];
      while started < n
        invariant Valid() && Quiet() && QueuesKept() && started <= n && ended <= Below(started)
                  && outcomes.Keys == ended
        invariant CalledSince(old(log), log, started, ended, 0)
      {
        Begin(started, ended, 0, old(log));
        var immediate: bool := *;
        if immediate {
          var outcome: Outcome := *;
          End(started, started + 1, ended, 0, old(log));
          ended, outcomes := ended + {started}, outcomes[started := outcome];
        }
        started := started + 1;
        if aborted {
          return;
        }
      }
    }

    /**
     * Prepared calls begin in order and then run concurrently, ending in any order. One that begins after an abort is
     * refused: it ends without running and never asks to end the loop; one that runs already may still ask for it.
     */
    method Finish(started: nat, ended0: set<nat>, outcomes0: map<nat, Outcome>, ghost was: Log)
      returns (outcomes: map<nat, Outcome>, ghost refused: set<nat>)
      requires Valid() && Quiet() && ended0 <= Below(started) && outcomes0.Keys == ended0
      requires CalledSince(was, log, started, ended0, 0)
      modifies `messages, `log, `aborted, steering, followUp
      ensures Valid() && Quiet() && QueuesKept() && outcomes.Keys == Below(started)
      ensures CalledSince(was, log, started, Below(started), 0)
      ensures refused <= Below(started) - ended0 && (old(aborted) ==> refused == Below(started) - ended0)
      ensures forall i | i in refused :: !outcomes[i].terminate
    {
      var ended, begun := ended0, 0;
      var halted: set<nat> := {};
      outcomes := outcomes0;
      while begun < started || ended != Below(started)
        invariant Valid() && Quiet() && QueuesKept() && ended0 <= ended <= Below(started) && outcomes.Keys == ended
        invariant CalledSince(was, log, started, ended, 0) && begun <= started
        invariant forall i | i in halted :: i < begun && i !in ended0
        invariant forall i | i in ended :: i < begun || i in ended0
        invariant old(aborted) ==> aborted && forall i: nat | i < begun && i !in ended0 :: i in halted
        invariant forall i | i in halted && i in ended :: !outcomes[i].terminate
        decreases Below(started) - ended, started - begun
      {
        var running := Below(begun) - ended;
        var begin: bool := *;
        if begun < started && (begin || running == {}) {
          if begun !in ended0 && aborted {
            halted := halted + {begun};
          }
          begun := begun + 1;
        } else {
          assert begun == started ==> Below(started) - ended != {};
          var i :| i in running;
          End(i, started, ended, 0, was);
          var outcome: Outcome := *;
          ended, outcomes := ended + {i}, outcomes[i := if i in halted then Outcome(false) else outcome];
        }
      }
      refused := halted;
    }

    /** All prepared calls run at once; their result messages follow in source order. */
    method Parallel(n: nat) returns (results: seq<Message>, outcomes: seq<Outcome>)
      requires Valid() && Quiet() && NoCalls(Watched(log))
      modifies `messages, `log, `aborted, steering, followUp
      ensures Valid() && Quiet() && QueuesKept() && |outcomes| == |results| <= n
      ensures CalledSince(old(log), log, |results|, Below(|results|), |results|) && results == ResultMessages(|results|)
      ensures |results| == n || (aborted && |results| > 0)
    {
      var started, ended, some := Prepare(n);
      var all, _ := Finish(started, ended, some, old(log));
      results, outcomes := [], [];
      while |results| < started
        invariant Valid() && Quiet() && QueuesKept() && |outcomes| == |results| <= started
        invariant CalledSince(old(log), log, started, Below(started), |results|) && results == ResultMessages(|results|)
        invariant started == n || (aborted && started > 0)
      {
        var i := |results|;
        Report(i, started, Below(started), old(log));
        OneMoreResult(i);
        results, outcomes := results + [ResultMessage(i)], outcomes + [all[i]];
      }
    }

    /** Calls of a message that was cut off may be incomplete: each fails without running. */
    method Truncated(n: nat) returns (results: seq<Message>, outcomes: seq<Outcome>)
      requires Valid() && Quiet() && NoCalls(Watched(log))
      modifies `messages, `log, `aborted, steering, followUp
      ensures Valid() && Quiet() && QueuesKept() && |outcomes| == |results| == n
      ensures forall i | 0 <= i < n :: !outcomes[i].terminate
      ensures CalledSince(old(log), log, n, Below(n), n) && results == ResultMessages(n)
    {
      results, outcomes := [], [];
      while |results| < n
        invariant Valid() && Quiet() && QueuesKept() && |outcomes| == |results| <= n
        invariant forall i | 0 <= i < |outcomes| :: !outcomes[i].terminate
        invariant CalledSince(old(log), log, |results|, Below(|results|), |results|)
                  && results == ResultMessages(|results|)
      {
        var i := |results|;
        CallOne(i, old(log));
        OneMoreResult(i);
        results, outcomes := results + [ResultMessage(i)], outcomes + [Outcome(false)];
      }
    }

    /**
     * A batch of tool calls: the result messages are in source order, of all calls unless the run was aborted, each
     * after its call's one start and one end; the batch ends the loop if and only if it is not empty and every result
     * says so.
     */
    method ExecuteTools(n: nat, cutOff: bool) returns (results: seq<Message>, outcomes: seq<Outcome>, terminate: bool)
      requires Valid() && Quiet() && NoCalls(Watched(log))
      modifies `messages, `log, `aborted, steering, followUp
      ensures Valid() && Quiet() && QueuesKept() && |outcomes| == |results| <= n
      ensures CalledSince(old(log), log, |results|, Below(|results|), |results|) && results == ResultMessages(|results|)
      ensures |results| == n || (aborted && |results| > 0 && !cutOff)
      ensures (terminate <==> Terminates(outcomes)) && (cutOff ==> !terminate)
    {
      var sequential: bool := *;
      if cutOff {
        results, outcomes := Truncated(n);
      } else if sequential {
        results, outcomes := Sequential(n);
      } else {
        results, outcomes := Parallel(n);
      }
      terminate := Terminates(outcomes);
      if cutOff && n > 0 {
        assert !outcomes[0].terminate;
      }
    }

    // ─── turns ───

    /** Steering messages queued meanwhile; the first poll of a run may be skipped. */
    method PollSteering(skip: bool) returns (ms: seq<Message>)
      requires Valid() && Accounted([])
      modifies `aborted, steering, followUp
      ensures Valid() && Accounted(ms) && RunKept() && (forall m | m in ms :: m.origin.Steering?)
      ensures steering.single ==> |ms| <= 1
      ensures skip ==> ms == []
    {
      Elsewhere();
      ms := [];
      if !skip {
        ms := steering.Drain();
        Taken(ms, Steering, FollowUp);
      }
    }

    method PollFollowUp() returns (ms: seq<Message>)
      requires Valid() && Accounted([])
      modifies `aborted, steering, followUp
      ensures Valid() && Pending(ms) && RunKept() && From(ms, |ms|, Steering) == []
    {
      Elsewhere();
      ms := TakeFollowUps();
    }

    method TakeFollowUps() returns (ms: seq<Message>)
      requires Valid() && Accounted([])
      modifies followUp
      ensures Valid() && Pending(ms) && RunKept() && From(ms, |ms|, Steering) == []
      ensures ms != [] <==> old(followUp.messages) != []
    {
      ms := followUp.Drain();
      Taken(ms, FollowUp, Steering);
    }

    /** What the run's start says stays so; a queue's mode may change. */
    twostate predicate RunKept()
      reads this, steering, followUp
    {
      && (steering.single ==> old(steering.single)) && (followUp.single ==> old(followUp.single))
      && steeredBefore == old(steeredBefore) && followedBefore == old(followedBefore) && before == old(before)
    }

    /** What the model answers; its stream may announce parts of it. */
    method StreamAssistant() returns (m: Message, calls: nat, stop: Stop)
      requires Valid() && Quiet()
      modifies `messages, `log, `aborted, steering, followUp
      ensures Valid() && Quiet() && QueuesKept() && m.origin == Assistant(calls, stop)
      ensures Watched(log) == old(Watched(log)) && Ended(log) == old(Ended(log)) + [m]
      ensures Heard(log, Steering) == old(Heard(log, Steering)) && Heard(log, FollowUp) == old(Heard(log, FollowUp))
    {
      calls, stop := *, *;
      m := *;
      m := m.(origin := Assistant(calls, stop), system := false);
      var partial: bool := *;
      Emit(MessageStart(m));
      if partial {
        var n: nat := *;
        while n > 0
          invariant Valid() && QueuesKept() && Ended(log) == old(Ended(log))
          invariant Watched(log) == old(Watched(log)).(talking := true)
          invariant Heard(log, Steering) == old(Heard(log, Steering))
                    && Heard(log, FollowUp) == old(Heard(log, FollowUp))
        {
          Emit(MessageUpdate(m));
          n := n - 1;
        }
      }
      Emit(MessageEnd(m));
    }

    /** Messages that wait to be said are all of one queue. */
    ghost predicate Pending(ms: seq<Message>)
      reads this, steering, followUp
    {
      Accounted(ms) && ((forall m | m in ms :: m.origin.Steering?) || (forall m | m in ms :: m.origin.FollowUp?))
    }

    /** One at a time, a turn has at most one steering message, with those that wait for it. */
    ghost predicate Budget(ms: seq<Message>, used: nat)
      reads `log, steering
    {
      steering.single ==> Watched(log).most <= 1 && used + |From(ms, |ms|, Steering)| <= 1
    }

    /** A turn begins; after the first one, preparing it may have taken long enough for steering messages to arrive. */
    method BeginTurn(first: bool, pending0: seq<Message>, context0: seq<Message>)
      returns (pending: seq<Message>, prepared: seq<Message>, context: seq<Message>)
      requires Valid() && Pending(pending0)
      requires if first then Quiet() && NoCalls(Watched(log)) && Watched(log).turns == 0
               else Watched(log).phase.Between?
      requires !first ==> !Watched(log).talking
      requires Budget(pending0, if first then Watched(log).steered else 0)
      modifies `messages, `log, `aborted, steering, followUp
      ensures Valid() && Pending(pending) && RunKept() && Quiet() && NoCalls(Watched(log))
      ensures Budget(pending, Watched(log).steered) && Ended(log) == old(Ended(log))
      ensures forall m | m in prepared :: m.origin.Prepared?
    {
      pending, prepared, context := pending0, [], context0;
      if first {
        return;
      }
      var hooked: bool, replaced: seq<Message> := *, *;
      if hooked {
        context := replaced;
        var n: nat := *;
        while |prepared| < n
          invariant forall m | m in prepared :: m.origin.Prepared?
        {
          var m: Message := *;
          prepared := prepared + [m.(origin := Prepared)];
        }
      }
      if pending == [] {
        pending := PollSteering(false);
        Taken(pending, Steering, FollowUp);
      }
      Emit(TurnStart);
    }

    /** Messages are said with tool changes declared. */
    method SayDeclared(context: seq<Message>, tools: Tools, ms: seq<Message>) returns (declared: seq<Message>)
      requires Valid() && Accounted(ms) && Quiet() && forall m | m in ms :: !m.origin.Result?
      modifies `messages, `log, `aborted, steering, followUp
      ensures Valid() && Accounted([]) && RunKept() && Quiet()
      ensures Ended(log) == old(Ended(log)) + declared && CurrentTools(context + declared) == tools
      ensures SteeredMore(old(Watched(log)), Watched(log), |From(ms, |ms|, Steering)|)
    {
      declared := Declare(context, tools, ms);
      DeclareReaches(context, tools, ms);
      DeclareKeepsMessages(context, tools, ms, Steering);
      DeclareKeepsMessages(context, tools, ms, FollowUp);
      DeclareOrigins(context, tools, ms);
      SayAll(declared);
    }

    /** What was prepared and what waited is said. */
    method SayPending(context: seq<Message>, tools: Tools, prepared: seq<Message>, pending: seq<Message>)
      returns (declared: seq<Message>)
      requires Valid() && Pending(pending) && Quiet() && NoCalls(Watched(log)) && Budget(pending, Watched(log).steered)
      requires forall m | m in prepared :: m.origin.Prepared?
      modifies `messages, `log, `aborted, steering, followUp
      ensures Valid() && Pending([]) && RunKept() && Quiet() && NoCalls(Watched(log)) && Budget([], 0)
      ensures Ended(log) == old(Ended(log)) + declared && CurrentTools(context + declared) == tools
    {
      BothFrom(prepared, pending, Steering);
      BothFrom(prepared, pending, FollowUp);
      declared := SayDeclared(context, tools, prepared + pending);
    }

    /** The tool calls of the assistant's message, unless it failed. */
    method RunCalls(calls: nat, stop: Stop, newMessages0: seq<Message>)
      returns (results: seq<Message>, newMessages: seq<Message>, moreCalls: bool)
      requires Valid() && Pending([]) && Quiet() && NoCalls(Watched(log)) && newMessages0 == Ended(log) && Budget([], 0)
      modifies `messages, `log, `aborted, steering, followUp
      ensures Valid() && Pending([]) && RunKept() && Quiet() && newMessages == Ended(log) && Budget([], 0)
      ensures CallsDone(Watched(log), |results|) && Watched(log).turns == old(Watched(log)).turns
    {
      results, newMessages, moreCalls := [], newMessages0, false;
      if !stop.Failed? && calls > 0 {
        var outcomes, terminate;
        results, outcomes, terminate := ExecuteTools(calls, stop.CutOff?);
        moreCalls := !terminate;
        newMessages := newMessages + results;
      }
    }

    /** The turn ends, and the run with it if the message failed or a hook says so. */
    method CloseTurn(m: Message, results: nat, failed: bool, newMessages: seq<Message>)
      returns (over: bool, again: bool)
      requires Valid() && Pending([]) && Quiet() && CallsDone(Watched(log), results)
      requires newMessages == Ended(log) && Budget([], 0)
      modifies `messages, `log, `aborted, steering, followUp
      ensures Valid() && Pending([]) && RunKept() && newMessages == Ended(log) && Budget([], 0) && (failed ==> over)
      ensures if over then Watched(log).phase.Over? && log.More? && log.last == AgentEnd(newMessages)
              else Watched(log).phase.Between? && !Watched(log).talking && Watched(log).turns > 0
    {
      Elsewhere();
      Emit(TurnEnd(m, results));
      var decision: int := *;
      over, again := failed || decision == 0, decision == 1;
      if over {
        Emit(AgentEnd(newMessages));
      }
    }

    /** A turn goes on to its end: the assistant's message, its tool calls, and what follows from them. */
    method EndTurn(newMessages0: seq<Message>)
      returns (newMessages: seq<Message>, moreCalls: bool, over: bool, again: bool)
      requires Valid() && Pending([]) && Quiet() && NoCalls(Watched(log)) && newMessages0 == Ended(log) && Budget([], 0)
      modifies `messages, `log, `aborted, steering, followUp
      ensures Valid() && Pending([]) && RunKept() && newMessages == Ended(log) && Budget([], 0)
      ensures if over then Watched(log).phase.Over? && log.More? && log.last == AgentEnd(newMessages)
              else Watched(log).phase.Between? && !Watched(log).talking && Watched(log).turns > 0
    {
      var m, calls, stop := StreamAssistant();
      var results;
      results, newMessages, moreCalls := RunCalls(calls, stop, newMessages0 + [m]);
      over, again := CloseTurn(m, |results|, stop.Failed?, newMessages);
    }

    /** One turn, and what waits after it; it may end the run. */
    method OneTurn(first: bool, pending0: seq<Message>, context0: seq<Message>, tools: Tools,
                   newMessages0: seq<Message>)
      returns (newMessages: seq<Message>, pending: seq<Message>, moreCalls: bool, over: bool, again: bool)
      requires Valid() && Pending(pending0) && newMessages0 == Ended(log) && AtTurn(first, pending0)
      modifies `messages, `log, `aborted, steering, followUp
      ensures Valid() && Pending(pending) && RunKept() && newMessages == Ended(log)
      ensures if over then pending == [] && Budget([], 0) && IsOver(newMessages) else AtTurn(false, pending)
    {
      var waiting, prepared, context := BeginTurn(first, pending0, context0);
      var declared := SayPending(context, tools, prepared, waiting);
      newMessages, moreCalls, over, again := EndTurn(newMessages0 + declared);
      pending := [];
      if !over {
        pending := PollSteering(false);
        Taken(pending, Steering, FollowUp);
      }
    }

    /** The run is over; its last event carries all messages of the run. */
    ghost predicate IsOver(newMessages: seq<Message>)
      reads `log
    {
      Watched(log).phase.Over? && log.More? && log.last == AgentEnd(newMessages)
    }

    /**
     * Turns follow while there are tool calls to report or messages that wait: the loop stops, is over, or is cut
     * short.
     */
    method RunTurns(first0: bool, pending0: seq<Message>, context0: seq<Message>, tools: Tools,
                    newMessages0: seq<Message>, fuel0: nat)
      returns (newMessages: seq<Message>, again: bool, fuel: nat, end: End)
      requires Valid() && Pending(pending0) && newMessages0 == Ended(log) && AtTurn(first0, pending0)
      modifies `messages, `log, `aborted, steering, followUp
      ensures Valid() && RunKept() && newMessages == Ended(log)
      ensures end.Idle? ==> Pending([]) && AtTurn(false, []) && fuel < fuel0
      ensures end.RunOver? ==> Pending([]) && IsOver(newMessages)
      ensures steering.single ==> Watched(log).most <= 1
    {
      var first, pending, context, moreCalls := first0, pending0, context0, true;
      newMessages, again, fuel, end := newMessages0, false, fuel0, Idle;
      while moreCalls || pending != []
        invariant Valid() && Pending(pending) && RunKept() && newMessages == Ended(log) && AtTurn(first, pending)
        invariant fuel <= fuel0 && (fuel < fuel0 || moreCalls) && (!first || moreCalls) && end.Idle?
        decreases fuel
      {
        if fuel == 0 {
          end := CutShort;
          return;
        }
        var over;
        newMessages, pending, moreCalls, over, again := OneTurn(first, pending, context, tools, newMessages);
        if over {
          end := RunOver;
          return;
        }
        fuel, first, context := fuel - 1, false, *;
        if moreCalls || pending != [] {
          again := false;
        }
      }
    }

    /** Nothing is left to do. */
    method EndRun(newMessages: seq<Message>)
      requires Valid() && Pending([]) && AtTurn(false, []) && newMessages == Ended(log)
      modifies `messages, `log, `aborted, steering, followUp
      ensures Valid() && Pending([]) && RunKept() && IsOver(newMessages) && newMessages == Ended(log)
      ensures steering.single ==> Watched(log).most <= 1
    {
      Emit(AgentEnd(newMessages));
    }

    /**
     * The loop, from the first turn's start; `fuel` bounds the turns followed. When it is done, the run is over, and
     * everything taken from the queues was said.
     */
    method RunLoop(context0: seq<Message>, tools: Tools, newMessages0: seq<Message>, skipFirstPoll: bool, fuel0: nat)
      returns (newMessages: seq<Message>, done: bool)
      requires Valid() && Pending([]) && Quiet() && NoCalls(Watched(log)) && Watched(log).turns == 0
      requires newMessages0 == Ended(log) && Budget([], Watched(log).steered + if skipFirstPoll then 0 else 1)
      modifies `messages, `log, `aborted, steering, followUp
      ensures Valid() && RunKept() && newMessages == Ended(log)
      ensures steering.single ==> Watched(log).most <= 1
      ensures done ==> Pending([]) && IsOver(newMessages)
    {
      var fuel, context, first := fuel0, context0, true;
      newMessages, done := newMessages0, false;
      var pending := PollSteering(skipFirstPoll);
      Taken(pending, Steering, FollowUp);
      while true
        invariant Valid() && Pending(pending) && RunKept() && newMessages == Ended(log) && AtTurn(first, pending)
        decreases fuel
      {
        var again, end;
        newMessages, again, fuel, end := RunTurns(first, pending, context, tools, newMessages, fuel);
        if !end.Idle? {
          done := end.RunOver?;
          return;
        }
        first, context := false, *;
        pending := PollFollowUp();
        if pending == [] && !again {
          break;
        }
      }
      EndRun(newMessages);
      done := true;
    }

    /** A run from prompts, which were taken from a queue or are new. */
    method RunAgentLoop(prompts: seq<Message>, tools: Tools, skipFirstPoll: bool, fuel: nat)
      returns (newMessages: seq<Message>, done: bool)
      requires Valid() && log == Empty && Accounted(prompts) && (forall m | m in prompts :: !m.origin.Result?)
      requires steering.single ==> |From(prompts, |prompts|, Steering)| + (if skipFirstPoll then 0 else 1) <= 1
      modifies `messages, `log, `aborted, steering, followUp
      ensures Valid() && RunKept() && newMessages == Ended(log) && messages == before + newMessages
      ensures steering.single ==> Watched(log).most <= 1
      ensures done ==> Accounted([]) && IsOver(newMessages)
    {
      var context := messages;
      Emit(AgentStart);
      Emit(TurnStart);
      newMessages := SayDeclared(context, tools, prompts);
      newMessages, done := RunLoop(context + newMessages, tools, newMessages, skipFirstPoll, fuel);
    }

    method RunAgentLoopContinue(tools: Tools, fuel: nat) returns (newMessages: seq<Message>, done: bool)
      requires Valid() && log == Empty && Accounted([])
      modifies `messages, `log, `aborted, steering, followUp
      ensures Valid() && RunKept() && newMessages == Ended(log) && messages == before + newMessages
      ensures steering.single ==> Watched(log).most <= 1
      ensures done ==> Accounted([]) && IsOver(newMessages)
    {
      var context := messages;
      Emit(AgentStart);
      Emit(TurnStart);
      newMessages, done := RunLoop(context, tools, [], false, fuel);
    }

    /** A run begins: what the transcript and the queues hold now is from before it. */
    method StartRun()
      requires Queues()
      modifies `aborted, `log, `before, `steeredBefore, `followedBefore, steering`single, followUp`single
      ensures Valid() && (steering.single <==> steering.mode.OneAtATime?) && Accounted([]) && log == Empty
              && before == messages
      ensures steeredBefore == steering.taken && followedBefore == followUp.taken
    {
      aborted, log, before := false, Empty, messages;
      steeredBefore, followedBefore := steering.taken, followUp.taken;
      steering.Restart();
      followUp.Restart();
    }

    /** A new prompt. */
    method Prompt(prompts: seq<Message>, tools: Tools, fuel: nat) returns (newMessages: seq<Message>, done: bool)
      requires Queues() && forall m | m in prompts :: m.origin.Prompt?
      modifies this, steering, followUp
      ensures Valid() && messages == old(messages) + newMessages && Ended(log) == newMessages
      ensures steering.single ==> Watched(log).most <= 1
      ensures done ==> AllSaid(old(steering.taken), old(followUp.taken)) && IsOver(newMessages)
    {
      StartRun();
      Taken(prompts, Origin.Prompt, Steering);
      Taken(prompts, Origin.Prompt, FollowUp);
      newMessages, done := RunAgentLoop(prompts, tools, false, fuel);
    }

    /** What was taken from the queues since was said, in order, once each. */
    ghost predicate AllSaid(steeredBefore: seq<nat>, followedBefore: seq<nat>)
      reads this, steering, followUp
    {
      && steering.taken == steeredBefore + Heard(log, Steering)
      && followUp.taken == followedBefore + Heard(log, FollowUp)
    }

    /** A run from queued steering messages, if there are any; its first poll is skipped. */
    method RunSteering(tools: Tools, fuel: nat) returns (some: bool, newMessages: seq<Message>, done: bool)
      requires Valid() && log == Empty && Accounted([]) && Ended(log) == []
      modifies `messages, `log, `aborted, steering, followUp
      ensures Valid() && RunKept() && newMessages == Ended(log) && (some <==> old(steering.messages) != [])
      ensures !some ==> !done && log == Empty && Accounted([]) && followUp.messages == old(followUp.messages)
      ensures steering.single ==> Watched(log).most <= 1
      ensures done ==> Accounted([]) && IsOver(newMessages)
    {
      newMessages, done := [], false;
      var queued := steering.Drain();
      some := queued != [];
      Taken(queued, Steering, FollowUp);
      if some {
        newMessages, done := RunAgentLoop(queued, tools, true, fuel);
      }
    }

    method RunFollowUps(tools: Tools, fuel: nat) returns (some: bool, newMessages: seq<Message>, done: bool)
      requires Valid() && log == Empty && Accounted([]) && Ended(log) == []
      modifies `messages, `log, `aborted, steering, followUp
      ensures Valid() && RunKept() && newMessages == Ended(log) && (some <==> old(followUp.messages) != [])
      ensures !some ==> !done && log == Empty
      ensures steering.single ==> Watched(log).most <= 1
      ensures done ==> Accounted([]) && IsOver(newMessages)
    {
      newMessages, done := [], false;
      var queued := TakeFollowUps();
      some := queued != [];
      if some {
        newMessages, done := RunAgentLoop(queued, tools, false, fuel);
      }
    }

    /** A run from what is queued: steering messages first; refused if nothing is. */
    method RunQueued(tools: Tools, fuel: nat) returns (refused: bool, newMessages: seq<Message>, done: bool)
      requires Valid() && log == Empty && Accounted([]) && Ended(log) == []
      modifies `messages, `log, `aborted, steering, followUp
      ensures Valid() && RunKept() && newMessages == Ended(log)
      ensures refused <==> old(steering.messages) == [] && old(followUp.messages) == []
      ensures refused ==> newMessages == [] && !done
      ensures steering.single ==> Watched(log).most <= 1
      ensures done ==> Accounted([]) && IsOver(newMessages)
    {
      var some;
      some, newMessages, done := RunSteering(tools, fuel);
      if !some {
        some, newMessages, done := RunFollowUps(tools, fuel);
      }
      refused := !some;
    }

    /** Goes on from the transcript: with queued messages if the assistant spoke last; refused if there are none. */
    method Continue(tools: Tools, fuel: nat) returns (refused: bool, newMessages: seq<Message>, done: bool)
      requires Queues()
      modifies this, steering, followUp
      ensures Valid() && messages == old(messages) + newMessages && Ended(log) == newMessages
      ensures refused <==> (forall m | m in old(messages) :: m.system)
                           || (old(messages)[|old(messages)| - 1].origin.Assistant?
                               && old(steering.messages) == [] && old(followUp.messages) == [])
      ensures refused ==> newMessages == [] && !done
      ensures steering.single ==> Watched(log).most <= 1
      ensures done ==> AllSaid(old(steering.taken), old(followUp.taken)) && IsOver(newMessages)
    {
      refused, newMessages, done := false, [], false;
      StartRun();
      if forall m | m in messages :: m.system {
        refused := true;
      } else if messages[|messages| - 1].origin.Assistant? {
        refused, newMessages, done := RunQueued(tools, fuel);
      } else {
        newMessages, done := RunAgentLoopContinue(tools, fuel);
      }
    }

    /** Where the loop is when it takes up a turn. */
    ghost predicate AtTurn(first: bool, pending: seq<Message>)
      reads this, steering
    {
      if first then Quiet() && NoCalls(Watched(log)) && Watched(log).turns == 0 && Budget(pending, Watched(log).steered)
      else Watched(log).phase.Between? && !Watched(log).talking && Watched(log).turns > 0 && Budget(pending, 0)
    }
  }

  function Below(n: nat): (s: set<nat>)
    ensures forall i: nat :: i in s <==> i < n
  {
    if n == 0 then {} else Below(n - 1) + {n - 1}
  }

  predicate CallsDone(w: Watch, n: nat) {
    w.started == w.results == n && forall i | 0 <= i < n :: i in w.ended
  }

  predicate NoCalls(w: Watch) {
    w.started == 0 && w.ended == {} && w.results == 0
  }

  /** Since then calls started and ended, and some results were said, and nothing else happened. */
  ghost predicate CalledSince(was: Log, now: Log, started: nat, ended: set<nat>, results: nat) {
    && Watched(now) == Watched(was).(started := started, ended := ended, results := results)
    && Ended(now) == Ended(was) + ResultMessages(results)
    && Heard(now, Steering) == Heard(was, Steering) && Heard(now, FollowUp) == Heard(was, FollowUp)
  }

  lemma BothFrom(prepared: seq<Message>, pending: seq<Message>, origin: Origin)
    requires origin.Steering? || origin.FollowUp?
    requires forall m | m in prepared :: m.origin.Prepared?
    ensures From(prepared + pending, |prepared + pending|, origin) == From(pending, |pending|, origin)
  {
    FromJoin(prepared, pending, |pending|, origin);
    FromNone(prepared, |prepared|, origin);
  }

  /** All of what was taken from one queue came from it. */
  lemma Taken(ms: seq<Message>, origin: Origin, other: Origin)
    requires (forall m | m in ms :: m.origin == origin) && origin != other
    ensures From(ms, |ms|, origin) == Ids(ms) && From(ms, |ms|, other) == []
  {
    FromAll(ms, |ms|, origin);
    FromNone(ms, |ms|, other);
    assert Ids(ms)[..|ms|] == Ids(ms);
  }

  function First(ms: seq<Message>, n: nat): seq<Message>
    requires n <= |ms|
  {
    if n == 0 then [] else First(ms, n - 1) + [ms[n - 1]]
  }

  lemma {:induction false} FirstPrefix(ms: seq<Message>, n: nat)
    requires n <= |ms|
    ensures First(ms, n) == ms[..n]
  {
    if n > 0 {
      FirstPrefix(ms, n - 1);
    }
  }

  /** The first `n` of several messages were said since, and nothing else that matters. */
  ghost predicate SaidSince(was: Log, now: Log, ms: seq<Message>, n: nat)
    requires n <= |ms|
  {
    && Ended(now) == Ended(was) + First(ms, n)
    && (forall origin :: Heard(now, origin) == Heard(was, origin) + From(ms, n, origin))
    && SteeredMore(Watched(was), Watched(now), |From(ms, n, Steering)|)
  }

  lemma SaidMore(was: Log, mid: Log, now: Log, ms: seq<Message>, i: nat)
    requires i < |ms| && SaidSince(was, mid, ms, i) && !ms[i].origin.Result? && !Watched(mid).talking
    requires Watched(now) == Said(Watched(mid).(talking := true), ms[i]) && Ended(now) == Ended(mid) + [ms[i]]
    requires forall origin ::
               Heard(now, origin) == if ms[i].origin == origin then Heard(mid, origin) + [ms[i].id]
                                     else Heard(mid, origin)
    ensures SaidSince(was, now, ms, i + 1)
  {
    forall origin
      ensures Heard(now, origin) == Heard(was, origin) + From(ms, i + 1, origin)
    {
      FromMore(Heard(was, origin), ms, i, origin);
    }
    FirstMore(Ended(was), ms, i);
    SteeredOnce(Watched(was), Watched(mid), Watched(now), ms, i);
  }

  lemma FromMore(heard: seq<nat>, ms: seq<Message>, i: nat, origin: Origin)
    requires i < |ms|
    ensures heard + From(ms, i + 1, origin) ==
            if ms[i].origin == origin then (heard + From(ms, i, origin)) + [ms[i].id] else heard + From(ms, i, origin)
  {
  }

  lemma FirstMore(ended: seq<Message>, ms: seq<Message>, i: nat)
    requires i < |ms|
    ensures ended + First(ms, i + 1) == (ended + First(ms, i)) + [ms[i]]
  {
  }

  lemma SteeredOnce(w: Watch, mid: Watch, now: Watch, ms: seq<Message>, i: nat)
    requires i < |ms| && SteeredMore(w, mid, |From(ms, i, Steering)|) && !ms[i].origin.Result? && !mid.talking
    requires now == Said(mid.(talking := true), ms[i])
    ensures SteeredMore(w, now, |From(ms, i + 1, Steering)|)
  {
  }

  /** Nothing but steering messages were said that matter to a watch. */
  predicate SteeredMore(w: Watch, w': Watch, n: nat) {
    w'.most <= Max(w.most, w.steered + n) && w' == w.(steered := w.steered + n, most := w'.most)
  }
}
