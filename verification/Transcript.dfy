/** Messages of a transcript, the tools its system messages declare, and the queues messages wait in. */
module Transcript {
  /** Where a message came from. `Update` is the runtime's own declaration of tool changes. */
  datatype Origin =
    | Steering
    | FollowUp
    | Prompt
    | Prepared
    | Update
    | Assistant(calls: nat, stop: Stop)
    | Result(call: nat)

  datatype Stop = Finished | CutOff | Failed

  /** Tools by name, with their definitions. */
  type Tools = map<nat, nat>

  /** A message; `added` and `removed` are the tool changes a system message declares. */
  datatype Message = Message(id: nat, origin: Origin, system: bool, added: Tools, removed: set<nat>)

  function Apply(tools: Tools, m: Message): Tools {
    if m.system then (tools - m.removed) + m.added else tools
  }

  /** The tools a transcript declares: its first `n` messages replayed. */
  function Replay(tools: Tools, ms: seq<Message>, n: nat): Tools
    requires n <= |ms|
  {
    if n == 0 then tools else Apply(Replay(tools, ms, n - 1), ms[n - 1])
  }

  function CurrentTools(ms: seq<Message>): Tools {
    Replay(map[], ms, |ms|)
  }

  /** The two halves of a difference between tool sets; a name with another definition is in both. */
  function Added(was: Tools, want: Tools): Tools {
    map t | t in want && (t !in was || was[t] != want[t]) :: want[t]
  }

  function Removed(was: Tools, want: Tools): set<nat> {
    set t | t in was && (t !in want || was[t] != want[t])
  }

  function WithChanges(m: Message, added: Tools, removed: set<nat>): Message {
    m.(added := added, removed := removed)
  }

  /** The index of the last system message among the first `n`, or -1. */
  function LastSystem(ms: seq<Message>, n: nat): (i: int)
    requires n <= |ms|
    ensures -1 <= i < n && (i >= 0 ==> ms[i].system) && forall j | i < j < n :: !ms[j].system
  {
    if n == 0 then -1 else if ms[n - 1].system then n - 1 else LastSystem(ms, n - 1)
  }

  /** A new system message; it has no other effect than the tools it declares. */
  function UpdateMessage(added: Tools, removed: set<nat>): Message {
    Message(0, Update, true, added, removed)
  }

  /**
   * Declares tool changes before a request: the tool fields of the last pending system message are replaced by what
   * brings the transcript's tools to `tools`; without one, a system message is inserted for it, if anything changed.
   */
  function Declare(context: seq<Message>, tools: Tools, pending: seq<Message>): seq<Message> {
    var i := LastSystem(pending, |pending|);
    if i >= 0 then
      var baseline := pending[i := WithChanges(pending[i], map[], {})];
      var was := CurrentTools(context + baseline);
      var added, removed := Added(was, tools), Removed(was, tools);
      if added == map[] && removed == {} && pending[i].added == map[] && pending[i].removed == {} then pending
      else pending[i := WithChanges(pending[i], added, removed)]
    else
      var was := CurrentTools(context + pending);
      var added, removed := Added(was, tools), Removed(was, tools);
      if added == map[] && removed == {} then pending else [UpdateMessage(added, removed)] + pending
  }

  lemma ChangesReach(was: Tools, want: Tools)
    ensures (was - Removed(was, want)) + Added(was, want) == want
    ensures Added(was, want) == map[] && Removed(was, want) == {} ==> was == want
  {
    assert was - {} == was;
  }

  lemma NoSystem(context: seq<Message>, pending: seq<Message>)
    requires LastSystem(pending, |pending|) < 0
    ensures CurrentTools(context + pending) == CurrentTools(context)
  {
    ReplayJoin(map[], context, pending, |pending|);
    ReplayQuiet(CurrentTools(context), pending, 0, |pending|);
  }

  lemma {:induction false} ReplayJoin(tools: Tools, a: seq<Message>, b: seq<Message>, n: nat)
    requires n <= |b|
    ensures Replay(tools, a + b, |a| + n) == Replay(Replay(tools, a, |a|), b, n)
  {
    if n == 0 {
      ReplaySame(tools, a + b, a, |a|);
    } else {
      ReplayJoin(tools, a, b, n - 1);
    }
  }

  lemma {:induction false} ReplaySame(tools: Tools, a: seq<Message>, b: seq<Message>, n: nat)
    requires n <= |a| && n <= |b| && forall j | 0 <= j < n :: a[j] == b[j]
    ensures Replay(tools, a, n) == Replay(tools, b, n)
  {
    if n > 0 {
      ReplaySame(tools, a, b, n - 1);
    }
  }

  /** Messages other than system messages declare nothing. */
  lemma {:induction false} ReplayQuiet(tools: Tools, ms: seq<Message>, from: nat, n: nat)
    requires from <= n <= |ms| && forall j | from <= j < n :: !ms[j].system
    ensures Replay(tools, ms, n) == Replay(tools, ms, from)
  {
    if from < n {
      ReplayQuiet(tools, ms, from, n - 1);
    }
  }

  /** The tools after the last system message's declaration was replaced. */
  lemma ReplayLast(tools: Tools, ms: seq<Message>, i: nat, m: Message)
    requires i < |ms| && i == LastSystem(ms, |ms|) && m.system
    ensures Replay(tools, ms[i := m], |ms|) == Apply(Replay(tools, ms, i), m)
  {
    var us := ms[i := m];
    ReplayQuiet(tools, us, i + 1, |us|);
    ReplaySame(tools, us, ms, i);
  }

  /** Replaying the transcript with the last pending system message changed. */
  lemma ReplayPending(context: seq<Message>, pending: seq<Message>, i: nat, m: Message)
    requires i < |pending| && i == LastSystem(pending, |pending|) && m.system
    ensures CurrentTools(context + pending[i := m]) == Apply(Replay(CurrentTools(context), pending, i), m)
  {
    ReplayJoin(map[], context, pending[i := m], |pending|);
    ReplayLast(CurrentTools(context), pending, i, m);
  }

  lemma DeclareReplaces(context: seq<Message>, tools: Tools, pending: seq<Message>, i: nat)
    requires i < |pending| && i == LastSystem(pending, |pending|)
    ensures CurrentTools(context + Declare(context, tools, pending)) == tools
  {
    var before := Replay(CurrentTools(context), pending, i);
    var quiet := WithChanges(pending[i], map[], {});
    ReplayPending(context, pending, i, quiet);
    assert Apply(before, quiet) == before;
    ChangesReach(before, tools);
    var last := WithChanges(pending[i], Added(before, tools), Removed(before, tools));
    ReplayPending(context, pending, i, last);
    ReplayPending(context, pending, i, pending[i]);
    assert pending[i := pending[i]] == pending;
  }

  lemma DeclareAdds(context: seq<Message>, tools: Tools, pending: seq<Message>)
    requires LastSystem(pending, |pending|) < 0
    ensures CurrentTools(context + Declare(context, tools, pending)) == tools
  {
    var base := CurrentTools(context);
    NoSystem(context, pending);
    ChangesReach(base, tools);
    DeclareInserts(context, base, UpdateMessage(Added(base, tools), Removed(base, tools)), pending);
  }

  /** After the declaration, replaying the transcript yields exactly the tools that can be executed. */
  lemma DeclareReaches(context: seq<Message>, tools: Tools, pending: seq<Message>)
    ensures CurrentTools(context + Declare(context, tools, pending)) == tools
  {
    var i := LastSystem(pending, |pending|);
    if i >= 0 {
      DeclareReplaces(context, tools, pending, i);
    } else {
      DeclareAdds(context, tools, pending);
    }
  }

  lemma DeclareInserts(context: seq<Message>, base: Tools, update: Message, pending: seq<Message>)
    requires base == CurrentTools(context) && update.system && forall m | m in pending :: !m.system
    ensures CurrentTools(context + ([update] + pending)) == Apply(base, update)
  {
    var us := [update] + pending;
    ReplayJoin(map[], context, us, |us|);
    ReplayQuiet(base, us, 1, |us|);
  }

  // ─── who said what ───

  /** The ids of the first `n` messages that came from a queue. */
  function From(ms: seq<Message>, n: nat, origin: Origin): seq<nat>
    requires n <= |ms|
  {
    if n == 0 then []
    else From(ms, n - 1, origin) + if ms[n - 1].origin == origin then [ms[n - 1].id] else []
  }

  function Ids(ms: seq<Message>): seq<nat> {
    seq(|ms|, i requires 0 <= i < |ms| => ms[i].id)
  }

  lemma {:induction false} FromAll(ms: seq<Message>, n: nat, origin: Origin)
    requires n <= |ms| && forall m | m in ms :: m.origin == origin
    ensures From(ms, n, origin) == Ids(ms)[..n]
  {
    if n > 0 {
      assert ms[n - 1] in ms;
      FromAll(ms, n - 1, origin);
    }
  }

  lemma {:induction false} FromNone(ms: seq<Message>, n: nat, origin: Origin)
    requires n <= |ms| && forall m | m in ms :: m.origin != origin
    ensures From(ms, n, origin) == []
  {
    if n > 0 {
      assert ms[n - 1] in ms;
      FromNone(ms, n - 1, origin);
    }
  }

  lemma {:induction false} FromJoin(a: seq<Message>, b: seq<Message>, n: nat, origin: Origin)
    requires n <= |b|
    ensures From(a + b, |a| + n, origin) == From(a, |a|, origin) + From(b, n, origin)
  {
    if n == 0 {
      FromSame(a + b, a, |a|, origin);
    } else {
      FromJoin(a, b, n - 1, origin);
    }
  }

  /** Only ids and origins matter. */
  lemma {:induction false} FromSame(a: seq<Message>, b: seq<Message>, n: nat, origin: Origin)
    requires n <= |a| && n <= |b| && forall j | 0 <= j < n :: a[j].id == b[j].id && a[j].origin == b[j].origin
    ensures From(a, n, origin) == From(b, n, origin)
  {
    if n > 0 {
      FromSame(a, b, n - 1, origin);
    }
  }

  /** Declaring tool changes drops, repeats and reorders no message. */
  lemma DeclareKeepsMessages(context: seq<Message>, tools: Tools, pending: seq<Message>, origin: Origin)
    requires origin != Update
    ensures var declared := Declare(context, tools, pending);
            From(declared, |declared|, origin) == From(pending, |pending|, origin)
  {
    var declared := Declare(context, tools, pending);
    if |declared| == |pending| {
      FromSame(declared, pending, |pending|, origin);
    } else {
      var update := [declared[0]];
      assert declared == update + pending;
      FromJoin(update, pending, |pending|, origin);
      assert From(update, 1, origin) == From(update, 0, origin);
    }
  }

  lemma DeclareOrigins(context: seq<Message>, tools: Tools, pending: seq<Message>)
    requires forall m | m in pending :: !m.origin.Result?
    ensures forall m | m in Declare(context, tools, pending) :: !m.origin.Result?
  {
    var declared := Declare(context, tools, pending);
    forall i | 0 <= i < |declared|
      ensures !declared[i].origin.Result?
    {
      if |declared| == |pending| {
        assert pending[i] in pending;
      } else if i > 0 {
        assert pending[i - 1] in pending;
      }
    }
  }

  datatype Mode = All | OneAtATime

  /** Messages queued while the agent runs, in the order they were queued. */
  class MessageQueue {
    const origin: Origin
    var mode: Mode
    var messages: seq<Message>
    /** The ids of the messages queued and not removed, and of those taken from the queue. */
    ghost var accepted: seq<nat>
    ghost var taken: seq<nat>
    /** Whether the mode has been one at a time ever since a run began. */
    ghost var single: bool

    constructor (origin: Origin, mode: Mode)
      ensures Valid() && this.origin == origin && this.mode == mode && messages == [] && taken == []
      ensures single == mode.OneAtATime?
    {
      this.origin, this.mode, single := origin, mode, mode.OneAtATime?;
      messages, accepted, taken := [], [], [];
    }

    /** First in, first out: what was accepted is what was taken and then what still waits. */
    ghost predicate Valid()
      reads this
    {
      && accepted == taken + Ids(messages) && (single ==> mode.OneAtATime?)
      && forall m | m in messages :: m.origin == origin
    }

    /** The mode can be set at any time, also while a run goes on. */
    method SetMode(m: Mode)
      requires Valid()
      modifies `mode, `single
      ensures Valid() && mode == m && (single <==> old(single) && m.OneAtATime?)
    {
      mode, single := m, single && m.OneAtATime?;
    }

    /** A run begins. */
    ghost method Restart()
      requires Valid()
      modifies `single
      ensures Valid() && (single <==> mode.OneAtATime?)
    {
      single := mode.OneAtATime?;
    }

    method Enqueue(m: Message)
      requires Valid() && m.origin == origin
      modifies this
      ensures Valid() && messages == old(messages) + [m] && accepted == old(accepted) + [m.id]
      ensures taken == old(taken) && mode == old(mode) && single == old(single)
    {
      messages := messages + [m];
      accepted := accepted + [m.id];
      assert Ids(messages) == Ids(old(messages)) + [m.id];
    }

    method Peek() returns (selected: seq<Message>)
      ensures selected == if mode.All? || messages == [] then messages else [messages[0]]
    {
      if mode.All? {
        return messages;
      }
      selected := if messages == [] then [] else [messages[0]];
    }

    method Drain() returns (drained: seq<Message>)
      requires Valid()
      modifies this
      ensures Valid() && drained + messages == old(messages) && taken == old(taken) + Ids(drained)
      ensures accepted == old(accepted) && mode == old(mode) && single == old(single)
      ensures drained == if mode.All? || old(messages) == [] then old(messages) else [old(messages)[0]]
      ensures forall m | m in drained :: m.origin == origin
    {
      drained := Peek();
      messages := messages[|drained|..];
      taken := taken + Ids(drained);
      assert Ids(drained) + Ids(messages) == Ids(old(messages));
    }

    method Clear()
      requires Valid()
      modifies this
      ensures Valid() && messages == [] && accepted == taken == old(taken) && mode == old(mode) && single == old(single)
    {
      messages := [];
      accepted := taken;
    }

    /** Takes out one message, the earliest that `match_` accepts; `found` says whether there was one. */
    method Remove(match_: Message -> bool) returns (found: bool)
      requires Valid()
      modifies this
      ensures Valid() && taken == old(taken) && mode == old(mode) && single == old(single)
      ensures found <==> exists m | m in old(messages) :: match_(m)
      ensures !found ==> messages == old(messages) && accepted == old(accepted)
      ensures found ==> exists i | 0 <= i < |old(messages)| ::
                (match_(old(messages)[i]) && (forall j | 0 <= j < i :: !match_(old(messages)[j]))
                 && messages == old(messages)[..i] + old(messages)[i + 1..])
    {
      var i := 0;
      while i < |messages| && !match_(messages[i])
        invariant 0 <= i <= |messages| && forall j | 0 <= j < i :: !match_(messages[j])
      {
        i := i + 1;
      }
      found := i < |messages|;
      if found {
        messages := messages[..i] + messages[i + 1..];
        accepted := taken + Ids(messages);
      }
    }
  }
}
