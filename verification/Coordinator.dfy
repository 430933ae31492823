/** The server's side of cluster reloads: whom it asks, when it commits, and how late children are brought in step. */
module Coordinator {
  import opened Lists
  import opened Child
  import opened Cluster

  /**
   * `Begun`: the reload slot is taken and the children in step are noted; `Voting`: they were asked. `granted` are
   * those that voted yes before their link was lost.
   */
  datatype Phase =
    | NoReload
    | Begun(noted: set<nat>, version: nat)
    | Voting(id: nat, version: nat, members: set<nat>, local: Option<bool>, granted: set<nat>)
    | Ending

  datatype Server = Server(
    current: nat,
    phase: Phase,
    ids: nat,
    links: map<nat, Link>,
    synced: set<nat>,
    deferred: set<nat>,                     // said hello while a reload ran
    reconciling: set<nat>)                  // behind, being reconciled

  datatype Step =
    | Connect(c: nat, child: State, first: nat) // a child host connects, perhaps still unwinding an earlier reload
    | Listen(c: nat)                        // the server takes a frame of a child
    | Deadline(c: nat)                      // a vote is missing for too long
    | Begin(version: nat)
    | BeginFailed
    | AskAll
    | LocalPrepared(ok: bool)
    | CommitAll
    | AbortAll
    | End                                   // the reload slot is freed
    | Reconcile(c: nat)
    | Settle(c: nat)
    | GiveUp(c: nat)
    | Close(c: nat)
    | Lost(c: nat)
    | Route(c: nat, version: nat)           // any other frame, of a root of a code version
    | ChildTakes(c: nat)
    | ChildWorks(c: nat, step: Child.Step)

  predicate Unused(s: Server, c: nat) {
    && c !in s.links && c !in s.synced && c !in s.deferred && c !in s.reconciling
    && (s.phase.Begun? ==> c !in s.phase.noted) && (s.phase.Voting? ==> c !in s.phase.members)
  }

  predicate Open(s: Server, c: nat) {
    c in s.links && s.links[c].open
  }

  /** A participant's vote is settled: it came, it is missing, or the link closed. */
  predicate Settled(s: Server, c: nat) {
    !Open(s, c) || !s.links[c].asking.Asked?
  }

  /** A vote that came counts, also when the link it came over is gone. */
  predicate VotedYes(s: Server, c: nat) {
    if c in s.links then s.links[c].asking.Granted? else s.phase.Voting? && c in s.phase.granted
  }

  ghost predicate Enabled(s: Server, step: Step) {
    match step
    case Connect(c, child, first) =>
      Unused(s, c) && (child.operation.Some? ==> child.operation.value.cancelled) && Child.Inv(child, first)
    case Listen(c) => Open(s, c) && s.links[c].up != []
    case Deadline(c) => Open(s, c) && s.links[c].asking.Asked?
    case Begin(version) => s.phase.NoReload? && version > s.current
    case BeginFailed => s.phase.Begun?
    case AskAll => s.phase.Begun?
    case LocalPrepared(_) => s.phase.Voting? && s.phase.local.None?
    case CommitAll =>
      s.phase.Voting? && s.phase.local == Some(true) && forall c | c in s.phase.members :: VotedYes(s, c)
    case AbortAll =>
      && s.phase.Voting? && s.phase.local.Some? && (forall c | c in s.phase.members :: Settled(s, c))
      && (!s.phase.local.value || exists c | c in s.phase.members :: !VotedYes(s, c))
    case End => s.phase.Ending?
    case Reconcile(c) => Open(s, c) && c in s.reconciling && s.phase.NoReload? && s.links[c].asking.Idle?
    case Settle(c) => Open(s, c) && c in s.reconciling && s.links[c].asking.Granted?
    case GiveUp(c) => Open(s, c) && c in s.reconciling && s.links[c].asking.Refused?
    case Close(c) => Open(s, c)
    case Lost(c) => c in s.links && !s.links[c].open
    case Route(c, version) => Open(s, c) && c in s.synced && version <= s.current
    case ChildTakes(c) => c in s.links && s.links[c].down != []
    case ChildWorks(c, step) =>
      c in s.links && Child.Enabled(s.links[c].child, step) && !step.Handle? && !step.ParentLost?
  }

  function With(s: Server, c: nat, l: Link): Server {
    s.(links := s.links[c := l])
  }

  /** A child announced its code version. */
  function PeerHello(s: Server, c: nat, version: nat): Server
    requires c in s.links && s.links[c].up != []
  {
    var l := s.links[c].(up := s.links[c].up[1..]);
    if version > s.current then With(s, c, l.(open := false))
    else
      var t := With(s, c, l.(peer := Some(version)));
      if !s.phase.NoReload? then t.(deferred := s.deferred + {c})
      else if version == s.current then t.(synced := s.synced + {c})
      else t.(reconciling := s.reconciling + {c})
  }

  function AskMembers(s: Server, members: set<nat>, id: nat, version: nat): map<nat, Link> {
    map c | c in s.links :: if c in members then Ask(s.links[c], id, version) else s.links[c]
  }

  function DecideMembers(s: Server, members: set<nat>, commit: bool): map<nat, Link> {
    map c | c in s.links ::
      if c in members && s.links[c].open && !s.links[c].asking.Idle? then Decide(s.links[c], commit) else s.links[c]
  }

  ghost function Next(s: Server, step: Step): Server
    requires Enabled(s, step)
  {
    match step
    case Connect(c, child, first) =>
      With(s, c, Link(true, None, Idle, [], [Hello(child.version)], child, first))
    case Listen(c) =>
      if s.links[c].up[0].Hello? then PeerHello(s, c, s.links[c].up[0].version) else With(s, c, Hear(s.links[c]))
    case Deadline(c) => With(s, c, s.links[c].(asking := Refused(s.links[c].asking.id, s.links[c].asking.version)))
    case Begin(version) => s.(phase := Phase.Begun((set c | c in s.synced && Open(s, c)), version))
    case BeginFailed => s.(phase := Ending)
    case AskAll =>
      var members := set c | c in s.phase.noted && Open(s, c);
      s.(phase := Voting(s.ids, s.phase.version, members, None, {}), ids := s.ids + 1,
         links := AskMembers(s, members, s.ids, s.phase.version))
    case LocalPrepared(ok) => s.(phase := s.phase.(local := Some(ok)))
    case CommitAll => s.(current := s.phase.version, phase := Ending, links := DecideMembers(s, s.phase.members, true))
    case AbortAll => s.(phase := Ending, links := DecideMembers(s, s.phase.members, false))
    case End =>
      var inStep := set c | c in s.deferred && Open(s, c) && s.links[c].peer == Some(s.current);
      s.(phase := NoReload, deferred := {}, synced := s.synced + inStep,
         reconciling := s.reconciling + (s.deferred - inStep))
    case Reconcile(c) =>
      if s.links[c].peer == Some(s.current) then s.(synced := s.synced + {c}, reconciling := s.reconciling - {c})
      else With(s, c, Ask(s.links[c], s.ids, s.current)).(ids := s.ids + 1)
    case Settle(c) => With(s, c, Decide(s.links[c], s.links[c].asking.version == s.current))
    case GiveUp(c) => With(s, c, s.links[c].(open := false))
    case Close(c) => With(s, c, s.links[c].(open := false))
    case Lost(c) =>
      var counts := s.phase.Voting? && VotedYes(s, c);
      s.(links := s.links - {c}, phase := if counts then s.phase.(granted := s.phase.granted + {c}) else s.phase)
    case Route(c, version) => With(s, c, Use_(s.links[c], version))
    case ChildTakes(c) => With(s, c, Take(s.links[c]))
    case ChildWorks(c, step) => With(s, c, Work(s.links[c], step))
  }

  // ─── what every step keeps ───

  ghost predicate SyncedInv(s: Server, c: nat, l: Link) {
    && l.peer == Some(s.current)
    && match s.phase
       case Begun(noted, _) => c in noted && l.asking.Idle?
       case Voting(id, version, members, _, _) =>
         c in members && !l.asking.Idle? && l.asking.id == id && l.asking.version == version
       case _ => l.asking.Idle?
  }

  /** An open link is of a child in step, of one being reconciled, of one that waits for a reload's end, or new. */
  ghost predicate Known(s: Server, c: nat, l: Link) {
    l.open ==>
      if c in s.synced then c !in s.reconciling && c !in s.deferred && SyncedInv(s, c, l)
      else if c in s.reconciling then
        && c !in s.deferred && l.peer.Some? && l.peer.value <= s.current
        && (!l.asking.Idle? ==> l.asking.version <= s.current)
      else if c in s.deferred then !s.phase.NoReload? && l.peer.Some? && l.peer.value <= s.current && l.asking.Idle?
      else l.peer.None?
  }

  ghost predicate PhaseInv(s: Server) {
    && (s.phase.Begun? ==> s.phase.version > s.current && forall c | c in s.phase.noted :: c in s.synced)
    && (s.phase.Voting? ==> s.phase.version > s.current && forall c | c in s.phase.members :: c in s.synced)
  }

  ghost predicate Inv(s: Server) {
    PhaseInv(s) && forall c | c in s.links :: LinkInv(s.links[c], s.ids) && Known(s, c, s.links[c])
  }

  lemma MoreIds(l: Link, ids: nat, ids': nat)
    requires LinkInv(l, ids) && ids <= ids'
    ensures LinkInv(l, ids')
  {
  }

  /** A step on one link. */
  lemma OneLink(s: Server, c: nat, l: Link)
    requires Inv(s) && c in s.links && LinkInv(l, s.ids) && Known(s, c, l)
    ensures Inv(With(s, c, l))
  {
  }

  lemma ConnectKeeps(s: Server, c: nat, child: State, first: nat)
    requires Inv(s) && Enabled(s, Connect(c, child, first))
    ensures Inv(Next(s, Connect(c, child, first)))
  {
  }

  lemma ListenKeeps(s: Server, c: nat)
    requires Inv(s) && Enabled(s, Listen(c))
    ensures Inv(Next(s, Listen(c)))
  {
    var l := s.links[c];
    if l.up[0].Hello? {
      assert l.up[0] in l.up;
      HelloKeeps(l, s.ids);
      assert l.up[1..] == [];
      HelloHeard(s, c, l.child.version);
    } else {
      HearKeeps(l, s.ids);
      OneLink(s, c, Hear(l));
    }
  }

  /** A step on one link, after which that child may be known differently. */
  lemma OneChild(s: Server, c: nat, l: Link, t: Server)
    requires Inv(s) && c in s.links && LinkInv(l, s.ids) && Known(t, c, l)
    requires t == s.(links := s.links[c := l], synced := t.synced, deferred := t.deferred, reconciling := t.reconciling)
    requires s.synced <= t.synced <= s.synced + {c} && s.deferred <= t.deferred <= s.deferred + {c}
    requires s.reconciling <= t.reconciling <= s.reconciling + {c}
    ensures Inv(t)
  {
    forall x | x in t.links && x != c
      ensures LinkInv(t.links[x], t.ids) && Known(t, x, t.links[x])
    {
      assert Known(s, x, s.links[x]);
    }
  }

  lemma HelloHeard(s: Server, c: nat, version: nat)
    requires Inv(s) && Open(s, c) && s.links[c].up == [Hello(version)] && s.links[c].peer.None?
    requires LinkInv(s.links[c].(peer := Some(version), up := []), s.ids)
    ensures Inv(PeerHello(s, c, version))
  {
    var l := s.links[c];
    assert l.up[1..] == [] && Known(s, c, l);
    if version > s.current {
      OneLink(s, c, l.(up := [], open := false));
    } else {
      OneChild(s, c, l.(peer := Some(version), up := []), PeerHello(s, c, version));
    }
  }

  /** The reload moves on without a frame. */
  lemma PhaseKeeps(s: Server, step: Step)
    requires Inv(s) && Enabled(s, step) && (step.Begin? || step.BeginFailed? || step.LocalPrepared?)
    ensures Inv(Next(s, step))
  {
  }

  lemma AskAllKeeps(s: Server)
    requires Inv(s) && Enabled(s, AskAll)
    ensures Inv(Next(s, AskAll))
  {
    var s' := Next(s, AskAll);
    forall c | c in s'.links
      ensures LinkInv(s'.links[c], s'.ids) && Known(s', c, s'.links[c])
    {
      if c in s'.phase.members {
        AskKeeps(s.links[c], s.ids, s.ids, s.phase.version);
      } else {
        MoreIds(s.links[c], s.ids, s'.ids);
      }
    }
  }

  lemma DecideAllKeeps(s: Server, commit: bool)
    requires Inv(s) && Enabled(s, if commit then CommitAll else AbortAll)
    ensures Inv(Next(s, if commit then CommitAll else AbortAll))
  {
    var s' := Next(s, if commit then CommitAll else AbortAll);
    forall c | c in s'.links
      ensures LinkInv(s'.links[c], s'.ids) && Known(s', c, s'.links[c])
    {
      if c in s.phase.members && s.links[c].open && !s.links[c].asking.Idle? {
        assert commit ==> VotedYes(s, c);
        DecideKeeps(s.links[c], s.ids, commit);
      }
    }
  }

  lemma EndKeeps(s: Server)
    requires Inv(s) && Enabled(s, End)
    ensures Inv(Next(s, End))
  {
    var s' := Next(s, End);
    forall c | c in s'.links
      ensures LinkInv(s'.links[c], s'.ids) && Known(s', c, s'.links[c])
    {
    }
  }

  lemma ReconcileKeeps(s: Server, c: nat)
    requires Inv(s) && Enabled(s, Reconcile(c))
    ensures Inv(Next(s, Reconcile(c)))
  {
    if s.links[c].peer != Some(s.current) {
      var s' := Next(s, Reconcile(c));
      AskKeeps(s.links[c], s.ids, s.ids, s.current);
      forall x | x in s'.links
        ensures LinkInv(s'.links[x], s'.ids) && Known(s', x, s'.links[x])
      {
        if x != c {
          MoreIds(s.links[x], s.ids, s'.ids);
        }
      }
    }
  }

  lemma SettleKeeps(s: Server, c: nat)
    requires Inv(s) && Enabled(s, Settle(c))
    ensures Inv(Next(s, Settle(c)))
  {
    var l := s.links[c];
    DecideKeeps(l, s.ids, l.asking.version == s.current);
    OneLink(s, c, Decide(l, l.asking.version == s.current));
  }

  lemma RouteKeeps(s: Server, c: nat, version: nat)
    requires Inv(s) && Enabled(s, Route(c, version))
    ensures Inv(Next(s, Route(c, version)))
  {
    UseKeeps(s.links[c], s.ids, version);
    OneLink(s, c, Use_(s.links[c], version));
  }

  /** A link closes, or a vote is missing. */
  lemma FailureKeeps(s: Server, step: Step)
    requires Inv(s) && Enabled(s, step) && (step.Deadline? || step.GiveUp? || step.Close?)
    ensures Inv(Next(s, step))
  {
    ClosedKeeps(s.links[step.c], s.ids);
    OneLink(s, step.c, Next(s, step).links[step.c]);
  }

  lemma ClosedKeeps(l: Link, ids: nat)
    requires LinkInv(l, ids)
    ensures LinkInv(l.(open := false), ids)
    ensures l.asking.Asked? ==> LinkInv(l.(asking := Refused(l.asking.id, l.asking.version)), ids)
  {
  }

  lemma ChildKeeps(s: Server, step: Step)
    requires Inv(s) && Enabled(s, step) && (step.ChildTakes? || step.ChildWorks?)
    ensures Inv(Next(s, step))
  {
    var c := step.c;
    if step.ChildTakes? {
      TakeKeeps(s.links[c], s.ids);
    } else {
      WorkKeeps(s.links[c], s.ids, step.step);
    }
    OneLink(s, c, Next(s, step).links[c]);
  }

  lemma StepKeeps(s: Server, step: Step)
    requires Inv(s) && Enabled(s, step)
    ensures Inv(Next(s, step))
  {
    match step
    case Connect(c, child, first) => ConnectKeeps(s, c, child, first);
    case Listen(c) => ListenKeeps(s, c);
    case AskAll => AskAllKeeps(s);
    case CommitAll => DecideAllKeeps(s, true);
    case AbortAll => DecideAllKeeps(s, false);
    case End => EndKeeps(s);
    case Reconcile(c) => ReconcileKeeps(s, c);
    case Lost(_) =>
    case ChildTakes(_) => ChildKeeps(s, step);
    case ChildWorks(_, _) => ChildKeeps(s, step);
    case Begin(_) => PhaseKeeps(s, step);
    case BeginFailed => PhaseKeeps(s, step);
    case LocalPrepared(_) => PhaseKeeps(s, step);
    case Settle(c) => SettleKeeps(s, c);
    case Route(c, version) => RouteKeeps(s, c, version);
    case _ => FailureKeeps(s, step);
  }

  // ─── over whole runs ───

  ghost predicate CanRun(s: Server, steps: seq<Step>)
    decreases |steps|
  {
    steps == [] || (Enabled(s, steps[0]) && CanRun(Next(s, steps[0]), steps[1..]))
  }

  ghost function After(s: Server, steps: seq<Step>): Server
    requires CanRun(s, steps)
    decreases |steps|
  {
    if steps == [] then s else After(Next(s, steps[0]), steps[1..])
  }

  /** A child in step was sent the commit of the server's code version before any other frame of that version. */
  ghost predicate InStepWithServer(s: Server, c: nat)
    requires c in s.links
  {
    var l := s.links[c];
    && Leads(l.child.version, Target(l.child), l.down) == s.current
    && InStep(l.child.version, Target(l.child), l.down)
    && (l.down != [] && l.down[0].Use? ==> l.down[0].version <= l.child.version)
  }

  /**
   * In every run, with late hellos, deadlines, aborts, lost links and reconciliations: an open child in step ends up at
   * the server's code version with the frames sent so far, and takes no frame of a code version before it installed it.
   */
  lemma {:induction false} SyncedChildrenFollow(s: Server, steps: seq<Step>)
    requires Inv(s) && CanRun(s, steps)
    ensures var s' := After(s, steps);
            Inv(s') && forall c | c in s'.links && s'.links[c].open && c in s'.synced :: InStepWithServer(s', c)
    decreases |steps|
  {
    if steps == [] {
      forall c | c in s.links && s.links[c].open && c in s.synced
        ensures InStepWithServer(s, c)
      {
        var l := s.links[c];
        assert LinkInv(l, s.ids) && Known(s, c, l);
        if l.down != [] {
          Cluster.Taken(l.child.version, Target(l.child), l.down);
        }
      }
    } else {
      StepKeeps(s, steps[0]);
      SyncedChildrenFollow(Next(s, steps[0]), steps[1..]);
    }
  }

  lemma InitialInv(current: nat)
    ensures Inv(Server(current, NoReload, 0, map[], {}, {}, {}))
  {
  }

  /** Whatever happens to a link, a yes stays a yes until the reload is decided. */
  lemma VoteStands(s: Server, step: Step, c: nat)
    requires Inv(s) && Enabled(s, step) && s.phase.Voting? && c in s.phase.members && VotedYes(s, c)
    ensures Next(s, step).phase.Voting? ==> VotedYes(Next(s, step), c)
    ensures !Next(s, step).phase.Voting? ==> step.CommitAll? || step.AbortAll?
  {
  }

  /** When the server commits, every participant still connected voted yes, is ready, and has no decision under way. */
  lemma CommitFindsAllReady(s: Server, c: nat)
    requires Inv(s) && Enabled(s, CommitAll) && Open(s, c) && c in s.synced
    ensures Ready(s.links[c], s.phase.id, s.phase.version)
  {
    assert Known(s, c, s.links[c]) && LinkInv(s.links[c], s.ids);
    assert VotedYes(s, c);
  }
}
