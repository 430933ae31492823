/**
 * Roots on one host: which of their calls run here, in which code version, over which links they came, and when their
 * leases on objects end. Calls, links and the installation and retirement of code versions interleave freely.
 */
module Roots {
  import opened Lists

  datatype Table = Table(
    running: map<nat, map<nat, nat>>,       // by retained code version: the running calls of each root
    started: set<nat>,                      // roots that started here
    foreign: map<nat, set<nat>>,            // for each root that was started elsewhere, where it came from
    leased: set<nat>,                       // roots with leases on objects
    goneOut: map<nat, set<nat>>,            // the links calls of a root went out on
    current: nat,
    previous: Option<nat>)                  // the code version before, until it retires

  predicate RunsIn(t: Table, r: nat, v: nat) {
    v in t.running && r in t.running[v]
  }

  ghost predicate Runs(t: Table, r: nat) {
    exists v :: RunsIn(t, r, v)
  }

  /** A call of the root runs here, or a link that brought it may bring more. */
  ghost predicate Alive(t: Table, r: nat) {
    Runs(t, r) || r in t.foreign
  }

  ghost predicate Counted(t: Table) {
    forall v, r | RunsIn(t, r, v) :: t.running[v][r] > 0
  }

  /** No lease outlives its root. */
  ghost predicate Leased(t: Table) {
    && (forall r | r in t.foreign :: t.foreign[r] != {} && r !in t.started)
    && (forall r | r in t.leased :: Alive(t, r))
    && (forall r | r in t.started :: Runs(t, r))
  }

  /** The current code version and the one before are retained. */
  ghost predicate Retained(t: Table) {
    && t.running.Keys == {t.current} + (if t.previous.Some? then {t.previous.value} else {})
    && (t.previous.Some? ==> t.previous.value < t.current)
  }

  ghost predicate Valid(t: Table) {
    Counted(t) && Leased(t) && Retained(t)
  }

  /** Code of a call of the root touches an object. */
  function Touch(t: Table, r: nat): Table {
    t.(leased := t.leased + {r})
  }

  function SendOut(t: Table, r: nat, link: nat): Table {
    t.(goneOut := t.goneOut[r := (if r in t.goneOut then t.goneOut[r] else {}) + {link}])
  }

  function Calls(calls: map<nat, nat>, r: nat, n: nat): map<nat, nat> {
    calls[r := n]
  }

  /**
   * A call of the root begins in a code version, if that is retained; `from` is the link it came over. A root of a code
   * version that is not retained does not count as started here.
   */
  function Join(t: Table, r: nat, v: nat, from: Option<nat>): Table {
    if v !in t.running then t.(started := t.started - {r})
    else
      var count := if r in t.running[v] then t.running[v][r] else 0;
      var links := (if r in t.foreign then t.foreign[r] else {}) + (if from.Some? then {from.value} else {});
      var foreign := if from.Some? && r !in t.started then t.foreign[r := links] else t.foreign;
      t.(foreign := foreign, running := t.running[v := Calls(t.running[v], r, count + 1)])
  }

  /** A new root starts here. */
  function Start(t: Table, r: nat, v: nat): Table {
    Join(t.(started := t.started + {r}), r, v, None)
  }

  /** Takes the root's leases away, and tells every link its calls were sent on. */
  function End(t: Table, r: nat): Table {
    t.(started := t.started - {r}, foreign := t.foreign - {r}, leased := t.leased - {r}, goneOut := t.goneOut - {r})
  }

  /** Whether the settling call is the last one of the root in its code version, and no link keeps the root. */
  predicate EndsOnSettle(t: Table, r: nat, v: nat)
    requires RunsIn(t, r, v)
  {
    t.running[v][r] <= 1 && r !in t.foreign
  }

  /** A call of the root settles. */
  function Settle(t: Table, r: nat, v: nat): Table
    requires RunsIn(t, r, v)
  {
    if t.running[v][r] > 1 then t.(running := t.running[v := Calls(t.running[v], r, t.running[v][r] - 1)])
    else
      var t' := t.(running := t.running[v := t.running[v] - {r}]);
      if r in t.foreign then t' else End(t', r)
  }

  /** `link` no longer vouches for the root; a link that never did changes nothing. */
  ghost function LinkEnded(t: Table, r: nat, link: nat): Table {
    if r !in t.foreign || link !in t.foreign[r] then t
    else if t.foreign[r] - {link} != {} then t.(foreign := t.foreign[r := t.foreign[r] - {link}])
    else if Runs(t, r) then t.(foreign := t.foreign - {r})
    else End(t, r)
  }

  /** A reload commits: its code version is current, and the one before it is retained. */
  function Install(t: Table, v: nat): Table {
    t.(running := t.running[v := map[]], current := v, previous := Some(t.current))
  }

  predicate Retirable(t: Table) {
    t.previous.Some? && (t.previous.value in t.running ==> t.running[t.previous.value] == map[])
  }

  /** One code version remains. */
  function Retire(t: Table): Table
    requires t.previous.Some?
  {
    t.(running := t.running - {t.previous.value}, previous := None)
  }

  // ─── when leases end ───

  /** Every root that ran runs, if each of its calls does. */
  lemma RunsOn(t: Table, t': Table)
    requires forall x, w | RunsIn(t, x, w) :: RunsIn(t', x, w)
    ensures forall x | Runs(t, x) :: Runs(t', x)
  {
    forall x | Runs(t, x)
      ensures Runs(t', x)
    {
      var w :| RunsIn(t, x, w);
      assert RunsIn(t', x, w);
    }
  }

  /** Where calls run once one more of `r` began. */
  lemma JoinRuns(t: Table, r: nat, v: nat, from: Option<nat>)
    requires v in t.running
    ensures var t' := Join(t, r, v, from);
            && t'.running.Keys == t.running.Keys
            && forall x, w :: RunsIn(t', x, w) <==> RunsIn(t, x, w) || (x == r && w == v)
  {
  }

  lemma JoinCounts(t: Table, r: nat, v: nat, from: Option<nat>)
    requires Counted(t) && Retained(t)
    ensures var t' := Join(t, r, v, from);
            && Counted(t') && Retained(t') && (v in t.running ==> RunsIn(t', r, v))
            && forall x | Runs(t, x) :: Runs(t', x)
  {
    var t' := Join(t, r, v, from);
    if v in t.running {
      JoinRuns(t, r, v, from);
      forall w, x | RunsIn(t', x, w)
        ensures t'.running[w][x] > 0
      {
        assert (x == r && w == v) || RunsIn(t, x, w);
      }
    } else {
      assert forall x, w :: RunsIn(t', x, w) <==> RunsIn(t, x, w);
    }
    RunsOn(t, t');
  }

  /** A call begins: whatever was alive stays alive. */
  lemma JoinKeeps(t: Table, r: nat, v: nat, from: Option<nat>)
    requires Valid(t)
    ensures Valid(Join(t, r, v, from)) && forall x | Alive(t, x) :: Alive(Join(t, r, v, from), x)
  {
    JoinCounts(t, r, v, from);
  }

  lemma StartKeeps(t: Table, r: nat, v: nat)
    requires Valid(t) && !Alive(t, r)
    ensures Valid(Start(t, r, v)) && forall x | Alive(t, x) :: Alive(Start(t, r, v), x)
  {
    var s := t.(started := t.started + {r});
    assert forall x, w :: RunsIn(s, x, w) <==> RunsIn(t, x, w);
    RunsOn(t, s);
    JoinCounts(s, r, v, None);
    var t' := Start(t, r, v);
    assert v in t.running ==> RunsIn(t', r, v) && Runs(t', r);
  }

  lemma InstallKeeps(t: Table, v: nat)
    requires Valid(t) && v > t.current && t.previous.None?
    ensures Valid(Install(t, v)) && forall x | Alive(t, x) :: Alive(Install(t, v), x)
  {
    assert v !in t.running;
    RunsOn(t, Install(t, v));
  }

  lemma RetireKeeps(t: Table)
    requires Valid(t) && Retirable(t)
    ensures Valid(Retire(t)) && forall x | Alive(t, x) :: Alive(Retire(t), x)
  {
    RunsOn(t, Retire(t));
  }

  lemma TouchKeeps(t: Table, r: nat)
    requires Valid(t) && Runs(t, r)
    ensures Valid(Touch(t, r))
  {
    var t' := Touch(t, r);
    assert forall v, x :: RunsIn(t', x, v) <==> RunsIn(t, x, v);
    assert forall x :: Runs(t', x) <==> Runs(t, x);
    assert forall x | x in t.leased :: Alive(t, x);
  }

  /** Other roots run where they ran. */
  lemma SettleOthers(t: Table, r: nat, v: nat)
    requires RunsIn(t, r, v)
    ensures var t' := Settle(t, r, v);
            && (forall x, w | x != r :: RunsIn(t, x, w) <==> RunsIn(t', x, w))
            && (forall x | x != r :: Runs(t, x) <==> Runs(t', x))
  {
    var t' := Settle(t, r, v);
    forall x | x != r
      ensures Runs(t, x) <==> Runs(t', x)
    {
      if Runs(t, x) {
        var w :| RunsIn(t, x, w);
        assert RunsIn(t', x, w);
      }
      if Runs(t', x) {
        var w :| RunsIn(t', x, w);
        assert RunsIn(t, x, w);
      }
    }
  }

  lemma SettleCounts(t: Table, r: nat, v: nat)
    requires Counted(t) && Retained(t) && RunsIn(t, r, v)
    ensures Counted(Settle(t, r, v)) && Retained(Settle(t, r, v))
    ensures RunsIn(Settle(t, r, v), r, v) <==> t.running[v][r] > 1
  {
    var t' := Settle(t, r, v);
    assert t'.running.Keys == t.running.Keys;
  }

  lemma SettleKeeps(t: Table, r: nat, v: nat)
    requires Valid(t) && RunsIn(t, r, v)
    ensures Valid(Settle(t, r, v))
    ensures forall x | x != r :: Alive(Settle(t, r, v), x) <==> Alive(t, x)
  {
    SettleCounts(t, r, v);
    SettleOthers(t, r, v);
  }

  lemma LinkEndedRuns(t: Table, r: nat, link: nat)
    ensures LinkEnded(t, r, link).running == t.running
    ensures forall x :: Runs(LinkEnded(t, r, link), x) <==> Runs(t, x)
  {
    var t' := LinkEnded(t, r, link);
    assert forall x, w :: RunsIn(t, x, w) <==> RunsIn(t', x, w);
    RunsOn(t, t');
    RunsOn(t', t);
  }

  lemma LinkEndedKeeps(t: Table, r: nat, link: nat)
    requires Valid(t)
    ensures Valid(LinkEnded(t, r, link))
    ensures forall x | x != r :: Alive(LinkEnded(t, r, link), x) <==> Alive(t, x)
  {
    LinkEndedRuns(t, r, link);
    assert forall x, w :: RunsIn(t, x, w) <==> RunsIn(LinkEnded(t, r, link), x, w);
  }

  /**
   * Exactly when a settling call ends its root's leases as it should, that is if and only if the root is not alive any
   * more: if and only if it is not the last one of its code version while others of the root run in another one.
   */
  lemma SettleEndsExactlyIff(t: Table, r: nat, v: nat)
    requires Valid(t) && RunsIn(t, r, v)
    ensures (EndsOnSettle(t, r, v) <==> !Alive(Settle(t, r, v), r)) <==>
            !(EndsOnSettle(t, r, v) && exists w :: w != v && RunsIn(t, r, w))
  {
    var t' := Settle(t, r, v);
    assert forall w | w != v :: RunsIn(t', r, w) <==> RunsIn(t, r, w);
    assert RunsIn(t', r, v) <==> t.running[v][r] > 1;
    if EndsOnSettle(t, r, v) {
      if w :| w != v && RunsIn(t, r, w) {
        assert RunsIn(t', r, w);
      }
    } else if r !in t.foreign {
      assert RunsIn(t', r, v);
    }
  }

  /** A link's end ends the root's leases exactly when the root is not alive any more. */
  lemma LinkEndsExactly(t: Table, r: nat, link: nat)
    requires Valid(t) && Alive(t, r) && r in t.leased
    ensures r !in LinkEnded(t, r, link).leased <==> !Alive(LinkEnded(t, r, link), r)
    ensures link in (if r in t.foreign then t.foreign[r] else {}) || LinkEnded(t, r, link) == t
  {
    var t' := LinkEnded(t, r, link);
    assert Runs(t, r) ==> t'.running == t.running;
    assert forall v :: RunsIn(t', r, v) <==> RunsIn(t, r, v);
    assert Runs(t', r) <==> Runs(t, r);
  }

  // ─── over whole runs ───

  datatype Step =
    | StartRoot(r: nat, v: nat)
    | JoinRoot(r: nat, v: nat, from: Option<nat>)
    | TouchObject(r: nat)
    | CallOut(r: nat, link: nat)
    | SettleCall(r: nat, v: nat)
    | LinkEnds(r: nat, link: nat)           // a link announced the root's end, or closed
    | InstallVersion(v: nat)
    | RetirePrevious

  ghost predicate Enabled(t: Table, step: Step) {
    match step
    case StartRoot(r, _) => !Alive(t, r)
    case TouchObject(r) => Runs(t, r)
    case SettleCall(r, v) => RunsIn(t, r, v)
    case InstallVersion(v) => v > t.current && t.previous.None?
    case RetirePrevious => Retirable(t)
    case _ => true
  }

  ghost function Next(t: Table, step: Step): Table
    requires Enabled(t, step)
  {
    match step
    case StartRoot(r, v) => Start(t, r, v)
    case JoinRoot(r, v, from) => Join(t, r, v, from)
    case TouchObject(r) => Touch(t, r)
    case CallOut(r, link) => SendOut(t, r, link)
    case SettleCall(r, v) => Settle(t, r, v)
    case LinkEnds(r, link) => LinkEnded(t, r, link)
    case InstallVersion(v) => Install(t, v)
    case RetirePrevious => Retire(t)
  }

  /** A host with nothing running, in its first code version. */
  function Empty(v: nat): Table {
    Table(map[v := map[]], {}, map[], {}, map[], v, None)
  }

  lemma CallOutKeeps(t: Table, r: nat, link: nat)
    requires Valid(t)
    ensures Valid(SendOut(t, r, link)) && forall x | Alive(t, x) :: Alive(SendOut(t, r, link), x)
  {
    RunsOn(t, SendOut(t, r, link));
  }

  lemma StepKeeps(t: Table, step: Step)
    requires Valid(t) && Enabled(t, step)
    ensures Valid(Next(t, step))
  {
    match step
    case StartRoot(r, v) => StartKeeps(t, r, v);
    case JoinRoot(r, v, from) => JoinKeeps(t, r, v, from);
    case TouchObject(r) => TouchKeeps(t, r);
    case CallOut(r, link) => CallOutKeeps(t, r, link);
    case SettleCall(r, v) => SettleKeeps(t, r, v);
    case LinkEnds(r, link) => LinkEndedKeeps(t, r, link);
    case InstallVersion(v) => InstallKeeps(t, v);
    case RetirePrevious => RetireKeeps(t);
  }

  ghost predicate CanRun(t: Table, steps: seq<Step>)
    decreases |steps|
  {
    steps == [] || (Enabled(t, steps[0]) && CanRun(Next(t, steps[0]), steps[1..]))
  }

  ghost function After(t: Table, steps: seq<Step>): Table
    requires CanRun(t, steps)
    decreases |steps|
  {
    if steps == [] then t else After(Next(t, steps[0]), steps[1..])
  }

  /** In this step leases end for exactly the roots that are not alive any more. */
  ghost predicate Exact(t: Table, t': Table) {
    forall r | r in t.leased :: r !in t'.leased <==> !Alive(t', r)
  }

  ghost predicate ExactRun(t: Table, steps: seq<Step>)
    requires CanRun(t, steps)
    decreases |steps|
  {
    steps == [] || (Exact(t, Next(t, steps[0])) && ExactRun(Next(t, steps[0]), steps[1..]))
  }

  /**
   * The last call of a root in one code version settles while another one of it runs in another, and no link keeps it.
   */
  ghost predicate Splits(t: Table, step: Step) {
    step.SettleCall? && RunsIn(t, step.r, step.v) && step.r in t.leased && EndsOnSettle(t, step.r, step.v)
    && exists w :: w != step.v && RunsIn(t, step.r, w)
  }

  ghost predicate NeverSplits(t: Table, steps: seq<Step>)
    requires CanRun(t, steps)
    decreases |steps|
  {
    steps == [] || (!Splits(t, steps[0]) && NeverSplits(Next(t, steps[0]), steps[1..]))
  }

  lemma OtherStepExact(t: Table, step: Step)
    requires Valid(t) && Enabled(t, step) && !step.SettleCall? && !step.LinkEnds?
    ensures Exact(t, Next(t, step))
  {
    StepKeeps(t, step);
    assert t.leased <= Next(t, step).leased;
  }

  lemma LinkStepExact(t: Table, r: nat, link: nat)
    requires Valid(t)
    ensures Exact(t, LinkEnded(t, r, link))
  {
    LinkEndedKeeps(t, r, link);
    if r in t.leased {
      LinkEndsExactly(t, r, link);
    }
  }

  lemma SettleExactIff(t: Table, r: nat, v: nat)
    requires Valid(t) && RunsIn(t, r, v)
    ensures Exact(t, Settle(t, r, v)) <==> !Splits(t, SettleCall(r, v))
  {
    SettleKeeps(t, r, v);
    SettleEndsExactlyIff(t, r, v);
  }

  /**
   * Exactly the runs in which leases end as they should, when the root's last call settled and every link it came over
   * announced its end or closed: those in which no root's calls in two code versions settle apart.
   */
  lemma {:induction false} LeasesEndExactlyIff(t: Table, steps: seq<Step>)
    requires Valid(t) && CanRun(t, steps)
    ensures Valid(After(t, steps)) && (ExactRun(t, steps) <==> NeverSplits(t, steps))
    decreases |steps|
  {
    if steps != [] {
      var step := steps[0];
      StepKeeps(t, step);
      LeasesEndExactlyIff(Next(t, step), steps[1..]);
      if step.SettleCall? {
        SettleExactIff(t, step.r, step.v);
      } else if step.LinkEnds? {
        LinkStepExact(t, step.r, step.link);
      } else {
        OtherStepExact(t, step);
      }
    }
  }

  /** A run begins with a step and goes on from the state it leads to. */
  lemma Taken(t: Table, step: Step, t': Table, rest: seq<Step>)
    requires Enabled(t, step) && Next(t, step) == t' && CanRun(t', rest)
    ensures CanRun(t, [step] + rest) && After(t, [step] + rest) == After(t', rest)
  {
    assert ([step] + rest)[1..] == rest;
  }

  const ONE: map<nat, nat> := map[0 := 1]
  const NONE: map<nat, nat> := map[]
  const COMES: seq<Step> := [JoinRoot(0, 1, Some(7)), InstallVersion(2), LinkEnds(0, 7)]
  const COMES_BACK: seq<Step> := [JoinRoot(0, 2, Some(8)), TouchObject(0), LinkEnds(0, 8), SettleCall(0, 1)]

  /** A root's call of code version 1 goes on while its link ends and version 2 is installed. */
  lemma RootComes(t: Table, rest: seq<Step>)
    requires t == Empty(1).(running := map[1 := ONE, 2 := NONE], current := 2, previous := Some(1)) && CanRun(t, rest)
    ensures CanRun(Empty(1), COMES + rest) && After(Empty(1), COMES + rest) == After(t, rest)
  {
    var t1 := Empty(1).(running := map[1 := ONE], foreign := map[0 := {7}]);
    var t2 := t.(foreign := map[0 := {7}]);
    assert Calls(NONE, 0, 1) == ONE && Empty(1).running[1 := ONE] == map[1 := ONE];
    assert {} + {7} == {7} && {7} - {7} == {};
    assert RunsIn(t2, 0, 1);
    assert Next(Empty(1), JoinRoot(0, 1, Some(7))) == t1;
    assert Next(t1, InstallVersion(2)) == t2;
    assert LinkEnded(t2, 0, 7) == t;
    Taken(t2, LinkEnds(0, 7), t, rest);
    Taken(t1, InstallVersion(2), t2, [LinkEnds(0, 7)] + rest);
    Taken(Empty(1), JoinRoot(0, 1, Some(7)), t1, [InstallVersion(2)] + ([LinkEnds(0, 7)] + rest));
    assert COMES + rest == [JoinRoot(0, 1, Some(7))] + ([InstallVersion(2)] + ([LinkEnds(0, 7)] + rest));
  }

  /** It comes back over another link, in version 2; that link ends, and the older call settles. */
  lemma RootComesBack(t: Table)
    requires t == Empty(1).(running := map[1 := ONE, 2 := NONE], current := 2, previous := Some(1))
    ensures CanRun(t, COMES_BACK)
    ensures After(t, COMES_BACK).running == map[1 := NONE, 2 := ONE] && After(t, COMES_BACK).leased == {}
  {
    var t4 := t.(running := map[1 := ONE, 2 := ONE], foreign := map[0 := {8}]);
    var t5 := t4.(leased := {0});
    var t6 := t5.(foreign := map[]);
    var t7 := t6.(running := map[1 := NONE, 2 := ONE], leased := {});
    assert RunsIn(t5, 0, 1) && RunsIn(t4, 0, 2) && {} + {8} == {8} && {8} - {8} == {};
    assert Calls(NONE, 0, 1) == ONE && t.running[2 := ONE] == t4.running;
    assert Next(t, JoinRoot(0, 2, Some(8))) == t4;
    assert LinkEnded(t5, 0, 8) == t6;
    assert Settle(t6, 0, 1) == t7;
    Taken(t6, SettleCall(0, 1), t7, []);
    Taken(t5, LinkEnds(0, 8), t6, [SettleCall(0, 1)] + []);
    Taken(t4, TouchObject(0), t5, [LinkEnds(0, 8)] + ([SettleCall(0, 1)] + []));
    Taken(t, JoinRoot(0, 2, Some(8)), t4, [TouchObject(0)] + ([LinkEnds(0, 8)] + ([SettleCall(0, 1)] + [])));
    assert COMES_BACK ==
           [JoinRoot(0, 2, Some(8))] + ([TouchObject(0)] + ([LinkEnds(0, 8)] + ([SettleCall(0, 1)] + [])));
  }

  /**
   * A root whose host lost its link and came back over another one, after a reload here: it runs in two code versions.
   * When the new link ends too and the older call settles, its leases end while the newer call runs.
   */
  lemma EndsWhileRunning()
    ensures CanRun(Empty(1), COMES + COMES_BACK)
    ensures RunsIn(After(Empty(1), COMES + COMES_BACK), 0, 2) && 0 !in After(Empty(1), COMES + COMES_BACK).leased
  {
    var t := Empty(1).(running := map[1 := ONE, 2 := NONE], current := 2, previous := Some(1));
    RootComesBack(t);
    RootComes(t, COMES_BACK);
  }

  // ─── as it is updated in place ───

  class Host {
    var running: map<nat, map<nat, nat>>
    var started: set<nat>
    var foreign: map<nat, set<nat>>
    var leased: set<nat>
    var goneOut: map<nat, set<nat>>
    var current: nat
    var previous: Option<nat>
    /** The links told that a root ended. */
    var told: seq<(nat, nat)>

    ghost function Now(): Table
      reads this
    {
      Table(running, started, foreign, leased, goneOut, current, previous)
    }

    constructor (version: nat)
      ensures Valid(Now()) && Now() == Empty(version)
    {
      running, started, foreign, leased, goneOut, told := map[version := map[]], {}, map[], {}, map[], [];
      current, previous := version, None;
    }

    method EndRoot(r: nat)
      modifies this
      ensures Now() == End(old(Now()), r)
      ensures forall link :: (r, link) in told <==>
                (r, link) in old(told) || (r in old(goneOut) && link in old(goneOut)[r])
      ensures forall x, link | x != r :: (x, link) in told <==> (x, link) in old(told)
    {
      started, foreign, leased := started - {r}, foreign - {r}, leased - {r};
      if r in goneOut {
        var left := goneOut[r];
        while left != {}
          invariant left <= old(goneOut)[r] && running == old(running) && goneOut == old(goneOut)
          invariant current == old(current) && previous == old(previous)
          invariant started == old(started) - {r} && foreign == old(foreign) - {r} && leased == old(leased) - {r}
          invariant forall link :: (r, link) in told <==>
                      (r, link) in old(told) || (link in old(goneOut)[r] && link !in left)
          invariant forall x, link | x != r :: (x, link) in told <==> (x, link) in old(told)
          decreases |left|
        {
          var link :| link in left;
          left := left - {link};
          told := told + [(r, link)];
        }
      }
      goneOut := goneOut - {r};
    }

    /** A call of a root begins; one in a code version that is not retained does not, and ends what started here. */
    method JoinRoot(r: nat, v: nat, from: Option<nat>) returns (ok: bool)
      modifies this
      ensures Now() == Join(old(Now()), r, v, from) && (ok <==> v in old(running)) && told == old(told)
    {
      ok := v in running;
      if !ok {
        started := started - {r};
        return;
      }
      if from.Some? && r !in started {
        var links := if r in foreign then foreign[r] else {};
        foreign := foreign[r := links + {from.value}];
      }
      var count := if r in running[v] then running[v][r] else 0;
      running := running[v := Calls(running[v], r, count + 1)];
    }

    method StartRoot(r: nat, v: nat) returns (ok: bool)
      requires Valid(Now()) && !Alive(Now(), r)
      modifies this
      ensures Valid(Now()) && Now() == Start(old(Now()), r, v) && (ok <==> v in old(running))
    {
      StartKeeps(Now(), r, v);
      started := started + {r};
      ok := JoinRoot(r, v, None);
    }

    /** A call that another host sent; its root is foreign from now on. */
    method Admit(r: nat, v: nat, from: nat) returns (ok: bool)
      requires Valid(Now())
      modifies this
      ensures Valid(Now()) && Now() == Join(old(Now()), r, v, Some(from)) && (ok <==> v in old(running))
    {
      JoinKeeps(Now(), r, v, Some(from));
      ok := JoinRoot(r, v, Some(from));
    }

    method InstallVersion(v: nat)
      requires Valid(Now()) && v > current && previous.None?
      modifies this
      ensures Valid(Now()) && Now() == Install(old(Now()), v)
    {
      InstallKeeps(Now(), v);
      running, previous, current := running[v := map[]], Some(current), v;
    }

    /** Drops the older code version; refused while some root's call runs in it. */
    method RetirePrevious() returns (retired: bool)
      requires Valid(Now())
      modifies this
      ensures Valid(Now()) && (retired <==> old(previous.Some? && running[previous.value] == map[]))
      ensures Now() == if retired then Retire(old(Now())) else old(Now())
    {
      retired := previous.Some? && running[previous.value].Keys == {};
      if retired {
        RetireKeeps(Now());
        running, previous := running - {previous.value}, None;
      }
    }

    method SettleCall(r: nat, v: nat)
      requires Valid(Now()) && RunsIn(Now(), r, v)
      modifies this
      ensures Valid(Now()) && Now() == Settle(old(Now()), r, v)
    {
      SettleKeeps(Now(), r, v);
      var count := running[v][r] - 1;
      if count > 0 {
        running := running[v := Calls(running[v], r, count)];
      } else {
        running := running[v := running[v] - {r}];
        if r !in foreign {
          EndRoot(r);
        }
      }
    }

    method RunsHere(r: nat) returns (b: bool)
      ensures b <==> Runs(Now(), r)
    {
      b := exists v | v in running :: r in running[v];
      if b {
        var v :| v in running && r in running[v];
        assert RunsIn(Now(), r, v);
      }
    }

    method ForeignRootEnded(r: nat, link: nat)
      requires Valid(Now())
      modifies this
      ensures Valid(Now()) && Now() == LinkEnded(old(Now()), r, link)
    {
      LinkEndedKeeps(Now(), r, link);
      if r !in foreign || link !in foreign[r] {
        return;
      }
      var links := foreign[r] - {link};
      var runs := RunsHere(r);
      if links != {} {
        foreign := foreign[r := links];
      } else if runs {
        foreign := foreign - {r};
      } else {
        EndRoot(r);
      }
    }

    method CloseOne(r: nat, link: nat, ghost was: Table, ghost seen: set<nat>, ghost gone: set<nat>)
      returns (ghost gone': set<nat>)
      requires Valid(Now()) && Closed(was, Now(), seen, gone, link) && r in was.foreign && r !in seen
      modifies this
      ensures Valid(Now()) && Closed(was, Now(), seen + {r}, gone', link)
    {
      gone' := ClosedMore(was, Now(), seen, gone, r, link);
      ForeignRootEnded(r, link);
    }

    /**
     * Every root that came over the link is treated as if the link had announced its end, and the roots that go on will
     * not announce theirs over it.
     */
    method LinkClosed(link: nat)
      requires Valid(Now())
      modifies this
      ensures Valid(Now()) && running == old(running)
      ensures forall r | r in foreign :: r in old(foreign) && foreign[r] == old(foreign)[r] - {link}
      ensures forall r | r in old(foreign) && r !in foreign :: old(foreign)[r] <= {link}
      ensures forall r | r in old(leased) :: r in leased <==> Alive(Now(), r)
      ensures forall r | r in goneOut :: r in old(goneOut) && goneOut[r] == old(goneOut)[r] - {link}
      ensures forall r | r in old(goneOut) && r !in goneOut :: r in old(foreign) && !Alive(Now(), r)
    {
      ghost var gone := EndOver(link);
      ForgetLink(Now(), link);
      goneOut := map r | r in goneOut :: goneOut[r] - {link};
    }

    method EndOver(link: nat) returns (ghost gone: set<nat>)
      requires Valid(Now())
      modifies this
      ensures Valid(Now()) && Closed(old(Now()), Now(), old(foreign).Keys, gone, link)
    {
      ghost var was := Now();
      var left := foreign.Keys;
      gone := {};
      ClosedNone(was, link);
      assert was.foreign.Keys - left == {};
      while left != {}
        invariant left <= was.foreign.Keys && Valid(Now())
        invariant Closed(was, Now(), was.foreign.Keys - left, gone, link)
        decreases |left|
      {
        var r :| r in left;
        assert was.foreign.Keys - (left - {r}) == (was.foreign.Keys - left) + {r};
        gone := CloseOne(r, link, was, was.foreign.Keys - left, gone);
        left := left - {r};
      }
      assert was.foreign.Keys - left == was.foreign.Keys;
    }
  }

  /** What the end of a link did to the roots in `seen`, and to no others; those in `gone` ended. */
  ghost predicate Closed(was: Table, t: Table, seen: set<nat>, gone: set<nat>, link: nat) {
    && t.running == was.running
    && (forall r | r !in seen ::
          (r in t.foreign <==> r in was.foreign) && (r in t.foreign ==> t.foreign[r] == was.foreign[r]))
    && (forall r | r in seen && r in t.foreign :: r in was.foreign && t.foreign[r] == was.foreign[r] - {link})
    && (forall r | r in seen && r in was.foreign && r !in t.foreign :: was.foreign[r] <= {link})
    && (forall r | r in was.leased :: r in t.leased <==> Alive(t, r))
    && t.goneOut == was.goneOut - gone && (forall r | r in gone :: r in was.foreign && !Alive(t, r))
  }

  lemma ClosedNone(t: Table, link: nat)
    requires Valid(t)
    ensures Closed(t, t, {}, {}, link)
  {
  }

  /** One more root was seen. */
  lemma ClosedMore(was: Table, t: Table, seen: set<nat>, gone: set<nat>, r: nat, link: nat) returns (gone': set<nat>)
    requires Valid(t) && Closed(was, t, seen, gone, link) && r in t.foreign && r !in seen
    ensures Closed(was, LinkEnded(t, r, link), seen + {r}, gone', link)
  {
    ClosedOne(t, r, link);
    var t' := LinkEnded(t, r, link);
    assert forall v :: RunsIn(t', r, v) <==> RunsIn(t, r, v);
    gone' := if r in t.foreign && t.foreign[r] == {link} && !Runs(t, r) then gone + {r} else gone;
    assert was.goneOut - (gone + {r}) == (was.goneOut - gone) - {r};
  }

  /** Whom a root is announced to when it ends is no part of its life. */
  lemma ForgetLink(t: Table, link: nat)
    ensures var t' := t.(goneOut := map r | r in t.goneOut :: t.goneOut[r] - {link});
            (forall r :: Alive(t', r) <==> Alive(t, r)) && (Valid(t') <==> Valid(t))
  {
    var t' := t.(goneOut := map r | r in t.goneOut :: t.goneOut[r] - {link});
    forall r, v
      ensures RunsIn(t', r, v) <==> RunsIn(t, r, v)
    {
    }
    assert forall r :: Runs(t', r) <==> Runs(t, r);
  }

  lemma ClosedOne(t: Table, r: nat, link: nat)
    requires Valid(t) && r in t.foreign
    ensures var t' := LinkEnded(t, r, link);
            && (forall x | x != r :: (x in t'.leased <==> x in t.leased) && (Alive(t', x) <==> Alive(t, x)))
            && (r in t.leased ==> (r in t'.leased <==> Alive(t', r)))
            && (forall x | x != r ::
                  (x in t'.foreign <==> x in t.foreign) && (x in t'.foreign ==> t'.foreign[x] == t.foreign[x]))
            && (r in t'.foreign ==> t'.foreign[r] == t.foreign[r] - {link})
            && (r !in t'.foreign ==> t.foreign[r] <= {link})
            && (r !in t.leased ==> r !in t'.leased) && t'.running == t.running
  {
    LinkEndedKeeps(t, r, link);
    if r in t.leased {
      LinkEndsExactly(t, r, link);
    }
  }
}
