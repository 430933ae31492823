/**
 * Progress writes as a state machine over marks, timers, write results and stops. `nextAt` is when the next write may
 * start: a pause after the last one, as long as its bytes take at a fixed rate and at least a minimum.
 *
 * The clock never goes back, and timers do not fire early. Times are in milliseconds.
 */
module Pacer {
  import opened Lists

  const BYTES_PER_SECOND := 100 * 1024

  /** A write that was begun: when, for whose sake (by when they marked the change), and whether it settled. */
  datatype Job = Job(started: real, marks: seq<real>, settled: bool)

  /** How a write ended: the bytes it wrote, if it did not fail. */
  datatype Entry = Entry(started: real, ok: bool, bytes: nat)

  /** Writes that ended, the last one outermost. */
  datatype Log = Empty | More(before: Log, last: Entry)

  datatype State = State(
    minInterval: real,
    now: real,
    dirty: bool,
    stopped: bool,
    timer: Option<real>,
    inFlight: bool,
    nextAt: real,
    waiting: seq<real>,                     // marks that wait for a write to begin
    awaited: bool,                          // who stopped the pacer waits for the write in flight
    handed: seq<real>,                      // marks handed over to who stopped it, in order
    calling: seq<Job>,                      // `write` was called and did not return yet
    jobs: seq<Job>,                         // its promise did not run `finally` yet
    log: Log,
    marked: seq<real>,                      // all marks that are waited for, in order
    served: seq<real>,                      // those settled by a write, in order
    servedBy: seq<real>)                    // and when that write began

  datatype Step =
    | Tick(to: real)
    | Mark(wait: bool)
    | TimerFires
    | WriteReturns
    | Settle(ok: bool, bytes: nat)
    | Finally
    | Stop
    | HandOver                              // who stopped the pacer gets what still waits

  /** How long after a write's start the next one may begin. */
  function Pause(minInterval: real, e: Entry): real {
    var bySize := (e.bytes * 1000) as real / BYTES_PER_SECOND as real;
    if e.ok && bySize > minInterval then bySize else minInterval
  }

  function Flush(s: State): State {
    if s.stopped || !s.dirty then s
    else s.(dirty := false, waiting := [], calling := s.calling + [Job(s.now, s.waiting, false)])
  }

  function Schedule(s: State): State {
    if s.stopped || s.timer.Some? || s.inFlight then s
    else if s.nextAt <= s.now then Flush(s)
    else s.(timer := Some(s.nextAt))
  }

  predicate Enabled(s: State, step: Step) {
    match step
    case Tick(to) => s.calling == [] && s.now <= to
    case Mark(_) => true
    case TimerFires => s.calling == [] && s.timer.Some? && s.timer.value <= s.now
    case WriteReturns => s.calling != []
    case Settle(_, _) => s.calling == [] && s.jobs != [] && !s.jobs[0].settled
    case Finally => s.calling == [] && s.jobs != [] && s.jobs[0].settled
    case Stop => true
    case HandOver => s.calling == [] && s.stopped && !s.awaited
  }

  function Next(s: State, step: Step): State
    requires Enabled(s, step)
  {
    match step
    case Tick(to) => s.(now := to)
    case Mark(wait) =>
      var marks := if wait then [s.now] else [];
      Schedule(s.(dirty := true, waiting := s.waiting + marks, marked := s.marked + marks))
    case TimerFires => Flush(s.(timer := None))
    case WriteReturns =>
      s.(calling := s.calling[..|s.calling| - 1], jobs := s.jobs + [s.calling[|s.calling| - 1]], inFlight := true)
    case Settle(ok, bytes) =>
      var job, e := s.jobs[0], Entry(s.jobs[0].started, ok, bytes);
      s.(nextAt := job.started + Pause(s.minInterval, e), jobs := [job.(settled := true)] + s.jobs[1..],
         log := More(s.log, e), served := s.served + job.marks,
         servedBy := s.servedBy + seq(|job.marks|, i => job.started))
    case Finally =>
      var s' := s.(jobs := s.jobs[1..], inFlight := false, awaited := false);
      if s.dirty then Schedule(s') else s'
    case Stop => s.(stopped := true, timer := None, awaited := s.inFlight)
    case HandOver => s.(waiting := [], handed := s.handed + s.waiting)
  }

  predicate Initial(s: State) {
    && s.minInterval >= 0.0 && !s.dirty && !s.stopped && s.timer.None? && !s.inFlight && s.nextAt == 0.0
    && s.waiting == [] && s.calling == [] && s.jobs == [] && s.log.Empty? && !s.awaited
    && s.marked == [] && s.handed == [] && s.served == [] && s.servedBy == []
  }

  /** Each write began no sooner after the one before than that one's pause. */
  predicate Spaced(minInterval: real, log: Log) {
    log.More? && log.before.More? ==>
      && Spaced(minInterval, log.before)
      && log.last.started >= log.before.last.started + Pause(minInterval, log.before.last)
  }

  function Begun(s: State): seq<Job> {
    s.calling + s.jobs
  }

  /** Marks on their way with a write that did not settle yet. */
  function Carried(s: State): seq<real> {
    if Begun(s) == [] || Begun(s)[0].settled then [] else Begun(s)[0].marks
  }

  ghost predicate Inv(s: State) {
    && s.minInterval >= 0.0 && |Begun(s)| <= 1
    && (s.inFlight <==> s.jobs != []) && (s.awaited ==> s.stopped && s.inFlight)
    // a change that is not written yet has a timer or a write in flight before it
    && (s.dirty && !s.stopped ==> s.timer.Some? || s.inFlight || s.calling != [])
    && (s.timer.Some? ==> s.timer.value == s.nextAt && Begun(s) == [] && s.dirty)
    && (s.waiting != [] ==> s.dirty)
    // pauses are kept
    && Spaced(s.minInterval, s.log)
    && (s.log.More? ==> s.nextAt == s.log.last.started + Pause(s.minInterval, s.log.last))
    && (Begun(s) != [] && !Begun(s)[0].settled ==> s.log.More? ==> Begun(s)[0].started >= s.nextAt)
    && (s.calling != [] ==> !s.calling[0].settled && s.nextAt <= s.now)
    // marks are settled in order, each by a write that began after it
    && s.marked == s.served + Carried(s) + s.handed + s.waiting && (s.handed != [] ==> s.stopped)
    && (forall t | t in s.waiting :: t <= s.now) && (forall t | t in Carried(s) :: t <= Begun(s)[0].started)
    && |s.served| == |s.servedBy| && (forall i | 0 <= i < |s.served| :: s.served[i] <= s.servedBy[i])
    && (forall j | j in Begun(s) :: j.started <= s.now)
  }

  /** A change is marked by `write` itself, before it returned, and not after it stopped the pacer. */
  predicate Reenters(s: State, step: Step) {
    step.Mark? && s.calling != [] && !s.stopped
  }

  /** A state without the change that waits. */
  function Unmarked(s: State): State {
    s.(dirty := false, waiting := [], marked := s.served + Carried(s) + s.handed)
  }

  function Marked(s: State, marks: seq<real>): State {
    s.(dirty := true, waiting := s.waiting + marks, marked := s.marked + marks)
  }

  lemma FlushKeeps(s: State)
    requires Inv(Unmarked(s)) && Begun(s) == []
    requires s.timer.None? && !s.inFlight && !s.stopped && s.dirty && s.nextAt <= s.now
    requires s.marked == s.served + s.waiting && s.handed == [] && forall t | t in s.waiting :: t <= s.now
    ensures Inv(Flush(s))
  {
  }

  lemma ScheduleKeeps(s: State)
    requires Inv(Unmarked(s)) && s.calling == [] && s.timer.None?
    requires s.dirty && s.marked == s.served + Carried(s) + s.handed + s.waiting
    requires forall t | t in s.waiting :: t <= s.now
    ensures Inv(Schedule(s))
  {
    if !s.stopped && !s.inFlight && s.nextAt <= s.now {
      FlushKeeps(s);
    }
  }

  /** A mark that begins nothing: a timer, a write in flight or a call of `write` is before it, or the pacer stopped. */
  lemma MarkWaits(s: State, marks: seq<real>)
    requires Inv(s) && (s.timer.Some? || (s.calling != [] && s.stopped)) && forall t | t in marks :: t == s.now
    ensures Inv(Marked(s, marks))
  {
  }

  /** Without the change that waits, a state without a timer is as good. */
  lemma WithoutChange(s: State)
    requires Inv(s) && s.timer.None?
    ensures Inv(Unmarked(s))
  {
    assert s.served + Carried(s) + s.handed + [] == s.served + Carried(s) + s.handed;
  }

  lemma MarkedUnmarked(s: State, marks: seq<real>)
    requires s.marked == s.served + Carried(s) + s.handed + s.waiting
    ensures Unmarked(Marked(s, marks)) == Unmarked(s)
    ensures Marked(s, marks).marked == s.served + Carried(s) + s.handed + Marked(s, marks).waiting
  {
  }

  lemma MarkSchedules(s: State, marks: seq<real>)
    requires Inv(s) && s.timer.None? && s.calling == [] && forall t | t in marks :: t == s.now
    ensures Inv(Schedule(Marked(s, marks)))
  {
    WithoutChange(s);
    MarkedUnmarked(s, marks);
    ScheduleKeeps(Marked(s, marks));
  }

  lemma MarkKeeps(s: State, wait: bool)
    requires Inv(s) && !Reenters(s, Mark(wait))
    ensures Inv(Next(s, Mark(wait)))
  {
    var marks := if wait then [s.now] else [];
    if s.timer.Some? || s.calling != [] {
      MarkWaits(s, marks);
    } else {
      MarkSchedules(s, marks);
    }
  }

  lemma SettleKeeps(s: State, ok: bool, bytes: nat)
    requires Inv(s) && Enabled(s, Settle(ok, bytes))
    ensures Inv(Next(s, Settle(ok, bytes)))
  {
    var s' := Next(s, Settle(ok, bytes));
    assert s.jobs == [s.jobs[0]] && Begun(s) == s.jobs && Begun(s') == s'.jobs;
    assert s'.served == s.served + Carried(s);
    assert s.jobs[0] in Begun(s);
    forall i | 0 <= i < |s'.served|
      ensures s'.served[i] <= s'.servedBy[i]
    {
      if i >= |s.served| {
        assert Carried(s)[i - |s.served|] in Carried(s);
        assert s'.servedBy[i] == s.jobs[0].started;
      }
    }
  }

  lemma FinallyKeeps(s: State)
    requires Inv(s) && Enabled(s, Finally)
    ensures Inv(Next(s, Finally))
  {
    var s' := s.(jobs := s.jobs[1..], inFlight := false, awaited := false);
    assert s.jobs == [s.jobs[0]] && Begun(s) == s.jobs && Begun(s') == [];
    if s.dirty {
      ScheduleKeeps(s');
    }
  }

  lemma ReturnedState(s: State)
    requires |s.calling| == 1 && s.jobs == []
    ensures Next(s, WriteReturns) == s.(calling := [], jobs := [s.calling[0]], inFlight := true)
  {
  }

  lemma ReturnedKeeps(s: State, job: Job)
    requires Inv(s) && s.calling == [job] && s.jobs == []
    ensures Inv(s.(calling := [], jobs := [job], inFlight := true))
  {
    var s' := s.(calling := [], jobs := [job], inFlight := true);
    assert Begun(s) == [job] && Begun(s') == [job];
  }

  lemma WriteReturnsKeeps(s: State)
    requires Inv(s) && Enabled(s, WriteReturns)
    ensures Inv(Next(s, WriteReturns))
  {
    ReturnedState(s);
    ReturnedKeeps(s, s.calling[0]);
  }

  lemma TimerKeeps(s: State)
    requires Inv(s) && Enabled(s, TimerFires)
    ensures Inv(Next(s, TimerFires))
  {
    if !s.stopped {
      FlushKeeps(s.(timer := None));
    }
  }

  lemma HandOverKeeps(s: State)
    requires Inv(s) && Enabled(s, HandOver)
    ensures Inv(Next(s, HandOver))
  {
    assert s.served + Carried(s) + s.handed + s.waiting == s.served + Carried(s) + (s.handed + s.waiting) + [];
  }

  /** Every step keeps the invariant, unless `write` itself marks a change before it returned or stopped the pacer. */
  lemma StepKeeps(s: State, step: Step)
    requires Inv(s) && Enabled(s, step) && !Reenters(s, step)
    ensures Inv(Next(s, step))
  {
    match step
    case Tick(_) =>
    case Mark(wait) => MarkKeeps(s, wait);
    case TimerFires => TimerKeeps(s);
    case WriteReturns => WriteReturnsKeeps(s);
    case Settle(ok, bytes) => SettleKeeps(s, ok, bytes);
    case Finally => FinallyKeeps(s);
    case Stop =>
    case HandOver => HandOverKeeps(s);
  }
}
