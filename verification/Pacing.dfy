/**
 * What every run of a `Pacer` promises: one write at a time, no change lost, and a bound on the rate of writes; when it
 * does not; and the pacer as it is updated in place.
 */
module Pacing {
  import opened Lists
  import opened Pacer

  ghost predicate CanRun(s: State, steps: seq<Step>)
    decreases |steps|
  {
    steps == [] || (Enabled(s, steps[0]) && CanRun(Next(s, steps[0]), steps[1..]))
  }

  ghost function After(s: State, steps: seq<Step>): State
    requires CanRun(s, steps)
    decreases |steps|
  {
    if steps == [] then s else After(Next(s, steps[0]), steps[1..])
  }

  ghost predicate NeverReenters(s: State, steps: seq<Step>)
    requires CanRun(s, steps)
    decreases |steps|
  {
    steps == [] || (!Reenters(s, steps[0]) && NeverReenters(Next(s, steps[0]), steps[1..]))
  }

  /**
   * In every run in which `write` does not itself mark changes (or stops the pacer first): at most one write is in
   * flight, no change is lost, marks are settled in order, each by a write that began after it, and writes keep the
   * pauses.
   */
  lemma {:induction false} OneWriteAtATime(s: State, steps: seq<Step>)
    requires Inv(s) && CanRun(s, steps) && NeverReenters(s, steps)
    ensures var t := After(s, steps);
            && Inv(t) && |t.calling| + |t.jobs| <= 1
            && (t.dirty && !t.stopped ==> t.timer.Some? || |t.calling| + |t.jobs| == 1)
            && (forall i | 0 <= i < |t.served| :: t.served[i] <= t.servedBy[i])
            && Spaced(t.minInterval, t.log)
    decreases |steps|
  {
    if steps != [] {
      StepKeeps(s, steps[0]);
      OneWriteAtATime(Next(s, steps[0]), steps[1..]);
    }
  }

  lemma InitialInv(s: State)
    requires Initial(s)
    ensures Inv(s)
  {
  }

  /** Who stopped the pacer waits for the write that is in flight, if there is one. */
  predicate Awaits(s: State) {
    s.stopped && (Begun(s) != [] ==> s.awaited)
  }

  /** Nothing is in flight, and each mark was settled or handed over. */
  predicate AllHandedOver(s: State) {
    Begun(s) == [] && s.waiting == [] && s.marked == s.served + s.handed
  }

  /**
   * After a stop, in every run: no more writes begin, and each mark is settled by its write, once and in order, or
   * handed over to who stopped the pacer, once and in order, or still waits to be. Unless a call of `write` stopped it,
   * nothing is in flight when marks are handed over, so none is left then but those handed over now or before.
   */
  lemma {:induction false} StoppedKeepsTheRest(s: State, steps: seq<Step>)
    requires Inv(s) && s.stopped && CanRun(s, steps)
    ensures var t := After(s, steps);
            && Inv(t) && t.stopped && |Begun(t)| <= |Begun(s)|
            && t.marked == t.served + Carried(t) + t.handed + t.waiting && s.handed <= t.handed && s.served <= t.served
            && (Awaits(s) ==> Awaits(t))
            && (Awaits(s) && Enabled(t, HandOver) ==> AllHandedOver(Next(t, HandOver)))
    decreases |steps|
  {
    if steps == [] {
      if Enabled(s, HandOver) {
        HandOverKeeps(s);
      }
    } else {
      StepKeeps(s, steps[0]);
      StoppedStep(s, steps[0]);
      StoppedKeepsTheRest(Next(s, steps[0]), steps[1..]);
    }
  }

  lemma StoppedStep(s: State, step: Step)
    requires Inv(s) && Enabled(s, step) && s.stopped
    ensures var t := Next(s, step);
            && t.stopped && |Begun(t)| <= |Begun(s)| && s.handed <= t.handed && s.served <= t.served
            && (Awaits(s) ==> Awaits(t))
  {
    match step
    case Mark(wait) =>
    case Settle(ok, bytes) =>
    case Finally => assert s.jobs == [s.jobs[0]] && Begun(s) == s.jobs;
    case _ =>
  }

  /** Stopped from outside a call of `write`, it is so. */
  lemma StopAwaits(s: State)
    requires Inv(s) && s.calling == []
    ensures Awaits(Next(s, Stop))
  {
  }

  // ─── a `write` that marks changes ───

  /** Somewhere in the run two writes are under way at once. */
  ghost predicate Overlaps(s: State, steps: seq<Step>)
    requires CanRun(s, steps)
    decreases |steps|
  {
    |Begun(s)| > 1 || (steps != [] && Overlaps(Next(s, steps[0]), steps[1..]))
  }

  /** A mark made inside a call of `write` begins a second write at once: the pause before the call is over. */
  lemma ReenteringOverlaps(s: State, step: Step)
    requires Inv(s) && Enabled(s, step) && Reenters(s, step)
    ensures |Begun(Next(s, step))| == 2
  {
  }

  /**
   * Exactly the runs in which `write` marks a change before it returned, the pacer not stopped, have two writes at
   * once.
   */
  lemma {:induction false} OverlapsIffReenters(s: State, steps: seq<Step>)
    requires Inv(s) && CanRun(s, steps)
    ensures Overlaps(s, steps) <==> !NeverReenters(s, steps)
    decreases |steps|
  {
    if steps != [] {
      var step, rest := steps[0], steps[1..];
      if Reenters(s, step) {
        ReenteringOverlaps(s, step);
        assert Overlaps(Next(s, step), rest);
      } else {
        StepKeeps(s, step);
        OverlapsIffReenters(Next(s, step), rest);
      }
    }
  }

  /** A pacer that did nothing yet. */
  function Fresh(minInterval: real): State {
    State(minInterval, 0.0, false, false, None, false, 0.0, [], false, [], [], [], Empty, [], [], [])
  }

  /** Two marks, the second made by the `write` that the first began: two writes of one pacer run at once. */
  lemma SecondWrite()
    ensures Initial(Fresh(50.0)) && CanRun(Fresh(50.0), [Mark(false), Mark(false)])
    ensures |After(Fresh(50.0), [Mark(false), Mark(false)]).calling| == 2
  {
    var s, steps := Fresh(50.0), [Mark(false), Mark(false)];
    assert steps[1..] == [Mark(false)] && steps[1..][1..] == [];
    InitialInv(s);
    StepKeeps(s, Mark(false));
    ReenteringOverlaps(Next(s, Mark(false)), Mark(false));
  }

  // ─── the rate ───

  /** `log` goes on from `p`, which has a last write. */
  predicate Extends(log: Log, p: Log) {
    p.More? && (log == p || (log.More? && Extends(log.before, p)))
  }

  /** Bytes of the writes that succeeded, from the last of `p` on and before the last one. */
  function BytesSince(log: Log, p: Log): nat
    requires Extends(log, p)
  {
    if log == p then 0
    else BytesSince(log.before, p) + if log.before.last.ok then log.before.last.bytes else 0
  }

  /** Between the starts of the last writes of `p` and of `log`, no more was written than the time allows. */
  predicate WithinRate(log: Log, p: Log)
    requires Extends(log, p)
  {
    1000.0 * BytesSince(log, p) as real <= (log.last.started - p.last.started) * BYTES_PER_SECOND as real
  }

  lemma PauseCovers(minInterval: real, e: Entry)
    requires minInterval >= 0.0
    ensures Pause(minInterval, e) * BYTES_PER_SECOND as real >= 1000.0 * (if e.ok then e.bytes as real else 0.0)
    ensures Pause(minInterval, e) >= minInterval
  {
    var bySize := (e.bytes * 1000) as real / BYTES_PER_SECOND as real;
    assert bySize * BYTES_PER_SECOND as real == 1000.0 * e.bytes as real;
    var pause := Pause(minInterval, e);
    if e.ok {
      Scaled(pause, bySize, BYTES_PER_SECOND as real);
    } else {
      Scaled(pause, 0.0, BYTES_PER_SECOND as real);
    }
  }

  lemma Scaled(a: real, b: real, k: real)
    requires a >= b && k >= 0.0
    ensures a * k >= b * k
  {
  }

  /**
   * Over any span of writes, the bytes written are bounded by the time: between the starts of any two writes of a log,
   * at most 100 KiB per second, whatever the writes' sizes and whichever failed.
   */
  lemma {:induction false} SpanBound(minInterval: real, log: Log, p: Log)
    requires Spaced(minInterval, log) && minInterval >= 0.0 && Extends(log, p)
    ensures WithinRate(log, p)
  {
    if log != p {
      var e := log.before.last;
      SpanBound(minInterval, log.before, p);
      PauseCovers(minInterval, e);
      var gap, rest := log.last.started - e.started, e.started - p.last.started;
      Scaled(gap, Pause(minInterval, e), BYTES_PER_SECOND as real);
      var bytes := BYTES_PER_SECOND as real;
      assert (gap + rest) * bytes == gap * bytes + rest * bytes;
    }
  }

  /** The bound holds of every span of every run in which `write` does not mark changes. */
  lemma RunBound(s: State, steps: seq<Step>, p: Log)
    requires Initial(s) && CanRun(s, steps) && NeverReenters(s, steps) && Extends(After(s, steps).log, p)
    ensures WithinRate(After(s, steps).log, p)
  {
    InitialInv(s);
    OneWriteAtATime(s, steps);
    SpanBound(After(s, steps).minInterval, After(s, steps).log, p);
  }

  // ─── as it is updated in place ───

  class Progress {
    const minInterval: real
    var now: real
    var dirty: bool
    var stopped: bool
    var timer: Option<real>
    var inFlight: bool
    var nextAt: real
    var waiters: seq<real>
    /** Writes whose call did not return yet, and those whose promise did not run `finally` yet. */
    var calling: seq<Job>
    var jobs: seq<Job>
    var awaited: bool
    ghost var handed: seq<real>
    ghost var log: Log
    ghost var marked: seq<real>
    ghost var served: seq<real>
    ghost var servedBy: seq<real>

    constructor (minInterval: real)
      requires minInterval >= 0.0
      ensures Initial(Now())
    {
      this.minInterval, now, dirty, stopped := minInterval, 0.0, false, false;
      timer, inFlight, nextAt := None, false, 0.0;
      waiters, awaited, calling, jobs := [], false, [], [];
      log, marked, handed, served, servedBy := Empty, [], [], [], [];
    }

    ghost function Now(): State
      reads this
    {
      State(minInterval, now, dirty, stopped, timer, inFlight, nextAt, waiters, awaited, handed, calling, jobs,
            log, marked, served, servedBy)
    }

    /** A change is to be written; with `wait`, somebody waits for the write. */
    method MarkChange(wait: bool)
      modifies this
      ensures Now() == Next(old(Now()), Step.Mark(wait))
    {
      if wait {
        waiters := waiters + [now];
        marked := marked + [now];
      }
      dirty := true;
      assert waiters == old(waiters) + if wait then [now] else [];
      assert marked == old(marked) + if wait then [now] else [];
      SchedulePass();
    }

    method SchedulePass()
      modifies this
      ensures Now() == Schedule(old(Now()))
    {
      if stopped || timer.Some? || inFlight {
        return;
      }
      var wait := nextAt - now;
      if wait <= 0.0 {
        FlushPass();
      } else {
        timer := Some(nextAt);
      }
    }

    /** Begins a write, for everybody who waits now. */
    method FlushPass()
      modifies this
      ensures Now() == Flush(old(Now()))
    {
      if stopped || !dirty {
        return;
      }
      dirty := false;
      calling := calling + [Job(now, waiters, false)];
      waiters := [];
    }

    method OnTimer()
      requires Enabled(Now(), TimerFires)
      modifies this
      ensures Now() == Next(old(Now()), TimerFires)
    {
      timer := None;
      FlushPass();
    }

    /** The write settled: it is paid for by a pause. */
    method OnSettled(ok: bool, bytes: nat)
      requires Enabled(Now(), Settle(ok, bytes))
      modifies this
      ensures Now() == Next(old(Now()), Settle(ok, bytes))
    {
      var job := jobs[0];
      ghost var e := Entry(job.started, ok, bytes);
      var bySize := (bytes * 1000) as real / BYTES_PER_SECOND as real;
      var pause := if ok && bySize > minInterval then bySize else minInterval;
      nextAt := jobs[0].started + pause;
      served := served + job.marks;
      servedBy := servedBy + seq(|job.marks|, i => job.started);
      jobs := [job.(settled := true)] + jobs[1..];
      log := More(log, e);
    }

    /** After a write: what was marked meanwhile is scheduled. */
    method OnFinally()
      requires Enabled(Now(), Finally)
      modifies this
      ensures Now() == Next(old(Now()), Finally)
    {
      inFlight, awaited := false, false;
      jobs := jobs[1..];
      if dirty {
        SchedulePass();
      }
    }

    method StopWriting()
      requires Enabled(Now(), Stop)
      modifies this
      ensures Now() == Next(old(Now()), Stop)
    {
      stopped := true;
      timer := None;
      awaited := inFlight;
    }

    /** The marks that still wait go to who stopped the pacer. */
    method HandOverRest() returns (rest: seq<real>)
      requires Enabled(Now(), HandOver)
      modifies this
      ensures Now() == Next(old(Now()), HandOver) && handed == old(handed) + rest && rest == old(waiters)
    {
      rest := waiters;
      waiters := [];
      handed := handed + rest;
    }
  }
}
