/** The countdown and stopwatch timers the controllers use for coyote time,
    the climb duration, the jump cooldown and speed easing. Their source is
    not part of this model; they are modelled as the usual pair of
    utility timers: a countdown that stops itself once its time runs out and
    a stopwatch that only advances while it runs. */
module Timers {

  datatype Countdown = Countdown(initialTime: real, time: real, isRunning: bool) {
    predicate IsFinished() {
      time <= 0.0
    }
  }

  /** `new CountdownTimer(t)`: stopped, with no time loaded yet. */
  function NewCountdown(initialTime: real): (t: Countdown)
    ensures t.initialTime == initialTime && !t.isRunning && t.IsFinished()
  {
    Countdown(initialTime, 0.0, false)
  }

  /** `Start`: reload the initial time and run. */
  function Start(t: Countdown): (r: Countdown)
    ensures r.isRunning && r.time == t.initialTime && r.initialTime == t.initialTime
  {
    t.(time := t.initialTime, isRunning := true)
  }

  /** `Reset(newTime)`: change the initial time and reload it; the running
      flag is left as it was. */
  function ResetTo(t: Countdown, newTime: real): (r: Countdown)
    ensures r.initialTime == newTime && r.time == newTime && r.isRunning == t.isRunning
  {
    t.(initialTime := newTime, time := newTime)
  }

  /** `Tick(dt)`: count down while running and stop once the time is used up. */
  function Tick(t: Countdown, dt: real): (r: Countdown)
    ensures r.initialTime == t.initialTime
    ensures !t.isRunning ==> r == t
    ensures t.isRunning && t.time > 0.0 ==> r.time == t.time - dt
    ensures r.isRunning <==> t.isRunning && r.time > 0.0
  {
    var t1 := if t.isRunning && t.time > 0.0 then t.(time := t.time - dt) else t;
    if t1.isRunning && t1.time <= 0.0 then t1.(isRunning := false) else t1
  }

  function Sum(dts: seq<real>): real {
    if |dts| == 0 then 0.0 else dts[0] + Sum(dts[1..])
  }

  predicate AllNonNegative(dts: seq<real>) {
    forall i :: 0 <= i < |dts| ==> dts[i] >= 0.0
  }

  function TickAll(t: Countdown, dts: seq<real>): Countdown
    decreases |dts|
  {
    if |dts| == 0 then t else TickAll(Tick(t, dts[0]), dts[1..])
  }

  lemma {:induction false} SumNonNegative(dts: seq<real>)
    requires AllNonNegative(dts)
    ensures Sum(dts) >= 0.0
  {
    if |dts| > 0 {
      SumNonNegative(dts[1..]);
    }
  }

  /** A stopped countdown ignores every tick. */
  lemma {:induction false} StoppedStaysStopped(t: Countdown, dts: seq<real>)
    requires !t.isRunning
    ensures TickAll(t, dts) == t
    decreases |dts|
  {
    if |dts| > 0 {
      StoppedStaysStopped(Tick(t, dts[0]), dts[1..]);
    }
  }

  /** A running countdown keeps running, having lost exactly the elapsed
      time, as long as less time has passed than it had left. */
  lemma {:induction false} RunsWhileTimeLeft(t: Countdown, dts: seq<real>)
    requires t.isRunning && AllNonNegative(dts) && Sum(dts) < t.time
    ensures TickAll(t, dts) == t.(time := t.time - Sum(dts))
    decreases |dts|
  {
    if |dts| > 0 {
      SumNonNegative(dts[1..]);
      var t1 := Tick(t, dts[0]);
      assert t1 == t.(time := t.time - dts[0]);
      assert AllNonNegative(dts[1..]) by {
        forall i | 0 <= i < |dts[1..]| ensures dts[1..][i] >= 0.0 { assert dts[1..][i] == dts[i + 1]; }
      }
      RunsWhileTimeLeft(t1, dts[1..]);
    }
  }

  /** Once at least the loaded time has passed, the countdown has stopped
      and reports finished. */
  lemma {:induction false} ExpiresAfterTime(t: Countdown, dts: seq<real>)
    requires t.isRunning && t.time > 0.0 && AllNonNegative(dts) && Sum(dts) >= t.time
    ensures !TickAll(t, dts).isRunning && TickAll(t, dts).IsFinished()
    decreases |dts|
  {
    assert |dts| > 0;
    var t1 := Tick(t, dts[0]);
    assert AllNonNegative(dts[1..]) by {
      forall i | 0 <= i < |dts[1..]| ensures dts[1..][i] >= 0.0 { assert dts[1..][i] == dts[i + 1]; }
    }
    if t1.isRunning {
      ExpiresAfterTime(t1, dts[1..]);
    } else {
      StoppedStaysStopped(t1, dts[1..]);
    }
  }

  datatype Stopwatch = Stopwatch(time: real, isRunning: bool)

  /** `new StopwatchTimer()`: stopped at zero. */
  function NewStopwatch(): (s: Stopwatch)
    ensures s.time == 0.0 && !s.isRunning
  {
    Stopwatch(0.0, false)
  }

  /** `Start`: restart from zero and run. */
  function StartStopwatch(s: Stopwatch): (r: Stopwatch)
    ensures r.isRunning && r.time == 0.0
  {
    Stopwatch(0.0, true)
  }

  /** `Reset`: back to zero; running or not as before. */
  function ResetStopwatch(s: Stopwatch): (r: Stopwatch)
    ensures r.time == 0.0 && r.isRunning == s.isRunning
  {
    s.(time := 0.0)
  }

  function TickStopwatch(s: Stopwatch, dt: real): (r: Stopwatch)
    ensures r.isRunning == s.isRunning
    ensures s.isRunning ==> r.time == s.time + dt
    ensures !s.isRunning ==> r == s
  {
    if s.isRunning then s.(time := s.time + dt) else s
  }

  function TickStopwatchAll(s: Stopwatch, dts: seq<real>): Stopwatch
    decreases |dts|
  {
    if |dts| == 0 then s else TickStopwatchAll(TickStopwatch(s, dts[0]), dts[1..])
  }

  /** A running stopwatch reads the total elapsed time; a stopped one never
      moves. */
  lemma {:induction false} StopwatchMeasures(s: Stopwatch, dts: seq<real>)
    ensures s.isRunning ==> TickStopwatchAll(s, dts) == s.(time := s.time + Sum(dts))
    ensures !s.isRunning ==> TickStopwatchAll(s, dts) == s
    decreases |dts|
  {
    if |dts| > 0 {
      StopwatchMeasures(TickStopwatch(s, dts[0]), dts[1..]);
    }
  }
}
