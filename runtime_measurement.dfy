/** `runtime_measurement.StopWatch`: a watch that accumulates the time
    between each start and the stop that follows it. The clock is the
    parameter `now` of the constructor, `Start` and `Stop`. */
module RuntimeMeasurement {
  import opened Wrappers
  import opened Collections

  function Identity(x: real): real { x }

  class StopWatch {
    var totalStoppedTime: real
    var startTime: Option<real>
    var running: bool
    /** The length of every completed start/stop lap, in order. */
    ghost var laps: seq<real>

    /** A running watch knows when it started, and the total is the sum of
        the completed laps. */
    ghost predicate Valid()
      reads this
    {
      (running ==> startTime.Some?) && totalStoppedTime == Sum(laps, Identity)
    }

    /** A new watch holds no time; `start` starts it at once. */
    constructor (start: bool, now: real)
      ensures Valid() && laps == [] && totalStoppedTime == 0.0
      ensures running == start
      ensures startTime == if start then Some(now) else None
    {
      totalStoppedTime := 0.0;
      startTime := None;
      running := false;
      laps := [];
      new;
      if start {
        var _ := Start(now);
      }
    }

    /** Starting a stopped watch records `now`; starting a running one
        changes nothing. Either way the recorded start is returned. */
    method Start(now: real) returns (t: real)
      requires Valid()
      modifies this
      ensures Valid() && running
      ensures old(running) ==> startTime == old(startTime) && t == old(startTime).value
      ensures !old(running) ==> startTime == Some(now) && t == now
      ensures totalStoppedTime == old(totalStoppedTime) && laps == old(laps)
    {
      if !running {
        running := true;
        startTime := Some(now);
      }
      t := startTime.value;
    }

    /** Stopping a running watch completes a lap of `now` minus the start;
        stopping a stopped one changes nothing. Either way the total is
        returned. */
    method Stop(now: real) returns (total: real)
      requires Valid()
      modifies this
      ensures Valid() && !running && startTime == old(startTime) && total == totalStoppedTime
      ensures old(running) ==> laps == old(laps) + [now - old(startTime).value]
      ensures !old(running) ==> laps == old(laps)
      ensures totalStoppedTime == old(totalStoppedTime) + if old(running) then now - old(startTime).value else 0.0
      ensures old(running) && now >= old(startTime).value ==> totalStoppedTime >= old(totalStoppedTime)
    {
      if running {
        SumAppend(laps, [now - startTime.value], Identity);
        SumSingle(now - startTime.value, Identity);
        totalStoppedTime := totalStoppedTime + (now - startTime.value);
        laps := laps + [now - startTime.value];
        running := false;
      }
      total := totalStoppedTime;
    }
  }

  /** The total is never negative while each lap ended no earlier than it
      started: with a non-decreasing clock the total only grows. */
  lemma {:induction false} LapsNonNegative(laps: seq<real>)
    requires forall i :: 0 <= i < |laps| ==> laps[i] >= 0.0
    ensures Sum(laps, Identity) >= 0.0
  {
    if laps != [] {
      assert forall i :: 0 <= i < |laps| - 1 ==> DropLast(laps)[i] == laps[i];
      LapsNonNegative(DropLast(laps));
    }
  }

  /** A watch started at t0, stopped at t1, restarted at t2 and stopped at
      t3 reports both laps together; each `Stop` returns the total so far. */
  method RestartAccumulates(t0: real, t1: real, t2: real, t3: real) returns (first: real, second: real)
    ensures first == t1 - t0
    ensures second == (t1 - t0) + (t3 - t2)
  {
    var watch := new StopWatch(false, 0.0);
    var _ := watch.Start(t0);
    first := watch.Stop(t1);
    var _ := watch.Start(t2);
    second := watch.Stop(t3);
  }

  /** Restarting a running watch keeps the original start. */
  method RestartKeepsStart(t0: real, t1: real) returns (first: real, second: real)
    ensures first == t0 && second == t0
  {
    var watch := new StopWatch(true, t0);
    first := watch.startTime.value;
    second := watch.Start(t1);
  }
}
