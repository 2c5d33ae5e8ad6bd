/** `performance_comparison`: speed-up of a multi-core run over a
    single-core run, from the totals of the two stopwatches. Python's
    ZeroDivisionError is the error case. */
module PerformanceComparison {
  import opened Wrappers
  import opened RuntimeMeasurement

  /** How many times faster the multi-core run was. */
  function SpeedUpFactor(single: StopWatch, multi: StopWatch): (r: Result<real, ArithmeticError>)
    reads single, multi
    ensures r.Ok? <==> multi.totalStoppedTime != 0.0
    ensures r.Ok? ==> r.value * multi.totalStoppedTime == single.totalStoppedTime
  {
    if multi.totalStoppedTime == 0.0 then Err(ZeroDivision)
    else Ok(single.totalStoppedTime / multi.totalStoppedTime)
  }

  /** The seconds saved by the multi-core run. */
  function SpeedUpAbs(single: StopWatch, multi: StopWatch): (r: real)
    reads single, multi
    ensures r + multi.totalStoppedTime == single.totalStoppedTime
    ensures r > 0.0 <==> multi.totalStoppedTime < single.totalStoppedTime
  {
    single.totalStoppedTime - multi.totalStoppedTime
  }

  /** The speed-up factor per process; the factor is computed first, so a
      zero multi-core total fails before a zero process count would. */
  function SpeedUpRatio(single: StopWatch, multi: StopWatch, processCount: int): (r: Result<real, ArithmeticError>)
    reads single, multi
    ensures r.Ok? <==> multi.totalStoppedTime != 0.0 && processCount != 0
    ensures r.Ok? ==> r.value * (processCount as real) * multi.totalStoppedTime == single.totalStoppedTime
  {
    var factor :- SpeedUpFactor(single, multi);
    if processCount == 0 then Err(ZeroDivision) else Ok(factor / processCount as real)
  }

  /** Totals of 12 and 3 seconds on 8 processes: factor 4, 9 seconds saved,
      ratio 0.5. */
  lemma TwelveOverThree(single: StopWatch, multi: StopWatch)
    requires single.totalStoppedTime == 12.0 && multi.totalStoppedTime == 3.0
    ensures SpeedUpFactor(single, multi) == Ok(4.0)
    ensures SpeedUpAbs(single, multi) == 9.0
    ensures SpeedUpRatio(single, multi, 8) == Ok(0.5)
  {
  }
}
