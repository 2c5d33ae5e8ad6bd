/** `performance_comparison2`: the speed-up figures on plain times, and
    the same figures over the entries of two time reporters, for all
    phases together or for one phase. */
module SpeedUp {
  import opened Wrappers
  import opened Collections
  import opened TimeReporting

  /** Three figures computed from the same two times. */
  datatype Figures = Figures(absolute: real, factor: real, ratio: real)

  function SpeedUpFactor(single: real, multi: real): (r: Result<real, ArithmeticError>)
    ensures r.Ok? <==> multi != 0.0
    ensures r.Ok? ==> r.value * multi == single
  {
    if multi == 0.0 then Err(ZeroDivision) else Ok(single / multi)
  }

  function SpeedUpAbs(single: real, multi: real): (r: real)
    ensures r + multi == single
  {
    single - multi
  }

  function SpeedUpRatio(single: real, multi: real, processCount: int): (r: Result<real, ArithmeticError>)
    ensures r.Ok? <==> multi != 0.0 && processCount != 0
    ensures r.Ok? ==> r.value * (processCount as real) * multi == single
  {
    var factor :- SpeedUpFactor(single, multi);
    if processCount == 0 then Err(ZeroDivision) else Ok(factor / processCount as real)
  }

  /** The absolute value, then the factor, then the ratio; the first
      division by zero ends the computation. */
  function Compare(single: real, multi: real, processCount: int): (r: Result<Figures, ArithmeticError>)
    ensures r.Ok? <==> multi != 0.0 && processCount != 0
    ensures r.Ok? ==> r.value.absolute + multi == single
    ensures r.Ok? ==> r.value.factor * multi == single
    ensures r.Ok? ==> r.value.ratio * (processCount as real) == r.value.factor
  {
    var absolute := SpeedUpAbs(single, multi);
    var factor :- SpeedUpFactor(single, multi);
    var ratio :- SpeedUpRatio(single, multi, processCount);
    Ok(Figures(absolute, factor, ratio))
  }

  function ReproductionTime(t: Times): real { t.reproductionTime }
  function ComposeOffspringTime(t: Times): real { t.composeOffspringTime }
  function EvaluationTime(t: Times): real { t.evaluationTime }

  /** The time an entry accounts for in all. */
  function TotalTime(t: Times): real { t.reproductionTime + t.composeOffspringTime + t.evaluationTime }

  /** The three per-field sums added up, as the all-phases figure sums. */
  function PhaseSums(entries: seq<Times>): real
  {
    Sum(entries, ReproductionTime) + Sum(entries, ComposeOffspringTime) + Sum(entries, EvaluationTime)
  }

  /** Summing field by field is summing entry by entry. */
  lemma {:induction false} PhaseSumsTotal(entries: seq<Times>)
    ensures PhaseSums(entries) == Sum(entries, TotalTime)
  {
    if entries != [] {
      PhaseSumsTotal(DropLast(entries));
    }
  }

  /** `speed_up_values_all`: the figures over the whole time of every
      entry of each run. */
  function SpeedUpValuesAll(single: seq<TimeReporterEntry>, multi: seq<TimeReporterEntry>,
                            processCounter: int): (r: Result<Figures, ArithmeticError>)
    reads single, multi
    ensures r.Ok? <==> Sum(Values(multi), TotalTime) != 0.0 && processCounter != 0
    ensures r.Ok? ==> r.value.absolute == Sum(Values(single), TotalTime) - Sum(Values(multi), TotalTime)
    ensures r.Ok? ==> r.value.factor * Sum(Values(multi), TotalTime) == Sum(Values(single), TotalTime)
    ensures r.Ok? ==> r.value.ratio * (processCounter as real) == r.value.factor
  {
    PhaseSumsTotal(Values(single));
    PhaseSumsTotal(Values(multi));
    Compare(PhaseSums(Values(single)), PhaseSums(Values(multi)), processCounter)
  }

  /** `speed_up_value_reproduction_time`. */
  function SpeedUpValueReproductionTime(single: seq<TimeReporterEntry>, multi: seq<TimeReporterEntry>,
                                        processCounter: int): (r: Result<Figures, ArithmeticError>)
    reads single, multi
    ensures r.Ok? <==> Sum(Values(multi), ReproductionTime) != 0.0 && processCounter != 0
    ensures r.Ok? ==> r.value.absolute == Sum(Values(single), ReproductionTime) - Sum(Values(multi), ReproductionTime)
    ensures r.Ok? ==> r.value.factor * Sum(Values(multi), ReproductionTime) == Sum(Values(single), ReproductionTime)
    ensures r.Ok? ==> r.value.ratio * (processCounter as real) == r.value.factor
  {
    Compare(Sum(Values(single), ReproductionTime), Sum(Values(multi), ReproductionTime), processCounter)
  }

  /** `speed_up_value_compose_offspring`. */
  function SpeedUpValueComposeOffspring(single: seq<TimeReporterEntry>, multi: seq<TimeReporterEntry>,
                                        processCounter: int): (r: Result<Figures, ArithmeticError>)
    reads single, multi
    ensures r.Ok? <==> Sum(Values(multi), ComposeOffspringTime) != 0.0 && processCounter != 0
    ensures r.Ok? ==> r.value.absolute == Sum(Values(single), ComposeOffspringTime) - Sum(Values(multi), ComposeOffspringTime)
    ensures r.Ok? ==> r.value.factor * Sum(Values(multi), ComposeOffspringTime) == Sum(Values(single), ComposeOffspringTime)
    ensures r.Ok? ==> r.value.ratio * (processCounter as real) == r.value.factor
  {
    Compare(Sum(Values(single), ComposeOffspringTime), Sum(Values(multi), ComposeOffspringTime), processCounter)
  }

  /** `speed_up_value_evaluation_time`. */
  function SpeedUpValueEvaluationTime(single: seq<TimeReporterEntry>, multi: seq<TimeReporterEntry>,
                                      processCounter: int): (r: Result<Figures, ArithmeticError>)
    reads single, multi
    ensures r.Ok? <==> Sum(Values(multi), EvaluationTime) != 0.0 && processCounter != 0
    ensures r.Ok? ==> r.value.absolute == Sum(Values(single), EvaluationTime) - Sum(Values(multi), EvaluationTime)
    ensures r.Ok? ==> r.value.factor * Sum(Values(multi), EvaluationTime) == Sum(Values(single), EvaluationTime)
    ensures r.Ok? ==> r.value.ratio * (processCounter as real) == r.value.factor
  {
    Compare(Sum(Values(single), EvaluationTime), Sum(Values(multi), EvaluationTime), processCounter)
  }

  /** The seconds saved overall are the seconds saved in each phase. */
  lemma AbsoluteSplitsByPhase(single: seq<TimeReporterEntry>, multi: seq<TimeReporterEntry>, processCounter: int)
    requires SpeedUpValuesAll(single, multi, processCounter).Ok?
    requires SpeedUpValueReproductionTime(single, multi, processCounter).Ok?
    requires SpeedUpValueComposeOffspring(single, multi, processCounter).Ok?
    requires SpeedUpValueEvaluationTime(single, multi, processCounter).Ok?
    ensures SpeedUpValuesAll(single, multi, processCounter).value.absolute
         == SpeedUpValueReproductionTime(single, multi, processCounter).value.absolute
          + SpeedUpValueComposeOffspring(single, multi, processCounter).value.absolute
          + SpeedUpValueEvaluationTime(single, multi, processCounter).value.absolute
  {
    PhaseSumsTotal(Values(single));
    PhaseSumsTotal(Values(multi));
  }

  /** The figures do not depend on the order of the entries. */
  lemma OrderIrrelevant(single: seq<Times>, shuffled: seq<Times>, multi: seq<Times>, processCounter: int)
    requires multiset(single) == multiset(shuffled)
    ensures Compare(PhaseSums(single), PhaseSums(multi), processCounter)
         == Compare(PhaseSums(shuffled), PhaseSums(multi), processCounter)
  {
    SumPermutation(single, shuffled, ReproductionTime);
    SumPermutation(single, shuffled, ComposeOffspringTime);
    SumPermutation(single, shuffled, EvaluationTime);
  }
}
