/** `time_reporter`: per generation, the time spent evaluating, composing
    offspring and reproducing, measured by callbacks that record a start
    time and, at the end, store the difference. The clock is a parameter
    `now` of every callback. */
module TimeReporting {
  import opened Wrappers
  import opened Collections

  /** The four values of a `TimeReporterEntry`. */
  datatype Times = Times(generation: int, reproductionTime: real, composeOffspringTime: real, evaluationTime: real)

  class TimeReporterEntry {
    var generation: int
    var reproductionTime: real
    var composeOffspringTime: real
    var evaluationTime: real

    constructor (generation: int, reproductionTime: real, composeOffspringTime: real, evaluationTime: real)
      ensures Value() == Times(generation, reproductionTime, composeOffspringTime, evaluationTime)
    {
      this.generation := generation;
      this.reproductionTime := reproductionTime;
      this.composeOffspringTime := composeOffspringTime;
      this.evaluationTime := evaluationTime;
    }

    function Value(): Times
      reads this
    {
      Times(generation, reproductionTime, composeOffspringTime, evaluationTime)
    }
  }

  /** The values of a list of entries. */
  function Values(entries: seq<TimeReporterEntry>): seq<Times>
    reads entries
  {
    if entries == [] then [] else Values(DropLast(entries)) + [Last(entries).Value()]
  }

  lemma {:induction false} ValuesLength(entries: seq<TimeReporterEntry>)
    ensures |Values(entries)| == |entries|
  {
    if entries != [] {
      ValuesLength(DropLast(entries));
    }
  }

  // ----- the reporter as a state machine over values -----

  /** The reporter's data and temporaries; `pending` says the temporary
      entry is set, and then it is the last entry of the data. */
  datatype ReporterState = ReporterState(data: seq<Times>, reproductionStart: Option<real>,
                                         composeStart: Option<real>, evaluationStart: Option<real>,
                                         pending: bool)

  predicate WellFormed(st: ReporterState)
  {
    st.pending ==> |st.data| > 0
  }

  /** Nothing measured yet and nothing pending. */
  predicate Idle(st: ReporterState)
  {
    st.reproductionStart.None? && st.composeStart.None? && st.evaluationStart.None? && !st.pending
  }

  /** The entries no callback may touch any more: all but the pending one. */
  function Settled(st: ReporterState): seq<Times>
    requires WellFormed(st)
  {
    if st.pending then st.data[..|st.data| - 1] else st.data
  }

  /** `on_generation_evaluation_start`. */
  function EvaluationStart(st: ReporterState, now: real): (r: ReporterState)
    requires WellFormed(st) && st.evaluationStart.None? && !st.pending
    ensures WellFormed(r) && r.data == st.data
  {
    st.(evaluationStart := Some(now))
  }

  /** `on_generation_evaluation_end`: one new entry, which becomes pending. */
  function EvaluationEnd(st: ReporterState, number: int, now: real): (r: ReporterState)
    requires WellFormed(st) && st.evaluationStart.Some? && !st.pending
    ensures WellFormed(r) && r.pending && Settled(r) == st.data
  {
    st.(data := st.data + [Times(number, 0.0, 0.0, now - st.evaluationStart.value)], pending := true)
  }

  /** `on_reproduction_start`. */
  function ReproductionStart(st: ReporterState, now: real): (r: ReporterState)
    requires WellFormed(st) && st.reproductionStart.None? && st.pending
    ensures WellFormed(r) && r.data == st.data
  {
    st.(reproductionStart := Some(now))
  }

  /** `on_compose_offsprings_start`. */
  function ComposeStart(st: ReporterState, now: real): (r: ReporterState)
    requires WellFormed(st) && st.composeStart.None? && st.pending
    ensures WellFormed(r) && r.data == st.data
  {
    st.(composeStart := Some(now))
  }

  /** `on_compose_offsprings_end`: the pending entry's compose time is set. */
  function ComposeEnd(st: ReporterState, now: real): (r: ReporterState)
    requires WellFormed(st) && st.composeStart.Some? && st.pending
    ensures WellFormed(r) && r.pending && Settled(r) == Settled(st) && |r.data| == |st.data|
  {
    var last := |st.data| - 1;
    st.(data := st.data[last := st.data[last].(composeOffspringTime := now - st.composeStart.value)])
  }

  /** `on_reproduction_end`: the pending entry's reproduction time is the
      time since the reproduction started minus its compose time; then
      every temporary is cleared. */
  function ReproductionEnd(st: ReporterState, now: real): (r: ReporterState)
    requires WellFormed(st) && st.reproductionStart.Some? && st.pending
    ensures WellFormed(r) && Idle(r) && |r.data| == |st.data| && r.data[..|r.data| - 1] == Settled(st)
  {
    var last := |st.data| - 1;
    var entry := st.data[last];
    var data := st.data[last := entry.(reproductionTime := now - st.reproductionStart.value - entry.composeOffspringTime)];
    ReporterState(data, None, None, None, false)
  }

  /** A whole generation from an idle reporter: evaluation from t0 to t1,
      reproduction from t2 to t5 with offspring composed from t3 to t4.
      Exactly one entry is appended, holding the evaluation time, the
      compose time and the reproduction time without the compose time,
      and the reporter is idle again. */
  lemma GenerationCycle(st: ReporterState, number: int, t0: real, t1: real, t2: real, t3: real, t4: real, t5: real)
    requires WellFormed(st) && Idle(st)
    ensures var s1 := EvaluationEnd(EvaluationStart(st, t0), number, t1);
      var s2 := ComposeEnd(ComposeStart(ReproductionStart(s1, t2), t3), t4);
      var r := ReproductionEnd(s2, t5);
      Idle(r) && r.data == st.data + [Times(number, (t5 - t2) - (t4 - t3), t4 - t3, t1 - t0)]
  {
    var s1 := EvaluationEnd(EvaluationStart(st, t0), number, t1);
    var s2 := ComposeEnd(ComposeStart(ReproductionStart(s1, t2), t3), t4);
    assert s2.data == st.data + [Times(number, 0.0, t4 - t3, t1 - t0)];
  }

  /** Without composing, the compose time stays 0 and the reproduction time
      is the whole reproduction. */
  lemma GenerationCycleWithoutCompose(st: ReporterState, number: int, t0: real, t1: real, t2: real, t5: real)
    requires WellFormed(st) && Idle(st)
    ensures var r := ReproductionEnd(ReproductionStart(EvaluationEnd(EvaluationStart(st, t0), number, t1), t2), t5);
      Idle(r) && r.data == st.data + [Times(number, t5 - t2, 0.0, t1 - t0)]
  {
    var s1 := EvaluationEnd(EvaluationStart(st, t0), number, t1);
    assert s1.data[|s1.data| - 1] == Times(number, 0.0, 0.0, t1 - t0);
  }

  // ----- the reporter object -----

  class TimeReporter {
    var data: seq<TimeReporterEntry>
    var tmpReproductionStart: Option<real>
    var tmpComposeOffspringStart: Option<real>
    var tmpOnGenerationEvaluationStart: Option<real>
    var tmpEntry: TimeReporterEntry?

    /** The temporary entry, when set, is the last one of the data (the
        same object), and the data holds distinct objects. */
    ghost predicate Valid()
      reads this
    {
      (tmpEntry != null ==> |data| > 0 && tmpEntry == Last(data))
      && forall i, j :: 0 <= i < j < |data| ==> data[i] != data[j]
    }

    ghost function State(): ReporterState
      reads this, data
    {
      ReporterState(Values(data), tmpReproductionStart, tmpComposeOffspringStart,
                    tmpOnGenerationEvaluationStart, tmpEntry != null)
    }

    constructor ()
      ensures Valid() && fresh(this)
      ensures State() == ReporterState([], None, None, None, false)
    {
      data := [];
      tmpReproductionStart, tmpComposeOffspringStart, tmpOnGenerationEvaluationStart := None, None, None;
      tmpEntry := null;
    }

    method OnGenerationEvaluationStart(now: real)
      requires Valid() && tmpOnGenerationEvaluationStart.None? && tmpEntry == null
      modifies this
      ensures Valid() && data == old(data)
      ensures State() == EvaluationStart(old(State()), now)
    {
      tmpOnGenerationEvaluationStart := Some(now);
    }

    method OnGenerationEvaluationEnd(number: int, now: real)
      requires Valid() && tmpOnGenerationEvaluationStart.Some? && tmpEntry == null
      modifies this
      ensures Valid() && |data| == |old(data)| + 1 && data[..|data| - 1] == old(data) && fresh(tmpEntry)
      ensures State() == EvaluationEnd(old(State()), number, now)
    {
      var requiredTime := now - tmpOnGenerationEvaluationStart.value;
      var entry := new TimeReporterEntry(number, 0.0, 0.0, requiredTime);
      tmpEntry := entry;
      data := data + [entry];
      assert DropLast(data) == old(data);
    }

    method OnReproductionStart(now: real)
      requires Valid() && tmpReproductionStart.None? && tmpEntry != null
      modifies this
      ensures Valid() && data == old(data)
      ensures State() == ReproductionStart(old(State()), now)
    {
      tmpReproductionStart := Some(now);
    }

    method OnComposeOffspringsStart(now: real)
      requires Valid() && tmpComposeOffspringStart.None? && tmpEntry != null
      modifies this
      ensures Valid() && data == old(data)
      ensures State() == ComposeStart(old(State()), now)
    {
      tmpComposeOffspringStart := Some(now);
    }

    /** The compose time is written through the temporary entry, that is,
        into the last entry of the data. */
    method OnComposeOffspringsEnd(now: real)
      requires Valid() && tmpComposeOffspringStart.Some? && tmpEntry != null
      modifies tmpEntry
      ensures Valid()
      ensures State() == ComposeEnd(old(State()), now)
    {
      ghost var before := DropLast(data);
      assert tmpEntry !in before;
      tmpEntry.composeOffspringTime := now - tmpComposeOffspringStart.value;
      ValuesLength(before);
    }

    method OnReproductionEnd(now: real)
      requires Valid() && tmpReproductionStart.Some? && tmpEntry != null
      modifies this, tmpEntry
      ensures Valid() && data == old(data)
      ensures State() == ReproductionEnd(old(State()), now)
    {
      ghost var before := DropLast(data);
      assert tmpEntry !in before;
      var requiredTime := now - tmpReproductionStart.value - tmpEntry.composeOffspringTime;
      tmpEntry.reproductionTime := requiredTime;
      ValuesLength(before);
      tmpEntry := null;
      tmpReproductionStart := None;
      tmpOnGenerationEvaluationStart := None;
      tmpComposeOffspringStart := None;
    }
  }
}
