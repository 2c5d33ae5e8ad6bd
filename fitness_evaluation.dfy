/** `fitness_evaluation_utils.get_best_agent`: the fittest agent of a list. */
module FitnessEvaluation {
  import opened Wrappers
  import opened Model
  import opened Collections

  /** The loop of `get_best_agent` run over the whole list: the current
      best is replaced only by a strictly fitter agent. */
  function BestAgent(agents: seq<Agent>): Option<Agent>
  {
    if agents == [] then None
    else
      var best := BestAgent(DropLast(agents));
      if best.None? || best.value.fitness < Last(agents).fitness then Some(Last(agents)) else best
  }

  /** `get_best_agent`. */
  method GetBestAgent(agents: seq<Agent>) returns (best: Option<Agent>)
    ensures best == BestAgent(agents)
  {
    best := None;
    for i := 0 to |agents|
      invariant best == BestAgent(agents[..i])
    {
      var agent := agents[i];
      assert DropLast(agents[..i + 1]) == agents[..i] && Last(agents[..i + 1]) == agent;
      if best.None? || best.value.fitness < agent.fitness {
        best := Some(agent);
      }
    }
    assert agents[..|agents|] == agents;
  }

  /** An empty list has no best agent; otherwise the result is the agent
      at some index i whose fitness is at least every agent's, and every
      agent before i is strictly less fit: ties go to the earliest. */
  lemma {:induction false} BestIsEarliestMaximum(agents: seq<Agent>)
    ensures BestAgent(agents).None? <==> agents == []
    ensures BestAgent(agents).Some? ==>
      exists i :: 0 <= i < |agents| && agents[i] == BestAgent(agents).value
        && (forall j :: 0 <= j < |agents| ==> agents[j].fitness <= agents[i].fitness)
        && (forall j :: 0 <= j < i ==> agents[j].fitness < agents[i].fitness)
  {
    if agents != [] {
      var init := DropLast(agents);
      BestIsEarliestMaximum(init);
      assert forall j :: 0 <= j < |init| ==> init[j] == agents[j];
      var last := |agents| - 1;
      var best := BestAgent(init);
      if best.None? {
        assert init == [];
        assert agents[last] == BestAgent(agents).value;
      } else {
        var i :| 0 <= i < |init| && init[i] == best.value
                 && (forall j :: 0 <= j < |init| ==> init[j].fitness <= init[i].fitness)
                 && (forall j :: 0 <= j < i ==> init[j].fitness < init[i].fitness);
        if best.value.fitness < agents[last].fitness {
          assert agents[last] == BestAgent(agents).value;
          assert forall j :: 0 <= j < last ==> agents[j].fitness < agents[last].fitness;
        } else {
          assert agents[i] == BestAgent(agents).value;
        }
      }
    }
  }

  /** Agents whose fitness strictly increases along the list (such as
      fitness 0, 1, ..., 149) give the last agent. */
  lemma IncreasingFitnessGivesLast(agents: seq<Agent>)
    requires agents != []
    requires forall i, j :: 0 <= i < j < |agents| ==> agents[i].fitness < agents[j].fitness
    ensures BestAgent(agents) == Some(Last(agents))
  {
    BestIsEarliestMaximum(agents);
    var i :| 0 <= i < |agents| && agents[i] == BestAgent(agents).value
             && (forall j :: 0 <= j < |agents| ==> agents[j].fitness <= agents[i].fitness);
    assert i == |agents| - 1;
  }

  /** A population of 150 agents whose fitness is their index: the best is
      the last one, with fitness 149. */
  lemma IndexFitnessExample(agents: seq<Agent>)
    requires |agents| == 150 && forall i :: 0 <= i < 150 ==> agents[i].fitness == i as real
    ensures BestAgent(agents) == Some(agents[149]) && agents[149].fitness == 149.0
  {
    IncreasingFitnessGivesLast(agents);
  }
}
