/** The value-level reproduction operators: deep copies, random initial
    weights and biases, and weight and bias mutation. Each in-place operation
    is a method over a `Genome` and a `RandomState`, proved equal to a
    specification function that walks the list from the front, consuming
    draws as the Python loop does. */
module Reproduction {
  import opened Wrappers
  import opened Model
  import opened Random
  import opened Collections

  /** The exceptions the operators raise. */
  datatype ReproductionError =
    | UnknownMutationType   // AssertionError for a mutation type other than "uniform" and "normal"
    | EmptyChoice           // ValueError from `randint` over an empty range
    | NodeNotFound          // StopIteration from `next` when no node carries the number

  function DeepCopyNode(n: Node): (r: Node)
    ensures r == n
  {
    Node(n.innovationNumber, n.nodeType, n.bias, n.activationFunction, n.xPosition)
  }

  function DeepCopyConnection(c: Connection): (r: Connection)
    ensures r == c
  {
    Connection(c.innovationNumber, c.inputNode, c.outputNode, c.weight, c.enabled)
  }

  /** A new genome object with the same seed and equal node and connection
      lists, in the same order. */
  method DeepCopyGenome(genome: Genome) returns (copy: Genome)
    ensures fresh(copy)
    ensures copy.seed == genome.seed
    ensures copy.nodes == genome.nodes && copy.connections == genome.connections
  {
    var ns := genome.nodes;
    var cs := genome.connections;
    var nodes := seq(|ns|, i requires 0 <= i < |ns| => DeepCopyNode(ns[i]));
    var connections := seq(|cs|, i requires 0 <= i < |cs| => DeepCopyConnection(cs[i]));
    copy := new Genome(genome.seed, nodes, connections);
  }

  predicate IsNotInput(n: Node)
  {
    n.nodeType != Input
  }

  /** x lies between a and b, whichever way round they are. */
  predicate Within(x: real, a: real, b: real)
  {
    (a <= b ==> a <= x <= b) && (b <= a ==> b <= x <= a)
  }

  /** `np.clip(x, a_min=lo, a_max=hi)`, which is `min(max(x, lo), hi)`. */
  function Clip(x: real, lo: real, hi: real): (r: real)
    ensures Within(r, lo, hi)
    ensures lo <= x <= hi ==> r == x
    ensures hi < lo ==> r == hi
  {
    var m := if x < lo then lo else x;
    if m > hi then hi else m
  }

  /** `rnd.uniform(0, 1) <= p` read from draw k. */
  predicate Coin(s: Stream, k: nat, p: real)
  {
    UniformAt(s, k, 0.0, 1.0) <= p
  }

  /** The options one mutation reads: for weights or for biases. */
  datatype MutationParams = MutationParams(
    probabilityMutation: real,
    probabilityRandom: real,
    mutationType: string,
    uniformMaxChange: real,
    normalSigma: real,
    initialMin: real,
    initialMax: real,
    min: real,
    max: real)

  function WeightParams(c: NeatConfig): MutationParams
  {
    MutationParams(c.probabilityWeightMutation, c.probabilityRandomWeightMutation,
                   c.weightMutationType, c.weightMutationUniformMaxChange,
                   c.weightMutationNormalSigma, c.connectionInitialMinWeight,
                   c.connectionInitialMaxWeight, c.connectionMinWeight, c.connectionMaxWeight)
  }

  function BiasParams(c: NeatConfig): MutationParams
  {
    MutationParams(c.probabilityBiasMutation, c.probabilityRandomBiasMutation,
                   c.biasMutationType, c.biasMutationUniformMaxChange,
                   c.biasMutationNormalSigma, c.biasInitialMin,
                   c.biasInitialMax, c.biasMin, c.biasMax)
  }

  predicate KnownType(p: MutationParams)
  {
    p.mutationType == "uniform" || p.mutationType == "normal"
  }

  /** The outcome of mutating one value: the new value, how many draws were
      consumed, and whether the mutation type was understood. */
  datatype Draw = Draw(value: real, draws: nat, ok: bool)

  /** One gene's mutation, starting at draw k: a first coin decides whether
      to mutate, a second whether to re-draw from the initial range (no
      clamp) or to perturb and clamp into [min, max]. */
  function MutateValue(v: real, s: Stream, k: nat, p: MutationParams): Draw
  {
    if !Coin(s, k, p.probabilityMutation) then Draw(v, 1, true)
    else if Coin(s, k + 1, p.probabilityRandom) then
      Draw(UniformAt(s, k + 2, p.initialMin, p.initialMax), 3, true)
    else if p.mutationType == "uniform" then
      Draw(Clip(v + UniformAt(s, k + 2, -p.uniformMaxChange, p.uniformMaxChange), p.min, p.max), 3, true)
    else if p.mutationType == "normal" then
      Draw(Clip(v + NormalAt(s, k + 2, p.normalSigma), p.min, p.max), 3, true)
    else
      Draw(v, 2, false)
  }

  /** Without the first coin nothing changes; a re-draw lies in the initial
      range and is not clamped; a perturbation is clamped into [min, max]; the
      only failure is an unknown type in the perturb branch. */
  lemma MutateValueBranches(v: real, s: Stream, k: nat, p: MutationParams)
    ensures var d := MutateValue(v, s, k, p);
      (!Coin(s, k, p.probabilityMutation) ==> d == Draw(v, 1, true)) &&
      (Coin(s, k, p.probabilityMutation) && Coin(s, k + 1, p.probabilityRandom) ==>
         d.ok && d.draws == 3 && Within(d.value, p.initialMin, p.initialMax)) &&
      (Coin(s, k, p.probabilityMutation) && !Coin(s, k + 1, p.probabilityRandom) && KnownType(p) ==>
         d.ok && d.draws == 3 && Within(d.value, p.min, p.max)) &&
      (!d.ok <==> Coin(s, k, p.probabilityMutation) && !Coin(s, k + 1, p.probabilityRandom) && !KnownType(p)) &&
      (!d.ok ==> d.value == v && d.draws == 2)
  {
  }

  /** The draws of one gene's mutation, taken from the generator. */
  method DrawMutation(v: real, rnd: RandomState, p: MutationParams) returns (d: Draw)
    modifies rnd
    ensures d == MutateValue(v, rnd.stream, old(rnd.position), p)
    ensures rnd.position == old(rnd.position) + d.draws
  {
    var coin := rnd.Uniform(0.0, 1.0);
    if coin > p.probabilityMutation {
      return Draw(v, 1, true);
    }
    coin := rnd.Uniform(0.0, 1.0);
    if coin <= p.probabilityRandom {
      var x := rnd.Uniform(p.initialMin, p.initialMax);
      return Draw(x, 3, true);
    }
    if p.mutationType == "uniform" {
      var delta := rnd.Uniform(-p.uniformMaxChange, p.uniformMaxChange);
      return Draw(Clip(v + delta, p.min, p.max), 3, true);
    } else if p.mutationType == "normal" {
      var delta := rnd.Normal(p.normalSigma);
      return Draw(Clip(v + delta, p.min, p.max), 3, true);
    }
    return Draw(v, 2, false);
  }

  /** The list after a pass, the generator position after it, and whether
      the pass ran to the end. */
  datatype Sweep<T> = Sweep(items: seq<T>, position: nat, ok: bool)

  /** The state of `mutate_weights` from draw k after its loop has visited
      the first n connections: the list (the later entries still as given), the
      generator position, and whether no gene has raised. Once a gene raises,
      the state stays as it was at the raise. */
  function MutateWeightsUpTo(cs: seq<Connection>, s: Stream, k: nat, p: MutationParams, n: nat): (r: Sweep<Connection>)
    requires n <= |cs|
    ensures |r.items| == |cs|
    ensures r.ok ==> forall j :: n <= j < |cs| ==> r.items[j] == cs[j]
    decreases n
  {
    if n == 0 then Sweep(cs, k, true)
    else
      var prev := MutateWeightsUpTo(cs, s, k, p, n - 1);
      if !prev.ok then prev
      else
        var c := prev.items[n - 1];
        var d := MutateValue(c.weight, s, prev.position, p);
        if !d.ok then Sweep(prev.items, prev.position + d.draws, false)
        else Sweep(prev.items[n - 1 := c.(weight := d.value)], prev.position + d.draws, true)
  }

  /** `mutate_weights` over the whole list. */
  function MutateWeightsSpec(cs: seq<Connection>, s: Stream, k: nat, p: MutationParams): Sweep<Connection>
  {
    MutateWeightsUpTo(cs, s, k, p, |cs|)
  }

  /** Weight mutation changes only weights; every changed weight is either a
      re-draw inside the initial range or a perturbation clamped into
      [min, max]; a known mutation type never raises. */
  lemma {:induction false} MutateWeightsBounds(cs: seq<Connection>, s: Stream, k: nat, p: MutationParams, n: nat)
    requires n <= |cs|
    ensures var r := MutateWeightsUpTo(cs, s, k, p, n);
      (forall j :: 0 <= j < |cs| ==> r.items[j] == cs[j].(weight := r.items[j].weight)) &&
      (forall j :: 0 <= j < |cs| ==>
         r.items[j].weight == cs[j].weight || Within(r.items[j].weight, p.initialMin, p.initialMax)
         || Within(r.items[j].weight, p.min, p.max)) &&
      (KnownType(p) ==> r.ok) &&
      k <= r.position
    decreases n
  {
    if n > 0 {
      MutateWeightsBounds(cs, s, k, p, n - 1);
      var prev := MutateWeightsUpTo(cs, s, k, p, n - 1);
      if prev.ok {
        MutateValueBranches(prev.items[n - 1].weight, s, prev.position, p);
      }
    }
  }

  /** After a raise, visiting more connections changes nothing. */
  lemma {:induction false} MutateWeightsFailureSticks(cs: seq<Connection>, s: Stream, k: nat, p: MutationParams, m: nat, n: nat)
    requires m <= n <= |cs| && !MutateWeightsUpTo(cs, s, k, p, m).ok
    ensures MutateWeightsUpTo(cs, s, k, p, n) == MutateWeightsUpTo(cs, s, k, p, m)
    decreases n
  {
    if n > m {
      MutateWeightsFailureSticks(cs, s, k, p, m, n - 1);
    }
  }

  /** `mutate_weights`: the connection list and the generator end as the
      specification says; nothing else of the genome changes. */
  method MutateWeights(genome: Genome, rnd: RandomState, config: NeatConfig) returns (outcome: Outcome<ReproductionError>)
    modifies genome, rnd
    ensures MutateWeightsSpec(old(genome.connections), rnd.stream, old(rnd.position), WeightParams(config))
            == Sweep(genome.connections, rnd.position, outcome.Pass?)
    ensures outcome.Fail? ==> outcome.error == UnknownMutationType
    ensures genome.nodes == old(genome.nodes) && genome.seed == old(genome.seed)
  {
    var p := WeightParams(config);
    ghost var cs0 := genome.connections;
    ghost var k0 := rnd.position;
    var i := 0;
    while i < |genome.connections|
      invariant i <= |cs0| && |genome.connections| == |cs0|
      invariant MutateWeightsUpTo(cs0, rnd.stream, k0, p, i) == Sweep(genome.connections, rnd.position, true)
      invariant genome.nodes == old(genome.nodes) && genome.seed == old(genome.seed)
      modifies genome, rnd
    {
      var c := genome.connections[i];
      var d := DrawMutation(c.weight, rnd, p);
      if !d.ok {
        MutateWeightsFailureSticks(cs0, rnd.stream, k0, p, i + 1, |cs0|);
        return Fail(UnknownMutationType);
      }
      genome.connections := genome.connections[i := c.(weight := d.value)];
      i := i + 1;
    }
    return Pass;
  }

  /** `mutate_bias` from draw k after visiting the first n nodes; INPUT nodes
      are skipped without a draw. */
  function MutateBiasUpTo(ns: seq<Node>, s: Stream, k: nat, p: MutationParams, n: nat): (r: Sweep<Node>)
    requires n <= |ns|
    ensures |r.items| == |ns|
    ensures r.ok ==> forall j :: n <= j < |ns| ==> r.items[j] == ns[j]
    decreases n
  {
    if n == 0 then Sweep(ns, k, true)
    else
      var prev := MutateBiasUpTo(ns, s, k, p, n - 1);
      var node := prev.items[n - 1];
      if !prev.ok || node.nodeType == Input then prev
      else
        var d := MutateValue(node.bias, s, prev.position, p);
        if !d.ok then Sweep(prev.items, prev.position + d.draws, false)
        else Sweep(prev.items[n - 1 := node.(bias := d.value)], prev.position + d.draws, true)
  }

  /** `mutate_bias` over the whole list. */
  function MutateBiasSpec(ns: seq<Node>, s: Stream, k: nat, p: MutationParams): Sweep<Node>
  {
    MutateBiasUpTo(ns, s, k, p, |ns|)
  }

  /** Bias mutation changes only biases, never that of an INPUT node; every
      changed bias is a re-draw in the initial range or a perturbation
      clamped into [min, max]; a known mutation type never raises. */
  lemma {:induction false} MutateBiasBounds(ns: seq<Node>, s: Stream, k: nat, p: MutationParams, n: nat)
    requires n <= |ns|
    ensures var r := MutateBiasUpTo(ns, s, k, p, n);
      (forall j :: 0 <= j < |ns| ==> r.items[j] == ns[j].(bias := r.items[j].bias)) &&
      (forall j :: 0 <= j < |ns| && ns[j].nodeType == Input ==> r.items[j] == ns[j]) &&
      (forall j :: 0 <= j < |ns| ==>
         r.items[j].bias == ns[j].bias || Within(r.items[j].bias, p.initialMin, p.initialMax)
         || Within(r.items[j].bias, p.min, p.max)) &&
      (KnownType(p) ==> r.ok) &&
      k <= r.position
    decreases n
  {
    if n > 0 {
      MutateBiasBounds(ns, s, k, p, n - 1);
      var prev := MutateBiasUpTo(ns, s, k, p, n - 1);
      if prev.ok {
        MutateValueBranches(prev.items[n - 1].bias, s, prev.position, p);
      }
    }
  }

  lemma {:induction false} MutateBiasFailureSticks(ns: seq<Node>, s: Stream, k: nat, p: MutationParams, m: nat, n: nat)
    requires m <= n <= |ns| && !MutateBiasUpTo(ns, s, k, p, m).ok
    ensures MutateBiasUpTo(ns, s, k, p, n) == MutateBiasUpTo(ns, s, k, p, m)
    decreases n
  {
    if n > m {
      MutateBiasFailureSticks(ns, s, k, p, m, n - 1);
    }
  }

  /** `mutate_bias`: the node list and the generator end as the specification
      says; nothing else of the genome changes. */
  method MutateBias(genome: Genome, rnd: RandomState, config: NeatConfig) returns (outcome: Outcome<ReproductionError>)
    modifies genome, rnd
    ensures MutateBiasSpec(old(genome.nodes), rnd.stream, old(rnd.position), BiasParams(config))
            == Sweep(genome.nodes, rnd.position, outcome.Pass?)
    ensures outcome.Fail? ==> outcome.error == UnknownMutationType
    ensures genome.connections == old(genome.connections) && genome.seed == old(genome.seed)
  {
    var p := BiasParams(config);
    ghost var ns0 := genome.nodes;
    ghost var k0 := rnd.position;
    var i := 0;
    while i < |genome.nodes|
      invariant i <= |ns0| && |genome.nodes| == |ns0|
      invariant MutateBiasUpTo(ns0, rnd.stream, k0, p, i) == Sweep(genome.nodes, rnd.position, true)
      invariant genome.connections == old(genome.connections) && genome.seed == old(genome.seed)
      modifies genome, rnd
    {
      var node := genome.nodes[i];
      if node.nodeType == Input {
        i := i + 1;
        continue;
      }
      var d := DrawMutation(node.bias, rnd, p);
      if !d.ok {
        MutateBiasFailureSticks(ns0, rnd.stream, k0, p, i + 1, |ns0|);
        return Fail(UnknownMutationType);
      }
      genome.nodes := genome.nodes[i := node.(bias := d.value)];
      i := i + 1;
    }
    return Pass;
  }

  /** `set_new_genome_weights` from draw k: connection j gets draw k + j. */
  function InitialWeights(cs: seq<Connection>, s: Stream, k: nat, low: real, high: real): (r: seq<Connection>)
  {
    seq(|cs|, j requires 0 <= j < |cs| => cs[j].(weight := UniformAt(s, k + j, low, high)))
  }

  /** Every initial weight lies in the initial range; nothing but the weights
      changes. */
  lemma InitialWeightsInRange(cs: seq<Connection>, s: Stream, k: nat, low: real, high: real)
    ensures var r := InitialWeights(cs, s, k, low, high);
      |r| == |cs| &&
      (forall j :: 0 <= j < |cs| ==> r[j] == cs[j].(weight := r[j].weight) && Within(r[j].weight, low, high))
  {
  }

  method SetNewGenomeWeights(genome: Genome, rnd: RandomState, config: NeatConfig)
    modifies genome, rnd
    ensures genome.connections == InitialWeights(old(genome.connections), rnd.stream, old(rnd.position),
                                                 config.connectionInitialMinWeight, config.connectionInitialMaxWeight)
    ensures rnd.position == old(rnd.position) + |genome.connections|
    ensures genome.nodes == old(genome.nodes) && genome.seed == old(genome.seed)
  {
    ghost var cs0 := genome.connections;
    ghost var k0 := rnd.position;
    var low, high := config.connectionInitialMinWeight, config.connectionInitialMaxWeight;
    var i := 0;
    while i < |genome.connections|
      invariant i <= |cs0| == |genome.connections| && rnd.position == k0 + i
      invariant forall j :: 0 <= j < i ==> genome.connections[j] == cs0[j].(weight := UniformAt(rnd.stream, k0 + j, low, high))
      invariant forall j :: i <= j < |cs0| ==> genome.connections[j] == cs0[j]
      invariant genome.nodes == old(genome.nodes) && genome.seed == old(genome.seed)
      modifies genome, rnd
    {
      var w := rnd.Uniform(low, high);
      genome.connections := genome.connections[i := genome.connections[i].(weight := w)];
      i := i + 1;
    }
  }

  /** `set_new_genome_bias` from draw k after visiting the first n nodes:
      each non-INPUT node takes the next draw. */
  function InitialBiasUpTo(ns: seq<Node>, s: Stream, k: nat, low: real, high: real, n: nat): (r: Sweep<Node>)
    requires n <= |ns|
    ensures |r.items| == |ns| && r.ok
    ensures forall j :: n <= j < |ns| ==> r.items[j] == ns[j]
    decreases n
  {
    if n == 0 then Sweep(ns, k, true)
    else
      var prev := InitialBiasUpTo(ns, s, k, low, high, n - 1);
      var node := prev.items[n - 1];
      if node.nodeType == Input then prev
      else Sweep(prev.items[n - 1 := node.(bias := UniformAt(s, prev.position, low, high))], prev.position + 1, true)
  }

  /** INPUT nodes keep their bias; every other node's bias lies in the initial
      range; nothing but biases changes. */
  lemma {:induction false} InitialBiasInRange(ns: seq<Node>, s: Stream, k: nat, low: real, high: real, n: nat)
    requires n <= |ns|
    ensures var r := InitialBiasUpTo(ns, s, k, low, high, n);
      (forall j :: 0 <= j < |ns| ==> r.items[j] == ns[j].(bias := r.items[j].bias)) &&
      (forall j :: 0 <= j < |ns| && ns[j].nodeType == Input ==> r.items[j] == ns[j]) &&
      (forall j :: 0 <= j < n && ns[j].nodeType != Input ==> Within(r.items[j].bias, low, high))
    decreases n
  {
    if n > 0 {
      InitialBiasInRange(ns, s, k, low, high, n - 1);
    }
  }

  /** One draw is consumed per non-INPUT node. */
  lemma {:induction false} InitialBiasDraws(ns: seq<Node>, s: Stream, k: nat, low: real, high: real, n: nat)
    requires n <= |ns|
    ensures InitialBiasUpTo(ns, s, k, low, high, n).position == k + |Filter(ns[..n], IsNotInput)|
    decreases n
  {
    if n > 0 {
      InitialBiasDraws(ns, s, k, low, high, n - 1);
      assert DropLast(ns[..n]) == ns[..n - 1];
    }
  }

  method SetNewGenomeBias(genome: Genome, rnd: RandomState, config: NeatConfig)
    modifies genome, rnd
    ensures var r := InitialBiasUpTo(old(genome.nodes), rnd.stream, old(rnd.position),
                                     config.biasInitialMin, config.biasInitialMax, |old(genome.nodes)|);
      genome.nodes == r.items && rnd.position == r.position
    ensures genome.connections == old(genome.connections) && genome.seed == old(genome.seed)
  {
    ghost var ns0 := genome.nodes;
    ghost var k0 := rnd.position;
    var low, high := config.biasInitialMin, config.biasInitialMax;
    var i := 0;
    while i < |genome.nodes|
      invariant i <= |ns0| == |genome.nodes|
      invariant InitialBiasUpTo(ns0, rnd.stream, k0, low, high, i) == Sweep(genome.nodes, rnd.position, true)
      invariant genome.connections == old(genome.connections) && genome.seed == old(genome.seed)
      modifies genome, rnd
    {
      var node := genome.nodes[i];
      if node.nodeType != Input {
        var b := rnd.Uniform(low, high);
        genome.nodes := genome.nodes[i := node.(bias := b)];
      }
      i := i + 1;
    }
  }
}
