/** `generation_service`: the first generation of a run. A fully connected
    genome of input and output nodes is built with numbers from the
    innovation number generator (or a supplied genome is renumbered through
    it), and the population is made of copies of it, each with its own seed
    and freshly drawn weights and biases, all in one species. */
module GenerationService {
  import opened Wrappers
  import opened Model
  import opened Random
  import opened Collections
  import opened Reproduction
  import opened InnovationNumbers

  /** `count` INPUT nodes at x-position 0 with bias 0, numbered from `first`. */
  function InputNodes(first: int, count: nat, activation: Activation): (r: seq<Node>)
    ensures |r| == count
    ensures forall i :: 0 <= i < count ==> r[i] == Node(first + i, Input, 0.0, activation, 0.0)
  {
    seq(count, i => Node(first + i, Input, 0.0, activation, 0.0))
  }

  /** `count` OUTPUT nodes at x-position 1 with bias 0, numbered from `first`. */
  function OutputNodes(first: int, count: nat, activation: Activation): (r: seq<Node>)
    ensures |r| == count
    ensures forall i :: 0 <= i < count ==> r[i] == Node(first + i, Output, 0.0, activation, 1.0)
  {
    seq(count, i => Node(first + i, Output, 0.0, activation, 1.0))
  }

  /** The connections of one input node to every output node, numbered from
      `first`: enabled, with weight 0. */
  function Row(input: Node, outputs: seq<Node>, first: int): seq<Connection>
  {
    seq(|outputs|, j requires 0 <= j < |outputs| =>
      Connection(first + j, input.innovationNumber, outputs[j].innovationNumber, 0.0, true))
  }

  /** The nested loop of `create_genome_structure`: input-major, one row per
      input node, numbered on from `first`. */
  function FullyConnected(inputs: seq<Node>, outputs: seq<Node>, first: int): seq<Connection>
  {
    if inputs == [] then []
    else FullyConnected(DropLast(inputs), outputs, first)
         + Row(Last(inputs), outputs, first + (|inputs| - 1) * |outputs|)
  }

  /** The place of the connection from input i to output j. */
  function Flat(i: int, j: int, width: int): int
  {
    i * width + j
  }

  lemma {:induction false} FullyConnectedSize(inputs: seq<Node>, outputs: seq<Node>, first: int)
    ensures |FullyConnected(inputs, outputs, first)| == |inputs| * |outputs|
  {
    if inputs != [] {
      FullyConnectedSize(DropLast(inputs), outputs, first);
      assert (|inputs| - 1) * |outputs| + |outputs| == |inputs| * |outputs|;
    }
  }

  /** The place of input i's connection to output j lies within the first
      n rows when i does. */
  lemma FlatBelow(i: int, j: int, w: int, n: int)
    requires 0 <= i < n && 0 <= j < w
    ensures 0 <= Flat(i, j, w) < n * w
  {
    assert i * w + j < i * w + w == (i + 1) * w;
    assert (i + 1) * w <= n * w;
  }

  /** The connections are numbered consecutively from `first`. */
  lemma {:induction false} FullyConnectedNumbers(inputs: seq<Node>, outputs: seq<Node>, first: int)
    ensures var r := FullyConnected(inputs, outputs, first);
      forall k :: 0 <= k < |r| ==> r[k].innovationNumber == first + k
  {
    if inputs != [] {
      var init := DropLast(inputs);
      FullyConnectedNumbers(init, outputs, first);
      FullyConnectedSize(init, outputs, first);
    }
  }

  /** There are |inputs| * |outputs| connections; the one at place
      i * |outputs| + j links input i to output j, is enabled and has
      weight 0. */
  lemma {:induction false} FullyConnectedLinks(inputs: seq<Node>, outputs: seq<Node>, first: int)
    ensures var r := FullyConnected(inputs, outputs, first);
      |r| == |inputs| * |outputs| &&
      (forall i, j :: 0 <= i < |inputs| && 0 <= j < |outputs| ==>
         0 <= Flat(i, j, |outputs|) < |r| &&
         r[Flat(i, j, |outputs|)]
         == Connection(first + Flat(i, j, |outputs|), inputs[i].innovationNumber, outputs[j].innovationNumber, 0.0, true))
  {
    FullyConnectedSize(inputs, outputs, first);
    if inputs != [] {
      var init := DropLast(inputs);
      var w := |outputs|;
      FullyConnectedLinks(init, outputs, first);
      FullyConnectedSize(init, outputs, first);
      var before := FullyConnected(init, outputs, first);
      var row := Row(Last(inputs), outputs, first + |init| * w);
      var r := before + row;
      forall i, j | 0 <= i < |inputs| && 0 <= j < w
        ensures 0 <= Flat(i, j, w) < |r|
        ensures r[Flat(i, j, w)]
                == Connection(first + Flat(i, j, w), inputs[i].innovationNumber, outputs[j].innovationNumber, 0.0, true)
      {
        FlatBelow(i, j, w, |inputs|);
        if i < |init| {
          FlatBelow(i, j, w, |init|);
          assert init[i] == inputs[i];
          assert r[Flat(i, j, w)] == before[Flat(i, j, w)];
        } else {
          assert r[Flat(i, j, w)] == row[j];
        }
      }
    }
  }

  /** `create_genome_structure`: the input nodes take the next node
      numbers, then the output nodes, then every input is linked to every
      output with the next connection numbers. The generator's memo lists
      are untouched. */
  method CreateGenomeStructure(amountInputNodes: nat, amountOutputNodes: nat, activation: Activation,
                               config: NeatConfig, generator: InnovationNumberGenerator)
    returns (genome: Genome)
    requires generator.Valid()
    modifies generator
    ensures generator.Valid() && fresh(genome)
    ensures var inputs := InputNodes(old(generator.nodeCounter), amountInputNodes, activation);
      var outputs := OutputNodes(old(generator.nodeCounter) + amountInputNodes, amountOutputNodes, activation);
      genome.seed == None && genome.nodes == inputs + outputs
      && genome.connections == FullyConnected(inputs, outputs, old(generator.connectionCounter))
    ensures generator.NodeTable()
            == Table(old(generator.nodeCounter) + amountInputNodes + amountOutputNodes, old(generator.nodeInnovations))
    ensures generator.ConnectionTable()
            == Table(old(generator.connectionCounter) + amountInputNodes * amountOutputNodes,
                     old(generator.connectionInnovations))
  {
    var inputs := NumberedNodes(amountInputNodes, Input, activation, 0.0, generator);
    assert inputs == InputNodes(old(generator.nodeCounter), amountInputNodes, activation);
    var outputs := NumberedNodes(amountOutputNodes, Output, activation, 1.0, generator);
    assert outputs == OutputNodes(old(generator.nodeCounter) + amountInputNodes, amountOutputNodes, activation);
    var connections := ConnectAll(inputs, outputs, generator);
    genome := new Genome(None, inputs + outputs, connections);
  }

  /** `count` nodes of one type, x-position and bias 0, numbered from `first`. */
  function Numbered(first: int, count: nat, nodeType: NodeType, activation: Activation, x: real): seq<Node>
  {
    seq(count, i => Node(first + i, nodeType, 0.0, activation, x))
  }

  /** The list comprehension that makes `count` nodes of one type, each
      taking the next node number. */
  method NumberedNodes(count: nat, nodeType: NodeType, activation: Activation, x: real,
                       generator: InnovationNumberGenerator)
    returns (nodes: seq<Node>)
    requires generator.Valid()
    modifies generator
    ensures generator.Valid()
    ensures nodes == Numbered(old(generator.nodeCounter), count, nodeType, activation, x)
    ensures generator.NodeTable() == Table(old(generator.nodeCounter) + count, old(generator.nodeInnovations))
    ensures generator.ConnectionTable() == old(generator.ConnectionTable())
  {
    ghost var c0 := generator.nodeCounter;
    nodes := [];
    for i := 0 to count
      invariant generator.Valid()
      invariant nodes == Numbered(c0, i, nodeType, activation, x)
      invariant generator.NodeTable() == Table(c0 + i, old(generator.nodeInnovations))
      invariant generator.ConnectionTable() == old(generator.ConnectionTable())
    {
      var number := generator.GetNodeInnovationNumber(None, None);
      nodes := nodes + [Node(number, nodeType, 0.0, activation, x)];
    }
  }

  /** The nested loop of `create_genome_structure`. */
  method ConnectAll(inputs: seq<Node>, outputs: seq<Node>, generator: InnovationNumberGenerator)
    returns (connections: seq<Connection>)
    requires generator.Valid()
    modifies generator
    ensures generator.Valid()
    ensures connections == FullyConnected(inputs, outputs, old(generator.connectionCounter))
    ensures generator.ConnectionTable()
            == Table(old(generator.connectionCounter) + |inputs| * |outputs|, old(generator.connectionInnovations))
    ensures generator.NodeTable() == old(generator.NodeTable())
  {
    ghost var c0 := generator.connectionCounter;
    connections := [];
    for i := 0 to |inputs|
      invariant generator.Valid()
      invariant connections == FullyConnected(inputs[..i], outputs, c0)
      invariant generator.ConnectionTable() == Table(c0 + i * |outputs|, old(generator.connectionInnovations))
      invariant generator.NodeTable() == old(generator.NodeTable())
    {
      FullyConnectedSize(inputs[..i], outputs, c0);
      var row := ConnectRow(inputs[i], outputs, generator);
      assert DropLast(inputs[..i + 1]) == inputs[..i];
      connections := connections + row;
      assert (i + 1) * |outputs| == i * |outputs| + |outputs|;
    }
    assert inputs[..|inputs|] == inputs;
  }

  /** The inner loop: one input node linked to every output node. */
  method ConnectRow(input: Node, outputs: seq<Node>, generator: InnovationNumberGenerator)
    returns (row: seq<Connection>)
    requires generator.Valid()
    modifies generator
    ensures generator.Valid()
    ensures row == Row(input, outputs, old(generator.connectionCounter))
    ensures generator.ConnectionTable()
            == Table(old(generator.connectionCounter) + |outputs|, old(generator.connectionInnovations))
    ensures generator.NodeTable() == old(generator.NodeTable())
  {
    ghost var c0 := generator.connectionCounter;
    row := [];
    for j := 0 to |outputs|
      invariant generator.Valid()
      invariant row == Row(input, outputs[..j], c0)
      invariant generator.ConnectionTable() == Table(c0 + j, old(generator.connectionInnovations))
      invariant generator.NodeTable() == old(generator.NodeTable())
    {
      var number := generator.GetConnectionInnovationNumber(None, None);
      row := row + [Connection(number, input.innovationNumber, outputs[j].innovationNumber, 0.0, true)];
    }
    assert outputs[..|outputs|] == outputs;
  }

  /** The node sequence as `create_genome_structure` lays it out with a
      fresh generator: the input and output nodes are numbered 0, 1, ... in
      order, inputs at x-position 0 and outputs at 1, and the connections
      are numbered 0, 1, ... as well. */
  lemma StructureNumberedFromZero(amountInputNodes: nat, amountOutputNodes: nat, activation: Activation)
    ensures var nodes := InputNodes(0, amountInputNodes, activation)
                         + OutputNodes(amountInputNodes, amountOutputNodes, activation);
      var connections := FullyConnected(InputNodes(0, amountInputNodes, activation),
                                        OutputNodes(amountInputNodes, amountOutputNodes, activation), 0);
      |nodes| == amountInputNodes + amountOutputNodes
      && |connections| == amountInputNodes * amountOutputNodes
      && (forall i :: 0 <= i < |nodes| ==>
            nodes[i].innovationNumber == i && nodes[i].activationFunction == activation
            && (i < amountInputNodes ==> nodes[i].nodeType == Input && nodes[i].xPosition == 0.0)
            && (amountInputNodes <= i ==> nodes[i].nodeType == Output && nodes[i].xPosition == 1.0))
      && (forall k :: 0 <= k < |connections| ==> connections[k].innovationNumber == k)
  {
    var inputs := InputNodes(0, amountInputNodes, activation);
    var outputs := OutputNodes(amountInputNodes, amountOutputNodes, activation);
    FullyConnectedSize(inputs, outputs, 0);
    FullyConnectedNumbers(inputs, outputs, 0);
  }

  // ----- random weights and biases for a copy of the genome -----

  /** The nodes after `set_new_genome_bias` from draw k. */
  function RandomizedNodes(ns: seq<Node>, s: Stream, k: nat, config: NeatConfig): seq<Node>
  {
    InitialBiasUpTo(ns, s, k, config.biasInitialMin, config.biasInitialMax, |ns|).items
  }

  /** The connections after `set_new_genome_weights`, which draws after the
      biases have taken theirs. */
  function RandomizedConnections(ns: seq<Node>, cs: seq<Connection>, s: Stream, k: nat, config: NeatConfig): seq<Connection>
  {
    var biasDrawn := InitialBiasUpTo(ns, s, k, config.biasInitialMin, config.biasInitialMax, |ns|).position;
    InitialWeights(cs, s, biasDrawn, config.connectionInitialMinWeight, config.connectionInitialMaxWeight)
  }

  /** Randomizing changes only values: the node and connection lists keep
      their length, every node keeps its number, type, activation and
      position, INPUT nodes keep their bias and every other node's bias lies
      in the initial bias range, and every connection keeps its number,
      endpoints and enabled flag with a weight in the initial weight range. */
  lemma RandomizedShape(ns: seq<Node>, cs: seq<Connection>, s: Stream, k: nat, config: NeatConfig)
    ensures var rn := RandomizedNodes(ns, s, k, config);
      |rn| == |ns|
      && (forall i :: 0 <= i < |ns| ==> rn[i] == ns[i].(bias := rn[i].bias))
      && (forall i :: 0 <= i < |ns| && ns[i].nodeType == Input ==> rn[i] == ns[i])
      && (forall i :: 0 <= i < |ns| && ns[i].nodeType != Input ==>
            Within(rn[i].bias, config.biasInitialMin, config.biasInitialMax))
    ensures var rc := RandomizedConnections(ns, cs, s, k, config);
      |rc| == |cs|
      && (forall j :: 0 <= j < |cs| ==>
            rc[j] == cs[j].(weight := rc[j].weight)
            && Within(rc[j].weight, config.connectionInitialMinWeight, config.connectionInitialMaxWeight))
  {
    InitialBiasInRange(ns, s, k, config.biasInitialMin, config.biasInitialMax, |ns|);
    var biasDrawn := InitialBiasUpTo(ns, s, k, config.biasInitialMin, config.biasInitialMax, |ns|).position;
    InitialWeightsInRange(cs, s, biasDrawn, config.connectionInitialMinWeight, config.connectionInitialMaxWeight);
  }

  /** `_randomize_weight_bias`: the biases are drawn first, then the weights,
      from the same generator. */
  method RandomizeWeightBias(genome: Genome, rnd: RandomState, config: NeatConfig)
    modifies genome, rnd
    ensures genome.nodes == RandomizedNodes(old(genome.nodes), rnd.stream, old(rnd.position), config)
    ensures genome.connections
            == RandomizedConnections(old(genome.nodes), old(genome.connections), rnd.stream, old(rnd.position), config)
    ensures rnd.position == old(rnd.position) + |Filter(old(genome.nodes), IsNotInput)| + |old(genome.connections)|
    ensures genome.seed == old(genome.seed)
  {
    ghost var ns := genome.nodes;
    SetNewGenomeBias(genome, rnd, config);
    InitialBiasDraws(ns, rnd.stream, old(rnd.position), config.biasInitialMin, config.biasInitialMax, |ns|);
    assert ns[..|ns|] == ns;
    SetNewGenomeWeights(genome, rnd, config);
  }

  // ----- the population -----

  /** `2 ** 24`, the bound of the per-genome seeds. */
  const SeedBound := 16777216

  /** The seed of the j-th genome, drawn from the generation's generator
      starting at draw k. */
  function PopulationSeed(s: Stream, k: nat, j: nat): nat
  {
    RandIntAt(s, k + j, SeedBound)
  }

  /** What the loop of `_build_generation_from_genome` errs with. */
  datatype GenerationError =
    | EmptyPopulation                      // `genomes[0]` of an empty list: IndexError
    | MissingNode(connection: nat, node: int)  // a connection endpoint that is no node: KeyError

  /** `g` is a copy of the template, randomized from a generator seeded with
      `seed`, carrying that seed. */
  ghost predicate RandomizedCopy(g: Genome, nodes: seq<Node>, connections: seq<Connection>,
                                 seed: nat, seeding: Seeding, config: NeatConfig)
    reads g
  {
    g.seed == Some(seed)
    && g.nodes == RandomizedNodes(nodes, seeding(seed), 0, config)
    && g.connections == RandomizedConnections(nodes, connections, seeding(seed), 0, config)
  }

  /** The generation built from a template: number 0, `population_size`
      agents with fitness 0, the j-th holding its own genome randomized from
      the j-th seed drawn from `s` at draw k, and one species without an id
      whose representative is the first genome and whose members are all
      the agents. */
  ghost predicate PopulationOf(g: Generation, nodes: seq<Node>, connections: seq<Connection>,
                               s: Stream, k: nat, seeding: Seeding, config: NeatConfig)
    reads set j | 0 <= j < |g.agents| :: g.agents[j].genome
  {
    g.number == 0 && |g.agents| == config.populationSize && 0 < |g.agents|
    && g.speciesList == [Species(None, g.agents[0].genome, g.agents)]
    && (forall j :: 0 <= j < |g.agents| ==>
          g.agents[j].fitness == 0.0 && g.agents[j].adjustedFitness == 0.0
          && RandomizedCopy(g.agents[j].genome, nodes, connections, PopulationSeed(s, k, j), seeding, config))
    && (forall a, b :: 0 <= a < b < |g.agents| ==> g.agents[a].genome != g.agents[b].genome)
  }

  /** Every seed is below 2 ** 24, and every genome of the population has
      the template's topology and numbers, with biases (except on INPUT
      nodes) and weights in their initial ranges. */
  lemma PopulationShape(g: Generation, nodes: seq<Node>, connections: seq<Connection>,
                        s: Stream, k: nat, seeding: Seeding, config: NeatConfig, j: int)
    requires PopulationOf(g, nodes, connections, s, k, seeding, config)
    requires 0 <= j < |g.agents|
    ensures var genome := g.agents[j].genome;
      genome.seed.Some? && genome.seed.value < SeedBound
      && |genome.nodes| == |nodes| && |genome.connections| == |connections|
      && (forall i :: 0 <= i < |nodes| ==>
            genome.nodes[i] == nodes[i].(bias := genome.nodes[i].bias)
            && (nodes[i].nodeType == Input ==> genome.nodes[i].bias == nodes[i].bias)
            && (nodes[i].nodeType != Input ==>
                  Within(genome.nodes[i].bias, config.biasInitialMin, config.biasInitialMax)))
      && (forall i :: 0 <= i < |connections| ==>
            genome.connections[i] == connections[i].(weight := genome.connections[i].weight)
            && Within(genome.connections[i].weight, config.connectionInitialMinWeight, config.connectionInitialMaxWeight))
  {
    var seed := PopulationSeed(s, k, j);
    assert RandomizedCopy(g.agents[j].genome, nodes, connections, seed, seeding, config);
    RandomizedShape(nodes, connections, seeding(seed), 0, config);
  }

  /** `_build_generation_from_genome`: `population_size` seeds are drawn from
      `rnd`; each seeds a new generator that randomizes its own deep copy of
      the template. The species is built from `genomes[0]`, so an empty
      population fails there. */
  method BuildGenerationFromGenome(initial: Genome, rnd: RandomState, seeding: Seeding, config: NeatConfig)
    returns (r: Result<Generation, GenerationError>)
    modifies rnd
    ensures rnd.position == old(rnd.position) + (if config.populationSize > 0 then config.populationSize else 0)
    ensures r.Err? <==> config.populationSize <= 0
    ensures r.Err? ==> r.error == EmptyPopulation
    ensures r.Ok? ==>
      PopulationOf(r.value, initial.nodes, initial.connections, rnd.stream, old(rnd.position), seeding, config)
      && forall j :: 0 <= j < |r.value.agents| ==> fresh(r.value.agents[j].genome)
  {
    var count: nat := if config.populationSize > 0 then config.populationSize else 0;
    var genomes := CopyPopulation(initial, rnd, seeding, config, count);
    var agents := seq(|genomes|, j requires 0 <= j < |genomes| => Agent(genomes[j], 0.0, 0.0));
    if |genomes| == 0 {
      return Err(EmptyPopulation);
    }
    var species := Species(None, genomes[0], agents);
    r := Ok(Generation(0, agents, [species]));
  }

  /** The loop of `_build_generation_from_genome`. */
  method CopyPopulation(initial: Genome, rnd: RandomState, seeding: Seeding, config: NeatConfig, count: nat)
    returns (genomes: seq<Genome>)
    modifies rnd
    ensures |genomes| == count && rnd.position == old(rnd.position) + count
    ensures forall j :: 0 <= j < count ==>
      fresh(genomes[j])
      && RandomizedCopy(genomes[j], initial.nodes, initial.connections, PopulationSeed(rnd.stream, old(rnd.position), j),
                        seeding, config)
    ensures forall a, b :: 0 <= a < b < count ==> genomes[a] != genomes[b]
  {
    ghost var k0 := rnd.position;
    genomes := [];
    for i := 0 to count
      invariant |genomes| == i && rnd.position == k0 + i
      invariant forall j :: 0 <= j < i ==>
        fresh(genomes[j])
        && RandomizedCopy(genomes[j], initial.nodes, initial.connections, PopulationSeed(rnd.stream, k0, j), seeding, config)
      invariant forall a, b :: 0 <= a < b < i ==> genomes[a] != genomes[b]
    {
      var copy := RandomizedGenome(initial, rnd, seeding, config);
      genomes := genomes + [copy];
    }
  }

  /** One pass of that loop: draw a seed, deep-copy the template, randomize
      the copy from a generator with that seed and stamp the seed on it. */
  method RandomizedGenome(initial: Genome, rnd: RandomState, seeding: Seeding, config: NeatConfig)
    returns (copy: Genome)
    modifies rnd
    ensures fresh(copy) && rnd.position == old(rnd.position) + 1
    ensures RandomizedCopy(copy, initial.nodes, initial.connections, RandIntAt(rnd.stream, old(rnd.position), SeedBound),
                           seeding, config)
  {
    var seed := rnd.RandInt(SeedBound);
    var genomeRnd := new RandomState(seeding(seed));
    copy := DeepCopyGenome(initial);
    RandomizeWeightBias(copy, genomeRnd, config);
    copy.seed := Some(seed);
  }

  // ----- the entry points -----

  /** The generator `RandomState(seed)`: seeded when a seed is given,
      otherwise drawing from the operating system's entropy. */
  function SeedStream(seed: Option<int>, seeding: Seeding, entropy: Stream): Stream
  {
    if seed.Some? then seeding(seed.value) else entropy
  }

  /** `create_initial_generation`: a fully connected structure numbered by
      the generator, copied `population_size` times with seeds drawn from
      `RandomState(seed)`. */
  method CreateInitialGeneration(amountInputNodes: nat, amountOutputNodes: nat, activation: Activation,
                                 generator: InnovationNumberGenerator, config: NeatConfig,
                                 seed: Option<int>, seeding: Seeding, entropy: Stream)
    returns (r: Result<Generation, GenerationError>)
    requires generator.Valid()
    modifies generator
    ensures generator.Valid()
    ensures generator.NodeTable()
            == Table(old(generator.nodeCounter) + amountInputNodes + amountOutputNodes, old(generator.nodeInnovations))
    ensures generator.ConnectionTable()
            == Table(old(generator.connectionCounter) + amountInputNodes * amountOutputNodes,
                     old(generator.connectionInnovations))
    ensures r.Err? <==> config.populationSize <= 0
    ensures r.Err? ==> r.error == EmptyPopulation
    ensures var inputs := InputNodes(old(generator.nodeCounter), amountInputNodes, activation);
      var outputs := OutputNodes(old(generator.nodeCounter) + amountInputNodes, amountOutputNodes, activation);
      r.Ok? ==>
        PopulationOf(r.value, inputs + outputs, FullyConnected(inputs, outputs, old(generator.connectionCounter)),
                     SeedStream(seed, seeding, entropy), 0, seeding, config)
        && forall j :: 0 <= j < |r.value.agents| ==> fresh(r.value.agents[j].genome)
  {
    ghost var inputs := InputNodes(generator.nodeCounter, amountInputNodes, activation);
    ghost var outputs := OutputNodes(generator.nodeCounter + amountInputNodes, amountOutputNodes, activation);
    ghost var connections := FullyConnected(inputs, outputs, generator.connectionCounter);
    var rnd := new RandomState(SeedStream(seed, seeding, entropy));
    var structure := CreateGenomeStructure(amountInputNodes, amountOutputNodes, activation, config, generator);
    assert structure.nodes == inputs + outputs && structure.connections == connections;
    r := BuildGenerationFromGenome(structure, rnd, seeding, config);
  }

  /** Two populations built from the same template and the same draws
      agree genome by genome: the build is deterministic. */
  lemma PopulationDeterministic(g1: Generation, g2: Generation, nodes: seq<Node>, connections: seq<Connection>,
                                s: Stream, k: nat, seeding: Seeding, config: NeatConfig)
    requires PopulationOf(g1, nodes, connections, s, k, seeding, config)
    requires PopulationOf(g2, nodes, connections, s, k, seeding, config)
    ensures g1.number == g2.number == 0 && |g1.agents| == |g2.agents|
    ensures SameGenomes(g1, g2)
  {
    forall j | 0 <= j < |g1.agents|
      ensures g1.agents[j].genome.seed == g2.agents[j].genome.seed
      ensures g1.agents[j].genome.nodes == g2.agents[j].genome.nodes
      ensures g1.agents[j].genome.connections == g2.agents[j].genome.connections
    {
      assert RandomizedCopy(g1.agents[j].genome, nodes, connections, PopulationSeed(s, k, j), seeding, config);
      assert RandomizedCopy(g2.agents[j].genome, nodes, connections, PopulationSeed(s, k, j), seeding, config);
    }
  }

  /** The j-th genomes of two generations carry the same seed, nodes and
      connections. */
  ghost predicate SameGenomes(g1: Generation, g2: Generation)
    reads set j | 0 <= j < |g1.agents| :: g1.agents[j].genome
    reads set j | 0 <= j < |g2.agents| :: g2.agents[j].genome
  {
    |g1.agents| == |g2.agents|
    && forall j :: 0 <= j < |g1.agents| ==>
         g1.agents[j].genome.seed == g2.agents[j].genome.seed
         && g1.agents[j].genome.nodes == g2.agents[j].genome.nodes
         && g1.agents[j].genome.connections == g2.agents[j].genome.connections
  }

  /** Every genome of the generation numbers its nodes and its connections
      0, 1, ... in list order. */
  ghost predicate NumberedFromZero(g: Generation)
    reads set j | 0 <= j < |g.agents| :: g.agents[j].genome
  {
    forall j :: 0 <= j < |g.agents| ==>
      (forall i :: 0 <= i < |g.agents[j].genome.nodes| ==> g.agents[j].genome.nodes[i].innovationNumber == i)
      && (forall i :: 0 <= i < |g.agents[j].genome.connections| ==>
            g.agents[j].genome.connections[i].innovationNumber == i)
  }

  /** A population copied from the structure a fresh generator numbers keeps
      that numbering in every genome. */
  lemma PopulationNumberedFromZero(g: Generation, amountInputNodes: nat, amountOutputNodes: nat,
                                   activation: Activation, s: Stream, k: nat, seeding: Seeding, config: NeatConfig)
    requires var inputs := InputNodes(0, amountInputNodes, activation);
      var outputs := OutputNodes(amountInputNodes, amountOutputNodes, activation);
      PopulationOf(g, inputs + outputs, FullyConnected(inputs, outputs, 0), s, k, seeding, config)
    ensures NumberedFromZero(g)
  {
    var inputs := InputNodes(0, amountInputNodes, activation);
    var outputs := OutputNodes(amountInputNodes, amountOutputNodes, activation);
    StructureNumberedFromZero(amountInputNodes, amountOutputNodes, activation);
    forall j | 0 <= j < |g.agents|
      ensures (forall i :: 0 <= i < |g.agents[j].genome.nodes| ==> g.agents[j].genome.nodes[i].innovationNumber == i)
      ensures (forall i :: 0 <= i < |g.agents[j].genome.connections| ==>
                 g.agents[j].genome.connections[i].innovationNumber == i)
    {
      PopulationShape(g, inputs + outputs, FullyConnected(inputs, outputs, 0), s, k, seeding, config, j);
    }
  }

  /** `create_initial_generation` with a fresh generator and a seed: the
      structure is numbered from 0 and the seeds come from `RandomState(seed)`
      alone. */
  method InitialGenerationFromSeed(amountInputNodes: nat, amountOutputNodes: nat, activation: Activation,
                                   config: NeatConfig, seed: int, seeding: Seeding, entropy: Stream)
    returns (r: Result<Generation, GenerationError>)
    ensures r.Err? <==> config.populationSize <= 0
    ensures var inputs := InputNodes(0, amountInputNodes, activation);
      var outputs := OutputNodes(amountInputNodes, amountOutputNodes, activation);
      r.Ok? ==> PopulationOf(r.value, inputs + outputs, FullyConnected(inputs, outputs, 0), seeding(seed), 0,
                             seeding, config)
  {
    var generator := new InnovationNumberGenerator();
    r := CreateInitialGeneration(amountInputNodes, amountOutputNodes, activation, generator, config,
                                 Some(seed), seeding, entropy);
  }

  /** Two initial generations built with fresh generators and the same seed
      agree genome by genome, whatever the entropy, and number nodes and
      connections from 0 in list order. */
  method SameSeedSameGeneration(amountInputNodes: nat, amountOutputNodes: nat, activation: Activation,
                                config: NeatConfig, seed: int, seeding: Seeding, entropy1: Stream, entropy2: Stream)
    returns (r1: Result<Generation, GenerationError>, r2: Result<Generation, GenerationError>)
    ensures r1.Ok? <==> r2.Ok?
    ensures r1.Ok? && r2.Ok? ==>
      r1.value.number == 0 && r2.value.number == 0 && SameGenomes(r1.value, r2.value)
      && NumberedFromZero(r1.value)
  {
    r1 := InitialGenerationFromSeed(amountInputNodes, amountOutputNodes, activation, config, seed, seeding, entropy1);
    r2 := InitialGenerationFromSeed(amountInputNodes, amountOutputNodes, activation, config, seed, seeding, entropy2);
    if r1.Ok? && r2.Ok? {
      var inputs := InputNodes(0, amountInputNodes, activation);
      var outputs := OutputNodes(amountInputNodes, amountOutputNodes, activation);
      PopulationDeterministic(r1.value, r2.value, inputs + outputs, FullyConnected(inputs, outputs, 0),
                              seeding(seed), 0, seeding, config);
      PopulationNumberedFromZero(r1.value, amountInputNodes, amountOutputNodes, activation, seeding(seed), 0,
                                 seeding, config);
    }
  }

  /** The nodes renumbered consecutively from `first`, in order. */
  function Renumbered(ns: seq<Node>, first: int): seq<Node>
  {
    seq(|ns|, i requires 0 <= i < |ns| => ns[i].(innovationNumber := first + i))
  }

  /** `tmp_node_key`: each old node number mapped to the new number of the
      node carrying it; a later node with the same number overwrites an
      earlier one. */
  function Renaming(ns: seq<Node>, first: int): map<int, int>
  {
    if ns == [] then map[]
    else Renaming(DropLast(ns), first)[Last(ns).innovationNumber := first + |ns| - 1]
  }

  /** The renaming is defined exactly on the old node numbers. */
  lemma {:induction false} RenamingKeys(ns: seq<Node>, first: int)
    ensures forall k :: k in Renaming(ns, first) <==> exists i :: 0 <= i < |ns| && ns[i].innovationNumber == k
  {
    if ns != [] {
      var init := DropLast(ns);
      RenamingKeys(init, first);
      assert forall i :: 0 <= i < |init| ==> init[i] == ns[i];
      forall k | exists i :: 0 <= i < |ns| && ns[i].innovationNumber == k
        ensures k in Renaming(ns, first)
      {
        var i :| 0 <= i < |ns| && ns[i].innovationNumber == k;
        if i < |init| {
          assert init[i].innovationNumber == k;
        }
      }
    }
  }

  /** A node number carried by no later node is renamed to that node's new
      number. */
  lemma {:induction false} RenamingFindsLast(ns: seq<Node>, first: int, i: int)
    requires 0 <= i < |ns|
    requires forall j :: i < j < |ns| ==> ns[j].innovationNumber != ns[i].innovationNumber
    ensures ns[i].innovationNumber in Renaming(ns, first)
    ensures Renaming(ns, first)[ns[i].innovationNumber] == first + i
  {
    if i < |ns| - 1 {
      var init := DropLast(ns);
      assert forall j :: i < j < |init| ==> init[j] == ns[j];
      RenamingFindsLast(init, first, i);
    }
  }

  /** With distinct node numbers, node i's old number is renamed to the new
      number of node i. */
  lemma RenamingOfDistinct(ns: seq<Node>, first: int, i: int)
    requires forall a, b :: 0 <= a < b < |ns| ==> ns[a].innovationNumber != ns[b].innovationNumber
    requires 0 <= i < |ns|
    ensures ns[i].innovationNumber in Renaming(ns, first)
    ensures Renaming(ns, first)[ns[i].innovationNumber] == Renumbered(ns, first)[i].innovationNumber
  {
    RenamingFindsLast(ns, first, i);
  }

  /** The connection loop of `create_initial_generation_genome`: connection
      j takes number `first + j` and its endpoints are renamed; the first
      endpoint the renaming misses raises, input before output. */
  function Remap(cs: seq<Connection>, rename: map<int, int>, first: int): Result<seq<Connection>, GenerationError>
  {
    if cs == [] then Ok([])
    else
      match Remap(DropLast(cs), rename, first)
      case Err(e) => Err(e)
      case Ok(done) =>
        var c := Last(cs);
        if c.inputNode !in rename then Err(MissingNode(|cs| - 1, c.inputNode))
        else if c.outputNode !in rename then Err(MissingNode(|cs| - 1, c.outputNode))
        else Ok(done + [c.(innovationNumber := first + |cs| - 1,
                           inputNode := rename[c.inputNode], outputNode := rename[c.outputNode])])
  }

  /** Connections the remapping numbers before it stops: all of them, or
      those up to and including the one that raised. */
  function Consumed(cs: seq<Connection>, rename: map<int, int>, first: int): nat
  {
    var m := Remap(cs, rename, first);
    if m.Ok? then |cs| else if m.error.MissingNode? then m.error.connection + 1 else 0
  }

  /** The remapping succeeds exactly when every endpoint is renamed; then
      connection j keeps everything but takes number `first + j` and the
      renamed endpoints. When it fails, it names the first connection with
      a missing endpoint and that endpoint. */
  lemma {:induction false} RemapMeaning(cs: seq<Connection>, rename: map<int, int>, first: int)
    ensures var m := Remap(cs, rename, first);
      (m.Ok? <==> forall j :: 0 <= j < |cs| ==> cs[j].inputNode in rename && cs[j].outputNode in rename)
      && (m.Ok? ==> |m.value| == |cs| && forall j :: 0 <= j < |cs| ==>
            m.value[j] == cs[j].(innovationNumber := first + j, inputNode := rename[cs[j].inputNode],
                                 outputNode := rename[cs[j].outputNode]))
      && (m.Err? ==>
            m.error.MissingNode? && m.error.connection < |cs|
            && (forall j :: 0 <= j < m.error.connection ==> cs[j].inputNode in rename && cs[j].outputNode in rename)
            && (var c := cs[m.error.connection];
                if c.inputNode !in rename then m.error.node == c.inputNode
                else c.outputNode !in rename && m.error.node == c.outputNode))
  {
    if cs != [] {
      var init := DropLast(cs);
      RemapMeaning(init, rename, first);
      assert forall j :: 0 <= j < |init| ==> init[j] == cs[j];
    }
  }

  /** Once the remapping of a prefix fails, so does the whole, the same way. */
  lemma {:induction false} RemapFailureSticks(cs: seq<Connection>, rename: map<int, int>, first: int, n: nat)
    requires n <= |cs| && Remap(cs[..n], rename, first).Err?
    ensures Remap(cs, rename, first) == Remap(cs[..n], rename, first)
    decreases |cs|
  {
    if n < |cs| {
      assert DropLast(cs)[..n] == cs[..n];
      RemapFailureSticks(DropLast(cs), rename, first, n);
    } else {
      assert cs[..n] == cs;
    }
  }

  /** With distinct node numbers the renumbered genome has the old shape:
      a connection between nodes a and b of the old list links nodes a and
      b of the new one. */
  lemma RenumberingKeepsShape(ns: seq<Node>, cs: seq<Connection>, nodeFirst: int, connectionFirst: int, j: int, a: int, b: int)
    requires forall x, y :: 0 <= x < y < |ns| ==> ns[x].innovationNumber != ns[y].innovationNumber
    requires 0 <= j < |cs| && 0 <= a < |ns| && 0 <= b < |ns|
    requires cs[j].inputNode == ns[a].innovationNumber && cs[j].outputNode == ns[b].innovationNumber
    requires Remap(cs, Renaming(ns, nodeFirst), connectionFirst).Ok?
    ensures var m := Remap(cs, Renaming(ns, nodeFirst), connectionFirst).value;
      var renumbered := Renumbered(ns, nodeFirst);
      j < |m| && m[j].inputNode == renumbered[a].innovationNumber && m[j].outputNode == renumbered[b].innovationNumber
  {
    RemapMeaning(cs, Renaming(ns, nodeFirst), connectionFirst);
    RenamingOfDistinct(ns, nodeFirst, a);
    RenamingOfDistinct(ns, nodeFirst, b);
  }

  /** `create_initial_generation_genome`: the genome's nodes and then its
      connections take new numbers from the generator, the connections'
      endpoints are renamed accordingly, and the population is built from
      the renumbered copy with seeds drawn from `RandomState(seed)`. A
      connection whose endpoint is no node raises, after its own number
      has been taken. */
  method CreateInitialGenerationGenome(genome: Genome, generator: InnovationNumberGenerator, config: NeatConfig,
                                       seed: Option<int>, seeding: Seeding, entropy: Stream)
    returns (r: Result<Generation, GenerationError>)
    requires generator.Valid()
    modifies generator
    ensures generator.Valid()
    ensures var rename := Renaming(genome.nodes, old(generator.nodeCounter));
      generator.NodeTable() == Table(old(generator.nodeCounter) + |genome.nodes|, old(generator.nodeInnovations))
      && generator.ConnectionTable()
         == Table(old(generator.connectionCounter) + Consumed(genome.connections, rename, old(generator.connectionCounter)),
                  old(generator.connectionInnovations))
    ensures var m := Remap(genome.connections, Renaming(genome.nodes, old(generator.nodeCounter)),
                           old(generator.connectionCounter));
      (m.Err? ==> r == Err(m.error))
      && (m.Ok? ==> (r.Err? <==> config.populationSize <= 0) && (r.Err? ==> r.error == EmptyPopulation))
      && (m.Ok? && r.Ok? ==>
            PopulationOf(r.value, Renumbered(genome.nodes, old(generator.nodeCounter)), m.value,
                         SeedStream(seed, seeding, entropy), 0, seeding, config)
            && forall j :: 0 <= j < |r.value.agents| ==> fresh(r.value.agents[j].genome))
  {
    var newNodes, rename := RenumberNodes(genome.nodes, generator);
    var m := RemapConnections(genome.connections, rename, generator);
    if m.Err? {
      return Err(m.error);
    }
    var initialGenome := DeepCopyGenome(genome);
    initialGenome.connections := m.value;
    initialGenome.nodes := newNodes;
    var rnd := new RandomState(SeedStream(seed, seeding, entropy));
    r := BuildGenerationFromGenome(initialGenome, rnd, seeding, config);
  }

  /** The node loop of `create_initial_generation_genome`. */
  method RenumberNodes(ns: seq<Node>, generator: InnovationNumberGenerator)
    returns (newNodes: seq<Node>, rename: map<int, int>)
    requires generator.Valid()
    modifies generator
    ensures generator.Valid()
    ensures newNodes == Renumbered(ns, old(generator.nodeCounter)) && rename == Renaming(ns, old(generator.nodeCounter))
    ensures generator.NodeTable() == Table(old(generator.nodeCounter) + |ns|, old(generator.nodeInnovations))
    ensures generator.ConnectionTable() == old(generator.ConnectionTable())
  {
    ghost var c0 := generator.nodeCounter;
    newNodes, rename := [], map[];
    for i := 0 to |ns|
      invariant generator.Valid()
      invariant newNodes == Renumbered(ns[..i], c0) && rename == Renaming(ns[..i], c0)
      invariant generator.NodeTable() == Table(c0 + i, old(generator.nodeInnovations))
      invariant generator.ConnectionTable() == old(generator.ConnectionTable())
    {
      var number := generator.GetNodeInnovationNumber(None, None);
      assert DropLast(ns[..i + 1]) == ns[..i];
      newNodes := newNodes + [ns[i].(innovationNumber := number)];
      rename := rename[ns[i].innovationNumber := number];
    }
    assert ns[..|ns|] == ns;
  }

  /** The connection loop of `create_initial_generation_genome`: each
      connection takes its number before its endpoints are looked up. */
  method RemapConnections(cs: seq<Connection>, rename: map<int, int>, generator: InnovationNumberGenerator)
    returns (m: Result<seq<Connection>, GenerationError>)
    requires generator.Valid()
    modifies generator
    ensures generator.Valid()
    ensures m == Remap(cs, rename, old(generator.connectionCounter))
    ensures generator.ConnectionTable()
            == Table(old(generator.connectionCounter) + Consumed(cs, rename, old(generator.connectionCounter)),
                     old(generator.connectionInnovations))
    ensures generator.NodeTable() == old(generator.NodeTable())
  {
    ghost var c0 := generator.connectionCounter;
    var done: seq<Connection> := [];
    for j := 0 to |cs|
      invariant generator.Valid()
      invariant Remap(cs[..j], rename, c0) == Ok(done)
      invariant generator.ConnectionTable() == Table(c0 + j, old(generator.connectionInnovations))
      invariant generator.NodeTable() == old(generator.NodeTable())
    {
      var number := generator.GetConnectionInnovationNumber(None, None);
      var c := cs[j];
      assert DropLast(cs[..j + 1]) == cs[..j] && Last(cs[..j + 1]) == c;
      if c.inputNode !in rename {
        RemapFailureSticks(cs, rename, c0, j + 1);
        return Err(MissingNode(j, c.inputNode));
      }
      if c.outputNode !in rename {
        RemapFailureSticks(cs, rename, c0, j + 1);
        return Err(MissingNode(j, c.outputNode));
      }
      done := done + [c.(innovationNumber := number, inputNode := rename[c.inputNode], outputNode := rename[c.outputNode])];
    }
    assert cs[..|cs|] == cs;
    m := Ok(done);
  }
}
