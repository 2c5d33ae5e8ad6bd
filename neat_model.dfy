/** The genome data model, with the field shapes the services construct:
    Node(innovation_number, node_type, bias, activation_function, x_position),
    Connection(innovation_number, input_node, output_node, weight, enabled),
    Genome(seed, nodes, connections), Agent(genome), Species(representative,
    members) and Generation(number, agents, species_list). */
module Model {
  import opened Wrappers

  datatype NodeType = Input | Hidden | Output

  /** Activation functions are compared by identity only; the core never
      evaluates them, so a closed set of names stands for them. */
  datatype Activation = ModifiedSigmoid | Step | Sigmoid | Tanh | Relu | Identity

  datatype Node = Node(
    innovationNumber: int,
    nodeType: NodeType,
    bias: real,
    activationFunction: Activation,
    xPosition: real)

  datatype Connection = Connection(
    innovationNumber: int,
    inputNode: int,
    outputNode: int,
    weight: real,
    enabled: bool)

  /** A genome owns its lists; the services replace and extend them in place. */
  class Genome {
    var seed: Option<int>
    var nodes: seq<Node>
    var connections: seq<Connection>

    constructor (seed: Option<int>, nodes: seq<Node>, connections: seq<Connection>)
      ensures this.seed == seed && this.nodes == nodes && this.connections == connections
    {
      this.seed := seed;
      this.nodes := nodes;
      this.connections := connections;
    }
  }

  datatype Agent = Agent(genome: Genome, fitness: real, adjustedFitness: real)

  /** A species; `id` is absent when the constructing call site passes none. */
  datatype Species = Species(id: Option<int>, representative: Genome?, members: seq<Agent>)

  datatype Generation = Generation(number: int, agents: seq<Agent>, speciesList: seq<Species>)

  /** The options of `NeatConfig` that the modelled services read. */
  datatype NeatConfig = NeatConfig(
    populationSize: int,
    allowRecurrent: bool,
    connectionInitialMinWeight: real,
    connectionInitialMaxWeight: real,
    connectionMinWeight: real,
    connectionMaxWeight: real,
    biasInitialMin: real,
    biasInitialMax: real,
    biasMin: real,
    biasMax: real,
    probabilityWeightMutation: real,
    probabilityRandomWeightMutation: real,
    weightMutationType: string,
    weightMutationUniformMaxChange: real,
    weightMutationNormalSigma: real,
    probabilityBiasMutation: real,
    probabilityRandomBiasMutation: real,
    biasMutationType: string,
    biasMutationUniformMaxChange: real,
    biasMutationNormalSigma: real,
    probabilityMutateAddConnection: real,
    mutateConnectionTries: int,
    probabilityMutateAddNode: real,
    probabilityEnableGene: real,
    compatibilityFactorDisjointGenes: real,
    compatibilityFactorMatchingGenes: real)

  /** The defaults of `NeatConfig()`. */
  function DefaultConfig(): NeatConfig
  {
    NeatConfig(150, true, -3.0, 3.0, -15.0, 15.0, -3.0, 3.0, -15.0, 15.0,
               0.8, 0.1, "normal", 1.0, 1.3,
               0.8, 0.1, "normal", 1.0, 1.3,
               0.05, 5, 0.03, 0.25, 1.0, 0.4)
  }

  function NodeKey(n: Node): int { n.innovationNumber }
  function NodeBias(n: Node): real { n.bias }
  function NodeX(n: Node): real { n.xPosition }
  function ConnectionKey(c: Connection): int { c.innovationNumber }
  function ConnectionWeight(c: Connection): real { c.weight }
  function ConnectionOutput(c: Connection): int { c.outputNode }
}
