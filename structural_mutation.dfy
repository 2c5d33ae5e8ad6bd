/** The structural mutations: adding a connection between two existing nodes
    and splitting a connection with a new hidden node. Each is a method over
    a `Genome`, a `RandomState` and the `InnovationNumberGenerator`, proved
    equal to a specification function of the old lists, the draws and the
    generator's tables; the guarantees are lemmas about that function. */
module StructuralMutation {
  import opened Wrappers
  import opened Model
  import opened Random
  import opened Collections
  import opened NodeSorting
  import opened InnovationNumbers
  import opened Reproduction

  /** Some connection already runs from a to b (`any(...)` over the list). */
  predicate Linked(cs: seq<Connection>, a: Node, b: Node)
  {
    cs != [] && ((cs[0].inputNode == a.innovationNumber && cs[0].outputNode == b.innovationNumber) || Linked(cs[1..], a, b))
  }

  /** The possible targets for a connection out of a: all hidden and output
      nodes, or in a feed-forward network those strictly to the right of a. */
  function Targets(hiddenOutput: seq<Node>, a: Node, allowRecurrent: bool): (r: seq<Node>)
  {
    if allowRecurrent then hiddenOutput else Filter(hiddenOutput, (b: Node) => a.xPosition < b.xPosition)
  }

  lemma TargetsMembers(hiddenOutput: seq<Node>, a: Node, allowRecurrent: bool)
    ensures forall b :: b in Targets(hiddenOutput, a, allowRecurrent) <==> b in hiddenOutput && (allowRecurrent || a.xPosition < b.xPosition)
  {
    FilterMembers(hiddenOutput, (b: Node) => a.xPosition < b.xPosition);
  }

  /** How the tries loop ends: with two nodes to connect and the position of
      the weight draw, after all tries, or raising on an empty node list. */
  datatype Attempt =
    | Chosen(inNode: Node, outNode: Node, position: nat)
    | GaveUp(position: nat)
    | NoNodes(position: nat)

  /** The remaining `tries` rounds of the loop, from draw k. A round draws an
      input node; it is abandoned when no target remains or when the chosen
      pair is already linked. */
  function TryConnect(sorted: seq<Node>, hiddenOutput: seq<Node>, cs: seq<Connection>, allowRecurrent: bool,
                      s: Stream, k: nat, tries: int): Attempt
    decreases tries
  {
    if tries <= 0 then GaveUp(k)
    else if sorted == [] then NoNodes(k)
    else
      var a := sorted[RandIntAt(s, k, |sorted|)];
      var outs := Targets(hiddenOutput, a, allowRecurrent);
      if outs == [] then TryConnect(sorted, hiddenOutput, cs, allowRecurrent, s, k + 1, tries - 1)
      else
        var b := outs[RandIntAt(s, k + 1, |outs|)];
        if Linked(cs, a, b) then TryConnect(sorted, hiddenOutput, cs, allowRecurrent, s, k + 2, tries - 1)
        else Chosen(a, b, k + 2)
  }

  /** A chosen pair joins a node of the list to a target of it that is not
      yet linked. */
  lemma {:induction false} TryConnectChoosesNewEdge(sorted: seq<Node>, hiddenOutput: seq<Node>, cs: seq<Connection>,
                                                    allowRecurrent: bool, s: Stream, k: nat, tries: int)
    ensures var r := TryConnect(sorted, hiddenOutput, cs, allowRecurrent, s, k, tries);
      r.Chosen? ==> r.inNode in sorted && r.outNode in hiddenOutput && !Linked(cs, r.inNode, r.outNode)
                    && (allowRecurrent || r.inNode.xPosition < r.outNode.xPosition)
    decreases tries
  {
    if 0 < tries && sorted != [] {
      var r := TryConnect(sorted, hiddenOutput, cs, allowRecurrent, s, k, tries);
      var i := RandIntAt(s, k, |sorted|);
      var a := sorted[i];
      var outs := Targets(hiddenOutput, a, allowRecurrent);
      if outs == [] {
        assert r == TryConnect(sorted, hiddenOutput, cs, allowRecurrent, s, k + 1, tries - 1);
        TryConnectChoosesNewEdge(sorted, hiddenOutput, cs, allowRecurrent, s, k + 1, tries - 1);
      } else {
        var j := RandIntAt(s, k + 1, |outs|);
        var b := outs[j];
        if Linked(cs, a, b) {
          assert r == TryConnect(sorted, hiddenOutput, cs, allowRecurrent, s, k + 2, tries - 1);
          TryConnectChoosesNewEdge(sorted, hiddenOutput, cs, allowRecurrent, s, k + 2, tries - 1);
        } else {
          assert r == Chosen(a, b, k + 2);
          TargetsMembers(hiddenOutput, a, allowRecurrent);
          assert a in sorted && b in outs;
        }
      }
    }
  }

  /** The search raises only on an empty node list, and never moves the
      generator backwards. */
  lemma {:induction false} TryConnectRaisesOnlyWhenEmpty(sorted: seq<Node>, hiddenOutput: seq<Node>,
                                                         cs: seq<Connection>, allowRecurrent: bool, s: Stream, k: nat,
                                                         tries: int)
    ensures var r := TryConnect(sorted, hiddenOutput, cs, allowRecurrent, s, k, tries);
      (r.NoNodes? <==> 0 < tries && sorted == []) && k <= r.position
    decreases tries
  {
    if 0 < tries && sorted != [] {
      var r := TryConnect(sorted, hiddenOutput, cs, allowRecurrent, s, k, tries);
      var a := sorted[RandIntAt(s, k, |sorted|)];
      var outs := Targets(hiddenOutput, a, allowRecurrent);
      if outs == [] {
        assert r == TryConnect(sorted, hiddenOutput, cs, allowRecurrent, s, k + 1, tries - 1);
        TryConnectRaisesOnlyWhenEmpty(sorted, hiddenOutput, cs, allowRecurrent, s, k + 1, tries - 1);
      } else if Linked(cs, a, outs[RandIntAt(s, k + 1, |outs|)]) {
        assert r == TryConnect(sorted, hiddenOutput, cs, allowRecurrent, s, k + 2, tries - 1);
        TryConnectRaisesOnlyWhenEmpty(sorted, hiddenOutput, cs, allowRecurrent, s, k + 2, tries - 1);
      }
    }
  }

  /** What one call of `mutate_add_connection` returns and leaves behind: the
      connection list, the generator position and the connection table. */
  datatype AddConnectionResult = AddConnectionResult(
    outcome: Result<Option<Connection>, ReproductionError>,
    connections: seq<Connection>,
    position: nat,
    table: Table)

  function AddConnectionSpec(nodes: seq<Node>, cs: seq<Connection>, s: Stream, k: nat, t: Table,
                             config: NeatConfig): AddConnectionResult
  {
    if !Coin(s, k, config.probabilityMutateAddConnection) then AddConnectionResult(Ok(None), cs, k + 1, t)
    else
      var sorted := SortByX(nodes);
      Connect(sorted, Filter(sorted, IsNotInput), cs, s, k + 1, t, config)
  }

  /** The part after the coin, given the sorted nodes and the HIDDEN and
      OUTPUT nodes among them. */
  function Connect(sorted: seq<Node>, hiddenOutput: seq<Node>, cs: seq<Connection>, s: Stream, k: nat, t: Table,
                   config: NeatConfig): AddConnectionResult
  {
    match TryConnect(sorted, hiddenOutput, cs, config.allowRecurrent, s, k, config.mutateConnectionTries)
    case GaveUp(position) => AddConnectionResult(Ok(None), cs, position, t)
    case NoNodes(position) => AddConnectionResult(Err(EmptyChoice), cs, position, t)
    case Chosen(a, b, position) => Join(a, b, cs, s, position, t, config)
  }

  /** The new connection a -> b: numbered by the table, weighted by draw k. */
  function Join(a: Node, b: Node, cs: seq<Connection>, s: Stream, k: nat, t: Table, config: NeatConfig)
    : AddConnectionResult
  {
    var (n, t') := Issue(t, Some((a.innovationNumber, b.innovationNumber)));
    var c := Connection(n, a.innovationNumber, b.innovationNumber,
                        UniformAt(s, k, config.connectionInitialMinWeight, config.connectionInitialMaxWeight), true);
    AddConnectionResult(Ok(Some(c)), cs + [c], k + 1, t')
  }

  /** Without a new connection the list is unchanged, and it raises only for
      a genome without nodes. With one, exactly that connection is appended:
      enabled, with an initial-range weight, from a node of the genome to a
      HIDDEN or OUTPUT node of it, not already linked, and left to right
      when recurrence is off. */
  lemma AddConnectionAppendsNewEdge(nodes: seq<Node>, cs: seq<Connection>, s: Stream, k: nat, t: Table,
                                    config: NeatConfig)
    ensures var r := AddConnectionSpec(nodes, cs, s, k, t, config);
      (r.outcome.Ok? && r.outcome.value.None? ==> r.connections == cs && r.table == t) &&
      (r.outcome.Err? ==> r.connections == cs && r.table == t && nodes == [] && r.outcome.error == EmptyChoice) &&
      (r.outcome.Ok? && r.outcome.value.Some? ==>
         var c := r.outcome.value.value;
         r.connections == cs + [c] && c.enabled &&
         Within(c.weight, config.connectionInitialMinWeight, config.connectionInitialMaxWeight) &&
         exists a, b :: a in nodes && b in nodes && b.nodeType != Input && !Linked(cs, a, b) &&
                        c.inputNode == a.innovationNumber && c.outputNode == b.innovationNumber &&
                        c.innovationNumber == Issue(t, Some((a.innovationNumber, b.innovationNumber))).0 &&
                        (config.allowRecurrent || a.xPosition < b.xPosition))
  {
    if Coin(s, k, config.probabilityMutateAddConnection) {
      var sorted := SortByX(nodes);
      var hiddenOutput := Filter(sorted, IsNotInput);
      var tries := config.mutateConnectionTries;
      TryConnectChoosesNewEdge(sorted, hiddenOutput, cs, config.allowRecurrent, s, k + 1, tries);
      TryConnectRaisesOnlyWhenEmpty(sorted, hiddenOutput, cs, config.allowRecurrent, s, k + 1, tries);
      SortByXSortsAndPermutes(nodes);
      FilterMembers(sorted, IsNotInput);
      var r := TryConnect(sorted, hiddenOutput, cs, config.allowRecurrent, s, k + 1, tries);
      if nodes != [] {
        assert nodes[0] in multiset(sorted);
      }
      if r.Chosen? {
        assert r.inNode in multiset(nodes) && r.outNode in multiset(nodes);
      }
    }
  }

  /** One round of `TryConnect` when the drawn node has no target. */
  lemma TryConnectNoTarget(sorted: seq<Node>, hiddenOutput: seq<Node>, cs: seq<Connection>, allowRecurrent: bool,
                           s: Stream, k: nat, tries: int)
    requires tries > 0 && sorted != []
    requires Targets(hiddenOutput, sorted[RandIntAt(s, k, |sorted|)], allowRecurrent) == []
    ensures TryConnect(sorted, hiddenOutput, cs, allowRecurrent, s, k, tries)
         == TryConnect(sorted, hiddenOutput, cs, allowRecurrent, s, k + 1, tries - 1)
  {
  }

  /** One round of `TryConnect` when the drawn pair is already linked. */
  lemma TryConnectLinked(sorted: seq<Node>, hiddenOutput: seq<Node>, cs: seq<Connection>, allowRecurrent: bool,
                         s: Stream, k: nat, tries: int)
    requires tries > 0 && sorted != []
    requires var a := sorted[RandIntAt(s, k, |sorted|)];
      var outs := Targets(hiddenOutput, a, allowRecurrent);
      outs != [] && Linked(cs, a, outs[RandIntAt(s, k + 1, |outs|)])
    ensures TryConnect(sorted, hiddenOutput, cs, allowRecurrent, s, k, tries)
         == TryConnect(sorted, hiddenOutput, cs, allowRecurrent, s, k + 2, tries - 1)
  {
  }

  /** One round of `TryConnect` that finds a new pair. */
  lemma TryConnectChosen(sorted: seq<Node>, hiddenOutput: seq<Node>, cs: seq<Connection>, allowRecurrent: bool,
                         s: Stream, k: nat, tries: int)
    requires tries > 0 && sorted != []
    requires var a := sorted[RandIntAt(s, k, |sorted|)];
      var outs := Targets(hiddenOutput, a, allowRecurrent);
      outs != [] && !Linked(cs, a, outs[RandIntAt(s, k + 1, |outs|)])
    ensures var a := sorted[RandIntAt(s, k, |sorted|)];
      var outs := Targets(hiddenOutput, a, allowRecurrent);
      TryConnect(sorted, hiddenOutput, cs, allowRecurrent, s, k, tries)
      == Chosen(a, outs[RandIntAt(s, k + 1, |outs|)], k + 2)
  {
  }

  /** One round of the loop: a node, then a target; None when the round
      is abandoned. */
  method DrawRound(sorted: seq<Node>, hiddenOutput: seq<Node>, cs: seq<Connection>, allowRecurrent: bool,
                   rnd: RandomState, ghost rest: int) returns (outcome: Option<Attempt>)
    requires sorted != [] && rest > 0
    modifies rnd
    ensures outcome.Some? ==> outcome.value == TryConnect(sorted, hiddenOutput, cs, allowRecurrent, rnd.stream, old(rnd.position), rest)
                              && rnd.position == outcome.value.position
    ensures outcome.None? ==> TryConnect(sorted, hiddenOutput, cs, allowRecurrent, rnd.stream, old(rnd.position), rest)
                              == TryConnect(sorted, hiddenOutput, cs, allowRecurrent, rnd.stream, rnd.position, rest - 1)
  {
    ghost var k := rnd.position;
    var i := rnd.RandInt(|sorted|);
    var a := sorted[i];
    var outs := Targets(hiddenOutput, a, allowRecurrent);
    if |outs| == 0 {
      TryConnectNoTarget(sorted, hiddenOutput, cs, allowRecurrent, rnd.stream, k, rest);
      return None;
    }
    var j := rnd.RandInt(|outs|);
    var b := outs[j];
    if Linked(cs, a, b) {
      TryConnectLinked(sorted, hiddenOutput, cs, allowRecurrent, rnd.stream, k, rest);
      return None;
    }
    TryConnectChosen(sorted, hiddenOutput, cs, allowRecurrent, rnd.stream, k, rest);
    return Some(Chosen(a, b, rnd.position));
  }

  /** The tries loop of `mutate_add_connection`, drawing from the generator. */
  method ChooseEndpoints(sorted: seq<Node>, hiddenOutput: seq<Node>, cs: seq<Connection>, allowRecurrent: bool,
                         rnd: RandomState, tries: int) returns (attempt: Attempt)
    modifies rnd
    ensures attempt == TryConnect(sorted, hiddenOutput, cs, allowRecurrent, rnd.stream, old(rnd.position), tries)
    ensures rnd.position == attempt.position
  {
    ghost var goal := TryConnect(sorted, hiddenOutput, cs, allowRecurrent, rnd.stream, rnd.position, tries);
    var round := 0;
    while round < tries
      invariant goal == TryConnect(sorted, hiddenOutput, cs, allowRecurrent, rnd.stream, rnd.position, tries - round)
      decreases tries - round
    {
      if |sorted| == 0 {
        return NoNodes(rnd.position);
      }
      ghost var rest := tries - round;
      var outcome := DrawRound(sorted, hiddenOutput, cs, allowRecurrent, rnd, rest);
      if outcome.Some? {
        return outcome.value;
      }
      round := round + 1;
      assert tries - round == rest - 1;
    }
    return GaveUp(rnd.position);
  }

  /** `mutate_add_connection`. */
  method MutateAddConnection(genome: Genome, rnd: RandomState, generator: InnovationNumberGenerator,
                             config: NeatConfig) returns (r: Result<Option<Connection>, ReproductionError>)
    requires generator.Valid()
    modifies genome, rnd, generator
    ensures generator.Valid()
    ensures AddConnectionSpec(old(genome.nodes), old(genome.connections), rnd.stream, old(rnd.position),
                              old(generator.ConnectionTable()), config)
            == AddConnectionResult(r, genome.connections, rnd.position, generator.ConnectionTable())
    ensures genome.nodes == old(genome.nodes) && genome.seed == old(genome.seed)
    ensures generator.NodeTable() == old(generator.NodeTable())
  {
    var coin := rnd.Uniform(0.0, 1.0);
    if coin > config.probabilityMutateAddConnection {
      return Ok(None);
    }
    var sorted := SortByX(genome.nodes);
    var hiddenOutput := Filter(sorted, IsNotInput);
    r := ConnectSorted(genome, sorted, hiddenOutput, rnd, generator, config);
  }

  /** The body of `mutate_add_connection` after the coin and the sort. */
  method ConnectSorted(genome: Genome, sorted: seq<Node>, hiddenOutput: seq<Node>, rnd: RandomState,
                       generator: InnovationNumberGenerator, config: NeatConfig)
    returns (r: Result<Option<Connection>, ReproductionError>)
    requires generator.Valid()
    modifies genome, rnd, generator
    ensures generator.Valid()
    ensures Connect(sorted, hiddenOutput, old(genome.connections), rnd.stream, old(rnd.position),
                    old(generator.ConnectionTable()), config)
            == AddConnectionResult(r, genome.connections, rnd.position, generator.ConnectionTable())
    ensures genome.nodes == old(genome.nodes) && genome.seed == old(genome.seed)
    ensures generator.NodeTable() == old(generator.NodeTable())
  {
    var attempt := ChooseEndpoints(sorted, hiddenOutput, genome.connections, config.allowRecurrent, rnd,
                                   config.mutateConnectionTries);
    match attempt
    case NoNodes(_) =>
      return Err(EmptyChoice);
    case GaveUp(_) =>
      return Ok(None);
    case Chosen(a, b, _) =>
      r := JoinNodes(genome, a, b, rnd, generator, config);
  }

  /** The end of `mutate_add_connection`: number, weigh and append a -> b. */
  method JoinNodes(genome: Genome, a: Node, b: Node, rnd: RandomState, generator: InnovationNumberGenerator,
                   config: NeatConfig) returns (r: Result<Option<Connection>, ReproductionError>)
    requires generator.Valid()
    modifies genome, rnd, generator
    ensures generator.Valid()
    ensures Join(a, b, old(genome.connections), rnd.stream, old(rnd.position), old(generator.ConnectionTable()), config)
            == AddConnectionResult(r, genome.connections, rnd.position, generator.ConnectionTable())
    ensures genome.nodes == old(genome.nodes) && genome.seed == old(genome.seed)
    ensures generator.NodeTable() == old(generator.NodeTable())
  {
    var n := generator.GetConnectionInnovationNumber(Some(a), Some(b));
    var w := rnd.Uniform(config.connectionInitialMinWeight, config.connectionInitialMaxWeight);
    var c := Connection(n, a.innovationNumber, b.innovationNumber, w, true);
    genome.connections := genome.connections + [c];
    return Ok(Some(c));
  }

  /** The first node carrying the number (`next(...)` over the node list). */
  function FindNode(ns: seq<Node>, number: int): (r: Option<Node>)
    ensures r.Some? ==> r.value in ns && r.value.innovationNumber == number
    ensures r.None? ==> forall n :: n in ns ==> n.innovationNumber != number
  {
    if ns == [] then None
    else if ns[0].innovationNumber == number then Some(ns[0])
    else FindNode(ns[1..], number)
  }

  /** The new node and its two connections. */
  datatype AddedNode = AddedNode(node: Node, connectionIn: Connection, connectionOut: Connection)

  /** What one call of `mutate_add_node` returns and leaves behind. */
  datatype AddNodeResult = AddNodeResult(
    outcome: Result<Option<AddedNode>, ReproductionError>,
    nodes: seq<Node>,
    connections: seq<Connection>,
    position: nat,
    nodeTable: Table,
    connectionTable: Table)

  /** The selected connection is disabled before its endpoints are looked
      up, so a missing endpoint raises with the connection already disabled.
      The draws are: the coin, the connection index, the activation coin and
      the bias; the node number is asked for before the bias is drawn. */
  function AddNodeSpec(nodes: seq<Node>, cs: seq<Connection>, s: Stream, k: nat, nt: Table, ct: Table,
                       config: NeatConfig): AddNodeResult
  {
    if !Coin(s, k, config.probabilityMutateAddNode) then AddNodeResult(Ok(None), nodes, cs, k + 1, nt, ct)
    else if cs == [] then AddNodeResult(Err(EmptyChoice), nodes, cs, k + 1, nt, ct)
    else
      var i := RandIntAt(s, k + 1, |cs|);
      var selected := cs[i];
      var disabled := cs[i := selected.(enabled := false)];
      var inNode := FindNode(nodes, selected.inputNode);
      var outNode := FindNode(nodes, selected.outputNode);
      if inNode.None? || outNode.None? then AddNodeResult(Err(NodeNotFound), nodes, disabled, k + 2, nt, ct)
      else Split(nodes, disabled, selected, inNode.value, outNode.value, s, k + 2, nt, ct, config)
  }

  /** The split itself, once the connection a -> b has been chosen and the
      list holds it disabled: two draws, then the numbering. */
  function Split(nodes: seq<Node>, cs: seq<Connection>, selected: Connection, a: Node, b: Node, s: Stream, k: nat,
                 nt: Table, ct: Table, config: NeatConfig): AddNodeResult
  {
    var activation := if Coin(s, k, 0.5) then a.activationFunction else b.activationFunction;
    var bias := UniformAt(s, k + 1, config.biasInitialMin, config.biasInitialMax);
    var numbered := Numbered(a, b, selected.weight, bias, activation, nt, ct);
    var added := numbered.0;
    AddNodeResult(Ok(Some(added)), nodes + [added.node], cs + [added.connectionIn, added.connectionOut], k + 2,
                  numbered.1, numbered.2)
  }

  /** The new node a -> b is split with, numbered by the node table, and its
      two connections, numbered one after the other by the connection table;
      with both tables afterwards. */
  function Numbered(a: Node, b: Node, weight: real, bias: real, activation: Activation, nt: Table, ct: Table)
    : (AddedNode, Table, Table)
  {
    var nodeIssue := Issue(nt, Some((a.innovationNumber, b.innovationNumber)));
    var n := nodeIssue.0;
    var node := Node(n, Hidden, bias, activation, (a.xPosition + b.xPosition) / 2.0);
    var inIssue := Issue(ct, Some((a.innovationNumber, n)));
    var connectionIn := Connection(inIssue.0, a.innovationNumber, n, 1.0, true);
    var outIssue := Issue(inIssue.1, Some((n, b.innovationNumber)));
    var connectionOut := Connection(outIssue.0, n, b.innovationNumber, weight, true);
    (AddedNode(node, connectionIn, connectionOut), nodeIssue.1, outIssue.1)
  }

  /** The connection a split picks: the one at the index drawn after the coin. */
  function Selected(cs: seq<Connection>, s: Stream, k: nat): Connection
    requires cs != []
  {
    cs[RandIntAt(s, k + 1, |cs|)]
  }

  /** No node of the list carries one of the connection's endpoints. */
  predicate MissesEndpoint(nodes: seq<Node>, c: Connection)
  {
    (forall n :: n in nodes ==> n.innovationNumber != c.inputNode)
    || (forall n :: n in nodes ==> n.innovationNumber != c.outputNode)
  }

  /** Without a split nothing changes; a split raises for an empty connection
      list or, exactly when an endpoint of the chosen connection is missing,
      with that connection left disabled. A successful split disables one connection
      a -> b of the genome, appends one HIDDEN node halfway between a and b
      with an initial-range bias and the activation of a or b, and appends
      a -> new with weight 1 and new -> b with the old weight, both
      enabled. */
  lemma AddNodeSplitsConnection(nodes: seq<Node>, cs: seq<Connection>, s: Stream, k: nat, nt: Table, ct: Table,
                                config: NeatConfig)
    ensures var r := AddNodeSpec(nodes, cs, s, k, nt, ct, config);
      (r.outcome.Ok? && r.outcome.value.None? ==> r.nodes == nodes && r.connections == cs) &&
      (r.outcome == Err(EmptyChoice) <==> Coin(s, k, config.probabilityMutateAddNode) && cs == []) &&
      (r.outcome.Err? ==> r.nodes == nodes && r.outcome.error in {EmptyChoice, NodeNotFound}) &&
      (r.outcome == Err(NodeNotFound) <==>
         Coin(s, k, config.probabilityMutateAddNode) && cs != [] && MissesEndpoint(nodes, Selected(cs, s, k))) &&
      (r.outcome == Err(NodeNotFound) ==>
         var i := RandIntAt(s, k + 1, |cs|); r.connections == cs[i := cs[i].(enabled := false)]) &&
      (r.outcome.Ok? && r.outcome.value.Some? ==>
         var added := r.outcome.value.value;
         var node := added.node;
         r.nodes == nodes + [node] && node.nodeType == Hidden &&
         Within(node.bias, config.biasInitialMin, config.biasInitialMax) &&
         exists i, a, b :: 0 <= i < |cs| && a in nodes && b in nodes &&
           a.innovationNumber == cs[i].inputNode && b.innovationNumber == cs[i].outputNode &&
           r.connections == cs[i := cs[i].(enabled := false)] + [added.connectionIn, added.connectionOut] &&
           node.xPosition == (a.xPosition + b.xPosition) / 2.0 &&
           node.activationFunction in {a.activationFunction, b.activationFunction} &&
           added.connectionIn == Connection(added.connectionIn.innovationNumber, a.innovationNumber,
                                            node.innovationNumber, 1.0, true) &&
           added.connectionOut == Connection(added.connectionOut.innovationNumber, node.innovationNumber,
                                             b.innovationNumber, cs[i].weight, true))
  {
  }

  /** `mutate_add_node`. */
  method MutateAddNode(genome: Genome, rnd: RandomState, generator: InnovationNumberGenerator,
                       config: NeatConfig) returns (r: Result<Option<AddedNode>, ReproductionError>)
    requires generator.Valid()
    modifies genome, rnd, generator
    ensures generator.Valid()
    ensures AddNodeSpec(old(genome.nodes), old(genome.connections), rnd.stream, old(rnd.position),
                        old(generator.NodeTable()), old(generator.ConnectionTable()), config)
            == AddNodeResult(r, genome.nodes, genome.connections, rnd.position,
                             generator.NodeTable(), generator.ConnectionTable())
    ensures genome.seed == old(genome.seed)
  {
    var coin := rnd.Uniform(0.0, 1.0);
    if coin > config.probabilityMutateAddNode {
      return Ok(None);
    }
    if |genome.connections| == 0 {
      return Err(EmptyChoice);
    }
    var i := rnd.RandInt(|genome.connections|);
    var selected := genome.connections[i];
    genome.connections := genome.connections[i := selected.(enabled := false)];
    var inNode := FindNode(genome.nodes, selected.inputNode);
    if inNode.None? {
      return Err(NodeNotFound);
    }
    var outNode := FindNode(genome.nodes, selected.outputNode);
    if outNode.None? {
      return Err(NodeNotFound);
    }
    r := SplitConnection(genome, selected, inNode.value, outNode.value, rnd, generator, config);
  }

  /** The body of `mutate_add_node` after the connection a -> b has been
      chosen, disabled and its endpoints found. */
  method SplitConnection(genome: Genome, selected: Connection, a: Node, b: Node, rnd: RandomState,
                         generator: InnovationNumberGenerator, config: NeatConfig)
    returns (r: Result<Option<AddedNode>, ReproductionError>)
    requires generator.Valid()
    modifies genome, rnd, generator
    ensures generator.Valid()
    ensures Split(old(genome.nodes), old(genome.connections), selected, a, b, rnd.stream, old(rnd.position),
                  old(generator.NodeTable()), old(generator.ConnectionTable()), config)
            == AddNodeResult(r, genome.nodes, genome.connections, rnd.position,
                             generator.NodeTable(), generator.ConnectionTable())
    ensures genome.seed == old(genome.seed)
  {
    var coin := rnd.Uniform(0.0, 1.0);
    var activation := if coin <= 0.5 then a.activationFunction else b.activationFunction;
    var bias := rnd.Uniform(config.biasInitialMin, config.biasInitialMax);
    var added := NumberSplit(a, b, selected.weight, bias, activation, generator);
    genome.nodes := genome.nodes + [added.node];
    genome.connections := genome.connections + [added.connectionIn, added.connectionOut];
    return Ok(Some(added));
  }

  /** The three generator requests of `mutate_add_node`: a node number for
      the pair (a, b), then connection numbers for (a, new) and (new, b). */
  method NumberSplit(a: Node, b: Node, weight: real, bias: real, activation: Activation,
                     generator: InnovationNumberGenerator) returns (added: AddedNode)
    requires generator.Valid()
    modifies generator
    ensures generator.Valid()
    ensures Numbered(a, b, weight, bias, activation, old(generator.NodeTable()), old(generator.ConnectionTable()))
            == (added, generator.NodeTable(), generator.ConnectionTable())
  {
    var n := generator.GetNodeInnovationNumber(Some(a), Some(b));
    var node := Node(n, Hidden, bias, activation, (a.xPosition + b.xPosition) / 2.0);
    var m1 := generator.GetConnectionInnovationNumber(Some(a), Some(node));
    var connectionIn := Connection(m1, a.innovationNumber, n, 1.0, true);
    var m2 := generator.GetConnectionInnovationNumber(Some(node), Some(b));
    var connectionOut := Connection(m2, n, b.innovationNumber, weight, true);
    added := AddedNode(node, connectionIn, connectionOut);
  }
}
