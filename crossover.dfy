/** `cross_over`: the child's genes follow the fitter parent's lists in
    order. A gene whose innovation number the less fit parent also carries
    (a matching gene) is taken from either parent by a fair coin; every
    other gene (disjoint or excess) is taken from the fitter parent. A
    matching connection disabled in both parents is re-enabled by a second
    coin. */
module Crossover {
  import opened Model
  import opened Random
  import opened Collections
  import opened Reproduction

  /** The genes chosen so far and the generator position after them. */
  datatype Bred<T> = Bred(genes: seq<T>, position: nat)

  /** The less fit parent's genes by innovation number; a later gene with a
      repeated number overwrites an earlier one. */
  function NodeIndex(ns: seq<Node>): map<int, Node>
  {
    IndexBy(ns, NodeKey)
  }

  function ConnectionIndex(cs: seq<Connection>): map<int, Connection>
  {
    IndexBy(cs, ConnectionKey)
  }

  /** The node loop from draw k after visiting the fitter parent's first n
      nodes; only a matching gene draws. */
  function CrossNodesUpTo(ns: seq<Node>, other: map<int, Node>, s: Stream, k: nat, n: nat): (r: Bred<Node>)
    requires n <= |ns|
    ensures |r.genes| == n
    decreases n
  {
    if n == 0 then Bred([], k)
    else
      var prev := CrossNodesUpTo(ns, other, s, k, n - 1);
      var g := ns[n - 1];
      if g.innovationNumber in other then
        var pick := if Coin(s, prev.position, 0.5) then g else other[g.innovationNumber];
        Bred(prev.genes + [pick], prev.position + 1)
      else Bred(prev.genes + [g], prev.position)
  }

  /** One matching connection g, whose partner in the less fit parent is h,
      from draw k: the gene picked, and how many draws it took. */
  function CrossMatching(g: Connection, h: Connection, s: Stream, k: nat, probabilityEnable: real): (Connection, nat)
  {
    var pick := if Coin(s, k, 0.5) then g else h;
    if !g.enabled && !h.enabled then (pick.(enabled := Coin(s, k + 1, probabilityEnable)), 2)
    else (pick, 1)
  }

  /** The connection loop from draw k after visiting the fitter parent's
      first n connections. */
  function CrossConnectionsUpTo(cs: seq<Connection>, other: map<int, Connection>, s: Stream, k: nat,
                                probabilityEnable: real, n: nat): (r: Bred<Connection>)
    requires n <= |cs|
    ensures |r.genes| == n
    decreases n
  {
    if n == 0 then Bred([], k)
    else
      var prev := CrossConnectionsUpTo(cs, other, s, k, probabilityEnable, n - 1);
      var g := cs[n - 1];
      if g.innovationNumber in other then
        var m := CrossMatching(g, other[g.innovationNumber], s, prev.position, probabilityEnable);
        Bred(prev.genes + [m.0], prev.position + m.1)
      else Bred(prev.genes + [g], prev.position)
  }

  /** The child's nodes and connections, and the generator position after
      both loops. */
  datatype Child = Child(nodes: seq<Node>, connections: seq<Connection>, position: nat)

  function CrossOverSpec(moreFitNodes: seq<Node>, moreFitConnections: seq<Connection>, lessFitNodes: seq<Node>,
                         lessFitConnections: seq<Connection>, s: Stream, k: nat, config: NeatConfig): Child
  {
    var nodes := CrossNodesUpTo(moreFitNodes, NodeIndex(lessFitNodes), s, k, |moreFitNodes|);
    var connections := CrossConnectionsUpTo(moreFitConnections, ConnectionIndex(lessFitConnections), s,
                                            nodes.position, config.probabilityEnableGene, |moreFitConnections|);
    Child(nodes.genes, connections.genes, connections.position)
  }

  /** Each child node carries the number of the fitter parent's node at the
      same place and is that node or a node of the less fit parent; a node
      whose number the less fit parent lacks is inherited unchanged. Only
      matching genes draw. */
  lemma {:induction false} CrossNodesInherit(ns: seq<Node>, less: seq<Node>, s: Stream, k: nat, n: nat)
    requires n <= |ns|
    ensures var r := CrossNodesUpTo(ns, NodeIndex(less), s, k, n);
      (forall i :: 0 <= i < n ==>
         r.genes[i].innovationNumber == ns[i].innovationNumber && (r.genes[i] == ns[i] || r.genes[i] in less)) &&
      (forall i :: 0 <= i < n && ns[i].innovationNumber !in NodeIndex(less) ==> r.genes[i] == ns[i]) &&
      k <= r.position <= k + n
    decreases n
  {
    if n > 0 {
      CrossNodesInherit(ns, less, s, k, n - 1);
      var g := ns[n - 1];
      if g.innovationNumber in NodeIndex(less) {
        IndexByEntry(less, NodeKey, g.innovationNumber);
      }
    }
  }

  /** The keys of the index are the numbers the list carries. */
  lemma NodeIndexKeys(ns: seq<Node>, number: int)
    ensures number in NodeIndex(ns) <==> exists j :: 0 <= j < |ns| && ns[j].innovationNumber == number
  {
    IndexByKeys(ns, NodeKey);
  }

  /** Crossing a node list with itself, when its numbers are distinct, gives
      the list back whatever the coins say. */
  lemma {:induction false} CrossNodesSelf(ns: seq<Node>, s: Stream, k: nat, n: nat)
    requires n <= |ns|
    requires forall i, j :: 0 <= i < j < |ns| ==> ns[i].innovationNumber != ns[j].innovationNumber
    ensures CrossNodesUpTo(ns, NodeIndex(ns), s, k, n).genes == ns[..n]
    decreases n
  {
    if n > 0 {
      CrossNodesSelf(ns, s, k, n - 1);
      IndexByUnique(ns, NodeKey, n - 1);
      assert ns[..n] == ns[..n - 1] + [ns[n - 1]];
    }
  }

  /** The child connection at each place carries the fitter parent's number
      there. A disjoint or excess gene is inherited unchanged; a matching gene
      enabled in some parent is one of the two parents' genes unchanged; a
      matching gene disabled in both is one of them with its flag redrawn. */
  lemma {:induction false} CrossConnectionsInherit(cs: seq<Connection>, less: seq<Connection>, s: Stream, k: nat,
                                                   probabilityEnable: real, n: nat)
    requires n <= |cs|
    ensures var d := ConnectionIndex(less);
      var r := CrossConnectionsUpTo(cs, d, s, k, probabilityEnable, n);
      (forall i :: 0 <= i < n ==> r.genes[i].innovationNumber == cs[i].innovationNumber) &&
      (forall i :: 0 <= i < n && cs[i].innovationNumber !in d ==> r.genes[i] == cs[i]) &&
      (forall i :: 0 <= i < n && cs[i].innovationNumber in d ==>
         var h := d[cs[i].innovationNumber];
         h in less &&
         if cs[i].enabled || h.enabled then r.genes[i] == cs[i] || r.genes[i] == h
         else r.genes[i] == cs[i].(enabled := r.genes[i].enabled) || r.genes[i] == h.(enabled := r.genes[i].enabled)) &&
      k <= r.position <= k + 2 * n
    decreases n
  {
    if n > 0 {
      CrossConnectionsInherit(cs, less, s, k, probabilityEnable, n - 1);
      var g := cs[n - 1];
      if g.innovationNumber in ConnectionIndex(less) {
        IndexByEntry(less, ConnectionKey, g.innovationNumber);
      }
    }
  }

  /** Crossing a connection list with itself, when its numbers are distinct
      and every connection is enabled, gives the list back. */
  lemma {:induction false} CrossConnectionsSelf(cs: seq<Connection>, s: Stream, k: nat, probabilityEnable: real,
                                                n: nat)
    requires n <= |cs|
    requires forall i, j :: 0 <= i < j < |cs| ==> cs[i].innovationNumber != cs[j].innovationNumber
    requires forall i :: 0 <= i < |cs| ==> cs[i].enabled
    ensures CrossConnectionsUpTo(cs, ConnectionIndex(cs), s, k, probabilityEnable, n).genes == cs[..n]
    decreases n
  {
    if n > 0 {
      CrossConnectionsSelf(cs, s, k, probabilityEnable, n - 1);
      IndexByUnique(cs, ConnectionKey, n - 1);
      assert cs[..n] == cs[..n - 1] + [cs[n - 1]];
    }
  }

  /** The child has the fitter parent's genes in number and order: lists of
      the same lengths, carrying the same innovation numbers place by place. */
  lemma CrossOverKeepsFitterStructure(moreFitNodes: seq<Node>, moreFitConnections: seq<Connection>,
                                      lessFitNodes: seq<Node>, lessFitConnections: seq<Connection>, s: Stream, k: nat,
                                      config: NeatConfig)
    ensures var c := CrossOverSpec(moreFitNodes, moreFitConnections, lessFitNodes, lessFitConnections, s, k, config);
      |c.nodes| == |moreFitNodes| && |c.connections| == |moreFitConnections| &&
      (forall i :: 0 <= i < |c.nodes| ==> c.nodes[i].innovationNumber == moreFitNodes[i].innovationNumber) &&
      (forall i :: 0 <= i < |c.connections| ==>
         c.connections[i].innovationNumber == moreFitConnections[i].innovationNumber) &&
      k <= c.position
  {
    CrossNodesInherit(moreFitNodes, lessFitNodes, s, k, |moreFitNodes|);
    var nodes := CrossNodesUpTo(moreFitNodes, NodeIndex(lessFitNodes), s, k, |moreFitNodes|);
    CrossConnectionsInherit(moreFitConnections, lessFitConnections, s, nodes.position, config.probabilityEnableGene,
                            |moreFitConnections|);
  }

  /** `cross_over`: neither parent changes; the child lists and the generator
      end as the specification says. */
  method CrossOver(moreFit: Genome, lessFit: Genome, rnd: RandomState, config: NeatConfig)
    returns (nodes: seq<Node>, connections: seq<Connection>)
    modifies rnd
    ensures CrossOverSpec(moreFit.nodes, moreFit.connections, lessFit.nodes, lessFit.connections, rnd.stream,
                          old(rnd.position), config)
            == Child(nodes, connections, rnd.position)
  {
    var lessNodes := NodeIndex(lessFit.nodes);
    var lessConnections := ConnectionIndex(lessFit.connections);
    ghost var k0 := rnd.position;
    nodes := [];
    for i := 0 to |moreFit.nodes|
      invariant CrossNodesUpTo(moreFit.nodes, lessNodes, rnd.stream, k0, i) == Bred(nodes, rnd.position)
    {
      var g := moreFit.nodes[i];
      var selected := g;
      if g.innovationNumber in lessNodes {
        var coin := rnd.Uniform(0.0, 1.0);
        selected := if coin <= 0.5 then g else lessNodes[g.innovationNumber];
      }
      nodes := nodes + [DeepCopyNode(selected)];
    }
    ghost var k1 := rnd.position;
    connections := [];
    for i := 0 to |moreFit.connections|
      invariant CrossConnectionsUpTo(moreFit.connections, lessConnections, rnd.stream, k1,
                                     config.probabilityEnableGene, i) == Bred(connections, rnd.position)
    {
      var g := moreFit.connections[i];
      var selected := g;
      var enable := g.enabled;
      if g.innovationNumber in lessConnections {
        var h := lessConnections[g.innovationNumber];
        var coin := rnd.Uniform(0.0, 1.0);
        selected := if coin <= 0.5 then g else h;
        enable := selected.enabled;
        if !g.enabled && !h.enabled {
          var redraw := rnd.Uniform(0.0, 1.0);
          enable := redraw <= config.probabilityEnableGene;
        }
      }
      connections := connections + [DeepCopyConnection(selected).(enabled := enable)];
    }
  }
}
