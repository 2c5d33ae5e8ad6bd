/** The two pieces of `genome_visualization` that compute rather than draw:
    the colour of a node type and the grouping of a genome's nodes into
    layers by x-position. */
module GenomeVisualization {
  import opened Model
  import opened Collections

  /** `_get_color_for_node_type`: a fixed colour per node type. */
  function ColorForNodeType(nodeType: NodeType): (color: string)
    ensures IsHexColor(color)
  {
    match nodeType
    case Input => "#ff4105"
    case Hidden => "#4ada76"
    case Output => "#002fa7"
  }

  predicate IsHexDigit(c: char)
  {
    '0' <= c <= '9' || 'a' <= c <= 'f'
  }

  /** A colour literal `#rrggbb` in lower-case hex. */
  predicate IsHexColor(s: string)
  {
    |s| == 7 && s[0] == '#' && forall i :: 1 <= i < 7 ==> IsHexDigit(s[i])
  }

  /** Different node types get different colours. */
  lemma ColorsDistinct(a: NodeType, b: NodeType)
    requires a != b
    ensures ColorForNodeType(a) != ColorForNodeType(b)
  {
    var ca, cb := ColorForNodeType(a), ColorForNodeType(b);
    assert ca[1] != cb[1];
  }

  /** `_sort_nodes_in_layers`: a dictionary from each x-position to the
      nodes at it, filled by one pass over the genome's nodes. */
  method SortNodesInLayers(genome: Genome) returns (layers: map<real, seq<Node>>)
    ensures layers == GroupBy(genome.nodes, NodeX)
  {
    var nodes := genome.nodes;
    layers := map[];
    for i := 0 to |nodes|
      invariant layers == GroupBy(nodes[..i], NodeX)
    {
      var node := nodes[i];
      assert DropLast(nodes[..i + 1]) == nodes[..i] && Last(nodes[..i + 1]) == node;
      assert NodeX(node) == node.xPosition;
      if node.xPosition !in layers {
        assert [] + [node] == [node];
        layers := layers[node.xPosition := [node]];
      } else {
        layers := layers[node.xPosition := layers[node.xPosition] + [node]];
      }
    }
    assert nodes[..|nodes|] == nodes;
  }

  /** The layers are exactly the x-positions that occur; each layer holds
      the nodes at its position in genome order, and every node occurs in
      its own layer as often as in the genome and in no other. */
  lemma LayersPartitionNodes(nodes: seq<Node>, x: real)
    ensures x in GroupBy(nodes, NodeX) <==> exists i :: 0 <= i < |nodes| && nodes[i].xPosition == x
    ensures x in GroupBy(nodes, NodeX) ==>
      var layer := GroupBy(nodes, NodeX)[x];
      layer == Select(nodes, NodeX, x)
      && forall n: Node :: multiset(layer)[n] == if n.xPosition == x then multiset(nodes)[n] else 0
  {
    GroupByKeys(nodes, NodeX);
    GroupByIsSelect(nodes, NodeX);
    forall n: Node
      ensures multiset(Select(nodes, NodeX, x))[n] == if n.xPosition == x then multiset(nodes)[n] else 0
    {
      SelectCount(nodes, NodeX, x, n);
    }
  }

  function SampleNode(number: int, nodeType: NodeType, bias: real, x: real): Node
  {
    Node(number, nodeType, bias, Identity, x)
  }

  /** The nodes of the recurrent sample genome: three inputs at 0, one
      output at 1, two hidden nodes at 0.5. */
  function SampleNodes(): seq<Node>
  {
    [SampleNode(1, Input, 1.0, 0.0), SampleNode(2, Input, 1.2, 0.0), SampleNode(3, Input, 1.3, 0.0),
     SampleNode(4, Output, 1.4, 1.0), SampleNode(10, Hidden, 1.5, 0.5), SampleNode(15, Hidden, 1.6, 0.5)]
  }

  /** The sample genome falls into three layers: nodes 1, 2, 3 at 0, nodes
      10, 15 at 0.5 and node 4 at 1. */
  lemma SampleLayers()
    ensures var s := SampleNodes();
      GroupBy(s, NodeX) == map[0.0 := [s[0], s[1], s[2]], 1.0 := [s[3]], 0.5 := [s[4], s[5]]]
  {
    var s := SampleNodes();
    LayersByPosition(s);
  }

  /** Six nodes at x-positions 0, 0, 0, 1, 0.5, 0.5 form those three layers. */
  lemma LayersByPosition(s: seq<Node>)
    requires |s| == 6
    requires s[0].xPosition == 0.0 && s[1].xPosition == 0.0 && s[2].xPosition == 0.0
    requires s[3].xPosition == 1.0 && s[4].xPosition == 0.5 && s[5].xPosition == 0.5
    ensures GroupBy(s, NodeX) == map[0.0 := [s[0], s[1], s[2]], 1.0 := [s[3]], 0.5 := [s[4], s[5]]]
  {
    InputLayer(s);
    var m3 := map[0.0 := [s[0], s[1], s[2]]];
    NewLayer(s, 3, m3);
    var m4 := map[0.0 := [s[0], s[1], s[2]], 1.0 := [s[3]]];
    assert GroupBy(s[..4], NodeX) == m4;
    NewLayer(s, 4, m4);
    var m5 := map[0.0 := [s[0], s[1], s[2]], 1.0 := [s[3]], 0.5 := [s[4]]];
    assert GroupBy(s[..5], NodeX) == m5;
    JoinLayer(s, 5, m5);
    assert m5[0.5] + [s[5]] == [s[4], s[5]];
    assert s[..6] == s;
  }

  /** The first three nodes, all at x-position 0, form one layer. */
  lemma InputLayer(s: seq<Node>)
    requires |s| >= 3
    requires s[0].xPosition == 0.0 && s[1].xPosition == 0.0 && s[2].xPosition == 0.0
    ensures GroupBy(s[..3], NodeX) == map[0.0 := [s[0], s[1], s[2]]]
  {
    assert s[..0] == [];
    NewLayer(s, 0, map[]);
    var m1 := map[0.0 := [s[0]]];
    assert GroupBy(s[..1], NodeX) == m1;
    JoinLayer(s, 1, m1);
    var m2 := map[0.0 := [s[0], s[1]]];
    assert m1[0.0] + [s[1]] == [s[0], s[1]];
    assert GroupBy(s[..2], NodeX) == m2;
    JoinLayer(s, 2, m2);
    assert m2[0.0] + [s[2]] == [s[0], s[1], s[2]];
  }

  /** A step of the grouping that opens a new layer. */
  lemma NewLayer(s: seq<Node>, k: nat, before: map<real, seq<Node>>)
    requires k < |s| && GroupBy(s[..k], NodeX) == before && s[k].xPosition !in before
    ensures GroupBy(s[..k + 1], NodeX) == before[s[k].xPosition := [s[k]]]
  {
    assert DropLast(s[..k + 1]) == s[..k] && Last(s[..k + 1]) == s[k];
    assert [] + [s[k]] == [s[k]];
  }

  /** A step of the grouping that joins an existing layer. */
  lemma JoinLayer(s: seq<Node>, k: nat, before: map<real, seq<Node>>)
    requires k < |s| && GroupBy(s[..k], NodeX) == before && s[k].xPosition in before
    ensures GroupBy(s[..k + 1], NodeX) == before[s[k].xPosition := before[s[k].xPosition] + [s[k]]]
  {
    assert DropLast(s[..k + 1]) == s[..k] && Last(s[..k + 1]) == s[k];
  }
}
