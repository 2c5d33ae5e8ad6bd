/** The two genomes of the species service's unit test, and the distance the
    test expects between them: the node term is 3/6 * 2 + 0.325 and the
    connection term 3/7 * 2 + 1.36, with the disjoint factor 2 and the
    matching factor 1, in either order. */
module SpeciesExample {
  import opened Wrappers
  import opened Model
  import opened Collections
  import opened SpeciesService

  function ExampleConfig(): NeatConfig
  {
    DefaultConfig().(compatibilityFactorMatchingGenes := 1.0, compatibilityFactorDisjointGenes := 2.0)
  }

  function Nodes1(): seq<Node>
  {
    [Node(1, Input, 0.0, Step, 0.0), Node(2, Input, 0.0, Step, 0.0), Node(3, Output, 1.2, Step, 1.0),
     Node(4, Hidden, 1.5, Step, 0.5), Node(6, Hidden, 0.5, Step, 0.5), Node(7, Hidden, 0.2, Step, 0.25)]
  }

  function Nodes2(): seq<Node>
  {
    [Node(1, Input, 0.0, Step, 0.0), Node(2, Input, 0.0, Step, 0.0), Node(3, Output, 0.2, Step, 1.0),
     Node(4, Hidden, 1.2, Step, 0.5), Node(5, Hidden, 2.8, Step, 0.5)]
  }

  function Connections1(): seq<Connection>
  {
    [Connection(1, 1, 3, 1.2, true), Connection(2, 2, 3, 0.5, false), Connection(3, 1, 4, -1.2, true),
     Connection(4, 4, 3, 0.2, true), Connection(5, 2, 6, 2.0, true), Connection(6, 6, 3, -1.1, false)]
  }

  function Connections2(): seq<Connection>
  {
    [Connection(1, 1, 3, 0.8, true), Connection(2, 2, 3, 1.5, true), Connection(3, 1, 4, 1.2, true),
     Connection(4, 4, 3, 3.2, true), Connection(6, 6, 3, -1.1, false), Connection(7, 6, 3, -0.1, false),
     Connection(8, 1, 4, -1.1, false)]
  }

  /** The set of numbers grows by one gene at a time. */
  lemma NumbersPrefix<T>(genes: seq<T>, key: T -> int, k: nat)
    requires k < |genes|
    ensures Numbers(genes[..k + 1], key) == Numbers(genes[..k], key) + {key(genes[k])}
  {
    assert DropLast(genes[..k + 1]) == genes[..k];
  }

  lemma Nodes1Numbers()
    ensures Numbers(Nodes1(), NodeKey) == {1, 2, 3, 4, 6, 7}
  {
    var s := Nodes1();
    assert s[..0] == [];
    NumbersPrefix(s, NodeKey, 0);
    NumbersPrefix(s, NodeKey, 1);
    NumbersPrefix(s, NodeKey, 2);
    NumbersPrefix(s, NodeKey, 3);
    NumbersPrefix(s, NodeKey, 4);
    NumbersPrefix(s, NodeKey, 5);
    assert s[..6] == s;
  }

  lemma Nodes2Numbers()
    ensures Numbers(Nodes2(), NodeKey) == {1, 2, 3, 4, 5}
  {
    var s := Nodes2();
    assert s[..0] == [];
    NumbersPrefix(s, NodeKey, 0);
    NumbersPrefix(s, NodeKey, 1);
    NumbersPrefix(s, NodeKey, 2);
    NumbersPrefix(s, NodeKey, 3);
    NumbersPrefix(s, NodeKey, 4);
    assert s[..5] == s;
  }

  lemma KeptPrefix<T>(genes: seq<T>, key: T -> int, matching: set<int>, k: nat)
    requires k < |genes|
    ensures Filter(genes[..k + 1], KeyIn(key, matching))
            == Filter(genes[..k], KeyIn(key, matching)) + if key(genes[k]) in matching then [genes[k]] else []
  {
    assert DropLast(genes[..k + 1]) == genes[..k];
    assert KeyIn(key, matching)(genes[k]) == (key(genes[k]) in matching);
  }

  lemma IndexByPrefix<T>(genes: seq<T>, key: T -> int, k: nat)
    requires k < |genes|
    ensures IndexBy(genes[..k + 1], key) == IndexBy(genes[..k], key)[key(genes[k]) := genes[k]]
  {
    assert DropLast(genes[..k + 1]) == genes[..k];
  }

  lemma Nodes1Kept()
    ensures Filter(Nodes1(), KeyIn(NodeKey, {1, 2, 3, 4})) == Nodes1()[..4]
  {
    var s := Nodes1();
    var matching := {1, 2, 3, 4};
    assert s[..0] == [];
    KeptPrefix(s, NodeKey, matching, 0);
    KeptPrefix(s, NodeKey, matching, 1);
    KeptPrefix(s, NodeKey, matching, 2);
    KeptPrefix(s, NodeKey, matching, 3);
    KeptPrefix(s, NodeKey, matching, 4);
    KeptPrefix(s, NodeKey, matching, 5);
    assert s[..6] == s;
    assert s[..4] == [s[0], s[1], s[2], s[3]];
  }

  lemma Nodes1Index()
    ensures MatchingIndex(Nodes1(), NodeKey, {1, 2, 3, 4})
            == map[1 := Nodes1()[0], 2 := Nodes1()[1], 3 := Nodes1()[2], 4 := Nodes1()[3]]
  {
    Nodes1Kept();
    var s := Nodes1()[..4];
    assert s[..0] == [];
    IndexByPrefix(s, NodeKey, 0);
    IndexByPrefix(s, NodeKey, 1);
    IndexByPrefix(s, NodeKey, 2);
    IndexByPrefix(s, NodeKey, 3);
    assert s[..4] == s;
  }

  /** The loop over the second node list: the shared numbers 3 and 4 add
      |0.2 - 1.2| and |1.2 - 1.5|. */
  lemma NodeLoopExample(d: map<int, Node>)
    requires d == map[1 := Nodes1()[0], 2 := Nodes1()[1], 3 := Nodes1()[2], 4 := Nodes1()[3]]
    ensures DifferenceSumUpTo(Nodes2(), NodeKey, NodeBias, d, {1, 2, 3, 4}, 5) == 1.3
  {
    var t, matching := Nodes2(), {1, 2, 3, 4};
    assert DifferenceSumUpTo(t, NodeKey, NodeBias, d, matching, 2) == 0.0;
    assert DifferenceSumUpTo(t, NodeKey, NodeBias, d, matching, 3) == 1.0;
    assert DifferenceSumUpTo(t, NodeKey, NodeBias, d, matching, 4) == 1.3;
  }

  lemma NodeMatchingSumExample()
    ensures MatchingSum(Nodes1(), Nodes2(), NodeKey, NodeBias) == 1.3
  {
    Nodes1Numbers();
    Nodes2Numbers();
    assert Numbers(Nodes1(), NodeKey) * Numbers(Nodes2(), NodeKey) == {1, 2, 3, 4};
    Nodes1Index();
    NodeLoopExample(MatchingIndex(Nodes1(), NodeKey, {1, 2, 3, 4}));
  }

  lemma Connections1Numbers()
    ensures Numbers(Connections1(), ConnectionKey) == {1, 2, 3, 4, 5, 6}
  {
    var s := Connections1();
    assert s[..0] == [];
    NumbersPrefix(s, ConnectionKey, 0);
    NumbersPrefix(s, ConnectionKey, 1);
    NumbersPrefix(s, ConnectionKey, 2);
    NumbersPrefix(s, ConnectionKey, 3);
    NumbersPrefix(s, ConnectionKey, 4);
    NumbersPrefix(s, ConnectionKey, 5);
    assert s[..6] == s;
  }

  lemma Connections2Numbers()
    ensures Numbers(Connections2(), ConnectionKey) == {1, 2, 3, 4, 6, 7, 8}
  {
    var s := Connections2();
    assert s[..0] == [];
    NumbersPrefix(s, ConnectionKey, 0);
    NumbersPrefix(s, ConnectionKey, 1);
    NumbersPrefix(s, ConnectionKey, 2);
    assert Numbers(s[..3], ConnectionKey) == {1, 2, 3};
    NumbersPrefix(s, ConnectionKey, 3);
    NumbersPrefix(s, ConnectionKey, 4);
    assert Numbers(s[..5], ConnectionKey) == {1, 2, 3, 4, 6};
    NumbersPrefix(s, ConnectionKey, 5);
    NumbersPrefix(s, ConnectionKey, 6);
    assert s[..7] == s;
  }

  lemma Connections1Kept()
    ensures Filter(Connections1(), KeyIn(ConnectionKey, {1, 2, 3, 4, 6}))
            == [Connections1()[0], Connections1()[1], Connections1()[2], Connections1()[3], Connections1()[5]]
  {
    var s := Connections1();
    var matching := {1, 2, 3, 4, 6};
    assert s[..0] == [];
    KeptPrefix(s, ConnectionKey, matching, 0);
    KeptPrefix(s, ConnectionKey, matching, 1);
    KeptPrefix(s, ConnectionKey, matching, 2);
    KeptPrefix(s, ConnectionKey, matching, 3);
    KeptPrefix(s, ConnectionKey, matching, 4);
    KeptPrefix(s, ConnectionKey, matching, 5);
    assert s[..6] == s;
  }

  lemma Connections1Index()
    ensures MatchingIndex(Connections1(), ConnectionKey, {1, 2, 3, 4, 6})
            == map[1 := Connections1()[0], 2 := Connections1()[1], 3 := Connections1()[2],
                   4 := Connections1()[3], 6 := Connections1()[5]]
  {
    Connections1Kept();
    var c := Connections1();
    var s := [c[0], c[1], c[2], c[3], c[5]];
    assert s[..0] == [];
    IndexByPrefix(s, ConnectionKey, 0);
    IndexByPrefix(s, ConnectionKey, 1);
    IndexByPrefix(s, ConnectionKey, 2);
    IndexByPrefix(s, ConnectionKey, 3);
    IndexByPrefix(s, ConnectionKey, 4);
    assert s[..5] == s;
  }

  /** The loop over the second connection list: the shared numbers add
      0.4, 1.0, 2.4, 3.0 and 0; the numbers 7 and 8 are skipped. */
  lemma ConnectionLoopExample(d: map<int, Connection>)
    requires d == map[1 := Connections1()[0], 2 := Connections1()[1], 3 := Connections1()[2],
                      4 := Connections1()[3], 6 := Connections1()[5]]
    ensures DifferenceSumUpTo(Connections2(), ConnectionKey, ConnectionWeight, d, {1, 2, 3, 4, 6}, 7) == 6.8
  {
    var t, matching := Connections2(), {1, 2, 3, 4, 6};
    assert DifferenceSumUpTo(t, ConnectionKey, ConnectionWeight, d, matching, 1) == 0.4;
    assert DifferenceSumUpTo(t, ConnectionKey, ConnectionWeight, d, matching, 2) == 1.4;
    assert DifferenceSumUpTo(t, ConnectionKey, ConnectionWeight, d, matching, 3) == 3.8;
    assert DifferenceSumUpTo(t, ConnectionKey, ConnectionWeight, d, matching, 4) == 6.8;
    assert DifferenceSumUpTo(t, ConnectionKey, ConnectionWeight, d, matching, 5) == 6.8;
    assert DifferenceSumUpTo(t, ConnectionKey, ConnectionWeight, d, matching, 6) == 6.8;
  }

  lemma ConnectionMatchingSumExample()
    ensures MatchingSum(Connections1(), Connections2(), ConnectionKey, ConnectionWeight) == 6.8
  {
    Connections1Numbers();
    Connections2Numbers();
    assert Numbers(Connections1(), ConnectionKey) * Numbers(Connections2(), ConnectionKey) == {1, 2, 3, 4, 6};
    Connections1Index();
    ConnectionLoopExample(MatchingIndex(Connections1(), ConnectionKey, {1, 2, 3, 4, 6}));
  }

  lemma NodeSetsExample(a: set<int>, b: set<int>)
    requires a == {1, 2, 3, 4, 6, 7} && b == {1, 2, 3, 4, 5}
    ensures a * b == {1, 2, 3, 4} && |a * b| == 4 && DisjointCount(a, b) == 3
  {
    assert a - a * b == {6, 7};
    assert b - a * b == {5};
  }

  lemma ConnectionSetsExample(a: set<int>, b: set<int>)
    requires a == {1, 2, 3, 4, 5, 6} && b == {1, 2, 3, 4, 6, 7, 8}
    ensures a * b == {1, 2, 3, 4, 6} && |a * b| == 5 && DisjointCount(a, b) == 3
  {
    assert a - a * b == {5};
    assert b - a * b == {7, 8};
  }

  /** The node term of the test: 3 disjoint numbers (5, 6 and 7) over 6
      genes, and 1.3 over 4 shared numbers. */
  lemma NodeDistanceExample()
    ensures NodeDistance(Nodes1(), Nodes2(), ExampleConfig()) == Ok(3.0 / 6.0 * 2.0 + 0.325 * 1.0)
  {
    var s, t := Nodes1(), Nodes2();
    Nodes1Numbers();
    Nodes2Numbers();
    NodeMatchingSumExample();
    var a, b := Numbers(s, NodeKey), Numbers(t, NodeKey);
    NodeSetsExample(a, b);
    assert NodeDistance(s, t, ExampleConfig()) == Term(6, 3, 4, 1.3, 2.0, 1.0);
  }

  /** The connection term of the test: 3 disjoint numbers (5, 7 and 8) over
      7 genes, and 6.8 over 5 shared numbers. */
  lemma ConnectionDistanceExample()
    ensures ConnectionDistance(Connections1(), Connections2(), ExampleConfig()) == Ok(3.0 / 7.0 * 2.0 + 1.36 * 1.0)
  {
    var s, t := Connections1(), Connections2();
    Connections1Numbers();
    Connections2Numbers();
    ConnectionMatchingSumExample();
    var a, b := Numbers(s, ConnectionKey), Numbers(t, ConnectionKey);
    ConnectionSetsExample(a, b);
    assert ConnectionDistance(s, t, ExampleConfig()) == Term(7, 3, 5, 6.8, 2.0, 1.0);
  }

  /** `calculate_genetic_distance(g1, g2)` is the sum of the two terms the
      test expects. */
  lemma GeneticDistanceExample()
    ensures GeneticDistance(Nodes1(), Connections1(), Nodes2(), Connections2(), ExampleConfig())
            == Ok(3.0 / 7.0 * 2.0 + 1.36 * 1.0 + 3.0 / 6.0 * 2.0 + 0.325 * 1.0)
  {
    NodeDistanceExample();
    ConnectionDistanceExample();
    var n := NodeDistance(Nodes1(), Nodes2(), ExampleConfig());
    var c := ConnectionDistance(Connections1(), Connections2(), ExampleConfig());
    assert GeneticDistance(Nodes1(), Connections1(), Nodes2(), Connections2(), ExampleConfig()) == Add(n, c);
  }

  lemma SizesExample(a: set<int>, b: set<int>, c: set<int>, d: set<int>)
    requires a == {1, 2, 3, 4, 6, 7} && b == {1, 2, 3, 4, 5}
    requires c == {1, 2, 3, 4, 5, 6} && d == {1, 2, 3, 4, 6, 7, 8}
    ensures |a| == 6 && |b| == 5 && |c| == 6 && |d| == 7
  {
  }

  /** The test's four gene lists repeat no number. */
  lemma ExampleListsDistinct()
    ensures Distinct(Nodes1(), NodeKey) && Distinct(Nodes2(), NodeKey)
    ensures Distinct(Connections1(), ConnectionKey) && Distinct(Connections2(), ConnectionKey)
  {
    Nodes1Numbers();
    Nodes2Numbers();
    Connections1Numbers();
    Connections2Numbers();
    SizesExample(Numbers(Nodes1(), NodeKey), Numbers(Nodes2(), NodeKey),
                 Numbers(Connections1(), ConnectionKey), Numbers(Connections2(), ConnectionKey));
    CountedDistinct(Nodes1(), NodeKey);
    CountedDistinct(Nodes2(), NodeKey);
    CountedDistinct(Connections1(), ConnectionKey);
    CountedDistinct(Connections2(), ConnectionKey);
  }

  /** `calculate_genetic_distance(g2, g1)` equals `calculate_genetic_distance(g1, g2)`. */
  lemma GeneticDistanceExampleSymmetric()
    ensures GeneticDistance(Nodes2(), Connections2(), Nodes1(), Connections1(), ExampleConfig())
            == GeneticDistance(Nodes1(), Connections1(), Nodes2(), Connections2(), ExampleConfig())
  {
    ExampleListsDistinct();
    GeneticDistanceSymmetric(Nodes1(), Connections1(), Nodes2(), Connections2(), ExampleConfig());
  }
}
