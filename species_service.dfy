/** `species_service`: the genetic distance between two genomes, as the sum
    of a node term and a connection term. Both terms are the same
    computation over a gene list, keyed by innovation number and reading
    one number per gene (the bias of a node, the weight of a connection),
    so it is written once, generically.

    A term is `disjoint_factor * d / max(len(genes1), len(genes2))` plus
    `matching_factor * sum / len(matching)`, where `matching` is the set of
    innovation numbers both lists carry, `d` counts the numbers only one of
    them carries, and `sum` adds |value(g2) - value(g1)| over the second
    list's matching genes, g1 being the first list's gene with that number. */
module SpeciesService {
  import opened Wrappers
  import opened Model
  import opened Collections

  function Abs(x: real): (r: real)
    ensures 0.0 <= r && (r == x || r == -x)
  {
    if x < 0.0 then -x else x
  }

  /** `set(key(g) for g in genes)`. */
  function Numbers<T>(genes: seq<T>, key: T -> int): set<int>
  {
    if genes == [] then {} else Numbers(DropLast(genes), key) + {key(Last(genes))}
  }

  /** The set holds exactly the numbers the genes carry. */
  lemma {:induction false} NumbersMembers<T>(genes: seq<T>, key: T -> int)
    ensures forall k :: k in Numbers(genes, key) <==> exists i :: 0 <= i < |genes| && key(genes[i]) == k
  {
    if genes != [] {
      var init := DropLast(genes);
      NumbersMembers(init, key);
      assert forall i :: 0 <= i < |init| ==> init[i] == genes[i];
      forall k | exists i :: 0 <= i < |genes| && key(genes[i]) == k
        ensures k in Numbers(genes, key)
      {
        var i :| 0 <= i < |genes| && key(genes[i]) == k;
        if i < |init| {
          assert key(init[i]) == k;
        }
      }
    }
  }

  /** No two genes of the list carry the same number, as in every genome the
      services build. */
  predicate Distinct<T>(genes: seq<T>, key: T -> int)
  {
    forall i, j :: 0 <= i < j < |genes| ==> key(genes[i]) != key(genes[j])
  }

  /** A list carries at most as many numbers as it has genes. */
  lemma {:induction false} NumbersBound<T>(genes: seq<T>, key: T -> int)
    ensures |Numbers(genes, key)| <= |genes|
  {
    if genes != [] {
      NumbersBound(DropLast(genes), key);
    }
  }

  /** A list that carries as many numbers as it has genes repeats none. */
  lemma {:induction false} CountedDistinct<T>(genes: seq<T>, key: T -> int)
    requires |Numbers(genes, key)| == |genes|
    ensures Distinct(genes, key)
  {
    if genes != [] {
      var init := DropLast(genes);
      NumbersBound(init, key);
      assert key(Last(genes)) !in Numbers(init, key);
      CountedDistinct(init, key);
      NumbersMembers(init, key);
      forall i, j | 0 <= i < j < |genes|
        ensures key(genes[i]) != key(genes[j])
      {
        assert genes[i] == init[i];
        if j < |init| {
          assert genes[j] == init[j];
        }
      }
    }
  }

  /** `len(g1 - matching) + len(g2 - matching)`. */
  function DisjointCount(a: set<int>, b: set<int>): nat
  {
    |a - a * b| + |b - a * b|
  }

  /** The count is the size of the symmetric difference, and does not depend
      on the order of the two sets. */
  lemma DisjointIsSymmetricDifference(a: set<int>, b: set<int>)
    ensures DisjointCount(a, b) == |(a - b) + (b - a)|
    ensures DisjointCount(a, b) == DisjointCount(b, a)
  {
    assert a - a * b == a - b;
    assert b - a * b == b - a;
    assert (a - b) * (b - a) == {};
    assert a * b == b * a;
  }

  /** `lambda g: key(g) in matching`. */
  function KeyIn<T>(key: T -> int, matching: set<int>): T -> bool
  {
    (g: T) => key(g) in matching
  }

  /** `{key(g): g for g in filter(lambda g: key(g) in matching, genes)}`.
      When every shared number occurs in the list, the index has an entry
      for each of them, and each entry is a gene of the list carrying it. */
  function MatchingIndex<T>(genes: seq<T>, key: T -> int, matching: set<int>): (d: map<int, T>)
    ensures matching <= Numbers(genes, key) ==>
      d.Keys == matching && forall k :: k in matching ==> d[k] in genes && key(d[k]) == k
  {
    MatchingIndexEntries(genes, key, matching);
    IndexBy(Filter(genes, KeyIn(key, matching)), key)
  }

  lemma MatchingIndexEntries<T>(genes: seq<T>, key: T -> int, matching: set<int>)
    ensures var d := IndexBy(Filter(genes, KeyIn(key, matching)), key);
      matching <= Numbers(genes, key) ==>
        d.Keys == matching && forall k :: k in matching ==> d[k] in genes && key(d[k]) == k
  {
    var kept := Filter(genes, KeyIn(key, matching));
    var d := IndexBy(kept, key);
    FilterMembers(genes, KeyIn(key, matching));
    IndexByKeys(kept, key);
    NumbersMembers(genes, key);
    if matching <= Numbers(genes, key) {
      forall k | k in matching
        ensures k in d
      {
        var i :| 0 <= i < |genes| && key(genes[i]) == k;
        assert genes[i] in kept;
        var j :| 0 <= j < |kept| && kept[j] == genes[i];
        assert key(kept[j]) == k;
      }
      forall k | k in d
        ensures k in matching && d[k] in genes && key(d[k]) == k
      {
        IndexByEntry(kept, key, k);
      }
    }
  }

  /** The loop `for g2 in genes2: if key(g2) in matching: sum += abs(...)`
      after its first n rounds. */
  function DifferenceSumUpTo<T>(genes2: seq<T>, key: T -> int, value: T -> real, index1: map<int, T>,
                                matching: set<int>, n: nat): real
    requires n <= |genes2| && matching <= index1.Keys
    decreases n
  {
    if n == 0 then 0.0
    else
      var g := genes2[n - 1];
      DifferenceSumUpTo(genes2, key, value, index1, matching, n - 1)
      + if key(g) in matching then Abs(value(g) - value(index1[key(g)])) else 0.0
  }

  /** The loop's sum over the whole second list, with the index built from
      the first. */
  function MatchingSum<T>(genes1: seq<T>, genes2: seq<T>, key: T -> int, value: T -> real): real
  {
    var matching := Numbers(genes1, key) * Numbers(genes2, key);
    DifferenceSumUpTo(genes2, key, value, MatchingIndex(genes1, key, matching), matching, |genes2|)
  }

  /** `max(len(genes1), len(genes2))`. */
  function Longer(n1: nat, n2: nat): nat
  {
    if n1 >= n2 then n1 else n2
  }

  /** The arithmetic of a term: `(disjoint_factor * disjoint) / max_size +
      sum / shared * matching_factor`, raising on either division by zero. */
  function Term(maxSize: nat, disjoint: nat, shared: nat, sum: real, disjointFactor: real, matchingFactor: real)
    : Result<real, ArithmeticError>
  {
    if maxSize == 0 then Err(ZeroDivision)
    else if shared == 0 then Err(ZeroDivision)
    else Ok(Compatibility(disjoint, maxSize, sum, shared, disjointFactor, matchingFactor))
  }

  /** The compatibility formula: disjoint genes per gene of the longer genome,
      plus the mean difference of the matching genes, each weighted. */
  function Compatibility(disjoint: nat, maxSize: nat, sum: real, shared: nat,
                         disjointFactor: real, matchingFactor: real): real
    requires maxSize > 0 && shared > 0
  {
    disjointFactor * disjoint as real / maxSize as real + sum / shared as real * matchingFactor
  }

  /** One term of the distance. */
  function GeneDistance<T>(genes1: seq<T>, genes2: seq<T>, key: T -> int, value: T -> real,
                           disjointFactor: real, matchingFactor: real): Result<real, ArithmeticError>
  {
    var a := Numbers(genes1, key);
    var b := Numbers(genes2, key);
    Term(Longer(|genes1|, |genes2|), DisjointCount(a, b), |a * b|, MatchingSum(genes1, genes2, key, value),
         disjointFactor, matchingFactor)
  }

  /** `_calculate_genetic_distance_nodes`. */
  function NodeDistance(nodes1: seq<Node>, nodes2: seq<Node>, config: NeatConfig): Result<real, ArithmeticError>
  {
    GeneDistance(nodes1, nodes2, NodeKey, NodeBias, config.compatibilityFactorDisjointGenes,
                 config.compatibilityFactorMatchingGenes)
  }

  /** `_calculate_genetic_distance_connections`. */
  function ConnectionDistance(connections1: seq<Connection>, connections2: seq<Connection>, config: NeatConfig)
    : Result<real, ArithmeticError>
  {
    GeneDistance(connections1, connections2, ConnectionKey, ConnectionWeight, config.compatibilityFactorDisjointGenes,
                 config.compatibilityFactorMatchingGenes)
  }

  /** `calculate_genetic_distance`: the node term plus the connection term;
      the node term is computed first, so its error wins. */
  function GeneticDistance(nodes1: seq<Node>, connections1: seq<Connection>, nodes2: seq<Node>,
                           connections2: seq<Connection>, config: NeatConfig): Result<real, ArithmeticError>
  {
    Add(NodeDistance(nodes1, nodes2, config), ConnectionDistance(connections1, connections2, config))
  }

  /** The sum of two terms, raising with the first term's error first. */
  function Add(x: Result<real, ArithmeticError>, y: Result<real, ArithmeticError>): Result<real, ArithmeticError>
  {
    match x
    case Err(e) => Err(e)
    case Ok(a) =>
      match y
      case Err(e) => Err(e)
      case Ok(b) => Ok(a + b)
  }

  /** A term raises exactly when the two lists share no number (which
      includes the case of two empty lists, where the first division already
      fails). Otherwise it is the disjoint factor times the size of the
      symmetric difference over the longer list's length, plus the matching
      factor times the mean of the loop's sum over the shared numbers. */
  lemma GeneDistanceFormula<T>(genes1: seq<T>, genes2: seq<T>, key: T -> int, value: T -> real,
                               disjointFactor: real, matchingFactor: real)
    ensures var r := GeneDistance(genes1, genes2, key, value, disjointFactor, matchingFactor);
      var a := Numbers(genes1, key);
      var b := Numbers(genes2, key);
      (r.Err? <==> a * b == {}) &&
      (r.Ok? ==>
         (Longer(|genes1|, |genes2|) > 0 &&
          r.value == Compatibility(|(a - b) + (b - a)|, Longer(|genes1|, |genes2|),
                                   MatchingSum(genes1, genes2, key, value), |a * b|,
                                   disjointFactor, matchingFactor)))
  {
    var a := Numbers(genes1, key);
    var b := Numbers(genes2, key);
    DisjointIsSymmetricDifference(a, b);
    if |genes1| == 0 {
      assert a == {};
    }
    if |genes2| == 0 {
      assert b == {};
    }
  }

  /** Two lists read alike: the same numbers and the same values, place by
      place, whatever else their genes hold. */
  predicate SameReadings<T>(xs: seq<T>, ys: seq<T>, key: T -> int, value: T -> real)
  {
    |xs| == |ys| && forall i :: 0 <= i < |xs| ==> key(xs[i]) == key(ys[i]) && value(xs[i]) == value(ys[i])
  }

  lemma {:induction false} NumbersSame<T>(xs: seq<T>, ys: seq<T>, key: T -> int, value: T -> real)
    requires SameReadings(xs, ys, key, value)
    ensures Numbers(xs, key) == Numbers(ys, key)
  {
    if xs != [] {
      assert SameReadings(DropLast(xs), DropLast(ys), key, value);
      NumbersSame(DropLast(xs), DropLast(ys), key, value);
    }
  }

  lemma {:induction false} FilterSame<T>(xs: seq<T>, ys: seq<T>, key: T -> int, value: T -> real, matching: set<int>)
    requires SameReadings(xs, ys, key, value)
    ensures SameReadings(Filter(xs, KeyIn(key, matching)), Filter(ys, KeyIn(key, matching)), key, value)
  {
    if xs != [] {
      assert SameReadings(DropLast(xs), DropLast(ys), key, value);
      FilterSame(DropLast(xs), DropLast(ys), key, value, matching);
    }
  }

  lemma {:induction false} IndexBySame<T>(xs: seq<T>, ys: seq<T>, key: T -> int, value: T -> real)
    requires SameReadings(xs, ys, key, value)
    ensures IndexBy(xs, key).Keys == IndexBy(ys, key).Keys
    ensures forall k :: k in IndexBy(xs, key) ==> value(IndexBy(xs, key)[k]) == value(IndexBy(ys, key)[k])
  {
    if xs != [] {
      assert SameReadings(DropLast(xs), DropLast(ys), key, value);
      IndexBySame(DropLast(xs), DropLast(ys), key, value);
    }
  }

  lemma {:induction false} DifferenceSumSame<T>(xs: seq<T>, ys: seq<T>, key: T -> int, value: T -> real,
                                                index: map<int, T>, index': map<int, T>, matching: set<int>, n: nat)
    requires SameReadings(xs, ys, key, value) && n <= |xs|
    requires matching <= index.Keys && matching <= index'.Keys
    requires forall k :: k in matching ==> value(index[k]) == value(index'[k])
    ensures DifferenceSumUpTo(xs, key, value, index, matching, n) == DifferenceSumUpTo(ys, key, value, index', matching, n)
    decreases n
  {
    if n > 0 {
      DifferenceSumSame(xs, ys, key, value, index, index', matching, n - 1);
    }
  }

  /** A term reads nothing of a gene but its number and its value. */
  lemma GeneDistanceReadsNumberAndValue<T>(genes1: seq<T>, genes1': seq<T>, genes2: seq<T>, genes2': seq<T>,
                                           key: T -> int, value: T -> real, disjointFactor: real,
                                           matchingFactor: real)
    requires SameReadings(genes1, genes1', key, value) && SameReadings(genes2, genes2', key, value)
    ensures GeneDistance(genes1, genes2, key, value, disjointFactor, matchingFactor)
            == GeneDistance(genes1', genes2', key, value, disjointFactor, matchingFactor)
  {
    NumbersSame(genes1, genes1', key, value);
    NumbersSame(genes2, genes2', key, value);
    var matching := Numbers(genes1, key) * Numbers(genes2, key);
    FilterSame(genes1, genes1', key, value, matching);
    IndexBySame(Filter(genes1, KeyIn(key, matching)), Filter(genes1', KeyIn(key, matching)), key, value);
    var index := MatchingIndex(genes1, key, matching);
    var index' := MatchingIndex(genes1', key, matching);
    NumbersMembers(genes1, key);
    DifferenceSumSame(genes2, genes2', key, value, index, index', matching, |genes2|);
  }

  /** The node term ignores node types, activation functions and x-positions;
      the connection term ignores endpoints and enabled flags. */
  lemma DistanceIgnoresOtherFields(nodes1: seq<Node>, nodes1': seq<Node>, nodes2: seq<Node>, nodes2': seq<Node>,
                                   connections1: seq<Connection>, connections1': seq<Connection>,
                                   connections2: seq<Connection>, connections2': seq<Connection>,
                                   config: NeatConfig)
    requires SameReadings(nodes1, nodes1', NodeKey, NodeBias) && SameReadings(nodes2, nodes2', NodeKey, NodeBias)
    requires SameReadings(connections1, connections1', ConnectionKey, ConnectionWeight)
    requires SameReadings(connections2, connections2', ConnectionKey, ConnectionWeight)
    ensures GeneticDistance(nodes1, connections1, nodes2, connections2, config)
            == GeneticDistance(nodes1', connections1', nodes2', connections2', config)
  {
    GeneDistanceReadsNumberAndValue(nodes1, nodes1', nodes2, nodes2', NodeKey, NodeBias,
                                    config.compatibilityFactorDisjointGenes, config.compatibilityFactorMatchingGenes);
    GeneDistanceReadsNumberAndValue(connections1, connections1', connections2, connections2', ConnectionKey,
                                    ConnectionWeight, config.compatibilityFactorDisjointGenes,
                                    config.compatibilityFactorMatchingGenes);
  }

  /** The summand of the matching term for a shared number k. */
  function Gap<T>(index1: map<int, T>, index2: map<int, T>, value: T -> real, k: int): real
  {
    if k in index1 && k in index2 then Abs(value(index1[k]) - value(index2[k])) else 0.0
  }

  function GapOf<T>(index1: map<int, T>, index2: map<int, T>, value: T -> real): int -> real
  {
    k => Gap(index1, index2, value, k)
  }

  lemma GapSymmetric<T>(index1: map<int, T>, index2: map<int, T>, value: T -> real)
    ensures forall k :: GapOf(index1, index2, value)(k) == GapOf(index2, index1, value)(k)
  {
    forall k
      ensures Gap(index1, index2, value, k) == Gap(index2, index1, value, k)
    {
      if k in index1 && k in index2 {
        var x, y := value(index1[k]), value(index2[k]);
        assert Abs(x - y) == Abs(y - x);
      }
    }
  }

  /** The numbers of the list's genes that lie in the set, in list order. */
  function MatchedKeys<T>(genes: seq<T>, key: T -> int, matching: set<int>): seq<int>
  {
    if genes == [] then []
    else MatchedKeys(DropLast(genes), key, matching) + if key(Last(genes)) in matching then [key(Last(genes))] else []
  }

  /** When each shared number of the second list indexes that very gene,
      the loop's sum is the sum of the gaps over the second list's shared
      numbers. */
  lemma {:induction false} DifferenceSumAsGaps<T>(genes2: seq<T>, key: T -> int, value: T -> real,
                                                  index1: map<int, T>, index2: map<int, T>, matching: set<int>,
                                                  n: nat)
    requires n <= |genes2| && matching <= index1.Keys && matching <= index2.Keys
    requires forall i :: 0 <= i < |genes2| && key(genes2[i]) in matching ==> index2[key(genes2[i])] == genes2[i]
    ensures DifferenceSumUpTo(genes2, key, value, index1, matching, n)
            == Sum(MatchedKeys(genes2[..n], key, matching), GapOf(index2, index1, value))
    decreases n
  {
    if n > 0 {
      DifferenceSumAsGaps(genes2, key, value, index1, index2, matching, n - 1);
      var g := genes2[n - 1];
      assert DropLast(genes2[..n]) == genes2[..n - 1];
      assert Last(genes2[..n]) == g;
      var tail := if key(g) in matching then [key(g)] else [];
      SumAppend(MatchedKeys(genes2[..n - 1], key, matching), tail, GapOf(index2, index1, value));
      if key(g) in matching {
        SumSingle(key(g), GapOf(index2, index1, value));
      }
    }
  }

  /** In a list with distinct numbers, each number of the set that the list
      carries is matched exactly once. */
  lemma {:induction false} MatchedKeysOnce<T>(genes: seq<T>, key: T -> int, matching: set<int>)
    requires Distinct(genes, key)
    ensures multiset(MatchedKeys(genes, key, matching)) == multiset(matching * Numbers(genes, key))
  {
    if genes != [] {
      var init := DropLast(genes);
      var k := key(Last(genes));
      assert Distinct(init, key);
      MatchedKeysOnce(init, key, matching);
      NumbersMembers(init, key);
      assert k !in Numbers(init, key);
      if k in matching {
        assert matching * Numbers(genes, key) == matching * Numbers(init, key) + {k};
      } else {
        assert matching * Numbers(genes, key) == matching * Numbers(init, key);
      }
    }
  }

  /** One side of the symmetry: for distinct lists the loop over the second
      list adds up the gaps over the shared numbers, each shared number once. */
  lemma MatchingSumOverShared<T>(genes1: seq<T>, genes2: seq<T>, key: T -> int, value: T -> real)
    requires Distinct(genes1, key) && Distinct(genes2, key)
    ensures var matching := Numbers(genes1, key) * Numbers(genes2, key);
      MatchingSum(genes1, genes2, key, value)
      == Sum(MatchedKeys(genes2, key, matching),
             GapOf(MatchingIndex(genes2, key, matching), MatchingIndex(genes1, key, matching), value))
      && multiset(MatchedKeys(genes2, key, matching)) == multiset(matching)
  {
    var matching := Numbers(genes1, key) * Numbers(genes2, key);
    var index1 := MatchingIndex(genes1, key, matching);
    var index2 := MatchingIndex(genes2, key, matching);
    forall i | 0 <= i < |genes2| && key(genes2[i]) in matching
      ensures index2[key(genes2[i])] == genes2[i]
    {
      var j :| 0 <= j < |genes2| && genes2[j] == index2[key(genes2[i])];
      assert key(genes2[j]) == key(genes2[i]);
    }
    DifferenceSumAsGaps(genes2, key, value, index1, index2, matching, |genes2|);
    assert genes2[..|genes2|] == genes2;
    MatchedKeysOnce(genes2, key, matching);
    assert matching * Numbers(genes2, key) == matching;
  }

  /** For lists with distinct numbers the matching sum does not depend on
      which list is looped over and which is indexed. */
  lemma MatchingSumSymmetric<T>(genes1: seq<T>, genes2: seq<T>, key: T -> int, value: T -> real)
    requires Distinct(genes1, key) && Distinct(genes2, key)
    ensures MatchingSum(genes1, genes2, key, value) == MatchingSum(genes2, genes1, key, value)
  {
    var a := Numbers(genes1, key);
    var b := Numbers(genes2, key);
    assert a * b == b * a;
    var matching := a * b;
    var index1 := MatchingIndex(genes1, key, matching);
    var index2 := MatchingIndex(genes2, key, matching);
    MatchingSumOverShared(genes1, genes2, key, value);
    MatchingSumOverShared(genes2, genes1, key, value);
    var keys1 := MatchedKeys(genes1, key, matching);
    var keys2 := MatchedKeys(genes2, key, matching);
    GapSymmetric(index1, index2, value);
    SumPointwise(keys1, GapOf(index1, index2, value), GapOf(index2, index1, value));
    SumPermutation(keys1, keys2, GapOf(index2, index1, value));
  }

  /** For lists with distinct numbers the term does not depend on which list
      comes first. */
  lemma GeneDistanceSymmetric<T>(genes1: seq<T>, genes2: seq<T>, key: T -> int, value: T -> real,
                                 disjointFactor: real, matchingFactor: real)
    requires Distinct(genes1, key) && Distinct(genes2, key)
    ensures GeneDistance(genes1, genes2, key, value, disjointFactor, matchingFactor)
            == GeneDistance(genes2, genes1, key, value, disjointFactor, matchingFactor)
  {
    var a := Numbers(genes1, key);
    var b := Numbers(genes2, key);
    assert a * b == b * a;
    DisjointIsSymmetricDifference(a, b);
    MatchingSumSymmetric(genes1, genes2, key, value);
    assert Longer(|genes1|, |genes2|) == Longer(|genes2|, |genes1|);
  }

  /** The genetic distance of two genomes whose lists carry distinct numbers
      is symmetric. */
  lemma GeneticDistanceSymmetric(nodes1: seq<Node>, connections1: seq<Connection>, nodes2: seq<Node>,
                                 connections2: seq<Connection>, config: NeatConfig)
    requires Distinct(nodes1, NodeKey) && Distinct(nodes2, NodeKey)
    requires Distinct(connections1, ConnectionKey) && Distinct(connections2, ConnectionKey)
    ensures GeneticDistance(nodes1, connections1, nodes2, connections2, config)
            == GeneticDistance(nodes2, connections2, nodes1, connections1, config)
  {
    GeneDistanceSymmetric(nodes1, nodes2, NodeKey, NodeBias, config.compatibilityFactorDisjointGenes,
                          config.compatibilityFactorMatchingGenes);
    GeneDistanceSymmetric(connections1, connections2, ConnectionKey, ConnectionWeight,
                          config.compatibilityFactorDisjointGenes, config.compatibilityFactorMatchingGenes);
  }

  /** The body shared by `_calculate_genetic_distance_nodes` and
      `_calculate_genetic_distance_connections`: the two sets, the disjoint
      term (which raises first when both lists are empty), the index of the
      first list's matching genes, the loop over the second list and the
      matching term. */
  method CalculateGeneDistance<T>(genes1: seq<T>, genes2: seq<T>, key: T -> int, value: T -> real,
                                  disjointFactor: real, matchingFactor: real)
    returns (r: Result<real, ArithmeticError>)
    ensures r == GeneDistance(genes1, genes2, key, value, disjointFactor, matchingFactor)
  {
    var numbers1 := Numbers(genes1, key);
    var numbers2 := Numbers(genes2, key);
    var matching := numbers1 * numbers2;
    var amountDisjoint := DisjointCount(numbers1, numbers2);
    var maxSize := Longer(|genes1|, |genes2|);
    if maxSize == 0 {
      return Err(ZeroDivision);
    }
    var sum := SumMatchingDifferences(genes1, genes2, key, value, matching);
    assert GeneDistance(genes1, genes2, key, value, disjointFactor, matchingFactor)
           == Term(maxSize, amountDisjoint, |matching|, sum, disjointFactor, matchingFactor);
    if |matching| == 0 {
      return Err(ZeroDivision);
    }
    r := Ok(Compatibility(amountDisjoint, maxSize, sum, |matching|, disjointFactor, matchingFactor));
  }

  /** The index of the first list's matching genes, and the loop adding up
      the differences over the second list's matching genes. */
  method SumMatchingDifferences<T>(genes1: seq<T>, genes2: seq<T>, key: T -> int, value: T -> real,
                                   matching: set<int>)
    returns (sum: real)
    requires matching == Numbers(genes1, key) * Numbers(genes2, key)
    ensures sum == MatchingSum(genes1, genes2, key, value)
  {
    var index1 := MatchingIndex(genes1, key, matching);
    sum := 0.0;
    for i := 0 to |genes2|
      invariant sum == DifferenceSumUpTo(genes2, key, value, index1, matching, i)
    {
      var g2 := genes2[i];
      if key(g2) in matching {
        sum := sum + Abs(value(g2) - value(index1[key(g2)]));
      }
    }
  }

  /** `_calculate_genetic_distance_nodes`, reading biases. */
  method CalculateGeneticDistanceNodes(genome1: Genome, genome2: Genome, config: NeatConfig)
    returns (r: Result<real, ArithmeticError>)
    ensures r == NodeDistance(genome1.nodes, genome2.nodes, config)
  {
    r := CalculateGeneDistance(genome1.nodes, genome2.nodes, NodeKey, NodeBias,
                               config.compatibilityFactorDisjointGenes, config.compatibilityFactorMatchingGenes);
  }

  /** `_calculate_genetic_distance_connections`, reading weights. */
  method CalculateGeneticDistanceConnections(genome1: Genome, genome2: Genome, config: NeatConfig)
    returns (r: Result<real, ArithmeticError>)
    ensures r == ConnectionDistance(genome1.connections, genome2.connections, config)
  {
    r := CalculateGeneDistance(genome1.connections, genome2.connections, ConnectionKey, ConnectionWeight,
                               config.compatibilityFactorDisjointGenes, config.compatibilityFactorMatchingGenes);
  }

  /** `calculate_genetic_distance`. Both terms are pure, so computing the
      connection term even when the node term raises changes nothing. */
  method CalculateGeneticDistance(genome1: Genome, genome2: Genome, config: NeatConfig)
    returns (r: Result<real, ArithmeticError>)
    ensures r == GeneticDistance(genome1.nodes, genome1.connections, genome2.nodes, genome2.connections, config)
  {
    var nodeTerm := CalculateGeneticDistanceNodes(genome1, genome2, config);
    var connectionTerm := CalculateGeneticDistanceConnections(genome1, genome2, config);
    r := Add(nodeTerm, connectionTerm);
  }
}
