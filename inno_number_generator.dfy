/** The single-core innovation number generator.

    Nodes and connections have separate counters and separate memo tables. A
    memo record (first, second, number) remembers the number handed out for a
    gene created between the nodes numbered `first` and `second`, in that
    order. `NextGeneration` forgets the node records only. */
module InnovationNumbers {
  import opened Wrappers
  import opened Model

  /** A memo record: the ordered endpoint pair and the number given to it. */
  datatype Record = Record(first: int, second: int, number: int)

  predicate Matches(r: Record, a: int, b: int)
  {
    r.first == a && r.second == b
  }

  /** The number the memo holds for the ordered pair (a, b): that of the first
      matching record, as the scan in the generator returns it. */
  function Lookup(memo: seq<Record>, a: int, b: int): (r: Option<int>)
  {
    if memo == [] then None
    else if Matches(memo[0], a, b) then Some(memo[0].number)
    else Lookup(memo[1..], a, b)
  }

  /** The lookup fails exactly when no record matches, and otherwise yields the
      number of the first matching record. */
  lemma {:induction false} LookupFindsFirstMatch(memo: seq<Record>, a: int, b: int)
    ensures Lookup(memo, a, b).None? <==> forall i :: 0 <= i < |memo| ==> !Matches(memo[i], a, b)
    ensures Lookup(memo, a, b).Some? ==>
      exists i :: 0 <= i < |memo| && Matches(memo[i], a, b) && memo[i].number == Lookup(memo, a, b).value
                  && forall j :: 0 <= j < i ==> !Matches(memo[j], a, b)
  {
    if memo != [] && !Matches(memo[0], a, b) {
      LookupFindsFirstMatch(memo[1..], a, b);
      assert forall i :: 1 <= i < |memo| ==> memo[i] == memo[1..][i - 1];
      if Lookup(memo, a, b).Some? {
        var i :| 0 <= i < |memo[1..]| && Matches(memo[1..][i], a, b) && memo[1..][i].number == Lookup(memo, a, b).value
                  && forall j :: 0 <= j < i ==> !Matches(memo[1..][j], a, b);
        assert Matches(memo[i + 1], a, b);
      }
    }
  }

  /** The scan over the memo list, returning at the first matching record. */
  method Scan(memo: seq<Record>, a: int, b: int) returns (found: Option<int>)
    ensures found == Lookup(memo, a, b)
  {
    var k := 0;
    while k < |memo|
      invariant 0 <= k <= |memo|
      invariant Lookup(memo, a, b) == Lookup(memo[k..], a, b)
    {
      if Matches(memo[k], a, b) {
        return Some(memo[k].number);
      }
      assert memo[k..][1..] == memo[k + 1..];
      k := k + 1;
    }
    return None;
  }

  /** The numbers of a memo strictly increase and lie in [0, counter), and no
      ordered pair is recorded twice. */
  ghost predicate WellFormedMemo(memo: seq<Record>, counter: int)
  {
    (forall i :: 0 <= i < |memo| ==> 0 <= memo[i].number < counter)
    && (forall i, j :: 0 <= i < j < |memo| ==> memo[i].number < memo[j].number)
    && (forall i, j :: 0 <= i < j < |memo| ==> !Matches(memo[j], memo[i].first, memo[i].second))
  }

  /** Appending a record for an unrecorded pair, numbered with the counter,
      keeps a memo well formed under the advanced counter. */
  lemma AppendKeepsWellFormed(memo: seq<Record>, counter: int, a: int, b: int)
    requires WellFormedMemo(memo, counter) && 0 <= counter
    requires Lookup(memo, a, b).None?
    ensures WellFormedMemo(memo + [Record(a, b, counter)], counter + 1)
  {
    LookupFindsFirstMatch(memo, a, b);
  }

  /** Looking up a pair right after recording it gives the recorded number. */
  lemma {:induction false} LookupAfterAppend(memo: seq<Record>, a: int, b: int, n: int)
    requires Lookup(memo, a, b).None?
    ensures Lookup(memo + [Record(a, b, n)], a, b) == Some(n)
  {
    if memo != [] {
      assert (memo + [Record(a, b, n)])[1..] == memo[1..] + [Record(a, b, n)];
      LookupAfterAppend(memo[1..], a, b, n);
    }
  }

  /** Recording (a, b) does not change what any other pair looks up to. */
  lemma {:induction false} LookupOtherAfterAppend(memo: seq<Record>, a: int, b: int, n: int, c: int, d: int)
    requires (c, d) != (a, b)
    ensures Lookup(memo + [Record(a, b, n)], c, d) == Lookup(memo, c, d)
  {
    if memo != [] {
      assert (memo + [Record(a, b, n)])[1..] == memo[1..] + [Record(a, b, n)];
      LookupOtherAfterAppend(memo[1..], a, b, n, c, d);
    }
  }

  /** One kind of numbering (nodes or connections): its counter and its memo. */
  datatype Table = Table(counter: int, records: seq<Record>)

  ghost predicate WellFormed(t: Table)
  {
    0 <= t.counter && WellFormedMemo(t.records, t.counter)
  }

  /** The ordered endpoint pair of a request, absent when either node is. */
  function Endpoints(node1: Option<Node>, node2: Option<Node>): Option<(int, int)>
  {
    if node1.None? || node2.None? then None
    else Some((node1.value.innovationNumber, node2.value.innovationNumber))
  }

  /** The number one request hands out, and the table after it: a request
      without endpoints takes the counter; one with endpoints takes the
      memoised number, or the counter, which is then recorded for the pair. */
  function Issue(t: Table, pair: Option<(int, int)>): (int, Table)
  {
    match pair
    case None => (t.counter, Table(t.counter + 1, t.records))
    case Some((a, b)) =>
      match Lookup(t.records, a, b)
      case Some(n) => (n, t)
      case None => (t.counter, Table(t.counter + 1, t.records + [Record(a, b, t.counter)]))
  }

  /** A request either takes a new number, equal to the old counter and above
      every recorded number, advancing the counter by one; or it takes a
      recorded number and leaves the table as it was. Either way the table
      stays well formed and the number lies below its counter. */
  lemma IssueFreshOrMemoised(t: Table, pair: Option<(int, int)>)
    requires WellFormed(t)
    ensures var (n, t') := Issue(t, pair);
      WellFormed(t') && 0 <= n < t'.counter
      && ((n == t.counter && t'.counter == t.counter + 1
           && forall i :: 0 <= i < |t.records| ==> t.records[i].number < n)
          || (t' == t && exists i :: 0 <= i < |t.records| && t.records[i].number == n))
  {
    if pair.Some? {
      var (a, b) := pair.value;
      LookupFindsFirstMatch(t.records, a, b);
      if Lookup(t.records, a, b).None? {
        AppendKeepsWellFormed(t.records, t.counter, a, b);
      }
    }
  }

  /** Asking again for the same ordered pair returns the same number and
      changes nothing. */
  lemma RepeatIsMemoised(t: Table, a: int, b: int)
    ensures var (n, t') := Issue(t, Some((a, b)));
      Issue(t', Some((a, b))) == (n, t')
  {
    if Lookup(t.records, a, b).None? {
      LookupAfterAppend(t.records, a, b, t.counter);
    }
  }

  /** Pairs are ordered: if neither (a, b) nor (b, a) is recorded yet, with
      a != b, the two get different numbers in either order of asking. */
  lemma ReversedPairIsDistinct(t: Table, a: int, b: int)
    requires WellFormed(t) && a != b
    requires Lookup(t.records, a, b).None? && Lookup(t.records, b, a).None?
    ensures var (n, t') := Issue(t, Some((a, b)));
      Issue(t', Some((b, a))).0 != n
  {
    LookupOtherAfterAppend(t.records, a, b, t.counter, b, a);
  }

  /** The numbers a sequence of requests hands out, and the final table. */
  function Run(t: Table, requests: seq<Option<(int, int)>>): (seq<int>, Table)
    decreases |requests|
  {
    if requests == [] then ([], t)
    else
      var (n, t1) := Issue(t, requests[0]);
      var (ns, t2) := Run(t1, requests[1..]);
      ([n] + ns, t2)
  }

  /** k requests without endpoints. */
  function Initials(k: nat): seq<Option<(int, int)>>
  {
    seq(k, i => None)
  }

  /** Requests without endpoints on a table with counter c give c, c+1, ... */
  lemma {:induction false} InitialRequestsCount(t: Table, k: nat)
    ensures Run(t, Initials(k)).0 == seq(k, i => t.counter + i)
    ensures Run(t, Initials(k)).1 == Table(t.counter + k, t.records)
    decreases k
  {
    if k > 0 {
      var t1 := Table(t.counter + 1, t.records);
      assert Initials(k)[1..] == Initials(k - 1);
      InitialRequestsCount(t1, k - 1);
      assert [t.counter] + seq(k - 1, i => t1.counter + i) == seq(k, i => t.counter + i);
    }
  }

  const Empty := Table(0, [])

  /** The node sequence: two initial nodes, then splits of (1, 2), (1, 2),
      (1, 3), an initial node, (1, 3) again and the reversed pair (3, 1). */
  lemma NodeNumberTrace()
    ensures Run(Empty, [None, None, Some((1, 2)), Some((1, 2)), Some((1, 3)), None, Some((1, 3)), Some((3, 1))]).0
            == [0, 1, 2, 2, 3, 4, 3, 5]
  {
    var m1 := [Record(1, 2, 2)];
    NodeNumberTraceMiddle(m1);
    assert [] + [Record(1, 2, 2)] == m1;
    assert Run(Table(2, []), [Some((1, 2)), Some((1, 2)), Some((1, 3)), None, Some((1, 3)), Some((3, 1))]).0
           == [2, 2, 3, 4, 3, 5];
    assert Run(Table(1, []), [None, Some((1, 2)), Some((1, 2)), Some((1, 3)), None, Some((1, 3)), Some((3, 1))]).0
           == [1, 2, 2, 3, 4, 3, 5];
  }

  lemma NodeNumberTraceMiddle(m1: seq<Record>)
    requires m1 == [Record(1, 2, 2)]
    ensures Run(Table(3, m1), [Some((1, 2)), Some((1, 3)), None, Some((1, 3)), Some((3, 1))]).0 == [2, 3, 4, 3, 5]
  {
    NodeNumberTraceTail(m1);
    assert Lookup(m1, 1, 2) == Some(2);
  }

  lemma NodeNumberTraceTail(m1: seq<Record>)
    requires m1 == [Record(1, 2, 2)]
    ensures Run(Table(3, m1), [Some((1, 3)), None, Some((1, 3)), Some((3, 1))]).0 == [3, 4, 3, 5]
  {
    var m2 := [Record(1, 2, 2), Record(1, 3, 3)];
    assert Lookup(m2, 3, 1) == None;
    assert Run(Table(5, m2), [Some((3, 1))]).0 == [5];
    assert Lookup(m2, 1, 3) == Some(3);
    assert Run(Table(5, m2), [Some((1, 3)), Some((3, 1))]).0 == [3, 5];
    assert Run(Table(4, m2), [None, Some((1, 3)), Some((3, 1))]).0 == [4, 3, 5];
    assert Lookup(m1, 1, 3) == None;
    assert m1 + [Record(1, 3, 3)] == m2;
  }

  /** The connection sequence: initial, initial, (1, 3), (1, 3), initial,
      (2, 3), (2, 3), (1, 3), (3, 1). */
  lemma ConnectionNumberTrace()
    ensures Run(Empty, [None, None, Some((1, 3)), Some((1, 3)), None, Some((2, 3)), Some((2, 3)), Some((1, 3)), Some((3, 1))]).0
            == [0, 1, 2, 2, 3, 4, 4, 2, 5]
  {
    ConnectionNumberTraceMiddle([Record(1, 3, 2)]);
    assert Run(Table(1, []), [None, Some((1, 3)), Some((1, 3)), None, Some((2, 3)), Some((2, 3)), Some((1, 3)), Some((3, 1))]).0
           == [1, 2, 2, 3, 4, 4, 2, 5];
  }

  lemma ConnectionNumberTraceMiddle(m1: seq<Record>)
    requires m1 == [Record(1, 3, 2)]
    ensures Run(Table(2, []), [Some((1, 3)), Some((1, 3)), None, Some((2, 3)), Some((2, 3)), Some((1, 3)), Some((3, 1))]).0
           == [2, 2, 3, 4, 4, 2, 5]
  {
    ConnectionNumberTraceTail(m1);
    assert Run(Table(3, m1), [None, Some((2, 3)), Some((2, 3)), Some((1, 3)), Some((3, 1))]).0 == [3, 4, 4, 2, 5];
    assert Lookup(m1, 1, 3) == Some(2);
    assert Run(Table(3, m1), [Some((1, 3)), None, Some((2, 3)), Some((2, 3)), Some((1, 3)), Some((3, 1))]).0
           == [2, 3, 4, 4, 2, 5];
    assert [] + [Record(1, 3, 2)] == m1;
  }

  lemma ConnectionNumberTraceTail(m1: seq<Record>)
    requires m1 == [Record(1, 3, 2)]
    ensures Run(Table(4, m1), [Some((2, 3)), Some((2, 3)), Some((1, 3)), Some((3, 1))]).0 == [4, 4, 2, 5]
  {
    var m2 := [Record(1, 3, 2), Record(2, 3, 4)];
    assert Lookup(m2, 3, 1) == None;
    assert Run(Table(5, m2), [Some((3, 1))]).0 == [5];
    assert Lookup(m2, 1, 3) == Some(2);
    assert Run(Table(5, m2), [Some((1, 3)), Some((3, 1))]).0 == [2, 5];
    assert Lookup(m2, 2, 3) == Some(4);
    assert Run(Table(5, m2), [Some((2, 3)), Some((1, 3)), Some((3, 1))]).0 == [4, 2, 5];
    assert Lookup(m1, 2, 3) == None;
    assert m1 + [Record(2, 3, 4)] == m2;
  }

  /** Across a new generation: the node pair (1, 2), numbered 1 before, is
      numbered anew (2) once the node memo is emptied, while the connection
      pair (1, 3), whose memo is kept, still gets 1. */
  lemma NextGenerationTrace()
    ensures var (before, t) := Run(Empty, [None, Some((1, 2)), Some((1, 2))]);
      before == [0, 1, 1] && Run(Table(t.counter, []), [Some((1, 2)), Some((1, 2))]).0 == [2, 2]
    ensures var (before, u) := Run(Empty, [None, Some((1, 3)), Some((1, 3))]);
      before == [0, 1, 1] && Run(u, [None, Some((1, 3)), Some((2, 3)), Some((2, 3))]).0 == [2, 1, 3, 3]
  {
    var m := [Record(1, 2, 1)];
    assert [] + [Record(1, 2, 1)] == m;
    assert Lookup(m, 1, 2) == Some(1);
    assert Run(Table(2, m), [Some((1, 2))]).0 == [1];
    assert [] + [Record(1, 2, 2)] == [Record(1, 2, 2)];
    assert Lookup([Record(1, 2, 2)], 1, 2) == Some(2);
    assert Run(Table(3, [Record(1, 2, 2)]), [Some((1, 2))]).0 == [2];
    var c := [Record(1, 3, 1)];
    var c2 := [Record(1, 3, 1), Record(2, 3, 3)];
    assert [] + [Record(1, 3, 1)] == c;
    assert Lookup(c, 1, 3) == Some(1);
    assert Run(Table(2, c), [Some((1, 3))]).0 == [1];
    assert Lookup(c2, 2, 3) == Some(3);
    assert Run(Table(4, c2), [Some((2, 3))]).0 == [3];
    assert Lookup(c, 2, 3) == None;
    assert c + [Record(2, 3, 3)] == c2;
    assert Run(Table(3, c), [Some((2, 3)), Some((2, 3))]).0 == [3, 3];
    assert Run(Table(3, c), [Some((1, 3)), Some((2, 3)), Some((2, 3))]).0 == [1, 3, 3];
  }

  /** The generator: a counter and a memo per kind. `nodeHistory` and
      `connectionHistory` are the numbers handed out so far, in order. */
  class InnovationNumberGenerator {
    var nodeCounter: int
    var connectionCounter: int
    var nodeInnovations: seq<Record>
    var connectionInnovations: seq<Record>
    ghost var nodeHistory: seq<int>
    ghost var connectionHistory: seq<int>

    function NodeTable(): Table
      reads this
    {
      Table(nodeCounter, nodeInnovations)
    }

    function ConnectionTable(): Table
      reads this
    {
      Table(connectionCounter, connectionInnovations)
    }

    /** Both tables are well formed, every number handed out lies below the
        counter of its kind, and every memoised number was handed out. */
    ghost predicate Valid()
      reads this
    {
      WellFormed(NodeTable()) && WellFormed(ConnectionTable())
      && (forall i :: 0 <= i < |nodeHistory| ==> 0 <= nodeHistory[i] < nodeCounter)
      && (forall i :: 0 <= i < |connectionHistory| ==> 0 <= connectionHistory[i] < connectionCounter)
      && (forall i :: 0 <= i < |nodeInnovations| ==> nodeInnovations[i].number in nodeHistory)
      && (forall i :: 0 <= i < |connectionInnovations| ==> connectionInnovations[i].number in connectionHistory)
    }

    constructor ()
      ensures Valid()
      ensures NodeTable() == Empty && ConnectionTable() == Empty
      ensures nodeHistory == [] && connectionHistory == []
    {
      nodeCounter := 0;
      connectionCounter := 0;
      nodeInnovations := [];
      connectionInnovations := [];
      nodeHistory := [];
      connectionHistory := [];
    }

    /** A new generation starts: the node memo is emptied, nothing else changes. */
    method NextGeneration(generation: int)
      requires Valid()
      modifies this
      ensures Valid()
      ensures NodeTable() == Table(old(nodeCounter), [])
      ensures ConnectionTable() == old(ConnectionTable())
      ensures nodeHistory == old(nodeHistory) && connectionHistory == old(connectionHistory)
    {
      nodeInnovations := [];
    }

    /** A node number: a node created by splitting the connection
        node1 -> node2 is numbered through the node table by that pair. A
        new number is above every node number handed out before; a memoised
        one was handed out before. */
    method GetNodeInnovationNumber(node1: Option<Node>, node2: Option<Node>) returns (n: int)
      requires Valid()
      modifies this
      ensures Valid()
      ensures (n, NodeTable()) == Issue(old(NodeTable()), Endpoints(node1, node2))
      ensures (n == old(nodeCounter) && forall m :: m in old(nodeHistory) ==> m < n) || n in old(nodeHistory)
      ensures nodeHistory == old(nodeHistory) + [n]
      ensures ConnectionTable() == old(ConnectionTable()) && connectionHistory == old(connectionHistory)
    {
      var t;
      n, t := NumberIn(NodeTable(), Endpoints(node1, node2));
      IssueFreshOrMemoised(NodeTable(), Endpoints(node1, node2));
      nodeCounter, nodeInnovations := t.counter, t.records;
      nodeHistory := nodeHistory + [n];
    }

    /** A connection number: a mutated connection input_node -> output_node
        is numbered through the connection table by that pair. */
    method GetConnectionInnovationNumber(inputNode: Option<Node>, outputNode: Option<Node>) returns (n: int)
      requires Valid()
      modifies this
      ensures Valid()
      ensures (n, ConnectionTable()) == Issue(old(ConnectionTable()), Endpoints(inputNode, outputNode))
      ensures (n == old(connectionCounter) && forall m :: m in old(connectionHistory) ==> m < n)
              || n in old(connectionHistory)
      ensures connectionHistory == old(connectionHistory) + [n]
      ensures NodeTable() == old(NodeTable()) && nodeHistory == old(nodeHistory)
    {
      var t;
      n, t := NumberIn(ConnectionTable(), Endpoints(inputNode, outputNode));
      IssueFreshOrMemoised(ConnectionTable(), Endpoints(inputNode, outputNode));
      connectionCounter, connectionInnovations := t.counter, t.records;
      connectionHistory := connectionHistory + [n];
    }
  }

  /** The shared body of both getters: without endpoints, the counter is
      handed out and advanced; with endpoints, the memo is scanned and on a
      miss the counter is handed out, advanced and recorded for the pair. */
  method NumberIn(t: Table, pair: Option<(int, int)>) returns (n: int, t': Table)
    ensures (n, t') == Issue(t, pair)
  {
    if pair.None? {
      return t.counter, Table(t.counter + 1, t.records);
    }
    var (a, b) := pair.value;
    var found := Scan(t.records, a, b);
    if found.Some? {
      return found.value, t;
    }
    n := t.counter;
    t' := Table(t.counter + 1, t.records + [Record(a, b, n)]);
  }

  /** The two kinds are numbered independently: node requests on a fresh
      generator leave the first connection number at 0. */
  method FirstConnectionAfterNodes() returns (nodes: seq<int>, connection: int)
    ensures nodes == [0, 1] && connection == 0
  {
    var g := new InnovationNumberGenerator();
    var a := g.GetNodeInnovationNumber(None, None);
    var b := g.GetNodeInnovationNumber(Some(Node(1, Input, 1.0, Step, 0.0)), Some(Node(3, Output, 1.2, Step, 1.0)));
    nodes := [a, b];
    connection := g.GetConnectionInnovationNumber(None, None);
  }
}
