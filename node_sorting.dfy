/** `nodes.sort(key=lambda node: node.x_position)`: Python's list sort is
    stable, so the result is the stable sort by x-position, written here as an
    insertion sort that puts each node after every earlier node whose
    x-position is not greater. */
module NodeSorting {
  import opened Model
  import opened Collections

  predicate SortedByX(ns: seq<Node>)
  {
    forall i, j :: 0 <= i < j < |ns| ==> ns[i].xPosition <= ns[j].xPosition
  }

  /** Places n before the first node with a greater x-position. */
  function Insert(sorted: seq<Node>, n: Node): seq<Node>
  {
    if sorted == [] then [n]
    else if n.xPosition < sorted[0].xPosition then [n] + sorted
    else [sorted[0]] + Insert(sorted[1..], n)
  }

  function SortByX(ns: seq<Node>): seq<Node>
  {
    if ns == [] then [] else Insert(SortByX(DropLast(ns)), Last(ns))
  }

  lemma {:induction false} InsertPermutes(sorted: seq<Node>, n: Node)
    ensures multiset(Insert(sorted, n)) == multiset(sorted) + multiset{n}
  {
    if sorted != [] && n.xPosition >= sorted[0].xPosition {
      InsertPermutes(sorted[1..], n);
      assert sorted == [sorted[0]] + sorted[1..];
    }
  }

  lemma {:induction false} InsertSorted(sorted: seq<Node>, n: Node)
    requires SortedByX(sorted)
    ensures SortedByX(Insert(sorted, n))
  {
    if sorted != [] && n.xPosition >= sorted[0].xPosition {
      var rest := sorted[1..];
      InsertSorted(rest, n);
      var r := Insert(rest, n);
      InsertPermutes(rest, n);
      forall y | y in r
        ensures sorted[0].xPosition <= y.xPosition
      {
        assert y in multiset(r);
        if y != n {
          assert y in multiset(rest);
        }
      }
      assert Insert(sorted, n) == [sorted[0]] + r;
    }
  }

  /** The result is ordered by x-position and holds the same nodes, each as
      often as before. */
  lemma {:induction false} SortByXSortsAndPermutes(ns: seq<Node>)
    ensures SortedByX(SortByX(ns))
    ensures multiset(SortByX(ns)) == multiset(ns)
  {
    if ns != [] {
      SortByXSortsAndPermutes(DropLast(ns));
      InsertSorted(SortByX(DropLast(ns)), Last(ns));
      InsertPermutes(SortByX(DropLast(ns)), Last(ns));
      assert ns == DropLast(ns) + [Last(ns)];
    }
  }

  lemma {:induction false} SelectAppend(xs: seq<Node>, ys: seq<Node>, v: real)
    ensures Select(xs + ys, NodeX, v) == Select(xs, NodeX, v) + Select(ys, NodeX, v)
    decreases |ys|
  {
    if ys == [] {
      assert xs + ys == xs;
    } else {
      assert DropLast(xs + ys) == xs + DropLast(ys);
      assert Last(xs + ys) == Last(ys);
      SelectAppend(xs, DropLast(ys), v);
    }
  }

  lemma SelectSingle(n: Node, v: real)
    ensures Select([n], NodeX, v) == if n.xPosition == v then [n] else []
  {
    assert DropLast([n]) == [];
  }

  lemma {:induction false} InsertStable(sorted: seq<Node>, n: Node, v: real)
    requires SortedByX(sorted)
    ensures Select(Insert(sorted, n), NodeX, v)
            == Select(sorted, NodeX, v) + if n.xPosition == v then [n] else []
  {
    SelectSingle(n, v);
    if sorted == [] {
    } else if n.xPosition < sorted[0].xPosition {
      InsertBefore(sorted, n, v);
    } else {
      var s0 := [sorted[0]];
      assert sorted == s0 + sorted[1..];
      SelectAppend(s0, Insert(sorted[1..], n), v);
      InsertStable(sorted[1..], n, v);
      SelectAppend(s0, sorted[1..], v);
    }
  }

  lemma InsertBefore(sorted: seq<Node>, n: Node, v: real)
    requires SortedByX(sorted) && sorted != [] && n.xPosition < sorted[0].xPosition
    ensures Select([n] + sorted, NodeX, v) == Select(sorted, NodeX, v) + if n.xPosition == v then [n] else []
  {
    SelectSingle(n, v);
    SelectAppend([n], sorted, v);
    if n.xPosition == v {
      SelectAbsent(sorted, NodeX, v);
    }
  }

  /** Stability: the nodes sharing an x-position keep their relative order. */
  lemma {:induction false} SortByXStable(ns: seq<Node>, v: real)
    ensures Select(SortByX(ns), NodeX, v) == Select(ns, NodeX, v)
  {
    if ns != [] {
      SortByXStable(DropLast(ns), v);
      SortByXSortsAndPermutes(DropLast(ns));
      InsertStable(SortByX(DropLast(ns)), Last(ns), v);
    }
  }
}
