/** Sequence utilities shared by the services: filtering, dictionaries built
    from a list by a key (last entry wins), grouping by a key, and sums.
    Each is defined from the left, element by element, the way the Python
    loops and comprehensions build them. */
module Collections {

  function Last<T>(xs: seq<T>): T
    requires |xs| > 0
  {
    xs[|xs| - 1]
  }

  function DropLast<T>(xs: seq<T>): seq<T>
    requires |xs| > 0
  {
    xs[..|xs| - 1]
  }

  /** The elements satisfying p, in order (`list(filter(p, xs))`). */
  function Filter<T>(xs: seq<T>, p: T -> bool): seq<T>
  {
    if xs == [] then []
    else Filter(DropLast(xs), p) + if p(Last(xs)) then [Last(xs)] else []
  }

  /** An element is kept exactly when it occurs and satisfies p; nothing is
      added and the length does not grow. */
  lemma {:induction false} FilterMembers<T>(xs: seq<T>, p: T -> bool)
    ensures forall x :: x in Filter(xs, p) <==> x in xs && p(x)
    ensures |Filter(xs, p)| <= |xs|
  {
    if xs != [] {
      FilterMembers(DropLast(xs), p);
      assert xs == DropLast(xs) + [Last(xs)];
    }
  }

  /** Filtering a concatenation filters each part. */
  lemma {:induction false} FilterAppend<T>(xs: seq<T>, ys: seq<T>, p: T -> bool)
    ensures Filter(xs + ys, p) == Filter(xs, p) + Filter(ys, p)
    decreases |ys|
  {
    if ys == [] {
      assert xs + ys == xs;
    } else {
      assert DropLast(xs + ys) == xs + DropLast(ys);
      assert Last(xs + ys) == Last(ys);
      FilterAppend(xs, DropLast(ys), p);
    }
  }

  /** `{key(x): x for x in xs}`: a later element overwrites an earlier one
      with the same key. */
  function IndexBy<T, K>(xs: seq<T>, key: T -> K): map<K, T>
  {
    if xs == [] then map[]
    else IndexBy(DropLast(xs), key)[key(Last(xs)) := Last(xs)]
  }

  /** The dictionary's keys are exactly the keys present. */
  lemma {:induction false} IndexByKeys<T, K>(xs: seq<T>, key: T -> K)
    ensures forall k :: k in IndexBy(xs, key) <==> exists i :: 0 <= i < |xs| && key(xs[i]) == k
  {
    if xs != [] {
      var init := DropLast(xs);
      IndexByKeys(init, key);
      assert forall i :: 0 <= i < |init| ==> init[i] == xs[i];
      forall k | exists i :: 0 <= i < |xs| && key(xs[i]) == k
        ensures k in IndexBy(xs, key)
      {
        var i :| 0 <= i < |xs| && key(xs[i]) == k;
        if i < |init| {
          assert key(init[i]) == k;
        }
      }
    }
  }

  /** Each key maps to the last element carrying it. */
  lemma {:induction false} IndexByFindsLast<T, K>(xs: seq<T>, key: T -> K)
    ensures forall k :: k in IndexBy(xs, key) ==>
      exists i :: 0 <= i < |xs| && xs[i] == IndexBy(xs, key)[k] && key(xs[i]) == k
                  && forall j :: i < j < |xs| ==> key(xs[j]) != k
  {
    if xs != [] {
      var init := DropLast(xs);
      IndexByFindsLast(init, key);
      var m := IndexBy(xs, key);
      forall k | k in m
        ensures exists i :: 0 <= i < |xs| && xs[i] == m[k] && key(xs[i]) == k
                            && forall j :: i < j < |xs| ==> key(xs[j]) != k
      {
        if k == key(Last(xs)) {
          assert xs[|xs| - 1] == m[k];
        } else {
          assert k in IndexBy(init, key);
          var i :| 0 <= i < |init| && init[i] == IndexBy(init, key)[k] && key(init[i]) == k
                   && forall j :: i < j < |init| ==> key(init[j]) != k;
          assert xs[i] == m[k];
        }
      }
    }
  }

  /** An entry of the dictionary is an element of the list carrying its key. */
  lemma IndexByEntry<T, K>(xs: seq<T>, key: T -> K, k: K)
    requires k in IndexBy(xs, key)
    ensures IndexBy(xs, key)[k] in xs && key(IndexBy(xs, key)[k]) == k
  {
    IndexByFindsLast(xs, key);
    var i :| 0 <= i < |xs| && xs[i] == IndexBy(xs, key)[k] && key(xs[i]) == k
             && forall j :: i < j < |xs| ==> key(xs[j]) != k;
  }

  /** When keys are unique, the dictionary maps the key of element i to it. */
  lemma IndexByUnique<T, K>(xs: seq<T>, key: T -> K, i: int)
    requires forall a, b :: 0 <= a < b < |xs| ==> key(xs[a]) != key(xs[b])
    requires 0 <= i < |xs|
    ensures key(xs[i]) in IndexBy(xs, key) && IndexBy(xs, key)[key(xs[i])] == xs[i]
  {
    IndexByFindsLast(xs, key);
    var k := key(xs[i]);
    var j :| 0 <= j < |xs| && xs[j] == IndexBy(xs, key)[k] && key(xs[j]) == k
             && forall l :: j < l < |xs| ==> key(xs[l]) != k;
    assert j == i;
  }

  /** The elements whose key is k, in order. */
  function Select<T, K(==)>(xs: seq<T>, key: T -> K, k: K): seq<T>
  {
    if xs == [] then []
    else Select(DropLast(xs), key, k) + if key(Last(xs)) == k then [Last(xs)] else []
  }

  /** Selecting by a key absent from a list gives nothing. */
  lemma {:induction false} SelectAbsent<T, K>(xs: seq<T>, key: T -> K, k: K)
    requires forall i :: 0 <= i < |xs| ==> key(xs[i]) != k
    ensures Select(xs, key, k) == []
  {
    if xs != [] {
      assert forall i :: 0 <= i < |DropLast(xs)| ==> DropLast(xs)[i] == xs[i];
      SelectAbsent(DropLast(xs), key, k);
    }
  }

  /** A dictionary of lists built by appending each element to the list under
      its key, creating the list on first sight. */
  function GroupBy<T, K>(xs: seq<T>, key: T -> K): map<K, seq<T>>
  {
    if xs == [] then map[]
    else
      var m := GroupBy(DropLast(xs), key);
      var k := key(Last(xs));
      m[k := (if k in m then m[k] else []) + [Last(xs)]]
  }

  /** The keys of the grouping are exactly the keys present. */
  lemma {:induction false} GroupByKeys<T, K>(xs: seq<T>, key: T -> K)
    ensures forall k :: k in GroupBy(xs, key) <==> exists i :: 0 <= i < |xs| && key(xs[i]) == k
  {
    if xs != [] {
      var init := DropLast(xs);
      GroupByKeys(init, key);
      assert forall i :: 0 <= i < |init| ==> init[i] == xs[i];
      forall k | exists i :: 0 <= i < |xs| && key(xs[i]) == k
        ensures k in GroupBy(xs, key)
      {
        var i :| 0 <= i < |xs| && key(xs[i]) == k;
        if i < |init| {
          assert key(init[i]) == k;
          assert k in GroupBy(init, key);
        } else {
          assert k == key(Last(xs));
        }
      }
    }
  }

  lemma KeyAbsent<T, K>(xs: seq<T>, key: T -> K, k: K)
    requires k !in GroupBy(xs, key)
    ensures forall i :: 0 <= i < |xs| ==> key(xs[i]) != k
  {
    GroupByKeys(xs, key);
  }

  /** The list under a key holds the elements with that key, each once, in
      their original order. */
  lemma {:induction false} GroupByIsSelect<T, K>(xs: seq<T>, key: T -> K)
    ensures forall k :: k in GroupBy(xs, key) ==> GroupBy(xs, key)[k] == Select(xs, key, k)
  {
    if xs != [] {
      var init := DropLast(xs);
      GroupByIsSelect(init, key);
      GroupByKeys(init, key);
      assert forall i :: 0 <= i < |init| ==> init[i] == xs[i];
      var m := GroupBy(xs, key);
      forall k | k in m
        ensures m[k] == Select(xs, key, k)
      {
        if k == key(Last(xs)) && k !in GroupBy(init, key) {
          KeyAbsent(init, key, k);
          SelectAbsent(init, key, k);
        }
      }
    }
  }

  /** Selecting by k keeps every occurrence of an element with key k and
      no other element. */
  lemma {:induction false} SelectCount<T, K>(xs: seq<T>, key: T -> K, k: K, x: T)
    ensures multiset(Select(xs, key, k))[x] == if key(x) == k then multiset(xs)[x] else 0
  {
    if xs != [] {
      SelectCount(DropLast(xs), key, k, x);
      assert xs == DropLast(xs) + [Last(xs)];
    }
  }

  /** Every element lands in exactly one group: the group lengths add up. */
  lemma {:induction false} SelectPartitions<T, K>(xs: seq<T>, key: T -> K, x: T)
    requires x in xs
    ensures x in Select(xs, key, key(x))
  {
    if x != Last(xs) {
      assert xs == DropLast(xs) + [Last(xs)];
      SelectPartitions(DropLast(xs), key, x);
    }
  }

  /** The sum of f over the elements. */
  function Sum<T>(xs: seq<T>, f: T -> real): real
  {
    if xs == [] then 0.0 else Sum(DropLast(xs), f) + f(Last(xs))
  }

  /** Sums split over a concatenation. */
  lemma {:induction false} SumAppend<T>(xs: seq<T>, ys: seq<T>, f: T -> real)
    ensures Sum(xs + ys, f) == Sum(xs, f) + Sum(ys, f)
    decreases |ys|
  {
    if ys == [] {
      assert xs + ys == xs;
    } else {
      assert DropLast(xs + ys) == xs + DropLast(ys);
      assert Last(xs + ys) == Last(ys);
      SumAppend(xs, DropLast(ys), f);
    }
  }

  lemma SumSingle<T>(x: T, f: T -> real)
    ensures Sum([x], f) == f(x)
  {
    assert DropLast([x]) == [];
  }

  /** Sums of functions that agree on the elements are equal. */
  lemma {:induction false} SumPointwise<T>(xs: seq<T>, f: T -> real, g: T -> real)
    requires forall x :: x in xs ==> f(x) == g(x)
    ensures Sum(xs, f) == Sum(xs, g)
  {
    if xs != [] {
      assert forall x :: x in DropLast(xs) ==> x in xs;
      SumPointwise(DropLast(xs), f, g);
    }
  }

  /** Removing the element at j takes one occurrence of it out. */
  lemma RemoveAtMultiset<T>(ys: seq<T>, j: int)
    requires 0 <= j < |ys|
    ensures multiset(ys[..j] + ys[j + 1..]) == multiset(ys) - multiset{ys[j]}
  {
    assert ys == ys[..j] + [ys[j]] + ys[j + 1..];
  }

  /** The sum with the element at j taken out. */
  lemma SumRemoveAt<T>(ys: seq<T>, j: int, f: T -> real)
    requires 0 <= j < |ys|
    ensures Sum(ys, f) == Sum(ys[..j] + ys[j + 1..], f) + f(ys[j])
  {
    var left, right := ys[..j], ys[j + 1..];
    assert ys == left + [ys[j]] + right;
    SumAppend(left + [ys[j]], right, f);
    SumAppend(left, [ys[j]], f);
    SumSingle(ys[j], f);
    SumAppend(left, right, f);
  }

  /** A sum does not depend on the order of its terms. */
  lemma {:induction false} SumPermutation<T>(xs: seq<T>, ys: seq<T>, f: T -> real)
    requires multiset(xs) == multiset(ys)
    ensures Sum(xs, f) == Sum(ys, f)
    decreases |xs|
  {
    if xs != [] {
      var x := Last(xs);
      assert xs == DropLast(xs) + [x];
      assert x in multiset(ys);
      var j :| 0 <= j < |ys| && ys[j] == x;
      RemoveAtMultiset(xs, |xs| - 1);
      RemoveAtMultiset(ys, j);
      assert xs[..|xs| - 1] + xs[|xs|..] == DropLast(xs);
      SumPermutation(DropLast(xs), ys[..j] + ys[j + 1..], f);
      SumRemoveAt(ys, j, f);
    }
  }
}
