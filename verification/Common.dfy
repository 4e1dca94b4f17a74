/** Small vocabulary shared by the models. */
module Common {

  /** A value that may be missing: a Python `None`, an absent key, a NULL column. */
  datatype Option<+T> = None | Some(value: T)

  /** The elements of `xs` that satisfy `p`, in order: a SQL `WHERE` or a list comprehension. */
  function Filter<T>(p: T -> bool, xs: seq<T>): (ys: seq<T>)
  {
    if xs == [] then []
    else (if p(xs[0]) then [xs[0]] else []) + Filter(p, xs[1..])
  }

  /** The first `n` elements, or all of them: a SQL `LIMIT`. */
  function Take<T>(n: nat, xs: seq<T>): (ys: seq<T>)
  {
    if n <= |xs| then xs[..n] else xs
  }

  lemma {:induction false} FilterConcat<T>(p: T -> bool, xs: seq<T>, ys: seq<T>)
    ensures Filter(p, xs + ys) == Filter(p, xs) + Filter(p, ys)
  {
    if xs == [] {
      assert xs + ys == ys;
    } else {
      var first := if p(xs[0]) then [xs[0]] else [];
      FilterConcat(p, xs[1..], ys);
      assert (xs + ys)[1..] == xs[1..] + ys;
      assert Filter(p, xs + ys) == first + (Filter(p, xs[1..]) + Filter(p, ys));
    }
  }

  lemma {:induction false} FilterMembers<T>(p: T -> bool, xs: seq<T>)
    ensures forall y | y in Filter(p, xs) :: y in xs && p(y)
    ensures forall y | y in xs && p(y) :: y in Filter(p, xs)
    ensures |Filter(p, xs)| <= |xs|
  {
    if xs != [] {
      FilterMembers(p, xs[1..]);
      assert forall y :: y in xs <==> y == xs[0] || y in xs[1..];
    }
  }

  /** Filtering twice is filtering once when the second test implies the first. */
  lemma {:induction false} FilterFilter<T>(p: T -> bool, q: T -> bool, xs: seq<T>)
    requires forall x | x in xs && p(x) :: q(x)
    ensures Filter(p, Filter(q, xs)) == Filter(p, xs)
  {
    if xs != [] {
      FilterFilter(p, q, xs[1..]);
      FilterConcat(p, if q(xs[0]) then [xs[0]] else [], Filter(q, xs[1..]));
    }
  }

  lemma {:induction false} FilterBoth<T>(p: T -> bool, q: T -> bool, both: T -> bool, xs: seq<T>)
    requires forall x | x in xs :: both(x) == (p(x) && q(x))
    ensures Filter(p, Filter(q, xs)) == Filter(both, xs)
  {
    if xs != [] {
      FilterBoth(p, q, both, xs[1..]);
      FilterConcat(p, if q(xs[0]) then [xs[0]] else [], Filter(q, xs[1..]));
    }
  }

  /** No two elements share an identifier: a PRIMARY KEY. */
  predicate UniqueBy<T>(id: T -> nat, xs: seq<T>)
  {
    forall i, j | 0 <= i < j < |xs| :: id(xs[i]) != id(xs[j])
  }

  lemma UniqueByEqual<T>(id: T -> nat, xs: seq<T>, x: T, y: T)
    requires UniqueBy(id, xs) && x in xs && y in xs && id(x) == id(y)
    ensures x == y
  {
    var i :| 0 <= i < |xs| && xs[i] == x;
    var j :| 0 <= j < |xs| && xs[j] == y;
  }

  lemma UniqueByAppend<T>(id: T -> nat, xs: seq<T>, x: T)
    requires UniqueBy(id, xs) && forall y | y in xs :: id(y) != id(x)
    ensures UniqueBy(id, xs + [x])
  {
    assert forall i | 0 <= i < |xs| :: (xs + [x])[i] in xs;
  }

  lemma {:induction false} FilterUniqueBy<T>(p: T -> bool, id: T -> nat, xs: seq<T>)
    requires UniqueBy(id, xs)
    ensures UniqueBy(id, Filter(p, xs))
  {
    if xs != [] {
      FilterUniqueBy(p, id, xs[1..]);
      FilterMembers(p, xs[1..]);
      var kept := Filter(p, xs[1..]);
      forall i | 0 <= i < |kept|
        ensures id(kept[i]) != id(xs[0])
      {
        var y := kept[i];
        assert y in Filter(p, xs[1..]);
        var j :| 0 <= j < |xs[1..]| && xs[1..][j] == y;
      }
    }
  }

  lemma {:induction false} FilterMonotone<T>(p: T -> bool, q: T -> bool, xs: seq<T>)
    requires forall x | x in xs && p(x) :: q(x)
    ensures |Filter(p, xs)| <= |Filter(q, xs)|
  {
    if xs != [] {
      FilterMonotone(p, q, xs[1..]);
    }
  }

  lemma {:induction false} FilterSame<T>(p: T -> bool, q: T -> bool, xs: seq<T>)
    requires forall x | x in xs :: p(x) == q(x)
    ensures Filter(p, xs) == Filter(q, xs)
  {
    if xs != [] {
      FilterSame(p, q, xs[1..]);
    }
  }

  /** A prefix filters to a prefix. */
  lemma FilterPrefix<T>(p: T -> bool, xs: seq<T>, k: nat)
    requires k <= |xs|
    ensures Filter(p, xs[..k]) <= Filter(p, xs)
  {
    assert xs == xs[..k] + xs[k..];
    FilterConcat(p, xs[..k], xs[k..]);
  }

  /** Insertion before the first element whose key is no smaller. */
  function InsertBy<T>(key: T -> int, x: T, sorted: seq<T>): (r: seq<T>)
  {
    if sorted == [] || key(sorted[0]) >= key(x) then [x] + sorted
    else [sorted[0]] + InsertBy(key, x, sorted[1..])
  }

  /** The stable sort by increasing key: a SQL `ORDER BY`, Python's `sorted`. */
  function SortBy<T>(key: T -> int, xs: seq<T>): (r: seq<T>)
  {
    if xs == [] then [] else InsertBy(key, xs[0], SortBy(key, xs[1..]))
  }

  lemma {:induction false} InsertByMultiset<T>(key: T -> int, x: T, sorted: seq<T>)
    ensures multiset(InsertBy(key, x, sorted)) == multiset(sorted) + multiset{x}
  {
    if sorted != [] && key(sorted[0]) < key(x) {
      assert sorted == [sorted[0]] + sorted[1..];
      InsertByMultiset(key, x, sorted[1..]);
    }
  }

  lemma {:induction false} SortByMultiset<T>(key: T -> int, xs: seq<T>)
    ensures multiset(SortBy(key, xs)) == multiset(xs) && |SortBy(key, xs)| == |xs|
  {
    if xs != [] {
      assert xs == [xs[0]] + xs[1..];
      SortByMultiset(key, xs[1..]);
      InsertByMultiset(key, xs[0], SortBy(key, xs[1..]));
      assert |multiset(SortBy(key, xs))| == |SortBy(key, xs)|;
    }
  }

  predicate SortedBy<T>(key: T -> int, xs: seq<T>)
  {
    forall i, j | 0 <= i < j < |xs| :: key(xs[i]) <= key(xs[j])
  }

  lemma {:induction false} InsertBySorted<T>(key: T -> int, x: T, sorted: seq<T>)
    requires SortedBy(key, sorted)
    ensures SortedBy(key, InsertBy(key, x, sorted))
  {
    if sorted != [] && key(sorted[0]) < key(x) {
      InsertBySorted(key, x, sorted[1..]);
      InsertByMultiset(key, x, sorted[1..]);
      forall y | y in InsertBy(key, x, sorted[1..])
        ensures key(sorted[0]) <= key(y)
      {
        assert y in multiset(InsertBy(key, x, sorted[1..]));
      }
    }
  }

  lemma {:induction false} SortBySorted<T>(key: T -> int, xs: seq<T>)
    ensures SortedBy(key, SortBy(key, xs))
  {
    if xs != [] {
      SortBySorted(key, xs[1..]);
      InsertBySorted(key, xs[0], SortBy(key, xs[1..]));
    }
  }

  lemma SameMembers<T>(xs: seq<T>, ys: seq<T>, x: T)
    requires multiset(xs) == multiset(ys) && x in xs
    ensures x in ys
  {
    assert x in multiset(xs);
    assert x in multiset(ys);
  }

  lemma InsertByMembers<T>(key: T -> int, x: T, sorted: seq<T>)
    ensures forall y | y in InsertBy(key, x, sorted) :: y in sorted || y == x
    ensures x in InsertBy(key, x, sorted) && forall y | y in sorted :: y in InsertBy(key, x, sorted)
  {
    var inserted := InsertBy(key, x, sorted);
    InsertByMultiset(key, x, sorted);
    assert multiset([x] + sorted) == multiset{x} + multiset(sorted);
    forall y | y in inserted
      ensures y in sorted || y == x
    {
      SameMembers(inserted, [x] + sorted, y);
    }
    forall y | y in [x] + sorted
      ensures y in inserted
    {
      SameMembers([x] + sorted, inserted, y);
    }
    assert x in [x] + sorted && forall y | y in sorted :: y in [x] + sorted;
  }

  lemma SortByMembers<T>(key: T -> int, xs: seq<T>)
    ensures forall x | x in SortBy(key, xs) :: x in xs
    ensures forall x | x in xs :: x in SortBy(key, xs)
  {
    SortByMultiset(key, xs);
    forall x | x in SortBy(key, xs)
      ensures x in xs
    {
      SameMembers(SortBy(key, xs), xs, x);
    }
    forall x | x in xs
      ensures x in SortBy(key, xs)
    {
      SameMembers(xs, SortBy(key, xs), x);
    }
  }

  lemma {:induction false} FilterInsertBy<T>(p: T -> bool, key: T -> int, x: T, sorted: seq<T>)
    requires SortedBy(key, sorted)
    ensures Filter(p, InsertBy(key, x, sorted)) ==
            if p(x) then InsertBy(key, x, Filter(p, sorted)) else Filter(p, sorted)
  {
    if sorted != [] {
      if key(sorted[0]) >= key(x) {
        assert ([x] + sorted)[1..] == sorted;
        FilterMembers(p, sorted);
        var kept := Filter(p, sorted);
        assert Filter(p, [x] + sorted) == if p(x) then [x] + kept else kept;
        if kept != [] {
          var first := kept[0];
          assert first in Filter(p, sorted);
          var i :| 0 <= i < |sorted| && sorted[i] == first;
        }
      } else {
        FilterInsertBy(p, key, x, sorted[1..]);
        var head, kept := sorted[0], Filter(p, sorted[1..]);
        var rest := InsertBy(key, x, sorted[1..]);
        assert ([head] + rest)[1..] == rest && ([head] + kept)[1..] == kept;
        assert Filter(p, [head] + rest) == if p(head) then [head] + Filter(p, rest) else Filter(p, rest);
        assert Filter(p, sorted) == if p(head) then [head] + kept else kept;
      }
    }
  }

  /** Filtering commutes with a stable sort. */
  lemma {:induction false} FilterSortBy<T>(p: T -> bool, key: T -> int, xs: seq<T>)
    ensures Filter(p, SortBy(key, xs)) == SortBy(key, Filter(p, xs))
  {
    if xs != [] {
      FilterSortBy(p, key, xs[1..]);
      SortBySorted(key, xs[1..]);
      FilterInsertBy(p, key, xs[0], SortBy(key, xs[1..]));
      var kept := Filter(p, xs[1..]);
      assert Filter(p, xs) == if p(xs[0]) then [xs[0]] + kept else kept;
      assert ([xs[0]] + kept)[1..] == kept;
    }
  }

  predicate StrictlyAscending(xs: seq<int>)
  {
    forall i, j | 0 <= i < j < |xs| :: xs[i] < xs[j]
  }

  predicate Unique<T(==)>(xs: seq<T>)
  {
    forall i, j | 0 <= i < j < |xs| :: xs[i] != xs[j]
  }

  method InsertAscending(sorted: seq<int>, k: int) returns (r: seq<int>)
    requires StrictlyAscending(sorted) && k !in sorted
    ensures StrictlyAscending(r) && forall x :: x in r <==> x in sorted || x == k
  {
    var j := 0;
    while j < |sorted| && sorted[j] < k
      invariant 0 <= j <= |sorted|
      invariant forall l | 0 <= l < j :: sorted[l] < k
    {
      j := j + 1;
    }
    assert j < |sorted| ==> sorted[j] > k;
    r := sorted[..j] + [k] + sorted[j..];
    assert forall x :: x in sorted <==> x in sorted[..j] || x in sorted[j..];
  }

  /** The distinct keys of a dictionary, in increasing order. */
  method SortedKeys(keys: seq<int>) returns (sorted: seq<int>)
    requires Unique(keys)
    ensures StrictlyAscending(sorted) && forall k :: k in sorted <==> k in keys
  {
    sorted := [];
    for i := 0 to |keys|
      invariant StrictlyAscending(sorted)
      invariant forall k :: k in sorted <==> k in keys[..i]
    {
      assert keys[..i + 1] == keys[..i] + [keys[i]];
      sorted := InsertAscending(sorted, keys[i]);
    }
    assert keys[..|keys|] == keys;
  }

  lemma {:induction false} FilterAll<T>(p: T -> bool, xs: seq<T>)
    requires forall x | x in xs :: p(x)
    ensures Filter(p, xs) == xs
  {
    if xs != [] {
      FilterAll(p, xs[1..]);
      assert xs == [xs[0]] + xs[1..];
    }
  }

  lemma {:induction false} FilterNone<T>(p: T -> bool, xs: seq<T>)
    requires forall x | x in xs :: !p(x)
    ensures Filter(p, xs) == []
  {
    if xs != [] {
      FilterNone(p, xs[1..]);
    }
  }

  lemma {:induction false} SortedStays<T>(key: T -> int, xs: seq<T>)
    requires SortedBy(key, xs)
    ensures SortBy(key, xs) == xs
  {
    if xs != [] {
      SortedStays(key, xs[1..]);
      assert xs == [xs[0]] + xs[1..];
    }
  }

  lemma {:induction false} SortUniqueBy<T>(key: T -> int, id: T -> nat, xs: seq<T>)
    requires UniqueBy(id, xs)
    ensures UniqueBy(id, SortBy(key, xs))
  {
    if xs != [] {
      SortUniqueBy(key, id, xs[1..]);
      SortByMembers(key, xs[1..]);
      forall y | y in SortBy(key, xs[1..])
        ensures id(y) != id(xs[0])
      {
        assert y in xs[1..];
        var i :| 0 <= i < |xs[1..]| && xs[1..][i] == y;
      }
      InsertUniqueBy(key, id, xs[0], SortBy(key, xs[1..]));
    }
  }

  lemma {:induction false} InsertUniqueBy<T>(key: T -> int, id: T -> nat, x: T, xs: seq<T>)
    requires UniqueBy(id, xs) && forall y | y in xs :: id(y) != id(x)
    ensures UniqueBy(id, InsertBy(key, x, xs))
  {
    if xs == [] || key(xs[0]) >= key(x) {
      assert forall i | 0 <= i < |xs| :: xs[i] in xs;
    } else {
      InsertUniqueBy(key, id, x, xs[1..]);
      InsertByMembers(key, x, xs[1..]);
      var rest := InsertBy(key, x, xs[1..]);
      forall i | 0 <= i < |rest|
        ensures id(rest[i]) != id(xs[0])
      {
        var y := rest[i];
        assert y in rest;
        if y != x {
          var j :| 0 <= j < |xs[1..]| && xs[1..][j] == y;
        }
      }
    }
  }

  lemma FilterSorted<T>(p: T -> bool, key: T -> int, xs: seq<T>)
    requires SortedBy(key, xs)
    ensures SortedBy(key, Filter(p, xs))
  {
    SortedStays(key, xs);
    FilterSortBy(p, key, xs);
    SortBySorted(key, Filter(p, xs));
  }

  ghost function Chosen<T>(p: T -> bool, xs: seq<T>): set<T>
  {
    set x | x in xs && p(x)
  }

  lemma {:induction false} UniqueCount<T>(p: T -> bool, id: T -> nat, xs: seq<T>)
    requires UniqueBy(id, xs)
    ensures |Filter(p, xs)| == |Chosen(p, xs)|
  {
    if xs != [] {
      UniqueCount(p, id, xs[1..]);
      FirstOnce(id, xs);
      assert forall x :: x in xs <==> x == xs[0] || x in xs[1..];
      assert Chosen(p, xs) == if p(xs[0]) then {xs[0]} + Chosen(p, xs[1..]) else Chosen(p, xs[1..]);
    }
  }

  lemma FirstOnce<T>(id: T -> nat, xs: seq<T>)
    requires xs != [] && UniqueBy(id, xs)
    ensures xs[0] !in xs[1..]
  {
    if i :| 0 <= i < |xs[1..]| && xs[1..][i] == xs[0] {
      assert xs[i + 1] == xs[0];
    }
  }

  /** The first `limit` of the elements that satisfy `p`, in the order of their keys. */
  lemma FirstOfSorted<T>(p: T -> bool, key: T -> int, id: T -> nat, xs: seq<T>, limit: nat)
    requires UniqueBy(id, xs)
    ensures var found := Take(limit, SortBy(key, Filter(p, xs)));
      && |found| <= limit && UniqueBy(id, found) && SortedBy(key, found)
      && (forall x | x in found :: x in xs && p(x))
      && (forall x | x in xs && p(x) && x !in found :: |found| == limit && forall y | y in found :: key(y) <= key(x))
  {
    var chosen := Filter(p, xs);
    var sorted := SortBy(key, chosen);
    FilterMembers(p, xs);
    FilterUniqueBy(p, id, xs);
    SortByMembers(key, chosen);
    SortBySorted(key, chosen);
    SortUniqueBy(key, id, chosen);
    forall x | x in xs && p(x) && x !in Take(limit, sorted)
      ensures |Take(limit, sorted)| == limit && forall y | y in Take(limit, sorted) :: key(y) <= key(x)
    {
      var j :| 0 <= j < |sorted| && sorted[j] == x;
      assert j >= limit;
    }
  }
}
