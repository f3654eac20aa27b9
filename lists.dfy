/** Python list operations the database uses on its id lists. */
module Lists {

  ghost predicate Distinct<T>(xs: seq<T>)
  {
    forall i, j :: 0 <= i < j < |xs| ==> xs[i] != xs[j]
  }

  /** Appending a new element keeps a list free of repetitions. */
  lemma DistinctAppend<T>(xs: seq<T>, x: T)
    requires Distinct(xs) && x !in xs
    ensures Distinct(xs + [x])
  {
    forall i, j | 0 <= i < j < |xs| + 1 ensures (xs + [x])[i] != (xs + [x])[j] {
      if j == |xs| {
        assert xs[i] in xs;
      }
    }
  }

  /** `xs.index(x)`: the position of the first occurrence. */
  function IndexOf<T(==)>(xs: seq<T>, x: T): (i: nat)
    requires x in xs
    ensures i < |xs| && xs[i] == x
    ensures forall j :: 0 <= j < i ==> xs[j] != x
  {
    if xs[0] == x then 0 else 1 + IndexOf(xs[1..], x)
  }

  /** `xs.remove(x)`: drops the first occurrence of `x`, keeping the order of the rest. */
  function RemoveFirst<T(==)>(xs: seq<T>, x: T): (r: seq<T>)
    requires x in xs
    ensures |r| == |xs| - 1
    ensures multiset(r) == multiset(xs) - multiset{x}
  {
    var i := IndexOf(xs, x);
    assert xs == xs[..i] + [x] + xs[i + 1..];
    xs[..i] + xs[i + 1..]
  }

  /** On a list without repetitions, `remove` takes out exactly `x`: what is
      left is every other element, still without repetitions. */
  lemma RemoveFirstDistinct<T>(xs: seq<T>, x: T)
    requires Distinct(xs) && x in xs
    ensures Distinct(RemoveFirst(xs, x))
    ensures |RemoveFirst(xs, x)| == |xs| - 1
    ensures forall y :: y in RemoveFirst(xs, x) <==> y in xs && y != x
  {
    var i := IndexOf(xs, x);
    var r := RemoveFirst(xs, x);
    assert forall j :: 0 <= j < |r| ==> r[j] == if j < i then xs[j] else xs[j + 1];
    forall y | y in xs && y != x ensures y in r {
      var j :| 0 <= j < |xs| && xs[j] == y;
      if j < i { assert r[j] == y; } else { assert r[j - 1] == y; }
    }
  }
}
