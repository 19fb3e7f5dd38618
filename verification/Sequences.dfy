/** Mapping and flattening of sequences, their independence of order, and distinctness. */
module Sequences {

  function Mapped<T, U>(xs: seq<T>, f: T -> U): (ys: seq<U>)
    ensures |ys| == |xs| && forall i :: 0 <= i < |xs| ==> ys[i] == f(xs[i])
  {
    seq(|xs|, i requires 0 <= i < |xs| => f(xs[i]))
  }

  function Flat<T, U>(xs: seq<T>, part: T -> seq<U>): seq<U> {
    if xs == [] then [] else part(xs[0]) + Flat(xs[1..], part)
  }

  lemma {:induction false} FlatConcat<T, U>(a: seq<T>, b: seq<T>, part: T -> seq<U>)
    ensures Flat(a + b, part) == Flat(a, part) + Flat(b, part)
  {
    if a == [] {
      assert a + b == b;
    } else {
      assert (a + b)[0] == a[0] && (a + b)[1..] == a[1..] + b;
      FlatConcat(a[1..], b, part);
    }
  }

  lemma FlatAppend<T, U>(xs: seq<T>, x: T, part: T -> seq<U>)
    ensures Flat(xs + [x], part) == Flat(xs, part) + part(x)
  {
    FlatConcat(xs, [x], part);
    assert Flat([x], part) == part(x) + [];
  }

  /** One part more of a list that is being flattened from the left. */
  lemma FlatFrom<T, U>(before: seq<U>, xs: seq<T>, i: nat, part: T -> seq<U>)
    requires i < |xs|
    ensures before + Flat(xs[i..], part) == before + part(xs[i]) + Flat(xs[i + 1..], part)
  {
    assert xs[i..][0] == xs[i] && xs[i..][1..] == xs[i + 1..];
  }

  lemma TakeOut<T>(xs: seq<T>, j: nat)
    requires j < |xs|
    ensures multiset(xs[..j] + xs[j + 1..]) == multiset(xs) - multiset{xs[j]}
  {
    assert xs == xs[..j] + ([xs[j]] + xs[j + 1..]);
  }

  /** The same elements in two orders have a first element in common. */
  lemma MatchFirst<T>(a: seq<T>, b: seq<T>) returns (j: nat, a': seq<T>, b': seq<T>)
    requires multiset(a) == multiset(b) && a != []
    ensures j < |b| && b[j] == a[0]
    ensures a' == a[..0] + a[1..] && b' == b[..j] + b[j + 1..]
    ensures |a'| < |a| && multiset(a') == multiset(b')
  {
    assert a[0] in multiset(b);
    j :| 0 <= j < |b| && b[j] == a[0];
    a', b' := a[..0] + a[1..], b[..j] + b[j + 1..];
    TakeOut(a, 0);
    TakeOut(b, j);
  }

  lemma MappedTakeOut<T, U>(xs: seq<T>, j: nat, rest: seq<T>, f: T -> U)
    requires j < |xs| && rest == xs[..j] + xs[j + 1..]
    ensures multiset(Mapped(xs, f)) == multiset(Mapped(rest, f)) + multiset{f(xs[j])}
  {
    var front, back := Mapped(xs[..j], f), Mapped(xs[j + 1..], f);
    assert Mapped(rest, f) == front + back;
    assert Mapped(xs, f) == front + ([f(xs[j])] + back);
  }

  lemma {:induction false} MappedMultiset<T, U>(a: seq<T>, b: seq<T>, f: T -> U)
    requires multiset(a) == multiset(b)
    ensures multiset(Mapped(a, f)) == multiset(Mapped(b, f))
  {
    if a == [] {
      assert |multiset(b)| == 0;
    } else {
      var j, a', b' := MatchFirst(a, b);
      MappedMultiset(a', b', f);
      MappedTakeOut(a, 0, a', f);
      MappedTakeOut(b, j, b', f);
    }
  }

  lemma FlatTakeOut<T, U>(xs: seq<T>, j: nat, rest: seq<T>, part: T -> seq<U>)
    requires j < |xs| && rest == xs[..j] + xs[j + 1..]
    ensures multiset(Flat(xs, part)) == multiset(Flat(rest, part)) + multiset(part(xs[j]))
  {
    var back := [xs[j]] + xs[j + 1..];
    assert xs == xs[..j] + back && back[1..] == xs[j + 1..];
    FlatConcat(xs[..j], back, part);
    FlatConcat(xs[..j], xs[j + 1..], part);
  }

  lemma {:induction false} FlatMultiset<T, U>(a: seq<T>, b: seq<T>, part: T -> seq<U>)
    requires multiset(a) == multiset(b)
    ensures multiset(Flat(a, part)) == multiset(Flat(b, part))
  {
    if a == [] {
      assert |multiset(b)| == 0;
    } else {
      var j, a', b' := MatchFirst(a, b);
      FlatMultiset(a', b', part);
      FlatTakeOut(a, 0, a', part);
      FlatTakeOut(b, j, b', part);
    }
  }

  predicate Distinct<T(==)>(xs: seq<T>) {
    forall i, j :: 0 <= i < j < |xs| ==> xs[i] != xs[j]
  }

  lemma DistinctAppend<T>(a: seq<T>, b: seq<T>)
    requires Distinct(a) && Distinct(b) && forall x :: x in b ==> x !in a
    ensures Distinct(a + b)
  {
    var c := a + b;
    forall i, j | 0 <= i < j < |c| ensures c[i] != c[j] {
      if j < |a| {
      } else if i < |a| {
        assert c[i] in a && c[j] == b[j - |a|];
      } else {
        assert c[i] == b[i - |a|] && c[j] == b[j - |a|];
      }
    }
  }
}
