/** The order in which Python sorts tuples of strings, and sorting by it. */
module Ordering {

  predicate StringLeq(a: string, b: string) {
    if a == [] then true
    else if b == [] then false
    else if a[0] != b[0] then a[0] < b[0]
    else StringLeq(a[1..], b[1..])
  }

  lemma {:induction false} StringLeqTotal(a: string, b: string)
    ensures StringLeq(a, b) || StringLeq(b, a)
    ensures StringLeq(a, b) && StringLeq(b, a) ==> a == b
  {
    if a != [] && b != [] && a[0] == b[0] {
      StringLeqTotal(a[1..], b[1..]);
      assert a == [a[0]] + a[1..] && b == [b[0]] + b[1..];
    }
  }

  lemma {:induction false} StringLeqTransitive(a: string, b: string, c: string)
    requires StringLeq(a, b) && StringLeq(b, c)
    ensures StringLeq(a, c)
  {
    if a != [] && c != [] && a[0] == b[0] == c[0] {
      StringLeqTransitive(a[1..], b[1..], c[1..]);
    }
  }

  /** One text is a beginning of the other, or has the smaller character where they first differ. */
  ghost predicate TextLeq(a: string, b: string) {
    a <= b || exists i :: 0 <= i < |a| && i < |b| && a[..i] == b[..i] && a[i] < b[i]
  }

  lemma {:induction false} StringLeqIff(a: string, b: string)
    ensures StringLeq(a, b) <==> TextLeq(a, b)
  {
    if a != [] && b != [] && a[0] == b[0] {
      StringLeqIff(a[1..], b[1..]);
      TextLeqTail(a, b);
    } else if a != [] && b != [] {
      if a[0] < b[0] {
        assert a[..0] == b[..0];
      }
    }
  }

  lemma TextLeqTail(a: string, b: string)
    requires a != [] && b != [] && a[0] == b[0]
    ensures TextLeq(a, b) <==> TextLeq(a[1..], b[1..])
  {
    if a <= b {
      assert a[1..] <= b[1..];
    }
    if a[1..] <= b[1..] {
      assert a == [a[0]] + a[1..] && b == [b[0]] + b[1..];
    }
    if i :| 0 <= i < |a| && i < |b| && a[..i] == b[..i] && a[i] < b[i] {
      assert a[1..][..i - 1] == a[..i][1..] && b[1..][..i - 1] == b[..i][1..];
      assert a[1..][i - 1] < b[1..][i - 1];
    }
    if i :| 0 <= i < |a[1..]| && i < |b[1..]| && a[1..][..i] == b[1..][..i] && a[1..][i] < b[1..][i] {
      assert a[..i + 1] == [a[0]] + a[1..][..i] && b[..i + 1] == [b[0]] + b[1..][..i];
      assert a[i + 1] < b[i + 1];
    }
  }

  /** Tuples are compared field by field. */
  predicate KeyLeq(a: seq<string>, b: seq<string>) {
    if a == [] then true
    else if b == [] then false
    else if a[0] != b[0] then StringLeq(a[0], b[0])
    else KeyLeq(a[1..], b[1..])
  }

  lemma {:induction false} KeyLeqTotal(a: seq<string>, b: seq<string>)
    ensures KeyLeq(a, b) || KeyLeq(b, a)
    ensures KeyLeq(a, b) && KeyLeq(b, a) ==> a == b
  {
    if a != [] && b != [] {
      StringLeqTotal(a[0], b[0]);
      if a[0] == b[0] {
        KeyLeqTotal(a[1..], b[1..]);
        assert a == [a[0]] + a[1..] && b == [b[0]] + b[1..];
      }
    }
  }

  lemma {:induction false} KeyLeqTransitive(a: seq<string>, b: seq<string>, c: seq<string>)
    requires KeyLeq(a, b) && KeyLeq(b, c)
    ensures KeyLeq(a, c)
  {
    if a != [] && c != [] {
      if a[0] == b[0] == c[0] {
        KeyLeqTransitive(a[1..], b[1..], c[1..]);
      } else if a[0] != b[0] && b[0] != c[0] {
        StringLeqTransitive(a[0], b[0], c[0]);
        StringLeqTotal(a[0], b[0]);
      }
    }
  }

  ghost predicate Sorted<T>(xs: seq<T>, key: T -> seq<string>) {
    forall i, j :: 0 <= i < j < |xs| ==> KeyLeq(key(xs[i]), key(xs[j]))
  }

  function Insert<T>(x: T, xs: seq<T>, key: T -> seq<string>): (r: seq<T>)
    ensures multiset(r) == multiset(xs) + multiset{x}
  {
    if xs == [] then [x]
    else if KeyLeq(key(x), key(xs[0])) then [x] + xs
    else
      assert xs == [xs[0]] + xs[1..];
      [xs[0]] + Insert(x, xs[1..], key)
  }

  /** `sorted`: the same elements, as often, in order of their keys. */
  function Sort<T>(xs: seq<T>, key: T -> seq<string>): (r: seq<T>)
    ensures multiset(r) == multiset(xs)
  {
    if xs == [] then []
    else
      assert xs == [xs[0]] + xs[1..];
      Insert(xs[0], Sort(xs[1..], key), key)
  }

  lemma {:induction false} InsertSorts<T>(x: T, xs: seq<T>, key: T -> seq<string>)
    requires Sorted(xs, key)
    ensures Sorted(Insert(x, xs, key), key)
  {
    if xs == [] {
    } else if KeyLeq(key(x), key(xs[0])) {
      forall i | 0 <= i < |xs| ensures KeyLeq(key(x), key(xs[i])) {
        if i > 0 {
          KeyLeqTransitive(key(x), key(xs[0]), key(xs[i]));
        }
      }
    } else {
      var rest := Insert(x, xs[1..], key);
      InsertSorts(x, xs[1..], key);
      KeyLeqTotal(key(x), key(xs[0]));
      forall y | y in multiset(rest) ensures KeyLeq(key(xs[0]), key(y)) {
        assert y == x || y in xs[1..];
      }
      assert forall i :: 0 <= i < |rest| ==> rest[i] in multiset(rest);
    }
  }

  lemma {:induction false} SortSorts<T>(xs: seq<T>, key: T -> seq<string>)
    ensures Sorted(Sort(xs, key), key)
  {
    if xs != [] {
      SortSorts(xs[1..], key);
      InsertSorts(xs[0], Sort(xs[1..], key), key);
    }
  }

  /** The key tells any two different elements apart. */
  ghost predicate Injective<T(!new)>(key: T -> seq<string>) {
    forall x, y :: key(x) == key(y) ==> x == y
  }

  lemma FirstIsLeast<T(!new)>(a: seq<T>, b: seq<T>, key: T -> seq<string>)
    requires Sorted(a, key) && multiset(a) == multiset(b) && a != [] && b != []
    ensures KeyLeq(key(a[0]), key(b[0]))
  {
    assert b[0] in multiset(b);
    var i :| 0 <= i < |a| && a[i] == b[0];
    KeyLeqTotal(key(a[0]), key(a[0]));
  }

  lemma WithoutFirst<T>(a: seq<T>, key: T -> seq<string>)
    requires Sorted(a, key) && a != []
    ensures Sorted(a[1..], key) && multiset(a[1..]) == multiset(a) - multiset{a[0]} && a == [a[0]] + a[1..]
  {
    assert a == [a[0]] + a[1..];
  }

  lemma SameFirst<T(!new)>(a: seq<T>, b: seq<T>, key: T -> seq<string>)
    requires Injective(key) && Sorted(a, key) && Sorted(b, key) && multiset(a) == multiset(b) && a != []
    ensures b != [] && a[0] == b[0]
  {
    assert a[0] in multiset(b);
    FirstIsLeast(a, b, key);
    FirstIsLeast(b, a, key);
    KeyLeqTotal(key(a[0]), key(b[0]));
  }

  lemma {:induction false} SortedIsUnique<T(!new)>(a: seq<T>, b: seq<T>, key: T -> seq<string>)
    requires Injective(key) && Sorted(a, key) && Sorted(b, key) && multiset(a) == multiset(b)
    ensures a == b
  {
    if a == [] {
      assert |multiset(b)| == 0;
    } else {
      SameFirst(a, b, key);
      WithoutFirst(a, key);
      WithoutFirst(b, key);
      SortedIsUnique(a[1..], b[1..], key);
    }
  }

  /** Sorting forgets the order it was given, and nothing else. */
  lemma SortIsCanonical<T(!new)>(a: seq<T>, b: seq<T>, key: T -> seq<string>)
    requires Injective(key)
    ensures Sort(a, key) == Sort(b, key) <==> multiset(a) == multiset(b)
  {
    if multiset(a) == multiset(b) {
      SortSorts(a, key);
      SortSorts(b, key);
      SortedIsUnique(Sort(a, key), Sort(b, key), key);
    }
  }
}
