/** The lexicographic order Python sorts strings and paths by. */
module Ordering {

  /** Rank of a character. Paths compare segment by segment, which is character
      order with the separator below every other character. */
  function Rank(c: char, paths: bool): int {
    if paths && c == '/' then -1 else c as int
  }

  predicate Leq(a: string, b: string, paths: bool) {
    a == "" || (b != "" && (Rank(a[0], paths) < Rank(b[0], paths) || (a[0] == b[0] && Leq(a[1..], b[1..], paths))))
  }

  lemma {:induction false} LeqTotal(a: string, b: string, paths: bool)
    ensures Leq(a, b, paths) || Leq(b, a, paths)
  {
    if a != "" && b != "" && a[0] == b[0] {
      LeqTotal(a[1..], b[1..], paths);
    }
  }

  lemma {:induction false} LeqAntisymmetric(a: string, b: string, paths: bool)
    requires Leq(a, b, paths) && Leq(b, a, paths)
    ensures a == b
  {
    if a != "" {
      LeqAntisymmetric(a[1..], b[1..], paths);
      assert a == [a[0]] + a[1..] && b == [b[0]] + b[1..];
    }
  }

  lemma {:induction false} LeqTransitive(a: string, b: string, c: string, paths: bool)
    requires Leq(a, b, paths) && Leq(b, c, paths)
    ensures Leq(a, c, paths)
  {
    if a != "" && a[0] == b[0] == c[0] {
      LeqTransitive(a[1..], b[1..], c[1..], paths);
    }
  }

  predicate IsLeast(s: set<string>, x: string, paths: bool) {
    x in s && forall y :: y in s ==> Leq(x, y, paths)
  }

  lemma {:induction false} LeastExists(s: set<string>, paths: bool)
    requires s != {}
    ensures exists x :: IsLeast(s, x, paths)
    decreases |s|
  {
    var x :| x in s;
    LeqTotal(x, x, paths);
    if s == {x} {
      assert IsLeast(s, x, paths);
    } else {
      LeastExists(s - {x}, paths);
      var y :| IsLeast(s - {x}, y, paths);
      LeqTotal(x, y, paths);
      if Leq(y, x, paths) {
        assert IsLeast(s, y, paths);
      } else {
        forall z | z in s ensures Leq(x, z, paths) {
          if z != x {
            LeqTransitive(x, y, z, paths);
          }
        }
        assert IsLeast(s, x, paths);
      }
    }
  }

  /** The least element of a non-empty set. */
  function Least(s: set<string>, paths: bool): (x: string)
    requires s != {}
    ensures IsLeast(s, x, paths)
  {
    LeastExists(s, paths);
    LeastUnique(s, paths);
    var x :| x in s && IsLeast(s, x, paths);
    x
  }

  lemma LeastUnique(s: set<string>, paths: bool)
    ensures forall x, y :: IsLeast(s, x, paths) && IsLeast(s, y, paths) ==> x == y
  {
    forall x, y | IsLeast(s, x, paths) && IsLeast(s, y, paths) ensures x == y {
      LeqAntisymmetric(x, y, paths);
    }
  }

  /** `sorted(s)` of a set of strings. */
  function Sorted(s: set<string>, paths: bool): (r: seq<string>)
    ensures forall x :: x in r <==> x in s
    ensures |r| == |s|
    ensures forall i, j :: 0 <= i < j < |r| ==> r[i] != r[j] && Leq(r[i], r[j], paths)
    decreases |s|
  {
    if s == {} then []
    else
      var x := Least(s, paths);
      [x] + Sorted(s - {x}, paths)
  }

  /** The order of tuples of strings. */
  predicate TupleLeq(a: seq<string>, b: seq<string>) {
    a == [] || (b != [] && (if a[0] == b[0] then TupleLeq(a[1..], b[1..]) else Leq(a[0], b[0], false)))
  }

  /** `sorted(xs, key=...)`: stable insertion by a tuple of strings. */
  function SortBy<T>(xs: seq<T>, key: T -> seq<string>): (r: seq<T>)
    ensures multiset(r) == multiset(xs)
  {
    if xs == [] then []
    else
      assert xs == [xs[0]] + xs[1..];
      Insert(xs[0], SortBy(xs[1..], key), key)
  }

  function Insert<T>(x: T, xs: seq<T>, key: T -> seq<string>): (r: seq<T>)
    ensures multiset(r) == multiset{x} + multiset(xs)
  {
    if xs == [] || TupleLeq(key(x), key(xs[0])) then [x] + xs
    else
      assert xs == [xs[0]] + xs[1..];
      [xs[0]] + Insert(x, xs[1..], key)
  }

  lemma {:induction false} TupleTotal(a: seq<string>, b: seq<string>)
    ensures TupleLeq(a, b) || TupleLeq(b, a)
  {
    if a != [] && b != [] {
      LeqTotal(a[0], b[0], false);
      TupleTotal(a[1..], b[1..]);
    }
  }

  lemma {:induction false} TupleAntisymmetric(a: seq<string>, b: seq<string>)
    requires TupleLeq(a, b) && TupleLeq(b, a)
    ensures a == b
  {
    if a != [] {
      if a[0] != b[0] {
        LeqAntisymmetric(a[0], b[0], false);
      }
      TupleAntisymmetric(a[1..], b[1..]);
      assert a == [a[0]] + a[1..] && b == [b[0]] + b[1..];
    }
  }

  lemma {:induction false} TupleTransitive(a: seq<string>, b: seq<string>, c: seq<string>)
    requires TupleLeq(a, b) && TupleLeq(b, c)
    ensures TupleLeq(a, c)
  {
    if a != [] {
      LeqTransitive(a[0], b[0], c[0], false) by {
        LeqTotal(a[0], a[0], false);
        LeqTotal(c[0], c[0], false);
      }
      if a[0] == b[0] == c[0] {
        TupleTransitive(a[1..], b[1..], c[1..]);
      } else if a[0] == c[0] {
        LeqAntisymmetric(a[0], b[0], false);
      }
    }
  }

  /** Ascending by key; equal keys may meet. */
  ghost predicate AscendingBy<T>(xs: seq<T>, key: T -> seq<string>) {
    forall i, j :: 0 <= i < j < |xs| ==> TupleLeq(key(xs[i]), key(xs[j]))
  }

  lemma AscendingCons<T>(x: T, xs: seq<T>, key: T -> seq<string>)
    requires AscendingBy(xs, key) && forall y :: y in xs ==> TupleLeq(key(x), key(y))
    ensures AscendingBy([x] + xs, key)
  {
    var all := [x] + xs;
    forall i, j | 0 <= i < j < |all| ensures TupleLeq(key(all[i]), key(all[j])) {
      assert all[j] == xs[j - 1] && all[j] in xs;
    }
  }

  lemma InsertMember<T>(x: T, xs: seq<T>, key: T -> seq<string>, y: T)
    requires y in Insert(x, xs, key)
    ensures y == x || y in xs
  {
    assert y in multiset(Insert(x, xs, key));
  }

  lemma {:induction false} InsertAscends<T>(x: T, xs: seq<T>, key: T -> seq<string>)
    requires AscendingBy(xs, key)
    ensures AscendingBy(Insert(x, xs, key), key)
  {
    if xs == [] {
    } else if TupleLeq(key(x), key(xs[0])) {
      forall y | y in xs ensures TupleLeq(key(x), key(y)) {
        var k :| 0 <= k < |xs| && xs[k] == y;
        if k > 0 {
          TupleTransitive(key(x), key(xs[0]), key(y));
        }
      }
      AscendingCons(x, xs, key);
    } else {
      TupleTotal(key(x), key(xs[0]));
      InsertAscends(x, xs[1..], key);
      var rest := Insert(x, xs[1..], key);
      forall y | y in rest ensures TupleLeq(key(xs[0]), key(y)) {
        InsertMember(x, xs[1..], key, y);
        if y != x {
          var k :| 0 <= k < |xs[1..]| && xs[1..][k] == y;
          assert xs[k + 1] == y;
        }
      }
      AscendingCons(xs[0], rest, key);
    }
  }

  lemma {:induction false} SortByAscends<T>(xs: seq<T>, key: T -> seq<string>)
    ensures AscendingBy(SortBy(xs, key), key)
  {
    if xs != [] {
      SortByAscends(xs[1..], key);
      InsertAscends(xs[0], SortBy(xs[1..], key), key);
    }
  }

  lemma SortByMembers<T>(xs: seq<T>, key: T -> seq<string>)
    ensures |SortBy(xs, key)| == |xs|
    ensures forall y :: y in SortBy(xs, key) <==> y in xs
  {
    var sorted := SortBy(xs, key);
    assert |multiset(sorted)| == |multiset(xs)|;
    forall y ensures y in sorted <==> y in xs {
      assert y in sorted <==> y in multiset(sorted);
    }
  }

  /** Elements with the same key are the same element. */
  ghost predicate KeysApart<T(!new)>(xs: seq<T>, key: T -> seq<string>) {
    forall x, y :: x in xs && y in xs && key(x) == key(y) ==> x == y
  }

  lemma LeastHead<T>(a: seq<T>, x: T, key: T -> seq<string>)
    requires AscendingBy(a, key) && x in a
    ensures TupleLeq(key(a[0]), key(x))
  {
    var i :| 0 <= i < |a| && a[i] == x;
    TupleTotal(key(x), key(x));
  }

  lemma TailMultiset<T>(a: seq<T>)
    requires a != []
    ensures multiset(a[1..]) == multiset(a) - multiset{a[0]}
  {
    assert a == [a[0]] + a[1..];
  }

  lemma SameHead<T(!new)>(a: seq<T>, b: seq<T>, key: T -> seq<string>)
    requires a != [] && b != [] && multiset(a) == multiset(b) && AscendingBy(a, key) && AscendingBy(b, key) && KeysApart(a, key)
    ensures a[0] == b[0]
  {
    hide AscendingBy, TupleLeq;
    assert a[0] in multiset(b) && b[0] in multiset(a);
    LeastHead(a, b[0], key);
    LeastHead(b, a[0], key);
    TupleAntisymmetric(key(a[0]), key(b[0]));
  }

  lemma {:induction false} AscendingByUnique<T(!new)>(a: seq<T>, b: seq<T>, key: T -> seq<string>)
    requires multiset(a) == multiset(b) && AscendingBy(a, key) && AscendingBy(b, key) && KeysApart(a, key)
    ensures a == b
  {
    hide TupleLeq;
    assert |multiset(a)| == |multiset(b)|;
    if a != [] {
      SameHead(a, b, key);
      TailMultiset(a);
      TailMultiset(b);
      assert AscendingBy(a[1..], key) && AscendingBy(b[1..], key);
      assert KeysApart(a[1..], key) by {
        assert forall x :: x in a[1..] ==> x in a;
      }
      hide AscendingBy, KeysApart;
      AscendingByUnique(a[1..], b[1..], key);
      assert a == [a[0]] + a[1..] && b == [b[0]] + b[1..];
    }
  }

  /** Sorting forgets the input order when no two elements share a key. */
  lemma SortForgetsOrder<T(!new)>(xs: seq<T>, ys: seq<T>, key: T -> seq<string>)
    requires multiset(xs) == multiset(ys) && KeysApart(xs, key)
    ensures SortBy(xs, key) == SortBy(ys, key)
  {
    SortByAscends(xs, key);
    SortByAscends(ys, key);
    SortByMembers(xs, key);
    AscendingByUnique(SortBy(xs, key), SortBy(ys, key), key);
  }
}
