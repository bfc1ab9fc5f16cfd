// Orders and sorting shared by the schema canonicaliser.

module Order {

  /** Rust's `str::cmp`: lexicographic on code points, which for UTF-8 is the bytewise order. */
  predicate LexLe(a: string, b: string) {
    a == [] || (b != [] && (a[0] < b[0] || (a[0] == b[0] && LexLe(a[1..], b[1..]))))
  }

  lemma {:induction false} LexTotal(a: string, b: string)
    ensures LexLe(a, b) || LexLe(b, a)
  {
    if a != [] && b != [] && a[0] == b[0] {
      LexTotal(a[1..], b[1..]);
    }
  }

  lemma {:induction false} LexAntisymmetric(a: string, b: string)
    requires LexLe(a, b) && LexLe(b, a)
    ensures a == b
  {
    if a != [] {
      LexAntisymmetric(a[1..], b[1..]);
      assert a == [a[0]] + a[1..] && b == [b[0]] + b[1..];
    }
  }

  lemma {:induction false} LexTransitive(a: string, b: string, c: string)
    requires LexLe(a, b) && LexLe(b, c)
    ensures LexLe(a, c)
  {
    if a != [] && a[0] == b[0] == c[0] {
      LexTransitive(a[1..], b[1..], c[1..]);
    }
  }

  ghost predicate Total<T(!new)>(le: (T, T) -> bool) {
    forall x, y :: le(x, y) || le(y, x)
  }

  ghost predicate Transitive<T(!new)>(le: (T, T) -> bool) {
    forall x, y, z :: le(x, y) && le(y, z) ==> le(x, z)
  }

  ghost predicate Sorted<T>(xs: seq<T>, le: (T, T) -> bool) {
    forall i, j :: 0 <= i < j < |xs| ==> le(xs[i], xs[j])
  }

  /** No two different elements of `xs` are tied. */
  ghost predicate AntisymmetricOn<T>(xs: seq<T>, le: (T, T) -> bool) {
    forall x, y :: x in xs && y in xs && le(x, y) && le(y, x) ==> x == y
  }

  /** Inserts before the first element that is strictly greater, so equal elements keep their order. */
  function Insert<T>(xs: seq<T>, x: T, le: (T, T) -> bool): seq<T> {
    if xs == [] then [x]
    else if le(xs[|xs| - 1], x) then xs + [x]
    else Insert(xs[..|xs| - 1], x, le) + [xs[|xs| - 1]]
  }

  /** A stable sort: the meaning of `slice::sort_by`. */
  function Sort<T>(xs: seq<T>, le: (T, T) -> bool): seq<T> {
    if xs == [] then [] else Insert(Sort(xs[..|xs| - 1], le), xs[|xs| - 1], le)
  }

  lemma SplitLast<T>(xs: seq<T>)
    requires xs != []
    ensures multiset(xs) == multiset(xs[..|xs| - 1]) + multiset{xs[|xs| - 1]}
  {
    assert xs == xs[..|xs| - 1] + [xs[|xs| - 1]];
  }

  lemma {:induction false} InsertPermutes<T>(xs: seq<T>, x: T, le: (T, T) -> bool)
    ensures multiset(Insert(xs, x, le)) == multiset(xs) + multiset{x}
  {
    if xs != [] {
      SplitLast(xs);
      InsertPermutes(xs[..|xs| - 1], x, le);
    }
  }

  lemma {:induction false} SortPermutes<T>(xs: seq<T>, le: (T, T) -> bool)
    ensures multiset(Sort(xs, le)) == multiset(xs)
  {
    if xs != [] {
      var front, last := xs[..|xs| - 1], xs[|xs| - 1];
      SortPermutes(front, le);
      InsertPermutes(Sort(front, le), last, le);
      SplitLast(xs);
    }
  }

  /** Two sequences with the same multiset have the same length and the same members. */
  lemma SameMultiset<T>(xs: seq<T>, ys: seq<T>)
    requires multiset(xs) == multiset(ys)
    ensures |xs| == |ys|
    ensures forall x :: x in xs <==> x in ys
  {
    assert |multiset(xs)| == |xs| && |multiset(ys)| == |ys|;
    assert forall x :: x in xs <==> x in multiset(xs);
    assert forall x :: x in ys <==> x in multiset(ys);
  }

  lemma SortMembers<T>(xs: seq<T>, le: (T, T) -> bool)
    ensures |Sort(xs, le)| == |xs|
    ensures forall x :: x in Sort(xs, le) <==> x in xs
  {
    SortPermutes(xs, le);
    SameMultiset(Sort(xs, le), xs);
  }

  lemma {:induction false} InsertSorted<T(!new)>(xs: seq<T>, x: T, le: (T, T) -> bool)
    requires Total(le) && Transitive(le) && Sorted(xs, le)
    ensures Sorted(Insert(xs, x, le), le)
  {
    if xs != [] && !le(xs[|xs| - 1], x) {
      var front, last := xs[..|xs| - 1], xs[|xs| - 1];
      InsertSorted(front, x, le);
      InsertPermutes(front, x, le);
      SameMultiset(Insert(front, x, le), front + [x]);
      forall y | y in Insert(front, x, le) ensures le(y, last) {
        assert y in front + [x];
      }
    } else if xs != [] {
      forall i | 0 <= i < |xs| ensures le(xs[i], x) {
        assert i == |xs| - 1 || le(xs[i], xs[|xs| - 1]);
      }
    }
  }

  lemma {:induction false} SortSorted<T(!new)>(xs: seq<T>, le: (T, T) -> bool)
    requires Total(le) && Transitive(le)
    ensures Sorted(Sort(xs, le), le)
  {
    if xs != [] {
      SortSorted(xs[..|xs| - 1], le);
      InsertSorted(Sort(xs[..|xs| - 1], le), xs[|xs| - 1], le);
    }
  }

  lemma SameLast<T>(xs: seq<T>, ys: seq<T>, le: (T, T) -> bool)
    requires xs != [] && ys != [] && Sorted(xs, le) && Sorted(ys, le) && AntisymmetricOn(xs, le)
    requires forall x :: x in xs <==> x in ys
    ensures xs[|xs| - 1] == ys[|ys| - 1]
  {
    var x, y := xs[|xs| - 1], ys[|ys| - 1];
    assert x in ys && y in xs;
    assert x == y || (le(x, y) && le(y, x));
  }

  lemma SameFront<T>(xs: seq<T>, ys: seq<T>)
    requires multiset(xs) == multiset(ys) && |xs| == |ys| > 0 && xs[|xs| - 1] == ys[|xs| - 1]
    ensures multiset(xs[..|xs| - 1]) == multiset(ys[..|xs| - 1])
  {
    var n := |xs| - 1;
    assert xs == xs[..n] + [xs[n]] && ys == ys[..n] + [ys[n]];
    assert multiset(xs[..n]) == multiset(xs) - multiset{xs[n]};
    assert multiset(ys[..n]) == multiset(ys) - multiset{ys[n]};
  }

  /** A multiset without ties has only one sorted arrangement. */
  lemma {:induction false} SortedUnique<T>(xs: seq<T>, ys: seq<T>, le: (T, T) -> bool)
    requires multiset(xs) == multiset(ys)
    requires Sorted(xs, le) && Sorted(ys, le) && AntisymmetricOn(xs, le)
    ensures xs == ys
  {
    SameMultiset(xs, ys);
    if xs != [] {
      var n := |xs| - 1;
      SameLast(xs, ys, le);
      SameFront(xs, ys);
      assert forall x :: x in xs[..n] ==> x in xs;
      SortedUnique(xs[..n], ys[..n], le);
      assert xs == xs[..n] + [xs[n]] && ys == ys[..n] + [ys[n]];
    }
  }

  /** Sorting forgets the order of its input, when there are no ties. */
  lemma SortCanonical<T(!new)>(xs: seq<T>, ys: seq<T>, le: (T, T) -> bool)
    requires Total(le) && Transitive(le) && AntisymmetricOn(xs, le)
    requires multiset(xs) == multiset(ys)
    ensures Sort(xs, le) == Sort(ys, le)
  {
    SortSorted(xs, le);
    SortSorted(ys, le);
    SortPermutes(xs, le);
    SortPermutes(ys, le);
    SameMultiset(Sort(xs, le), xs);
    SortedUnique(Sort(xs, le), Sort(ys, le), le);
  }

  lemma {:induction false} SortOfSorted<T>(xs: seq<T>, le: (T, T) -> bool)
    requires Sorted(xs, le)
    ensures Sort(xs, le) == xs
  {
    if xs != [] {
      SortOfSorted(xs[..|xs| - 1], le);
    }
  }

  function Map<T, U>(f: T -> U, xs: seq<T>): (r: seq<U>)
    ensures |r| == |xs| && forall i :: 0 <= i < |xs| ==> r[i] == f(xs[i])
  {
    seq(|xs|, i requires 0 <= i < |xs| => f(xs[i]))
  }

  /** `le` compares exactly as `le'` compares the images under `f`. */
  ghost predicate Agrees<T(!new), U>(f: T -> U, le: (T, T) -> bool, le': (U, U) -> bool) {
    forall x, y :: le(x, y) == le'(f(x), f(y))
  }

  lemma MapFront<T, U>(f: T -> U, xs: seq<T>)
    requires xs != []
    ensures Map(f, xs[..|xs| - 1]) == Map(f, xs)[..|xs| - 1]
  {
  }

  lemma {:induction false} InsertMap<T(!new), U>(xs: seq<T>, x: T, f: T -> U, le: (T, T) -> bool, le': (U, U) -> bool)
    requires Agrees(f, le, le')
    ensures Map(f, Insert(xs, x, le)) == Insert(Map(f, xs), f(x), le')
  {
    if xs != [] && !le(xs[|xs| - 1], x) {
      InsertMap(xs[..|xs| - 1], x, f, le, le');
      MapFront(f, xs);
    }
  }

  /** Sorting commutes with a map that the comparator cannot see. */
  lemma {:induction false} SortMap<T(!new), U>(xs: seq<T>, f: T -> U, le: (T, T) -> bool, le': (U, U) -> bool)
    requires Agrees(f, le, le')
    ensures Map(f, Sort(xs, le)) == Sort(Map(f, xs), le')
  {
    if xs != [] {
      var front, last := xs[..|xs| - 1], xs[|xs| - 1];
      SortMap(front, f, le, le');
      InsertMap(Sort(front, le), last, f, le, le');
      MapFront(f, xs);
    }
  }
}
