// `Array.prototype.sort`: stable,
// by a comparator that is a total preorder.
module Sorting {
  import opened Collections

  type Order<!T> = (T, T) -> bool

  ghost predicate TotalPreorder<T(!new)>(le: Order<T>) {
    && (forall a, b :: le(a, b) || le(b, a))
    && (forall a, b, c :: le(a, b) && le(b, c) ==> le(a, c))
  }

  predicate SortedBy<T(!new)>(le: Order<T>, s: seq<T>) {
    forall i, j :: 0 <= i < j < |s| ==> le(s[i], s[j])
  }

  /** After every element it does not precede: equal elements keep their order. */
  function Insert<T(!new)>(le: Order<T>, s: seq<T>, x: T): (r: seq<T>)
    ensures multiset(r) == multiset(s) + multiset{x}
    ensures |r| == |s| + 1
  {
    if s == [] then [x]
    else
      assert s == s[..|s| - 1] + [s[|s| - 1]];
      if le(s[|s| - 1], x) then s + [x] else Insert(le, s[..|s| - 1], x) + [s[|s| - 1]]
  }

  function Sort<T(!new)>(le: Order<T>, s: seq<T>): (r: seq<T>)
    ensures multiset(r) == multiset(s)
    ensures |r| == |s|
  {
    if s == [] then []
    else
      assert s == s[..|s| - 1] + [s[|s| - 1]];
      Insert(le, Sort(le, s[..|s| - 1]), s[|s| - 1])
  }

  lemma SameElements<T(!new)>(a: seq<T>, b: seq<T>)
    requires multiset(a) == multiset(b)
    ensures |a| == |b|
    ensures forall x :: x in a <==> x in b
  {
    assert |multiset(a)| == |multiset(b)|;
    assert forall x :: x in a <==> x in multiset(a);
    assert forall x :: x in b <==> x in multiset(b);
  }

  lemma {:induction false} InsertSorted<T(!new)>(le: Order<T>, s: seq<T>, x: T)
    requires TotalPreorder(le) && SortedBy(le, s)
    ensures SortedBy(le, Insert(le, s, x))
  {
    if s != [] {
      var n := |s| - 1;
      if !le(s[n], x) {
        InsertSorted(le, s[..n], x);
        var front := Insert(le, s[..n], x);
        forall i | 0 <= i < |front| ensures le(front[i], s[n]) {
          assert front[i] in multiset(s[..n]) + multiset{x};
          assert front[i] == x || front[i] in s[..n];
        }
      }
    }
  }

  lemma {:induction false} SortSorts<T(!new)>(le: Order<T>, s: seq<T>)
    requires TotalPreorder(le)
    ensures SortedBy(le, Sort(le, s))
  {
    if s != [] {
      SortSorts(le, s[..|s| - 1]);
      InsertSorted(le, Sort(le, s[..|s| - 1]), s[|s| - 1]);
    }
  }

  lemma DropLast<T(!new)>(s: seq<T>)
    requires s != []
    ensures multiset(s[..|s| - 1]) == multiset(s) - multiset{s[|s| - 1]}
  {
    FrontAndLast(s);
  }

  lemma RemoveAt<T(!new)>(s: seq<T>, i: nat)
    requires i < |s|
    ensures multiset(s) == multiset(s[..i] + s[i + 1..]) + multiset{s[i]}
  {
    assert s == s[..i] + [s[i]] + s[i + 1..];
  }

  lemma LastIsGreatest<T(!new)>(le: Order<T>, s: seq<T>, x: T)
    requires SortedBy(le, s) && x in s && le(x, x)
    ensures le(x, s[|s| - 1])
  {
    var i :| 0 <= i < |s| && s[i] == x;
  }

  /** A sorted arrangement is unique when ties are only between equal elements. */
  lemma {:induction false} SortedUnique<T(!new)>(le: Order<T>, a: seq<T>, b: seq<T>)
    requires SortedBy(le, a) && SortedBy(le, b) && multiset(a) == multiset(b)
    requires forall x, y :: x in a && y in a && le(x, y) && le(y, x) ==> x == y
    requires forall x :: le(x, x)
    ensures a == b
  {
    SameElements(a, b);
    if a != [] {
      var n := |a| - 1;
      SortedLast(le, a, b);
      assert forall x :: x in a[..n] ==> x in a;
      SortedUnique(le, a[..n], b[..n]);
      FrontAndLast(a);
      FrontAndLast(b);
    }
  }

  lemma SortedLast<T(!new)>(le: Order<T>, a: seq<T>, b: seq<T>)
    requires SortedBy(le, a) && SortedBy(le, b) && multiset(a) == multiset(b) && a != []
    requires forall x, y :: x in a && y in a && le(x, y) && le(y, x) ==> x == y
    requires forall x :: le(x, x)
    ensures |b| == |a| && a[|a| - 1] == b[|a| - 1] && multiset(a[..|a| - 1]) == multiset(b[..|a| - 1])
  {
    SameElements(a, b);
    var x, y := a[|a| - 1], b[|b| - 1];
    assert x in a && y in b;
    LastIsGreatest(le, a, y);
    LastIsGreatest(le, b, x);
    DropLast(a);
    DropLast(b);
  }

  /** Sorting does not depend on arrival order when ties are only between equal elements. */
  lemma SortIgnoresOrder<T(!new)>(le: Order<T>, a: seq<T>, b: seq<T>)
    requires TotalPreorder(le) && multiset(a) == multiset(b)
    requires forall x, y :: x in a && y in a && le(x, y) && le(y, x) ==> x == y
    ensures Sort(le, a) == Sort(le, b)
  {
    SortSorts(le, a);
    SortSorts(le, b);
    SameElements(a, Sort(le, a));
    SortedUnique(le, Sort(le, a), Sort(le, b));
  }

  /** Sorting by a key commutes with taking a view that the comparator factors through. */
  lemma {:induction false} InsertMap<T(!new), R(!new)>(le: Order<T>, le': Order<R>, f: T -> R, s: seq<T>, x: T)
    requires forall a, b :: le(a, b) == le'(f(a), f(b))
    ensures Map(f, Insert(le, s, x)) == Insert(le', Map(f, s), f(x))
  {
    if s != [] {
      var n := |s| - 1;
      assert Map(f, s)[..n] == Map(f, s[..n]);
      InsertMap(le, le', f, s[..n], x);
    }
  }

  lemma {:induction false} SortMap<T(!new), R(!new)>(le: Order<T>, le': Order<R>, f: T -> R, s: seq<T>)
    requires forall a, b :: le(a, b) == le'(f(a), f(b))
    ensures Map(f, Sort(le, s)) == Sort(le', Map(f, s))
  {
    if s != [] {
      var n := |s| - 1;
      assert Map(f, s)[..n] == Map(f, s[..n]);
      SortMap(le, le', f, s[..n]);
      InsertMap(le, le', f, Sort(le, s[..n]), s[n]);
    }
  }

  lemma {:induction false} MapMultiset<T(!new), R(!new)>(f: T -> R, a: seq<T>, b: seq<T>)
    requires multiset(a) == multiset(b)
    ensures multiset(Map(f, a)) == multiset(Map(f, b))
  {
    SameElements(a, b);
    if a != [] {
      var n := |a| - 1;
      assert a[n] in b;
      var i :| 0 <= i < |b| && b[i] == a[n];
      var b' := b[..i] + b[i + 1..];
      DropLast(a);
      RemoveAt(b, i);
      MapMultiset(f, a[..n], b');
      MapDrops(f, a, n);
      MapDrops(f, b, i);
      assert a[..n] + a[n + 1..] == a[..n];
    }
  }

  lemma MapDrops<T(!new), R(!new)>(f: T -> R, s: seq<T>, i: nat)
    requires i < |s|
    ensures multiset(Map(f, s)) == multiset(Map(f, s[..i] + s[i + 1..])) + multiset{f(s[i])}
  {
    var m := Map(f, s);
    RemoveAt(m, i);
    assert m[..i] + m[i + 1..] == Map(f, s[..i] + s[i + 1..]);
  }

  lemma {:induction false} DistinctOnce<T(!new)>(s: seq<T>, x: T)
    requires Distinct(s)
    ensures multiset(s)[x] <= 1
  {
    if s != [] {
      var n := |s| - 1;
      assert s == s[..n] + [s[n]];
      DistinctOnce(s[..n], x);
      assert s[n] !in s[..n];
    }
  }

  lemma DistinctPermuted<T(!new)>(a: seq<T>, b: seq<T>)
    requires Distinct(a) && multiset(a) == multiset(b)
    ensures Distinct(b)
  {
    forall i, j | 0 <= i < j < |b| ensures b[i] != b[j] {
      DistinctOnce(a, b[i]);
      assert b == b[..j] + [b[j]] + b[j + 1..];
      assert b[i] in b[..j];
    }
  }

  predicate SameMembers<T(==)>(a: seq<T>, b: seq<T>) {
    (forall x :: x in a ==> x in b) && (forall x :: x in b ==> x in a)
  }

  lemma {:induction false} FilterDistinct<T(!new)>(p: T -> bool, s: seq<T>)
    requires Distinct(s)
    ensures Distinct(Filter(p, s))
  {
    if s != [] {
      var n := |s| - 1;
      FilterDistinct(p, s[..n]);
      FilterMembers(p, s[..n]);
      forall i | 0 <= i < |Filter(p, s[..n])| ensures Filter(p, s[..n])[i] != s[n] {
        assert Filter(p, s[..n])[i] in s[..n];
      }
    }
  }

  lemma DistinctSame<T(!new)>(a: seq<T>, b: seq<T>)
    requires Distinct(a) && Distinct(b) && SameMembers(a, b)
    ensures multiset(a) == multiset(b)
  {
    forall x ensures multiset(a)[x] == multiset(b)[x] {
      DistinctOnce(a, x);
      DistinctOnce(b, x);
      assert x in a <==> multiset(a)[x] > 0;
      assert x in b <==> multiset(b)[x] > 0;
    }
  }

  lemma {:induction false} DistinctSize<T(!new)>(s: seq<T>)
    requires Distinct(s)
    ensures |ToSet(s)| == |s|
  {
    if s != [] {
      var front := s[..|s| - 1];
      DistinctSize(front);
      assert s == front + [s[|s| - 1]];
      assert ToSet(s) == ToSet(front) + {s[|s| - 1]};
    }
  }

  /** Two lists without repetition, of one length, one inside the other: the same elements. */
  lemma InsideSameLength<T(!new)>(a: seq<T>, b: seq<T>)
    requires Distinct(a) && Distinct(b) && |a| == |b| && forall x :: x in a ==> x in b
    ensures multiset(a) == multiset(b)
  {
    DistinctSize(a);
    DistinctSize(b);
    SubsetOfSize(ToSet(a), ToSet(b));
    assert forall x :: x in b ==> x in ToSet(b) && x in a;
    DistinctSame(a, b);
  }

  lemma SubsetOfSize<T(!new)>(a: set<T>, b: set<T>)
    requires a <= b && |a| == |b|
    ensures a == b
  {
    assert |b - a| == |b| - |a|;
  }

  lemma {:induction false} SortOfSorted<T(!new)>(le: Order<T>, s: seq<T>)
    requires SortedBy(le, s)
    ensures Sort(le, s) == s
  {
    if s != [] {
      var front, x := s[..|s| - 1], s[|s| - 1];
      SortOfSorted(le, front);
      FrontAndLast(s);
      assert front != [] ==> le(front[|front| - 1], x);
      InsertLast(le, front, x);
      SortStep(le, s);
    }
  }

  lemma InsertLast<T(!new)>(le: Order<T>, s: seq<T>, x: T)
    requires s == [] || le(s[|s| - 1], x)
    ensures Insert(le, s, x) == s + [x]
  {
  }

  lemma SortStep<T(!new)>(le: Order<T>, s: seq<T>)
    requires s != []
    ensures Sort(le, s) == Insert(le, Sort(le, s[..|s| - 1]), s[|s| - 1])
  {
  }

  // ---- code-unit order

  function CodeUnitOrder(): Order<string> {
    (a, b) => !StringLess(b, a)
  }

  lemma {:induction false} StringLessConnex(a: string, b: string)
    ensures !StringLess(a, b) || !StringLess(b, a)
    ensures !StringLess(a, b) && !StringLess(b, a) ==> a == b
  {
    if a != [] && b != [] {
      StringLessConnex(a[1..], b[1..]);
      assert a == [a[0]] + a[1..] && b == [b[0]] + b[1..];
    }
  }

  lemma {:induction false} StringLeTransitive(a: string, b: string, c: string)
    requires !StringLess(b, a) && !StringLess(c, b)
    ensures !StringLess(c, a)
  {
    if a != [] && b != [] && c != [] && a[0] == b[0] == c[0] {
      StringLeTransitive(a[1..], b[1..], c[1..]);
    }
  }

  /** The comparator is a total order: ties are only between equal strings. */
  lemma CodeUnitsOrdered()
    ensures TotalPreorder(CodeUnitOrder())
    ensures forall a, b :: CodeUnitOrder()(a, b) && CodeUnitOrder()(b, a) ==> a == b
  {
    forall a, b ensures CodeUnitOrder()(a, b) || CodeUnitOrder()(b, a) {
      StringLessConnex(a, b);
    }
    forall a, b, c | CodeUnitOrder()(a, b) && CodeUnitOrder()(b, c) ensures CodeUnitOrder()(a, c) {
      StringLeTransitive(a, b, c);
    }
    forall a, b | CodeUnitOrder()(a, b) && CodeUnitOrder()(b, a) ensures a == b {
      StringLessConnex(a, b);
    }
  }
}
