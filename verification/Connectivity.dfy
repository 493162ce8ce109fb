// Connected components of a relation on a finite list of items,
// and how many there are.
module Connectivity {
  import opened Collections
  import opened Sorting

  type Relation<!T> = (T, T) -> bool

  /** A walk inside `items` along the relation. */
  predicate IsPath<T(==)>(rel: Relation<T>, items: seq<T>, p: seq<T>, a: T, b: T) {
    && |p| > 0 && p[0] == a && p[|p| - 1] == b
    && (forall k :: 0 <= k < |p| ==> p[k] in items)
    && (forall k :: 0 <= k < |p| - 1 ==> rel(p[k], p[k + 1]))
  }

  ghost predicate Connected<T(!new)>(rel: Relation<T>, items: seq<T>, a: T, b: T) {
    exists p :: IsPath(rel, items, p, a, b)
  }

  ghost predicate Symmetric<T(!new)>(rel: Relation<T>) {
    forall a, b :: rel(a, b) ==> rel(b, a)
  }

  lemma Reflexive<T(!new)>(rel: Relation<T>, items: seq<T>, a: T)
    requires a in items
    ensures Connected(rel, items, a, a)
  {
    assert IsPath(rel, items, [a], a, a);
  }

  lemma Edge<T(!new)>(rel: Relation<T>, items: seq<T>, a: T, b: T)
    requires a in items && b in items && rel(a, b)
    ensures Connected(rel, items, a, b)
  {
    assert IsPath(rel, items, [a, b], a, b);
  }

  lemma Transitive<T(!new)>(rel: Relation<T>, items: seq<T>, a: T, b: T, c: T)
    requires Connected(rel, items, a, b) && Connected(rel, items, b, c)
    ensures Connected(rel, items, a, c)
  {
    var p :| IsPath(rel, items, p, a, b);
    var q :| IsPath(rel, items, q, b, c);
    var r := p + q[1..];
    forall k | 0 <= k < |r| - 1 ensures rel(r[k], r[k + 1]) {
      if k >= |p| - 1 {
        assert r[k] == q[k - (|p| - 1)] && r[k + 1] == q[k + 1 - (|p| - 1)];
      }
    }
    assert IsPath(rel, items, r, a, c);
  }

  lemma Reversible<T(!new)>(rel: Relation<T>, items: seq<T>, a: T, b: T)
    requires Symmetric(rel) && Connected(rel, items, a, b)
    ensures Connected(rel, items, b, a)
  {
    var p :| IsPath(rel, items, p, a, b);
    var n := |p| - 1;
    var r := seq(|p|, i requires 0 <= i < |p| => p[n - i]);
    forall k | 0 <= k < |r| - 1 ensures rel(r[k], r[k + 1]) {
      assert rel(p[n - k - 1], p[n - k - 1 + 1]);
    }
    assert IsPath(rel, items, r, b, a);
  }

  lemma Monotone<T(!new)>(rel: Relation<T>, items: seq<T>, rel': Relation<T>, items': seq<T>, a: T, b: T)
    requires Connected(rel, items, a, b)
    requires forall x :: x in items ==> x in items'
    requires forall x, y :: x in items && y in items && rel(x, y) ==> rel'(x, y)
    ensures Connected(rel', items', a, b)
  {
    var p :| IsPath(rel, items, p, a, b);
    assert IsPath(rel', items', p, a, b);
  }

  /** What every edge keeps, every path keeps. */
  lemma {:induction false} PathKeeps<T(!new), C>(rel: Relation<T>, items: seq<T>, p: seq<T>, a: T, b: T, f: T -> C)
    requires IsPath(rel, items, p, a, b)
    requires forall x, y :: x in items && y in items && rel(x, y) ==> f(x) == f(y)
    ensures f(a) == f(b)
    decreases |p|
  {
    if |p| > 1 {
      assert rel(p[0], p[0 + 1]);
      assert IsPath(rel, items, p[1..], p[1], b) by {
        forall k | 0 <= k < |p| - 2 ensures rel(p[1..][k], p[1..][k + 1]) {
          assert rel(p[k + 1], p[k + 1 + 1]);
        }
      }
      PathKeeps(rel, items, p[1..], p[1], b, f);
    }
  }

  lemma ConnectedKeeps<T(!new), C>(rel: Relation<T>, items: seq<T>, a: T, b: T, f: T -> C)
    requires Connected(rel, items, a, b)
    requires forall x, y :: x in items && y in items && rel(x, y) ==> f(x) == f(y)
    ensures f(a) == f(b)
  {
    var p :| IsPath(rel, items, p, a, b);
    PathKeeps(rel, items, p, a, b, f);
  }

  /** A map that turns every edge into a path turns every path into one. */
  lemma {:induction false} PathMaps<T(!new), R(!new)>(
    rel: Relation<T>, items: seq<T>, p: seq<T>, a: T, b: T, rel': Relation<R>, items': seq<R>, f: T -> R)
    requires IsPath(rel, items, p, a, b)
    requires forall x :: x in items ==> f(x) in items'
    requires forall x, y :: x in items && y in items && rel(x, y) ==> Connected(rel', items', f(x), f(y))
    ensures Connected(rel', items', f(a), f(b))
    decreases |p|
  {
    if |p| == 1 {
      Reflexive(rel', items', f(a));
    } else {
      assert rel(p[0], p[0 + 1]);
      assert IsPath(rel, items, p[1..], p[1], b) by {
        forall k | 0 <= k < |p| - 2 ensures rel(p[1..][k], p[1..][k + 1]) {
          assert rel(p[k + 1], p[k + 1 + 1]);
        }
      }
      PathMaps(rel, items, p[1..], p[1], b, rel', items', f);
      Transitive(rel', items', f(a), f(p[1]), f(b));
    }
  }

  lemma ConnectedMaps<T(!new), R(!new)>(rel: Relation<T>, items: seq<T>, a: T, b: T, rel': Relation<R>, items': seq<R>, f: T -> R)
    requires Connected(rel, items, a, b)
    requires forall x :: x in items ==> f(x) in items'
    requires forall x, y :: x in items && y in items && rel(x, y) ==> Connected(rel', items', f(x), f(y))
    ensures Connected(rel', items', f(a), f(b))
  {
    var p :| IsPath(rel, items, p, a, b);
    PathMaps(rel, items, p, a, b, rel', items', f);
  }

  // ---- partitions into components

  function Flatten<T>(groups: seq<seq<T>>): seq<T> {
    if groups == [] then [] else Flatten(groups[..|groups| - 1]) + groups[|groups| - 1]
  }

  /** The groups are exactly the connected components of the relation on the items. */
  ghost predicate IsComponents<T(!new)>(rel: Relation<T>, items: seq<T>, groups: seq<seq<T>>) {
    && multiset(Flatten(groups)) == multiset(items)
    && (forall i :: 0 <= i < |groups| ==> groups[i] != [])
    && (forall i, j, a, b :: 0 <= i < |groups| && 0 <= j < |groups| && a in groups[i] && b in groups[j]
          ==> (i == j <==> Connected(rel, items, a, b)))
  }

  lemma {:induction false} FlattenMembers<T(!new)>(groups: seq<seq<T>>)
    ensures forall x :: x in Flatten(groups) <==> exists i :: 0 <= i < |groups| && x in groups[i]
  {
    if groups != [] {
      var n := |groups| - 1;
      FlattenMembers(groups[..n]);
      forall x | x in Flatten(groups) ensures exists i :: 0 <= i < |groups| && x in groups[i] {
        if x in Flatten(groups[..n]) {
          var i :| 0 <= i < n && x in groups[..n][i];
          assert x in groups[i];
        }
      }
      forall x, i | 0 <= i < |groups| && x in groups[i] ensures x in Flatten(groups) {
        if i < n {
          assert x in groups[..n][i];
        }
      }
    }
  }

  /** An injection into `{0..m-1}` has at most `m` arguments. */
  lemma {:induction false} Pigeonhole(f: seq<nat>, m: nat)
    requires forall i :: 0 <= i < |f| ==> f[i] < m
    requires Distinct(f)
    ensures |f| <= m
  {
    assert |f| > 0 ==> f[0] < m;
    if f == [] {
    } else if m - 1 in f {
      var k :| 0 <= k < |f| && f[k] == m - 1;
      Pigeonhole(f[..k] + f[k + 1..], m - 1);
    } else {
      Pigeonhole(f, m - 1);
    }
  }

  ghost function GroupOf<T(!new)>(groups: seq<seq<T>>, x: T): (i: nat)
    requires exists i :: 0 <= i < |groups| && x in groups[i]
    ensures i < |groups| && x in groups[i]
  {
    var i :| 0 <= i < |groups| && x in groups[i];
    i
  }

  /** A coarser relation never has more components. */
  lemma CoarserHasNoMore<T(!new)>(rel: Relation<T>, items: seq<T>, fine: seq<seq<T>>, rel': Relation<T>, items': seq<T>, coarse: seq<seq<T>>)
    requires IsComponents(rel, items, fine) && IsComponents(rel', items', coarse)
    requires forall x :: x in items <==> x in items'
    requires forall a, b :: a in items && b in items && Connected(rel, items, a, b) ==> Connected(rel', items', a, b)
    ensures |coarse| <= |fine|
  {
    FlattenMembers(fine);
    FlattenMembers(coarse);
    SameElements(Flatten(fine), items);
    SameElements(Flatten(coarse), items');
    forall i | 0 <= i < |coarse| ensures exists j :: 0 <= j < |fine| && coarse[i][0] in fine[j] {
      assert coarse[i][0] in coarse[i];
      assert coarse[i][0] in Flatten(coarse);
      assert coarse[i][0] in Flatten(fine);
    }
    var f := seq(|coarse|, i requires 0 <= i < |coarse| => GroupOf(fine, coarse[i][0]));
    forall i, j | 0 <= i < j < |f| ensures f[i] != f[j] {
      var a, b := coarse[i][0], coarse[j][0];
      assert a in coarse[i] && b in coarse[j] && a in Flatten(coarse) && b in Flatten(coarse);
      assert !Connected(rel', items', a, b);
      assert !Connected(rel, items, a, b);
      assert a in fine[f[i]] && b in fine[f[j]];
    }
    Pigeonhole(f, |fine|);
  }

  /** Members of the items, no two of them connected. */
  ghost predicate Unjoined<T(!new)>(rel: Relation<T>, items: seq<T>, xs: seq<T>) {
    && (forall i :: 0 <= i < |xs| ==> xs[i] in items)
    && forall i, j :: 0 <= i < j < |xs| ==> !Connected(rel, items, xs[i], xs[j])
  }

  /** There are as many components as members that no chain of links joins. */
  lemma ApartAtMost<T(!new)>(rel: Relation<T>, items: seq<T>, groups: seq<seq<T>>, xs: seq<T>)
    requires IsComponents(rel, items, groups) && Unjoined(rel, items, xs)
    ensures |xs| <= |groups|
  {
    FlattenMembers(groups);
    SameElements(Flatten(groups), items);
    forall i | 0 <= i < |xs| ensures exists k :: 0 <= k < |groups| && xs[i] in groups[k] {
      assert xs[i] in Flatten(groups);
    }
    var f := seq(|xs|, i requires 0 <= i < |xs| => GroupOf(groups, xs[i]));
    forall i, j | 0 <= i < j < |f| ensures f[i] != f[j] {
      assert xs[i] in groups[f[i]] && xs[j] in groups[f[j]];
      assert !Connected(rel, items, xs[i], xs[j]);
    }
    Pigeonhole(f, |groups|);
  }

  lemma OnePerGroup<T(!new)>(rel: Relation<T>, items: seq<T>, groups: seq<seq<T>>) returns (xs: seq<T>)
    requires IsComponents(rel, items, groups)
    ensures |xs| == |groups| && Unjoined(rel, items, xs)
  {
    FlattenMembers(groups);
    SameElements(Flatten(groups), items);
    xs := seq(|groups|, i requires 0 <= i < |groups| => groups[i][0]);
    forall i | 0 <= i < |xs| ensures xs[i] in items {
      assert xs[i] in groups[i] && xs[i] in Flatten(groups);
    }
    forall i, j | 0 <= i < j < |xs| ensures !Connected(rel, items, xs[i], xs[j]) {
      assert xs[i] in groups[i] && xs[j] in groups[j];
    }
  }
}
