/** Witness independence: merging witnesses that share a trust domain or a provider group into failure domains. */
module Independence {
  import opened Collections
  import opened Sorting
  import opened Connectivity

  datatype Claim<T> = Claim(trustDomain: string, providerGroup: string, item: T)

  predicate Linked<T>(a: Claim<T>, b: Claim<T>) {
    a.trustDomain == b.trustDomain || a.providerGroup == b.providerGroup
  }

  function Links<T>(): Relation<Claim<T>> {
    (a, b) => Linked(a, b)
  }

  datatype Component<T> = Component(domains: set<string>, providers: set<string>, items: seq<Claim<T>>)

  predicate Touches<T>(c: Component<T>, x: Claim<T>) {
    x.trustDomain in c.domains || x.providerGroup in c.providers
  }

  function Touching<T>(x: Claim<T>): Component<T> -> bool {
    c => Touches(c, x)
  }

  function Untouching<T>(x: Claim<T>): Component<T> -> bool {
    c => !Touches(c, x)
  }

  function Single<T>(x: Claim<T>): Component<T> {
    Component({x.trustDomain}, {x.providerGroup}, [x])
  }

  function Absorb<T>(c: Component<T>, d: Component<T>): Component<T> {
    Component(c.domains + d.domains, c.providers + d.providers, c.items + d.items)
  }

  function Merge<T>(x: Claim<T>, joined: seq<Component<T>>): Component<T> {
    if joined == [] then Single(x) else Absorb(Merge(x, joined[..|joined| - 1]), joined[|joined| - 1])
  }

  function AddItem<T(!new)>(components: seq<Component<T>>, x: Claim<T>): seq<Component<T>> {
    Filter(Untouching(x), components) + [Merge(x, Filter(Touching(x), components))]
  }

  function Components<T(!new)>(items: seq<Claim<T>>): seq<Component<T>> {
    if items == [] then [] else AddItem(Components(items[..|items| - 1]), items[|items| - 1])
  }

  function ItemsOf<T>(components: seq<Component<T>>): seq<seq<Claim<T>>> {
    Map((c: Component<T>) => c.items, components)
  }

  function Groups<T(!new)>(items: seq<Claim<T>>): seq<seq<Claim<T>>> {
    ItemsOf(Components(items))
  }

  // ---- what the loop keeps

  ghost predicate Describes<T(!new)>(c: Component<T>) {
    && c.items != []
    && (forall d :: d in c.domains <==> exists y :: y in c.items && y.trustDomain == d)
    && (forall g :: g in c.providers <==> exists y :: y in c.items && y.providerGroup == g)
  }

  predicate Apart<T>(c: Component<T>, d: Component<T>) {
    c.domains !! d.domains && c.providers !! d.providers
  }

  predicate AllApart<T>(cs: seq<Component<T>>) {
    forall i, j :: 0 <= i < j < |cs| ==> Apart(cs[i], cs[j])
  }

  lemma ApartPush<T>(cs: seq<Component<T>>, c: Component<T>)
    requires AllApart(cs) && forall i :: 0 <= i < |cs| ==> Apart(cs[i], c)
    ensures AllApart(cs + [c])
  {
    forall i, j | 0 <= i < j < |cs + [c]| ensures Apart((cs + [c])[i], (cs + [c])[j]) {
      if j < |cs| {
        assert Apart(cs[i], cs[j]);
      }
    }
  }

  ghost predicate Inside<T(!new)>(items: seq<Claim<T>>, c: Component<T>) {
    forall a, b :: a in c.items && b in c.items ==> Connected(Links(), items, a, b)
  }

  ghost predicate Merged<T(!new)>(components: seq<Component<T>>, items: seq<Claim<T>>) {
    && (forall c :: c in components ==> Describes(c) && Inside(items, c))
    && AllApart(components)
    && Held(components) == multiset(items)
  }

  lemma {:induction false} MergeMembers<T(!new)>(x: Claim<T>, joined: seq<Component<T>>)
    ensures forall d :: d in Merge(x, joined).domains <==> d == x.trustDomain || exists c :: c in joined && d in c.domains
    ensures forall g :: g in Merge(x, joined).providers <==> g == x.providerGroup || exists c :: c in joined && g in c.providers
    ensures forall y :: y in Merge(x, joined).items <==> y == x || exists c :: c in joined && y in c.items
    ensures Merge(x, joined).items != []
  {
    if joined != [] {
      var n := |joined| - 1;
      assert joined == joined[..n] + [joined[n]];
      MergeMembers(x, joined[..n]);
    }
  }

  lemma {:induction false} MergeItems<T(!new)>(x: Claim<T>, joined: seq<Component<T>>)
    ensures Merge(x, joined).items == [x] + Flatten(ItemsOf(joined))
  {
    if joined != [] {
      var n := |joined| - 1;
      MergeItems(x, joined[..n]);
      assert ItemsOf(joined)[..n] == ItemsOf(joined[..n]);
    }
  }

  /** Every item the components hold, with its multiplicity. */
  ghost function Held<T>(components: seq<Component<T>>): multiset<Claim<T>> {
    multiset(Flatten(ItemsOf(components)))
  }

  lemma HeldPush<T>(components: seq<Component<T>>, c: Component<T>)
    ensures Held(components + [c]) == Held(components) + multiset(c.items)
  {
    var groups := ItemsOf(components);
    assert ItemsOf(components + [c]) == groups + [c.items];
    assert (groups + [c.items])[..|groups|] == groups;
  }

  /** Splitting the components and putting them back loses no item. */
  lemma {:induction false} SplitItems<T(!new)>(components: seq<Component<T>>, x: Claim<T>)
    ensures Held(components) == Held(Filter(Untouching(x), components)) + Held(Filter(Touching(x), components))
  {
    if components != [] {
      var n := |components| - 1;
      var c := components[n];
      SplitItems(components[..n], x);
      assert components == components[..n] + [c];
      HeldPush(components[..n], c);
      HeldPush(Filter(Untouching(x), components[..n]), c);
      HeldPush(Filter(Touching(x), components[..n]), c);
      var keep, joined := Filter(Untouching(x), components[..n]), Filter(Touching(x), components[..n]);
      if Touches(c, x) {
        assert Filter(Touching(x), components) == joined + [c] && Filter(Untouching(x), components) == keep;
      } else {
        assert Filter(Touching(x), components) == joined && Filter(Untouching(x), components) == keep + [c];
      }
    }
  }

  lemma {:induction false} FilterApart<T(!new)>(p: Component<T> -> bool, components: seq<Component<T>>)
    requires AllApart(components)
    ensures AllApart(Filter(p, components))
  {
    if components != [] {
      var n := |components| - 1;
      FilterApart(p, components[..n]);
      FilterMembers(p, components[..n]);
      var front := Filter(p, components[..n]);
      forall i | 0 <= i < |front| ensures Apart(front[i], components[n]) {
        assert front[i] in components[..n];
      }
      ApartPush(front, components[n]);
    }
  }

  /** An untouched component shares nothing with the merged one. */
  lemma UntouchedApart<T(!new)>(components: seq<Component<T>>, x: Claim<T>, c: Component<T>)
    requires AllApart(components)
    requires c in components && !Touches(c, x)
    ensures Apart(c, Merge(x, Filter(Touching(x), components)))
  {
    var joined := Filter(Touching(x), components);
    FilterMembers(Touching(x), components);
    MergeMembers(x, joined);
    forall d | d in joined ensures Apart(c, d) {
      var i :| 0 <= i < |components| && components[i] == c;
      var j :| 0 <= j < |components| && components[j] == d;
      assert i != j;
      assert Apart(components[i], components[j]) || Apart(components[j], components[i]);
    }
  }

  lemma MergedDescribes<T(!new)>(x: Claim<T>, joined: seq<Component<T>>)
    requires forall c :: c in joined ==> Describes(c)
    ensures Describes(Merge(x, joined))
  {
    MergeMembers(x, joined);
    var m := Merge(x, joined);
    forall d ensures d in m.domains <==> exists y :: y in m.items && y.trustDomain == d {
      if d in m.domains && d != x.trustDomain {
        var c :| c in joined && d in c.domains;
        assert Describes(c);
      }
      if y :| y in m.items && y.trustDomain == d && y != x {
        var c :| c in joined && y in c.items;
        assert Describes(c);
      }
      assert x in m.items;
    }
    forall g ensures g in m.providers <==> exists y :: y in m.items && y.providerGroup == g {
      if g in m.providers && g != x.providerGroup {
        var c :| c in joined && g in c.providers;
        assert Describes(c);
      }
      if y :| y in m.items && y.providerGroup == g && y != x {
        var c :| c in joined && y in c.items;
        assert Describes(c);
      }
      assert x in m.items;
    }
  }

  lemma InsideGrows<T(!new)>(items: seq<Claim<T>>, items': seq<Claim<T>>, c: Component<T>)
    requires Inside(items, c) && forall y :: y in items ==> y in items'
    ensures Inside(items', c)
  {
    forall a, b | a in c.items && b in c.items ensures Connected(Links(), items', a, b) {
      Monotone(Links(), items, Links(), items', a, b);
    }
  }

  /** Everything absorbed reaches the new item. */
  lemma ReachesNewItem<T(!new)>(items: seq<Claim<T>>, x: Claim<T>, c: Component<T>, a: Claim<T>)
    requires x in items && Describes(c) && Inside(items, c) && Touches(c, x) && a in c.items
    requires forall y :: y in c.items ==> y in items
    ensures Connected(Links(), items, a, x)
  {
    var y :| y in c.items && Linked(y, x);
    Edge(Links(), items, y, x);
    Transitive(Links(), items, a, y, x);
  }

  lemma MergedInside<T(!new)>(items: seq<Claim<T>>, x: Claim<T>, joined: seq<Component<T>>)
    requires x in items
    requires forall c :: c in joined ==> Describes(c) && Inside(items, c) && Touches(c, x)
    requires forall c, y :: c in joined && y in c.items ==> y in items
    ensures Inside(items, Merge(x, joined))
  {
    MergeMembers(x, joined);
    var m := Merge(x, joined);
    forall a | a in m.items ensures Connected(Links(), items, a, x) {
      if a == x {
        Reflexive(Links(), items, x);
      } else {
        var c :| c in joined && a in c.items;
        ReachesNewItem(items, x, c, a);
      }
    }
    forall a, b | a in m.items && b in m.items ensures Connected(Links(), items, a, b) {
      Reversible(Links(), items, b, x);
      Transitive(Links(), items, a, x, b);
    }
  }

  lemma ItemsInside<T(!new)>(components: seq<Component<T>>, items: seq<Claim<T>>)
    requires Held(components) == multiset(items)
    ensures forall c, y :: c in components && y in c.items ==> y in items
    ensures forall y :: y in items ==> exists i :: 0 <= i < |components| && y in components[i].items
  {
    FlattenMembers(ItemsOf(components));
    SameElements(Flatten(ItemsOf(components)), items);
    forall c, y | c in components && y in c.items ensures y in items {
      var i :| 0 <= i < |components| && components[i] == c;
      assert y in ItemsOf(components)[i];
    }
    forall y | y in items ensures exists i :: 0 <= i < |components| && y in components[i].items {
      assert y in Flatten(ItemsOf(components));
      var i :| 0 <= i < |components| && y in ItemsOf(components)[i];
      assert y in components[i].items;
    }
  }

  lemma AddItemKeepsItems<T(!new)>(components: seq<Component<T>>, items: seq<Claim<T>>, x: Claim<T>)
    requires Held(components) == multiset(items)
    ensures Held(AddItem(components, x)) == multiset(items + [x])
  {
    var keep, joined := Filter(Untouching(x), components), Filter(Touching(x), components);
    SplitItems(components, x);
    MergeItems(x, joined);
    HeldPush(keep, Merge(x, joined));
  }

  lemma AddItemKeepsApart<T(!new)>(components: seq<Component<T>>, x: Claim<T>)
    requires AllApart(components)
    ensures AllApart(AddItem(components, x))
  {
    var keep, m := Filter(Untouching(x), components), Merge(x, Filter(Touching(x), components));
    FilterMembers(Untouching(x), components);
    FilterApart(Untouching(x), components);
    forall i | 0 <= i < |keep| ensures Apart(keep[i], m) {
      assert keep[i] in keep;
      UntouchedApart(components, x, keep[i]);
    }
    ApartPush(keep, m);
  }

  lemma AddItemKeepsInside<T(!new)>(components: seq<Component<T>>, items: seq<Claim<T>>, x: Claim<T>)
    requires Held(components) == multiset(items)
    requires forall c :: c in components ==> Describes(c) && Inside(items, c)
    ensures forall c :: c in AddItem(components, x) ==> Describes(c) && Inside(items + [x], c)
  {
    var keep, joined := Filter(Untouching(x), components), Filter(Touching(x), components);
    FilterMembers(Untouching(x), components);
    FilterMembers(Touching(x), components);
    ItemsInside(components, items);
    forall c | c in components ensures Inside(items + [x], c) {
      InsideGrows(items, items + [x], c);
    }
    MergedDescribes(x, joined);
    MergedInside(items + [x], x, joined);
  }

  lemma AddItemKeepsMerged<T(!new)>(components: seq<Component<T>>, items: seq<Claim<T>>, x: Claim<T>)
    requires Merged(components, items)
    ensures Merged(AddItem(components, x), items + [x])
  {
    AddItemKeepsItems(components, items, x);
    AddItemKeepsApart(components, x);
    AddItemKeepsInside(components, items, x);
  }

  lemma {:induction false} ComponentsMerged<T(!new)>(items: seq<Claim<T>>)
    ensures Merged(Components(items), items)
  {
    if items != [] {
      var n := |items| - 1;
      ComponentsMerged(items[..n]);
      AddItemKeepsMerged(Components(items[..n]), items[..n], items[n]);
      assert items == items[..n] + [items[n]];
    }
  }

  lemma DescribesItem<T(!new)>(c: Component<T>, y: Claim<T>)
    requires Describes(c) && y in c.items
    ensures y.trustDomain in c.domains && y.providerGroup in c.providers
  {
  }

  /** Linked items are in one component: a link shares a domain or a group, and components share neither. */
  lemma LinkStays<T(!new)>(components: seq<Component<T>>, items: seq<Claim<T>>, k: nat, l: nat, x: Claim<T>, y: Claim<T>)
    requires Merged(components, items) && k < |components| && l < |components|
    requires x in components[k].items && y in components[l].items && Linked(x, y)
    ensures k == l
  {
    DescribesItem(components[k], x);
    DescribesItem(components[l], y);
  }

  ghost function Home<T(!new)>(components: seq<Component<T>>, y: Claim<T>): nat {
    if exists i :: 0 <= i < |components| && y in components[i].items then
      var i :| 0 <= i < |components| && y in components[i].items; i
    else 0
  }

  lemma HomeUnique<T(!new)>(components: seq<Component<T>>, items: seq<Claim<T>>, i: nat, y: Claim<T>)
    requires Merged(components, items) && i < |components| && y in components[i].items
    ensures Home(components, y) == i
  {
    LinkStays(components, items, i, Home(components, y), y, y);
  }

  /** No path leaves a component. */
  lemma SameComponent<T(!new)>(components: seq<Component<T>>, items: seq<Claim<T>>, i: nat, j: nat, a: Claim<T>, b: Claim<T>)
    requires Merged(components, items) && i < |components| && j < |components|
    requires a in components[i].items && b in components[j].items && Connected(Links(), items, a, b)
    ensures i == j
  {
    ItemsInside(components, items);
    forall x, y | x in items && y in items && Links()(x, y) ensures Home(components, x) == Home(components, y) {
      LinkStays(components, items, Home(components, x), Home(components, y), x, y);
    }
    ConnectedKeeps(Links(), items, a, b, (y: Claim<T>) => Home(components, y));
    HomeUnique(components, items, i, a);
    HomeUnique(components, items, j, b);
  }

  /** `independenceGroups` returns exactly the connected components of "same trust domain or same provider group". */
  lemma GroupsAreComponents<T(!new)>(items: seq<Claim<T>>)
    ensures IsComponents(Links(), items, Groups(items))
  {
    ComponentsMerged(items);
    var cs, gs := Components(items), Groups(items);
    forall i | 0 <= i < |gs| ensures gs[i] != [] {
      assert Describes(cs[i]);
    }
    forall i, j, a, b | 0 <= i < |gs| && 0 <= j < |gs| && a in gs[i] && b in gs[j]
      ensures i == j <==> Connected(Links(), items, a, b)
    {
      if i == j {
        assert Inside(items, cs[i]);
      }
      if Connected(Links(), items, a, b) {
        SameComponent(cs, items, i, j, a, b);
      }
    }
  }

  /** The number of failure domains does not depend on the order witnesses are listed in, nor on repeats. */
  lemma CountIgnoresOrder<T(!new)>(items: seq<Claim<T>>, items': seq<Claim<T>>)
    requires forall x :: x in items <==> x in items'
    ensures |Groups(items)| == |Groups(items')|
  {
    GroupsAreComponents(items);
    GroupsAreComponents(items');
    forall a, b ensures Connected(Links(), items, a, b) <==> Connected(Links(), items', a, b) {
      if Connected(Links(), items, a, b) { Monotone(Links(), items, Links(), items', a, b); }
      if Connected(Links(), items', a, b) { Monotone(Links(), items', Links(), items, a, b); }
    }
    CoarserHasNoMore(Links(), items, Groups(items), Links(), items', Groups(items'));
    CoarserHasNoMore(Links(), items', Groups(items'), Links(), items, Groups(items));
  }
}
