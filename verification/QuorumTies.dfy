/** Where ties let arrival order choose the witness, and the exact condition when links are transitive. */
module QuorumTies {
  import opened Collections
  import opened Sorting
  import opened Connectivity
  import opened Independence
  import opened Quorum
  import opened QuorumMeaning
  import opened QuorumOrder

  // ---- two linked witnesses

  lemma FirstComponent<T(!new)>(x: Claim<T>)
    ensures Components([x]) == [Single(x)]
  {
    assert [x][..0] == [];
    assert Components<T>([]) == [];
  }

  lemma JoinOne<T(!new)>(c: Component<T>, y: Claim<T>)
    requires Touches(c, y)
    ensures AddItem([c], y) == [Absorb(Single(y), c)]
  {
    assert [c][..0] == [];
    assert Filter(Touching(y), [c]) == [c];
    assert Filter(Untouching(y), [c]) == [];
    assert Merge(y, []) == Single(y);
  }

  lemma AddLast<T(!new)>(items: seq<Claim<T>>, y: Claim<T>)
    ensures Components(items + [y]) == AddItem(Components(items), y)
  {
    assert (items + [y])[..|items|] == items;
  }

  lemma PairGroup<T(!new)>(x: Claim<T>, y: Claim<T>)
    requires Linked(x, y)
    ensures Groups([x, y]) == [[y, x]]
  {
    FirstComponent(x);
    AddLast([x], y);
    JoinOne(Single(x), y);
    assert [x] + [y] == [x, y];
    assert Components([x, y]) == [Absorb(Single(y), Single(x))];
    LoneItems(Absorb(Single(y), Single(x)));
    assert [y] + [x] == [y, x];
  }

  lemma LoneItems<T>(c: Component<T>)
    ensures ItemsOf([c]) == [c.items]
  {
  }

  lemma SortPair<T(!new)>(le: Order<T>, x: T, y: T)
    requires le(x, y)
    ensures Sort(le, [x, y]) == [x, y]
  {
    assert [x, y][..1] == [x] && [x][..0] == [];
    assert Sort(le, [x]) == [x];
  }

  lemma SortOne<T(!new)>(le: Order<T>, x: T)
    ensures Sort(le, [x]) == [x]
  {
    assert [x][..0] == [];
  }

  /** Two linked witnesses whose keys and ids tie: the one that arrived last is picked. */
  lemma TiedPair(le: Order<string>, x: Claim<string>, y: Claim<string>)
    requires Linked(x, y) && Tied(le, KeyOf(x), KeyOf(y)) && Tied(le, x.item, y.item)
    ensures Picked(le, [x, y]) == [y]
  {
    var key, item := ByKey(le, Itself()), ByItem(le, Itself());
    SortPair(key, x, y);
    PairGroup(x, y);
    SortPair(item, y, x);
    assert Lowest(le, Itself(), [y, x]) == [y];
    var gs := [[y, x]];
    assert gs[..0] == [];
    assert LowestOfEach(le, Itself(), gs) == [y];
    SortOne(item, y);
  }

  function TripleOf(o: Observation): Claim<string> {
    Claim(o.trustDomain, o.providerGroup, o.endpointId)
  }

  lemma PairTriples(o: Observation, p: Observation)
    ensures Triples([o, p]) == [TripleOf(o), TripleOf(p)]
  {
  }

  lemma LatestOfPair(le: Order<string>, o: Observation, p: Observation)
    requires Linked(TripleOf(o), TripleOf(p)) && Tied(le, KeyOf(TripleOf(o)), KeyOf(TripleOf(p))) && Tied(le, o.endpointId, p.endpointId)
    ensures ChosenTriples(le, [o, p]) == [TripleOf(p)]
  {
    PairTriples(o, p);
    ChosenArePicked(le, [o, p]);
    TiedPair(le, TripleOf(o), TripleOf(p));
  }

  /** Under every comparator that ties both their keys and their ids, two different linked witnesses expose their order of arrival. */
  lemma TiesExposeOrder(le: Order<string>, o: Observation, p: Observation)
    requires Linked(TripleOf(o), TripleOf(p)) && TripleOf(o) != TripleOf(p)
    requires Tied(le, KeyOf(TripleOf(o)), KeyOf(TripleOf(p))) && Tied(le, o.endpointId, p.endpointId)
    ensures ChosenTriples(le, [o, p]) != ChosenTriples(le, [p, o])
  {
    LatestOfPair(le, o, p);
    LatestOfPair(le, p, o);
  }

  // ---- transitive links: a group is its members in reverse

  /** Whoever shares with one of two linked witnesses shares with the other. */
  predicate LinksTransitive<T(==)>(v: seq<Claim<T>>) {
    forall x, y, z :: x in v && y in v && z in v && Linked(x, y) && Linked(y, z) ==> Linked(x, z)
  }

  function Near<T>(c: Claim<T>): Claim<T> -> bool {
    (d: Claim<T>) => Linked(c, d)
  }

  function Rev<T>(s: seq<T>): seq<T> {
    if s == [] then [] else [s[|s| - 1]] + Rev(s[..|s| - 1])
  }

  lemma {:induction false} RevMembers<T(!new)>(s: seq<T>, x: T)
    ensures x in Rev(s) <==> x in s
  {
    if s != [] {
      RevMembers(s[..|s| - 1], x);
      assert s == s[..|s| - 1] + [s[|s| - 1]];
    }
  }

  lemma RevPush<T>(s: seq<T>, x: T)
    ensures Rev(s + [x]) == [x] + Rev(s)
  {
    assert (s + [x])[..|s|] == s;
  }

  lemma FilterPush<T(!new)>(p: T -> bool, s: seq<T>, x: T)
    ensures p(x) ==> Filter(p, s + [x]) == Filter(p, s) + [x]
    ensures !p(x) ==> Filter(p, s + [x]) == Filter(p, s)
  {
    assert (s + [x])[..|s|] == s;
  }

  /** A component lists, latest first, everything near any of its members. */
  ghost predicate Reversed<T(!new)>(k: Component<T>, s: seq<Claim<T>>) {
    forall c :: c in k.items ==> k.items == Rev(Filter(Near(c), s))
  }

  lemma TouchingMember<T(!new)>(k: Component<T>, x: Claim<T>) returns (a: Claim<T>)
    requires Describes(k) && Touches(k, x)
    ensures a in k.items && Linked(a, x)
  {
    a :| a in k.items && Linked(a, x);
  }

  /** At most one component touches a new claim. */
  lemma OneTouched<T(!new)>(cs: seq<Component<T>>, s: seq<Claim<T>>, x: Claim<T>, i: nat, j: nat)
    requires Merged(cs, s) && LinksTransitive(s + [x]) && i < |cs| && j < |cs| && Touches(cs[i], x) && Touches(cs[j], x)
    ensures i == j
  {
    ItemsInside(cs, s);
    var a := TouchingMember(cs[i], x);
    var b := TouchingMember(cs[j], x);
    assert a in s + [x] && b in s + [x] && x in s + [x] && Linked(x, b);
    LinkStays(cs, s, i, j, a, b);
  }

  lemma {:induction false} FilterNoneBut<T(!new)>(p: T -> bool, s: seq<T>)
    requires forall i, j :: 0 <= i < |s| && 0 <= j < |s| && p(s[i]) && p(s[j]) ==> i == j
    ensures |Filter(p, s)| <= 1
  {
    if s != [] {
      var n := |s| - 1;
      FilterNoneBut(p, s[..n]);
      FilterMembers(p, s[..n]);
      if p(s[n]) {
        FilterNone(p, s[..n]);
      }
    }
  }

  lemma Joined<T(!new)>(cs: seq<Component<T>>, s: seq<Claim<T>>, x: Claim<T>)
    requires Merged(cs, s) && LinksTransitive(s + [x])
    ensures |Filter(Touching(x), cs)| <= 1
  {
    forall i, j | 0 <= i < |cs| && 0 <= j < |cs| && Touching(x)(cs[i]) && Touching(x)(cs[j]) ensures i == j {
      OneTouched(cs, s, x, i, j);
    }
    FilterNoneBut(Touching(x), cs);
  }

  lemma UntouchedReversed<T(!new)>(cs: seq<Component<T>>, s: seq<Claim<T>>, x: Claim<T>, k: Component<T>)
    requires Merged(cs, s) && k in cs && Reversed(k, s) && !Touches(k, x)
    ensures Reversed(k, s + [x])
  {
    assert Describes(k);
    forall c | c in k.items ensures k.items == Rev(Filter(Near(c), s + [x])) {
      DescribesItem(k, c);
      FilterPush(Near(c), s, x);
    }
  }

  /** Nothing near a claim that touches no component. */
  lemma FreshReversed<T(!new)>(cs: seq<Component<T>>, s: seq<Claim<T>>, x: Claim<T>)
    requires Merged(cs, s) && forall k :: k in cs ==> !Touches(k, x)
    ensures Reversed(Single(x), s + [x])
  {
    ItemsInside(cs, s);
    forall d | d in s ensures !Near(x)(d) {
      var i :| 0 <= i < |cs| && d in cs[i].items;
      assert cs[i] in cs;
      DescribesItem(cs[i], d);
    }
    FilterNone(Near(x), s);
    FilterPush(Near(x), s, x);
    RevPush([], x);
  }

  lemma GrownReversed<T(!new)>(cs: seq<Component<T>>, s: seq<Claim<T>>, x: Claim<T>, k: Component<T>)
    requires Merged(cs, s) && LinksTransitive(s + [x]) && k in cs && Reversed(k, s) && Touches(k, x)
    ensures Reversed(Absorb(Single(x), k), s + [x])
  {
    ItemsInside(cs, s);
    assert Describes(k);
    var a := TouchingMember(k, x);
    var all := s + [x];
    assert x in all && forall d :: d in s ==> d in all;
    forall c | c in [x] + k.items ensures [x] + k.items == Rev(Filter(Near(c), all)) {
      var i :| 0 <= i < |cs| && cs[i] == k;
      assert c in all && Linked(c, a) by {
        if c != x {
          assert Inside(s, k);
          NearInComponent(cs, s, k, a, c);
        }
      }
      assert Linked(x, a) && Linked(c, x);
      forall d | d in s ensures Near(c)(d) == Near(a)(d) {
        assert d in all;
      }
      FilterAgree(Near(c), Near(a), s);
      FilterPush(Near(c), s, x);
      RevPush(Filter(Near(a), s), x);
    }
  }

  /** Members of one component are near one another. */
  lemma NearInComponent<T(!new)>(cs: seq<Component<T>>, s: seq<Claim<T>>, k: Component<T>, a: Claim<T>, c: Claim<T>)
    requires Merged(cs, s) && k in cs && Reversed(k, s) && a in k.items && c in k.items
    ensures Linked(c, a)
  {
    RevMembers(Filter(Near(c), s), a);
    FilterMembers(Near(c), s);
  }

  lemma ReversedStep<T(!new)>(cs: seq<Component<T>>, s: seq<Claim<T>>, x: Claim<T>)
    requires Merged(cs, s) && LinksTransitive(s + [x]) && forall k :: k in cs ==> Reversed(k, s)
    ensures forall k :: k in AddItem(cs, x) ==> Reversed(k, s + [x])
  {
    var keep, joined := Filter(Untouching(x), cs), Filter(Touching(x), cs);
    FilterMembers(Untouching(x), cs);
    FilterMembers(Touching(x), cs);
    Joined(cs, s, x);
    forall k | k in keep ensures Reversed(k, s + [x]) {
      UntouchedReversed(cs, s, x, k);
    }
    if joined == [] {
      forall k | k in cs ensures !Touches(k, x) {
        assert k !in joined;
      }
      FreshReversed(cs, s, x);
    } else {
      assert joined == [joined[0]] && joined[0] in joined && joined[..0] == [];
      assert Merge(x, joined) == Absorb(Single(x), joined[0]);
      GrownReversed(cs, s, x, joined[0]);
    }
  }

  lemma {:induction false} ComponentsReversed<T(!new)>(s: seq<Claim<T>>)
    requires LinksTransitive(s)
    ensures forall k :: k in Components(s) ==> Reversed(k, s)
  {
    if s != [] {
      var n := |s| - 1;
      assert s == s[..n] + [s[n]];
      ComponentsReversed(s[..n]);
      ComponentsMerged(s[..n]);
      ReversedStep(Components(s[..n]), s[..n], s[n]);
    }
  }

  // ---- the representative of a reversed group

  /** The first of the smallest elements is what sorting puts in front. */
  function FirstSmallest<T(!new)>(le: Order<T>, s: seq<T>): T
    requires s != []
  {
    if |s| == 1 then s[0]
    else
      var best := FirstSmallest(le, s[..|s| - 1]);
      if le(best, s[|s| - 1]) then best else s[|s| - 1]
  }

  lemma {:induction false} InsertHead<T(!new)>(le: Order<T>, s: seq<T>, x: T)
    requires TotalPreorder(le) && SortedBy(le, s) && s != []
    ensures Insert(le, s, x)[0] == if le(s[0], x) then s[0] else x
  {
    var n := |s| - 1;
    assert le(s[n], s[n]);
    if !le(s[n], x) {
      if n > 0 {
        InsertHead(le, s[..n], x);
        assert le(s[0], s[n]);
      }
    } else if n > 0 {
      assert le(s[0], s[n]);
    }
  }

  lemma {:induction false} SortHead<T(!new)>(le: Order<T>, s: seq<T>)
    requires TotalPreorder(le) && s != []
    ensures Sort(le, s)[0] == FirstSmallest(le, s)
  {
    var n := |s| - 1;
    if n > 0 {
      SortHead(le, s[..n]);
      SortSorts(le, s[..n]);
      InsertHead(le, Sort(le, s[..n]), s[n]);
    } else {
      assert s == [s[0]];
      SortOne(le, s[0]);
    }
  }

  /** The last of the smallest elements. */
  function LastSmallest<T(!new)>(le: Order<T>, s: seq<T>): T
    requires s != []
  {
    if |s| == 1 then s[0]
    else
      var best := LastSmallest(le, s[..|s| - 1]);
      if le(s[|s| - 1], best) then s[|s| - 1] else best
  }

  lemma {:induction false} FirstOfPushedFront<T(!new)>(le: Order<T>, x: T, s: seq<T>)
    requires TotalPreorder(le) && s != []
    ensures FirstSmallest(le, [x] + s) == if le(x, FirstSmallest(le, s)) then x else FirstSmallest(le, s)
  {
    var n := |s| - 1;
    assert ([x] + s)[..n + 1] == [x] + s[..n];
    if n > 0 {
      FirstOfPushedFront(le, x, s[..n]);
      assert le(x, s[n]) || le(s[n], x);
    } else {
      assert [x] + s[..n] == [x];
    }
  }

  lemma {:induction false} FirstOfReversed<T(!new)>(le: Order<T>, s: seq<T>)
    requires TotalPreorder(le) && s != []
    ensures Rev(s) != [] && FirstSmallest(le, Rev(s)) == LastSmallest(le, s)
  {
    var n := |s| - 1;
    if n > 0 {
      FirstOfReversed(le, s[..n]);
      FirstOfPushedFront(le, s[n], Rev(s[..n]));
    } else {
      assert Rev(s) == [s[0]];
    }
  }

  /** Which one it is: smallest, and nothing as small comes later. */
  lemma {:induction false} LastSmallestAt<T(!new)>(le: Order<T>, s: seq<T>) returns (i: nat)
    requires TotalPreorder(le) && s != []
    ensures i < |s| && s[i] == LastSmallest(le, s)
    ensures forall j :: 0 <= j < |s| ==> le(s[i], s[j])
    ensures forall j :: i < j < |s| ==> !le(s[j], s[i])
  {
    var n := |s| - 1;
    assert le(s[n], s[n]);
    if n == 0 {
      i := 0;
    } else {
      var k := LastSmallestAt(le, s[..n]);
      i := if le(s[n], s[k]) then n else k;
      forall j | 0 <= j < |s| ensures le(s[i], s[j]) {
        assert j < n ==> le(s[..n][k], s[..n][j]);
      }
    }
  }

  /** The representative of a group of transitively linked witnesses is, among the least, the last in key order. */
  lemma LowestOfReversed(le: Order<string>, f: seq<Claim<string>>)
    requires TotalPreorder(le) && f != []
    ensures Lowest(le, Itself(), Rev(f)) == [LastSmallest(ByItem(le, Itself()), f)]
  {
    var item := ByItem(le, Itself());
    OrdersArePreorders(le);
    FirstOfReversed(item, f);
    SortHead(item, Rev(f));
  }

  // ---- the exact condition

  /** Least endpoint id among those it shares with, and greatest key among those as low. */
  ghost predicate TopLeast(le: Order<string>, v: seq<Claim<string>>, c: Claim<string>) {
    && c in v
    && (forall d :: d in v && Linked(c, d) ==> le(c.item, d.item))
    && (forall d :: d in v && Linked(c, d) && le(d.item, c.item) ==> le(KeyOf(d), KeyOf(c)))
  }

  /** No two different linked witnesses are both at the top of the least. */
  ghost predicate NoTopTies(le: Order<string>, v: seq<Claim<string>>) {
    forall x, y :: TopLeast(le, v, x) && TopLeast(le, v, y) && Linked(x, y) ==> x == y
  }

  lemma TransitiveAlike(v: seq<Claim<string>>, w: seq<Claim<string>>)
    requires LinksTransitive(v) && forall x :: x in w ==> x in v
    ensures LinksTransitive(w)
  {
  }

  /** Every member's group, in key order. */
  function Around(le: Order<string>, v: seq<Claim<string>>, c: Claim<string>): seq<Claim<string>> {
    Filter(Near(c), Sort(ByKey(le, Itself()), v))
  }

  lemma GroupIsAround(le: Order<string>, v: seq<Claim<string>>, i: nat, c: Claim<string>)
    requires LinksTransitive(v) && i < |SortedGroups(le, v)| && c in SortedGroups(le, v)[i]
    ensures SortedGroups(le, v)[i] == Rev(Around(le, v, c))
  {
    var s := Sort(ByKey(le, Itself()), v);
    SameElements(s, v);
    TransitiveAlike(v, s);
    ComponentsReversed(s);
    assert Components(s)[i] in Components(s);
  }

  /** What is picked: for each witness, the last of the least around it. */
  lemma PickedAround(le: Order<string>, v: seq<Claim<string>>, c: Claim<string>)
    requires TotalPreorder(le) && LinksTransitive(v) && c in v
    ensures Around(le, v, c) != [] && LastSmallest(ByItem(le, Itself()), Around(le, v, c)) in Picked(le, v)
  {
    var s, gs := Sort(ByKey(le, Itself()), v), SortedGroups(le, v);
    SortedGroupsAreComponents(le, v);
    FilterMembers(Near(c), s);
    assert c in Around(le, v, c);
    var i := GroupHolding(s, gs, c);
    GroupIsAround(le, v, i, c);
    LowestOfReversed(le, Around(le, v, c));
    PicksOfGroups(le, v, LastSmallest(ByItem(le, Itself()), Around(le, v, c)));
  }

  lemma PickedIsAround(le: Order<string>, v: seq<Claim<string>>, c: Claim<string>)
    requires TotalPreorder(le) && LinksTransitive(v) && c in Picked(le, v)
    ensures c in v && Around(le, v, c) != [] && c == LastSmallest(ByItem(le, Itself()), Around(le, v, c))
  {
    var gs := SortedGroups(le, v);
    SortedGroupsAreComponents(le, v);
    PicksOfGroups(le, v, c);
    var i :| 0 <= i < |gs| && Lowest(le, Itself(), gs[i]) == [c];
    assert gs[i] != [];
    OneLowest(le, gs[i]);
    GroupIsAround(le, v, i, c);
    PickedAreLeast(le, v, c);
    var f := Around(le, v, c);
    RevMembers(f, c);
    LowestOfReversed(le, f);
  }

  lemma {:induction false} FilterSorted<T(!new)>(le: Order<T>, p: T -> bool, s: seq<T>)
    requires SortedBy(le, s)
    ensures SortedBy(le, Filter(p, s))
  {
    if s != [] {
      var n := |s| - 1;
      FilterSorted(le, p, s[..n]);
      FilterMembers(p, s[..n]);
      var front := Filter(p, s[..n]);
      forall i | 0 <= i < |front| ensures le(front[i], s[n]) {
        assert front[i] in s[..n];
        var k :| 0 <= k < n && s[..n][k] == front[i];
        assert le(s[k], s[n]);
      }
    }
  }

  lemma AroundSorted(le: Order<string>, v: seq<Claim<string>>, c: Claim<string>)
    requires TotalPreorder(le)
    ensures SortedBy(ByKey(le, Itself()), Around(le, v, c))
    ensures forall d :: d in Around(le, v, c) <==> d in v && Linked(c, d)
  {
    var key := ByKey(le, Itself());
    var s := Sort(key, v);
    OrdersArePreorders(le);
    SortSorts(key, v);
    SameElements(s, v);
    FilterSorted(key, Near(c), s);
    FilterMembers(Near(c), s);
  }

  lemma PickedIsTop(le: Order<string>, v: seq<Claim<string>>, c: Claim<string>)
    requires TotalPreorder(le) && LinksTransitive(v) && c in Picked(le, v)
    ensures TopLeast(le, v, c)
  {
    var f, item := Around(le, v, c), ByItem(le, Itself());
    PickedIsAround(le, v, c);
    AroundSorted(le, v, c);
    OrdersArePreorders(le);
    var i := LastSmallestAt(item, f);
    TopAmong(le, v, c, f, i);
  }

  lemma TopAmong(le: Order<string>, v: seq<Claim<string>>, c: Claim<string>, f: seq<Claim<string>>, i: nat)
    requires i < |f| && f[i] == c && c in v && SortedBy(ByKey(le, Itself()), f) && TotalPreorder(le)
    requires forall k :: 0 <= k < |f| ==> ByItem(le, Itself())(f[i], f[k])
    requires forall k :: i < k < |f| ==> !ByItem(le, Itself())(f[k], f[i])
    requires forall d :: d in v && Linked(c, d) ==> d in f
    ensures TopLeast(le, v, c)
  {
    forall d | d in v && Linked(c, d) ensures le(c.item, d.item) && (le(d.item, c.item) ==> le(KeyOf(d), KeyOf(c))) {
      var j :| 0 <= j < |f| && f[j] == d;
      TopAgainst(le, f, i, j);
    }
  }

  lemma TopAgainst(le: Order<string>, f: seq<Claim<string>>, i: nat, j: nat)
    requires i < |f| && j < |f| && SortedBy(ByKey(le, Itself()), f) && TotalPreorder(le)
    requires forall k :: 0 <= k < |f| ==> ByItem(le, Itself())(f[i], f[k])
    requires forall k :: i < k < |f| ==> !ByItem(le, Itself())(f[k], f[i])
    ensures le(f[i].item, f[j].item) && (le(f[j].item, f[i].item) ==> le(KeyOf(f[j]), KeyOf(f[i])))
  {
    assert ByItem(le, Itself())(f[i], f[j]);
    if le(f[j].item, f[i].item) {
      assert ByItem(le, Itself())(f[j], f[i]);
      assert j < i ==> ByKey(le, Itself())(f[j], f[i]);
    }
  }

  lemma PushRight<T>(a: seq<T>, b: seq<T>, c: seq<T>, x: T)
    ensures (a + b + c) + [x] == a + b + (c + [x])
  {
  }

  lemma PushMembers<T>(a: seq<T>, x: T)
    ensures forall b :: b in a + [x] ==> b in a || b == x
  {
  }

  ghost predicate Splits<T(!new)>(le: Order<T>, s: seq<T>, x: T, r: seq<T>, before: seq<T>, after: seq<T>) {
    s == before + after && r == before + [x] + after && forall b :: b in after ==> !le(b, x)
  }

  lemma SplitsPush<T(!new)>(le: Order<T>, s: seq<T>, x: T, r: seq<T>, before: seq<T>, after: seq<T>, y: T)
    requires Splits(le, s, x, r, before, after) && !le(y, x)
    ensures Splits(le, s + [y], x, r + [y], before, after + [y])
  {
    PushRight(before, [x], after, y);
    PushRight(before, [], after, y);
    assert before + [] == before;
    PushMembers(after, y);
  }

  lemma SplitsLast<T(!new)>(le: Order<T>, s: seq<T>, x: T)
    requires s == [] || le(s[|s| - 1], x)
    ensures Splits(le, s, x, Insert(le, s, x), s, [])
  {
    assert s + [] == s && s + [x] + [] == s + [x];
    assert s == [] ==> s + [x] == [x];
  }

  lemma InsertBefore<T(!new)>(le: Order<T>, s: seq<T>, x: T)
    requires s != [] && !le(s[|s| - 1], x)
    ensures Insert(le, s, x) == Insert(le, s[..|s| - 1], x) + [s[|s| - 1]]
  {
  }

  /** A new element goes after all it does not precede. */
  lemma {:induction false} InsertSplits<T(!new)>(le: Order<T>, s: seq<T>, x: T) returns (before: seq<T>, after: seq<T>)
    ensures Splits(le, s, x, Insert(le, s, x), before, after)
  {
    if s == [] || le(s[|s| - 1], x) {
      before, after := s, [];
      SplitsLast(le, s, x);
    } else {
      var n := |s| - 1;
      before, after := InsertSplits(le, s[..n], x);
      InsertBefore(le, s, x);
      FrontAndLast(s);
      SplitsPush(le, s[..n], x, Insert(le, s[..n], x), before, after, s[n]);
      after := after + [s[n]];
    }
  }

  lemma FilterAround<T(!new)>(p: T -> bool, a: seq<T>, x: T, b: seq<T>)
    requires p(x)
    ensures Filter(p, a + [x] + b) == Filter(p, a) + [x] + Filter(p, b)
  {
    FilterConcat(p, a + [x], b);
    FilterPush(p, a, x);
  }

  lemma LastIsPicked(le: Order<string>, fa: seq<Claim<string>>, x: Claim<string>, fb: seq<Claim<string>>)
    requires TotalPreorder(le)
    requires forall d :: d in fa ==> le(x.item, d.item)
    requires forall d :: d in fb ==> !le(d.item, x.item)
    ensures LastSmallest(ByItem(le, Itself()), fa + [x] + fb) == x
  {
    var item, f := ByItem(le, Itself()), fa + [x] + fb;
    OrdersArePreorders(le);
    var i := LastSmallestAt(item, f);
    assert f[|fa|] == x && item(f[i], x);
    forall k | 0 <= k < |fa| ensures item(x, f[k]) {
      assert f[k] in fa;
    }
    forall k | |fa| < k < |f| ensures !item(f[k], x) {
      assert f[k] == fb[k - |fa| - 1];
    }
  }

  /** Arriving last is enough for a witness at the top of the least. */
  lemma LastTopPicked(le: Order<string>, u: seq<Claim<string>>, x: Claim<string>)
    requires TotalPreorder(le) && LinksTransitive(u + [x]) && TopLeast(le, u + [x], x)
    ensures x in Picked(le, u + [x])
  {
    var v, key := u + [x], ByKey(le, Itself());
    assert v[..|u|] == u;
    var before, after := InsertSplits(key, Sort(key, u), x);
    FilterAround(Near(x), before, x, after);
    var fa, fb := Filter(Near(x), before), Filter(Near(x), after);
    assert Around(le, v, x) == fa + [x] + fb;
    AroundSorted(le, v, x);
    FilterMembers(Near(x), after);
    forall d | d in fa ensures le(x.item, d.item) {
      assert d in Around(le, v, x);
    }
    forall d | d in fb ensures !le(d.item, x.item) {
      assert d in Around(le, v, x) && !key(d, x);
    }
    LastIsPicked(le, fa, x, fb);
    PickedAround(le, v, x);
  }

  lemma PickedIffTop(le: Order<string>, v: seq<Claim<string>>, c: Claim<string>)
    requires TotalPreorder(le) && LinksTransitive(v) && NoTopTies(le, v)
    ensures c in Picked(le, v) <==> TopLeast(le, v, c)
  {
    if c in Picked(le, v) {
      PickedIsTop(le, v, c);
    }
    if TopLeast(le, v, c) {
      PickedAround(le, v, c);
      var p := LastSmallest(ByItem(le, Itself()), Around(le, v, c));
      PickedIsTop(le, v, p);
      OrdersArePreorders(le);
      var i := LastSmallestAt(ByItem(le, Itself()), Around(le, v, c));
      AroundSorted(le, v, c);
      assert p in Around(le, v, c);
    }
  }

  lemma TopAlike(le: Order<string>, v: seq<Claim<string>>, w: seq<Claim<string>>)
    requires forall x :: x in v <==> x in w
    ensures forall c :: TopLeast(le, v, c) <==> TopLeast(le, w, c)
  {
  }

  lemma NoTiesNoOrder(le: Order<string>, v: seq<Claim<string>>, w: seq<Claim<string>>)
    requires TotalPreorder(le) && LinksTransitive(v) && NoTopTies(le, v) && multiset(v) == multiset(w)
    ensures multiset(Picked(le, v)) == multiset(Picked(le, w))
  {
    SameElements(v, w);
    TransitiveAlike(v, w);
    TopAlike(le, v, w);
    forall c ensures c in Picked(le, v) <==> c in Picked(le, w) {
      PickedIffTop(le, v, c);
      PickedIffTop(le, w, c);
    }
    WitnessesIndependent(le, Itself(), v);
    WitnessesIndependent(le, Itself(), w);
    DistinctSame(Picked(le, v), Picked(le, w));
  }

  /** The same observations with one moved to the end. */
  function MovedToEnd(a: seq<Observation>, i: nat): seq<Observation>
    requires i < |a|
  {
    a[..i] + a[i + 1..] + [a[i]]
  }

  lemma MovedIsPermuted(a: seq<Observation>, i: nat)
    requires i < |a|
    ensures multiset(MovedToEnd(a, i)) == multiset(a)
    ensures Triples(MovedToEnd(a, i)) == Triples(a[..i] + a[i + 1..]) + [TripleOf(a[i])]
  {
    RemoveAt(a, i);
  }

  lemma TopIsChosenLast(le: Order<string>, a: seq<Observation>, i: nat)
    requires TotalPreorder(le) && LinksTransitive(Triples(a)) && i < |a| && TopLeast(le, Triples(a), TripleOf(a[i]))
    ensures multiset(MovedToEnd(a, i)) == multiset(a) && TripleOf(a[i]) in ChosenTriples(le, MovedToEnd(a, i))
  {
    var b := MovedToEnd(a, i);
    MovedIsPermuted(a, i);
    TriplesPermuted(a, b);
    SameElements(Triples(a), Triples(b));
    TransitiveAlike(Triples(a), Triples(b));
    TopAlike(le, Triples(a), Triples(b));
    ChosenArePicked(le, b);
    LastTopPicked(le, Triples(a[..i] + a[i + 1..]), TripleOf(a[i]));
  }

  /** The same witnesses are chosen whatever the order of arrival. */
  ghost predicate OrderInvisible(le: Order<string>, a: seq<Observation>) {
    forall b :: multiset(b) == multiset(a) ==> multiset(ChosenTriples(le, b)) == multiset(ChosenTriples(le, a))
  }

  lemma TopTiesExpose(le: Order<string>, a: seq<Observation>, x: Claim<string>, y: Claim<string>)
    requires TotalPreorder(le) && LinksTransitive(Triples(a))
    requires TopLeast(le, Triples(a), x) && TopLeast(le, Triples(a), y) && Linked(x, y) && x != y
    ensures !OrderInvisible(le, a)
  {
    var i :| 0 <= i < |a| && Triples(a)[i] == x;
    var j :| 0 <= j < |a| && Triples(a)[j] == y;
    TopIsChosenLast(le, a, i);
    TopIsChosenLast(le, a, j);
    var b, c := MovedToEnd(a, i), MovedToEnd(a, j);
    if OrderInvisible(le, a) {
      SameElements(ChosenTriples(le, b), ChosenTriples(le, c));
      ChosenArePicked(le, b);
      WitnessesIndependent(le, Itself(), Triples(b));
      BothPicked(ChosenTriples(le, b), x, y);
    }
  }

  lemma BothPicked(w: seq<Claim<string>>, x: Claim<string>, y: Claim<string>)
    requires Unlinked(w) && x in w && y in w && x != y
    ensures !Linked(x, y)
  {
    var i :| 0 <= i < |w| && w[i] == x;
    var j :| 0 <= j < |w| && w[j] == y;
    assert i < j ==> !Linked(w[i], w[j]);
    assert j < i ==> !Linked(w[j], w[i]);
  }

  // Among witnesses whose links are transitive, the chosen ones are independent of arrival order exactly when no two
  // different linked witnesses are both least by id and, among the least, greatest by key.
  lemma OrderInvisibleIffNoTopTies(le: Order<string>, a: seq<Observation>)
    requires TotalPreorder(le) && LinksTransitive(Triples(a))
    ensures OrderInvisible(le, a) <==> NoTopTies(le, Triples(a))
  {
    if NoTopTies(le, Triples(a)) {
      forall b | multiset(b) == multiset(a) ensures multiset(ChosenTriples(le, b)) == multiset(ChosenTriples(le, a)) {
        TriplesPermuted(a, b);
        ChosenArePicked(le, a);
        ChosenArePicked(le, b);
        NoTiesNoOrder(le, Triples(a), Triples(b));
      }
    } else {
      var x, y :| TopLeast(le, Triples(a), x) && TopLeast(le, Triples(a), y) && Linked(x, y) && x != y;
      TopTiesExpose(le, a, x, y);
    }
  }
}
