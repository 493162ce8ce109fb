/** What of a quorum decision depends on the order observations arrive in. */
module QuorumOrder {
  import opened Collections
  import opened Sorting
  import opened Connectivity
  import opened Independence
  import opened Quorum
  import opened QuorumMeaning

  // ---- permuted observations, and claims seen as domain, provider and endpoint id

  lemma {:induction false} FilterCount<T(!new)>(p: T -> bool, s: seq<T>, x: T)
    ensures multiset(Filter(p, s))[x] == if p(x) then multiset(s)[x] else 0
  {
    if s != [] {
      var n := |s| - 1;
      assert s == s[..n] + [s[n]];
      FilterCount(p, s[..n], x);
    }
  }

  lemma FilterPermuted<T(!new)>(p: T -> bool, a: seq<T>, b: seq<T>)
    requires multiset(a) == multiset(b)
    ensures multiset(Filter(p, a)) == multiset(Filter(p, b))
  {
    forall x ensures multiset(Filter(p, a))[x] == multiset(Filter(p, b))[x] {
      FilterCount(p, a, x);
      FilterCount(p, b, x);
    }
  }

  /** The same claims over another view of their items. */
  function Seen<T, R>(f: T -> R): Claim<T> -> Claim<R> {
    (c: Claim<T>) => Claim(c.trustDomain, c.providerGroup, f(c.item))
  }

  function View<T, R>(f: T -> R, s: seq<Claim<T>>): seq<Claim<R>> {
    Map(Seen(f), s)
  }

  function ViewComponent<T, R>(f: T -> R, c: Component<T>): Component<R> {
    Component(c.domains, c.providers, View(f, c.items))
  }

  function ViewComponents<T, R>(f: T -> R, cs: seq<Component<T>>): seq<Component<R>> {
    Map((c: Component<T>) => ViewComponent(f, c), cs)
  }

  function ViewGroups<T, R>(f: T -> R, gs: seq<seq<Claim<T>>>): seq<seq<Claim<R>>> {
    Map((g: seq<Claim<T>>) => View(f, g), gs)
  }

  lemma {:induction false} ViewFilter<T(!new), R(!new)>(f: T -> R, p: Component<T> -> bool, q: Component<R> -> bool, cs: seq<Component<T>>)
    requires forall c :: p(c) == q(ViewComponent(f, c))
    ensures ViewComponents(f, Filter(p, cs)) == Filter(q, ViewComponents(f, cs))
  {
    if cs != [] {
      var n := |cs| - 1;
      ViewFilter(f, p, q, cs[..n]);
      assert ViewComponents(f, cs)[..n] == ViewComponents(f, cs[..n]);
    }
  }

  lemma {:induction false} ViewMerge<T(!new), R(!new)>(f: T -> R, x: Claim<T>, joined: seq<Component<T>>)
    ensures ViewComponent(f, Merge(x, joined)) == Merge(View(f, [x])[0], ViewComponents(f, joined))
  {
    if joined != [] {
      var n := |joined| - 1;
      ViewMerge(f, x, joined[..n]);
      assert ViewComponents(f, joined)[..n] == ViewComponents(f, joined[..n]);
      var front, last := Merge(x, joined[..n]), joined[n];
      assert View(f, front.items + last.items) == View(f, front.items) + View(f, last.items);
    }
  }

  lemma ViewAddItem<T(!new), R(!new)>(f: T -> R, cs: seq<Component<T>>, x: Claim<T>)
    ensures ViewComponents(f, AddItem(cs, x)) == AddItem(ViewComponents(f, cs), Seen(f)(x))
  {
    var y := Seen(f)(x);
    assert View(f, [x])[0] == y;
    ViewFilter(f, Untouching(x), Untouching(y), cs);
    ViewFilter(f, Touching(x), Touching(y), cs);
    ViewMerge(f, x, Filter(Touching(x), cs));
  }

  /** Grouping looks at domains and providers only. */
  lemma {:induction false} ViewOfComponents<T(!new), R(!new)>(f: T -> R, items: seq<Claim<T>>)
    ensures ViewComponents(f, Components(items)) == Components(View(f, items))
  {
    if items != [] {
      var n := |items| - 1;
      ViewOfComponents(f, items[..n]);
      ViewAddItem(f, Components(items[..n]), items[n]);
      assert View(f, items)[..n] == View(f, items[..n]) && View(f, items)[n] == Seen(f)(items[n]);
    }
  }

  lemma ViewOfGroups<T(!new), R(!new)>(f: T -> R, items: seq<Claim<T>>)
    ensures ViewGroups(f, Groups(items)) == Groups(View(f, items))
  {
    ViewOfComponents(f, items);
    var a, b := ViewGroups(f, Groups(items)), Groups(View(f, items));
    forall i | 0 <= i < |a| ensures a[i] == b[i] {
      assert Components(View(f, items))[i] == ViewComponent(f, Components(items)[i]);
    }
  }

  /** Both comparators factor through the view. */
  lemma OrdersFactor<T(!new), R(!new)>(le: Order<string>, f: T -> R, id: T -> string, id': R -> string)
    requires forall t :: id(t) == id'(f(t))
    ensures forall a, b :: ByItem(le, id)(a, b) == ByItem(le, id')(Seen(f)(a), Seen(f)(b))
    ensures forall a, b :: ByKey(le, id)(a, b) == ByKey(le, id')(Seen(f)(a), Seen(f)(b))
  {
    forall a: Claim<T> ensures WitnessKey(id, a) == WitnessKey(id', Seen(f)(a)) {
    }
  }

  lemma ViewOfSorted<T(!new), R(!new)>(le: Order<string>, f: T -> R, id: T -> string, id': R -> string, s: seq<Claim<T>>)
    requires forall t :: id(t) == id'(f(t))
    ensures View(f, Sort(ByItem(le, id), s)) == Sort(ByItem(le, id'), View(f, s))
    ensures View(f, Sort(ByKey(le, id), s)) == Sort(ByKey(le, id'), View(f, s))
  {
    OrdersFactor(le, f, id, id');
    SortMap(ByItem(le, id), ByItem(le, id'), Seen(f), s);
    SortMap(ByKey(le, id), ByKey(le, id'), Seen(f), s);
  }

  lemma ViewOfOneLowest<T(!new), R(!new)>(le: Order<string>, f: T -> R, id: T -> string, id': R -> string, g: seq<Claim<T>>)
    requires forall t :: id(t) == id'(f(t))
    ensures View(f, Lowest(le, id, g)) == Lowest(le, id', View(f, g))
  {
    ViewOfSorted(le, f, id, id', g);
    var sorted := Sort(ByItem(le, id), g);
    assert sorted != [] ==> View(f, sorted)[0] == Seen(f)(sorted[0]);
  }

  lemma ViewConcat<T, R>(f: T -> R, a: seq<Claim<T>>, b: seq<Claim<T>>)
    ensures View(f, a + b) == View(f, a) + View(f, b)
  {
  }

  lemma ViewGroupsLast<T, R>(f: T -> R, gs: seq<seq<Claim<T>>>)
    requires gs != []
    ensures var n := |gs| - 1; ViewGroups(f, gs) == ViewGroups(f, gs[..n]) + [View(f, gs[n])]
  {
  }

  lemma LowestPush<T(!new)>(le: Order<string>, id: T -> string, front: seq<seq<Claim<T>>>, g: seq<Claim<T>>)
    ensures LowestOfEach(le, id, front + [g]) == LowestOfEach(le, id, front) + Lowest(le, id, g)
  {
    assert (front + [g])[..|front|] == front;
  }

  lemma {:induction false} ViewOfLowest<T(!new), R(!new)>(le: Order<string>, f: T -> R, id: T -> string, id': R -> string, gs: seq<seq<Claim<T>>>)
    requires forall t :: id(t) == id'(f(t))
    ensures View(f, LowestOfEach(le, id, gs)) == LowestOfEach(le, id', ViewGroups(f, gs))
  {
    if gs != [] {
      var n := |gs| - 1;
      ViewOfLowest(le, f, id, id', gs[..n]);
      ViewOfOneLowest(le, f, id, id', gs[n]);
      ViewGroupsLast(f, gs);
      ViewConcat(f, LowestOfEach(le, id, gs[..n]), Lowest(le, id, gs[n]));
      LowestPush(le, id', ViewGroups(f, gs[..n]), View(f, gs[n]));
    }
  }

  /** The representatives depend on the witnesses only through domain, provider and endpoint id. */
  lemma ViewOfWitnesses<T(!new), R(!new)>(le: Order<string>, f: T -> R, id: T -> string, id': R -> string, claims: seq<Claim<T>>)
    requires forall t :: id(t) == id'(f(t))
    ensures View(f, IndependentWitnesses(le, id, claims)) == IndependentWitnesses(le, id', View(f, claims))
  {
    ViewOfSorted(le, f, id, id', claims);
    var sorted := Sort(ByKey(le, id), claims);
    ViewOfGroups(f, sorted);
    ViewOfLowest(le, f, id, id', Groups(sorted));
    ViewOfSorted(le, f, id, id', LowestOfEach(le, id, Groups(sorted)));
  }

  // ---- outcome, height, hash and count: for every order, under every comparator

  lemma HeadsIgnoreOrder(a: seq<Observation>, b: seq<Observation>)
    requires multiset(a) == multiset(b)
    ensures LeadingHead(a) == LeadingHead(b)
    ensures a != [] ==> b != [] && LowestHead(a) == LowestHead(b)
  {
    SameElements(a, b);
    LeadingHeadIsLeading(a);
    LeadingHeadIsLeading(b);
    if a != [] {
      LowestHeadIsLowest(a);
      LowestHeadIsLowest(b);
    }
  }

  lemma InLagPermuted(a: seq<Observation>, b: seq<Observation>, expected: Expected, policy: Policy, nowMs: int)
    requires multiset(a) == multiset(b)
    ensures multiset(InLagWitnesses(a, expected, policy, nowMs)) == multiset(InLagWitnesses(b, expected, policy, nowMs))
  {
    var admits := Admits(expected, policy, nowMs);
    FilterPermuted(admits, a, b);
    HeadsIgnoreOrder(Filter(admits, a), Filter(admits, b));
    FilterPermuted(InLag(LeadingHead(Filter(admits, a)), policy), Filter(admits, a), Filter(admits, b));
  }

  /** The decision but for who was chosen. */
  predicate SameAnswer(d: Decision, e: Decision) {
    d.outcome == e.outcome && d.height == e.height && d.blockHash == e.blockHash && |d.endpointIds| == |e.endpointIds|
  }

  lemma CountPermuted(le: Order<string>, a: seq<Observation>, b: seq<Observation>)
    requires multiset(a) == multiset(b)
    ensures |Chosen(le, a)| == |Chosen(le, b)|
  {
    var x, y := Map(AsClaim, a), Map(AsClaim, b);
    WitnessesIndependent(le, IdOf(), x);
    WitnessesIndependent(le, IdOf(), y);
    MapMultiset(AsClaim, a, b);
    SameElements(x, y);
    CountIgnoresOrder(x, y);
  }

  predicate Dissent(s: seq<Observation>)
    requires s != []
  {
    exists o :: o in s && HashOf(o) != HashOf(s[0])
  }

  lemma DissentPermuted(a: seq<Observation>, b: seq<Observation>)
    requires a != [] && b != [] && forall o :: o in a <==> o in b
    ensures Dissent(a) <==> Dissent(b)
    ensures !Dissent(a) ==> HashOf(a[0]) == HashOf(b[0])
  {
    assert a[0] in b && b[0] in a;
  }

  lemma CountAnswer(le: Order<string>, policy: Policy, height: int, hash: string, a: seq<Observation>, b: seq<Observation>)
    requires |Chosen(le, a)| == |Chosen(le, b)|
    ensures SameAnswer(DecideCount(le, policy, height, hash, a), DecideCount(le, policy, height, hash, b))
  {
  }

  lemma HashPermuted(le: Order<string>, policy: Policy, height: int, a: seq<Observation>, b: seq<Observation>)
    requires multiset(a) == multiset(b)
    ensures SameAnswer(DecideHash(le, policy, height, a), DecideHash(le, policy, height, b))
  {
    SameElements(a, b);
    if a != [] {
      DissentPermuted(a, b);
      if !Dissent(a) {
        CountPermuted(le, a, b);
        CountAnswer(le, policy, height, HashOf(a[0]), a, b);
      }
    }
  }

  /** Outcome, height, hash and number of witnesses are the same for every order of observations and every comparator. */
  lemma AnswerIgnoresOrder(le: Order<string>, a: seq<Observation>, b: seq<Observation>, expected: Expected, policy: Policy, nowMs: int)
    requires multiset(a) == multiset(b)
    ensures SameAnswer(Decide(le, a, expected, policy, nowMs), Decide(le, b, expected, policy, nowMs))
  {
    var x, y := InLagWitnesses(a, expected, policy, nowMs), InLagWitnesses(b, expected, policy, nowMs);
    InLagPermuted(a, b, expected, policy, nowMs);
    SameElements(x, y);
    FilterPermuted(HasHash(), x, y);
    HeadsIgnoreOrder(x, y);
    if x != [] {
      HashPermuted(le, policy, LowestHead(x), Filter(HasHash(), x), Filter(HasHash(), y));
    }
  }

  // ---- the chosen witnesses

  function Itself(): string -> string {
    (s: string) => s
  }

  function Triples(s: seq<Observation>): seq<Claim<string>> {
    View(IdOf(), Map(AsClaim, s))
  }

  /** The chosen witnesses, as domain, provider and endpoint id. */
  function ChosenTriples(le: Order<string>, s: seq<Observation>): seq<Claim<string>> {
    View(IdOf(), Chosen(le, s))
  }

  function Picked(le: Order<string>, v: seq<Claim<string>>): seq<Claim<string>> {
    IndependentWitnesses(le, Itself(), v)
  }

  lemma ChosenArePicked(le: Order<string>, s: seq<Observation>)
    ensures ChosenTriples(le, s) == Picked(le, Triples(s))
  {
    ViewOfWitnesses(le, IdOf(), IdOf(), Itself(), Map(AsClaim, s));
  }

  lemma TriplesPermuted(a: seq<Observation>, b: seq<Observation>)
    requires multiset(a) == multiset(b)
    ensures multiset(Triples(a)) == multiset(Triples(b))
  {
    MapMultiset(AsClaim, a, b);
    MapMultiset(Seen(IdOf()), Map(AsClaim, a), Map(AsClaim, b));
  }

  predicate Tied(le: Order<string>, a: string, b: string) {
    le(a, b) && le(b, a)
  }

  function KeyOf(c: Claim<string>): string {
    WitnessKey(Itself(), c)
  }

  lemma OrdersArePreorders(le: Order<string>)
    requires TotalPreorder(le)
    ensures TotalPreorder(ByKey(le, Itself())) && TotalPreorder(ByItem(le, Itself()))
  {
    var key, item := ByKey(le, Itself()), ByItem(le, Itself());
    forall a, b ensures (key(a, b) || key(b, a)) && (item(a, b) || item(b, a)) {
      assert le(KeyOf(a), KeyOf(b)) || le(KeyOf(b), KeyOf(a));
      assert le(a.item, b.item) || le(b.item, a.item);
    }
    forall a, b, c | key(a, b) && key(b, c) ensures key(a, c) {
      assert le(KeyOf(a), KeyOf(b)) && le(KeyOf(b), KeyOf(c));
    }
    forall a, b, c | item(a, b) && item(b, c) ensures item(a, c) {
      assert le(a.item, b.item) && le(b.item, c.item);
    }
  }

  /** Keys tie only between witnesses with the same domain, provider and endpoint id. */
  ghost predicate KeysApart(le: Order<string>, v: seq<Claim<string>>) {
    forall x, y :: x in v && y in v && Tied(le, KeyOf(x), KeyOf(y)) ==> x == y
  }

  /** Endpoint ids tie only between witnesses with the same domain, provider and endpoint id. */
  ghost predicate IdsApart(le: Order<string>, v: seq<Claim<string>>) {
    forall x, y :: x in v && y in v && Tied(le, x.item, y.item) ==> x == y
  }

  lemma PickedWithKeysApart(le: Order<string>, v: seq<Claim<string>>, w: seq<Claim<string>>)
    requires TotalPreorder(le) && multiset(v) == multiset(w) && KeysApart(le, v)
    ensures Picked(le, v) == Picked(le, w)
  {
    var key := ByKey(le, Itself());
    OrdersArePreorders(le);
    forall x, y | x in v && y in v && key(x, y) && key(y, x) ensures x == y {
      assert Tied(le, KeyOf(x), KeyOf(y));
    }
    SortIgnoresOrder(key, v, w);
  }

  /** Its endpoint id is least in its failure domain. */
  ghost predicate IsLeast(le: Order<string>, v: seq<Claim<string>>, c: Claim<string>) {
    c in v && forall d :: d in v && Connected(Links(), v, c, d) ==> le(c.item, d.item)
  }

  lemma LowestIsLeast(le: Order<string>, g: seq<Claim<string>>)
    requires TotalPreorder(le) && g != []
    ensures |Lowest(le, Itself(), g)| == 1 && Lowest(le, Itself(), g)[0] in g
    ensures forall d :: d in g ==> le(Lowest(le, Itself(), g)[0].item, d.item)
  {
    var item := ByItem(le, Itself());
    var sorted := Sort(item, g);
    OrdersArePreorders(le);
    SortSorts(item, g);
    SameElements(sorted, g);
    assert item(sorted[0], sorted[0]);
    forall d | d in g ensures le(sorted[0].item, d.item) {
      var i :| 0 <= i < |sorted| && sorted[i] == d;
      assert item(sorted[0], sorted[i]);
    }
  }

  lemma OneLowest(le: Order<string>, g: seq<Claim<string>>)
    requires g != []
    ensures |Lowest(le, Itself(), g)| == 1 && Lowest(le, Itself(), g)[0] in g
  {
    var sorted := Sort(ByItem(le, Itself()), g);
    SameElements(sorted, g);
    assert sorted[0] in sorted;
  }

  predicate IsLowestOfSome(le: Order<string>, gs: seq<seq<Claim<string>>>, c: Claim<string>) {
    exists i :: 0 <= i < |gs| && Lowest(le, Itself(), gs[i]) == [c]
  }

  function LowestIn(le: Order<string>): seq<Claim<string>> -> seq<Claim<string>> {
    (g: seq<Claim<string>>) => Lowest(le, Itself(), g)
  }

  lemma {:induction false} LowestFlat(le: Order<string>, gs: seq<seq<Claim<string>>>)
    ensures LowestOfEach(le, Itself(), gs) == Flatten(Map(LowestIn(le), gs))
  {
    if gs != [] {
      var n := |gs| - 1;
      LowestFlat(le, gs[..n]);
      assert Map(LowestIn(le), gs)[..n] == Map(LowestIn(le), gs[..n]);
    }
  }

  lemma LowestIsAlone(le: Order<string>, g: seq<Claim<string>>, c: Claim<string>)
    ensures c in Lowest(le, Itself(), g) <==> Lowest(le, Itself(), g) == [c]
  {
  }

  lemma InLowestOfEach(le: Order<string>, gs: seq<seq<Claim<string>>>, c: Claim<string>)
    ensures c in LowestOfEach(le, Itself(), gs) <==> IsLowestOfSome(le, gs, c)
  {
    LowestFlat(le, gs);
    FlattenMembers(Map(LowestIn(le), gs));
    forall i | 0 <= i < |gs| ensures c in Map(LowestIn(le), gs)[i] <==> Lowest(le, Itself(), gs[i]) == [c] {
      LowestIsAlone(le, gs[i], c);
    }
  }

  lemma ConnectedAlike(v: seq<Claim<string>>, w: seq<Claim<string>>, a: Claim<string>, b: Claim<string>)
    requires forall x :: x in v <==> x in w
    ensures Connected(Links(), v, a, b) <==> Connected(Links(), w, a, b)
  {
    if Connected(Links(), v, a, b) {
      Monotone(Links(), v, Links(), w, a, b);
    }
    if Connected(Links(), w, a, b) {
      Monotone(Links(), w, Links(), v, a, b);
    }
  }

  lemma LeastAlike(le: Order<string>, v: seq<Claim<string>>, w: seq<Claim<string>>, c: Claim<string>)
    requires forall x :: x in v <==> x in w
    ensures IsLeast(le, v, c) <==> IsLeast(le, w, c)
  {
    forall d ensures Connected(Links(), v, c, d) <==> Connected(Links(), w, c, d) {
      ConnectedAlike(v, w, c, d);
    }
  }

  /** The groups the representatives are taken from. */
  function SortedGroups(le: Order<string>, v: seq<Claim<string>>): seq<seq<Claim<string>>> {
    Groups(Sort(ByKey(le, Itself()), v))
  }

  lemma PicksOfGroups(le: Order<string>, v: seq<Claim<string>>, c: Claim<string>)
    ensures c in Picked(le, v) <==> IsLowestOfSome(le, SortedGroups(le, v), c)
  {
    InLowestOfEach(le, SortedGroups(le, v), c);
    SameElements(Picked(le, v), LowestOfEach(le, Itself(), SortedGroups(le, v)));
  }

  lemma SortedGroupsAreComponents(le: Order<string>, v: seq<Claim<string>>)
    ensures IsComponents(Links(), Sort(ByKey(le, Itself()), v), SortedGroups(le, v))
    ensures forall x :: x in Sort(ByKey(le, Itself()), v) <==> x in v
  {
    GroupsAreComponents(Sort(ByKey(le, Itself()), v));
    SameElements(Sort(ByKey(le, Itself()), v), v);
  }

  /** Every witness picked is least in its failure domain. */
  lemma PickedAreLeast(le: Order<string>, v: seq<Claim<string>>, c: Claim<string>)
    requires TotalPreorder(le) && c in Picked(le, v)
    ensures IsLeast(le, v, c)
  {
    var s, gs := Sort(ByKey(le, Itself()), v), SortedGroups(le, v);
    SortedGroupsAreComponents(le, v);
    PicksOfGroups(le, v, c);
    var i :| 0 <= i < |gs| && Lowest(le, Itself(), gs[i]) == [c];
    PickInGroup(le, s, gs, i);
    LeastAlike(le, v, s, c);
  }

  lemma LowestOfComponent(le: Order<string>, s: seq<Claim<string>>, gs: seq<seq<Claim<string>>>, c: Claim<string>) returns (p: Claim<string>)
    requires IsComponents(Links(), s, gs) && c in s
    ensures IsLowestOfSome(le, gs, p) && Connected(Links(), s, c, p)
  {
    var i := GroupHolding(s, gs, c);
    OneLowest(le, gs[i]);
    p := Lowest(le, Itself(), gs[i])[0];
    assert Lowest(le, Itself(), gs[i]) == [p] && p in gs[i];
  }

  /** Every failure domain has a witness picked. */
  lemma EveryDomainPicked(le: Order<string>, v: seq<Claim<string>>, c: Claim<string>) returns (p: Claim<string>)
    requires c in v
    ensures p in Picked(le, v) && Connected(Links(), v, c, p)
  {
    var s := Sort(ByKey(le, Itself()), v);
    SortedGroupsAreComponents(le, v);
    p := LowestOfComponent(le, s, SortedGroups(le, v), c);
    PicksOfGroups(le, v, p);
    ConnectedAlike(v, s, c, p);
  }

  lemma GroupHolding(s: seq<Claim<string>>, gs: seq<seq<Claim<string>>>, c: Claim<string>) returns (i: nat)
    requires IsComponents(Links(), s, gs) && c in s
    ensures i < |gs| && c in gs[i]
  {
    FlattenMembers(gs);
    SameElements(Flatten(gs), s);
    assert c in Flatten(gs);
    i :| 0 <= i < |gs| && c in gs[i];
  }

  lemma PickInGroup(le: Order<string>, s: seq<Claim<string>>, gs: seq<seq<Claim<string>>>, i: nat)
    requires TotalPreorder(le) && IsComponents(Links(), s, gs) && i < |gs|
    ensures |Lowest(le, Itself(), gs[i])| == 1 && IsLeast(le, s, Lowest(le, Itself(), gs[i])[0])
  {
    LowestIsLeast(le, gs[i]);
    var c := Lowest(le, Itself(), gs[i])[0];
    FlattenMembers(gs);
    SameElements(Flatten(gs), s);
    assert c in Flatten(gs);
    forall d | d in s && Connected(Links(), s, c, d) ensures le(c.item, d.item) {
      var j := GroupHolding(s, gs, d);
      assert i == j;
    }
  }

  /** With ids apart the witnesses picked are exactly the least ones. */
  lemma PickedIffLeast(le: Order<string>, v: seq<Claim<string>>, c: Claim<string>)
    requires TotalPreorder(le) && IdsApart(le, v)
    ensures c in Picked(le, v) <==> IsLeast(le, v, c)
  {
    if c in Picked(le, v) {
      PickedAreLeast(le, v, c);
    }
    if IsLeast(le, v, c) {
      var p := EveryDomainPicked(le, v, c);
      PickedAreLeast(le, v, p);
      Reversible(Links(), v, c, p);
      assert le(c.item, p.item) && le(p.item, c.item);
      assert Tied(le, c.item, p.item);
    }
  }

  lemma PickedWithIdsApart(le: Order<string>, v: seq<Claim<string>>, w: seq<Claim<string>>)
    requires TotalPreorder(le) && multiset(v) == multiset(w) && IdsApart(le, v)
    ensures Picked(le, v) == Picked(le, w)
  {
    SameElements(v, w);
    var x, y := Picked(le, v), Picked(le, w);
    forall c ensures c in x <==> c in y {
      PickedIffLeast(le, v, c);
      PickedIffLeast(le, w, c);
      LeastAlike(le, v, w, c);
    }
    WitnessesIndependent(le, Itself(), v);
    WitnessesIndependent(le, Itself(), w);
    DistinctSame(x, y);
    SortedPicks(le, v);
    SortedPicks(le, w);
    var item := ByItem(le, Itself());
    forall c, d | c in x && d in x && item(c, d) && item(d, c) ensures c == d {
      assert Tied(le, c.item, d.item);
    }
    OrdersArePreorders(le);
    SortedUnique(item, x, y);
  }

  lemma SortedPicks(le: Order<string>, v: seq<Claim<string>>)
    requires TotalPreorder(le)
    ensures SortedBy(ByItem(le, Itself()), Picked(le, v))
  {
    OrdersArePreorders(le);
    SortSorts(ByItem(le, Itself()), LowestOfEach(le, Itself(), Groups(Sort(ByKey(le, Itself()), v))));
  }

  /** The chosen witnesses do not depend on arrival order when endpoint ids, or keys, tie only between equal witnesses. */
  lemma ChosenIgnoresOrder(le: Order<string>, a: seq<Observation>, b: seq<Observation>)
    requires TotalPreorder(le) && multiset(a) == multiset(b) && (IdsApart(le, Triples(a)) || KeysApart(le, Triples(a)))
    ensures ChosenTriples(le, a) == ChosenTriples(le, b)
  {
    TriplesPermuted(a, b);
    ChosenArePicked(le, a);
    ChosenArePicked(le, b);
    if IdsApart(le, Triples(a)) {
      PickedWithIdsApart(le, Triples(a), Triples(b));
    } else {
      PickedWithKeysApart(le, Triples(a), Triples(b));
    }
  }

  // ---- the whole decision

  lemma ApartInside(le: Order<string>, a: seq<Observation>, b: seq<Observation>)
    requires forall o :: o in b ==> o in a
    ensures IdsApart(le, Triples(a)) ==> IdsApart(le, Triples(b))
    ensures KeysApart(le, Triples(a)) ==> KeysApart(le, Triples(b))
  {
    forall x | x in Triples(b) ensures x in Triples(a) {
      var i :| 0 <= i < |b| && Triples(b)[i] == x;
      assert b[i] in a;
      var j :| 0 <= j < |a| && a[j] == b[i];
      assert Triples(a)[j] == x;
    }
  }

  lemma ListsOfView(s: seq<Claim<Observation>>)
    ensures Domains(s) == Domains(View(IdOf(), s)) && Providers(s) == Providers(View(IdOf(), s))
    ensures Ids(IdOf(), s) == Ids(Itself(), View(IdOf(), s))
  {
  }

  lemma SameTriplesSameCount(le: Order<string>, policy: Policy, height: int, hash: string, a: seq<Observation>, b: seq<Observation>)
    requires ChosenTriples(le, a) == ChosenTriples(le, b)
    ensures DecideCount(le, policy, height, hash, a) == DecideCount(le, policy, height, hash, b)
  {
    ListsOfView(Chosen(le, a));
    ListsOfView(Chosen(le, b));
    assert |ChosenTriples(le, a)| == |Chosen(le, a)| && |ChosenTriples(le, b)| == |Chosen(le, b)|;
  }

  lemma HashDecisionPermuted(le: Order<string>, policy: Policy, height: int, a: seq<Observation>, b: seq<Observation>)
    requires TotalPreorder(le) && multiset(a) == multiset(b) && (IdsApart(le, Triples(a)) || KeysApart(le, Triples(a)))
    ensures DecideHash(le, policy, height, a) == DecideHash(le, policy, height, b)
  {
    SameElements(a, b);
    if a != [] {
      DissentPermuted(a, b);
      if !Dissent(a) {
        ChosenIgnoresOrder(le, a, b);
        SameTriplesSameCount(le, policy, height, HashOf(a[0]), a, b);
      }
    }
  }

  /** The whole decision, witnesses included, under the same condition on the observations given. */
  lemma DecisionIgnoresOrder(le: Order<string>, a: seq<Observation>, b: seq<Observation>, expected: Expected, policy: Policy, nowMs: int)
    requires TotalPreorder(le) && multiset(a) == multiset(b) && (IdsApart(le, Triples(a)) || KeysApart(le, Triples(a)))
    ensures Decide(le, a, expected, policy, nowMs) == Decide(le, b, expected, policy, nowMs)
  {
    var x, y := InLagWitnesses(a, expected, policy, nowMs), InLagWitnesses(b, expected, policy, nowMs);
    InLagPermuted(a, b, expected, policy, nowMs);
    SameElements(x, y);
    FilterPermuted(HasHash(), x, y);
    HeadsIgnoreOrder(x, y);
    var p := Filter(HasHash(), x);
    FilterMembers(HasHash(), x);
    forall o | o in p ensures o in a {
      CountedWitnesses(a, expected, policy, nowMs, o);
    }
    ApartInside(le, a, p);
    if x != [] {
      HashDecisionPermuted(le, policy, LowestHead(x), p, Filter(HasHash(), y));
    }
  }
}
