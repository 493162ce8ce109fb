/** The component-merging loops: over witnesses, over votes, and over witnesses with corrected domains. */
module FailureDomains {
  import opened Collections
  import opened Sorting
  import opened Connectivity
  import opened Independence

  // ---- the loop over witnesses

  /** `list.splice(list.indexOf(c), 1)` */
  function Splice<T(==)>(s: seq<T>, c: T): seq<T> {
    if s == [] then [] else if s[0] == c then s[1..] else [s[0]] + Splice(s[1..], c)
  }

  function Except<T(==)>(removed: seq<T>): T -> bool {
    c => c !in removed
  }

  lemma {:induction false} SpliceAll<T(!new)>(s: seq<T>, removed: seq<T>, c: T)
    requires Distinct(s) && c !in removed
    ensures Splice(Filter(Except(removed), s), c) == Filter(Except(removed + [c]), s)
  {
    if s != [] {
      var h, t := s[0], s[1..];
      assert s == [h] + t;
      FilterConcat(Except(removed), [h], t);
      FilterConcat(Except(removed + [c]), [h], t);
      SpliceAll(t, removed, c);
      if h == c {
        FilterAgree(Except(removed), Except(removed + [c]), t);
        assert Filter(Except(removed), [h]) == [h] && Filter(Except(removed + [c]), [h]) == [];
      } else if h in removed {
        assert Filter(Except(removed), [h]) == [] && Filter(Except(removed + [c]), [h]) == [];
        assert Filter(Except(removed), s) == Filter(Except(removed), t) && Filter(Except(removed + [c]), s) == Filter(Except(removed + [c]), t);
      } else {
        assert Filter(Except(removed), [h]) == [h] && Filter(Except(removed + [c]), [h]) == [h];
      }
    }
  }

  lemma ComponentsDistinct<T(!new)>(items: seq<Claim<T>>)
    ensures Distinct(Components(items))
  {
    ComponentsMerged(items);
    var cs := Components(items);
    forall i, j | 0 <= i < j < |cs| ensures cs[i] != cs[j] {
      assert Apart(cs[i], cs[j]) && Describes(cs[i]);
      DescribesItem(cs[i], cs[i].items[0]);
    }
  }

  method JoinWitness<T(==,!new)>(components: seq<Component<T>>, x: Claim<T>) returns (out: seq<Component<T>>)
    requires Distinct(components)
    ensures out == AddItem(components, x)
  {
    var joined := Filter(Touching(x), components);
    FilterDistinct(Touching(x), components);
    FilterMembers(Touching(x), components);
    var merged, rest := Single(x), components;
    FilterAll(Except<Component<T>>([]), components);
    for k := 0 to |joined|
      invariant merged == Merge(x, joined[..k])
      invariant rest == Filter(Except(joined[..k]), components)
    {
      PrefixStep(joined, k);
      SpliceAll(components, joined[..k], joined[k]);
      merged := Absorb(merged, joined[k]);
      rest := Splice(rest, joined[k]);
    }
    assert joined[..|joined|] == joined;
    FilterAgree(Except(joined), Untouching(x), components);
    out := rest + [merged];
  }

  method IndependenceGroups<T(==,!new)>(items: seq<Claim<T>>) returns (groups: seq<seq<Claim<T>>>)
    ensures groups == Groups(items)
    ensures IsComponents(Links(), items, groups)
  {
    var components: seq<Component<T>> := [];
    for i := 0 to |items|
      invariant components == Components(items[..i])
    {
      ComponentsDistinct(items[..i]);
      PrefixStep(items, i);
      components := JoinWitness(components, items[i]);
    }
    assert items[..|items|] == items;
    groups := ItemsOf(components);
    GroupsAreComponents(items);
  }

  // ---- the same loop in the offline verifier, which keeps no items

  datatype Domain = Domain(domains: set<string>, groups: set<string>)

  function Strip<T>(c: Component<T>): Domain {
    Domain(c.domains, c.providers)
  }

  function Shared(d: Domain, trustDomain: string, providerGroup: string): bool {
    trustDomain in d.domains || providerGroup in d.groups
  }

  function SharedWith<T>(x: Claim<T>): Domain -> bool {
    d => Shared(d, x.trustDomain, x.providerGroup)
  }

  function NotSharedWith<T>(x: Claim<T>): Domain -> bool {
    d => !Shared(d, x.trustDomain, x.providerGroup)
  }

  function MergeDomains<T>(x: Claim<T>, joined: seq<Domain>): Domain {
    if joined == [] then Domain({x.trustDomain}, {x.providerGroup})
    else
      var d, last := MergeDomains(x, joined[..|joined| - 1]), joined[|joined| - 1];
      Domain(d.domains + last.domains, d.groups + last.groups)
  }

  function StripAll<T>(cs: seq<Component<T>>): seq<Domain> {
    Map((c: Component<T>) => Strip(c), cs)
  }

  lemma {:induction false} StripFilter<T(!new)>(p: Component<T> -> bool, q: Domain -> bool, cs: seq<Component<T>>)
    requires forall c :: p(c) == q(Strip(c))
    ensures StripAll(Filter(p, cs)) == Filter(q, StripAll(cs))
  {
    if cs != [] {
      var n := |cs| - 1;
      StripFilter(p, q, cs[..n]);
      assert StripAll(cs)[..n] == StripAll(cs[..n]);
    }
  }

  lemma {:induction false} StripMerge<T(!new)>(x: Claim<T>, joined: seq<Component<T>>)
    ensures Strip(Merge(x, joined)) == MergeDomains(x, StripAll(joined))
  {
    if joined != [] {
      var n := |joined| - 1;
      StripMerge(x, joined[..n]);
      assert StripAll(joined)[..n] == StripAll(joined[..n]);
    }
  }

  lemma StripAdd<T(!new)>(cs: seq<Component<T>>, x: Claim<T>)
    ensures StripAll(AddItem(cs, x)) == Filter(NotSharedWith(x), StripAll(cs)) + [MergeDomains(x, Filter(SharedWith(x), StripAll(cs)))]
  {
    StripFilter(Untouching(x), NotSharedWith(x), cs);
    StripFilter(Touching(x), SharedWith(x), cs);
    StripMerge(x, Filter(Touching(x), cs));
  }

  lemma StripDistinct<T(!new)>(votes: seq<Claim<T>>)
    ensures Distinct(StripAll(Components(votes)))
  {
    ComponentsMerged(votes);
    var cs := Components(votes);
    forall i, j | 0 <= i < j < |cs| ensures StripAll(cs)[i] != StripAll(cs)[j] {
      assert Apart(cs[i], cs[j]) && Describes(cs[i]);
      DescribesItem(cs[i], cs[i].items[0]);
    }
  }

  method JoinVote<T>(components: seq<Domain>, x: Claim<T>) returns (out: seq<Domain>)
    requires Distinct(components)
    ensures out == Filter(NotSharedWith(x), components) + [MergeDomains(x, Filter(SharedWith(x), components))]
  {
    var joined := Filter(SharedWith(x), components);
    FilterDistinct(SharedWith(x), components);
    FilterMembers(SharedWith(x), components);
    var merged, rest := Domain({x.trustDomain}, {x.providerGroup}), components;
    FilterAll(Except<Domain>([]), components);
    for k := 0 to |joined|
      invariant merged == MergeDomains(x, joined[..k])
      invariant rest == Filter(Except(joined[..k]), components)
    {
      PrefixStep(joined, k);
      SpliceAll(components, joined[..k], joined[k]);
      merged := Domain(merged.domains + joined[k].domains, merged.groups + joined[k].groups);
      rest := Splice(rest, joined[k]);
    }
    assert joined[..|joined|] == joined;
    FilterAgree(Except(joined), NotSharedWith(x), components);
    out := rest + [merged];
  }

  /** The verifier's own count is the number of failure domains the witness side computes. */
  method CountVoteComponents<T(!new)>(votes: seq<Claim<T>>) returns (count: nat)
    ensures count == |Groups(votes)|
  {
    var components: seq<Domain> := [];
    for i := 0 to |votes|
      invariant components == StripAll(Components(votes[..i]))
    {
      StripDistinct(votes[..i]);
      PrefixStep(votes, i);
      StripAdd(Components(votes[..i]), votes[i]);
      components := JoinVote(components, votes[i]);
    }
    assert votes[..|votes|] == votes;
    count := |components|;
  }

  // ---- failure domains once conclusive correlations are applied

  type Pairs = seq<(string, string)>

  predicate IsMerge(merges: Pairs, a: string, b: string) {
    (a, b) in merges || (b, a) in merges
  }

  /** Items are identified by their own id. */
  datatype Witness<T> = Witness(id: string, item: T)

  type WitnessClaim<T> = Claim<Witness<T>>

  predicate UniqueIds<T>(items: seq<WitnessClaim<T>>) {
    forall i, j :: 0 <= i < |items| && 0 <= j < |items| && items[i].item.id == items[j].item.id ==> i == j
  }

  /** The declared relation, enlarged by the pairs that are one endpoint twice. */
  function Enlarged<T>(merges: Pairs): Relation<WitnessClaim<T>> {
    (a: WitnessClaim<T>, b: WitnessClaim<T>) => Linked(a, b) || IsMerge(merges, a.item.id, b.item.id)
  }

  /** Same declared trust domain, or one endpoint twice: what the relabelling has to identify. */
  function SameDomain<T>(merges: Pairs): Relation<WitnessClaim<T>> {
    (a: WitnessClaim<T>, b: WitnessClaim<T>) => a.trustDomain == b.trustDomain || IsMerge(merges, a.item.id, b.item.id)
  }

  type Labels = map<string, string>

  function InitialLabels<T>(items: seq<WitnessClaim<T>>): Labels {
    if items == [] then map[]
    else
      var last := items[|items| - 1];
      InitialLabels(items[..|items| - 1])[last.item.id := last.trustDomain]
  }

  /** Both names fold into one of them, everywhere. */
  function Relabel(labels: Labels, left: string, right: string): Labels {
    if left !in labels || right !in labels then labels
    else
      var a, b := labels[left], labels[right];
      var winner := if StringLess(a, b) then a else b;
      map id | id in labels :: if labels[id] == a || labels[id] == b then winner else labels[id]
  }

  function RelabelAll(labels: Labels, merges: Pairs): Labels {
    if merges == [] then labels
    else
      var last := merges[|merges| - 1];
      Relabel(RelabelAll(labels, merges[..|merges| - 1]), last.0, last.1)
  }

  function Relabelled<T>(labels: Labels, x: WitnessClaim<T>): Claim<WitnessClaim<T>> {
    Claim(if x.item.id in labels then labels[x.item.id] else x.trustDomain, x.providerGroup, x)
  }

  function RelabelItems<T>(labels: Labels, items: seq<WitnessClaim<T>>): seq<Claim<WitnessClaim<T>>> {
    Map((x: WitnessClaim<T>) => Relabelled(labels, x), items)
  }

  function Originals<T>(group: seq<Claim<WitnessClaim<T>>>): seq<WitnessClaim<T>> {
    Map((c: Claim<WitnessClaim<T>>) => c.item, group)
  }

  function CollapsedGroups<T(!new)>(items: seq<WitnessClaim<T>>, merges: Pairs): seq<seq<WitnessClaim<T>>> {
    Map((g: seq<Claim<WitnessClaim<T>>>) => Originals(g), Groups(RelabelItems(RelabelAll(InitialLabels(items), merges), items)))
  }

  method CollapsedIndependenceGroups<T(==,!new)>(items: seq<WitnessClaim<T>>, merges: Pairs) returns (groups: seq<seq<WitnessClaim<T>>>)
    ensures groups == CollapsedGroups(items, merges)
    ensures UniqueIds(items) ==> IsComponents(Enlarged(merges), items, groups)
  {
    var labels: Labels := map[];
    for i := 0 to |items|
      invariant labels == InitialLabels(items[..i])
    {
      PrefixStep(items, i);
      labels := labels[items[i].item.id := items[i].trustDomain];
    }
    assert items[..|items|] == items;
    for k := 0 to |merges|
      invariant labels == RelabelAll(InitialLabels(items), merges[..k])
    {
      PrefixStep(merges, k);
      labels := Relabel(labels, merges[k].0, merges[k].1);
    }
    assert merges[..|merges|] == merges;
    var grouped := IndependenceGroups(RelabelItems(labels, items));
    groups := Map((g: seq<Claim<WitnessClaim<T>>>) => Originals(g), grouped);
    if UniqueIds(items) {
      CollapsedAreComponents(items, merges);
    }
  }

  lemma {:induction false} InitialLabel<T(!new)>(items: seq<WitnessClaim<T>>, x: WitnessClaim<T>)
    requires UniqueIds(items) && x in items
    ensures x.item.id in InitialLabels(items) && InitialLabels(items)[x.item.id] == x.trustDomain
  {
    var n := |items| - 1;
    if items[n] != x {
      var i :| 0 <= i < n && items[i] == x;
      assert items[..n][i] == x;
      InitialLabel(items[..n], x);
      assert x.item.id != items[n].item.id;
    }
  }

  lemma {:induction false} InitialKeys<T(!new)>(items: seq<WitnessClaim<T>>, id: string)
    requires id in InitialLabels(items)
    ensures exists x :: x in items && x.item.id == id
  {
    var n := |items| - 1;
    if items[n].item.id == id {
      assert items[n] in items;
    } else {
      InitialKeys(items[..n], id);
      var x :| x in items[..n] && x.item.id == id;
      assert x in items;
    }
  }

  /** Labels agree exactly on what is connected by shared domains and merges. */
  ghost predicate LabelsFit<T(!new)>(labels: Labels, items: seq<WitnessClaim<T>>, merges: Pairs) {
    && (forall x :: x in items ==> x.item.id in labels)
    && (forall id :: id in labels ==> exists x :: x in items && x.item.id == id)
    && (forall x, y :: x in items && y in items ==>
          (labels[x.item.id] == labels[y.item.id] <==> Connected(SameDomain(merges), items, x, y)))
  }

  lemma InitialFit<T(!new)>(items: seq<WitnessClaim<T>>)
    requires UniqueIds(items)
    ensures LabelsFit(InitialLabels(items), items, [])
  {
    var labels := InitialLabels(items);
    forall x | x in items ensures x.item.id in labels && labels[x.item.id] == x.trustDomain {
      InitialLabel(items, x);
    }
    forall id | id in labels ensures exists x :: x in items && x.item.id == id {
      InitialKeys(items, id);
    }
    forall x, y | x in items && y in items
      ensures labels[x.item.id] == labels[y.item.id] <==> Connected(SameDomain([]), items, x, y)
    {
      if x.trustDomain == y.trustDomain {
        Edge(SameDomain([]), items, x, y);
      }
      if Connected(SameDomain([]), items, x, y) {
        ConnectedKeeps(SameDomain([]), items, x, y, (c: WitnessClaim<T>) => c.trustDomain);
      }
    }
  }

  /** A pair with an unknown name adds no edge between items. */
  lemma AbsentPairIdle<T(!new)>(labels: Labels, items: seq<WitnessClaim<T>>, merges: Pairs, left: string, right: string)
    requires LabelsFit(labels, items, merges) && (left !in labels || right !in labels)
    ensures LabelsFit(labels, items, merges + [(left, right)])
  {
    var more := merges + [(left, right)];
    forall x, y | x in items && y in items
      ensures Connected(SameDomain(merges), items, x, y) <==> Connected(SameDomain(more), items, x, y)
    {
      if Connected(SameDomain(merges), items, x, y) {
        Monotone(SameDomain(merges), items, SameDomain(more), items, x, y);
      }
      if Connected(SameDomain(more), items, x, y) {
        Monotone(SameDomain(more), items, SameDomain(merges), items, x, y);
      }
    }
  }

  lemma NewLabelsJoin<T(!new)>(labels: Labels, items: seq<WitnessClaim<T>>, merges: Pairs, l: WitnessClaim<T>, r: WitnessClaim<T>, x: WitnessClaim<T>)
    requires LabelsFit(labels, items, merges) && l in items && r in items && x in items
    requires labels[x.item.id] == labels[l.item.id] || labels[x.item.id] == labels[r.item.id]
    ensures Connected(SameDomain(merges + [(l.item.id, r.item.id)]), items, x, l)
    ensures Connected(SameDomain(merges + [(l.item.id, r.item.id)]), items, l, x)
  {
    var more := merges + [(l.item.id, r.item.id)];
    assert (l.item.id, r.item.id) in more;
    if labels[x.item.id] == labels[l.item.id] {
      assert Connected(SameDomain(merges), items, x, l) && Connected(SameDomain(merges), items, l, x);
      Monotone(SameDomain(merges), items, SameDomain(more), items, x, l);
      Monotone(SameDomain(merges), items, SameDomain(more), items, l, x);
    } else {
      assert Connected(SameDomain(merges), items, x, r) && Connected(SameDomain(merges), items, r, x);
      Monotone(SameDomain(merges), items, SameDomain(more), items, x, r);
      Monotone(SameDomain(merges), items, SameDomain(more), items, r, x);
      Edge(SameDomain(more), items, r, l);
      Edge(SameDomain(more), items, l, r);
      Transitive(SameDomain(more), items, x, r, l);
      Transitive(SameDomain(more), items, l, r, x);
    }
  }

  lemma EdgeKeepsLabel<T(!new)>(labels: Labels, items: seq<WitnessClaim<T>>, merges: Pairs, left: string, right: string, x: WitnessClaim<T>, y: WitnessClaim<T>)
    requires LabelsFit(labels, items, merges) && left in labels && right in labels
    requires x in items && y in items && SameDomain(merges + [(left, right)])(x, y)
    ensures Relabel(labels, left, right)[x.item.id] == Relabel(labels, left, right)[y.item.id]
  {
    if SameDomain(merges)(x, y) {
      Edge(SameDomain(merges), items, x, y);
    } else {
      assert {x.item.id, y.item.id} == {left, right};
    }
  }

  lemma RelabelStep<T(!new)>(labels: Labels, items: seq<WitnessClaim<T>>, merges: Pairs, left: string, right: string)
    requires LabelsFit(labels, items, merges) && left in labels && right in labels
    ensures LabelsFit(Relabel(labels, left, right), items, merges + [(left, right)])
  {
    var labels', more := Relabel(labels, left, right), merges + [(left, right)];
    var l :| l in items && l.item.id == left;
    var r :| r in items && r.item.id == right;
    forall x, y | x in items && y in items
      ensures labels'[x.item.id] == labels'[y.item.id] <==> Connected(SameDomain(more), items, x, y)
    {
      if labels[x.item.id] == labels[y.item.id] {
        Monotone(SameDomain(merges), items, SameDomain(more), items, x, y);
      } else if labels'[x.item.id] == labels'[y.item.id] {
        NewLabelsJoin(labels, items, merges, l, r, x);
        NewLabelsJoin(labels, items, merges, l, r, y);
        Transitive(SameDomain(more), items, x, l, y);
      }
      if Connected(SameDomain(more), items, x, y) {
        forall a, b | a in items && b in items && SameDomain(more)(a, b) ensures labels'[a.item.id] == labels'[b.item.id] {
          EdgeKeepsLabel(labels, items, merges, left, right, a, b);
        }
        ConnectedKeeps(SameDomain(more), items, x, y, (c: WitnessClaim<T>) => if c.item.id in labels' then labels'[c.item.id] else "");
      }
    }
  }

  lemma {:induction false} RelabelFits<T(!new)>(items: seq<WitnessClaim<T>>, merges: Pairs)
    requires UniqueIds(items)
    ensures LabelsFit(RelabelAll(InitialLabels(items), merges), items, merges)
  {
    if merges == [] {
      InitialFit(items);
    } else {
      var n := |merges| - 1;
      var (left, right) := merges[n];
      RelabelFits(items, merges[..n]);
      var labels := RelabelAll(InitialLabels(items), merges[..n]);
      assert merges == merges[..n] + [(left, right)];
      if left in labels && right in labels {
        RelabelStep(labels, items, merges[..n], left, right);
      } else {
        AbsentPairIdle(labels, items, merges[..n], left, right);
      }
    }
  }

  lemma RelabelMembers<T(!new)>(labels: Labels, items: seq<WitnessClaim<T>>)
    ensures forall c :: c in RelabelItems(labels, items) ==> c.item in items && c == Relabelled(labels, c.item)
    ensures forall x :: x in items ==> Relabelled(labels, x) in RelabelItems(labels, items)
  {
    var claims := RelabelItems(labels, items);
    forall x | x in items ensures Relabelled(labels, x) in claims {
      var i :| 0 <= i < |items| && items[i] == x;
      assert claims[i] == Relabelled(labels, x);
    }
  }

  lemma EnlargedEdgeRelabels<T(!new)>(labels: Labels, items: seq<WitnessClaim<T>>, merges: Pairs, a: WitnessClaim<T>, b: WitnessClaim<T>)
    requires LabelsFit(labels, items, merges) && a in items && b in items && Enlarged(merges)(a, b)
    ensures Connected(Links(), RelabelItems(labels, items), Relabelled(labels, a), Relabelled(labels, b))
  {
    if a.providerGroup != b.providerGroup {
      Edge(SameDomain(merges), items, a, b);
    }
    RelabelMembers(labels, items);
    Edge(Links(), RelabelItems(labels, items), Relabelled(labels, a), Relabelled(labels, b));
  }

  lemma LinkUnlabels<T(!new)>(labels: Labels, items: seq<WitnessClaim<T>>, merges: Pairs, a: WitnessClaim<T>, b: WitnessClaim<T>)
    requires LabelsFit(labels, items, merges) && a in items && b in items && Linked(Relabelled(labels, a), Relabelled(labels, b))
    ensures Connected(Enlarged(merges), items, a, b)
  {
    if a.providerGroup == b.providerGroup {
      Edge(Enlarged(merges), items, a, b);
    } else {
      Monotone(SameDomain(merges), items, Enlarged(merges), items, a, b);
    }
  }

  lemma EnlargedRelabels<T(!new)>(labels: Labels, items: seq<WitnessClaim<T>>, merges: Pairs, x: WitnessClaim<T>, y: WitnessClaim<T>)
    requires LabelsFit(labels, items, merges) && Connected(Enlarged(merges), items, x, y)
    ensures Connected(Links(), RelabelItems(labels, items), Relabelled(labels, x), Relabelled(labels, y))
  {
    RelabelMembers(labels, items);
    forall a, b | a in items && b in items && Enlarged(merges)(a, b)
      ensures Connected(Links(), RelabelItems(labels, items), Relabelled(labels, a), Relabelled(labels, b))
    {
      EnlargedEdgeRelabels(labels, items, merges, a, b);
    }
    ConnectedMaps(Enlarged(merges), items, x, y, Links(), RelabelItems(labels, items), (c: WitnessClaim<T>) => Relabelled(labels, c));
  }

  lemma LinksUnlabel<T(!new)>(labels: Labels, items: seq<WitnessClaim<T>>, merges: Pairs, c: Claim<WitnessClaim<T>>, d: Claim<WitnessClaim<T>>)
    requires LabelsFit(labels, items, merges) && Connected(Links(), RelabelItems(labels, items), c, d)
    ensures Connected(Enlarged(merges), items, c.item, d.item)
  {
    var claims := RelabelItems(labels, items);
    RelabelMembers(labels, items);
    forall a, b | a in claims && b in claims && Linked(a, b) ensures Connected(Enlarged(merges), items, a.item, b.item) {
      LinkUnlabels(labels, items, merges, a.item, b.item);
    }
    ConnectedMaps(Links(), claims, c, d, Enlarged(merges), items, (e: Claim<WitnessClaim<T>>) => e.item);
  }

  /** Relabelled claims are connected exactly where the enlarged relation connects their originals. */
  lemma RelabelledConnects<T(!new)>(labels: Labels, items: seq<WitnessClaim<T>>, merges: Pairs, x: WitnessClaim<T>, y: WitnessClaim<T>)
    requires LabelsFit(labels, items, merges) && x in items && y in items
    ensures Connected(Links(), RelabelItems(labels, items), Relabelled(labels, x), Relabelled(labels, y))
       <==> Connected(Enlarged(merges), items, x, y)
  {
    if Connected(Enlarged(merges), items, x, y) {
      EnlargedRelabels(labels, items, merges, x, y);
    }
    if Connected(Links(), RelabelItems(labels, items), Relabelled(labels, x), Relabelled(labels, y)) {
      LinksUnlabel(labels, items, merges, Relabelled(labels, x), Relabelled(labels, y));
    }
  }

  lemma {:induction false} FlattenOriginals<T(!new)>(groups: seq<seq<Claim<WitnessClaim<T>>>>)
    ensures Flatten(Map((g: seq<Claim<WitnessClaim<T>>>) => Originals(g), groups)) == Originals(Flatten(groups))
  {
    if groups != [] {
      var n := |groups| - 1;
      FlattenOriginals(groups[..n]);
      var f := (g: seq<Claim<WitnessClaim<T>>>) => Originals(g);
      assert Map(f, groups)[..n] == Map(f, groups[..n]);
    }
  }

  lemma CollapsedPartition<T(!new)>(items: seq<WitnessClaim<T>>, merges: Pairs)
    requires UniqueIds(items)
    ensures multiset(Flatten(CollapsedGroups(items, merges))) == multiset(items)
  {
    var labels := RelabelAll(InitialLabels(items), merges);
    var claims := RelabelItems(labels, items);
    RelabelFits(items, merges);
    GroupsAreComponents(claims);
    FlattenOriginals(Groups(claims));
    MapMultiset((c: Claim<WitnessClaim<T>>) => c.item, Flatten(Groups(claims)), claims);
    assert Originals(claims) == items;
  }

  /** With unique ids, the collapsed groups are exactly the components of the declared relation enlarged by the merges. */
  lemma CollapsedAreComponents<T(!new)>(items: seq<WitnessClaim<T>>, merges: Pairs)
    requires UniqueIds(items)
    ensures IsComponents(Enlarged(merges), items, CollapsedGroups(items, merges))
  {
    var labels := RelabelAll(InitialLabels(items), merges);
    var claims := RelabelItems(labels, items);
    var gs: seq<seq<Claim<WitnessClaim<T>>>> := Groups(claims);
    var out := CollapsedGroups(items, merges);
    CollapsedPartition(items, merges);
    RelabelFits(items, merges);
    GroupsAreComponents(claims);
    RelabelMembers(labels, items);
    FlattenMembers(gs);
    SameElements(Flatten(gs), claims);
    forall i, j, a, b | 0 <= i < |out| && 0 <= j < |out| && a in out[i] && b in out[j]
      ensures i == j <==> Connected(Enlarged(merges), items, a, b)
    {
      var k :| 0 <= k < |gs[i]| && gs[i][k].item == a;
      var l :| 0 <= l < |gs[j]| && gs[j][l].item == b;
      assert gs[i][k] in gs[i] && gs[j][l] in gs[j];
      assert gs[i][k] in Flatten(gs) && gs[j][l] in Flatten(gs);
      RelabelledConnects(labels, items, merges, a, b);
    }
  }

  /** Correcting more names never raises the count. */
  lemma MoreMergesNeverRaise<T(!new)>(items: seq<WitnessClaim<T>>, merges: Pairs, more: Pairs)
    requires UniqueIds(items) && forall m :: m in merges ==> m in more
    ensures |CollapsedGroups(items, more)| <= |CollapsedGroups(items, merges)|
    ensures |CollapsedGroups(items, merges)| <= |Groups(items)|
  {
    CollapsedAreComponents(items, merges);
    CollapsedAreComponents(items, more);
    GroupsAreComponents(items);
    forall a, b | Connected(Enlarged(merges), items, a, b) ensures Connected(Enlarged(more), items, a, b) {
      Monotone(Enlarged(merges), items, Enlarged(more), items, a, b);
    }
    forall a, b | Connected(Links(), items, a, b) ensures Connected(Enlarged(merges), items, a, b) {
      Monotone(Links(), items, Enlarged(merges), items, a, b);
    }
    CoarserHasNoMore(Enlarged(merges), items, CollapsedGroups(items, merges), Enlarged(more), items, CollapsedGroups(items, more));
    CoarserHasNoMore(Links(), items, Groups(items), Enlarged(merges), items, CollapsedGroups(items, merges));
  }
}
