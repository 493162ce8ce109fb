/** What a quorum decision means. */
module QuorumMeaning {
  import opened Collections
  import opened Sorting
  import opened Connectivity
  import opened Independence
  import opened FailureDomains
  import opened Quorum

  // ---- the representatives

  lemma LowestIsOne<T(!new)>(le: Order<string>, id: T -> string, group: seq<Claim<T>>)
    requires group != []
    ensures |Lowest(le, id, group)| == 1 && Lowest(le, id, group)[0] in group
  {
    var sorted := Sort(ByItem(le, id), group);
    SameElements(sorted, group);
    assert sorted[0] in group;
  }

  lemma OneMoreOfEach<T>(groups: seq<seq<Claim<T>>>, picks: seq<Claim<T>>, group: seq<Claim<T>>, pick: seq<Claim<T>>)
    requires |picks| == |groups| && |pick| == 1 && pick[0] in group
    requires forall i :: 0 <= i < |groups| ==> picks[i] in groups[i]
    ensures |picks + pick| == |groups + [group]| && forall i :: 0 <= i < |groups + [group]| ==> (picks + pick)[i] in (groups + [group])[i]
  {
    var all, more := groups + [group], picks + pick;
    forall i | 0 <= i < |all| ensures more[i] in all[i] {
      if i < |groups| {
        assert more[i] == picks[i] && all[i] == groups[i];
      } else {
        assert more[i] == pick[0] && all[i] == group;
      }
    }
  }

  lemma {:induction false} OneOfEach<T(!new)>(le: Order<string>, id: T -> string, groups: seq<seq<Claim<T>>>)
    requires forall i :: 0 <= i < |groups| ==> groups[i] != []
    ensures |LowestOfEach(le, id, groups)| == |groups|
    ensures forall i :: 0 <= i < |groups| ==> LowestOfEach(le, id, groups)[i] in groups[i]
  {
    if groups != [] {
      var n := |groups| - 1;
      OneOfEach(le, id, groups[..n]);
      LowestIsOne(le, id, groups[n]);
      assert groups == groups[..n] + [groups[n]];
      OneMoreOfEach(groups[..n], LowestOfEach(le, id, groups[..n]), groups[n], Lowest(le, id, groups[n]));
    }
  }

  predicate Unlinked<T>(s: seq<Claim<T>>) {
    forall i, j :: 0 <= i < j < |s| ==> !Linked(s[i], s[j])
  }

  lemma UnlinkedPermuted<T(!new)>(a: seq<Claim<T>>, b: seq<Claim<T>>)
    requires Unlinked(a) && multiset(a) == multiset(b)
    ensures Unlinked(b)
  {
    assert Distinct(a);
    DistinctPermuted(a, b);
    SameElements(a, b);
    forall i, j | 0 <= i < j < |b| ensures !Linked(b[i], b[j]) {
      assert b[i] in a && b[j] in a;
      var k :| 0 <= k < |a| && a[k] == b[i];
      var l :| 0 <= l < |a| && a[l] == b[j];
      assert k != l;
      assert !Linked(a[k], a[l]) || !Linked(a[l], a[k]);
    }
  }

  /** One witness per failure domain, from the witnesses given, no two of them linked. */
  lemma WitnessesIndependent<T(!new)>(le: Order<string>, id: T -> string, claims: seq<Claim<T>>)
    ensures var w := IndependentWitnesses(le, id, claims);
            |w| == |Groups(claims)| && Unlinked(w) && forall c :: c in w ==> c in claims
  {
    var sorted := Sort(ByKey(le, id), claims);
    var gs := Groups(sorted);
    SameElements(sorted, claims);
    GroupsAreComponents(sorted);
    CountIgnoresOrder(sorted, claims);
    OneOfEach(le, id, gs);
    var picks := LowestOfEach(le, id, gs);
    FlattenMembers(gs);
    SameElements(Flatten(gs), sorted);
    forall i | 0 <= i < |picks| ensures picks[i] in sorted {
      assert picks[i] in gs[i];
      assert picks[i] in Flatten(gs);
    }
    forall i, j | 0 <= i < j < |picks| ensures !Linked(picks[i], picks[j]) {
      assert picks[i] in gs[i] && picks[j] in gs[j];
      if Linked(picks[i], picks[j]) {
        Edge(Links(), sorted, picks[i], picks[j]);
        assert false;
      }
    }
    SameElements(picks, IndependentWitnesses(le, id, claims));
    UnlinkedPermuted(picks, IndependentWitnesses(le, id, claims));
  }

  // ---- what agreement means

  lemma {:induction false} LowestHeadIsLowest(s: seq<Observation>)
    requires s != []
    ensures forall o :: o in s ==> LowestHead(s) <= o.head
    ensures exists o :: o in s && o.head == LowestHead(s)
  {
    if |s| > 1 {
      var n := |s| - 1;
      LowestHeadIsLowest(s[..n]);
      assert s == s[..n] + [s[n]];
      assert s[n] in s && forall o :: o in s[..n] ==> o in s;
    } else {
      assert s[0] in s;
    }
  }

  lemma {:induction false} LeadingHeadIsLeading(s: seq<Observation>)
    ensures LeadingHead(s) >= 0 && forall o :: o in s ==> o.head <= LeadingHead(s)
    ensures LeadingHead(s) == 0 || exists o :: o in s && o.head == LeadingHead(s)
  {
    if s != [] {
      var n := |s| - 1;
      LeadingHeadIsLeading(s[..n]);
      assert s == s[..n] + [s[n]];
      assert s[n] in s && forall o :: o in s[..n] ==> o in s;
    }
  }

  /** A witness with the expected identity, fresh, and within the allowed lag of every admissible head and of height zero. */
  ghost predicate Counts(observations: seq<Observation>, expected: Expected, policy: Policy, nowMs: int, o: Observation) {
    && o in observations
    && RejectionOf(o, expected, policy, nowMs).None?
    && 0 - o.head <= policy.maxHeadLagBlocks
    && forall p :: p in observations && RejectionOf(p, expected, policy, nowMs).None? ==> p.head - o.head <= policy.maxHeadLagBlocks
  }

  lemma CountedWitnesses(observations: seq<Observation>, expected: Expected, policy: Policy, nowMs: int, o: Observation)
    ensures o in InLagWitnesses(observations, expected, policy, nowMs) <==> Counts(observations, expected, policy, nowMs, o)
  {
    var admissible := Filter(Admits(expected, policy, nowMs), observations);
    FilterMembers(Admits(expected, policy, nowMs), observations);
    FilterMembers(InLag(LeadingHead(admissible), policy), admissible);
    LeadingHeadIsLeading(admissible);
  }

  lemma ChosenAreCounted(le: Order<string>, observations: seq<Observation>, expected: Expected, policy: Policy, nowMs: int, c: Claim<Observation>)
    requires c in Chosen(le, Filter(HasHash(), InLagWitnesses(observations, expected, policy, nowMs)))
    ensures c == AsClaim(c.item) && c.item in Filter(HasHash(), InLagWitnesses(observations, expected, policy, nowMs))
    ensures Counts(observations, expected, policy, nowMs, c.item)
  {
    var counted := InLagWitnesses(observations, expected, policy, nowMs);
    var hashed := Filter(HasHash(), counted);
    WitnessesIndependent(le, IdOf(), Map(AsClaim, hashed));
    var i :| 0 <= i < |hashed| && Map(AsClaim, hashed)[i] == c;
    assert hashed[i] in hashed;
    FilterMembers(HasHash(), counted);
    CountedWitnesses(observations, expected, policy, nowMs, hashed[i]);
  }

  lemma CountAgrees(le: Order<string>, policy: Policy, height: int, hash: string, group: seq<Observation>)
    ensures var d := DecideCount(le, policy, height, hash, group);
            && d.height == Some(height) && d.blockHash == Some(hash) && d.endpointIds == Ids(IdOf(), Chosen(le, group))
            && (d.outcome == Agreed <==> |Chosen(le, group)| >= policy.minIndependent)
  {
  }

  lemma AgreedHash(le: Order<string>, policy: Policy, height: int, hashed: seq<Observation>)
    requires DecideHash(le, policy, height, hashed).outcome == Agreed
    ensures var d := DecideHash(le, policy, height, hashed);
            && d.height == Some(height) && d.blockHash.Some? && d.endpointIds == Ids(IdOf(), Chosen(le, hashed))
            && |Chosen(le, hashed)| >= policy.minIndependent
            && forall o :: o in hashed ==> HashOf(o) == d.blockHash.value
  {
    CountAgrees(le, policy, height, HashOf(hashed[0]), hashed);
  }

  // Agreement is sound: enough pairwise unlinked witnesses that count stand at or above the height and report the
  // hash, and no witness that counts reports another one.
  lemma AgreementIsSound(le: Order<string>, observations: seq<Observation>, expected: Expected, policy: Policy, nowMs: int)
    requires Decide(le, observations, expected, policy, nowMs).outcome == Agreed
    ensures var d := Decide(le, observations, expected, policy, nowMs);
            var counted := InLagWitnesses(observations, expected, policy, nowMs);
            var w := Chosen(le, Filter(HasHash(), counted));
            && d.height.Some? && d.blockHash.Some?
            && |w| >= policy.minIndependent && Unlinked(w) && d.endpointIds == Ids(IdOf(), w)
            && (forall c :: c in w ==>
                  && c == AsClaim(c.item)
                  && Counts(observations, expected, policy, nowMs, c.item)
                  && c.item.head >= d.height.value
                  && c.item.hashAtHeight.Some? && Lower(c.item.hashAtHeight.value) == d.blockHash.value)
            && (forall o :: Counts(observations, expected, policy, nowMs, o) && o.hashAtHeight.Some? ==> Lower(o.hashAtHeight.value) == d.blockHash.value)
  {
    var counted := InLagWitnesses(observations, expected, policy, nowMs);
    var hashed := Filter(HasHash(), counted);
    FilterMembers(HasHash(), counted);
    LowestHeadIsLowest(counted);
    WitnessesIndependent(le, IdOf(), Map(AsClaim, hashed));
    AgreedHash(le, policy, LowestHead(counted), hashed);
    forall c | c in Chosen(le, hashed) ensures c == AsClaim(c.item) && c.item in hashed && Counts(observations, expected, policy, nowMs, c.item) {
      ChosenAreCounted(le, observations, expected, policy, nowMs, c);
    }
    forall o | Counts(observations, expected, policy, nowMs, o) && o.hashAtHeight.Some? ensures o in hashed {
      CountedWitnesses(observations, expected, policy, nowMs, o);
    }
  }

  lemma CountedDomains(le: Order<string>, policy: Policy, height: int, hashed: seq<Observation>)
    requires hashed != []
    ensures DecideHash(le, policy, height, hashed).outcome == Agreed <==>
              OneHash(hashed) && |Groups(Map(AsClaim, hashed))| >= policy.minIndependent
  {
    OneHashIffOneKey(hashed);
    WitnessesIndependent(le, IdOf(), Map(AsClaim, hashed));
  }

  /** An observation that counts and reports a hash. */
  ghost predicate Reports(observations: seq<Observation>, expected: Expected, policy: Policy, nowMs: int, o: Observation) {
    Counts(observations, expected, policy, nowMs, o) && o.hashAtHeight.Some?
  }

  /** The claims of exactly the observations that report. */
  ghost predicate AreReporters(claims: seq<Claim<Observation>>, observations: seq<Observation>, expected: Expected, policy: Policy, nowMs: int) {
    forall c :: c in claims <==> c == AsClaim(c.item) && Reports(observations, expected, policy, nowMs, c.item)
  }

  ghost predicate NoDissent(observations: seq<Observation>, expected: Expected, policy: Policy, nowMs: int) {
    forall o, p :: Reports(observations, expected, policy, nowMs, o) && Reports(observations, expected, policy, nowMs, p) ==> HashOf(o) == HashOf(p)
  }

  /** So many of the claims that no chain of shared domains and providers joins two of them. */
  ghost predicate EnoughApart(claims: seq<Claim<Observation>>, n: int) {
    exists xs :: |xs| >= n && Unjoined(Links(), claims, xs)
  }

  lemma ComponentsApart(claims: seq<Claim<Observation>>, n: int)
    ensures |Groups(claims)| >= n <==> EnoughApart(claims, n)
  {
    GroupsAreComponents(claims);
    var xs := OnePerGroup(Links(), claims, Groups(claims));
    assert |xs| >= n ==> EnoughApart(claims, n);
    if EnoughApart(claims, n) {
      var ys :| |ys| >= n && Unjoined(Links(), claims, ys);
      ApartAtMost(Links(), claims, Groups(claims), ys);
    }
  }

  lemma HashedReport(observations: seq<Observation>, expected: Expected, policy: Policy, nowMs: int)
    ensures var hashed := Filter(HasHash(), InLagWitnesses(observations, expected, policy, nowMs));
            forall o :: o in hashed <==> Reports(observations, expected, policy, nowMs, o)
  {
    var counted := InLagWitnesses(observations, expected, policy, nowMs);
    FilterMembers(HasHash(), counted);
    forall o ensures o in counted <==> Counts(observations, expected, policy, nowMs, o) {
      CountedWitnesses(observations, expected, policy, nowMs, o);
    }
  }

  lemma ClaimMembers(hashed: seq<Observation>)
    ensures forall c :: c in Map(AsClaim, hashed) <==> c == AsClaim(c.item) && c.item in hashed
  {
    var claims := Map(AsClaim, hashed);
    forall o | o in hashed ensures AsClaim(o) in claims {
      var i :| 0 <= i < |hashed| && hashed[i] == o;
      assert claims[i] == AsClaim(o);
    }
  }

  lemma HashedAgree(le: Order<string>, observations: seq<Observation>, expected: Expected, policy: Policy, nowMs: int)
    ensures var hashed := Filter(HasHash(), InLagWitnesses(observations, expected, policy, nowMs));
            Decide(le, observations, expected, policy, nowMs).outcome == Agreed <==>
              hashed != [] && OneHash(hashed) && |Groups(Map(AsClaim, hashed))| >= policy.minIndependent
  {
    var counted := InLagWitnesses(observations, expected, policy, nowMs);
    var hashed := Filter(HasHash(), counted);
    if hashed != [] {
      assert counted != [];
      CountedDomains(le, policy, LowestHead(counted), hashed);
    }
  }

  // Agreement is exact: some observation that counts reports a hash, none that counts reports another, and enough of the
  // reporters are joined by no chain of shared domains and providers among the reporters.
  lemma AgreementIsComplete(le: Order<string>, observations: seq<Observation>, expected: Expected, policy: Policy, nowMs: int, reporters: seq<Claim<Observation>>)
    requires AreReporters(reporters, observations, expected, policy, nowMs)
    ensures Decide(le, observations, expected, policy, nowMs).outcome == Agreed <==>
              && reporters != [] && NoDissent(observations, expected, policy, nowMs)
              && EnoughApart(reporters, policy.minIndependent)
  {
    var hashed := Filter(HasHash(), InLagWitnesses(observations, expected, policy, nowMs));
    var claims := Map(AsClaim, hashed);
    HashedAgree(le, observations, expected, policy, nowMs);
    HashedReport(observations, expected, policy, nowMs);
    ClaimMembers(hashed);
    assert forall c :: c in claims <==> c in reporters;
    CountIgnoresOrder(claims, reporters);
    ComponentsApart(reporters, policy.minIndependent);
    SomeReporter(claims, reporters);
    OneHashIsNoDissent(observations, expected, policy, nowMs, hashed);
  }

  lemma SomeReporter(a: seq<Claim<Observation>>, b: seq<Claim<Observation>>)
    requires forall c :: c in a <==> c in b
    ensures a == [] <==> b == []
  {
    if a != [] {
      assert a[0] in b;
    }
    if b != [] {
      assert b[0] in a;
    }
  }

  lemma OneHashIsNoDissent(observations: seq<Observation>, expected: Expected, policy: Policy, nowMs: int, hashed: seq<Observation>)
    requires forall o :: o in hashed <==> Reports(observations, expected, policy, nowMs, o)
    ensures hashed != [] ==> (OneHash(hashed) <==> NoDissent(observations, expected, policy, nowMs))
  {
    if hashed != [] {
      assert hashed[0] in hashed;
    }
  }

  /** Two unlinked witnesses are not enough where a third is linked to both: the three are one failure domain. */
  lemma ChainedCountOnce(a: Claim<Observation>, b: Claim<Observation>, c: Claim<Observation>)
    requires Linked(a, b) && Linked(b, c)
    ensures !EnoughApart([a, b, c], 2)
  {
    var all := [a, b, c];
    if EnoughApart(all, 2) {
      var xs :| |xs| >= 2 && Unjoined(Links(), all, xs);
      var x, y := xs[0], xs[1];
      assert !Connected(Links(), all, xs[0], xs[1]);
      ToMiddle(a, b, c, x);
      ToMiddle(a, b, c, y);
      Transitive(Links(), all, x, b, y);
    }
  }

  lemma ToMiddle(a: Claim<Observation>, b: Claim<Observation>, c: Claim<Observation>, x: Claim<Observation>)
    requires Linked(a, b) && Linked(b, c) && x in [a, b, c]
    ensures Connected(Links(), [a, b, c], x, b) && Connected(Links(), [a, b, c], b, x)
  {
    var all := [a, b, c];
    assert a in all && b in all && c in all;
    assert Linked(x, b) && Linked(b, x);
    Edge(Links(), all, x, b);
    Edge(Links(), all, b, x);
  }
}
