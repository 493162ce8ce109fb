/** Gate A fed with the facts of a run: what it answers, by the supply each remote holds without a cause. */
module RunVerdicts {
  import opened Collections
  import opened RouteAssessment
  import opened BridgeProtocol
  import opened Conservation
  import opened BridgeRuns
  import opened ProofInputs
  import opened GateA

  // ---- effects of a clean assessment are sound

  lemma {:induction false} ExecutedFactsDistinct(log: Log, peer: string)
    requires Distinct(ExecutedIds(log))
    ensures Distinct(IdsOf(ExecutedFacts(log, peer)))
    ensures forall id :: id in IdsOf(ExecutedFacts(log, peer)) ==> id in ExecutedIds(log)
  {
    if log != [] {
      var n := |log| - 1;
      ExecutedIdsPrefix(log, n);
      ExecutedFactsDistinct(log[..n], peer);
      var front := ExecutedFacts(log[..n], peer);
      if log[n].Executed? {
        var ids := ExecutedIds(log);
        assert ids[..|ids| - 1] == ExecutedIds(log[..n]) && ids[|ids| - 1] == log[n].outcome.messageId;
      }
      if log[n].Executed? && Same(log[n].outcome.value.sourceBlockchainId, peer) {
        var ids := ExecutedIds(log);
        assert log[n].outcome.messageId !in ids[..|ids| - 1];
        assert IdsOf(front + [log[n].outcome]) == IdsOf(front) + [log[n].outcome.messageId];
      } else {
        assert ExecutedFacts(log, peer) == front;
      }
    }
  }

  /** In a closed, single-hop direction an executed message has one source, one delivery and one execution. */
  lemma UniqueFacts(v: View, source: Log, destination: Log, id: string)
    requires ViewAt(v, v.direction, v.route, source, destination) && ChainOk(source) && ChainOk(destination)
    requires Settled(v, id) && id in IdsOf(v.sends)
    ensures |Of(v.sends, id)| == 1 && |Of(v.deliveries, id)| == 1 && |Of(v.executed, id)| == 1
    ensures Of(v.sends, id)[0] in v.sends && Of(v.sends, id)[0].messageId == id
    ensures Of(v.deliveries, id)[0] in v.deliveries && Of(v.deliveries, id)[0].messageId == id
  {
    DistinctFilter((f: Fact<TokensSent>) => IsRouteSend(v.direction, v.route, f.value), SentFacts(source));
    DistinctFilter((f: Fact<Delivery>) => IsRouteDelivery(v.direction, v.route, f.value), DeliveredFacts(destination));
    ExecutedFactsDistinct(destination, Peer(v.direction, v.route));
    var f := FactOfId(v.sends, id);
    var d := FactOfId(v.deliveries, id);
    var o := FactOfId(v.executed, id);
    OfUnique(v.sends, f);
    OfUnique(v.deliveries, d);
    OfUnique(v.executed, o);
  }

  /** A delivered single-hop message and the send inside the cut under its id carry the same amount. */
  lemma AmountsAgree(v: View, fullSource: Log, n: nat, destination: Log, f: Fact<TokensSent>, d: Fact<Delivery>)
    requires n <= |fullSource| && ViewAt(v, v.direction, v.route, fullSource[..n], destination)
    requires ChainOk(fullSource) && Linked(v.direction, v.route, fullSource, destination)
    requires UnsupportedTypes(v.direction, v.deliveries) == {}
    requires f in v.sends && d in v.deliveries && f.messageId == d.messageId
    ensures d.value.payload.singleHopAmount == Some(f.value.amount)
  {
    var dir, route := v.direction, v.route;
    FilterMembers((g: Fact<Delivery>) => IsRouteDelivery(dir, route, g.value), DeliveredFacts(destination));
    FilterMembers((g: Fact<TokensSent>) => IsRouteSend(dir, route, g.value), SentFacts(fullSource[..n]));
    assert d.value.payload.messageType != SINGLE_HOP_SEND ==>
        UnsupportedType(dir, d.value.payload.messageType) in UnsupportedTypes(dir, v.deliveries);
    var s :| s in SentFacts(fullSource) && IsSourceOf(dir, route, s, d);
    SentFactsPrefix(fullSource, n);
    SameIdSameFact(SentFacts(fullSource), f, s);
  }

  /** One executed message of a closed, single-hop direction credits its only source, once, for its amount. */
  lemma EffectForSound(v: View, fullSource: Log, n: nat, destination: Log, id: string, digestOf: DigestOf)
    requires n <= |fullSource| && ViewAt(v, v.direction, v.route, fullSource[..n], destination)
    requires ChainOk(fullSource) && ChainOk(destination) && Linked(v.direction, v.route, fullSource, destination)
    requires UnsupportedTypes(v.direction, v.deliveries) == {}
    ensures forall e :: e in EffectFor(v, id, digestOf) ==> EffectSound(e)
  {
    if Settled(v, id) && id in IdsOf(v.sends) {
      ChainOkPrefix(fullSource, n);
      UniqueFacts(v, fullSource[..n], destination, id);
      AmountsAgree(v, fullSource, n, destination, Of(v.sends, id)[0], Of(v.deliveries, id)[0]);
      LoneEffectSound(v, id, digestOf);
    }
  }

  lemma LoneEffectSound(v: View, id: string, digestOf: DigestOf)
    requires |Of(v.sends, id)| == 1 && |Of(v.deliveries, id)| == 1 && |Of(v.executed, id)| == 1
    requires Of(v.deliveries, id)[0].value.payload.singleHopAmount == Some(Of(v.sends, id)[0].value.amount)
    ensures forall e :: e in EffectFor(v, id, digestOf) ==> EffectSound(e)
  {
  }

  lemma {:induction false} CollectMembers<R(!new)>(f: string -> seq<R>, keys: seq<string>, x: R) returns (k: string)
    requires x in Collect(f, keys)
    ensures k in keys && x in f(k)
  {
    var n := |keys| - 1;
    if x in Collect(f, keys[..n]) {
      k := CollectMembers(f, keys[..n], x);
    } else {
      k := keys[n];
    }
  }

  lemma DirectionEffectsSound(v: View, fullSource: Log, n: nat, destination: Log, digestOf: DigestOf)
    requires n <= |fullSource| && ViewAt(v, v.direction, v.route, fullSource[..n], destination)
    requires ChainOk(fullSource) && ChainOk(destination) && Linked(v.direction, v.route, fullSource, destination)
    requires UnsupportedTypes(v.direction, v.deliveries) == {}
    ensures forall e :: e in Assessed(v, digestOf).effects ==> EffectSound(e)
  {
    forall e | e in Assessed(v, digestOf).effects ensures EffectSound(e) {
      var id := CollectMembers(id => EffectFor(v, id, digestOf), Keys(v.deliveries), e);
      EffectForSound(v, fullSource, n, destination, id, digestOf);
    }
  }

  lemma CutEffectsSound(route: Route, home: Log, h: nat, homePin: Pin, remote: Log, r: nat, remotePin: Pin, digestOf: DigestOf)
    requires RouteOk(route, home, remote) && h <= |home| && r <= |remote|
    requires Clean(AssessmentAt(route, home[..h], homePin, remote[..r], remotePin, digestOf))
    ensures forall e :: e in AssessmentAt(route, home[..h], homePin, remote[..r], remotePin, digestOf).effects ==> EffectSound(e)
  {
    var hs, rs := HomeSide(route, home[..h], homePin), RemoteSide(route, remote[..r], remotePin);
    CleanBothWays(route, home[..h], homePin, remote[..r], remotePin, digestOf);
    LinkedAtCuts(route, home, h, remote, r);
    var v, w := ViewOf(HomeToRemote, route, hs, rs), ViewOf(RemoteToHome, route, rs, hs);
    DirectionEffectsSound(v, home, h, remote[..r], digestOf);
    DirectionEffectsSound(w, remote, r, home[..h], digestOf);
  }

  // ---- envelopes carry the identity of their route

  predicate BelongsTo(route: Route, p: PendingEnvelope) {
    p.remoteBlockchainId == route.remoteBlockchainId && p.remoteAddress == route.remoteAddress
  }

  lemma DirectionEnvelopes(v: View, digestOf: DigestOf)
    ensures forall p :: p in Assessed(v, digestOf).pending ==> BelongsTo(v.route, p)
  {
    forall p | p in Assessed(v, digestOf).pending ensures BelongsTo(v.route, p) {
      var id := CollectMembers(id => PendingFor(v, id), Keys(v.sends), p);
    }
  }

  lemma RouteEnvelopes(route: Route, home: SideFacts, remote: SideFacts, digestOf: DigestOf)
    ensures forall p :: p in RouteAssessed(route, home, remote, digestOf).pending ==> BelongsTo(route, p)
  {
    DirectionEnvelopes(ViewOf(HomeToRemote, route, home, remote), digestOf);
    DirectionEnvelopes(ViewOf(RemoteToHome, route, remote, home), digestOf);
  }

  lemma {:induction false} PendingNonNegative(p: seq<PendingEnvelope>)
    ensures PendingTotal(p) >= 0
  {
    if p != [] {
      PendingNonNegative(p[..|p| - 1]);
    }
  }

  // ---- the collector's input for a run

  /** What is read of one route: the two logs up to their pins, and the pair's token scale. */
  datatype Reading = Reading(route: Route, home: Log, homePin: Pin, remote: Log, remotePin: Pin, scale: TokenScale)

  /** What that reading amounts to. `unbacked` is not observable: it is what the verdict is judged against. */
  datatype Report = Report(
    route: Route,
    balance: int,
    supply: int,
    homePin: PinnedBlock,
    remotePin: PinnedBlock,
    scale: TokenScale,
    assessment: Assessment,
    unbacked: int)

  function ReportOf(rd: Reading, digestOf: DigestOf): Report {
    Report(rd.route, TransferredBalance(rd.route, rd.home), TotalSupply(rd.route, rd.remote),
           PinnedBlock(rd.route.homeBlockchainId, rd.homePin.blockNumber, rd.homePin.blockHash),
           PinnedBlock(rd.route.remoteBlockchainId, rd.remotePin.blockNumber, rd.remotePin.blockHash),
           rd.scale, AssessmentAt(rd.route, rd.home, rd.homePin, rd.remote, rd.remotePin, digestOf), Unbacked(rd.route, rd.remote))
  }

  function Reports(rs: seq<Reading>, digestOf: DigestOf): (r: seq<Report>)
    ensures |r| == |rs| && forall i :: 0 <= i < |rs| ==> r[i] == ReportOf(rs[i], digestOf)
  {
    Map(rd => ReportOf(rd, digestOf), rs)
  }

  /** What the collector says about one remote. */
  function Observe(rp: Report): RemoteObservation {
    RemoteObservation(rp.route.remoteBlockchainId, rp.route.remoteAddress, Some(rp.balance), Some(rp.supply),
                      rp.scale, Some(rp.homePin), Some(rp.remotePin), true, true, rp.assessment.unsupported == {}, 0)
  }

  function AllPending(rps: seq<Report>): seq<PendingEnvelope> {
    if rps == [] then [] else AllPending(rps[..|rps| - 1]) + rps[|rps| - 1].assessment.pending
  }

  function AllEffects(rps: seq<Report>): seq<CreditedEffect> {
    if rps == [] then [] else AllEffects(rps[..|rps| - 1]) + rps[|rps| - 1].assessment.effects
  }

  /** `base` carries everything that is not read off the two chains: provenance, census, freshness, escrow. */
  function CollectedInput(base: ProofInput, rps: seq<Report>): ProofInput {
    base.(
    remotes := Map(Observe, rps),
    pending := AllPending(rps),
    effects := AllEffects(rps),
    cut := if exists rp :: rp in rps && rp.assessment.openEdges != [] then Open else Closed)
  }

  /** No two routes share a remote identity. */
  predicate RoutesDistinct(rps: seq<Report>) {
    forall i, j :: 0 <= i < j < |rps| ==>
      !(rps[i].route.remoteBlockchainId == rps[j].route.remoteBlockchainId && rps[i].route.remoteAddress == rps[j].route.remoteAddress)
  }

  /** The rest of the input contract, outside what the two chains report. */
  predicate BaseMet(base: ProofInput) {
    var p, f := base.provenance, base.freshness;
    && base.family == CanonicalErc20SingleHop
    && p.manifestHash.Some? && p.policyHash.Some?
    && p.sourceLockCommitSha.Some? && p.adapterId.Some? && p.adapterVersion.Some?
    && base.census == CompleteFromDeploymentBlock && base.untrackedRemotes == []
    && f.isFresh && f.requiredWitnessGroups <= f.independentWitnessGroups
  }

  predicate ScalesMet(rps: seq<Report>) {
    rps != [] && forall rp :: rp in rps ==> rp.scale.established && InRange(rp.scale.tokenMultiplier)
  }

  // ---- what one reading of a run satisfies

  /** Balances are `uint256`, and a clean assessment accounts for them exactly, with sound effects. */
  ghost predicate Faithful(rp: Report) {
    && Uint256(rp.balance) && Uint256(rp.supply)
    && (forall p :: p in rp.assessment.pending ==> BelongsTo(rp.route, p))
    && (Clean(rp.assessment) ==>
          && rp.balance - rp.supply == PendingTotal(rp.assessment.pending) - rp.unbacked
          && forall e :: e in rp.assessment.effects ==> EffectSound(e))
  }

  /** The readings are prefixes of the logs of one system, route by route. */
  ghost predicate ReadFrom(routes: seq<Route>, s: System, rs: seq<Reading>) {
    && |rs| == |routes| == |s.remotes|
    && forall i :: 0 <= i < |rs| ==> rs[i].route == routes[i] && rs[i].home <= s.home && rs[i].remote <= s.remotes[i]
  }

  lemma PrefixReadingFaithful(rd: Reading, home: Log, remote: Log, digestOf: DigestOf)
    requires RouteOk(rd.route, home, remote) && rd.home <= home && rd.remote <= remote
    requires Uint256(TransferredBalance(rd.route, rd.home)) && Uint256(TotalSupply(rd.route, rd.remote))
    ensures Faithful(ReportOf(rd, digestOf))
  {
    assert home[..|rd.home|] == rd.home && remote[..|rd.remote|] == rd.remote;
    RouteEnvelopes(rd.route, SideAt(rd.route.homeBlockchainId, rd.route.remoteBlockchainId, rd.homePin, rd.home),
                   SideAt(rd.route.remoteBlockchainId, rd.route.homeBlockchainId, rd.remotePin, rd.remote), digestOf);
    if Clean(ReportOf(rd, digestOf).assessment) {
      CutsConserve(rd.route, home, |rd.home|, rd.homePin, remote, |rd.remote|, rd.remotePin, digestOf);
      CutEffectsSound(rd.route, home, |rd.home|, rd.homePin, remote, |rd.remote|, rd.remotePin, digestOf);
    }
  }

  lemma RunReadingsFaithful(routes: seq<Route>, steps: seq<Step>, rs: seq<Reading>, digestOf: DigestOf)
    requires IsRun(routes, steps) && ReadFrom(routes, After(|routes|, steps), rs)
    ensures forall rp :: rp in Reports(rs, digestOf) ==> Faithful(rp)
  {
    RunsAreOk(routes, steps);
    var s := After(|routes|, steps);
    forall i | 0 <= i < |rs| ensures Faithful(Reports(rs, digestOf)[i]) {
      assert s.home[..|rs[i].home|] == rs[i].home && s.remotes[i][..|rs[i].remote|] == rs[i].remote;
      assert RouteOk(routes[i], s.home, s.remotes[i]);
      PrefixReadingFaithful(rs[i], s.home, s.remotes[i], digestOf);
    }
  }

  // ---- what Gate A does with faithful reports

  /** Gate A takes all of a remote's own envelopes and none of another's. */
  lemma OwnOrNone(r: RemoteObservation, rps: seq<Report>, i: nat, k: nat)
    requires i < |rps| && k < |rps| && RoutesDistinct(rps) && r == Observe(rps[i]) && Faithful(rps[k])
    ensures MineOf(r, rps[k].assessment.pending) == if i == k then rps[i].assessment.pending else []
  {
    var mine := (p: PendingEnvelope) => Mine(r, p);
    if i == k {
      FilterAll(mine, rps[k].assessment.pending);
    } else {
      FilterNone(mine, rps[k].assessment.pending);
    }
  }

  lemma AllPendingStep(rps: seq<Report>, k: nat)
    requires k < |rps|
    ensures AllPending(rps[..k + 1]) == AllPending(rps[..k]) + rps[k].assessment.pending
  {
    PrefixStep(rps, k);
  }

  lemma MineConcat(r: RemoteObservation, a: seq<PendingEnvelope>, b: seq<PendingEnvelope>)
    ensures MineOf(r, a + b) == MineOf(r, a) + MineOf(r, b)
  {
    FilterConcat((p: PendingEnvelope) => Mine(r, p), a, b);
  }

  lemma MineStep(r: RemoteObservation, rps: seq<Report>, k: nat)
    requires k < |rps|
    ensures MineOf(r, AllPending(rps[..k + 1])) == MineOf(r, AllPending(rps[..k])) + MineOf(r, rps[k].assessment.pending)
  {
    AllPendingStep(rps, k);
    MineConcat(r, AllPending(rps[..k]), rps[k].assessment.pending);
  }

  lemma MineIsOwn(r: RemoteObservation, rps: seq<Report>, i: nat, n: nat)
    requires i < |rps| && n <= |rps| && RoutesDistinct(rps) && r == Observe(rps[i])
    requires forall rp :: rp in rps ==> Faithful(rp)
    ensures MineOf(r, AllPending(rps[..n])) == if i < n then rps[i].assessment.pending else []
  {
    forall k | 0 <= k < |rps| ensures OwnPart(r, rps, i, k) {
      assert Faithful(rps[k]);
      OwnOrNone(r, rps, i, k);
    }
    OwnParts(r, rps, i, n);
  }

  predicate OwnPart(r: RemoteObservation, rps: seq<Report>, i: nat, k: nat)
    requires i < |rps| && k < |rps|
  {
    MineOf(r, rps[k].assessment.pending) == if i == k then rps[i].assessment.pending else []
  }

  lemma OwnNext(r: RemoteObservation, rps: seq<Report>, i: nat, k: nat)
    requires i < |rps| && k < |rps| && OwnPart(r, rps, i, k)
    requires MineOf(r, AllPending(rps[..k])) == if i < k then rps[i].assessment.pending else []
    ensures MineOf(r, AllPending(rps[..k + 1])) == if i < k + 1 then rps[i].assessment.pending else []
  {
    MineStep(r, rps, k);
    NothingAdded(MineOf(r, AllPending(rps[..k])), MineOf(r, rps[k].assessment.pending));
  }

  lemma NothingAdded(a: seq<PendingEnvelope>, b: seq<PendingEnvelope>)
    ensures a == [] ==> a + b == b
    ensures b == [] ==> a + b == a
  {
  }

  lemma {:induction false} OwnParts(r: RemoteObservation, rps: seq<Report>, i: nat, n: nat)
    requires i < |rps| && n <= |rps| && forall k :: 0 <= k < |rps| ==> OwnPart(r, rps, i, k)
    ensures MineOf(r, AllPending(rps[..n])) == if i < n then rps[i].assessment.pending else []
  {
    if n == 0 {
      NoneYet(r, rps);
    } else {
      OwnParts(r, rps, i, n - 1);
      OwnNext(r, rps, i, n - 1);
    }
  }

  lemma NoneYet(r: RemoteObservation, rps: seq<Report>)
    ensures MineOf(r, AllPending(rps[..0])) == []
  {
    assert rps[..0] == [];
  }

  lemma {:induction false} AllEffectsSound(rps: seq<Report>)
    requires forall rp :: rp in rps ==> Faithful(rp) && Clean(rp.assessment)
    ensures forall e :: e in AllEffects(rps) ==> EffectSound(e)
  {
    if rps != [] {
      var n := |rps| - 1;
      assert rps[n] in rps && forall rp :: rp in rps[..n] ==> rp in rps;
      AllEffectsSound(rps[..n]);
    }
  }

  /** In excess exactly when the unbacked supply outweighs what is in flight; reconciled exactly when there is none. */
  lemma ReportMeaning(base: ProofInput, rps: seq<Report>, i: nat)
    requires i < |rps| && RoutesDistinct(rps) && Clean(rps[i].assessment) && forall rp :: rp in rps ==> Faithful(rp)
    ensures Excess(Observe(rps[i])) <==> rps[i].unbacked > PendingTotal(rps[i].assessment.pending)
    ensures Reconciles(Observe(rps[i]), CollectedInput(base, rps)) <==> rps[i].unbacked == 0
  {
    MineIsOwn(Observe(rps[i]), rps, i, |rps|);
    assert rps[..|rps|] == rps && Faithful(rps[i]);
  }

  predicate AllClean(rps: seq<Report>) {
    forall rp :: rp in rps ==> Clean(rp.assessment)
  }

  /** Some remote holds more unbacked supply than is in flight there. */
  predicate Overminted(rps: seq<Report>) {
    exists rp :: rp in rps && rp.unbacked > PendingTotal(rp.assessment.pending)
  }

  predicate AllBacked(rps: seq<Report>) {
    forall rp :: rp in rps ==> rp.unbacked == 0
  }

  lemma Observed(rps: seq<Report>)
    ensures forall r :: r in Map(Observe, rps) <==> exists rp :: rp in rps && r == Observe(rp)
  {
    var os := Map(Observe, rps);
    forall rp | rp in rps ensures Observe(rp) in os {
      var i :| 0 <= i < |rps| && rps[i] == rp;
      assert os[i] == Observe(rp);
    }
  }

  lemma AnswerableIffClean(base: ProofInput, rps: seq<Report>)
    requires BaseMet(base) && ScalesMet(rps) && forall rp :: rp in rps ==> Faithful(rp)
    ensures Answerable(CollectedInput(base, rps)) <==> AllClean(rps)
  {
    SupportedReports(base, rps);
    ObservedReports(base, rps);
  }

  lemma SupportedReports(base: ProofInput, rps: seq<Report>)
    requires BaseMet(base)
    ensures Supported(CollectedInput(base, rps)) <==> forall rp :: rp in rps ==> rp.assessment.unsupported == {}
  {
    Observed(rps);
    assert forall rp :: rp in rps ==> Observe(rp) in Map(Observe, rps) && (RemoteSupported(Observe(rp)) <==> rp.assessment.unsupported == {});
  }

  lemma ObservedReports(base: ProofInput, rps: seq<Report>)
    requires BaseMet(base) && ScalesMet(rps) && forall rp :: rp in rps ==> Faithful(rp)
    ensures var input := CollectedInput(base, rps); AllInRange(input) && (ContractMet(input) <==> input.cut == Closed)
  {
    var input := CollectedInput(base, rps);
    Observed(rps);
    assert |input.remotes| == |rps|;
    assert forall r :: r in input.remotes ==> RemoteObserved(r);
  }

  lemma CleanReports(base: ProofInput, rps: seq<Report>)
    requires RoutesDistinct(rps) && AllClean(rps) && forall rp :: rp in rps ==> Faithful(rp)
    ensures var input := CollectedInput(base, rps);
            (Breach(input) <==> Overminted(rps)) && (Exact(input) <==> AllBacked(rps))
  {
    var input := CollectedInput(base, rps);
    AllEffectsSound(rps);
    forall i | 0 <= i < |rps|
      ensures input.remotes[i] in input.remotes && rps[i] in rps
      ensures Excess(input.remotes[i]) <==> rps[i].unbacked > PendingTotal(rps[i].assessment.pending)
      ensures Reconciles(input.remotes[i], input) <==> rps[i].unbacked == 0
    {
      ReportMeaning(base, rps, i);
    }
  }

  /** Distinct routes, an input contract met by everything not read off the chains, and established scales. */
  predicate Collectable(base: ProofInput, rps: seq<Report>) {
    RoutesDistinct(rps) && BaseMet(base) && ScalesMet(rps)
  }

  // ---- mints and stray burns, reading by reading

  /** Minted on the remote without a home-side cause. */
  function MintedIn(rd: Reading): int {
    Total(MintedAmount, rd.remote)
  }

  /** Burnt on the remote by sends the assessment does not see. */
  function StrayIn(rd: Reading): int {
    Total(StrayAmounts(rd.route), rd.remote)
  }

  function PendingIn(rd: Reading, digestOf: DigestOf): int {
    PendingTotal(ReportOf(rd, digestOf).assessment.pending)
  }

  predicate NoMints(rs: seq<Reading>) {
    forall rd :: rd in rs ==> MintedIn(rd) == 0
  }

  /** On every remote the stray burns are exactly as large as the mints. */
  predicate MintsOffset(rs: seq<Reading>) {
    forall rd :: rd in rs ==> MintedIn(rd) == StrayIn(rd)
  }

  predicate MintsExceed(rs: seq<Reading>, digestOf: DigestOf) {
    exists rd :: rd in rs && MintedIn(rd) > PendingIn(rd, digestOf)
  }

  predicate NetMintsExceed(rs: seq<Reading>, digestOf: DigestOf) {
    exists rd :: rd in rs && MintedIn(rd) - StrayIn(rd) > PendingIn(rd, digestOf)
  }

  predicate AllRouted(rs: seq<Reading>) {
    forall rd :: rd in rs ==> BurnsAreRouted(rd.route, rd.remote)
  }

  lemma NetOf(rs: seq<Reading>, digestOf: DigestOf, i: nat)
    requires i < |rs|
    ensures Reports(rs, digestOf)[i].unbacked == MintedIn(rs[i]) - StrayIn(rs[i])
    ensures PendingTotal(Reports(rs, digestOf)[i].assessment.pending) == PendingIn(rs[i], digestOf)
  {
  }

  lemma BackedIsOffset(rs: seq<Reading>, rps: seq<Report>)
    requires |rps| == |rs| && forall i :: 0 <= i < |rs| ==> rps[i].unbacked == MintedIn(rs[i]) - StrayIn(rs[i])
    ensures AllBacked(rps) <==> MintsOffset(rs)
  {
    if MintsOffset(rs) {
      assert forall i :: 0 <= i < |rs| ==> rs[i] in rs;
    }
    if AllBacked(rps) {
      assert forall i :: 0 <= i < |rs| ==> rps[i] in rps;
    }
  }

  lemma OvermintedIsNet(rs: seq<Reading>, rps: seq<Report>, digestOf: DigestOf)
    requires |rps| == |rs| && forall i :: 0 <= i < |rs| ==> rps[i].unbacked == MintedIn(rs[i]) - StrayIn(rs[i])
    requires forall i :: 0 <= i < |rs| ==> PendingTotal(rps[i].assessment.pending) == PendingIn(rs[i], digestOf)
    ensures Overminted(rps) <==> NetMintsExceed(rs, digestOf)
  {
    if i :| 0 <= i < |rs| && MintedIn(rs[i]) - StrayIn(rs[i]) > PendingIn(rs[i], digestOf) {
      assert rps[i] in rps && rs[i] in rs;
    }
  }

  /** What is unbacked is the mints less the stray burns. */
  lemma UnbackedIsNet(rs: seq<Reading>, digestOf: DigestOf)
    ensures AllBacked(Reports(rs, digestOf)) <==> MintsOffset(rs)
    ensures Overminted(Reports(rs, digestOf)) <==> NetMintsExceed(rs, digestOf)
  {
    var rps := Reports(rs, digestOf);
    forall i | 0 <= i < |rs|
      ensures rps[i].unbacked == MintedIn(rs[i]) - StrayIn(rs[i]) && PendingTotal(rps[i].assessment.pending) == PendingIn(rs[i], digestOf)
    {
      NetOf(rs, digestOf, i);
    }
    BackedIsOffset(rs, rps);
    OvermintedIsNet(rs, rps, digestOf);
  }

  /** Where every burn is routed, nothing is stray and the mints stand alone. */
  lemma RoutedHasNoStray(rs: seq<Reading>, digestOf: DigestOf)
    requires AllRouted(rs)
    ensures MintsOffset(rs) <==> NoMints(rs)
    ensures NetMintsExceed(rs, digestOf) <==> MintsExceed(rs, digestOf)
  {
    forall rd | rd in rs ensures StrayIn(rd) == 0 {
      StrayIffMisaddressed(rd.route, rd.remote);
    }
  }

  lemma GateAOnReports(routes: seq<Route>, steps: seq<Step>, rs: seq<Reading>, base: ProofInput, digestOf: DigestOf)
    requires IsRun(routes, steps) && ReadFrom(routes, After(|routes|, steps), rs)
    requires Collectable(base, Reports(rs, digestOf))
    ensures var rps := Reports(rs, digestOf);
            var g := Evaluated(CollectedInput(base, rps));
            && (g.outcome == Pass <==> AllClean(rps) && AllBacked(rps))
            && (g.critical <==> AllClean(rps) && Overminted(rps))
            && (g.outcome == Fail <==> g.critical)
            && (AllClean(rps) && !Overminted(rps) && !AllBacked(rps) ==> g.outcome == Unknown)
  {
    var rps := Reports(rs, digestOf);
    RunReadingsFaithful(routes, steps, rs, digestOf);
    AnswerableIffClean(base, rps);
    GateAMeaning(CollectedInput(base, rps));
    if AllClean(rps) {
      CleanReports(base, rps);
      forall rp | rp in rps ensures PendingTotal(rp.assessment.pending) >= 0 {
        PendingNonNegative(rp.assessment.pending);
      }
    }
  }

  /** What Gate A's answer says of the mints. */
  predicate AnswersMints(g: GateAResult, closed: bool, rs: seq<Reading>, digestOf: DigestOf) {
    && (g.outcome == Pass <==> closed && MintsOffset(rs))
    && (g.critical <==> closed && NetMintsExceed(rs, digestOf))
    && (g.outcome == Fail <==> g.critical)
    && (closed && !MintsOffset(rs) && !NetMintsExceed(rs, digestOf) ==> g.outcome == Unknown)
    && (AllRouted(rs) ==> (g.outcome == Pass <==> closed && NoMints(rs)) && (g.critical <==> closed && MintsExceed(rs, digestOf)))
  }

  // Gate A on every run, in terms of what was minted and what was burnt astray. It passes iff the routes are closed and on
  // every remote the stray burns equal the mints; it is CRITICAL iff on some remote the mints exceed stray burns and pending
  // together. Where every burn is routed that reads: it passes iff nothing was minted, and is CRITICAL iff some mint total
  // exceeds what is in flight. A pass in spite of a mint is therefore exactly a mint hidden behind an equal stray burn.
  lemma GateAExactOnRuns(routes: seq<Route>, steps: seq<Step>, rs: seq<Reading>, base: ProofInput, digestOf: DigestOf)
    requires IsRun(routes, steps) && ReadFrom(routes, After(|routes|, steps), rs)
    requires Collectable(base, Reports(rs, digestOf))
    ensures AnswersMints(Evaluated(CollectedInput(base, Reports(rs, digestOf))), AllClean(Reports(rs, digestOf)), rs, digestOf)
  {
    GateAOnReports(routes, steps, rs, base, digestOf);
    UnbackedIsNet(rs, digestOf);
    if AllRouted(rs) {
      RoutedHasNoStray(rs, digestOf);
    }
  }

  // What a pass says of mints: on each remote nothing was minted exactly when every burn there is routed. So a pass excludes
  // every mint exactly when no burn is stray.
  lemma PassExcludesMintsIffRouted(routes: seq<Route>, steps: seq<Step>, rs: seq<Reading>, base: ProofInput, digestOf: DigestOf)
    requires IsRun(routes, steps) && ReadFrom(routes, After(|routes|, steps), rs)
    requires Collectable(base, Reports(rs, digestOf)) && Evaluated(CollectedInput(base, Reports(rs, digestOf))).outcome == Pass
    ensures forall rd :: rd in rs ==> (MintedIn(rd) == 0 <==> BurnsAreRouted(rd.route, rd.remote))
    ensures NoMints(rs) <==> AllRouted(rs)
  {
    GateAExactOnRuns(routes, steps, rs, base, digestOf);
    forall rd | rd in rs ensures MintedIn(rd) == 0 <==> BurnsAreRouted(rd.route, rd.remote) {
      StrayIffMisaddressed(rd.route, rd.remote);
    }
  }

  lemma HonestReport(rd: Reading, digestOf: DigestOf)
    requires Total(MintedAmount, rd.remote) == 0
    ensures var rp := ReportOf(rd, digestOf);
            && rp.unbacked <= 0 <= PendingTotal(rp.assessment.pending)
            && (rp.unbacked == 0 <==> BurnsAreRouted(rd.route, rd.remote))
  {
    PendingNonNegative(ReportOf(rd, digestOf).assessment.pending);
    StrayIffMisaddressed(rd.route, rd.remote);
  }

  lemma HonestReports(rs: seq<Reading>, digestOf: DigestOf)
    requires forall rd :: rd in rs ==> Total(MintedAmount, rd.remote) == 0
    ensures !Overminted(Reports(rs, digestOf))
    ensures AllBacked(Reports(rs, digestOf)) <==> forall rd :: rd in rs ==> BurnsAreRouted(rd.route, rd.remote)
  {
    var rps := Reports(rs, digestOf);
    forall i | 0 <= i < |rs|
      ensures rps[i] in rps && rs[i] in rs
      ensures rps[i].unbacked <= 0 <= PendingTotal(rps[i].assessment.pending)
      ensures rps[i].unbacked == 0 <==> BurnsAreRouted(rs[i].route, rs[i].remote)
    {
      HonestReport(rs[i], digestOf);
    }
  }

  /** A run without unbacked mints never raises CRITICAL, and a closed one passes iff its burns were all routed. */
  lemma HonestRunsNeverCritical(routes: seq<Route>, steps: seq<Step>, rs: seq<Reading>, base: ProofInput, digestOf: DigestOf)
    requires IsRun(routes, steps) && ReadFrom(routes, After(|routes|, steps), rs)
    requires Collectable(base, Reports(rs, digestOf))
    requires forall rd :: rd in rs ==> Total(MintedAmount, rd.remote) == 0
    ensures var rps := Reports(rs, digestOf);
            var g := Evaluated(CollectedInput(base, rps));
            && !g.critical
            && (AllClean(rps) ==> (g.outcome == Pass <==> forall rd :: rd in rs ==> BurnsAreRouted(rd.route, rd.remote)))
  {
    GateAOnReports(routes, steps, rs, base, digestOf);
    HonestReports(rs, digestOf);
  }
}
