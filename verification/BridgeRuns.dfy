/** Runs of the whole bridge, and conservation at every pair of cuts of every run. */
module BridgeRuns {
  import opened Collections
  import opened RouteAssessment
  import opened BridgeProtocol
  import opened Conservation
  import opened ProofInputs

  /** `remotes[i]` is the log of the remote of `routes[i]`. */
  datatype System = System(home: Log, remotes: seq<Log>)

  datatype Step = OnHome(entry: Entry) | OnRemote(index: nat, entry: Entry)

  /** What the messenger and the transferrer on one chain allow next. */
  ghost predicate EntryOk(log: Log, e: Entry) {
    match e
    case Sent(f) => f.messageId !in IdsOf(SentFacts(log))
    case SentOther(_, _) => true
    case Delivered(f) => f.messageId !in IdsOf(DeliveredFacts(log))
    case Executed(o, d, _) =>
      && d in DeliveredFacts(log) && o.messageId == d.messageId
      && o.value.sourceBlockchainId == d.value.sourceBlockchainId
      && o.messageId !in ExecutedIds(log)
    case Failed(o) => o.messageId in IdsOf(DeliveredFacts(log)) && o.messageId !in ExecutedIds(log)
    case Minted(_) => true
  }

  /** A single-hop message of the route is delivered only if the source chain sent it. */
  ghost predicate DeliveryBacked(dir: Direction, route: Route, source: Log, e: Entry) {
    (e.Delivered? && IsRouteDelivery(dir, route, e.delivery.value) && e.delivery.value.payload.messageType == SINGLE_HOP_SEND) ==>
      exists s :: s in SentFacts(source) && IsSourceOf(dir, route, s, e.delivery)
  }

  predicate Uint256(n: int) {
    0 <= n <= MAX_UINT256
  }

  /** Balances are `uint256`: a step that would leave the range reverts. */
  ghost predicate Enabled(routes: seq<Route>, s: System, step: Step) {
    |s.remotes| == |routes| &&
    match step
    case OnHome(e) =>
      && EntryOk(s.home, e) && !e.Minted?
      && (forall i :: 0 <= i < |routes| ==>
            && DeliveryBacked(RemoteToHome, routes[i], s.remotes[i], e)
            && Uint256(TransferredBalance(routes[i], s.home + [e])))
    case OnRemote(i, e) =>
      && i < |routes| && EntryOk(s.remotes[i], e)
      && DeliveryBacked(HomeToRemote, routes[i], s.home, e)
      && Uint256(TotalSupply(routes[i], s.remotes[i] + [e]))
  }

  function Take(s: System, step: Step): System {
    match step
    case OnHome(e) => s.(home := s.home + [e])
    case OnRemote(i, e) => if i < |s.remotes| then s.(remotes := s.remotes[i := s.remotes[i] + [e]]) else s
  }

  function Start(remotes: nat): System {
    System([], seq(remotes, _ => []))
  }

  function After(remotes: nat, steps: seq<Step>): System {
    if steps == [] then Start(remotes) else Take(After(remotes, steps[..|steps| - 1]), steps[|steps| - 1])
  }

  ghost predicate IsRun(routes: seq<Route>, steps: seq<Step>) {
    steps == [] ||
    (IsRun(routes, steps[..|steps| - 1]) && Enabled(routes, After(|routes|, steps[..|steps| - 1]), steps[|steps| - 1]))
  }

  ghost predicate SystemOk(routes: seq<Route>, s: System) {
    && |s.remotes| == |routes|
    && ChainOk(s.home)
    && (forall i :: 0 <= i < |routes| ==> RouteOk(routes[i], s.home, s.remotes[i]))
    && (forall i, n :: 0 <= i < |routes| && 0 <= n <= |s.home| ==> Uint256(TransferredBalance(routes[i], s.home[..n])))
    && (forall i, n :: 0 <= i < |routes| && 0 <= n <= |s.remotes[i]| ==> Uint256(TotalSupply(routes[i], s.remotes[i][..n])))
  }

  // ---- every step keeps the invariants

  lemma ExtendedIds<T>(facts: seq<Fact<T>>, f: Fact<T>)
    requires Distinct(IdsOf(facts)) && f.messageId !in IdsOf(facts)
    ensures Distinct(IdsOf(facts + [f]))
  {
    assert IdsOf(facts + [f]) == IdsOf(facts) + [f.messageId];
  }

  lemma AppendChainOk(log: Log, e: Entry)
    requires ChainOk(log) && EntryOk(log, e)
    ensures ChainOk(log + [e])
  {
    var log' := log + [e];
    assert log'[..|log|] == log;
    match e {
      case Sent(f) => ExtendedIds(SentFacts(log), f);
      case Delivered(f) => ExtendedIds(DeliveredFacts(log), f);
      case _ =>
    }
    assert e.Sent? || SentFacts(log') == SentFacts(log);
    assert e.Delivered? || DeliveredFacts(log') == DeliveredFacts(log);
    assert e.Executed? || ExecutedIds(log') == ExecutedIds(log);
    forall i | 0 <= i < |log'| ensures ExecutionOfDelivery(log'[..i], log'[i]) {
      if i < |log| {
        assert log'[..i] == log[..i] && ExecutionOfDelivery(log[..i], log[i]);
      }
    }
  }

  lemma LinkedSourceGrows(dir: Direction, route: Route, source: Log, destination: Log, e: Entry)
    requires Linked(dir, route, source, destination)
    ensures Linked(dir, route, source + [e], destination)
  {
    var source' := source + [e];
    assert source'[..|source|] == source;
    forall d | d in DeliveredFacts(destination) && IsRouteDelivery(dir, route, d.value) && d.value.payload.messageType == SINGLE_HOP_SEND
      ensures exists s :: s in SentFacts(source') && IsSourceOf(dir, route, s, d)
    {
      var s :| s in SentFacts(source) && IsSourceOf(dir, route, s, d);
      assert s in SentFacts(source');
    }
  }

  lemma LinkedDestinationGrows(dir: Direction, route: Route, source: Log, destination: Log, e: Entry)
    requires Linked(dir, route, source, destination) && DeliveryBacked(dir, route, source, e)
    ensures Linked(dir, route, source, destination + [e])
  {
    assert (destination + [e])[..|destination|] == destination;
  }

  lemma HomeStep(routes: seq<Route>, s: System, e: Entry)
    requires SystemOk(routes, s) && Enabled(routes, s, OnHome(e))
    ensures SystemOk(routes, Take(s, OnHome(e)))
  {
    var home' := s.home + [e];
    AppendChainOk(s.home, e);
    forall i | 0 <= i < |routes| ensures RouteOk(routes[i], home', s.remotes[i]) {
      assert RouteOk(routes[i], s.home, s.remotes[i]);
      LinkedSourceGrows(HomeToRemote, routes[i], s.home, s.remotes[i], e);
      LinkedDestinationGrows(RemoteToHome, routes[i], s.remotes[i], s.home, e);
    }
    forall i, n | 0 <= i < |routes| && 0 <= n <= |home'| ensures Uint256(TransferredBalance(routes[i], home'[..n])) {
      if n == |home'| {
        assert home'[..n] == home';
      } else {
        assert home'[..n] == s.home[..n];
      }
    }
  }

  lemma RemoteStep(routes: seq<Route>, s: System, k: nat, e: Entry)
    requires SystemOk(routes, s) && Enabled(routes, s, OnRemote(k, e))
    ensures SystemOk(routes, Take(s, OnRemote(k, e)))
  {
    var remote' := s.remotes[k] + [e];
    var remotes' := s.remotes[k := remote'];
    assert RouteOk(routes[k], s.home, s.remotes[k]);
    AppendChainOk(s.remotes[k], e);
    LinkedDestinationGrows(HomeToRemote, routes[k], s.home, s.remotes[k], e);
    LinkedSourceGrows(RemoteToHome, routes[k], s.remotes[k], s.home, e);
    forall i | 0 <= i < |routes| ensures RouteOk(routes[i], s.home, remotes'[i]) {
      assert i != k ==> RouteOk(routes[i], s.home, s.remotes[i]);
    }
    forall i, n | 0 <= i < |routes| && 0 <= n <= |remotes'[i]| ensures Uint256(TotalSupply(routes[i], remotes'[i][..n])) {
      if i == k && n == |remote'| {
        assert remote'[..n] == remote';
      } else if i == k {
        assert remote'[..n] == s.remotes[k][..n];
      }
    }
  }

  lemma {:induction false} RunsAreOk(routes: seq<Route>, steps: seq<Step>)
    requires IsRun(routes, steps)
    ensures SystemOk(routes, After(|routes|, steps))
  {
    if steps != [] {
      var n := |steps| - 1;
      RunsAreOk(routes, steps[..n]);
      match steps[n]
      case OnHome(e) => HomeStep(routes, After(|routes|, steps[..n]), e);
      case OnRemote(k, e) => RemoteStep(routes, After(|routes|, steps[..n]), k, e);
    }
  }

  // ---- conservation over runs

  /** Where one route is read: a prefix of the home log, a prefix of its remote's log, and their pins. */
  datatype Cut = Cut(home: nat, remote: nat, homePin: Pin, remotePin: Pin)

  ghost predicate IsCut(s: System, i: nat, c: Cut) {
    i < |s.remotes| && c.home <= |s.home| && c.remote <= |s.remotes[i]|
  }

  function CutAssessment(routes: seq<Route>, s: System, i: nat, c: Cut, digestOf: DigestOf): Assessment
    requires i < |routes| && i < |s.remotes| && c.home <= |s.home| && c.remote <= |s.remotes[i]|
  {
    AssessmentAt(routes[i], s.home[..c.home], c.homePin, s.remotes[i][..c.remote], c.remotePin, digestOf)
  }

  ghost predicate IsCleanCut(routes: seq<Route>, s: System, i: nat, c: Cut, digestOf: DigestOf) {
    i < |routes| && IsCut(s, i, c) && Clean(CutAssessment(routes, s, i, c, digestOf))
  }

  /** Conservation over every run and every pair of cuts. */
  lemma RunsConserve(routes: seq<Route>, steps: seq<Step>, i: nat, c: Cut, digestOf: DigestOf)
    requires IsRun(routes, steps) && i < |routes|
    requires IsCleanCut(routes, After(|routes|, steps), i, c, digestOf)
    ensures var s := After(|routes|, steps);
            TransferredBalance(routes[i], s.home[..c.home]) - TotalSupply(routes[i], s.remotes[i][..c.remote])
            == PendingTotal(CutAssessment(routes, s, i, c, digestOf).pending) - Unbacked(routes[i], s.remotes[i][..c.remote])
  {
    RunsAreOk(routes, steps);
    var s := After(|routes|, steps);
    CutsConserve(routes[i], s.home, c.home, c.homePin, s.remotes[i], c.remote, c.remotePin, digestOf);
  }

  // ---- when the equation itself holds

  /** Every burn inside the cut names the token home of the route, or burns nothing. */
  predicate BurnsAreRouted(route: Route, remote: Log) {
    forall f :: f in SentFacts(remote) ==> IsRouteSend(RemoteToHome, route, f.value) || f.value.amount == 0
  }

  lemma {:induction false} StrayIffMisaddressed(route: Route, remote: Log)
    ensures Total(StrayAmounts(route), remote) >= 0
    ensures Total(StrayAmounts(route), remote) == 0 <==> BurnsAreRouted(route, remote)
  {
    if remote != [] {
      var n := |remote| - 1;
      StrayIffMisaddressed(route, remote[..n]);
      if remote[n].Sent? {
        assert remote[n].send in SentFacts(remote);
        assert forall f :: f in SentFacts(remote) <==> f in SentFacts(remote[..n]) || f == remote[n].send;
      } else {
        assert SentFacts(remote) == SentFacts(remote[..n]);
      }
    }
  }

  // With no unbacked mint inside the cut, `D - S = P` holds exactly when every burn inside it was addressed to
  // the token home. A send to the home chain under another address burns supply that the assessment counts
  // neither as pending nor as unsupported.
  lemma EquationIffBurnsRouted(routes: seq<Route>, steps: seq<Step>, i: nat, c: Cut, digestOf: DigestOf)
    requires IsRun(routes, steps) && i < |routes|
    requires IsCleanCut(routes, After(|routes|, steps), i, c, digestOf)
    requires Total(MintedAmount, After(|routes|, steps).remotes[i][..c.remote]) == 0
    ensures var s := After(|routes|, steps);
            TransferredBalance(routes[i], s.home[..c.home]) - TotalSupply(routes[i], s.remotes[i][..c.remote])
            == PendingTotal(CutAssessment(routes, s, i, c, digestOf).pending)
            <==> BurnsAreRouted(routes[i], s.remotes[i][..c.remote])
  {
    RunsConserve(routes, steps, i, c, digestOf);
    StrayIffMisaddressed(routes[i], After(|routes|, steps).remotes[i][..c.remote]);
  }
}
