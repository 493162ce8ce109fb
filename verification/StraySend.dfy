/** A run in which nothing is minted, the assessment is clean, and still `D - S` is not the pending total. */
module StraySend {
  import opened Collections
  import opened RouteAssessment
  import opened BridgeProtocol
  import opened Conservation
  import opened BridgeRuns

  const ROUTE := Route("h", "th", "r", "tr")
  const AT := Coordinate(1, "b", "t", 0, 1)
  const SEND := Fact("m1", TokensSent("r", "tr", 5), AT)
  const DELIVERY := Fact("m1", Delivery("h", "th", "tr", Payload(SINGLE_HOP_SEND, Some(5))), AT)
  const DONE := Fact("m1", Outcome("h"), AT)
  /** Names the home chain, but not the token home. */
  const STRAY := Fact("m2", TokensSent("h", "x", 3), AT)

  const E1 := Delivered(DELIVERY)
  const E2 := Executed(DONE, DELIVERY, 0)
  const E3 := Sent(STRAY)

  const HOME: Log := [] + [Sent(SEND)]
  const REMOTE1: Log := [] + [E1]
  const REMOTE2: Log := REMOTE1 + [E2]
  const REMOTE: Log := REMOTE2 + [E3]

  const STEPS1: seq<Step> := [] + [OnHome(Sent(SEND))]
  const STEPS2: seq<Step> := STEPS1 + [OnRemote(0, E1)]
  const STEPS3: seq<Step> := STEPS2 + [OnRemote(0, E2)]
  const STEPS: seq<Step> := STEPS3 + [OnRemote(0, E3)]

  /** Everything read off a log, after one more entry. */
  lemma Appended(log: Log, e: Entry, peer: string)
    ensures SentFacts(log + [e]) == SentFacts(log) + (if e.Sent? then [e.send] else [])
    ensures OtherFacts(log + [e]) == OtherFacts(log) + (if e.SentOther? then [e.routed] else [])
    ensures DeliveredFacts(log + [e]) == DeliveredFacts(log) + (if e.Delivered? then [e.delivery] else [])
    ensures ExecutedIds(log + [e]) == ExecutedIds(log) + (if e.Executed? then [e.outcome.messageId] else [])
    ensures ExecutedFacts(log + [e], peer) == ExecutedFacts(log, peer) +
              (if e.Executed? && Same(e.outcome.value.sourceBlockchainId, peer) then [e.outcome] else [])
    ensures TransferredBalance(ROUTE, log + [e]) == TransferredBalance(ROUTE, log) + HomeDelta(ROUTE, e)
    ensures TotalSupply(ROUTE, log + [e]) == TotalSupply(ROUTE, log) + RemoteDelta(ROUTE, e)
    ensures Total(MintedAmount, log + [e]) == Total(MintedAmount, log) + MintedAmount(e)
  {
    assert (log + [e])[..|log|] == log;
  }

  lemma Identities()
    ensures IsRouteSend(HomeToRemote, ROUTE, SEND.value) && !IsRouteSend(RemoteToHome, ROUTE, STRAY.value)
    ensures IsRouteDelivery(HomeToRemote, ROUTE, DELIVERY.value)
    ensures Same(STRAY.value.destinationBlockchainId, ROUTE.homeBlockchainId)
  {
    assert |Lower("x")| != |Lower("th")|;
  }

  lemma Read()
    ensures SentFacts(HOME) == [SEND] && OtherFacts(HOME) == [] && DeliveredFacts(HOME) == []
    ensures ExecutedFacts(HOME, "r") == [] && TransferredBalance(ROUTE, HOME) == 5
    ensures SentFacts(REMOTE2) == [] && DeliveredFacts(REMOTE1) == [DELIVERY] && ExecutedIds(REMOTE1) == []
    ensures SentFacts(REMOTE) == [STRAY] && OtherFacts(REMOTE) == [] && DeliveredFacts(REMOTE) == [DELIVERY]
    ensures ExecutedFacts(REMOTE, "h") == [DONE] && Total(MintedAmount, REMOTE) == 0
    ensures TotalSupply(ROUTE, REMOTE1) == 0 && TotalSupply(ROUTE, REMOTE2) == 5 && TotalSupply(ROUTE, REMOTE) == 2
  {
    Identities();
    Appended([], Sent(SEND), "r");
    Appended([], E1, "h");
    Appended(REMOTE1, E2, "h");
    Appended(REMOTE2, E3, "h");
  }

  lemma Takes(steps: seq<Step>, step: Step)
    ensures After(1, steps + [step]) == Take(After(1, steps), step)
    ensures IsRun([ROUTE], steps + [step]) <==> IsRun([ROUTE], steps) && Enabled([ROUTE], After(1, steps), step)
  {
    assert (steps + [step])[..|steps|] == steps;
  }

  lemma FirstStep()
    ensures IsRun([ROUTE], STEPS1) && After(1, STEPS1) == System(HOME, [[]])
  {
    Read();
    Takes([], OnHome(Sent(SEND)));
    assert Start(1).remotes == [[]];
  }

  lemma SecondStep()
    ensures IsRun([ROUTE], STEPS2) && After(1, STEPS2) == System(HOME, [REMOTE1])
  {
    FirstStep();
    Read();
    Takes(STEPS1, OnRemote(0, E1));
    Identities();
    assert SEND in SentFacts(HOME) && IsSourceOf(HomeToRemote, ROUTE, SEND, DELIVERY);
  }

  lemma ThirdStep()
    ensures IsRun([ROUTE], STEPS3) && After(1, STEPS3) == System(HOME, [REMOTE2])
  {
    SecondStep();
    Read();
    Takes(STEPS2, OnRemote(0, E2));
  }

  lemma AllSteps()
    ensures IsRun([ROUTE], STEPS) && After(1, STEPS) == System(HOME, [REMOTE])
  {
    ThirdStep();
    Takes(STEPS3, OnRemote(0, E3));
    LastEnabled();
  }

  lemma LastEnabled()
    ensures Enabled([ROUTE], System(HOME, [REMOTE2]), OnRemote(0, E3)) && Take(System(HOME, [REMOTE2]), OnRemote(0, E3)) == System(HOME, [REMOTE])
  {
    Read();
  }

  /** The equation fails at a clean cut of a run without a single unbacked mint. */
  lemma EquationCanFail(pin: Pin, digestOf: DigestOf)
    ensures IsRun([ROUTE], STEPS) && After(1, STEPS) == System(HOME, [REMOTE])
    ensures Total(MintedAmount, REMOTE) == 0
    ensures var a := AssessmentAt(ROUTE, HOME, pin, REMOTE, pin, digestOf);
            Clean(a) && TransferredBalance(ROUTE, HOME) - TotalSupply(ROUTE, REMOTE) != PendingTotal(a.pending)
  {
    AllSteps();
    Read();
    CleanCut(pin, digestOf);
  }

  lemma OneSettledMessage(v: View, digestOf: DigestOf)
    requires v.sends == [SEND] && v.deliveries == [DELIVERY] && v.executed == [DONE]
    ensures var a := Assessed(v, digestOf); Clean(a) && a.pending == []
  {
    var ids := ["m1"];
    assert IdsOf(v.sends) == ids && IdsOf(v.deliveries) == ids && IdsOf(v.executed) == ids;
    assert ids[..0] == [] && Dedup(ids) == ids;
    assert Settled(v, "m1") && |Of(v.sends, "m1")| <= 1;
  }

  lemma NoMessage(v: View, digestOf: DigestOf)
    requires v.sends == [] && v.deliveries == []
    ensures var a := Assessed(v, digestOf); Clean(a) && a.pending == []
  {
    assert IdsOf(v.sends) == [] && IdsOf(v.deliveries) == [];
  }

  lemma Filters()
    ensures RouteSends(HomeToRemote, ROUTE, [SEND]) == [SEND] && RouteSends(RemoteToHome, ROUTE, [STRAY]) == []
    ensures RouteDeliveries(HomeToRemote, ROUTE, [DELIVERY]) == [DELIVERY]
  {
    Identities();
    FilterAll((f: Fact<TokensSent>) => IsRouteSend(HomeToRemote, ROUTE, f.value), [SEND]);
    FilterNone((f: Fact<TokensSent>) => IsRouteSend(RemoteToHome, ROUTE, f.value), [STRAY]);
    FilterAll((f: Fact<Delivery>) => IsRouteDelivery(HomeToRemote, ROUTE, f.value), [DELIVERY]);
  }

  lemma NothingElse(hs: SideFacts, rs: SideFacts)
    requires hs.unsupportedSends == [] && rs.unsupportedSends == [] && rs.sent == [STRAY]
    ensures RouteUnsupported(ROUTE, hs, rs) == {}
  {
    Identities();
  }

  lemma CleanCut(pin: Pin, digestOf: DigestOf)
    ensures var a := AssessmentAt(ROUTE, HOME, pin, REMOTE, pin, digestOf); Clean(a) && a.pending == []
  {
    Read();
    Filters();
    var hs, rs := SideAt("h", "r", pin, HOME), SideAt("r", "h", pin, REMOTE);
    var v, w := ViewOf(HomeToRemote, ROUTE, hs, rs), ViewOf(RemoteToHome, ROUTE, rs, hs);
    OneSettledMessage(v, digestOf);
    NoMessage(w, digestOf);
    NothingElse(hs, rs);
    var a := AssessmentAt(ROUTE, HOME, pin, REMOTE, pin, digestOf);
    assert a == RouteAssessed(ROUTE, hs, rs, digestOf);
    assert a.unsupported == Assessed(v, digestOf).unsupported + Assessed(w, digestOf).unsupported + RouteUnsupported(ROUTE, hs, rs);
  }
}
