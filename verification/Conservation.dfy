/** For every pair of accepted cuts the balances differ by the pending total, less supply without a cause. */
module Conservation {
  import opened Collections
  import opened RouteAssessment
  import opened BridgeProtocol

  // ---- reading facts off a log

  lemma {:induction false} SentFactsPrefix(log: Log, n: nat)
    requires n <= |log|
    ensures SentFacts(log[..n]) <= SentFacts(log)
  {
    if n == |log| {
      assert log[..n] == log;
    } else {
      SentFactsPrefix(log[..|log| - 1], n);
      assert log[..|log| - 1][..n] == log[..n];
    }
  }

  lemma {:induction false} DeliveredFactsPrefix(log: Log, n: nat)
    requires n <= |log|
    ensures DeliveredFacts(log[..n]) <= DeliveredFacts(log)
  {
    if n == |log| {
      assert log[..n] == log;
    } else {
      DeliveredFactsPrefix(log[..|log| - 1], n);
      assert log[..|log| - 1][..n] == log[..n];
    }
  }

  lemma {:induction false} ExecutedIdsPrefix(log: Log, n: nat)
    requires n <= |log|
    ensures ExecutedIds(log[..n]) <= ExecutedIds(log)
  {
    if n == |log| {
      assert log[..n] == log;
    } else {
      ExecutedIdsPrefix(log[..|log| - 1], n);
      assert log[..|log| - 1][..n] == log[..n];
    }
  }

  lemma ChainOkPrefix(log: Log, n: nat)
    requires n <= |log| && ChainOk(log)
    ensures ChainOk(log[..n])
  {
    SentFactsPrefix(log, n);
    DeliveredFactsPrefix(log, n);
    ExecutedIdsPrefix(log, n);
    forall i | 0 <= i < n ensures ExecutionOfDelivery(log[..n][..i], log[..n][i]) {
      assert log[..n][..i] == log[..i];
      assert ExecutionOfDelivery(log[..i], log[i]);
    }
  }

  lemma {:induction false} ExecutedFactAt(log: Log, peer: string, i: nat)
    requires i < |log| && log[i].Executed? && Same(log[i].outcome.value.sourceBlockchainId, peer)
    ensures log[i].outcome in ExecutedFacts(log, peer)
  {
    if i < |log| - 1 {
      ExecutedFactAt(log[..|log| - 1], peer, i);
    }
  }

  lemma {:induction false} ExecutedFactFrom(log: Log, peer: string, o: Fact<Outcome>) returns (i: nat)
    requires o in ExecutedFacts(log, peer)
    ensures i < |log| && log[i].Executed? && log[i].outcome == o && Same(o.value.sourceBlockchainId, peer)
  {
    var n := |log| - 1;
    if o in ExecutedFacts(log[..n], peer) {
      i := ExecutedFactFrom(log[..n], peer, o);
    } else {
      i := n;
    }
  }

  lemma {:induction false} ExecutedIdAt(log: Log, i: nat)
    requires i < |log| && log[i].Executed?
    ensures log[i].outcome.messageId in ExecutedIds(log)
  {
    if i < |log| - 1 {
      ExecutedIdAt(log[..|log| - 1], i);
    }
  }

  lemma IdIn<T>(facts: seq<Fact<T>>, f: Fact<T>)
    requires f in facts
    ensures f.messageId in IdsOf(facts)
  {
    var i :| 0 <= i < |facts| && facts[i] == f;
    assert IdsOf(facts)[i] == f.messageId;
  }

  lemma SameIdSameFact<T>(facts: seq<Fact<T>>, f: Fact<T>, g: Fact<T>)
    requires Distinct(IdsOf(facts)) && f in facts && g in facts && f.messageId == g.messageId
    ensures f == g
  {
    var i :| 0 <= i < |facts| && facts[i] == f;
    var j :| 0 <= j < |facts| && facts[j] == g;
    assert IdsOf(facts)[i] == IdsOf(facts)[j];
  }

  lemma FactOfId<T>(facts: seq<Fact<T>>, id: string) returns (f: Fact<T>)
    requires id in IdsOf(facts)
    ensures f in facts && f.messageId == id
  {
    var i :| 0 <= i < |facts| && IdsOf(facts)[i] == id;
    f := facts[i];
  }

  lemma {:induction false} DistinctFilter<T(!new)>(p: Fact<T> -> bool, facts: seq<Fact<T>>)
    requires Distinct(IdsOf(facts))
    ensures Distinct(IdsOf(Filter(p, facts)))
  {
    if facts != [] {
      var n := |facts| - 1;
      var front := Filter(p, facts[..n]);
      assert IdsOf(facts[..n]) == IdsOf(facts)[..n];
      DistinctFilter(p, facts[..n]);
      if facts[n].messageId in IdsOf(front) {
        var f := FactOfId(front, facts[n].messageId);
        FilterMembers(p, facts[..n]);
        IdIn(facts[..n], f);
        assert false;
      }
      if p(facts[n]) {
        assert IdsOf(front + [facts[n]]) == IdsOf(front) + [facts[n].messageId];
      }
    }
  }

  // ---- sends not in a set of ids

  /** Total amount of the sends whose id is not in `done`. */
  function Remaining(sends: seq<Fact<TokensSent>>, done: set<string>): int {
    if sends == [] then 0
    else
      var last := sends[|sends| - 1];
      Remaining(sends[..|sends| - 1], done) + (if last.messageId in done then 0 else last.value.amount)
  }

  lemma {:induction false} RemainingUnaffected(sends: seq<Fact<TokensSent>>, done: set<string>, id: string)
    requires id !in IdsOf(sends)
    ensures Remaining(sends, done + {id}) == Remaining(sends, done)
  {
    if sends != [] {
      var n := |sends| - 1;
      assert IdsOf(sends[..n]) == IdsOf(sends)[..n] && sends[n].messageId == IdsOf(sends)[n];
      RemainingUnaffected(sends[..n], done, id);
    }
  }

  lemma {:induction false} RemainingDrops(sends: seq<Fact<TokensSent>>, done: set<string>, f: Fact<TokensSent>)
    requires Distinct(IdsOf(sends)) && f in sends && f.messageId !in done
    ensures Remaining(sends, done + {f.messageId}) == Remaining(sends, done) - f.value.amount
  {
    var n := |sends| - 1;
    var ids := IdsOf(sends);
    assert IdsOf(sends[..n]) == ids[..n] && sends[n].messageId == ids[n];
    if sends[n] == f {
      RemainingUnaffected(sends[..n], done, f.messageId);
    } else {
      IdIn(sends[..n], f);
      RemainingDrops(sends[..n], done, f);
    }
  }

  lemma RemainingPush(sends: seq<Fact<TokensSent>>, f: Fact<TokensSent>, done: set<string>)
    ensures Remaining(sends + [f], done) == Remaining(sends, done) + (if f.messageId in done then 0 else f.value.amount)
  {
    assert (sends + [f])[..|sends|] == sends;
  }

  lemma RouteSendsPush(dir: Direction, route: Route, facts: seq<Fact<TokensSent>>, f: Fact<TokensSent>)
    ensures IsRouteSend(dir, route, f.value) ==> RouteSends(dir, route, facts + [f]) == RouteSends(dir, route, facts) + [f]
    ensures !IsRouteSend(dir, route, f.value) ==> RouteSends(dir, route, facts + [f]) == RouteSends(dir, route, facts)
  {
    assert (facts + [f])[..|facts|] == facts;
  }

  lemma SentFactsPush(log: Log, e: Entry)
    ensures SentFacts(log + [e]) == SentFacts(log) + (if e.Sent? then [e.send] else [])
    ensures forall delta :: Total(delta, log + [e]) == Total(delta, log) + delta(e)
  {
    assert (log + [e])[..|log|] == log;
  }

  lemma SentTotalStep(dir: Direction, route: Route, log: Log, e: Entry)
    requires Total(SentAmounts(dir, route), log) == Remaining(RouteSends(dir, route, SentFacts(log)), {})
    ensures Total(SentAmounts(dir, route), log + [e]) == Remaining(RouteSends(dir, route, SentFacts(log + [e])), {})
  {
    SentFactsPush(log, e);
    if e.Sent? {
      RouteSendsPush(dir, route, SentFacts(log), e.send);
      RemainingPush(RouteSends(dir, route, SentFacts(log)), e.send, {});
    } else {
      assert SentFacts(log + [e]) == SentFacts(log);
    }
  }

  lemma {:induction false} SentTotal(dir: Direction, route: Route, log: Log)
    ensures Total(SentAmounts(dir, route), log) == Remaining(RouteSends(dir, route, SentFacts(log)), {})
  {
    if log != [] {
      var n := |log| - 1;
      SentTotal(dir, route, log[..n]);
      SentTotalStep(dir, route, log[..n], log[n]);
      assert log == log[..n] + [log[n]];
    }
  }

  // ---- executions, one direction

  /** Ids executed in this log as messages of this route. */
  function Done(dir: Direction, route: Route, log: Log): set<string> {
    if log == [] then {}
    else
      Done(dir, route, log[..|log| - 1]) +
      (match log[|log| - 1] case Executed(o, d, _) => (if IsRouteDelivery(dir, route, d.value) then {o.messageId} else {}) case _ => {})
  }

  lemma {:induction false} DoneAt(dir: Direction, route: Route, log: Log, i: nat)
    requires i < |log| && log[i].Executed? && IsRouteDelivery(dir, route, log[i].of.value)
    ensures log[i].outcome.messageId in Done(dir, route, log)
  {
    if i < |log| - 1 {
      DoneAt(dir, route, log[..|log| - 1], i);
    }
  }

  lemma {:induction false} DoneFrom(dir: Direction, route: Route, log: Log, id: string) returns (i: nat)
    requires id in Done(dir, route, log)
    ensures i < |log| && log[i].Executed? && IsRouteDelivery(dir, route, log[i].of.value) && log[i].outcome.messageId == id
  {
    var n := |log| - 1;
    if id in Done(dir, route, log[..n]) {
      i := DoneFrom(dir, route, log[..n], id);
    } else {
      i := n;
    }
  }

  /** Every execution of this route in the log credits exactly what one of the sends accounted. */
  ghost predicate Backed(dir: Direction, route: Route, sends: seq<Fact<TokensSent>>, log: Log) {
    forall i :: 0 <= i < |log| && log[i].Executed? && IsRouteDelivery(dir, route, log[i].of.value) ==>
      exists f :: f in sends && f.messageId == log[i].outcome.messageId && f.value.amount == Credit(log[i].of.value, log[i].effect)
  }

  lemma {:induction false} ExecutedTotal(dir: Direction, route: Route, sends: seq<Fact<TokensSent>>, log: Log)
    requires Distinct(IdsOf(sends)) && Distinct(ExecutedIds(log)) && Backed(dir, route, sends, log)
    ensures Total(ExecutedAmounts(dir, route), log) + Remaining(sends, Done(dir, route, log)) == Remaining(sends, {})
  {
    if log != [] {
      var n := |log| - 1;
      ExecutedIdsPrefix(log, n);
      ExecutedTotal(dir, route, sends, log[..n]);
      if log[n].Executed? && IsRouteDelivery(dir, route, log[n].of.value) {
        var id := log[n].outcome.messageId;
        var f :| f in sends && f.messageId == id && f.value.amount == Credit(log[n].of.value, log[n].effect);
        var ids := ExecutedIds(log);
        assert ids[..|ids| - 1] == ExecutedIds(log[..n]) && ids[|ids| - 1] == id;
        if id in Done(dir, route, log[..n]) {
          var i := DoneFrom(dir, route, log[..n], id);
          ExecutedIdAt(log[..n], i);
          assert false;
        }
        RemainingDrops(sends, Done(dir, route, log[..n]), f);
      } else {
        assert Done(dir, route, log) == Done(dir, route, log[..n]);
      }
    }
  }

  // ---- the assessment, one direction

  lemma {:induction false} KeysOfDistinct<T>(facts: seq<Fact<T>>)
    requires Distinct(IdsOf(facts))
    ensures Keys(facts) == IdsOf(facts)
  {
    DedupDistinct(IdsOf(facts));
  }

  lemma {:induction false} DedupDistinct(s: seq<string>)
    requires Distinct(s)
    ensures Dedup(s) == s
  {
    if s != [] {
      DedupDistinct(s[..|s| - 1]);
      assert s[|s| - 1] !in s[..|s| - 1];
    }
  }

  lemma {:induction false} OfUnique<T(!new)>(facts: seq<Fact<T>>, f: Fact<T>)
    requires Distinct(IdsOf(facts)) && f in facts
    ensures Of(facts, f.messageId) == [f]
  {
    var n := |facts| - 1;
    var p := (g: Fact<T>) => g.messageId == f.messageId;
    var ids := IdsOf(facts);
    assert IdsOf(facts[..n]) == ids[..n];
    if facts[n] == f {
      assert Of(facts[..n], f.messageId) == [];
    } else {
      IdIn(facts[..n], f);
      OfUnique(facts[..n], f);
    }
  }

  lemma {:induction false} PendingIsRemaining(v: View, done: set<string>, n: nat)
    requires n <= |v.sends| && Distinct(IdsOf(v.sends))
    requires forall id :: Settled(v, id) <==> id in done
    ensures PendingTotal(Collect(id => PendingFor(v, id), IdsOf(v.sends)[..n])) == Remaining(v.sends[..n], done)
  {
    if n != 0 {
      var ids := IdsOf(v.sends);
      PendingIsRemaining(v, done, n - 1);
      PrefixStep(v.sends, n - 1);
      PrefixStep(ids, n - 1);
      RemainingPush(v.sends[..n - 1], v.sends[n - 1], done);
      OnePending(v, done, n - 1);
      PendingTotalConcat(Collect(id => PendingFor(v, id), ids[..n - 1]), PendingFor(v, ids[n - 1]));
    }
  }

  lemma OnePending(v: View, done: set<string>, k: nat)
    requires k < |v.sends| && Distinct(IdsOf(v.sends))
    requires forall id :: Settled(v, id) <==> id in done
    ensures PendingTotal(PendingFor(v, IdsOf(v.sends)[k])) == if v.sends[k].messageId in done then 0 else v.sends[k].value.amount
  {
    OfUnique(v.sends, v.sends[k]);
    var p := PendingFor(v, IdsOf(v.sends)[k]);
    assert |p| == 1 ==> p[..0] == [];
  }

  lemma {:induction false} CollectNothing<R>(f: string -> seq<R>, keys: seq<string>)
    requires Collect(f, keys) == []
    ensures forall k :: k in keys ==> f(k) == []
  {
    if keys != [] {
      CollectNothing(f, keys[..|keys| - 1]);
    }
  }

  /** The chain the messages of a direction come from. */
  function Peer(dir: Direction, route: Route): string {
    if dir == HomeToRemote then route.homeBlockchainId else route.remoteBlockchainId
  }

  /** The view's facts are the projections of two log prefixes. */
  ghost predicate ViewAt(v: View, dir: Direction, route: Route, source: Log, destination: Log) {
    && v.direction == dir && v.route == route
    && v.sends == RouteSends(dir, route, SentFacts(source))
    && v.deliveries == RouteDeliveries(dir, route, DeliveredFacts(destination))
    && v.executed == ExecutedFacts(destination, Peer(dir, route))
  }

  lemma SettledIsDone(v: View, source: Log, destination: Log, id: string)
    requires ViewAt(v, v.direction, v.route, source, destination) && ChainOk(destination)
    ensures Settled(v, id) <==> id in Done(v.direction, v.route, destination)
  {
    var facts := DeliveredFacts(destination);
    FilterMembers((f: Fact<Delivery>) => IsRouteDelivery(v.direction, v.route, f.value), facts);
    if id in Done(v.direction, v.route, destination) {
      var i := DoneFrom(v.direction, v.route, destination, id);
      assert ExecutionOfDelivery(destination[..i], destination[i]);
      DeliveredFactsPrefix(destination, i);
      ExecutedFactAt(destination, Peer(v.direction, v.route), i);
      IdIn(v.executed, destination[i].outcome);
      IdIn(v.deliveries, destination[i].of);
    }
    if Settled(v, id) {
      var o := FactOfId(v.executed, id);
      var i := ExecutedFactFrom(destination, Peer(v.direction, v.route), o);
      assert ExecutionOfDelivery(destination[..i], destination[i]);
      DeliveredFactsPrefix(destination, i);
      var d := FactOfId(v.deliveries, id);
      SameIdSameFact(facts, d, destination[i].of);
      DoneAt(v.direction, v.route, destination, i);
    }
  }

  /** Every execution inside the destination cut credits a send inside the source cut, for its amount. */
  lemma NoOpenEdgeBacked(v: View, fullSource: Log, n: nat, destination: Log)
    requires n <= |fullSource| && ViewAt(v, v.direction, v.route, fullSource[..n], destination)
    requires ChainOk(fullSource) && ChainOk(destination) && Linked(v.direction, v.route, fullSource, destination)
    requires forall id :: Settled(v, id) ==> id in IdsOf(v.sends)
    requires UnsupportedTypes(v.direction, v.deliveries) == {}
    ensures Backed(v.direction, v.route, v.sends, destination)
  {
    var dir, route := v.direction, v.route;
    forall i | 0 <= i < |destination| && destination[i].Executed? && IsRouteDelivery(dir, route, destination[i].of.value)
      ensures exists f :: f in v.sends && f.messageId == destination[i].outcome.messageId
                          && f.value.amount == Credit(destination[i].of.value, destination[i].effect)
    {
      var d := destination[i].of;
      assert ExecutionOfDelivery(destination[..i], destination[i]);
      DeliveredFactsPrefix(destination, i);
      FilterMembers((f: Fact<Delivery>) => IsRouteDelivery(dir, route, f.value), DeliveredFacts(destination));
      assert d in v.deliveries;
      assert d.value.payload.messageType != SINGLE_HOP_SEND ==>
          UnsupportedType(dir, d.value.payload.messageType) in UnsupportedTypes(dir, v.deliveries);
      var s :| s in SentFacts(fullSource) && IsSourceOf(dir, route, s, d);
      DoneAt(dir, route, destination, i);
      SettledIsDone(v, fullSource[..n], destination, d.messageId);
      var f := FactOfId(v.sends, d.messageId);
      FilterMembers((g: Fact<TokensSent>) => IsRouteSend(dir, route, g.value), SentFacts(fullSource[..n]));
      SentFactsPrefix(fullSource, n);
      SameIdSameFact(SentFacts(fullSource), f, s);
    }
  }

  lemma PendingOf(v: View, done: set<string>, digestOf: DigestOf)
    requires Distinct(IdsOf(v.sends)) && forall id :: Settled(v, id) <==> id in done
    ensures PendingTotal(Assessed(v, digestOf).pending) == Remaining(v.sends, done)
  {
    KeysOfDistinct(v.sends);
    PendingIsRemaining(v, done, |v.sends|);
    assert v.sends[..|v.sends|] == v.sends && IdsOf(v.sends)[..|v.sends|] == IdsOf(v.sends);
  }

  lemma SettledWasSent(v: View, digestOf: DigestOf, id: string)
    requires Assessed(v, digestOf).openEdges == [] && Settled(v, id)
    ensures id in IdsOf(v.sends)
  {
    CollectNothing(i => EdgeFor(v, i), Keys(v.deliveries));
    assert id in Keys(v.deliveries);
    assert EdgeFor(v, id) == [];
  }

  lemma OneDirection(v: View, fullSource: Log, n: nat, destination: Log, digestOf: DigestOf)
    requires n <= |fullSource| && ViewAt(v, v.direction, v.route, fullSource[..n], destination)
    requires ChainOk(fullSource) && ChainOk(destination) && Linked(v.direction, v.route, fullSource, destination)
    requires Assessed(v, digestOf).openEdges == []
    requires UnsupportedTypes(v.direction, v.deliveries) == {}
    ensures Total(SentAmounts(v.direction, v.route), fullSource[..n]) - Total(ExecutedAmounts(v.direction, v.route), destination)
         == PendingTotal(Assessed(v, digestOf).pending)
  {
    var done := Done(v.direction, v.route, destination);
    forall id ensures Settled(v, id) <==> id in done {
      SettledIsDone(v, fullSource[..n], destination, id);
    }
    forall id | Settled(v, id) ensures id in IdsOf(v.sends) {
      SettledWasSent(v, digestOf, id);
    }
    ChainOkPrefix(fullSource, n);
    DistinctFilter((f: Fact<TokensSent>) => IsRouteSend(v.direction, v.route, f.value), SentFacts(fullSource[..n]));
    NoOpenEdgeBacked(v, fullSource, n, destination);
    ExecutedTotal(v.direction, v.route, v.sends, destination);
    SentTotal(v.direction, v.route, fullSource[..n]);
    PendingOf(v, done, digestOf);
  }

  // ---- both directions

  lemma {:induction false} HomeBalance(route: Route, home: Log)
    requires forall f :: f in OtherFacts(home) ==> !TouchesRemote(route, f.value)
    ensures TransferredBalance(route, home) == Total(SentAmounts(HomeToRemote, route), home) - Total(ExecutedAmounts(RemoteToHome, route), home)
  {
    if home != [] {
      var n := |home| - 1;
      HomeBalance(route, home[..n]);
      assert home[n].SentOther? ==> home[n].routed in OtherFacts(home);
    }
  }

  lemma {:induction false} RemoteBalance(route: Route, remote: Log)
    requires OtherFacts(remote) == []
    ensures TotalSupply(route, remote) ==
            Total(ExecutedAmounts(HomeToRemote, route), remote) - Total(SentAmounts(RemoteToHome, route), remote) + Unbacked(route, remote)
  {
    if remote != [] {
      RemoteBalance(route, remote[..|remote| - 1]);
    }
  }

  function AssessmentAt(route: Route, home: Log, homePin: Pin, remote: Log, remotePin: Pin, digestOf: DigestOf): Assessment {
    RouteAssessed(route, HomeSide(route, home, homePin), RemoteSide(route, remote, remotePin), digestOf)
  }

  /** The assessment sees a causally closed, single-hop route. */
  predicate Clean(a: Assessment) {
    a.openEdges == [] && a.unsupported == {}
  }

  function HomeSide(route: Route, home: Log, pin: Pin): SideFacts {
    SideAt(route.homeBlockchainId, route.remoteBlockchainId, pin, home)
  }

  function RemoteSide(route: Route, remote: Log, pin: Pin): SideFacts {
    SideAt(route.remoteBlockchainId, route.homeBlockchainId, pin, remote)
  }

  /** A clean assessment is clean in both directions, and lists what the two directions list. */
  lemma CleanBothWays(route: Route, home: Log, homePin: Pin, remote: Log, remotePin: Pin, digestOf: DigestOf)
    requires Clean(AssessmentAt(route, home, homePin, remote, remotePin, digestOf))
    ensures var hs, rs := HomeSide(route, home, homePin), RemoteSide(route, remote, remotePin);
            var v, w := ViewOf(HomeToRemote, route, hs, rs), ViewOf(RemoteToHome, route, rs, hs);
            var a := AssessmentAt(route, home, homePin, remote, remotePin, digestOf);
            && RouteUnsupported(route, hs, rs) == {}
            && Assessed(v, digestOf).openEdges == [] && Assessed(w, digestOf).openEdges == []
            && UnsupportedTypes(v.direction, v.deliveries) == {} && UnsupportedTypes(w.direction, w.deliveries) == {}
            && a.pending == Assessed(v, digestOf).pending + Assessed(w, digestOf).pending
            && a.effects == Assessed(v, digestOf).effects + Assessed(w, digestOf).effects
            && ViewAt(v, HomeToRemote, route, home, remote) && ViewAt(w, RemoteToHome, route, remote, home)
  {
    var hs, rs := HomeSide(route, home, homePin), RemoteSide(route, remote, remotePin);
    assert RouteUnsupported(route, hs, rs) <= AssessmentAt(route, home, homePin, remote, remotePin, digestOf).unsupported;
  }

  /** Cutting the logs keeps them lawful and linked. */
  lemma LinkedAtCuts(route: Route, home: Log, h: nat, remote: Log, r: nat)
    requires RouteOk(route, home, remote) && h <= |home| && r <= |remote|
    ensures ChainOk(home) && ChainOk(remote) && ChainOk(home[..h]) && ChainOk(remote[..r])
    ensures Linked(HomeToRemote, route, home, remote[..r]) && Linked(RemoteToHome, route, remote, home[..h])
  {
    ChainOkPrefix(home, h);
    ChainOkPrefix(remote, r);
    DeliveredFactsPrefix(home, h);
    DeliveredFactsPrefix(remote, r);
  }

  /** With nothing unsupported, both balances are what the two directions sent and executed. */
  lemma Balances(route: Route, home: Log, homePin: Pin, remote: Log, remotePin: Pin)
    requires RouteUnsupported(route, HomeSide(route, home, homePin), RemoteSide(route, remote, remotePin)) == {}
    ensures TransferredBalance(route, home) == Total(SentAmounts(HomeToRemote, route), home) - Total(ExecutedAmounts(RemoteToHome, route), home)
    ensures TotalSupply(route, remote) ==
            Total(ExecutedAmounts(HomeToRemote, route), remote) - Total(SentAmounts(RemoteToHome, route), remote) + Unbacked(route, remote)
  {
    var hs, rs := HomeSide(route, home, homePin), RemoteSide(route, remote, remotePin);
    forall f | f in OtherFacts(home) ensures !TouchesRemote(route, f.value) {
      assert RoutedOrSendAndCall !in RouteUnsupported(route, hs, rs);
    }
    HomeBalance(route, home);
    assert SendAndCall !in RouteUnsupported(route, hs, rs);
    RemoteBalance(route, remote);
  }

  // For every pair of logs a run can produce and every pair of cuts: if the assessment sees no open edge
  // and nothing unsupported, then D - S is the pending total less the supply without a cause.
  lemma CutsConserve(route: Route, home: Log, h: nat, homePin: Pin, remote: Log, r: nat, remotePin: Pin, digestOf: DigestOf)
    requires RouteOk(route, home, remote) && h <= |home| && r <= |remote|
    requires Clean(AssessmentAt(route, home[..h], homePin, remote[..r], remotePin, digestOf))
    ensures TransferredBalance(route, home[..h]) - TotalSupply(route, remote[..r])
         == PendingTotal(AssessmentAt(route, home[..h], homePin, remote[..r], remotePin, digestOf).pending) - Unbacked(route, remote[..r])
  {
    var hs, rs := HomeSide(route, home[..h], homePin), RemoteSide(route, remote[..r], remotePin);
    var v, w := ViewOf(HomeToRemote, route, hs, rs), ViewOf(RemoteToHome, route, rs, hs);
    CleanBothWays(route, home[..h], homePin, remote[..r], remotePin, digestOf);
    LinkedAtCuts(route, home, h, remote, r);
    OneDirection(v, home, h, remote[..r], digestOf);
    OneDirection(w, remote, r, home[..h], digestOf);
    PendingTotalConcat(Assessed(v, digestOf).pending, Assessed(w, digestOf).pending);
    Balances(route, home[..h], homePin, remote[..r], remotePin);
  }
}
