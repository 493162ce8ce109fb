/** One canonical ERC20 route: from the facts of two cut logs to pending, effects and open edges. */
module RouteAssessment {
  import opened Collections

  datatype Coordinate = Coordinate(blockNumber: int, blockHash: string, txHash: string, logIndex: int, blockTimestamp: int)

  /** A decoded event. Every event kind this model reads carries a message id. */
  datatype Fact<T> = Fact(messageId: string, value: T, at: Coordinate)

  datatype TokensSent = TokensSent(
    destinationBlockchainId: string,
    destinationTransferrer: string,
    amount: nat)

  datatype TokensRouted = TokensRouted(
    destinationBlockchainId: string,
    destinationTransferrer: string)

  datatype MessageType = REGISTER_REMOTE | SINGLE_HOP_SEND | SINGLE_HOP_CALL | MULTI_HOP_SEND | MULTI_HOP_CALL

  datatype Payload = Payload(messageType: MessageType, singleHopAmount: Option<nat>)

  datatype Delivery = Delivery(
    sourceBlockchainId: string,
    originSender: string,
    destinationAddress: string,
    payload: Payload)

  /** A messenger outcome: the chain the message came from. */
  datatype Outcome = Outcome(sourceBlockchainId: string)

  datatype Pin = Pin(blockNumber: int, blockHash: string, timestamp: int)

  datatype SideFacts = SideFacts(
    blockchainId: string,
    pin: Pin,
    sent: seq<Fact<TokensSent>>,
    unsupportedSends: seq<Fact<TokensRouted>>,
    delivered: seq<Fact<Delivery>>,
    executed: seq<Fact<Outcome>>,
    failed: seq<Fact<Outcome>>)

  datatype Route = Route(
    homeBlockchainId: string,
    tokenHome: string,
    remoteBlockchainId: string,
    remoteAddress: string)

  datatype Direction = HomeToRemote | RemoteToHome

  datatype PendingEnvelope = PendingEnvelope(
    messageKey: string,
    direction: Direction,
    amount: nat,
    ageSeconds: nat,
    remoteBlockchainId: string,
    remoteAddress: string)

  datatype CreditedEffect = CreditedEffect(
    messageKey: string,
    remoteBlockchainId: string,
    remoteAddress: string,
    amount: nat,
    hasUniqueAuthorisedSource: bool,
    routeMatchesSource: bool,
    duplicateEffect: bool,
    causalSourceFact: Option<string>)

  datatype OpenEdge = OpenEdge(direction: Direction, messageId: string)

  datatype Unsupported =
    | UnsupportedType(direction: Direction, messageType: MessageType)
    | DuplicateSend(direction: Direction, messageId: string)
    | RoutedOrSendAndCall
    | MultiHop
    | SendAndCall

  datatype MessageState = SOURCE_ACCOUNTED | DELIVERED | EXECUTED_FAILED | EXECUTED_SUCCESS

  datatype MessageTrace = MessageTrace(
    direction: Direction,
    messageId: string,
    state: MessageState,
    source: Option<Fact<TokensSent>>,
    delivery: Option<Fact<Delivery>>,
    failures: seq<Fact<Outcome>>,
    executions: seq<Fact<Outcome>>)

  /** `unsupported` is reported sorted and without repeats, so it is modelled as a set. */
  datatype Assessment = Assessment(
    pending: seq<PendingEnvelope>,
    effects: seq<CreditedEffect>,
    openEdges: seq<OpenEdge>,
    unsupported: set<Unsupported>,
    messages: seq<MessageTrace>)

  type DigestOf = (Coordinate, string) -> string

  // ---- identity of chains and contracts

  predicate IsRouteSend(dir: Direction, route: Route, e: TokensSent) {
    match dir
    case HomeToRemote =>
      Same(e.destinationBlockchainId, route.remoteBlockchainId) && Same(e.destinationTransferrer, route.remoteAddress)
    case RemoteToHome =>
      Same(e.destinationBlockchainId, route.homeBlockchainId) && Same(e.destinationTransferrer, route.tokenHome)
  }

  predicate IsRouteDelivery(dir: Direction, route: Route, m: Delivery) {
    match dir
    case HomeToRemote =>
      && Same(m.sourceBlockchainId, route.homeBlockchainId)
      && Same(m.originSender, route.tokenHome)
      && Same(m.destinationAddress, route.remoteAddress)
    case RemoteToHome =>
      && Same(m.sourceBlockchainId, route.remoteBlockchainId)
      && Same(m.originSender, route.remoteAddress)
      && Same(m.destinationAddress, route.tokenHome)
  }

  // ---- grouping by message

  function IdsOf<T>(facts: seq<Fact<T>>): (r: seq<string>)
    ensures |r| == |facts| && forall i :: 0 <= i < |facts| ==> r[i] == facts[i].messageId
  {
    Map((f: Fact<T>) => f.messageId, facts)
  }

  /** Message ids in order of first appearance: the iteration order of the grouped map. */
  function Keys<T>(facts: seq<Fact<T>>): seq<string> {
    Dedup(IdsOf(facts))
  }

  /** The facts of one message, in order. */
  function Of<T(!new)>(facts: seq<Fact<T>>, id: string): (r: seq<Fact<T>>)
    ensures r == [] <==> id !in IdsOf(facts)
  {
    var r := Filter((f: Fact<T>) => f.messageId == id, facts);
    OfMembers(facts, id, r);
    r
  }

  lemma OfMembers<T(!new)>(facts: seq<Fact<T>>, id: string, r: seq<Fact<T>>)
    requires r == Filter((f: Fact<T>) => f.messageId == id, facts)
    ensures forall f :: f in r <==> f in facts && f.messageId == id
    ensures r == [] <==> id !in IdsOf(facts)
  {
    FilterMembers((f: Fact<T>) => f.messageId == id, facts);
    if r != [] {
      assert r[0] in facts;
    }
    if i :| 0 <= i < |facts| && facts[i].messageId == id {
      assert facts[i] in r;
    }
  }

  lemma KeysStep<T>(facts: seq<Fact<T>>, i: nat)
    requires i < |facts|
    ensures Keys(facts[..i + 1]) ==
            if facts[i].messageId in IdsOf(facts[..i]) then Keys(facts[..i])
            else Keys(facts[..i]) + [facts[i].messageId]
  {
    var ids := IdsOf(facts[..i + 1]);
    assert ids[..i] == IdsOf(facts[..i]);
  }

  lemma OfStep<T(!new)>(facts: seq<Fact<T>>, i: nat, id: string)
    requires i < |facts|
    ensures Of(facts[..i + 1], id) == Of(facts[..i], id) + (if facts[i].messageId == id then [facts[i]] else [])
  {
    PrefixStep(facts, i);
  }

  /** A JavaScript `Map<string, Fact[]>`: insertion-ordered keys and the list under each. */
  datatype Grouped<T> = Grouped(keys: seq<string>, lists: map<string, seq<Fact<T>>>) {
    function Get(id: string): seq<Fact<T>> {
      if id in lists then lists[id] else []
    }

    /** Push onto the existing list, or start a new one under a new key. */
    function Push(f: Fact<T>): Grouped<T> {
      if f.messageId in lists then Grouped(keys, lists[f.messageId := lists[f.messageId] + [f]])
      else Grouped(keys + [f.messageId], lists[f.messageId := [f]])
    }
  }

  /** The grouped map holds exactly the given facts. */
  ghost predicate Grouping<T(!new)>(g: Grouped<T>, facts: seq<Fact<T>>) {
    && g.keys == Keys(facts)
    && (forall id :: id in g.lists <==> id in IdsOf(facts))
    && (forall id :: g.Get(id) == Of(facts, id))
  }

  lemma IdsStep<T>(facts: seq<Fact<T>>, i: nat, id: string)
    requires i < |facts|
    ensures id in IdsOf(facts[..i + 1]) <==> id in IdsOf(facts[..i]) || id == facts[i].messageId
  {
    assert IdsOf(facts[..i + 1]) == IdsOf(facts[..i]) + [facts[i].messageId];
  }

  lemma GroupingStep<T(!new)>(g: Grouped<T>, facts: seq<Fact<T>>, i: nat)
    requires i < |facts| && Grouping(g, facts[..i])
    ensures Grouping(g.Push(facts[i]), facts[..i + 1])
  {
    var f, next := facts[i], g.Push(facts[i]);
    KeysStep(facts, i);
    forall id ensures id in next.lists <==> id in IdsOf(facts[..i + 1]) {
      PushLists(g, f, id);
      IdsStep(facts, i, id);
    }
    forall id ensures next.Get(id) == Of(facts[..i + 1], id) {
      PushLists(g, f, id);
      OfStep(facts, i, id);
      assert g.Get(id) == Of(facts[..i], id);
    }
  }

  lemma PushLists<T>(g: Grouped<T>, f: Fact<T>, id: string)
    ensures id in g.Push(f).lists <==> id in g.lists || id == f.messageId
    ensures g.Push(f).Get(id) == g.Get(id) + (if f.messageId == id then [f] else [])
  {
  }

  method ByMessage<T(!new)>(facts: seq<Fact<T>>) returns (out: Grouped<T>)
    ensures Grouping(out, facts)
  {
    out := Grouped([], map[]);
    for i := 0 to |facts|
      invariant Grouping(out, facts[..i])
    {
      GroupingStep(out, facts, i);
      out := out.Push(facts[i]);
    }
    assert facts[..|facts|] == facts;
  }

  // ---- one direction: what each message id contributes

  /** The facts one direction of a route looks at, inside the two cuts. */
  datatype View = View(
    direction: Direction,
    route: Route,
    sourceChain: string,
    sourceTime: int,
    sends: seq<Fact<TokensSent>>,
    deliveries: seq<Fact<Delivery>>,
    executed: seq<Fact<Outcome>>,
    failed: seq<Fact<Outcome>>)

  function RouteSends(dir: Direction, route: Route, sent: seq<Fact<TokensSent>>): seq<Fact<TokensSent>> {
    Filter((f: Fact<TokensSent>) => IsRouteSend(dir, route, f.value), sent)
  }

  function RouteDeliveries(dir: Direction, route: Route, delivered: seq<Fact<Delivery>>): seq<Fact<Delivery>> {
    Filter((f: Fact<Delivery>) => IsRouteDelivery(dir, route, f.value), delivered)
  }

  function ViewOf(dir: Direction, route: Route, source: SideFacts, destination: SideFacts): View {
    View(dir, route, source.blockchainId, source.pin.timestamp,
         RouteSends(dir, route, source.sent), RouteDeliveries(dir, route, destination.delivered),
         destination.executed, destination.failed)
  }

  /** Executed inside the destination cut, as a message of this route. */
  predicate Settled(v: View, id: string) {
    id in IdsOf(v.executed) && id in IdsOf(v.deliveries)
  }

  function First<T>(s: seq<T>): Option<T> {
    if s == [] then None else Some(s[0])
  }

  function UniqueSource(v: View, id: string): Option<Fact<TokensSent>> {
    var source := Of(v.sends, id);
    if |source| == 1 then Some(source[0]) else None
  }

  function EdgeFor(v: View, id: string): seq<OpenEdge> {
    if Settled(v, id) && id !in IdsOf(v.sends) then [OpenEdge(v.direction, id)] else []
  }

  function EffectFor(v: View, id: string, digestOf: DigestOf): seq<CreditedEffect> {
    if !Settled(v, id) || id !in IdsOf(v.sends) then []
    else
      match Of(v.deliveries, id)[0].value.payload.singleHopAmount
      case None => []
      case Some(amount) =>
        var source := UniqueSource(v, id);
        [CreditedEffect(
           id, v.route.remoteBlockchainId, v.route.remoteAddress, amount,
           |Of(v.sends, id)| == 1,
           source.Some? && source.value.value.amount == amount,
           |Of(v.executed, id)| > 1 || |Of(v.deliveries, id)| > 1,
           if source.None? then None else Some(digestOf(source.value.at, v.sourceChain)))]
  }

  function ExecutedTraceFor(v: View, id: string): seq<MessageTrace> {
    if !Settled(v, id) then []
    else
      [MessageTrace(v.direction, id, EXECUTED_SUCCESS, UniqueSource(v, id),
                    First(Of(v.deliveries, id)), Of(v.failed, id), Of(v.executed, id))]
  }

  function PendingFor(v: View, id: string): seq<PendingEnvelope> {
    var facts := Of(v.sends, id);
    if facts == [] || Settled(v, id) then []
    else
      var age := v.sourceTime - facts[0].at.blockTimestamp;
      [PendingEnvelope(id, v.direction, facts[0].value.amount, if age < 0 then 0 else age,
                       v.route.remoteBlockchainId, v.route.remoteAddress)]
  }

  function PendingTraceFor(v: View, id: string): seq<MessageTrace> {
    var facts := Of(v.sends, id);
    if facts == [] || Settled(v, id) then []
    else
      var delivery := First(Of(v.deliveries, id));
      var failures := Of(v.failed, id);
      var state := if failures != [] then EXECUTED_FAILED else if delivery.Some? then DELIVERED else SOURCE_ACCOUNTED;
      [MessageTrace(v.direction, id, state, Some(facts[0]), delivery, failures, [])]
  }

  /** Concatenation of what each key contributes, in key order. */
  function Collect<R>(f: string -> seq<R>, keys: seq<string>): seq<R> {
    if keys == [] then [] else Collect(f, keys[..|keys| - 1]) + f(keys[|keys| - 1])
  }

  function UnsupportedTypes(dir: Direction, deliveries: seq<Fact<Delivery>>): set<Unsupported> {
    set f | f in deliveries && f.value.payload.messageType != SINGLE_HOP_SEND
      :: UnsupportedType(dir, f.value.payload.messageType)
  }

  function DuplicateFor(v: View, id: string): seq<Unsupported> {
    if |Of(v.sends, id)| > 1 then [DuplicateSend(v.direction, id)] else []
  }

  function Assessed(v: View, digestOf: DigestOf): Assessment {
    Assessment(
      Collect(id => PendingFor(v, id), Keys(v.sends)),
      Collect(id => EffectFor(v, id, digestOf), Keys(v.deliveries)),
      Collect(id => EdgeFor(v, id), Keys(v.deliveries)),
      UnsupportedTypes(v.direction, v.deliveries) + ToSet(Collect(id => DuplicateFor(v, id), Keys(v.sends))),
      Collect(id => ExecutedTraceFor(v, id), Keys(v.deliveries)) + Collect(id => PendingTraceFor(v, id), Keys(v.sends)))
  }

  /** The payload loop: every delivered message of this route that is not a single-hop send. */
  method CollectUnsupportedTypes(dir: Direction, deliveries: seq<Fact<Delivery>>) returns (unsupported: set<Unsupported>)
    ensures unsupported == UnsupportedTypes(dir, deliveries)
  {
    unsupported := {};
    for i := 0 to |deliveries|
      invariant unsupported == UnsupportedTypes(dir, deliveries[..i])
    {
      var messageType := deliveries[i].value.payload.messageType;
      PrefixStep(deliveries, i);
      if messageType != SINGLE_HOP_SEND {
        unsupported := unsupported + {UnsupportedType(dir, messageType)};
      }
    }
    assert deliveries[..|deliveries|] == deliveries;
  }

  /** The four grouped maps of one direction. */
  datatype Indexes = Indexes(
    sends: Grouped<TokensSent>,
    deliveries: Grouped<Delivery>,
    executed: Grouped<Outcome>,
    failed: Grouped<Outcome>)

  ghost predicate Indexed(x: Indexes, v: View) {
    && Grouping(x.sends, v.sends)
    && Grouping(x.deliveries, v.deliveries)
    && Grouping(x.executed, v.executed)
    && Grouping(x.failed, v.failed)
  }

  method AssessDirection(dir: Direction, route: Route, source: SideFacts, destination: SideFacts, digestOf: DigestOf)
    returns (a: Assessment)
    ensures a == Assessed(ViewOf(dir, route, source, destination), digestOf)
  {
    var v := ViewOf(dir, route, source, destination);
    var sendsById := ByMessage(v.sends);
    var deliveredById := ByMessage(v.deliveries);
    var executedById := ByMessage(v.executed);
    var failedById := ByMessage(v.failed);
    var x := Indexes(sendsById, deliveredById, executedById, failedById);
    var unsupported := CollectUnsupportedTypes(dir, v.deliveries);
    var effects, openEdges, executedTraces := ScanDeliveries(v, x, digestOf);
    var pending, duplicates, pendingTraces := ScanSends(v, x);
    a := Assessment(pending, effects, openEdges, unsupported + ToSet(duplicates), executedTraces + pendingTraces);
  }

  /** What the deliveries seen at the destination say: credits, executions without a source, and traces. */
  method ScanDeliveries(v: View, x: Indexes, digestOf: DigestOf)
    returns (effects: seq<CreditedEffect>, openEdges: seq<OpenEdge>, traces: seq<MessageTrace>)
    requires Indexed(x, v)
    ensures effects == Collect(id => EffectFor(v, id, digestOf), Keys(v.deliveries))
    ensures openEdges == Collect(id => EdgeFor(v, id), Keys(v.deliveries))
    ensures traces == Collect(id => ExecutedTraceFor(v, id), Keys(v.deliveries))
  {
    effects, openEdges, traces := [], [], [];
    var keys := x.deliveries.keys;
    for i := 0 to |keys|
      invariant effects == Collect(id => EffectFor(v, id, digestOf), keys[..i])
      invariant openEdges == Collect(id => EdgeFor(v, id), keys[..i])
      invariant traces == Collect(id => ExecutedTraceFor(v, id), keys[..i])
    {
      PrefixStep(keys, i);
      var effect, edge, trace := ExecutedDelivery(v, x, keys[i], digestOf);
      effects, openEdges, traces := effects + effect, openEdges + edge, traces + trace;
    }
    assert keys[..|keys|] == keys;
  }

  /** Every send inside the source cut that did not execute inside the destination cut is in flight. */
  method ScanSends(v: View, x: Indexes)
    returns (pending: seq<PendingEnvelope>, duplicates: seq<Unsupported>, traces: seq<MessageTrace>)
    requires Indexed(x, v)
    ensures pending == Collect(id => PendingFor(v, id), Keys(v.sends))
    ensures duplicates == Collect(id => DuplicateFor(v, id), Keys(v.sends))
    ensures traces == Collect(id => PendingTraceFor(v, id), Keys(v.sends))
  {
    pending, duplicates, traces := [], [], [];
    var keys := x.sends.keys;
    for i := 0 to |keys|
      invariant pending == Collect(id => PendingFor(v, id), keys[..i])
      invariant duplicates == Collect(id => DuplicateFor(v, id), keys[..i])
      invariant traces == Collect(id => PendingTraceFor(v, id), keys[..i])
    {
      PrefixStep(keys, i);
      var envelope, duplicate, trace := InFlightSend(v, x, keys[i]);
      pending, duplicates, traces := pending + envelope, duplicates + duplicate, traces + trace;
    }
    assert keys[..|keys|] == keys;
  }

  /** What one delivered message pushes onto effects, open edges and messages. */
  method ExecutedDelivery(v: View, x: Indexes, messageId: string, digestOf: DigestOf)
    returns (effect: seq<CreditedEffect>, edge: seq<OpenEdge>, trace: seq<MessageTrace>)
    requires Indexed(x, v) && messageId in Keys(v.deliveries)
    ensures effect == EffectFor(v, messageId, digestOf)
    ensures edge == EdgeFor(v, messageId)
    ensures trace == ExecutedTraceFor(v, messageId)
  {
    effect, edge, trace := [], [], [];
    var executions, failures, sources, delivered := x.executed.Get(messageId), x.failed.Get(messageId), x.sends.Get(messageId), x.deliveries.Get(messageId);
    if executions == [] {
      return;
    }
    var delivery := First(delivered);
    var amount := if delivery.None? then None else delivery.value.value.payload.singleHopAmount;
    var sourceFact := if |sources| == 1 then Some(sources[0]) else None;
    if |sources| == 0 {
      edge := [OpenEdge(v.direction, messageId)];
    } else if amount.Some? {
      effect := [CreditedEffect(
        messageId, v.route.remoteBlockchainId, v.route.remoteAddress, amount.value,
        |sources| == 1,
        sourceFact.Some? && sourceFact.value.value.amount == amount.value,
        |executions| > 1 || |delivered| > 1,
        if sourceFact.None? then None else Some(digestOf(sourceFact.value.at, v.sourceChain)))];
    }
    trace := [MessageTrace(v.direction, messageId, EXECUTED_SUCCESS, sourceFact, delivery, failures, executions)];
  }

  /** What one source message pushes onto pending, unsupported and messages. */
  method InFlightSend(v: View, x: Indexes, messageId: string)
    returns (envelope: seq<PendingEnvelope>, duplicate: seq<Unsupported>, trace: seq<MessageTrace>)
    requires Indexed(x, v) && messageId in Keys(v.sends)
    ensures envelope == PendingFor(v, messageId)
    ensures duplicate == DuplicateFor(v, messageId)
    ensures trace == PendingTraceFor(v, messageId)
  {
    envelope, trace := [], [];
    var facts := x.sends.Get(messageId);
    duplicate := if |facts| > 1 then [DuplicateSend(v.direction, messageId)] else [];
    if x.executed.Get(messageId) != [] && messageId in x.deliveries.lists {
      return;
    }
    var fact := facts[0];
    var delivery, failures := First(x.deliveries.Get(messageId)), x.failed.Get(messageId);
    var age := v.sourceTime - fact.at.blockTimestamp;
    envelope := [PendingEnvelope(messageId, v.direction, fact.value.amount, if age < 0 then 0 else age,
                                 v.route.remoteBlockchainId, v.route.remoteAddress)];
    var state := if failures != [] then EXECUTED_FAILED else if delivery.Some? then DELIVERED else SOURCE_ACCOUNTED;
    trace := [MessageTrace(v.direction, messageId, state, Some(fact), delivery, failures, [])];
  }

  // ---- both directions

  predicate TouchesRemote(route: Route, e: TokensRouted) {
    Same(e.destinationBlockchainId, route.remoteBlockchainId) && Same(e.destinationTransferrer, route.remoteAddress)
  }

  function RouteUnsupported(route: Route, home: SideFacts, remote: SideFacts): set<Unsupported> {
    (if exists f :: f in home.unsupportedSends && TouchesRemote(route, f.value) then {RoutedOrSendAndCall} else {}) +
    (if exists f :: f in remote.sent && !Same(f.value.destinationBlockchainId, route.homeBlockchainId) then {MultiHop} else {}) +
    (if remote.unsupportedSends != [] then {SendAndCall} else {})
  }

  function RouteAssessed(route: Route, home: SideFacts, remote: SideFacts, digestOf: DigestOf): Assessment {
    var h2r := Assessed(ViewOf(HomeToRemote, route, home, remote), digestOf);
    var r2h := Assessed(ViewOf(RemoteToHome, route, remote, home), digestOf);
    Assessment(
      h2r.pending + r2h.pending,
      h2r.effects + r2h.effects,
      h2r.openEdges + r2h.openEdges,
      h2r.unsupported + r2h.unsupported + RouteUnsupported(route, home, remote),
      h2r.messages + r2h.messages)
  }

  /** The route-wide loops: routed or send-and-call traffic from home, multi-hop sends from the remote. */
  method CollectRouteUnsupported(route: Route, home: SideFacts, remote: SideFacts) returns (u: set<Unsupported>)
    ensures u == RouteUnsupported(route, home, remote)
  {
    var routed, multiHop := false, false;
    for i := 0 to |home.unsupportedSends|
      invariant routed <==> exists j :: 0 <= j < i && TouchesRemote(route, home.unsupportedSends[j].value)
    {
      if TouchesRemote(route, home.unsupportedSends[i].value) {
        routed := true;
      }
    }
    for i := 0 to |remote.sent|
      invariant multiHop <==> exists j :: 0 <= j < i && !Same(remote.sent[j].value.destinationBlockchainId, route.homeBlockchainId)
    {
      if !Same(remote.sent[i].value.destinationBlockchainId, route.homeBlockchainId) {
        multiHop := true;
      }
    }
    u := (if routed then {RoutedOrSendAndCall} else {}) + (if multiHop then {MultiHop} else {}) +
    (if remote.unsupportedSends != [] then {SendAndCall} else {});
  }

  method AssessRoute(route: Route, home: SideFacts, remote: SideFacts, digestOf: DigestOf) returns (a: Assessment)
    ensures a == RouteAssessed(route, home, remote, digestOf)
  {
    var h2r := AssessDirection(HomeToRemote, route, home, remote, digestOf);
    var r2h := AssessDirection(RemoteToHome, route, remote, home, digestOf);
    var others := CollectRouteUnsupported(route, home, remote);
    a := Assessment(h2r.pending + r2h.pending, h2r.effects + r2h.effects, h2r.openEdges + r2h.openEdges,
                    h2r.unsupported + r2h.unsupported + others, h2r.messages + r2h.messages);
  }

  /** The in-flight total of a list of envelopes. */
  function PendingTotal(p: seq<PendingEnvelope>): int {
    if p == [] then 0 else PendingTotal(p[..|p| - 1]) + p[|p| - 1].amount
  }

  lemma {:induction false} PendingTotalConcat(a: seq<PendingEnvelope>, b: seq<PendingEnvelope>)
    ensures PendingTotal(a + b) == PendingTotal(a) + PendingTotal(b)
  {
    if b == [] {
      assert a + b == a;
    } else {
      assert (a + b)[..|a + b| - 1] == a + b[..|b| - 1];
      PendingTotalConcat(a, b[..|b| - 1]);
    }
  }
}
