/** The bridge as a transition system: one home chain, any number of remotes, one log per chain. */
module BridgeProtocol {
  import opened Collections
  import opened RouteAssessment

  // One thing that happened on a chain. `effect` is what traffic the engine does not model
  // does to a balance; it may be any number.
  datatype Entry =
    | Sent(send: Fact<TokensSent>)
    | SentOther(routed: Fact<TokensRouted>, effect: int)
    | Delivered(delivery: Fact<Delivery>)
    | Executed(outcome: Fact<Outcome>, of: Fact<Delivery>, effect: int)
    | Failed(outcome: Fact<Outcome>)
    | Minted(amount: nat)

  type Log = seq<Entry>

  // ---- the facts a reader sees in a prefix of a log

  function SentFacts(log: Log): seq<Fact<TokensSent>> {
    if log == [] then []
    else SentFacts(log[..|log| - 1]) + (match log[|log| - 1] case Sent(f) => [f] case _ => [])
  }

  function OtherFacts(log: Log): seq<Fact<TokensRouted>> {
    if log == [] then []
    else OtherFacts(log[..|log| - 1]) + (match log[|log| - 1] case SentOther(f, _) => [f] case _ => [])
  }

  function DeliveredFacts(log: Log): seq<Fact<Delivery>> {
    if log == [] then []
    else DeliveredFacts(log[..|log| - 1]) + (match log[|log| - 1] case Delivered(f) => [f] case _ => [])
  }

  /** Outcomes of messages from the peer chain. */
  function ExecutedFacts(log: Log, peer: string): seq<Fact<Outcome>> {
    if log == [] then []
    else
      ExecutedFacts(log[..|log| - 1], peer) +
      (match log[|log| - 1] case Executed(o, _, _) => (if Same(o.value.sourceBlockchainId, peer) then [o] else []) case _ => [])
  }

  function FailedFacts(log: Log, peer: string): seq<Fact<Outcome>> {
    if log == [] then []
    else
      FailedFacts(log[..|log| - 1], peer) +
      (match log[|log| - 1] case Failed(o) => (if Same(o.value.sourceBlockchainId, peer) then [o] else []) case _ => [])
  }

  function SideAt(chain: string, peer: string, pin: Pin, log: Log): SideFacts {
    SideFacts(chain, pin, SentFacts(log), OtherFacts(log), DeliveredFacts(log), ExecutedFacts(log, peer), FailedFacts(log, peer))
  }

  // ---- what the contracts hold after a prefix of a log

  function Credit(d: Delivery, effect: int): int {
    if d.payload.messageType == SINGLE_HOP_SEND && d.payload.singleHopAmount.Some? then d.payload.singleHopAmount.value else effect
  }

  function SentAmount(dir: Direction, route: Route, e: Entry): int {
    match e
    case Sent(f) => if IsRouteSend(dir, route, f.value) then f.value.amount else 0
    case _ => 0
  }

  function ExecutedAmount(dir: Direction, route: Route, e: Entry): int {
    match e
    case Executed(_, d, effect) => if IsRouteDelivery(dir, route, d.value) then Credit(d.value, effect) else 0
    case _ => 0
  }

  /** Home: a send adds the scaled amount, routed traffic does what it does, an execution deducts. */
  function HomeDelta(route: Route, e: Entry): int {
    match e
    case SentOther(f, effect) => if TouchesRemote(route, f.value) then effect else 0
    case _ => SentAmount(HomeToRemote, route, e) - ExecutedAmount(RemoteToHome, route, e)
  }

  /** Remote: an execution mints, every send burns whatever its destination, `Minted` is backed by nothing. */
  function RemoteDelta(route: Route, e: Entry): int {
    match e
    case Sent(f) => 0 - f.value.amount
    case SentOther(_, effect) => effect
    case Minted(amount) => amount
    case _ => ExecutedAmount(HomeToRemote, route, e)
  }

  // The same amounts as functions of the entry, to sum over a log.
  function HomeDeltas(route: Route): Entry -> int { e => HomeDelta(route, e) }
  function RemoteDeltas(route: Route): Entry -> int { e => RemoteDelta(route, e) }
  function SentAmounts(dir: Direction, route: Route): Entry -> int { e => SentAmount(dir, route, e) }
  function ExecutedAmounts(dir: Direction, route: Route): Entry -> int { e => ExecutedAmount(dir, route, e) }
  function StrayAmounts(route: Route): Entry -> int { e => StrayAmount(route, e) }

  function Total(delta: Entry -> int, log: Log): int {
    if log == [] then 0 else Total(delta, log[..|log| - 1]) + delta(log[|log| - 1])
  }

  /** `getTransferredBalance` of the route after this home log. */
  function TransferredBalance(route: Route, home: Log): int {
    Total(HomeDeltas(route), home)
  }

  /** `totalSupply` of the remote token after this remote log. */
  function TotalSupply(route: Route, remote: Log): int {
    Total(RemoteDeltas(route), remote)
  }

  /** Burnt by sends that name the home chain but not the token home. */
  function StrayAmount(route: Route, e: Entry): int {
    match e
    case Sent(f) => if !IsRouteSend(RemoteToHome, route, f.value) then f.value.amount else 0
    case _ => 0
  }

  function MintedAmount(e: Entry): int {
    match e
    case Minted(amount) => amount
    case _ => 0
  }

  /** Remote supply with no home-side cause: unbacked mints, less burns nobody accounts for. */
  function Unbacked(route: Route, remote: Log): int {
    Total(MintedAmount, remote) - Total(StrayAmounts(route), remote)
  }

  // ---- what every log and every pair of logs of a run satisfies

  function ExecutedIds(log: Log): seq<string> {
    if log == [] then []
    else ExecutedIds(log[..|log| - 1]) + (match log[|log| - 1] case Executed(o, _, _) => [o.messageId] case _ => [])
  }

  /** An execution is of a message this chain received, under that message's id and source. */
  ghost predicate ExecutionOfDelivery(before: Log, e: Entry) {
    e.Executed? ==>
      && e.of in DeliveredFacts(before)
      && e.outcome.messageId == e.of.messageId
      && e.outcome.value.sourceBlockchainId == e.of.value.sourceBlockchainId
  }

  /** The messenger's guarantees on one chain. */
  ghost predicate ChainOk(log: Log) {
    && Distinct(IdsOf(SentFacts(log)))
    && Distinct(IdsOf(DeliveredFacts(log)))
    && Distinct(ExecutedIds(log))
    && (forall i :: 0 <= i < |log| ==> ExecutionOfDelivery(log[..i], log[i]))
  }

  /** A send of this route under this id and amount. */
  predicate IsSourceOf(dir: Direction, route: Route, s: Fact<TokensSent>, d: Fact<Delivery>) {
    && IsRouteSend(dir, route, s.value)
    && s.messageId == d.messageId
    && d.value.payload.singleHopAmount == Some(s.value.amount)
  }

  /** A delivered single-hop send of this route was sent on the source chain, for that amount. */
  ghost predicate Linked(dir: Direction, route: Route, source: Log, destination: Log) {
    forall d :: d in DeliveredFacts(destination) && IsRouteDelivery(dir, route, d.value) && d.value.payload.messageType == SINGLE_HOP_SEND
      ==> exists s :: s in SentFacts(source) && IsSourceOf(dir, route, s, d)
  }

  ghost predicate RouteOk(route: Route, home: Log, remote: Log) {
    && ChainOk(home) && ChainOk(remote)
    && Linked(HomeToRemote, route, home, remote)
    && Linked(RemoteToHome, route, remote, home)
  }
}
