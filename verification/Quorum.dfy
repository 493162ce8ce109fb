/** Independent witness quorum: select a common height, demand one hash, count failure domains. */
module Quorum {
  import opened Collections
  import opened Sorting
  import opened Connectivity
  import opened Independence
  import opened FailureDomains

  datatype Observation = Observation(
    endpointId: string,
    trustDomain: string,
    providerGroup: string,
    blockchainId: Option<string>,
    genesisHash: Option<string>,
    evmChainId: Option<int>,
    networkId: Option<int>,
    head: int,
    hashAtHeight: Option<string>,
    observedAtMs: int)

  datatype Expected = Expected(blockchainId: string, genesisHash: Option<string>, evmChainId: int, networkId: int)

  datatype Policy = Policy(minIndependent: int, maxHeadLagBlocks: nat, maxObservationAgeMs: int)

  datatype Rejection = WrongBlockchainId | WrongGenesisHash | WrongEvmChainId | WrongNetworkId | MissingIdentity
    | StaleObservation | HeadLagging | NoHashAtHeight

  datatype Rejected = Rejected(endpointId: string, trustDomain: string, reason: Rejection)

  datatype QuorumOutcome = Agreed | InsufficientWitnesses | Disagreement | NoCommonHeight

  /** Everything but the narration of rejected witnesses. */
  datatype Decision = Decision(
    outcome: QuorumOutcome,
    height: Option<int>,
    blockHash: Option<string>,
    trustDomains: seq<string>,
    providerGroups: seq<string>,
    endpointIds: seq<string>)

  // ---- one representative per failure domain

  function ByItem<T>(le: Order<string>, id: T -> string): Order<Claim<T>> {
    (a: Claim<T>, b: Claim<T>) => le(id(a.item), id(b.item))
  }

  /** The concatenated key the witnesses are first sorted by. */
  function WitnessKey<T>(id: T -> string, c: Claim<T>): string {
    c.trustDomain + "\0" + c.providerGroup + "\0" + id(c.item)
  }

  function ByKey<T>(le: Order<string>, id: T -> string): Order<Claim<T>> {
    (a: Claim<T>, b: Claim<T>) => le(WitnessKey(id, a), WitnessKey(id, b))
  }

  function Lowest<T(!new)>(le: Order<string>, id: T -> string, group: seq<Claim<T>>): seq<Claim<T>> {
    var sorted := Sort(ByItem(le, id), group);
    if sorted == [] then [] else [sorted[0]]
  }

  /** The lowest endpoint of each group, in group order. */
  function LowestOfEach<T(!new)>(le: Order<string>, id: T -> string, groups: seq<seq<Claim<T>>>): seq<Claim<T>> {
    if groups == [] then []
    else LowestOfEach(le, id, groups[..|groups| - 1]) + Lowest(le, id, groups[|groups| - 1])
  }

  function IndependentWitnesses<T(!new)>(le: Order<string>, id: T -> string, claims: seq<Claim<T>>): seq<Claim<T>> {
    Sort(ByItem(le, id), LowestOfEach(le, id, Groups(Sort(ByKey(le, id), claims))))
  }

  // ---- the evaluation

  function LowerOpt(s: Option<string>): Option<string> {
    if s.None? then None else Some(Lower(s.value))
  }

  function RejectionOf(o: Observation, expected: Expected, policy: Policy, nowMs: int): Option<Rejection> {
    if o.blockchainId.None? || o.evmChainId.None? || o.networkId.None? then Some(MissingIdentity)
    else if Lower(o.blockchainId.value) != Lower(expected.blockchainId) then Some(WrongBlockchainId)
    else if expected.genesisHash.Some? && LowerOpt(o.genesisHash) != LowerOpt(expected.genesisHash) then Some(WrongGenesisHash)
    else if o.evmChainId.value != expected.evmChainId then Some(WrongEvmChainId)
    else if o.networkId.value != expected.networkId then Some(WrongNetworkId)
    else if nowMs - o.observedAtMs > policy.maxObservationAgeMs then Some(StaleObservation)
    else None
  }

  function Admits(expected: Expected, policy: Policy, nowMs: int): Observation -> bool {
    (o: Observation) => RejectionOf(o, expected, policy, nowMs).None?
  }

  function InLag(leading: int, policy: Policy): Observation -> bool {
    (o: Observation) => leading - o.head <= policy.maxHeadLagBlocks
  }

  function HasHash(): Observation -> bool {
    (o: Observation) => o.hashAtHeight.Some?
  }

  function LeadingHead(s: seq<Observation>): int {
    if s == [] then 0
    else
      var m, last := LeadingHead(s[..|s| - 1]), s[|s| - 1].head;
      if last > m then last else m
  }

  function LowestHead(s: seq<Observation>): int
    requires s != []
  {
    if |s| == 1 then s[0].head
    else
      var m, last := LowestHead(s[..|s| - 1]), s[|s| - 1].head;
      if last < m then last else m
  }

  function HashOf(o: Observation): string {
    if o.hashAtHeight.None? then "" else Lower(o.hashAtHeight.value)
  }

  function AsClaim(o: Observation): Claim<Observation> {
    Claim(o.trustDomain, o.providerGroup, o)
  }

  function IdOf(): Observation -> string {
    (o: Observation) => o.endpointId
  }

  /** The representatives of the witnesses that reported the hash. */
  function Chosen(le: Order<string>, group: seq<Observation>): seq<Claim<Observation>> {
    IndependentWitnesses(le, IdOf(), Map(AsClaim, group))
  }

  function Domains<T>(chosen: seq<Claim<T>>): seq<string> {
    Map((c: Claim<T>) => c.trustDomain, chosen)
  }

  function Providers<T>(chosen: seq<Claim<T>>): seq<string> {
    Map((c: Claim<T>) => c.providerGroup, chosen)
  }

  function Ids<T>(id: T -> string, chosen: seq<Claim<T>>): seq<string> {
    Map((c: Claim<T>) => id(c.item), chosen)
  }

  const NOBODY := Decision(InsufficientWitnesses, None, None, [], [], [])

  /** The witnesses whose answers count: right identity, fresh, and within the allowed lag of the leading head. */
  function InLagWitnesses(observations: seq<Observation>, expected: Expected, policy: Policy, nowMs: int): seq<Observation> {
    var admissible := Filter(Admits(expected, policy, nowMs), observations);
    Filter(InLag(LeadingHead(admissible), policy), admissible)
  }

  /** The answer once one hash is left: are its witnesses independent enough? */
  function DecideCount(le: Order<string>, policy: Policy, height: int, hash: string, group: seq<Observation>): Decision {
    var chosen := Chosen(le, group);
    Decision(if |chosen| < policy.minIndependent then InsufficientWitnesses else Agreed, Some(height), Some(hash),
             Sort(CodeUnitOrder(), Domains(chosen)), Sort(CodeUnitOrder(), Providers(chosen)), Ids(IdOf(), chosen))
  }

  /** The answer once at least one witness counts. */
  function DecideHash(le: Order<string>, policy: Policy, height: int, withHash: seq<Observation>): Decision {
    if withHash == [] then Decision(NoCommonHeight, None, None, [], [], [])
    else if exists o :: o in withHash && HashOf(o) != HashOf(withHash[0]) then Decision(Disagreement, Some(height), None, [], [], [])
    else DecideCount(le, policy, height, HashOf(withHash[0]), withHash)
  }

  function Decide(le: Order<string>, observations: seq<Observation>, expected: Expected, policy: Policy, nowMs: int): Decision {
    var counted := InLagWitnesses(observations, expected, policy, nowMs);
    if counted == [] then NOBODY else DecideHash(le, policy, LowestHead(counted), Filter(HasHash(), counted))
  }

  // ---- the narration

  function Narrate(observations: seq<Observation>, reason: Observation -> Option<Rejection>): seq<Rejected> {
    if observations == [] then []
    else
      var o := observations[|observations| - 1];
      Narrate(observations[..|observations| - 1], reason) +
      (match reason(o) case None => [] case Some(r) => [Rejected(o.endpointId, o.trustDomain, r)])
  }

  /** One filtering loop: keep what has no reason, push a rejection for what has. */
  method Screen(observations: seq<Observation>, reason: Observation -> Option<Rejection>) returns (kept: seq<Observation>, rejected: seq<Rejected>)
    ensures kept == Filter((o: Observation) => reason(o).None?, observations)
    ensures rejected == Narrate(observations, reason)
  {
    kept, rejected := [], [];
    for i := 0 to |observations|
      invariant kept == Filter((o: Observation) => reason(o).None?, observations[..i])
      invariant rejected == Narrate(observations[..i], reason)
    {
      PrefixStep(observations, i);
      var o := observations[i];
      match reason(o)
      case None => kept := kept + [o];
      case Some(r) => rejected := rejected + [Rejected(o.endpointId, o.trustDomain, r)];
    }
    assert observations[..|observations|] == observations;
  }

  method EvaluateQuorum(le: Order<string>, observations: seq<Observation>, expected: Expected, policy: Policy, nowMs: int)
    returns (d: Decision, rejected: seq<Rejected>)
    ensures d == Decide(le, observations, expected, policy, nowMs)
  {
    var byIdentity := (o: Observation) => RejectionOf(o, expected, policy, nowMs);
    var admissible, rejected0 := Screen(observations, byIdentity);
    FilterAgree((o: Observation) => byIdentity(o).None?, Admits(expected, policy, nowMs), observations);
    rejected := rejected0;
    if admissible == [] {
      return NOBODY, rejected;
    }
    var leading := 0;
    for i := 0 to |admissible|
      invariant leading == LeadingHead(admissible[..i])
    {
      PrefixStep(admissible, i);
      if admissible[i].head > leading { leading := admissible[i].head; }
    }
    assert admissible[..|admissible|] == admissible;
    var byLag := (o: Observation) => if leading - o.head > policy.maxHeadLagBlocks then Some(HeadLagging) else None;
    var notLagging, rejected1 := Screen(admissible, byLag);
    FilterAgree((o: Observation) => byLag(o).None?, InLag(leading, policy), admissible);
    rejected := rejected + rejected1;
    if notLagging == [] {
      return NOBODY, rejected;
    }
    var height := notLagging[0].head;
    for i := 1 to |notLagging|
      invariant height == LowestHead(notLagging[..i])
    {
      PrefixStep(notLagging, i);
      if notLagging[i].head < height { height := notLagging[i].head; }
    }
    assert notLagging[..|notLagging|] == notLagging;
    var byHashed := (o: Observation) => if o.hashAtHeight.None? then Some(NoHashAtHeight) else None;
    var withHash, rejected2 := Screen(notLagging, byHashed);
    FilterAgree((o: Observation) => byHashed(o).None?, HasHash(), notLagging);
    rejected := rejected + rejected2;
    d := AgreeOnHash(le, policy, height, withHash);
  }

  predicate OneHash(s: seq<Observation>) {
    forall j :: 0 <= j < |s| ==> HashOf(s[j]) == HashOf(s[0])
  }

  /** The map the grouping loop builds. */
  function ByHash(s: seq<Observation>): map<string, seq<Observation>> {
    if s == [] then map[]
    else
      var front, o := ByHash(s[..|s| - 1]), s[|s| - 1];
      front[HashOf(o) := (if HashOf(o) in front then front[HashOf(o)] else []) + [o]]
  }

  lemma {:induction false} ByHashKeys(s: seq<Observation>, h: string)
    ensures h in ByHash(s) <==> exists j :: 0 <= j < |s| && HashOf(s[j]) == h
  {
    if s != [] {
      var n := |s| - 1;
      ByHashKeys(s[..n], h);
      assert forall j :: 0 <= j < n ==> s[..n][j] == s[j];
    }
  }

  lemma {:induction false} ByHashUniform(s: seq<Observation>)
    requires s != [] && OneHash(s)
    ensures ByHash(s) == map[HashOf(s[0]) := s]
  {
    var n := |s| - 1;
    assert s == s[..n] + [s[n]];
    if n > 0 {
      ByHashUniform(s[..n]);
    }
  }

  method GroupByHash(withHash: seq<Observation>) returns (byHash: map<string, seq<Observation>>)
    ensures byHash == ByHash(withHash)
  {
    byHash := map[];
    for i := 0 to |withHash|
      invariant byHash == ByHash(withHash[..i])
    {
      PrefixStep(withHash, i);
      var key := HashOf(withHash[i]);
      byHash := byHash[key := (if key in byHash then byHash[key] else []) + [withHash[i]]];
    }
    assert withHash[..|withHash|] == withHash;
  }

  lemma OneHashIffOneKey(s: seq<Observation>)
    requires s != []
    ensures ByHash(s).Keys == {HashOf(s[0])} <==> OneHash(s)
    ensures OneHash(s) <==> !exists o :: o in s && HashOf(o) != HashOf(s[0])
  {
    forall j | 0 <= j < |s| ensures HashOf(s[j]) in ByHash(s).Keys && s[j] in s {
      ByHashKeys(s, HashOf(s[j]));
    }
    if OneHash(s) {
      ByHashUniform(s);
    }
  }

  /** Group by lower-cased hash; with exactly one group, count its failure domains. */
  method AgreeOnHash(le: Order<string>, policy: Policy, height: int, withHash: seq<Observation>) returns (d: Decision)
    ensures d == DecideHash(le, policy, height, withHash)
  {
    var byHash := GroupByHash(withHash);
    if withHash == [] {
      return Decision(NoCommonHeight, None, None, [], [], []);
    }
    OneHashIffOneKey(withHash);
    var hash := HashOf(withHash[0]);
    if byHash.Keys != {hash} {
      return Decision(Disagreement, Some(height), None, [], [], []);
    }
    ByHashUniform(withHash);
    d := DecideCount(le, policy, height, hash, byHash[hash]);
  }
}
