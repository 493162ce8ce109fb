/** Gate A: exact causal reconciliation, and what each of its outcomes means. */
module GateA {
  import opened Collections
  import opened RouteAssessment
  import opened ProofInputs

  datatype RemoteReconciliation = RemoteReconciliation(
    remoteBlockchainId: string,
    remoteAddress: string,
    transferredBalance: int,
    remoteTotalSupply: int,
    delta: int,
    pendingHomeToRemote: int,
    pendingRemoteToHome: int,
    pendingTotal: int,
    reconciled: bool)

  datatype GateOutcome = Pass | Fail | Unknown | NotSupported

  datatype GateAResult = GateAResult(
    outcome: GateOutcome,
    reasons: seq<ReasonCode>,
    critical: bool,
    perRemote: seq<RemoteReconciliation>,
    totalDelta: int,
    totalPending: int)

  // ---- input contract

  function MissingGlobally(input: ProofInput): seq<ReasonCode> {
    var p := input.provenance;
    When(p.manifestHash.None? || p.policyHash.None?, ACC_I01_NO_APPROVED_BASELINE) +
    When(p.sourceLockCommitSha.None? || p.adapterId.None? || p.adapterVersion.None?, ACC_I02_NO_SOURCE_LOCK_VERSION) +
    When(input.census != CompleteFromDeploymentBlock, ACC_I03_CENSUS_INCOMPLETE) +
    When(input.untrackedRemotes != [], ACC_B02_UNTRACKED_REMOTE_LIABILITY) +
    When(input.cut != Closed, ACC_I05_CAUSAL_CUT_OPEN) +
    When(!input.freshness.isFresh, ACC_I06_STALE_OBSERVATION) +
    When(input.freshness.independentWitnessGroups < input.freshness.requiredWitnessGroups, ACC_I04_NO_PINNED_BLOCK) +
    When(input.remotes == [], ACC_I07_MISSING_OBSERVATION)
  }

  function MissingFor(r: RemoteObservation): seq<ReasonCode> {
    When(r.transferredBalance.None? || r.remoteTotalSupply.None?, ACC_I07_MISSING_OBSERVATION) +
    When(r.homePin.None? || r.remotePin.None?, ACC_I04_NO_PINNED_BLOCK) +
    When(!r.scale.established, ACC_I08_UNKNOWN_TOKEN_SCALE)
  }

  function UnsupportedFor(r: RemoteObservation): seq<ReasonCode> {
    When(!r.fingerprintRecognised, ACC_U02_UNKNOWN_FINGERPRINT) +
    When(!r.tokenBehaviourCanonical, ACC_U03_UNSUPPORTED_TOKEN_BEHAVIOUR) +
    When(!r.routeSingleHop, ACC_U04_UNSUPPORTED_ROUTE) +
    When(r.initialReserveImbalance != 0, ACC_U01_UNSUPPORTED_FAMILY)
  }

  function EffectReasonsFor(e: CreditedEffect): seq<ReasonCode> {
    When(e.duplicateEffect, ACC_A03_DUPLICATE_ECONOMIC_EFFECT) +
    When(!e.hasUniqueAuthorisedSource || e.causalSourceFact.None?, ACC_A04_UNAUTHORISED_MINT) +
    When(!e.routeMatchesSource, ACC_A05_ROUTE_MISMATCH)
  }

  /** What a loop over `items` has pushed. */
  function Pushed<T>(f: T -> seq<ReasonCode>, items: seq<T>): seq<ReasonCode> {
    if items == [] then [] else Pushed(f, items[..|items| - 1]) + f(items[|items| - 1])
  }

  lemma {:induction false} PushedNothing<T(!new)>(f: T -> seq<ReasonCode>, items: seq<T>)
    ensures Pushed(f, items) == [] <==> forall x :: x in items ==> f(x) == []
  {
    if items != [] {
      assert items == items[..|items| - 1] + [items[|items| - 1]];
      PushedNothing(f, items[..|items| - 1]);
    }
  }

  function Missing(input: ProofInput): seq<ReasonCode> {
    Dedup(MissingGlobally(input) + Pushed(MissingFor, input.remotes))
  }

  function Unsupported(input: ProofInput): seq<ReasonCode> {
    Dedup(When(input.family != CanonicalErc20SingleHop, ACC_U01_UNSUPPORTED_FAMILY) + Pushed(UnsupportedFor, input.remotes))
  }

  method MissingInputReasons(input: ProofInput) returns (out: seq<ReasonCode>)
    ensures out == Missing(input)
  {
    var found: seq<ReasonCode> := [];
    for i := 0 to |input.remotes|
      invariant found == Pushed(MissingFor, input.remotes[..i])
    {
      PrefixStep(input.remotes, i);
      found := found + MissingFor(input.remotes[i]);
    }
    assert input.remotes[..|input.remotes|] == input.remotes;
    out := Dedup(MissingGlobally(input) + found);
  }

  method UnsupportedReasons(input: ProofInput) returns (out: seq<ReasonCode>)
    ensures out == Unsupported(input)
  {
    var found: seq<ReasonCode> := [];
    for i := 0 to |input.remotes|
      invariant found == Pushed(UnsupportedFor, input.remotes[..i])
    {
      PrefixStep(input.remotes, i);
      found := found + UnsupportedFor(input.remotes[i]);
    }
    assert input.remotes[..|input.remotes|] == input.remotes;
    out := Dedup(When(input.family != CanonicalErc20SingleHop, ACC_U01_UNSUPPORTED_FAMILY) + found);
  }

  // ---- arithmetic

  predicate InRange(v: int) {
    0 <= v <= MAX_UINT256
  }

  predicate RemoteInRange(r: RemoteObservation) {
    && (r.transferredBalance.None? || InRange(r.transferredBalance.value))
    && (r.remoteTotalSupply.None? || InRange(r.remoteTotalSupply.value))
    && InRange(r.scale.tokenMultiplier)
  }

  predicate Mine(r: RemoteObservation, p: PendingEnvelope) {
    p.remoteBlockchainId == r.remoteBlockchainId && p.remoteAddress == r.remoteAddress
  }

  function MineOf(r: RemoteObservation, pending: seq<PendingEnvelope>): seq<PendingEnvelope> {
    Filter((p: PendingEnvelope) => Mine(r, p), pending)
  }

  function InDirection(dir: Direction, pending: seq<PendingEnvelope>): seq<PendingEnvelope> {
    Filter((p: PendingEnvelope) => p.direction == dir, pending)
  }

  function ReconcileRemote(r: RemoteObservation, input: ProofInput): Option<RemoteReconciliation> {
    if r.transferredBalance.None? || r.remoteTotalSupply.None? then None
    else
      var d, s := r.transferredBalance.value, r.remoteTotalSupply.value;
      var mine := MineOf(r, input.pending);
      var h2r, r2h := PendingTotal(InDirection(HomeToRemote, mine)), PendingTotal(InDirection(RemoteToHome, mine));
      Some(RemoteReconciliation(r.remoteBlockchainId, r.remoteAddress, d, s, d - s, h2r, r2h, h2r + r2h, d - s == h2r + r2h))
  }

  /** `map(reconcileRemote)` with the nulls filtered out. */
  function Reconciliations(remotes: seq<RemoteObservation>, input: ProofInput): (r: seq<RemoteReconciliation>)
    ensures |r| <= |remotes|
  {
    if remotes == [] then []
    else
      Reconciliations(remotes[..|remotes| - 1], input) +
      (match ReconcileRemote(remotes[|remotes| - 1], input) case None => [] case Some(x) => [x])
  }

  function TotalDelta(s: seq<RemoteReconciliation>): int {
    if s == [] then 0 else TotalDelta(s[..|s| - 1]) + s[|s| - 1].delta
  }

  function TotalPending(s: seq<RemoteReconciliation>): int {
    if s == [] then 0 else TotalPending(s[..|s| - 1]) + s[|s| - 1].pendingTotal
  }

  function Liveness(input: ProofInput): seq<ReasonCode> {
    When(exists p :: p in input.pending && p.ageSeconds > input.pendingAgeLimitSeconds, ACC_L01_PENDING_AGE_EXCEEDED)
  }

  /** The answer once the input contract holds: effects first, then the aggregate arithmetic. */
  function Reconciled(input: ProofInput): GateAResult {
    var perRemote := Reconciliations(input.remotes, input);
    var effectReasons := Pushed(EffectReasonsFor, input.effects);
    var d, p := TotalDelta(perRemote), TotalPending(perRemote);
    if effectReasons != [] then
      GateAResult(Fail, Dedup(effectReasons + Liveness(input)), true, perRemote, d, p)
    else if exists x :: x in perRemote && x.delta < 0 then
      GateAResult(Fail, Dedup([ACC_A01_EXCESS_REMOTE_REPRESENTATION] + Liveness(input)), true, perRemote, d, p)
    else if exists x :: x in perRemote && !x.reconciled then
      GateAResult(Unknown, Dedup([ACC_A02_DELTA_UNEXPLAINED] + Liveness(input)), false, perRemote, d, p)
    else
      GateAResult(Pass, Dedup([ACC_A00_RECONCILED] + Liveness(input)), false, perRemote, d, p)
  }

  function Evaluated(input: ProofInput): GateAResult {
    if Unsupported(input) != [] then GateAResult(NotSupported, Unsupported(input), false, [], 0, 0)
    else if Missing(input) != [] then GateAResult(Unknown, Missing(input), false, [], 0, 0)
    else if exists r :: r in input.remotes && !RemoteInRange(r) then
      GateAResult(Unknown, [ACC_A06_ARITHMETIC_OUT_OF_RANGE], false, [], 0, 0)
    else Reconciled(input)
  }

  method EvaluateGateA(input: ProofInput) returns (result: GateAResult)
    ensures result == Evaluated(input)
  {
    var unsupported := UnsupportedReasons(input);
    if unsupported != [] {
      return GateAResult(NotSupported, unsupported, false, [], 0, 0);
    }
    var missing := MissingInputReasons(input);
    if missing != [] {
      return GateAResult(Unknown, missing, false, [], 0, 0);
    }
    var outside := SomeOutOfRange(input.remotes);
    if outside {
      return GateAResult(Unknown, [ACC_A06_ARITHMETIC_OUT_OF_RANGE], false, [], 0, 0);
    }
    result := Reconcile(input);
  }

  method SomeOutOfRange(remotes: seq<RemoteObservation>) returns (outside: bool)
    ensures outside <==> exists r :: r in remotes && !RemoteInRange(r)
  {
    for i := 0 to |remotes|
      invariant forall j :: 0 <= j < i ==> RemoteInRange(remotes[j])
    {
      if !RemoteInRange(remotes[i]) {
        assert remotes[i] in remotes;
        return true;
      }
    }
    outside := false;
  }

  method Reconcile(input: ProofInput) returns (result: GateAResult)
    ensures result == Reconciled(input)
  {
    var perRemote := Reconciliations(input.remotes, input);
    var effectReasons: seq<ReasonCode> := [];
    for i := 0 to |input.effects|
      invariant effectReasons == Pushed(EffectReasonsFor, input.effects[..i])
    {
      PrefixStep(input.effects, i);
      effectReasons := effectReasons + EffectReasonsFor(input.effects[i]);
    }
    assert input.effects[..|input.effects|] == input.effects;
    var totalDelta, totalPending, liveness := TotalDelta(perRemote), TotalPending(perRemote), Liveness(input);
    if effectReasons != [] {
      return GateAResult(Fail, Dedup(effectReasons + liveness), true, perRemote, totalDelta, totalPending);
    }
    if exists x :: x in perRemote && x.delta < 0 {
      return GateAResult(Fail, Dedup([ACC_A01_EXCESS_REMOTE_REPRESENTATION] + liveness), true, perRemote, totalDelta, totalPending);
    }
    if exists x :: x in perRemote && !x.reconciled {
      return GateAResult(Unknown, Dedup([ACC_A02_DELTA_UNEXPLAINED] + liveness), false, perRemote, totalDelta, totalPending);
    }
    return GateAResult(Pass, Dedup([ACC_A00_RECONCILED] + liveness), false, perRemote, totalDelta, totalPending);
  }

  // ---- what the outcomes mean

  predicate RemoteSupported(r: RemoteObservation) {
    r.fingerprintRecognised && r.tokenBehaviourCanonical && r.routeSingleHop && r.initialReserveImbalance == 0
  }

  /** The deployment is one the equation was verified for. */
  predicate Supported(input: ProofInput) {
    input.family == CanonicalErc20SingleHop && forall r :: r in input.remotes ==> RemoteSupported(r)
  }

  predicate RemoteObserved(r: RemoteObservation) {
    && r.transferredBalance.Some? && r.remoteTotalSupply.Some?
    && r.homePin.Some? && r.remotePin.Some?
    && r.scale.established
  }

  /** The part of the contract that is not about one remote. */
  predicate GloballyMet(input: ProofInput) {
    var p, f := input.provenance, input.freshness;
    && p.manifestHash.Some? && p.policyHash.Some?
    && p.sourceLockCommitSha.Some? && p.adapterId.Some? && p.adapterVersion.Some?
    && input.census == CompleteFromDeploymentBlock && input.untrackedRemotes == []
    && input.cut == Closed
    && f.isFresh && f.requiredWitnessGroups <= f.independentWitnessGroups
    && input.remotes != []
  }

  /** Every condition of the input contract. */
  predicate ContractMet(input: ProofInput) {
    GloballyMet(input) && forall r :: r in input.remotes ==> RemoteObserved(r)
  }

  predicate AllInRange(input: ProofInput) {
    forall r :: r in input.remotes ==> RemoteInRange(r)
  }

  predicate EffectSound(e: CreditedEffect) {
    !e.duplicateEffect && e.hasUniqueAuthorisedSource && e.causalSourceFact.Some? && e.routeMatchesSource
  }

  predicate EffectsSound(input: ProofInput) {
    forall e :: e in input.effects ==> EffectSound(e)
  }

  /** More represented on a remote than the home accounts for. */
  predicate Excess(r: RemoteObservation) {
    r.transferredBalance.Some? && r.remoteTotalSupply.Some? && r.transferredBalance.value < r.remoteTotalSupply.value
  }

  /** D - S is what is in flight on this remote, in either direction. */
  predicate Reconciles(r: RemoteObservation, input: ProofInput) {
    && r.transferredBalance.Some? && r.remoteTotalSupply.Some?
    && r.transferredBalance.value - r.remoteTotalSupply.value == PendingTotal(MineOf(r, input.pending))
  }

  lemma DedupEmpty(s: seq<ReasonCode>)
    ensures Dedup(s) == [] <==> s == []
  {
    assert s != [] ==> s[0] in Dedup(s);
    assert Dedup(s) != [] ==> Dedup(s)[0] in s;
  }

  lemma {:induction false} DirectionsPartition(pending: seq<PendingEnvelope>)
    ensures PendingTotal(InDirection(HomeToRemote, pending)) + PendingTotal(InDirection(RemoteToHome, pending)) == PendingTotal(pending)
  {
    if pending != [] {
      var n := |pending| - 1;
      DirectionsPartition(pending[..n]);
      PendingTotalConcat(InDirection(HomeToRemote, pending[..n]), When(pending[n].direction == HomeToRemote, pending[n]));
      PendingTotalConcat(InDirection(RemoteToHome, pending[..n]), When(pending[n].direction == RemoteToHome, pending[n]));
    }
  }

  lemma {:induction false} ReconciliationsMembers(remotes: seq<RemoteObservation>, input: ProofInput)
    ensures forall x :: x in Reconciliations(remotes, input) <==> exists r :: r in remotes && ReconcileRemote(r, input) == Some(x)
  {
    if remotes != [] {
      var n := |remotes| - 1;
      assert remotes == remotes[..n] + [remotes[n]];
      ReconciliationsMembers(remotes[..n], input);
    }
  }

  lemma UnsupportedMeaning(input: ProofInput)
    ensures Unsupported(input) == [] <==> Supported(input)
  {
    DedupEmpty(When(input.family != CanonicalErc20SingleHop, ACC_U01_UNSUPPORTED_FAMILY) + Pushed(UnsupportedFor, input.remotes));
    PushedNothing(UnsupportedFor, input.remotes);
    assert forall r :: UnsupportedFor(r) == [] <==> RemoteSupported(r);
  }

  lemma GloballyMeaning(input: ProofInput)
    ensures MissingGlobally(input) == [] <==> GloballyMet(input)
  {
  }

  lemma MissingMeaning(input: ProofInput)
    ensures Missing(input) == [] <==> ContractMet(input)
  {
    var global, each := MissingGlobally(input), Pushed(MissingFor, input.remotes);
    GloballyMeaning(input);
    DedupEmpty(global + each);
    PushedNothing(MissingFor, input.remotes);
    forall r ensures MissingFor(r) == [] <==> RemoteObserved(r) {
      MissingForMeaning(r);
    }
  }

  lemma MissingForMeaning(r: RemoteObservation)
    ensures MissingFor(r) == [] <==> RemoteObserved(r)
  {
  }

  lemma EffectsMeaning(input: ProofInput)
    ensures Pushed(EffectReasonsFor, input.effects) == [] <==> EffectsSound(input)
  {
    PushedNothing(EffectReasonsFor, input.effects);
    assert forall e :: EffectReasonsFor(e) == [] <==> EffectSound(e);
  }

  lemma ArithmeticMeaning(input: ProofInput)
    requires forall r :: r in input.remotes ==> RemoteObserved(r)
    ensures (exists x :: x in Reconciliations(input.remotes, input) && x.delta < 0) <==> exists r :: r in input.remotes && Excess(r)
    ensures (forall x :: x in Reconciliations(input.remotes, input) ==> x.reconciled) <==> forall r :: r in input.remotes ==> Reconciles(r, input)
  {
    ReconciliationsMembers(input.remotes, input);
    forall r | r in input.remotes
      ensures ReconcileRemote(r, input).Some?
      ensures ReconcileRemote(r, input).value in Reconciliations(input.remotes, input)
      ensures ReconcileRemote(r, input).value.delta < 0 <==> Excess(r)
      ensures ReconcileRemote(r, input).value.reconciled <==> Reconciles(r, input)
    {
      DirectionsPartition(MineOf(r, input.pending));
    }
  }

  /** A proven breach: an effect that is duplicated, unauthorised or mismatched, or excess representation. */
  predicate Breach(input: ProofInput) {
    !EffectsSound(input) || exists r :: r in input.remotes && Excess(r)
  }

  predicate Exact(input: ProofInput) {
    forall r :: r in input.remotes ==> Reconciles(r, input)
  }

  /** The inputs the gate answers with arithmetic. */
  predicate Answerable(input: ProofInput) {
    Supported(input) && ContractMet(input) && AllInRange(input)
  }

  lemma ReconciledMeaning(input: ProofInput)
    requires ContractMet(input)
    ensures var g := Reconciled(input);
            && (g.critical <==> Breach(input)) && (g.outcome == Fail <==> Breach(input))
            && (g.outcome == Pass <==> !Breach(input) && Exact(input))
            && g.outcome != NotSupported
  {
    EffectsMeaning(input);
    ArithmeticMeaning(input);
    assert EffectsSound(input) <==> Pushed(EffectReasonsFor, input.effects) == [];
  }

  lemma EvaluatedCases(input: ProofInput)
    ensures Answerable(input) ==> Evaluated(input) == Reconciled(input)
    ensures !Supported(input) ==> Evaluated(input).outcome == NotSupported && !Evaluated(input).critical
    ensures Supported(input) && !Answerable(input) ==> Evaluated(input).outcome == Unknown && !Evaluated(input).critical
  {
    UnsupportedMeaning(input);
    MissingMeaning(input);
    InRangeMeaning(input);
  }

  lemma InRangeMeaning(input: ProofInput)
    ensures AllInRange(input) <==> !exists r :: r in input.remotes && !RemoteInRange(r)
  {
  }

  /** Gate A, outcome by outcome: what it passes, what it calls a proven breach, and what it refuses to answer. */
  lemma GateAMeaning(input: ProofInput)
    ensures var g := Evaluated(input);
            && (g.outcome == NotSupported <==> !Supported(input))
            && (g.critical <==> Answerable(input) && Breach(input))
            && (g.outcome == Fail <==> g.critical)
            && (g.outcome == Pass <==> Answerable(input) && !Breach(input) && Exact(input))
            && (g.outcome == Unknown <==> Supported(input) && (!Answerable(input) || (!Breach(input) && !Exact(input))))
  {
    EvaluatedCases(input);
    if Answerable(input) {
      ReconciledMeaning(input);
    }
  }
}
