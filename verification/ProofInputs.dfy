/** The proof input contract, and the reason codes the gates answer with. */
module ProofInputs {
  import opened Collections
  import opened RouteAssessment

  const MAX_UINT256: int := 0x1_0000000000000000_0000000000000000_0000000000000000_0000000000000000 - 1

  datatype PinnedBlock = PinnedBlock(blockchainId: string, blockNumber: int, blockHash: string)

  datatype Census = CompleteFromDeploymentBlock | PartialCensus | UnknownCensus

  datatype CutState = Closed | Open | Gap

  datatype Family = CanonicalErc20SingleHop | OtherFamily(name: string)

  datatype Provenance = Provenance(
    manifestHash: Option<string>,
    policyHash: Option<string>,
    sourceLockCommitSha: Option<string>,
    adapterId: Option<string>,
    adapterVersion: Option<int>,
    ruleVersion: string)

  datatype TokenScale = TokenScale(
    tokenMultiplier: int,
    multiplyOnRemote: bool,
    homeDecimals: int,
    remoteDecimals: int,
    established: bool)

  datatype RemoteObservation = RemoteObservation(
    remoteBlockchainId: string,
    remoteAddress: string,
    transferredBalance: Option<int>,
    remoteTotalSupply: Option<int>,
    scale: TokenScale,
    homePin: Option<PinnedBlock>,
    remotePin: Option<PinnedBlock>,
    fingerprintRecognised: bool,
    tokenBehaviourCanonical: bool,
    routeSingleHop: bool,
    initialReserveImbalance: int)

  datatype Freshness = Freshness(isFresh: bool, independentWitnessGroups: int, requiredWitnessGroups: int)

  datatype HomeEscrow = HomeEscrow(escrowBalance: Option<int>, homePin: Option<PinnedBlock>, acceptedCollateral: int)

  datatype ProofInput = ProofInput(
    deploymentId: string,
    family: Family,
    provenance: Provenance,
    census: Census,
    untrackedRemotes: seq<string>,
    cut: CutState,
    freshness: Freshness,
    remotes: seq<RemoteObservation>,
    pending: seq<PendingEnvelope>,
    effects: seq<CreditedEffect>,
    homeEscrow: HomeEscrow,
    pendingAgeLimitSeconds: int)

  datatype ReasonCode =
    | ACC_A00_RECONCILED
    | ACC_A01_EXCESS_REMOTE_REPRESENTATION
    | ACC_A02_DELTA_UNEXPLAINED
    | ACC_A03_DUPLICATE_ECONOMIC_EFFECT
    | ACC_A04_UNAUTHORISED_MINT
    | ACC_A05_ROUTE_MISMATCH
    | ACC_A06_ARITHMETIC_OUT_OF_RANGE
    | ACC_B00_COVERAGE_SUFFICIENT
    | ACC_B01_COVERAGE_SHORTFALL
    | ACC_B02_UNTRACKED_REMOTE_LIABILITY
    | ACC_B03_GATE_A_NOT_PASSED
    | ACC_I01_NO_APPROVED_BASELINE
    | ACC_I02_NO_SOURCE_LOCK_VERSION
    | ACC_I03_CENSUS_INCOMPLETE
    | ACC_I04_NO_PINNED_BLOCK
    | ACC_I05_CAUSAL_CUT_OPEN
    | ACC_I06_STALE_OBSERVATION
    | ACC_I07_MISSING_OBSERVATION
    | ACC_I08_UNKNOWN_TOKEN_SCALE
    | ACC_L01_PENDING_AGE_EXCEEDED
    | ACC_U01_UNSUPPORTED_FAMILY
    | ACC_U02_UNKNOWN_FINGERPRINT
    | ACC_U03_UNSUPPORTED_TOKEN_BEHAVIOUR
    | ACC_U04_UNSUPPORTED_ROUTE
    | AGG_M01_REQUIRED_EVALUATION_MISSING
    | AGG_M02_PREVIOUS_OK_EXPIRED
    | AGG_M03_EVALUATION_FAULT
    | AGG_M04_WITNESS_DIVERGENCE

  /** A push guarded by a condition. */
  function When<T>(condition: bool, value: T): seq<T> {
    if condition then [value] else []
  }
}
