/** From the two gates to one verdict: the canonical rule, its aggregation, and the offline replay of a proof. */
module Verdict {
  import opened Collections
  import opened ProofInputs
  import opened GateA
  import opened GateB

  datatype ProofResult = PASS | FAIL | UNKNOWN_RESULT | UNSUPPORTED_RESULT

  datatype ProtocolStatus = OK | WARN | CRITICAL | UNKNOWN

  datatype DataStatus = COMPLETE | STALE | PARTIAL | DIVERGENT | UNKNOWN_DATA

  datatype ClaimMode = EXACT | CAUSAL_EXACT | SUFFICIENT_UPPER_BOUND | INDETERMINATE | UNSUPPORTED_CLAIM

  datatype Coverage = FULL | SOME | UNVERIFIED

  datatype Contribution = Contribution(
    ruleId: string,
    result: ProofResult,
    critical: bool,
    required: bool,
    claimMode: ClaimMode,
    reasons: seq<ReasonCode>)

  datatype AggregationInput = AggregationInput(
    contributions: seq<Contribution>,
    dataStatus: DataStatus,
    coverage: Coverage,
    missingRequired: seq<string>,
    previousOkExpired: bool,
    evaluationFaults: seq<string>)

  /** The code and rule-id lists are reported sorted; reasons without repeats, so as a set. */
  datatype GlobalVerdict = GlobalVerdict(
    protocolStatus: ProtocolStatus,
    dataStatus: DataStatus,
    claimMode: ClaimMode,
    coverage: Coverage,
    reasonCodes: set<ReasonCode>,
    criticalRuleIds: multiset<string>,
    unknownRuleIds: multiset<string>)

  function Rank(m: ClaimMode): nat {
    match m
    case EXACT => 0
    case CAUSAL_EXACT => 1
    case SUFFICIENT_UPPER_BOUND => 2
    case INDETERMINATE => 3
    case UNSUPPORTED_CLAIM => 4
  }

  /** The fold: the first worst mode wins. */
  function Worst(modes: seq<ClaimMode>): ClaimMode
    requires modes != []
  {
    if |modes| == 1 then modes[0]
    else
      var worst, m := Worst(modes[..|modes| - 1]), modes[|modes| - 1];
      if Rank(m) > Rank(worst) then m else worst
  }

  function WeakestClaim(modes: seq<ClaimMode>): ClaimMode {
    if modes == [] then UNSUPPORTED_CLAIM else Worst(modes)
  }

  /** An aggregate is exactly as strong as its softest member. */
  lemma {:induction false} WeakestIsWeakest(modes: seq<ClaimMode>)
    requires modes != []
    ensures WeakestClaim(modes) in modes
    ensures forall m :: m in modes ==> Rank(m) <= Rank(WeakestClaim(modes))
  {
    if |modes| > 1 {
      WeakestIsWeakest(modes[..|modes| - 1]);
    }
  }

  predicate BlocksAsUnknown(c: Contribution) {
    c.required && (c.result == UNKNOWN_RESULT || c.result == UNSUPPORTED_RESULT)
  }

  function IdsWhere(p: Contribution -> bool, cs: seq<Contribution>): multiset<string> {
    if cs == [] then multiset{}
    else IdsWhere(p, cs[..|cs| - 1]) + (if p(cs[|cs| - 1]) then multiset{cs[|cs| - 1].ruleId} else multiset{})
  }

  lemma {:induction false} IdsWhereEmpty(p: Contribution -> bool, cs: seq<Contribution>)
    ensures IdsWhere(p, cs) == multiset{} <==> forall c :: c in cs ==> !p(c)
  {
    if cs != [] {
      assert cs == cs[..|cs| - 1] + [cs[|cs| - 1]];
      IdsWhereEmpty(p, cs[..|cs| - 1]);
      assert p(cs[|cs| - 1]) ==> cs[|cs| - 1].ruleId in IdsWhere(p, cs);
    }
  }

  function CriticalIds(cs: seq<Contribution>): multiset<string> {
    IdsWhere((c: Contribution) => c.critical, cs)
  }

  function UnknownIds(cs: seq<Contribution>): multiset<string> {
    IdsWhere(BlocksAsUnknown, cs)
  }

  function ReasonsOf(cs: seq<Contribution>): set<ReasonCode> {
    set c, r | c in cs && r in c.reasons :: r
  }

  function AbsenceReasons(input: AggregationInput): set<ReasonCode> {
    (if input.missingRequired != [] then {AGG_M01_REQUIRED_EVALUATION_MISSING} else {}) +
    (if input.previousOkExpired then {AGG_M02_PREVIOUS_OK_EXPIRED} else {}) +
    (if input.evaluationFaults != [] then {AGG_M03_EVALUATION_FAULT} else {}) +
    (if input.dataStatus == STALE then {ACC_I06_STALE_OBSERVATION} else {}) +
    (if input.dataStatus == DIVERGENT then {AGG_M04_WITNESS_DIVERGENCE} else {})
  }

  function Status(input: AggregationInput): ProtocolStatus {
    if CriticalIds(input.contributions) != multiset{} then CRITICAL
    else if || UnknownIds(input.contributions) != multiset{} || input.missingRequired != [] || input.previousOkExpired
            || input.evaluationFaults != [] || input.dataStatus != COMPLETE || input.coverage != FULL then UNKNOWN
    else if exists c :: c in input.contributions && c.result == FAIL && !c.critical then WARN
    else OK
  }

  function Aggregated(input: AggregationInput): GlobalVerdict {
    GlobalVerdict(Status(input), input.dataStatus, WeakestClaim(Map((c: Contribution) => c.claimMode, input.contributions)), input.coverage,
                  ReasonsOf(input.contributions) + AbsenceReasons(input),
                  CriticalIds(input.contributions), UnknownIds(input.contributions))
  }

  method Aggregate(input: AggregationInput) returns (v: GlobalVerdict)
    ensures v == Aggregated(input)
  {
    var reasons: set<ReasonCode> := {};
    var cs := input.contributions;
    for i := 0 to |cs|
      invariant reasons == ReasonsOf(cs[..i])
    {
      PrefixStep(cs, i);
      ghost var before := reasons;
      for j := 0 to |cs[i].reasons|
        invariant reasons == before + ToSet(cs[i].reasons[..j])
      {
        PrefixStep(cs[i].reasons, j);
        reasons := reasons + {cs[i].reasons[j]};
      }
      assert cs[i].reasons[..|cs[i].reasons|] == cs[i].reasons;
      assert ReasonsOf(cs[..i + 1]) == before + ToSet(cs[i].reasons);
    }
    assert cs[..|cs|] == cs;
    v := GlobalVerdict(Status(input), input.dataStatus, WeakestClaim(Map((c: Contribution) => c.claimMode, cs)), input.coverage,
                       reasons + AbsenceReasons(input), CriticalIds(cs), UnknownIds(cs));
  }

  /** Nothing is absent: every required evaluation is there, nothing expired or failed, and the data are whole. */
  predicate NothingAbsent(input: AggregationInput) {
    && input.missingRequired == [] && !input.previousOkExpired && input.evaluationFaults == []
    && input.dataStatus == COMPLETE && input.coverage == FULL
  }

  predicate AnyCritical(cs: seq<Contribution>) {
    exists c :: c in cs && c.critical
  }

  predicate AnyUnanswered(cs: seq<Contribution>) {
    exists c :: c in cs && BlocksAsUnknown(c)
  }

  predicate AnyFailed(cs: seq<Contribution>) {
    exists c :: c in cs && c.result == FAIL
  }

  /** The lattice: a proven breach is never downgraded, an absent answer never reads as OK or WARN, and OK needs everything. */
  lemma StatusMeaning(input: AggregationInput)
    ensures Status(input) == CRITICAL <==> AnyCritical(input.contributions)
    ensures Status(input) == UNKNOWN <==>
              !AnyCritical(input.contributions) && (AnyUnanswered(input.contributions) || !NothingAbsent(input))
    ensures Status(input) == WARN <==>
              !AnyCritical(input.contributions) && !AnyUnanswered(input.contributions) && NothingAbsent(input) && AnyFailed(input.contributions)
    ensures Status(input) == OK <==>
              !AnyCritical(input.contributions) && !AnyUnanswered(input.contributions) && NothingAbsent(input) && !AnyFailed(input.contributions)
  {
    IdsWhereEmpty((c: Contribution) => c.critical, input.contributions);
    IdsWhereEmpty(BlocksAsUnknown, input.contributions);
    var warns := exists c :: c in input.contributions && c.result == FAIL && !c.critical;
    assert !AnyCritical(input.contributions) ==> (warns <==> AnyFailed(input.contributions));
  }

  // ---- the canonical rule

  const RULE_ID := "ACC-ERC20-CANONICAL"

  function Combine(a: GateAResult, b: GateBResult): ProofResult {
    match a.outcome
    case NotSupported => UNSUPPORTED_RESULT
    case Unknown => UNKNOWN_RESULT
    case Fail => FAIL
    case Pass =>
      match b.outcome
      case Shortfall => FAIL
      case Undecided => UNKNOWN_RESULT
      case Covered => PASS
  }

  datatype Evaluation = Evaluation(result: ProofResult, reasons: seq<ReasonCode>, critical: bool, gateA: GateAResult, gateB: GateBResult)

  function EvaluateCanonicalErc20(input: ProofInput): Evaluation {
    var a := Evaluated(input);
    var b := EvaluatedB(input, a.outcome == Pass);
    Evaluation(Combine(a, b), Dedup(a.reasons + (if a.outcome == Pass then b.reasons else [])), a.critical, a, b)
  }

  // ---- replaying a proof offline

  function Contributed(e: Evaluation): Contribution {
    Contribution(
      RULE_ID, e.result, e.critical, true,
      if e.result == UNKNOWN_RESULT then INDETERMINATE else if e.result == UNSUPPORTED_RESULT then UNSUPPORTED_CLAIM else CAUSAL_EXACT,
      e.reasons)
  }

  function ReplayAggregation(input: ProofInput): AggregationInput {
    var divergent := input.freshness.independentWitnessGroups < input.freshness.requiredWitnessGroups;
    AggregationInput(
      [Contributed(EvaluateCanonicalErc20(input))],
      if divergent then DIVERGENT
      else if !input.freshness.isFresh then STALE
      else if input.census != CompleteFromDeploymentBlock then PARTIAL
      else COMPLETE,
      if divergent then UNVERIFIED else if input.untrackedRemotes != [] then SOME else FULL,
      if input.remotes == [] then [RULE_ID] else [],
      !input.freshness.isFresh,
      [])
  }

  function ReplayProof(input: ProofInput): GlobalVerdict {
    Aggregated(ReplayAggregation(input))
  }

  /** The escrow was observed at a pin, every liability converts, and their rounded-up sum is covered. */
  predicate EscrowCovers(input: ProofInput) {
    && input.homeEscrow.escrowBalance.Some? && input.homeEscrow.homePin.Some?
    && Liabilities(input.remotes).AllOf?
    && CeilTotal(Liabilities(input.remotes).liabilities) <= input.homeEscrow.escrowBalance.value
  }

  predicate EscrowShort(input: ProofInput) {
    && input.homeEscrow.escrowBalance.Some? && input.homeEscrow.homePin.Some?
    && Liabilities(input.remotes).AllOf?
    && input.homeEscrow.escrowBalance.value < CeilTotal(Liabilities(input.remotes).liabilities)
  }

  /** Everything Gate A asks for: supported, observed, in range, sound effects, exact on every remote. */
  predicate AccountsReconcile(input: ProofInput) {
    Answerable(input) && !Breach(input) && Exact(input)
  }

  lemma GateBOnceAPassed(input: ProofInput)
    requires ContractMet(input)
    ensures EvaluatedB(input, true).outcome == Covered <==> EscrowCovers(input)
    ensures EvaluatedB(input, true).outcome == Shortfall <==> EscrowShort(input)
  {
  }

  /** The lattice on a single required contribution. */
  lemma LoneStatus(a: AggregationInput, c: Contribution)
    requires a.contributions == [c] && c.required
    ensures Status(a) ==
            if c.critical then CRITICAL
            else if c.result == UNKNOWN_RESULT || c.result == UNSUPPORTED_RESULT || !NothingAbsent(a) then UNKNOWN
            else if c.result == FAIL then WARN
            else OK
  {
    assert c in a.contributions && forall x :: x in a.contributions ==> x == c;
    StatusMeaning(a);
  }

  lemma ReplayStatus(input: ProofInput)
    ensures var e := EvaluateCanonicalErc20(input);
            var s := ReplayProof(input).protocolStatus;
            && (s == CRITICAL <==> e.critical)
            && (ContractMet(input) && !e.critical ==>
                  s == if e.result == PASS then OK else if e.result == FAIL then WARN else UNKNOWN)
            && (!ContractMet(input) ==> e.result == UNKNOWN_RESULT || e.result == UNSUPPORTED_RESULT)
            && (!e.critical && (e.result == UNKNOWN_RESULT || e.result == UNSUPPORTED_RESULT) ==> s == UNKNOWN)
  {
    LoneStatus(ReplayAggregation(input), Contributed(EvaluateCanonicalErc20(input)));
    GateAMeaning(input);
  }

  // The end-to-end meaning of a verdict.
  // OK: the input contract holds, every remote reconciles exactly, every effect is unique, authorised and matched,
  // and the escrow covers the summed ceilings. CRITICAL: Gate A proved a breach, whatever else is unknown.
  // WARN: everything reconciles and only the physical coverage falls short. UNKNOWN: none of these.
  lemma VerdictMeaning(input: ProofInput)
    ensures var s := ReplayProof(input).protocolStatus;
            && (s == OK <==> AccountsReconcile(input) && EscrowCovers(input))
            && (s == CRITICAL <==> Answerable(input) && Breach(input))
            && (s == WARN <==> AccountsReconcile(input) && EscrowShort(input))
  {
    GateAMeaning(input);
    ReplayStatus(input);
    if ContractMet(input) {
      GateBOnceAPassed(input);
    }
  }
}
