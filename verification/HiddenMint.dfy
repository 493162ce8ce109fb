/** A run with a real unbacked mint on which Gate A passes: a stray burn of the same size hides it. */
module HiddenMint {
  import opened Collections
  import opened RouteAssessment
  import opened BridgeProtocol
  import opened Conservation
  import opened BridgeRuns
  import opened ProofInputs
  import opened GateA
  import opened RunVerdicts
  import opened Verdict
  import opened EndToEnd
  import opened StraySend

  const MINT := Minted(3)
  const INFLATED: Log := REMOTE + [MINT]
  const MINT_STEPS: seq<Step> := STEPS + [OnRemote(0, MINT)]

  lemma InflatedRead()
    ensures SentFacts(INFLATED) == SentFacts(REMOTE) && OtherFacts(INFLATED) == [] && DeliveredFacts(INFLATED) == DeliveredFacts(REMOTE)
    ensures ExecutedFacts(INFLATED, "h") == ExecutedFacts(REMOTE, "h") && FailedFacts(INFLATED, "h") == FailedFacts(REMOTE, "h")
    ensures Total(MintedAmount, INFLATED) == 3 && TotalSupply(ROUTE, INFLATED) == 5
    ensures Total(StrayAmounts(ROUTE), INFLATED) == 3
  {
    Read();
    Identities();
    Appended(REMOTE, MINT, "h");
    Stray();
    TotalPush(StrayAmounts(ROUTE), REMOTE, MINT);
    assert INFLATED[..|REMOTE|] == REMOTE;
  }

  lemma TotalPush(delta: Entry -> int, log: Log, e: Entry)
    ensures Total(delta, log + [e]) == Total(delta, log) + delta(e)
  {
    assert (log + [e])[..|log|] == log;
  }

  lemma Stray()
    ensures Total(StrayAmounts(ROUTE), REMOTE) == 3
  {
    Identities();
    TotalPush(StrayAmounts(ROUTE), [], E1);
    TotalPush(StrayAmounts(ROUTE), REMOTE1, E2);
    TotalPush(StrayAmounts(ROUTE), REMOTE2, E3);
  }

  lemma InflatedRun()
    ensures IsRun([ROUTE], MINT_STEPS) && After(1, MINT_STEPS) == System(HOME, [INFLATED])
  {
    AllSteps();
    Read();
    InflatedRead();
    Takes(STEPS, OnRemote(0, MINT));
  }

  lemma InflatedClean(pin: Pin, digestOf: DigestOf)
    ensures var a := AssessmentAt(ROUTE, HOME, pin, INFLATED, pin, digestOf); Clean(a)
  {
    CleanCut(pin, digestOf);
    InflatedRead();
    assert SideAt("r", "h", pin, INFLATED) == SideAt("r", "h", pin, REMOTE);
  }

  function ReadingAt(pin: Pin, scale: TokenScale): Reading {
    Reading(ROUTE, HOME, pin, INFLATED, pin, scale)
  }

  lemma ReadingFacts(pin: Pin, scale: TokenScale, digestOf: DigestOf)
    ensures var rd := ReadingAt(pin, scale);
            MintedIn(rd) == StrayIn(rd) == 3 && Clean(ReportOf(rd, digestOf).assessment) && ReadFrom([ROUTE], System(HOME, [INFLATED]), [rd])
  {
    InflatedRead();
    InflatedClean(pin, digestOf);
    LogsRead(ReadingAt(pin, scale), System(HOME, [INFLATED]));
  }

  lemma LogsRead(rd: Reading, s: System)
    requires |s.remotes| == 1 && rd.home == s.home && rd.remote == s.remotes[0]
    ensures ReadFrom([rd.route], s, [rd])
  {
  }

  /** What the checker collects from one reading. */
  function InputFrom(rd: Reading, base: ProofInput, digestOf: DigestOf): ProofInput {
    CollectedInput(base, Reports([rd], digestOf))
  }

  lemma LoneReading(rd: Reading, base: ProofInput, digestOf: DigestOf)
    requires BaseMet(base) && rd.scale.established && InRange(rd.scale.tokenMultiplier)
    requires Clean(ReportOf(rd, digestOf).assessment) && MintedIn(rd) == StrayIn(rd)
    ensures Collectable(base, Reports([rd], digestOf)) && AllClean(Reports([rd], digestOf)) && MintsOffset([rd])
  {
    var rps := Reports([rd], digestOf);
    assert forall rp :: rp in rps ==> rp == ReportOf(rd, digestOf);
  }

  /** Three units exist that nothing backs; the assessment is clean, Gate A passes, and a covered escrow makes the verdict OK. */
  lemma MintCanHide(pin: Pin, scale: TokenScale, base: ProofInput, digestOf: DigestOf)
    requires BaseMet(base) && scale.established && InRange(scale.tokenMultiplier)
    ensures IsRun([ROUTE], MINT_STEPS) && ReadFrom([ROUTE], After(1, MINT_STEPS), [ReadingAt(pin, scale)])
    ensures MintedIn(ReadingAt(pin, scale)) == 3
    ensures Evaluated(InputFrom(ReadingAt(pin, scale), base, digestOf)).outcome == Pass
    ensures EscrowCovers(InputFrom(ReadingAt(pin, scale), base, digestOf)) ==>
              ReplayProof(InputFrom(ReadingAt(pin, scale), base, digestOf)).protocolStatus == OK
  {
    var rd := ReadingAt(pin, scale);
    InflatedRun();
    ReadingFacts(pin, scale, digestOf);
    LoneReading(rd, base, digestOf);
    OffsetPasses([ROUTE], MINT_STEPS, rd, base, digestOf);
  }

  /** Any run read at one route where the mints are offset passes, and is OK under a covering escrow. */
  lemma OffsetPasses(routes: seq<Route>, steps: seq<Step>, rd: Reading, base: ProofInput, digestOf: DigestOf)
    requires IsRun(routes, steps) && ReadFrom(routes, After(|routes|, steps), [rd])
    requires Collectable(base, Reports([rd], digestOf)) && AllClean(Reports([rd], digestOf)) && MintsOffset([rd])
    ensures Evaluated(InputFrom(rd, base, digestOf)).outcome == Pass
    ensures EscrowCovers(InputFrom(rd, base, digestOf)) ==> ReplayProof(InputFrom(rd, base, digestOf)).protocolStatus == OK
  {
    GateAExactOnRuns(routes, steps, [rd], base, digestOf);
    VerdictOnRuns(routes, steps, [rd], base, digestOf);
  }
}
