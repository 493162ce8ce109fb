/** From a run of the protocol to the published verdict. */
module EndToEnd {
  import opened Collections
  import opened RouteAssessment
  import opened BridgeProtocol
  import opened BridgeRuns
  import opened ProofInputs
  import opened GateA
  import opened RunVerdicts
  import opened Verdict

  /** What the published status says of the reports, given the escrow. */
  predicate StatusOfReports(s: ProtocolStatus, rps: seq<Report>, input: ProofInput) {
    && (s == CRITICAL <==> AllClean(rps) && Overminted(rps))
    && (s == OK <==> AllClean(rps) && AllBacked(rps) && EscrowCovers(input))
    && (s == WARN <==> AllClean(rps) && AllBacked(rps) && EscrowShort(input))
  }

  lemma VerdictOnReports(routes: seq<Route>, steps: seq<Step>, rs: seq<Reading>, base: ProofInput, digestOf: DigestOf)
    requires IsRun(routes, steps) && ReadFrom(routes, After(|routes|, steps), rs)
    requires Collectable(base, Reports(rs, digestOf))
    ensures var rps := Reports(rs, digestOf);
            var input := CollectedInput(base, rps);
            var s := ReplayProof(input).protocolStatus;
            StatusOfReports(s, rps, input)
  {
    var rps := Reports(rs, digestOf);
    var input := CollectedInput(base, rps);
    RunReadingsFaithful(routes, steps, rs, digestOf);
    AnswerableIffClean(base, rps);
    VerdictMeaning(input);
    if AllClean(rps) {
      CleanReports(base, rps);
      forall rp | rp in rps ensures PendingTotal(rp.assessment.pending) >= 0 {
        PendingNonNegative(rp.assessment.pending);
      }
    }
  }

  /** What the published status says of the mints, given the escrow. */
  predicate StatusOfMints(s: ProtocolStatus, closed: bool, rs: seq<Reading>, input: ProofInput, digestOf: DigestOf) {
    && (s == CRITICAL <==> closed && NetMintsExceed(rs, digestOf))
    && (s == OK <==> closed && MintsOffset(rs) && EscrowCovers(input))
    && (s == WARN <==> closed && MintsOffset(rs) && EscrowShort(input))
    && (AllRouted(rs) ==>
          && (s == CRITICAL <==> closed && MintsExceed(rs, digestOf))
          && (s == OK <==> closed && NoMints(rs) && EscrowCovers(input)))
  }

  lemma StatusInMints(s: ProtocolStatus, rs: seq<Reading>, input: ProofInput, digestOf: DigestOf)
    requires StatusOfReports(s, Reports(rs, digestOf), input)
    ensures StatusOfMints(s, AllClean(Reports(rs, digestOf)), rs, input, digestOf)
  {
    UnbackedIsNet(rs, digestOf);
    if AllRouted(rs) {
      RoutedHasNoStray(rs, digestOf);
    }
  }

  // For every run and every pair of pins per route: CRITICAL iff on some remote the mints exceed stray burns and pending
  // together, and OK iff every route is closed and supported, stray burns equal the mints everywhere, and the escrow covers
  // the rounded-up liabilities. Where every burn is routed, OK means that nothing was minted.
  lemma VerdictOnRuns(routes: seq<Route>, steps: seq<Step>, rs: seq<Reading>, base: ProofInput, digestOf: DigestOf)
    requires IsRun(routes, steps) && ReadFrom(routes, After(|routes|, steps), rs)
    requires Collectable(base, Reports(rs, digestOf))
    ensures var input := CollectedInput(base, Reports(rs, digestOf));
            StatusOfMints(ReplayProof(input).protocolStatus, AllClean(Reports(rs, digestOf)), rs, input, digestOf)
  {
    VerdictOnReports(routes, steps, rs, base, digestOf);
    var input := CollectedInput(base, Reports(rs, digestOf));
    StatusInMints(ReplayProof(input).protocolStatus, rs, input, digestOf);
  }
}
