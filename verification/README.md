# Bridge checker: verified model

A Dafny model of a read-only checker for cross-chain token bridges, and proofs of what the checker's answers mean.
`dafny verify dfyconfig.toml` checks the whole project.

The model follows the program's own parts.

- **Reconciliation.** `RouteAssessment` is the collector's assessment of two cut logs. `BridgeProtocol`, `BridgeRuns` and
  `Conservation` are the transfer protocol as a transition system over a home chain and any number of remotes, and the
  conservation law over every run and every pair of pins. `GateA`, `Scaling`, `GateB` and `Verdict` are the accounting gates
  and the verdict lattice; `RunVerdicts`, `EndToEnd` and `HiddenMint` say what they answer on runs.
- **Witnesses.** `Connectivity`, `Independence`, `FailureDomains` and `Correlation` are the component-merging loops,
  `Quorum` and `QuorumMeaning` the quorum decision; `QuorumOrder` and `QuorumTies` say when arrival order shows in it.
- **Replay.** `ReplayPlan`, `ReplayEngine`, `ReplayAnswers` and `ReplayRun` are one replay pass with a crash possible between
  any two writes, and a log of every request it makes. `ReplayProgress` is about what a pass does to each height,
  `ReplayHistory`, `ReplayVerdicts` and `ReplayLoss` about arbitrary sequences of passes. `ReplayHints` and `ReplaySafety` say
  which plans are safe against every answer and crash, `ReplayScope` when stored answers are about the heights asked for.
- **Lifecycle.** `Keys` and `Lifecycle` derive a message's state from its facts.
- **Scheduler.** `SchedulerModel` is the scheduler's state machine and its invariants; `Scheduler` (module `SchedulerObject`)
  is the object whose methods refine it; `SchedulerFairness` is about waiting.
- **Codecs.** `CanonicalText`, `CanonicalJson`, `CanonicalMeaning`, `JsonReader` and `CanonicalParse` are canonical JSON with
  the escaping of section 7 of RFC 8259, written and read back; `ProofCodec`, `ProofSchema` and `ProofRecords` the proof-input
  codec; `Abi`, `AbiMessages` and `AbiLayouts` the ABI reader against the section "Formal Specification of the Encoding" of the Solidity "Contract ABI Specification".
- `Collections` and `Sorting` hold shared sequence vocabulary.

Hashes, digests, Unicode normalisation, provider answers, clocks and locale comparison are parameters. Amounts and heights are
unbounded integers; the uint256 bound appears where the code checks it.

## Where the code and its documentation differ

- **Stray burns.** A remote send that names the home chain but not the token home burns supply, and is neither pending nor
  unsupported. The published equation then misses it. `StraySend.EquationCanFail` exhibits such a run;
  `BridgeRuns.EquationIffBurnsRouted` gives the exact condition. What is worse, a stray burn can hide a mint: in
  `HiddenMint.MintCanHide` three unbacked units exist, the assessment is clean, Gate A passes and a covering escrow makes the
  verdict OK. `RunVerdicts.GateAExactOnRuns` states the gate over mints and stray burns, and
  `RunVerdicts.PassExcludesMintsIffRouted` when a pass rules mints out: exactly where every burn is routed.
- **Gaps beyond the window.** `findRangeGaps` may report a gap past the window's end, below a later committed range
  (`ReplayPlan.GapBeyondWindow`); `ReplayPlan.GapsSound` gives the exact horizon. This only withholds OK.
- **Lost heights.** A pass resumes after the checkpoint, so a height at or below it that has no committed range is never
  committed later. Exactly two endings of a pass leave such heights: dying between the facts and the row of a range, and
  stopping or dying while a hinted order has already carried the checkpoint past ranges still queued
  (`ReplayVerdicts.LostIff`; `ReplayLoss.HintsCanLoseAHeight` is such a pass). The verdict stays UNKNOWN
  (`ReplayVerdicts.LostIsNeverOk`). The comment at packages/replay/src/engine.ts:239-241 promises that abandoning the queue
  leaves no such hole. That holds, against all answers and all moments of death, exactly when no hinted range of the plan
  stands behind one without a hint, or too few groups are asked for any agreement (`ReplayHints.SafeIffOrderly`, and after any
  history `ReplaySafety.NextIsSafeIffOrderly`); a caller can check this before the pass.
- **Scope of answers.** The comments at packages/replay/src/range.ts:8-14 and 50-57 bind an answer to its range and to the
  identity of its blocks, but nothing compares the range or the blocks an answer names with those asked for. If all groups
  answer about other heights, the report over the window is OK although nothing on disk is about it
  (`ReplayScope.DisplacedIsOk`). Everything a pass stores is about what was asked for exactly when it asks some provider that
  keeps to its range, or has nothing to do (`ReplayScope.InScopeIffGoodIsAsked`).
- **Order of duplicates.** "The first observation wins" makes the fold depend on order exactly when one raw fact was decoded
  in two ways (`Lifecycle.OrderInvisibleIffOneDecoding`).
- **Joined keys.** Keys are joined with a separator that their parts may hold. A raw fact reference is unambiguous iff neither
  hash holds it (`Keys.RefUniqueIffPlain`), a message key iff its chain ids and messenger do not and no segment of its message
  id but the last reads as a version (`Keys.KeyUniqueIff`).
- **Sort ties.** Outcome, height, hash and number of quorum witnesses never depend on arrival order
  (`QuorumOrder.AnswerIgnoresOrder`). Which witnesses are named may, where the comparator ties different ones
  (`QuorumTies.TiesExposeOrder`, `QuorumTies.OrderInvisibleIffNoTopTies`).
- **Attempt budget below one.** A started job is then neither run nor reported (`SchedulerFairness.StartedJobVanishes`,
  `SchedulerModel.VanishesWithoutAttempts`). The configuration reads MAX_JOB_ATTEMPTS between 1 and 10
  (apps/agent/src/config.ts:192), so only a direct caller of the class can pass zero.
- **Layout.** packages/ictt-adapters/src/events.ts:18-20 says that data whose offsets or length do not match the pinned layout
  are refused. The dynamic decoders follow any aligned offset that stays inside the data, and ignore what comes after
  (`AbiLayouts.TransferrerExact`, `AbiLayouts.ReceivedExact`); a struct moved behind any number of foreign words still decodes
  (`AbiLayouts.MovedStructDecodes`). Of the accepted data, those in the pinned layout are the ones with offsets 32 and 64
  (`AbiLayouts.PinnedIffStandardOffsets`).

## Model

| member | source | states |
|---|---|---|
| `RouteAssessment.ByMessage` | packages/collector/src/model.ts:115-125 | the filled map lists message ids in order of first appearance, and under each id exactly the facts that carry it, in order |
| `RouteAssessment.CollectUnsupportedTypes` | packages/collector/src/model.ts:152-155 | exactly the payload types other than a single-hop send that were delivered on the route |
| `RouteAssessment.ScanDeliveries` | packages/collector/src/model.ts:162-198 | per delivered message, the credited effect, the open edge and the trace that its executions and sources call for |
| `RouteAssessment.ScanSends` | packages/collector/src/model.ts:200-235 | per sent message, the in-flight envelope, the duplicate-send report and the trace; an executed send is not pending |
| `RouteAssessment.AssessDirection` | packages/collector/src/model.ts:139-236 | one direction's pending transfers, effects, open edges, unsupported facts and traces as functions of the two cut logs |
| `RouteAssessment.AssessRoute` | packages/collector/src/model.ts:244-307 | both directions together, with the send-and-call and routed sends that touch the remote |
| `Conservation.SettledIsDone` | packages/collector/src/model.ts:163-168 | a message counts as settled exactly when the destination log executed a delivery of this route |
| `Conservation.NoOpenEdgeBacked` | packages/collector/src/model.ts:171-176 | without open edges every execution seen at the destination cut has its source inside the source cut |
| `Conservation.PendingIsRemaining` | packages/collector/src/model.ts:202-235 | the pending total is the sum of the sends not executed at the other cut |
| `Conservation.ExecutedTotal` | packages/collector/src/model.ts:17-33 | what was credited equals the sends that are done, when every execution is backed |
| `Conservation.OneDirection` | packages/collector/src/model.ts:139-236 | sent minus credited is the pending total, for every pair of cuts without open edges |
| `Conservation.CutsConserve` | packages/collector/src/model.ts:244-307 | for logs that follow the protocol and every pair of pins: D - S = pending total - unbacked supply whenever the assessment has no open edge and nothing unsupported |
| `BridgeRuns.HomeStep` | packages/collector/src/model.ts:17-33 | every home-chain step keeps fresh message ids, delivery before execution, and the causal link of each execution to its send |
| `BridgeRuns.RemoteStep` | packages/collector/src/model.ts:17-33 | the same for every step of a remote chain |
| `BridgeRuns.RunsAreOk` | packages/collector/src/model.ts:17-33 | the invariant holds after every run of any length over any number of remotes |
| `BridgeRuns.RunsConserve` | packages/invariant-core/src/gate-a.ts:9-36 | conservation over every run and every pair of cuts of it |
| `BridgeRuns.StrayIffMisaddressed` | packages/collector/src/model.ts:272-297 | no burn escapes the assessment exactly when every remote send to the home chain names the token home |
| `BridgeRuns.EquationIffBurnsRouted` | packages/invariant-core/src/gate-a.ts:9-36 | on a run without unbacked mints the published equation holds at a clean cut exactly when every burn is routed |
| `StraySend.EquationCanFail` | packages/collector/src/model.ts:272-297 | a run in which nothing is minted, the assessment is clean, and D - S still differs from the pending total |
| `GateA.MissingInputReasons` | packages/invariant-core/src/gate-a.ts:63-90 | the loop returns the distinct reasons of the input contract |
| `GateA.UnsupportedReasons` | packages/invariant-core/src/gate-a.ts:93-105 | the loop returns the distinct reasons for declining |
| `GateA.Reconcile` | packages/invariant-core/src/gate-a.ts:178-266 | the arithmetic half of Gate A: per-remote reconciliation, effect reasons, criticality and liveness |
| `GateA.EvaluateGateA` | packages/invariant-core/src/gate-a.ts:153-266 | unsupported first, missing input second, arithmetic last |
| `GateA.UnsupportedMeaning` | packages/invariant-core/src/gate-a.ts:93-105 | no reason for declining exactly when the family and every remote are supported |
| `GateA.MissingMeaning` | packages/invariant-core/src/gate-a.ts:63-90 | no missing-input reason exactly when the input contract is met |
| `GateA.EffectsMeaning` | packages/invariant-core/src/gate-a.ts:199-208 | no effect reason exactly when every effect is unique, authorised and route-matched |
| `GateA.ArithmeticMeaning` | packages/invariant-core/src/gate-a.ts:109-144 | a remote reconciles exactly when D - S equals its own pending in both directions, and is in excess exactly when S exceeds D |
| `GateA.ReconciledMeaning` | packages/invariant-core/src/gate-a.ts:178-266 | pass, fail and unknown of the arithmetic half, each with its exact condition |
| `GateA.GateAMeaning` | packages/invariant-core/src/gate-a.ts:146-266 | the four outcomes of Gate A and its criticality, each as an if-and-only-if over the input |
| `RunVerdicts.CutEffectsSound` | packages/collector/src/model.ts:162-198 | on a protocol run the effects reported at a clean cut are unique, authorised and route-matched |
| `RunVerdicts.RunReadingsFaithful` | packages/collector/src/model.ts:244-307 | every reading of a run reports D - S = pending - unbacked and sound effects when it is clean |
| `RunVerdicts.MineIsOwn` | packages/invariant-core/src/gate-a.ts:109-128 | a remote's reconciliation takes exactly its own envelopes out of all routes' pending transfers |
| `RunVerdicts.AnswerableIffClean` | packages/invariant-core/src/gate-a.ts:63-105 | Gate A answers on collected input exactly when no route has an open edge or an unsupported fact |
| `RunVerdicts.CleanReports` | packages/invariant-core/src/gate-a.ts:178-266 | breach and exactness of the collected input, in terms of each remote's unbacked supply |
| `RunVerdicts.GateAExactOnRuns` | packages/invariant-core/src/gate-a.ts:109-266 | on every run: pass iff every route is closed and supported and on every remote the mints equal the stray burns, CRITICAL iff on some remote the mints exceed stray burns and pending together; where every burn is routed, pass iff nothing was minted and CRITICAL iff some mint total exceeds the pending total |
| `RunVerdicts.PassExcludesMintsIffRouted` | packages/invariant-core/src/gate-a.ts:109-266 | on every run that passes: a remote has no mints exactly when every burn on it is routed, so a pass excludes all mints exactly when no burn is stray |
| `HiddenMint.MintCanHide` | packages/invariant-core/src/gate-a.ts:109-266 | a run with three unbacked units on which the assessment is clean, Gate A passes and a covering escrow gives OK |
| `HiddenMint.OffsetPasses` | packages/evidence/src/replay.ts:138-211 | every clean one-route reading whose mints are offset passes Gate A, and is OK under a covering escrow |
| `RunVerdicts.HonestRunsNeverCritical` | packages/invariant-core/src/gate-a.ts:109-266 | a run without unbacked mints never raises CRITICAL, and passes exactly when its burns were routed |
| `Scaling.MultiplierAlignsDecimals` | packages/ictt-adapters/src/scaling.ts:98-111 | the derived multiplier is the power of ten that aligns the two decimal counts, in the right direction |
| `Scaling.RoundTripBounds` | packages/ictt-adapters/src/scaling.ts:49-77 | whatever was scaled there: the way back succeeds iff it is defined and fits, never gains, loses less than one multiplier, and loses nothing where the remote is the finer side |
| `Scaling.CollateralIsLeastCover` | packages/ictt-adapters/src/scaling.ts:123-139 | in both directions of scale, the derived collateral is the least home amount whose remote value covers the imbalance |
| `GateB.FloorIsRemoveTokenScale` | packages/invariant-core/src/gate-b.ts:75-93 | the floor of the home-unit conversion equals removeTokenScale on every input, failures included |
| `GateB.EvaluateGateB` | packages/invariant-core/src/gate-b.ts:99-165 | the loop over remotes, its early exits, and the comparison with the escrow |
| `GateB.DustBounded` | packages/invariant-core/src/gate-b.ts:128-164 | total dust lies between zero and the number of dividing remotes |
| `GateB.DepositKeepsCover` | packages/ictt-adapters/src/scaling.ts:66-71 | a deposit that credits applyTokenScale keeps the escrow above the summed ceilings |
| `GateB.RedeemKeepsCover` | packages/ictt-adapters/src/scaling.ts:73-77 | a redemption that pays removeTokenScale keeps it too |
| `GateB.CoveredCanPay` | packages/ictt-adapters/src/scaling.ts:73-77 | a covered escrow can pay every redemption up to what the account holds |
| `GateB.AlwaysCanPay` | packages/invariant-core/src/gate-b.ts:9-28 | and so it can after any finite sequence of transfers |
| `GateB.CoverageIsInductive` | packages/invariant-core/src/gate-b.ts:9-28 | coverage, once true, survives every finite sequence of deposits and redemptions over any remotes and multipliers |
| `GateB.GateBMeaning` | packages/invariant-core/src/gate-b.ts:99-165 | on accounts it observes, Gate B says covered exactly when the escrow is at least the summed ceilings |
| `GateB.OnceCoveredAlwaysCovered` | packages/invariant-core/src/gate-b.ts:99-165 | Gate B keeps saying covered along every such sequence |
| `Verdict.WeakestIsWeakest` | packages/invariant-core/src/verdict.ts:87-93 | the aggregate claim is one of its members and no member is weaker |
| `Verdict.Aggregate` | packages/invariant-core/src/verdict.ts:107-171 | the reason loop and the status lattice |
| `Verdict.StatusMeaning` | packages/invariant-core/src/verdict.ts:107-171 | CRITICAL, UNKNOWN, WARN and OK each as an if-and-only-if over the contributions and every kind of absence |
| `Verdict.LoneStatus` | packages/evidence/src/replay.ts:144-180 | the lattice on the single contribution a replay makes |
| `Verdict.ReplayStatus` | packages/evidence/src/replay.ts:138-211 | the replayed status as a function of the rule's result and the input contract |
| `Verdict.VerdictMeaning` | packages/invariant-core/src/engine.ts:171-239 | OK iff the contract holds, every remote reconciles, every effect is sound and the escrow covers; CRITICAL iff Gate A proved a breach; WARN iff only coverage falls short |
| `EndToEnd.VerdictOnRuns` | packages/evidence/src/replay.ts:138-211 | the published verdict on every run and every pair of pins per route, in terms of mints, stray burns, pending and escrow; where burns are routed, OK iff closed, nothing minted and the escrow covers |
| `FailureDomains.IndependenceGroups` | packages/rpc-quorum/src/independence.ts:41-63 | the splicing loop computes the merged components |
| `FailureDomains.JoinWitness` | packages/rpc-quorum/src/independence.ts:45-61 | one round of the loop: touched components are spliced out and merged with the newcomer |
| `Independence.GroupsAreComponents` | packages/rpc-quorum/src/independence.ts:29-63 | the groups are a partition of the input into exactly the connected components of sharing a trust domain or a provider group |
| `Independence.CountIgnoresOrder` | packages/rpc-quorum/src/independence.ts:41-63 | the number of groups is the same for every permutation |
| `FailureDomains.JoinVote` | packages/evidence/src/verify.ts:250-264 | one vote joins the components that share one of its domains |
| `FailureDomains.CountVoteComponents` | packages/evidence/src/verify.ts:248-265 | the offline verifier's own loop counts exactly the independence groups |
| `FailureDomains.CollapsedIndependenceGroups` | packages/rpc-quorum/src/independence.ts:74-94 | the in-place relabelling of trust domains, pair by pair, and the grouping after it |
| `FailureDomains.CollapsedAreComponents` | packages/rpc-quorum/src/independence.ts:65-94 | with unique ids, the groups are exactly the components of the relation enlarged by the merge pairs |
| `FailureDomains.MoreMergesNeverRaise` | packages/rpc-quorum/src/independence.ts:65-94 | more merges never raise the count |
| `Correlation.PairLoops` | packages/rpc-quorum/src/independence.ts:175-192 | the nested loops visit every pair once, in id order |
| `Correlation.CorrelateEndpoints` | packages/rpc-quorum/src/independence.ts:168-194 | findings and merges of every pair of endpoints |
| `Correlation.ConclusivePairsMerged` | packages/rpc-quorum/src/independence.ts:146-194 | two endpoints with an equal secret reference or hostname are always merged |
| `Correlation.OneEndpointOneDomain` | packages/rpc-quorum/src/independence.ts:74-194 | composed with the collapsed groups, such endpoints never land in different groups |
| `Quorum.Screen` | packages/rpc-quorum/src/quorum.ts:130-166 | the identity and freshness screen, observation by observation, with the first matching rejection |
| `Quorum.EvaluateQuorum` | packages/rpc-quorum/src/quorum.ts:121-316 | the whole decision, from screening over lag and height to the hash |
| `Quorum.GroupByHash` | packages/rpc-quorum/src/quorum.ts:246-250 | witnesses by the hash they report, in order |
| `Quorum.AgreeOnHash` | packages/rpc-quorum/src/quorum.ts:246-316 | agreement, divergence or insufficiency at the chosen height |
| `QuorumMeaning.WitnessesIndependent` | packages/rpc-quorum/src/quorum.ts:99-111 | one witness per independence group, pairwise unlinked |
| `QuorumMeaning.CountedWitnesses` | packages/rpc-quorum/src/quorum.ts:130-197 | the two filters keep exactly the observations that match in identity, are fresh and are within the lag of the leading head |
| `QuorumMeaning.AgreementIsSound` | packages/rpc-quorum/src/quorum.ts:121-316 | agreed only if enough pairwise-unlinked, identity-matching, fresh, in-lag witnesses have heads at the height and report the hash, and no observation that counts reports a different one |
| `QuorumMeaning.AgreementIsComplete` | packages/rpc-quorum/src/quorum.ts:121-316 | agreed iff some observation that counts reports a hash, no two that count report different ones, and at least the minimum number of reporters are joined by no chain of shared domains and providers among the reporters |
| `QuorumMeaning.ChainedCountOnce` | packages/rpc-quorum/src/independence.ts:29-63 | two unlinked reporters with a third linked to both are one failure domain |
| `QuorumOrder.AnswerIgnoresOrder` | packages/rpc-quorum/src/quorum.ts:113-316 | for every comparator and every permutation of the observations: the same outcome, height, hash and number of witnesses |
| `QuorumOrder.PickedIffLeast` | packages/rpc-quorum/src/quorum.ts:99-111 | when endpoint ids tie only between equal witnesses, the picked ones are exactly those with the least id of their group |
| `QuorumOrder.ChosenIgnoresOrder` | packages/rpc-quorum/src/quorum.ts:99-111 | the chosen witnesses are the same for every order when ids, or else keys, tie only between equal witnesses |
| `QuorumOrder.DecisionIgnoresOrder` | packages/rpc-quorum/src/quorum.ts:113-316 | the whole decision, witnesses included, is the same for every order under that condition |
| `QuorumTies.TiesExposeOrder` | packages/rpc-quorum/src/quorum.ts:99-111 | under every comparator that ties the keys and ids of two different linked witnesses, their two orders choose different witnesses |
| `QuorumTies.OrderInvisibleIffNoTopTies` | packages/rpc-quorum/src/quorum.ts:99-111 | where links are transitive, the chosen witnesses are the same for every order iff no two different linked witnesses are both least by id and, among those, last by key |
| `ReplayPlan.PlanRanges` | packages/replay/src/plan.ts:37-49 | a width below one is refused; otherwise the window is tiled by chunks of at most that width |
| `ReplayPlan.TilesExactly` | packages/replay/src/plan.ts:31-49 | a tiling covers exactly the window, with no overlap |
| `ReplayPlan.SplitKeepsHeights` | packages/replay/src/plan.ts:58-66 | halving keeps exactly the heights, in order, and lowers the remaining work by one |
| `ReplayPlan.SplitKeepsOneEach` | packages/replay/src/engine.ts:198-202 | halving any element of a queue that holds each height of a window exactly once, in whatever order, leaves such a queue |
| `ReplayPlan.HintsKeepHeights` | packages/replay/src/hints.ts:82-95 | hints change neither the number of ranges each height is in nor the work |
| `ReplayPlan.InOrderIffHintsFirst` | packages/replay/src/hints.ts:82-95 | the queue is the ascending plan itself iff no hinted range stands behind one without a hint |
| `ReplayPlan.NoHintsNoReorder` | packages/replay/src/hints.ts:82-95 | without hints the queue is the ascending plan itself |
| `ReplayPlan.FindRangeGaps` | packages/replay/src/range.ts:182-195 | the cursor loop computes the sweep's gaps |
| `ReplayPlan.GapsSound` | packages/replay/src/range.ts:182-195 | the gaps hold exactly the uncovered heights from the window's start up to the later of its end and the last covered range's start |
| `ReplayPlan.GapsExact` | packages/replay/src/range.ts:182-195 | inside the window the gaps are exactly the uncovered heights; there is no gap iff everything up to that horizon is covered |
| `ReplayPlan.GapBeyondWindow` | packages/replay/src/range.ts:182-195 | a fully covered window can report a gap that lies beyond its end |
| `ReplayPlan.OkMeaning` | packages/replay/src/completeness.ts:69-102 | OK iff nothing is contested or blocked, nothing up to the horizon is missing, and the last success is within its time to live |
| `ReplayPlan.ClosedGapIsCovered` | packages/replay/src/completeness.ts:104-110 | a gap is closed iff every height of it is committed and no committed range further up leaves a hole behind it |
| `ReplayAnswers.FindLogIndexHole` | packages/replay/src/range.ts:162-179 | the per-block index map and its neighbour scan decide the hole test |
| `ReplayEngine.HoleMeaning` | packages/replay/src/range.ts:156-179 | an answer has no hole exactly when every block's log indices are free of repeats and gaps |
| `ReplayAnswers.GroupByDigest` | packages/replay/src/agreement.ts:48-53 | the digest map lists under each digest exactly the groups that returned it |
| `ReplayAnswers.AgreeOn` | packages/replay/src/agreement.ts:47-85 | the agreement loop and decision |
| `ReplayEngine.AgreeMeaning` | packages/replay/src/agreement.ts:26-85 | agreed iff there is an answer, all carry one digest, enough distinct groups answered and no undeclared archive was used |
| `ReplayEngine.AgreedWitnesses` | packages/replay/src/agreement.ts:78-84 | one witness per distinct group, each an answer given, all with the agreed digest |
| `ReplayEngine.AskGroups` | packages/replay/src/engine.ts:107-119 | groups are asked in order and the first failure ends the round |
| `ReplayEngine.CollectRange` | packages/replay/src/engine.ts:90-141 | the retry loop: agreed, split or blocked |
| `ReplayEngine.CollectedMeaning` | packages/replay/src/engine.ts:90-141 | a split is the two halves of the range, and an agreement comes from a round in which the groups agreed |
| `ReplayRun.StepRange` | packages/replay/src/engine.ts:193-287 | a split yields the halves; a stop changes no fact, has a blocking reason and leaves the range uncommitted; a completed range has an endorsed answer on disk, its checkpoint and its row; a torn one the first two; a process that dies earlier changed nothing; requests are bounded |
| `ReplayRun.DrainQueue` | packages/replay/src/engine.ts:192-299 | the worklist loop computes the recursion that the theorems about a pass are about |
| `ReplayRun.RunReplay` | packages/replay/src/engine.ts:150-337 | facts are kept and the checkpoint is not behind; what is lost and what is passed over, height by height; an OK report has every height of its window committed; requests are bounded |
| `ReplayHistory.CollectedIsEndorsed` | packages/replay/src/engine.ts:81-141 | collection makes at most max(1, retryBudget) rounds of one request per group, and each witness of an agreement was returned, to a request made for that very range, with one digest by enough distinct groups |
| `ReplayHistory.HistoriesSound` | packages/replay/src/engine.ts:143-299 | in every history: every stored batch was endorsed, all its logs and block hashes are on disk and the checkpoint covers it; every complete row has its batch; and nothing else is on disk |
| `ReplayHistory.OkIsSound` | packages/replay/src/engine.ts:150-337 | over every sequence of passes with arbitrary answers, hints, heads and crashes, an OK report has, for every height from the start block to its head, an endorsed answer whose logs and accepted block hashes are on disk |
| `ReplayScope.DisplacedIsOk` | packages/replay/src/range.ts:109-153 | over any window, if all groups asked answer about heights further up, the first report is OK and nothing stored is about the window |
| `ReplayScope.InScopeIffGoodIsAsked` | packages/replay/src/range.ts:58-71 | after any history, everything the next pass stores is about the range asked for, however the others answer, iff it asks some provider that keeps to its range or has nothing to do |
| `ReplayScope.OkIsInScope` | packages/replay/src/engine.ts:150-337 | where every pass asked such a provider, an OK rests at every height on an endorsed answer about that height |
| `ReplayHistory.StoredLogsEndorsed` | packages/replay/src/engine.ts:252-268 | every stored log was in an answer endorsed for a range at or below the checkpoint |
| `ReplayHistory.CheckpointOnlyAdvances` | packages/replay/src/engine.ts:143-149 | over every continuation the checkpoint never moves back, no log disappears and no accepted hash changes |
| `ReplayProgress.QueueExact` | packages/replay/src/engine.ts:162-183 | hints or not, the queue holds every height after the checkpoint in exactly one range, no other height and no empty range |
| `ReplayProgress.DrainAt` | packages/replay/src/engine.ts:192-299 | whatever the order, splits, stops and crash: of a queue that holds a height at most once, exactly the heights it no longer holds were stored, and all of those but a torn range were recorded |
| `ReplayProgress.PassLoses` | packages/replay/src/engine.ts:150-337 | exactly which heights a pass adds to those without a committed range and to those without facts |
| `ReplayHints.OrderlyPassesNothingOver` | packages/replay/src/engine.ts:239-243 | where the plan is orderly, whatever is left in the queue starts above the checkpoint, for all answers and crashes |
| `ReplayHints.SafeIffOrderly` | packages/replay/src/engine.ts:239-243 | no answers and no crash make a pass leave a height of its queue at or below the checkpoint, iff no hinted range stands behind one without a hint or nothing can be agreed on |
| `ReplaySafety.SameHistory` | packages/replay/src/engine.ts:143-149 | what has happened depends only on the answers to the requests already made |
| `ReplaySafety.NextIsSafeIffOrderly` | packages/replay/src/engine.ts:239-243 | after any history, nothing providers may still answer makes the next pass skip a height, iff its plan on the present database is orderly |
| `ReplaySafety.AllOrderlyIffAlwaysSafe` | packages/replay/src/engine.ts:239-243 | a history of orderly passes is one in which no pass, when it began, could have skipped a height |
| `ReplayProgress.PassKeepsPrefix` | packages/replay/src/engine.ts:192-299 | in any order of ranges: a complete prefix stays committed iff nothing was torn and all that is left starts above the checkpoint, and stays stored iff nothing was passed over |
| `ReplayProgress.EmptiedQueueKeepsPrefix` | packages/replay/src/engine.ts:192-299 | so a pass that empties its queue keeps both, whatever the hints |
| `ReplayVerdicts.LostIff` | packages/replay/src/engine.ts:143-299 | over every history: a height at or below the checkpoint has no committed range iff some pass tore its range or passed it over, and no facts iff some pass passed it over |
| `ReplayVerdicts.CommittedIffClean` | packages/replay/src/engine.ts:143-299 | every height up to the checkpoint is committed iff every pass ended with nothing torn and nothing left below the checkpoint |
| `ReplayVerdicts.CommittedIffNeverTorn` | packages/replay/src/engine.ts:143-299 | where plans are orderly: iff no process died between a range's facts and its row |
| `ReplayVerdicts.StoredUnlessPassedOver` | packages/replay/src/engine.ts:252-268 | up to the checkpoint every height that no pass passed over has an endorsed answer on disk, and only those have a batch |
| `ReplayVerdicts.PrefixAlwaysStored` | packages/replay/src/engine.ts:162-299 | over every sequence of orderly passes with crashes, splits and blocked ranges, every height from the start block to the checkpoint has an endorsed answer on disk |
| `ReplayVerdicts.OkIffCaughtUp` | packages/replay/src/engine.ts:300-337 | any report of any history says OK iff the checkpoint has reached the head, the last success is fresh and no lost height is in view |
| `ReplayVerdicts.CleanOkIffCaughtUp` | packages/replay/src/engine.ts:300-337 | where every pass ended clean, being caught up and fresh is all it takes |
| `ReplayVerdicts.LostForever` | packages/replay/src/engine.ts:162-183 | a height the checkpoint passed without a committed range is never committed by any continuation |
| `ReplayVerdicts.LostIsNeverOk` | packages/replay/src/completeness.ts:83-86 | every later report whose window holds such a height lists it as a gap and is not OK |
| `ReplayHints.CrashBetweenWritesLoses` | packages/replay/src/engine.ts:252-289 | an orderly pass that dies after any number of writes keeps the committed prefix iff it did not die between the facts and the row of a range, and then loses exactly the heights of that range, though they are stored |
| `ReplayProgress.PassWorkBounded` | packages/replay/src/engine.ts:192-202 | a pass over s heights sends each group at most 2 * s * max(1, retryBudget) requests, whatever providers answer |
| `ReplayLoss.HintsCanLoseAHeight` | packages/replay/src/engine.ts:182-250 | a hinted pass that then blocks leaves a height below the checkpoint unstored and lost |
| `Keys.MessageKeyInjective` | packages/state-machine/src/keys.ts:55-62 | with separator-free leading components a message key identifies all five components |
| `Keys.RawFactRefInjective` | packages/state-machine/src/keys.ts:64-65 | with separator-free hashes a raw fact reference identifies all four components |
| `Keys.RefUniqueIffPlain` | packages/state-machine/src/keys.ts:64-65 | a raw fact reference shares its text with no other iff neither hash holds the separator |
| `Keys.KeyUniqueIff` | packages/state-machine/src/keys.ts:46-62 | a message key shares its text with no other iff its chain ids and messenger are separator-free and no segment of its message id but the last is a canonical decimal |
| `Lifecycle.ReduceAllMeaning` | packages/state-machine/src/aggregate.ts:43-58 | folding fails iff some input belongs to another message, and otherwise keeps the first input of each raw fact |
| `Lifecycle.LatestObservedAt` | packages/state-machine/src/derive.ts:57-63 | the running maximum of the observation times |
| `Lifecycle.LifecycleIsSetFunction` | packages/state-machine/src/derive.ts:144-193 | when one raw fact always decodes to one input, the derived message is the same for every order and repetition of the inputs |
| `Lifecycle.OrderInvisibleIffOneDecoding` | packages/state-machine/src/aggregate.ts:36-54 | the facts kept are the same for every order exactly under that condition |
| `Lifecycle.RepeatIsIdempotent` | packages/state-machine/src/aggregate.ts:36-54 | a repeated raw fact changes nothing |
| `Lifecycle.CreditMeaning` | packages/state-machine/src/derive.ts:107-137 | the credited fact is the effect-carrying execution with the least reference |
| `Lifecycle.VerdictMeaning` | packages/state-machine/src/derive.ts:139-193 | CRITICAL iff two different raw facts each credited the message; OK iff an execution is recorded, no credit is doubled and no unsupported, orphaned or version-policy fact is present; the effect count is at most one |
| `Lifecycle.SafetyUnderExtension` | packages/state-machine/src/derive.ts:69-193 | under every extension of the facts CRITICAL stays, a blocked message never becomes OK, and the effect count never falls or exceeds one |
| `Lifecycle.GroupByMessage` | packages/state-machine/src/aggregate.ts:60-69 | every group is the fold of exactly its own inputs, in their order |
| `Lifecycle.GroupIsOwnMessage` | packages/state-machine/src/aggregate.ts:60-69 | with separator-free keys a message's group is reduceAll over the inputs that name it |
| `SchedulerObject.Scheduler.constructor` | apps/agent/src/scheduler.ts:66-80 | a new scheduler is empty and valid |
| `SchedulerObject.Scheduler.Submit` | apps/agent/src/scheduler.ts:99-115 | the four answers, and the whole new state for each |
| `SchedulerObject.Scheduler.Pump` | apps/agent/src/scheduler.ts:123-138 | jobs start in queue order on free lanes; afterwards all slots are full or every queued job's lane is busy |
| `SchedulerObject.Scheduler.RunSucceeded` | apps/agent/src/scheduler.ts:158-161 | a success is reported once and settles the job |
| `SchedulerObject.Scheduler.RunFailed` | apps/agent/src/scheduler.ts:162-174 | cancelled, timed out, abandoned, or waiting to retry |
| `SchedulerObject.Scheduler.SleepEnded` | apps/agent/src/scheduler.ts:144-148 | the next attempt, or cancellation after an abort |
| `SchedulerObject.Scheduler.SleepAborted` | apps/agent/src/scheduler.ts:180-188 | an aborted back-off is reported as cancelled |
| `SchedulerObject.Scheduler.CleanedUpAfter` | apps/agent/src/scheduler.ts:131-135 | a settled job frees its lane and, unless draining, more work starts |
| `SchedulerObject.Scheduler.BeginShutdown` | apps/agent/src/scheduler.ts:216-219 | draining begins and the queue is dropped |
| `SchedulerObject.Scheduler.GraceElapsed` | apps/agent/src/scheduler.ts:221-237 | the abort signal is raised |
| `SchedulerModel.FirstFree` | apps/agent/src/scheduler.ts:125-126 | the first queued job whose deployment has no lane, if there is one |
| `SchedulerModel.PumpKeeps` | apps/agent/src/scheduler.ts:123-138 | pumping keeps every invariant and fills the slots |
| `SchedulerModel.NextKeeps` | apps/agent/src/scheduler.ts:66-239 | every event keeps every invariant |
| `SchedulerModel.RunsValid` | apps/agent/src/scheduler.ts:1-24 | over every interleaving: at most maxConcurrency jobs, never two for one deployment, a bounded queue mirrored by its key set, attempts within budget, per-deployment order, accounts in balance |
| `SchedulerModel.AcceptedAccounted` | apps/agent/src/scheduler.ts:92-138 | each accepted job is in exactly one place: queued, live, reported or dropped by shutdown |
| `SchedulerModel.VanishesWithoutAttempts` | apps/agent/src/scheduler.ts:140-190 | accounts balance exactly when the attempt budget is at least one or nothing was started |
| `SchedulerModel.FilledStays` | apps/agent/src/scheduler.ts:117-138 | once slots are filled only a submission can leave a startable job waiting |
| `SchedulerFairness.NeverMovesBack` | apps/agent/src/scheduler.ts:99-138 | every event but shutdown leaves a queued job started or with no more jobs before it |
| `SchedulerFairness.CleanUpServes` | apps/agent/src/scheduler.ts:131-138 | a clean-up of its own lane, or any clean-up while its lane is free, starts a queued job or moves it forward |
| `SchedulerFairness.NeverStarved` | apps/agent/src/scheduler.ts:117-138 | over any events, a waiting job is passed over by at most as many such clean-ups as there were jobs before it |
| `SchedulerFairness.StartedJobVanishes` | apps/agent/src/scheduler.ts:140-190 | with an attempt budget below one, the first job submitted is started and is then in no queue, no report and no live flight |
| `SchedulerModel.ShutdownIsBounded` | apps/agent/src/scheduler.ts:208-238 | once draining, the jobs in flight are at most maxConcurrency and take together at most that many times a run and a back-off per attempt |
| `SchedulerModel.JobKeyInjective` | apps/agent/src/scheduler.ts:64-64 | deployment ids without a blank keep job keys apart |
| `CanonicalText.QuoteFree` | packages/evidence/src/canonical.ts:45-46 | a quoted string determines its content and its end, lone surrogates and escapes included |
| `CanonicalJson.RenderFree` | packages/evidence/src/canonical.ts:41-87 | the encoding is injective and prefix-free |
| `CanonicalMeaning.CanonicaliseRenders` | packages/evidence/src/canonical.ts:41-87 | the text is the rendering of the value's normal form, and is refused exactly when there is none |
| `CanonicalMeaning.SameTextIffSame` | packages/evidence/src/canonical.ts:29-87 | two values have one text exactly when they are the same document up to key order at every depth, normalisation and the spelling of integers |
| `CanonicalMeaning.ToCanonicalValue` | packages/evidence/src/canonical.ts:95-131 | the conversion loops: counts become text, undefined fields are skipped, the rest is refused |
| `CanonicalMeaning.UndefinedIsAbsent` | packages/evidence/src/canonical.ts:124-127 | an undefined field and an absent one have one text |
| `CanonicalMeaning.StringifyMeaning` | packages/evidence/src/canonical.ts:133-134 | exactly which graphs have a text, and when two of them share it |
| `JsonReader.RenderedReads` | packages/evidence/src/replay.ts:213-214 | reading a rendered document, whatever follows it, gives the document and leaves the rest |
| `CanonicalParse.ReparsedIsDocument` | packages/evidence/src/replay.ts:213-214 | parsing the canonical text of a value gives the document the value stands for |
| `CanonicalParse.CanonicalTextIsStable` | packages/evidence/src/replay.ts:213-214 | a canonical text, once parsed, is written as the same text |
| `ProofCodec.UintReads` | packages/evidence/src/replay.ts:23-28 | the decimal text of every uint256 is read back to it |
| `ProofCodec.DecodeEncode` | packages/evidence/src/replay.ts:11-52 | for every schema of these combinators, decoding undoes encoding on every value the schema describes |
| `ProofCodec.DecodedIsWhole` | packages/evidence/src/replay.ts:132-134 | whatever decodes re-encodes to the same text and is the same document, so no unknown field is accepted at any depth |
| `ProofSchema.ProofInputRoundTrip` | packages/evidence/src/replay.ts:54-135 | every value of the proof input's schema survives encoding and decoding |
| `ProofRecords.InputOneToOne` | packages/evidence/src/replay.ts:54-131 | no two proof inputs are written as one value |
| `ProofRecords.ProofInputSurvives` | packages/evidence/src/replay.ts:54-135 | every proof input with normalised text, uint256 amounts and safe counts is encoded, and the document decodes to that input and no other |
| `Abi.BodyExact` | packages/ictt-adapters/src/events.ts:73-76 | exactly the 0x-prefixed lower-case texts of whole bytes are read, each to its own digits |
| `Abi.BytesInside` | packages/ictt-adapters/src/events.ts:122-136 | on any data, a successful read stayed inside it and found a length word, that many bytes and zero padding |
| `Abi.DynamicBytesExact` | packages/ictt-adapters/src/events.ts:122-136 | the reader yields p at an offset iff the offset is aligned and the data hold the standard encoding of p there |
| `Abi.BytesRoundTrip` | packages/ictt-adapters/src/events.ts:122-136 | the standard encoding is read back wherever it starts and whatever follows |
| `AbiMessages.TransferrerRoundTrip` | packages/ictt-adapters/src/events.ts:328-345 | for every message type and payload the standard encoding decodes to the type and the interpreted payload, whatever follows it |
| `AbiLayouts.TransferrerExact` | packages/ictt-adapters/src/events.ts:328-345 | a message decodes to x iff the two offsets written in it lead, wherever they point, to an encoding of x |
| `AbiLayouts.TransferrerMessageExact` | packages/ictt-adapters/src/events.ts:328-345 | the texts that decode to x are the 0x-prefixed lower-case texts of such data |
| `AbiLayouts.PinnedIffStandardOffsets` | packages/ictt-adapters/src/events.ts:17-20 | accepted data are in the pinned layout iff their offsets are 32 and 64 |
| `AbiLayouts.MovedStructDecodes` | packages/ictt-adapters/src/events.ts:328-345 | a struct moved behind any number of foreign words decodes as if it had not moved |
| `AbiMessages.SingleHopExact` | packages/ictt-adapters/src/events.ts:340-344 | a single-hop payload decodes exactly from its own encoding |
| `AbiMessages.SingleHopRoundTrip` | packages/ictt-adapters/src/events.ts:328-345 | a single-hop send survives with its recipient and amount |
| `AbiMessages.SettingsExact` | packages/ictt-adapters/src/events.ts:419-430 | the remote settings decode exactly from their own encoding |
| `AbiMessages.ReceivedRoundTrip` | packages/ictt-adapters/src/events.ts:271-292 | the delivered fields come back for every relayer list, receipt list and message |
| `AbiLayouts.ReceivedExact` | packages/ictt-adapters/src/events.ts:271-292 | a delivery decodes to r iff its offsets, wherever they point, lead to the fields of r and stay inside the data |

## Left out

- Message texts, findings' wording, run books, and the per-range lines of a replay report.
- Unsupported facts of a route and aggregated reasons are sets, so the order and multiplicity of those lists are not modelled.
- Lower-casing is ASCII only; identifiers are hexadecimal or ASCII.
- Outside canonical JSON, strings are compared by code point; the two orders differ only between surrogate pairs and the last basic-plane characters.
- The JSON reader covers what canonical texts use: no blanks and no numbers, and no key twice in one object.
- Locale comparison in the quorum is an arbitrary comparator, with its ties made explicit.
- OrderInvisibleIffNoTopTies: is stated where links are transitive; without that, whether ties show depends on which of several linked groups are merged first, and only the two sufficient conditions and the tied pair are proved.
- The database is abstract: one atomic step stores facts and advances the checkpoint, or raises a hash conflict and changes nothing; range rows are keyed by range; the batches written are remembered beside it, so that theorems can name them. SQL, migrations and leases are not part of this model.
- Digest collisions: the scope theorems take digests to bind the bounds and blocks they are taken of.
- A replay history keeps one configuration and one digest function; groups, width, head, hints, clock and crash point vary per pass.
- Log facts are keyed by block hash alone in the hole test, since one observation is about one chain.
- Hint admission and census of remotes: conditionals with little to prove.
- Scheduler: durations, reason codes and reentrant or throwing callbacks are not modelled; a runner, a sleep and a promise clean-up are separate events.
- The lifecycle's chain position and causal watermark are not part of this model.
- Registry versions and log indices are integers written in plain decimal.
- Field names of the proof input are distinct ASCII names; their spelling, and how strings become code units, are parameters.
- ABI: event topics, and the fully static events other than the remote settings, are not modelled; a delivered message and a payload are decoded from the data part.
- canonicalInputString, the evidence hash, and the rest of the bundle verifier: field equalities and foreign calls.
- RPC transport, HTTP, DNS, command line, hosted API, console, configuration loading, redaction, alerting and its outbox: input, output or plumbing.
