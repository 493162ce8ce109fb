/** Accepted-log replay: collect a range from every provider group, agree, and commit facts with their checkpoint. */
module ReplayEngine {
  import opened Collections
  import opened Sorting
  import opened ReplayPlan

  datatype LogFact = LogFact(blockHash: string, logIndex: int, content: string)

  datatype BlockFact = BlockFact(blockNumber: int, blockHash: string, accepted: bool)

  datatype Observation = Observation(
    providerGroup: string,
    range: BlockRange,
    startBlockHash: string,
    endBlockHash: string,
    logCount: int,
    logs: seq<LogFact>,
    blocks: seq<BlockFact>,
    complete: bool,
    viaArchive: bool)

  datatype RangeResult = RangeResult(
    providerGroup: string,
    range: BlockRange,
    digest: string,
    viaArchive: bool,
    endBlockHash: string,
    logs: seq<LogFact>,
    blocks: seq<BlockFact>)

  // ---- classifying one answer

  function IndicesOf(logs: seq<LogFact>, blockHash: string): seq<int> {
    Map((l: LogFact) => l.logIndex, Filter((l: LogFact) => l.blockHash == blockHash, logs))
  }

  function Ascending(): Order<int> {
    (a, b) => a <= b
  }

  predicate Consecutive(s: seq<int>) {
    forall k :: 0 <= k < |s| - 1 ==> s[k + 1] == s[k] + 1
  }

  /** Some block's sorted log indices do not follow one another. */
  predicate HasHole(logs: seq<LogFact>) {
    exists l :: l in logs && !Consecutive(Sort(Ascending(), IndicesOf(logs, l.blockHash)))
  }

  /** No index repeats, and none between two present ones is absent. */
  ghost predicate Dense(s: seq<int>) {
    Distinct(s) && forall x, y, z :: x in s && y in s && x <= z <= y ==> z in s
  }

  lemma {:induction false} ConsecutiveFrom(s: seq<int>, k: nat)
    requires Consecutive(s) && k < |s|
    ensures s[k] == s[0] + k
  {
    if k > 0 {
      ConsecutiveFrom(s, k - 1);
      assert s[k - 1 + 1] == s[k - 1] + 1;
    }
  }

  lemma SortedDenseIsConsecutive(s: seq<int>)
    requires SortedBy(Ascending(), s) && Dense(s)
    ensures Consecutive(s)
  {
    assert forall i, j :: 0 <= i < j < |s| ==> Ascending()(s[i], s[j]) && s[i] <= s[j];
    forall k | 0 <= k < |s| - 1 ensures s[k + 1] == s[k] + 1 {
      assert s[k] < s[k + 1];
      assert s[k] in s && s[k + 1] in s;
      assert s[k] + 1 in s;
      var j :| 0 <= j < |s| && s[j] == s[k] + 1;
    }
  }

  lemma ConsecutiveIsDense(s: seq<int>)
    requires Consecutive(s)
    ensures Dense(s)
  {
    forall k | 0 <= k < |s| ensures s[k] == s[0] + k {
      ConsecutiveFrom(s, k);
    }
    forall x, y, z | x in s && y in s && x <= z <= y ensures z in s {
      assert s[z - s[0]] == z;
    }
  }

  lemma DensePermuted(a: seq<int>, b: seq<int>)
    requires multiset(a) == multiset(b) && Dense(a)
    ensures Dense(b)
  {
    SameElements(a, b);
    DistinctPermuted(a, b);
  }

  /** The hole test accepts exactly the answers in which every block's log indices are dense. */
  lemma HoleMeaning(logs: seq<LogFact>)
    ensures !HasHole(logs) <==> forall l :: l in logs ==> Dense(IndicesOf(logs, l.blockHash))
  {
    forall l | l in logs
      ensures Consecutive(Sort(Ascending(), IndicesOf(logs, l.blockHash))) <==> Dense(IndicesOf(logs, l.blockHash))
    {
      var s := IndicesOf(logs, l.blockHash);
      SortSorts(Ascending(), s);
      if Dense(s) {
        DensePermuted(s, Sort(Ascending(), s));
        SortedDenseIsConsecutive(Sort(Ascending(), s));
      }
      if Consecutive(Sort(Ascending(), s)) {
        ConsecutiveIsDense(Sort(Ascending(), s));
        DensePermuted(Sort(Ascending(), s), s);
      }
    }
  }

  datatype Classified = Usable(result: RangeResult) | Refused(reason: ReplayReason, group: string)

  /** What a digest is taken of: bounds, end hashes, count and content, and not who answered. */
  datatype Digested = Digested(
    range: BlockRange,
    startBlockHash: string,
    endBlockHash: string,
    logCount: int,
    logs: seq<LogFact>,
    blocks: seq<BlockFact>)

  type DigestOf = Digested -> string

  function RangeDigest(o: Observation, digestOf: DigestOf): string {
    digestOf(Digested(o.range, o.startBlockHash, o.endBlockHash, o.logCount, o.logs, o.blocks))
  }

  function ClassifyObservation(o: Observation, digestOf: DigestOf): Classified {
    if |o.logs| != o.logCount then Refused(SILENT_TRUNCATION, o.providerGroup)
    else if exists b :: b in o.blocks && !b.accepted then Refused(NONCANONICAL_BLOCK_REJECTED, o.providerGroup)
    else if exists l :: l in o.logs && !exists b :: b in o.blocks && b.blockHash == l.blockHash then Refused(MISSING_BLOCK, o.providerGroup)
    else if !o.complete then Refused(if o.logs == [] then EMPTY_RESPONSE_AMBIGUITY else SILENT_TRUNCATION, o.providerGroup)
    else if HasHole(o.logs) then Refused(MISSING_LOG, o.providerGroup)
    else Usable(RangeResult(o.providerGroup, o.range, RangeDigest(o, digestOf), o.viaArchive, o.endBlockHash, o.logs, o.blocks))
  }

  // ---- agreement between groups

  datatype Config = Config(
    startBlock: int,
    requiredGroups: int,
    archiveDeclared: bool,
    retryBudget: int,
    ttlMs: int,
    maxHints: nat)

  datatype Agreement = Agreed(digest: string, witnesses: seq<RangeResult>) | Disagreed(reason: ReplayReason)

  function GroupsOf(results: seq<RangeResult>): seq<string> {
    Dedup(Map((r: RangeResult) => r.providerGroup, results))
  }

  /** `results.find(r => r.providerGroup === g)` */
  function FirstOf(results: seq<RangeResult>, g: string): seq<RangeResult> {
    if results == [] then []
    else if results[0].providerGroup == g then [results[0]]
    else FirstOf(results[1..], g)
  }

  /** The first result of each group, in the order given. */
  function WitnessesOf(results: seq<RangeResult>, groups: seq<string>): seq<RangeResult> {
    if groups == [] then []
    else WitnessesOf(results, groups[..|groups| - 1]) + FirstOf(results, groups[|groups| - 1])
  }

  function Agree(results: seq<RangeResult>, config: Config): Agreement {
    if (exists r :: r in results && r.viaArchive) && !config.archiveDeclared then Disagreed(ARCHIVE_FALLBACK_UNAVAILABLE)
    else if exists r :: r in results && r.digest != results[0].digest then Disagreed(PROVIDER_DIVERGENCE)
    else if |GroupsOf(results)| < config.requiredGroups then Disagreed(INSUFFICIENT_WITNESSES)
    else if results == [] then Disagreed(INSUFFICIENT_WITNESSES)
    else Agreed(results[0].digest, WitnessesOf(results, Sort(CodeUnitOrder(), GroupsOf(results))))
  }

  /** A range becomes fact only when enough distinct groups returned one digest, and none returned another. */
  lemma AgreeMeaning(results: seq<RangeResult>, config: Config)
    ensures Agree(results, config).Agreed? <==>
              && results != []
              && (forall r :: r in results ==> r.digest == results[0].digest)
              && |GroupsOf(results)| >= config.requiredGroups
              && (config.archiveDeclared || forall r :: r in results ==> !r.viaArchive)
    ensures Agree(results, config).Agreed? ==> Agree(results, config).digest == results[0].digest
  {
  }

  lemma {:induction false} FirstOfMember(results: seq<RangeResult>, r: RangeResult)
    requires r in results
    ensures var f := FirstOf(results, r.providerGroup); |f| == 1 && f[0] in results && f[0].providerGroup == r.providerGroup
  {
    if results[0].providerGroup != r.providerGroup {
      assert r in results[1..];
      FirstOfMember(results[1..], r);
    }
  }

  lemma {:induction false} WitnessesAreResults(results: seq<RangeResult>, groups: seq<string>)
    requires forall g :: g in groups ==> exists r :: r in results && r.providerGroup == g
    ensures |WitnessesOf(results, groups)| == |groups|
    ensures forall w :: w in WitnessesOf(results, groups) ==> w in results
  {
    if groups != [] {
      var n := |groups| - 1;
      assert groups[n] in groups && forall g :: g in groups[..n] ==> g in groups;
      WitnessesAreResults(results, groups[..n]);
      var r :| r in results && r.providerGroup == groups[n];
      FirstOfMember(results, r);
      var front, first := WitnessesOf(results, groups[..n]), FirstOf(results, groups[n]);
      assert WitnessesOf(results, groups) == front + first;
      assert forall w :: w in front + first ==> w in front || w == first[0];
    }
  }

  /** One witness per distinct group, each of them an answer that was given, all with the agreed digest. */
  lemma AgreedWitnesses(results: seq<RangeResult>, config: Config)
    requires Agree(results, config).Agreed?
    ensures var a := Agree(results, config);
            && |a.witnesses| == |GroupsOf(results)| >= config.requiredGroups && a.witnesses != []
            && forall w :: w in a.witnesses ==> w in results && w.digest == a.digest
  {
    var groups := GroupsOf(results);
    var sorted := Sort(CodeUnitOrder(), groups);
    SameElements(sorted, groups);
    forall g | g in sorted ensures exists r :: r in results && r.providerGroup == g {
      assert g in groups;
      var i :| 0 <= i < |results| && Map((r: RangeResult) => r.providerGroup, results)[i] == g;
      assert results[i] in results;
    }
    WitnessesAreResults(results, sorted);
    assert Map((r: RangeResult) => r.providerGroup, results)[0] in groups;
  }

  // ---- collecting one range

  datatype Fetch = Fetched(observation: Observation) | FetchFailed(reason: ReplayReason, group: string)

  /** One request a pass made; its number is its place in the log of all requests. */
  datatype Ask = Ask(group: string, range: BlockRange)

  /** The answer to the n-th request of the process's life: providers may answer anything at any time. */
  type Port = (nat, string, BlockRange) -> Fetch

  datatype Round = Answered(results: seq<RangeResult>, asked: seq<Ask>) | Broken(reason: ReplayReason, group: string, asked: seq<Ask>)

  /** Ask every group in order; the first failure ends the round. */
  function RunRound(port: Port, digestOf: DigestOf, groups: seq<string>, range: BlockRange, asked: seq<Ask>, results: seq<RangeResult>): Round {
    if groups == [] then Answered(results, asked)
    else
      var more := asked + [Ask(groups[0], range)];
      match port(|asked|, groups[0], range)
      case FetchFailed(reason, group) => Broken(reason, group, more)
      case Fetched(o) =>
        match ClassifyObservation(o, digestOf)
        case Refused(reason, group) => Broken(reason, group, more)
        case Usable(r) => RunRound(port, digestOf, groups[1..], range, more, results + [r])
  }

  datatype Collected =
    | CollectedAgreed(witnesses: seq<RangeResult>, digest: string)
    | CollectedSplit(first: BlockRange, second: BlockRange)
    | CollectedBlocked(reason: ReplayReason, group: Option<string>)

  datatype Collection = Collection(outcome: Collected, asked: seq<Ask>)

  /** What a finished round says: agreed, or failed for a reason. */
  datatype RoundVerdict = RoundAgreed(witnesses: seq<RangeResult>, digest: string) | RoundFailed(reason: ReplayReason, group: string)

  function JudgeRound(round: Round, config: Config): RoundVerdict {
    match round
    case Broken(reason, group, _) => RoundFailed(reason, group)
    case Answered(results, _) =>
      match Agree(results, config)
      case Agreed(digest, witnesses) => RoundAgreed(witnesses, digest)
      case Disagreed(reason) => RoundFailed(reason, "")
  }

  datatype Attempted = Final(collection: Collection) | Again(asked: seq<Ask>)

  /** One round and the decision after it. */
  function Attempt(port: Port, digestOf: DigestOf, groups: seq<string>, config: Config, range: BlockRange, attempts: nat, asked: seq<Ask>): (t: Attempted)
    ensures t.Again? ==> attempts + 1 < config.retryBudget
  {
    var round := RunRound(port, digestOf, groups, range, asked, []);
    match JudgeRound(round, config)
    case RoundAgreed(witnesses, digest) => Final(Collection(CollectedAgreed(witnesses, digest), round.asked))
    case RoundFailed(reason, group) =>
      match StepAfter(range, attempts, config.retryBudget, reason)
      case Retry(_) => Again(round.asked)
      case Split(a, b) => Final(Collection(CollectedSplit(a, b), round.asked))
      case GiveUp(final) => Final(Collection(CollectedBlocked(final, if group == "" then None else Some(group)), round.asked))
  }

  function Collect(port: Port, digestOf: DigestOf, groups: seq<string>, config: Config, range: BlockRange, attempts: nat, asked: seq<Ask>): Collection
    decreases config.retryBudget - attempts
  {
    match Attempt(port, digestOf, groups, config, range, attempts, asked)
    case Final(c) => c
    case Again(more) => Collect(port, digestOf, groups, config, range, attempts + 1, more)
  }

  method AskGroups(port: Port, digestOf: DigestOf, groups: seq<string>, range: BlockRange, asked0: seq<Ask>) returns (round: Round)
    ensures round == RunRound(port, digestOf, groups, range, asked0, [])
  {
    var results: seq<RangeResult>, asked := [], asked0;
    var k := 0;
    while k < |groups|
      invariant 0 <= k <= |groups|
      invariant RunRound(port, digestOf, groups[k..], range, asked, results) == RunRound(port, digestOf, groups, range, asked0, [])
    {
      assert groups[k..][1..] == groups[k + 1..];
      var answer := port(|asked|, groups[k], range);
      asked := asked + [Ask(groups[k], range)];
      if answer.FetchFailed? {
        return Broken(answer.reason, answer.group, asked);
      }
      var classified := ClassifyObservation(answer.observation, digestOf);
      if classified.Refused? {
        return Broken(classified.reason, classified.group, asked);
      }
      results := results + [classified.result];
      k := k + 1;
    }
    round := Answered(results, asked);
  }

  method AttemptOnce(port: Port, digestOf: DigestOf, groups: seq<string>, config: Config, range: BlockRange, attempts: nat, asked: seq<Ask>) returns (t: Attempted)
    ensures t == Attempt(port, digestOf, groups, config, range, attempts, asked)
  {
    var round := AskGroups(port, digestOf, groups, range, asked);
    var verdict := JudgeRound(round, config);
    if verdict.RoundAgreed? {
      return Final(Collection(CollectedAgreed(verdict.witnesses, verdict.digest), round.asked));
    }
    match StepAfter(range, attempts, config.retryBudget, verdict.reason)
    case Retry(_) => return Again(round.asked);
    case Split(a, b) => return Final(Collection(CollectedSplit(a, b), round.asked));
    case GiveUp(final) =>
      return Final(Collection(CollectedBlocked(final, if verdict.group == "" then None else Some(verdict.group)), round.asked));
  }

  method CollectRange(port: Port, digestOf: DigestOf, groups: seq<string>, config: Config, range: BlockRange, asked0: seq<Ask>) returns (c: Collection)
    ensures c == Collect(port, digestOf, groups, config, range, 0, asked0)
  {
    var attempts, asked := 0, asked0;
    while true
      invariant attempts >= 0
      invariant Collect(port, digestOf, groups, config, range, attempts, asked) == Collect(port, digestOf, groups, config, range, 0, asked0)
      decreases config.retryBudget - attempts
    {
      var t := AttemptOnce(port, digestOf, groups, config, range, attempts, asked);
      if t.Final? {
        return t.collection;
      }
      attempts, asked := attempts + 1, t.asked;
    }
  }

  /** What collection hands back: the halves of the range, or a round in which enough groups agreed. */
  lemma {:induction false} CollectedMeaning(port: Port, digestOf: DigestOf, groups: seq<string>, config: Config, range: BlockRange, attempts: nat, asked: seq<Ask>) returns (at: seq<Ask>)
    ensures var c := Collect(port, digestOf, groups, config, range, attempts, asked).outcome;
            && (c.CollectedSplit? ==> SplitRange(range) == Some((c.first, c.second)))
            && (c.CollectedAgreed? ==> JudgeRound(RunRound(port, digestOf, groups, range, at, []), config) == RoundAgreed(c.witnesses, c.digest))
    decreases config.retryBudget - attempts
  {
    at := asked;
    match Attempt(port, digestOf, groups, config, range, attempts, asked)
    case Final(_) =>
    case Again(more) => at := CollectedMeaning(port, digestOf, groups, config, range, attempts + 1, more);
  }

  lemma AgreedHasWitness(port: Port, digestOf: DigestOf, groups: seq<string>, config: Config, range: BlockRange, attempts: nat, asked: seq<Ask>)
    ensures var c := Collect(port, digestOf, groups, config, range, attempts, asked).outcome; c.CollectedAgreed? ==> c.witnesses != []
  {
    var at := CollectedMeaning(port, digestOf, groups, config, range, attempts, asked);
    match RunRound(port, digestOf, groups, range, at, [])
    case Broken(_, _, _) =>
    case Answered(results, _) =>
      if Agree(results, config).Agreed? {
        AgreedWitnesses(results, config);
      }
  }

  // ---- the database

  datatype Row = Row(range: BlockRange, status: ReplayStatus, reason: Option<ReplayReason>, groups: seq<string>)

  /** One committed transaction: the answer stored for a range. */
  datatype Batch = Batch(range: BlockRange, result: RangeResult)

  /** What is on disk, and `batches`, the transactions that put it there. */
  datatype Db = Db(
    checkpoint: Option<int>,
    accepted: map<int, string>,
    logs: set<LogFact>,
    batches: seq<Batch>,
    rows: seq<Row>,
    lastSuccessAt: Option<int>)

  const EMPTY_DB := Db(None, map[], {}, [], [], None)

  /** A different hash at an accepted height, on disk or inside the batch itself. */
  predicate HashConflict(db: Db, blocks: seq<BlockFact>) {
    || (exists b :: b in blocks && b.blockNumber in db.accepted && db.accepted[b.blockNumber] != b.blockHash)
    || (exists b, c :: b in blocks && c in blocks && b.blockNumber == c.blockNumber && b.blockHash != c.blockHash)
  }

  function AcceptBlocks(accepted: map<int, string>, blocks: seq<BlockFact>): map<int, string> {
    if blocks == [] then accepted
    else
      var b := blocks[|blocks| - 1];
      AcceptBlocks(accepted, blocks[..|blocks| - 1])[b.blockNumber := b.blockHash]
  }

  function Forward(checkpoint: Option<int>, to: int): Option<int> {
    if checkpoint.Some? && checkpoint.value >= to then checkpoint else Some(to)
  }

  /** One transaction: the facts and the checkpoint that covers them, or nothing. */
  function IngestBatch(db: Db, range: BlockRange, w: RangeResult): Option<Db> {
    if HashConflict(db, w.blocks) then None
    else
      Some(db.(
           checkpoint := Forward(db.checkpoint, range.toBlock),
           accepted := AcceptBlocks(db.accepted, w.blocks),
           logs := db.logs + ToSet(w.logs),
           batches := db.batches + [Batch(range, w)]))
  }

  function UpsertRow(db: Db, row: Row): Db {
    db.(rows := Filter((r: Row) => r.range != row.range, db.rows) + [row])
  }

  function Committed(rows: seq<Row>): seq<BlockRange> {
    if rows == [] then []
    else
      var r := rows[|rows| - 1];
      Committed(rows[..|rows| - 1]) + (if r.status == Complete then [r.range] else [])
  }

  // ---- one pass

  /** What a pass runs with. */
  datatype Pass = Pass(port: Port, digestOf: DigestOf, config: Config, groups: seq<string>, width: int, head: int, hints: seq<int>, now: int)

  /** `left` is what the queue still held, and `torn` the range whose facts were written and whose row was not. */
  datatype Drained =
    | Crashed(db: Db, asked: seq<Ask>, torn: Option<BlockRange>, left: seq<BlockRange>)
    | Drained(db: Db, asked: seq<Ask>, left: seq<BlockRange>, ops: nat, reasons: seq<ReplayReason>, lastSuccessAt: Option<int>, conflict: bool)

  function GroupNames(ws: seq<RangeResult>): seq<string> {
    Map((w: RangeResult) => w.providerGroup, ws)
  }

  function BlockedRow(range: BlockRange, reason: ReplayReason, group: Option<string>): Row {
    Row(range, if reason == PROVIDER_DIVERGENCE then Divergent else Blocked, Some(reason), if group.None? then [] else [group.value])
  }

  function CompleteRow(range: BlockRange, ws: seq<RangeResult>): Row {
    Row(range, Complete, None, GroupNames(ws))
  }

  /** What became of the range at the front of the queue; a process may die with its facts written and its row not. */
  datatype Taken =
    | Halved(first: BlockRange, second: BlockRange, asked: seq<Ask>)
    | Died(asked: seq<Ask>)
    | Torn(db: Db, asked: seq<Ask>)
    | Stopped(db: Db, asked: seq<Ask>, ops: nat, reason: ReplayReason, conflict: bool)
    | Went(db: Db, asked: seq<Ask>, ops: nat)

  function Commit(db: Db, range: BlockRange, ws: seq<RangeResult>, asked: seq<Ask>, ops: nat): Taken
    requires ws != []
  {
    if ops < 1 then Died(asked)
    else
      match IngestBatch(db, range, ws[0])
      case None => Stopped(db, asked, ops - 1, PROVIDER_DIVERGENCE, true)
      case Some(db1) => if ops < 2 then Torn(db1, asked) else Went(UpsertRow(db1, CompleteRow(range, ws)), asked, ops - 2)
  }

  /** Every write may be the last one the process makes: it survives `ops` of them. */
  function TakeRange(p: Pass, db: Db, range: BlockRange, asked: seq<Ask>, ops: nat): Taken {
    var c := Collect(p.port, p.digestOf, p.groups, p.config, range, 0, asked);
    match c.outcome
    case CollectedSplit(a, b) => Halved(a, b, c.asked)
    case CollectedBlocked(reason, group) =>
      // The incident first, then the range status.
      if ops < 2 then Died(c.asked) else Stopped(UpsertRow(db, BlockedRow(range, reason, group)), c.asked, ops - 2, reason, false)
    case CollectedAgreed(ws, _) =>
      AgreedHasWitness(p.port, p.digestOf, p.groups, p.config, range, 0, asked);
      Commit(db, range, ws, c.asked, ops)
  }

  lemma HalvedMeaning(p: Pass, db: Db, range: BlockRange, asked: seq<Ask>, ops: nat)
    ensures var t := TakeRange(p, db, range, asked, ops); t.Halved? ==> SplitRange(range) == Some((t.first, t.second))
  {
    var at := CollectedMeaning(p.port, p.digestOf, p.groups, p.config, range, 0, asked);
  }

  lemma HalvedLowersWork(p: Pass, db: Db, queue: seq<BlockRange>, asked: seq<Ask>, ops: nat)
    requires queue != []
    ensures var t := TakeRange(p, db, queue[0], asked, ops); t.Halved? ==> QueueWork([t.first, t.second] + queue[1..]) == QueueWork(queue) - 1
  {
    var t := TakeRange(p, db, queue[0], asked, ops);
    HalvedMeaning(p, db, queue[0], asked, ops);
    if t.Halved? {
      SplitKeepsHeights(queue[0]);
      TallyConcat(Work, [t.first, t.second], queue[1..]);
      TallyPair(Work, t.first, t.second);
    }
  }

  /** The worklist. */
  function Drain(p: Pass, db: Db, queue: seq<BlockRange>, asked: seq<Ask>, ops: nat, last: Option<int>): Drained
    decreases QueueWork(queue)
  {
    if queue == [] then Drained(db, asked, [], ops, [], last, false)
    else
      match TakeRange(p, db, queue[0], asked, ops)
      case Halved(a, b, more) =>
        HalvedLowersWork(p, db, queue, asked, ops);
        Drain(p, db, [a, b] + queue[1..], more, ops, last)
      case Died(more) => Crashed(db, more, None, queue)
      case Torn(db1, more) => Crashed(db1, more, Some(queue[0]), queue[1..])
      case Stopped(db1, more, ops1, reason, conflict) => Drained(db1, more, queue, ops1, [reason], last, conflict)
      case Went(db1, more, ops1) => Drain(p, db1, queue[1..], more, ops1, Some(p.now))
  }

  datatype Report = Report(
    head: int,
    checkpointBefore: Option<int>,
    checkpointAfter: Option<int>,
    assessment: Assessment,
    conflict: bool)

  /** The report is absent when the pass crashed or threw. */
  datatype PassOut = PassOut(db: Db, asked: seq<Ask>, report: Option<Report>, torn: Option<BlockRange>, left: seq<BlockRange>)

  function ResumeFrom(config: Config, checkpoint: Option<int>): int {
    if checkpoint.Some? && checkpoint.value + 1 > config.startBlock then checkpoint.value + 1 else config.startBlock
  }

  function Take(s: seq<int>, n: nat): seq<int> {
    if n <= |s| then s[..n] else s
  }

  function QueueFor(p: Pass, plan: seq<BlockRange>): seq<BlockRange> {
    Prioritise(plan, Take(p.hints, p.config.maxHints))
  }

  function Close(p: Pass, checkpointBefore: Option<int>, d: Drained): PassOut {
    match d
    case Crashed(db, asked, torn, left) => PassOut(db, asked, None, torn, left)
    case Drained(db, asked, left, ops, reasons, last, conflict) =>
      var a := AssessCompleteness(BlockRange(p.config.startBlock, p.head), Committed(db.rows), last, p.config.ttlMs, reasons, p.now);
      if ops < 1 then PassOut(db, asked, None, None, left)
      else PassOut(db.(lastSuccessAt := last), asked, Some(Report(p.head, checkpointBefore, db.checkpoint, a, conflict)), None, left)
  }

  function Run(p: Pass, db: Db, asked: seq<Ask>, ops: nat): PassOut {
    match Planned(ResumeFrom(p.config, db.checkpoint), p.head, p.width)
    case None => PassOut(db, asked, None, None, [])
    case Some(plan) => Close(p, db.checkpoint, Drain(p, db, QueueFor(p, plan), asked, ops, db.lastSuccessAt))
  }
}
