/** Whole histories of replay passes: arbitrary answers, hints, head movement and crashes. */
module ReplayHistory {
  import opened Collections
  import opened Sorting
  import opened ReplayPlan
  import opened ReplayEngine

  /** What stays fixed over a deployment's life. */
  datatype World = World(port: Port, digestOf: DigestOf, config: Config)

  /** What one pass is given; the process dies after `ops` writes. */
  datatype Turn = Turn(groups: seq<string>, width: int, head: int, hints: seq<int>, now: int, ops: nat)

  function PassOf(w: World, t: Turn): Pass {
    Pass(w.port, w.digestOf, w.config, t.groups, t.width, t.head, t.hints, t.now)
  }

  function After(w: World, turns: seq<Turn>): PassOut {
    if turns == [] then PassOut(EMPTY_DB, [], None, None, [])
    else
      var before, t := After(w, turns[..|turns| - 1]), turns[|turns| - 1];
      Run(PassOf(w, t), before.db, before.asked, t.ops)
  }

  // ---- who vouches for a range

  /** The n-th request was made for this range and answered, usably, with `r`. */
  predicate Answers(w: World, range: BlockRange, r: RangeResult, n: nat, ask: Ask) {
    var f := w.port(n, ask.group, range);
    ask.range == range && f.Fetched? && ClassifyObservation(f.observation, w.digestOf) == Usable(r)
  }

  ghost predicate AnsweredBy(w: World, range: BlockRange, r: RangeResult, asked: seq<Ask>) {
    exists n :: 0 <= n < |asked| && Answers(w, range, r, n, asked[n])
  }

  ghost predicate Vouches(w: World, range: BlockRange, results: seq<RangeResult>, asked: seq<Ask>) {
    && results != []
    && (forall r :: r in results ==> r.digest == results[0].digest && AnsweredBy(w, range, r, asked))
    && |GroupsOf(results)| >= w.config.requiredGroups
  }

  /** `x` is one of the answers with which enough distinct groups, asked for exactly this range, returned one digest. */
  ghost predicate Endorsed(w: World, range: BlockRange, x: RangeResult, asked: seq<Ask>) {
    exists results :: Vouches(w, range, results, asked) && x in results
  }

  lemma EndorsedLater(w: World, range: BlockRange, x: RangeResult, asked: seq<Ask>, more: seq<Ask>)
    requires Endorsed(w, range, x, asked) && asked <= more
    ensures Endorsed(w, range, x, more)
  {
    var results :| Vouches(w, range, results, asked) && x in results;
    forall r | r in results ensures AnsweredBy(w, range, r, more) {
      var n :| 0 <= n < |asked| && Answers(w, range, r, n, asked[n]);
      assert more[n] == asked[n];
    }
    assert Vouches(w, range, results, more);
  }

  lemma AnsweredLater(w: World, range: BlockRange, results: seq<RangeResult>, asked: seq<Ask>, ask: Ask)
    requires forall r :: r in results ==> AnsweredBy(w, range, r, asked)
    ensures forall r :: r in results ==> AnsweredBy(w, range, r, asked + [ask])
  {
    var more := asked + [ask];
    forall r | r in results ensures AnsweredBy(w, range, r, more) {
      var n :| 0 <= n < |asked| && Answers(w, range, r, n, asked[n]);
      assert more[n] == asked[n];
    }
  }

  lemma {:induction false} RoundAnswers(w: World, groups: seq<string>, range: BlockRange, asked: seq<Ask>, results: seq<RangeResult>)
    requires forall r :: r in results ==> AnsweredBy(w, range, r, asked)
    ensures var round := RunRound(w.port, w.digestOf, groups, range, asked, results);
            && asked <= round.asked && |round.asked| <= |asked| + |groups|
            && (round.Answered? ==> forall r :: r in round.results ==> AnsweredBy(w, range, r, round.asked))
    decreases |groups|
  {
    if groups != [] && w.port(|asked|, groups[0], range).Fetched? {
      var c := ClassifyObservation(w.port(|asked|, groups[0], range).observation, w.digestOf);
      if c.Usable? {
        var more := asked + [Ask(groups[0], range)];
        assert Answers(w, range, c.result, |asked|, more[|asked|]);
        AnsweredLater(w, range, results, asked, Ask(groups[0], range));
        RoundAnswers(w, groups[1..], range, more, results + [c.result]);
      }
    }
  }

  function Tries(config: Config, attempts: nat): nat {
    if config.retryBudget - attempts < 1 then 1 else config.retryBudget - attempts
  }

  ghost predicate AllEndorsed(w: World, range: BlockRange, xs: seq<RangeResult>, asked: seq<Ask>) {
    xs != [] && forall x :: x in xs ==> Endorsed(w, range, x, asked)
  }

  lemma RoundEndorses(w: World, groups: seq<string>, range: BlockRange, asked: seq<Ask>)
    ensures var round := RunRound(w.port, w.digestOf, groups, range, asked, []);
            var v := JudgeRound(round, w.config);
            && asked <= round.asked && |round.asked| <= |asked| + |groups|
            && (v.RoundAgreed? ==> AllEndorsed(w, range, v.witnesses, round.asked))
  {
    RoundAnswers(w, groups, range, asked, []);
    var round := RunRound(w.port, w.digestOf, groups, range, asked, []);
    if JudgeRound(round, w.config).RoundAgreed? {
      AgreeMeaning(round.results, w.config);
      AgreedWitnesses(round.results, w.config);
      assert Vouches(w, range, round.results, round.asked);
    }
  }

  /** Collection makes at most max(1, retryBudget) rounds of one request a group, and each witness of an agreement is endorsed. */
  lemma {:induction false} CollectedIsEndorsed(w: World, groups: seq<string>, range: BlockRange, attempts: nat, asked: seq<Ask>)
    ensures var c := Collect(w.port, w.digestOf, groups, w.config, range, attempts, asked);
            && asked <= c.asked && |c.asked| <= |asked| + Tries(w.config, attempts) * |groups|
            && (c.outcome.CollectedAgreed? ==> AllEndorsed(w, range, c.outcome.witnesses, c.asked))
    decreases w.config.retryBudget - attempts
  {
    RoundEndorses(w, groups, range, asked);
    var t := Attempt(w.port, w.digestOf, groups, w.config, range, attempts, asked);
    if t.Again? {
      CollectedIsEndorsed(w, groups, range, attempts + 1, t.asked);
      assert Tries(w.config, attempts) == Tries(w.config, attempts + 1) + 1;
      TimesStep(Tries(w.config, attempts + 1), |groups|);
    } else {
      TimesAtLeast(Tries(w.config, attempts), |groups|);
    }
  }

  lemma TimesStep(k: nat, m: nat)
    ensures (k + 1) * m == k * m + m
  {
  }

  lemma TimesAtLeast(k: nat, m: nat)
    requires k >= 1
    ensures k * m >= m
  {
  }

  // ---- what is on disk

  predicate Reached(checkpoint: Option<int>, h: int) {
    checkpoint.Some? && h <= checkpoint.value
  }

  predicate Accepted(accepted: map<int, string>, blocks: seq<BlockFact>) {
    forall b :: b in blocks ==> b.blockNumber in accepted && accepted[b.blockNumber] == b.blockHash
  }

  /** Every log of the answer is stored, and every block of it is accepted under its hash. */
  predicate Holds(db: Db, x: RangeResult) {
    ToSet(x.logs) <= db.logs && Accepted(db.accepted, x.blocks)
  }

  /** The map grew by exactly these blocks and changed nowhere. */
  ghost predicate Grew(before: map<int, string>, blocks: seq<BlockFact>, after: map<int, string>) {
    && (forall k :: k in before ==> k in after && after[k] == before[k])
    && Accepted(after, blocks)
    && (forall k :: k in after ==> (k in before && after[k] == before[k]) || exists b :: b in blocks && b.blockNumber == k && b.blockHash == after[k])
  }

  lemma {:induction false} AcceptBlocksGrows(db: Db, blocks: seq<BlockFact>)
    requires !HashConflict(db, blocks)
    ensures Grew(db.accepted, blocks, AcceptBlocks(db.accepted, blocks))
  {
    if blocks != [] {
      var n := |blocks| - 1;
      assert blocks == blocks[..n] + [blocks[n]];
      AcceptBlocksGrows(db, blocks[..n]);
      var front := AcceptBlocks(db.accepted, blocks[..n]);
      GrewOne(db, blocks[..n], front, blocks[n]);
    }
  }

  lemma GrewOne(db: Db, blocks: seq<BlockFact>, after: map<int, string>, b: BlockFact)
    requires Grew(db.accepted, blocks, after) && !HashConflict(db, blocks + [b])
    ensures Grew(db.accepted, blocks + [b], after[b.blockNumber := b.blockHash])
  {
    assert b in blocks + [b] && forall c :: c in blocks ==> c in blocks + [b];
    var next := after[b.blockNumber := b.blockHash];
    forall k | k in next
      ensures (k in db.accepted && next[k] == db.accepted[k]) || exists c :: c in blocks + [b] && c.blockNumber == k && c.blockHash == next[k]
    {
      if k != b.blockNumber && !(k in db.accepted && next[k] == db.accepted[k]) {
        var c :| c in blocks && c.blockNumber == k && c.blockHash == next[k];
        assert c in blocks + [b];
      }
    }
  }

  /** The batch was endorsed before it was written, all of it is still on disk, and the checkpoint is not below it. */
  ghost predicate BatchOk(w: World, db: Db, b: Batch, asked: seq<Ask>) {
    Endorsed(w, b.range, b.result, asked) && Holds(db, b.result) && Reached(db.checkpoint, b.range.toBlock)
  }

  ghost predicate BatchesOk(w: World, db: Db, asked: seq<Ask>) {
    forall b :: b in db.batches ==> BatchOk(w, db, b, asked)
  }

  ghost predicate InBatches(batches: seq<Batch>, range: BlockRange) {
    exists b :: b in batches && b.range == range
  }

  ghost predicate RowsBacked(db: Db) {
    forall row :: row in db.rows && row.status == Complete ==> InBatches(db.batches, row.range)
  }

  ghost predicate LogKnown(batches: seq<Batch>, l: LogFact) {
    exists b :: b in batches && l in b.result.logs
  }

  ghost predicate BlockKnown(batches: seq<Batch>, k: int, hash: string) {
    exists b, f :: b in batches && f in b.result.blocks && f.blockNumber == k && f.blockHash == hash
  }

  /** Nothing is on disk that no batch wrote. */
  ghost predicate NothingElse(db: Db) {
    && (forall l :: l in db.logs ==> LogKnown(db.batches, l))
    && (forall k :: k in db.accepted ==> BlockKnown(db.batches, k, db.accepted[k]))
  }

  ghost predicate Sound(w: World, db: Db, asked: seq<Ask>) {
    BatchesOk(w, db, asked) && RowsBacked(db) && NothingElse(db)
  }

  predicate NotBehind(before: Option<int>, after: Option<int>) {
    before.Some? ==> after.Some? && before.value <= after.value
  }

  /** The checkpoint is not behind, no log is gone and no accepted hash has changed. */
  ghost predicate Grown(before: Db, after: Db) {
    && NotBehind(before.checkpoint, after.checkpoint)
    && before.logs <= after.logs
    && forall k :: k in before.accepted ==> k in after.accepted && after.accepted[k] == before.accepted[k]
  }

  lemma SoundLater(w: World, db: Db, asked: seq<Ask>, more: seq<Ask>)
    requires Sound(w, db, asked) && asked <= more
    ensures Sound(w, db, more)
  {
    forall b | b in db.batches ensures BatchOk(w, db, b, more) {
      assert BatchOk(w, db, b, asked);
      EndorsedLater(w, b.range, b.result, asked, more);
    }
  }

  lemma UpsertMembers(db: Db, row: Row)
    ensures forall r :: r in UpsertRow(db, row).rows <==> r == row || (r in db.rows && r.range != row.range)
  {
    FilterMembers((r: Row) => r.range != row.range, db.rows);
  }

  /** A transaction loses nothing that was on disk. */
  lemma IngestKeeps(db: Db, range: BlockRange, x: RangeResult, y: RangeResult)
    requires IngestBatch(db, range, x).Some? && Holds(db, y)
    ensures Holds(IngestBatch(db, range, x).value, y)
  {
    AcceptBlocksGrows(db, x.blocks);
  }

  lemma IngestHolds(db: Db, range: BlockRange, x: RangeResult)
    requires IngestBatch(db, range, x).Some?
    ensures var db1 := IngestBatch(db, range, x).value;
            Holds(db1, x) && Reached(db1.checkpoint, range.toBlock) && NotBehind(db.checkpoint, db1.checkpoint)
  {
    AcceptBlocksGrows(db, x.blocks);
  }

  lemma IngestBatchesOk(w: World, db: Db, range: BlockRange, x: RangeResult, asked: seq<Ask>)
    requires BatchesOk(w, db, asked) && Endorsed(w, range, x, asked) && IngestBatch(db, range, x).Some?
    ensures BatchesOk(w, IngestBatch(db, range, x).value, asked)
  {
    var db1 := IngestBatch(db, range, x).value;
    IngestHolds(db, range, x);
    forall b | b in db1.batches ensures BatchOk(w, db1, b, asked) {
      if b in db.batches {
        assert BatchOk(w, db, b, asked);
        IngestKeeps(db, range, x, b.result);
      }
    }
  }

  lemma LogKnownLater(batches: seq<Batch>, b: Batch, l: LogFact)
    ensures LogKnown(batches, l) || l in b.result.logs ==> LogKnown(batches + [b], l)
  {
    assert b in batches + [b] && forall c :: c in batches ==> c in batches + [b];
  }

  lemma BlockKnownLater(batches: seq<Batch>, b: Batch, k: int, hash: string)
    ensures BlockKnown(batches, k, hash) ==> BlockKnown(batches + [b], k, hash)
    ensures (exists f :: f in b.result.blocks && f.blockNumber == k && f.blockHash == hash) ==> BlockKnown(batches + [b], k, hash)
  {
    assert b in batches + [b];
    if BlockKnown(batches, k, hash) {
      var c, f :| c in batches && f in c.result.blocks && f.blockNumber == k && f.blockHash == hash;
      assert c in batches + [b];
    }
  }

  lemma IngestNothingElse(db: Db, range: BlockRange, x: RangeResult)
    requires NothingElse(db) && IngestBatch(db, range, x).Some?
    ensures NothingElse(IngestBatch(db, range, x).value)
  {
    var db1, b := IngestBatch(db, range, x).value, Batch(range, x);
    AcceptBlocksGrows(db, x.blocks);
    forall l | l in db1.logs ensures LogKnown(db1.batches, l) {
      LogKnownLater(db.batches, b, l);
    }
    forall k | k in db1.accepted ensures BlockKnown(db1.batches, k, db1.accepted[k]) {
      BlockKnownLater(db.batches, b, k, db1.accepted[k]);
    }
  }

  lemma IngestRowsBacked(db: Db, range: BlockRange, x: RangeResult)
    requires RowsBacked(db) && IngestBatch(db, range, x).Some?
    ensures var db1 := IngestBatch(db, range, x).value; RowsBacked(db1) && InBatches(db1.batches, range)
  {
    var db1 := IngestBatch(db, range, x).value;
    assert Batch(range, x) in db1.batches;
    forall row | row in db1.rows && row.status == Complete ensures InBatches(db1.batches, row.range) {
      var b :| b in db.batches && b.range == row.range;
      assert b in db1.batches;
    }
  }

  lemma UpsertKeepsSound(w: World, db: Db, row: Row, asked: seq<Ask>)
    requires Sound(w, db, asked) && (row.status == Complete ==> InBatches(db.batches, row.range))
    ensures Sound(w, UpsertRow(db, row), asked)
  {
    UpsertMembers(db, row);
    var db2 := UpsertRow(db, row);
    forall b | b in db2.batches ensures BatchOk(w, db2, b, asked) {
      assert BatchOk(w, db, b, asked);
    }
  }

  ghost predicate Runs(w: World, p: Pass) {
    p.port == w.port && p.digestOf == w.digestOf && p.config == w.config
  }

  function DbOf(db: Db, t: Taken): Db {
    if t.Halved? || t.Died? then db else t.db
  }

  ghost predicate Kept(w: World, before: Db, after: Db, asked: seq<Ask>) {
    Sound(w, after, asked) && Grown(before, after)
  }

  lemma IngestKeepsSound(w: World, db: Db, range: BlockRange, x: RangeResult, asked: seq<Ask>)
    requires Sound(w, db, asked) && Endorsed(w, range, x, asked) && IngestBatch(db, range, x).Some?
    ensures var db1 := IngestBatch(db, range, x).value; Kept(w, db, db1, asked) && InBatches(db1.batches, range)
  {
    AcceptBlocksGrows(db, x.blocks);
    IngestBatchesOk(w, db, range, x, asked);
    IngestNothingElse(db, range, x);
    IngestRowsBacked(db, range, x);
  }

  lemma RowKeeps(w: World, before: Db, db: Db, row: Row, asked: seq<Ask>)
    requires Kept(w, before, db, asked) && (row.status == Complete ==> InBatches(db.batches, row.range))
    ensures Kept(w, before, UpsertRow(db, row), asked)
  {
    UpsertKeepsSound(w, db, row, asked);
  }

  /** What a range may leave behind: the database as it was, with a blocked row, with the batch, or with the batch and its row. */
  ghost predicate LeavesOk(c: Collected, db: Db, range: BlockRange, ok: Db -> bool) {
    && ok(db)
    && (c.CollectedBlocked? ==> ok(UpsertRow(db, BlockedRow(range, c.reason, c.group))))
    && (c.CollectedAgreed? ==> c.witnesses != [] && CommitOk(c.witnesses, db, range, ok))
  }

  ghost predicate CommitOk(ws: seq<RangeResult>, db: Db, range: BlockRange, ok: Db -> bool)
    requires ws != []
  {
    var after := IngestBatch(db, range, ws[0]);
    after.Some? ==> ok(after.value) && ok(UpsertRow(after.value, CompleteRow(range, ws)))
  }

  lemma TakenCases(p: Pass, db: Db, range: BlockRange, asked: seq<Ask>, ops: nat, ok: Db -> bool)
    requires LeavesOk(Collect(p.port, p.digestOf, p.groups, p.config, range, 0, asked).outcome, db, range, ok)
    ensures ok(DbOf(db, TakeRange(p, db, range, asked, ops)))
  {
  }

  ghost function Keeping(w: World, db: Db, asked: seq<Ask>): Db -> bool {
    after => Kept(w, db, after, asked)
  }

  lemma CommitKeeps(w: World, db: Db, range: BlockRange, ws: seq<RangeResult>, asked: seq<Ask>)
    requires Sound(w, db, asked) && ws != [] && Endorsed(w, range, ws[0], asked)
    ensures CommitOk(ws, db, range, Keeping(w, db, asked))
  {
    if IngestBatch(db, range, ws[0]).Some? {
      IngestKeepsSound(w, db, range, ws[0], asked);
      RowKeeps(w, db, IngestBatch(db, range, ws[0]).value, CompleteRow(range, ws), asked);
    }
  }

  lemma OutcomeKeeps(w: World, db: Db, range: BlockRange, c: Collected, asked: seq<Ask>)
    requires Kept(w, db, db, asked) && (c.CollectedAgreed? ==> AllEndorsed(w, range, c.witnesses, asked))
    ensures LeavesOk(c, db, range, Keeping(w, db, asked))
  {
    match c
    case CollectedBlocked(reason, group) => RowKeeps(w, db, db, BlockedRow(range, reason, group), asked);
    case CollectedSplit(_, _) =>
    case CollectedAgreed(ws, _) =>
      assert ws[0] in ws;
      CommitKeeps(w, db, range, ws, asked);
  }

  lemma TakenAsks(p: Pass, db: Db, range: BlockRange, asked: seq<Ask>, ops: nat)
    ensures TakeRange(p, db, range, asked, ops).asked == Collect(p.port, p.digestOf, p.groups, p.config, range, 0, asked).asked
  {
    AgreedHasWitness(p.port, p.digestOf, p.groups, p.config, range, 0, asked);
  }

  lemma SoundIsKept(w: World, db: Db, asked: seq<Ask>, more: seq<Ask>)
    requires Sound(w, db, asked) && asked <= more
    ensures Kept(w, db, db, more)
  {
    SoundLater(w, db, asked, more);
  }

  lemma TakeKeepsSound(w: World, p: Pass, db: Db, range: BlockRange, asked: seq<Ask>, ops: nat)
    requires Runs(w, p) && Sound(w, db, asked)
    ensures var t := TakeRange(p, db, range, asked, ops); asked <= t.asked && Kept(w, db, DbOf(db, t), t.asked)
  {
    var c := Collect(p.port, p.digestOf, p.groups, p.config, range, 0, asked);
    CollectedIsEndorsed(w, p.groups, range, 0, asked);
    TakenAsks(p, db, range, asked, ops);
    SoundIsKept(w, db, asked, c.asked);
    OutcomeKeeps(w, db, range, c.outcome, c.asked);
    TakenCases(p, db, range, asked, ops, Keeping(w, db, c.asked));
  }

  lemma {:induction false} DrainKeepsSound(w: World, p: Pass, db: Db, queue: seq<BlockRange>, asked: seq<Ask>, ops: nat, last: Option<int>)
    requires Runs(w, p) && Sound(w, db, asked)
    ensures var d := Drain(p, db, queue, asked, ops, last); asked <= d.asked && Kept(w, db, d.db, d.asked)
    decreases QueueWork(queue)
  {
    if queue != [] {
      TakeKeepsSound(w, p, db, queue[0], asked, ops);
      HalvedLowersWork(p, db, queue, asked, ops);
      match TakeRange(p, db, queue[0], asked, ops)
      case Halved(a, b, more) => DrainKeepsSound(w, p, db, [a, b] + queue[1..], more, ops, last);
      case Died(_) =>
      case Torn(_, _) =>
      case Stopped(_, _, _, _, _) =>
      case Went(db1, more, ops1) => DrainKeepsSound(w, p, db1, queue[1..], more, ops1, Some(p.now));
    }
  }

  lemma SameFacts(w: World, db: Db, last: Option<int>, asked: seq<Ask>)
    requires Sound(w, db, asked)
    ensures Sound(w, db.(lastSuccessAt := last), asked)
  {
    var db2 := db.(lastSuccessAt := last);
    forall b | b in db2.batches ensures BatchOk(w, db2, b, asked) {
      assert BatchOk(w, db, b, asked);
    }
  }

  lemma RunKeepsSound(w: World, t: Turn, db: Db, asked: seq<Ask>)
    requires Sound(w, db, asked)
    ensures var out := Run(PassOf(w, t), db, asked, t.ops); asked <= out.asked && Kept(w, db, out.db, out.asked)
  {
    var p := PassOf(w, t);
    var plan := Planned(ResumeFrom(p.config, db.checkpoint), p.head, p.width);
    if plan.Some? {
      DrainKeepsSound(w, p, db, QueueFor(p, plan.value), asked, t.ops, db.lastSuccessAt);
      var d := Drain(p, db, QueueFor(p, plan.value), asked, t.ops, db.lastSuccessAt);
      if d.Drained? {
        SameFacts(w, d.db, d.lastSuccessAt, d.asked);
      }
    }
  }

  /** In every history, what is on disk is exactly what endorsed batches wrote, and every complete row has its batch. */
  lemma {:induction false} HistoriesSound(w: World, turns: seq<Turn>)
    ensures Sound(w, After(w, turns).db, After(w, turns).asked)
  {
    if turns != [] {
      var before := After(w, turns[..|turns| - 1]);
      HistoriesSound(w, turns[..|turns| - 1]);
      RunKeepsSound(w, turns[|turns| - 1], before.db, before.asked);
    }
  }

  lemma {:induction false} CommittedMembers(rows: seq<Row>)
    ensures forall r :: r in Committed(rows) <==> exists row :: row in rows && row.status == Complete && row.range == r
  {
    if rows != [] {
      var n := |rows| - 1;
      CommittedMembers(rows[..n]);
      assert rows == rows[..n] + [rows[n]];
      forall r ensures r in Committed(rows) <==> exists row :: row in rows && row.status == Complete && row.range == r {
        if r in Committed(rows[..n]) {
          var row :| row in rows[..n] && row.status == Complete && row.range == r;
          assert row in rows;
        }
        if rows[n].status == Complete && rows[n].range == r {
          assert rows[n] in rows;
        }
      }
    }
  }

  /** A committed range has its batch. */
  lemma CommittedBatch(w: World, db: Db, asked: seq<Ask>, r: BlockRange) returns (x: RangeResult)
    requires Sound(w, db, asked) && r in Committed(db.rows)
    ensures Batch(r, x) in db.batches && BatchOk(w, db, Batch(r, x), asked)
  {
    CommittedMembers(db.rows);
    var row :| row in db.rows && row.status == Complete && row.range == r;
    assert InBatches(db.batches, row.range);
    var b :| b in db.batches && b.range == r;
    assert b == Batch(r, b.result);
    x := b.result;
  }

  predicate ReportFits(w: World, t: Turn, before: Option<int>, out: PassOut) {
    out.report.Some? ==>
      && out.report.value.head == t.head
      && out.report.value.checkpointBefore == before
      && out.report.value.checkpointAfter == out.db.checkpoint
      && out.report.value.assessment.gaps == Gaps(Committed(out.db.rows), BlockRange(w.config.startBlock, t.head))
      && (out.report.value.assessment.verdict == VerdictOk ==> out.report.value.assessment.gaps == [])
  }

  lemma AssessmentFits(window: BlockRange, committed: seq<BlockRange>, last: Option<int>, ttlMs: int, open: seq<ReplayReason>, now: int)
    ensures var a := AssessCompleteness(window, committed, last, ttlMs, open, now);
            a.gaps == Gaps(committed, window) && (a.verdict == VerdictOk ==> a.gaps == [])
  {
  }

  lemma CloseFits(w: World, t: Turn, before: Option<int>, d: Drained)
    ensures ReportFits(w, t, before, Close(PassOf(w, t), before, d))
  {
    if d.Drained? {
      AssessmentFits(BlockRange(w.config.startBlock, t.head), Committed(d.db.rows), d.lastSuccessAt, w.config.ttlMs, d.reasons, t.now);
    }
  }

  /** What a report says is what the database held when it was written. */
  lemma ReportMeaning(w: World, t: Turn, db: Db, asked: seq<Ask>)
    ensures ReportFits(w, t, db.checkpoint, Run(PassOf(w, t), db, asked, t.ops))
  {
    var p := PassOf(w, t);
    var plan := Planned(ResumeFrom(p.config, db.checkpoint), p.head, p.width);
    if plan.Some? {
      CloseFits(w, t, db.checkpoint, Drain(p, db, QueueFor(p, plan.value), asked, t.ops, db.lastSuccessAt));
    }
  }

  /** The height lies in a range for which an endorsed answer is on disk, log by log and block by block. */
  ghost predicate Proven(w: World, db: Db, asked: seq<Ask>, h: int) {
    exists r, x :: Contains(r, h) && Endorsed(w, r, x, asked) && Holds(db, x)
  }

  predicate ReportsOk(out: PassOut) {
    out.report.Some? && out.report.value.assessment.verdict == VerdictOk
  }

  lemma CoveredIsProven(w: World, db: Db, asked: seq<Ask>, h: int)
    requires Sound(w, db, asked) && Covers(Committed(db.rows), h)
    ensures Proven(w, db, asked, h)
  {
    var r :| r in Committed(db.rows) && Contains(r, h);
    var x := CommittedBatch(w, db, asked, r);
  }

  lemma OkCovers(w: World, t: Turn, before: Option<int>, out: PassOut, h: int)
    requires ReportFits(w, t, before, out) && ReportsOk(out) && w.config.startBlock <= h <= t.head
    ensures Covers(Committed(out.db.rows), h)
  {
    GapsExact(Committed(out.db.rows), BlockRange(w.config.startBlock, t.head));
    assert Contains(BlockRange(w.config.startBlock, t.head), h);
  }

  /** Whatever providers, hints, heads and crashes did, an OK report has the facts of every height up to its head on disk. */
  lemma OkIsSound(w: World, turns: seq<Turn>, h: int)
    requires ReportsOk(After(w, turns)) && w.config.startBlock <= h <= After(w, turns).report.value.head
    ensures Covers(Committed(After(w, turns).db.rows), h)
    ensures Proven(w, After(w, turns).db, After(w, turns).asked, h)
  {
    var out, t := After(w, turns), turns[|turns| - 1];
    var before := After(w, turns[..|turns| - 1]);
    ReportMeaning(w, t, before.db, before.asked);
    OkCovers(w, t, before.db.checkpoint, out, h);
    HistoriesSound(w, turns);
    CoveredIsProven(w, out.db, out.asked, h);
  }

  /** Every stored log was in an answer that enough groups endorsed for a range at or below the checkpoint. */
  lemma StoredLogsEndorsed(w: World, turns: seq<Turn>, l: LogFact)
    requires l in After(w, turns).db.logs
    ensures var out := After(w, turns);
            exists r, x :: Endorsed(w, r, x, out.asked) && l in x.logs && Reached(out.db.checkpoint, r.toBlock)
  {
    var out := After(w, turns);
    HistoriesSound(w, turns);
    assert LogKnown(out.db.batches, l);
    var b :| b in out.db.batches && l in b.result.logs;
    assert BatchOk(w, out.db, b, out.asked);
    assert Endorsed(w, b.range, b.result, out.asked);
  }

  lemma GrownOn(a: Db, b: Db, c: Db)
    requires Grown(a, b) && Grown(b, c)
    ensures Grown(a, c)
  {
  }

  lemma LastGrows(w: World, turns: seq<Turn>)
    requires turns != []
    ensures Grown(After(w, turns[..|turns| - 1]).db, After(w, turns).db)
  {
    var before := After(w, turns[..|turns| - 1]);
    HistoriesSound(w, turns[..|turns| - 1]);
    RunKeepsSound(w, turns[|turns| - 1], before.db, before.asked);
  }

  /** Over any continuation of any history the checkpoint only advances, and stored facts stay as they are. */
  lemma {:induction false} CheckpointOnlyAdvances(w: World, turns: seq<Turn>, more: seq<Turn>)
    ensures Grown(After(w, turns).db, After(w, turns + more).db)
  {
    if more == [] {
      assert turns + more == turns;
    } else {
      var n := |more| - 1;
      CheckpointOnlyAdvances(w, turns, more[..n]);
      assert (turns + more)[..|turns + more| - 1] == turns + more[..n];
      LastGrows(w, turns + more);
      GrownOn(After(w, turns).db, After(w, turns + more[..n]).db, After(w, turns + more).db);
    }
  }
}
