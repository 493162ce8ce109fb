/** What one replay pass leaves behind, height by height: what it stored, what it committed, what it skipped, and at what cost. */
module ReplayProgress {
  import opened Collections
  import opened Sorting
  import opened ReplayPlan
  import opened ReplayEngine
  import opened ReplayHistory

  /** A batch for a range with this height was written. */
  ghost predicate Ingested(db: Db, h: int) {
    exists b :: b in db.batches && Contains(b.range, h)
  }

  ghost predicate Recorded(db: Db, h: int) {
    Covers(Committed(db.rows), h)
  }

  /** At or below the checkpoint, and in no committed range. */
  ghost predicate Lost(config: Config, db: Db, h: int) {
    config.startBlock <= h && Reached(db.checkpoint, h) && !Recorded(db, h)
  }

  /** At or below the checkpoint, and in no batch. */
  ghost predicate Missing(config: Config, db: Db, h: int) {
    config.startBlock <= h && Reached(db.checkpoint, h) && !Ingested(db, h)
  }

  /** Every height from the start block to the checkpoint is in a committed range. */
  ghost predicate PrefixCommitted(config: Config, db: Db) {
    forall h :: config.startBlock <= h && Reached(db.checkpoint, h) ==> Recorded(db, h)
  }

  /** Every height from the start block to the checkpoint is in a batch. */
  ghost predicate PrefixStored(config: Config, db: Db) {
    forall h :: config.startBlock <= h && Reached(db.checkpoint, h) ==> Ingested(db, h)
  }

  // ---- one range, one height

  lemma AddRow(rows: seq<Row>, db: Db, row: Row)
    requires rows == db.rows
    ensures forall r :: r in Committed(UpsertRow(db, row).rows) <==>
              (r != row.range && r in Committed(rows)) || (r == row.range && row.status == Complete)
  {
    var after := UpsertRow(db, row).rows;
    UpsertMembers(db, row);
    CommittedMembers(rows);
    CommittedMembers(after);
    forall r ensures r in Committed(after) <==> (r != row.range && r in Committed(rows)) || (r == row.range && row.status == Complete) {
      if r != row.range && r in Committed(rows) {
        var x :| x in rows && x.status == Complete && x.range == r;
        assert x in after;
      }
      if r in Committed(after) {
        var x :| x in after && x.status == Complete && x.range == r;
      }
      if r == row.range && row.status == Complete {
        assert row in after;
      }
    }
  }

  /** A row for a range that was not committed at this height changes the height only by completing it. */
  lemma RowAtHeight(db: Db, row: Row, h: int)
    requires Contains(row.range, h) ==> !Recorded(db, h)
    ensures Recorded(UpsertRow(db, row), h) <==> Recorded(db, h) || (row.status == Complete && Contains(row.range, h))
  {
    AddRow(db.rows, db, row);
    var after := Committed(UpsertRow(db, row).rows);
    if Recorded(db, h) {
      var r :| r in Committed(db.rows) && Contains(r, h);
      assert r in after;
    }
    if row.status == Complete && Contains(row.range, h) {
      assert row.range in after;
    }
  }

  lemma IngestAtHeight(db: Db, range: BlockRange, x: RangeResult, h: int)
    requires IngestBatch(db, range, x).Some?
    ensures Ingested(IngestBatch(db, range, x).value, h) <==> Ingested(db, h) || Contains(range, h)
  {
    var db1 := IngestBatch(db, range, x).value;
    assert Batch(range, x) in db1.batches;
    assert forall b :: b in db.batches ==> b in db1.batches;
  }

  /** The height after a batch, and after its row. */
  ghost predicate Added(before: Db, after: Db, range: BlockRange, h: int, row: bool) {
    && after.checkpoint == Forward(before.checkpoint, range.toBlock)
    && (Ingested(after, h) <==> Ingested(before, h) || Contains(range, h))
    && (Recorded(after, h) <==> Recorded(before, h) || (row && Contains(range, h)))
  }

  ghost predicate Unchanged(before: Db, after: Db, h: int) {
    after.checkpoint == before.checkpoint && (Ingested(after, h) <==> Ingested(before, h)) && (Recorded(after, h) <==> Recorded(before, h))
  }

  /** What taking a range does to one height. */
  ghost predicate TakenAt(db: Db, range: BlockRange, t: Taken, h: int) {
    match t
    case Halved(a, b, _) => SplitRange(range) == Some((a, b))
    case Died(_) => true
    case Torn(db1, _) => Added(db, db1, range, h, false)
    case Stopped(db1, _, _, reason, _) => Unchanged(db, db1, h) && (reason == PROVIDER_DIVERGENCE || IsBlocking(reason))
    case Went(db1, _, _) => Added(db, db1, range, h, true)
  }

  /** A pass stops only for reasons that keep the verdict away from OK. */
  lemma {:induction false} StopsBlock(port: Port, digestOf: DigestOf, groups: seq<string>, config: Config, range: BlockRange, attempts: nat, asked: seq<Ask>)
    ensures var c := Collect(port, digestOf, groups, config, range, attempts, asked).outcome;
            c.CollectedBlocked? ==> c.reason == PROVIDER_DIVERGENCE || IsBlocking(c.reason)
    decreases config.retryBudget - attempts
  {
    var t := Attempt(port, digestOf, groups, config, range, attempts, asked);
    if t.Again? {
      StopsBlock(port, digestOf, groups, config, range, attempts + 1, t.asked);
    }
  }

  lemma CommitAt(db: Db, range: BlockRange, ws: seq<RangeResult>, asked: seq<Ask>, ops: nat, h: int)
    requires ws != [] && (Contains(range, h) ==> !Recorded(db, h))
    ensures TakenAt(db, range, Commit(db, range, ws, asked, ops), h)
  {
    var after := IngestBatch(db, range, ws[0]);
    if after.Some? {
      IngestAtHeight(db, range, ws[0], h);
      RowAtHeight(after.value, CompleteRow(range, ws), h);
    }
  }

  lemma TakeAt(p: Pass, db: Db, range: BlockRange, asked: seq<Ask>, ops: nat, h: int)
    requires Contains(range, h) ==> !Recorded(db, h)
    ensures TakenAt(db, range, TakeRange(p, db, range, asked, ops), h)
  {
    HalvedMeaning(p, db, range, asked, ops);
    var c := Collect(p.port, p.digestOf, p.groups, p.config, range, 0, asked);
    match c.outcome
    case CollectedSplit(_, _) =>
    case CollectedBlocked(reason, group) =>
      StopsBlock(p.port, p.digestOf, p.groups, p.config, range, 0, asked);
      RowAtHeight(db, BlockedRow(range, reason, group), h);
    case CollectedAgreed(ws, _) =>
      AgreedHasWitness(p.port, p.digestOf, p.groups, p.config, range, 0, asked);
      CommitAt(db, range, ws, c.asked, ops, h);
  }

  // ---- a whole queue, one height

  lemma OneStep(p: Pass, db: Db, queue: seq<BlockRange>, asked: seq<Ask>, ops: nat, last: Option<int>, t: Taken)
    requires queue != [] && TakeRange(p, db, queue[0], asked, ops) == t && t.Went?
    ensures Drain(p, db, queue, asked, ops, last) == Drain(p, t.db, queue[1..], t.asked, t.ops, Some(p.now))
  {
  }

  function TornBy(d: Drained): Option<BlockRange> {
    if d.Crashed? then d.torn else None
  }

  predicate Tears(torn: Option<BlockRange>, h: int) {
    torn.Some? && Contains(torn.value, h)
  }

  /** The height was in the queue and no longer is. */
  ghost predicate Passed(queue: seq<BlockRange>, left: seq<BlockRange>, h: int) {
    Covers(queue, h) && !Covers(left, h)
  }

  /** Of the queue, the pass stored exactly what it no longer holds, and recorded all of that but a torn range. */
  ghost predicate DrainedAt(db: Db, queue: seq<BlockRange>, d: Drained, h: int) {
    && (Ingested(d.db, h) <==> Ingested(db, h) || Passed(queue, d.left, h))
    && (Recorded(d.db, h) <==> Recorded(db, h) || (Passed(queue, d.left, h) && !Tears(TornBy(d), h)))
    && (Covers(d.left, h) ==> Covers(queue, h))
    && (Tears(TornBy(d), h) ==> Passed(queue, d.left, h))
  }

  lemma FirstHolds(queue: seq<BlockRange>, h: int)
    requires queue != []
    ensures Covers(queue, h) <==> Contains(queue[0], h) || Covers(queue[1..], h)
    ensures Holders(queue, h) <= 1 ==> Holders(queue[1..], h) <= 1 && !(Contains(queue[0], h) && Covers(queue[1..], h))
  {
    HoldersCover(queue, h);
    HoldersCover(queue[1..], h);
  }

  lemma HalvesHold(queue: seq<BlockRange>, a: BlockRange, b: BlockRange, h: int)
    requires queue != [] && SplitRange(queue[0]) == Some((a, b))
    ensures Holders([a, b] + queue[1..], h) == Holders(queue, h)
    ensures Covers([a, b] + queue[1..], h) <==> Covers(queue, h)
  {
    SplitAnywhere(queue, 0, h);
    assert queue[..0] + ([a, b] + queue[1..]) == [a, b] + queue[1..];
    HoldersCover(queue, h);
    HoldersCover([a, b] + queue[1..], h);
  }

  lemma DrainStepAt(db: Db, db1: Db, queue: seq<BlockRange>, d: Drained, h: int)
    requires queue != [] && Holders(queue, h) <= 1 && Added(db, db1, queue[0], h, true) && DrainedAt(db1, queue[1..], d, h)
    ensures DrainedAt(db, queue, d, h)
  {
    FirstHolds(queue, h);
  }

  lemma DrainEndsAt(db: Db, db1: Db, queue: seq<BlockRange>, d: Drained, h: int)
    requires d.db == db1 && d.left == queue && TornBy(d).None? && Unchanged(db, db1, h)
    ensures DrainedAt(db, queue, d, h)
  {
  }

  lemma DrainTearsAt(db: Db, db1: Db, queue: seq<BlockRange>, d: Drained, h: int)
    requires queue != [] && Holders(queue, h) <= 1 && Added(db, db1, queue[0], h, false)
    requires d.Crashed? && d.db == db1 && d.left == queue[1..] && d.torn == Some(queue[0])
    ensures DrainedAt(db, queue, d, h)
  {
    FirstHolds(queue, h);
  }

  /** In any order, with any splits, stops and crashes, for a height that the queue holds at most once. */
  lemma {:induction false} DrainAt(p: Pass, db: Db, queue: seq<BlockRange>, asked: seq<Ask>, ops: nat, last: Option<int>, h: int)
    requires Holders(queue, h) <= 1 && (Covers(queue, h) ==> !Recorded(db, h))
    ensures DrainedAt(db, queue, Drain(p, db, queue, asked, ops, last), h)
    decreases QueueWork(queue)
  {
    if queue != [] {
      FirstHolds(queue, h);
      TakeAt(p, db, queue[0], asked, ops, h);
      HalvedLowersWork(p, db, queue, asked, ops);
      var d := Drain(p, db, queue, asked, ops, last);
      match TakeRange(p, db, queue[0], asked, ops)
      case Halved(a, b, more) =>
        HalvesHold(queue, a, b, h);
        DrainAt(p, db, [a, b] + queue[1..], more, ops, last, h);
      case Died(_) => DrainEndsAt(db, db, queue, d, h);
      case Torn(db1, _) => DrainTearsAt(db, db1, queue, d, h);
      case Stopped(db1, _, _, _, _) => DrainEndsAt(db, db1, queue, d, h);
      case Went(db1, more, ops1) =>
        DrainAt(p, db1, queue[1..], more, ops1, Some(p.now), h);
        DrainStepAt(db, db1, queue, d, h);
    }
  }

  // ---- where ranges and the checkpoint may lie

  predicate Inside(rs: seq<BlockRange>, lo: int, hi: int) {
    forall r :: r in rs ==> lo <= r.fromBlock <= r.toBlock <= hi
  }

  /** Committed ranges and batches are not empty, start no earlier than the start block, and do not reach past the checkpoint. */
  ghost predicate Behind(config: Config, db: Db) {
    && (forall r :: r in Committed(db.rows) ==> config.startBlock <= r.fromBlock <= r.toBlock && Reached(db.checkpoint, r.toBlock))
    && (forall b :: b in db.batches ==> config.startBlock <= b.range.fromBlock <= b.range.toBlock && Reached(db.checkpoint, b.range.toBlock))
  }

  lemma RowBehind(config: Config, db: Db, row: Row)
    requires Behind(config, db)
    requires row.status == Complete ==> config.startBlock <= row.range.fromBlock <= row.range.toBlock && Reached(db.checkpoint, row.range.toBlock)
    ensures Behind(config, UpsertRow(db, row))
  {
    AddRow(db.rows, db, row);
  }

  lemma IngestBehind(config: Config, db: Db, range: BlockRange, x: RangeResult)
    requires Behind(config, db) && config.startBlock <= range.fromBlock <= range.toBlock && IngestBatch(db, range, x).Some?
    ensures Behind(config, IngestBatch(db, range, x).value)
  {
  }

  predicate Stopping(reasons: seq<ReplayReason>) {
    exists r :: r in reasons && (r == PROVIDER_DIVERGENCE || IsBlocking(r))
  }

  lemma TakeBehind(p: Pass, db: Db, range: BlockRange, asked: seq<Ask>, ops: nat)
    requires Behind(p.config, db) && p.config.startBlock <= range.fromBlock <= range.toBlock
    ensures Behind(p.config, DbOf(db, TakeRange(p, db, range, asked, ops)))
  {
    AgreedHasWitness(p.port, p.digestOf, p.groups, p.config, range, 0, asked);
    var c := Collect(p.port, p.digestOf, p.groups, p.config, range, 0, asked).outcome;
    if c.CollectedBlocked? {
      RowBehind(p.config, db, BlockedRow(range, c.reason, c.group));
    }
    if c.CollectedAgreed? && IngestBatch(db, range, c.witnesses[0]).Some? {
      IngestBehind(p.config, db, range, c.witnesses[0]);
      RowBehind(p.config, IngestBatch(db, range, c.witnesses[0]).value, CompleteRow(range, c.witnesses));
    }
    TakenCases(p, db, range, asked, ops, after => Behind(p.config, after));
  }

  /** The checkpoint moves no further than the queue reaches, what is left is from the queue, and a torn range is passed. */
  ghost predicate DrainedInside(p: Pass, db: Db, lo: int, hi: int, d: Drained) {
    && Behind(p.config, d.db)
    && (forall x :: Reached(d.db.checkpoint, x) ==> Reached(db.checkpoint, x) || x <= hi)
    && Inside(d.left, lo, hi)
    && (TornBy(d).Some? ==> Inside([TornBy(d).value], lo, hi) && Reached(d.db.checkpoint, TornBy(d).value.toBlock))
    && (d.Drained? ==> (Stopping(d.reasons) <==> d.left != []))
  }

  lemma HalvesInside(queue: seq<BlockRange>, a: BlockRange, b: BlockRange, lo: int, hi: int)
    requires queue != [] && Inside(queue, lo, hi) && SplitRange(queue[0]) == Some((a, b))
    ensures Inside([a, b] + queue[1..], lo, hi)
  {
    assert queue[0] in queue;
    assert forall r :: r in [a, b] + queue[1..] ==> r == a || r == b || r in queue;
  }

  lemma {:induction false} DrainInside(p: Pass, db: Db, queue: seq<BlockRange>, asked: seq<Ask>, ops: nat, last: Option<int>, lo: int, hi: int)
    requires Behind(p.config, db) && Inside(queue, lo, hi) && p.config.startBlock <= lo
    ensures DrainedInside(p, db, lo, hi, Drain(p, db, queue, asked, ops, last))
    decreases QueueWork(queue)
  {
    if queue != [] {
      assert queue[0] in queue && forall r :: r in queue[1..] ==> r in queue;
      var d, t := Drain(p, db, queue, asked, ops, last), TakeRange(p, db, queue[0], asked, ops);
      TakeBehind(p, db, queue[0], asked, ops);
      TakeAt(p, db, queue[0], asked, ops, queue[0].fromBlock - 1);
      HalvedLowersWork(p, db, queue, asked, ops);
      match t
      case Halved(a, b, more) =>
        HalvesInside(queue, a, b, lo, hi);
        DrainInside(p, db, [a, b] + queue[1..], more, ops, last, lo, hi);
      case Went(db1, more, ops1) => DrainInside(p, db1, queue[1..], more, ops1, Some(p.now), lo, hi);
      case _ => EndInside(p, db, queue, t, lo, hi, d);
    }
  }

  lemma EndInside(p: Pass, db: Db, queue: seq<BlockRange>, t: Taken, lo: int, hi: int, d: Drained)
    requires queue != [] && Inside(queue, lo, hi) && Behind(p.config, DbOf(db, t)) && d.db == DbOf(db, t)
    requires TakenAt(db, queue[0], t, queue[0].fromBlock - 1)
    requires t.Died? ==> d.Crashed? && d.torn.None? && d.left == queue
    requires t.Torn? ==> d.Crashed? && d.torn == Some(queue[0]) && d.left == queue[1..]
    requires t.Stopped? ==> d.Drained? && d.left == queue && d.reasons == [t.reason]
    requires t.Died? || t.Torn? || t.Stopped?
    ensures DrainedInside(p, db, lo, hi, d)
  {
    assert queue[0] in queue && forall r :: r in queue[1..] ==> r in queue;
    if t.Stopped? {
      assert t.reason in d.reasons;
    }
  }

  // ---- the ascending queue

  predicate Above(rs: seq<BlockRange>, checkpoint: Option<int>) {
    forall r :: r in rs ==> !Reached(checkpoint, r.fromBlock)
  }

  lemma TilesAbove(queue: seq<BlockRange>, checkpoint: Option<int>, config: Config, hi: int)
    requires Tiles(queue, ResumeFrom(config, checkpoint), hi)
    ensures Above(queue, checkpoint)
  {
    TilesExactly(queue, ResumeFrom(config, checkpoint), hi);
  }

  /** Taken in ascending order, whatever is left starts above the checkpoint. */
  lemma {:induction false} DrainInOrder(p: Pass, db: Db, queue: seq<BlockRange>, asked: seq<Ask>, ops: nat, last: Option<int>)
    requires Tiles(queue, ResumeFrom(p.config, db.checkpoint), p.head)
    ensures var d := Drain(p, db, queue, asked, ops, last); Above(d.left, d.db.checkpoint)
    decreases QueueWork(queue)
  {
    TilesAbove(queue, db.checkpoint, p.config, p.head);
    if queue != [] {
      var h := queue[0].fromBlock - 1;
      TakeAt(p, db, queue[0], asked, ops, h);
      HalvedLowersWork(p, db, queue, asked, ops);
      match TakeRange(p, db, queue[0], asked, ops)
      case Halved(a, b, more) =>
        SplitKeepsHeights(queue[0]);
        TilesReplaceHead(queue, ResumeFrom(p.config, db.checkpoint), p.head, a, b);
        DrainInOrder(p, db, [a, b] + queue[1..], more, ops, last);
      case Died(_) =>
      case Torn(db1, _) => TilesAbove(queue[1..], db1.checkpoint, p.config, p.head);
      case Stopped(_, _, _, _, _) =>
      case Went(db1, more, ops1) => DrainInOrder(p, db1, queue[1..], more, ops1, Some(p.now));
    }
  }

  // ---- a pass

  predicate HintFree(w: World, t: Turn) {
    Take(t.hints, w.config.maxHints) == []
  }

  function QueueOf(w: World, t: Turn, db: Db): seq<BlockRange>
    requires t.width >= 1
  {
    QueueFor(PassOf(w, t), Chunks(ResumeFrom(w.config, db.checkpoint), t.head, t.width))
  }

  function DrainOf(w: World, t: Turn, db: Db, asked: seq<Ask>): Drained
    requires t.width >= 1
  {
    Drain(PassOf(w, t), db, QueueOf(w, t, db), asked, t.ops, db.lastSuccessAt)
  }

  lemma PlanMembers(w: World, t: Turn, db: Db)
    requires t.width >= 1
    ensures Inside(QueueOf(w, t, db), ResumeFrom(w.config, db.checkpoint), t.head)
  {
    var from := ResumeFrom(w.config, db.checkpoint);
    var plan := Chunks(from, t.head, t.width);
    ChunksTile(from, t.head, t.width);
    TilesExactly(plan, from, t.head);
    SameElements(QueueOf(w, t, db), plan);
  }

  /** Hints or not, the queue holds each height after the checkpoint exactly once and nothing else, for at most twice their number of rounds. */
  lemma QueueExact(w: World, t: Turn, db: Db)
    requires t.width >= 1
    ensures var from := ResumeFrom(w.config, db.checkpoint);
            && OneEach(QueueOf(w, t, db), from, t.head)
            && (HintFree(w, t) ==> Tiles(QueueOf(w, t, db), from, t.head))
            && QueueWork(QueueOf(w, t, db)) <= (if from <= t.head then 2 * (t.head - from + 1) else 0)
  {
    var from := ResumeFrom(w.config, db.checkpoint);
    var plan := Chunks(from, t.head, t.width);
    ChunksTile(from, t.head, t.width);
    forall h ensures Holders(QueueOf(w, t, db), h) == if from <= h <= t.head then 1 else 0 {
      HintsKeepHeights(plan, Take(t.hints, w.config.maxHints), h);
      TilesOnce(plan, from, t.head, h);
    }
    PlanMembers(w, t, db);
    HintsKeepHeights(plan, Take(t.hints, w.config.maxHints), 0);
    NoHintsNoReorder(plan, from, t.head);
    TiledWork(plan, from, t.head);
  }

  lemma {:induction false} TiledWork(q: seq<BlockRange>, lo: int, hi: int)
    requires Tiles(q, lo, hi)
    ensures QueueWork(q) == if lo <= hi then 2 * (hi - lo + 1) - |q| else 0
  {
    if q != [] {
      TiledWork(q[1..], q[0].toBlock + 1, hi);
      assert q[0].toBlock == hi ==> q[1..] == [];
    }
  }

  /** A pass adds to what the worklist left only the time of its last success. */
  ghost predicate EndsAs(out: PassOut, d: Drained) {
    && out.db.checkpoint == d.db.checkpoint && out.db.rows == d.db.rows && out.db.batches == d.db.batches
    && out.torn == TornBy(d) && out.left == d.left && out.asked == d.asked
    && (out.report.Some? ==> d.Drained? && d.ops >= 1 && out.db.lastSuccessAt == d.lastSuccessAt)
  }

  lemma CloseEnds(p: Pass, before: Option<int>, d: Drained)
    ensures EndsAs(Close(p, before, d), d)
  {
  }

  lemma RunEnds(w: World, t: Turn, db: Db, asked: seq<Ask>)
    ensures var out := Run(PassOf(w, t), db, asked, t.ops);
            if t.width < 1 then out == PassOut(db, asked, None, None, []) else EndsAs(out, DrainOf(w, t, db, asked))
  {
    if t.width >= 1 {
      var d := DrainOf(w, t, db, asked);
      assert Run(PassOf(w, t), db, asked, t.ops) == Close(PassOf(w, t), db.checkpoint, d);
      CloseEnds(PassOf(w, t), db.checkpoint, d);
    }
  }

  /** The height was passed over: it is at or below the checkpoint, and still in the queue. */
  ghost predicate LeftBehind(out: PassOut, h: int) {
    Covers(out.left, h) && Reached(out.db.checkpoint, h)
  }

  /** The pass lost the height: it died between its facts and its row, or passed it over. */
  ghost predicate LostBy(out: PassOut, h: int) {
    Tears(out.torn, h) || LeftBehind(out, h)
  }

  ghost predicate PassAt(config: Config, db: Db, out: PassOut, h: int) {
    && (Lost(config, out.db, h) <==> Lost(config, db, h) || LostBy(out, h))
    && (Missing(config, out.db, h) <==> Missing(config, db, h) || LeftBehind(out, h))
    && (LostBy(out, h) ==> config.startBlock <= h && Reached(out.db.checkpoint, h) && !Reached(db.checkpoint, h))
  }

  /** A height at or below the checkpoint is not in the queue, so nothing happens to it. */
  lemma PassAtOld(config: Config, db: Db, queue: seq<BlockRange>, d: Drained, out: PassOut, h: int)
    requires EndsAs(out, d) && DrainedAt(db, queue, d, h) && !Covers(queue, h)
    requires Reached(d.db.checkpoint, h) ==> h < config.startBlock || Reached(db.checkpoint, h)
    requires NotBehind(db.checkpoint, d.db.checkpoint)
    ensures PassAt(config, db, out, h)
  {
  }

  lemma PassAtNew(config: Config, db: Db, queue: seq<BlockRange>, d: Drained, out: PassOut, h: int)
    requires EndsAs(out, d) && DrainedAt(db, queue, d, h) && Covers(queue, h)
    requires config.startBlock <= h && !Reached(db.checkpoint, h) && Behind(config, db)
    requires TornBy(d).Some? ==> Reached(d.db.checkpoint, TornBy(d).value.toBlock)
    ensures PassAt(config, db, out, h)
  {
    assert !Recorded(db, h) && !Ingested(db, h);
  }

  lemma PassDrains(w: World, t: Turn, db: Db, asked: seq<Ask>, h: int)
    requires t.width >= 1 && Behind(w.config, db)
    ensures var d := DrainOf(w, t, db, asked);
            && DrainedAt(db, QueueOf(w, t, db), d, h)
            && DrainedInside(PassOf(w, t), db, ResumeFrom(w.config, db.checkpoint), t.head, d)
            && (Covers(QueueOf(w, t, db), h) <==> ResumeFrom(w.config, db.checkpoint) <= h <= t.head)
  {
    var queue, from := QueueOf(w, t, db), ResumeFrom(w.config, db.checkpoint);
    QueueExact(w, t, db);
    assert Holders(queue, h) == if from <= h <= t.head then 1 else 0;
    HoldersCover(queue, h);
    PlanMembers(w, t, db);
    DrainAt(PassOf(w, t), db, queue, asked, t.ops, db.lastSuccessAt, h);
    DrainInside(PassOf(w, t), db, queue, asked, t.ops, db.lastSuccessAt, from, t.head);
  }

  /** Exactly what one pass, with any hints, answers and crash, adds to the lost heights and to the missing ones. */
  lemma PassLoses(w: World, t: Turn, db: Db, asked: seq<Ask>, h: int)
    requires Sound(w, db, asked) && Behind(w.config, db)
    ensures var out := Run(PassOf(w, t), db, asked, t.ops); PassAt(w.config, db, out, h) && Behind(w.config, out.db)
  {
    var out := Run(PassOf(w, t), db, asked, t.ops);
    RunEnds(w, t, db, asked);
    if t.width >= 1 {
      var queue, d := QueueOf(w, t, db), DrainOf(w, t, db, asked);
      PassDrains(w, t, db, asked, h);
      DrainKeepsSound(w, PassOf(w, t), db, queue, asked, t.ops, db.lastSuccessAt);
      if Covers(queue, h) {
        PassAtNew(w.config, db, queue, d, out, h);
      } else {
        PassAtOld(w.config, db, queue, d, out, h);
      }
    }
  }

  /** The pass ended with nothing torn and nothing left at or below the checkpoint. */
  predicate Clean(out: PassOut) {
    out.torn.None? && Above(out.left, out.db.checkpoint)
  }

  /** No range is empty, and the checkpoint is past a torn one. */
  predicate EndsInside(out: PassOut, lo: int, hi: int) {
    && Inside(out.left, lo, hi)
    && (out.torn.Some? ==> lo <= out.torn.value.fromBlock <= out.torn.value.toBlock <= hi && Reached(out.db.checkpoint, out.torn.value.toBlock))
  }

  lemma RunInside(w: World, t: Turn, db: Db, asked: seq<Ask>)
    requires Behind(w.config, db)
    ensures EndsInside(Run(PassOf(w, t), db, asked, t.ops), w.config.startBlock, t.head)
  {
    RunEnds(w, t, db, asked);
    if t.width >= 1 {
      PassDrains(w, t, db, asked, 0);
      var d := DrainOf(w, t, db, asked);
      if TornBy(d).Some? {
        assert TornBy(d).value in [TornBy(d).value];
      }
    }
  }

  /** A pass loses no height exactly when it ends clean. */
  lemma CleanMeaning(out: PassOut, lo: int, hi: int)
    requires EndsInside(out, lo, hi)
    ensures Clean(out) <==> forall h :: !LostBy(out, h)
  {
    if out.torn.Some? {
      assert LostBy(out, out.torn.value.fromBlock);
    }
    if r :| r in out.left && Reached(out.db.checkpoint, r.fromBlock) {
      assert Contains(r, r.fromBlock);
      assert LostBy(out, r.fromBlock);
    }
    if Clean(out) {
      forall h ensures !LostBy(out, h) {
        if r :| r in out.left && Contains(r, h) {
          assert !Reached(out.db.checkpoint, r.fromBlock);
        }
      }
    }
  }

  lemma PrefixMeans(config: Config, db: Db)
    ensures PrefixCommitted(config, db) <==> forall h :: !Lost(config, db, h)
    ensures PrefixStored(config, db) <==> forall h :: !Missing(config, db, h)
  {
    forall h ensures Lost(config, db, h) <==> config.startBlock <= h && Reached(db.checkpoint, h) && !Recorded(db, h) {
    }
    forall h ensures Missing(config, db, h) <==> config.startBlock <= h && Reached(db.checkpoint, h) && !Ingested(db, h) {
    }
  }

  ghost predicate PassEverywhere(config: Config, db: Db, out: PassOut) {
    forall h :: PassAt(config, db, out, h)
  }

  lemma PrefixHolds(config: Config, db: Db, out: PassOut)
    requires PassEverywhere(config, db, out)
    ensures PrefixCommitted(config, db) ==> (PrefixCommitted(config, out.db) <==> forall h :: !LostBy(out, h))
    ensures PrefixStored(config, db) ==> (PrefixStored(config, out.db) <==> forall h :: !LeftBehind(out, h))
  {
    PrefixMeans(config, db);
    PrefixMeans(config, out.db);
    forall h ensures Lost(config, out.db, h) <==> Lost(config, db, h) || LostBy(out, h) {
      assert PassAt(config, db, out, h);
    }
    forall h ensures Missing(config, out.db, h) <==> Missing(config, db, h) || LeftBehind(out, h) {
      assert PassAt(config, db, out, h);
    }
  }

  lemma RunEverywhere(w: World, t: Turn, db: Db, asked: seq<Ask>)
    requires Sound(w, db, asked) && Behind(w.config, db)
    ensures PassEverywhere(w.config, db, Run(PassOf(w, t), db, asked, t.ops))
  {
    forall h ensures PassAt(w.config, db, Run(PassOf(w, t), db, asked, t.ops), h) {
      PassLoses(w, t, db, asked, h);
    }
  }

  /** In any order of ranges: from a complete prefix, a pass keeps it complete iff it ends clean, and stored iff it passes nothing over. */
  lemma PassKeepsPrefix(w: World, t: Turn, db: Db, asked: seq<Ask>)
    requires Sound(w, db, asked) && Behind(w.config, db)
    ensures var out := Run(PassOf(w, t), db, asked, t.ops);
            && (PrefixCommitted(w.config, db) ==> (PrefixCommitted(w.config, out.db) <==> Clean(out)))
            && (PrefixStored(w.config, db) ==> (PrefixStored(w.config, out.db) <==> forall h :: !LeftBehind(out, h)))
  {
    var out := Run(PassOf(w, t), db, asked, t.ops);
    RunEverywhere(w, t, db, asked);
    RunInside(w, t, db, asked);
    CleanMeaning(out, w.config.startBlock, t.head);
    PrefixHolds(w.config, db, out);
  }

  /** So a pass that empties its queue keeps both, whatever order the hints gave it. */
  lemma EmptiedQueueKeepsPrefix(w: World, t: Turn, db: Db, asked: seq<Ask>)
    requires Sound(w, db, asked) && Behind(w.config, db)
    requires var out := Run(PassOf(w, t), db, asked, t.ops); out.left == [] && out.torn.None?
    ensures var out := Run(PassOf(w, t), db, asked, t.ops);
            && (PrefixCommitted(w.config, db) ==> PrefixCommitted(w.config, out.db))
            && (PrefixStored(w.config, db) ==> PrefixStored(w.config, out.db))
  {
    PassKeepsPrefix(w, t, db, asked);
  }

  // ---- how much work a pass may do

  function Cost(q: seq<BlockRange>, unit: nat): nat {
    QueueWork(q) * unit
  }

  lemma TakeCost(w: World, p: Pass, db: Db, queue: seq<BlockRange>, asked: seq<Ask>, ops: nat, unit: nat)
    requires queue != [] && Runs(w, p) && unit == Tries(w.config, 0) * |p.groups|
    ensures var t := TakeRange(p, db, queue[0], asked, ops);
            && |t.asked| <= |asked| + unit
            && Cost(queue[1..], unit) + unit <= Cost(queue, unit)
            && (t.Halved? ==> Cost([t.first, t.second] + queue[1..], unit) + unit <= Cost(queue, unit))
  {
    CollectedIsEndorsed(w, p.groups, queue[0], 0, asked);
    TakenAsks(p, db, queue[0], asked, ops);
    OneMore(QueueWork(queue), QueueWork(queue[1..]), unit);
    HalvedLowersWork(p, db, queue, asked, ops);
    var t := TakeRange(p, db, queue[0], asked, ops);
    if t.Halved? {
      OneMore(QueueWork(queue), QueueWork([t.first, t.second] + queue[1..]), unit);
    }
  }

  lemma {:induction false} DrainWork(w: World, p: Pass, db: Db, queue: seq<BlockRange>, asked: seq<Ask>, ops: nat, last: Option<int>, unit: nat)
    requires Runs(w, p) && unit == Tries(w.config, 0) * |p.groups|
    ensures |Drain(p, db, queue, asked, ops, last).asked| <= |asked| + Cost(queue, unit)
    decreases QueueWork(queue)
  {
    if queue != [] {
      TakeCost(w, p, db, queue, asked, ops, unit);
      HalvedLowersWork(p, db, queue, asked, ops);
      match TakeRange(p, db, queue[0], asked, ops)
      case Halved(a, b, more) => DrainWork(w, p, db, [a, b] + queue[1..], more, ops, last, unit);
      case Died(_) =>
      case Torn(_, _) =>
      case Stopped(_, _, _, _, _) =>
      case Went(db1, more, ops1) => DrainWork(w, p, db1, queue[1..], more, ops1, Some(p.now), unit);
    }
  }

  lemma OneMore(k: nat, j: nat, unit: nat)
    requires k >= j + 1
    ensures j * unit + unit <= k * unit
  {
    TimesMonotone(j + 1, k, unit);
  }

  function SpanLeft(w: World, t: Turn, db: Db): nat {
    var from := ResumeFrom(w.config, db.checkpoint);
    if from <= t.head then t.head - from + 1 else 0
  }

  lemma DrainOfWork(w: World, t: Turn, db: Db, asked: seq<Ask>, unit: nat)
    requires t.width >= 1 && unit == Tries(w.config, 0) * |t.groups|
    ensures |DrainOf(w, t, db, asked).asked| <= |asked| + 2 * SpanLeft(w, t, db) * unit
  {
    var queue := QueueOf(w, t, db);
    QueueExact(w, t, db);
    DrainWork(w, PassOf(w, t), db, queue, asked, t.ops, db.lastSuccessAt, unit);
    TimesMonotone(QueueWork(queue), 2 * SpanLeft(w, t, db), unit);
  }

  lemma RunAsks(w: World, t: Turn, db: Db, asked: seq<Ask>)
    ensures Run(PassOf(w, t), db, asked, t.ops).asked == if t.width < 1 then asked else DrainOf(w, t, db, asked).asked
  {
    RunEnds(w, t, db, asked);
  }

  lemma RequestsWithin(w: World, t: Turn, db: Db, asked: seq<Ask>, unit: nat)
    requires unit == Tries(w.config, 0) * |t.groups|
    ensures |if t.width < 1 then asked else DrainOf(w, t, db, asked).asked| <= |asked| + 2 * SpanLeft(w, t, db) * unit
  {
    if t.width >= 1 {
      DrainOfWork(w, t, db, asked, unit);
    } else {
      TimesMonotone(0, 2 * SpanLeft(w, t, db), unit);
    }
  }

  /** However providers answer, a pass over s heights sends each group at most 2 * s * max(1, retryBudget) requests. */
  lemma PassWorkBounded(w: World, t: Turn, db: Db, asked: seq<Ask>)
    ensures |Run(PassOf(w, t), db, asked, t.ops).asked| <= |asked| + 2 * SpanLeft(w, t, db) * (Tries(w.config, 0) * |t.groups|)
  {
    RunAsks(w, t, db, asked);
    RequestsWithin(w, t, db, asked, Tries(w.config, 0) * |t.groups|);
  }

  lemma {:induction false} TimesMonotone(k: nat, j: nat, unit: nat)
    requires k <= j
    ensures k * unit <= j * unit
    decreases j - k
  {
    if k < j {
      TimesMonotone(k, j - 1, unit);
      assert j * unit == (j - 1) * unit + unit;
    }
  }
}
