/** The replay pass as the engine runs it, step by step, with what each step promises its caller. */
module ReplayRun {
  import opened Collections
  import opened Sorting
  import opened ReplayPlan
  import opened ReplayEngine
  import opened ReplayHistory
  import opened ReplayProgress
  import opened ReplayHints
  import opened ReplayVerdicts

  function WorldOf(p: Pass): World {
    World(p.port, p.digestOf, p.config)
  }

  function TurnOf(p: Pass, ops: nat): Turn {
    Turn(p.groups, p.width, p.head, p.hints, p.now, ops)
  }

  // ---- one range

  /** An endorsed answer for the range is on disk, nothing on disk was touched, and the checkpoint covers the range. */
  ghost predicate Wrote(w: World, before: Db, after: Db, range: BlockRange, asked: seq<Ask>) {
    && (exists x :: Endorsed(w, range, x, asked) && Holds(after, x))
    && Grown(before, after)
    && after.checkpoint == Forward(before.checkpoint, range.toBlock)
  }

  ghost predicate SameFactsAs(before: Db, after: Db) {
    after.checkpoint == before.checkpoint && after.logs == before.logs && after.accepted == before.accepted && after.batches == before.batches
  }

  /** Every outcome of taking one range, for a process that survives `ops` more writes. */
  ghost predicate StepMeans(w: World, db: Db, range: BlockRange, ops: nat, t: Taken) {
    match t
    case Halved(a, b, _) => SplitRange(range) == Some((a, b))
    case Died(_) => ops < 2
    case Torn(db1, more) => ops == 1 && Wrote(w, db, db1, range, more) && db1.rows == db.rows
    case Stopped(db1, _, ops1, reason, conflict) =>
      && SameFactsAs(db, db1) && (reason == PROVIDER_DIVERGENCE || IsBlocking(reason))
      && (if conflict then ops1 == ops - 1 && db1.rows == db.rows else ops1 == ops - 2 && range !in Committed(db1.rows))
    case Went(db1, more, ops1) => ops1 == ops - 2 && Wrote(w, db, db1, range, more) && range in Committed(db1.rows)
  }

  lemma IngestWrites(w: World, db: Db, range: BlockRange, x: RangeResult, asked: seq<Ask>, row: Row)
    requires Endorsed(w, range, x, asked) && IngestBatch(db, range, x).Some?
    ensures var db1 := IngestBatch(db, range, x).value; Wrote(w, db, db1, range, asked) && Wrote(w, db, UpsertRow(db1, row), range, asked)
  {
    IngestHolds(db, range, x);
    AcceptBlocksGrows(db, x.blocks);
    assert Holds(UpsertRow(IngestBatch(db, range, x).value, row), x);
  }

  lemma CommitMeans(w: World, db: Db, range: BlockRange, ws: seq<RangeResult>, asked: seq<Ask>, ops: nat)
    requires ws != [] && Endorsed(w, range, ws[0], asked)
    ensures StepMeans(w, db, range, ops, Commit(db, range, ws, asked, ops))
  {
    var after := IngestBatch(db, range, ws[0]);
    if after.Some? {
      IngestWrites(w, db, range, ws[0], asked, CompleteRow(range, ws));
      AddRow(after.value.rows, after.value, CompleteRow(range, ws));
    }
  }

  lemma TakeMeans(p: Pass, db: Db, range: BlockRange, asked: seq<Ask>, ops: nat)
    ensures StepMeans(WorldOf(p), db, range, ops, TakeRange(p, db, range, asked, ops))
  {
    HalvedMeaning(p, db, range, asked, ops);
    CollectedIsEndorsed(WorldOf(p), p.groups, range, 0, asked);
    var c := Collect(p.port, p.digestOf, p.groups, p.config, range, 0, asked);
    match c.outcome
    case CollectedSplit(_, _) =>
    case CollectedBlocked(reason, group) =>
      StopsBlock(p.port, p.digestOf, p.groups, p.config, range, 0, asked);
      AddRow(db.rows, db, BlockedRow(range, reason, group));
    case CollectedAgreed(ws, _) =>
      assert ws[0] in ws;
      CommitMeans(WorldOf(p), db, range, ws, c.asked, ops);
  }

  lemma TakeAsks(p: Pass, db: Db, range: BlockRange, asked: seq<Ask>, ops: nat)
    ensures var t := TakeRange(p, db, range, asked, ops); asked <= t.asked && |t.asked| <= |asked| + Tries(p.config, 0) * |p.groups|
  {
    CollectedIsEndorsed(WorldOf(p), p.groups, range, 0, asked);
    TakenAsks(p, db, range, asked, ops);
  }

  /** Takes one range: split it, stop at it, or write its facts and then its row, as far as the process gets. */
  method StepRange(p: Pass, db: Db, range: BlockRange, asked: seq<Ask>, ops: nat) returns (t: Taken)
    ensures StepMeans(WorldOf(p), db, range, ops, t)
    ensures asked <= t.asked && |t.asked| <= |asked| + Tries(p.config, 0) * |p.groups|
    ensures t == TakeRange(p, db, range, asked, ops)
  {
    TakeMeans(p, db, range, asked, ops);
    TakeAsks(p, db, range, asked, ops);
    var c := CollectRange(p.port, p.digestOf, p.groups, p.config, range, asked);
    if c.outcome.CollectedSplit? {
      return Halved(c.outcome.first, c.outcome.second, c.asked);
    }
    if c.outcome.CollectedBlocked? {
      if ops < 2 {
        return Died(c.asked);
      }
      return Stopped(UpsertRow(db, BlockedRow(range, c.outcome.reason, c.outcome.group)), c.asked, ops - 2, c.outcome.reason, false);
    }
    AgreedHasWitness(p.port, p.digestOf, p.groups, p.config, range, 0, asked);
    t := Commit(db, range, c.outcome.witnesses, c.asked, ops);
  }

  // ---- the worklist

  method DrainQueue(p: Pass, db0: Db, queue0: seq<BlockRange>, asked0: seq<Ask>, ops0: nat) returns (d: Drained)
    ensures d == Drain(p, db0, queue0, asked0, ops0, db0.lastSuccessAt)
  {
    var db, queue, asked, ops := db0, queue0, asked0, ops0;
    var reasons: seq<ReplayReason>, last, conflict := [], db0.lastSuccessAt, false;
    while queue != []
      invariant reasons == [] && !conflict
      invariant Drain(p, db, queue, asked, ops, last) == Drain(p, db0, queue0, asked0, ops0, db0.lastSuccessAt)
      decreases QueueWork(queue)
    {
      var t := StepRange(p, db, queue[0], asked, ops);
      HalvedLowersWork(p, db, queue, asked, ops);
      match t
      case Halved(a, b, more) => queue, asked := [a, b] + queue[1..], more;
      case Died(more) => return Crashed(db, more, None, queue);
      case Torn(db1, more) => return Crashed(db1, more, Some(queue[0]), queue[1..]);
      case Stopped(db1, more, ops1, reason, c) =>
        reasons, conflict := reasons + [reason], c;
        db, asked, ops := db1, more, ops1;
        break;
      case Went(db1, more, ops1) => db, queue, asked, ops, last := db1, queue[1..], more, ops1, Some(p.now);
    }
    d := Drained(db, asked, queue, ops, reasons, last, conflict);
  }

  // ---- the pass

  lemma SamePass(p: Pass, ops: nat)
    ensures PassOf(WorldOf(p), TurnOf(p, ops)) == p
  {
  }

  /** What a pass promises whoever calls it on a database that earlier passes left. */
  ghost predicate PassMeans(w: World, t: Turn, db: Db, asked: seq<Ask>, out: PassOut) {
    && Kept(w, db, out.db, out.asked) && asked <= out.asked
    && Behind(w.config, out.db) && PassEverywhere(w.config, db, out) && EndsInside(out, w.config.startBlock, t.head)
    && (Orderly(w, t, db) ==> Above(out.left, out.db.checkpoint))
  }

  /** What its report promises, whatever database it found. */
  ghost predicate ReportMeans(w: World, t: Turn, db: Db, out: PassOut) {
    out.report.Some? ==>
      && out.report.value.checkpointBefore == db.checkpoint && out.report.value.checkpointAfter == out.db.checkpoint
      && out.report.value.head == t.head
      && (ReportsOk(out) ==> forall h :: w.config.startBlock <= h <= t.head ==> Recorded(out.db, h))
  }

  lemma RunMeans(w: World, t: Turn, db: Db, asked: seq<Ask>)
    requires Sound(w, db, asked) && Behind(w.config, db)
    ensures PassMeans(w, t, db, asked, Run(PassOf(w, t), db, asked, t.ops))
  {
    RunKeepsSound(w, t, db, asked);
    PassLoses(w, t, db, asked, 0);
    RunEverywhere(w, t, db, asked);
    RunInside(w, t, db, asked);
    if Orderly(w, t, db) {
      OrderlyPassesNothingOver(w, t, db, asked);
    }
  }

  lemma RunReportMeans(w: World, t: Turn, db: Db, asked: seq<Ask>)
    ensures ReportMeans(w, t, db, Run(PassOf(w, t), db, asked, t.ops))
  {
    var out := Run(PassOf(w, t), db, asked, t.ops);
    ReportMeaning(w, t, db, asked);
    if ReportsOk(out) {
      forall h | w.config.startBlock <= h <= t.head ensures Recorded(out.db, h) {
        OkCovers(w, t, db.checkpoint, out, h);
      }
    }
  }

  /** One replay pass: resume, plan, reorder, drain, assess, report. */
  method RunReplay(p: Pass, db0: Db, asked0: seq<Ask>, ops0: nat) returns (out: PassOut)
    ensures ReportMeans(WorldOf(p), TurnOf(p, ops0), db0, out)
    ensures Sound(WorldOf(p), db0, asked0) && Behind(p.config, db0) ==> PassMeans(WorldOf(p), TurnOf(p, ops0), db0, asked0, out)
    ensures |out.asked| <= |asked0| + 2 * SpanLeft(WorldOf(p), TurnOf(p, ops0), db0) * (Tries(p.config, 0) * |p.groups|)
    ensures out == Run(p, db0, asked0, ops0)
  {
    var plan := PlanRanges(ResumeFrom(p.config, db0.checkpoint), p.head, p.width);
    if plan.None? {
      out := PassOut(db0, asked0, None, None, []);
    } else {
      var queue := QueueFor(p, plan.value);
      var drained := DrainQueue(p, db0, queue, asked0, ops0);
      out := Close(p, db0.checkpoint, drained);
    }
    SamePass(p, ops0);
    PassPromises(p, db0, asked0, ops0);
  }

  lemma PassPromises(p: Pass, db: Db, asked: seq<Ask>, ops: nat)
    ensures var out := Run(p, db, asked, ops);
            && ReportMeans(WorldOf(p), TurnOf(p, ops), db, out)
            && (Sound(WorldOf(p), db, asked) && Behind(p.config, db) ==> PassMeans(WorldOf(p), TurnOf(p, ops), db, asked, out))
            && |out.asked| <= |asked| + 2 * SpanLeft(WorldOf(p), TurnOf(p, ops), db) * (Tries(p.config, 0) * |p.groups|)
  {
    var w, t := WorldOf(p), TurnOf(p, ops);
    SamePass(p, ops);
    RunReportMeans(w, t, db, asked);
    PassWorkBounded(w, t, db, asked);
    if Sound(w, db, asked) && Behind(p.config, db) {
      RunMeans(w, t, db, asked);
    }
  }
}
