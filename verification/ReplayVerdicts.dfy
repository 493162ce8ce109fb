/** Whole histories of replay: exactly which heights are lost, which have their facts, and when a report says OK. */
module ReplayVerdicts {
  import opened Collections
  import opened ReplayPlan
  import opened ReplayEngine
  import opened ReplayHistory
  import opened ReplayProgress
  import opened ReplayHints

  /** What each pass so far ended with. */
  function Passes(w: World, turns: seq<Turn>): seq<PassOut> {
    if turns == [] then [] else Passes(w, turns[..|turns| - 1]) + [After(w, turns)]
  }

  /** Some pass died between the facts and the row of the height's range, or passed the height over. */
  ghost predicate EverLost(w: World, turns: seq<Turn>, h: int) {
    exists out :: out in Passes(w, turns) && LostBy(out, h)
  }

  ghost predicate EverPassedOver(w: World, turns: seq<Turn>, h: int) {
    exists out :: out in Passes(w, turns) && LeftBehind(out, h)
  }

  lemma PassesPush(w: World, turns: seq<Turn>)
    requires turns != []
    ensures forall out :: out in Passes(w, turns) <==> out in Passes(w, turns[..|turns| - 1]) || out == After(w, turns)
  {
  }

  lemma LastRun(w: World, turns: seq<Turn>)
    requires turns != []
    ensures var before, t := After(w, turns[..|turns| - 1]), turns[|turns| - 1];
            && Sound(w, before.db, before.asked)
            && After(w, turns) == Run(PassOf(w, t), before.db, before.asked, t.ops)
  {
    HistoriesSound(w, turns[..|turns| - 1]);
  }

  lemma {:induction false} HistoriesBehind(w: World, turns: seq<Turn>)
    ensures Behind(w.config, After(w, turns).db)
  {
    if turns != [] {
      var before, t := After(w, turns[..|turns| - 1]), turns[|turns| - 1];
      HistoriesBehind(w, turns[..|turns| - 1]);
      LastRun(w, turns);
      PassLoses(w, t, before.db, before.asked, 0);
    }
  }

  lemma LastPassAt(w: World, turns: seq<Turn>, h: int)
    requires turns != []
    ensures PassAt(w.config, After(w, turns[..|turns| - 1]).db, After(w, turns), h)
  {
    var before := After(w, turns[..|turns| - 1]);
    HistoriesBehind(w, turns[..|turns| - 1]);
    LastRun(w, turns);
    PassLoses(w, turns[|turns| - 1], before.db, before.asked, h);
  }

  // ---- which heights are lost, and which have no facts

  lemma LosesLater(w: World, turns: seq<Turn>, h: int)
    requires turns != []
    ensures var front := turns[..|turns| - 1];
            && (EverLost(w, turns, h) <==> EverLost(w, front, h) || LostBy(After(w, turns), h))
            && (EverPassedOver(w, turns, h) <==> EverPassedOver(w, front, h) || LeftBehind(After(w, turns), h))
  {
    PassesPush(w, turns);
  }

  /** Over every history: a height at or below the checkpoint is uncommitted iff some pass lost it, and unstored iff some pass passed it over. */
  lemma {:induction false} LostIff(w: World, turns: seq<Turn>, h: int)
    ensures Lost(w.config, After(w, turns).db, h) <==> EverLost(w, turns, h)
    ensures Missing(w.config, After(w, turns).db, h) <==> EverPassedOver(w, turns, h)
  {
    if turns != [] {
      LostIff(w, turns[..|turns| - 1], h);
      LosesLater(w, turns, h);
      LastPassAt(w, turns, h);
    }
  }

  lemma {:induction false} PassesStay(w: World, turns: seq<Turn>, more: seq<Turn>)
    ensures forall out :: out in Passes(w, turns) ==> out in Passes(w, turns + more)
  {
    if more == [] {
      assert turns + more == turns;
    } else {
      var n := |more| - 1;
      assert (turns + more)[..|turns + more| - 1] == turns + more[..n];
      PassesStay(w, turns, more[..n]);
      PassesPush(w, turns + more);
    }
  }

  /** A height the checkpoint passed without a committed range is never recovered by any continuation. */
  lemma LostForever(w: World, turns: seq<Turn>, more: seq<Turn>, h: int)
    requires Lost(w.config, After(w, turns).db, h)
    ensures Lost(w.config, After(w, turns + more).db, h)
  {
    LostIff(w, turns, h);
    PassesStay(w, turns, more);
    LostIff(w, turns + more, h);
  }

  lemma LastEndsClean(w: World, turns: seq<Turn>)
    requires turns != []
    ensures Clean(After(w, turns)) <==> forall h :: !LostBy(After(w, turns), h)
  {
    var before, t := After(w, turns[..|turns| - 1]), turns[|turns| - 1];
    HistoriesBehind(w, turns[..|turns| - 1]);
    LastRun(w, turns);
    RunInside(w, t, before.db, before.asked);
    CleanMeaning(After(w, turns), w.config.startBlock, t.head);
  }

  lemma {:induction false} PassesEndClean(w: World, turns: seq<Turn>)
    ensures forall out :: out in Passes(w, turns) ==> (Clean(out) <==> forall h :: !LostBy(out, h))
  {
    if turns != [] {
      PassesEndClean(w, turns[..|turns| - 1]);
      LastEndsClean(w, turns);
      PassesPush(w, turns);
    }
  }

  ghost predicate AllClean(w: World, turns: seq<Turn>) {
    forall out :: out in Passes(w, turns) ==> Clean(out)
  }

  /** Whatever the hints: every height up to the checkpoint is committed iff every pass ended clean. */
  lemma CommittedIffClean(w: World, turns: seq<Turn>)
    ensures PrefixCommitted(w.config, After(w, turns).db) <==> AllClean(w, turns)
  {
    PrefixMeans(w.config, After(w, turns).db);
    forall h ensures Lost(w.config, After(w, turns).db, h) <==> EverLost(w, turns, h) {
      LostIff(w, turns, h);
    }
    PassesEndClean(w, turns);
    if !AllClean(w, turns) {
      var out :| out in Passes(w, turns) && !Clean(out);
      var h :| LostBy(out, h);
      assert EverLost(w, turns, h);
    }
  }

  /** Each pass found its plan orderly on the database before it. */
  predicate AllOrderly(w: World, turns: seq<Turn>) {
    turns == [] || (AllOrderly(w, turns[..|turns| - 1]) && Orderly(w, turns[|turns| - 1], After(w, turns[..|turns| - 1]).db))
  }

  lemma {:induction false} HintFreeIsOrderly(w: World, turns: seq<Turn>)
    requires forall t :: t in turns ==> HintFree(w, t)
    ensures AllOrderly(w, turns)
  {
    if turns != [] {
      var t, before := turns[|turns| - 1], After(w, turns[..|turns| - 1]);
      HintFreeIsOrderly(w, turns[..|turns| - 1]);
      if t.width >= 1 {
        InOrderMeaning(w, t, before.db);
      }
    }
  }

  ghost predicate NeverTorn(w: World, turns: seq<Turn>) {
    forall out :: out in Passes(w, turns) ==> out.torn.None?
  }

  lemma LastOrderly(w: World, turns: seq<Turn>)
    requires turns != [] && Orderly(w, turns[|turns| - 1], After(w, turns[..|turns| - 1]).db)
    ensures PassedNothingOver(After(w, turns))
  {
    var before := After(w, turns[..|turns| - 1]);
    LastRun(w, turns);
    OrderlyPassesNothingOver(w, turns[|turns| - 1], before.db, before.asked);
  }

  lemma {:induction false} OrderlyPasses(w: World, turns: seq<Turn>)
    requires AllOrderly(w, turns)
    ensures forall out :: out in Passes(w, turns) ==> PassedNothingOver(out)
  {
    if turns != [] {
      OrderlyPasses(w, turns[..|turns| - 1]);
      LastOrderly(w, turns);
      PassesPush(w, turns);
    }
  }

  /** Where plans are orderly: every height up to the checkpoint is committed iff no process died between a range's facts and its row. */
  lemma CommittedIffNeverTorn(w: World, turns: seq<Turn>)
    requires AllOrderly(w, turns)
    ensures PrefixCommitted(w.config, After(w, turns).db) <==> NeverTorn(w, turns)
  {
    CommittedIffClean(w, turns);
    OrderlyPasses(w, turns);
  }

  // ---- the facts themselves

  lemma IngestedIsProven(w: World, db: Db, asked: seq<Ask>, h: int)
    requires Sound(w, db, asked) && Ingested(db, h)
    ensures Proven(w, db, asked, h)
  {
    var b :| b in db.batches && Contains(b.range, h);
    assert BatchOk(w, db, b, asked);
  }

  /** Up to the checkpoint every height has an endorsed answer on disk, unless some pass passed it over. */
  lemma StoredUnlessPassedOver(w: World, turns: seq<Turn>, h: int)
    requires w.config.startBlock <= h && Reached(After(w, turns).db.checkpoint, h)
    ensures Ingested(After(w, turns).db, h) <==> !EverPassedOver(w, turns, h)
    ensures !EverPassedOver(w, turns, h) ==> Proven(w, After(w, turns).db, After(w, turns).asked, h)
  {
    LostIff(w, turns, h);
    HistoriesSound(w, turns);
    if !EverPassedOver(w, turns, h) {
      IngestedIsProven(w, After(w, turns).db, After(w, turns).asked, h);
    }
  }

  /** Over every sequence of orderly passes, whatever crashes, splits and blocks: no height at or below the checkpoint was skipped. */
  lemma PrefixAlwaysStored(w: World, turns: seq<Turn>, h: int)
    requires AllOrderly(w, turns) && w.config.startBlock <= h && Reached(After(w, turns).db.checkpoint, h)
    ensures Proven(w, After(w, turns).db, After(w, turns).asked, h)
  {
    OrderlyPasses(w, turns);
    StoredUnlessPassedOver(w, turns, h);
  }

  // ---- reports

  predicate Done(config: Config, checkpoint: Option<int>, head: int) {
    head < config.startBlock || Reached(checkpoint, head)
  }

  /** The last success is within its time to live. */
  predicate Recent(config: Config, db: Db, now: int) {
    db.lastSuccessAt.Some? && now - db.lastSuccessAt.value <= config.ttlMs
  }

  function WindowOf(config: Config, head: int): BlockRange {
    BlockRange(config.startBlock, head)
  }

  /** No lost height lies where the verdict looks: up to the head, or to the last committed range if that is further. */
  ghost predicate NoneLostInView(config: Config, db: Db, head: int) {
    forall h :: InHorizon(Committed(db.rows), WindowOf(config, head), h) ==> !Lost(config, db, h)
  }

  lemma ViewIsReached(config: Config, db: Db, head: int, h: int)
    requires Behind(config, db) && Done(config, db.checkpoint, head)
    requires InHorizon(Committed(db.rows), WindowOf(config, head), h)
    ensures config.startBlock <= h && Reached(db.checkpoint, h)
  {
    if h > head {
      var r :| r in Committed(db.rows) && h < r.fromBlock;
      assert Reached(db.checkpoint, r.toBlock);
    }
  }

  /** Stopping behind a checkpoint that has passed what is left is seen by the verdict. */
  lemma StoppedIsSeen(config: Config, db: Db, left: seq<BlockRange>, head: int)
    requires Inside(left, config.startBlock, head) && left != [] && Done(config, db.checkpoint, head)
    requires forall h :: Covers(left, h) ==> !Recorded(db, h)
    ensures !NoneLostInView(config, db, head)
  {
    var r := left[0];
    var h := r.fromBlock;
    assert r in left && Contains(r, h);
    assert Covers(left, h);
    assert Lost(config, db, h) && InHorizon(Committed(db.rows), WindowOf(config, head), h);
  }

  /** Where the head is reached, everything in view is committed iff no height in view is lost. */
  lemma ViewIsCovered(config: Config, db: Db, head: int)
    requires Behind(config, db) && Done(config, db.checkpoint, head)
    ensures NoneLostInView(config, db, head) <==> NothingMissing(Committed(db.rows), WindowOf(config, head))
  {
    var rows, window := Committed(db.rows), WindowOf(config, head);
    if NoneLostInView(config, db, head) {
      forall h | InHorizon(rows, window, h) ensures Covers(rows, h) {
        ViewIsReached(config, db, head, h);
        assert !Lost(config, db, h);
      }
    }
    if NothingMissing(rows, window) {
      forall h | InHorizon(rows, window, h) ensures !Lost(config, db, h) {
        assert Covers(rows, h);
      }
    }
  }

  /** Nothing is left and nothing missing exactly when the head is reached and nothing in view is lost. */
  lemma LeftDecides(p: Pass, db: Db, left: seq<BlockRange>)
    requires Behind(p.config, db) && Inside(left, p.config.startBlock, p.head)
    requires left == [] ==> Done(p.config, db.checkpoint, p.head)
    requires forall h :: Covers(left, h) ==> !Recorded(db, h)
    ensures left == [] && NothingMissing(Committed(db.rows), WindowOf(p.config, p.head))
            <==> Done(p.config, db.checkpoint, p.head) && NoneLostInView(p.config, db, p.head)
  {
    if Done(p.config, db.checkpoint, p.head) {
      ViewIsCovered(p.config, db, p.head);
      if left != [] {
        StoppedIsSeen(p.config, db, left, p.head);
      }
    }
  }

  lemma CloseVerdict(p: Pass, before: Option<int>, d: Drained)
    requires d.Drained? && d.ops >= 1 && Behind(p.config, d.db) && Inside(d.left, p.config.startBlock, p.head)
    requires Stopping(d.reasons) <==> d.left != []
    requires d.left == [] ==> Done(p.config, d.db.checkpoint, p.head)
    requires forall h :: Covers(d.left, h) ==> !Recorded(d.db, h)
    ensures var out := Close(p, before, d);
            && out.report.Some?
            && (ReportsOk(out) <==> && Done(p.config, d.db.checkpoint, p.head) && Recent(p.config, out.db, p.now)
                                    && NoneLostInView(p.config, d.db, p.head))
  {
    OkMeaning(WindowOf(p.config, p.head), Committed(d.db.rows), d.lastSuccessAt, p.config.ttlMs, d.reasons, p.now);
    LeftDecides(p, d.db, d.left);
  }

  /** An emptied queue has brought the checkpoint to the head. */
  lemma EmptiedIsDone(w: World, t: Turn, db: Db, asked: seq<Ask>)
    requires t.width >= 1 && Behind(w.config, db) && Sound(w, db, asked)
    ensures var d := DrainOf(w, t, db, asked); d.Drained? && d.left == [] ==> Done(w.config, d.db.checkpoint, t.head)
  {
    var d := DrainOf(w, t, db, asked);
    PassDrains(w, t, db, asked, t.head);
    DrainKeepsSound(w, PassOf(w, t), db, QueueOf(w, t, db), asked, t.ops, db.lastSuccessAt);
    if d.Drained? && d.left == [] && ResumeFrom(w.config, db.checkpoint) <= t.head {
      assert Recorded(d.db, t.head);
      var r :| r in Committed(d.db.rows) && Contains(r, t.head);
      assert Reached(d.db.checkpoint, r.toBlock);
    }
  }

  lemma LeftIsUnrecorded(w: World, t: Turn, db: Db, asked: seq<Ask>)
    requires t.width >= 1 && Behind(w.config, db)
    ensures var d := DrainOf(w, t, db, asked); forall h :: Covers(d.left, h) ==> !Recorded(d.db, h)
  {
    var d := DrainOf(w, t, db, asked);
    forall h | Covers(d.left, h) ensures !Recorded(d.db, h) {
      PassDrains(w, t, db, asked, h);
      assert !Reached(db.checkpoint, h);
      assert !Recorded(db, h);
    }
  }

  lemma RunVerdict(w: World, t: Turn, db: Db, asked: seq<Ask>)
    requires Behind(w.config, db) && Sound(w, db, asked)
    ensures var out := Run(PassOf(w, t), db, asked, t.ops);
            out.report.Some? ==>
              (ReportsOk(out) <==> && Done(w.config, out.db.checkpoint, t.head) && Recent(w.config, out.db, t.now)
                                   && NoneLostInView(w.config, out.db, t.head))
  {
    RunEnds(w, t, db, asked);
    if t.width >= 1 && Run(PassOf(w, t), db, asked, t.ops).report.Some? {
      var d := DrainOf(w, t, db, asked);
      PassDrains(w, t, db, asked, 0);
      EmptiedIsDone(w, t, db, asked);
      LeftIsUnrecorded(w, t, db, asked);
      CloseVerdict(PassOf(w, t), db.checkpoint, d);
      assert Run(PassOf(w, t), db, asked, t.ops) == Close(PassOf(w, t), db.checkpoint, d);
    }
  }

  /** Any report of any history says OK iff the checkpoint has reached the head, the last success is fresh, and no lost height is in view. */
  lemma OkIffCaughtUp(w: World, turns: seq<Turn>)
    requires turns != [] && After(w, turns).report.Some?
    ensures var out, t := After(w, turns), turns[|turns| - 1];
            ReportsOk(out) <==> && Done(w.config, out.db.checkpoint, t.head) && Recent(w.config, out.db, t.now)
                                && NoneLostInView(w.config, out.db, t.head)
  {
    var before := After(w, turns[..|turns| - 1]);
    HistoriesBehind(w, turns[..|turns| - 1]);
    LastRun(w, turns);
    RunVerdict(w, turns[|turns| - 1], before.db, before.asked);
  }

  /** Where no pass lost a height, being caught up and fresh is all it takes. */
  lemma CleanOkIffCaughtUp(w: World, turns: seq<Turn>)
    requires turns != [] && After(w, turns).report.Some? && AllClean(w, turns)
    ensures var out, t := After(w, turns), turns[|turns| - 1];
            ReportsOk(out) <==> Done(w.config, out.db.checkpoint, t.head) && Recent(w.config, out.db, t.now)
  {
    OkIffCaughtUp(w, turns);
    CommittedIffClean(w, turns);
    PrefixMeans(w.config, After(w, turns).db);
  }

  lemma LostReport(w: World, t: Turn, before: Option<int>, out: PassOut, h: int)
    requires ReportFits(w, t, before, out) && Lost(w.config, out.db, h) && h <= t.head
    ensures out.report.Some? ==> Covers(out.report.value.assessment.gaps, h) && out.report.value.assessment.verdict == VerdictUnknown
  {
    var window := BlockRange(w.config.startBlock, t.head);
    GapsExact(Committed(out.db.rows), window);
    assert Contains(window, h);
  }

  /** It fails closed: every later report whose window holds a lost height lists it as a gap and is not OK. */
  lemma LostIsNeverOk(w: World, turns: seq<Turn>, more: seq<Turn>, t: Turn, h: int)
    requires Lost(w.config, After(w, turns).db, h) && h <= t.head
    ensures var report := After(w, turns + (more + [t])).report;
            report.Some? ==> Covers(report.value.assessment.gaps, h) && report.value.assessment.verdict == VerdictUnknown
  {
    var all := turns + (more + [t]);
    LostForever(w, turns, more + [t], h);
    AfterFits(w, all);
    LostReport(w, t, After(w, all[..|all| - 1]).db.checkpoint, After(w, all), h);
  }

  lemma AfterFits(w: World, turns: seq<Turn>)
    requires turns != []
    ensures ReportFits(w, turns[|turns| - 1], After(w, turns[..|turns| - 1]).db.checkpoint, After(w, turns))
  {
    var before := After(w, turns[..|turns| - 1]);
    ReportMeaning(w, turns[|turns| - 1], before.db, before.asked);
  }
}
