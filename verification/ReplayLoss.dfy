/** A hinted pass can move the checkpoint past a height it never collected. */
module ReplayLoss {
  import opened Collections
  import opened Sorting
  import opened ReplayPlan
  import opened ReplayEngine
  import opened ReplayHistory
  import opened ReplayProgress

  const LOW := BlockRange(0, 0)
  const HIGH := BlockRange(1, 1)

  function Quiet(r: BlockRange): Observation {
    Observation("a", r, "x", "y", 0, [], [], true, false)
  }

  /** One provider, which has pruned block 0 during the first pass only. */
  function PrunedAtFirst(): Port {
    (n: nat, g: string, r: BlockRange) =>
      if n == 1 && r == LOW then FetchFailed(PRUNED_HISTORY, g) else Fetched(Quiet(r))
  }

  function ConstantDigest(): DigestOf {
    (d: Digested) => "d"
  }

  const WORLD := World(PrunedAtFirst(), ConstantDigest(), Config(0, 1, false, 1, 1000, 8))
  const FIRST := [Ask("a", HIGH)]
  const HINTED := Turn(["a"], 1, 1, [1], 0, 10)

  function QuietResult(r: BlockRange): RangeResult {
    RangeResult("a", r, "d", false, "y", [], [])
  }

  lemma QuietIsUsable(r: BlockRange)
    ensures ClassifyObservation(Quiet(r), ConstantDigest()) == Usable(QuietResult(r))
  {
    assert !HasHole([]);
  }

  lemma QuietAgrees(r: BlockRange)
    ensures var a := Agree([QuietResult(r)], WORLD.config); a.Agreed? && a.witnesses != [] && a.witnesses[0] == QuietResult(r)
  {
    var q := QuietResult(r);
    AgreeMeaning([q], WORLD.config);
    var names := Map((x: RangeResult) => x.providerGroup, [q]);
    assert names[0] in GroupsOf([q]);
    AgreedWitnesses([q], WORLD.config);
    var ws := Agree([q], WORLD.config).witnesses;
    assert ws[0] in ws && ws[0] in [q];
  }

  lemma FirstRangeAgrees()
    ensures var c := Collect(WORLD.port, WORLD.digestOf, ["a"], WORLD.config, HIGH, 0, []);
            && c.outcome.CollectedAgreed? && c.asked == FIRST
            && c.outcome.witnesses != [] && c.outcome.witnesses[0] == QuietResult(HIGH)
  {
    QuietIsUsable(HIGH);
    QuietAgrees(HIGH);
    assert ["a"][1..] == [];
    assert RunRound(WORLD.port, WORLD.digestOf, [], HIGH, FIRST, [QuietResult(HIGH)]) == Answered([QuietResult(HIGH)], FIRST);
    assert [] + [QuietResult(HIGH)] == [QuietResult(HIGH)] && [] + [Ask("a", HIGH)] == FIRST;
    assert RunRound(WORLD.port, WORLD.digestOf, ["a"], HIGH, [], []) == Answered([QuietResult(HIGH)], FIRST);
  }

  lemma SecondRangeBlocks()
    ensures Collect(WORLD.port, WORLD.digestOf, ["a"], WORLD.config, LOW, 0, FIRST) == Collection(CollectedBlocked(PRUNED_HISTORY, Some("a")), FIRST + [Ask("a", LOW)])
  {
    assert RunRound(WORLD.port, WORLD.digestOf, ["a"], LOW, FIRST, []) == Broken(PRUNED_HISTORY, "a", FIRST + [Ask("a", LOW)]);
  }

  /** A pair out of order is swapped. */
  lemma SwappedPair(le: Order<BlockRange>, a: BlockRange, b: BlockRange)
    requires !le(a, b)
    ensures Sort(le, [a, b]) == [b, a]
  {
    assert [a, b][..1] == [a] && [a][..0] == [];
    assert Sort(le, [a]) == Insert(le, Sort(le, []), a) == [a];
    assert Sort(le, [a, b]) == Insert(le, [a], b);
    assert Insert(le, [], b) == [b];
  }

  lemma TwoChunks()
    ensures Chunks(0, 1, 1) == [LOW, HIGH]
  {
    assert Chunks(2, 1, 1) == [];
    assert Chunks(1, 1, 1) == [HIGH];
  }

  lemma QueueIs(w: World, t: Turn, db: Db, hints: seq<int>, plan: seq<BlockRange>)
    requires t.width >= 1 && hints == Take(t.hints, w.config.maxHints) && plan == Chunks(ResumeFrom(w.config, db.checkpoint), t.head, t.width)
    ensures QueueOf(w, t, db) == Sort(HintOrder(hints), plan)
  {
  }

  lemma HintedQueue()
    ensures QueueOf(WORLD, HINTED, EMPTY_DB) == [HIGH, LOW]
  {
    TwoChunks();
    assert Take([1], 8) == [1];
    QueueIs(WORLD, HINTED, EMPTY_DB, [1], [LOW, HIGH]);
    assert !Hinted([1], LOW);
    assert Hinted([1], HIGH) by { assert 1 in [1] && Contains(HIGH, 1); }
    SwappedPair(HintOrder([1]), LOW, HIGH);
  }

  function CommitOf(db: Db, range: BlockRange, ws: seq<RangeResult>): Db
    requires ws != [] && IngestBatch(db, range, ws[0]).Some?
  {
    UpsertRow(IngestBatch(db, range, ws[0]).value, CompleteRow(range, ws))
  }

  lemma LastStep(p: Pass, db: Db, queue: seq<BlockRange>, asked: seq<Ask>, ops: nat, last: Option<int>)
    requires queue != [] && TakeRange(p, db, queue[0], asked, ops).Stopped?
    ensures var d := Drain(p, db, queue, asked, ops, last); d.Drained? && d.left == queue && d.db == TakeRange(p, db, queue[0], asked, ops).db
  {
  }

  /** The first range was committed, and the pass then stopped at the second. */
  lemma StoppedAtSecond(p: Pass, db: Db, a: BlockRange, b: BlockRange, asked: seq<Ask>, ops: nat, last: Option<int>, t: Taken)
    requires TakeRange(p, db, a, asked, ops) == t && t.Went? && TakeRange(p, t.db, b, t.asked, t.ops).Stopped?
    ensures var d := Drain(p, db, [a, b], asked, ops, last); d.Drained? && d.left == [b] && d.db == TakeRange(p, t.db, b, t.asked, t.ops).db
  {
    assert [a, b][1..] == [b];
    OneStep(p, db, [a, b], asked, ops, last, t);
    LastStep(p, t.db, [b], t.asked, t.ops, Some(p.now));
  }

  lemma FromEmpty(a: BlockRange, b: BlockRange, ws: seq<RangeResult>, reason: ReplayReason, group: Option<string>)
    requires a != b && ws != [] && IngestBatch(EMPTY_DB, a, ws[0]).Some?
    ensures var db := UpsertRow(CommitOf(EMPTY_DB, a, ws), BlockedRow(b, reason, group));
            && db.checkpoint == Some(a.toBlock) && db.batches == [Batch(a, ws[0])]
            && forall r :: r in Committed(db.rows) <==> r == a
  {
    var db1 := IngestBatch(EMPTY_DB, a, ws[0]).value;
    AddRow(db1.rows, db1, CompleteRow(a, ws));
    AddRow(CommitOf(EMPTY_DB, a, ws).rows, CommitOf(EMPTY_DB, a, ws), BlockedRow(b, reason, group));
  }

  lemma OnePass(w: World, t: Turn, d: Drained)
    requires t.width >= 1 && d == DrainOf(w, t, EMPTY_DB, [])
    ensures EndsAs(After(w, [t]), d)
  {
    assert [t][..0] == [];
    assert After(w, [t]) == Run(PassOf(w, t), EMPTY_DB, [], t.ops);
    RunEnds(w, t, EMPTY_DB, []);
  }

  lemma LowIsLost(db: Db, ws: seq<RangeResult>)
    requires ws != [] && db.checkpoint == Some(1) && db.batches == [Batch(HIGH, ws[0])] && forall r :: r in Committed(db.rows) <==> r == HIGH
    ensures Lost(WORLD.config, db, 0) && Missing(WORLD.config, db, 0)
  {
    assert Reached(db.checkpoint, 0);
  }

  const PASS := PassOf(WORLD, HINTED)

  lemma HighGoes() returns (ws: seq<RangeResult>)
    ensures ws != [] && IngestBatch(EMPTY_DB, HIGH, ws[0]).Some?
    ensures TakeRange(PASS, EMPTY_DB, HIGH, [], 10) == Went(CommitOf(EMPTY_DB, HIGH, ws), FIRST, 8)
  {
    FirstRangeAgrees();
    ws := Collect(PASS.port, PASS.digestOf, PASS.groups, PASS.config, HIGH, 0, []).outcome.witnesses;
  }

  lemma LowStops(db: Db)
    ensures var t := TakeRange(PASS, db, LOW, FIRST, 8); t.Stopped? && t.db == UpsertRow(db, BlockedRow(LOW, PRUNED_HISTORY, Some("a")))
  {
    SecondRangeBlocks();
  }

  /** Block 0 is below the checkpoint, was never stored, and the provider's recovery no longer matters. */
  lemma HintsCanLoseAHeight()
    ensures var out := After(WORLD, [HINTED]);
            Lost(WORLD.config, out.db, 0) && Missing(WORLD.config, out.db, 0) && out.left == [LOW] && LeftBehind(out, 0)
  {
    var ws := HighGoes();
    LowStops(CommitOf(EMPTY_DB, HIGH, ws));
    StoppedAtSecond(PASS, EMPTY_DB, HIGH, LOW, [], 10, None, TakeRange(PASS, EMPTY_DB, HIGH, [], 10));
    FromEmpty(HIGH, LOW, ws, PRUNED_HISTORY, Some("a"));
    HintedQueue();
    OnePass(WORLD, HINTED, Drain(PASS, EMPTY_DB, [HIGH, LOW], [], 10, None));
    LowIsLost(After(WORLD, [HINTED]).db, ws);
    assert Contains(LOW, 0);
  }
}
