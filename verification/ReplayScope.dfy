/** Whether a stored answer is about the heights it was asked for: nothing checks it, so it takes one provider that keeps to its range. */
module ReplayScope {
  import opened Collections
  import opened ReplayPlan
  import opened ReplayEngine
  import opened ReplayHistory
  import opened ReplayProgress
  import opened ReplayHints
  import opened ReplayVerdicts
  import opened ReplaySafety

  /** The answer names the range, and every block of it lies inside. */
  predicate About(x: RangeResult, r: BlockRange) {
    x.range == r && forall b :: b in x.blocks ==> Contains(r, b.blockNumber)
  }

  predicate AllAbout(db: Db) {
    forall b :: b in db.batches ==> About(b.result, b.range)
  }

  /** No two contents share a digest; what a digest is taken of includes the bounds and the blocks. */
  ghost predicate Binds(digestOf: DigestOf) {
    forall a, b :: digestOf(a) == digestOf(b) ==> a.range == b.range && ToSet(a.blocks) == ToSet(b.blocks)
  }

  predicate KeepsToRange(f: Fetch, r: BlockRange) {
    f.Fetched? ==> f.observation.range == r && forall b :: b in f.observation.blocks ==> Contains(r, b.blockNumber)
  }

  /** From the m-th request on, these providers answer only about what they are asked for. */
  ghost predicate Trusty(port: Port, good: set<string>, m: nat) {
    forall n: nat, g, r :: n >= m && g in good ==> KeepsToRange(port(n, g, r), r)
  }

  lemma TrustyOn(port: Port, good: set<string>, m: nat, n: nat)
    requires Trusty(port, good, m) && m <= n
    ensures Trusty(port, good, n)
  {
  }

  // ---- one truthful answer in a round that agreed vouches for all of them

  ghost predicate ResultOf(x: RangeResult, o: Observation, digestOf: DigestOf) {
    ClassifyObservation(o, digestOf) == Usable(x)
  }

  ghost predicate IsResult(x: RangeResult, digestOf: DigestOf) {
    exists o :: ResultOf(x, o, digestOf)
  }

  lemma SameDigestSameScope(x: RangeResult, y: RangeResult, digestOf: DigestOf, r: BlockRange)
    requires IsResult(x, digestOf) && IsResult(y, digestOf) && x.digest == y.digest && Binds(digestOf)
    ensures About(x, r) <==> About(y, r)
  {
    var o :| ResultOf(x, o, digestOf);
    var p :| ResultOf(y, p, digestOf);
    var a := Digested(o.range, o.startBlockHash, o.endBlockHash, o.logCount, o.logs, o.blocks);
    var b := Digested(p.range, p.startBlockHash, p.endBlockHash, p.logCount, p.logs, p.blocks);
    assert digestOf(a) == digestOf(b);
    assert forall k :: k in x.blocks <==> k in ToSet(a.blocks);
    assert forall k :: k in y.blocks <==> k in ToSet(b.blocks);
  }

  ghost predicate AllResults(results: seq<RangeResult>, digestOf: DigestOf) {
    forall x :: x in results ==> IsResult(x, digestOf)
  }

  predicate SomeAbout(results: seq<RangeResult>, r: BlockRange) {
    exists x :: x in results && About(x, r)
  }

  predicate AsksGood(groups: seq<string>, good: set<string>) {
    exists g :: g in groups && g in good
  }

  /** A round that ended heard every group, so also the one that keeps to its range. */
  lemma {:induction false} RoundHears(port: Port, digestOf: DigestOf, groups: seq<string>, range: BlockRange, asked: seq<Ask>, results: seq<RangeResult>, good: set<string>)
    requires AllResults(results, digestOf) && Trusty(port, good, |asked|)
    ensures var round := RunRound(port, digestOf, groups, range, asked, results);
            round.Answered? ==> AllResults(round.results, digestOf) && (AsksGood(groups, good) || SomeAbout(results, range) ==> SomeAbout(round.results, range))
    decreases |groups|
  {
    if groups != [] && port(|asked|, groups[0], range).Fetched? {
      var o := port(|asked|, groups[0], range).observation;
      var c := ClassifyObservation(o, digestOf);
      if c.Usable? {
        var more := asked + [Ask(groups[0], range)];
        assert ResultOf(c.result, o, digestOf);
        TrustyOn(port, good, |asked|, |more|);
        HeardOne(port, digestOf, groups, range, |asked|, results, good, o, c.result);
        RoundHears(port, digestOf, groups[1..], range, more, results + [c.result], good);
      }
    }
  }

  lemma HeardOne(port: Port, digestOf: DigestOf, groups: seq<string>, range: BlockRange, m: nat, results: seq<RangeResult>, good: set<string>, o: Observation, x: RangeResult)
    requires groups != [] && Trusty(port, good, m) && port(m, groups[0], range) == Fetched(o) && ResultOf(x, o, digestOf)
    ensures AsksGood(groups, good) || SomeAbout(results, range) ==> AsksGood(groups[1..], good) || SomeAbout(results + [x], range)
  {
    if SomeAbout(results, range) {
      var y :| y in results && About(y, range);
      assert y in results + [x];
    }
    if groups[0] in good {
      assert KeepsToRange(port(m, groups[0], range), range);
      assert x in results + [x] && About(x, range);
    } else if AsksGood(groups, good) {
      var g :| g in groups && g in good;
      assert g in groups[1..];
    }
  }

  lemma AgreedAbout(results: seq<RangeResult>, config: Config, digestOf: DigestOf, r: BlockRange)
    requires AllResults(results, digestOf) && SomeAbout(results, r) && Binds(digestOf) && Agree(results, config).Agreed?
    ensures forall x :: x in Agree(results, config).witnesses ==> About(x, r)
  {
    AgreeMeaning(results, config);
    AgreedWitnesses(results, config);
    var y :| y in results && About(y, r);
    forall x | x in Agree(results, config).witnesses ensures About(x, r) {
      SameDigestSameScope(x, y, digestOf, r);
    }
  }

  lemma RoundAbout(p: Pass, range: BlockRange, asked: seq<Ask>, good: set<string>)
    requires Trusty(p.port, good, |asked|) && AsksGood(p.groups, good) && Binds(p.digestOf)
    ensures var v := JudgeRound(RunRound(p.port, p.digestOf, p.groups, range, asked, []), p.config);
            v.RoundAgreed? ==> forall x :: x in v.witnesses ==> About(x, range)
  {
    var round := RunRound(p.port, p.digestOf, p.groups, range, asked, []);
    RoundHears(p.port, p.digestOf, p.groups, range, asked, [], good);
    if JudgeRound(round, p.config).RoundAgreed? {
      AgreedAbout(round.results, p.config, p.digestOf, range);
    }
  }

  lemma {:induction false} CollectedAbout(w: World, p: Pass, range: BlockRange, attempts: nat, asked: seq<Ask>, good: set<string>)
    requires Runs(w, p) && Trusty(p.port, good, |asked|) && AsksGood(p.groups, good) && Binds(p.digestOf)
    ensures var c := Collect(p.port, p.digestOf, p.groups, p.config, range, attempts, asked).outcome;
            c.CollectedAgreed? ==> forall x :: x in c.witnesses ==> About(x, range)
    decreases p.config.retryBudget - attempts
  {
    RoundAbout(p, range, asked, good);
    var t := Attempt(p.port, p.digestOf, p.groups, p.config, range, attempts, asked);
    if t.Again? {
      RoundEndorses(w, p.groups, range, asked);
      TrustyOn(p.port, good, |asked|, |t.asked|);
      CollectedAbout(w, p, range, attempts + 1, t.asked, good);
    }
  }

  lemma TakeAbout(w: World, p: Pass, db: Db, range: BlockRange, asked: seq<Ask>, ops: nat, good: set<string>)
    requires Runs(w, p) && Trusty(p.port, good, |asked|) && AsksGood(p.groups, good) && Binds(p.digestOf) && AllAbout(db)
    ensures AllAbout(DbOf(db, TakeRange(p, db, range, asked, ops)))
  {
    CollectedAbout(w, p, range, 0, asked, good);
    AgreedHasWitness(p.port, p.digestOf, p.groups, p.config, range, 0, asked);
    TakenCases(p, db, range, asked, ops, (after: Db) => AllAbout(after));
  }

  lemma {:induction false} DrainAbout(w: World, t: Turn, db: Db, queue: seq<BlockRange>, asked: seq<Ask>, ops: nat, last: Option<int>, good: set<string>)
    requires Trusty(w.port, good, |asked|) && AsksGood(t.groups, good) && Binds(w.digestOf) && AllAbout(db)
    ensures AllAbout(Drain(PassOf(w, t), db, queue, asked, ops, last).db)
    decreases QueueWork(queue)
  {
    if queue != [] {
      var p := PassOf(w, t);
      TakeAbout(w, p, db, queue[0], asked, ops, good);
      TakeGrows(w, t, db, queue[0], asked, ops);
      TrustyOn(w.port, good, |asked|, |TakeRange(p, db, queue[0], asked, ops).asked|);
      HalvedLowersWork(p, db, queue, asked, ops);
      match TakeRange(p, db, queue[0], asked, ops)
      case Halved(a, b, more) => DrainAbout(w, t, db, [a, b] + queue[1..], more, ops, last, good);
      case Went(db1, more, ops1) => DrainAbout(w, t, db1, queue[1..], more, ops1, Some(p.now), good);
      case _ =>
    }
  }

  lemma RunAbout(w: World, t: Turn, db: Db, asked: seq<Ask>, good: set<string>)
    requires Trusty(w.port, good, |asked|) && AsksGood(t.groups, good) && Binds(w.digestOf) && AllAbout(db)
    ensures AllAbout(Run(PassOf(w, t), db, asked, t.ops).db)
  {
    RunEnds(w, t, db, asked);
    if t.width >= 1 {
      DrainAbout(w, t, db, QueueOf(w, t, db), asked, t.ops, db.lastSuccessAt, good);
    }
  }

  // ---- without one, everything may be displaced

  lemma {:induction false} DrainKeepsBatches(p: Pass, db: Db, queue: seq<BlockRange>, asked: seq<Ask>, ops: nat, last: Option<int>)
    ensures db.batches <= Drain(p, db, queue, asked, ops, last).db.batches
    decreases QueueWork(queue)
  {
    if queue != [] {
      AgreedHasWitness(p.port, p.digestOf, p.groups, p.config, queue[0], 0, asked);
      TakenCases(p, db, queue[0], asked, ops, (after: Db) => db.batches <= after.batches);
      HalvedLowersWork(p, db, queue, asked, ops);
      match TakeRange(p, db, queue[0], asked, ops)
      case Halved(a, b, more) => DrainKeepsBatches(p, db, [a, b] + queue[1..], more, ops, last);
      case Went(db1, more, ops1) => DrainKeepsBatches(p, db1, queue[1..], more, ops1, Some(p.now));
      case _ =>
    }
  }

  /** The first batch of the pass is about other heights. */
  lemma DrainDisplaces(p: Pass, db: Db, queue: seq<BlockRange>, asked: seq<Ask>, ops: nat, last: Option<int>, shift: int)
    requires Obliges(p.port, p.groups, |asked|, shift) && shift != 0 && CanAgree(p.config, p.groups) && queue != [] && ops >= 2
    ensures !AllAbout(Drain(p, db, queue, asked, ops, last).db)
  {
    TakeObliged(p, db, queue[0], asked, ops, shift);
    var t := TakeRange(p, db, queue[0], asked, ops);
    OneStep(p, db, queue, asked, ops, last, t);
    DrainKeepsBatches(p, t.db, queue[1..], t.asked, t.ops, Some(p.now));
    var d := Drain(p, t.db, queue[1..], t.asked, t.ops, Some(p.now));
    var b := t.db.batches[|db.batches|];
    assert d.db.batches[|db.batches|] == b && b in d.db.batches && !About(b.result, b.range);
  }

  /** Good groups stay silent, all others answer about the heights further up. */
  function Displacing(was: Port, good: set<string>, m: nat, shift: int): Port {
    (n: nat, g: string, r: BlockRange) =>
      if n < m then was(n, g, r) else if g in good then FetchFailed(PRUNED_HISTORY, g) else Fetched(EmptyAnswer(n, r, shift))
  }

  /** Nothing is asked for, or nothing can be agreed on. */
  predicate Idle(w: World, t: Turn, db: Db) {
    t.width < 1 || !CanAgree(w.config, t.groups) || t.head < ResumeFrom(w.config, db.checkpoint)
  }

  lemma {:induction false} NothingStored(p: Pass, db: Db, queue: seq<BlockRange>, asked: seq<Ask>, ops: nat, last: Option<int>)
    requires !CanAgree(p.config, p.groups)
    ensures Drain(p, db, queue, asked, ops, last).db.batches == db.batches
    decreases QueueWork(queue)
  {
    if queue != [] {
      NoAgreement(p.port, p.digestOf, p.groups, p.config, queue[0], asked);
      HalvedLowersWork(p, db, queue, asked, ops);
      match TakeRange(p, db, queue[0], asked, ops)
      case Halved(a, b, more) => NothingStored(p, db, [a, b] + queue[1..], more, ops, last);
      case _ =>
    }
  }

  lemma QueueIsEmpty(w: World, t: Turn, db: Db)
    requires t.width >= 1
    ensures QueueOf(w, t, db) == [] <==> t.head < ResumeFrom(w.config, db.checkpoint)
  {
    var plan := PlanOf(w, t, db);
    assert |multiset(QueueOf(w, t, db))| == |multiset(plan)|;
    assert |multiset(QueueOf(w, t, db))| == |QueueOf(w, t, db)| && |multiset(plan)| == |plan|;
  }

  lemma IdleStoresNothing(w: World, t: Turn, db: Db, asked: seq<Ask>)
    requires Idle(w, t, db)
    ensures Run(PassOf(w, t), db, asked, t.ops).db.batches == db.batches
  {
    RunEnds(w, t, db, asked);
    if t.width >= 1 {
      QueueIsEmpty(w, t, db);
      if !CanAgree(w.config, t.groups) {
        NothingStored(PassOf(w, t), db, QueueOf(w, t, db), asked, t.ops, db.lastSuccessAt);
      }
    }
  }

  /** After this history, providers among which the good ones keep to their ranges make the next pass store something off its range. */
  ghost predicate NextDisplaces(w: World, turns: seq<Turn>, t: Turn, good: set<string>, port: Port, ops: nat) {
    && SameUntil(port, w.port, |After(w, turns).asked|) && Trusty(port, good, |After(w, turns).asked|)
    && !AllAbout(After(w.(port := port), turns + [t.(ops := ops)]).db)
  }

  // However the other providers answer, everything the next pass stores is about the range it was asked for, exactly when it
  // asks some provider that keeps to its range, or has nothing to do.
  lemma InScopeIffGoodIsAsked(w: World, turns: seq<Turn>, t: Turn, good: set<string>)
    requires Binds(w.digestOf) && AllAbout(After(w, turns).db)
    ensures (forall port, ops: nat :: !NextDisplaces(w, turns, t, good, port, ops)) <==> AsksGood(t.groups, good) || Idle(w, t, After(w, turns).db)
  {
    var before := After(w, turns);
    var m := |before.asked|;
    if AsksGood(t.groups, good) || Idle(w, t, before.db) {
      forall port, ops: nat ensures !NextDisplaces(w, turns, t, good, port, ops) {
        if SameUntil(port, w.port, m) && Trusty(port, good, m) {
          NextStays(w, turns, t.(ops := ops), good, w.(port := port));
        }
      }
    } else {
      var port := Displacing(w.port, good, m, 1);
      var v, u := w.(port := port), t.(ops := 2);
      NextRun(v, w, turns, u);
      QueueIsEmpty(w, u, before.db);
      assert Obliges(port, t.groups, m, 1);
      RunEnds(v, u, before.db, before.asked);
      DrainDisplaces(PassOf(v, u), before.db, QueueOf(v, u, before.db), before.asked, 2, before.db.lastSuccessAt, 1);
      assert NextDisplaces(w, turns, t, good, port, 2);
    }
  }

  lemma NextStays(w: World, turns: seq<Turn>, t: Turn, good: set<string>, v: World)
    requires SameSoFar(v, w, |After(w, turns).asked|) && Trusty(v.port, good, |After(w, turns).asked|)
    requires Binds(w.digestOf) && AllAbout(After(w, turns).db)
    requires AsksGood(t.groups, good) || Idle(w, t, After(w, turns).db)
    ensures AllAbout(After(v, turns + [t]).db)
  {
    var before := After(w, turns);
    NextRun(v, w, turns, t);
    if AsksGood(t.groups, good) {
      RunAbout(v, t, before.db, before.asked, good);
    } else {
      IdleStoresNothing(v, t, before.db, before.asked);
    }
  }

  // ---- what an OK then rests on

  predicate AlwaysAsksGood(turns: seq<Turn>, good: set<string>) {
    forall t :: t in turns ==> AsksGood(t.groups, good)
  }

  lemma {:induction false} HistoriesAbout(w: World, turns: seq<Turn>, good: set<string>)
    requires Binds(w.digestOf) && Trusty(w.port, good, 0) && AlwaysAsksGood(turns, good)
    ensures AllAbout(After(w, turns).db)
  {
    if turns != [] {
      var front, t := turns[..|turns| - 1], turns[|turns| - 1];
      var before := After(w, front);
      HistoriesAbout(w, front, good);
      TrustyOn(w.port, good, 0, |before.asked|);
      RunAbout(w, t, before.db, before.asked, good);
    }
  }

  /** An endorsed answer about this height's range is on disk. */
  ghost predicate ProvenInScope(w: World, db: Db, asked: seq<Ask>, h: int) {
    exists r, x :: Contains(r, h) && Endorsed(w, r, x, asked) && Holds(db, x) && About(x, r)
  }

  /** Where every pass asked a provider that keeps to its range, an OK rests, at every height, on an answer about that height. */
  lemma OkIsInScope(w: World, turns: seq<Turn>, good: set<string>, h: int)
    requires Binds(w.digestOf) && Trusty(w.port, good, 0) && AlwaysAsksGood(turns, good)
    requires ReportsOk(After(w, turns)) && w.config.startBlock <= h <= After(w, turns).report.value.head
    ensures ProvenInScope(w, After(w, turns).db, After(w, turns).asked, h)
  {
    var out := After(w, turns);
    OkIsSound(w, turns, h);
    HistoriesSound(w, turns);
    HistoriesAbout(w, turns, good);
    var r :| r in Committed(out.db.rows) && Contains(r, h);
    var x := CommittedBatch(w, out.db, out.asked, r);
    assert About(Batch(r, x).result, r);
  }

  /** One range, one batch, all of it about other heights. */
  lemma OneDisplaced(p: Pass, db: Db, range: BlockRange, asked: seq<Ask>, ops: nat, last: Option<int>, shift: int)
    requires Obliges(p.port, p.groups, |asked|, shift) && CanAgree(p.config, p.groups) && ops >= 2 && db.batches == []
    ensures var d := Drain(p, db, [range], asked, ops, last);
            && d.Drained? && d.ops == ops - 2 && d.left == [] && d.lastSuccessAt == Some(p.now)
            && |d.db.batches| == 1 && d.db.batches[0].range == range && d.db.batches[0].result.range == Shifted(range, shift)
  {
    TakeObliged(p, db, range, asked, ops, shift);
    var t := TakeRange(p, db, range, asked, ops);
    OneStep(p, db, [range], asked, ops, last, t);
    assert [range][1..] == [];
  }

  lemma OneChunk(w: World, t: Turn)
    requires w.config.startBlock <= t.head && t.width > t.head - w.config.startBlock
    ensures QueueOf(w, t, EMPTY_DB) == [BlockRange(w.config.startBlock, t.head)]
  {
    var from := w.config.startBlock;
    var whole := BlockRange(from, t.head);
    assert Chunks(from + t.width, t.head, t.width) == [];
    assert Chunks(from, t.head, t.width) == [whole];
    assert |multiset(QueueOf(w, t, EMPTY_DB))| == |multiset([whole])| == 1;
    assert QueueOf(w, t, EMPTY_DB)[0] in multiset(QueueOf(w, t, EMPTY_DB));
  }

  // Providers that all answer about the heights `shift` further up are believed: the first report over any window is OK, and
  // nothing on disk is about the heights of that window.
  lemma DisplacedIsOk(w: World, t: Turn, shift: int)
    requires CanAgree(w.config, t.groups) && w.config.startBlock <= t.head && t.width > t.head - w.config.startBlock
    requires t.ops == 3 && w.config.ttlMs >= 0 && shift != 0
    ensures var v := w.(port := Displacing(w.port, {}, 0, shift));
            var out := After(v, [t]);
            ReportsOk(out) && OnlyDisplaced(out.db.batches, BlockRange(w.config.startBlock, t.head))
  {
    ObligedIsOk(w.(port := Displacing(w.port, {}, 0, shift)), t, shift);
  }

  /** Something is stored for the range, and nothing stored is about it. */
  predicate OnlyDisplaced(batches: seq<Batch>, r: BlockRange) {
    batches != [] && forall b :: b in batches ==> b.range == r && !About(b.result, r)
  }

  lemma ObligedIsOk(w: World, t: Turn, shift: int)
    requires Obliges(w.port, t.groups, 0, shift)
    requires CanAgree(w.config, t.groups) && w.config.startBlock <= t.head && t.width > t.head - w.config.startBlock
    requires t.ops == 3 && w.config.ttlMs >= 0 && shift != 0
    ensures var out := After(w, [t]); ReportsOk(out) && OnlyDisplaced(out.db.batches, BlockRange(w.config.startBlock, t.head))
  {
    var whole := BlockRange(w.config.startBlock, t.head);
    OneChunk(w, t);
    OneDisplaced(PassOf(w, t), EMPTY_DB, whole, [], t.ops, None, shift);
    FirstReport(w, t, whole);
    LoneDisplaced(After(w, [t]).db.batches, whole, shift);
  }

  lemma LoneDisplaced(batches: seq<Batch>, r: BlockRange, shift: int)
    requires |batches| == 1 && batches[0].range == r && batches[0].result.range == Shifted(r, shift) && shift != 0
    ensures OnlyDisplaced(batches, r)
  {
  }

  lemma FirstReport(w: World, t: Turn, whole: BlockRange)
    requires t.width >= 1 && w.config.ttlMs >= 0 && QueueOf(w, t, EMPTY_DB) == [whole]
    requires var d := Drain(PassOf(w, t), EMPTY_DB, [whole], [], t.ops, None); d.Drained? && d.ops == 1 && d.left == [] && d.lastSuccessAt == Some(t.now)
    ensures ReportsOk(After(w, [t])) && After(w, [t]).db.batches == Drain(PassOf(w, t), EMPTY_DB, [whole], [], t.ops, None).db.batches
  {
    FirstRun(w, t);
    HistoriesSound(w, []);
    EmptiedIsDone(w, t, EMPTY_DB, []);
    RunEnds(w, t, EMPTY_DB, []);
    FirstIsClean(w, t);
    CleanOkIffCaughtUp(w, [t]);
  }

  lemma FirstRun(w: World, t: Turn)
    requires t.width >= 1
    ensures After(w, [t]) == Run(PassOf(w, t), EMPTY_DB, [], t.ops) == Close(PassOf(w, t), None, DrainOf(w, t, EMPTY_DB, []))
    ensures After(w, []).db == EMPTY_DB
  {
    assert [t][..0] == [];
  }

  lemma FirstIsClean(w: World, t: Turn)
    requires Clean(After(w, [t]))
    ensures AllClean(w, [t])
  {
    assert [t][..0] == [];
    assert Passes(w, [t]) == Passes(w, []) + [After(w, [t])];
  }
}
