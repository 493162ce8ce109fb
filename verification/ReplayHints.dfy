/** When hints are safe: exactly which plans no answers and no crash can make a pass leave a height behind the checkpoint. */
module ReplayHints {
  import opened Collections
  import opened Sorting
  import opened ReplayPlan
  import opened ReplayEngine
  import opened ReplayHistory
  import opened ReplayProgress

  // ---- providers that answer everything at once

  /** A name no other request's answer carries. */
  function NameOf(n: nat): string {
    seq(n, i => 'a')
  }

  function Shifted(r: BlockRange, shift: int): BlockRange {
    BlockRange(r.fromBlock + shift, r.toBlock + shift)
  }

  /** A complete answer with nothing in it, about the range moved by `shift`. */
  function EmptyAnswer(n: nat, r: BlockRange, shift: int): Observation {
    Observation(NameOf(n), Shifted(r, shift), "", "", 0, [], [], true, false)
  }

  function EmptyResult(n: nat, r: BlockRange, shift: int, digestOf: DigestOf): RangeResult {
    RangeResult(NameOf(n), Shifted(r, shift), digestOf(Digested(Shifted(r, shift), "", "", 0, [], [])), false, "", [], [])
  }

  /** From the m-th request on, these groups give empty answers. */
  ghost predicate Obliges(port: Port, groups: seq<string>, m: nat, shift: int) {
    forall n: nat, g, r :: n >= m && g in groups ==> port(n, g, r) == Fetched(EmptyAnswer(n, r, shift))
  }

  lemma EmptyIsUsable(n: nat, r: BlockRange, shift: int, digestOf: DigestOf)
    ensures ClassifyObservation(EmptyAnswer(n, r, shift), digestOf) == Usable(EmptyResult(n, r, shift, digestOf))
  {
    assert !HasHole([]);
  }

  /** One empty answer per group, under consecutive names. */
  ghost predicate EmptyResults(results: seq<RangeResult>, m: nat, range: BlockRange, shift: int, digestOf: DigestOf) {
    forall i :: 0 <= i < |results| ==> results[i] == EmptyResult(m + i, range, shift, digestOf)
  }

  lemma {:induction false} RoundObliged(port: Port, digestOf: DigestOf, groups: seq<string>, range: BlockRange, m: nat, asked: seq<Ask>, results: seq<RangeResult>, shift: int)
    requires Obliges(port, groups, m, shift) && |asked| == m + |results| && EmptyResults(results, m, range, shift, digestOf)
    ensures var round := RunRound(port, digestOf, groups, range, asked, results);
            && round.Answered? && |round.results| == |results| + |groups| && EmptyResults(round.results, m, range, shift, digestOf)
            && |round.asked| == |asked| + |groups|
    decreases |groups|
  {
    if groups != [] {
      var n := |asked|;
      EmptyIsUsable(n, range, shift, digestOf);
      assert groups[0] in groups && port(n, groups[0], range) == Fetched(EmptyAnswer(n, range, shift));
      var more := asked + [Ask(groups[0], range)];
      RoundObliged(port, digestOf, groups[1..], range, m, more, results + [EmptyResult(n, range, shift, digestOf)], shift);
    }
  }

  lemma NamesApart(results: seq<RangeResult>, m: nat, range: BlockRange, shift: int, digestOf: DigestOf)
    requires EmptyResults(results, m, range, shift, digestOf)
    ensures |GroupsOf(results)| == |results|
  {
    var names := Map((r: RangeResult) => r.providerGroup, results);
    forall i, j | 0 <= i < j < |names| ensures names[i] != names[j] {
      assert |names[i]| == m + i && |names[j]| == m + j;
    }
    DedupOfDistinct(names);
  }

  /** Enough groups are asked for an agreement to be possible at all. */
  predicate CanAgree(config: Config, groups: seq<string>) {
    groups != [] && |groups| >= config.requiredGroups
  }

  lemma EmptyAgree(results: seq<RangeResult>, config: Config, m: nat, range: BlockRange, shift: int, digestOf: DigestOf)
    requires EmptyResults(results, m, range, shift, digestOf) && results != [] && |results| >= config.requiredGroups
    ensures var a := Agree(results, config);
            && a.Agreed? && a.witnesses != []
            && a.witnesses[0].range == Shifted(range, shift) && a.witnesses[0].logs == [] && a.witnesses[0].blocks == []
  {
    NamesApart(results, m, range, shift, digestOf);
    forall r | r in results ensures r.digest == results[0].digest && !r.viaArchive {
      var i :| 0 <= i < |results| && results[i] == r;
      assert results[0] == EmptyResult(m + 0, range, shift, digestOf);
    }
    AgreeMeaning(results, config);
    AgreedWitnesses(results, config);
    var w := Agree(results, config).witnesses[0];
    assert w in Agree(results, config).witnesses;
    var i :| 0 <= i < |results| && results[i] == w;
  }

  /** The range is agreed on at the first attempt. */
  lemma CollectObliged(port: Port, digestOf: DigestOf, groups: seq<string>, config: Config, range: BlockRange, asked: seq<Ask>, shift: int)
    requires Obliges(port, groups, |asked|, shift) && CanAgree(config, groups)
    ensures var c := Collect(port, digestOf, groups, config, range, 0, asked);
            && c.outcome.CollectedAgreed? && c.outcome.witnesses != [] && |c.asked| >= |asked|
            && c.outcome.witnesses[0].range == Shifted(range, shift) && c.outcome.witnesses[0].logs == [] && c.outcome.witnesses[0].blocks == []
  {
    RoundObliged(port, digestOf, groups, range, |asked|, asked, [], shift);
    var round := RunRound(port, digestOf, groups, range, asked, []);
    EmptyAgree(round.results, config, |asked|, range, shift, digestOf);
  }

  lemma TakeObliged(p: Pass, db: Db, range: BlockRange, asked: seq<Ask>, ops: nat, shift: int)
    requires Obliges(p.port, p.groups, |asked|, shift) && CanAgree(p.config, p.groups)
    ensures var t := TakeRange(p, db, range, asked, ops);
            && |t.asked| >= |asked|
            && (ops < 1 ==> t.Died?)
            && (ops >= 2 ==> && t.Went? && t.ops == ops - 2 && t.db.checkpoint == Forward(db.checkpoint, range.toBlock)
                             && |t.db.batches| == |db.batches| + 1 && db.batches <= t.db.batches
                             && t.db.batches[|db.batches|].range == range && t.db.batches[|db.batches|].result.range == Shifted(range, shift))
  {
    CollectObliged(p.port, p.digestOf, p.groups, p.config, range, asked, shift);
  }

  lemma ObligesOn(port: Port, groups: seq<string>, m: nat, n: nat, shift: int)
    requires Obliges(port, groups, m, shift) && m <= n
    ensures Obliges(port, groups, n, shift)
  {
  }

  /** The first k ranges were taken, the rest is left, and the checkpoint is not below any of those taken. */
  ghost predicate TookFirst(queue: seq<BlockRange>, k: nat, before: Option<int>, d: Drained)
    requires k <= |queue|
  {
    d.left == queue[k..] && NotBehind(before, d.db.checkpoint) && forall i :: 0 <= i < k ==> Reached(d.db.checkpoint, queue[i].toBlock)
  }

  lemma TookOneMore(queue: seq<BlockRange>, k: nat, before: Option<int>, d: Drained)
    requires 0 < k <= |queue| && TookFirst(queue[1..], k - 1, Forward(before, queue[0].toBlock), d)
    ensures TookFirst(queue, k, before, d)
  {
    assert queue[1..][k - 1..] == queue[k..];
    forall i | 0 <= i < k ensures Reached(d.db.checkpoint, queue[i].toBlock) {
      if i > 0 {
        assert queue[1..][i - 1] == queue[i];
      }
    }
  }

  lemma TookNone(p: Pass, db: Db, queue: seq<BlockRange>, asked: seq<Ask>, ops: nat, last: Option<int>)
    requires queue != [] && TakeRange(p, db, queue[0], asked, ops).Died?
    ensures TookFirst(queue, 0, db.checkpoint, Drain(p, db, queue, asked, ops, last))
  {
  }

  /** With two writes a range, a process that dies after k ranges has taken exactly the first k. */
  lemma {:induction false} DrainObliged(p: Pass, db: Db, queue: seq<BlockRange>, asked: seq<Ask>, k: nat, ops: nat, last: Option<int>, shift: int)
    requires Obliges(p.port, p.groups, |asked|, shift) && CanAgree(p.config, p.groups) && k < |queue| && ops == 2 * k
    ensures TookFirst(queue, k, db.checkpoint, Drain(p, db, queue, asked, ops, last))
    decreases k
  {
    TakeObliged(p, db, queue[0], asked, ops, shift);
    if k == 0 {
      TookNone(p, db, queue, asked, ops, last);
    } else {
      var t := TakeRange(p, db, queue[0], asked, ops);
      ObligesOn(p.port, p.groups, |asked|, |t.asked|, shift);
      DrainObliged(p, t.db, queue[1..], t.asked, k - 1, t.ops, Some(p.now), shift);
      OneStep(p, db, queue, asked, ops, last, t);
      var d := Drain(p, t.db, queue[1..], t.asked, t.ops, Some(p.now));
      assert t.db.checkpoint == Forward(db.checkpoint, queue[0].toBlock);
      TookOneMore(queue, k, db.checkpoint, d);
    }
  }

  // ---- without enough groups nothing is ever written

  lemma {:induction false} RoundSize(port: Port, digestOf: DigestOf, groups: seq<string>, range: BlockRange, asked: seq<Ask>, results: seq<RangeResult>)
    ensures var round := RunRound(port, digestOf, groups, range, asked, results); round.Answered? ==> |round.results| == |results| + |groups|
    decreases |groups|
  {
    if groups != [] && port(|asked|, groups[0], range).Fetched? {
      var c := ClassifyObservation(port(|asked|, groups[0], range).observation, digestOf);
      if c.Usable? {
        RoundSize(port, digestOf, groups[1..], range, asked + [Ask(groups[0], range)], results + [c.result]);
      }
    }
  }

  lemma FewerGroups(results: seq<RangeResult>)
    ensures |GroupsOf(results)| <= |results|
  {
    var names := Map((r: RangeResult) => r.providerGroup, results);
    DedupNoLonger(names);
  }

  lemma {:induction false} DedupNoLonger(s: seq<string>)
    ensures |Dedup(s)| <= |s|
  {
    if s != [] {
      DedupNoLonger(s[..|s| - 1]);
    }
  }

  lemma NoAgreement(port: Port, digestOf: DigestOf, groups: seq<string>, config: Config, range: BlockRange, asked: seq<Ask>)
    requires !CanAgree(config, groups)
    ensures !Collect(port, digestOf, groups, config, range, 0, asked).outcome.CollectedAgreed?
  {
    var at := CollectedMeaning(port, digestOf, groups, config, range, 0, asked);
    RoundSize(port, digestOf, groups, range, at, []);
    var round := RunRound(port, digestOf, groups, range, at, []);
    if round.Answered? {
      FewerGroups(round.results);
      AgreeMeaning(round.results, config);
    }
  }

  lemma HalvesAbove(queue: seq<BlockRange>, a: BlockRange, b: BlockRange, checkpoint: Option<int>)
    requires queue != [] && Above(queue, checkpoint) && SplitRange(queue[0]) == Some((a, b))
    ensures Above([a, b] + queue[1..], checkpoint)
  {
    assert queue[0] in queue && forall r :: r in queue[1..] ==> r in queue;
    assert forall r :: r in [a, b] + queue[1..] ==> r == a || r == b || r in queue[1..];
  }

  lemma {:induction false} DrainNothing(p: Pass, db: Db, queue: seq<BlockRange>, asked: seq<Ask>, ops: nat, last: Option<int>)
    requires !CanAgree(p.config, p.groups) && Above(queue, db.checkpoint)
    ensures var d := Drain(p, db, queue, asked, ops, last); d.db.checkpoint == db.checkpoint && Above(d.left, db.checkpoint)
    decreases QueueWork(queue)
  {
    if queue != [] {
      NoAgreement(p.port, p.digestOf, p.groups, p.config, queue[0], asked);
      HalvedMeaning(p, db, queue[0], asked, ops);
      HalvedLowersWork(p, db, queue, asked, ops);
      match TakeRange(p, db, queue[0], asked, ops)
      case Halved(a, b, more) =>
        HalvesAbove(queue, a, b, db.checkpoint);
        DrainNothing(p, db, [a, b] + queue[1..], more, ops, last);
      case _ =>
    }
  }

  // ---- the exact condition

  function PlanOf(w: World, t: Turn, db: Db): seq<BlockRange>
    requires t.width >= 1
  {
    Chunks(ResumeFrom(w.config, db.checkpoint), t.head, t.width)
  }

  /** The hinted ranges are at the front of the plan, so that the queue is the plan. */
  predicate InOrder(w: World, t: Turn, db: Db)
    requires t.width >= 1
  {
    HintsFirst(PlanOf(w, t, db), Take(t.hints, w.config.maxHints))
  }

  /** What a caller can check before the pass. */
  predicate Orderly(w: World, t: Turn, db: Db) {
    t.width < 1 || !CanAgree(w.config, t.groups) || InOrder(w, t, db)
  }

  lemma InOrderMeaning(w: World, t: Turn, db: Db)
    requires t.width >= 1
    ensures InOrder(w, t, db) <==> QueueOf(w, t, db) == PlanOf(w, t, db)
    ensures InOrder(w, t, db) ==> Tiles(QueueOf(w, t, db), ResumeFrom(w.config, db.checkpoint), t.head)
    ensures HintFree(w, t) ==> InOrder(w, t, db)
  {
    var from := ResumeFrom(w.config, db.checkpoint);
    ChunksTile(from, t.head, t.width);
    InOrderIffHintsFirst(PlanOf(w, t, db), Take(t.hints, w.config.maxHints), from, t.head);
    forall r ensures !Hinted([], r) {
    }
  }

  /** The pass left nothing at or below its checkpoint. */
  ghost predicate PassedNothingOver(out: PassOut) {
    Above(out.left, out.db.checkpoint) && forall h :: !LeftBehind(out, h)
  }

  lemma AboveIsEnough(out: PassOut)
    requires Above(out.left, out.db.checkpoint)
    ensures PassedNothingOver(out)
  {
    forall h ensures !LeftBehind(out, h) {
      if r :| r in out.left && Contains(r, h) {
        assert !Reached(out.db.checkpoint, r.fromBlock);
      }
    }
  }

  lemma PlanAbove(w: World, t: Turn, db: Db)
    requires t.width >= 1
    ensures Above(QueueOf(w, t, db), db.checkpoint)
  {
    PlanMembers(w, t, db);
  }

  /** Whatever the providers answer and wherever the process dies. */
  lemma OrderlyPassesNothingOver(w: World, t: Turn, db: Db, asked: seq<Ask>)
    requires Orderly(w, t, db)
    ensures PassedNothingOver(Run(PassOf(w, t), db, asked, t.ops))
  {
    RunEnds(w, t, db, asked);
    if t.width >= 1 {
      PlanAbove(w, t, db);
      if InOrder(w, t, db) {
        InOrderMeaning(w, t, db);
        DrainInOrder(PassOf(w, t), db, QueueOf(w, t, db), asked, t.ops, db.lastSuccessAt);
      } else {
        DrainNothing(PassOf(w, t), db, QueueOf(w, t, db), asked, t.ops, db.lastSuccessAt);
      }
    }
    AboveIsEnough(Run(PassOf(w, t), db, asked, t.ops));
  }

  lemma LeftHolds(queue: seq<BlockRange>, k: nat, j: nat)
    requires k <= j < |queue| && queue[j].fromBlock <= queue[j].toBlock
    ensures Covers(queue[k..], queue[j].fromBlock)
  {
    assert queue[k..][j - k] == queue[j] && queue[j] in queue[k..];
    assert Contains(queue[j], queue[j].fromBlock);
  }

  /** Otherwise obliging providers and a crash between two ranges leave a height behind. */
  lemma DisorderPassesOver(w: World, t: Turn, db: Db, asked: seq<Ask>, shift: int) returns (ops: nat, h: int)
    requires !Orderly(w, t, db) && Obliges(w.port, t.groups, |asked|, shift)
    ensures LeftBehind(Run(PassOf(w, t), db, asked, ops), h)
  {
    var from, plan := ResumeFrom(w.config, db.checkpoint), PlanOf(w, t, db);
    ChunksTile(from, t.head, t.width);
    var i, j := Overtaken(plan, Take(t.hints, w.config.maxHints), from, t.head);
    var queue := QueueOf(w, t, db);
    PlanMembers(w, t, db);
    assert queue[i] in queue && queue[j] in queue;
    ops, h := 2 * (i + 1), queue[j].fromBlock;
    DrainObliged(PassOf(w, t), db, queue, asked, i + 1, ops, db.lastSuccessAt, shift);
    RunEnds(w, t.(ops := ops), db, asked);
    LeftHolds(queue, i + 1, j);
  }

  /** Some answers and some moment of death make the pass leave the height behind. */
  ghost predicate CanPassOver(w: World, t: Turn, db: Db, asked: seq<Ask>, port: Port, ops: nat, h: int) {
    LeftBehind(Run(PassOf(w.(port := port), t), db, asked, ops), h)
  }

  function Obliging(was: Port, m: nat): Port {
    (n: nat, g: string, r: BlockRange) => if n < m then was(n, g, r) else Fetched(EmptyAnswer(n, r, 0))
  }

  // A pass is safe, against all answers and all moments of death, exactly when its plan is orderly: no hinted range stands
  // behind one without a hint, or nothing can be agreed on.
  lemma SafeIffOrderly(w: World, t: Turn, db: Db, asked: seq<Ask>)
    ensures (forall port, ops: nat, h :: !CanPassOver(w, t, db, asked, port, ops, h)) <==> Orderly(w, t, db)
  {
    if Orderly(w, t, db) {
      forall port, ops: nat, h ensures !CanPassOver(w, t, db, asked, port, ops, h) {
        OrderlyPassesNothingOver(w.(port := port), t.(ops := ops), db, asked);
      }
    } else {
      var port := Obliging(w.port, |asked|);
      var ops, h := DisorderPassesOver(w.(port := port), t, db, asked, 0);
      assert CanPassOver(w, t, db, asked, port, ops, h);
    }
  }

  // ---- what an orderly pass can still lose

  lemma TornOnly(config: Config, db: Db, out: PassOut, h: int)
    requires PassAt(config, db, out, h) && PrefixCommitted(config, db) && !LeftBehind(out, h)
    ensures Lost(config, out.db, h) <==> Tears(out.torn, h)
    ensures Tears(out.torn, h) ==> Ingested(out.db, h)
  {
    PrefixMeans(config, db);
  }

  /** An orderly pass, dying after any number of writes, loses exactly the range it died on between its facts and its row. */
  lemma CrashBetweenWritesLoses(w: World, t: Turn, db: Db, asked: seq<Ask>, h: int)
    requires Sound(w, db, asked) && Behind(w.config, db) && PrefixCommitted(w.config, db) && Orderly(w, t, db)
    ensures var out := Run(PassOf(w, t), db, asked, t.ops);
            && (PrefixCommitted(w.config, out.db) <==> out.torn.None?)
            && (Lost(w.config, out.db, h) <==> Tears(out.torn, h))
            && (Tears(out.torn, h) ==> Ingested(out.db, h))
  {
    PassKeepsPrefix(w, t, db, asked);
    OrderlyPassesNothingOver(w, t, db, asked);
    PassLoses(w, t, db, asked, h);
    TornOnly(w.config, db, Run(PassOf(w, t), db, asked, t.ops), h);
  }
}
