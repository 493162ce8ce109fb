/** Which next passes are safe, whatever the providers will answer, after a history that has already happened. */
module ReplaySafety {
  import opened Collections
  import opened ReplayPlan
  import opened ReplayEngine
  import opened ReplayHistory
  import opened ReplayProgress
  import opened ReplayHints
  import opened ReplayVerdicts

  /** The two ports gave the same answers to the first m requests. */
  ghost predicate SameUntil(p: Port, q: Port, m: nat) {
    forall n: nat, g, r :: n < m ==> p(n, g, r) == q(n, g, r)
  }

  /** Two worlds that differ only in what their providers answer, and not yet. */
  ghost predicate SameSoFar(v: World, w: World, m: nat) {
    v.digestOf == w.digestOf && v.config == w.config && SameUntil(v.port, w.port, m)
  }

  lemma SameSooner(v: World, w: World, m: nat, n: nat)
    requires SameSoFar(v, w, n) && m <= n
    ensures SameSoFar(v, w, m)
  {
  }

  // ---- equal answers so far make equal histories so far

  lemma {:induction false} RoundGrows(w: World, groups: seq<string>, range: BlockRange, asked: seq<Ask>, results: seq<RangeResult>)
    ensures |asked| <= |RunRound(w.port, w.digestOf, groups, range, asked, results).asked|
    decreases |groups|
  {
    if groups != [] && w.port(|asked|, groups[0], range).Fetched? {
      var c := ClassifyObservation(w.port(|asked|, groups[0], range).observation, w.digestOf);
      if c.Usable? {
        RoundGrows(w, groups[1..], range, asked + [Ask(groups[0], range)], results + [c.result]);
      }
    }
  }

  lemma {:induction false} SameRound(v: World, w: World, groups: seq<string>, range: BlockRange, asked: seq<Ask>, results: seq<RangeResult>)
    requires SameSoFar(v, w, |RunRound(w.port, w.digestOf, groups, range, asked, results).asked|)
    ensures RunRound(v.port, v.digestOf, groups, range, asked, results) == RunRound(w.port, w.digestOf, groups, range, asked, results)
    decreases |groups|
  {
    if groups != [] {
      var more := asked + [Ask(groups[0], range)];
      var f := w.port(|asked|, groups[0], range);
      if f.Fetched? && ClassifyObservation(f.observation, w.digestOf).Usable? {
        var r := ClassifyObservation(f.observation, w.digestOf).result;
        RoundGrows(w, groups[1..], range, more, results + [r]);
        assert v.port(|asked|, groups[0], range) == f;
        SameRound(v, w, groups[1..], range, more, results + [r]);
      }
    }
  }

  lemma CollectGrows(w: World, groups: seq<string>, range: BlockRange, attempts: nat, asked: seq<Ask>)
    ensures |asked| <= |Collect(w.port, w.digestOf, groups, w.config, range, attempts, asked).asked|
  {
    CollectedIsEndorsed(w, groups, range, attempts, asked);
  }

  lemma {:induction false} SameCollect(v: World, w: World, groups: seq<string>, range: BlockRange, attempts: nat, asked: seq<Ask>)
    requires SameSoFar(v, w, |Collect(w.port, w.digestOf, groups, w.config, range, attempts, asked).asked|)
    ensures Collect(v.port, v.digestOf, groups, v.config, range, attempts, asked) == Collect(w.port, w.digestOf, groups, w.config, range, attempts, asked)
    decreases w.config.retryBudget - attempts
  {
    var c := Collect(w.port, w.digestOf, groups, w.config, range, attempts, asked);
    var round := RunRound(w.port, w.digestOf, groups, range, asked, []);
    var t := Attempt(w.port, w.digestOf, groups, w.config, range, attempts, asked);
    if t.Again? {
      CollectGrows(w, groups, range, attempts + 1, t.asked);
    }
    SameSooner(v, w, |round.asked|, |c.asked|);
    SameRound(v, w, groups, range, asked, []);
    assert Attempt(v.port, v.digestOf, groups, v.config, range, attempts, asked) == t;
    if t.Again? {
      SameCollect(v, w, groups, range, attempts + 1, t.asked);
    }
  }

  lemma SameTake(v: World, w: World, t: Turn, db: Db, range: BlockRange, asked: seq<Ask>, ops: nat)
    requires SameSoFar(v, w, |TakeRange(PassOf(w, t), db, range, asked, ops).asked|)
    ensures TakeRange(PassOf(v, t), db, range, asked, ops) == TakeRange(PassOf(w, t), db, range, asked, ops)
  {
    TakenAsks(PassOf(w, t), db, range, asked, ops);
    SameCollect(v, w, t.groups, range, 0, asked);
  }

  lemma TakeGrows(w: World, t: Turn, db: Db, range: BlockRange, asked: seq<Ask>, ops: nat)
    ensures |asked| <= |TakeRange(PassOf(w, t), db, range, asked, ops).asked|
  {
    TakenAsks(PassOf(w, t), db, range, asked, ops);
    CollectGrows(w, t.groups, range, 0, asked);
  }

  lemma {:induction false} DrainGrows(w: World, t: Turn, db: Db, queue: seq<BlockRange>, asked: seq<Ask>, ops: nat, last: Option<int>)
    ensures |asked| <= |Drain(PassOf(w, t), db, queue, asked, ops, last).asked|
    decreases QueueWork(queue)
  {
    if queue != [] {
      var p := PassOf(w, t);
      TakeGrows(w, t, db, queue[0], asked, ops);
      HalvedLowersWork(p, db, queue, asked, ops);
      match TakeRange(p, db, queue[0], asked, ops)
      case Halved(a, b, more) => DrainGrows(w, t, db, [a, b] + queue[1..], more, ops, last);
      case Went(db1, more, ops1) => DrainGrows(w, t, db1, queue[1..], more, ops1, Some(p.now));
      case _ =>
    }
  }

  lemma TakenSooner(w: World, t: Turn, db: Db, queue: seq<BlockRange>, asked: seq<Ask>, ops: nat, last: Option<int>)
    requires queue != []
    ensures |TakeRange(PassOf(w, t), db, queue[0], asked, ops).asked| <= |Drain(PassOf(w, t), db, queue, asked, ops, last).asked|
  {
    var p := PassOf(w, t);
    HalvedLowersWork(p, db, queue, asked, ops);
    match TakeRange(p, db, queue[0], asked, ops)
    case Halved(a, b, more) => DrainGrows(w, t, db, [a, b] + queue[1..], more, ops, last);
    case Went(db1, more, ops1) => DrainGrows(w, t, db1, queue[1..], more, ops1, Some(p.now));
    case _ =>
  }

  /** Two passes that take the first range alike and go on alike. */
  lemma SameStep(p: Pass, q: Pass, db: Db, queue: seq<BlockRange>, asked: seq<Ask>, ops: nat, last: Option<int>, taken: Taken)
    requires queue != [] && taken == TakeRange(p, db, queue[0], asked, ops) == TakeRange(q, db, queue[0], asked, ops) && p.now == q.now
    requires taken.Halved? ==>
               Drain(p, db, [taken.first, taken.second] + queue[1..], taken.asked, ops, last) == Drain(q, db, [taken.first, taken.second] + queue[1..], taken.asked, ops, last)
    requires taken.Went? ==>
               Drain(p, taken.db, queue[1..], taken.asked, taken.ops, Some(p.now)) == Drain(q, taken.db, queue[1..], taken.asked, taken.ops, Some(p.now))
    ensures Drain(p, db, queue, asked, ops, last) == Drain(q, db, queue, asked, ops, last)
  {
  }

  lemma HalvedGoesOn(p: Pass, db: Db, queue: seq<BlockRange>, asked: seq<Ask>, ops: nat, last: Option<int>, taken: Taken)
    requires queue != [] && taken == TakeRange(p, db, queue[0], asked, ops) && taken.Halved?
    ensures Drain(p, db, queue, asked, ops, last) == Drain(p, db, [taken.first, taken.second] + queue[1..], taken.asked, ops, last)
  {
  }

  lemma {:induction false} SameDrain(v: World, w: World, t: Turn, db: Db, queue: seq<BlockRange>, asked: seq<Ask>, ops: nat, last: Option<int>)
    requires SameSoFar(v, w, |Drain(PassOf(w, t), db, queue, asked, ops, last).asked|)
    ensures Drain(PassOf(v, t), db, queue, asked, ops, last) == Drain(PassOf(w, t), db, queue, asked, ops, last)
    decreases QueueWork(queue)
  {
    if queue != [] {
      var p, q := PassOf(w, t), PassOf(v, t);
      var taken := TakeRange(p, db, queue[0], asked, ops);
      TakenSooner(w, t, db, queue, asked, ops, last);
      SameSooner(v, w, |taken.asked|, |Drain(p, db, queue, asked, ops, last).asked|);
      SameTake(v, w, t, db, queue[0], asked, ops);
      HalvedLowersWork(p, db, queue, asked, ops);
      if taken.Halved? {
        HalvedGoesOn(p, db, queue, asked, ops, last, taken);
        SameDrain(v, w, t, db, [taken.first, taken.second] + queue[1..], taken.asked, ops, last);
      }
      if taken.Went? {
        OneStep(p, db, queue, asked, ops, last, taken);
        SameDrain(v, w, t, taken.db, queue[1..], taken.asked, taken.ops, Some(p.now));
      }
      SameStep(p, q, db, queue, asked, ops, last, taken);
    }
  }

  lemma SameRun(v: World, w: World, t: Turn, db: Db, asked: seq<Ask>)
    requires SameSoFar(v, w, |Run(PassOf(w, t), db, asked, t.ops).asked|)
    ensures Run(PassOf(v, t), db, asked, t.ops) == Run(PassOf(w, t), db, asked, t.ops)
  {
    RunEnds(w, t, db, asked);
    RunEnds(v, t, db, asked);
    if t.width >= 1 {
      SameDrain(v, w, t, db, QueueOf(w, t, db), asked, t.ops, db.lastSuccessAt);
    }
  }

  lemma RunGrows(w: World, t: Turn, db: Db, asked: seq<Ask>)
    ensures |asked| <= |Run(PassOf(w, t), db, asked, t.ops).asked|
  {
    RunEnds(w, t, db, asked);
    if t.width >= 1 {
      DrainGrows(w, t, db, QueueOf(w, t, db), asked, t.ops, db.lastSuccessAt);
    }
  }

  /** What has happened depends only on what was answered. */
  lemma {:induction false} SameHistory(v: World, w: World, turns: seq<Turn>)
    requires SameSoFar(v, w, |After(w, turns).asked|)
    ensures After(v, turns) == After(w, turns)
  {
    if turns != [] {
      var before, t := After(w, turns[..|turns| - 1]), turns[|turns| - 1];
      RunGrows(w, t, before.db, before.asked);
      SameSooner(v, w, |before.asked|, |After(w, turns).asked|);
      SameHistory(v, w, turns[..|turns| - 1]);
      SameRun(v, w, t, before.db, before.asked);
    }
  }

  // ---- the next pass

  /** After this history, these further answers and this moment of death make the next pass leave the height behind. */
  ghost predicate NextPassesOver(w: World, turns: seq<Turn>, t: Turn, port: Port, ops: nat, h: int) {
    && SameUntil(port, w.port, |After(w, turns).asked|)
    && LeftBehind(After(w.(port := port), turns + [t.(ops := ops)]), h)
  }

  ghost predicate NextIsSafe(w: World, turns: seq<Turn>, t: Turn) {
    forall port, ops: nat, h :: !NextPassesOver(w, turns, t, port, ops, h)
  }

  lemma NextRun(v: World, w: World, turns: seq<Turn>, t: Turn)
    requires SameSoFar(v, w, |After(w, turns).asked|)
    ensures var before := After(w, turns); After(v, turns + [t]) == Run(PassOf(v, t), before.db, before.asked, t.ops)
  {
    assert (turns + [t])[..|turns|] == turns;
    SameHistory(v, w, turns);
  }

  /** After any history: nothing that providers may still answer can make the next pass skip a height, iff its plan is orderly. */
  lemma NextIsSafeIffOrderly(w: World, turns: seq<Turn>, t: Turn)
    ensures NextIsSafe(w, turns, t) <==> Orderly(w, t, After(w, turns).db)
  {
    var before := After(w, turns);
    if Orderly(w, t, before.db) {
      forall port, ops: nat, h ensures !NextPassesOver(w, turns, t, port, ops, h) {
        if SameUntil(port, w.port, |before.asked|) {
          var v, u := w.(port := port), t.(ops := ops);
          NextRun(v, w, turns, u);
          OrderlyPassesNothingOver(v, u, before.db, before.asked);
        }
      }
    } else {
      var port := Obliging(w.port, |before.asked|);
      var v := w.(port := port);
      var ops, h := DisorderPassesOver(v, t, before.db, before.asked, 0);
      NextRun(v, w, turns, t.(ops := ops));
      assert NextPassesOver(w, turns, t, port, ops, h);
    }
  }

  /** No pass, when it began, could have skipped a height. */
  ghost predicate AlwaysSafe(w: World, turns: seq<Turn>) {
    turns == [] || (AlwaysSafe(w, turns[..|turns| - 1]) && NextIsSafe(w, turns[..|turns| - 1], turns[|turns| - 1]))
  }

  /** So a history of orderly passes is one that was safe all along. */
  lemma {:induction false} AllOrderlyIffAlwaysSafe(w: World, turns: seq<Turn>)
    ensures AllOrderly(w, turns) <==> AlwaysSafe(w, turns)
  {
    if turns != [] {
      var n := |turns| - 1;
      AllOrderlyIffAlwaysSafe(w, turns[..n]);
      NextIsSafeIffOrderly(w, turns[..n], turns[n]);
    }
  }
}
