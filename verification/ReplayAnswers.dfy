/** The loops that judge provider answers: log-index holes within one, and agreement between several. */
module ReplayAnswers {
  import opened Collections
  import opened Sorting
  import opened ReplayPlan
  import opened ReplayEngine

  // ---- holes in a block's log indices

  ghost predicate IndexedLogs(byBlock: map<string, seq<int>>, logs: seq<LogFact>) {
    && (forall h :: h in byBlock <==> exists l :: l in logs && l.blockHash == h)
    && (forall h :: h in byBlock ==> byBlock[h] == IndicesOf(logs, h))
  }

  lemma IndicesPush(logs: seq<LogFact>, l: LogFact, h: string)
    ensures IndicesOf(logs + [l], h) == IndicesOf(logs, h) + (if l.blockHash == h then [l.logIndex] else [])
  {
    assert (logs + [l])[..|logs|] == logs;
  }

  lemma {:induction false} NoIndices(logs: seq<LogFact>, h: string)
    requires forall l :: l in logs ==> l.blockHash != h
    ensures IndicesOf(logs, h) == []
  {
    FilterNone((l: LogFact) => l.blockHash == h, logs);
  }

  lemma IndexStep(byBlock: map<string, seq<int>>, logs: seq<LogFact>, l: LogFact)
    requires IndexedLogs(byBlock, logs)
    ensures var was := if l.blockHash in byBlock then byBlock[l.blockHash] else [];
            IndexedLogs(byBlock[l.blockHash := was + [l.logIndex]], logs + [l])
  {
    var was := if l.blockHash in byBlock then byBlock[l.blockHash] else [];
    var after, all := byBlock[l.blockHash := was + [l.logIndex]], logs + [l];
    if l.blockHash !in byBlock {
      NoIndices(logs, l.blockHash);
    }
    forall h ensures h in after <==> exists k :: k in all && k.blockHash == h {
      HashPush(logs, l, h);
    }
    forall h | h in after ensures after[h] == IndicesOf(all, h) {
      IndicesPush(logs, l, h);
    }
  }

  lemma HashPush(logs: seq<LogFact>, l: LogFact, h: string)
    ensures (exists k :: k in logs + [l] && k.blockHash == h) <==> (exists k :: k in logs && k.blockHash == h) || l.blockHash == h
  {
    assert l in logs + [l] && forall k :: k in logs ==> k in logs + [l];
  }

  method IndexByBlock(logs: seq<LogFact>) returns (byBlock: map<string, seq<int>>)
    ensures IndexedLogs(byBlock, logs)
  {
    byBlock := map[];
    for i := 0 to |logs|
      invariant IndexedLogs(byBlock, logs[..i])
    {
      PrefixStep(logs, i);
      IndexStep(byBlock, logs[..i], logs[i]);
      var h := logs[i].blockHash;
      byBlock := byBlock[h := (if h in byBlock then byBlock[h] else []) + [logs[i].logIndex]];
    }
    assert logs[..|logs|] == logs;
  }

  /** A jump, or a repeat, between neighbours of the sorted indices. */
  method HasJump(indices: seq<int>) returns (jump: bool)
    ensures jump <==> !Consecutive(Sort(Ascending(), indices))
  {
    var sorted := Sort(Ascending(), indices);
    var previous: Option<int> := None;
    for i := 0 to |sorted|
      invariant previous == if i == 0 then None else Some(sorted[i - 1])
      invariant forall k :: 0 <= k < i - 1 ==> sorted[k + 1] == sorted[k] + 1
    {
      if previous.Some? && sorted[i] != previous.value + 1 {
        assert sorted[i - 1 + 1] != sorted[i - 1] + 1;
        return true;
      }
      previous := Some(sorted[i]);
    }
    jump := false;
  }

  lemma JumpIsHole(byBlock: map<string, seq<int>>, logs: seq<LogFact>, h: string)
    requires IndexedLogs(byBlock, logs) && h in byBlock && !Consecutive(Sort(Ascending(), byBlock[h]))
    ensures HasHole(logs)
  {
    var l :| l in logs && l.blockHash == h;
    assert byBlock[h] == IndicesOf(logs, l.blockHash);
  }

  lemma NoJumpNoHole(byBlock: map<string, seq<int>>, logs: seq<LogFact>)
    requires IndexedLogs(byBlock, logs) && forall h :: h in byBlock ==> Consecutive(Sort(Ascending(), byBlock[h]))
    ensures !HasHole(logs)
  {
    forall l | l in logs ensures Consecutive(Sort(Ascending(), IndicesOf(logs, l.blockHash))) {
      assert l.blockHash in byBlock;
    }
  }

  method FindLogIndexHole(logs: seq<LogFact>) returns (hole: bool)
    ensures hole == HasHole(logs)
  {
    var byBlock := IndexByBlock(logs);
    var left := byBlock.Keys;
    while left != {}
      invariant left <= byBlock.Keys
      invariant forall h :: h in byBlock && h !in left ==> Consecutive(Sort(Ascending(), byBlock[h]))
      decreases |left|
    {
      var h :| h in left;
      var jump := HasJump(byBlock[h]);
      if jump {
        JumpIsHole(byBlock, logs, h);
        return true;
      }
      left := left - {h};
    }
    NoJumpNoHole(byBlock, logs);
    hole := false;
  }

  // ---- agreement

  predicate Returned(results: seq<RangeResult>, digest: string, group: string) {
    exists r :: r in results && r.digest == digest && r.providerGroup == group
  }

  /** Each digest lists exactly the groups that returned it. */
  ghost predicate GroupsListed(byDigest: map<string, seq<string>>, results: seq<RangeResult>) {
    && (forall d, g :: d in byDigest && g in byDigest[d] <==> Returned(results, d, g))
    && (forall d :: d in byDigest ==> byDigest[d] != [])
  }

  function PushGroup(byDigest: map<string, seq<string>>, r: RangeResult): map<string, seq<string>> {
    byDigest[r.digest := (if r.digest in byDigest then byDigest[r.digest] else []) + [r.providerGroup]]
  }

  lemma ReturnedPush(results: seq<RangeResult>, r: RangeResult, d: string, g: string)
    ensures Returned(results + [r], d, g) <==> Returned(results, d, g) || (r.digest == d && r.providerGroup == g)
  {
    assert r in results + [r] && forall q :: q in results ==> q in results + [r];
  }

  lemma PushListed(byDigest: map<string, seq<string>>, results: seq<RangeResult>, r: RangeResult)
    requires GroupsListed(byDigest, results)
    ensures GroupsListed(PushGroup(byDigest, r), results + [r])
  {
    var after := PushGroup(byDigest, r);
    forall d, g ensures d in after && g in after[d] <==> Returned(results + [r], d, g) {
      ReturnedPush(results, r, d, g);
      assert Returned(results, d, g) <==> d in byDigest && g in byDigest[d];
    }
  }

  method GroupByDigest(results: seq<RangeResult>) returns (byDigest: map<string, seq<string>>)
    ensures GroupsListed(byDigest, results)
  {
    byDigest := map[];
    for i := 0 to |results|
      invariant GroupsListed(byDigest, results[..i])
    {
      PrefixStep(results, i);
      PushListed(byDigest, results[..i], results[i]);
      var r := results[i];
      if r.digest in byDigest {
        byDigest := byDigest[r.digest := byDigest[r.digest] + [r.providerGroup]];
      } else {
        byDigest := byDigest[r.digest := [] + [r.providerGroup]];
      }
    }
    assert results[..|results|] == results;
  }

  lemma DigestsListed(byDigest: map<string, seq<string>>, results: seq<RangeResult>)
    requires GroupsListed(byDigest, results)
    ensures forall d :: d in byDigest <==> exists r :: r in results && r.digest == d
  {
    forall d | d in byDigest ensures exists r :: r in results && r.digest == d {
      assert byDigest[d][0] in byDigest[d];
      assert Returned(results, d, byDigest[d][0]);
    }
    forall r | r in results ensures r.digest in byDigest {
      assert Returned(results, r.digest, r.providerGroup);
    }
  }

  lemma DigestCount(results: seq<RangeResult>, byDigest: map<string, seq<string>>)
    requires forall d :: d in byDigest <==> exists r :: r in results && r.digest == d
    ensures |byDigest| > 1 <==> exists r :: r in results && r.digest != results[0].digest
    ensures |byDigest| == 0 <==> results == []
  {
    var keys := byDigest.Keys;
    if results != [] {
      var d0 := results[0].digest;
      assert results[0] in results && d0 in keys;
      assert |keys - {d0}| == |keys| - 1;
      if |byDigest| > 1 {
        var d :| d in keys - {d0};
        var r :| r in results && r.digest == d;
      }
      if r :| r in results && r.digest != d0 {
        assert r.digest in keys - {d0};
      }
    } else {
      assert keys == {};
    }
  }

  /** Agreement as the engine computes it: one digest, enough distinct groups, one witness a group. */
  method AgreeOn(results: seq<RangeResult>, config: Config) returns (a: Agreement)
    ensures a == Agree(results, config)
  {
    var byDigest := GroupByDigest(results);
    DigestsListed(byDigest, results);
    DigestCount(results, byDigest);
    if (exists r :: r in results && r.viaArchive) && !config.archiveDeclared {
      return Disagreed(ARCHIVE_FALLBACK_UNAVAILABLE);
    }
    if |byDigest| > 1 {
      return Disagreed(PROVIDER_DIVERGENCE);
    }
    var independent := GroupsOf(results);
    if |independent| < config.requiredGroups {
      return Disagreed(INSUFFICIENT_WITNESSES);
    }
    if |byDigest| == 0 {
      return Disagreed(INSUFFICIENT_WITNESSES);
    }
    var digest :| digest in byDigest;
    assert digest == results[0].digest;
    a := Agreed(digest, WitnessesOf(results, Sort(CodeUnitOrder(), independent)));
  }
}
