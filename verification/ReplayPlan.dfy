/** Replay planning: bounded ranges, halving, hint order, gaps and the completeness verdict. */
module ReplayPlan {
  import opened Collections
  import opened Sorting

  datatype BlockRange = BlockRange(fromBlock: int, toBlock: int)

  function Span(r: BlockRange): int {
    r.toBlock - r.fromBlock + 1
  }

  predicate Contains(r: BlockRange, h: int) {
    r.fromBlock <= h <= r.toBlock
  }

  predicate Covers(rs: seq<BlockRange>, h: int) {
    exists r :: r in rs && Contains(r, h)
  }

  // ---- planning

  /** Ascending, contiguous, gap-free and overlap-free from `lo` to `hi`. */
  predicate Tiles(rs: seq<BlockRange>, lo: int, hi: int) {
    if rs == [] then lo > hi
    else rs[0].fromBlock == lo && lo <= rs[0].toBlock <= hi && Tiles(rs[1..], rs[0].toBlock + 1, hi)
  }

  /** The plan has no hole and no overlap. */
  lemma {:induction false} TilesExactly(rs: seq<BlockRange>, lo: int, hi: int)
    requires Tiles(rs, lo, hi)
    ensures forall h :: Covers(rs, h) <==> lo <= h <= hi
    ensures forall i, j, h :: 0 <= i < j < |rs| && Contains(rs[i], h) ==> !Contains(rs[j], h)
    ensures forall i :: 0 <= i < |rs| ==> lo <= rs[i].fromBlock <= rs[i].toBlock <= hi
  {
    if rs != [] {
      var rest := rs[1..];
      TilesExactly(rest, rs[0].toBlock + 1, hi);
      forall h ensures Covers(rs, h) <==> lo <= h <= hi {
        if lo <= h <= rs[0].toBlock {
          assert rs[0] in rs && Contains(rs[0], h);
        } else if Covers(rest, h) {
          var r :| r in rest && Contains(r, h);
          assert r in rs;
        }
        if r :| r in rs && Contains(r, h) {
          assert r == rs[0] || r in rest;
          assert r in rest ==> Covers(rest, h);
        }
      }
      forall i, j, h | 0 <= i < j < |rs| && Contains(rs[i], h) ensures !Contains(rs[j], h) {
        assert rs[j] == rest[j - 1];
        if i > 0 {
          assert rs[i] == rest[i - 1];
        }
      }
      forall i | 0 <= i < |rs| ensures lo <= rs[i].fromBlock <= rs[i].toBlock <= hi {
        if i > 0 {
          assert rs[i] == rest[i - 1];
        }
      }
    }
  }

  /** Planning refuses a width below one, and otherwise tiles the window with chunks of at most that width. */
  method PlanRanges(startBlock: int, agreedHead: int, maxRangeBlocks: int) returns (plan: Option<seq<BlockRange>>)
    ensures plan.None? <==> maxRangeBlocks < 1
    ensures plan.Some? ==> Tiles(plan.value, startBlock, agreedHead)
    ensures plan.Some? ==> WidthsOk(plan.value, maxRangeBlocks)
    ensures plan == Planned(startBlock, agreedHead, maxRangeBlocks)
  {
    if maxRangeBlocks < 1 {
      return None;
    }
    if agreedHead < startBlock {
      return Some([]);
    }
    var ranges: seq<BlockRange> := [];
    var start := startBlock;
    while start <= agreedHead
      invariant ranges + Chunks(start, agreedHead, maxRangeBlocks) == Chunks(startBlock, agreedHead, maxRangeBlocks)
      decreases agreedHead - start
    {
      var to := start + maxRangeBlocks - 1;
      var r := BlockRange(start, if to > agreedHead then agreedHead else to);
      ranges := ranges + [r];
      start := start + maxRangeBlocks;
    }
    assert ranges + [] == ranges;
    plan := Some(ranges);
    ChunksTile(startBlock, agreedHead, maxRangeBlocks);
    ChunksWidth(startBlock, agreedHead, maxRangeBlocks);
  }

  function Chunks(start: int, head: int, width: int): seq<BlockRange>
    requires width >= 1
    decreases head - start
  {
    if start > head then []
    else
      var to := start + width - 1;
      [BlockRange(start, if to > head then head else to)] + Chunks(start + width, head, width)
  }

  function Planned(start: int, head: int, width: int): Option<seq<BlockRange>> {
    if width < 1 then None else Some(Chunks(start, head, width))
  }

  lemma {:induction false} ChunksTile(start: int, head: int, width: int)
    requires width >= 1
    ensures Tiles(Chunks(start, head, width), start, head)
    decreases head - start
  {
    if start <= head {
      ChunksTile(start + width, head, width);
      var c := Chunks(start, head, width);
      assert c[1..] == Chunks(start + width, head, width);
      if start + width - 1 > head {
        assert Chunks(start + width, head, width) == [];
      }
    }
  }

  /** No chunk is wider than asked, and only the last may be narrower. */
  predicate WidthsOk(c: seq<BlockRange>, width: int) {
    forall i :: 0 <= i < |c| ==> Span(c[i]) <= width && (i < |c| - 1 ==> Span(c[i]) == width)
  }

  lemma {:induction false} ChunksWidth(start: int, head: int, width: int)
    requires width >= 1
    ensures WidthsOk(Chunks(start, head, width), width)
    decreases head - start
  {
    if start <= head {
      ChunksWidth(start + width, head, width);
      var rest := Chunks(start + width, head, width);
      assert rest != [] ==> start + width <= head;
      WidthsPush(BlockRange(start, if start + width - 1 > head then head else start + width - 1), rest, width);
    }
  }

  lemma WidthsPush(r: BlockRange, rest: seq<BlockRange>, width: int)
    requires WidthsOk(rest, width) && Span(r) <= width && (rest != [] ==> Span(r) == width)
    ensures WidthsOk([r] + rest, width)
  {
  }

  // ---- halving

  function SplitRange(r: BlockRange): Option<(BlockRange, BlockRange)> {
    if Span(r) <= 1 then None
    else
      var half := Span(r) / 2;
      Some((BlockRange(r.fromBlock, r.fromBlock + half - 1), BlockRange(r.fromBlock + half, r.toBlock)))
  }

  /** How many more times a range can be handed to collection: once, plus once per halving below it. */
  function Work(r: BlockRange): nat {
    if Span(r) < 1 then 1 else 2 * Span(r) - 1
  }

  function Tally(f: BlockRange -> nat, q: seq<BlockRange>): nat {
    if q == [] then 0 else f(q[0]) + Tally(f, q[1..])
  }

  function QueueWork(q: seq<BlockRange>): nat {
    Tally(Work, q)
  }

  function Holding(h: int): BlockRange -> nat {
    (r: BlockRange) => if Contains(r, h) then 1 else 0
  }

  /** In how many elements of the queue the height lies. */
  function Holders(q: seq<BlockRange>, h: int): nat {
    Tally(Holding(h), q)
  }

  /** The queue holds every height of the window once, no other height, and no empty range. */
  ghost predicate OneEach(q: seq<BlockRange>, lo: int, hi: int) {
    && (forall h :: Holders(q, h) == if lo <= h <= hi then 1 else 0)
    && (forall r :: r in q ==> r.fromBlock <= r.toBlock)
  }

  /** Halving keeps exactly the heights, in order, and strictly lowers the remaining work. */
  lemma SplitKeepsHeights(r: BlockRange)
    requires SplitRange(r).Some?
    ensures var (a, b) := SplitRange(r).value; Tiles([a, b], r.fromBlock, r.toBlock) && Work(a) + Work(b) == Work(r) - 1
  {
    var (a, b) := SplitRange(r).value;
    assert [a, b][1..] == [b] && [b][1..] == [];
  }

  lemma {:induction false} TilesReplaceHead(q: seq<BlockRange>, lo: int, hi: int, a: BlockRange, b: BlockRange)
    requires q != [] && Tiles(q, lo, hi) && Tiles([a, b], q[0].fromBlock, q[0].toBlock)
    ensures Tiles([a, b] + q[1..], lo, hi)
  {
    var s := [a, b] + q[1..];
    assert [a, b][1..] == [b] && [b][1..] == [];
    assert Tiles([b], a.toBlock + 1, q[0].toBlock);
    assert Tiles([], b.toBlock + 1, q[0].toBlock);
    assert b.toBlock == q[0].toBlock;
    assert Tiles(q[1..], b.toBlock + 1, hi);
    assert s[1..] == [b] + q[1..] && ([b] + q[1..])[1..] == q[1..];
    assert Tiles([b] + q[1..], a.toBlock + 1, hi);
  }

  lemma {:induction false} TallyConcat(f: BlockRange -> nat, a: seq<BlockRange>, b: seq<BlockRange>)
    ensures Tally(f, a + b) == Tally(f, a) + Tally(f, b)
  {
    if a == [] {
      assert a + b == b;
    } else {
      assert (a + b)[1..] == a[1..] + b;
      TallyConcat(f, a[1..], b);
    }
  }

  lemma TallyPair(f: BlockRange -> nat, a: BlockRange, b: BlockRange)
    ensures Tally(f, [a, b]) == f(a) + f(b)
  {
    assert [a, b][1..] == [b] && [b][1..] == [];
    assert Tally(f, [b]) == f(b) + Tally(f, []);
  }

  lemma {:induction false} HoldersCover(q: seq<BlockRange>, h: int)
    ensures Covers(q, h) <==> Holders(q, h) > 0
  {
    if q != [] {
      HoldersCover(q[1..], h);
      assert q == [q[0]] + q[1..];
    }
  }

  lemma {:induction false} TilesOnce(q: seq<BlockRange>, lo: int, hi: int, h: int)
    requires Tiles(q, lo, hi)
    ensures Holders(q, h) == if lo <= h <= hi then 1 else 0
  {
    if q != [] {
      TilesOnce(q[1..], q[0].toBlock + 1, hi, h);
    }
  }

  /** Halving an element of any queue, wherever it stands, leaves every height in as many elements as before. */
  lemma SplitAnywhere(q: seq<BlockRange>, i: nat, h: int)
    requires i < |q| && SplitRange(q[i]).Some?
    ensures var (a, b) := SplitRange(q[i]).value; Holders(q[..i] + ([a, b] + q[i + 1..]), h) == Holders(q, h)
  {
    var (a, b) := SplitRange(q[i]).value;
    var f := Holding(h);
    TallyConcat(f, q[..i], [a, b] + q[i + 1..]);
    TallyConcat(f, [a, b], q[i + 1..]);
    TallyPair(f, a, b);
    TallyAt(f, q, i);
    TallyConcat(f, q[..i], q[i + 1..]);
  }

  /** So a queue that held each height once still does. */
  lemma SplitKeepsOneEach(q: seq<BlockRange>, i: nat, lo: int, hi: int)
    requires i < |q| && SplitRange(q[i]).Some? && OneEach(q, lo, hi)
    ensures var (a, b) := SplitRange(q[i]).value; OneEach(q[..i] + ([a, b] + q[i + 1..]), lo, hi)
  {
    var (a, b) := SplitRange(q[i]).value;
    var after := q[..i] + ([a, b] + q[i + 1..]);
    forall h ensures Holders(after, h) == if lo <= h <= hi then 1 else 0 {
      SplitAnywhere(q, i, h);
      assert Holders(q, h) == if lo <= h <= hi then 1 else 0;
    }
    assert forall r :: r in after ==> r in q || r == a || r == b;
  }

  lemma TallyAt(f: BlockRange -> nat, q: seq<BlockRange>, i: nat)
    requires i < |q|
    ensures Tally(f, q) == f(q[i]) + Tally(f, q[..i] + q[i + 1..])
  {
    var tail := [q[i]] + q[i + 1..];
    assert q == q[..i] + tail && tail[1..] == q[i + 1..];
    TallyConcat(f, q[..i], tail);
    TallyConcat(f, q[..i], q[i + 1..]);
  }

  lemma SameButFirst(a: seq<BlockRange>, b: seq<BlockRange>) returns (i: nat)
    requires multiset(a) == multiset(b) && a != []
    ensures i < |b| && b[i] == a[0] && multiset(a[1..]) == multiset(b[..i] + b[i + 1..])
  {
    SameElements(a, b);
    assert a[0] in b;
    i :| i < |b| && b[i] == a[0];
    TakeAway(b, i);
    TakeFirst(a);
  }

  lemma TakeFirst(q: seq<BlockRange>)
    requires q != []
    ensures multiset(q[1..]) == multiset(q) - multiset{q[0]}
  {
    TakeAway(q, 0);
    assert q[..0] + q[1..] == q[1..];
  }

  lemma TakeAway(q: seq<BlockRange>, i: nat)
    requires i < |q|
    ensures multiset(q[..i] + q[i + 1..]) == multiset(q) - multiset{q[i]}
  {
    RemoveAt(q, i);
  }

  lemma {:induction false} TallyIgnoresOrder(f: BlockRange -> nat, a: seq<BlockRange>, b: seq<BlockRange>)
    requires multiset(a) == multiset(b)
    ensures Tally(f, a) == Tally(f, b)
    decreases |a|
  {
    if a == [] {
      assert |multiset(b)| == |b|;
    } else {
      var i := SameButFirst(a, b);
      TallyIgnoresOrder(f, a[1..], b[..i] + b[i + 1..]);
      TallyAt(f, b, i);
    }
  }

  // ---- reasons and the step after a failed attempt

  datatype ReplayReason =
    | SILENT_TRUNCATION | MISSING_BLOCK | MISSING_LOG | PRUNED_HISTORY | EMPTY_RESPONSE_AMBIGUITY | PROVIDER_DIVERGENCE
    | INSUFFICIENT_WITNESSES | RETRY_BUDGET_EXHAUSTED | RANGE_INDIVISIBLE | STALE_COLLECTION | ARCHIVE_FALLBACK_UNAVAILABLE
    | REMOTE_HISTORY_UNAVAILABLE | NONCANONICAL_BLOCK_REJECTED

  predicate IsRetryable(r: ReplayReason) {
    r == SILENT_TRUNCATION || r == MISSING_BLOCK || r == MISSING_LOG || r == EMPTY_RESPONSE_AMBIGUITY || r == STALE_COLLECTION
  }

  datatype NextStep = Retry(attempts: int) | Split(first: BlockRange, second: BlockRange) | GiveUp(reason: ReplayReason)

  function StepAfter(range: BlockRange, attempts: int, retryBudget: int, reason: ReplayReason): NextStep {
    if !IsRetryable(reason) then GiveUp(reason)
    else if attempts + 1 < retryBudget then Retry(attempts + 1)
    else
      match SplitRange(range)
      case Some((a, b)) => Split(a, b)
      case None => GiveUp(if Span(range) == 1 then RANGE_INDIVISIBLE else RETRY_BUDGET_EXHAUSTED)
  }

  // ---- hints

  predicate Hinted(hints: seq<int>, r: BlockRange) {
    exists h :: h in hints && Contains(r, h)
  }

  /** Hinted ranges first, ascending within each tier. */
  function HintOrder(hints: seq<int>): Order<BlockRange> {
    (a: BlockRange, b: BlockRange) =>
      if Hinted(hints, a) != Hinted(hints, b) then Hinted(hints, a) else a.fromBlock <= b.fromBlock
  }

  function Prioritise(planned: seq<BlockRange>, hints: seq<int>): (r: seq<BlockRange>)
    ensures multiset(r) == multiset(planned)
  {
    Sort(HintOrder(hints), planned)
  }

  /** Hints change only the order: each height is in as many ranges as before, and the work is the same. */
  lemma HintsKeepHeights(planned: seq<BlockRange>, hints: seq<int>, h: int)
    ensures Holders(Prioritise(planned, hints), h) == Holders(planned, h)
    ensures Covers(Prioritise(planned, hints), h) <==> Covers(planned, h)
    ensures QueueWork(Prioritise(planned, hints)) == QueueWork(planned)
  {
    SameElements(Prioritise(planned, hints), planned);
    TallyIgnoresOrder(Holding(h), Prioritise(planned, hints), planned);
    TallyIgnoresOrder(Work, Prioritise(planned, hints), planned);
  }

  /** No hinted range stands behind one without a hint. */
  predicate HintsFirst(planned: seq<BlockRange>, hints: seq<int>) {
    forall i, j :: 0 <= i < j < |planned| && Hinted(hints, planned[j]) ==> Hinted(hints, planned[i])
  }

  lemma HintOrderIsTotal(hints: seq<int>)
    ensures TotalPreorder(HintOrder(hints))
  {
  }

  lemma HintsFirstIsSorted(planned: seq<BlockRange>, hints: seq<int>, lo: int, hi: int)
    requires Tiles(planned, lo, hi)
    ensures SortedBy(HintOrder(hints), planned) <==> HintsFirst(planned, hints)
  {
    TilesAscend(planned, lo, hi);
    var le := HintOrder(hints);
    if HintsFirst(planned, hints) {
      forall i, j | 0 <= i < j < |planned| ensures le(planned[i], planned[j]) {
      }
    }
    if SortedBy(le, planned) {
      forall i, j | 0 <= i < j < |planned| && Hinted(hints, planned[j]) ensures Hinted(hints, planned[i]) {
        assert le(planned[i], planned[j]);
      }
    }
  }

  /** The queue is the ascending plan itself exactly when the hinted ranges come first in it anyway. */
  lemma InOrderIffHintsFirst(planned: seq<BlockRange>, hints: seq<int>, lo: int, hi: int)
    requires Tiles(planned, lo, hi)
    ensures Prioritise(planned, hints) == planned <==> HintsFirst(planned, hints)
  {
    HintsFirstIsSorted(planned, hints, lo, hi);
    HintOrderIsTotal(hints);
    SortSorts(HintOrder(hints), planned);
    if HintsFirst(planned, hints) {
      SortOfSorted(HintOrder(hints), planned);
    }
  }

  /** Without hints the queue is the ascending plan itself. */
  lemma NoHintsNoReorder(planned: seq<BlockRange>, lo: int, hi: int)
    requires Tiles(planned, lo, hi)
    ensures Prioritise(planned, []) == planned
  {
    forall r ensures !Hinted([], r) {
    }
    InOrderIffHintsFirst(planned, [], lo, hi);
  }

  lemma QueuePlace(planned: seq<BlockRange>, hints: seq<int>, r: BlockRange) returns (i: nat)
    requires r in planned
    ensures var q := Prioritise(planned, hints); i < |q| && q[i] == r
  {
    var q := Prioritise(planned, hints);
    SameElements(q, planned);
    i :| 0 <= i < |q| && q[i] == r;
  }

  /** Otherwise some range is taken before one that lies below it. */
  lemma Overtaken(planned: seq<BlockRange>, hints: seq<int>, lo: int, hi: int) returns (i: nat, j: nat)
    requires Tiles(planned, lo, hi) && !HintsFirst(planned, hints)
    ensures var q := Prioritise(planned, hints); i < j < |q| && q[j].fromBlock < q[i].fromBlock
  {
    var a, b :| 0 <= a < b < |planned| && Hinted(hints, planned[b]) && !Hinted(hints, planned[a]);
    TilesExactly(planned, lo, hi);
    TilesAscend(planned, lo, hi);
    i := QueuePlace(planned, hints, planned[b]);
    j := QueuePlace(planned, hints, planned[a]);
    HintOrderIsTotal(hints);
    SortSorts(HintOrder(hints), planned);
    assert !HintOrder(hints)(planned[a], planned[b]);
    assert planned[a].fromBlock != planned[b].fromBlock by {
      assert Contains(planned[a], planned[a].fromBlock);
    }
  }

  lemma {:induction false} TilesAscend(rs: seq<BlockRange>, lo: int, hi: int)
    requires Tiles(rs, lo, hi)
    ensures forall i, j :: 0 <= i < j < |rs| ==> rs[i].fromBlock <= rs[j].fromBlock
  {
    if rs != [] {
      TilesAscend(rs[1..], rs[0].toBlock + 1, hi);
      TilesExactly(rs[1..], rs[0].toBlock + 1, hi);
      forall i, j | 0 <= i < j < |rs| ensures rs[i].fromBlock <= rs[j].fromBlock {
        assert rs[j] == rs[1..][j - 1];
        if i > 0 {
          assert rs[i] == rs[1..][i - 1];
        }
      }
    }
  }

  // ---- gaps

  datatype Sweep = Sweep(cursor: int, gaps: seq<BlockRange>)

  function Advance(s: Sweep, r: BlockRange): Sweep {
    Sweep(if r.toBlock >= s.cursor then r.toBlock + 1 else s.cursor,
          if r.fromBlock > s.cursor then s.gaps + [BlockRange(s.cursor, r.fromBlock - 1)] else s.gaps)
  }

  function SweepOver(sorted: seq<BlockRange>, window: BlockRange): Sweep {
    if sorted == [] then Sweep(window.fromBlock, [])
    else Advance(SweepOver(sorted[..|sorted| - 1], window), sorted[|sorted| - 1])
  }

  function ByFrom(): Order<BlockRange> {
    (a: BlockRange, b: BlockRange) => a.fromBlock <= b.fromBlock
  }

  function Gaps(covered: seq<BlockRange>, window: BlockRange): seq<BlockRange> {
    var s := SweepOver(Sort(ByFrom(), covered), window);
    s.gaps + (if s.cursor <= window.toBlock then [BlockRange(s.cursor, window.toBlock)] else [])
  }

  method FindRangeGaps(covered: seq<BlockRange>, window: BlockRange) returns (gaps: seq<BlockRange>)
    ensures gaps == Gaps(covered, window)
  {
    var sorted := Sort(ByFrom(), covered);
    gaps := [];
    var cursor := window.fromBlock;
    for i := 0 to |sorted|
      invariant SweepOver(sorted[..i], window) == Sweep(cursor, gaps)
    {
      PrefixStep(sorted, i);
      var r := sorted[i];
      if r.fromBlock > cursor { gaps := gaps + [BlockRange(cursor, r.fromBlock - 1)]; }
      if r.toBlock >= cursor { cursor := r.toBlock + 1; }
    }
    assert sorted[..|sorted|] == sorted;
    if cursor <= window.toBlock {
      gaps := gaps + [BlockRange(cursor, window.toBlock)];
    }
  }

  /** Heights the sweep answers for: from the window's start to its end, or to below the last range's start if that is later. */
  predicate InHorizon(covered: seq<BlockRange>, window: BlockRange, h: int) {
    window.fromBlock <= h && (h <= window.toBlock || exists r :: r in covered && h < r.fromBlock)
  }

  /** What the sweep knows after a prefix of the sorted ranges. */
  ghost predicate SweepOk(sorted: seq<BlockRange>, window: BlockRange, s: Sweep) {
    && s.cursor >= window.fromBlock
    && (s.cursor == window.fromBlock || exists r :: r in sorted && r.toBlock == s.cursor - 1)
    && (forall r :: r in sorted ==> r.toBlock < s.cursor)
    && (forall h :: Covers(s.gaps, h) <==>
          window.fromBlock <= h && (h < s.cursor || exists r :: r in sorted && h < r.fromBlock) && !Covers(sorted, h))
    && (forall g :: g in s.gaps ==> g.fromBlock <= g.toBlock)
  }

  lemma CoversPush(rs: seq<BlockRange>, r: BlockRange, h: int)
    ensures Covers(rs + [r], h) <==> Covers(rs, h) || Contains(r, h)
  {
    if Contains(r, h) {
      assert r in rs + [r];
    }
    if q :| q in rs && Contains(q, h) {
      assert q in rs + [r];
    }
  }

  lemma GapHeights(front: seq<BlockRange>, r: BlockRange, window: BlockRange, s: Sweep, s': Sweep, h: int)
    requires SweepOk(front, window, s) && (forall q :: q in front ==> q.fromBlock <= r.fromBlock) && s' == Advance(s, r)
    ensures Covers(s'.gaps, h) <==>
            window.fromBlock <= h && (h < s'.cursor || exists q :: q in front + [r] && h < q.fromBlock) && !Covers(front + [r], h)
  {
    CoversPush(front, r, h);
    CoversPush(s.gaps, BlockRange(s.cursor, r.fromBlock - 1), h);
    assert (exists q :: q in front + [r] && h < q.fromBlock) <==> h < r.fromBlock by {
      assert r in front + [r];
      assert forall q :: q in front + [r] ==> q in front || q == r;
    }
    assert h >= s.cursor ==> !Covers(front, h);
    if window.fromBlock <= h < s.cursor && h >= r.fromBlock {
      var q :| q in front && q.toBlock == s.cursor - 1;
      assert Contains(q, h);
    }
  }

  lemma SweepStep(front: seq<BlockRange>, r: BlockRange, window: BlockRange, s: Sweep)
    requires SweepOk(front, window, s) && (forall q :: q in front ==> q.fromBlock <= r.fromBlock)
    ensures SweepOk(front + [r], window, Advance(s, r))
  {
    var all, s' := front + [r], Advance(s, r);
    forall h ensures Covers(s'.gaps, h) <==>
        window.fromBlock <= h && (h < s'.cursor || exists q :: q in all && h < q.fromBlock) && !Covers(all, h)
    {
      GapHeights(front, r, window, s, s', h);
    }
    assert r in all && forall q :: q in front ==> q in all;
    assert forall q :: q in all ==> q in front || q == r;
  }

  lemma LastFrom(sorted: seq<BlockRange>)
    requires SortedBy(ByFrom(), sorted) && sorted != []
    ensures forall q :: q in sorted[..|sorted| - 1] ==> q.fromBlock <= sorted[|sorted| - 1].fromBlock
  {
    var n := |sorted| - 1;
    forall q | q in sorted[..n] ensures q.fromBlock <= sorted[n].fromBlock {
      var i :| 0 <= i < n && sorted[..n][i] == q;
      assert ByFrom()(sorted[i], sorted[n]);
    }
  }

  lemma {:induction false} SweepIsOk(sorted: seq<BlockRange>, window: BlockRange)
    requires SortedBy(ByFrom(), sorted)
    ensures SweepOk(sorted, window, SweepOver(sorted, window))
  {
    if sorted != [] {
      var n := |sorted| - 1;
      SweepIsOk(sorted[..n], window);
      LastFrom(sorted);
      SweepStep(sorted[..n], sorted[n], window, SweepOver(sorted[..n], window));
      assert sorted == sorted[..n] + [sorted[n]];
    }
  }

  lemma GapsSound(covered: seq<BlockRange>, window: BlockRange)
    ensures forall g :: g in Gaps(covered, window) ==> g.fromBlock <= g.toBlock
    ensures forall h :: Covers(Gaps(covered, window), h) <==> InHorizon(covered, window, h) && !Covers(covered, h)
  {
    var sorted := Sort(ByFrom(), covered);
    SortSorts(ByFrom(), covered);
    SameElements(sorted, covered);
    SweepIsOk(sorted, window);
    var s := SweepOver(sorted, window);
    var last := BlockRange(s.cursor, window.toBlock);
    forall h ensures Covers(Gaps(covered, window), h) <==> InHorizon(covered, window, h) && !Covers(covered, h) {
      CoversPush(s.gaps, last, h);
      assert s.gaps + [] == s.gaps;
      assert Covers(sorted, h) <==> Covers(covered, h);
      if window.fromBlock <= h < s.cursor && !Covers(covered, h) {
        var q :| q in sorted && q.toBlock == s.cursor - 1;
        assert h <= q.toBlock;
        assert q in covered && !Contains(q, h);
      }
    }
  }

  /** Inside the window the gaps are exactly the uncovered heights, so no gap means a covered window. */
  lemma GapsExact(covered: seq<BlockRange>, window: BlockRange)
    ensures forall h :: Contains(window, h) ==> (Covers(Gaps(covered, window), h) <==> !Covers(covered, h))
    ensures Gaps(covered, window) == [] ==> forall h :: Contains(window, h) ==> Covers(covered, h)
    ensures Gaps(covered, window) == [] <==> forall h :: InHorizon(covered, window, h) ==> Covers(covered, h)
  {
    GapsSound(covered, window);
    var gaps := Gaps(covered, window);
    if gaps != [] {
      assert gaps[0] in gaps && Contains(gaps[0], gaps[0].fromBlock);
      assert Covers(gaps, gaps[0].fromBlock);
    }
  }

  /** A covered window can still report a gap: one that lies beyond its end, below a later committed range. */
  lemma GapBeyondWindow()
    ensures var covered, window := [BlockRange(0, 10), BlockRange(20, 30)], BlockRange(0, 10);
            (forall h :: Contains(window, h) ==> Covers(covered, h)) && Gaps(covered, window) != []
  {
    var covered, window := [BlockRange(0, 10), BlockRange(20, 30)], BlockRange(0, 10);
    forall h | Contains(window, h) ensures Covers(covered, h) {
      assert covered[0] in covered && Contains(covered[0], h);
    }
    GapsExact(covered, window);
    assert InHorizon(covered, window, 15) by { assert covered[1] in covered && 15 < covered[1].fromBlock; }
    assert forall r :: r in covered ==> r == BlockRange(0, 10) || r == BlockRange(20, 30);
    assert !Covers(covered, 15);
  }

  // ---- completeness

  datatype ReplayStatus = Pending | Complete | Gap | Stale | Divergent | Blocked

  datatype ReplayVerdict = VerdictOk | VerdictUnknown

  datatype Assessment = Assessment(status: ReplayStatus, verdict: ReplayVerdict, gaps: seq<BlockRange>, reasons: seq<ReplayReason>)

  predicate IsBlocking(r: ReplayReason) {
    || r == PRUNED_HISTORY || r == RETRY_BUDGET_EXHAUSTED || r == RANGE_INDIVISIBLE || r == ARCHIVE_FALLBACK_UNAVAILABLE
    || r == REMOTE_HISTORY_UNAVAILABLE || r == NONCANONICAL_BLOCK_REJECTED || r == INSUFFICIENT_WITNESSES
  }

  function AssessCompleteness(window: BlockRange, committed: seq<BlockRange>, lastSuccessAt: Option<int>, ttlMs: int, open: seq<ReplayReason>, now: int): Assessment {
    var gaps := Gaps(committed, window);
    if PROVIDER_DIVERGENCE in open then Assessment(Divergent, VerdictUnknown, gaps, open)
    else if exists r :: r in open && IsBlocking(r) then Assessment(Blocked, VerdictUnknown, gaps, open)
    else if gaps != [] then Assessment(Gap, VerdictUnknown, gaps, open)
    else if lastSuccessAt.None? then Assessment(Pending, VerdictUnknown, gaps, open)
    else if now - lastSuccessAt.value > ttlMs then Assessment(Stale, VerdictUnknown, gaps, open + [STALE_COLLECTION])
    else Assessment(Complete, VerdictOk, gaps, open)
  }

  /** Every height up to the horizon is covered. */
  ghost predicate NothingMissing(committed: seq<BlockRange>, window: BlockRange) {
    forall h :: InHorizon(committed, window, h) ==> Covers(committed, h)
  }

  /** OK exactly when nothing is contested or blocked, nothing up to the horizon is missing, and the last success is recent. */
  lemma OkMeaning(window: BlockRange, committed: seq<BlockRange>, lastSuccessAt: Option<int>, ttlMs: int, open: seq<ReplayReason>, now: int)
    ensures AssessCompleteness(window, committed, lastSuccessAt, ttlMs, open, now).verdict == VerdictOk <==>
              && (forall r :: r in open ==> r != PROVIDER_DIVERGENCE && !IsBlocking(r))
              && NothingMissing(committed, window)
              && lastSuccessAt.Some? && now - lastSuccessAt.value <= ttlMs
  {
    GapsExact(committed, window);
  }

  /** A gap is closed only when every height of it is committed. */
  predicate IsGapClosed(gap: BlockRange, committed: seq<BlockRange>) {
    Gaps(committed, gap) == []
  }

  /** A committed range further up leaves an uncovered height beyond the gap. */
  ghost predicate HoleBeyond(gap: BlockRange, committed: seq<BlockRange>) {
    exists r :: r in committed && !FilledTo(gap, committed, r)
  }

  ghost predicate FilledTo(gap: BlockRange, committed: seq<BlockRange>, r: BlockRange) {
    forall h :: gap.fromBlock <= h && gap.toBlock < h < r.fromBlock ==> Covers(committed, h)
  }

  /** A gap is closed iff every height of it is committed and no committed range further up leaves a hole behind it. */
  lemma ClosedGapIsCovered(gap: BlockRange, committed: seq<BlockRange>)
    ensures IsGapClosed(gap, committed) <==> (forall h :: Contains(gap, h) ==> Covers(committed, h)) && !HoleBeyond(gap, committed)
  {
    GapsExact(committed, gap);
    if IsGapClosed(gap, committed) {
      forall r, h | r in committed && gap.fromBlock <= h && gap.toBlock < h < r.fromBlock ensures Covers(committed, h) {
        assert InHorizon(committed, gap, h);
      }
    } else if forall h :: Contains(gap, h) ==> Covers(committed, h) {
      var h :| InHorizon(committed, gap, h) && !Covers(committed, h);
      assert !Contains(gap, h);
      var r :| r in committed && h < r.fromBlock;
      assert !FilledTo(gap, committed, r);
    }
  }
}
