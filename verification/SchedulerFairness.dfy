// A queued job's turn comes: it never moves back, and every clean-up that could serve it starts it or moves it forward.
// And the one budget under which a started job disappears.
module SchedulerFairness {
  import opened Collections
  import opened SchedulerModel

  /** The number of jobs before this one in the queue. */
  function Place(q: seq<Job>, j: Job): (p: nat)
    requires j in q
    ensures p < |q| && q[p] == j && forall i :: 0 <= i < p ==> q[i] != j
  {
    if q[0] == j then 0 else 1 + Place(q[1..], j)
  }

  lemma PlaceIs(q: seq<Job>, j: Job, p: nat)
    requires p < |q| && q[p] == j && forall i :: 0 <= i < p ==> q[i] != j
    ensures j in q && Place(q, j) == p
  {
  }

  lemma PlaceWithout(q: seq<Job>, i: nat, j: Job)
    requires i < |q| && j in q && q[i] != j
    ensures var rest := Without(q, i); j in rest && Place(rest, j) == if i < Place(q, j) then Place(q, j) - 1 else Place(q, j)
  {
    var rest, p := Without(q, i), Place(q, j);
    assert forall k :: 0 <= k < |rest| ==> rest[k] == if k < i then q[k] else q[k + 1];
    PlaceIs(rest, j, if i < p then p - 1 else p);
  }

  lemma PlacePush(q: seq<Job>, more: Job, j: Job)
    requires j in q
    ensures j in q + [more] && Place(q + [more], j) == Place(q, j)
  {
    PlaceIs(q + [more], j, Place(q, j));
  }

  /** Started since. */
  predicate StartedSince(s: State, t: State, j: Job) {
    s.started <= t.started && j in t.started[|s.started|..]
  }

  /** Started, or still queued with at most this many jobs before it. */
  predicate NoLaterThan(s: State, t: State, j: Job, p: int) {
    StartedSince(s, t, j) || (s.started <= t.started && j in t.queue && Place(t.queue, j) <= p)
  }

  lemma StartMoves(s: State, i: nat, j: Job)
    requires i < |s.queue| && j in s.queue
    ensures var t := Started(s, i);
            if s.queue[i] == j then StartedSince(s, t, j)
            else NoLaterThan(s, t, j, if i < Place(s.queue, j) then Place(s.queue, j) - 1 else Place(s.queue, j))
  {
    var t := Started(s, i);
    if s.queue[i] == j {
      assert t.started[|s.started|..] == [j];
    } else {
      PlaceWithout(s.queue, i, j);
    }
  }

  lemma LaterStill(s: State, t: State, u: State, j: Job, p: int)
    requires NoLaterThan(s, t, j, p) && t.started <= u.started
    requires j in t.queue ==> NoLaterThan(t, u, j, Place(t.queue, j))
    ensures NoLaterThan(s, u, j, p)
  {
    if StartedSince(s, t, j) {
      var k :| 0 <= k < |t.started[|s.started|..]| && t.started[|s.started|..][k] == j;
      assert u.started[|s.started|..][k] == t.started[|s.started|..][k];
    } else if StartedSince(t, u, j) {
      var k :| 0 <= k < |u.started[|t.started|..]| && u.started[|t.started|..][k] == j;
      assert u.started[|s.started|..][|t.started| - |s.started| + k] == j;
    }
  }

  lemma {:induction false} PumpOnlyStarts(s: State)
    ensures s.started <= Pumped(s).started
    decreases |s.queue|
  {
    if |s.lanes| < s.options.maxConcurrency {
      var i := FirstFree(s.queue, s.lanes);
      if i.Some? {
        PumpOnlyStarts(Started(s, i.value));
      }
    }
  }

  lemma {:induction false} PumpMoves(s: State, j: Job)
    requires j in s.queue
    ensures NoLaterThan(s, Pumped(s), j, Place(s.queue, j))
    decreases |s.queue|
  {
    if |s.lanes| < s.options.maxConcurrency {
      var i := FirstFree(s.queue, s.lanes);
      if i.Some? {
        var t := Started(s, i.value);
        StartMoves(s, i.value, j);
        PumpOnlyStarts(t);
        if j in t.queue {
          PumpMoves(t, j);
        }
        LaterStill(s, t, Pumped(t), j, Place(s.queue, j));
      }
    }
  }

  lemma PumpAfter(s: State, t: State, j: Job, p: int)
    requires NoLaterThan(s, t, j, p)
    ensures NoLaterThan(s, Pumped(t), j, p)
  {
    PumpOnlyStarts(t);
    if j in t.queue {
      PumpMoves(t, j);
    }
    LaterStill(s, t, Pumped(t), j, p);
  }

  lemma FirstServes(s: State, i: nat, j: Job)
    requires FirstFree(s.queue, s.lanes) == Some(i) && j in s.queue && j.deploymentId !in s.lanes
    ensures NoLaterThan(s, Started(s, i), j, Place(s.queue, j) - 1)
  {
    assert i <= Place(s.queue, j);
    StartMoves(s, i, j);
  }

  lemma PumpsFirst(s: State, i: nat)
    requires |s.lanes| < s.options.maxConcurrency && FirstFree(s.queue, s.lanes) == Some(i)
    ensures Pumped(s) == Pumped(Started(s, i))
  {
  }

  /** With a slot and its lane free, a queued job starts or moves forward. */
  lemma PumpServes(s: State, j: Job)
    requires j in s.queue && |s.lanes| < s.options.maxConcurrency && j.deploymentId !in s.lanes
    ensures NoLaterThan(s, Pumped(s), j, Place(s.queue, j) - 1)
  {
    var i := FirstFree(s.queue, s.lanes).value;
    FirstServes(s, i, j);
    PumpAfter(s, Started(s, i), j, Place(s.queue, j) - 1);
    PumpsFirst(s, i);
  }

  lemma ReleasedFrees(s: State, k: nat)
    requires Valid(s) && InPhase(s, k, Settled) && !s.draining
    ensures var t := Released(s, k);
            && |t.lanes| < t.options.maxConcurrency && t.queue == s.queue && t.started == s.started
            && s.inFlight[k].job.deploymentId !in t.lanes && t.lanes <= s.lanes
  {
    var f := s.inFlight[k];
    assert LaneIds(s.inFlight)[k] == f.job.deploymentId;
    assert |s.lanes - {f.job.deploymentId}| == |s.lanes| - 1;
  }

  /** This clean-up could serve the job: it frees the job's own lane, or the job's lane is free already. */
  predicate CouldServe(s: State, e: Event, j: Job) {
    e.CleanUp? && InPhase(s, e.k, Settled) && (s.inFlight[e.k].job.deploymentId == j.deploymentId || j.deploymentId !in s.lanes)
  }

  lemma QueuedIsNotDraining(s: State, j: Job)
    requires Valid(s) && j in s.queue
    ensures !s.draining
  {
  }

  lemma CleanUpServes(s: State, e: Event, j: Job)
    requires Valid(s) && CouldServe(s, e, j) && j in s.queue
    ensures NoLaterThan(s, Next(s, e), j, Place(s.queue, j) - 1)
  {
    QueuedIsNotDraining(s, j);
    ReleasedFrees(s, e.k);
    var t := Released(s, e.k);
    PumpServes(t, j);
    SinceRelease(s, t, Pumped(t), j, Place(s.queue, j) - 1);
  }

  lemma SinceRelease(s: State, t: State, u: State, j: Job, p: int)
    requires t.started == s.started && NoLaterThan(t, u, j, p)
    ensures NoLaterThan(s, u, j, p)
  {
  }

  /** No event but shutdown takes a queued job out other than by starting it, and none moves it back. */
  lemma NeverMovesBack(s: State, e: Event, j: Job)
    requires Valid(s) && Enabled(s, e) && j in s.queue
    ensures if e.Shutdown? then j in Next(s, e).dropped else NoLaterThan(s, Next(s, e), j, Place(s.queue, j))
  {
    match e
    case Submit(job) =>
      if Decide(s, job).Queued? {
        PlacePush(s.queue, job, j);
      }
    case Pump => PumpMoves(s, j);
    case CleanUp(k) =>
      QueuedIsNotDraining(s, j);
      PumpMoves(Released(s, k), j);
    case Shutdown =>
    case _ => LanesStay(s, e);
  }

  // ---- waiting over a run

  /** The job is in the queue after every one of the events, and none of them starts it. */
  predicate Waits(o: Options, before: seq<Event>, more: seq<Event>, j: Job) {
    && After(o, before + more).Some? && j in After(o, before + more).value.queue
    && (more != [] ==>
          && Waits(o, before, more[..|more| - 1], j)
          && !StartedSince(After(o, before + more[..|more| - 1]).value, After(o, before + more).value, j))
  }

  /** How many of the events could have served the job. */
  function Chances(o: Options, before: seq<Event>, more: seq<Event>, j: Job): nat
    requires Waits(o, before, more, j)
  {
    if more == [] then 0
    else
      var front := more[..|more| - 1];
      Chances(o, before, front, j) + if CouldServe(After(o, before + front).value, more[|more| - 1], j) then 1 else 0
  }

  lemma LastEvent(o: Options, before: seq<Event>, more: seq<Event>)
    requires more != [] && After(o, before + more).Some?
    ensures var front := before + more[..|more| - 1];
            && After(o, front).Some? && Enabled(After(o, front).value, more[|more| - 1])
            && After(o, before + more).value == Next(After(o, front).value, more[|more| - 1])
  {
    assert (before + more)[..|before + more| - 1] == before + more[..|more| - 1];
  }

  /** A waiting job is never starved: it can be passed over at most as often as there were jobs before it. */
  lemma {:induction false} NeverStarved(o: Options, before: seq<Event>, more: seq<Event>, j: Job)
    requires Waits(o, before, more, j)
    ensures After(o, before).Some? && j in After(o, before).value.queue
    ensures Chances(o, before, more, j) + Place(After(o, before + more).value.queue, j) <= Place(After(o, before).value.queue, j)
  {
    if more == [] {
      assert before + more == before;
    } else {
      var front, e := more[..|more| - 1], more[|more| - 1];
      NeverStarved(o, before, front, j);
      LastEvent(o, before, more);
      RunsValid(o, before + front);
      var s := After(o, before + front).value;
      WaitsOn(s, e, j);
    }
  }

  lemma WaitsOn(s: State, e: Event, j: Job)
    requires Valid(s) && Enabled(s, e) && j in s.queue && j in Next(s, e).queue && !StartedSince(s, Next(s, e), j)
    ensures Place(Next(s, e).queue, j) + (if CouldServe(s, e, j) then 1 else 0) <= Place(s.queue, j)
  {
    if CouldServe(s, e, j) {
      CleanUpServes(s, e, j);
    }
    NeverMovesBack(s, e, j);
  }

  // ---- a budget below one

  lemma OneMore(o: Options, events: seq<Event>, e: Event)
    requires After(o, events).Some? && Enabled(After(o, events).value, e)
    ensures After(o, events + [e]) == Some(Next(After(o, events).value, e))
  {
    assert (events + [e])[..|events|] == events;
  }

  lemma OnlyJobStarts(s: State, j: Job)
    requires s.queue == [j] && s.lanes == {} && s.options.maxConcurrency >= 1
    ensures Pumped(s) == Started(s, 0) && Started(s, 0).queue == []
  {
    var t := Started(s, 0);
    assert FirstFree(s.queue, s.lanes) == Some(0);
    assert t.queue == [];
    assert Pumped(t) == t;
  }

  /** With no attempt to spend, the first job submitted is started and is then neither running, nor waiting, nor reported. */
  lemma StartedJobVanishes(o: Options, j: Job)
    requires o.maxAttempts < 1 && o.maxConcurrency >= 1 && o.queueLimit >= 1
    ensures var s := After(o, [Submit(j)] + [Pump]);
            && s.Some? && s.value.started == [j] && s.value.queue == [] && s.value.outcomes == [] && s.value.dropped == []
            && s.value.inFlight == [Flight(j, Settled, 1)] && !Accounted(s.value)
  {
    var s := Submitted(Initial(o), j);
    OneMore(o, [], Submit(j));
    assert [] + [Submit(j)] == [Submit(j)];
    assert s.queue == [j];
    OneMore(o, [Submit(j)], Pump);
    OnlyJobStarts(s, j);
    RunsValid(o, [Submit(j)] + [Pump]);
    Unaccounted(After(o, [Submit(j)] + [Pump]).value, j);
  }

  lemma Unaccounted(s: State, j: Job)
    requires Valid(s) && s.options.maxAttempts < 1 && s.started == [j]
    ensures !Accounted(s)
  {
    VanishesWithoutAttempts(s);
  }
}
