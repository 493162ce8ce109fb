/** The scheduler object: fields updated in place, each method tied to its event in the model. */
module SchedulerObject {
  import opened Collections
  import opened SchedulerModel

  class Scheduler {
    const options: Options
    var queue: seq<Job>
    /** One in-flight job per deployment: the single-writer guarantee. */
    var lanes: set<string>
    var queuedKeys: set<string>
    var inFlight: seq<Flight>
    var draining: bool
    var aborted: bool
    var rejected: nat
    var deduplicated: nat
    /** What the outcome callback has been told. */
    var outcomes: seq<Outcome>
    ghost var accepted: seq<Job>
    ghost var started: seq<Job>
    ghost var dropped: seq<Job>

    ghost function Snapshot(): State
      reads this
    {
      State(options, queue, lanes, queuedKeys, inFlight, draining, aborted, rejected, deduplicated, outcomes, accepted, started, dropped)
    }

    ghost predicate Ok()
      reads this
    {
      Valid(Snapshot())
    }

    constructor (o: Options)
      ensures Snapshot() == Initial(o) && Ok()
    {
      options := o;
      queue, lanes, queuedKeys, inFlight := [], {}, {}, [];
      draining, aborted, rejected, deduplicated := false, false, 0, 0;
      outcomes, accepted, started, dropped := [], [], [], [];
      new;
      InitialValid(o);
    }

    method Submit(job: Job) returns (r: SubmitResult)
      requires Ok()
      modifies this
      ensures Ok() && Snapshot() == Submitted(old(Snapshot()), job) && r == Decide(old(Snapshot()), job)
    {
      ghost var was := Snapshot();
      r := Offer(job);
      SubmitKeeps(was, job);
    }

    method Offer(job: Job) returns (r: SubmitResult)
      modifies this
      ensures Snapshot() == Submitted(old(Snapshot()), job) && r == Decide(old(Snapshot()), job)
    {
      if draining {
        return RejectedDraining;
      }
      var key := JobKey(job);
      if key in queuedKeys || job.deploymentId in lanes {
        deduplicated := deduplicated + 1;
        return Duplicate;
      }
      if |queue| >= options.queueLimit {
        rejected := rejected + 1;
        return RejectedBackpressure;
      }
      queue := queue + [job];
      queuedKeys := queuedKeys + {key};
      accepted := accepted + [job];
      r := Queued;
    }

    /** Start every job the limits allow. */
    method Pump()
      requires Ok()
      modifies this
      ensures Ok() && Snapshot() == Pumped(old(Snapshot()))
      ensures |inFlight| >= options.maxConcurrency || forall j :: j in queue ==> j.deploymentId in lanes
    {
      ghost var was := Snapshot();
      Fill();
      PumpKeeps(was);
    }

    method Fill()
      modifies this
      ensures Snapshot() == Pumped(old(Snapshot()))
    {
      while |lanes| < options.maxConcurrency
        invariant Pumped(Snapshot()) == Pumped(old(Snapshot()))
        decreases |queue|
      {
        var index := FirstFree(queue, lanes);
        if index.None? {
          return;
        }
        Start(index.value);
      }
    }

    method Start(i: nat)
      requires i < |queue|
      modifies this
      ensures Snapshot() == Started(old(Snapshot()), i)
    {
      var job := queue[i];
      queue := Without(queue, i);
      queuedKeys := queuedKeys - {JobKey(job)};
      lanes := lanes + {job.deploymentId};
      inFlight := inFlight + [Launched(job, options)];
      started := started + [job];
    }

    method Report(k: nat, result: JobResult, attempts: int)
      requires k < |inFlight|
      modifies this
      ensures Snapshot() == Reported(old(Snapshot()), k, result, attempts)
    {
      outcomes := outcomes + [Outcome(inFlight[k].job, result, attempts)];
      inFlight := inFlight[k := inFlight[k].(phase := Settled)];
    }

    method RunSucceeded(k: nat)
      requires Ok() && InPhase(Snapshot(), k, Running)
      modifies this
      ensures Ok() && Snapshot() == Next(old(Snapshot()), RunSucceeds(k))
    {
      NextKeeps(Snapshot(), RunSucceeds(k));
      Report(k, JobResult.Succeeded, inFlight[k].attempt);
    }

    method RunFailed(k: nat, timedOut: bool)
      requires Ok() && InPhase(Snapshot(), k, Running)
      modifies this
      ensures Ok() && Snapshot() == Next(old(Snapshot()), RunFails(k, timedOut))
    {
      NextKeeps(Snapshot(), RunFails(k, timedOut));
      var f := inFlight[k];
      if aborted && !timedOut {
        Report(k, Cancelled, f.attempt);
      } else if f.attempt == options.maxAttempts {
        Report(k, if timedOut then TimedOut else Abandoned, f.attempt);
      } else {
        inFlight := inFlight[k := f.(phase := BackingOff)];
      }
    }

    method SleepEnded(k: nat)
      requires Ok() && InPhase(Snapshot(), k, BackingOff)
      modifies this
      ensures Ok() && Snapshot() == Next(old(Snapshot()), SleepEnds(k))
    {
      ghost var was := Snapshot();
      Resume(k);
      NextKeeps(was, SleepEnds(k));
    }

    method Resume(k: nat)
      requires k < |inFlight|
      modifies this
      ensures Snapshot() == Resumed(old(Snapshot()), k)
    {
      var f := inFlight[k];
      if aborted {
        Report(k, Cancelled, f.attempt + 1);
      } else {
        inFlight := inFlight[k := Flight(f.job, Running, f.attempt + 1)];
      }
    }

    method SleepAborted(k: nat)
      requires Ok() && InPhase(Snapshot(), k, BackingOff)
      modifies this
      ensures Ok() && Snapshot() == Next(old(Snapshot()), SleepAborts(k))
    {
      NextKeeps(Snapshot(), SleepAborts(k));
      Report(k, Cancelled, inFlight[k].attempt);
    }

    /** The promise's `finally`. */
    method CleanedUpAfter(k: nat)
      requires Ok() && InPhase(Snapshot(), k, Settled)
      modifies this
      ensures Ok() && Snapshot() == Next(old(Snapshot()), CleanUp(k))
    {
      ghost var was := Snapshot();
      Release(k);
      if !draining {
        Fill();
      }
      NextKeeps(was, CleanUp(k));
    }

    method Release(k: nat)
      requires k < |inFlight|
      modifies this
      ensures Snapshot() == Released(old(Snapshot()), k)
    {
      lanes := lanes - {inFlight[k].job.deploymentId};
      inFlight := Without(inFlight, k);
    }

    method BeginShutdown()
      requires Ok()
      modifies this
      ensures Ok() && Snapshot() == ShutDown(old(Snapshot()))
    {
      ShutDownKeeps(Snapshot());
      dropped := dropped + queue;
      draining := true;
      queue := [];
      queuedKeys := {};
    }

    method GraceElapsed()
      requires Ok() && draining
      modifies this
      ensures Ok() && Snapshot() == Next(old(Snapshot()), GraceElapses)
    {
      NextKeeps(Snapshot(), GraceElapses);
      aborted := true;
    }
  }
}
