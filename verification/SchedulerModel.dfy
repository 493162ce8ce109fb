/** The in-process scheduler as a state machine: what each event does, and what every run of events keeps. */
module SchedulerModel {
  import opened Collections
  import opened Sorting

  datatype Job = Job(deploymentId: string, kind: string)

  datatype JobResult = Succeeded | TimedOut | Abandoned | Cancelled

  datatype Outcome = Outcome(job: Job, result: JobResult, attempts: int)

  datatype SubmitResult = Queued | Duplicate | RejectedBackpressure | RejectedDraining

  datatype Options = Options(maxConcurrency: int, queueLimit: int, maxAttempts: int)

  /** Where a started job is; a settled one still holds its lane until its promise is cleaned up. */
  datatype Phase = Running | BackingOff | Settled

  datatype Flight = Flight(job: Job, phase: Phase, attempt: int)

  /** The scheduler's fields, and the history of what it accepted, started, dropped and reported. */
  datatype State = State(
    options: Options,
    queue: seq<Job>,
    lanes: set<string>,
    queuedKeys: set<string>,
    inFlight: seq<Flight>,
    draining: bool,
    aborted: bool,
    rejected: nat,
    deduplicated: nat,
    outcomes: seq<Outcome>,
    accepted: seq<Job>,
    started: seq<Job>,
    dropped: seq<Job>)

  function Initial(o: Options): State {
    State(o, [], {}, {}, [], false, false, 0, 0, [], [], [], [])
  }

  function Without<T>(s: seq<T>, i: nat): seq<T>
    requires i < |s|
  {
    s[..i] + s[i + 1..]
  }

  function JobKey(j: Job): string {
    j.deploymentId + " " + j.kind
  }

  function Decide(s: State, job: Job): SubmitResult {
    if s.draining then RejectedDraining
    else if JobKey(job) in s.queuedKeys || job.deploymentId in s.lanes then Duplicate
    else if |s.queue| >= s.options.queueLimit then RejectedBackpressure
    else Queued
  }

  function Submitted(s: State, job: Job): State {
    match Decide(s, job)
    case RejectedDraining => s
    case Duplicate => s.(deduplicated := s.deduplicated + 1)
    case RejectedBackpressure => s.(rejected := s.rejected + 1)
    case Queued => s.(queue := s.queue + [job], queuedKeys := s.queuedKeys + {JobKey(job)}, accepted := s.accepted + [job])
  }

  /** The first queued job whose deployment has no lane. */
  function FirstFree(queue: seq<Job>, lanes: set<string>): (i: Option<nat>)
    ensures i.Some? ==> i.value < |queue| && queue[i.value].deploymentId !in lanes
    ensures i.Some? ==> forall k :: 0 <= k < i.value ==> queue[k].deploymentId in lanes
    ensures i.None? ==> forall k :: 0 <= k < |queue| ==> queue[k].deploymentId in lanes
  {
    if queue == [] then None
    else if queue[0].deploymentId !in lanes then Some(0)
    else
      match FirstFree(queue[1..], lanes)
      case None => None
      case Some(i) => Some(i + 1)
  }

  /** The attempt loop's body is entered only within the attempt budget; otherwise the job settles at once, unreported. */
  function Launched(job: Job, o: Options): Flight {
    if 1 <= o.maxAttempts then Flight(job, Running, 1) else Flight(job, Settled, 1)
  }

  function Started(s: State, i: nat): State
    requires i < |s.queue|
  {
    var job := s.queue[i];
    s.(queue := Without(s.queue, i),
       queuedKeys := s.queuedKeys - {JobKey(job)},
       lanes := s.lanes + {job.deploymentId},
       inFlight := s.inFlight + [Launched(job, s.options)],
       started := s.started + [job])
  }

  function Pumped(s: State): State
    decreases |s.queue|
  {
    if |s.lanes| >= s.options.maxConcurrency then s
    else
      match FirstFree(s.queue, s.lanes)
      case None => s
      case Some(i) => Pumped(Started(s, i))
  }

  function Reported(s: State, k: nat, result: JobResult, attempts: int): State
    requires k < |s.inFlight|
  {
    var f := s.inFlight[k];
    s.(outcomes := s.outcomes + [Outcome(f.job, result, attempts)], inFlight := s.inFlight[k := f.(phase := Settled)])
  }

  /** The runner rejected: cancelled by shutdown, out of attempts, or waiting to try again. */
  function Failed(s: State, k: nat, timedOut: bool): State
    requires k < |s.inFlight|
  {
    var f := s.inFlight[k];
    if s.aborted && !timedOut then Reported(s, k, Cancelled, f.attempt)
    else if f.attempt == s.options.maxAttempts then Reported(s, k, if timedOut then TimedOut else Abandoned, f.attempt)
    else s.(inFlight := s.inFlight[k := f.(phase := BackingOff)])
  }

  /** The back-off sleep ended: the next attempt starts, unless shutdown has aborted. */
  function Resumed(s: State, k: nat): State
    requires k < |s.inFlight|
  {
    var f := s.inFlight[k];
    if s.aborted then Reported(s, k, Cancelled, f.attempt + 1)
    else s.(inFlight := s.inFlight[k := Flight(f.job, Running, f.attempt + 1)])
  }

  function Released(s: State, k: nat): State
    requires k < |s.inFlight|
  {
    s.(lanes := s.lanes - {s.inFlight[k].job.deploymentId}, inFlight := Without(s.inFlight, k))
  }

  /** A settled promise gives its lane back, and the scheduler looks for more work. */
  function CleanedUp(s: State, k: nat): State
    requires k < |s.inFlight|
  {
    if s.draining then Released(s, k) else Pumped(Released(s, k))
  }

  function ShutDown(s: State): State {
    s.(draining := true, dropped := s.dropped + s.queue, queue := [], queuedKeys := {})
  }

  // ---- runs

  datatype Event =
    | Submit(job: Job)
    | Pump
    | RunSucceeds(k: nat)
    | RunFails(k: nat, timedOut: bool)
    | SleepEnds(k: nat)
    | SleepAborts(k: nat)
    | CleanUp(k: nat)
    | Shutdown
    | GraceElapses

  predicate InPhase(s: State, k: nat, p: Phase) {
    k < |s.inFlight| && s.inFlight[k].phase == p
  }

  predicate Enabled(s: State, e: Event) {
    match e
    case RunSucceeds(k) => InPhase(s, k, Running)
    case RunFails(k, _) => InPhase(s, k, Running)
    case SleepEnds(k) => InPhase(s, k, BackingOff)
    case SleepAborts(k) => InPhase(s, k, BackingOff)
    case CleanUp(k) => InPhase(s, k, Settled)
    case GraceElapses => s.draining
    case _ => true
  }

  function Next(s: State, e: Event): State
    requires Enabled(s, e)
  {
    match e
    case Submit(job) => Submitted(s, job)
    case Pump => Pumped(s)
    case RunSucceeds(k) => Reported(s, k, Succeeded, s.inFlight[k].attempt)
    case RunFails(k, timedOut) => Failed(s, k, timedOut)
    case SleepEnds(k) => Resumed(s, k)
    case SleepAborts(k) => Reported(s, k, Cancelled, s.inFlight[k].attempt)
    case CleanUp(k) => CleanedUp(s, k)
    case Shutdown => ShutDown(s)
    case GraceElapses => s.(aborted := true)
  }

  /** The state after the events, if each was possible when it came. */
  function After(o: Options, events: seq<Event>): Option<State> {
    if events == [] then Some(Initial(o))
    else
      match After(o, events[..|events| - 1])
      case None => None
      case Some(s) => if Enabled(s, events[|events| - 1]) then Some(Next(s, events[|events| - 1])) else None
  }

  // ---- what every event keeps

  predicate AtMost(n: int, limit: int) {
    n <= limit || n == 0
  }

  function QueueKeys(q: seq<Job>): seq<string> {
    Map((j: Job) => JobKey(j), q)
  }

  function LaneIds(fl: seq<Flight>): seq<string> {
    Map((f: Flight) => f.job.deploymentId, fl)
  }

  /** The queue is bounded, and the key set mirrors it without duplicates. */
  predicate QueueOk(s: State) {
    && AtMost(|s.queue|, s.options.queueLimit)
    && Distinct(QueueKeys(s.queue))
    && s.queuedKeys == ToSet(QueueKeys(s.queue))
    && (s.draining ==> s.queue == [])
    && (!s.draining ==> s.dropped == [])
    && (s.aborted ==> s.draining)
  }

  /** One flight per lane, never two for one deployment, never more than the limit. */
  predicate LanesOk(s: State) {
    && Distinct(LaneIds(s.inFlight))
    && s.lanes == ToSet(LaneIds(s.inFlight))
    && |s.lanes| == |s.inFlight|
    && AtMost(|s.inFlight|, s.options.maxConcurrency)
  }

  predicate FlightOk(o: Options, f: Flight) {
    && (f.phase == Running ==> 1 <= f.attempt <= o.maxAttempts)
    && (f.phase == BackingOff ==> 1 <= f.attempt < o.maxAttempts)
  }

  /** Attempts stay inside the budget, in flight and in every report. */
  predicate AttemptsOk(s: State) {
    && (forall f :: f in s.inFlight ==> FlightOk(s.options, f))
    && (forall o :: o in s.outcomes ==> 1 <= o.attempts <= s.options.maxAttempts)
  }

  function OfDeployment(d: string): Job -> bool {
    (j: Job) => j.deploymentId == d
  }

  function Of(d: string, s: seq<Job>): seq<Job> {
    Filter(OfDeployment(d), s)
  }

  ghost predicate OrderFor(d: string, accepted: seq<Job>, started: seq<Job>, rest: seq<Job>) {
    Of(d, accepted) == Of(d, started) + Of(d, rest)
  }

  /** Each deployment's accepted jobs are, in order, the started ones and then the dropped or queued ones. */
  ghost predicate InOrder(s: State) {
    forall d :: OrderFor(d, s.accepted, s.started, s.dropped + s.queue)
  }

  function Own(f: Flight): multiset<Job> {
    if f.phase == Settled then multiset{} else multiset{f.job}
  }

  function Live(fl: seq<Flight>): multiset<Job> {
    if fl == [] then multiset{} else Live(fl[..|fl| - 1]) + Own(fl[|fl| - 1])
  }

  function Told(outcomes: seq<Outcome>): multiset<Job> {
    if outcomes == [] then multiset{} else Told(outcomes[..|outcomes| - 1]) + multiset{outcomes[|outcomes| - 1].job}
  }

  /** Every started job is still live or has been reported exactly once. */
  ghost predicate Accounted(s: State) {
    multiset(s.started) == Live(s.inFlight) + Told(s.outcomes)
  }

  ghost predicate AccountsOk(s: State) {
    if s.options.maxAttempts >= 1 then Accounted(s) else Live(s.inFlight) == multiset{} && s.outcomes == []
  }

  ghost predicate Valid(s: State) {
    QueueOk(s) && LanesOk(s) && AttemptsOk(s) && InOrder(s) && AccountsOk(s)
  }

  // ---- sequences and the sets they mirror

  lemma WithoutMirrors<T(!new)>(s: seq<T>, i: nat)
    requires Distinct(s) && i < |s|
    ensures Distinct(Without(s, i)) && ToSet(Without(s, i)) == ToSet(s) - {s[i]}
  {
    var r := Without(s, i);
    assert s == s[..i] + [s[i]] + s[i + 1..];
    assert forall k :: 0 <= k < |r| ==> r[k] == (if k < i then s[k] else s[k + 1]);
    assert s[i] !in r;
  }

  lemma PushMirrors<T(!new)>(s: seq<T>, x: T)
    requires Distinct(s) && x !in s
    ensures Distinct(s + [x]) && ToSet(s + [x]) == ToSet(s) + {x}
  {
  }

  // ---- submit

  lemma OfPush(d: string, q: seq<Job>, j: Job)
    ensures Of(d, q + [j]) == Of(d, q) + (if j.deploymentId == d then [j] else [])
  {
    assert (q + [j])[..|q|] == q;
  }

  lemma SubmitKeepsQueue(s: State, job: Job)
    requires QueueOk(s)
    ensures QueueOk(Submitted(s, job))
  {
    if Decide(s, job) == Queued {
      PushMirrors(QueueKeys(s.queue), JobKey(job));
      assert QueueKeys(s.queue + [job]) == QueueKeys(s.queue) + [JobKey(job)];
    }
  }

  lemma SubmitKeepsOrder(s: State, job: Job)
    requires InOrder(s)
    ensures InOrder(Submitted(s, job))
  {
    if Decide(s, job) == Queued {
      assert s.dropped + (s.queue + [job]) == (s.dropped + s.queue) + [job];
      forall d ensures OrderFor(d, s.accepted + [job], s.started, (s.dropped + s.queue) + [job]) {
        assert OrderFor(d, s.accepted, s.started, s.dropped + s.queue);
        OfPush(d, s.accepted, job);
        OfPush(d, s.dropped + s.queue, job);
      }
    }
  }

  lemma SubmitKeeps(s: State, job: Job)
    requires Valid(s)
    ensures Valid(Submitted(s, job))
  {
    SubmitKeepsQueue(s, job);
    SubmitKeepsOrder(s, job);
    SubmitTouches(s, job);
  }

  lemma SubmitTouches(s: State, job: Job)
    ensures var s' := Submitted(s, job);
            && s'.options == s.options && s'.lanes == s.lanes && s'.inFlight == s.inFlight
            && s'.outcomes == s.outcomes && s'.started == s.started
  {
  }

  // ---- starting one job

  lemma StartKeepsQueue(s: State, i: nat)
    requires QueueOk(s) && i < |s.queue|
    ensures QueueOk(Started(s, i))
  {
    var keys := QueueKeys(s.queue);
    WithoutMirrors(keys, i);
    assert QueueKeys(Started(s, i).queue) == Without(keys, i);
  }

  lemma StartKeepsLanes(s: State, i: nat)
    requires LanesOk(s) && i < |s.queue| && s.queue[i].deploymentId !in s.lanes && |s.lanes| < s.options.maxConcurrency
    ensures LanesOk(Started(s, i))
  {
    var d := s.queue[i].deploymentId;
    PushMirrors(LaneIds(s.inFlight), d);
    assert LaneIds(Started(s, i).inFlight) == LaneIds(s.inFlight) + [d];
  }

  lemma {:induction false} OfConcat(d: string, a: seq<Job>, b: seq<Job>)
    ensures Of(d, a + b) == Of(d, a) + Of(d, b)
  {
    FilterConcat(OfDeployment(d), a, b);
  }

  /** The started job was the first of its deployment in the queue. */
  lemma OfStart(d: string, q: seq<Job>, i: nat)
    requires i < |q| && forall k :: 0 <= k < i ==> q[k].deploymentId != q[i].deploymentId
    ensures Of(d, q) == (if q[i].deploymentId == d then [q[i]] else []) + Of(d, Without(q, i))
  {
    assert q == q[..i] + [q[i]] + q[i + 1..];
    OfConcat(d, q[..i] + [q[i]], q[i + 1..]);
    OfConcat(d, q[..i], q[i + 1..]);
    OfPush(d, q[..i], q[i]);
    if q[i].deploymentId == d {
      FilterNone(OfDeployment(d), q[..i]);
    }
  }

  lemma OrderStart(d: string, accepted: seq<Job>, started: seq<Job>, q: seq<Job>, i: nat)
    requires OrderFor(d, accepted, started, q)
    requires i < |q| && forall k :: 0 <= k < i ==> q[k].deploymentId != q[i].deploymentId
    ensures OrderFor(d, accepted, started + [q[i]], Without(q, i))
  {
    var one := if q[i].deploymentId == d then [q[i]] else [];
    var rest := Of(d, Without(q, i));
    OfPush(d, started, q[i]);
    OfStart(d, q, i);
    assert Of(d, started) + (one + rest) == (Of(d, started) + one) + rest;
  }

  lemma StartKeepsOrder(s: State, i: nat)
    requires InOrder(s) && i < |s.queue| && forall k :: 0 <= k < i ==> s.queue[k].deploymentId != s.queue[i].deploymentId
    requires s.dropped == []
    ensures InOrder(Started(s, i))
  {
    var q := Without(s.queue, i);
    assert s.dropped + s.queue == s.queue && s.dropped + q == q;
    forall d ensures OrderFor(d, s.accepted, s.started + [s.queue[i]], q) {
      assert OrderFor(d, s.accepted, s.started, s.dropped + s.queue);
      OrderStart(d, s.accepted, s.started, s.queue, i);
    }
  }

  lemma LivePush(fl: seq<Flight>, f: Flight)
    ensures Live(fl + [f]) == Live(fl) + Own(f)
  {
    assert (fl + [f])[..|fl|] == fl;
  }

  lemma StartKeepsAccounts(s: State, i: nat)
    requires AccountsOk(s) && i < |s.queue|
    ensures AccountsOk(Started(s, i))
  {
    LivePush(s.inFlight, Launched(s.queue[i], s.options));
    assert multiset(s.started + [s.queue[i]]) == multiset(s.started) + multiset{s.queue[i]};
  }

  lemma StartKeeps(s: State, i: nat)
    requires Valid(s) && |s.lanes| < s.options.maxConcurrency && FirstFree(s.queue, s.lanes) == Some(i)
    ensures Valid(Started(s, i))
  {
    StartKeepsQueue(s, i);
    StartKeepsLanes(s, i);
    StartKeepsOrder(s, i);
    StartKeepsAccounts(s, i);
    assert FlightOk(s.options, Launched(s.queue[i], s.options));
  }

  /** All slots are taken, or every queued job waits for its own deployment. */
  predicate Filled(s: State) {
    |s.lanes| >= s.options.maxConcurrency || forall j :: j in s.queue ==> j.deploymentId in s.lanes
  }

  lemma {:induction false} PumpKeeps(s: State)
    requires Valid(s)
    ensures Valid(Pumped(s)) && Filled(Pumped(s)) && Pumped(s).draining == s.draining
    decreases |s.queue|
  {
    if |s.lanes| < s.options.maxConcurrency {
      var i := FirstFree(s.queue, s.lanes);
      if i.Some? {
        StartKeeps(s, i.value);
        PumpKeeps(Started(s, i.value));
      }
    }
  }

  // ---- what happens to a job in flight

  lemma Shuffle(a: multiset<Job>, b: multiset<Job>, c: multiset<Job>)
    ensures (a + b) + c == (a + c) + b
  {
  }

  lemma WithoutLast<T>(s: seq<T>, k: nat)
    requires k < |s|
    ensures k == |s| - 1 ==> Without(s, k) == s[..|s| - 1]
    ensures k < |s| - 1 ==> Without(s, k) == Without(s[..|s| - 1], k) + [s[|s| - 1]]
  {
  }

  lemma LiveLast(fl: seq<Flight>)
    requires fl != []
    ensures Live(fl) == Live(fl[..|fl| - 1]) + Own(fl[|fl| - 1])
  {
  }

  lemma LiveBefore(fl: seq<Flight>, k: nat)
    requires k < |fl| - 1 && Live(fl[..|fl| - 1]) == Live(Without(fl[..|fl| - 1], k)) + Own(fl[k])
    ensures Live(fl) == Live(Without(fl, k)) + Own(fl[k])
  {
    var n := |fl| - 1;
    var rest := Without(fl[..n], k);
    WithoutLast(fl, k);
    LivePush(rest, fl[n]);
    LiveLast(fl);
    Shuffle(Live(rest), Own(fl[k]), Own(fl[n]));
  }

  lemma {:induction false} LiveAt(fl: seq<Flight>, k: nat)
    requires k < |fl|
    ensures Live(fl) == Live(Without(fl, k)) + Own(fl[k])
  {
    var n := |fl| - 1;
    if k < n {
      LiveAt(fl[..n], k);
      LiveBefore(fl, k);
    } else {
      WithoutLast(fl, k);
      LiveLast(fl);
    }
  }

  lemma LiveUpdate(fl: seq<Flight>, k: nat, f: Flight)
    requires k < |fl|
    ensures Live(fl) == Live(Without(fl, k)) + Own(fl[k]) && Live(fl[k := f]) == Live(Without(fl, k)) + Own(f)
  {
    LiveAt(fl, k);
    LiveAt(fl[k := f], k);
    assert Without(fl[k := f], k) == Without(fl, k);
  }

  lemma FlightUpdateKeepsLanes(s: State, k: nat, f: Flight)
    requires LanesOk(s) && k < |s.inFlight| && f.job == s.inFlight[k].job
    ensures LanesOk(s.(inFlight := s.inFlight[k := f]))
  {
    assert LaneIds(s.inFlight[k := f]) == LaneIds(s.inFlight);
  }

  lemma UpdateMembers(fl: seq<Flight>, k: nat, f: Flight)
    requires k < |fl|
    ensures forall g :: g in fl[k := f] ==> g == f || g in fl
  {
    var after := fl[k := f];
    forall g | g in after ensures g == f || g in fl {
      var i :| 0 <= i < |after| && after[i] == g;
      assert i != k ==> fl[i] == g;
    }
  }

  lemma MoveKeeps(s: State, k: nat, f: Flight)
    requires Valid(s) && k < |s.inFlight| && f.job == s.inFlight[k].job && FlightOk(s.options, f)
    requires f.phase != Settled && s.inFlight[k].phase != Settled
    ensures Valid(s.(inFlight := s.inFlight[k := f]))
  {
    FlightUpdateKeepsLanes(s, k, f);
    UpdateMembers(s.inFlight, k, f);
    LiveUpdate(s.inFlight, k, f);
  }

  lemma ToldPush(outcomes: seq<Outcome>, o: Outcome)
    ensures Told(outcomes + [o]) == Told(outcomes) + multiset{o.job}
  {
    assert (outcomes + [o])[..|outcomes|] == outcomes;
  }

  lemma ReportKeepsAccounts(s: State, k: nat, result: JobResult, attempts: int)
    requires AccountsOk(s) && k < |s.inFlight| && s.inFlight[k].phase != Settled && 1 <= s.options.maxAttempts
    ensures AccountsOk(Reported(s, k, result, attempts))
  {
    var f := s.inFlight[k];
    LiveUpdate(s.inFlight, k, f.(phase := Settled));
    ToldPush(s.outcomes, Outcome(f.job, result, attempts));
    Shuffle(Live(Without(s.inFlight, k)), multiset{f.job}, Told(s.outcomes));
  }

  lemma ReportKeepsAttempts(s: State, k: nat, result: JobResult, attempts: int)
    requires AttemptsOk(s) && k < |s.inFlight| && 1 <= attempts <= s.options.maxAttempts
    ensures AttemptsOk(Reported(s, k, result, attempts))
  {
    UpdateMembers(s.inFlight, k, s.inFlight[k].(phase := Settled));
  }

  lemma ReportKeeps(s: State, k: nat, result: JobResult, attempts: int)
    requires Valid(s) && k < |s.inFlight| && s.inFlight[k].phase != Settled && 1 <= attempts <= s.options.maxAttempts
    ensures Valid(Reported(s, k, result, attempts))
  {
    FlightUpdateKeepsLanes(s, k, s.inFlight[k].(phase := Settled));
    ReportKeepsAccounts(s, k, result, attempts);
    ReportKeepsAttempts(s, k, result, attempts);
  }

  lemma ReleaseKeepsLanes(s: State, k: nat)
    requires LanesOk(s) && k < |s.inFlight|
    ensures LanesOk(Released(s, k))
  {
    var ids := LaneIds(s.inFlight);
    WithoutMirrors(ids, k);
    assert LaneIds(Released(s, k).inFlight) == Without(ids, k);
    assert ids[k] in s.lanes;
  }

  lemma WithoutMembers<T>(s: seq<T>, i: nat)
    requires i < |s|
    ensures forall x :: x in Without(s, i) ==> x in s
  {
  }

  lemma ReleaseKeepsAttempts(s: State, k: nat)
    requires AttemptsOk(s) && k < |s.inFlight|
    ensures AttemptsOk(Released(s, k))
  {
    WithoutMembers(s.inFlight, k);
  }

  lemma ReleaseKeepsAccounts(s: State, k: nat)
    requires AccountsOk(s) && InPhase(s, k, Settled)
    ensures AccountsOk(Released(s, k))
  {
    LiveAt(s.inFlight, k);
  }

  lemma ReleaseKeeps(s: State, k: nat)
    requires Valid(s) && InPhase(s, k, Settled)
    ensures Valid(Released(s, k))
  {
    ReleaseKeepsLanes(s, k);
    ReleaseKeepsAttempts(s, k);
    ReleaseKeepsAccounts(s, k);
  }

  lemma ShutDownKeeps(s: State)
    requires Valid(s)
    ensures Valid(ShutDown(s))
  {
    var s' := ShutDown(s);
    assert s'.dropped + s'.queue == s.dropped + s.queue;
  }

  lemma FailKeeps(s: State, k: nat, timedOut: bool)
    requires Valid(s) && InPhase(s, k, Running)
    ensures Valid(Failed(s, k, timedOut))
  {
    var f := s.inFlight[k];
    assert f in s.inFlight;
    if s.aborted && !timedOut {
      ReportKeeps(s, k, Cancelled, f.attempt);
    } else if f.attempt == s.options.maxAttempts {
      ReportKeeps(s, k, if timedOut then TimedOut else Abandoned, f.attempt);
    } else {
      MoveKeeps(s, k, f.(phase := BackingOff));
    }
  }

  lemma ResumeKeeps(s: State, k: nat)
    requires Valid(s) && InPhase(s, k, BackingOff)
    ensures Valid(Resumed(s, k))
  {
    if s.aborted {
      CancelKeeps(s, k);
    } else {
      NextAttemptKeeps(s, k);
    }
  }

  lemma CancelKeeps(s: State, k: nat)
    requires Valid(s) && InPhase(s, k, BackingOff)
    ensures Valid(Reported(s, k, Cancelled, s.inFlight[k].attempt + 1))
  {
    AttemptLeft(s, k);
    ReportKeeps(s, k, Cancelled, s.inFlight[k].attempt + 1);
  }

  lemma AttemptLeft(s: State, k: nat)
    requires AttemptsOk(s) && InPhase(s, k, BackingOff)
    ensures 1 <= s.inFlight[k].attempt < s.options.maxAttempts
  {
    assert s.inFlight[k] in s.inFlight;
  }

  lemma NextAttemptKeeps(s: State, k: nat)
    requires Valid(s) && InPhase(s, k, BackingOff)
    ensures Valid(s.(inFlight := s.inFlight[k := Flight(s.inFlight[k].job, Running, s.inFlight[k].attempt + 1)]))
  {
    AttemptLeft(s, k);
    MoveKeeps(s, k, Flight(s.inFlight[k].job, Running, s.inFlight[k].attempt + 1));
  }

  lemma OutcomeKeeps(s: State, k: nat, result: JobResult)
    requires Valid(s) && k < |s.inFlight| && s.inFlight[k].phase != Settled
    ensures Valid(Reported(s, k, result, s.inFlight[k].attempt))
  {
    assert s.inFlight[k] in s.inFlight;
    ReportKeeps(s, k, result, s.inFlight[k].attempt);
  }

  lemma FlightEventKeeps(s: State, e: Event)
    requires Valid(s) && Enabled(s, e) && (e.RunSucceeds? || e.RunFails? || e.SleepEnds? || e.SleepAborts?)
    ensures Valid(Next(s, e))
  {
    match e
    case RunSucceeds(k) => OutcomeKeeps(s, k, Succeeded);
    case SleepAborts(k) => OutcomeKeeps(s, k, Cancelled);
    case RunFails(k, timedOut) => FailKeeps(s, k, timedOut);
    case SleepEnds(k) => ResumeKeeps(s, k);
  }

  lemma NextKeeps(s: State, e: Event)
    requires Valid(s) && Enabled(s, e)
    ensures Valid(Next(s, e))
  {
    match e
    case Submit(job) => SubmitKeeps(s, job);
    case Pump => PumpKeeps(s);
    case CleanUp(k) =>
      ReleaseKeeps(s, k);
      if !s.draining {
        PumpKeeps(Released(s, k));
      }
    case Shutdown => ShutDownKeeps(s);
    case GraceElapses =>
    case _ => FlightEventKeeps(s, e);
  }

  lemma InitialValid(o: Options)
    ensures Valid(Initial(o))
  {
    var s := Initial(o);
    assert s.dropped + s.queue == [];
  }

  /** Safety of every interleaving of submissions, pumps, completions, retries and shutdown. */
  lemma {:induction false} RunsValid(o: Options, events: seq<Event>)
    ensures var s := After(o, events); s.Some? ==> Valid(s.value) && s.value.options == o
  {
    if events == [] {
      InitialValid(o);
    } else {
      RunsValid(o, events[..|events| - 1]);
      var s, e := After(o, events[..|events| - 1]), events[|events| - 1];
      if s.Some? && Enabled(s.value, e) {
        NextKeeps(s.value, e);
        OptionsFixed(s.value, e);
      }
    }
  }

  lemma {:induction false} PumpedOptions(s: State)
    ensures Pumped(s).options == s.options
    decreases |s.queue|
  {
    if |s.lanes| < s.options.maxConcurrency {
      var i := FirstFree(s.queue, s.lanes);
      if i.Some? {
        PumpedOptions(Started(s, i.value));
      }
    }
  }

  lemma OptionsFixed(s: State, e: Event)
    requires Enabled(s, e)
    ensures Next(s, e).options == s.options
  {
    match e
    case Submit(job) => SubmitTouches(s, job);
    case Pump => PumpedOptions(s);
    case CleanUp(k) => PumpedOptions(Released(s, k));
    case _ =>
  }

  // ---- what validity gives

  /** Every accepted job is in exactly one place: queued, live, reported or dropped by shutdown; unless the attempt budget is below one. */
  lemma AcceptedAccounted(s: State)
    requires Valid(s)
    ensures s.options.maxAttempts >= 1 ==>
              multiset(s.accepted) == multiset(s.queue) + Live(s.inFlight) + Told(s.outcomes) + multiset(s.dropped)
  {
    EachPlaced(s);
    assert multiset(s.dropped + s.queue) == multiset(s.dropped) + multiset(s.queue);
  }

  lemma EachPlaced(s: State)
    requires InOrder(s)
    ensures multiset(s.accepted) == multiset(s.started) + multiset(s.dropped + s.queue)
  {
    forall j ensures multiset(s.accepted)[j] == multiset(s.started)[j] + multiset(s.dropped + s.queue)[j] {
      var d := j.deploymentId;
      OfCounts(s.accepted, j);
      OfCounts(s.started, j);
      OfCounts(s.dropped + s.queue, j);
      assert OrderFor(d, s.accepted, s.started, s.dropped + s.queue);
      assert multiset(Of(d, s.started) + Of(d, s.dropped + s.queue))[j] == multiset(Of(d, s.started))[j] + multiset(Of(d, s.dropped + s.queue))[j];
    }
  }

  lemma {:induction false} OfCounts(s: seq<Job>, j: Job)
    ensures multiset(Of(j.deploymentId, s))[j] == multiset(s)[j]
  {
    if s != [] {
      var front, last := s[..|s| - 1], s[|s| - 1];
      OfCounts(front, j);
      assert s == front + [last];
      OfPush(j.deploymentId, front, last);
    }
  }

  /** With an attempt budget below one a started job is neither run nor reported: accounts balance exactly when none was started. */
  lemma VanishesWithoutAttempts(s: State)
    requires Valid(s)
    ensures Accounted(s) <==> s.options.maxAttempts >= 1 || s.started == []
  {
    if s.options.maxAttempts < 1 {
      assert Told(s.outcomes) == multiset{};
      assert s.started != [] ==> s.started[0] in multiset(s.started);
    }
  }

  /** Once the slots are filled, only a submission can leave a startable job waiting. */
  lemma FilledStays(s: State, e: Event)
    requires Valid(s) && Filled(s) && Enabled(s, e) && !e.Submit?
    ensures Filled(Next(s, e))
  {
    match e
    case Pump => PumpKeeps(s);
    case CleanUp(k) => CleanUpFills(s, k);
    case Shutdown =>
    case _ => LanesStay(s, e);
  }

  lemma CleanUpFills(s: State, k: nat)
    requires Valid(s) && InPhase(s, k, Settled)
    ensures Filled(CleanedUp(s, k))
  {
    ReleaseKeeps(s, k);
    PumpKeeps(Released(s, k));
  }

  lemma LanesStay(s: State, e: Event)
    requires Enabled(s, e) && !e.Submit? && !e.Pump? && !e.CleanUp? && !e.Shutdown?
    ensures var t := Next(s, e); t.lanes == s.lanes && t.queue == s.queue && t.started == s.started && t.options == s.options
  {
  }

  // ---- every flight ends

  function FlightWork(o: Options, f: Flight): int {
    match f.phase
    case Running => 2 * (o.maxAttempts - f.attempt) + 2
    case BackingOff => 2 * (o.maxAttempts - f.attempt) + 1
    case Settled => 1
  }

  function WorkLeft(o: Options, fl: seq<Flight>): int {
    if fl == [] then 0 else WorkLeft(o, fl[..|fl| - 1]) + FlightWork(o, fl[|fl| - 1])
  }

  lemma {:induction false} WorkAt(o: Options, fl: seq<Flight>, k: nat)
    requires k < |fl|
    ensures WorkLeft(o, fl) == WorkLeft(o, Without(fl, k)) + FlightWork(o, fl[k])
  {
    var n := |fl| - 1;
    WithoutLast(fl, k);
    if k < n {
      WorkAt(o, fl[..n], k);
      assert Without(fl, k)[..n - 1] == Without(fl[..n], k);
    }
  }

  lemma WorkUpdate(o: Options, fl: seq<Flight>, k: nat, f: Flight)
    requires k < |fl|
    ensures WorkLeft(o, fl[k := f]) == WorkLeft(o, fl) - FlightWork(o, fl[k]) + FlightWork(o, f)
  {
    WorkAt(o, fl, k);
    WorkAt(o, fl[k := f], k);
    assert Without(fl[k := f], k) == Without(fl, k);
  }

  predicate MovesFlight(e: Event) {
    e.RunSucceeds? || e.RunFails? || e.SleepEnds? || e.SleepAborts? || e.CleanUp?
  }

  /** What an event makes of its flight. */
  lemma MovedFlight(s: State, e: Event) returns (f: Flight)
    requires AttemptsOk(s) && Enabled(s, e) && MovesFlight(e) && !e.CleanUp?
    ensures Next(s, e).inFlight == s.inFlight[e.k := f] && FlightWork(s.options, f) < FlightWork(s.options, s.inFlight[e.k])
  {
    assert s.inFlight[e.k] in s.inFlight;
    f := Next(s, e).inFlight[e.k];
  }

  lemma MoveShrinks(s: State, e: Event)
    requires Valid(s) && Enabled(s, e) && MovesFlight(e) && !e.CleanUp?
    ensures WorkLeft(s.options, Next(s, e).inFlight) + 1 <= WorkLeft(s.options, s.inFlight)
  {
    var f := MovedFlight(s, e);
    WorkUpdate(s.options, s.inFlight, e.k, f);
  }

  lemma StillDraining(s: State, e: Event)
    requires Valid(s) && s.draining && Enabled(s, e)
    ensures Next(s, e).draining
    ensures !MovesFlight(e) ==> Next(s, e).inFlight == s.inFlight
  {
    assert FirstFree([], s.lanes).None?;
  }

  /** While draining, every event of a flight lowers the work left and nothing raises it. */
  lemma DrainingShrinks(s: State, e: Event)
    requires Valid(s) && s.draining && Enabled(s, e)
    ensures Next(s, e).draining
    ensures WorkLeft(s.options, Next(s, e).inFlight) + (if MovesFlight(e) then 1 else 0) <= WorkLeft(s.options, s.inFlight)
  {
    StillDraining(s, e);
    if e.CleanUp? {
      WorkAt(s.options, s.inFlight, e.k);
      assert Next(s, e).inFlight == Without(s.inFlight, e.k);
    } else if MovesFlight(e) {
      MoveShrinks(s, e);
    }
  }

  function Moves(events: seq<Event>): nat {
    if events == [] then 0 else Moves(events[..|events| - 1]) + (if MovesFlight(events[|events| - 1]) then 1 else 0)
  }

  lemma {:induction false} WorkNonNegative(o: Options, fl: seq<Flight>)
    requires forall f :: f in fl ==> FlightOk(o, f)
    ensures WorkLeft(o, fl) >= |fl|
  {
    if fl != [] {
      assert fl[|fl| - 1] in fl;
      assert forall f :: f in fl[..|fl| - 1] ==> f in fl;
      WorkNonNegative(o, fl[..|fl| - 1]);
    }
  }

  /** The most a job in flight can still do: run and back off on every attempt, and be cleaned up. */
  function MostWork(o: Options): nat {
    if o.maxAttempts < 1 then 1 else 2 * o.maxAttempts
  }

  lemma OneMoreTime(n: nat, m: nat)
    ensures (n + 1) * m == n * m + m
  {
  }

  lemma {:induction false} WorkAtMost(o: Options, fl: seq<Flight>)
    requires forall f :: f in fl ==> FlightOk(o, f)
    ensures WorkLeft(o, fl) <= |fl| * MostWork(o)
  {
    if fl != [] {
      var n := |fl| - 1;
      assert fl[n] in fl && FlightOk(o, fl[n]);
      assert forall f :: f in fl[..n] ==> f in fl;
      WorkAtMost(o, fl[..n]);
      assert FlightWork(o, fl[n]) <= MostWork(o);
      OneMoreTime(n, MostWork(o));
    }
  }

  lemma {:induction false} DrainingMoves(o: Options, before: seq<Event>, more: seq<Event>)
    requires After(o, before).Some? && After(o, before).value.draining && After(o, before + more).Some?
    ensures After(o, before + more).value.draining
    ensures Moves(more) + WorkLeft(o, After(o, before + more).value.inFlight) <= WorkLeft(o, After(o, before).value.inFlight)
  {
    if more == [] {
      assert before + more == before;
    } else {
      var n := |more| - 1;
      assert (before + more)[..|before + more| - 1] == before + more[..n];
      DrainingMoves(o, before, more[..n]);
      RunsValid(o, before + more[..n]);
      DrainingShrinks(After(o, before + more[..n]).value, more[n]);
    }
  }

  // After shutdown begins, the jobs in flight can take at most so many more steps together, whatever else happens: each of
  // them at most a run and a back-off per attempt, and there are never more of them than slots.
  lemma ShutdownIsBounded(o: Options, before: seq<Event>, more: seq<Event>)
    requires After(o, before).Some? && After(o, before).value.draining && After(o, before + more).Some?
    ensures After(o, before + more).value.draining
    ensures Moves(more) <= |After(o, before).value.inFlight| * MostWork(o)
    ensures AtMost(|After(o, before).value.inFlight|, o.maxConcurrency)
  {
    DrainingMoves(o, before, more);
    RunsValid(o, before);
    RunsValid(o, before + more);
    WorkNonNegative(o, After(o, before + more).value.inFlight);
    WorkAtMost(o, After(o, before).value.inFlight);
  }

  // ---- job keys

  /** Deployment ids without a blank keep job keys apart. */
  lemma JobKeyInjective(a: Job, b: Job)
    requires ' ' !in a.deploymentId && ' ' !in b.deploymentId
    ensures JobKey(a) == JobKey(b) <==> a == b
  {
    var x, y := a.deploymentId, b.deploymentId;
    if JobKey(a) == JobKey(b) {
      var k := JobKey(a);
      assert k[|x|] == ' ' && k[|y|] == ' ';
      forall i | 0 <= i < |x| ensures k[i] != ' ' {
        assert k[i] == x[i] && x[i] in x;
      }
      forall i | 0 <= i < |y| ensures k[i] != ' ' {
        assert k[i] == y[i] && y[i] in y;
      }
      assert k[..|x|] == x && k[..|y|] == y && k[|x| + 1..] == a.kind && k[|y| + 1..] == b.kind;
    }
  }
}
