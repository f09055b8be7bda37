/**
 What the hosted execution queue promises over whole runs.

 Every block rewrites some records itself (`Written`) and then claims at most one job
 (`StepShape`); the theorems follow one job's record through that pair of changes.
 */
module QueueTheorems {
  import opened Common
  import opened QueueModel
  import opened QueueInvariant

  // ---------------------------------------------------------------- one block's effect on the records

  function SettledJob(current: Job, outcome: ProcessorOutcome, r: Readings): Job {
    match outcome
    case Returned(result) =>
      if current.status == CancelRequested then CanceledJob(current, r.now) else SucceededJob(current, result)
    case Threw(error) =>
      if current.status == CancelRequested || current.cancelRequestedAt.Some? then CanceledJob(current, r.now)
      else FailedOrRetriedJob(current, error, r.now, r.retryMs)
  }

  function CancelWritten(job: Job, requester: Option<string>, reason: Option<string>, now: Time): Job {
    if job.status == Queued then CanceledBeforeDispatch(job, requester, reason, now)
    else if InFlight(job.status) then CancelStamped(job, requester, reason, now).(status := CancelRequested)
    else job
  }

  /** A settled processor was working on a claimed job, and that job has a record. */
  predicate SettlesKnownJob(s: State, e: Event) {
    e.SettleEvent? ==>
      e.k < |s.activations| && s.activations[e.k].AwaitingProcessor? && s.activations[e.k].id in s.jobs
  }

  /** The records after the block's own write and before any claim. */
  function Written(s: State, e: Event, r: Readings): map<JobId, Job>
    requires SettlesKnownJob(s, e)
  {
    match e
    case SubmitEvent(id, request, maxAttempts, _) => s.jobs[id := SubmittedJob(s.jobs, id, request, maxAttempts, r.now)]
    case CancelEvent(id, requester, reason) =>
      if id in s.jobs then s.jobs[id := CancelWritten(s.jobs[id], requester, reason, r.now)] else s.jobs
    case RequeueEvent(id, reset, limit) =>
      if RequeueCheck(s.jobs, id, reset, limit).Some? then s.jobs
      else s.jobs[id := RequeuedJob(s.jobs[id], reset, limit, r.now)]
    case HeartbeatEvent(id) =>
      if s.closed || id !in s.jobs || !InFlight(s.jobs[id].status) then s.jobs
      else s.jobs[id := s.jobs[id].(lastHeartbeatAt := Some(r.now), updatedAt := r.now)]
    case SettleEvent(k, outcome) =>
      s.jobs[s.activations[k].id := SettledJob(s.jobs[s.activations[k].id], outcome, r)]
    case RestartEvent(config, stamps) => Recovered(s.jobs, config.staleHeartbeatMs, r.now, stamps)
    case _ => s.jobs
  }

  /** The suspended loops the block leaves alone. */
  function Left(s: State, e: Event): seq<Activation>
    requires SettlesKnownJob(s, e)
  {
    match e
    case SettleEvent(k, _) => s.activations[k := LoopResumable]
    case ResumeEvent(k) => if k < |s.activations| then s.activations[..k] + s.activations[k + 1..] else s.activations
    case RestartEvent(_, _) => []
    case _ => s.activations
  }

  predicate ClaimsFrom(jobs: map<JobId, Job>, left: seq<Activation>, before: seq<JobId>, t: State, c: Option<JobId>,
                       r: Readings) {
    match c
    case None => t.jobs == jobs && t.activations == left && t.claims == before
    case Some(id) =>
      && IsFirst(jobs, DueIds(jobs, r.claimMs), id)
      && var job := ClaimedJob(jobs[id], t.config.instanceId, r.claimedAt);
         && t.jobs == jobs[id := job]
         && t.activations == left + [AwaitingProcessor(id, job)]
         && t.claims == before + [id]
  }

  lemma TurnClaims(s: State, r: Readings) returns (c: Option<JobId>)
    ensures ClaimsFrom(s.jobs, s.activations, s.claims, LoopTurn(s, r), c, r)
  {
    if s.closed {
      c := None;
    } else {
      c := NextJob(s.jobs, r.claimMs);
    }
  }

  lemma PokeClaims(s: State, r: Readings) returns (c: Option<JobId>)
    ensures ClaimsFrom(s.jobs, s.activations, s.claims, Poke(s, r), c, r)
  {
    c := None;
    if !s.closed && !s.running {
      c := TurnClaims(s.(timer := None, wakeRequested := true, running := true), r);
    }
  }

  lemma PutShape(s: State, id: JobId, job: Job)
    ensures var put := PutAndNotify(s, id, job);
            put.jobs == s.jobs[id := job] && put.claims == s.claims && put.activations == s.activations
  {
  }

  lemma PutPokeClaims(s: State, id: JobId, job: Job, r: Readings) returns (c: Option<JobId>)
    ensures ClaimsFrom(s.jobs[id := job], s.activations, s.claims, Poke(PutAndNotify(s, id, job), r), c, r)
  {
    PutShape(s, id, job);
    c := PokeClaims(PutAndNotify(s, id, job), r);
  }

  lemma WaitShape(s: State, id: JobId, w: WaiterId)
    ensures var t := WaitForTerminal(s, id, w);
            t.jobs == s.jobs && t.claims == s.claims && t.config == s.config && t.activations == s.activations
  {
  }

  lemma SubmitShape(s: State, e: Event, r: Readings) returns (c: Option<JobId>)
    requires Enabled(s, e, r) && e.SubmitEvent?
    ensures ClaimsFrom(Written(s, e, r), Left(s, e), s.claims, Step(s, e, r), c, r)
  {
    hide PutAndNotify;
    hide Poke;
    hide WaitForTerminal;
    var job := SubmittedJob(s.jobs, e.id, e.request, e.maxAttempts, r.now);
    c := PutPokeClaims(s, e.id, job, r);
    WaitShape(Poke(PutAndNotify(s, e.id, job), r), e.id, e.waiter);
  }

  lemma CancelShape(s: State, e: Event, r: Readings)
    requires Enabled(s, e, r) && e.CancelEvent?
    ensures ClaimsFrom(Written(s, e, r), Left(s, e), s.claims, Step(s, e, r), None, r)
  {
    hide PutAndNotify;
    if e.id in s.jobs {
      assert s.jobs == s.jobs[e.id := s.jobs[e.id]];
      var aborted := s.(controllers := if e.id in s.controllers then s.controllers[e.id := true] else s.controllers);
      PutShape(s, e.id, CancelWritten(s.jobs[e.id], e.requester, e.reason, r.now));
      PutShape(aborted, e.id, CancelWritten(s.jobs[e.id], e.requester, e.reason, r.now));
    }
  }

  lemma RequeueShape(s: State, e: Event, r: Readings) returns (c: Option<JobId>)
    requires Enabled(s, e, r) && e.RequeueEvent?
    ensures ClaimsFrom(Written(s, e, r), Left(s, e), s.claims, Step(s, e, r), c, r)
  {
    hide PutAndNotify;
    hide Poke;
    c := None;
    if RequeueCheck(s.jobs, e.id, e.reset, e.limit).None? {
      c := PutPokeClaims(s, e.id, RequeuedJob(s.jobs[e.id], e.reset, e.limit, r.now), r);
    }
  }

  lemma HeartbeatShape(s: State, e: Event, r: Readings)
    requires Enabled(s, e, r) && e.HeartbeatEvent?
    ensures ClaimsFrom(Written(s, e, r), Left(s, e), s.claims, Step(s, e, r), None, r)
  {
    hide PutAndNotify;
    if e.id in s.jobs {
      PutShape(s, e.id, s.jobs[e.id].(lastHeartbeatAt := Some(r.now), updatedAt := r.now));
    }
  }

  lemma SettleShape(s: State, e: Event, r: Readings) returns (c: Option<JobId>)
    requires Enabled(s, e, r) && e.SettleEvent? && SettlesKnownJob(s, e)
    ensures ClaimsFrom(Written(s, e, r), Left(s, e), s.claims, Step(s, e, r), c, r)
  {
    hide PutAndNotify;
    hide Poke;
    c := None;
    var done, id := Finished(s, e.k), s.activations[e.k].id;
    var job := SettledJob(s.jobs[id], e.outcome, r);
    PutShape(done, id, job);
    if job.status == Queued {
      c := PutPokeClaims(done, id, job, r);
    }
  }

  lemma ResumeShape(s: State, e: Event, r: Readings) returns (c: Option<JobId>)
    requires Enabled(s, e, r) && e.ResumeEvent?
    ensures ClaimsFrom(Written(s, e, r), Left(s, e), s.claims, Step(s, e, r), c, r)
  {
    hide LoopTurn;
    c := TurnClaims(s.(activations := s.activations[..e.k] + s.activations[e.k + 1..]), r);
  }

  lemma RestartShape(s: State, e: Event, r: Readings) returns (c: Option<JobId>)
    requires Enabled(s, e, r) && e.RestartEvent?
    ensures ClaimsFrom(Written(s, e, r), Left(s, e), s.claims, Step(s, e, r), c, r)
  {
    hide Poke;
    var boot := Boot(e.config, s.jobs, s.settled, s.clock, s.claims);
    c := PokeClaims(boot.(jobs := Written(s, e, r)), r);
  }

  lemma TimerShape(s: State, e: Event, r: Readings) returns (c: Option<JobId>)
    requires Enabled(s, e, r) && e.TimerEvent?
    ensures ClaimsFrom(Written(s, e, r), Left(s, e), s.claims, Step(s, e, r), c, r)
  {
    hide Poke;
    c := PokeClaims(s.(timer := None), r);
  }

  lemma CloseShape(s: State, e: Event, r: Readings)
    requires Enabled(s, e, r) && e.CloseEvent?
    ensures ClaimsFrom(Written(s, e, r), Left(s, e), s.claims, Step(s, e, r), None, r)
  {
  }

  lemma StepShape(s: State, e: Event, r: Readings) returns (c: Option<JobId>)
    requires Enabled(s, e, r) && SettlesKnownJob(s, e)
    ensures ClaimsFrom(Written(s, e, r), Left(s, e), s.claims, Step(s, e, r), c, r)
  {
    hide Step;
    hide Written;
    hide ClaimsFrom;
    c := None;
    match e
    case SubmitEvent(_, _, _, _) => c := SubmitShape(s, e, r);
    case CancelEvent(_, _, _) => CancelShape(s, e, r);
    case RequeueEvent(_, _, _) => c := RequeueShape(s, e, r);
    case HeartbeatEvent(_) => HeartbeatShape(s, e, r);
    case SettleEvent(_, _) => c := SettleShape(s, e, r);
    case ResumeEvent(_) => c := ResumeShape(s, e, r);
    case TimerEvent => c := TimerShape(s, e, r);
    case CloseEvent => CloseShape(s, e, r);
    case RestartEvent(_, _) => c := RestartShape(s, e, r);
  }

  // ---------------------------------------------------------------- cancellation wins

  ghost predicate Doomed(s: State, id: JobId) {
    id in s.jobs && (s.jobs[id].status == CancelRequested || s.jobs[id].status == Canceled)
  }

  lemma DoomedWritten(s: State, e: Event, r: Readings, id: JobId)
    requires Inv(s) && Enabled(s, e, r) && Doomed(s, id)
    ensures id in Written(s, e, r)
    ensures var job := Written(s, e, r)[id];
            job.status == Canceled || (job.status == CancelRequested && s.jobs[id].status == CancelRequested)
  {
  }

  lemma DoomedAfter(jobs: map<JobId, Job>, left: seq<Activation>, before: seq<JobId>, t: State,
                    c: Option<JobId>, r: Readings, id: JobId)
    requires ClaimsFrom(jobs, left, before, t, c, r) && id in jobs && jobs[id].status != Queued
    ensures id in t.jobs && t.jobs[id] == jobs[id]
  {
  }

  lemma DoomedStep(s: State, e: Event, r: Readings, id: JobId)
    requires Inv(s) && Enabled(s, e, r) && Doomed(s, id)
    ensures Doomed(Step(s, e, r), id)
    ensures s.jobs[id].status == Canceled ==> Step(s, e, r).jobs[id].status == Canceled
  {
    hide Step;
    hide Written;
    var c := StepShape(s, e, r);
    DoomedWritten(s, e, r, id);
    DoomedAfter(Written(s, e, r), Left(s, e), s.claims, Step(s, e, r), c, r, id);
  }

  lemma {:induction false} DoomedRun(s: State, run: seq<Moment>, id: JobId)
    requires Inv(s) && Possible(s, run) && Doomed(s, id)
    ensures Doomed(Exec(s, run), id)
    ensures s.jobs[id].status == Canceled ==> Exec(s, run).jobs[id].status == Canceled
    decreases |run|
  {
    if run != [] {
      var e, r := run[0].event, run[0].readings;
      DoomedStep(s, e, r, id);
      StepKeeps(s, e, r);
      DoomedRun(Step(s, e, r), run[1..], id);
    }
  }

  lemma CancelDooms(s: State, e: Event, r: Readings)
    requires Enabled(s, e, r) && e.CancelEvent?
    requires e.id in s.jobs && !IsTerminal(s.jobs[e.id].status)
    ensures Doomed(Step(s, e, r), e.id)
    ensures s.jobs[e.id].status == Queued ==> Step(s, e, r).jobs[e.id].status == Canceled
  {
    CancelShape(s, e, r);
    hide Step;
  }

  /** Once an operator cancels a job that is not yet terminal, no later block ever revives it. */
  lemma CancellationWins(s: State, e: Event, r: Readings, run: seq<Moment>)
    requires Inv(s) && Enabled(s, e, r) && e.CancelEvent?
    requires e.id in s.jobs && !IsTerminal(s.jobs[e.id].status)
    requires Possible(Step(s, e, r), run)
    ensures Doomed(Exec(Step(s, e, r), run), e.id)
    ensures s.jobs[e.id].status == Queued ==> Exec(Step(s, e, r), run).jobs[e.id].status == Canceled
  {
    StepKeeps(s, e, r);
    CancelDooms(s, e, r);
    DoomedRun(Step(s, e, r), run, e.id);
  }

  // ---------------------------------------------------------------- the retry budget

  /** How often a job can still be claimed without an operator stepping in. */
  function Budget(job: Job): nat {
    if job.status == Queued then Max(1, job.maxAttempts - job.attemptCount)
    else if job.status == Running then Max(0, job.maxAttempts - job.attemptCount)
    else 0
  }

  /** Not an operator requeue of this job, nor a resubmission that changes its limit. */
  predicate KeepsLimit(s: State, e: Event, id: JobId) {
    && !(e.RequeueEvent? && e.id == id)
    && (e.SubmitEvent? && e.id == id && id in s.jobs ==> e.maxAttempts == s.jobs[id].maxAttempts)
  }

  function ClaimsOf(claims: seq<JobId>, id: JobId): nat {
    if claims == [] then 0
    else ClaimsOf(claims[..|claims| - 1], id) + if claims[|claims| - 1] == id then 1 else 0
  }

  lemma BudgetWritten(s: State, e: Event, r: Readings, id: JobId)
    requires Inv(s) && Enabled(s, e, r) && id in s.jobs && KeepsLimit(s, e, id)
    ensures id in Written(s, e, r)
    ensures Budget(Written(s, e, r)[id]) <= Budget(s.jobs[id])
  {
  }

  lemma BudgetAfter(jobs: map<JobId, Job>, left: seq<Activation>, before: seq<JobId>, t: State,
                    c: Option<JobId>, r: Readings, id: JobId)
    requires ClaimsFrom(jobs, left, before, t, c, r) && id in jobs
    ensures id in t.jobs
    ensures ClaimsOf(t.claims, id) + Budget(t.jobs[id]) <= ClaimsOf(before, id) + Budget(jobs[id])
  {
    if c.Some? {
      assert (before + [c.value])[..|before|] == before;
    }
  }

  lemma BudgetStep(s: State, e: Event, r: Readings, id: JobId)
    requires Inv(s) && Enabled(s, e, r) && id in s.jobs && KeepsLimit(s, e, id)
    ensures var t := Step(s, e, r);
            && id in t.jobs
            && ClaimsOf(t.claims, id) + Budget(t.jobs[id]) <= ClaimsOf(s.claims, id) + Budget(s.jobs[id])
  {
    hide Step;
    hide Written;
    var c := StepShape(s, e, r);
    BudgetWritten(s, e, r, id);
    BudgetAfter(Written(s, e, r), Left(s, e), s.claims, Step(s, e, r), c, r, id);
  }

  ghost predicate LimitKept(s: State, run: seq<Moment>, id: JobId)
    requires Possible(s, run)
    decreases |run|
  {
    run == [] ||
    (KeepsLimit(s, run[0].event, id)
     && LimitKept(Step(s, run[0].event, run[0].readings), run[1..], id))
  }

  lemma {:induction false} BudgetRun(s: State, run: seq<Moment>, id: JobId)
    requires Inv(s) && Possible(s, run) && id in s.jobs && LimitKept(s, run, id)
    ensures var t := Exec(s, run);
            id in t.jobs
            && ClaimsOf(t.claims, id) + Budget(t.jobs[id]) <= ClaimsOf(s.claims, id) + Budget(s.jobs[id])
    decreases |run|
  {
    if run != [] {
      var e, r := run[0].event, run[0].readings;
      BudgetStep(s, e, r, id);
      StepKeeps(s, e, r);
      BudgetRun(Step(s, e, r), run[1..], id);
    }
  }

  /** Failures, retries and restarts together claim a queued job at most max(1, limit - attempts) times. */
  lemma RetryBudget(s: State, run: seq<Moment>, id: JobId)
    requires Inv(s) && Possible(s, run) && LimitKept(s, run, id)
    requires id in s.jobs && s.jobs[id].status == Queued
    ensures ClaimsOf(Exec(s, run).claims, id) - ClaimsOf(s.claims, id)
            <= Max(1, s.jobs[id].maxAttempts - s.jobs[id].attemptCount)
  {
    BudgetRun(s, run, id);
  }

  /** A queued job has an attempt left; any other is at most one attempt over its limit. */
  ghost predicate AttemptsOk(job: Job) {
    job.attemptCount <= job.maxAttempts + if job.status == Queued then 0 else 1
  }

  predicate NoLimitChange(s: State, e: Event) {
    e.SubmitEvent? && e.id in s.jobs ==> e.maxAttempts == s.jobs[e.id].maxAttempts
  }

  lemma AttemptsWritten(s: State, e: Event, r: Readings, id: JobId)
    requires Inv(s) && Enabled(s, e, r) && NoLimitChange(s, e)
    requires id in Written(s, e, r) && (id in s.jobs ==> AttemptsOk(s.jobs[id]))
    ensures AttemptsOk(Written(s, e, r)[id])
  {
  }

  lemma AttemptsAfter(jobs: map<JobId, Job>, left: seq<Activation>, before: seq<JobId>, t: State,
                      c: Option<JobId>, r: Readings)
    requires ClaimsFrom(jobs, left, before, t, c, r)
    requires forall id :: id in jobs ==> AttemptsOk(jobs[id])
    ensures forall id :: id in t.jobs ==> AttemptsOk(t.jobs[id])
  {
  }

  /** One more claim after an operator requeue is the only way over the limit. */
  lemma AttemptCeiling(s: State, e: Event, r: Readings)
    requires Inv(s) && Enabled(s, e, r) && NoLimitChange(s, e)
    requires forall id :: id in s.jobs ==> AttemptsOk(s.jobs[id])
    ensures forall id :: id in Step(s, e, r).jobs ==> AttemptsOk(Step(s, e, r).jobs[id])
  {
    var c := StepShape(s, e, r);
    var written := Written(s, e, r);
    forall id | id in written ensures AttemptsOk(written[id]) {
      AttemptsWritten(s, e, r, id);
    }
    AttemptsAfter(written, Left(s, e), s.claims, Step(s, e, r), c, r);
  }

  ghost predicate LimitsKept(s: State, run: seq<Moment>)
    requires Possible(s, run)
    decreases |run|
  {
    run == [] ||
    (NoLimitChange(s, run[0].event) && LimitsKept(Step(s, run[0].event, run[0].readings), run[1..]))
  }

  lemma {:induction false} AttemptCeilingRun(s: State, run: seq<Moment>, id: JobId)
    requires Inv(s) && Possible(s, run) && LimitsKept(s, run)
    requires forall k :: k in s.jobs ==> AttemptsOk(s.jobs[k])
    ensures id in Exec(s, run).jobs ==> AttemptsOk(Exec(s, run).jobs[id])
    decreases |run|
  {
    if run != [] {
      var e, r := run[0].event, run[0].readings;
      AttemptCeiling(s, e, r);
      StepKeeps(s, e, r);
      hide Step;
      AttemptCeilingRun(Step(s, e, r), run[1..], id);
    }
  }

  // ---------------------------------------------------------------- bounded overtaking

  ghost predicate IsQueued(s: State, id: JobId) {
    id in s.jobs && s.jobs[id].status == Queued
  }

  /** The other queued jobs whose turn is not after that of `id`. */
  function Ahead(jobs: map<JobId, Job>, id: JobId): set<JobId>
    requires id in jobs
  {
    set k | k in jobs && k != id && jobs[k].status == Queued && jobs[k].nextAttemptAt <= jobs[id].nextAttemptAt
  }

  /** A queued job's own date never moves while it stays queued. */
  lemma DateKept(s: State, e: Event, r: Readings, id: JobId)
    requires Inv(s) && Enabled(s, e, r) && IsQueued(s, id)
    ensures id in Written(s, e, r)
    ensures var job := Written(s, e, r)[id];
            (job.status == Queued && job.nextAttemptAt == s.jobs[id].nextAttemptAt) || job.status == Canceled
  {
  }

  /** Whoever enters the queue gets a date no earlier than the present. */
  lemma NewcomersAreLater(s: State, e: Event, r: Readings, k: JobId)
    requires Inv(s) && Enabled(s, e, r)
    requires k in Written(s, e, r) && Written(s, e, r)[k].status == Queued
    ensures Written(s, e, r)[k].nextAttemptAt >= s.clock
            || (IsQueued(s, k) && Written(s, e, r)[k].nextAttemptAt == s.jobs[k].nextAttemptAt)
  {
    RetryDelayBounds(if k in s.jobs then s.jobs[k].attemptCount else 0);
  }

  lemma AheadWritten(s: State, e: Event, r: Readings, id: JobId)
    requires Inv(s) && Enabled(s, e, r)
    requires IsQueued(s, id) && s.jobs[id].nextAttemptAt < s.clock
    ensures id in Written(s, e, r)
    ensures var job := Written(s, e, r)[id];
            job.status == Canceled
            || (job.status == Queued && job.nextAttemptAt == s.jobs[id].nextAttemptAt
                && Ahead(Written(s, e, r), id) <= Ahead(s.jobs, id))
  {
    var written := Written(s, e, r);
    DateKept(s, e, r, id);
    forall k | k in written && written[k].status == Queued ensures
        written[k].nextAttemptAt >= s.clock
        || (IsQueued(s, k) && written[k].nextAttemptAt == s.jobs[k].nextAttemptAt)
    {
      NewcomersAreLater(s, e, r, k);
    }
  }

  lemma AheadAfter(jobs: map<JobId, Job>, left: seq<Activation>, before: seq<JobId>, t: State,
                   c: Option<JobId>, r: Readings, id: JobId)
    requires ClaimsFrom(jobs, left, before, t, c, r)
    requires id in jobs && jobs[id].nextAttemptAt <= r.claimMs
    requires id in t.jobs && t.jobs[id].status == Queued
    ensures jobs[id].status == Queued && t.jobs[id] == jobs[id]
    ensures Ahead(t.jobs, id) <= Ahead(jobs, id)
    ensures c.Some? ==> c.value in Ahead(jobs, id) && c.value !in Ahead(t.jobs, id)
  {
    if c.Some? {
      assert id in DueIds(jobs, r.claimMs);
      assert Before(jobs, c.value, id);
    }
  }

  lemma OvertakingStep(s: State, e: Event, r: Readings, id: JobId) returns (c: Option<JobId>)
    requires Inv(s) && Enabled(s, e, r)
    requires IsQueued(s, id) && s.jobs[id].nextAttemptAt < s.clock
    requires IsQueued(Step(s, e, r), id)
    ensures var t := Step(s, e, r);
            && t.jobs[id].nextAttemptAt == s.jobs[id].nextAttemptAt
            && Ahead(t.jobs, id) <= Ahead(s.jobs, id)
            && t.claims == s.claims + (if c.Some? then [c.value] else [])
            && (c.Some? ==> c.value in Ahead(s.jobs, id) && c.value !in Ahead(t.jobs, id))
  {
    hide Step;
    hide Written;
    c := StepShape(s, e, r);
    AheadWritten(s, e, r, id);
    AheadAfter(Written(s, e, r), Left(s, e), s.claims, Step(s, e, r), c, r, id);
  }

  ghost predicate StaysQueued(s: State, run: seq<Moment>, id: JobId)
    requires Possible(s, run)
    decreases |run|
  {
    IsQueued(s, id) && (run == [] || StaysQueued(Step(s, run[0].event, run[0].readings), run[1..], id))
  }

  predicate NoDuplicates(ids: seq<JobId>) {
    forall i, j :: 0 <= i < j < |ids| ==> ids[i] != ids[j]
  }

  /**
   While a job that fell due waits, the jobs claimed are distinct and were all queued
   ahead of it at the beginning: at most |Ahead| claims can overtake it.
   */
  lemma {:induction false} BoundedOvertaking(s: State, run: seq<Moment>, id: JobId) returns (overtakers: seq<JobId>)
    requires Inv(s) && Possible(s, run) && StaysQueued(s, run, id)
    requires s.jobs[id].nextAttemptAt < s.clock
    ensures Exec(s, run).claims == s.claims + overtakers
    ensures NoDuplicates(overtakers) && (forall k :: k in overtakers ==> k in Ahead(s.jobs, id))
    ensures |overtakers| <= |Ahead(s.jobs, id)|
    decreases |run|
  {
    hide Step;
    hide Inv;
    hide Enabled;
    if run == [] {
      overtakers := [];
    } else {
      var e, r := run[0].event, run[0].readings;
      var c := OvertakingStep(s, e, r, id);
      StepKeeps(s, e, r);
      ClockGrows(s, e, r);
      var rest := BoundedOvertaking(Step(s, e, r), run[1..], id);
      overtakers := AddOvertaker(Ahead(s.jobs, id), Ahead(Step(s, e, r).jobs, id), c, rest);
      assert s.claims + (if c.Some? then [c.value] else []) + rest == s.claims + overtakers;
    }
  }

  lemma ClockGrows(s: State, e: Event, r: Readings)
    requires Enabled(s, e, r)
    ensures Step(s, e, r).clock == r.scheduleMs >= s.clock
  {
  }

  lemma AddOvertaker(before: set<JobId>, after: set<JobId>, c: Option<JobId>, rest: seq<JobId>)
      returns (all: seq<JobId>)
    requires after <= before && (c.Some? ==> c.value in before && c.value !in after)
    requires NoDuplicates(rest) && (forall k :: k in rest ==> k in after) && |rest| <= |after|
    ensures all == (if c.Some? then [c.value] else []) + rest
    ensures NoDuplicates(all) && (forall k :: k in all ==> k in before) && |all| <= |before|
  {
    all := (if c.Some? then [c.value] else []) + rest;
    SubsetSize(after, if c.Some? then before - {c.value} else before);
  }

  lemma {:induction false} SubsetSize(a: set<JobId>, b: set<JobId>)
    requires a <= b
    ensures |a| <= |b|
  {
    if x :| x in a {
      SubsetSize(a - {x}, b - {x});
    }
  }

  // ---------------------------------------------------------------- retry delays

  lemma {:induction false} Pow2Grows(m: nat, n: nat)
    requires m <= n
    ensures 1 <= Pow2(m) <= Pow2(n)
    decreases n
  {
    if m < n {
      Pow2Grows(m, n - 1);
    } else if n > 0 {
      Pow2Grows(n - 1, n - 1);
    }
  }

  lemma RetryDelayBounds(attempts: nat)
    ensures 200 <= RetryDelay(attempts) <= 2000
  {
    Pow2Grows(0, Max(0, attempts - 1));
  }

  lemma RetryDelayGrows(fewer: nat, more: nat)
    requires fewer <= more
    ensures RetryDelay(fewer) <= RetryDelay(more)
  {
    Pow2Grows(Max(0, fewer - 1), Max(0, more - 1));
  }

  // ---------------------------------------------------------------- wake-ups

  /** Over any well-shaped registry, whatever a started queue goes through satisfies the invariant. */
  lemma StartedRunsKeep(config: Config, jobs: map<JobId, Job>, stamps: JobId -> Time, r: Readings, run: seq<Moment>)
    requires RecordsOk(jobs) && Monotone(r.now, r)
    requires forall id :: r.now <= stamps(id) <= r.claimMs
    requires Possible(Step(Boot(config, jobs, map[], r.now, []), RestartEvent(config, stamps), r), run)
    ensures Inv(Exec(Step(Boot(config, jobs, map[], r.now, []), RestartEvent(config, stamps), r), run))
  {
    var before := Boot(config, jobs, map[], r.now, []);
    RestartKeeps(before, RestartEvent(config, stamps), r);
    RunKeeps(Step(before, RestartEvent(config, stamps), r), run);
  }

  /** In every reachable open and idle state the timer covers every queued job, and there is one loop at most. */
  lemma NoLostWakeUp(s: State, run: seq<Moment>, id: JobId)
    requires Inv(s) && Possible(s, run)
    ensures var t := Exec(s, run);
            && |t.activations| <= 1 && |t.controllers| <= 1
            && (!t.closed && !t.running && IsQueued(t, id) ==>
                  t.timer.Some? && t.timer.value <= Max(t.jobs[id].nextAttemptAt, t.clock))
  {
    RunKeeps(s, run);
    var t := Exec(s, run);
    assert t.controllers == map[] || exists k :: t.controllers.Keys == {k};
    assert |t.controllers| == |t.controllers.Keys|;
  }

  /** When the timer of an idle queue may fire and something is due, firing it claims the first due job. */
  lemma WakeUpClaims(s: State, r: Readings, id: JobId)
    requires Inv(s) && !s.closed && !s.running && Monotone(s.clock, r)
    requires IsQueued(s, id) && s.jobs[id].nextAttemptAt <= r.now
    ensures Enabled(s, TimerEvent, r)
    ensures var t := Step(s, TimerEvent, r);
            t.running && exists k :: IsFirst(s.jobs, DueIds(s.jobs, r.claimMs), k) && t.claims == s.claims + [k]
  {
    assert id in DueIds(s.jobs, r.claimMs);
    var c := PokeClaims(s.(timer := None), r);
    assert NextJob(s.jobs, r.claimMs).Some?;
  }
}
