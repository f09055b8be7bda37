/**
 What every block of the hosted execution queue keeps, whatever order the blocks come in.
 */
module QueueInvariant {
  import opened Common
  import opened QueueModel

  // ---------------------------------------------------------------- the invariant

  predicate InFlight(status: Status) {
    status == Running || status == CancelRequested
  }

  predicate WellShaped(job: Job) {
    && (job.result.Some? <==> job.status == Succeeded)
    && (job.claimedBy.Some? <==> InFlight(job.status))
    && (job.claimedAt.Some? <==> InFlight(job.status))
    && (job.completedAt.Some? <==> IsTerminal(job.status))
    && (job.canceledAt.Some? <==> job.status == Canceled)
    && (job.cancelRequestedAt.Some? <==> job.status == CancelRequested || job.status == Canceled)
    && (job.status == Succeeded ==> job.lastError.None?)
    && (job.status == Canceled ==> job.lastError == Some(JobError(Conflict, false)))
  }

  ghost predicate RecordsOk(jobs: map<JobId, Job>) {
    forall id :: id in jobs ==> WellShaped(jobs[id])
  }

  /** A pending promise belongs to one live job, and nothing is pending once the queue is closed. */
  ghost predicate WaitersOk(jobs: map<JobId, Job>, waiters: map<JobId, set<WaiterId>>,
                            settled: map<WaiterId, Outcome>, closed: bool) {
    && (forall id :: id in waiters ==>
          waiters[id] != {} && id in jobs && !IsTerminal(jobs[id].status) && waiters[id] !! settled.Keys)
    && (forall a, b :: a in waiters && b in waiters && a != b ==> waiters[a] !! waiters[b])
    && (closed ==> waiters == map[])
  }

  /** One loop at most, with at most one claimed job, whose record still says so. */
  ghost predicate LoopOk(jobs: map<JobId, Job>, running: bool, activations: seq<Activation>,
                         controllers: map<JobId, bool>) {
    && |activations| <= 1
    && (running <==> |activations| == 1)
    && (|activations| == 1 && activations[0].AwaitingProcessor? ==>
          var id := activations[0].id;
          controllers.Keys == {id} && id in jobs && InFlight(jobs[id].status))
    && (activations == [] || activations[0].LoopResumable? ==> controllers == map[])
  }

  /** An open idle queue has its timer armed no later than the first queued job, or than now. */
  ghost predicate WakeOk(jobs: map<JobId, Job>, timer: Option<Time>, running: bool, closed: bool, clock: Time) {
    && (timer.Some? ==> !running && !closed)
    && (!closed && !running ==>
          forall id :: id in jobs && jobs[id].status == Queued ==>
            timer.Some? && timer.value <= Max(jobs[id].nextAttemptAt, clock))
  }

  ghost predicate RecordsAndWaitersOk(s: State) {
    RecordsOk(s.jobs) && WaitersOk(s.jobs, s.waiters, s.settled, s.closed)
  }

  ghost predicate Inv(s: State) {
    && RecordsAndWaitersOk(s)
    && LoopOk(s.jobs, s.running, s.activations, s.controllers)
    && WakeOk(s.jobs, s.timer, s.running, s.closed, s.clock)
  }

  // ---------------------------------------------------------------- building blocks

  lemma RecordPut(jobs: map<JobId, Job>, id: JobId, job: Job)
    requires RecordsOk(jobs) && WellShaped(job)
    ensures RecordsOk(jobs[id := job])
  {
  }

  lemma WaitersAfterPut(jobs: map<JobId, Job>, waiters: map<JobId, set<WaiterId>>, settled: map<WaiterId, Outcome>,
                        closed: bool, id: JobId, job: Job)
    requires WaitersOk(jobs, waiters, settled, closed)
    requires id in waiters ==> !IsTerminal(job.status)
    ensures WaitersOk(jobs[id := job], waiters, settled, closed)
  {
  }

  lemma WaitersAfterSettling(jobs: map<JobId, Job>, waiters: map<JobId, set<WaiterId>>,
                             settled: map<WaiterId, Outcome>, id: JobId, outcome: Outcome)
    requires WaitersOk(jobs, waiters, settled, false) && id in waiters
    ensures WaitersOk(jobs, waiters - {id}, settled + map w | w in waiters[id] :: outcome, false)
  {
    var left := waiters - {id};
    var now := settled + map w | w in waiters[id] :: outcome;
    forall k | k in left
      ensures left[k] != {} && k in jobs && !IsTerminal(jobs[k].status) && left[k] !! now.Keys
    {
      assert left[k] == waiters[k] && waiters[k] !! waiters[id];
    }
  }

  lemma PutKeeps(s: State, id: JobId, job: Job)
    requires RecordsAndWaitersOk(s) && WellShaped(job)
    ensures var t := PutAndNotify(s, id, job);
            && RecordsAndWaitersOk(t)
            && t.jobs == s.jobs[id := job]
            && t == s.(jobs := t.jobs, waiters := t.waiters, settled := t.settled)
  {
    RecordPut(s.jobs, id, job);
    if id in s.waiters && IsTerminal(job.status) {
      var settled := s.settled + map w | w in s.waiters[id] :: ResolveTerminal(job);
      WaitersAfterSettling(s.jobs, s.waiters, s.settled, id, ResolveTerminal(job));
      WaitersAfterPut(s.jobs, s.waiters - {id}, settled, false, id, job);
    } else {
      WaitersAfterPut(s.jobs, s.waiters, s.settled, s.closed, id, job);
    }
  }

  lemma LoopAfterPut(jobs: map<JobId, Job>, running: bool, activations: seq<Activation>,
                     controllers: map<JobId, bool>, id: JobId, job: Job)
    requires LoopOk(jobs, running, activations, controllers)
    requires id in jobs && InFlight(jobs[id].status) ==> InFlight(job.status)
    ensures LoopOk(jobs[id := job], running, activations, controllers)
  {
  }

  lemma WakeAfterPut(jobs: map<JobId, Job>, timer: Option<Time>, running: bool, closed: bool, clock: Time,
                     id: JobId, job: Job, later: Time)
    requires WakeOk(jobs, timer, running, closed, clock) && clock <= later
    requires job.status == Queued ==> running || closed
    ensures WakeOk(jobs[id := job], timer, running, closed, later)
  {
  }

  /** Rewriting a record that is not put back into the queue keeps the whole invariant. */
  lemma QuietPutKeeps(s: State, id: JobId, job: Job, later: Time)
    requires Inv(s) && WellShaped(job) && s.clock <= later
    requires id in s.jobs && InFlight(s.jobs[id].status) ==> InFlight(job.status)
    requires job.status != Queued
    ensures Inv(PutAndNotify(s, id, job).(clock := later))
  {
    PutKeeps(s, id, job);
    LoopAfterPut(s.jobs, s.running, s.activations, s.controllers, id, job);
    WakeAfterPut(s.jobs, s.timer, s.running, s.closed, s.clock, id, job, later);
  }

  lemma TurnKeeps(s: State, r: Readings)
    requires RecordsAndWaitersOk(s)
    requires s.running && s.activations == [] && s.controllers == map[] && s.timer.None?
    requires Monotone(s.clock, r)
    ensures Inv(LoopTurn(s, r).(clock := r.scheduleMs))
  {
    if !s.closed {
      var awake := s.(wakeRequested := false);
      match NextJob(awake.jobs, r.claimMs)
      case Some(id) =>
        ClaimKeeps(awake, id, r.claimedAt, r.scheduleMs);
        hide Claim;
      case None =>
        IdleAfterSchedule(awake, r.scheduleMs);
    }
  }

  lemma ClaimKeeps(s: State, id: JobId, claimedAt: Time, later: Time)
    requires RecordsAndWaitersOk(s) && id in s.jobs && s.jobs[id].status == Queued
    requires s.running && s.activations == [] && s.controllers == map[] && s.timer.None?
    ensures Inv(Claim(s, id, claimedAt).(clock := later))
  {
    PutKeeps(s, id, ClaimedJob(s.jobs[id], s.config.instanceId, claimedAt));
    hide PutAndNotify;
  }

  lemma IdleAfterSchedule(s: State, nowMs: Time)
    requires s.timer.None? && s.clock <= nowMs
    ensures var t := ScheduleNextWake(s, nowMs);
            && t == s.(timer := t.timer)
            && (s.closed ==> t.timer.None?)
            && WakeOk(s.jobs, t.timer, false, s.closed, nowMs)
  {
    forall id | id in s.jobs && s.jobs[id].status == Queued
      ensures id in QueuedIds(s.jobs)
    {
    }
  }

  lemma PokeKeeps(s: State, r: Readings)
    requires RecordsAndWaitersOk(s) && LoopOk(s.jobs, s.running, s.activations, s.controllers)
    requires s.closed ==> s.timer.None?
    requires Monotone(s.clock, r)
    ensures Inv(Poke(s, r).(clock := r.scheduleMs))
  {
    var woken := s.(timer := None, wakeRequested := true);
    if !s.closed && !s.running {
      TurnKeeps(woken.(running := true), r);
    }
  }

  lemma WaitersAfterWait(jobs: map<JobId, Job>, waiters: map<JobId, set<WaiterId>>, settled: map<WaiterId, Outcome>,
                         id: JobId, w: WaiterId)
    requires WaitersOk(jobs, waiters, settled, false)
    requires w !in settled && forall k :: k in waiters ==> w !in waiters[k]
    requires id in jobs && !IsTerminal(jobs[id].status)
    ensures WaitersOk(jobs, waiters[id := (if id in waiters then waiters[id] else {}) + {w}], settled, false)
  {
  }

  lemma WaitKeeps(s: State, id: JobId, w: WaiterId)
    requires Inv(s) && FreshWaiter(s, w) && id in s.jobs
    ensures Inv(WaitForTerminal(s, id, w))
  {
    if IsTerminal(s.jobs[id].status) || s.closed {
      assert forall k :: k in s.waiters ==> w !in s.waiters[k];
    } else {
      WaitersAfterWait(s.jobs, s.waiters, s.settled, id, w);
    }
  }

  // ---------------------------------------------------------------- the events

  /** A resubmission changes no status, so it settles nobody. */
  lemma SubmitPut(s: State, id: JobId, request: string, maxAttempts: nat, now: Time)
    requires Inv(s)
    ensures var job := SubmittedJob(s.jobs, id, request, maxAttempts, now);
            var put := PutAndNotify(s, id, job);
            WellShaped(job) && put == s.(jobs := s.jobs[id := job])
    ensures var put := PutAndNotify(s, id, SubmittedJob(s.jobs, id, request, maxAttempts, now));
            RecordsAndWaitersOk(put) && LoopOk(put.jobs, put.running, put.activations, put.controllers)
  {
    var job := SubmittedJob(s.jobs, id, request, maxAttempts, now);
    assert id in s.waiters ==> !IsTerminal(job.status) && !s.closed;
    PutKeeps(s, id, job);
    LoopAfterPut(s.jobs, s.running, s.activations, s.controllers, id, job);
  }

  lemma SubmitKeeps(s: State, e: Event, r: Readings)
    requires Inv(s) && Enabled(s, e, r) && e.SubmitEvent?
    ensures Inv(Step(s, e, r))
  {
    SubmitPut(s, e.id, e.request, e.maxAttempts, r.now);
    var put := PutAndNotify(s, e.id, SubmittedJob(s.jobs, e.id, e.request, e.maxAttempts, r.now));
    PokeKeeps(put, r);
    PokeFrame(put, r);
    SubmitWait(s, Poke(put, r), e, r);
  }

  lemma SubmitWait(s: State, poked: State, e: Event, r: Readings)
    requires Enabled(s, e, r) && e.SubmitEvent?
    requires poked.waiters == s.waiters && poked.settled == s.settled && e.id in poked.jobs
    requires Inv(poked.(clock := r.scheduleMs))
    ensures Inv(WaitForTerminal(poked, e.id, e.waiter).(clock := r.scheduleMs))
  {
    var later := poked.(clock := r.scheduleMs);
    assert FreshWaiter(later, e.waiter);
    WaitKeeps(later, e.id, e.waiter);
    assert WaitForTerminal(later, e.id, e.waiter) == WaitForTerminal(poked, e.id, e.waiter).(clock := r.scheduleMs);
  }

  /** Nobody is settled, no record appears or goes, and only queued records may change, to running. */
  ghost predicate SettlesNobody(s: State, t: State) {
    && t.waiters == s.waiters && t.settled == s.settled && t.closed == s.closed && t.jobs.Keys == s.jobs.Keys
    && forall id :: id in s.jobs ==>
         t.jobs[id] == s.jobs[id] || (s.jobs[id].status == Queued && t.jobs[id].status == Running)
  }

  lemma ClaimFrame(s: State, id: JobId, claimedAt: Time)
    requires WaitersOk(s.jobs, s.waiters, s.settled, s.closed) && id in s.jobs && s.jobs[id].status == Queued
    ensures SettlesNobody(s, Claim(s, id, claimedAt))
  {
  }

  lemma TurnFrame(s: State, r: Readings)
    requires WaitersOk(s.jobs, s.waiters, s.settled, s.closed)
    ensures SettlesNobody(s, LoopTurn(s, r))
  {
    if !s.closed {
      var awake := s.(wakeRequested := false);
      match NextJob(awake.jobs, r.claimMs)
      case Some(id) =>
        ClaimFrame(awake, id, r.claimedAt);
        hide Claim;
        hide ScheduleNextWake;
      case None =>
        hide Claim;
    }
  }

  lemma PokeFrame(s: State, r: Readings)
    requires WaitersOk(s.jobs, s.waiters, s.settled, s.closed)
    ensures SettlesNobody(s, Poke(s, r))
  {
    if !s.closed && !s.running {
      TurnFrame(s.(timer := None, wakeRequested := true, running := true), r);
      hide LoopTurn;
    }
  }

  /** Once its processor has settled, a loop holds no job and no controller. */
  lemma FinishedKeeps(s: State, k: nat)
    requires Inv(s) && k < |s.activations| && s.activations[k].AwaitingProcessor?
    ensures Inv(Finished(s, k)) && Finished(s, k).activations == [LoopResumable]
    ensures s.activations[k].id in s.jobs && InFlight(s.jobs[s.activations[k].id].status)
  {
    assert Finished(s, k).controllers == map[];
  }

  lemma FinishedPutKeeps(done: State, id: JobId, job: Job, later: Time)
    requires Inv(done) && done.activations == [LoopResumable] && WellShaped(job) && done.clock <= later
    ensures Inv(PutAndNotify(done, id, job).(clock := later))
  {
    PutKeeps(done, id, job);
    hide PutAndNotify;
  }

  lemma SettledJobsAreShaped(job: Job, result: ExecutionResult, error: JobError, r: Readings)
    requires WellShaped(job) && InFlight(job.status)
    ensures job.status == CancelRequested ==> WellShaped(CanceledJob(job, r.now))
    ensures job.status == Running ==> WellShaped(SucceededJob(job, result))
    ensures job.status == Running ==> WellShaped(FailedOrRetriedJob(job, error, r.now, r.retryMs))
  {
  }

  lemma ResultKeeps(done: State, id: JobId, result: ExecutionResult, r: Readings)
    requires Inv(done) && done.activations == [LoopResumable] && Monotone(done.clock, r)
    requires id in done.jobs && InFlight(done.jobs[id].status)
    ensures Inv(CommittedResult(done, id, result, r).(clock := r.scheduleMs))
  {
    hide PutAndNotify;
    var job := done.jobs[id];
    SettledJobsAreShaped(job, result, JobError(InternalError, false), r);
    FinishedPutKeeps(done, id, if job.status == CancelRequested then CanceledJob(job, r.now)
                               else SucceededJob(job, result), r.scheduleMs);
  }

  lemma FailureKeeps(done: State, id: JobId, error: JobError, r: Readings)
    requires Inv(done) && done.activations == [LoopResumable] && Monotone(done.clock, r)
    requires id in done.jobs && InFlight(done.jobs[id].status)
    ensures Inv(CommittedFailure(done, done.jobs[id], id, error, r).(clock := r.scheduleMs))
  {
    hide PutAndNotify;
    hide Poke;
    var job := done.jobs[id];
    SettledJobsAreShaped(job, ExecutionResult("", 0), error, r);
    if job.status == CancelRequested {
      FinishedPutKeeps(done, id, CanceledJob(job, r.now), r.scheduleMs);
    } else {
      var next := FailedOrRetriedJob(job, error, r.now, r.retryMs);
      FinishedPutKeeps(done, id, next, done.clock);
      FinishedPutKeeps(done, id, next, r.scheduleMs);
      PutClock(done, id, next);
      PokeKeeps(PutAndNotify(done, id, next), r);
    }
  }

  lemma PutClock(s: State, id: JobId, job: Job)
    ensures PutAndNotify(s, id, job).clock == s.clock
  {
  }

  lemma SettleKeeps(s: State, e: Event, r: Readings)
    requires Inv(s) && Enabled(s, e, r) && e.SettleEvent?
    ensures Inv(Step(s, e, r))
  {
    FinishedKeeps(s, e.k);
    hide Inv;
    hide CommittedResult;
    hide CommittedFailure;
    match e.outcome
    case Returned(result) => ResultKeeps(Finished(s, e.k), s.activations[e.k].id, result, r);
    case Threw(error) => FailureKeeps(Finished(s, e.k), s.activations[e.k].id, error, r);
  }

  lemma AbortKeeps(s: State, id: JobId)
    requires Inv(s)
    ensures Inv(s.(controllers := if id in s.controllers then s.controllers[id := true] else s.controllers))
  {
    assert id in s.controllers ==> s.controllers[id := true].Keys == s.controllers.Keys;
  }

  lemma CancelKeeps(s: State, e: Event, r: Readings)
    requires Inv(s) && Enabled(s, e, r) && e.CancelEvent?
    ensures Inv(Step(s, e, r))
  {
    hide PutAndNotify;
    if e.id in s.jobs {
      var job := s.jobs[e.id];
      if job.status == Queued {
        QuietPutKeeps(s, e.id, CanceledBeforeDispatch(job, e.requester, e.reason, r.now), r.scheduleMs);
      } else if InFlight(job.status) {
        var aborted := s.(controllers := if e.id in s.controllers then s.controllers[e.id := true] else s.controllers);
        AbortKeeps(s, e.id);
        QuietPutKeeps(aborted, e.id, CancelStamped(job, e.requester, e.reason, r.now).(status := CancelRequested),
                      r.scheduleMs);
      }
    }
  }

  lemma RequeueKeeps(s: State, e: Event, r: Readings)
    requires Inv(s) && Enabled(s, e, r) && e.RequeueEvent?
    ensures Inv(Step(s, e, r))
  {
    if RequeueCheck(s.jobs, e.id, e.reset, e.limit).None? {
      var job := RequeuedJob(s.jobs[e.id], e.reset, e.limit, r.now);
      PutKeeps(s, e.id, job);
      LoopAfterPut(s.jobs, s.running, s.activations, s.controllers, e.id, job);
      hide PutAndNotify;
      hide Poke;
      PokeKeeps(PutAndNotify(s, e.id, job), r);
    }
  }

  lemma HeartbeatKeeps(s: State, e: Event, r: Readings)
    requires Inv(s) && Enabled(s, e, r) && e.HeartbeatEvent?
    ensures Inv(Step(s, e, r))
  {
    if e.id in s.jobs && InFlight(s.jobs[e.id].status) {
      QuietPutKeeps(s, e.id, s.jobs[e.id].(lastHeartbeatAt := Some(r.now), updatedAt := r.now), r.scheduleMs);
    }
  }

  lemma ResumeKeeps(s: State, e: Event, r: Readings)
    requires Inv(s) && Enabled(s, e, r) && e.ResumeEvent?
    ensures Inv(Step(s, e, r))
  {
    var left := s.(activations := s.activations[..e.k] + s.activations[e.k + 1..]);
    assert left.activations == [];
    TurnKeeps(left, r);
  }

  lemma RestartKeeps(s: State, e: Event, r: Readings)
    requires RecordsOk(s.jobs) && Enabled(s, e, r) && e.RestartEvent?
    ensures Inv(Step(s, e, r))
  {
    var boot := Boot(e.config, s.jobs, s.settled, s.clock, s.claims);
    var swept := boot.(jobs := Recovered(boot.jobs, boot.config.staleHeartbeatMs, r.now, e.stamps));
    assert RecordsOk(swept.jobs);
    PokeKeeps(swept, r);
  }

  /** The invariant survives every block. */
  lemma StepKeeps(s: State, e: Event, r: Readings)
    requires Inv(s) && Enabled(s, e, r)
    ensures Inv(Step(s, e, r))
  {
    match e
    case SubmitEvent(_, _, _, _) => SubmitKeeps(s, e, r);
    case CancelEvent(_, _, _) => CancelKeeps(s, e, r);
    case RequeueEvent(_, _, _) => RequeueKeeps(s, e, r);
    case HeartbeatEvent(_) => HeartbeatKeeps(s, e, r);
    case SettleEvent(_, _) => SettleKeeps(s, e, r);
    case ResumeEvent(_) => ResumeKeeps(s, e, r);
    case TimerEvent => PokeKeeps(s.(timer := None), r);
    case CloseEvent =>
      assert Close(s).controllers.Keys == s.controllers.Keys;
    case RestartEvent(_, _) => RestartKeeps(s, e, r);
  }

  lemma {:induction false} RunKeeps(s: State, run: seq<Moment>)
    requires Inv(s) && Possible(s, run)
    ensures Inv(Exec(s, run))
    decreases |run|
  {
    if run != [] {
      StepKeeps(s, run[0].event, run[0].readings);
      RunKeeps(Step(s, run[0].event, run[0].readings), run[1..]);
    }
  }
}
