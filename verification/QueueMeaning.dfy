/**
 What each block of the hosted execution queue does, said outright: conditions, dates, marks and error
 codes are written out, and nothing is taken from the functions that make up a step.
 */
module QueueMeaning {
  import opened Common
  import opened QueueModel
  import opened QueueInvariant
  import opened QueueTheorems

  // ---------------------------------------------------------------- claims and the timer

  /** By date, then by creation, then by key. */
  predicate Sooner(a: Job, aId: JobId, b: Job, bId: JobId) {
    || a.nextAttemptAt < b.nextAttemptAt
    || (a.nextAttemptAt == b.nextAttemptAt && a.createdAt < b.createdAt)
    || (a.nextAttemptAt == b.nextAttemptAt && a.createdAt == b.createdAt && aId < bId)
  }

  /** The claimed job was due and came before every due job left, and the record says who took it and when. */
  predicate IsClaim(t: State, id: JobId, r: Readings) {
    && id in t.jobs && t.jobs[id].nextAttemptAt <= r.claimMs
    && (forall k :: k in t.jobs && k != id && t.jobs[k].status == Queued && t.jobs[k].nextAttemptAt <= r.claimMs ==>
          Sooner(t.jobs[id], id, t.jobs[k], k))
    && t.jobs[id].status == Running && t.jobs[id].attemptCount >= 1
    && t.jobs[id].claimedBy == Some(t.config.instanceId) && t.jobs[id].claimedAt == Some(r.claimedAt)
    && t.jobs[id].lastHeartbeatAt == Some(r.claimedAt) && t.jobs[id].updatedAt == r.claimedAt
  }

  /** One more attempt is counted, and nothing is lost of what the record says about the call and its past. */
  predicate ClaimedFrom(before: Job, after: Job) {
    && before.status == Queued && after.attemptCount == before.attemptCount + 1
    && after.request == before.request && after.maxAttempts == before.maxAttempts
    && after.nextAttemptAt == before.nextAttemptAt && after.createdAt == before.createdAt
    && after.cancelRequestedAt == before.cancelRequestedAt && after.cancelRequestedBy == before.cancelRequestedBy
    && after.cancelReason == before.cancelReason && after.canceledAt == before.canceledAt
    && after.lastError == before.lastError && after.result == before.result
  }

  lemma ClaimIs(jobs: map<JobId, Job>, left: seq<Activation>, before: seq<JobId>, t: State, c: Option<JobId>, r: Readings)
    requires ClaimsFrom(jobs, left, before, t, c, r)
    ensures c.None? ==> t.jobs == jobs && t.claims == before && t.activations == left
    ensures c.Some? ==>
              && t.claims == before + [c.value] && IsClaim(t, c.value, r) && |t.activations| == |left| + 1
              && c.value in jobs && ClaimedFrom(jobs[c.value], t.jobs[c.value])
              && t.jobs == jobs[c.value := t.jobs[c.value]]
  {
    if c.Some? {
      assert forall k :: k in jobs && k != c.value && jobs[k].status == Queued && jobs[k].nextAttemptAt <= r.claimMs ==>
          k in DueIds(jobs, r.claimMs);
    }
  }

  /** Any block claims one job at most, and then the right one. */
  lemma ClaimMeaning(s: State, e: Event, r: Readings) returns (c: Option<JobId>)
    requires Inv(s) && Enabled(s, e, r)
    ensures var t := Step(s, e, r);
            t.claims == s.claims + (if c.Some? then [c.value] else []) && (c.Some? ==> IsClaim(t, c.value, r))
  {
    c := StepShape(s, e, r);
    hide Step;
    hide Written;
    ClaimIs(Written(s, e, r), Left(s, e), s.claims, Step(s, e, r), c, r);
  }

  /** An open queue that found nothing due has its timer at the first date, or at the present if that has passed. */
  ghost predicate IdleIs(t: State, r: Readings) {
    !t.closed && t.activations == [] ==>
      && (forall k :: k in t.jobs && t.jobs[k].status == Queued ==>
            && t.jobs[k].nextAttemptAt > r.claimMs
            && t.timer.Some?
            && (t.timer.value <= t.jobs[k].nextAttemptAt || t.timer.value <= r.scheduleMs))
      && (t.timer.Some? ==>
            && t.timer.value >= r.scheduleMs
            && exists k :: k in t.jobs && t.jobs[k].status == Queued
                 && (t.timer.value == t.jobs[k].nextAttemptAt || t.timer.value == r.scheduleMs))
  }

  lemma TurnIdle(s: State, r: Readings)
    requires s.timer.None?
    ensures IdleIs(LoopTurn(s, r), r)
  {
    if !s.closed {
      var awake := s.(wakeRequested := false);
      match NextJob(awake.jobs, r.claimMs)
      case Some(id) => ClaimIsActive(awake, id, r.claimedAt);
      case None =>
        assert forall k :: k in s.jobs && s.jobs[k].status == Queued ==> k in QueuedIds(s.jobs);
        assert forall k :: k in s.jobs && s.jobs[k].status == Queued && s.jobs[k].nextAttemptAt <= r.claimMs ==>
            k in DueIds(s.jobs, r.claimMs);
        hide Claim;
    }
  }

  lemma ClaimIsActive(s: State, id: JobId, claimedAt: Time)
    requires id in s.jobs
    ensures Claim(s, id, claimedAt).activations != []
  {
  }

  lemma PokeIdle(s: State, r: Readings)
    requires s.running ==> s.activations != []
    ensures IdleIs(Poke(s, r), r)
  {
    if !s.closed && !s.running {
      TurnIdle(s.(timer := None, wakeRequested := true, running := true), r);
      hide LoopTurn;
    }
  }

  lemma WaitIdle(s: State, id: JobId, w: WaiterId, r: Readings)
    requires IdleIs(s, r)
    ensures IdleIs(WaitForTerminal(s, id, w), r)
  {
    WaitShape(s, id, w);
    WaitKeepsTimer(s, id, w);
    hide WaitForTerminal;
  }

  lemma WaitKeepsTimer(s: State, id: JobId, w: WaiterId)
    ensures WaitForTerminal(s, id, w).timer == s.timer && WaitForTerminal(s, id, w).closed == s.closed
  {
  }

  lemma PutLoop(s: State, id: JobId, job: Job)
    ensures var t := PutAndNotify(s, id, job);
            t.running == s.running && t.activations == s.activations && t.closed == s.closed
  {
  }

  /** Every block that looks for work leaves none behind: it claims, or arms the timer. */
  lemma IdleMeaning(s: State, e: Event, r: Readings)
    requires Inv(s) && Enabled(s, e, r)
    requires e.SubmitEvent? || e.TimerEvent? || e.ResumeEvent? || e.RestartEvent?
             || (e.RequeueEvent? && MayRequeue(s, e))
    ensures IdleIs(Step(s, e, r), r)
  {
    hide PutAndNotify;
    hide Poke;
    hide WaitForTerminal;
    hide LoopTurn;
    match e
    case SubmitEvent(id, request, maxAttempts, w) =>
      var job := SubmittedJob(s.jobs, id, request, maxAttempts, r.now);
      PutLoop(s, id, job);
      PokeIdle(PutAndNotify(s, id, job), r);
      WaitIdle(Poke(PutAndNotify(s, id, job), r), id, w, r);
    case RequeueEvent(id, reset, limit) =>
      var job := RequeuedJob(s.jobs[id], reset, limit, r.now);
      PutLoop(s, id, job);
      PokeIdle(PutAndNotify(s, id, job), r);
    case ResumeEvent(k) => TurnIdle(s.(activations := s.activations[..k] + s.activations[k + 1..]), r);
    case TimerEvent => PokeIdle(s.(timer := None), r);
    case RestartEvent(config, stamps) =>
      var boot := Boot(config, s.jobs, s.settled, s.clock, s.claims);
      PokeIdle(boot.(jobs := Recovered(boot.jobs, boot.config.staleHeartbeatMs, r.now, stamps)), r);
  }

  /** The shape of a step once its claim is known; a queue with a suspended loop left claims nothing. */
  lemma StepIs(s: State, e: Event, r: Readings) returns (c: Option<JobId>)
    requires Inv(s) && Enabled(s, e, r)
    ensures var t, jobs := Step(s, e, r), Written(s, e, r);
            && (c.None? ==> t.jobs == jobs && t.claims == s.claims && t.activations == Left(s, e))
            && (c.Some? ==>
                  && t.claims == s.claims + [c.value] && IsClaim(t, c.value, r) && t.jobs[c.value].status == Running
                  && c.value in jobs && ClaimedFrom(jobs[c.value], t.jobs[c.value])
                  && t.jobs == jobs[c.value := t.jobs[c.value]])
    ensures Left(s, e) != [] ==> c.None?
  {
    c := StepShape(s, e, r);
    StepKeeps(s, e, r);
    hide Step;
    hide Written;
    ClaimIs(Written(s, e, r), Left(s, e), s.claims, Step(s, e, r), c, r);
  }

  /** A closed queue claims nothing. */
  lemma ClosedClaimsNothing(s: State, e: Event, r: Readings)
    requires Inv(s) && Enabled(s, e, r) && s.closed && !e.RestartEvent?
    ensures Step(s, e, r).claims == s.claims
  {
    hide PutAndNotify;
    hide WaitForTerminal;
    match e
    case CancelEvent(_, _, _) => CancelShape(s, e, r);
    case HeartbeatEvent(_) => HeartbeatShape(s, e, r);
    case SettleEvent(_, _) => SettleShapeIs(s, e, r);
    case CloseEvent => CloseShape(s, e, r);
    case ResumeEvent(_) =>
    case TimerEvent =>
    case SubmitEvent(id, request, maxAttempts, w) =>
      var job := SubmittedJob(s.jobs, id, request, maxAttempts, r.now);
      PutLoop(s, id, job);
      PutShape(s, id, job);
      WaitShape(PutAndNotify(s, id, job), id, w);
    case RequeueEvent(id, reset, limit) =>
      if id in s.jobs {
        PutLoop(s, id, RequeuedJob(s.jobs[id], reset, limit, r.now));
        PutShape(s, id, RequeuedJob(s.jobs[id], reset, limit, r.now));
      }
  }

  // ---------------------------------------------------------------- submissions

  /** A first submission is queued for the present, or is already running its first attempt. */
  lemma FirstSubmissionMeaning(s: State, e: Event, r: Readings) returns (c: Option<JobId>)
    requires Inv(s) && Enabled(s, e, r) && e.SubmitEvent? && e.id !in s.jobs
    ensures var t := Step(s, e, r);
            && e.id in t.jobs && t.jobs[e.id].request == e.request && t.jobs[e.id].maxAttempts == e.maxAttempts
            && t.jobs[e.id].nextAttemptAt == r.now && t.jobs[e.id].createdAt == r.now
            && t.jobs[e.id].lastError == None && t.jobs[e.id].cancelRequestedBy == None
            && t.jobs[e.id].cancelReason == None
            && t.claims == s.claims + (if c.Some? then [c.value] else [])
            && (if c == Some(e.id) then t.jobs[e.id].status == Running && t.jobs[e.id].attemptCount == 1
                else
                  && t.jobs[e.id].status == Queued && t.jobs[e.id].attemptCount == 0
                  && t.jobs[e.id].updatedAt == r.now && t.jobs[e.id].lastHeartbeatAt == None)
            && (forall k :: k in s.jobs && c != Some(k) ==> k in t.jobs && t.jobs[k] == s.jobs[k])
  {
    c := StepIs(s, e, r);
    hide Step;
    hide Inv;
    hide IsClaim;
    hide Enabled;
  }

  /** It waits while the queue is closed or a loop is suspended, and runs at once if nothing else is due. */
  lemma FirstSubmissionStarts(s: State, e: Event, r: Readings)
    requires Inv(s) && Enabled(s, e, r) && e.SubmitEvent? && e.id !in s.jobs
    ensures s.closed || s.activations != [] ==> Step(s, e, r).claims == s.claims
    ensures !s.closed && s.activations == []
            && (forall k :: k in s.jobs && s.jobs[k].status == Queued ==> s.jobs[k].nextAttemptAt > r.claimMs) ==>
              Step(s, e, r).claims == s.claims + [e.id]
  {
    var c := StepIs(s, e, r);
    IdleMeaning(s, e, r);
    SubmitStaysOpen(s, e, r);
    if s.closed {
      ClosedClaimsNothing(s, e, r);
    }
    hide Step;
    hide Inv;
    hide Sooner;
  }

  lemma SubmitStaysOpen(s: State, e: Event, r: Readings)
    requires Inv(s) && Enabled(s, e, r) && e.SubmitEvent?
    ensures Step(s, e, r).closed == s.closed
  {
    hide PutAndNotify;
    hide Poke;
    hide WaitForTerminal;
    var job := SubmittedJob(s.jobs, e.id, e.request, e.maxAttempts, r.now);
    SubmitPut(s, e.id, e.request, e.maxAttempts, r.now);
    PokeFrame(PutAndNotify(s, e.id, job), r);
    WaitKeepsTimer(Poke(PutAndNotify(s, e.id, job), r), e.id, e.waiter);
  }

  /** A repeated submission changes request, limit and update time of its record, and may start a due job. */
  lemma RepeatedSubmissionMeaning(s: State, e: Event, r: Readings)
    requires Inv(s) && Enabled(s, e, r) && e.SubmitEvent? && e.id in s.jobs
    ensures var t := Step(s, e, r);
            var job := s.jobs[e.id].(request := e.request, maxAttempts := e.maxAttempts, updatedAt := r.now);
            || (t.claims == s.claims && t.jobs == s.jobs[e.id := job])
            || exists c :: && t.claims == s.claims + [c] && IsClaim(t, c, r) && c in s.jobs
                           && ClaimedFrom(if c == e.id then job else s.jobs[c], t.jobs[c])
                           && t.jobs == s.jobs[e.id := job][c := t.jobs[c]]
  {
    var c := StepIs(s, e, r);
    hide Step;
    hide Inv;
    if c.Some? {
      assert Step(s, e, r).claims == s.claims + [c.value];
    }
  }

  // ---------------------------------------------------------------- processor outcomes

  /** What no outcome touches. */
  predicate SameCall(before: Job, after: Job) {
    && after.request == before.request && after.attemptCount == before.attemptCount
    && after.maxAttempts == before.maxAttempts && after.createdAt == before.createdAt
    && after.cancelRequestedAt == before.cancelRequestedAt && after.cancelRequestedBy == before.cancelRequestedBy
    && after.cancelReason == before.cancelReason
  }

  predicate CanceledAt(job: Job, at: Time) {
    && job.status == Canceled && job.canceledAt == Some(at) && job.completedAt == Some(at) && job.updatedAt == at
    && job.lastHeartbeatAt == Some(at) && job.lastError == Some(JobError(Conflict, false))
    && job.claimedBy == None && job.claimedAt == None && job.result == None
  }

  /** The backoff before attempt n + 1. */
  function Backoff(n: nat): nat {
    if n <= 1 then 200 else if n == 2 then 400 else if n == 3 then 800 else if n == 4 then 1600 else 2000
  }

  lemma BackoffIs(n: nat)
    ensures RetryDelay(n) == Backoff(n)
  {
    assert Pow2(0) == 1 && Pow2(1) == 2 && Pow2(2) == 4 && Pow2(3) == 8 && Pow2(4) == 16;
    if n > 4 {
      Pow2Grows(4, n - 1);
    }
  }

  lemma SettleShapeIs(s: State, e: Event, r: Readings)
    requires Inv(s) && Enabled(s, e, r) && e.SettleEvent?
    ensures var id, t := s.activations[e.k].id, Step(s, e, r);
            && id in s.jobs && InFlight(s.jobs[id].status) && WellShaped(s.jobs[id])
            && t.jobs == s.jobs[id := SettledJob(s.jobs[id], e.outcome, r)]
            && t.claims == s.claims && t.activations == [LoopResumable]
  {
    var c := StepIs(s, e, r);
    assert Left(s, e) == [LoopResumable];
    hide Step;
  }

  /** A result counts, unless cancellation was requested meanwhile. */
  lemma ResultMeaning(s: State, e: Event, r: Readings)
    requires Inv(s) && Enabled(s, e, r) && e.SettleEvent? && e.outcome.Returned?
    ensures var id, t := s.activations[e.k].id, Step(s, e, r);
            && id in s.jobs && id in t.jobs && t.jobs == s.jobs[id := t.jobs[id]] && SameCall(s.jobs[id], t.jobs[id])
            && t.jobs[id].nextAttemptAt == s.jobs[id].nextAttemptAt
            && t.claims == s.claims && t.activations == [LoopResumable]
            && if s.jobs[id].status == CancelRequested then CanceledAt(t.jobs[id], r.now)
               else
                 && t.jobs[id].status == Succeeded && t.jobs[id].result == Some(e.outcome.result)
                 && t.jobs[id].completedAt == Some(e.outcome.result.completedAt)
                 && t.jobs[id].updatedAt == e.outcome.result.completedAt
                 && t.jobs[id].lastHeartbeatAt == Some(e.outcome.result.completedAt)
                 && t.jobs[id].claimedBy == None && t.jobs[id].claimedAt == None
                 && t.jobs[id].lastError == None && t.jobs[id].canceledAt == None
  {
    SettleShapeIs(s, e, r);
    hide Step;
    hide Inv;
  }

  /**
   An error ends the job, unless cancellation was requested meanwhile, or the error is worth another attempt
   and there is one left: then it is queued again, with a backoff that doubles from 200 ms to 2 s.
   */
  lemma FailureMeaning(s: State, e: Event, r: Readings)
    requires Inv(s) && Enabled(s, e, r) && e.SettleEvent? && e.outcome.Threw?
    ensures var id, t := s.activations[e.k].id, Step(s, e, r);
            && id in s.jobs && id in t.jobs && t.jobs == s.jobs[id := t.jobs[id]] && SameCall(s.jobs[id], t.jobs[id])
            && t.claims == s.claims && t.activations == [LoopResumable]
            && if s.jobs[id].status == CancelRequested then
                 CanceledAt(t.jobs[id], r.now) && t.jobs[id].nextAttemptAt == s.jobs[id].nextAttemptAt
               else
                 var code, n := e.outcome.error.code, s.jobs[id].attemptCount;
                 && (t.jobs[id].status == Queued
                     <==> (e.outcome.error.retryable || code == CapabilityUnavailable || code == Timeout
                           || code == UpstreamFailure || code == StorageUnavailable || code == BrokerUnavailable)
                          && n < s.jobs[id].maxAttempts)
                 && (t.jobs[id].status == Queued || t.jobs[id].status == Failed)
                 && t.jobs[id].lastError == Some(JobError(code, t.jobs[id].status == Queued))
                 && t.jobs[id].nextAttemptAt
                    == (if t.jobs[id].status == Failed then s.jobs[id].nextAttemptAt
                        else r.retryMs + if n <= 1 then 200 else if n == 2 then 400 else if n == 3 then 800
                                         else if n == 4 then 1600 else 2000)
                 && t.jobs[id].completedAt == (if t.jobs[id].status == Failed then Some(r.now) else None)
                 && t.jobs[id].updatedAt == r.now && t.jobs[id].lastHeartbeatAt == Some(r.now)
                 && t.jobs[id].claimedBy == None && t.jobs[id].claimedAt == None
                 && t.jobs[id].canceledAt == None && t.jobs[id].result == None
  {
    SettleShapeIs(s, e, r);
    hide Step;
    hide Inv;
    BackoffIs(s.jobs[s.activations[e.k].id].attemptCount);
    hide RetryDelay;
  }

  /** The controller of the settled job is dropped. */
  lemma SettledController(s: State, e: Event, r: Readings)
    requires Inv(s) && Enabled(s, e, r) && e.SettleEvent?
    ensures Step(s, e, r).controllers == map[]
  {
    SettleShapeIs(s, e, r);
    StepKeeps(s, e, r);
    hide Step;
  }

  // ---------------------------------------------------------------- operator calls

  /** The operator's marks: the first request counts, and a missing name or reason leaves the old one. */
  predicate MarkedCanceled(before: Job, after: Job, e: Event, now: Time)
    requires e.CancelEvent?
  {
    && after.cancelRequestedAt == (if before.cancelRequestedAt == None then Some(now) else before.cancelRequestedAt)
    && after.cancelRequestedBy == (if e.requester == None then before.cancelRequestedBy else e.requester)
    && after.cancelReason == (if e.reason == None then before.cancelReason else e.reason)
    && after.updatedAt == now
    && after.request == before.request && after.attemptCount == before.attemptCount
    && after.maxAttempts == before.maxAttempts && after.createdAt == before.createdAt
    && after.nextAttemptAt == before.nextAttemptAt
  }

  /** A queued job is canceled on the spot; a running one is marked and its signal aborted; others are left alone. */
  lemma CancelMeaning(s: State, e: Event, r: Readings)
    requires Inv(s) && Enabled(s, e, r) && e.CancelEvent?
    ensures var t := Step(s, e, r);
            && t.claims == s.claims && t.activations == s.activations
            && ((e.id !in s.jobs || s.jobs[e.id].status == Succeeded || s.jobs[e.id].status == Failed
                 || s.jobs[e.id].status == Canceled) ==> t.jobs == s.jobs && t.controllers == s.controllers)
            && (e.id in s.jobs && s.jobs[e.id].status == Queued ==>
                  && t.jobs == s.jobs[e.id := t.jobs[e.id]] && t.controllers == s.controllers
                  && MarkedCanceled(s.jobs[e.id], t.jobs[e.id], e, r.now) && CanceledAt(t.jobs[e.id], r.now))
            && (e.id in s.jobs && (s.jobs[e.id].status == Running || s.jobs[e.id].status == CancelRequested) ==>
                  && t.jobs == s.jobs[e.id := t.jobs[e.id]] && t.jobs[e.id].status == CancelRequested
                  && MarkedCanceled(s.jobs[e.id], t.jobs[e.id], e, r.now)
                  && t.jobs[e.id].claimedBy == s.jobs[e.id].claimedBy && t.jobs[e.id].claimedAt == s.jobs[e.id].claimedAt
                  && t.jobs[e.id].lastHeartbeatAt == s.jobs[e.id].lastHeartbeatAt
                  && t.jobs[e.id].lastError == s.jobs[e.id].lastError
                  && t.controllers.Keys == s.controllers.Keys
                  && (e.id in s.controllers ==> t.controllers[e.id])
                  && forall k :: k in s.controllers && k != e.id ==> t.controllers[k] == s.controllers[k])
  {
    CancelShape(s, e, r);
    CancelControllers(s, e, r);
    hide Step;
  }

  lemma CancelControllers(s: State, e: Event, r: Readings)
    requires Enabled(s, e, r) && e.CancelEvent?
    ensures Step(s, e, r).controllers
            == if e.id in s.controllers && e.id in s.jobs
                  && (s.jobs[e.id].status == Running || s.jobs[e.id].status == CancelRequested)
               then s.controllers[e.id := true] else s.controllers
  {
    hide PutAndNotify;
    if e.id in s.jobs {
      var aborted := s.(controllers := if e.id in s.controllers then s.controllers[e.id := true] else s.controllers);
      PutControllers(s, e.id, CancelWritten(s.jobs[e.id], e.requester, e.reason, r.now));
      PutControllers(aborted, e.id, CancelWritten(s.jobs[e.id], e.requester, e.reason, r.now));
    }
  }

  lemma PutControllers(s: State, id: JobId, job: Job)
    ensures PutAndNotify(s, id, job).controllers == s.controllers
  {
  }

  function NewLimit(s: State, e: Event): nat
    requires e.RequeueEvent? && e.id in s.jobs
  {
    match e.limit
    case Some(limit) => limit
    case None => s.jobs[e.id].maxAttempts
  }

  /** Only failed jobs are requeued, and without a reset only up to a limit not below the attempts made. */
  ghost predicate MayRequeue(s: State, e: Event)
    requires e.RequeueEvent?
  {
    && e.id in s.jobs && s.jobs[e.id].status == Failed
    && (e.reset || s.jobs[e.id].attemptCount <= NewLimit(s, e))
  }

  lemma RefusedRequeueMeaning(s: State, e: Event, r: Readings)
    requires Enabled(s, e, r) && e.RequeueEvent? && !MayRequeue(s, e)
    ensures Step(s, e, r) == s.(clock := r.scheduleMs)
  {
    hide PutAndNotify;
    hide Poke;
  }

  /** Queued for the present, with its attempts reset if so asked, the new limit, and nothing of its past. */
  predicate RequeuedAs(before: Job, after: Job, reset: bool, limit: nat, now: Time) {
    && after.status == Queued && after.attemptCount == (if reset then 0 else before.attemptCount)
    && after.maxAttempts == limit && after.nextAttemptAt == now && after.updatedAt == now
    && after.request == before.request && after.createdAt == before.createdAt
    && after.claimedBy == None && after.claimedAt == None && after.lastHeartbeatAt == None
    && after.cancelRequestedAt == None && after.cancelRequestedBy == None && after.cancelReason == None
    && after.canceledAt == None && after.completedAt == None && after.lastError == None && after.result == None
  }

  lemma RequeuedMeans(job: Job, reset: bool, limit: Option<nat>, now: Time)
    ensures RequeuedAs(job, RequeuedJob(job, reset, limit, now), reset,
                       if limit == None then job.maxAttempts else limit.value, now)
  {
  }

  /** The requeued record, and then the claim of the first due job, perhaps this one. */
  lemma RequeueMeaning(s: State, e: Event, r: Readings) returns (job: Job, c: Option<JobId>)
    requires Inv(s) && Enabled(s, e, r) && e.RequeueEvent? && MayRequeue(s, e)
    ensures RequeuedAs(s.jobs[e.id], job, e.reset, NewLimit(s, e), r.now)
    ensures var t, jobs := Step(s, e, r), s.jobs[e.id := job];
            match c
            case None => t.claims == s.claims && t.jobs == jobs
            case Some(id) =>
              && t.claims == s.claims + [id] && IsClaim(t, id, r) && id in jobs && ClaimedFrom(jobs[id], t.jobs[id])
              && t.jobs == jobs[id := t.jobs[id]]
  {
    c := StepIs(s, e, r);
    job := RequeuedJob(s.jobs[e.id], e.reset, e.limit, r.now);
    RequeuedMeans(s.jobs[e.id], e.reset, e.limit, r.now);
    hide Step;
    hide Inv;
    hide Enabled;
    hide IsClaim;
    hide ClaimedFrom;
    hide RequeuedAs;
    hide RequeuedJob;
    assert Written(s, e, r) == s.jobs[e.id := job];
  }

  /** A heartbeat of an open queue moves the beat and the update time of a record in flight, and nothing else. */
  lemma HeartbeatMeaning(s: State, e: Event, r: Readings)
    requires Inv(s) && Enabled(s, e, r) && e.HeartbeatEvent?
    ensures var t := Step(s, e, r);
            && t.claims == s.claims && t.activations == s.activations
            && t.jobs == if !s.closed && e.id in s.jobs
                            && (s.jobs[e.id].status == Running || s.jobs[e.id].status == CancelRequested)
                         then s.jobs[e.id := s.jobs[e.id].(lastHeartbeatAt := Some(r.now), updatedAt := r.now)]
                         else s.jobs
  {
    HeartbeatShape(s, e, r);
    hide Step;
  }

  /** Closing stops the timer and aborts what is running; no record changes. */
  lemma CloseMeaning(s: State, e: Event, r: Readings)
    requires Inv(s) && Enabled(s, e, r) && e.CloseEvent?
    ensures var t := Step(s, e, r);
            && t.closed && t.timer == None && t.waiters == map[]
            && t.jobs == s.jobs && t.claims == s.claims && t.activations == s.activations
            && t.controllers.Keys == s.controllers.Keys && (forall k :: k in t.controllers ==> t.controllers[k])
            && (forall w :: w in t.settled <==> w in s.settled || exists id :: id in s.waiters && w in s.waiters[id])
            && (forall id, w :: id in s.waiters && w in s.waiters[id] ==> t.settled[w] == RejectedClosed)
  {
    hide Inv;
    WaitersAre(s.waiters);
    hide AllWaiters;
  }

  lemma WaitersAre(waiters: map<JobId, set<WaiterId>>)
    ensures forall w :: w in AllWaiters(waiters) <==> exists id :: id in waiters && w in waiters[id]
    ensures forall id, w :: id in waiters && w in waiters[id] ==> w in AllWaiters(waiters)
  {
  }

  // ---------------------------------------------------------------- recovery

  /** The last sign of life: heartbeat, else claim, else update. */
  function LastSign(job: Job): Time {
    match job.lastHeartbeatAt
    case Some(at) => at
    case None => if job.claimedAt.Some? then job.claimedAt.value else job.updatedAt
  }

  /** Of a stale job: queued again for the moment of the rewrite if an attempt is left, else failed. */
  predicate RecoveredAs(before: Job, after: Job, at: Time) {
    && SameCall(before, after) && after.claimedBy == None && after.claimedAt == None
    && after.updatedAt == at && after.lastHeartbeatAt == Some(at)
    && after.result == before.result && after.canceledAt == before.canceledAt
    && if before.attemptCount < before.maxAttempts then
         && after.status == Queued && after.nextAttemptAt == at && after.completedAt == None
         && after.lastError == Some(JobError(CapabilityUnavailable, true))
       else
         && after.status == Failed && after.nextAttemptAt == before.nextAttemptAt && after.completedAt == Some(at)
         && after.lastError == before.lastError
  }

  lemma RecoveredMeans(job: Job, at: Time)
    ensures RecoveredAs(job, RecoveredJob(job, at), at)
  {
  }

  /**
   A new process recovers every running job without a sign of life for longer than its limit, leaves all other
   records alone, and claims the first due job.
   */
  lemma RecoveryMeaning(s: State, e: Event, r: Readings) returns (swept: map<JobId, Job>, c: Option<JobId>)
    requires Inv(s) && Enabled(s, e, r) && e.RestartEvent?
    ensures swept.Keys == s.jobs.Keys
    ensures forall id :: id in s.jobs ==>
              if s.jobs[id].status == Running && r.now - LastSign(s.jobs[id]) > e.config.staleHeartbeatMs
              then RecoveredAs(s.jobs[id], swept[id], e.stamps(id)) else swept[id] == s.jobs[id]
    ensures var t := Step(s, e, r);
            match c
            case None => t.claims == s.claims && t.jobs == swept
            case Some(id) =>
              && t.claims == s.claims + [id] && IsClaim(t, id, r) && id in swept && ClaimedFrom(swept[id], t.jobs[id])
              && t.jobs == swept[id := t.jobs[id]]
  {
    c := StepIs(s, e, r);
    swept := Written(s, e, r);
    hide Step;
    hide Inv;
    hide Enabled;
    hide IsClaim;
    hide ClaimedFrom;
    forall id | id in s.jobs
      ensures if s.jobs[id].status == Running && r.now - LastSign(s.jobs[id]) > e.config.staleHeartbeatMs
              then RecoveredAs(s.jobs[id], swept[id], e.stamps(id)) else swept[id] == s.jobs[id]
    {
      RecoveredMeans(s.jobs[id], e.stamps(id));
      hide RecoveredAs;
      hide RecoveredJob;
    }
  }
}
