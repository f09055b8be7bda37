/**
 What happens to the promises of `submitAndWait`: each one is settled at most once, and as
 soon as its job is terminal or the queue is closed.
 */
module QueueCompletions {
  import opened Common
  import opened QueueModel
  import opened QueueInvariant
  import opened QueueTheorems
  import opened QueueProgress

  /** A terminal record hands out a result exactly when it succeeded. */
  lemma ResolvesExactlySuccess(job: Job)
    requires WellShaped(job) && IsTerminal(job.status)
    ensures ResolveTerminal(job).Resolved? <==> job.status == Succeeded
    ensures job.status == Succeeded ==> Some(ResolveTerminal(job).result) == job.result
    ensures job.status == Canceled ==> ResolveTerminal(job) == Rejected(JobError(Conflict, false))
    ensures job.status == Failed ==>
              ResolveTerminal(job)
              == match job.lastError
                 case Some(JobError(Unlisted(_), retryable)) => Rejected(JobError(InternalError, retryable))
                 case Some(error) => Rejected(error)
                 case None => Rejected(JobError(InternalError, false))
    ensures !ResolveTerminal(job).RejectedClosed?
  {
  }

  ghost predicate Pending(s: State, id: JobId, w: WaiterId) {
    id in s.waiters && w in s.waiters[id]
  }

  /** The promise is settled, for the reason the queue or the record shows at that moment. */
  ghost predicate SettledFor(t: State, id: JobId, w: WaiterId) {
    w in t.settled
    && (if t.closed then t.settled[w] == RejectedClosed
        else id in t.jobs && IsTerminal(t.jobs[id].status) && t.settled[w] == ResolveTerminal(t.jobs[id]))
  }

  ghost predicate SettledKept(s: State, t: State) {
    forall w :: w in s.settled ==> w in t.settled && t.settled[w] == s.settled[w]
  }

  ghost predicate PendingAccounted(s: State, t: State) {
    forall id, w :: Pending(s, id, w) ==> Pending(t, id, w) || SettledFor(t, id, w)
  }

  lemma PutAccounts(s: State, id: JobId, job: Job)
    requires RecordsAndWaitersOk(s)
    ensures SettledKept(s, PutAndNotify(s, id, job))
    ensures PendingAccounted(s, PutAndNotify(s, id, job))
  {
  }

  /** A poke settles nobody and touches no terminal record, so what was settled before it still shows why. */
  lemma PokeAccounts(s: State, put: State, r: Readings)
    requires SettledKept(s, put) && PendingAccounted(s, put)
    ensures SettledKept(s, Poke(put, r)) && PendingAccounted(s, Poke(put, r))
    requires WaitersOk(put.jobs, put.waiters, put.settled, put.closed)
  {
    var t := Poke(put, r);
    PokeFrame(put, r);
    PokeKeepsTerminal(put, r);
    forall id, w | Pending(s, id, w) ensures Pending(t, id, w) || SettledFor(t, id, w) {
      hide Poke;
      assert Pending(put, id, w) || SettledFor(put, id, w);
    }
  }

  lemma PokeKeepsTerminal(s: State, r: Readings)
    requires WaitersOk(s.jobs, s.waiters, s.settled, s.closed)
    ensures forall id :: id in s.jobs && IsTerminal(s.jobs[id].status) ==>
              id in Poke(s, r).jobs && Poke(s, r).jobs[id] == s.jobs[id]
  {
    PokeFrame(s, r);
    hide Poke;
  }

  lemma WaitAccounts(s: State, polled: State, id: JobId, w: WaiterId)
    requires SettledKept(s, polled) && PendingAccounted(s, polled) && FreshWaiter(polled, w)
    ensures SettledKept(s, WaitForTerminal(polled, id, w)) && PendingAccounted(s, WaitForTerminal(polled, id, w))
  {
    forall k, v | Pending(s, k, v)
      ensures Pending(WaitForTerminal(polled, id, w), k, v) || SettledFor(WaitForTerminal(polled, id, w), k, v)
    {
      assert Pending(polled, k, v) || SettledFor(polled, k, v);
      WaitAccountsFor(polled, id, w, k, v);
      hide WaitForTerminal;
    }
  }

  lemma WaitAccountsFor(polled: State, id: JobId, w: WaiterId, k: JobId, v: WaiterId)
    requires Pending(polled, k, v) || SettledFor(polled, k, v)
    requires FreshWaiter(polled, w)
    ensures Pending(WaitForTerminal(polled, id, w), k, v) || SettledFor(WaitForTerminal(polled, id, w), k, v)
  {
  }

  lemma SubmitAccounts(s: State, e: Event, r: Readings)
    requires Inv(s) && Enabled(s, e, r) && e.SubmitEvent?
    ensures SettledKept(s, Apply(s, e, r)) && PendingAccounted(s, Apply(s, e, r))
  {
    var job := SubmittedJob(s.jobs, e.id, e.request, e.maxAttempts, r.now);
    var put := PutAndNotify(s, e.id, job);
    SubmitPut(s, e.id, e.request, e.maxAttempts, r.now);
    PutAccounts(s, e.id, job);
    PokeAccounts(s, put, r);
    PokeFrame(put, r);
    assert FreshWaiter(Poke(put, r), e.waiter);
    hide Poke;
    WaitAccounts(s, Poke(put, r), e.id, e.waiter);
  }

  lemma SettleAccounts(s: State, e: Event, r: Readings)
    requires Inv(s) && Enabled(s, e, r) && e.SettleEvent?
    ensures SettledKept(s, Apply(s, e, r)) && PendingAccounted(s, Apply(s, e, r))
  {
    var id := s.activations[e.k].id;
    var done := Finished(s, e.k);
    var job := s.jobs[id];
    match e.outcome
    case Returned(result) =>
      PutAccounts(done, id, if job.status == CancelRequested then CanceledJob(job, r.now) else SucceededJob(job, result));
    case Threw(error) =>
      if job.status == CancelRequested || job.cancelRequestedAt.Some? {
        PutAccounts(done, id, CanceledJob(job, r.now));
      } else {
        var next := FailedOrRetriedJob(job, error, r.now, r.retryMs);
        PutAccounts(done, id, next);
        PutKeeps(done, id, next);
        PokeAccounts(done, PutAndNotify(done, id, next), r);
        hide Poke;
      }
  }

  lemma RequeueAccounts(s: State, e: Event, r: Readings)
    requires Inv(s) && Enabled(s, e, r) && e.RequeueEvent?
    ensures SettledKept(s, Apply(s, e, r)) && PendingAccounted(s, Apply(s, e, r))
  {
    if RequeueCheck(s.jobs, e.id, e.reset, e.limit).None? {
      var job := RequeuedJob(s.jobs[e.id], e.reset, e.limit, r.now);
      PutAccounts(s, e.id, job);
      PutKeeps(s, e.id, job);
      PokeAccounts(s, PutAndNotify(s, e.id, job), r);
      hide Poke;
    }
  }

  lemma ResumeAccounts(s: State, e: Event, r: Readings)
    requires Inv(s) && Enabled(s, e, r) && e.ResumeEvent?
    ensures SettledKept(s, Apply(s, e, r)) && PendingAccounted(s, Apply(s, e, r))
  {
    var left := s.(activations := s.activations[..e.k] + s.activations[e.k + 1..]);
    TurnFrame(left, r);
    hide LoopTurn;
  }

  lemma HeartbeatAccounts(s: State, e: Event, r: Readings)
    requires Inv(s) && Enabled(s, e, r) && e.HeartbeatEvent?
    ensures SettledKept(s, Apply(s, e, r)) && PendingAccounted(s, Apply(s, e, r))
  {
    if e.id in s.jobs {
      PutAccounts(s, e.id, s.jobs[e.id].(lastHeartbeatAt := Some(r.now), updatedAt := r.now));
    }
    hide PutAndNotify;
  }

  lemma CancelAccounts(s: State, e: Event, r: Readings)
    requires Inv(s) && Enabled(s, e, r) && e.CancelEvent?
    ensures SettledKept(s, Apply(s, e, r)) && PendingAccounted(s, Apply(s, e, r))
  {
    if e.id in s.jobs {
      var job := s.jobs[e.id];
      if job.status == Queued {
        PutAccounts(s, e.id, CanceledBeforeDispatch(job, e.requester, e.reason, r.now));
      } else if InFlight(job.status) {
        var aborted := s.(controllers := if e.id in s.controllers then s.controllers[e.id := true] else s.controllers);
        PutAccounts(aborted, e.id, CancelStamped(job, e.requester, e.reason, r.now).(status := CancelRequested));
      }
    }
  }

  lemma TimerAccounts(s: State, e: Event, r: Readings)
    requires Inv(s) && Enabled(s, e, r) && e.TimerEvent?
    ensures SettledKept(s, Apply(s, e, r)) && PendingAccounted(s, Apply(s, e, r))
  {
    PokeAccounts(s, s.(timer := None), r);
    hide Poke;
  }

  /** Closing rejects every pending promise and leaves none behind. */
  lemma CloseRejectsAll(s: State)
    requires Inv(s)
    ensures Close(s).waiters == map[]
    ensures forall id, w :: Pending(s, id, w) ==> w in Close(s).settled && Close(s).settled[w] == RejectedClosed
    ensures SettledKept(s, Close(s))
  {
    forall id, w | Pending(s, id, w) ensures w in AllWaiters(s.waiters) {
    }
    forall w | w in AllWaiters(s.waiters) ensures w !in s.settled {
    }
  }

  lemma CloseAccounts(s: State, e: Event, r: Readings)
    requires Inv(s) && Enabled(s, e, r) && e.CloseEvent?
    ensures SettledKept(s, Apply(s, e, r)) && PendingAccounted(s, Apply(s, e, r))
  {
    CloseRejectsAll(s);
  }

  lemma ApplyAccounts(s: State, e: Event, r: Readings)
    requires Inv(s) && Enabled(s, e, r) && !e.RestartEvent?
    ensures SettledKept(s, Apply(s, e, r)) && PendingAccounted(s, Apply(s, e, r))
  {
    hide SettledKept;
    hide PendingAccounted;
    match e
    case SubmitEvent(_, _, _, _) => SubmitAccounts(s, e, r);
    case CancelEvent(_, _, _) => CancelAccounts(s, e, r);
    case RequeueEvent(_, _, _) => RequeueAccounts(s, e, r);
    case HeartbeatEvent(_) => HeartbeatAccounts(s, e, r);
    case SettleEvent(_, _) => SettleAccounts(s, e, r);
    case ResumeEvent(_) => ResumeAccounts(s, e, r);
    case TimerEvent => TimerAccounts(s, e, r);
    case CloseEvent => CloseAccounts(s, e, r);
  }

  lemma StepAccounts(s: State, e: Event, r: Readings)
    requires Inv(s) && Enabled(s, e, r)
    ensures SettledKept(s, Step(s, e, r))
    ensures !e.RestartEvent? ==> PendingAccounted(s, Step(s, e, r))
  {
    if !e.RestartEvent? {
      ApplyAccounts(s, e, r);
      hide Apply;
      var t := Step(s, e, r);
      forall id, w | Pending(s, id, w) ensures Pending(t, id, w) || SettledFor(t, id, w) {
        assert Pending(Apply(s, e, r), id, w) || SettledFor(Apply(s, e, r), id, w);
      }
    } else {
      var boot := Boot(e.config, s.jobs, s.settled, s.clock, s.claims);
      PokeFrame(boot.(jobs := Recovered(boot.jobs, boot.config.staleHeartbeatMs, r.now, e.stamps)), r);
    }
  }

  /** No later block settles a promise a second time, not even across a restart. */
  lemma {:induction false} SettledOnce(s: State, run: seq<Moment>, w: WaiterId)
    requires Inv(s) && Possible(s, run) && w in s.settled
    ensures w in Exec(s, run).settled && Exec(s, run).settled[w] == s.settled[w]
    decreases |run|
  {
    if run != [] {
      var e, r := run[0].event, run[0].readings;
      StepAccounts(s, e, r);
      StepKeeps(s, e, r);
      hide Step;
      SettledOnce(Step(s, e, r), run[1..], w);
    }
  }

  lemma {:induction false} PrefixRuns(s: State, run: seq<Moment>, k: nat)
    requires Possible(s, run) && k <= |run|
    ensures Possible(s, run[..k])
    decreases k
  {
    if k > 0 {
      PrefixRuns(Step(s, run[0].event, run[0].readings), run[1..], k - 1);
      assert run[..k][1..] == run[1..][..k - 1];
    }
  }

  /** The state after the first `k` blocks of the run. */
  ghost function After(s: State, run: seq<Moment>, k: nat): State
    requires Possible(s, run) && k <= |run|
  {
    PrefixRuns(s, run, k);
    Exec(s, run[..k])
  }

  lemma AfterFirst(s: State, run: seq<Moment>, k: nat)
    requires Possible(s, run) && k < |run|
    ensures After(s, run, k + 1) == After(Step(s, run[0].event, run[0].readings), run[1..], k)
  {
    PrefixRuns(s, run, k + 1);
    assert run[..k + 1][1..] == run[1..][..k];
    assert run[..k + 1][0] == run[0];
  }

  /** The promise was settled at moment `mid` for what showed then, and still is. */
  ghost predicate Answered(mid: State, t: State, id: JobId, w: WaiterId) {
    SettledFor(mid, id, w) && w in t.settled && t.settled[w] == mid.settled[w]
  }

  /** An open queue, and a record that is queued or in flight: with a processor at work, unless `s` had none. */
  ghost predicate Waits(s: State, t: State, id: JobId, w: WaiterId) {
    && w !in t.settled && Pending(t, id, w) && !t.closed && id in t.jobs
    && (t.jobs[id].status == Queued || InFlight(t.jobs[id].status))
    && (InFlight(t.jobs[id].status) && !Stranded(s, id) ==>
          exists a :: a in t.activations && a.AwaitingProcessor? && a.id == id)
  }

  lemma PendingWaits(s: State, id: JobId, w: WaiterId)
    requires Inv(s) && Pending(s, id, w)
    ensures Waits(s, s, id, w)
  {
  }

  /**
   A promise pending at the start of any run of one instance is settled at a moment when the queue is closed,
   with the closed error, or its record is terminal, with that record's outcome; and so it stays.  Or else it
   still waits for something that can happen, unless its record was stranded from the start.
   */
  lemma {:induction false} NoLostCompletion(s: State, run: seq<Moment>, id: JobId, w: WaiterId) returns (k: nat)
    requires Inv(s) && Possible(s, run) && SameInstance(run) && Pending(s, id, w)
    ensures k <= |run|
    ensures Answered(After(s, run, k), Exec(s, run), id, w) || Waits(s, Exec(s, run), id, w)
    decreases |run|
  {
    hide Step;
    hide Inv;
    hide After;
    hide Pending;
    hide SettledFor;
    hide Waits;
    hide Enabled;
    k := 0;
    if run == [] {
      PendingWaits(s, id, w);
    } else {
      var e, r := run[0].event, run[0].readings;
      var t := Step(s, e, r);
      PendingStep(s, e, r, id, w);
      if Pending(t, id, w) {
        assert SameInstance(run[1..]);
        var rest := NoLostCompletion(t, run[1..], id, w);
        AfterFirst(s, run, rest);
        WaitsSince(s, t, Exec(s, run), id, w);
        k := rest + 1;
      } else {
        AnsweredFrom(t, run[1..], id, w);
        AfterFirst(s, run, 0);
        AfterNothing(t, run[1..]);
        k := 1;
      }
    }
  }

  /** A promise on a stranded record is answered by closing the queue, or never. */
  lemma StrandedPromise(s: State, run: seq<Moment>, id: JobId, w: WaiterId) returns (k: nat)
    requires Inv(s) && Possible(s, run) && SameInstance(run) && Pending(s, id, w) && Stranded(s, id)
    ensures k <= |run|
    ensures w in Exec(s, run).settled ==> After(s, run, k).closed && Exec(s, run).settled[w] == RejectedClosed
  {
    k := NoLostCompletion(s, run, id, w);
    PrefixRuns(s, run, k);
    StrandedRun(s, run[..k], id);
    hide Exec;
    hide Possible;
  }

  /** A queue that comes to rest by itself has answered every promise but those on stranded records. */
  lemma RestAnswersAll(s: State, run: seq<Moment>, id: JobId, w: WaiterId)
    requires Inv(s) && Possible(s, run) && AutomaticRun(run)
    requires Pending(s, id, w) && !Stranded(s, id)
    ensures |run| <= Work(s)
    ensures Quiet(Exec(s, run)) ==> w in Exec(s, run).settled
  {
    AutomaticRunsEnd(s, run);
    var k := NoLostCompletion(s, run, id, w);
    RestMeansFinished(s, run, id);
    hide Stranded;
    hide Possible;
    hide Work;
  }

  lemma PendingStep(s: State, e: Event, r: Readings, id: JobId, w: WaiterId)
    requires Inv(s) && Enabled(s, e, r) && !e.RestartEvent? && Pending(s, id, w)
    ensures var t := Step(s, e, r);
            Inv(t) && (Pending(t, id, w) || SettledFor(t, id, w)) && (Stranded(t, id) <==> Stranded(s, id))
  {
    StepAccounts(s, e, r);
    StepKeeps(s, e, r);
    StrandedKept(s, e, r, id);
    hide Step;
    hide Inv;
    hide Stranded;
    hide SettledFor;
  }

  lemma WaitsSince(s: State, later: State, t: State, id: JobId, w: WaiterId)
    requires Stranded(later, id) <==> Stranded(s, id)
    ensures Waits(later, t, id, w) ==> Waits(s, t, id, w)
  {
    hide Stranded;
  }

  lemma AnsweredFrom(s: State, run: seq<Moment>, id: JobId, w: WaiterId)
    requires Inv(s) && Possible(s, run) && SettledFor(s, id, w)
    ensures Answered(s, Exec(s, run), id, w)
  {
    SettledOnce(s, run, w);
  }

  lemma AfterNothing(s: State, run: seq<Moment>)
    requires Possible(s, run)
    ensures After(s, run, 0) == s
  {
  }

  /** A submission is answered at once, or waits on an open queue. */
  lemma SubmitAnswersOrWaits(s: State, e: Event, r: Readings)
    requires Inv(s) && Enabled(s, e, r) && e.SubmitEvent?
    ensures var t := Step(s, e, r);
            e.id in t.jobs
            && if IsTerminal(t.jobs[e.id].status) then
                 e.waiter in t.settled && t.settled[e.waiter] == ResolveTerminal(t.jobs[e.id])
               else if t.closed then e.waiter in t.settled && t.settled[e.waiter] == RejectedClosed
               else Pending(t, e.id, e.waiter)
  {
    var put := PutAndNotify(s, e.id, SubmittedJob(s.jobs, e.id, e.request, e.maxAttempts, r.now));
    SubmitPut(s, e.id, e.request, e.maxAttempts, r.now);
    PokeFrame(put, r);
    WaitAnswers(Poke(put, r), e.id, e.waiter);
    hide Poke;
    hide WaitForTerminal;
    hide PutAndNotify;
  }

  lemma WaitAnswers(s: State, id: JobId, w: WaiterId)
    requires id in s.jobs
    ensures var t := WaitForTerminal(s, id, w);
            && t.jobs == s.jobs && t.closed == s.closed
            && if IsTerminal(s.jobs[id].status) then w in t.settled && t.settled[w] == ResolveTerminal(s.jobs[id])
               else if s.closed then w in t.settled && t.settled[w] == RejectedClosed
               else Pending(t, id, w)
  {
  }

  // ---------------------------------------------------------------- a start that comes too late

  /** Recovery fails a stale job whose attempts are used up, without telling its waiters. */
  predicate DeadOnRecovery(s: State, id: JobId, nowMs: Time) {
    id in s.jobs && IsStale(s.jobs[id], s.config.staleHeartbeatMs, nowMs)
    && s.jobs[id].attemptCount >= s.jobs[id].maxAttempts
  }

  /**
   `start` called when submissions are already waiting keeps their promises attached to live
   jobs if and only if no waiting job is dead on recovery.
   */
  lemma LateStartStrands(s: State, stamps: JobId -> Time, r: Readings)
    requires Inv(s) && Monotone(s.clock, r)
    ensures var t := Start(s, stamps, r);
            WaitersOk(t.jobs, t.waiters, t.settled, t.closed)
            <==> forall id :: id in s.waiters ==> !DeadOnRecovery(s, id, r.now)
  {
    var swept := s.(jobs := Recovered(s.jobs, s.config.staleHeartbeatMs, r.now, stamps));
    var t := Start(s, stamps, r);
    if id :| id in s.waiters && DeadOnRecovery(s, id, r.now) {
      StrandedWaiter(swept, r, id);
    } else {
      assert WaitersOk(swept.jobs, swept.waiters, swept.settled, swept.closed);
      PokeWaiters(swept, r);
    }
  }

  lemma StrandedWaiter(s: State, r: Readings, id: JobId)
    requires id in s.waiters && id in s.jobs && IsTerminal(s.jobs[id].status)
    ensures var t := Poke(s, r); id in t.waiters && id in t.jobs && IsTerminal(t.jobs[id].status)
  {
  }

  lemma PokeWaiters(s: State, r: Readings)
    requires WaitersOk(s.jobs, s.waiters, s.settled, s.closed)
    ensures var t := Poke(s, r); WaitersOk(t.jobs, t.waiters, t.settled, t.closed)
  {
    PokeFrame(s, r);
    hide Poke;
    SettlingNobodyIsFine(s, Poke(s, r));
  }

  lemma SettlingNobodyIsFine(s: State, t: State)
    requires WaitersOk(s.jobs, s.waiters, s.settled, s.closed) && SettlesNobody(s, t)
    ensures WaitersOk(t.jobs, t.waiters, t.settled, t.closed)
  {
    forall id | id in t.waiters
      ensures t.waiters[id] != {} && id in t.jobs && !IsTerminal(t.jobs[id].status) && t.waiters[id] !! t.settled.Keys
    {
      assert id in s.jobs;
    }
  }

  predicate SameObject(s: State, t: State) {
    t.config == s.config && t.closed == s.closed
  }

  lemma PokeSameObject(s: State, r: Readings)
    ensures SameObject(s, Poke(s, r))
  {
    hide PutAndNotify;
    var awake := s.(timer := None, wakeRequested := false, running := true);
    forall id, job ensures SameObject(awake, PutAndNotify(awake, id, job)) {
      PutSameObject(awake, id, job);
    }
  }

  lemma PutSameObject(s: State, id: JobId, job: Job)
    ensures SameObject(s, PutAndNotify(s, id, job))
  {
  }

  lemma WaitSameObject(s: State, id: JobId, w: WaiterId)
    ensures SameObject(s, WaitForTerminal(s, id, w))
  {
  }

  lemma SubmitKeepsConfig(s: State, e: Event, r: Readings)
    requires Enabled(s, e, r) && e.SubmitEvent?
    ensures SameObject(s, Step(s, e, r)) && Step(s, e, r).clock == r.scheduleMs
  {
    var put := PutAndNotify(s, e.id, SubmittedJob(s.jobs, e.id, e.request, e.maxAttempts, r.now));
    PutSameObject(s, e.id, SubmittedJob(s.jobs, e.id, e.request, e.maxAttempts, r.now));
    PokeSameObject(put, r);
    WaitSameObject(Poke(put, r), e.id, e.waiter);
    hide PutAndNotify;
    hide Poke;
    hide WaitForTerminal;
  }

  /**
   Such a state is reached: a process ends while it runs the only attempt of job 7, and the next one gets the
   same call submitted again before it is started, long after the last heartbeat.
   */
  lemma LateStartCanStrand() returns (boot: State, e: Event, stamps: JobId -> Time, r: Readings)
    ensures boot == Boot(boot.config, boot.jobs, map[], boot.clock, []) && RecordsOk(boot.jobs)
    ensures Enabled(boot, e, r) && e.SubmitEvent?
    ensures var s := Step(boot, e, r); Monotone(s.clock, r) && Pending(s, e.id, e.waiter)
    ensures var t := Start(Step(boot, e, r), stamps, r); !WaitersOk(t.jobs, t.waiters, t.settled, t.closed)
  {
    var job := Job("call", Running, 1, 1, Some("old"), Some(0), Some(0), None, None, None, None,
                   0, 0, 0, None, None, None);
    boot := Boot(Config("new", 2000), map[7 := job], map[], 5000, []);
    e := SubmitEvent(7, "call", 1, 1);
    stamps := (id: JobId) => 5000;
    r := Readings(5000, 5000, 5000, 5000, 5000);
    var s := Step(boot, e, r);
    SubmitKeepsConfig(boot, e, r);
    hide Step;
    var c := SubmitShape(boot, e, r);
    assert c.None?;
    StepKeeps(boot, e, r);
    SubmitAnswersOrWaits(boot, e, r);
    assert 7 in s.waiters && DeadOnRecovery(s, 7, r.now);
    LateStartStrands(s, stamps, r);
  }
}
