/**
 The hosted execution queue as the object the daemon holds.

 A public method is one uninterrupted block of the source: a call from outside, a timer
 callback, or the rest of an async function after its await.  Each one is the Step of
 QueueModel with the same name.
 */
module HostedQueue {
  import opened Common
  import opened QueueModel
  import opened QueueInvariant

  datatype CancelReply = CancelReply(job: Job, cancellationRequested: bool, previousStatus: Status, terminal: bool)

  datatype RequeueReply = RequeueReply(job: Job, attemptCountReset: bool, maxAttemptsUpdated: bool)

  class HostedExecutionQueue {
    const config: Config
    var registry: map<JobId, Job>
    var waiters: map<JobId, set<WaiterId>>
    var settled: map<WaiterId, Outcome>
    var activeCancelControllers: map<JobId, bool>
    var suspended: seq<Activation>
    var nextWakeTimer: Option<Time>
    var running: bool
    var wakeRequested: bool
    var closed: bool
    ghost var clock: Time
    ghost var claims: seq<JobId>

    ghost function View(): State
      reads this
    {
      State(config, registry, waiters, settled, activeCancelControllers, suspended,
            nextWakeTimer, running, wakeRequested, closed, clock, claims)
    }

    ghost predicate Valid()
      reads this
    {
      Inv(View())
    }

    /** Listener sets are dropped from the map when they empty. */
    ghost predicate NoEmptySets()
      reads this
    {
      forall id :: id in waiters ==> waiters[id] != {}
    }

    constructor (config: Config, jobs: map<JobId, Job>, ghost now: Time)
      ensures View() == Boot(config, jobs, map[], now, [])
    {
      this.config := config;
      registry, waiters, settled, activeCancelControllers := jobs, map[], map[], map[];
      suspended, nextWakeTimer := [], None;
      running, wakeRequested, closed := false, false, false;
      clock, claims := now, [];
    }

    // ------------------------------------------------------------ waiters

    method RemoveWaiter(id: JobId, w: WaiterId)
      modifies this`waiters
      ensures waiters == if id !in old(waiters) then old(waiters)
                         else if old(waiters)[id] - {w} == {} then old(waiters) - {id}
                         else old(waiters)[id := old(waiters)[id] - {w}]
    {
      if id in waiters {
        var listeners := waiters[id] - {w};
        waiters := waiters[id := listeners];
        if listeners == {} {
          waiters := waiters - {id};
        }
      }
    }

    /** What the listener registered by `waitForTerminal` does when it is called. */
    method CallListener(id: JobId, w: WaiterId)
      modifies this`waiters, this`settled
      ensures var fires := closed || (id in registry && IsTerminal(registry[id].status));
              if fires then
                && settled == old(settled)[w := if closed then RejectedClosed else ResolveTerminal(registry[id])]
                && waiters == if id !in old(waiters) then old(waiters)
                              else if old(waiters)[id] - {w} == {} then old(waiters) - {id}
                              else old(waiters)[id := old(waiters)[id] - {w}]
              else settled == old(settled) && waiters == old(waiters)
    {
      if closed {
        RemoveWaiter(id, w);
        settled := settled[w := RejectedClosed];
      } else if id in registry && IsTerminal(registry[id].status) {
        RemoveWaiter(id, w);
        settled := settled[w := ResolveTerminal(registry[id])];
      }
    }

    /** The loop of `notify` over a copy of the listener set, which the listeners themselves shrink. */
    method CallListeners(id: JobId)
      requires id in waiters && waiters[id] != {}
      modifies this`waiters, this`settled
      ensures if closed || (id in registry && IsTerminal(registry[id].status)) then
                && waiters == old(waiters) - {id}
                && settled == old(settled) + map w | w in old(waiters)[id] ::
                                               if closed then RejectedClosed else ResolveTerminal(registry[id])
              else waiters == old(waiters) && settled == old(settled)
    {
      hide ResolveTerminal;
      ghost var all := waiters[id];
      ghost var fires := closed || (id in registry && IsTerminal(registry[id].status));
      ghost var outcome := if closed then RejectedClosed
                           else if id in registry then ResolveTerminal(registry[id]) else RejectedClosed;
      var rest := waiters[id];
      while rest != {}
        invariant rest <= all
        invariant fires ==> waiters == (if rest == {} then old(waiters) - {id} else old(waiters)[id := rest])
        invariant fires ==> settled == old(settled) + map w | w in all - rest :: outcome
        invariant !fires ==> waiters == old(waiters) && settled == old(settled)
      {
        var w :| w in rest;
        CallListener(id, w);
        rest := rest - {w};
        assert fires ==> settled == old(settled) + map v | v in all - rest :: outcome;
      }
      assert all - {} == all;
    }

    method NotifyWaiters(id: JobId)
      requires NoEmptySets()
      modifies this`waiters, this`settled
      ensures View() == Notify(old(View()), id)
      ensures NoEmptySets()
    {
      hide ResolveTerminal;
      if id in waiters {
        CallListeners(id);
      }
    }

    method WaitUntilTerminal(id: JobId, w: WaiterId)
      modifies this`waiters, this`settled
      ensures View() == WaitForTerminal(old(View()), id, w)
    {
      if id in registry && IsTerminal(registry[id].status) {
        settled := settled[w := ResolveTerminal(registry[id])];
      } else if closed {
        settled := settled[w := RejectedClosed];
      } else {
        var listeners := if id in waiters then waiters[id] else {};
        waiters := waiters[id := listeners + {w}];
      }
    }

    // ------------------------------------------------------------ the loop and its timer

    /** The candidate `claimNextJob` sorts to the front. */
    method FindCandidate(nowMs: Time) returns (candidate: Option<JobId>)
      ensures candidate == NextJob(registry, nowMs)
    {
      candidate := None;
      var rest := registry.Keys;
      ghost var seen: set<JobId> := {};
      while rest != {}
        invariant rest <= registry.Keys && seen == registry.Keys - rest
        invariant candidate.None? ==> DueIds(registry, nowMs) * seen == {}
        invariant candidate.Some? ==> IsFirst(registry, DueIds(registry, nowMs) * seen, candidate.value)
      {
        var id :| id in rest;
        var record := registry[id];
        rest, seen := rest - {id}, seen + {id};
        if record.status == Queued && record.nextAttemptAt <= nowMs {
          if candidate.None? || Before(registry, id, candidate.value) {
            assert forall k :: k in DueIds(registry, nowMs) * seen && k != id ==>
                k == candidate.value || Before(registry, candidate.value, k);
            candidate := Some(id);
          }
        }
      }
      assert DueIds(registry, nowMs) * seen == DueIds(registry, nowMs);
      if candidate.Some? {
        FirstIsUnique(registry, DueIds(registry, nowMs), candidate.value, NextJob(registry, nowMs).value);
      }
    }

    method ClaimJob(id: JobId, claimedAt: Time)
      requires NoEmptySets() && id in registry
      modifies this
      ensures View() == Claim(old(View()), id, claimedAt)
      ensures NoEmptySets()
    {
      var candidate := registry[id];
      var claimed := candidate.(
        status := Running,
        attemptCount := candidate.attemptCount + 1,
        claimedBy := Some(config.instanceId),
        claimedAt := Some(claimedAt),
        lastHeartbeatAt := Some(claimedAt),
        updatedAt := claimedAt,
        completedAt := None);
      registry := registry[id := claimed];
      NotifyWaiters(id);
      activeCancelControllers := activeCancelControllers[id := false];
      suspended := suspended + [AwaitingProcessor(id, claimed)];
      claims := claims + [id];
    }

    method ArmTimer(nowMs: Time)
      modifies this`nextWakeTimer
      ensures View() == ScheduleNextWake(old(View()), nowMs)
    {
      if closed || nextWakeTimer.Some? {
        return;
      }
      var next: Option<Time> := None;
      var rest := registry.Keys;
      while rest != {}
        invariant rest <= registry.Keys
        invariant next.None? ==> QueuedIds(registry) <= rest
        invariant next.Some? ==> exists id :: id in QueuedIds(registry) && registry[id].nextAttemptAt == next.value
        invariant next.Some? ==>
                    forall id :: id in QueuedIds(registry) && id !in rest ==> next.value <= registry[id].nextAttemptAt
      {
        var id :| id in rest;
        rest := rest - {id};
        if registry[id].status == Queued {
          assert id in QueuedIds(registry);
          if next.None? || registry[id].nextAttemptAt < next.value {
            next := Some(registry[id].nextAttemptAt);
          }
        }
      }
      if next.Some? {
        assert IsEarliest(registry, next.value);
        assert Earliest(registry) == next.value;
        nextWakeTimer := Some(nowMs + Max(0, next.value - nowMs));
      }
    }

    /** From the `while` test of `processLoop` to its next await, or through its `finally`. */
    method TakeTurn(r: Readings)
      requires NoEmptySets()
      modifies this
      ensures View() == LoopTurn(old(View()), r)
      ensures NoEmptySets()
    {
      if !closed {
        wakeRequested := false;
        var candidate := FindCandidate(r.claimMs);
        if candidate.Some? {
          ClaimJob(candidate.value, r.claimedAt);
          return;
        }
        ArmTimer(r.scheduleMs);
      }
      running := false;
      // The `finally` block would start the loop again here; nothing can have asked for it since the test.
      assert !(wakeRequested && !closed);
    }

    method RunLoop(r: Readings)
      requires NoEmptySets()
      modifies this
      ensures View() == ProcessLoop(old(View()), r)
      ensures NoEmptySets()
    {
      if running || closed {
        return;
      }
      running := true;
      TakeTurn(r);
    }

    method WakeUp(r: Readings)
      requires NoEmptySets()
      modifies this
      ensures View() == Poke(old(View()), r)
      ensures old(closed) ==> View() == old(View())
      ensures !old(closed) && old(running) ==> View() == old(View()).(timer := None, wakeRequested := true)
      ensures NoEmptySets()
    {
      if closed {
        return;
      }
      if nextWakeTimer.Some? {
        nextWakeTimer := None;
      }
      wakeRequested := true;
      if !running {
        RunLoop(r);
      }
    }

    /** `upsertHostedExecutionJob` followed by `notify`. */
    method Put(id: JobId, job: Job)
      requires NoEmptySets()
      modifies this`registry, this`waiters, this`settled
      ensures View() == PutAndNotify(old(View()), id, job) && registry == old(registry)[id := job]
      ensures NoEmptySets()
    {
      registry := registry[id := job];
      NotifyWaiters(id);
    }

    // ------------------------------------------------------------ calls from outside

    method SubmitAndWait(id: JobId, request: string, maxAttempts: nat, w: WaiterId, r: Readings)
      requires Valid() && Enabled(View(), SubmitEvent(id, request, maxAttempts, w), r)
      modifies this
      ensures Valid() && View() == Step(old(View()), SubmitEvent(id, request, maxAttempts, w), r)
    {
      StepKeeps(View(), SubmitEvent(id, request, maxAttempts, w), r);
      assert NoEmptySets();
      hide Inv;
      hide PutAndNotify;
      hide Poke;
      hide WaitForTerminal;
      Put(id, SubmittedJob(registry, id, request, maxAttempts, r.now));
      WakeUp(r);
      WaitUntilTerminal(id, w);
      clock := r.scheduleMs;
    }

    method CancelJob(id: JobId, requester: Option<string>, reason: Option<string>, r: Readings)
        returns (reply: Result<CancelReply, RequestError>)
      requires Valid() && Enabled(View(), CancelEvent(id, requester, reason), r)
      modifies this
      ensures Valid() && View() == Step(old(View()), CancelEvent(id, requester, reason), r)
      ensures CancelReplied(old(registry), registry, id, reply)
    {
      StepKeeps(View(), CancelEvent(id, requester, reason), r);
      assert NoEmptySets();
      hide Inv;
      hide Cancel;
      reply := DoCancel(id, requester, reason, r.now);
      clock := r.scheduleMs;
    }

    method DoCancel(id: JobId, requester: Option<string>, reason: Option<string>, now: Time)
        returns (reply: Result<CancelReply, RequestError>)
      requires NoEmptySets()
      modifies this
      ensures View() == Cancel(old(View()), id, requester, reason, now)
      ensures CancelReplied(old(registry), registry, id, reply)
    {
      hide PutAndNotify;
      if id !in registry {
        return Err(JobNotFound);
      }
      var job := registry[id];
      if job.status == Queued {
        Put(id, CanceledBeforeDispatch(job, requester, reason, now));
        return Ok(CancelReply(registry[id], true, job.status, true));
      }
      if job.status == Running || job.status == CancelRequested {
        if id in activeCancelControllers {
          activeCancelControllers := activeCancelControllers[id := true];
        }
        Put(id, CancelStamped(job, requester, reason, now).(status := CancelRequested));
        return Ok(CancelReply(registry[id], true, job.status, false));
      }
      return Ok(CancelReply(job, false, job.status, IsTerminal(job.status)));
    }

    method RequeueFailedJob(id: JobId, reset: bool, limit: Option<nat>, r: Readings)
        returns (reply: Result<RequeueReply, RequestError>)
      requires Valid() && Enabled(View(), RequeueEvent(id, reset, limit), r)
      modifies this
      ensures Valid() && View() == Step(old(View()), RequeueEvent(id, reset, limit), r)
      ensures RequeueReplied(old(registry), id, reset, limit, r.now, reply)
    {
      StepKeeps(View(), RequeueEvent(id, reset, limit), r);
      assert NoEmptySets();
      hide Inv;
      hide Requeue;
      reply := DoRequeue(id, reset, limit, r);
      clock := r.scheduleMs;
    }

    method DoRequeue(id: JobId, reset: bool, limit: Option<nat>, r: Readings)
        returns (reply: Result<RequeueReply, RequestError>)
      requires NoEmptySets()
      modifies this
      ensures View() == Requeue(old(View()), id, reset, limit, r)
      ensures RequeueReplied(old(registry), id, reset, limit, r.now, reply)
    {
      hide PutAndNotify;
      hide Poke;
      if id !in registry {
        return Err(JobNotFound);
      }
      var job := registry[id];
      if job.status != Failed {
        return Err(JobNotFailed);
      }
      var nextMaxAttempts := if limit.Some? then limit.value else job.maxAttempts;
      if !reset && nextMaxAttempts < job.attemptCount {
        return Err(LimitBelowAttempts);
      }
      var requeued := RequeuedJob(job, reset, limit, r.now);
      Put(id, requeued);
      WakeUp(r);
      return Ok(RequeueReply(requeued, reset, nextMaxAttempts != job.maxAttempts));
    }

    method SignalHeartbeat(id: JobId, r: Readings)
      requires Valid() && Enabled(View(), HeartbeatEvent(id), r)
      modifies this
      ensures Valid() && View() == Step(old(View()), HeartbeatEvent(id), r)
    {
      StepKeeps(View(), HeartbeatEvent(id), r);
      assert NoEmptySets();
      hide Inv;
      DoHeartbeat(id, r.now);
      clock := r.scheduleMs;
    }

    method DoHeartbeat(id: JobId, now: Time)
      requires NoEmptySets()
      modifies this`registry, this`waiters, this`settled
      ensures View() == Heartbeat(old(View()), id, now)
    {
      hide PutAndNotify;
      if closed || id !in registry || (registry[id].status != Running && registry[id].status != CancelRequested) {
        return;
      }
      Put(id, registry[id].(lastHeartbeatAt := Some(now), updatedAt := now));
    }

    method Shutdown(r: Readings)
      requires Valid() && Enabled(View(), CloseEvent, r)
      modifies this
      ensures Valid() && View() == Step(old(View()), CloseEvent, r)
    {
      StepKeeps(View(), CloseEvent, r);
      assert NoEmptySets() && Separate(waiters);
      hide Inv;
      DoClose();
      clock := r.scheduleMs;
    }

    method DoClose()
      requires NoEmptySets() && Separate(waiters)
      modifies this
      ensures View() == Close(old(View()))
    {
      closed := true;
      nextWakeTimer := None;
      activeCancelControllers := map id | id in activeCancelControllers :: true;
      NotifyAll();
    }

    method NotifyOne(id: JobId)
      requires closed && NoEmptySets() && Separate(waiters) && id in waiters
      modifies this`waiters, this`settled
      ensures NoEmptySets() && Separate(waiters)
      ensures waiters == old(waiters) - {id}
      ensures settled == old(settled) + AllRejected(old(waiters)[id])
    {
      NotifyWaiters(id);
    }

    method NotifyAll()
      requires closed && NoEmptySets() && Separate(waiters)
      modifies this`waiters, this`settled
      ensures waiters == map[]
      ensures settled == old(settled) + AllRejected(AllWaiters(old(waiters)))
    {
      var rest := waiters.Keys;
      while rest != {}
        invariant rest == waiters.Keys && NoEmptySets() && Separate(waiters)
        invariant AllWaiters(waiters) <= AllWaiters(old(waiters))
        invariant settled == old(settled) + AllRejected(AllWaiters(old(waiters)) - AllWaiters(waiters))
      {
        var id :| id in rest;
        ghost var before := waiters;
        assert before[id] <= AllWaiters(before);
        NotifyOne(id);
        rest := rest - {id};
        WaitersLeft(before, id);
        AllRejectedJoins(old(settled), AllWaiters(old(waiters)) - AllWaiters(before), before[id]);
        assert AllWaiters(old(waiters)) - AllWaiters(before) + before[id] == AllWaiters(old(waiters)) - AllWaiters(waiters);
      }
      assert AllWaiters(old(waiters)) - AllWaiters(waiters) == AllWaiters(old(waiters));
    }

    // ------------------------------------------------------------ continuations and timers

    /** `processClaimedJob` after its await of the processor. */
    method ProcessorSettled(k: nat, outcome: ProcessorOutcome, r: Readings)
      requires Valid() && Enabled(View(), SettleEvent(k, outcome), r)
      modifies this
      ensures Valid() && View() == Step(old(View()), SettleEvent(k, outcome), r)
    {
      StepKeeps(View(), SettleEvent(k, outcome), r);
      assert NoEmptySets() && running;
      hide Inv;
      hide SettleProcessor;
      DoSettle(k, outcome, r);
      clock := r.scheduleMs;
    }

    method DoSettle(k: nat, outcome: ProcessorOutcome, r: Readings)
      requires k < |suspended| && suspended[k].AwaitingProcessor?
      requires NoEmptySets() && running
      modifies this
      ensures View() == SettleProcessor(old(View()), k, outcome, r)
    {
      var id, claimed := suspended[k].id, suspended[k].claimed;
      SettleCommutes(View(), k, outcome, r);
      hide SettleProcessor;
      CommitOutcome(id, claimed, outcome, r);
      hide Committed;
      // the `finally` block, and the return to the loop
      activeCancelControllers := activeCancelControllers - {id};
      suspended := suspended[k := LoopResumable];
    }

    method CommitOutcome(id: JobId, claimed: Job, outcome: ProcessorOutcome, r: Readings)
      requires NoEmptySets()
      modifies this
      ensures View() == Committed(old(View()), AwaitingProcessor(id, claimed), outcome, r)
    {
      match outcome {
        case Returned(result) =>
          CommitResult(id, result, r);
        case Threw(error) =>
          CommitFailure(if id in registry then registry[id] else claimed, id, error, r);
      }
      hide CommittedResult;
      hide CommittedFailure;
    }

    method CommitResult(id: JobId, result: ExecutionResult, r: Readings)
      requires NoEmptySets()
      modifies this`registry, this`waiters, this`settled
      ensures View() == CommittedResult(old(View()), id, result, r)
    {
      if id !in registry {
        return;
      }
      if registry[id].status == CancelRequested {
        Put(id, CanceledJob(registry[id], r.now));
        return;
      }
      Put(id, SucceededJob(registry[id], result));
    }

    method CommitFailure(current: Job, id: JobId, error: JobError, r: Readings)
      requires NoEmptySets()
      modifies this
      ensures View() == CommittedFailure(old(View()), current, id, error, r)
    {
      if current.status == CancelRequested || current.cancelRequestedAt.Some? {
        Put(id, CanceledJob(current, r.now));
        return;
      }
      var retryable := ShouldRetry(error) && current.attemptCount < current.maxAttempts;
      Put(id, FailedOrRetriedJob(current, error, r.now, r.retryMs));
      if retryable {
        WakeUp(r);
      }
    }

    /** `processLoop` after its await of `processClaimedJob`. */
    method LoopResumed(k: nat, r: Readings)
      requires Valid() && Enabled(View(), ResumeEvent(k), r)
      modifies this
      ensures Valid() && View() == Step(old(View()), ResumeEvent(k), r)
    {
      StepKeeps(View(), ResumeEvent(k), r);
      assert NoEmptySets();
      hide Inv;
      hide LoopTurn;
      suspended := suspended[..k] + suspended[k + 1..];
      TakeTurn(r);
      clock := r.scheduleMs;
    }

    method TimerFired(r: Readings)
      requires Valid() && Enabled(View(), TimerEvent, r)
      modifies this
      ensures Valid() && View() == Step(old(View()), TimerEvent, r)
    {
      StepKeeps(View(), TimerEvent, r);
      assert NoEmptySets();
      hide Inv;
      hide Poke;
      nextWakeTimer := None;
      WakeUp(r);
      clock := r.scheduleMs;
    }

    // ------------------------------------------------------------ start

    method RecoverStaleJobs(nowMs: Time, stamps: JobId -> Time)
      modifies this`registry
      ensures registry == Recovered(old(registry), config.staleHeartbeatMs, nowMs, stamps)
    {
      var rest := registry.Keys;
      while rest != {}
        invariant registry.Keys == old(registry).Keys && rest <= registry.Keys
        invariant forall id :: id in rest ==> registry[id] == old(registry)[id]
        invariant forall id :: id in registry && id !in rest ==>
                    registry[id] == if IsStale(old(registry)[id], config.staleHeartbeatMs, nowMs)
                                    then RecoveredJob(old(registry)[id], stamps(id)) else old(registry)[id]
      {
        var id :| id in rest;
        rest := rest - {id};
        if IsStale(registry[id], config.staleHeartbeatMs, nowMs) {
          registry := registry[id := RecoveredJob(registry[id], stamps(id))];
        }
      }
    }

    /** Right after construction this makes the queue valid, whatever the registry held before. */
    method StartQueue(stamps: JobId -> Time, r: Readings)
      requires View() == Boot(config, registry, map[], clock, claims)
      requires RecordsOk(registry) && Enabled(View(), RestartEvent(config, stamps), r)
      modifies this
      ensures Valid() && View() == Step(old(View()), RestartEvent(config, stamps), r)
    {
      RestartKeeps(View(), RestartEvent(config, stamps), r);
      RestartIsPoke(View(), stamps, r);
      hide Inv;
      hide Step;
      hide Recovered;
      hide Poke;
      hide LoopTurn;
      RecoverStaleJobs(r.now, stamps);
      WakeUp(r);
      clock := r.scheduleMs;
    }
  }

  /** Starting a queue is recovering its records and poking it. */
  lemma RestartIsPoke(s: State, stamps: JobId -> Time, r: Readings)
    requires s == Boot(s.config, s.jobs, map[], s.clock, s.claims) && Enabled(s, RestartEvent(s.config, stamps), r)
    ensures var swept := s.(jobs := Recovered(s.jobs, s.config.staleHeartbeatMs, r.now, stamps));
            Step(s, RestartEvent(s.config, stamps), r) == Poke(swept, r).(clock := r.scheduleMs)
  {
    hide Recovered;
    hide Poke;
  }

  ghost predicate Separate(waiters: map<JobId, set<WaiterId>>) {
    forall a, b :: a in waiters && b in waiters && a != b ==> waiters[a] !! waiters[b]
  }

  lemma WaitersLeft(waiters: map<JobId, set<WaiterId>>, id: JobId)
    requires id in waiters && Separate(waiters)
    ensures AllWaiters(waiters - {id}) == AllWaiters(waiters) - waiters[id]
  {
    var left := waiters - {id};
    forall w | w in AllWaiters(left) ensures w in AllWaiters(waiters) - waiters[id] {
      var k :| k in left && w in left[k];
      assert waiters[k] !! waiters[id];
    }
    forall w | w in AllWaiters(waiters) - waiters[id] ensures w in AllWaiters(left) {
      var k :| k in waiters && w in waiters[k];
      assert k in left && w in left[k];
    }
  }

  lemma PutFinishCommute(s: State, k: nat, id: JobId, job: Job)
    requires k < |s.activations| && s.activations[k].AwaitingProcessor?
    ensures PutAndNotify(s, id, job).activations == s.activations && PutAndNotify(s, id, job).running == s.running
    ensures PutAndNotify(Finished(s, k), id, job) == Finished(PutAndNotify(s, id, job), k)
  {
  }

  lemma PokeFinishCommute(s: State, k: nat, r: Readings)
    requires k < |s.activations| && s.activations[k].AwaitingProcessor? && s.running
    ensures Poke(s, r).activations == s.activations
    ensures Poke(Finished(s, k), r) == Finished(Poke(s, r), k)
  {
  }

  lemma ResultCommutes(s: State, k: nat, result: ExecutionResult, r: Readings)
    requires k < |s.activations| && s.activations[k].AwaitingProcessor?
    ensures var t := CommittedResult(s, s.activations[k].id, result, r);
            && t.activations == s.activations
            && CommittedResult(Finished(s, k), s.activations[k].id, result, r) == Finished(t, k)
  {
    hide PutAndNotify;
    var id := s.activations[k].id;
    if id in s.jobs {
      var current := s.jobs[id];
      PutFinishCommute(s, k, id, if current.status == CancelRequested then CanceledJob(current, r.now)
                                 else SucceededJob(current, result));
    }
  }

  lemma FailureCommutes(s: State, k: nat, current: Job, error: JobError, r: Readings)
    requires k < |s.activations| && s.activations[k].AwaitingProcessor? && s.running
    ensures var t := CommittedFailure(s, current, s.activations[k].id, error, r);
            && t.activations == s.activations
            && CommittedFailure(Finished(s, k), current, s.activations[k].id, error, r) == Finished(t, k)
  {
    hide PutAndNotify;
    hide Poke;
    var id := s.activations[k].id;
    PutFinishCommute(s, k, id, CanceledJob(current, r.now));
    var next := FailedOrRetriedJob(current, error, r.now, r.retryMs);
    PutFinishCommute(s, k, id, next);
    PokeFinishCommute(PutAndNotify(s, id, next), k, r);
  }

  /** Committing first and finishing after is what the model does in the opposite order. */
  lemma SettleCommutes(s: State, k: nat, outcome: ProcessorOutcome, r: Readings)
    requires k < |s.activations| && s.activations[k].AwaitingProcessor? && s.running
    ensures Committed(s, s.activations[k], outcome, r).activations == s.activations
    ensures SettleProcessor(s, k, outcome, r) == Finished(Committed(s, s.activations[k], outcome, r), k)
  {
    hide CommittedResult;
    hide CommittedFailure;
    var id := s.activations[k].id;
    match outcome
    case Returned(result) => ResultCommutes(s, k, result, r);
    case Threw(error) =>
      FailureCommutes(s, k, if id in s.jobs then s.jobs[id] else s.activations[k].claimed, error, r);
  }

  lemma AllRejectedJoins(base: map<WaiterId, Outcome>, a: set<WaiterId>, b: set<WaiterId>)
    ensures base + AllRejected(a) + AllRejected(b) == base + AllRejected(a + b)
  {
  }

  predicate CancelReplied(before: map<JobId, Job>, after: map<JobId, Job>, id: JobId,
                          reply: Result<CancelReply, RequestError>) {
    if id !in before then reply == Err(JobNotFound)
    else
      var status := before[id].status;
      id in after
      && reply == Ok(CancelReply(after[id], status == Queued || status == Running || status == CancelRequested, status,
                                 status != Running && status != CancelRequested))
  }

  predicate RequeueReplied(before: map<JobId, Job>, id: JobId, reset: bool, limit: Option<nat>, now: Time,
                           reply: Result<RequeueReply, RequestError>) {
    if id !in before then reply == Err(JobNotFound)
    else if before[id].status != Failed then reply == Err(JobNotFailed)
    else
      var max := if limit == None then before[id].maxAttempts else limit.value;
      if !reset && before[id].attemptCount > max then reply == Err(LimitBelowAttempts)
      else
        && reply.Ok? && reply.value.attemptCountReset == reset
        && reply.value.maxAttemptsUpdated == (before[id].maxAttempts != max)
        && reply.value.job.status == Queued && reply.value.job.maxAttempts == max
        && reply.value.job.attemptCount == (if reset then 0 else before[id].attemptCount)
        && reply.value.job.nextAttemptAt == now && reply.value.job.request == before[id].request
        && reply.value.job.createdAt == before[id].createdAt
  }
}
