/**
 The hosted execution queue as a transition system over values.

 JavaScript runs everything between two awaits without interruption, so one
 Event is one such uninterrupted block.  A suspended `processLoop` is an element of
 `activations`: it waits either for the processor of the job it claimed or, once that
 job was committed, for its own next turn.
 */
module QueueModel {
  import opened Common

  // Registry listings come in ascending key order; a job id stands for its rank in that order.
  type JobId = nat
  type Time = int
  type WaiterId = nat

  datatype Status = Queued | Running | CancelRequested | Succeeded | Failed | Canceled

  predicate IsTerminal(status: Status) {
    status == Succeeded || status == Failed || status == Canceled
  }

  datatype ErrorCode =
    | BadRequest | ValidationFailed | NotFound | Conflict | Timeout | PreconditionFailed
    | PolicyBlocked | UpstreamFailure | CapabilityUnavailable | StorageUnavailable
    | BrokerUnavailable | InternalError
    | Unlisted(name: string)

  datatype JobError = JobError(code: ErrorCode, retryable: bool)

  datatype ExecutionResult = ExecutionResult(executionId: string, completedAt: Time)

  datatype Job = Job(
    request: string, // the submitted call: run, action, endpoint, arguments, ...
    status: Status,
    attemptCount: nat,
    maxAttempts: nat,
    claimedBy: Option<string>,
    claimedAt: Option<Time>,
    lastHeartbeatAt: Option<Time>,
    cancelRequestedAt: Option<Time>,
    cancelRequestedBy: Option<string>,
    cancelReason: Option<string>,
    canceledAt: Option<Time>,
    nextAttemptAt: Time,
    createdAt: Time,
    updatedAt: Time,
    completedAt: Option<Time>,
    lastError: Option<JobError>,
    result: Option<ExecutionResult>)

  datatype Outcome = Resolved(result: ExecutionResult) | Rejected(error: JobError) | RejectedClosed

  datatype Activation = AwaitingProcessor(id: JobId, claimed: Job) | LoopResumable

  datatype Config = Config(instanceId: string, staleHeartbeatMs: nat)

  datatype State = State(
    config: Config,
    jobs: map<JobId, Job>,
    waiters: map<JobId, set<WaiterId>>,
    settled: map<WaiterId, Outcome>,     // every promise settled so far
    controllers: map<JobId, bool>,       // activeCancelControllers: has abort() been called?
    activations: seq<Activation>,
    timer: Option<Time>,
    running: bool,
    wakeRequested: bool,
    closed: bool,
    clock: Time,                         // no clock reading so far was later
    claims: seq<JobId>)                  // every claim so far, oldest first

  /** The clock readings of one block, in the order the code takes them. */
  datatype Readings = Readings(now: Time, retryMs: Time, claimMs: Time, claimedAt: Time, scheduleMs: Time)

  predicate Monotone(clock: Time, r: Readings) {
    clock <= r.now <= r.retryMs <= r.claimMs <= r.claimedAt <= r.scheduleMs
  }

  // ---------------------------------------------------------------- retry rules

  predicate ShouldRetry(error: JobError) {
    error.retryable
    || error.code == CapabilityUnavailable || error.code == Timeout || error.code == UpstreamFailure
    || error.code == StorageUnavailable || error.code == BrokerUnavailable
  }

  function Pow2(n: nat): nat {
    if n == 0 then 1 else 2 * Pow2(n - 1)
  }

  function RetryDelay(attemptCount: nat): nat {
    Min(2000, 200 * Pow2(Max(0, attemptCount - 1)))
  }

  function NormalizedCode(code: ErrorCode): ErrorCode {
    if code.Unlisted? then InternalError else code
  }

  /** What the promise of `submitAndWait` settles to for a terminal record. */
  function ResolveTerminal(job: Job): Outcome {
    if job.result.Some? then Resolved(job.result.value)
    else
      var e := if job.lastError.Some? then job.lastError.value else JobError(InternalError, false);
      Rejected(JobError(NormalizedCode(e.code), e.retryable))
  }

  // ---------------------------------------------------------------- waiters

  function SettleWaiters(s: State, id: JobId, outcome: Outcome): State
    requires id in s.waiters
  {
    s.(waiters := s.waiters - {id},
       settled := s.settled + map w | w in s.waiters[id] :: outcome)
  }

  function Notify(s: State, id: JobId): State {
    if id !in s.waiters then s
    else if s.closed then SettleWaiters(s, id, RejectedClosed)
    else if id in s.jobs && IsTerminal(s.jobs[id].status) then SettleWaiters(s, id, ResolveTerminal(s.jobs[id]))
    else s
  }

  function PutAndNotify(s: State, id: JobId, job: Job): State {
    Notify(s.(jobs := s.jobs[id := job]), id)
  }

  function WaitersOf(s: State, id: JobId): set<WaiterId> {
    if id in s.waiters then s.waiters[id] else {}
  }

  function WaitForTerminal(s: State, id: JobId, w: WaiterId): State {
    if id in s.jobs && IsTerminal(s.jobs[id].status) then s.(settled := s.settled[w := ResolveTerminal(s.jobs[id])])
    else if s.closed then s.(settled := s.settled[w := RejectedClosed])
    else s.(waiters := s.waiters[id := WaitersOf(s, id) + {w}])
  }

  ghost predicate FreshWaiter(s: State, w: WaiterId) {
    w !in s.settled && forall id :: id in s.waiters ==> w !in s.waiters[id]
  }

  // ---------------------------------------------------------------- choosing and claiming

  function QueuedIds(jobs: map<JobId, Job>): set<JobId> {
    set id | id in jobs && jobs[id].status == Queued
  }

  function DueIds(jobs: map<JobId, Job>, now: Time): set<JobId> {
    set id | id in jobs && jobs[id].status == Queued && jobs[id].nextAttemptAt <= now
  }

  /** The sort order of `claimNextJob`; the sort is stable, so equal dates fall back to key order. */
  predicate Before(jobs: map<JobId, Job>, a: JobId, b: JobId)
    requires a in jobs && b in jobs
  {
    if jobs[a].nextAttemptAt != jobs[b].nextAttemptAt then jobs[a].nextAttemptAt < jobs[b].nextAttemptAt
    else if jobs[a].createdAt != jobs[b].createdAt then jobs[a].createdAt < jobs[b].createdAt
    else a < b
  }

  predicate IsFirst(jobs: map<JobId, Job>, ids: set<JobId>, id: JobId)
    requires ids <= jobs.Keys
  {
    id in ids && forall k :: k in ids && k != id ==> Before(jobs, id, k)
  }

  lemma FirstExists(jobs: map<JobId, Job>, ids: set<JobId>)
    requires ids <= jobs.Keys && ids != {}
    ensures exists id :: IsFirst(jobs, ids, id)
  {
    var x :| x in ids;
    if ids == {x} {
      assert IsFirst(jobs, ids, x);
    } else {
      assert ids - {x} != {};
      FirstExists(jobs, ids - {x});
      var y :| IsFirst(jobs, ids - {x}, y);
      if Before(jobs, x, y) {
        assert forall k :: k in ids && k != x ==> k == y || Before(jobs, y, k);
        assert IsFirst(jobs, ids, x);
      } else {
        assert IsFirst(jobs, ids, y);
      }
    }
  }

  lemma FirstIsUnique(jobs: map<JobId, Job>, ids: set<JobId>, a: JobId, b: JobId)
    requires ids <= jobs.Keys && IsFirst(jobs, ids, a) && IsFirst(jobs, ids, b)
    ensures a == b
  {
  }

  ghost function NextJob(jobs: map<JobId, Job>, now: Time): (next: Option<JobId>)
    ensures next.None? <==> DueIds(jobs, now) == {}
    ensures next.Some? ==> IsFirst(jobs, DueIds(jobs, now), next.value)
  {
    if DueIds(jobs, now) == {} then None
    else
      FirstExists(jobs, DueIds(jobs, now));
      var id :| IsFirst(jobs, DueIds(jobs, now), id);
      Some(id)
  }

  function ClaimedJob(job: Job, instanceId: string, claimedAt: Time): Job {
    job.(status := Running,
         attemptCount := job.attemptCount + 1,
         claimedBy := Some(instanceId),
         claimedAt := Some(claimedAt),
         lastHeartbeatAt := Some(claimedAt),
         updatedAt := claimedAt,
         completedAt := None)
  }

  /** `claimNextJob` for a chosen job, up to the point where `processClaimedJob` awaits the processor. */
  function Claim(s: State, id: JobId, claimedAt: Time): State
    requires id in s.jobs
  {
    var job := ClaimedJob(s.jobs[id], s.config.instanceId, claimedAt);
    var put := PutAndNotify(s, id, job);
    put.(controllers := put.controllers[id := false],
         activations := put.activations + [AwaitingProcessor(id, job)],
         claims := put.claims + [id])
  }

  // ---------------------------------------------------------------- the loop and its timer

  predicate IsEarliest(jobs: map<JobId, Job>, t: Time) {
    && (exists id :: id in QueuedIds(jobs) && jobs[id].nextAttemptAt == t)
    && (forall id :: id in QueuedIds(jobs) ==> t <= jobs[id].nextAttemptAt)
  }

  lemma EarliestExists(jobs: map<JobId, Job>)
    requires QueuedIds(jobs) != {}
    ensures exists t :: IsEarliest(jobs, t)
  {
    FirstExists(jobs, QueuedIds(jobs));
    var id :| IsFirst(jobs, QueuedIds(jobs), id);
    assert IsEarliest(jobs, jobs[id].nextAttemptAt);
  }

  ghost function Earliest(jobs: map<JobId, Job>): (t: Time)
    requires QueuedIds(jobs) != {}
    ensures IsEarliest(jobs, t)
  {
    EarliestExists(jobs);
    var t :| IsEarliest(jobs, t);
    t
  }

  ghost function ScheduleNextWake(s: State, nowMs: Time): State {
    if s.closed || s.timer.Some? then s
    else if QueuedIds(s.jobs) == {} then s
    else s.(timer := Some(nowMs + Max(0, Earliest(s.jobs) - nowMs)))
  }

  /** One turn of the loop: from its `while` test to the next await, or out of the loop. */
  ghost function LoopTurn(s: State, r: Readings): State {
    if s.closed then s.(running := false)
    else
      var awake := s.(wakeRequested := false);
      match NextJob(awake.jobs, r.claimMs)
      case Some(id) => Claim(awake, id, r.claimedAt)
      case None => ScheduleNextWake(awake, r.scheduleMs).(running := false)
  }

  ghost function ProcessLoop(s: State, r: Readings): State {
    if s.running || s.closed then s else LoopTurn(s.(running := true), r)
  }

  ghost function Poke(s: State, r: Readings): State {
    if s.closed then s
    else
      var woken := s.(timer := None, wakeRequested := true);
      if s.running then woken else ProcessLoop(woken, r)
  }

  // ---------------------------------------------------------------- committing a processor outcome

  datatype ProcessorOutcome = Returned(result: ExecutionResult) | Threw(error: JobError)

  function CanceledJob(job: Job, at: Time): Job {
    job.(status := Canceled,
         canceledAt := if job.canceledAt.Some? then job.canceledAt else Some(at),
         completedAt := Some(at),
         updatedAt := at,
         claimedBy := None,
         claimedAt := None,
         lastHeartbeatAt := Some(at),
         result := None,
         lastError := Some(JobError(Conflict, false)))
  }

  function SucceededJob(job: Job, result: ExecutionResult): Job {
    job.(status := Succeeded,
         result := Some(result),
         completedAt := Some(result.completedAt),
         updatedAt := result.completedAt,
         claimedBy := None,
         claimedAt := None,
         lastHeartbeatAt := Some(result.completedAt),
         lastError := None,
         canceledAt := None)
  }

  predicate Retries(job: Job, error: JobError) {
    ShouldRetry(error) && job.attemptCount < job.maxAttempts
  }

  function FailedOrRetriedJob(job: Job, error: JobError, updatedAt: Time, retryMs: Time): Job {
    var retryable := Retries(job, error);
    job.(status := if retryable then Queued else Failed,
         nextAttemptAt := if retryable then retryMs + RetryDelay(job.attemptCount) else job.nextAttemptAt,
         updatedAt := updatedAt,
         completedAt := if retryable then None else Some(updatedAt),
         claimedBy := None,
         claimedAt := None,
         lastHeartbeatAt := Some(updatedAt),
         lastError := Some(JobError(error.code, retryable)))
  }

  ghost function CommittedResult(s: State, id: JobId, result: ExecutionResult, r: Readings): State {
    if id !in s.jobs then s
    else if s.jobs[id].status == CancelRequested then PutAndNotify(s, id, CanceledJob(s.jobs[id], r.now))
    else PutAndNotify(s, id, SucceededJob(s.jobs[id], result))
  }

  ghost function CommittedFailure(s: State, current: Job, id: JobId, error: JobError, r: Readings): State {
    if current.status == CancelRequested || current.cancelRequestedAt.Some? then
      PutAndNotify(s, id, CanceledJob(current, r.now))
    else
      var put := PutAndNotify(s, id, FailedOrRetriedJob(current, error, r.now, r.retryMs));
      if Retries(current, error) then Poke(put, r) else put
  }

  /** `processClaimedJob` from its await of the processor to the end of its try and catch. */
  ghost function Committed(s: State, claimed: Activation, outcome: ProcessorOutcome, r: Readings): State
    requires claimed.AwaitingProcessor?
  {
    match outcome
    case Returned(result) => CommittedResult(s, claimed.id, result, r)
    case Threw(error) =>
      CommittedFailure(s, if claimed.id in s.jobs then s.jobs[claimed.id] else claimed.claimed, claimed.id, error, r)
  }

  /** Its `finally` block, and its return to the loop. */
  function Finished(s: State, k: nat): State
    requires k < |s.activations| && s.activations[k].AwaitingProcessor?
  {
    s.(controllers := s.controllers - {s.activations[k].id},
       activations := s.activations[k := LoopResumable])
  }

  ghost function SettleProcessor(s: State, k: nat, outcome: ProcessorOutcome, r: Readings): State
    requires k < |s.activations| && s.activations[k].AwaitingProcessor?
  {
    Committed(Finished(s, k), s.activations[k], outcome, r)
  }

  ghost function Resume(s: State, k: nat, r: Readings): State
    requires k < |s.activations|
  {
    LoopTurn(s.(activations := s.activations[..k] + s.activations[k + 1..]), r)
  }

  // ---------------------------------------------------------------- operator and client calls

  function SubmittedJob(jobs: map<JobId, Job>, id: JobId, request: string, maxAttempts: nat, now: Time): Job {
    if id in jobs then jobs[id].(request := request, maxAttempts := maxAttempts, updatedAt := now)
    else Job(request, Queued, 0, maxAttempts, None, None, None, None, None, None, None,
             now, now, now, None, None, None)
  }

  ghost function Submit(s: State, id: JobId, request: string, maxAttempts: nat, w: WaiterId, r: Readings): State {
    var put := PutAndNotify(s, id, SubmittedJob(s.jobs, id, request, maxAttempts, r.now));
    WaitForTerminal(Poke(put, r), id, w)
  }

  function CancelStamped(job: Job, requester: Option<string>, reason: Option<string>, now: Time): Job {
    job.(cancelRequestedAt := if job.cancelRequestedAt.Some? then job.cancelRequestedAt else Some(now),
         cancelRequestedBy := if requester.Some? then requester else job.cancelRequestedBy,
         cancelReason := if reason.Some? then reason else job.cancelReason,
         updatedAt := now)
  }

  function CanceledBeforeDispatch(job: Job, requester: Option<string>, reason: Option<string>, now: Time): Job {
    CancelStamped(job, requester, reason, now).(
      status := Canceled,
      canceledAt := Some(now),
      completedAt := Some(now),
      claimedBy := None,
      claimedAt := None,
      lastHeartbeatAt := Some(now),
      lastError := Some(JobError(Conflict, false)))
  }

  function Cancel(s: State, id: JobId, requester: Option<string>, reason: Option<string>, now: Time): State {
    if id !in s.jobs then s
    else if s.jobs[id].status == Queued then
      PutAndNotify(s, id, CanceledBeforeDispatch(s.jobs[id], requester, reason, now))
    else if s.jobs[id].status == Running || s.jobs[id].status == CancelRequested then
      var aborted := s.(controllers := if id in s.controllers then s.controllers[id := true] else s.controllers);
      PutAndNotify(aborted, id, CancelStamped(s.jobs[id], requester, reason, now).(status := CancelRequested))
    else s
  }

  datatype RequestError = JobNotFound | JobNotFailed | LimitBelowAttempts

  function RequeuedJob(job: Job, reset: bool, limit: Option<nat>, now: Time): Job {
    job.(status := Queued,
         attemptCount := if reset then 0 else job.attemptCount,
         maxAttempts := if limit.Some? then limit.value else job.maxAttempts,
         claimedBy := None,
         claimedAt := None,
         lastHeartbeatAt := None,
         cancelRequestedAt := None,
         cancelRequestedBy := None,
         cancelReason := None,
         canceledAt := None,
         nextAttemptAt := now,
         updatedAt := now,
         completedAt := None,
         lastError := None,
         result := None)
  }

  function RequeueCheck(jobs: map<JobId, Job>, id: JobId, reset: bool, limit: Option<nat>): Option<RequestError> {
    if id !in jobs then Some(JobNotFound)
    else if jobs[id].status != Failed then Some(JobNotFailed)
    else if !reset && (if limit.Some? then limit.value else jobs[id].maxAttempts) < jobs[id].attemptCount then
      Some(LimitBelowAttempts)
    else None
  }

  ghost function Requeue(s: State, id: JobId, reset: bool, limit: Option<nat>, r: Readings): State {
    if RequeueCheck(s.jobs, id, reset, limit).Some? then s
    else Poke(PutAndNotify(s, id, RequeuedJob(s.jobs[id], reset, limit, r.now)), r)
  }

  function Heartbeat(s: State, id: JobId, now: Time): State {
    if s.closed || id !in s.jobs || (s.jobs[id].status != Running && s.jobs[id].status != CancelRequested) then s
    else PutAndNotify(s, id, s.jobs[id].(lastHeartbeatAt := Some(now), updatedAt := now))
  }

  function Close(s: State): State {
    s.(closed := true,
       timer := None,
       controllers := map id | id in s.controllers :: true,
       settled := s.settled + AllRejected(AllWaiters(s.waiters)),
       waiters := map[])
  }

  function AllWaiters(waiters: map<JobId, set<WaiterId>>): set<WaiterId> {
    set id, w | id in waiters && w in waiters[id] :: w
  }

  function AllRejected(ws: set<WaiterId>): map<WaiterId, Outcome> {
    map w | w in ws :: RejectedClosed
  }

  // ---------------------------------------------------------------- start after a restart

  predicate IsStale(job: Job, staleMs: nat, nowMs: Time) {
    job.status == Running
    && nowMs - (if job.lastHeartbeatAt.Some? then job.lastHeartbeatAt.value
                else if job.claimedAt.Some? then job.claimedAt.value else job.updatedAt) > staleMs
  }

  function RecoveredJob(job: Job, updatedAt: Time): Job {
    var retryable := job.attemptCount < job.maxAttempts;
    job.(status := if retryable then Queued else Failed,
         nextAttemptAt := if retryable then updatedAt else job.nextAttemptAt,
         updatedAt := updatedAt,
         completedAt := if retryable then None else Some(updatedAt),
         claimedBy := None,
         claimedAt := None,
         lastHeartbeatAt := Some(updatedAt),
         lastError := if retryable then Some(JobError(CapabilityUnavailable, true)) else job.lastError)
  }

  /** `stamps` gives the clock reading taken while each job is rewritten. */
  function Recovered(jobs: map<JobId, Job>, staleMs: nat, nowMs: Time, stamps: JobId -> Time): map<JobId, Job> {
    map id | id in jobs :: if IsStale(jobs[id], staleMs, nowMs) then RecoveredJob(jobs[id], stamps(id)) else jobs[id]
  }

  ghost function Start(s: State, stamps: JobId -> Time, r: Readings): State {
    Poke(s.(jobs := Recovered(s.jobs, s.config.staleHeartbeatMs, r.now, stamps)), r)
  }

  /** A new queue object over whatever the registry holds. */
  function Boot(config: Config, jobs: map<JobId, Job>, settled: map<WaiterId, Outcome>, clock: Time,
                claims: seq<JobId>): State {
    State(config, jobs, map[], settled, map[], [], None, false, false, false, clock, claims)
  }

  // ---------------------------------------------------------------- events and runs

  datatype Event =
    | SubmitEvent(id: JobId, request: string, maxAttempts: nat, waiter: WaiterId)
    | CancelEvent(id: JobId, requester: Option<string>, reason: Option<string>)
    | RequeueEvent(id: JobId, reset: bool, limit: Option<nat>)
    | HeartbeatEvent(id: JobId)
    | SettleEvent(k: nat, outcome: ProcessorOutcome)
    | ResumeEvent(k: nat)
    | TimerEvent
    | CloseEvent
    | RestartEvent(config: Config, stamps: JobId -> Time)

  ghost predicate Enabled(s: State, e: Event, r: Readings) {
    && Monotone(s.clock, r)
    && match e
       case SubmitEvent(_, _, maxAttempts, w) => maxAttempts > 0 && FreshWaiter(s, w)
       case RequeueEvent(_, _, limit) => limit.Some? ==> limit.value > 0
       case SettleEvent(k, _) => k < |s.activations| && s.activations[k].AwaitingProcessor?
       case ResumeEvent(k) => k < |s.activations| && s.activations[k].LoopResumable?
       case TimerEvent => s.timer.Some? && s.timer.value <= r.now
       case RestartEvent(_, stamps) => forall id :: r.now <= stamps(id) <= r.claimMs
       case _ => true
  }

  ghost function Apply(s: State, e: Event, r: Readings): State
    requires Enabled(s, e, r)
  {
    match e
    case SubmitEvent(id, request, maxAttempts, w) => Submit(s, id, request, maxAttempts, w, r)
    case CancelEvent(id, requester, reason) => Cancel(s, id, requester, reason, r.now)
    case RequeueEvent(id, reset, limit) => Requeue(s, id, reset, limit, r)
    case HeartbeatEvent(id) => Heartbeat(s, id, r.now)
    case SettleEvent(k, outcome) => SettleProcessor(s, k, outcome, r)
    case ResumeEvent(k) => Resume(s, k, r)
    case TimerEvent => Poke(s.(timer := None), r)
    case CloseEvent => Close(s)
    case RestartEvent(config, stamps) => Start(Boot(config, s.jobs, s.settled, s.clock, s.claims), stamps, r)
  }

  ghost function Step(s: State, e: Event, r: Readings): State
    requires Enabled(s, e, r)
  {
    Apply(s, e, r).(clock := r.scheduleMs)
  }

  datatype Moment = Moment(event: Event, readings: Readings)

  ghost predicate Possible(s: State, run: seq<Moment>)
    decreases |run|
  {
    run == [] ||
    (Enabled(s, run[0].event, run[0].readings)
     && Possible(Step(s, run[0].event, run[0].readings), run[1..]))
  }

  ghost function Exec(s: State, run: seq<Moment>): State
    requires Possible(s, run)
    decreases |run|
  {
    if run == [] then s else Exec(Step(s, run[0].event, run[0].readings), run[1..])
  }
}
