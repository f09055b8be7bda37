/**
 The queue left to itself: how long its own blocks can go on, and which claimed records nobody works on.
 */
module QueueProgress {
  import opened Common
  import opened QueueModel
  import opened QueueInvariant
  import opened QueueTheorems

  /** A block that needs no call from outside: a settled processor, a loop's next turn, a timer. */
  predicate Automatic(e: Event) {
    e.SettleEvent? || e.ResumeEvent? || e.TimerEvent?
  }

  ghost predicate AutomaticRun(run: seq<Moment>) {
    forall i :: 0 <= i < |run| ==> Automatic(run[i].event)
  }

  ghost predicate SameInstance(run: seq<Moment>) {
    forall i :: 0 <= i < |run| ==> !run[i].event.RestartEvent?
  }

  // ---------------------------------------------------------------- how much work is left

  /** The claims that all records together still allow. */
  ghost function TotalBudget(jobs: map<JobId, Job>): nat {
    if jobs == map[] then 0
    else
      var id :| id in jobs;
      Budget(jobs[id]) + TotalBudget(jobs - {id})
  }

  lemma {:induction false} TotalWithout(jobs: map<JobId, Job>, id: JobId)
    requires id in jobs
    ensures TotalBudget(jobs) == Budget(jobs[id]) + TotalBudget(jobs - {id})
    decreases |jobs|
  {
    var k :| k in jobs && TotalBudget(jobs) == Budget(jobs[k]) + TotalBudget(jobs - {k});
    if k != id {
      TotalWithout(jobs - {k}, id);
      TotalWithout(jobs - {id}, k);
      assert jobs - {k} - {id} == jobs - {id} - {k};
    }
  }

  lemma {:induction false} TotalAtMost(jobs: map<JobId, Job>, more: map<JobId, Job>)
    requires jobs.Keys == more.Keys && forall id :: id in jobs ==> Budget(jobs[id]) <= Budget(more[id])
    ensures TotalBudget(jobs) <= TotalBudget(more)
    decreases |jobs|
  {
    if id :| id in jobs {
      TotalWithout(jobs, id);
      TotalWithout(more, id);
      TotalAtMost(jobs - {id}, more - {id});
    } else {
      assert jobs == map[];
    }
  }

  lemma TotalAfterPut(jobs: map<JobId, Job>, id: JobId, job: Job)
    requires id in jobs && Budget(job) < Budget(jobs[id])
    ensures TotalBudget(jobs[id := job]) < TotalBudget(jobs)
  {
    TotalWithout(jobs, id);
    TotalWithout(jobs[id := job], id);
    assert jobs[id := job] - {id} == jobs - {id};
  }

  ghost function LoopWork(activations: seq<Activation>): nat {
    if activations == [] then 0 else if activations[0].AwaitingProcessor? then 3 else 2
  }

  /** A timer that finds nothing due is set once more, to a time at which something is. */
  ghost function TimerWork(jobs: map<JobId, Job>, timer: Option<Time>): nat {
    if timer.None? then 0
    else if exists id :: id in QueuedIds(jobs) && jobs[id].nextAttemptAt <= timer.value then 1
    else 2
  }

  ghost function Work(s: State): nat {
    4 * TotalBudget(s.jobs) + LoopWork(s.activations) + TimerWork(s.jobs, s.timer)
  }

  lemma WrittenBudgets(s: State, e: Event, r: Readings)
    requires Inv(s) && Enabled(s, e, r) && Automatic(e)
    ensures Written(s, e, r).Keys == s.jobs.Keys
    ensures TotalBudget(Written(s, e, r)) <= TotalBudget(s.jobs)
  {
    var written := Written(s, e, r);
    assert written.Keys == s.jobs.Keys;
    forall id | id in s.jobs ensures Budget(written[id]) <= Budget(s.jobs[id]) {
      BudgetWritten(s, e, r, id);
    }
    TotalAtMost(written, s.jobs);
  }

  /** Each claim uses up some budget. */
  lemma ClaimSpends(jobs: map<JobId, Job>, left: seq<Activation>, before: seq<JobId>, t: State, c: Option<JobId>,
                    r: Readings)
    requires ClaimsFrom(jobs, left, before, t, c, r)
    ensures c.None? ==> TotalBudget(t.jobs) == TotalBudget(jobs) && t.activations == left
    ensures c.Some? ==> TotalBudget(t.jobs) < TotalBudget(jobs)
  {
    if c.Some? {
      TotalAfterPut(jobs, c.value, ClaimedJob(jobs[c.value], t.config.instanceId, r.claimedAt));
    }
  }

  /** A turn that claims nothing leaves no timer, or one that will find something due. */
  lemma TurnArms(s: State, r: Readings)
    requires s.timer.None?
    ensures TimerWork(LoopTurn(s, r).jobs, LoopTurn(s, r).timer) <= 1
  {
    if !s.closed {
      var awake := s.(wakeRequested := false);
      match NextJob(awake.jobs, r.claimMs)
      case Some(id) =>
      case None =>
        if QueuedIds(s.jobs) != {} {
          var id :| id in QueuedIds(s.jobs) && s.jobs[id].nextAttemptAt == Earliest(s.jobs);
        }
    }
  }

  /** A timer that will find something due has claimed it once it has fired. */
  lemma FiringClaims(s: State, r: Readings, id: JobId)
    requires Inv(s) && Enabled(s, TimerEvent, r)
    requires id in QueuedIds(s.jobs) && s.jobs[id].nextAttemptAt <= s.timer.value
    ensures Step(s, TimerEvent, r).claims != s.claims
  {
    WakeUpClaims(s, r, id);
  }

  lemma TimerStepWork(s: State, r: Readings)
    requires Inv(s) && Enabled(s, TimerEvent, r)
    ensures Work(Step(s, TimerEvent, r)) < Work(s)
  {
    var t := Step(s, TimerEvent, r);
    var c := TimerShape(s, TimerEvent, r);
    ClaimSpends(s.jobs, s.activations, s.claims, t, c, r);
    StepKeeps(s, TimerEvent, r);
    if c.None? {
      if id :| id in QueuedIds(s.jobs) && s.jobs[id].nextAttemptAt <= s.timer.value {
        FiringClaims(s, r, id);
      }
      TurnArms(s.(timer := None, wakeRequested := true, running := true), r);
    } else {
      BusyWork(t);
    }
  }

  /** While a loop is suspended no timer is armed. */
  lemma BusyWork(s: State)
    requires Inv(s) && s.activations != []
    ensures |s.activations| == 1 && s.timer.None? && Work(s) == 4 * TotalBudget(s.jobs) + LoopWork(s.activations)
  {
  }

  lemma ResumeStepWork(s: State, e: Event, r: Readings)
    requires Inv(s) && Enabled(s, e, r) && e.ResumeEvent?
    ensures Work(Step(s, e, r)) < Work(s)
  {
    var t := Step(s, e, r);
    var c := ResumeShape(s, e, r);
    ClaimSpends(s.jobs, Left(s, e), s.claims, t, c, r);
    StepKeeps(s, e, r);
    BusyWork(s);
    if c.None? {
      TurnArms(s.(activations := s.activations[..e.k] + s.activations[e.k + 1..]), r);
    } else {
      BusyWork(t);
    }
  }

  lemma SettleStepWork(s: State, e: Event, r: Readings)
    requires Inv(s) && Enabled(s, e, r) && e.SettleEvent?
    ensures Work(Step(s, e, r)) < Work(s)
  {
    var t := Step(s, e, r);
    var c := SettleShape(s, e, r);
    WrittenBudgets(s, e, r);
    ClaimSpends(Written(s, e, r), Left(s, e), s.claims, t, c, r);
    StepKeeps(s, e, r);
    BusyWork(s);
    BusyWork(t);
  }

  /** Every block of the queue's own uses up work, whatever the processor answers. */
  lemma AutomaticStepWork(s: State, e: Event, r: Readings)
    requires Inv(s) && Enabled(s, e, r) && Automatic(e)
    ensures Work(Step(s, e, r)) < Work(s)
  {
    hide Step;
    hide Work;
    hide Inv;
    match e
    case SettleEvent(_, _) => SettleStepWork(s, e, r);
    case ResumeEvent(_) => ResumeStepWork(s, e, r);
    case TimerEvent => TimerStepWork(s, r);
  }

  /** So left to itself the queue comes to rest: it can make `Work(s)` blocks at most. */
  lemma {:induction false} AutomaticRunsEnd(s: State, run: seq<Moment>)
    requires Inv(s) && Possible(s, run) && AutomaticRun(run)
    ensures |run| + Work(Exec(s, run)) <= Work(s)
    decreases |run|
  {
    if run != [] {
      hide Work;
      var e, r := run[0].event, run[0].readings;
      AutomaticStepWork(s, e, r);
      StepKeeps(s, e, r);
      hide Step;
      hide Inv;
      AutomaticRunsEnd(Step(s, e, r), run[1..]);
    }
  }

  // ---------------------------------------------------------------- the queue at rest

  ghost predicate Quiet(s: State) {
    s.activations == [] && s.timer.None?
  }

  /** The queue rests exactly when no block of its own can ever happen again. */
  lemma QuietMeansStuck(s: State)
    ensures Quiet(s) <==> forall e, r :: Automatic(e) ==> !Enabled(s, e, r)
  {
    if !Quiet(s) {
      var at := if s.timer.Some? then Max(s.clock, s.timer.value) else s.clock;
      var r := Readings(at, at, at, at, at);
      if s.timer.Some? {
        assert Enabled(s, TimerEvent, r);
      } else if s.activations[0].AwaitingProcessor? {
        assert Enabled(s, SettleEvent(0, Threw(JobError(InternalError, false))), r);
      } else {
        assert Enabled(s, ResumeEvent(0), r);
      }
    }
  }

  // ---------------------------------------------------------------- stranded records

  ghost predicate StrandedIn(jobs: map<JobId, Job>, activations: seq<Activation>, id: JobId) {
    && id in jobs && InFlight(jobs[id].status)
    && forall a :: a in activations && a.AwaitingProcessor? ==> a.id != id
  }

  /** The record is marked as claimed and no processor works on it. */
  ghost predicate Stranded(s: State, id: JobId) {
    StrandedIn(s.jobs, s.activations, id)
  }

  lemma ClaimStrandsNobody(jobs: map<JobId, Job>, left: seq<Activation>, before: seq<JobId>, t: State, c: Option<JobId>,
                           r: Readings, id: JobId)
    requires ClaimsFrom(jobs, left, before, t, c, r)
    ensures StrandedIn(jobs, left, id) <==> Stranded(t, id)
  {
    if c.Some? {
      var last := AwaitingProcessor(c.value, ClaimedJob(jobs[c.value], t.config.instanceId, r.claimedAt));
      assert forall a :: a in t.activations <==> a in left || a == last;
      assert last in t.activations;
    }
  }

  /** A restart strands exactly the claimed records that are not stale: the freshly beaten and the canceled ones. */
  lemma RestartStrands(s: State, e: Event, r: Readings, id: JobId)
    requires Enabled(s, e, r) && e.RestartEvent?
    ensures Stranded(Step(s, e, r), id)
            <==> id in s.jobs && InFlight(s.jobs[id].status) && !IsStale(s.jobs[id], e.config.staleHeartbeatMs, r.now)
    ensures Stranded(Step(s, e, r), id) ==> Step(s, e, r).jobs[id] == s.jobs[id]
  {
    var c := RestartShape(s, e, r);
    hide Step;
    ClaimStrandsNobody(Written(s, e, r), Left(s, e), s.claims, Step(s, e, r), c, r, id);
  }

  lemma WrittenStrandsNobody(s: State, e: Event, r: Readings, id: JobId)
    requires Inv(s) && Enabled(s, e, r) && !e.RestartEvent?
    ensures StrandedIn(Written(s, e, r), Left(s, e), id) <==> Stranded(s, id)
  {
  }

  /** No other block strands a record, and none ever helps a stranded one. */
  lemma StrandedKept(s: State, e: Event, r: Readings, id: JobId)
    requires Inv(s) && Enabled(s, e, r) && !e.RestartEvent?
    ensures Stranded(Step(s, e, r), id) <==> Stranded(s, id)
  {
    WrittenStrandsNobody(s, e, r, id);
    hide Step;
    hide Written;
    hide Left;
    var c := StepShape(s, e, r);
    ClaimStrandsNobody(Written(s, e, r), Left(s, e), s.claims, Step(s, e, r), c, r, id);
  }

  lemma {:induction false} StrandedRun(s: State, run: seq<Moment>, id: JobId)
    requires Inv(s) && Possible(s, run) && SameInstance(run)
    ensures Stranded(Exec(s, run), id) <==> Stranded(s, id)
    decreases |run|
  {
    if run != [] {
      var e, r := run[0].event, run[0].readings;
      StrandedKept(s, e, r, id);
      StepKeeps(s, e, r);
      hide Step;
      hide Inv;
      hide Stranded;
      assert SameInstance(run[1..]);
      StrandedRun(Step(s, e, r), run[1..], id);
    }
  }

  /**
   After a restart a claimed record is out of reach for good, through every later block of that process,
   if and only if it was not stale when the process started.
   */
  lemma StrandedForGood(s: State, e: Event, r: Readings, run: seq<Moment>, id: JobId)
    requires Inv(s) && Enabled(s, e, r) && e.RestartEvent? && id in s.jobs && InFlight(s.jobs[id].status)
    requires Possible(Step(s, e, r), run) && SameInstance(run)
    ensures Stranded(Exec(Step(s, e, r), run), id) <==> !IsStale(s.jobs[id], e.config.staleHeartbeatMs, r.now)
    ensures s.jobs[id].status == CancelRequested ==> Stranded(Exec(Step(s, e, r), run), id)
  {
    RestartStrands(s, e, r, id);
    StepKeeps(s, e, r);
    StrandedRun(Step(s, e, r), run, id);
  }

  /** It happens: a record asked to cancel, whose process ended before its processor noticed. */
  lemma CancelRequestedIsStranded() returns (s: State, e: Event, r: Readings)
    ensures Inv(s) && Enabled(s, e, r) && e.RestartEvent?
    ensures 7 in s.jobs && s.jobs[7].status == CancelRequested && Stranded(Step(s, e, r), 7)
  {
    var job := Job("call", CancelRequested, 1, 3, Some("old"), Some(0), Some(0), Some(0), None, None, None,
                   0, 0, 0, None, None, None);
    s := Boot(Config("old", 2000), map[7 := job], map[], 5000, []);
    e := RestartEvent(Config("new", 2000), (id: JobId) => 5000);
    r := Readings(5000, 5000, 5000, 5000, 5000);
    RestartStrands(s, e, r, 7);
  }

  /** And a running record whose last heartbeat is as recent as it may be. */
  lemma FreshlyBeatenIsStranded() returns (s: State, e: Event, r: Readings)
    ensures Inv(s) && Enabled(s, e, r) && e.RestartEvent?
    ensures 7 in s.jobs && s.jobs[7].status == Running && Stranded(Step(s, e, r), 7)
  {
    var job := Job("call", Running, 1, 3, Some("old"), Some(0), Some(3000), None, None, None, None,
                   0, 0, 0, None, None, None);
    s := Boot(Config("old", 2000), map[7 := job], map[], 5000, []);
    e := RestartEvent(Config("new", 2000), (id: JobId) => 5000);
    r := Readings(5000, 5000, 5000, 5000, 5000);
    RestartStrands(s, e, r, 7);
  }

  /** An open queue that has come to rest by itself has finished every record that was not stranded from the start. */
  lemma RestMeansFinished(s: State, run: seq<Moment>, id: JobId)
    requires Inv(s) && Possible(s, run) && AutomaticRun(run)
    ensures var t := Exec(s, run);
            Quiet(t) && !t.closed && id in t.jobs ==> (IsTerminal(t.jobs[id].status) <==> !Stranded(s, id))
  {
    RunKeeps(s, run);
    StrandedRun(s, run, id);
  }
}
