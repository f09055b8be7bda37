/**
 How any number of callers share one authority daemon per runtime root.

 A caller follows the automaton Advance: in each phase it waits for one answer from its
 surroundings.  Effect says what the code does to the lock file and to its own daemon
 before it waits again.  Callers may be processes or calls inside one process.
 */
module SessionProtocol {
  type Caller = nat

  const MAX_ATTEMPTS: nat := 4

  datatype Failure = ConnectFailure | HelloRefused | AddressInUse | LaunchBroken | LockBroken

  datatype Answer =
    | HelloOk | HelloUnreachable | HelloFailed         // the hello request
    | LockTaken | LockBusy | LockError(left: bool)     // the exclusive create; a failed write may leave the file
    | LaunchOk | LaunchInUse | LaunchError             // starting the daemon
    | Stopped | StopError(alive: bool)                 // shutting it down
    | Slept
    | CallbackDone

  datatype Phase =
    | Greeting(attempt: nat)
    | Locking(attempt: nat)
    | Sleeping(attempt: nat)
    | Rechecking(attempt: nat)
    | Launching(attempt: nat)
    | Verifying(attempt: nat)
    | Stopping(attempt: nat, cause: Failure)
    | Session(started: bool)
    | Closing
    | Jammed                      // the last shutdown threw, so the release after it never ran
    | Done
    | Failed(error: Failure)

  datatype Op = TakeLock | FreeLock | LeaveLock | StartDaemon | StopDaemon | AbandonDaemon

  predicate Expects(phase: Phase, a: Answer) {
    match phase
    case Greeting(_) => a.HelloOk? || a.HelloUnreachable? || a.HelloFailed?
    case Rechecking(_) => a.HelloOk? || a.HelloUnreachable? || a.HelloFailed?
    case Verifying(_) => a.HelloOk? || a.HelloUnreachable? || a.HelloFailed?
    case Locking(_) => a.LockTaken? || a.LockBusy? || a.LockError?
    case Launching(_) => a.LaunchOk? || a.LaunchInUse? || a.LaunchError?
    case Stopping(_, _) => a.Stopped? || a.StopError?
    case Closing => a.Stopped? || a.StopError?
    case Sleeping(_) => a.Slept?
    case Session(_) => a.CallbackDone?
    case _ => false
  }

  /** After a failure that may be retried: sleep while attempts are left, else give up. */
  function Retry(attempt: nat, error: Failure): Phase {
    if attempt < MAX_ATTEMPTS then Sleeping(attempt) else Failed(error)
  }

  function Advance(phase: Phase, a: Answer): Phase
    requires Expects(phase, a)
  {
    match phase
    case Greeting(n) =>
      if a.HelloOk? then Session(false) else if a.HelloFailed? then Failed(HelloRefused) else Locking(n)
    case Locking(n) =>
      if a.LockTaken? then Rechecking(n) else if a.LockError? then Failed(LockBroken) else Retry(n, ConnectFailure)
    case Sleeping(n) => Greeting(n + 1)
    case Rechecking(n) =>
      if a.HelloOk? then Session(false) else if a.HelloFailed? then Failed(HelloRefused) else Launching(n)
    case Launching(n) =>
      if a.LaunchOk? then Verifying(n) else if a.LaunchInUse? then Retry(n, AddressInUse) else Failed(LaunchBroken)
    case Verifying(n) =>
      if a.HelloOk? then Session(true)
      else Stopping(n, if a.HelloFailed? then HelloRefused else ConnectFailure)
    case Stopping(n, cause) => if cause == ConnectFailure then Retry(n, cause) else Failed(cause)
    case Session(started) => if started then Closing else Done
    case Closing => if a.Stopped? then Done else Jammed
  }

  function Effect(phase: Phase, a: Answer): seq<Op>
    requires Expects(phase, a)
  {
    match phase
    case Locking(_) => if a.LockTaken? then [TakeLock] else if a == LockError(true) then [LeaveLock] else []
    case Rechecking(_) => if a.HelloUnreachable? then [] else [FreeLock]
    case Launching(_) => if a.LaunchOk? then [StartDaemon] else [FreeLock]
    case Stopping(_, _) => [if a == StopError(true) then AbandonDaemon else StopDaemon, FreeLock]
    case Closing => if a.Stopped? then [StopDaemon, FreeLock] else if a.alive then [] else [StopDaemon]
    case _ => []
  }

  // ---------------------------------------------------------------- the shared runtime root

  datatype LockFile = NoFile | Owned(caller: Caller) | Orphan

  /** What each successful create and each removal did to the file, oldest first. */
  datatype Entry = Took(caller: Caller) | Freed(caller: Caller, removed: LockFile)

  datatype Root = Root(
    lock: LockFile,
    daemons: set<Caller>,           // callers that are responsible for a live daemon
    leaked: multiset<Caller>,       // live daemons whose caller tried to stop them and moved on
    phases: map<Caller, Phase>,
    log: seq<Entry>)

  function ApplyOp(s: Root, p: Caller, op: Op): Root {
    match op
    case TakeLock => s.(lock := Owned(p), log := s.log + [Took(p)])
    case FreeLock => s.(lock := NoFile, log := s.log + [Freed(p, s.lock)])
    case LeaveLock => s.(lock := Orphan)
    case StartDaemon => s.(daemons := s.daemons + {p})
    case StopDaemon => s.(daemons := s.daemons - {p})
    case AbandonDaemon =>
      s.(daemons := s.daemons - {p}, leaked := if p in s.daemons then s.leaked + multiset{p} else s.leaked)
  }

  /** A failing removal is swallowed: the caller goes on as if the file were gone. */
  function Carried(ops: seq<Op>, removed: bool): seq<Op> {
    if !removed && ops != [] && ops[|ops| - 1] == FreeLock then ops[..|ops| - 1] + [LeaveLock] else ops
  }

  function ApplyOps(s: Root, p: Caller, ops: seq<Op>): Root
    decreases |ops|
  {
    if ops == [] then s else ApplyOps(ApplyOp(s, p, ops[0]), p, ops[1..])
  }

  /** `removed` says whether the lock file goes away, if the caller's reaction removes it. */
  datatype Event =
    | Begin(p: Caller) | Answered(p: Caller, a: Answer, removed: bool) | DaemonDies(p: Caller) | LeakedDies(p: Caller)

  predicate Enabled(s: Root, e: Event) {
    match e
    case Begin(p) => p !in s.phases
    case Answered(p, a, _) =>
      && p in s.phases && Expects(s.phases[p], a)
      && (a.LockTaken? ==> s.lock == NoFile)
      && (a.LockBusy? ==> s.lock != NoFile)
      && (a == LockError(true) ==> s.lock == NoFile)
    case _ => true
  }

  function Step(s: Root, e: Event): Root
    requires Enabled(s, e)
  {
    match e
    case Begin(p) => s.(phases := s.phases[p := Greeting(1)])
    case Answered(p, a, removed) =>
      ApplyOps(s, p, Carried(Effect(s.phases[p], a), removed)).(phases := s.phases[p := Advance(s.phases[p], a)])
    case DaemonDies(p) => s.(daemons := s.daemons - {p})
    case LeakedDies(p) => s.(leaked := s.leaked - multiset{p})
  }

  predicate Possible(s: Root, run: seq<Event>)
    decreases |run|
  {
    run == [] || (Enabled(s, run[0]) && Possible(Step(s, run[0]), run[1..]))
  }

  function Exec(s: Root, run: seq<Event>): Root
    requires Possible(s, run)
    decreases |run|
  {
    if run == [] then s else Exec(Step(s, run[0]), run[1..])
  }

  const EMPTY_ROOT: Root := Root(NoFile, {}, multiset{}, map[], [])

  // ---------------------------------------------------------------- the invariant

  /** The phases in which the caller has a release closure it has not called yet. */
  predicate HoldsLock(phase: Phase) {
    phase.Rechecking? || phase.Launching? || phase.Verifying? || phase.Stopping?
    || phase == Session(true) || phase.Closing? || phase.Jammed?
  }

  predicate MayRunDaemon(phase: Phase) {
    phase.Verifying? || phase.Stopping? || phase == Session(true) || phase.Closing? || phase.Jammed?
  }

  predicate AttemptOk(phase: Phase) {
    match phase
    case Greeting(n) => 1 <= n <= MAX_ATTEMPTS
    case Locking(n) => 1 <= n <= MAX_ATTEMPTS
    case Rechecking(n) => 1 <= n <= MAX_ATTEMPTS
    case Launching(n) => 1 <= n <= MAX_ATTEMPTS
    case Verifying(n) => 1 <= n <= MAX_ATTEMPTS
    case Stopping(n, _) => 1 <= n <= MAX_ATTEMPTS
    case Sleeping(n) => 1 <= n < MAX_ATTEMPTS
    case _ => true
  }

  predicate EntryOk(log: seq<Entry>, i: nat)
    requires i < |log|
  {
    if i % 2 == 0 then log[i].Took?
    else log[i].Freed? && log[i - 1] == Took(log[i].caller) && log[i].removed == Owned(log[i].caller)
  }

  /** Creates and removals alternate, and every removal takes away the file its own caller created. */
  predicate Alternates(log: seq<Entry>) {
    forall i: nat :: i < |log| ==> EntryOk(log, i)
  }

  ghost predicate Inv(s: Root) {
    && (forall p :: p in s.phases && HoldsLock(s.phases[p]) ==> s.lock == Owned(p))
    && (s.lock.Owned? ==> s.lock.caller in s.phases && HoldsLock(s.phases[s.lock.caller]))
    && (forall p :: p in s.daemons ==> p in s.phases && MayRunDaemon(s.phases[p]))
    && (forall p :: p in s.phases ==> AttemptOk(s.phases[p]))
    && Alternates(s.log)
    && (s.lock.NoFile? ==> |s.log| % 2 == 0)
    && (s.lock.Owned? ==> |s.log| % 2 == 1)
    && (s.lock.Owned? ==> s.log[|s.log| - 1] == Took(s.lock.caller))
  }

  /** What the caller does to the file and its daemon in answer to `e`. */
  function OpsFor(s: Root, e: Event): seq<Op>
    requires e.Answered? && Enabled(s, e)
  {
    Carried(Effect(s.phases[e.p], e.a), e.removed)
  }

  function Advanced(s: Root, e: Event): map<Caller, Phase>
    requires e.Answered? && Enabled(s, e)
  {
    s.phases[e.p := Advance(s.phases[e.p], e.a)]
  }

  lemma NoOpKeeps(s: Root, e: Event)
    requires Inv(s) && e.Answered? && Enabled(s, e) && OpsFor(s, e) == []
    ensures Inv(s.(phases := Advanced(s, e)))
  {
  }

  lemma LockOpKeeps(s: Root, e: Event)
    requires Inv(s) && e.Answered? && Enabled(s, e) && |OpsFor(s, e)| == 1
    requires OpsFor(s, e)[0].TakeLock? || OpsFor(s, e)[0].LeaveLock?
    ensures Inv(ApplyOp(s, e.p, OpsFor(s, e)[0]).(phases := Advanced(s, e)))
  {
    TookAlternates(s.log, e.p);
  }

  lemma FreeOpKeeps(s: Root, e: Event)
    requires Inv(s) && e.Answered? && Enabled(s, e) && OpsFor(s, e) == [FreeLock]
    ensures Inv(ApplyOp(s, e.p, FreeLock).(phases := Advanced(s, e)))
  {
    FreedAlternates(s.log, e.p);
  }

  lemma DaemonOpKeeps(s: Root, e: Event)
    requires Inv(s) && e.Answered? && Enabled(s, e) && |OpsFor(s, e)| == 1
    requires OpsFor(s, e)[0].StartDaemon? || OpsFor(s, e)[0].StopDaemon?
    ensures Inv(ApplyOp(s, e.p, OpsFor(s, e)[0]).(phases := Advanced(s, e)))
  {
  }

  lemma TwoOpsKeep(s: Root, e: Event)
    requires Inv(s) && e.Answered? && Enabled(s, e) && |OpsFor(s, e)| == 2
    ensures var ops := OpsFor(s, e);
            Inv(ApplyOp(ApplyOp(s, e.p, ops[0]), e.p, ops[1]).(phases := Advanced(s, e)))
  {
    FreedAlternates(s.log, e.p);
  }

  lemma StepKeeps(s: Root, e: Event)
    requires Inv(s) && Enabled(s, e)
    ensures Inv(Step(s, e))
  {
    if e.Answered? {
      var ops := OpsFor(s, e);
      UnrollOps(s, e.p, ops);
      if |ops| == 2 {
        TwoOpsKeep(s, e);
      } else if |ops| == 0 {
        NoOpKeeps(s, e);
      } else if ops[0].FreeLock? {
        FreeOpKeeps(s, e);
      } else if ops[0].TakeLock? || ops[0].LeaveLock? {
        LockOpKeeps(s, e);
      } else {
        DaemonOpKeeps(s, e);
      }
      hide Inv;
    }
  }

  lemma UnrollOps(s: Root, p: Caller, ops: seq<Op>)
    requires |ops| <= 2
    ensures |ops| == 0 ==> ApplyOps(s, p, ops) == s
    ensures |ops| == 1 ==> ApplyOps(s, p, ops) == ApplyOp(s, p, ops[0])
    ensures |ops| == 2 ==> ApplyOps(s, p, ops) == ApplyOp(ApplyOp(s, p, ops[0]), p, ops[1])
    decreases |ops|
  {
    if |ops| == 2 {
      assert ops[1..] == [ops[1]];
      UnrollOps(ApplyOp(s, p, ops[0]), p, ops[1..]);
    }
  }

  lemma TookAlternates(log: seq<Entry>, p: Caller)
    requires Alternates(log)
    ensures |log| % 2 == 0 ==> Alternates(log + [Took(p)])
  {
    forall i: nat | i < |log| ensures EntryOk(log + [Took(p)], i) {
      assert EntryOk(log, i);
    }
  }

  lemma FreedAlternates(log: seq<Entry>, p: Caller)
    requires Alternates(log)
    ensures |log| % 2 == 1 && log[|log| - 1] == Took(p) ==> Alternates(log + [Freed(p, Owned(p))])
  {
    forall i: nat | i < |log| ensures EntryOk(log + [Freed(p, Owned(p))], i) {
      assert EntryOk(log, i);
    }
  }

  lemma {:induction false} RunKeeps(s: Root, run: seq<Event>)
    requires Inv(s) && Possible(s, run)
    ensures Inv(Exec(s, run))
    decreases |run|
  {
    if run != [] {
      StepKeeps(s, run[0]);
      RunKeeps(Step(s, run[0]), run[1..]);
    }
  }

  // ---------------------------------------------------------------- what callers can rely on

  /**
   At every reachable moment one caller at most holds the lock, every removal so far took away the
   remover's own file, a caller that is done, has failed or got somebody else's daemon holds nothing,
   and a session that started a daemon still has the lock.
   */
  lemma LockIsExclusive(run: seq<Event>, p: Caller, q: Caller)
    requires Possible(EMPTY_ROOT, run)
    ensures var s := Exec(EMPTY_ROOT, run);
            && Alternates(s.log)
            && (p in s.phases && q in s.phases && HoldsLock(s.phases[p]) && HoldsLock(s.phases[q]) ==> p == q)
            && (p in s.phases ==> (s.lock == Owned(p) <==> HoldsLock(s.phases[p])))
  {
    RunKeeps(EMPTY_ROOT, run);
  }

  /** The caller's attempt to stop its live daemon failed with the daemon still running, and the caller moved on. */
  predicate Abandons(s: Root, e: Event) {
    e.Answered? && e.a == StopError(true) && e.p in s.phases && s.phases[e.p].Stopping? && e.p in s.daemons
  }

  predicate NeverAbandons(s: Root, run: seq<Event>)
    requires Possible(s, run)
    decreases |run|
  {
    run == [] || (!Abandons(s, run[0]) && NeverAbandons(Step(s, run[0]), run[1..]))
  }

  lemma {:induction false} NothingLeaks(s: Root, run: seq<Event>)
    requires Possible(s, run) && NeverAbandons(s, run) && s.leaked == multiset{}
    ensures Exec(s, run).leaked == multiset{}
    decreases |run|
  {
    if run != [] {
      var e := run[0];
      if e.Answered? {
        UnrollOps(s, e.p, OpsFor(s, e));
      }
      NothingLeaks(Step(s, e), run[1..]);
    }
  }

  function Alive(s: Root): nat {
    |s.daemons| + |s.leaked|
  }

  /** While no caller abandons a daemon it failed to stop, one daemon at most is alive. */
  lemma OneDaemonAtMost(run: seq<Event>)
    requires Possible(EMPTY_ROOT, run) && NeverAbandons(EMPTY_ROOT, run)
    ensures Alive(Exec(EMPTY_ROOT, run)) <= 1
  {
    RunKeeps(EMPTY_ROOT, run);
    NothingLeaks(EMPTY_ROOT, run);
    var s := Exec(EMPTY_ROOT, run);
    if p :| p in s.daemons {
      assert s.daemons == {p};
    }
  }

  lemma {:induction false} ExecConcat(s: Root, run: seq<Event>, more: seq<Event>)
    requires Possible(s, run) && Possible(Exec(s, run), more)
    ensures Possible(s, run + more) && Exec(s, run + more) == Exec(Exec(s, run), more)
    ensures NeverAbandons(s, run + more) <==> NeverAbandons(s, run) && NeverAbandons(Exec(s, run), more)
    decreases |run|
  {
    if run == [] {
      assert run + more == more;
    } else {
      assert (run + more)[1..] == run[1..] + more;
      ExecConcat(Step(s, run[0]), run[1..], more);
    }
  }

  /** One more answer, which is not a failed shutdown. */
  lemma Then(s: Root, run: seq<Event>, p: Caller, a: Answer) returns (longer: seq<Event>)
    requires Possible(s, run) && NeverAbandons(s, run) && !a.StopError? && Enabled(Exec(s, run), Answered(p, a, true))
    ensures longer == run + [Answered(p, a, true)] && Possible(s, longer) && NeverAbandons(s, longer)
    ensures var t, u := Exec(s, run), Exec(s, longer);
            var ops := Effect(t.phases[p], a);
            && u.phases == t.phases[p := Advance(t.phases[p], a)]
            && (ops == [] ==> u.lock == t.lock && u.daemons == t.daemons && u.leaked == t.leaked)
            && (|ops| == 1 ==> var v := ApplyOp(t, p, ops[0]);
                 u.lock == v.lock && u.daemons == v.daemons && u.leaked == v.leaked)
            && (|ops| == 2 ==> var v := ApplyOp(ApplyOp(t, p, ops[0]), p, ops[1]);
                 u.lock == v.lock && u.daemons == v.daemons && u.leaked == v.leaked)
  {
    var t, e := Exec(s, run), Answered(p, a, true);
    OneEvent(t, e);
    ExecConcat(s, run, [e]);
    longer := run + [e];
    UnrollOps(t, p, Effect(t.phases[p], a));
  }

  lemma OneEvent(s: Root, e: Event)
    requires Enabled(s, e)
    ensures Possible(s, [e]) && Exec(s, [e]) == Step(s, e) && (NeverAbandons(s, [e]) <==> !Abandons(s, e))
  {
    assert [e][1..] == [];
  }

  /** While nobody has the lock, a newcomer can start a daemon. */
  lemma LaunchAlone(s: Root, p: Caller) returns (run: seq<Event>)
    requires s.lock == NoFile && p !in s.phases
    ensures Possible(s, run) && NeverAbandons(s, run)
    ensures var t := Exec(s, run);
            t.phases == s.phases[p := Verifying(1)] && t.daemons == s.daemons + {p} && t.leaked == s.leaked
    ensures Launches(run)
  {
    OneEvent(s, Begin(p));
    run := [Begin(p)];
    hide Exec;
    hide Possible;
    hide NeverAbandons;
    run := Then(s, run, p, HelloUnreachable);
    run := Then(s, run, p, LockTaken);
    run := Then(s, run, p, HelloUnreachable);
    run := Then(s, run, p, LaunchOk);
    assert run[|run| - 1] == Answered(p, LaunchOk, true);
  }

  /** A daemon that starts, answers the hello wrongly and does not stop is abandoned. */
  lemma AbandoningHappens() returns (run: seq<Event>, e: Event)
    ensures Possible(EMPTY_ROOT, run) && NeverAbandons(EMPTY_ROOT, run)
    ensures Enabled(Exec(EMPTY_ROOT, run), e) && Abandons(Exec(EMPTY_ROOT, run), e)
  {
    run := LaunchAlone(EMPTY_ROOT, 1);
    hide Exec;
    hide Possible;
    hide NeverAbandons;
    hide Launches;
    run := Then(EMPTY_ROOT, run, 1, HelloFailed);
    e := Answered(1, StopError(true), true);
  }

  lemma {:induction false} Newcomer(taken: set<Caller>) returns (p: Caller)
    ensures forall q :: q in taken ==> q < p
    decreases |taken|
  {
    if q :| q in taken {
      var above := Newcomer(taken - {q});
      p := if above <= q then q + 1 else above;
      forall k | k in taken ensures k < p {
        assert k == q || k in taken - {q};
      }
    } else {
      p := 0;
    }
  }

  /** Whoever abandons a live daemon and clears the lock makes room for a second one: the next caller can start it. */
  lemma AbandonedDaemonAllowsTwo(s: Root, e: Event) returns (more: seq<Event>)
    requires Enabled(s, e) && Abandons(s, e) && e.removed
    ensures Possible(Step(s, e), more) && NeverAbandons(Step(s, e), more) && Alive(Exec(Step(s, e), more)) >= 2
  {
    var t := Step(s, e);
    UnrollOps(s, e.p, OpsFor(s, e));
    assert e.p in t.leaked;
    var q := Newcomer(t.phases.Keys);
    more := LaunchAlone(t, q);
    assert q in Exec(t, more).daemons;
    TwoAlive(Exec(t, more), q, e.p);
  }

  lemma TwoAlive(s: Root, p: Caller, q: Caller)
    requires p in s.daemons && q in s.leaked
    ensures Alive(s) >= 2
  {
    assert {p} <= s.daemons && multiset{q} <= s.leaked;
    assert s.daemons == {p} + (s.daemons - {p}) && s.leaked == multiset{q} + (s.leaked - multiset{q});
  }

  /**
   The exact condition: where nothing was abandoned so far, an event opens the way to two live daemons,
   with nothing abandoned after it, if and only if it abandons one and the lock file goes away.
   */
  lemma SecondDaemonNeedsAbandoning(run: seq<Event>, e: Event)
    requires Possible(EMPTY_ROOT, run) && NeverAbandons(EMPTY_ROOT, run) && Enabled(Exec(EMPTY_ROOT, run), e)
    ensures var t := Step(Exec(EMPTY_ROOT, run), e);
            Abandons(Exec(EMPTY_ROOT, run), e) && e.removed
            <==> exists more :: Possible(t, more) && NeverAbandons(t, more) && Alive(Exec(t, more)) >= 2
  {
    var s := Exec(EMPTY_ROOT, run);
    var t := Step(s, e);
    if Abandons(s, e) && e.removed {
      var more := AbandonedDaemonAllowsTwo(s, e);
    } else if Abandons(s, e) {
      AbandonedBehindLock(run, e);
      forall more | Possible(t, more) && NeverAbandons(t, more) ensures Alive(Exec(t, more)) <= 1 {
        LockedOutRun(t, more);
      }
    } else {
      OneEvent(s, e);
      ExecConcat(EMPTY_ROOT, run, [e]);
      forall more | Possible(t, more) && NeverAbandons(t, more) ensures Alive(Exec(t, more)) <= 1 {
        ExecConcat(EMPTY_ROOT, run + [e], more);
        OneDaemonAtMost(run + [e] + more);
      }
    }
  }

  lemma AbandonedBehindLock(run: seq<Event>, e: Event)
    requires Possible(EMPTY_ROOT, run) && NeverAbandons(EMPTY_ROOT, run) && Enabled(Exec(EMPTY_ROOT, run), e)
    requires Abandons(Exec(EMPTY_ROOT, run), e) && !e.removed
    ensures var t := Step(Exec(EMPTY_ROOT, run), e); Inv(t) && LockedOut(t) && Alive(t) <= 1
  {
    var s := Exec(EMPTY_ROOT, run);
    RunKeeps(EMPTY_ROOT, run);
    StepKeeps(s, e);
    LockLost(s, e);
    OneDaemonAtMost(run);
    UnrollOps(s, e.p, OpsFor(s, e));
    assert s.daemons == {e.p} + (s.daemons - {e.p});
  }

  // ---------------------------------------------------------------- lost locks

  /** The lock file is there, and nobody is left who will remove it. */
  ghost predicate LockedOut(s: Root) {
    s.lock == Orphan || exists p :: p in s.phases && s.phases[p].Jammed?
  }

  /** The last shutdown throws, writing the new lock file fails, or removing the lock file fails. */
  predicate LosesLock(s: Root, e: Event)
    requires Enabled(s, e)
  {
    e.Answered?
    && ((s.phases[e.p].Closing? && e.a.StopError?)
        || e.a == LockError(true)
        || (FreeLock in Effect(s.phases[e.p], e.a) && !e.removed))
  }

  /** There are these three ways to lose the lock for good, and no other. */
  lemma LockLost(s: Root, e: Event)
    requires Inv(s) && Enabled(s, e)
    ensures LockedOut(Step(s, e)) <==> LockedOut(s) || LosesLock(s, e)
  {
    var t := Step(s, e);
    if e.Answered? {
      UnrollOps(s, e.p, OpsFor(s, e));
      LosingAnswer(s, e);
      LostAsBefore(s, e);
    } else {
      if q :| q in s.phases && s.phases[q].Jammed? {
        assert t.phases[q].Jammed?;
      }
      forall q | q in t.phases && t.phases[q].Jammed? ensures q in s.phases && s.phases[q].Jammed? {
      }
    }
  }

  /** The answering caller jams or orphans the file exactly if it loses the lock. */
  lemma LosingAnswer(s: Root, e: Event)
    requires Inv(s) && e.Answered? && Enabled(s, e)
    ensures LosesLock(s, e) <==> Advance(s.phases[e.p], e.a).Jammed? || LeaveLock in OpsFor(s, e)
  {
  }

  lemma LostAsBefore(s: Root, e: Event)
    requires Inv(s) && e.Answered? && Enabled(s, e)
    ensures LockedOut(Step(s, e))
            <==> LockedOut(s) || Advance(s.phases[e.p], e.a).Jammed? || LeaveLock in OpsFor(s, e)
  {
    var t := Step(s, e);
    UnrollOps(s, e.p, OpsFor(s, e));
    assert t.phases == Advanced(s, e);
    if q :| q in s.phases && s.phases[q].Jammed? {
      assert q != e.p;
      assert t.phases[q] == s.phases[q];
    }
    if Advance(s.phases[e.p], e.a).Jammed? {
      assert t.phases[e.p].Jammed?;
    }
    forall q | q in t.phases && t.phases[q].Jammed? ensures q == e.p || s.phases[q].Jammed? {
    }
  }

  /** Nobody starts a daemon any more. */
  lemma LockedOutStep(s: Root, e: Event)
    requires Inv(s) && Enabled(s, e) && LockedOut(s)
    ensures !(e.Answered? && e.a.LaunchOk?) && Alive(Step(s, e)) <= Alive(s)
  {
    if e.Answered? {
      UnrollOps(s, e.p, OpsFor(s, e));
      assert !HoldsLock(s.phases[e.p]) || s.phases[e.p].Jammed?;
    }
    if e.DaemonDies? && e.p in s.daemons {
      assert s.daemons == {e.p} + (s.daemons - {e.p});
    }
  }

  lemma {:induction false} LockedOutRun(s: Root, run: seq<Event>)
    requires Inv(s) && LockedOut(s) && Possible(s, run)
    ensures LockedOut(Exec(s, run)) && Alive(Exec(s, run)) <= Alive(s)
    ensures !Launches(run)
    decreases |run|
  {
    if run != [] {
      StepKeeps(s, run[0]);
      LockLost(s, run[0]);
      LockedOutStep(s, run[0]);
      LockedOutRun(Step(s, run[0]), run[1..]);
    }
  }

  predicate Launches(run: seq<Event>) {
    exists i :: 0 <= i < |run| && run[i].Answered? && run[i].a.LaunchOk?
  }

  /** Whoever has the lock and is not jammed can give it back. */
  lemma OwnerReleases(s: Root, p: Caller) returns (run: seq<Event>)
    requires Inv(s) && s.lock == Owned(p) && !s.phases[p].Jammed?
    ensures Possible(s, run) && Exec(s, run).lock == NoFile && Exec(s, run).phases.Keys == s.phases.Keys
  {
    run := [];
    match s.phases[p]
    case Rechecking(_) => run := Then(s, [], p, HelloFailed);
    case Launching(_) => run := Then(s, [], p, LaunchError);
    case Verifying(_) =>
      run := Then(s, [], p, HelloFailed);
      run := Then(s, run, p, Stopped);
    case Stopping(_, _) => run := Then(s, [], p, Stopped);
    case Session(_) =>
      run := Then(s, [], p, CallbackDone);
      run := Then(s, run, p, Stopped);
    case Closing => run := Then(s, [], p, Stopped);
  }

  /** The lock is lost exactly when no continuation ever starts a daemon again. */
  lemma LockedOutMeansNoDaemon(s: Root)
    requires Inv(s)
    ensures LockedOut(s) <==> forall run :: Possible(s, run) ==> !Launches(run)
  {
    if LockedOut(s) {
      forall run | Possible(s, run) ensures !Launches(run) {
        LockedOutRun(s, run);
      }
    } else {
      var release := [];
      if s.lock.Owned? {
        release := OwnerReleases(s, s.lock.caller);
      }
      var t := Exec(s, release);
      var q := Newcomer(t.phases.Keys);
      var launch := LaunchAlone(t, q);
      ExecConcat(s, release, launch);
      assert Launches(launch);
      LaunchesLater(release, launch);
    }
  }

  lemma LaunchesLater(run: seq<Event>, more: seq<Event>)
    requires Launches(more)
    ensures Launches(run + more)
  {
    var i :| 0 <= i < |more| && more[i].Answered? && more[i].a.LaunchOk?;
    assert (run + more)[|run| + i] == more[i];
  }

  /** The run ends with an event that loses the lock. */
  ghost predicate LosesLockAfter(run: seq<Event>, e: Event) {
    Possible(EMPTY_ROOT, run) && Enabled(Exec(EMPTY_ROOT, run), e) && LosesLock(Exec(EMPTY_ROOT, run), e)
  }

  /** A session whose daemon does not shut down in the end. */
  lemma ThrowingShutdownLosesLock() returns (run: seq<Event>)
    ensures LosesLockAfter(run, Answered(1, StopError(false), true))
  {
    run := LaunchAlone(EMPTY_ROOT, 1);
    hide Exec;
    hide Possible;
    hide NeverAbandons;
    hide Launches;
    run := Then(EMPTY_ROOT, run, 1, HelloOk);
    run := Then(EMPTY_ROOT, run, 1, CallbackDone);
  }

  lemma TriesToLock() returns (run: seq<Event>)
    ensures Possible(EMPTY_ROOT, run) && NeverAbandons(EMPTY_ROOT, run)
    ensures Exec(EMPTY_ROOT, run).phases == map[1 := Locking(1)] && Exec(EMPTY_ROOT, run).lock == NoFile
  {
    OneEvent(EMPTY_ROOT, Begin(1));
    hide Exec;
    hide Possible;
    run := Then(EMPTY_ROOT, [Begin(1)], 1, HelloUnreachable);
  }

  /** A lock file that was created and could not be written. */
  lemma UnwrittenFileLosesLock() returns (run: seq<Event>)
    ensures LosesLockAfter(run, Answered(1, LockError(true), true))
  {
    run := TriesToLock();
  }

  /** A lock file that could not be removed. */
  lemma FailedRemovalLosesLock() returns (run: seq<Event>)
    ensures LosesLockAfter(run, Answered(1, HelloOk, false))
  {
    run := TriesToLock();
    run := Then(EMPTY_ROOT, run, 1, LockTaken);
  }

  // ---------------------------------------------------------------- bounded retries

  predicate Returned(phase: Phase) {
    phase.Session? || phase.Failed?
  }

  function Remaining(phase: Phase): int {
    match phase
    case Greeting(n) => 7 * (MAX_ATTEMPTS - n) + 6
    case Locking(n) => 7 * (MAX_ATTEMPTS - n) + 5
    case Rechecking(n) => 7 * (MAX_ATTEMPTS - n) + 4
    case Launching(n) => 7 * (MAX_ATTEMPTS - n) + 3
    case Verifying(n) => 7 * (MAX_ATTEMPTS - n) + 2
    case Stopping(n, _) => 7 * (MAX_ATTEMPTS - n) + 1
    case Sleeping(n) => 7 * (MAX_ATTEMPTS - n)
    case _ => 0
  }

  predicate Follows(phase: Phase, answers: seq<Answer>)
    decreases |answers|
  {
    answers == [] || (Expects(phase, answers[0]) && Follows(Advance(phase, answers[0]), answers[1..]))
  }

  function Drive(phase: Phase, answers: seq<Answer>): Phase
    requires Follows(phase, answers)
    decreases |answers|
  {
    if answers == [] then phase else Drive(Advance(phase, answers[0]), answers[1..])
  }

  function OpsOf(phase: Phase, answers: seq<Answer>): seq<Op>
    requires Follows(phase, answers)
    decreases |answers|
  {
    if answers == [] then [] else Effect(phase, answers[0]) + OpsOf(Advance(phase, answers[0]), answers[1..])
  }

  lemma {:induction false} DriveSnoc(phase: Phase, answers: seq<Answer>, a: Answer)
    requires Follows(phase, answers) && Expects(Drive(phase, answers), a)
    ensures Follows(phase, answers + [a])
    ensures Drive(phase, answers + [a]) == Advance(Drive(phase, answers), a)
    ensures OpsOf(phase, answers + [a]) == OpsOf(phase, answers) + Effect(Drive(phase, answers), a)
    decreases |answers|
  {
    if answers == [] {
      assert [a][1..] == [];
    } else {
      assert (answers + [a])[1..] == answers[1..] + [a];
      DriveSnoc(Advance(phase, answers[0]), answers[1..], a);
    }
  }

  lemma {:induction false} LastAnswer(phase: Phase, answers: seq<Answer>)
    requires Follows(phase, answers) && answers != []
    ensures var init, last := answers[..|answers| - 1], answers[|answers| - 1];
            && Follows(phase, init) && Expects(Drive(phase, init), last)
            && Drive(phase, answers) == Advance(Drive(phase, init), last)
    decreases |answers|
  {
    if |answers| > 1 {
      LastAnswer(Advance(phase, answers[0]), answers[1..]);
      assert answers[1..][..|answers| - 2] == answers[..|answers| - 1][1..];
    }
  }

  /** The answers end with the callback's return and a shutdown error. */
  predicate ShutdownThrew(answers: seq<Answer>) {
    |answers| >= 2 && answers[|answers| - 2] == CallbackDone && answers[|answers| - 1].StopError?
  }

  lemma JammedExactly(answers: seq<Answer>)
    requires Follows(Greeting(1), answers)
    ensures Drive(Greeting(1), answers).Jammed? <==> ShutdownThrew(answers)
  {
    if answers != [] {
      LastAnswer(Greeting(1), answers);
      var init := answers[..|answers| - 1];
      if init != [] {
        LastAnswer(Greeting(1), init);
        assert init[|init| - 1] == answers[|answers| - 2];
      }
    }
  }

  function CountOf(ops: seq<Op>, op: Op): nat {
    multiset(ops)[op]
  }

  lemma CountOfConcat(a: seq<Op>, c: seq<Op>, op: Op)
    ensures CountOf(a + c, op) == CountOf(a, op) + CountOf(c, op)
  {
  }

  /**
   Through any answers a caller removes the lock file once for every time it created it, except that it
   still owes one removal in the phases that hold the lock.
   */
  lemma {:induction false} EveryLockIsReleasedOnce(phase: Phase, answers: seq<Answer>)
    requires Follows(phase, answers)
    ensures var ops := OpsOf(phase, answers);
            CountOf(ops, TakeLock) + (if HoldsLock(phase) then 1 else 0)
            == CountOf(ops, FreeLock) + (if HoldsLock(Drive(phase, answers)) then 1 else 0)
    decreases |answers|
  {
    if answers != [] {
      var next := Advance(phase, answers[0]);
      var first, rest := Effect(phase, answers[0]), OpsOf(next, answers[1..]);
      EveryLockIsReleasedOnce(next, answers[1..]);
      CountOfConcat(first, rest, TakeLock);
      CountOfConcat(first, rest, FreeLock);
      OneAnswerBalances(phase, answers[0]);
      hide Effect;
      hide CountOf;
    }
  }

  lemma OneAnswerBalances(phase: Phase, a: Answer)
    requires Expects(phase, a)
    ensures CountOf(Effect(phase, a), TakeLock) + (if HoldsLock(phase) then 1 else 0)
            == CountOf(Effect(phase, a), FreeLock) + (if HoldsLock(Advance(phase, a)) then 1 else 0)
  {
    TakesWhen(phase, a);
    FreesWhen(phase, a);
    hide CountOf;
    hide Effect;
  }

  lemma TakesWhen(phase: Phase, a: Answer)
    requires Expects(phase, a)
    ensures CountOf(Effect(phase, a), TakeLock) == if phase.Locking? && a.LockTaken? then 1 else 0
  {
    CountOfShort(Effect(phase, a), TakeLock);
    hide CountOf;
  }

  lemma FreesWhen(phase: Phase, a: Answer)
    requires Expects(phase, a)
    ensures CountOf(Effect(phase, a), FreeLock)
            == if (phase.Rechecking? && !a.HelloUnreachable?) || (phase.Launching? && !a.LaunchOk?)
                  || phase.Stopping? || (phase.Closing? && a.Stopped?) then 1 else 0
  {
    CountOfShort(Effect(phase, a), FreeLock);
    hide CountOf;
  }

  lemma CountOfShort(ops: seq<Op>, op: Op)
    requires |ops| <= 2
    ensures CountOf(ops, op) == (if |ops| > 0 && ops[0] == op then 1 else 0) + (if |ops| > 1 && ops[1] == op then 1 else 0)
  {
    assert ops == [] || ops == [ops[0]] || ops == [ops[0]] + [ops[1]];
  }

  lemma ReturnedStops(phase: Phase, answers: seq<Answer>)
    requires Returned(phase) && Follows(phase, answers)
    requires forall i :: 0 <= i < |answers| ==> !answers[i].CallbackDone?
    ensures answers == []
  {
  }

  /** Whatever the answers, a caller that has not returned yet is at most 27 answers away from returning. */
  lemma {:induction false} CallsReturn(phase: Phase, answers: seq<Answer>)
    requires AttemptOk(phase) && Follows(phase, answers)
    requires phase.Greeting? || phase.Locking? || phase.Sleeping? || phase.Rechecking? || phase.Launching?
             || phase.Verifying? || phase.Stopping?
    requires forall i :: 0 <= i < |answers| ==> !answers[i].CallbackDone?
    ensures |answers| <= Remaining(phase) + 1
    ensures |answers| > Remaining(phase) ==> Returned(Drive(phase, answers))
    decreases |answers|
  {
    if answers != [] {
      var next := Advance(phase, answers[0]);
      if Returned(next) {
        ReturnedStops(next, answers[1..]);
      } else {
        CallsReturn(next, answers[1..]);
      }
    }
  }
}
