/**
 The retry loop of one caller, checked against the automaton of SessionProtocol.
 */
module AuthoritySession {
  import opened Common
  import opened SessionProtocol

  /** What the caller's surroundings will answer; the index is the number of answers given before. */
  datatype Surroundings = Surroundings(
    hello: nat -> Answer, lock: nat -> Answer, launch: nat -> Answer, stop: nat -> Answer)

  ghost predicate WellTyped(env: Surroundings) {
    && (forall i :: env.hello(i).HelloOk? || env.hello(i).HelloUnreachable? || env.hello(i).HelloFailed?)
    && (forall i :: env.lock(i).LockTaken? || env.lock(i).LockBusy? || env.lock(i).LockError?)
    && (forall i :: env.launch(i).LaunchOk? || env.launch(i).LaunchInUse? || env.launch(i).LaunchError?)
    && (forall i :: env.stop(i).Stopped? || env.stop(i).StopError?)
  }

  /** `answers` is what the surroundings said and `ops` what the caller did, and the automaton agrees. */
  ghost predicate Traces(answers: seq<Answer>, ops: seq<Op>, phase: Phase) {
    Follows(Greeting(1), answers) && Drive(Greeting(1), answers) == phase && OpsOf(Greeting(1), answers) == ops
  }

  lemma TracesOn(answers: seq<Answer>, ops: seq<Op>, phase: Phase, a: Answer)
    requires Traces(answers, ops, phase) && Expects(phase, a)
    ensures Traces(answers + [a], ops + Effect(phase, a), Advance(phase, a))
  {
    DriveSnoc(Greeting(1), answers, a);
  }

  // ---------------------------------------------------------------- the stories a call can tell

  /** One attempt, by how it went. */
  datatype Try =
    | Connected | Refused                                  // the first hello
    | LockFailed(left: bool) | Busy                        // the lock
    | ConnectedBehindLock | RefusedBehindLock              // the hello behind the lock
    | LaunchFailed | InUse                                 // the start of the daemon
    | Started                                              // the hello to the new daemon
    | StartedRefused(stop: Answer) | StartedUnreachable(stop: Answer)

  /** What the surroundings answered. */
  function Said(t: Try): seq<Answer> {
    match t
    case Connected => [HelloOk]
    case Refused => [HelloFailed]
    case LockFailed(left) => [HelloUnreachable, LockError(left)]
    case Busy => [HelloUnreachable, LockBusy]
    case ConnectedBehindLock => [HelloUnreachable, LockTaken, HelloOk]
    case RefusedBehindLock => [HelloUnreachable, LockTaken, HelloFailed]
    case LaunchFailed => [HelloUnreachable, LockTaken, HelloUnreachable, LaunchError]
    case InUse => [HelloUnreachable, LockTaken, HelloUnreachable, LaunchInUse]
    case Started => [HelloUnreachable, LockTaken, HelloUnreachable, LaunchOk, HelloOk]
    case StartedRefused(stop) => [HelloUnreachable, LockTaken, HelloUnreachable, LaunchOk, HelloFailed, stop]
    case StartedUnreachable(stop) => [HelloUnreachable, LockTaken, HelloUnreachable, LaunchOk, HelloUnreachable, stop]
  }

  /** What became of the lock file and the daemon. */
  function Did(t: Try): seq<Op> {
    match t
    case Connected => []
    case Refused => []
    case LockFailed(left) => if left then [LeaveLock] else []
    case Busy => []
    case ConnectedBehindLock => [TakeLock, FreeLock]
    case RefusedBehindLock => [TakeLock, FreeLock]
    case LaunchFailed => [TakeLock, FreeLock]
    case InUse => [TakeLock, FreeLock]
    case Started => [TakeLock, StartDaemon]
    case StartedRefused(stop) =>
      [TakeLock, StartDaemon, if stop == StopError(true) then AbandonDaemon else StopDaemon, FreeLock]
    case StartedUnreachable(stop) =>
      [TakeLock, StartDaemon, if stop == StopError(true) then AbandonDaemon else StopDaemon, FreeLock]
  }

  /** How the call ends if this is its last attempt. */
  function Ending(t: Try): Phase {
    match t
    case Connected => Session(false)
    case ConnectedBehindLock => Session(false)
    case Started => Session(true)
    case Refused => Failed(HelloRefused)
    case RefusedBehindLock => Failed(HelloRefused)
    case StartedRefused(_) => Failed(HelloRefused)
    case LockFailed(_) => Failed(LockBroken)
    case LaunchFailed => Failed(LaunchBroken)
    case InUse => Failed(AddressInUse)
    case Busy => Failed(ConnectFailure)
    case StartedUnreachable(_) => Failed(ConnectFailure)
  }

  predicate WorthAnother(t: Try) {
    t.Busy? || t.InUse? || t.StartedUnreachable?
  }

  /** Every attempt here is followed by a pause. */
  function AllSaid(tries: seq<Try>): seq<Answer> {
    if tries == [] then [] else Said(tries[0]) + [Slept] + AllSaid(tries[1..])
  }

  function AllDid(tries: seq<Try>): seq<Op> {
    if tries == [] then [] else Did(tries[0]) + AllDid(tries[1..])
  }

  /** Four attempts at most; all but the last were worth another, and so is the last only if it is the fourth. */
  ghost predicate IsStory(tries: seq<Try>, last: Try, answers: seq<Answer>, ops: seq<Op>, outcome: Phase) {
    && |tries| <= 3 && (forall i :: 0 <= i < |tries| ==> WorthAnother(tries[i]))
    && (WorthAnother(last) ==> |tries| == 3)
    && answers == AllSaid(tries) + Said(last) && ops == AllDid(tries) + Did(last) && outcome == Ending(last)
    && IsTry(last) && (forall i :: 0 <= i < |tries| ==> IsTry(tries[i]))
  }

  predicate IsTry(t: Try) {
    t.StartedRefused? || t.StartedUnreachable? ==> t.stop.Stopped? || t.stop.StopError?
  }

  /** So the last answers tell how the call ended. */
  lemma HowItEnds(tries: seq<Try>, last: Try, answers: seq<Answer>, ops: seq<Op>, outcome: Phase)
    requires IsStory(tries, last, answers, ops, outcome)
    ensures answers != []
    ensures var n := |answers|;
            var final := answers[n - 1];
            && (outcome.Session? <==> final == HelloOk)
            && (outcome == Session(true) <==> final == HelloOk && n >= 2 && answers[n - 2] == LaunchOk)
            && (outcome == Failed(LockBroken) <==> final.LockError?)
            && (outcome == Failed(LaunchBroken) <==> final == LaunchError)
            && (outcome == Failed(AddressInUse) <==> final == LaunchInUse)
            && (outcome == Failed(HelloRefused)
                <==> final == HelloFailed
                     || (n >= 2 && answers[n - 2] == HelloFailed && (final.Stopped? || final.StopError?)))
            && (outcome == Failed(ConnectFailure)
                <==> final == LockBusy
                     || (n >= 2 && answers[n - 2] == HelloUnreachable && (final.Stopped? || final.StopError?)))
    ensures outcome == Failed(AddressInUse) || outcome == Failed(ConnectFailure) ==> |tries| == 3
  {
    var end := Said(last);
    assert answers[|answers| - 1] == end[|end| - 1];
    assert |end| >= 2 ==> answers[|answers| - 2] == end[|end| - 2];
    assert |end| == 1 ==> last.Connected? || last.Refused?;
    hide AllDid;
    EndsWithPause(tries);
    if |end| == 1 && tries != [] {
      assert answers[|answers| - 2] == AllSaid(tries)[|AllSaid(tries)| - 1];
    }
    hide AllSaid;
  }

  lemma {:induction false} EndsWithPause(tries: seq<Try>)
    ensures tries != [] ==> AllSaid(tries) != [] && AllSaid(tries)[|AllSaid(tries)| - 1] == Slept
    decreases |tries|
  {
    if |tries| > 1 {
      EndsWithPause(tries[1..]);
    }
  }

  // ---------------------------------------------------------------- the automaton tells these stories only

  /**
   From `phase` on, in attempt `n`, the answers are what is left of `t` after its first `k` answers and `j`
   operations; and then, if another attempt follows, a pause and the rest.
   */
  ghost predicate Fits(n: nat, phase: Phase, answers: seq<Answer>, t: Try, k: nat, j: nat, rest: seq<Answer>) {
    && k <= |Said(t)| && j <= |Did(t)| && Follows(phase, answers)
    && if WorthAnother(t) && n < 4 then
         && answers == Said(t)[k..] + ([Slept] + rest) && Follows(Greeting(n + 1), rest)
         && Drive(phase, answers) == Drive(Greeting(n + 1), rest)
         && OpsOf(phase, answers) == Did(t)[j..] + OpsOf(Greeting(n + 1), rest)
       else
         && answers == Said(t)[k..] + [] && rest == []
         && Drive(phase, answers) == Ending(t) && OpsOf(phase, answers) == Did(t)[j..] + []
  }

  lemma OneMore<T>(all: seq<T>, said: seq<T>, k: nat, tail: seq<T>)
    requires all != [] && k < |said| && all[0] == said[k] && all[1..] == said[k + 1..] + tail
    ensures all == said[k..] + tail
  {
    assert all == [all[0]] + all[1..] && said[k..] == [said[k]] + said[k + 1..];
  }

  lemma SomeMore<T>(did: seq<T>, j: nat, i: nat, tail: seq<T>)
    requires j <= i <= |did|
    ensures did[j..i] + (did[i..] + tail) == did[j..] + tail
  {
    assert did[j..] == did[j..i] + did[i..];
  }

  /** The call is in attempt `n`, and these answers bring it to its end. */
  predicate Completes(n: nat, phase: Phase, answers: seq<Answer>) {
    1 <= n <= 4 && Follows(phase, answers) && Returned(Drive(phase, answers))
  }

  lemma ReturnedAtOnce(phase: Phase, answers: seq<Answer>)
    requires Returned(phase) && Follows(phase, answers) && Returned(Drive(phase, answers))
    ensures answers == []
  {
    if answers != [] && phase.Session? {
      AfterSession(Advance(phase, answers[0]), answers[1..]);
    }
  }

  lemma {:induction false} AfterSession(phase: Phase, answers: seq<Answer>)
    requires (phase.Done? || phase.Closing? || phase.Jammed?) && Follows(phase, answers)
    ensures !Returned(Drive(phase, answers))
    decreases |answers|
  {
    if answers != [] {
      AfterSession(Advance(phase, answers[0]), answers[1..]);
    }
  }

  lemma FromSleeping(n: nat, answers: seq<Answer>)
    requires Completes(n, Sleeping(n), answers)
    ensures answers != [] && answers[0] == Slept && Completes(n, Greeting(n + 1), answers[1..])
    ensures Drive(Sleeping(n), answers) == Drive(Greeting(n + 1), answers[1..])
    ensures OpsOf(Sleeping(n), answers) == OpsOf(Greeting(n + 1), answers[1..])
  {
    assert [] + OpsOf(Greeting(n + 1), answers[1..]) == OpsOf(Greeting(n + 1), answers[1..]);
  }

  lemma FromStopping(n: nat, cause: Failure, answers: seq<Answer>) returns (t: Try, rest: seq<Answer>)
    requires Completes(n, Stopping(n, cause), answers) && (cause == ConnectFailure || cause == HelloRefused)
    ensures IsTry(t) && if cause == ConnectFailure then t.StartedUnreachable? else t.StartedRefused?
    ensures Fits(n, Stopping(n, cause), answers, t, 5, 2, rest)
  {
    var stop := answers[0];
    t, rest := if cause == ConnectFailure then StartedUnreachable(stop) else StartedRefused(stop), [];
    assert answers == [stop] + answers[1..] && Said(t)[5..] == [stop];
    assert Did(t)[2..] == Effect(Stopping(n, cause), stop);
    if cause == ConnectFailure && n < 4 {
      FromSleeping(n, answers[1..]);
      rest := answers[2..];
      assert answers[1..] == [Slept] + rest;
    } else {
      ReturnedAtOnce(Failed(cause), answers[1..]);
    }
  }

  lemma FromVerifying(n: nat, answers: seq<Answer>) returns (t: Try, rest: seq<Answer>)
    requires Completes(n, Verifying(n), answers)
    ensures IsTry(t) && (t.Started? || t.StartedRefused? || t.StartedUnreachable?)
    ensures Fits(n, Verifying(n), answers, t, 4, 2, rest)
  {
    var next := Advance(Verifying(n), answers[0]);
    assert answers == [answers[0]] + answers[1..];
    if next.Session? {
      t, rest := Started, [];
      ReturnedAtOnce(next, answers[1..]);
    } else {
      t, rest := FromStopping(n, next.cause, answers[1..]);
      OneAnswerMore(n, Verifying(n), answers, t, 4, 2, 2, rest);
    }
  }

  /** What fits after one answer fits before it. */
  lemma OneAnswerMore(n: nat, phase: Phase, answers: seq<Answer>, t: Try, k: nat, j: nat, i: nat, rest: seq<Answer>)
    requires Follows(phase, answers) && answers != [] && k < |Said(t)| && j <= i <= |Did(t)|
    requires Fits(n, Advance(phase, answers[0]), answers[1..], t, k + 1, i, rest)
    requires answers[0] == Said(t)[k] && Effect(phase, answers[0]) == Did(t)[j..i]
    ensures Fits(n, phase, answers, t, k, j, rest)
  {
    hide Said;
    hide Did;
    hide Ending;
    hide Advance;
    hide Effect;
    var again := WorthAnother(t) && n < 4;
    OneMore(answers, Said(t), k, if again then [Slept] + rest else []);
    SomeMore(Did(t), j, i, if again then OpsOf(Greeting(n + 1), rest) else []);
  }

  lemma FromLaunched(n: nat, answers: seq<Answer>) returns (t: Try, rest: seq<Answer>)
    requires Completes(n, Launching(n), answers) && answers != [] && answers[0].LaunchOk?
    ensures IsTry(t) && Fits(n, Launching(n), answers, t, 3, 1, rest)
  {
    t, rest := FromVerifying(n, answers[1..]);
    OneAnswerMore(n, Launching(n), answers, t, 3, 1, 2, rest);
  }

  lemma FromLaunching(n: nat, answers: seq<Answer>) returns (t: Try, rest: seq<Answer>)
    requires Completes(n, Launching(n), answers)
    ensures IsTry(t) && Fits(n, Launching(n), answers, t, 3, 1, rest)
  {
    var next := Advance(Launching(n), answers[0]);
    assert answers == [answers[0]] + answers[1..];
    if next.Verifying? {
      t, rest := FromLaunched(n, answers);
    } else if next.Sleeping? {
      FromSleeping(n, answers[1..]);
      t, rest := InUse, answers[2..];
      assert answers[1..] == [Slept] + rest;
    } else {
      t, rest := if answers[0].LaunchInUse? then InUse else LaunchFailed, [];
      ReturnedAtOnce(next, answers[1..]);
    }
  }

  lemma FromRechecking(n: nat, answers: seq<Answer>) returns (t: Try, rest: seq<Answer>)
    requires Completes(n, Rechecking(n), answers)
    ensures IsTry(t) && Fits(n, Rechecking(n), answers, t, 2, 1, rest)
  {
    var next := Advance(Rechecking(n), answers[0]);
    assert answers == [answers[0]] + answers[1..];
    if next.Launching? {
      t, rest := FromLaunching(n, answers[1..]);
      OneAnswerMore(n, Rechecking(n), answers, t, 2, 1, 1, rest);
    } else {
      t, rest := if answers[0].HelloOk? then ConnectedBehindLock else RefusedBehindLock, [];
      ReturnedAtOnce(next, answers[1..]);
    }
  }

  lemma FromLocking(n: nat, answers: seq<Answer>) returns (t: Try, rest: seq<Answer>)
    requires Completes(n, Locking(n), answers)
    ensures IsTry(t) && Fits(n, Locking(n), answers, t, 1, 0, rest)
  {
    var next := Advance(Locking(n), answers[0]);
    assert answers == [answers[0]] + answers[1..];
    if next.Rechecking? {
      t, rest := FromRechecking(n, answers[1..]);
      OneAnswerMore(n, Locking(n), answers, t, 1, 0, 1, rest);
    } else if next.Sleeping? {
      FromSleeping(n, answers[1..]);
      t, rest := Busy, answers[2..];
      assert answers[1..] == [Slept] + rest;
    } else {
      t, rest := if answers[0].LockError? then LockFailed(answers[0].left) else Busy, [];
      ReturnedAtOnce(next, answers[1..]);
    }
  }

  lemma FromGreeting(n: nat, answers: seq<Answer>) returns (t: Try, rest: seq<Answer>)
    requires Completes(n, Greeting(n), answers)
    ensures IsTry(t) && Fits(n, Greeting(n), answers, t, 0, 0, rest)
  {
    var next := Advance(Greeting(n), answers[0]);
    assert answers == [answers[0]] + answers[1..];
    if next.Locking? {
      t, rest := FromLocking(n, answers[1..]);
      OneAnswerMore(n, Greeting(n), answers, t, 0, 0, 0, rest);
    } else {
      t, rest := if answers[0].HelloOk? then Connected else Refused, [];
      ReturnedAtOnce(next, answers[1..]);
    }
  }

  /** Every call that returns is one of the stories. */
  lemma {:induction false} StoryOf(n: nat, answers: seq<Answer>) returns (tries: seq<Try>, last: Try)
    requires Completes(n, Greeting(n), answers)
    ensures |tries| <= 4 - n && (forall i :: 0 <= i < |tries| ==> WorthAnother(tries[i]) && IsTry(tries[i]))
    ensures (WorthAnother(last) ==> |tries| == 4 - n) && IsTry(last)
    ensures answers == AllSaid(tries) + Said(last) && OpsOf(Greeting(n), answers) == AllDid(tries) + Did(last)
    ensures Drive(Greeting(n), answers) == Ending(last)
    decreases 4 - n
  {
    var t, rest := FromGreeting(n, answers);
    hide Said;
    hide Did;
    hide Ending;
    if WorthAnother(t) && n < 4 {
      var more;
      more, last := StoryOf(n + 1, rest);
      tries := [t] + more;
      Told(t, more, last);
      hide AllSaid;
      hide AllDid;
      hide Drive;
      hide OpsOf;
      hide Follows;
      assert Said(t)[0..] == Said(t) && Did(t)[0..] == Did(t);
    } else {
      tries, last := [], t;
      assert Said(t)[0..] == Said(t) && Did(t)[0..] == Did(t);
      assert [] + Said(t) == Said(t) + [] && [] + Did(t) == Did(t) + [];
    }
  }

  lemma Told(t: Try, more: seq<Try>, last: Try)
    ensures AllSaid([t] + more) + Said(last) == Said(t) + ([Slept] + (AllSaid(more) + Said(last)))
    ensures AllDid([t] + more) + Did(last) == Did(t) + (AllDid(more) + Did(last))
  {
    hide Said;
    hide Did;
    assert ([t] + more)[1..] == more;
  }

  // ---------------------------------------------------------------- the retry loop

  /** The loop itself, answer by answer. */
  method TryRepeatedly(env: Surroundings) returns (outcome: Phase, ghost answers: seq<Answer>, ops: seq<Op>)
    requires WellTyped(env)
    ensures Returned(outcome) && Traces(answers, ops, outcome)
  {
    answers, ops := [], [];
    var asked := 0;
    var lastError := None;
    var attempt := 1;
    while attempt <= MAX_ATTEMPTS
      invariant 1 <= attempt <= MAX_ATTEMPTS
      invariant Traces(answers, ops, Greeting(attempt))
      decreases MAX_ATTEMPTS - attempt
    {
      var hello := env.hello(asked);
      TracesOn(answers, ops, Greeting(attempt), hello);
      asked, answers := asked + 1, answers + [hello];
      assert ops + [] == ops;
      if hello.HelloOk? {
        return Session(false), answers, ops;
      }
      if hello.HelloFailed? {
        return Failed(HelloRefused), answers, ops;
      }
      lastError := Some(ConnectFailure);

      var lock := env.lock(asked);
      TracesOn(answers, ops, Locking(attempt), lock);
      asked, answers := asked + 1, answers + [lock];
      assert ops + [] == ops;
      if lock.LockError? {
        return Failed(LockBroken), answers, if lock.left then ops + [LeaveLock] else ops;
      }
      if lock.LockBusy? {
        if attempt < MAX_ATTEMPTS {
          TracesOn(answers, ops, Sleeping(attempt), Slept);
          asked, answers := asked + 1, answers + [Slept];
          attempt := attempt + 1;
          continue;
        }
        break;
      }
      ops := ops + [TakeLock];

      hello := env.hello(asked);
      TracesOn(answers, ops, Rechecking(attempt), hello);
      asked, answers := asked + 1, answers + [hello];
      assert ops + [] == ops;
      if hello.HelloOk? {
        ops := ops + [FreeLock];
        return Session(false), answers, ops;
      }
      if hello.HelloFailed? {
        ops := ops + [FreeLock];
        return Failed(HelloRefused), answers, ops;
      }
      lastError := Some(ConnectFailure);

      var launch := env.launch(asked);
      TracesOn(answers, ops, Launching(attempt), launch);
      asked, answers := asked + 1, answers + [launch];
      if !launch.LaunchOk? {
        ops := ops + [FreeLock];
        if launch.LaunchInUse? && attempt < MAX_ATTEMPTS {
          TracesOn(answers, ops, Sleeping(attempt), Slept);
          asked, answers := asked + 1, answers + [Slept];
          assert ops + [] == ops;
          lastError := Some(AddressInUse);
          attempt := attempt + 1;
          continue;
        }
        return Failed(if launch.LaunchInUse? then AddressInUse else LaunchBroken), answers, ops;
      }
      ops := ops + [StartDaemon];

      hello := env.hello(asked);
      TracesOn(answers, ops, Verifying(attempt), hello);
      asked, answers := asked + 1, answers + [hello];
      assert ops + [] == ops;
      if hello.HelloOk? {
        return Session(true), answers, ops;
      }
      var error := if hello.HelloFailed? then HelloRefused else ConnectFailure;
      lastError := Some(error);
      var stop := env.stop(asked);
      TracesOn(answers, ops, Stopping(attempt, error), stop);
      asked, answers := asked + 1, answers + [stop];
      // a shutdown error is swallowed
      ops := ops + [if stop == StopError(true) then AbandonDaemon else StopDaemon, FreeLock];
      if error == ConnectFailure && attempt < MAX_ATTEMPTS {
        TracesOn(answers, ops, Sleeping(attempt), Slept);
        asked, answers := asked + 1, answers + [Slept];
        assert ops + [] == ops;
        attempt := attempt + 1;
        continue;
      }
      return Failed(error), answers, ops;
    }
    return Failed(lastError.value), answers, ops;
  }

  /** A session, or the right error, after four attempts at most. */
  method EnsureAuthoritySession(env: Surroundings)
      returns (outcome: Phase, ghost answers: seq<Answer>, ops: seq<Op>, ghost tries: seq<Try>, ghost last: Try)
    requires WellTyped(env)
    ensures Returned(outcome) && Traces(answers, ops, outcome)
    ensures IsStory(tries, last, answers, ops, outcome)
  {
    outcome, answers, ops := TryRepeatedly(env);
    tries, last := StoryOf(1, answers);
  }

  /** A session around a callback, whatever the callback does; `called` is how getting the session ended. */
  method WithAuthoritySession(env: Surroundings)
      returns (outcome: Phase, ghost answers: seq<Answer>, ops: seq<Op>, called: Phase, ghost before: seq<Answer>,
               ghost opsBefore: seq<Op>, ghost tries: seq<Try>, ghost last: Try)
    requires WellTyped(env)
    ensures Traces(answers, ops, outcome) && IsStory(tries, last, before, opsBefore, called)
    ensures called.Failed? ==> outcome == called && answers == before && ops == opsBefore
    ensures called == Session(false) ==> outcome == Done && answers == before + [CallbackDone] && ops == opsBefore
    ensures called == Session(true) ==>
              var stop := env.stop(0);
              && answers == before + [CallbackDone] + [stop]
              && outcome == (if stop.Stopped? then Done else Jammed)
              && ops == opsBefore + if stop.Stopped? then [StopDaemon, FreeLock]
                                    else if stop == StopError(true) then [] else [StopDaemon]
    ensures outcome.Jammed? <==> ShutdownThrew(answers)
    ensures CountOf(ops, TakeLock) == CountOf(ops, FreeLock) + if ShutdownThrew(answers) then 1 else 0
  {
    called, answers, ops, tries, last := EnsureAuthoritySession(env);
    outcome, before, opsBefore := called, answers, ops;
    hide IsStory;
    outcome, answers, ops := RunCallback(env, called, answers, ops);
    JammedExactly(answers);
    EveryLockIsReleasedOnce(Greeting(1), answers);
    hide CountOf;
  }

  method RunCallback(env: Surroundings, called: Phase, ghost before: seq<Answer>, opsBefore: seq<Op>)
      returns (outcome: Phase, ghost answers: seq<Answer>, ops: seq<Op>)
    requires WellTyped(env) && Returned(called) && Traces(before, opsBefore, called)
    ensures Traces(answers, ops, outcome)
    ensures called.Failed? ==> outcome == called && answers == before && ops == opsBefore
    ensures called == Session(false) ==> outcome == Done && answers == before + [CallbackDone] && ops == opsBefore
    ensures called == Session(true) ==>
              var stop := env.stop(0);
              && answers == before + [CallbackDone] + [stop]
              && outcome == (if stop.Stopped? then Done else Jammed)
              && ops == opsBefore + if stop.Stopped? then [StopDaemon, FreeLock]
                                    else if stop == StopError(true) then [] else [StopDaemon]
  {
    hide Traces;
    outcome, answers, ops := called, before, opsBefore;
    if called.Failed? {
      return;
    }
    TracesOn(answers, ops, outcome, CallbackDone);
    answers := answers + [CallbackDone];
    assert ops + [] == ops;
    if called == Session(true) {
      var stop := env.stop(0);
      TracesOn(answers, ops, Closing, stop);
      answers := answers + [stop];
      if stop.StopError? {
        // the shutdown throws, and the release after it is skipped
        ops := ops + if stop.alive then [] else [StopDaemon];
        return Jammed, answers, ops;
      }
      ops := ops + [StopDaemon, FreeLock];
    }
    outcome := Done;
  }
}
