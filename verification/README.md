# A Dafny model of AgentGit's stateful core

AgentGit runs agents under a local authority daemon and lets an operator inspect, publish and undo what
they did. This project models the six parts of it that keep state or compute something delicate, and
proves what they promise over every input and every run.

**Hosted execution queue** (`QueueModel`, `QueueMeaning`, `QueueInvariant`, `QueueTheorems`,
`QueueProgress`, `QueueCompletions`, `HostedQueue`). A retrying job queue over a shared registry. `HostedQueue.HostedExecutionQueue` is the
object, one public method for each block that JavaScript runs without interruption; each is proved equal to
a step of `QueueModel`, and the theorems are about every run of those steps: operator calls, heartbeats,
processor outcomes, loop turns, timer firings, closing and process restarts in any order. Suspended loops
are explicit, so "one loop, one claimed job" is a theorem and not an assumption. A record is stranded when it
is marked as claimed and no suspended loop works on it. `QueueMeaning` says what each block does to records,
timer and signals without the functions a step is made of. Times are integers and
every clock reading of a block is a separate, later-or-equal number. A job id stands for its rank in the
registry's key order. A record's unchanging call data is one string.

**Authority session** (`SessionProtocol`, `AuthoritySession`). Callers share one runtime root with a lock
file and a daemon. The protocol is an automaton per caller over one shared state, in which writing and
removing the file may fail; the retry loop of the source is proved to follow that automaton for every
sequence of answers, and the automaton to allow only the kinds of attempt that `AuthoritySession.Try` lists.

**Launch command** (`LaunchCommand`). The tokenizer's loop, and a grammar of quotes and escapes that it
accepts exactly.

**Workspace diff and publication** (`WorkspaceDiff`, `Publication`, `WorkspaceTree`). The file walk, the three-way
comparison, the merge it means, and the publish loop. `Publication.Tree` is a directory tree on which the
governed write and delete can fail; walks of directory listings are proved to give such trees.

**Config install and rollback** (`ConfigInstall`). Planning, applying and rolling back the managed keys of
a user's config file, with arbitrary edits in between. `Writer` is whatever layout the config command
gives the file when it writes it.

**Event stream and frames** (`EventStream`, `WebSocketFrame`). The numbered replay buffer, one browser that
disconnects and resumes at any time, and the frame encoder.

**Path containment** (`PathContainment`, `SymbolicLinks`). Resolving a string to a path, the ancestor-climbing loop and the
string-prefix test, over any file system that answers with real paths; and a file system with symbolic links
on which "where a path leads" has a meaning of its own.

Check everything with `dafny verify dfyconfig.toml`.

## Assumptions

- One queue object works on a registry at a time, a queue is started before anything is submitted to it,
  and the storage layer and the terminal-failure callback do not throw.
- A process that restarts loses its suspended work; a caller of the session protocol does not crash while
  it holds the lock.
- A timer fires no earlier than its date: no queued job lies 2^31 ms or more ahead, where timers would fire at
  once.
- Digests tell contents apart. A missing config file has the digest of an empty one, as in the source.
- The config command stores a value so that it reads back unchanged, and does not fail. A managed key is one
  entry: an emptied parent that unsetting a dotted key may leave behind is not seen.
- Paths are POSIX paths. Strings hold no unpaired surrogates; they are sorted by UTF-16 code units.
- Saving the record of a publication that failed or found conflicts works.

## Where the code does less than one would expect

- A `start` that comes after submissions can leave a promise waiting on a failed job
  (`QueueCompletions.LateStartStrands` says exactly when).
- A restart strands every claimed record that is not stale at that moment: `cancel_requested` ones always, and
  `running` ones with a recent heartbeat, since recovery happens only in `start`. No processor
  takes them up again in that process (`QueueProgress.StrandedForGood`), and only closing the queue answers
  their promises (`QueueCompletions.StrandedPromise`).
- The restart branch in the `finally` block of the loop is only reachable by an exception
  (the assertion in `TakeTurn`).
- A live daemon whose shutdown fails while its starter gives up is left behind unlocked, and this alone lets
  a second one start (`SessionProtocol.SecondDaemonNeedsAbandoning`).
- The lock can be lost for good, and then no daemon is ever started again
  (`SessionProtocol.LockedOutMeansNoDaemon`). That happens in three ways and no other
  (`SessionProtocol.LockLost`): the shutdown at the end of a session throws, which skips the release; the
  lock file is created and cannot be written; or it cannot be removed, which the release ignores.
- The tokenizer trims before it reads escapes, so a command ending in an escaped blank is refused, and no
  other grammatical one (`LaunchCommand.GrammaticalIsAcceptedUnless`).
- A diff without conflicts may still be impossible to carry out (`Publication.PublishesExactlyUnlessBlocked`).
- A run whose changes were all submitted is recorded as failed if saving its record as published fails
  (`Publication.PublishContainedProjection`).
- A publication that failed after its first action cannot be repeated: what it got through conflicts
  (`Publication.RetryConflicts`).
- A setup replaces a managed list that is no list, and drops its entries that are not non-empty strings
  (`ConfigInstall.NothingIsLostIff`).
- Rolling back an unedited file restores its text byte for byte only under `ConfigInstall.ExactTextIff`.
- A browser that has not seen any number yet gets nothing replayed (`EventStream.ResumeIsCompleteIff`), and
  after a server restart a browser ignores the new server until its numbers pass the old ones
  (`EventStream.NextEventArrivesIff`).
- A dangling symbolic link counts as a free place with its own name, and not as where it leads
  (`SymbolicLinks.CanonicalIsWhereItLeads`).
- The root `/` contains nothing but itself (`PathContainment.InsideMeansSegments`).

## Model

| member | source | states |
|---|---|---|
| `HostedQueue.HostedExecutionQueue.constructor` | packages/authority-daemon/src/hosted-execution-queue.ts:161-168 | a new queue has no waiter, timer, claim or loop, over whatever the registry holds |
| `HostedQueue.HostedExecutionQueue.StartQueue` | packages/authority-daemon/src/hosted-execution-queue.ts:170-173 | starting over any well-shaped registry makes the queue valid: stale jobs recovered, first due job claimed or the timer armed |
| `HostedQueue.HostedExecutionQueue.SubmitAndWait` | packages/authority-daemon/src/hosted-execution-queue.ts:485-511 | a resubmission keeps everything the record has achieved; the promise is answered at once or waits; the whole new state is the submit step and is valid |
| `HostedQueue.HostedExecutionQueue.NotifyWaiters` | packages/authority-daemon/src/hosted-execution-queue.ts:889-898 | notifying settles all waiters of a terminal job or of a closed queue with the same outcome, and nobody else |
| `HostedQueue.HostedExecutionQueue.NotifyAll` | packages/authority-daemon/src/hosted-execution-queue.ts:900-904 | after closing, every pending promise is rejected and none is left |
| `HostedQueue.HostedExecutionQueue.Shutdown` | packages/authority-daemon/src/hosted-execution-queue.ts:175-185 | closing disarms the timer, aborts every controller, rejects every waiter and keeps the invariant |
| `HostedQueue.HostedExecutionQueue.CancelJob` | packages/authority-daemon/src/hosted-execution-queue.ts:354-431 | queued jobs are canceled on the spot, running ones asked to stop, terminal ones left alone; the reply tells which |
| `HostedQueue.HostedExecutionQueue.RequeueFailedJob` | packages/authority-daemon/src/hosted-execution-queue.ts:270-336 | only failed jobs return to the queue, within the attempt rule; the reply tells what was changed |
| `HostedQueue.HostedExecutionQueue.WakeUp` | packages/authority-daemon/src/hosted-execution-queue.ts:566-578 | a poke disarms the timer and, while a loop is suspended, only leaves a request behind: it never starts a second loop |
| `HostedQueue.HostedExecutionQueue.TakeTurn` | packages/authority-daemon/src/hosted-execution-queue.ts:586-601 | one turn claims the first due job, or arms the timer and stops; its `finally` never finds a request left over |
| `HostedQueue.HostedExecutionQueue.FindCandidate` | packages/authority-daemon/src/hosted-execution-queue.ts:604-618 | the search returns the one due job that comes first by date, creation and key, or none if nothing is due |
| `HostedQueue.HostedExecutionQueue.ProcessorSettled` | packages/authority-daemon/src/hosted-execution-queue.ts:690-807 | the outcome is committed against the record as it is then: a requested cancellation beats both success and failure |
| `HostedQueue.HostedExecutionQueue.LoopResumed` | packages/authority-daemon/src/hosted-execution-queue.ts:586-596 | after a committed job the loop takes its next turn, still the only loop |
| `HostedQueue.HostedExecutionQueue.SignalHeartbeat` | packages/authority-daemon/src/hosted-execution-queue.ts:649-680 | a heartbeat refreshes running and cancel_requested records only |
| `HostedQueue.HostedExecutionQueue.ArmTimer` | packages/authority-daemon/src/hosted-execution-queue.ts:864-887 | the timer is set to the earliest queued date, or now if that has passed |
| `HostedQueue.HostedExecutionQueue.TimerFired` | packages/authority-daemon/src/hosted-execution-queue.ts:882-886 | a firing timer pokes the queue and keeps the invariant |
| `HostedQueue.HostedExecutionQueue.RecoverStaleJobs` | packages/authority-daemon/src/hosted-execution-queue.ts:809-862 | exactly the stale running jobs are put back into the queue, or failed if their attempts are used up |
| `QueueMeaning.ClaimMeaning` | packages/authority-daemon/src/hosted-execution-queue.ts:604-642 | a block claims one job at most: it was due, came before all other due ones by date, creation and key, and its record names the claimer and the moment |
| `QueueMeaning.IdleMeaning` | packages/authority-daemon/src/hosted-execution-queue.ts:566-602 | every block that looks for work claims, or leaves nothing due and the timer at the first date, or at the present if that has passed |
| `QueueMeaning.FirstSubmissionMeaning` | packages/authority-daemon/src/hosted-execution-queue.ts:485-507 | a first submission is queued for the present with no attempt made, or is running its first attempt; other records stay |
| `QueueMeaning.FirstSubmissionStarts` | packages/authority-daemon/src/hosted-execution-queue.ts:504-511 | it waits while the queue is closed or a loop is suspended, and is claimed in the same block if nothing else is due |
| `QueueMeaning.RepeatedSubmissionMeaning` | packages/authority-daemon/src/hosted-execution-queue.ts:485-507 | a repeated submission changes request, limit and update time of its record and nothing else, apart from one claim |
| `QueueMeaning.ResultMeaning` | packages/authority-daemon/src/hosted-execution-queue.ts:690-733 | a result makes the record succeeded with that result and its date, unless cancellation was requested meanwhile: then it is canceled now |
| `QueueMeaning.FailureMeaning` | packages/authority-daemon/src/hosted-execution-queue.ts:734-775 | a failure is queued again iff it is retryable or of one of the five transient kinds and an attempt is left, after 200, 400, 800, 1600 or 2000 ms; else it fails; a requested cancellation wins |
| `QueueMeaning.CancelMeaning` | packages/authority-daemon/src/hosted-execution-queue.ts:354-431 | a queued job is canceled now, a running one is marked and its signal aborted, any other is left alone; first date, last name and last reason count |
| `QueueMeaning.RequeueMeaning` | packages/authority-daemon/src/hosted-execution-queue.ts:290-327 | a requeued job waits for the present with attempts reset if asked, the new limit and a clean past; then the first due job is claimed |
| `QueueMeaning.RefusedRequeueMeaning` | packages/authority-daemon/src/hosted-execution-queue.ts:277-303 | any other requeue changes nothing |
| `QueueMeaning.HeartbeatMeaning` | packages/authority-daemon/src/hosted-execution-queue.ts:649-680 | a heartbeat of an open queue moves beat and update time of a record in flight, and nothing else |
| `QueueMeaning.CloseMeaning` | packages/authority-daemon/src/hosted-execution-queue.ts:175-185 | closing aborts every signal, stops the timer, settles exactly the pending promises, and changes no record |
| `QueueMeaning.RecoveryMeaning` | packages/authority-daemon/src/hosted-execution-queue.ts:809-862 | a restart queues again or fails exactly the running records without a sign of life for longer than the limit, for the moment of the rewrite, then claims the first due job |
| `QueueInvariant.StepKeeps` | packages/authority-daemon/src/hosted-execution-queue.ts:170-915 | every block keeps the invariant: record shapes, waiters on live jobs only, one loop with one claimed job, the timer armed early enough |
| `QueueInvariant.RunKeeps` | packages/authority-daemon/src/hosted-execution-queue.ts:170-915 | the invariant holds after any interleaving of blocks, restarts included |
| `QueueInvariant.SettleKeeps` | packages/authority-daemon/src/hosted-execution-queue.ts:690-807 | committing a processor outcome keeps result, claim, completion and cancellation marks tied to the status |
| `QueueInvariant.RestartKeeps` | packages/authority-daemon/src/hosted-execution-queue.ts:170-173 | a restart over well-shaped records reaches a valid state, whatever the old process was doing |
| `QueueTheorems.StartedRunsKeep` | packages/authority-daemon/src/hosted-execution-queue.ts:161-173 | everything a started queue can go through, over any well-shaped registry, satisfies the invariant |
| `QueueTheorems.CancellationWins` | packages/authority-daemon/src/hosted-execution-queue.ts:354-431 | after an accepted cancellation no run brings the job back: it is cancel_requested or canceled for ever, and canceled for ever if it was queued |
| `QueueTheorems.DoomedRun` | packages/authority-daemon/src/hosted-execution-queue.ts:688-733 | no heartbeat, resubmission, success, failure, claim, requeue attempt or restart revives a canceled job |
| `QueueTheorems.RetryBudget` | packages/authority-daemon/src/hosted-execution-queue.ts:758-775 | failures, retries and restarts together claim a queued job at most max(1, limit - attempts) times |
| `QueueTheorems.BudgetRun` | packages/authority-daemon/src/hosted-execution-queue.ts:758-775 | over any run, claims made plus claims still allowed never grow without an operator requeue or a changed limit |
| `QueueProgress.AutomaticStepWork` | packages/authority-daemon/src/hosted-execution-queue.ts:586-807 | every settled processor, loop turn and timer uses up work, whatever the processor answers: a termination measure for what the queue does by itself |
| `QueueProgress.AutomaticRunsEnd` | packages/authority-daemon/src/hosted-execution-queue.ts:586-807 | left to itself the queue makes at most Work(s) blocks |
| `QueueProgress.QuietMeansStuck` | packages/authority-daemon/src/hosted-execution-queue.ts:581-602 | no suspended loop and no timer: exactly then no block of the queue's own can ever happen again |
| `QueueProgress.RestMeansFinished` | packages/authority-daemon/src/hosted-execution-queue.ts:581-807 | an open queue that came to rest has brought every record to a terminal status, except exactly those stranded from the start |
| `QueueProgress.RestartStrands` | packages/authority-daemon/src/hosted-execution-queue.ts:809-862 | a restart strands exactly the claimed records that are not stale, and leaves them as they are |
| `QueueProgress.StrandedForGood` | packages/authority-daemon/src/hosted-execution-queue.ts:809-862 | through every later block of the new process a claimed record stays without a processor iff it was not stale at the restart; a cancel_requested one always |
| `QueueProgress.StrandedKept` | packages/authority-daemon/src/hosted-execution-queue.ts:170-915 | no block but a restart strands a record, and none helps a stranded one |
| `QueueProgress.CancelRequestedIsStranded` | packages/authority-daemon/src/hosted-execution-queue.ts:812-818 | a concrete registry in which a restart strands a cancel_requested record |
| `QueueProgress.FreshlyBeatenIsStranded` | packages/authority-daemon/src/hosted-execution-queue.ts:816-819 | a concrete registry in which a restart strands a running record with a fresh heartbeat |
| `QueueTheorems.AttemptCeilingRun` | packages/authority-daemon/src/hosted-execution-queue.ts:270-300 | if resubmissions keep limits, a queued job is within its limit and any other at most one over |
| `QueueTheorems.BoundedOvertaking` | packages/authority-daemon/src/hosted-execution-queue.ts:604-642 | while an overdue job waits, only distinct jobs queued ahead of it from the start are claimed |
| `QueueTheorems.OvertakingStep` | packages/authority-daemon/src/hosted-execution-queue.ts:604-642 | each claim strictly shrinks the set of jobs ahead of an overdue one and nothing enters that set |
| `QueueTheorems.RetryDelayBounds` | packages/authority-daemon/src/hosted-execution-queue.ts:110-113 | the backoff lies between 200 ms and 2 s |
| `QueueTheorems.RetryDelayGrows` | packages/authority-daemon/src/hosted-execution-queue.ts:110-113 | the backoff never shrinks as attempts grow |
| `QueueTheorems.NoLostWakeUp` | packages/authority-daemon/src/hosted-execution-queue.ts:566-602 | in every reachable open idle state the timer covers every queued job; never two loops, never two claims in flight |
| `QueueTheorems.WakeUpClaims` | packages/authority-daemon/src/hosted-execution-queue.ts:881-886 | when something is due in an idle open queue the timer may fire, and firing it claims the first due job |
| `QueueCompletions.ResolvesExactlySuccess` | packages/authority-daemon/src/hosted-execution-queue.ts:548-564 | a promise resolves exactly for succeeded records, with their result; for the others it is rejected with the recorded error, unlisted codes and missing errors as internal |
| `QueueCompletions.NoLostCompletion` | packages/authority-daemon/src/hosted-execution-queue.ts:513-546 | a promise is settled at a moment that shows why, closed queue or terminal record, and stays so; else it waits on an open queue for a record that is queued or has a processor at work, unless the record was stranded from the start |
| `QueueCompletions.StrandedPromise` | packages/authority-daemon/src/hosted-execution-queue.ts:513-546 | a promise on a stranded record is answered only by closing the queue |
| `QueueCompletions.RestAnswersAll` | packages/authority-daemon/src/hosted-execution-queue.ts:513-807 | left to itself the queue comes to rest within Work(s) blocks, with every promise answered that does not wait on a stranded record |
| `QueueCompletions.SettledOnce` | packages/authority-daemon/src/hosted-execution-queue.ts:523-540 | a settled promise is never settled again |
| `QueueCompletions.SubmitAnswersOrWaits` | packages/authority-daemon/src/hosted-execution-queue.ts:485-521 | a submission to a terminal record is answered with it, to a closed queue rejected, else it waits |
| `QueueCompletions.CloseRejectsAll` | packages/authority-daemon/src/hosted-execution-queue.ts:175-185 | closing rejects every pending promise and touches no settled one |
| `QueueCompletions.LateStartStrands` | packages/authority-daemon/src/hosted-execution-queue.ts:809-862 | a start after submissions keeps promises on live jobs iff no waiting job is dead on recovery, since recovery notifies nobody |
| `QueueCompletions.LateStartCanStrand` | packages/authority-daemon/src/hosted-execution-queue.ts:809-862 | such a state is reached by a submission before the start, over the record of a process that ended during its only attempt |
| `SessionProtocol.StepKeeps` | packages/agent-runtime-integration/src/service.ts:223-244 | every step of every caller, with or without a working removal, keeps: who holds the release closure owns the lock file, and only such a caller has a daemon |
| `SessionProtocol.LockIsExclusive` | packages/agent-runtime-integration/src/service.ts:337-435 | at any time one caller at most holds the lock, it holds it exactly in the phases between create and release, and every removal that worked removed the remover's own file |
| `SessionProtocol.EveryLockIsReleasedOnce` | packages/agent-runtime-integration/src/service.ts:367-429 | along every path of answers a caller calls the removal once per create, or still owes the call |
| `SessionProtocol.OneDaemonAtMost` | packages/agent-runtime-integration/src/service.ts:393-428 | while no caller has abandoned a live daemon it failed to stop, one daemon at most is alive |
| `SessionProtocol.AbandonedDaemonAllowsTwo` | packages/agent-runtime-integration/src/service.ts:419-427 | from every state, abandoning a live daemon and clearing the lock leads on to two live daemons: the next caller starts the second |
| `SessionProtocol.SecondDaemonNeedsAbandoning` | packages/agent-runtime-integration/src/service.ts:419-427 | where nothing was abandoned yet, an event opens the way to two live daemons iff it abandons one and the lock file goes away |
| `SessionProtocol.AbandoningHappens` | packages/agent-runtime-integration/src/service.ts:413-421 | a run that gets there: the daemon starts, fails the hello and does not stop |
| `SessionProtocol.LockedOutMeansNoDaemon` | packages/agent-runtime-integration/src/service.ts:223-244 | an orphaned file or a jammed owner: exactly then no continuation ever starts a daemon again |
| `SessionProtocol.LockLost` | packages/agent-runtime-integration/src/service.ts:223-244 | the lock is lost exactly by a throwing final shutdown, by a lock file that was created and not written, or by a removal that fails |
| `SessionProtocol.ThrowingShutdownLosesLock` | packages/agent-runtime-integration/src/service.ts:465-472 | a run that loses the lock by a throwing final shutdown |
| `SessionProtocol.UnwrittenFileLosesLock` | packages/agent-runtime-integration/src/service.ts:226-235 | a run that loses it by an unwritten lock file |
| `SessionProtocol.FailedRemovalLosesLock` | packages/agent-runtime-integration/src/service.ts:237-243 | a run that loses it by a failing removal |
| `SessionProtocol.CallsReturn` | packages/agent-runtime-integration/src/service.ts:349-428 | a call returns or fails within a fixed number of answers |
| `AuthoritySession.EnsureAuthoritySession` | packages/agent-runtime-integration/src/service.ts:337-435 | a call ends after one to four attempts, each with the answers and the lock and daemon operations of its kind, with the session or error of the last one |
| `AuthoritySession.StoryOf` | packages/agent-runtime-integration/src/service.ts:349-435 | the automaton tells eleven kinds of attempt and no other, and goes on to the next one iff the lock was busy, the address in use or the new daemon unreachable, up to four |
| `AuthoritySession.HowItEnds` | packages/agent-runtime-integration/src/service.ts:349-435 | the last answers tell how a call ended: a session iff the last was a hello, a started one iff the launch came before it, and each error from its own answer; a retried failure only after the fourth attempt |
| `AuthoritySession.WithAuthoritySession` | packages/agent-runtime-integration/src/service.ts:458-473 | after the callback a started daemon is stopped and then the lock removed; a shutdown that throws is the only way to omit the removal; a session on a running daemon does neither |
| `LaunchCommand.CommandWords` | packages/agent-runtime-integration/src/service.ts:1081-1142 | the character loop computes the scan of the trimmed command, or the unterminated error |
| `LaunchCommand.AcceptsExactlyTheGrammar` | packages/agent-runtime-integration/src/service.ts:1081-1142 | a command is accepted iff its trimmed text is a list of blanks, bare characters, escapes and closed quotes, and the words are the ones that list stands for |
| `LaunchCommand.GrammaticalIsAcceptedUnless` | packages/agent-runtime-integration/src/service.ts:1081-1142 | a grammatical command is accepted, with its words, iff it does not end in an escaped blank; the trim before the loop loses exactly those |
| `LaunchCommand.AcceptedIsGrammatical` | packages/agent-runtime-integration/src/service.ts:1081-1142 | every accepted command is grammatical before trimming and has no such end |
| `LaunchCommand.EscapedBlankIsRefused` | packages/agent-runtime-integration/src/service.ts:1085-1136 | the letter a and an escaped blank are refused as unterminated |
| `LaunchCommand.QuotingRoundTrip` | packages/agent-runtime-integration/src/service.ts:1081-1142 | any words in single quotes, double quotes or bare, separated by any white space, are read back without the empty ones |
| `LaunchCommand.OpenQuoteIsRefused` | packages/agent-runtime-integration/src/service.ts:1112-1134 | a single or double quote that is opened and not closed is refused, whatever stands before and in it |
| `LaunchCommand.SplitPieces` | packages/agent-runtime-integration/src/service.ts:1088-1128 | every accepted text can be cut into grammatical pieces |
| `LaunchCommand.FeedPieces` | packages/agent-runtime-integration/src/service.ts:1088-1141 | scanning grammatical pieces from outside a token yields exactly their words |
| `WorkspaceDiff.WalkFiles` | packages/agent-runtime-integration/src/containment.ts:373-399 | the recursive walk computes the manifest or the first unsupported entry |
| `WorkspaceDiff.WalkIsExact` | packages/agent-runtime-integration/src/containment.ts:369-399 | a finished walk lists exactly the regular files outside the state directory, with their digests |
| `WorkspaceTree.WalkFailsExactlyOnSpecials` | packages/agent-runtime-integration/src/containment.ts:373-399 | the walk fails iff an unsupported entry lies outside the state directory, and names one |
| `WorkspaceTree.OnlyStateIsLeftOut` | packages/agent-runtime-integration/src/containment.ts:369-399 | the manifest has every regular file but those of the top-level directory .agentgit |
| `WorkspaceTree.WalkedIsTree` | packages/agent-runtime-integration/src/containment.ts:373-399 | the manifest of a finished walk is the files of a directory tree |
| `WorkspaceDiff.CopyWalksAlike` | packages/agent-runtime-integration/src/containment.ts:411-430 | the projection copy walks to the same manifest as the workspace it came from |
| `WorkspaceDiff.SortPaths` | packages/agent-runtime-integration/src/containment.ts:446-446 | the listing has exactly the given paths, strictly sorted by UTF-16 code units |
| `WorkspaceDiff.DiffWorkspaceProjection` | packages/agent-runtime-integration/src/containment.ts:432-501 | changes are exactly the paths where projection and baseline differ and the workspace is still at the baseline, conflicts exactly those where it is not; both sorted, writes exactly the projected files |
| `Publication.MergeMeaning` | packages/agent-runtime-integration/src/containment.ts:432-501 | applying the changes gives each changed path its projected content and leaves every other path as the workspace has it |
| `Publication.PublicationRoundTrip` | packages/agent-runtime-integration/src/containment.ts:411-501 | over an untouched workspace there is no conflict and the result is exactly the projection |
| `Publication.UntouchedProjection` | packages/agent-runtime-integration/src/containment.ts:448-453 | an untouched projection publishes nothing into any workspace |
| `Publication.RepublishingConflicts` | packages/agent-runtime-integration/src/containment.ts:456-489 | publishing the same run twice is refused: the paths already published are the conflicts |
| `Publication.RetryConflicts` | packages/agent-runtime-integration/src/containment.ts:456-489 | after a publication that stopped at change n, publishing again conflicts at exactly the first n paths, so it is refused iff n > 0 |
| `Publication.PublishesExactlyUnlessBlocked` | packages/execution-adapters/src/index.ts:1715-1775 | on a directory tree a conflict-free diff can be carried out iff no written file is a directory there or lies below a file the baseline does not know; then the files are the merge |
| `Publication.UntouchedWorkspacePublishes` | packages/execution-adapters/src/index.ts:1744-1775 | over an untouched workspace the only obstacle is a directory that became a file |
| `WorkspaceTree.ListingsPublish` | packages/execution-adapters/src/index.ts:1744-1775 | for any two directory listings: over an untouched workspace publication succeeds iff no projected file has the path of a workspace directory |
| `Publication.DirectoryBecomesFile` | packages/agent-runtime-integration/src/containment.ts:478-494 | that obstacle exists, is reported as no conflict, and its write fails |
| `Publication.PublishContainedProjection` | packages/agent-runtime-integration/src/service.ts:1695-1755 | what was submitted is a prefix of the changes with its action ids, and stops at the first bad attempt; published iff the prefix is everything and that record could be saved, nothing on conflicts |
| `ConfigInstall.OpenClawConfig.Apply` | packages/agent-runtime-integration/src/adapters.ts:613-679 | apply writes every planned value unless all are there, keeps the old file and the new digest, and reports a change for missing launch assets too |
| `ConfigInstall.OpenClawConfig.Uninstall` | packages/agent-runtime-integration/src/adapters.ts:739-772 | the rollback loop computes the undo of each mutation in order, by backup or key by key |
| `ConfigInstall.RollbackMeaning` | packages/agent-runtime-integration/src/adapters.ts:739-772 | after arbitrary edits each managed key gets its old value back if it held the applied or the old value, else keeps the user's and is reported; no other key changes; a change is reported iff some key held its applied value |
| `ConfigInstall.UserKeysAre` | packages/agent-runtime-integration/src/adapters.ts:759-764 | the preserved list holds exactly the managed keys the user gave a value of their own |
| `ConfigInstall.UneditedRollback` | packages/agent-runtime-integration/src/adapters.ts:743-757 | an unedited file gets its old values back, and its old text if nothing is rewritten after the restore |
| `ConfigInstall.ExactTextIff` | packages/agent-runtime-integration/src/adapters.ts:743-768 | the old text comes back under every layout iff no key after the first already had its applied value |
| `ConfigInstall.TextCanChange` | packages/agent-runtime-integration/src/adapters.ts:743-768 | a setup over a config with the plugin already enabled whose rollback does not bring the text back |
| `ConfigInstall.AbsentFileIsRemoved` | packages/agent-runtime-integration/src/adapters.ts:749-751 | a config file the install created is removed again |
| `ConfigInstall.SetupIsIdempotent` | packages/agent-runtime-integration/src/adapters.ts:517-609 | planning the adapter's five keys over the file a setup wrote plans the same values and finds nothing to change |
| `ConfigInstall.SetupInstalls` | packages/agent-runtime-integration/src/adapters.ts:573-679 | a setup of the five keys that changed the config is an install that all rollback results apply to |
| `ConfigInstall.SetupMeaning` | packages/agent-runtime-integration/src/adapters.ts:517-609 | what a setup leaves under each of the five keys, and that it leaves the others alone |
| `ConfigInstall.PlanOnlyAdds` | packages/agent-runtime-integration/src/adapters.ts:292-301 | a managed list starts with the user's non-empty strings, has every string once and in the order of first occurrences, adds the required ones, and holds nothing else |
| `ConfigInstall.NothingIsLostIff` | packages/agent-runtime-integration/src/adapters.ts:292-301 | every entry the user had under a managed list's key is kept iff the value is a list of non-empty strings |
| `EventStream.EventServer.SendWsEvent` | apps/inspector-ui/src/server.ts:1583-1607 | numbers go up by one and the buffer is the last 128 recorded events |
| `EventStream.EventServer.ReplayWsHistory` | apps/inspector-ui/src/server.ts:1609-1638 | a resume sends, in order, exactly those of the last 128 recorded events that are this client's, above the number, and overviews or views of the same run and scope |
| `EventStream.ClientsAreIsolated` | apps/inspector-ui/src/server.ts:1619-1621 | what other clients were sent makes no difference to what a client is sent again |
| `EventStream.NothingTwiceNothingDropped` | apps/inspector-ui/src/server.ts:1012-1017 | over every run the browser applies strictly increasing numbers and its filter never drops a frame of the current socket |
| `EventStream.ResumeDeliversTheMissing` | apps/inspector-ui/src/server.ts:1609-1638 | a resumed browser applies next, in order, exactly its retained events above its number that match its run and scope |
| `EventStream.ResumeIsCompleteIff` | apps/inspector-ui/src/server.ts:948-951 | a resume misses retained events iff the browser has seen no number yet and some are meant for it |
| `EventStream.FirstEventCanBeLost` | apps/inspector-ui/src/server.ts:948-951 | the first event is lost when the connection breaks before it arrives |
| `EventStream.RestartedServerIsSilent` | apps/inspector-ui/src/server.ts:948-951 | across a server restart nothing is applied until the new server has counted past the kept number |
| `EventStream.NextEventArrivesIff` | apps/inspector-ui/src/server.ts:1012-1017 | the next published event is applied, once everything under way has arrived, iff the server has caught up with the number the browser kept |
| `EventStream.FrameDroppedAfterRestart` | apps/inspector-ui/src/server.ts:948-951 | the first event after a restart is dropped by a browser that has seen one before it |
| `EventStream.StepKeeps` | apps/inspector-ui/src/server.ts:1583-1638 | every publication, delivery, loss and resume keeps the order of buffer, channel and applied events |
| `WebSocketFrame.EncodeWebSocketTextFrame` | apps/inspector-ui/src/server.ts:1348-1372 | the header bytes written for the three length classes, followed by the payload |
| `WebSocketFrame.FrameRoundTrip` | apps/inspector-ui/src/server.ts:1348-1372 | decoding by section 5.2 of RFC 6455 returns the payload as one final unmasked text frame and leaves the rest |
| `WebSocketFrame.FramesAreSelfDelimiting` | apps/inspector-ui/src/server.ts:1348-1372 | a byte stream can be cut into frames in one way only |
| `WebSocketFrame.FrameIsShortest` | apps/inspector-ui/src/server.ts:1352-1371 | no byte string a lenient reader takes for the same frame is shorter |
| `WebSocketFrame.StreamRoundTrip` | apps/inspector-ui/src/server.ts:1348-1372 | any sequence of messages is read back as that sequence |
| `PathContainment.CanonicalizePathForContainment` | packages/action-normalizer/src/index.ts:48-70 | for any string, the climbing loop terminates and computes the climb over the segments of the resolved path |
| `PathContainment.ResolvedIsPlain` | packages/action-normalizer/src/index.ts:48-50 | resolving gives a plain absolute path from anything, and a plain path resolves to itself |
| `PathContainment.ResolveMeaning` | packages/action-normalizer/src/index.ts:48-50 | resolving goes on name by name from the working directory or the root; .. takes back one segment if there is one |
| `PathContainment.CanonicalMeaning` | packages/action-normalizer/src/index.ts:48-70 | the answer is the deepest existing ancestor's real path plus the missing segments in order, none on a failed lookup, the path itself if nothing exists |
| `PathContainment.InsideMeansSegments` | packages/action-normalizer/src/index.ts:72-74 | the string test holds iff the root's segments begin the target's, except that the root / contains only itself |
| `PathContainment.SiblingsAreOutside` | packages/action-normalizer/src/index.ts:72-74 | a sibling is never inside, however similar its name |
| `PathContainment.IsPathInsideWorkspace` | packages/action-normalizer/src/index.ts:76-86 | for any strings, inside iff the path's canonical form lies in some root's canonical form |
| `PathContainment.InsideWorkspaceMeansSegments` | packages/action-normalizer/src/index.ts:76-86 | whatever links there are, that is segment containment of the canonical forms in a root other than / |
| `PathContainment.WithoutLinksNamesDecide` | packages/action-normalizer/src/index.ts:76-86 | without symbolic links it is segment containment of the paths as written |
| `SymbolicLinks.CanonicalIsWhereItLeads` | packages/action-normalizer/src/index.ts:33-70 | on a file system with symbolic links the canonical form exists iff the path leads somewhere, and is that place iff following the path meets no dangling link |
| `SymbolicLinks.InsideIsWhereItLeads` | packages/action-normalizer/src/index.ts:76-86 | where no dangling link is met, the workspace test compares the places the paths lead to |
| `SymbolicLinks.DanglingLinkCountsAsInside` | packages/action-normalizer/src/index.ts:33-74 | a dangling link inside the workspace that leads out of it counts as inside |

## Left out

- Error texts and details, `current_lease_id`, the abort signal's way to the worker, the counters and
  diagnostics of the queue, and the terminal-failure callback.
- How a thrown value becomes a job error (`toJobError`): an outcome carries the job error itself.
- Unparseable dates: the registry's schema refuses them, so the tests for them cannot be reached.
- Storage errors inside a block, and two queue objects over one registry, which the code does not guard.
- QueueTheorems.AttemptCeilingRun: needs resubmissions to keep the limit, because a resubmission may
  lower it at will.
- QueueTheorems.BoundedOvertaking: needs the waiting job to be overdue and not merely due, because a job
  entering in the same millisecond may sort before it by creation date or key.
- Lock files left by crashed callers; the source has no detection for them.
- The content of sessions, requests and daemon configuration.
- Reading a projection file as UTF-8 text: an attempt says whether it worked.
- What the daemon's policy makes of a submitted action: the publish loop does not look, so the model
  accounts for submissions, and for effects only where actions are carried out.
- Symbolic links and special files below the workspace, beyond the walk's refusal.
- ConfigInstall.RollbackMeaning: keys are flat, because how the config command nests dotted keys is not part of
  this model; an emptied parent left behind is not seen.
- Chains of several installs and repairs, generated launch assets, profiles and backups on disk.
- The key order and number formatting behind `valuesEqual`: equal values are equal terms.
- Sockets, back-pressure and payload digests of the live stream; a frame that cannot be sent is a
  disconnect.
- `buildRestoreCommand`, `parseBranchPointToken` and `analyzeShellPaths`: single-branch code over the parts
  modelled here.
- Policy, snapshots, recovery, the run journal, command-line parsing, SDK clients and the cloud application.
