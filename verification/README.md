# Per-stack reconcile engine: model and proofs

A Dafny model of the engine that drives one Pulumi Stack in the operator: the reconcile pipeline and
the actor that runs it, the mailbox and dispatcher that wake the actor, the executor that runs
Updates, the protection of Programs, the workspace connection pool, and the backoff, duration and
lock-message arithmetic they rest on. `dafny verify dfyconfig.toml` checks all of it.

## How it is built

Code that changes state in place is a class or a method with loops (`Reconciler`, `ActorLoop`, `Pool`,
`LockStreak.LockState`, `Executor.UpdateWatcher`, `Time.ParseGoDuration`, `Sync.ComputeCooldownSecs`,
`Messages.FindPhrase`). Each is proved equal to a function on values, or to a sequence of moves of a state
machine, and the properties are proved about those. What the main ones compute is stated a second
time without them: the ordered list of gates of a reconcile (`Gates`), what each action and error leaves behind, in
numbers (`Effects`), what the executor's reports make of an Update (`Executor.ReadsAsReported`). The methods promise
both, so `Reconcile`, for one, has the outcome of the gates and its effects, and is four steps of the machine.

| module | models |
|---|---|
| `Basics`, `Time`, `Messages`, `LockStreak` | saturating arithmetic, `core/time.rs`, lock phrases and truncation, `operator/lock.rs` |
| `Api`, `UpdateCheck`, `Sync`, `Project` | the objects and the effect of API calls on them, reading Update conditions, sync test and cooldown, project check and grace period |
| `Pipeline`, `Actions` | the decision chain, creation with its 409 recovery, `handle_action`, `handle_error` |
| `Lifecycle` | Stack, Updates, actor, clock and history as a state machine: Read, Decide, Create, Act, interleaved with edits, deletion, executor progress, outside deletion of Updates, restarts and time |
| `Gates` | what has to be out of the way before an Update is created, and what each gate answers while closed, for one reconcile and for every run |
| `Effects`, `Wakeups` | what each action and error leaves in the actor, the status, the finalizer and the Updates, the error backoff, and when the next reconcile comes |
| `Reconciler` | the same reconcile as mutable code, proved to be four lifecycle steps with nothing in between |
| `OneInFlight`, `DestroyFirst`, `DestroyPacing`, `DestroyCounts`, `Commits`, `Quiescence`, `GracePeriod`, `Escalation`, `Stranding` | properties of every run of `Lifecycle` |
| `Mailbox`, `ActorLoop` | the wake-up protocol as a machine, and the mutable actor and dispatcher, each round of which is a play of that machine |
| `Executor`, `Programs` | execution of Updates, protection of Programs |
| `PoolSlab`, `Pool` | the connection pool under interleaving, and the mutable pool |

Four choices run through everything.

* A status write is a server-side apply. Whether a field it leaves out keeps its value or disappears is
  the parameter `keep`; results that do not mention it hold either way.
* Every API call has an outcome the environment chooses, and the operator may restart at any moment. A result
  that needs some call to land, or no restart at some point, names exactly that point as a condition on each
  event of the run in the state it meets (`Throughout`). Beside it stands a run that shows what happens without
  it, from `Initial` or from the states its lemma describes.
* The lifecycle machine meets the executor as events: progress and outcomes written on unfinished Updates, and
  late starts (`LateStart`), which write progress over a finished one. `OnlyStartsRewind` says that nothing else
  the executor does reaches a finished Update.
* One monotone clock in milliseconds stands for `Instant` and for RFC 3339 wall time.

## What the proofs brought to light

* A Stack deleted while an ordinary Update is named by `currentUpdate` takes that Update's success for the
  success of the destroy and drops its finalizer. If late watch events may start the named Update over, that
  goes for every existing ordinary Update, a failed one included (`DestroyBeforeRelease`, exact in both cases).
* With project verification, one Update in flight holds in all runs that write the names of their creations and
  start no other Update over exactly when omitted status fields are kept: the `ProjectNotFound` patch leaves `currentUpdate` out
  (`KeptFieldsDecide`).
* A restart or lost patch between a creation and the status write that names it lets the next reconcile
  create another: two Updates run, or a second destroy follows at once (`LostNameLeavesTwo`,
  `UnwrittenAttemptRepeats`). Restarts and lost patches at every other point leave these two properties intact.
* A watch event that comes after its Update was executed executes it again (`LateEventRewinds`); if the status no
  longer names that Update, two can run with no restart and no lost patch (`LateStartLeavesTwo`).
* A restarted actor has forgotten the commit of the Update in flight: its success is recorded without a commit,
  and the next reconcile starts the same commit again (`RestartLosesCommit`, `RestartRepeats`).
* A reinstatement that is not written lets a grace period expire although the project was there in between
  (`UnwrittenReinstatementExpires`).
* A Stack that carries the reconcile-request annotation is never at rest, because no write of the operator sets
  `reconcileRequest` (`QuiescentExactlyUnannotated`).
* `UpdateCreated` resets the failure count and the lock streak, so as long as the patches that record failures
  land, the retries of a failed ordinary Update never pass the first step of the lock backoff and (if reads of
  Updates succeed) always count one failure (`LockNeverEscalates`, `FailuresNeverEscalate`). Since no step of
  the pipeline returns a lock error either - only the executor's stream does, and that becomes an Update's
  message - the force-unlock path is then never taken (`ForceUnlockUnreachable`).
* An Update whose outcome patch is lost, or whose operator restarts while it runs, stays in progress for good, and
  its Stack waits for it, deleted or not (`AttendedExactlyUntil`, `StrandedForever`, `StrandedStackWaits`).
* An Update whose name was lost is found again by the next creation of that name; as names keep eight characters of
  the commit, its outcome can be recorded for another commit (`ReusedNameMisleads`).
* Destroy failures count up when omitted fields are kept. When they are dropped each counts one, because the
  patch that names a new destroy Update leaves `lastUpdate` out (`DestroyFailuresCount`).
* The grace period wraps around 64 bits above 213 503 982 334 601 days (`GraceIsConfigured`).
* A finalizer removal the Program watcher decided earlier can land after a new Stack has come to rely on
  the Program (`ProtectionLostExactlyWhen`, `StaleRemovalUnprotects`).
* An Update whose progress patch fails, or that is created while a task of its name still runs, can be left
  unexecuted until the watch relists (`LostStartForgets`, `RecreationForgets`); otherwise none is
  (`NothingForgotten`). Created while such a task has yet to report, it is recorded finished without ever having
  been executed, and no relist repairs that (`RecreationTakesOutcome`, `OutcomesAreOwn`).
* Two concurrent connects for one address strand a pool slot for good, so all 64 slots serve only without
  them (`InterleavingKeeps`, `LoneConnectsLeaveNoOrphans`); at least one slot always survives.
* The comment in the dispatcher that a full mailbox makes a dropped event harmless is true, but only together
  with the rule that each debounce has its own retry behind it (`NoLostWakeUp`).

## Model

| member | source | states |
|---|---|---|
| Time.ParseGoDuration | src/core/time.rs:22-48 | The saturating byte loop returns the true total of the string, clipped once at 2^64 - 1, for every string. |
| Time.GroupsReadExactly | src/core/time.rs:22-48 | A string of integer h/m/s groups reads as the sum of its groups, with nothing left over. |
| Time.ParsedGroupsClip | src/core/time.rs:22-48 | Such a string parses to min(2^64 - 1, its number of seconds). |
| Time.AdditiveExactlyAtGroupEnd | src/core/time.rs:26-44 | Parsing is additive behind a prefix, for every continuation, if and only if the prefix ends no number unfinished. |
| Time.ParsingAddsUp | src/core/time.rs:27-45 | Behind such a prefix durations add up, saturating. |
| Time.ParseUndoesSpelling | src/core/time.rs:22-48 | Parsing undoes the canonical XhYmZs spelling of every 64-bit number of seconds. |
| Time.EveryStringReads | src/core/time.rs:26-44 | Any string, well formed or not, reads as the sum over its unit letters of the digits right before each; any other character drops the number it ends. |
| Messages.CheckLockError | src/core/lock.rs:3-8 | True exactly when "currently locked", "locked by", "lock held" or "update conflict" occurs anywhere in the message. |
| Messages.TruncationSettles | src/operator/controllers/update.rs:410-416 | Truncation handles every ASCII text, keeps up to 100 bytes and otherwise the first 97 and three dots, and does nothing a second time. |
| Messages.DotsHideNothing | src/operator/controllers/update.rs:414 | Appending dots neither creates nor destroys an occurrence of a phrase without dots. |
| Messages.TruncationKeepsClassification | src/operator/controllers/update.rs:75-77 | A long message is a lock error after truncation at the writer and again at the reader exactly when its first 97 bytes hold a phrase. |
| Messages.TruncationNeverInvents | src/operator/actors/actor.rs:379-384 | A truncated message is a lock error only if the whole one was. |
| LockStreak.LockState.Conflict | src/operator/lock.rs:26-35 | First conflict starts the streak, each one counts, and the answer is force-unlock once the streak is as old as the timeout, else a retry after min(timeout, 10000 * 3^min(n, 20)) ms. |
| LockStreak.LockState.Success | src/operator/lock.rs:37-41 | Ends the streak and keeps the timeout. |
| LockStreak.LockState.ComputeBackoff | src/operator/lock.rs:49-55 | The saturating form equals min(timeout, 10000 * 3^min(n, 20)) ms: it never saturates. |
| LockStreak.PatienceForces | src/operator/lock.rs:26-55 | From any streak that has aged by the geometric sum, waiting at least each returned delay brings a force-unlock by the n-th conflict. |
| LockStreak.LockStreakBound | src/operator/lock.rs:26-55 | A patient caller gets it by the first n with 15000 * (3^(n-1) - 1) >= timeout. |
| LockStreak.NoEarlierForce | src/operator/lock.rs:26-55 | The bound is sharp: a caller that waits exactly the delays gets only retries before that n. |
| LockStreak.GeometricStep | src/operator/lock.rs:49-55 | Each delay carries the streak exactly to the next geometric sum until the timeout caps it. |
| LockStreak.SeventhConflictForces | src/api/stack.rs:189-191 | Up to a timeout of 7200 s the seventh conflict forces. |
| UpdateCheck.WritesReadBack | src/operator/controllers/update.rs:54-97 | The conditions the executor writes for progress, success and failure are read back by `check_update` as exactly that, and never as needing execution. |
| UpdateCheck.StatusReads | src/operator/controllers/update.rs:54-97 | Any list of conditions is read by the first of each kind: in progress unless the first Complete is True, then failed with the message of the first Failed if that is True, else succeeded. |
| Sync.ComputeCooldownSecs | src/operator/reconcile/sync.rs:73-89 | The saturating loop equals min(cap, 10 * 3^min(n, 30)) s for n >= 1 and 0 otherwise. |
| Sync.CooldownBounds | src/operator/reconcile/sync.rs:73-89 | The cooldown grows with the failures, between min(30 s, cap) and cap. |
| Project.GraceIsConfigured | src/operator/reconcile/project.rs:199-202 | The grace period is the configured days if and only if their seconds fit 64 bits. |
| Project.CacheAnswers | src/operator/reconcile/project.rs:30-44 | For five minutes the cached result answers whatever the cloud would say, a cached error counting as an active project. |
| Pipeline.UpdateNamesDisjoint | src/operator/reconcile/pipeline.rs:644 | The name of an ordinary Update is never that of a destroy Update, so the 409 recovery cannot replace one. |
| Pipeline.CreationMeans | src/operator/reconcile/pipeline.rs:573-634 | By what bears the name: a free name is taken, a running Update reused, a finished one replaced exactly if strip and delete together remove it; every failure is the same retried error, and no other Update changes. |
| Actions.RequeuesPassDebounce | src/operator/actors/actor.rs:458-494 | Whatever an action or error schedules carries one of the two triggers the debounce lets through. |
| Actions.FailureWindowExact | src/operator/actors/actor.rs:407-495 | After a recorded failure a later reconcile that finds that status is synced exactly for the same generation, commit and reconcile request until the cooldown of the spec it reads has passed, and the scheduled retry falls on the end of that window: neither early nor swallowed. |
| Actions.RecheckMeetsCache | src/operator/reconcile/project.rs:36-50 | After a NotFound the 300 s retry falls on the end of the cached answer and polls again, an earlier trigger is told NotFound; a reinstated project is taken for active that long. |
| Gates.FirstGateAnswers | src/operator/reconcile/pipeline.rs:59-290 | One reconcile, stated by a list of gates - finalizer, project, named Update, source, Program, sync, prerequisites, workspace, or for a destroy named Update, cooldown, workspace: the first closed gate gives its own answer and nothing changes; with all open the Update of the source's commit, or a destroy Update, is created. |
| Gates.CreatedExactlyWhen | src/operator/reconcile/pipeline.rs:128-205 | If the API server takes the creation, an ordinary Update is created if and only if the finalizer is set, nothing is deleted or missing, the named Update is absent, source, Program and prerequisites are in order, the Stack is not synced and the workspace is ready; a destroy Update by the same kind of list. |
| Gates.CreationsPassGates | src/operator/reconcile/pipeline.rs:128-290 | In every run, whatever is lost or restarted, each creation directly follows a decision for which every gate was open, read from the same Stack, and has the kind (Preview exactly if asked for) and the name of that decision. |
| Effects.ActionLeaves | src/operator/actors/actor.rs:220-743 | What each action leaves, call by call: the fields its patch writes, nulls and leaves out; the finalizer; the strip of a recorded Update, failed or succeeded; the counters and the streak. |
| Effects.NthErrorDelay | src/operator/actors/actor.rs:968-984 | Errors in a row: the first waits min(2 * base, max), each further one twice the delay before it up to max, never more than max, and after the twentieth no longer. |
| Effects.BackoffStays | src/operator/actors/actor.rs:970-972 | From the first n with base * 2^n >= max on, every delay is max. |
| Effects.RepositoryBackoffs | src/core/recovery.rs:12-64 | For every base and maximum of the repository's errors that is so from the fifth error on, and no saturating operation saturates. |
| Wakeups.DestroyWindowExact | src/operator/reconcile/pipeline.rs:233-277 | Once a failed destroy is recorded, a reconcile with nothing named and the workspace ready waits exactly until the cooldown has passed and then starts the next destroy; the scheduled retry falls on that moment. |
| Wakeups.SuccessWindowExact | src/operator/reconcile/sync.rs:32-46 | After a recorded success a later reconcile is synced exactly for the same generation, commit and request and, if resyncs are asked for, until the resync period (60 s unless configured) has passed. |
| Wakeups.UnreadableHoldsNothing | src/core/time.rs:5-20 | A missing or unreadable stamp holds no window open: no cooldown, resync period or cached check. |
| Wakeups.RetryRunsOnTime | src/operator/actors/actor.rs:133-163 | A scheduled retry arms the debounce, sleeps, is received, popped and let through, and starts the next read exactly when it was due, if no other message comes. |
| Wakeups.WaitsAreWoken | src/operator/actors/actor.rs:578-686 | A reconcile that ends waiting - for an Update, a workspace, a missing or a reinstated project, or after a failed destroy - is read again so after exactly 30 s, 5 s, 300 s, 1 s or the cooldown. |
| Reconciler.ApiServer.PatchStatus | src/operator/actors/actor.rs:290-306 | A status patch that lands applies field by field and changes nothing else; one that fails changes nothing. |
| Reconciler.Actor.RunPipeline | src/operator/reconcile/pipeline.rs:59-205 | Result, Updates and remembered commit are those of the first closed gate, or of the creation behind the last one, on every path; and those of the decision function. |
| Reconciler.Actor.HandleDestroy | src/operator/reconcile/pipeline.rs:208-352 | The same for a Stack under deletion that wants a destroy: named Update, cooldown, workspace, then the destroy Update. |
| Reconciler.Actor.CreateOrReplace | src/operator/reconcile/pipeline.rs:573-634 | Create, and on a 409 reuse a running Update or strip, delete and recreate a finished one, with every call allowed to fail: what is there afterwards, and the answer, in terms of what bore the name. |
| Reconciler.Actor.HandleAction | src/operator/actors/actor.rs:220-743 | The whole new state - status fields, finalizer, Updates, counters, streak - and the retry with its milliseconds, priority and trigger, for all fifteen actions. |
| Reconciler.Actor.HandleError | src/operator/actors/actor.rs:962-1026 | The count, the streak and the retry for the three recoveries: min(max, base * 2^min(n, 20)) ms for the n-th error, none for a stall, the lock backoff or the force-unlock for a lock error. |
| Reconciler.Actor.Reconcile | src/operator/actors/actor.rs:167-217 | A reconcile that reads the Stack has the outcome of the gates and then the effects of that outcome, with the lock timeout of the Stack, at least 60 s; it is exactly the Read, Decide, Create and Act steps of the lifecycle machine. A failed read schedules a retry in 5 s, a missing Stack only strips its Updates. What it schedules always passes the debounce. |
| Reconciler.ReconcileAtOnce | src/operator/actors/actor.rs:188-217 | What those four steps together do to Stack, Updates and actor, by the action or error the pipeline ends in. |
| Reconciler.ApiServer.StripOrphans | src/operator/actors/actor.rs:915-940 | The cleanup loop strips exactly the Updates whose patch lands; those under deletion disappear. |
| OneInFlight.OneUpdateInFlight | src/operator/reconcile/pipeline.rs:128-160 | In every state reachable by a run - restarts and lost patches included - in which each creation gets its name written and no late watch event starts another Update over than the named one, without project verification or with omitted fields kept: at most one Update runs, it is the one the status names between reconciles, and none runs when one is about to be created, so the reuse branch of the 409 recovery is never taken. |
| OneInFlight.CreationLeavesOneLive | src/operator/reconcile/pipeline.rs:573-634 | With nothing running, a creation that returns a name has put the new Update there, stale finished one or not, and nothing else runs. |
| OneInFlight.KeptFieldsDecide | src/operator/actors/actor.rs:599-651 | With project verification, one Update in flight holds in all runs that write the names of their creations and start no other Update over if and only if omitted status fields are kept. |
| OneInFlight.DroppedNameLeavesTwo | src/operator/actors/actor.rs:599-651 | With fields dropped, a concrete run without restart or lost patch ends with two Updates running. |
| OneInFlight.LostNameLeavesTwo | src/operator/actors/actor.rs:285-307 | Under either patch semantics and without verification, one restart or lost patch right after a creation and then a new commit leave two running. |
| OneInFlight.LateStartKeepsExactlyNamed | src/operator/controllers/mod.rs:198-262 | A late start leaves one in flight if and only if it starts the named Update over, or none. |
| OneInFlight.LateStartLeavesTwo | src/operator/controllers/mod.rs:198-262 | With no restart, lost patch or verification, one late start of a finished Update and a new commit leave two running. |
| DestroyFirst.CreationRules | src/operator/finalizers.rs:11-25 | In every run, restarts and lost calls included, an Update is created only while the finalizer is set, a destroy Update exactly by reconciles that read the deletion, any other exactly by those that did not. |
| DestroyFirst.DestroyBeforeRelease | src/operator/reconcile/pipeline.rs:208-290 | From a deletion first read now, every run creates only destroy Updates and releases the finalizer only after seeing one, created after the deletion, Complete and not Failed. In runs with late starts this holds if and only if `currentUpdate` names no existing ordinary Update; in runs without a late start of the named Update, if and only if it names none that has not failed. |
| DestroyFirst.UnsafeNameReleases | src/operator/reconcile/pipeline.rs:217-232 | Otherwise a concrete run releases with no destroy, a failed Update being started over first: the type of the named Update is not looked at. |
| DestroyFirst.ReleasedAtOnce | src/operator/finalizers.rs:19-20 | A deleted Stack without destroyOnFinalize, or with preview, is released by its next reconcile and loses no Update. |
| DestroyFirst.DestroyReleases | src/operator/reconcile/pipeline.rs:208-290 | One that wants a destroy is released by two reconciles with the success of its destroy Update between them. |
| DestroyPacing.NoDestroyStorm | src/operator/reconcile/pipeline.rs:233-277 | In every run, restarts, lost patches and late starts included as long as each attempt is written to the status and its Update not deleted by others: between any two destroy attempts a failure was recorded, and the later attempt comes no sooner than that failure's cooldown under the spec it read. |
| DestroyPacing.AttemptsPerWindow | src/operator/actors/actor.rs:530-579 | In such runs n attempts in a window need (n - 1) smallest cooldowns of time. |
| DestroyPacing.UnwrittenAttemptRepeats | src/operator/actors/actor.rs:497-528 | A restart or lost patch right after an attempt lets the next follow a second later with no failure in between. |
| DestroyPacing.DeletedAttemptRepeats | src/operator/reconcile/pipeline.rs:217-232 | So does the deletion of the attempt's Update by others. |
| DestroyCounts.DestroyFailuresCount | src/operator/reconcile/pipeline.rs:217-232 | In every run each recorded destroy failure counts one more than the one before if omitted fields are kept, and exactly one if they are dropped. |
| Commits.TruthfulCommit | src/operator/actors/actor.rs:330-347 | In every run in which each creation gets its name written, no late event starts another Update over and no restart meets an ordinary Update the status names: each recorded outcome and commit is that of the very Update the same reconcile had just read with that outcome, and `lastUpdate` says what the last record says. |
| Commits.RestartLosesCommit | src/operator/actors/actor.rs:330-347 | After a restart the success of the named Update is recorded with no commit. |
| Commits.ReusedNameMisleads | src/operator/reconcile/pipeline.rs:573-600 | An Update left unnamed and found again under the same name has its outcome recorded for the later creation's commit. |
| Quiescence.SilenceAfterSuccess | src/operator/reconcile/sync.rs:12-46 | After a recorded success with generation and commit unchanged, `reconcileRequest` equal to the annotation and no resync asked for, no sequence of triggers, errors, lost patches, outside deletions or restarts creates another Update. |
| Quiescence.QuiescentExactlyUnannotated | src/operator/reconcile/sync.rs:23-30 | In every reachable state with a recorded success, no current Update and no resync asked for: no steady run creates an Update if and only if the Stack does not carry the reconcile-request annotation. |
| Quiescence.AnnotationCreates | src/operator/reconcile/sync.rs:23-30 | For an annotated Stack a concrete steady run creates one, whatever outcome is recorded. |
| Quiescence.RequestNeverRecorded | src/operator/actors/actor.rs:330-347 | In no run does a write of the operator set `reconcileRequest`. |
| Quiescence.CreationsArePaced | src/operator/reconcile/sync.rs:12-69 | On an untouched, unannotated Stack, if from creation to recorded outcome the name is written, the operator is not restarted and nobody else deletes the Update, any two creations have a recorded outcome between them that permits the later one: a success a resync period ago with resync asked for, or a failure a cooldown ago. |
| Quiescence.FirstCreationIsDue | src/operator/reconcile/sync.rs:12-69 | The same for the first creation and the outcome the run started from. |
| Quiescence.RestartRepeats | src/operator/actors/actor.rs:330-347 | A restart with an Update in flight lets its success be recorded and the same commit started again by the next reconcile. |
| Quiescence.DeletionRepeats | src/operator/reconcile/pipeline.rs:128-160 | An Update others delete before its outcome is recorded is replaced by the next reconcile. |
| Quiescence.UnnamedRepeats | src/operator/actors/actor.rs:285-307 | So is a creation whose name was lost. |
| Quiescence.StrippedRepeats | src/operator/actors/actor.rs:898-912 | So is an Update under deletion whose outcome patch is lost while its finalizer is stripped. |
| Quiescence.RecordingRests | src/operator/actors/actor.rs:309-423 | Recording a success or failure puts the status in the form the results above start from. |
| GracePeriod.GraceIsGranted | src/operator/reconcile/pipeline.rs:79-126 | In every run, whatever happens to omitted fields, as long as each reinstatement is written: only a NotFound starts the grace period, and it is found expired only on a later NotFound, the whole period after, with no Active result in between. |
| GracePeriod.UnwrittenReinstatementExpires | src/operator/actors/actor.rs:652-686 | A restart or lost patch in place of a reinstatement lets the grace period expire although the project was there in between. |
| Escalation.LockNeverEscalates | src/operator/actors/actor.rs:280-281 | If the patches that record failures land, a failed Update with a lock message is always the first of its streak: retry after min(30 s, timeout), never force-unlock. |
| Escalation.FailuresNeverEscalate | src/operator/actors/actor.rs:280-281 | If reads of Updates succeed too, every recorded failure counts 1 and is retried after the first cooldown. |
| Escalation.ForceUnlockUnreachable | src/operator/actors/actor.rs:458-465 | If the patches that record failures land and the pipeline returns no lock error, no step of any run schedules a lock retry: the force-unlock path is never taken. |
| Escalation.LostPatchEscalates | src/operator/actors/actor.rs:399-478 | One lost patch makes the same failure count twice, and the second time asks for the force-unlock. |
| Escalation.FailedReadEscalates | src/operator/actors/actor.rs:968-984 | One failed read of a failed Update makes its failure the second. |
| Mailbox.ArmedDebounceIsBacked | src/operator/actors/actor.rs:133-163 | Whenever a live actor's debounce is set, the retry of the latest `schedule_requeue` is asleep, in the mailbox or in the batch. |
| Mailbox.NoLostWakeUp | src/operator/actors/dispatcher.rs:64-75 | If an event was dispatched after the last read started, a reconcile message that the debounce will let through is still on its way, although full mailboxes drop and the debounce discards; nothing but reconciles is dispatched, as in the operator. |
| Mailbox.BackoffIsHonoured | src/operator/actors/actor.rs:149-163 | Between scheduling a retry and its time, no trigger but a scheduled retry runs the pipeline. |
| Mailbox.RetriesComeDue | src/operator/actors/actor.rs:139-146 | A sleeping retry leaves only by firing, no earlier than it is due, into a mailbox with room, and nothing else puts a retry there: none is early and none is dropped. |
| ActorLoop.Actor.ScheduleRequeue | src/operator/actors/actor.rs:133-147 | Arms the debounce and spawns one timer with the same deadline. |
| ActorLoop.Actor.Handle | src/operator/actors/actor.rs:149-217 | The reconcile runs exactly if no retry is scheduled, its time has come or the trigger is a Retry or LockRetry; then the debounce is cleared and what the reconcile asks for is scheduled, otherwise nothing changes. These are the moves of the protocol machine for one message. |
| ActorLoop.Actor.Drain | src/operator/actors/actor.rs:103-108 | Empties the mailbox into the heap, losing and duplicating nothing. |
| ActorLoop.Actor.Accept | src/operator/actors/dispatcher.rs:64-75 | A send of the dispatcher is the dispatch move of the protocol machine. |
| ActorLoop.Actor.Round | src/operator/actors/actor.rs:103-123 | One round is a play of the protocol machine that handles every drained message once: deletions before lock recoveries before failure retries before the rest, cut only at the first Shutdown popped, with nothing of higher priority left behind. |
| ActorLoop.RoundKeeps | src/operator/actors/actor.rs:103-123 | Hence every round keeps the invariant behind the three results on the mailbox. |
| ActorLoop.PopExtends | src/operator/actors/actor.rs:72-123 | Popping a message of the highest priority keeps handled plus heap equal to the drained batch, and the order. |
| ActorLoop.Top | src/operator/actors/actor.rs:72-77 | The popped entry is one of the highest priority: a Normal one only from a heap of those, a FailureRetry only without a Deletion or LockRecovery, a LockRecovery only without a Deletion. |
| ActorLoop.Dispatcher.Dispatch | src/operator/actors/dispatcher.rs:37-76 | Finished actors go, a missing one is spawned, the message is sent if its mailbox has room and dropped otherwise, and no other mailbox changes. |
| ActorLoop.Dispatcher.OneActorPerKey | src/operator/actors/dispatcher.rs:45-56 | Two running actors never share a key. |
| Executor.ExecutionExcludes | src/operator/controllers/mod.rs:184-262 | At every moment of every run, however late events come, `update_in_progress` holds exactly the keys with one running execution. |
| Executor.TasksMeetUnfinished | src/operator/controllers/mod.rs:184-262 | If events are up to date, no execution meets a finished Update. |
| Executor.StatusAdvances | src/operator/controllers/mod.rs:310-323 | In every run with events up to date, an Update goes new, in progress, finished, and keeps its outcome for good. |
| Executor.LateEventRewinds | src/operator/controllers/mod.rs:198-240 | A late event takes a finished Update back to progressing. |
| Executor.OnlyStartsRewind | src/operator/controllers/mod.rs:310-560 | In every run, however late events come, the one step that takes a finished Update back is a start, and it takes it back to progressing. |
| Executor.ReadsAsReported | src/operator/controllers/mod.rs:310-560 | In every run, however late events come, an Update reads as failed with an error exactly when the report last written on it since its last start carried that error, as succeeded exactly when it carried none, and as in progress exactly when there is no such report. |
| Executor.NothingForgotten | src/operator/controllers/mod.rs:206-262 | If every progress patch with an object to land on lands, and no Update is created while a task of its name runs, no run, however late events come, leaves an unexecuted Update without a task and without a pending event. |
| Executor.LostStartForgets | src/operator/controllers/mod.rs:323-340 | One lost progress patch leaves its Update so. |
| Executor.RecreationForgets | src/operator/controllers/mod.rs:213-220 | So does recreation under a task that has reported. |
| Executor.OutcomesAreOwn | src/operator/controllers/mod.rs:490-560 | From a state whose outcomes are their own, in all runs with events up to date and no creation under a task that has yet to write, every outcome stays that of the object's own execution if and only if no object has been recreated so before. |
| Executor.MatchLostExactlyWhen | src/operator/controllers/mod.rs:213-262 | One step brings that about exactly by creating an Update while an earlier task of its name has yet to write. |
| Executor.RecreationTakesOutcome | src/operator/controllers/mod.rs:490-560 | A concrete run records a recreated Update finished without executing it, and a relist leaves it so. |
| Executor.LateEventTakesOver | src/operator/controllers/mod.rs:198-262 | A late event of an Update that is gone starts a task that writes on the one that replaced it. |
| Executor.AttendedExactlyUntil | src/operator/controllers/mod.rs:490-560 | One step leaves a started, unfinished Update without a streaming task if and only if it is a failed outcome patch of such an Update or a restart while there is one. |
| Executor.NothingStranded | src/operator/controllers/mod.rs:291-586 | Without such a step, in every run each started, unfinished Update has a streaming task. |
| Executor.StrandedForever | src/operator/controllers/mod.rs:206-220 | Once left without a task it stays in progress as long as it exists: no up-to-date event, relist or restart brings it one. |
| Stranding.StrandedStackWaits | src/operator/reconcile/pipeline.rs:217-232 | A Stack whose named Update never finishes creates, records and releases nothing in any run, deleted or not. |
| Executor.UpdateWatcher.OnApply | src/operator/controllers/mod.rs:206-262 | One watch event, whatever it carries, starts a task exactly for an Update without a True Progressing or Complete condition, with a workspace and no task of its name. |
| Executor.UpdateWatcher.SetProgressing | src/operator/controllers/mod.rs:310-323 | Writes progress, read back as in progress, and goes on streaming; or gives up when the patch fails. No other Update changes. |
| Executor.UpdateWatcher.ReportOutcome | src/operator/controllers/mod.rs:490-560 | Leaves, and if the write lands the Update reads as failed with the (truncated) error if there was one and as succeeded otherwise. No other Update changes. |
| Executor.UpdateWatcher.Execute | src/operator/controllers/mod.rs:291-586 | `execute_update` and the removal from the set: if both writes land the Update reads as failed with the error or as succeeded, without the second as in progress, without the first it is untouched; the key leaves the set either way. |
| Programs.ProtectionLostExactlyWhen | src/operator/finalizers.rs:37-52 | One step takes protection from a Program some Stack relies on if and only if it is a finalizer removal decided before. |
| Programs.ProgramsStayProtected | src/operator/reconcile/pipeline.rs:354-400 | With the watcher's decision and patch as one step, a Program that a Stack has passed Step 4 on exists and carries its finalizer, for any number of Stacks. |
| Programs.StaleRemovalUnprotects | src/operator/controllers/mod.rs:615-650 | With the watcher's own two steps, a concrete run loses it. |
| Programs.UnreferencedCount | src/operator/controllers/program.rs:40-53 | The count is zero exactly when no Stack refers to the Program. |
| Programs.WatcherMeans | src/operator/finalizers.rs:37-52 | A watcher pass whose patch lands gives the finalizer exactly to a Program some Stack refers to that is not being deleted, and lets one under deletion go exactly when none does. |
| Programs.Step4Means | src/operator/reconcile/pipeline.rs:354-400 | Step 4 goes through exactly when the Program is there and carries the finalizer or can still be given it, and then it carries it. |
| Pool.ConnectionPool.FindFreeSlot | src/operator/connection.rs:82-90 | The first free slot, or none exactly on a full slab. |
| Pool.ConnectionPool.EvictOldest | src/operator/connection.rs:93-114 | Removes one entry with the least last use if one is older than now, and nothing otherwise. |
| Pool.ConnectionPool.EvictIdle | src/operator/connection.rs:56-70 | Removes exactly the indexed entries idle for max_idle. |
| Pool.ConnectionPool.TryHit | src/operator/connection.rs:132-144 | A hit returns the stored channel and changes only its last use. |
| Pool.ConnectionPool.InsertChannel | src/operator/connection.rs:157-170 | Places the channel in a free or evicted slot, or fails on a full slab of entries no older than now. |
| Pool.ConnectionPool.Lend | src/operator/connection.rs:124-176 | Run one at a time, lends make the pool a keyed map of 64 entries that gives up the least recently used. |
| PoolSlab.TouchKeeps | src/operator/connection.rs:132-144 | A hit changes one entry's last use in the map the pool stands for. |
| PoolSlab.EvictionIsLru | src/operator/connection.rs:93-114 | Selection on a full slab takes exactly one entry of minimal last use out of that map. |
| PoolSlab.SelectionFails | src/operator/connection.rs:158-161 | No slot can be chosen if and only if the slab is full and nothing indexed is older than now. |
| PoolSlab.PlacementKeeps | src/operator/connection.rs:163-168 | Placing a channel keeps the pool sound and orphans the old slot exactly when its key is still indexed. |
| PoolSlab.PruningKeeps | src/operator/connection.rs:56-70 | Idle eviction keeps the map restricted to entries younger than max_idle, and the orphans. |
| PoolSlab.OrphansTakeCapacity | src/operator/connection.rs:73-75 | Occupied slots are the indexed ones plus the orphans, at most 64 together, and the slab is full exactly at 64 less the orphans keys. |
| PoolSlab.InterleavingKeeps | src/operator/connection.rs:124-176 | Under any interleaving the index is injective, every indexed slot holds a channel connected for its key, and orphans grow by one exactly at an insert whose key is still indexed after slot selection, and never shrink. |
| PoolSlab.OrphansNeverFillThePool | src/operator/connection.rs:124-176 | However many orphans pile up, a slot is left. |
| PoolSlab.LoneConnectsLeaveNoOrphans | src/operator/connection.rs:146-170 | Without two concurrent connects for one key there are no orphans. |

## Left out

- The clock is one monotone counter; wall clocks that step back, and times below a millisecond, are not modelled.
- Effects.NthErrorDelay: for a count that has not wrapped around 32 bits.
- Wakeups.UnreadableHoldsNothing: for resync periods that fit 64 bits.
- Wakeups.RetryRunsOnTime: for an actor no other message reaches meanwhile; `BackoffIsHonoured` and `NoLostWakeUp` cover the others.
- LockStreak.LockStreakBound: stated up to 21 conflicts, where the exponent of the backoff stops; the schema allows timeouts that need seven.
- Messages.TruncationSettles: a message whose byte 97 lies inside a character aborts the process; the other modules take messages without that (type `Legible`).
- Commits.TruthfulCommit: for Stacks without project verification unless omitted fields are kept.
- Quiescence.CreationsArePaced: for Stacks without the reconcile-request annotation; `AnnotationCreates` shows that others are not paced.
- Programs.ProgramsStayProtected: for a watcher whose decision and patch are one step, with a current informer store and no outside finalizer edits; the two-step watcher breaks it.
- Executor.StatusAdvances: for an object that keeps existing; one recreated under the same name starts anew.
- Executor.OutcomesAreOwn: for events that are up to date; `LateEventTakesOver` shows what a late one does.
- Stranding.StrandedStackWaits: for Stacks without project verification that want a destroy; others may be released at once.
- A write of the executor that the API server takes only after the operator has restarted.
- The pool's `len`, which is the size of its index.
- Liveness beyond the two release results and the waking of a waiting actor: whether the environment ever finishes an Update or lets a patch land is its own affair.
- A Stack recreated under the same name as a new object, and API calls that fail at the client yet take effect.
- The decision chain reads the Updates at one instant, and the 409 recovery is one step apart from the object vanishing before it is read.
- Source resolution, prerequisites, workspace creation and the cloud project call are inputs (`Probe`); errors are represented by their recovery, so of the error-to-recovery table only its delays appear (`RepositoryBackoffs`).
- Status conditions, observedGeneration, outputs, permalink, events, metrics, notifications and logs: the reconcile logic does not read them.
- Edits of the Stack's finalizer by others: `Edit` leaves it alone, and `CreationRules` relies on that.
- Deletion of workspaces and of an owning Kustomization; the CancelUpdate call of a lock retry is the input `unlocked`.
- `retry_on_lock`, the gRPC stream, the artifact and file servers, webhooks and health endpoints.
- The overflow of the 64-bit failure counter of destroys; the 32-bit counters of the actor and of the streak do wrap.
- Panics inside an execution task, and `shutdown_all`: an actor keeps a sender to itself, so it does not end when the others are dropped.
- Programs of several namespaces, and the LockAction `Clear`, which nothing returns.
- The order of equal priorities in the heap and of keys in a hash map: left open, so the results hold for each.
