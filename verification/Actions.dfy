/**
 What the actor does with a decided action or an error, as functions: `handle_action` and
 `handle_error` of src/operator/actors/actor.rs. Module Reconciler carries the same steps out on
 mutable state and is proved against these functions.
 */
module Actions {
  import opened Basics
  import opened Time
  import opened Messages
  import opened LockStreak
  import opened Api
  import opened Sync
  import opened Project
  import opened Pipeline

  datatype ActorData = ActorData(failureCount: nat, streak: Streak, lastCommit: Option<string>)

  const INITIAL_ACTOR := ActorData(0, Streak(None, 900_000, 0), None)

  datatype Priority = Deletion | LockRecovery | FailureRetry | Normal

  datatype Trigger =
    | StackChanged
    | WorkspaceChanged
    | UpdateCompleted
    | PrerequisiteReady
    | SourceChanged
    | Timer
    | ManualRequest
    | Retry
    | LockRetry

  datatype Requeue = Requeue(delayMs: nat, priority: Priority, trigger: Trigger)

  // Which of the API calls of `handle_action` take effect.
  datatype ActFaults = ActFaults(patchLands: bool, finalizerLands: bool, stripLands: bool)

  // ----------------------------------------------------------- actor state

  ghost function ActorAfter(a: ActorData, action: Action, now: nat): ActorData {
    match action
    case UpdateCreated(_) => a.(failureCount := 0, streak := OnSuccess(a.streak))
    case UpdateSucceeded(_) => a.(failureCount := 0, streak := OnSuccess(a.streak))
    case UpdateFailed(_, message) =>
      a.(failureCount := (a.failureCount + 1) % U32,
         streak := if IsLockError(message) then OnConflict(a.streak, now).0 else a.streak)
    case DestroyFailed(_, failures) => a.(failureCount := Min(failures, U32 - 1) % U32)
    case _ => a
  }

  // --------------------------------------------------------- status patches

  function PatchOf(a: ActorData, action: Action, stack: Stack, now: nat): Option<StatusPatch> {
    match action
    case UpdateCreated(name) => Some(Started(stack, name))
    case DestroyStarted(name) => Some(Started(stack, name))
    case UpdateSucceeded(name) =>
      Some(StatusPatch(
             Null,
             Set(LastUpdatePatch(stack.generation, name, Up, RunSucceeded, Omitted, FromOption(a.lastCommit), At(now),
                                 0)),
             Omitted, Omitted))
    case UpdateFailed(name, _) =>
      Some(StatusPatch(
             Null,
             Set(LastUpdatePatch(stack.generation, name, Up, RunFailed, FromOption(a.lastCommit), Omitted, At(now),
                                 (a.failureCount + 1) % U32)),
             Omitted, Omitted))
    case DestroyFailed(name, failures) =>
      Some(StatusPatch(
             Null,
             Set(LastUpdatePatch(stack.generation, name, Destroy, RunFailed, Omitted, Omitted, At(now), failures)),
             Omitted, Omitted))
    case ProjectNotFound =>
      var since := if stack.status.pendingDeletionSince.Some? then stack.status.pendingDeletionSince.value else At(now);
      Some(StatusPatch(Omitted, Omitted, Set(since), Set(ProjectCheck(At(now), NotFound))))
    case ProjectReinstated =>
      Some(StatusPatch(Omitted, Omitted, Null, Set(ProjectCheck(At(now), Active))))
    case ProjectTtlExpired => Some(StatusPatch(Omitted, Omitted, Omitted, Omitted))
    case _ => None
  }

  function Started(stack: Stack, name: string): StatusPatch {
    StatusPatch(Set(CurrentUpdate(stack.generation, Some(name))), Omitted, Omitted, Omitted)
  }

  function FromOption<T>(o: Option<T>): Field<T> {
    if o.Some? then Set(o.value) else Null
  }

  function StatusAfter(keep: bool, s: Status, p: Option<StatusPatch>, lands: bool): Status {
    if p.Some? && lands then ApplyPatch(keep, s, p.value) else s
  }

  // The Stack after the status patch of an action decided on `snap`.
  function Patched(keep: bool, stack: Stack, a: ActorData, action: Action, snap: Stack, now: nat, lands: bool): Stack {
    stack.(status := StatusAfter(keep, stack.status, PatchOf(a, action, snap, now), lands))
  }

  // -------------------------------------------------------------- finalizer

  // Whether the action asks for the removal of the stack finalizer. `snap` is the Stack the
  // reconcile read.
  predicate Releases(action: Action, snap: Stack) {
    || action == RemoveFinalizer
    || action == RemoveFinalizerAfterDestroy
    || (&& action == ProjectTtlExpired
        && snap.spec.verification.Some?
        && snap.spec.verification.value.removeFinalizerOnExpiry)
  }

  // The API server refuses new finalizers on an object that is being deleted.
  function FinalizerAfter(stack: Stack, action: Action, snap: Stack, lands: bool): bool {
    if !lands then stack.finalizer
    else if action == AddFinalizer then stack.finalizer || !stack.Deleting()
    else stack.finalizer && !Releases(action, snap)
  }

  function UpdatesAfter(us: Updates, action: Action, lands: bool): Updates {
    match action
    case UpdateSucceeded(name) => if lands then StripFinalizer(us, name) else us
    case UpdateFailed(name, _) => if lands then StripFinalizer(us, name) else us
    case _ => us
  }

  // ----------------------------------------------------------------- retries

  function RequeueLock(action: LockAction): Option<Requeue> {
    match action
    case ForceUnlock => Some(Requeue(2_000, LockRecovery, LockRetry))
    case RetryAfter(ms) => Some(Requeue(ms, FailureRetry, Retry))
    case Clear => None
  }

  ghost function RequeueOf(a: ActorData, action: Action, snap: Stack, now: nat): Option<Requeue> {
    match action
    case UpdateFailed(_, message) =>
      if IsLockError(message) then RequeueLock(OnConflict(a.streak, now).1)
      else Some(Requeue(Cooldown((a.failureCount + 1) % U32, snap.spec), FailureRetry, Retry))
    case DestroyFailed(_, failures) => Some(Requeue(Cooldown(failures, snap.spec), FailureRetry, Retry))
    case WaitForUpdate(_) => Some(Requeue(30_000, Normal, Retry))
    case WaitForWorkspace => Some(Requeue(5_000, Normal, Retry))
    case ProjectNotFound => Some(Requeue(300_000, Normal, Retry))
    case ProjectReinstated => Some(Requeue(1_000, Normal, Retry))
    case _ => None
  }

  function ErrorDelay(r: Recovery, failureCount: nat): nat
    requires r.RetryWithBackoff?
  {
    Min(SatMul(r.baseMs, SatPow(2, Min(failureCount, 20))), r.maxMs)
  }

  function ActorAfterError(a: ActorData, r: Recovery, now: nat): ActorData {
    match r
    case RetryWithBackoff(_, _) => a.(failureCount := (a.failureCount + 1) % U32)
    case Stall => a
    case ForceUnlockAndRetry => a.(streak := OnConflict(a.streak, now).0)
  }

  function RequeueOfError(a: ActorData, r: Recovery, now: nat): Option<Requeue> {
    match r
    case RetryWithBackoff(_, _) => Some(Requeue(ErrorDelay(r, (a.failureCount + 1) % U32), FailureRetry, Retry))
    case Stall => None
    case ForceUnlockAndRetry => RequeueLock(OnConflict(a.streak, now).1)
  }

  // Everything the actor schedules for itself is a Retry or a LockRetry, the two triggers the
  // debounce lets through.
  lemma RequeuesPassDebounce(a: ActorData, action: Action, snap: Stack, r: Recovery, now: nat)
    ensures var q := RequeueOf(a, action, snap, now); q.Some? ==> q.value.trigger in {Retry, LockRetry}
    ensures var q := RequeueOfError(a, r, now); q.Some? ==> q.value.trigger in {Retry, LockRetry}
  {}

  // The failure window is exact: once a failed Update is recorded at `now`, a later reconcile that
  // finds this status is synced precisely for the same generation, commit and reconcile request until
  // the cooldown of the spec it reads has passed; and with an unchanged spec the retry scheduled by
  // a non-lock failure falls on the end of that window, so it is neither early nor swallowed.
  lemma FailureWindowExact(keep: bool, a: ActorData, name: string, message: Legible, snap: Stack, now: nat,
                           stack: Stack, later: nat, commit: string)
    requires now <= later
    requires stack.status == Patched(keep, snap, a, UpdateFailed(name, message), snap, now, true).status
    ensures var failures := (a.failureCount + 1) % U32;
            && (IsSynced(stack, commit, later) <==>
                  && stack.generation == snap.generation && a.lastCommit == Some(commit)
                  && stack.annotation == stack.status.lastUpdate.value.reconcileRequest
                  && later < now + Cooldown(failures, stack.spec))
            && (!IsLockError(message) ==>
                  RequeueOf(a, UpdateFailed(name, message), snap, now)
                  == Some(Requeue(Cooldown(failures, snap.spec), FailureRetry, Retry)))
  {}

  // The retry after a NotFound falls on the end of the window in which the check is answered from
  // the status, so it asks the cloud again; an earlier trigger is told NotFound again. A
  // reinstated project is taken for active throughout that window.
  lemma RecheckMeetsCache(keep: bool, a: ActorData, snap: Stack, now: nat, later: nat, polled: Verdict)
    requires snap.spec.verification.Some? && now <= later
    ensures var stack := Patched(keep, snap, a, ProjectNotFound, snap, now, true);
            && RequeueOf(a, ProjectNotFound, snap, now).Some?
            && CheckProject(stack, polled, later) ==
                 (if later < now + RequeueOf(a, ProjectNotFound, snap, now).value.delayMs then NotFound else polled)
    ensures var stack := Patched(keep, snap, a, ProjectReinstated, snap, now, true);
            && stack.status.pendingDeletionSince.None?
            && CheckProject(stack, polled, later) == (if later < now + RECHECK_MS then Active else polled)
  {}
}
