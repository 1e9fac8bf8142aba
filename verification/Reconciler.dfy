/**
 One reconcile on mutable state: `run_pipeline`, `handle_destroy` and the creation of Updates
 (src/operator/reconcile/pipeline.rs), `handle_action` and `handle_error`
 (src/operator/actors/actor.rs). Every method is proved against the functions of modules Pipeline
 and Actions; Reconcile is proved to be four steps of the lifecycle machine with nothing between.
 */
module Reconciler {
  import opened Basics
  import opened Time
  import opened Messages
  import opened LockStreak
  import opened Api
  import opened UpdateCheck
  import opened Sync
  import opened Project
  import opened Pipeline
  import opened Actions
  import opened Effects
  import opened Gates
  import L = Lifecycle
  import M = Mailbox

  datatype CreateResult = Created | Conflict | ServerError

  // The API server, as far as one Stack and its Updates go.
  class ApiServer {
    const keep: bool
    var stack: Stack
    var updates: Updates

    method Create(name: string, u: Update, fails: bool) returns (r: CreateResult)
      modifies `updates
      ensures (updates, r == Created) == TryCreate(old(updates), name, u, fails)
      ensures r == Conflict <==> !fails && name in old(updates)
    {
      if fails {
        return ServerError;
      }
      if name in updates {
        return Conflict;
      }
      updates := updates[name := u];
      r := Created;
    }

    method RemoveUpdateFinalizer(name: string, lands: bool)
      modifies `updates
      ensures updates == if lands then StripFinalizer(old(updates), name) else old(updates)
    {
      if lands && name in updates {
        if updates[name].deleting {
          updates := updates - {name};
        } else {
          updates := updates[name := updates[name].(finalizer := false)];
        }
      }
    }

    method Delete(name: string, lands: bool)
      modifies `updates
      ensures updates == if lands then DeleteUpdate(old(updates), name) else old(updates)
    {
      if lands && name in updates {
        if updates[name].finalizer {
          updates := updates[name := updates[name].(deleting := true)];
        } else {
          updates := updates - {name};
        }
      }
    }

    // Every Update in the list that carries the finalizer loses it.
    method StripOrphans(strips: set<string>)
      modifies `updates
      ensures updates == Orphaned(old(updates), strips)
      ensures forall n :: n in updates <==>
                n in old(updates) && !(n in strips && old(updates)[n].finalizer && old(updates)[n].deleting)
      ensures forall n :: n in updates ==>
                updates[n] == old(updates)[n].(finalizer := old(updates)[n].finalizer && n !in strips)
    {
      var todo := updates.Keys;
      ghost var done: set<string> := {};
      while todo != {}
        invariant todo !! done && todo + done == old(updates).Keys
        invariant updates == Orphaned(old(updates), strips * done)
        decreases todo
      {
        var name: string :| name in todo;
        if updates[name].finalizer {
          RemoveUpdateFinalizer(name, name in strips);
        }
        todo, done := todo - {name}, done + {name};
      }
      assert forall n :: n in old(updates) ==> (n in strips * done <==> n in strips);
    }

    method PatchStatus(p: StatusPatch, lands: bool)
      modifies `stack
      ensures stack == old(stack).(status := StatusAfter(keep, old(stack.status), Some(p), lands))
    {
      if lands {
        stack := stack.(status := ApplyPatch(keep, stack.status, p));
      }
    }

    method AddStackFinalizer(lands: bool)
      modifies `stack
      ensures stack == old(stack).(finalizer := old(stack.finalizer) || (lands && !old(stack).Deleting()))
    {
      if lands && !stack.Deleting() {
        stack := stack.(finalizer := true);
      }
    }

    method RemoveStackFinalizer(lands: bool)
      modifies `stack
      ensures stack == old(stack).(finalizer := old(stack.finalizer) && !lands)
    {
      if lands {
        stack := stack.(finalizer := false);
      }
    }
  }

  class Actor {
    const key: string
    const api: ApiServer
    const lock: LockState
    var failureCount: nat
    var lastCommit: Option<string>

    ghost function Data(): ActorData
      reads this, lock
    {
      ActorData(failureCount, lock.View(), lastCommit)
    }

    constructor (key: string, api: ApiServer)
      ensures this.key == key && this.api == api && fresh(lock) && Data() == INITIAL_ACTOR
    {
      this.key := key;
      this.api := api;
      this.lock := new LockState(900_000);
      failureCount := 0;
      lastCommit := None;
    }

    // --------------------------------------------------------- run_pipeline

    method RunPipeline(stack: Stack, now: nat, p: Probe, f: CreateFaults) returns (r: Result<Action, Recovery>)
      modifies `lastCommit, api`updates
      ensures (api.updates, lastCommit, r) == Pipelined(key, old(api.updates), old(lastCommit), stack, now, p, f)
      ensures Obeys(key, old(api.updates), old(lastCommit), stack, now, p, f, api.updates, lastCommit, r)
    {
      FirstGateAnswers(key, api.updates, lastCommit, stack, now, p, f);
      match StackFinalizerAction(stack) {
        case Add => return Ok(AddFinalizer);
        case AlreadyFinalized => return Ok(Done);
        case RemoveImmediately => return Ok(RemoveFinalizer);
        case RunDestroy =>
          r := HandleDestroy(stack, now, p, f);
          return;
        case NoAction =>
      }
      var verdict := CheckProject(stack, p.project, now);
      var pending := stack.status.pendingDeletionSince;
      if verdict == Active && pending.Some? {
        return Ok(ProjectReinstated);
      }
      if verdict == NotFound {
        if pending.Some? && IsGraceExpired(pending.value, GraceDays(stack.spec), now) {
          return Ok(ProjectTtlExpired);
        }
        return Ok(ProjectNotFound);
      }
      var name := stack.CurrentName();
      if name.Some? {
        if p.checkFails {
          return Err(KUBE_RETRY);
        }
        match CheckUpdate(api.updates, name.value) {
          case InProgress => return Ok(WaitForUpdate(name.value));
          case Succeeded => return Ok(UpdateSucceeded(name.value));
          case FailedWith(message) => return Ok(UpdateFailed(name.value, message));
          case Absent =>
        }
      }
      r := StartUpdate(stack, now, p, f);
    }

    // Steps 2 to 9.
    method StartUpdate(stack: Stack, now: nat, p: Probe, f: CreateFaults) returns (r: Result<Action, Recovery>)
      modifies `lastCommit, api`updates
      ensures match DecideNext(stack, now, p)
              case CreateUp(commit) =>
                var (us, c) := CreateUpdate(old(api.updates), UpName(key, commit), NewUpdate(stack, commit, now), f);
                && api.updates == us
                && (if c.Ok? then lastCommit == Some(commit) && r == Ok(UpdateCreated(c.value))
                    else lastCommit == old(lastCommit) && r == Err(c.error))
              case Decided(a) => api.updates == old(api.updates) && lastCommit == old(lastCommit) && r == Ok(a)
              case Erred(e) => api.updates == old(api.updates) && lastCommit == old(lastCommit) && r == Err(e)
              case CreateDestroy => false
    {
      if stack.Deleting() {
        return Ok(Done);
      }
      if p.source.Err? {
        return Err(p.source.error);
      }
      var commit := p.source.value;
      if stack.spec.usesProgram && p.program.Some? {
        return Err(p.program.value);
      }
      if IsSynced(stack, commit, now) {
        return Ok(Synced);
      }
      if p.prerequisites.Some? {
        return Err(p.prerequisites.value);
      }
      if p.workspace.Err? {
        return Err(p.workspace.error);
      }
      if !p.workspace.value {
        return Ok(WaitForWorkspace);
      }
      var created := CreateOrReplace(UpName(key, commit), NewUpdate(stack, commit, now), f);
      if created.Err? {
        return Err(created.error);
      }
      lastCommit := Some(commit);
      r := Ok(UpdateCreated(created.value));
    }

    // `create_update`, with the recovery from a name that is already taken.
    method CreateOrReplace(name: string, u: Update, f: CreateFaults) returns (r: Result<string, Recovery>)
      modifies api`updates
      ensures (api.updates, r) == CreateUpdate(old(api.updates), name, u, f)
      ensures Creates(old(api.updates), name, u, f, api.updates, r)
    {
      CreationMeans(api.updates, name, u, f);
      var first := api.Create(name, u, f.createFails);
      match first
      case Created => r := Ok(name);
      case ServerError => r := Err(KUBE_RETRY);
      case Conflict =>
        if f.checkFails {
          return Err(KUBE_RETRY);
        }
        if f.vanishes {
          api.updates := api.updates - {name};
        }
        if CheckUpdate(api.updates, name) == InProgress {
          return Ok(name);
        }
        api.RemoveUpdateFinalizer(name, f.stripLands);
        api.Delete(name, f.deleteLands);
        var second := api.Create(name, u, f.recreateFails);
        r := if second == Created then Ok(name) else Err(KUBE_RETRY);
    }

    method HandleDestroy(stack: Stack, now: nat, p: Probe, f: CreateFaults) returns (r: Result<Action, Recovery>)
      requires StackFinalizerAction(stack) == RunDestroy
      modifies api`updates
      ensures (api.updates, old(lastCommit), r) == Pipelined(key, old(api.updates), old(lastCommit), stack, now, p, f)
      ensures Obeys(key, old(api.updates), old(lastCommit), stack, now, p, f, api.updates, old(lastCommit), r)
    {
      FirstGateAnswers(key, api.updates, lastCommit, stack, now, p, f);
      var name := stack.CurrentName();
      if name.Some? {
        if p.checkFails {
          return Err(KUBE_RETRY);
        }
        match CheckUpdate(api.updates, name.value) {
          case InProgress => return Ok(WaitForUpdate(name.value));
          case Succeeded => return Ok(RemoveFinalizerAfterDestroy);
          case FailedWith(_) => return Ok(DestroyFailed(name.value, PriorFailures(stack) + 1));
          case Absent =>
        }
      }
      var last := stack.status.lastUpdate;
      if && last.Some? && last.value.state == Some(RunFailed) && last.value.kind == Some(Destroy)
         && last.value.failures > 0
      {
        var cooldown := ComputeCooldownSecs(last.value.failures, stack.spec);
        if ElapsedSince(last.value.lastResyncTime, now) < cooldown * 1000 {
          return Ok(WaitForUpdate(if last.value.name.Some? then last.value.name.value else ""));
        }
      }
      if p.workspace.Err? {
        return Err(p.workspace.error);
      }
      if !p.workspace.value {
        return Ok(WaitForWorkspace);
      }
      var destroyName := DestroyName(key, now);
      var created := api.Create(destroyName, NewDestroy(now), f.createFails);
      r := if created == Created then Ok(DestroyStarted(destroyName)) else Err(KUBE_RETRY);
    }

    // -------------------------------------------------------- handle_action

    method HandleAction(action: Action, snap: Stack, now: nat, f: ActFaults) returns (requeue: Option<Requeue>)
      modifies this`failureCount, lock, api
      ensures Data() == ActorAfter(old(Data()), action, now)
      ensures api.stack ==
                Patched(api.keep, old(api.stack), old(Data()), action, snap, now, f.patchLands)
                .(finalizer := FinalizerAfter(old(api.stack), action, snap, f.finalizerLands))
      ensures api.updates == UpdatesAfter(old(api.updates), action, f.stripLands)
      ensures requeue == RequeueOf(old(Data()), action, snap, now)
      ensures Wakes(old(Data()), action, snap, now, requeue)
      ensures Leaves(api.keep, old(api.stack), old(api.updates), old(Data()), action, snap, now, f,
                     api.stack, api.updates, Data())
    {
      RequeueWakes(Data(), action, snap, now);
      ActionLeaves(api.keep, api.stack, api.updates, Data(), action, snap, now, f);
      requeue := None;
      match action
      case AddFinalizer => api.AddStackFinalizer(f.finalizerLands);
      case RemoveFinalizer => api.RemoveStackFinalizer(f.finalizerLands);
      case RemoveFinalizerAfterDestroy => api.RemoveStackFinalizer(f.finalizerLands);
      case WaitForUpdate(_) => requeue := Some(Requeue(30_000, Normal, Retry));
      case WaitForWorkspace => requeue := Some(Requeue(5_000, Normal, Retry));
      case ProjectTtlExpired => RecordProjectExpired(snap, now, f);
      case Synced =>
      case Done =>
      case _ => requeue := Record(action, snap, now, f);
    }

    // The actions that write what has happened into the status.
    method Record(action: Action, snap: Stack, now: nat, f: ActFaults) returns (requeue: Option<Requeue>)
      requires PatchOf(Data(), action, snap, now).Some? && action != ProjectTtlExpired
      modifies this`failureCount, lock, api
      ensures Data() == ActorAfter(old(Data()), action, now)
      ensures api.stack == Patched(api.keep, old(api.stack), old(Data()), action, snap, now, f.patchLands)
      ensures api.updates == UpdatesAfter(old(api.updates), action, f.stripLands)
      ensures requeue == RequeueOf(old(Data()), action, snap, now)
    {
      requeue := None;
      match action
      case UpdateCreated(name) => RecordCreated(name, snap, now, f);
      case DestroyStarted(name) => api.PatchStatus(Started(snap, name), f.patchLands);
      case UpdateSucceeded(name) => RecordSuccess(name, snap, now, f);
      case UpdateFailed(name, message) => requeue := RecordFailure(name, message, snap, now, f);
      case DestroyFailed(name, failures) => requeue := RecordDestroyFailure(name, failures, snap, now, f);
      case ProjectNotFound => requeue := RecordProjectNotFound(snap, now, f);
      case ProjectReinstated => requeue := RecordProjectReinstated(snap, now, f);
      case _ => assert false;
    }

    method RecordDestroyFailure(name: string, failures: int, snap: Stack, now: nat, f: ActFaults)
      returns (requeue: Option<Requeue>)
      modifies this`failureCount, api`stack
      ensures Data() == ActorAfter(old(Data()), DestroyFailed(name, failures), now)
      ensures api.stack ==
                Patched(api.keep, old(api.stack), old(Data()), DestroyFailed(name, failures), snap, now, f.patchLands)
      ensures requeue == RequeueOf(old(Data()), DestroyFailed(name, failures), snap, now)
    {
      failureCount := Min(failures, U32 - 1) % U32;
      var last := LastUpdatePatch(snap.generation, name, Destroy, RunFailed, Omitted, Omitted, At(now), failures);
      api.PatchStatus(StatusPatch(Null, Set(last), Omitted, Omitted), f.patchLands);
      var cooldown := ComputeCooldownSecs(failures, snap.spec);
      requeue := Some(Requeue(cooldown * 1000, FailureRetry, Retry));
    }

    method RecordProjectNotFound(snap: Stack, now: nat, f: ActFaults) returns (requeue: Option<Requeue>)
      modifies api`stack
      ensures api.stack ==
                Patched(api.keep, old(api.stack), Data(), ProjectNotFound, snap, now, f.patchLands)
      ensures requeue == RequeueOf(Data(), ProjectNotFound, snap, now)
    {
      var pending := snap.status.pendingDeletionSince;
      var since := if pending.Some? then pending.value else At(now);
      api.PatchStatus(StatusPatch(Omitted, Omitted, Set(since), Set(ProjectCheck(At(now), NotFound))), f.patchLands);
      requeue := Some(Requeue(300_000, Normal, Retry));
    }

    method RecordProjectReinstated(snap: Stack, now: nat, f: ActFaults) returns (requeue: Option<Requeue>)
      modifies api`stack
      ensures api.stack ==
                Patched(api.keep, old(api.stack), Data(), ProjectReinstated, snap, now, f.patchLands)
      ensures requeue == RequeueOf(Data(), ProjectReinstated, snap, now)
    {
      api.PatchStatus(StatusPatch(Omitted, Omitted, Null, Set(ProjectCheck(At(now), Active))), f.patchLands);
      requeue := Some(Requeue(1_000, Normal, Retry));
    }

    method RecordProjectExpired(snap: Stack, now: nat, f: ActFaults)
      modifies api`stack
      ensures api.stack ==
                Patched(api.keep, old(api.stack), Data(), ProjectTtlExpired, snap, now, f.patchLands)
                .(finalizer := FinalizerAfter(old(api.stack), ProjectTtlExpired, snap, f.finalizerLands))
    {
      api.PatchStatus(StatusPatch(Omitted, Omitted, Omitted, Omitted), f.patchLands);
      if snap.spec.verification.Some? && snap.spec.verification.value.removeFinalizerOnExpiry {
        api.RemoveStackFinalizer(f.finalizerLands);
      }
    }

    method RecordCreated(name: string, snap: Stack, now: nat, f: ActFaults)
      modifies this`failureCount, lock, api`stack
      ensures Data() == ActorAfter(old(Data()), UpdateCreated(name), now)
      ensures api.stack ==
                Patched(api.keep, old(api.stack), old(Data()), UpdateCreated(name), snap, now, f.patchLands)
    {
      lock.Success();
      failureCount := 0;
      api.PatchStatus(Started(snap, name), f.patchLands);
    }

    method RecordSuccess(name: string, snap: Stack, now: nat, f: ActFaults)
      modifies this`failureCount, lock, api
      ensures Data() == ActorAfter(old(Data()), UpdateSucceeded(name), now)
      ensures api.stack ==
                Patched(api.keep, old(api.stack), old(Data()), UpdateSucceeded(name), snap, now, f.patchLands)
      ensures api.updates == UpdatesAfter(old(api.updates), UpdateSucceeded(name), f.stripLands)
    {
      failureCount := 0;
      lock.Success();
      var last := LastUpdatePatch(snap.generation, name, Up, RunSucceeded, Omitted, FromOption(lastCommit), At(now), 0);
      api.PatchStatus(StatusPatch(Null, Set(last), Omitted, Omitted), f.patchLands);
      api.RemoveUpdateFinalizer(name, f.stripLands);
    }

    method RecordFailure(name: string, message: Legible, snap: Stack, now: nat, f: ActFaults)
      returns (requeue: Option<Requeue>)
      modifies this`failureCount, lock, api
      ensures Data() == ActorAfter(old(Data()), UpdateFailed(name, message), now)
      ensures api.stack ==
                Patched(api.keep, old(api.stack), old(Data()), UpdateFailed(name, message), snap, now, f.patchLands)
      ensures api.updates == UpdatesAfter(old(api.updates), UpdateFailed(name, message), f.stripLands)
      ensures requeue == RequeueOf(old(Data()), UpdateFailed(name, message), snap, now)
    {
      var isLock := CheckLockError(message);
      failureCount := (failureCount + 1) % U32;
      var last := LastUpdatePatch(snap.generation, name, Up, RunFailed, FromOption(lastCommit), Omitted, At(now),
                                  failureCount);
      api.PatchStatus(StatusPatch(Null, Set(last), Omitted, Omitted), f.patchLands);
      api.RemoveUpdateFinalizer(name, f.stripLands);
      if isLock {
        requeue := OnLockConflict(now);
      } else {
        var cooldown := ComputeCooldownSecs(failureCount, snap.spec);
        requeue := Some(Requeue(cooldown * 1000, FailureRetry, Retry));
      }
    }

    method OnLockConflict(now: nat) returns (requeue: Option<Requeue>)
      modifies lock
      ensures (lock.View(), requeue) ==
                (var (s, a) := OnConflict(old(lock.View()), now); (s, RequeueLock(a)))
    {
      var action := lock.Conflict(now);
      match action
      case ForceUnlock => requeue := Some(Requeue(2_000, LockRecovery, LockRetry));
      case RetryAfter(ms) => requeue := Some(Requeue(ms, FailureRetry, Retry));
      case Clear => requeue := None;
    }

    method HandleError(r: Recovery, now: nat) returns (requeue: Option<Requeue>)
      modifies this, lock
      ensures Data() == ActorAfterError(old(Data()), r, now)
      ensures requeue == RequeueOfError(old(Data()), r, now)
      ensures WakesAfterError(old(Data()), r, now, requeue)
      ensures RemembersError(old(Data()), r, now, Data())
    {
      ErrorWakes(Data(), r, now);
      ErrorRemembers(Data(), r, now);
      match r
      case RetryWithBackoff(_, _) =>
        failureCount := (failureCount + 1) % U32;
        requeue := Some(Requeue(ErrorDelay(r, failureCount), FailureRetry, Retry));
      case Stall => requeue := None;
      case ForceUnlockAndRetry => requeue := OnLockConflict(now);
    }

    // `handle_reconcile` past the debounce. `unlocked` says whether this is a lock retry whose
    // CancelUpdate went through; `strips` names the orphans whose finalizer removal lands. Undisturbed,
    // a reconcile that reads the Stack is the four reconcile steps of the lifecycle machine.
    method Reconcile(now: nat, read: StackRead, strips: set<string>, unlocked: bool, p: Probe, f: CreateFaults,
                     g: ActFaults)
      returns (requeue: Option<Requeue>)
      modifies this, lock, api
      ensures read == Found ==>
                var w := L.World(now, old(api.stack), old(api.updates), old(Data()), L.Idle, []);
                var w' := L.Run(L.Config(key, api.keep), w, Undisturbed(unlocked, p, f, g));
                && api.stack == w'.stack && api.updates == w'.updates && Data() == w'.actor && w'.phase == L.Idle
                && requeue == Scheduled(key, w, unlocked, p, f)
                && Reconciles(key, api.keep, w, unlocked, p, f, g, api.stack, api.updates, Data(), requeue)
      ensures read != Found ==> api.stack == old(api.stack) && Data() == old(Data())
      ensures read == Missing ==> api.updates == Orphaned(old(api.updates), strips) && requeue == None
      ensures read == Unread ==> api.updates == old(api.updates) && requeue == Some(Requeue(5_000, FailureRetry, Retry))
      ensures requeue.Some? ==> M.IsScheduled(requeue.value.trigger)
    {
      if read == Missing {
        api.StripOrphans(strips);
        return None;
      }
      if read == Unread {
        return Some(Requeue(5_000, FailureRetry, Retry));
      }
      ghost var w := L.World(now, api.stack, api.updates, Data(), L.Idle, []);
      requeue := ReconcileFound(now, unlocked, p, f, g);
      ReconcileAtOnce(L.Config(key, api.keep), w, unlocked, p, f, g);
      ResultsReconcile(key, api.keep, w, unlocked, p, f, g, api.stack, api.updates, Data());
      ScheduledPasses(key, w, unlocked, p, f);
    }

    method ReconcileFound(now: nat, unlocked: bool, p: Probe, f: CreateFaults, g: ActFaults)
      returns (requeue: Option<Requeue>)
      modifies this, lock, api
      ensures var w := L.World(now, old(api.stack), old(api.updates), old(Data()), L.Idle, []);
              && requeue == Scheduled(key, w, unlocked, p, f)
              && Results(key, api.keep, w, unlocked, p, f, g, api.stack, api.updates, Data())
    {
      var snap := api.stack;
      lock.SetTimeout(Max(snap.spec.lockTimeoutSecs, 60) * 1000);
      if unlocked {
        lock.Success();
      }
      var r := RunPipeline(snap, now, p, f);
      requeue := Conclude(r, snap, now, g);
    }

    // The action or error the pipeline ended in.
    method Conclude(r: Result<Action, Recovery>, snap: Stack, now: nat, g: ActFaults)
      returns (requeue: Option<Requeue>)
      modifies this, lock, api
      ensures if r.Ok? then
                && Data() == ActorAfter(old(Data()), r.value, now)
                && api.stack ==
                     Patched(api.keep, old(api.stack), old(Data()), r.value, snap, now, g.patchLands)
                     .(finalizer := FinalizerAfter(old(api.stack), r.value, snap, g.finalizerLands))
                && api.updates == UpdatesAfter(old(api.updates), r.value, g.stripLands)
                && requeue == RequeueOf(old(Data()), r.value, snap, now)
              else
                && Data() == ActorAfterError(old(Data()), r.error, now)
                && api.stack == old(api.stack) && api.updates == old(api.updates)
                && requeue == RequeueOfError(old(Data()), r.error, now)
    {
      match r {
        case Ok(action) => requeue := HandleAction(action, snap, now, g);
        case Err(e) => requeue := HandleError(e, now);
      }
    }
  }

  // How the read of the Stack goes.
  datatype StackRead = Found | Missing | Unread

  // The Stack is gone: its Updates lose their finalizers, and those being deleted disappear.
  function Orphaned(us: Updates, strips: set<string>): Updates {
    map n | n in us && !(n in strips && us[n].finalizer && us[n].deleting) ::
      if n in strips then us[n].(finalizer := false) else us[n]
  }

  // The retry a reconcile schedules, by the action or error its pipeline ends in.
  ghost function Scheduled(key: string, w: L.World, unlocked: bool, p: Probe, f: CreateFaults): Option<Requeue> {
    var ready := L.ReadStack(w, unlocked).actor;
    var (us, commit, r) := Pipelined(key, w.updates, ready.lastCommit, w.stack, w.now, p, f);
    var a := ready.(lastCommit := commit);
    if r.Ok? then RequeueOf(a, r.value, w.stack, w.now) else RequeueOfError(a, r.error, w.now)
  }

  lemma ScheduledPasses(key: string, w: L.World, unlocked: bool, p: Probe, f: CreateFaults)
    ensures var r := Scheduled(key, w, unlocked, p, f); r.Some? ==> M.IsScheduled(r.value.trigger)
  {
    var ready := L.ReadStack(w, unlocked).actor;
    var (us, commit, r) := Pipelined(key, w.updates, ready.lastCommit, w.stack, w.now, p, f);
    RequeuesPassDebounce(ready.(lastCommit := commit), if r.Ok? then r.value else Done, w.stack,
                         if r.Err? then r.error else Stall, w.now);
  }

  // The state an undisturbed reconcile leaves, by the action or error its pipeline ends in.
  ghost predicate Results(key: string, keep: bool, w: L.World, unlocked: bool, p: Probe, f: CreateFaults, g: ActFaults,
                          stack: Stack, updates: Updates, actor: ActorData)
  {
    var ready := L.ReadStack(w, unlocked).actor;
    var (us, commit, r) := Pipelined(key, w.updates, ready.lastCommit, w.stack, w.now, p, f);
    var a := ready.(lastCommit := commit);
    if r.Ok? then
      && stack ==
           Patched(keep, w.stack, a, r.value, w.stack, w.now, g.patchLands)
           .(finalizer := FinalizerAfter(w.stack, r.value, w.stack, g.finalizerLands))
      && updates == UpdatesAfter(us, r.value, g.stripLands)
      && actor == ActorAfter(a, r.value, w.now)
    else stack == w.stack && updates == us && actor == ActorAfterError(a, r.error, w.now)
  }

  // One reconcile by gates and effects alone: the first closed gate answers, or an Update is created;
  // then that answer has its effects, on an actor whose lock streak has the timeout of the Stack and
  // is over if a lock retry has just unlocked.
  ghost predicate Reconciles(key: string, keep: bool, w: L.World, unlocked: bool, p: Probe, f: CreateFaults,
                             g: ActFaults, stack: Stack, updates: Updates, actor: ActorData, requeue: Option<Requeue>)
  {
    var timeout := 1000 * Max(w.stack.spec.lockTimeoutSecs, 60);
    var streak := if unlocked then Streak(None, timeout, 0) else w.actor.streak.(timeout := timeout);
    exists us, commit, r ::
      && Obeys(key, w.updates, w.actor.lastCommit, w.stack, w.now, p, f, us, commit, r)
      && Concludes(keep, w.stack, us, ActorData(w.actor.failureCount, streak, commit), r, w.now, g,
                   stack, updates, actor, requeue)
  }

  ghost predicate Concludes(keep: bool, snap: Stack, us: Updates, a: ActorData, r: Result<Action, Recovery>, now: nat,
                            g: ActFaults, stack: Stack, updates: Updates, actor: ActorData, requeue: Option<Requeue>)
  {
    if r.Ok? then
      && Wakes(a, r.value, snap, now, requeue)
      && Leaves(keep, snap, us, a, r.value, snap, now, g, stack, updates, actor)
    else
      && WakesAfterError(a, r.error, now, requeue) && RemembersError(a, r.error, now, actor)
      && stack == snap && updates == us
  }

  lemma ResultsReconcile(key: string, keep: bool, w: L.World, unlocked: bool, p: Probe, f: CreateFaults, g: ActFaults,
                         stack: Stack, updates: Updates, actor: ActorData)
    requires w.phase == L.Idle && Results(key, keep, w, unlocked, p, f, g, stack, updates, actor)
    ensures Reconciles(key, keep, w, unlocked, p, f, g, stack, updates, actor, Scheduled(key, w, unlocked, p, f))
  {
    L.ReadReadies(w, unlocked);
    var ready := L.ReadStack(w, unlocked).actor;
    var (us, commit, r) := Pipelined(key, w.updates, ready.lastCommit, w.stack, w.now, p, f);
    FirstGateAnswers(key, w.updates, ready.lastCommit, w.stack, w.now, p, f);
    ResultConcludes(keep, w.stack, us, ready.(lastCommit := commit), r, w.now, g);
  }

  lemma ResultConcludes(keep: bool, snap: Stack, us: Updates, a: ActorData, r: Result<Action, Recovery>, now: nat,
                        g: ActFaults)
    ensures if r.Ok? then
              Concludes(keep, snap, us, a, r, now, g,
                        Patched(keep, snap, a, r.value, snap, now, g.patchLands)
                        .(finalizer := FinalizerAfter(snap, r.value, snap, g.finalizerLands)),
                        UpdatesAfter(us, r.value, g.stripLands), ActorAfter(a, r.value, now),
                        RequeueOf(a, r.value, snap, now))
            else
              Concludes(keep, snap, us, a, r, now, g, snap, us, ActorAfterError(a, r.error, now),
                        RequeueOfError(a, r.error, now))
  {
    if r.Ok? {
      RequeueWakes(a, r.value, snap, now);
      ActionLeaves(keep, snap, us, a, r.value, snap, now, g);
    } else {
      ErrorWakes(a, r.error, now);
      ErrorRemembers(a, r.error, now);
    }
  }

  function Undisturbed(unlocked: bool, p: Probe, f: CreateFaults, g: ActFaults): seq<L.Event> {
    [L.Read(unlocked), L.DecideStep(p), L.CreateStep(f), L.ActStep(g)]
  }

  lemma ReconcileAtOnce(cfg: L.Config, w: L.World, unlocked: bool, p: Probe, f: CreateFaults, g: ActFaults)
    requires w.phase == L.Idle
    ensures var w' := L.Run(cfg, w, Undisturbed(unlocked, p, f, g));
            w'.phase == L.Idle && Results(cfg.key, cfg.keep, w, unlocked, p, f, g, w'.stack, w'.updates, w'.actor)
  {
    L.RunOf4(cfg, w, Undisturbed(unlocked, p, f, g));
    var w1 := L.ReadStack(w, unlocked);
    var w2 := w1.(log := w1.log + L.Observed(w1, w.stack, p));
    var d := Decide(w.updates, w.stack, w.now, p);
    CreationCompletes(cfg, w2, w.stack, d, f);
    StepsToCreation(cfg, w, unlocked, p, f);
    ActionCompletes(cfg, L.CreatePhase(cfg, L.AfterDecision(w2, w.stack, d), f), g);
  }

  lemma StepsToCreation(cfg: L.Config, w: L.World, unlocked: bool, p: Probe, f: CreateFaults)
    requires w.phase == L.Idle
    ensures var w1 := L.ReadStack(w, unlocked);
            var w2 := w1.(log := w1.log + L.Observed(w1, w.stack, p));
            L.Step(cfg, L.Step(cfg, L.Step(cfg, w, L.Read(unlocked)), L.DecideStep(p)), L.CreateStep(f))
            == L.CreatePhase(cfg, L.AfterDecision(w2, w.stack, Decide(w.updates, w.stack, w.now, p)), f)
  {
    var w1 := L.ReadStack(w, unlocked);
    assert L.DecidePhase(w1, p)
        == L.AfterDecision(w1.(log := w1.log + L.Observed(w1, w.stack, p)), w.stack,
                           Decide(w.updates, w.stack, w.now, p));
  }

  lemma ActionCompletes(cfg: L.Config, w: L.World, g: ActFaults)
    requires w.phase.Idle? || w.phase.Acting?
    ensures var w' := L.Step(cfg, w, L.ActStep(g));
            && w'.phase == L.Idle
            && if w.phase.Acting? then
                 var snap, action := w.phase.snap, w.phase.action;
                 && w'.stack ==
                      Patched(cfg.keep, w.stack, w.actor, action, snap, w.now, g.patchLands)
                      .(finalizer := FinalizerAfter(w.stack, action, snap, g.finalizerLands))
                 && w'.updates == UpdatesAfter(w.updates, action, g.stripLands)
                 && w'.actor == ActorAfter(w.actor, action, w.now)
               else w' == w
  {}

  lemma CreationCompletes(cfg: L.Config, w: L.World, snap: Stack, d: Decision, f: CreateFaults)
    requires w.phase == L.HasRead(snap)
    ensures var w' := L.CreatePhase(cfg, L.AfterDecision(w, snap, d), f);
            var (us, commit, r) := Completed(cfg.key, w.updates, w.actor.lastCommit, snap, w.now, d, f);
            var a := w.actor.(lastCommit := commit);
            && w'.stack == w.stack && w'.updates == us && w'.now == w.now
            && if r.Ok? then w'.phase == L.Acting(snap, r.value) && w'.actor == a
               else w'.phase == L.Idle && w'.actor == ActorAfterError(a, r.error, w.now)
  {}
}
