/**
 What the actor leaves behind for each action and error, stated from src/operator/actors/actor.rs on
 its own: what it remembers, what the status, the finalizer and the Updates say afterwards, and when
 the next reconcile is due. The functions of module Actions are proved to meet these statements, and
 so is the mutable actor of module Reconciler.
 */
module Effects {
  import opened Basics
  import opened Time
  import opened Messages
  import opened LockStreak
  import opened Api
  import opened Sync
  import opened Pipeline
  import opened Actions

  // ---------------------------------------------------------- the next retry

  // A lock conflict: a force-unlock after 2 s once the streak is as old as the timeout, before that
  // a retry after 30 s, 90 s, and so on, up to the timeout.
  ghost predicate LockWakes(s: Streak, now: nat, q: Option<Requeue>) {
    var age := if s.firstSeen.Some? && s.firstSeen.value <= now then now - s.firstSeen.value else 0;
    var attempts := (s.attempts + 1) % 0x1_0000_0000;
    q == Some(
      if age >= s.timeout then Requeue(2_000, LockRecovery, LockRetry)
      else
        Requeue(Min(10_000 * Pow(3, Min(attempts, 20)), s.timeout % 0x1_0000_0000_0000_0000), FailureRetry, Retry))
  }

  // The retry each action asks for, in milliseconds.
  ghost predicate Wakes(a: ActorData, action: Action, snap: Stack, now: nat, q: Option<Requeue>) {
    match action
    case WaitForUpdate(_) => q == Some(Requeue(30_000, Normal, Retry))
    case WaitForWorkspace => q == Some(Requeue(5_000, Normal, Retry))
    case ProjectNotFound => q == Some(Requeue(300_000, Normal, Retry))
    case ProjectReinstated => q == Some(Requeue(1_000, Normal, Retry))
    case DestroyFailed(_, n) => q == Some(Requeue(1000 * CooldownSecs(n, snap.spec), FailureRetry, Retry))
    case UpdateFailed(_, message) =>
      if IsLockError(message) then LockWakes(a.streak, now, q)
      else
        q == Some(Requeue(1000 * CooldownSecs((a.failureCount + 1) % 0x1_0000_0000, snap.spec), FailureRetry, Retry))
    case _ => q == None
  }

  lemma RequeueWakes(a: ActorData, action: Action, snap: Stack, now: nat)
    ensures Wakes(a, action, snap, now, RequeueOf(a, action, snap, now))
  {}

  // The retry after an error: twice the base and doubling with each error counted, up to 2^20, never
  // beyond the maximum of that error.
  ghost predicate WakesAfterError(a: ActorData, r: Recovery, now: nat, q: Option<Requeue>) {
    match r
    case RetryWithBackoff(base, max) =>
      var n := (a.failureCount + 1) % 0x1_0000_0000;
      q == Some(Requeue(Min(Min(base * Pow(2, Min(n, 20)), 0xFFFF_FFFF_FFFF_FFFF), max), FailureRetry, Retry))
    case Stall => q == None
    case ForceUnlockAndRetry => LockWakes(a.streak, now, q)
  }

  lemma ErrorWakes(a: ActorData, r: Recovery, now: nat)
    ensures WakesAfterError(a, r, now, RequeueOfError(a, r, now))
  {
    Pow2Mono(Min((a.failureCount + 1) % U32, 20), 20);
    Pow2At20();
  }

  // -------------------------------------------------------- what is remembered

  ghost predicate Remembers(a: ActorData, action: Action, now: nat, a': ActorData) {
    && a'.lastCommit == a.lastCommit
    && a'.streak.timeout == a.streak.timeout
    && match action
       case UpdateCreated(_) => a'.failureCount == 0 && a'.streak.firstSeen == None && a'.streak.attempts == 0
       case UpdateSucceeded(_) => a'.failureCount == 0 && a'.streak.firstSeen == None && a'.streak.attempts == 0
       case UpdateFailed(_, message) =>
         && a'.failureCount == (a.failureCount + 1) % 0x1_0000_0000
         && if IsLockError(message) then Conflicts(a.streak, now, a'.streak) else a'.streak == a.streak
       case DestroyFailed(_, n) =>
         && a'.streak == a.streak
         && (0 <= n ==> a'.failureCount == Min(n, 0xFFFF_FFFF))
       case _ => a' == a
  }

  ghost predicate Conflicts(s: Streak, now: nat, s': Streak) {
    && s'.firstSeen == Some(if s.firstSeen.Some? then s.firstSeen.value else now)
    && s'.attempts == (s.attempts + 1) % 0x1_0000_0000
    && s'.timeout == s.timeout
  }

  // An error counts if it is retried with backoff; a lock error ages the streak instead.
  ghost predicate RemembersError(a: ActorData, r: Recovery, now: nat, a': ActorData) {
    match r
    case RetryWithBackoff(_, _) => a' == a.(failureCount := (a.failureCount + 1) % 0x1_0000_0000)
    case Stall => a' == a
    case ForceUnlockAndRetry => a' == a.(streak := a'.streak) && Conflicts(a.streak, now, a'.streak)
  }

  lemma ErrorRemembers(a: ActorData, r: Recovery, now: nat)
    ensures RemembersError(a, r, now, ActorAfterError(a, r, now))
  {}

  lemma ActorRemembers(a: ActorData, action: Action, now: nat)
    ensures Remembers(a, action, now, ActorAfter(a, action, now))
  {}

  // --------------------------------------------------------- what is written

  // A field the patch leaves out.
  predicate LeftOut<T(==)>(keep: bool, was: Option<T>, now: Option<T>) {
    now == if keep then was else None
  }

  // The last update a patch writes, and the fields of it that patch leaves out.
  predicate WritesLast(s: Status, s': Status, generation: int, name: string, kind: UpdateKind, state: RunState,
                       now: nat, failures: int)
  {
    && s'.currentUpdate == None
    && s'.lastUpdate.Some?
    && var last := s'.lastUpdate.value;
       && last.generation == generation && last.name == Some(name) && last.kind == Some(kind)
       && last.state == Some(state) && last.lastResyncTime == Some(At(now)) && last.failures == failures
  }

  predicate LeavesOut(keep: bool, s: Status, s': Status, attempted: bool, successful: bool)
    requires s'.lastUpdate.Some?
  {
    var last := s'.lastUpdate.value;
    var was := if s.lastUpdate.Some? then s.lastUpdate.value
               else LastUpdate(0, None, None, None, None, None, None, None, 0);
    && LeftOut(keep, was.reconcileRequest, last.reconcileRequest)
    && (attempted ==> LeftOut(keep, was.lastAttemptedCommit, last.lastAttemptedCommit))
    && (successful ==> LeftOut(keep, was.lastSuccessfulCommit, last.lastSuccessfulCommit))
    && LeftOut(keep, s.pendingDeletionSince, s'.pendingDeletionSince)
    && LeftOut(keep, s.lastProjectCheck, s'.lastProjectCheck)
  }

  // The status after a patch that lands.
  ghost predicate Writes(keep: bool, s: Status, a: ActorData, action: Action, snap: Stack, now: nat, s': Status) {
    match action
    case UpdateCreated(name) => Names(keep, s, snap.generation, name, s')
    case DestroyStarted(name) => Names(keep, s, snap.generation, name, s')
    case UpdateSucceeded(name) =>
      && WritesLast(s, s', snap.generation, name, Up, RunSucceeded, now, 0)
      && s'.lastUpdate.value.lastSuccessfulCommit == a.lastCommit
      && LeavesOut(keep, s, s', true, false)
    case UpdateFailed(name, _) =>
      && WritesLast(s, s', snap.generation, name, Up, RunFailed, now, (a.failureCount + 1) % 0x1_0000_0000)
      && s'.lastUpdate.value.lastAttemptedCommit == a.lastCommit
      && LeavesOut(keep, s, s', false, true)
    case DestroyFailed(name, n) =>
      WritesLast(s, s', snap.generation, name, Destroy, RunFailed, now, n) && LeavesOut(keep, s, s', true, true)
    case ProjectNotFound =>
      && s'.pendingDeletionSince ==
           Some(if snap.status.pendingDeletionSince.Some? then snap.status.pendingDeletionSince.value else At(now))
      && s'.lastProjectCheck == Some(ProjectCheck(At(now), NotFound))
      && LeftOut(keep, s.currentUpdate, s'.currentUpdate) && LeftOut(keep, s.lastUpdate, s'.lastUpdate)
    case ProjectReinstated =>
      && s'.pendingDeletionSince == None && s'.lastProjectCheck == Some(ProjectCheck(At(now), Active))
      && LeftOut(keep, s.currentUpdate, s'.currentUpdate) && LeftOut(keep, s.lastUpdate, s'.lastUpdate)
    case ProjectTtlExpired => s' == if keep then s else Status(None, None, None, None)
    case _ => s' == s
  }

  predicate Names(keep: bool, s: Status, generation: int, name: string, s': Status) {
    && s'.currentUpdate == Some(CurrentUpdate(generation, Some(name)))
    && LeftOut(keep, s.lastUpdate, s'.lastUpdate)
    && LeftOut(keep, s.pendingDeletionSince, s'.pendingDeletionSince)
    && LeftOut(keep, s.lastProjectCheck, s'.lastProjectCheck)
  }

  lemma PatchWrites(keep: bool, s: Status, a: ActorData, action: Action, snap: Stack, now: nat)
    ensures Writes(keep, s, a, action, snap, now, StatusAfter(keep, s, PatchOf(a, action, snap, now), true))
    ensures StatusAfter(keep, s, PatchOf(a, action, snap, now), false) == s
  {}

  // ------------------------------------------------- finalizer and Updates

  // Three actions take the stack finalizer off, the last only where the Stack asks for that; one
  // puts it on, which the API server refuses under deletion.
  predicate Guards(stack: Stack, action: Action, snap: Stack, lands: bool, finalizer: bool) {
    if !lands then finalizer == stack.finalizer
    else
      match action
      case AddFinalizer => finalizer == (stack.finalizer || stack.deletedAt.None?)
      case RemoveFinalizer => !finalizer
      case RemoveFinalizerAfterDestroy => !finalizer
      case ProjectTtlExpired =>
        var v := snap.spec.verification;
        finalizer == (stack.finalizer && !(v.Some? && v.value.removeFinalizerOnExpiry))
      case _ => finalizer == stack.finalizer
  }

  lemma FinalizerGuards(stack: Stack, action: Action, snap: Stack, lands: bool)
    ensures Guards(stack, action, snap, lands, FinalizerAfter(stack, action, snap, lands))
  {}

  // A recorded outcome, success and failure alike, takes the finalizer off its Update, which is
  // then gone if it was being deleted. No other Update is touched.
  ghost predicate Strips(us: Updates, action: Action, lands: bool, us': Updates) {
    var name := match action
                case UpdateSucceeded(n) => Some(n)
                case UpdateFailed(n, _) => Some(n)
                case _ => None;
    && (forall n :: Some(n) != name ==> (n in us' <==> n in us) && (n in us ==> us'[n] == us[n]))
    && (name.Some? && name.value !in us ==> name.value !in us')
    && (name.Some? && name.value in us ==>
          if !lands then name.value in us' && us'[name.value] == us[name.value]
          else if us[name.value].deleting then name.value !in us'
          else name.value in us' && us'[name.value] == us[name.value].(finalizer := false))
  }

  lemma UpdatesStrip(us: Updates, action: Action, lands: bool)
    ensures Strips(us, action, lands, UpdatesAfter(us, action, lands))
  {}

  // ------------------------------------------------------------- all of it

  ghost predicate Leaves(keep: bool, stack: Stack, us: Updates, a: ActorData, action: Action, snap: Stack, now: nat,
                         f: ActFaults, stack': Stack, us': Updates, a': ActorData)
  {
    && stack' == stack.(status := stack'.status, finalizer := stack'.finalizer)
    && (if f.patchLands then Writes(keep, stack.status, a, action, snap, now, stack'.status)
        else stack'.status == stack.status)
    && Guards(stack, action, snap, f.finalizerLands, stack'.finalizer)
    && Strips(us, action, f.stripLands, us')
    && Remembers(a, action, now, a')
  }

  lemma ActionLeaves(keep: bool, stack: Stack, us: Updates, a: ActorData, action: Action, snap: Stack, now: nat,
                     f: ActFaults)
    ensures var stack' := Patched(keep, stack, a, action, snap, now, f.patchLands)
                          .(finalizer := FinalizerAfter(stack, action, snap, f.finalizerLands));
            Leaves(keep, stack, us, a, action, snap, now, f, stack', UpdatesAfter(us, action, f.stripLands),
                   ActorAfter(a, action, now))
  {
    PatchWrites(keep, stack.status, a, action, snap, now);
    FinalizerGuards(stack, action, snap, f.finalizerLands);
    UpdatesStrip(us, action, f.stripLands);
    ActorRemembers(a, action, now);
  }

  // ---------------------------------------------------------- error backoff

  // The actor after n errors of one kind in a row.
  function AfterErrors(a: ActorData, r: Recovery, now: nat, n: nat): ActorData {
    if n == 0 then a else ActorAfterError(AfterErrors(a, r, now, n - 1), r, now)
  }

  // The delay the n-th of them asks for.
  function NthDelay(a: ActorData, r: Recovery, now: nat, n: nat): nat
    requires r.RetryWithBackoff? && n > 0
  {
    RequeueOfError(AfterErrors(a, r, now, n - 1), r, now).value.delayMs
  }

  lemma {:induction false} ErrorsCount(a: ActorData, r: Recovery, now: nat, n: nat)
    requires r.RetryWithBackoff? && a.failureCount == 0 && n < 0x1_0000_0000
    ensures AfterErrors(a, r, now, n) == a.(failureCount := n)
  {
    if n > 0 { ErrorsCount(a, r, now, n - 1); }
  }

  lemma NthIs(a: ActorData, r: Recovery, now: nat, n: nat)
    requires r.RetryWithBackoff? && r.maxMs <= 0xFFFF_FFFF_FFFF_FFFF && a.failureCount == 0
    requires 1 <= n < 0x1_0000_0000
    ensures NthDelay(a, r, now, n) == Min(r.baseMs * Pow(2, Min(n, 20)), r.maxMs)
  {
    var b := a.(failureCount := n - 1);
    ErrorsCount(a, r, now, n - 1);
    ErrorWakes(b, r, now);
    WakeDelay(b, r, now, RequeueOfError(b, r, now), n);
  }

  lemma WakeDelay(a: ActorData, r: Recovery, now: nat, q: Option<Requeue>, n: nat)
    requires r.RetryWithBackoff? && r.maxMs <= 0xFFFF_FFFF_FFFF_FFFF && WakesAfterError(a, r, now, q)
    requires a.failureCount + 1 == n < 0x1_0000_0000
    ensures q.Some? && q.value.delayMs == Min(r.baseMs * Pow(2, Min(n, 20)), r.maxMs)
  {
    assert (a.failureCount + 1) % 0x1_0000_0000 == n;
    Clipped(r.baseMs * Pow(2, Min(n, 20)), r.maxMs);
  }

  lemma Clipped(x: nat, max: nat)
    requires max <= 0xFFFF_FFFF_FFFF_FFFF
    ensures Min(Min(x, 0xFFFF_FFFF_FFFF_FFFF), max) == Min(x, max)
  {}

  lemma Doubles(base: nat, n: nat, max: nat)
    ensures Min(base * Pow(2, n + 1), max) == Min(2 * Min(base * Pow(2, n), max), max)
  {
    assert Pow(2, n + 1) == 2 * Pow(2, n);
    assert base * (2 * Pow(2, n)) == 2 * (base * Pow(2, n));
  }

  // Errors in a row: the first waits twice the base, each further one twice as long as the one
  // before, up to the maximum and, after the twentieth, no longer at all.
  lemma NthErrorDelay(a: ActorData, r: Recovery, now: nat, n: nat)
    requires r.RetryWithBackoff? && r.maxMs <= 0xFFFF_FFFF_FFFF_FFFF && a.failureCount == 0
    requires 1 <= n < 0xFFFF_FFFF
    ensures NthDelay(a, r, now, n) <= r.maxMs
    ensures NthDelay(a, r, now, 1) == Min(2 * r.baseMs, r.maxMs)
    ensures NthDelay(a, r, now, n + 1) ==
              if n < 20 then Min(2 * NthDelay(a, r, now, n), r.maxMs) else NthDelay(a, r, now, n)
    ensures n <= 20 ==> NthDelay(a, r, now, n) == Min(r.baseMs * Pow(2, n), r.maxMs)
  {
    NthIs(a, r, now, 1);
    NthIs(a, r, now, n);
    NthIs(a, r, now, n + 1);
    FirstPower(r.baseMs);
    if n < 20 { Doubles(r.baseMs, n, r.maxMs); }
  }

  lemma FirstPower(base: nat)
    ensures base * Pow(2, 1) == 2 * base
  {
    assert Pow(2, 1) == 2 * Pow(2, 0) == 2;
  }

  // So from the first n with base * 2^n at the maximum on, the delay is the maximum.
  lemma {:induction false} BackoffStays(a: ActorData, r: Recovery, now: nat, n: nat, m: nat)
    requires r.RetryWithBackoff? && r.maxMs <= 0xFFFF_FFFF_FFFF_FFFF && a.failureCount == 0
    requires 1 <= n <= 20 && n <= m < 0xFFFF_FFFF && r.baseMs * Pow(2, n) >= r.maxMs
    ensures NthDelay(a, r, now, m) == r.maxMs
  {
    if m == n {
      NthErrorDelay(a, r, now, n);
    } else {
      BackoffStays(a, r, now, n, m - 1);
      NthErrorDelay(a, r, now, m - 1);
    }
  }

  // The errors of src/core/recovery.rs.
  const RETRIED := {
    (1_000, 10_000), (1_000, 30_000), (2_000, 30_000), (5_000, 60_000), (5_000, 120_000), (10_000, 60_000),
    (10_000, 300_000), (30_000, 300_000)}

  // For each of them the delay reaches the maximum within five errors, and no saturating operation
  // saturates.
  lemma RepositoryBackoffs(a: ActorData, base: nat, max: nat, now: nat, m: nat)
    requires (base, max) in RETRIED && a.failureCount == 0 && 5 <= m < 0xFFFF_FFFF
    ensures base * Pow(2, 20) <= 0xFFFF_FFFF_FFFF_FFFF
    ensures NthDelay(a, RetryWithBackoff(base, max), now, m) == max
  {
    Pow2At20();
    assert Pow(2, 5) == 32;
    BackoffStays(a, RetryWithBackoff(base, max), now, 5, m);
  }
}
