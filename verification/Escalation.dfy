/**
 No escalation for ordinary Updates: starting one resets the failure count and the lock streak, so
 the retries of a failed Update never get past the first step of either backoff, unless a status
 patch or a read of the Update is lost, and nothing ever asks for a force-unlock. Destroy failures do
 count up (module DestroyCounts).
 */
module Escalation {
  import opened Basics
  import opened Messages
  import opened LockStreak
  import opened Api
  import opened UpdateCheck
  import opened Sync
  import opened Pipeline
  import opened Actions
  import opened Lifecycle
  import C = Commits
  import D = DestroyFirst

  // No conflict counted; with `calm` - no read of the Update fails - no failure either.
  predicate Fresh(a: ActorData, calm: bool) {
    a.streak.firstSeen.None? && a.streak.attempts == 0 && (calm ==> a.failureCount == 0)
  }

  // While an existing ordinary Update bears this name the actor has counted nothing.
  predicate NamedIsFresh(w: World, calm: bool) {
    var name := w.stack.CurrentName();
    name.Some? && name.value in w.updates && w.updates[name.value].kind != Destroy ==> Fresh(w.actor, calm)
  }

  predicate PhaseIsFresh(w: World, calm: bool) {
    match w.phase
    case Creating(_, _) => w.stack.CurrentName().Some? ==> w.stack.CurrentName().value !in w.updates
    case Acting(_, DestroyStarted(n)) => n in w.updates ==> w.updates[n].kind == Destroy
    case Acting(_, UpdateFailed(_, _)) => Fresh(w.actor, calm)
    case _ => true
  }

  predicate FirstFailures(log: seq<Entry>) {
    forall i :: 0 <= i < |log| && log[i].Recorded? && log[i].state == RunFailed ==> log[i].failures == 1
  }

  predicate Unescalated(w: World, calm: bool) {
    && D.Orderly(w)
    && w.actor.streak.timeout >= 60_000
    && (!w.phase.Idle? ==> w.phase.snap.status == w.stack.status)
    && (!w.phase.Idle? && !w.phase.snap.Deleting() ==> C.NoDestroys(w.updates))
    && (!(w.phase.Acting? && w.phase.action.UpdateCreated?) ==> NamedIsFresh(w, calm))
    && PhaseIsFresh(w, calm)
    && (calm ==> FirstFailures(w.log))
  }

  // While the named Update exists, only a failed read of it is an error.
  predicate ErrsOnRead(us: Updates, snap: Stack, p: Probe, d: Decision) {
    d.Erred? && snap.CurrentName().Some? && snap.CurrentName().value in us ==>
      p.checkFails && d.recovery == KUBE_RETRY
  }

  lemma DecisionErrsOnRead(us: Updates, snap: Stack, now: nat, p: Probe)
    ensures ErrsOnRead(us, snap, p, Decide(us, snap, now, p))
  {}

  lemma AfterDecisionStays(w: World, snap: Stack, p: Probe, d: Decision, more: seq<Entry>, calm: bool)
    requires Unescalated(w, calm) && w.phase == HasRead(snap) && (calm ==> !p.checkFails)
    requires ErrsOnRead(w.updates, snap, p, d) && C.Settles(w.updates, snap, d)
    requires forall i :: 0 <= i < |more| ==> !more[i].Recorded?
    requires D.Orderly(AfterDecision(w.(log := w.log + more), snap, d))
    ensures Unescalated(AfterDecision(w.(log := w.log + more), snap, d), calm)
  {}

  lemma DecideStays(w: World, p: Probe, calm: bool)
    requires Unescalated(w, calm) && (calm ==> !p.checkFails)
    ensures Unescalated(DecidePhase(w, p), calm)
  {
    if w.phase.HasRead? {
      var snap := w.phase.snap;
      D.OrderlyDecide(w, p);
      DecisionErrsOnRead(w.updates, snap, w.now, p);
      C.DecisionSettles(w.updates, snap, w.now, p);
      AfterDecisionStays(w, snap, p, Decide(w.updates, snap, w.now, p), Observed(w, snap, p), calm);
    }
  }

  lemma FailedCreationAddsNothing(us: Updates, name: string, u: Update, f: CreateFaults)
    ensures var (us', r) := CreateUpdate(us, name, u, f);
            r.Err? ==> us'.Keys <= us.Keys
  {}

  lemma AfterCreateStays(w: World, us: Updates, r: Result<string, Recovery>, u: Update, calm: bool)
    requires Unescalated(w, calm) && w.phase.Creating? && u.commit == w.phase.commit
    requires u.kind == Destroy <==> u.commit.None?
    requires forall n :: n in us ==> us[n] == u || (n in w.updates && us[n].kind == w.updates[n].kind)
    requires if r.Ok? then u.kind == Destroy ==> us == w.updates[r.value := u] else us.Keys <= w.updates.Keys
    requires D.Orderly(AfterCreate(w.(updates := us), r, u, w.phase.snap))
    ensures Unescalated(AfterCreate(w.(updates := us), r, u, w.phase.snap), calm)
  {}

  lemma CreateStays(cfg: Config, w: World, f: CreateFaults, calm: bool)
    requires Unescalated(w, calm)
    ensures Unescalated(CreatePhase(cfg, w, f), calm)
  {
    if w.phase.Creating? {
      D.OrderlyCreate(cfg, w, f);
      if w.phase.commit.Some? {
        var commit := w.phase.commit.value;
        var name, u := UpName(cfg.key, commit), NewUpdate(w.phase.snap, commit, w.now);
        D.CreationBringsOnly(w.updates, name, u, f);
        FailedCreationAddsNothing(w.updates, name, u, f);
        var (us, r) := CreateUpdate(w.updates, name, u, f);
        AfterCreateStays(w, us, r, u, calm);
      } else {
        var (us, r) := CreateDestroyUpdate(w.updates, DestroyName(cfg.key, w.now), NewDestroy(w.now), f);
        AfterCreateStays(w, us, r, NewDestroy(w.now), calm);
      }
    }
  }

  // The status patch that records a failure lands.
  predicate RecordsFailures(w: World, e: Event) {
    w.phase.Acting? && (w.phase.action.UpdateFailed? || w.phase.action.DestroyFailed?) && e.ActStep? ==>
      e.actFaults.patchLands
  }

  lemma ActStays(cfg: Config, w: World, f: ActFaults, calm: bool)
    requires Unescalated(w, calm) && RecordsFailures(w, ActStep(f))
    ensures Unescalated(ActPhase(cfg, w, f), calm)
  {
    if w.phase.Acting? {
      D.OrderlyAct(cfg, w, f);
      C.ActEvolves(w.updates, w.phase.action, f.stripLands);
      ActNamesFresh(cfg, w, f, calm);
      assert calm ==> FirstFailures(Outcomes(w, f));
    }
  }

  lemma ActNamesFresh(cfg: Config, w: World, f: ActFaults, calm: bool)
    requires Unescalated(w, calm) && RecordsFailures(w, ActStep(f)) && w.phase.Acting?
    ensures NamedIsFresh(ActPhase(cfg, w, f), calm)
  {
    C.ActEvolves(w.updates, w.phase.action, f.stripLands);
  }

  lemma EnvironmentStays(cfg: Config, w: World, e: Event, calm: bool)
    requires Unescalated(w, calm) && IsEnvironment(e)
    ensures Unescalated(Environment(w, e), calm)
  {
    D.OrderlyStep(cfg, w, e);
    EnvironmentFrame(w, e);
  }

  lemma StepStays(cfg: Config, w: World, e: Event, calm: bool)
    requires Unescalated(w, calm) && RecordsFailures(w, e) && (calm && e.DecideStep? ==> !e.probe.checkFails)
    ensures Unescalated(Step(cfg, w, e), calm)
  {
    match e
    case Read(_) =>
    case Restart =>
    case DecideStep(p) => DecideStays(w, p, calm);
    case CreateStep(f) => CreateStays(cfg, w, f, calm);
    case ActStep(f) => ActStays(cfg, w, f, calm);
    case _ => EnvironmentStays(cfg, w, e, calm);
  }

  predicate ReadsLand(es: seq<Event>) {
    forall i :: 0 <= i < |es| && es[i].DecideStep? ==> !es[i].probe.checkFails
  }

  lemma {:induction false} RunStays(cfg: Config, w: World, es: seq<Event>, calm: bool)
    requires Initial(w) && Throughout(cfg, w, es, RecordsFailures) && (calm ==> ReadsLand(es))
    ensures Unescalated(Run(cfg, w, es), calm)
  {
    if es != [] {
      var k := |es| - 1;
      ThroughoutInit(cfg, w, es, RecordsFailures);
      RunStays(cfg, w, es[..k], calm);
      StepStays(cfg, Run(cfg, w, es[..k]), es[k], calm);
    }
  }

  // ------------------------------------------------------------ the results

  // With the patches landing that record failures, a failed Update that reports a lock conflict is always the first
  // of its streak: the retry comes after 30 s and the force-unlock is never asked for.
  lemma LockNeverEscalates(cfg: Config, w: World, es: seq<Event>)
    requires Initial(w) && Throughout(cfg, w, es, RecordsFailures)
    ensures var v := Run(cfg, w, es);
            v.phase.Acting? && v.phase.action.UpdateFailed? && IsLockError(v.phase.action.message) ==>
              RequeueOf(v.actor, v.phase.action, v.phase.snap, v.now)
              == Some(Requeue(Min(30_000, v.actor.streak.timeout % U64), FailureRetry, Retry))
  {
    RunStays(cfg, w, es, false);
    var v := Run(cfg, w, es);
    if v.phase.Acting? && v.phase.action.UpdateFailed? && IsLockError(v.phase.action.message) {
      FirstConflictRetries(v.actor.streak, v.now);
    }
  }

  lemma FirstConflictRetries(s: Streak, now: nat)
    requires s.firstSeen.None? && s.attempts == 0 && s.timeout > 0
    ensures OnConflict(s, now).1 == RetryAfter(Min(30_000, s.timeout % U64))
  {
    assert Pow(3, 1) == 3 * Pow(3, 0) == 3;
  }

  // If in addition no read of an Update fails, every recorded failure is recorded as the first and
  // retried after the first cooldown.
  lemma FailuresNeverEscalate(cfg: Config, w: World, es: seq<Event>)
    requires Initial(w) && Throughout(cfg, w, es, RecordsFailures) && ReadsLand(es)
    ensures var v := Run(cfg, w, es);
            && FirstFailures(v.log)
            && (v.phase.Acting? && v.phase.action.UpdateFailed? && !IsLockError(v.phase.action.message) ==>
                  RequeueOf(v.actor, v.phase.action, v.phase.snap, v.now)
                  == Some(Requeue(Cooldown(1, v.phase.snap.spec), FailureRetry, Retry)))
  {
    RunStays(cfg, w, es, true);
    var v := Run(cfg, w, es);
    if v.phase.Acting? && v.phase.action.UpdateFailed? && !IsLockError(v.phase.action.message) {
      assert v.actor.failureCount == 0;
      FirstFailureWaits(v.actor, v.phase.action, v.phase.snap, v.now);
    }
  }

  lemma FirstFailureWaits(a: ActorData, action: Action, snap: Stack, now: nat)
    requires a.failureCount == 0 && action.UpdateFailed? && !IsLockError(action.message)
    ensures RequeueOf(a, action, snap, now) == Some(Requeue(Cooldown(1, snap.spec), FailureRetry, Retry))
  {}

  // A failed, lock-conflicted Update the status names, before its failure is recorded.
  ghost predicate Conflicted(w: World, name: string, message: Legible) {
    && w.phase == Idle && w.stack.finalizer && !w.stack.Deleting() && w.stack.spec.verification.None?
    && w.stack.status.pendingDeletionSince.None?
    && w.stack.CurrentName() == Some(name) && name in w.updates
    && CheckStatus(w.updates[name].status) == FailedWith(message) && IsLockError(message)
  }

  const PATCH_LOST := ActFaults(false, true, false)

  lemma ConflictDecided(w: World, name: string, message: Legible, p: Probe)
    requires Conflicted(w, name, message) && !p.checkFails
    ensures var v := Concluded(w, p);
            && v.phase == Acting(w.stack, UpdateFailed(name, message))
            && v.stack == w.stack && v.updates == w.updates && v.now == w.now
            && v.actor.streak == w.actor.streak.(timeout := Max(w.stack.spec.lockTimeoutSecs, 60) * 1000)
            && v.actor.failureCount == w.actor.failureCount
  {}

  lemma LossKeepsConflict(cfg: Config, w: World, v: World, name: string, message: Legible)
    requires Conflicted(w, name, message)
    requires v.phase == Acting(w.stack, UpdateFailed(name, message)) && v.stack == w.stack && v.updates == w.updates
    ensures var v' := ActPhase(cfg, v, PATCH_LOST);
            && Conflicted(v', name, message) && v'.stack == w.stack && v'.now == v.now
            && v'.actor.streak.firstSeen ==
                 if v.actor.streak.firstSeen.Some? then v.actor.streak.firstSeen else Some(v.now)
  {}

  // The hypothesis carries weight: one lost patch leaves the failed Update named, and the next
  // reconcile after the timeout counts the same failure again and asks for the force-unlock.
  lemma LostPatchEscalates(cfg: Config, w: World, name: string, message: Legible, p: Probe)
    requires Conflicted(w, name, message) && !p.checkFails
    requires w.actor.streak.firstSeen.None?
    ensures var wait := Max(w.stack.spec.lockTimeoutSecs, 60) * 1000;
            var lost := Run(cfg, w, [Read(false), DecideStep(p), ActStep(PATCH_LOST)]);
            var v := Step(cfg, Step(cfg, Step(cfg, lost, Tick(wait)), Read(false)), DecideStep(p));
            && v.phase == Acting(w.stack, UpdateFailed(name, message))
            && RequeueOf(v.actor, v.phase.action, v.phase.snap, v.now) == Some(Requeue(2_000, LockRecovery, LockRetry))
  {
    var wait := Max(w.stack.spec.lockTimeoutSecs, 60) * 1000;
    RunActs(cfg, w, p, PATCH_LOST);
    ConflictDecided(w, name, message, p);
    LossKeepsConflict(cfg, w, Concluded(w, p), name, message);
    var lost := ActPhase(cfg, Concluded(w, p), PATCH_LOST);
    var later := Step(cfg, lost, Tick(wait));
    RunDecides(cfg, later, p);
    ConflictDecided(later, name, message, p);
  }

  // So does the other one: a read of a failed Update that fails counts as a failure of its own.
  lemma FailedReadEscalates(cfg: Config, w: World, name: string, message: Legible, p: Probe)
    requires Conflicted(w, name, message) && !p.checkFails && w.actor.failureCount == 0
    ensures var unread := Step(cfg, Step(cfg, w, Read(false)), DecideStep(p.(checkFails := true)));
            var log := Run(cfg, unread, [Read(false), DecideStep(p), ActStep(ALL_LAND)]).log;
            log != [] && log[|log| - 1].Recorded? && log[|log| - 1].state == RunFailed && log[|log| - 1].failures == 2
  {
    var unread := Step(cfg, Step(cfg, w, Read(false)), DecideStep(p.(checkFails := true)));
    RunDecides(cfg, w, p.(checkFails := true));
    ReadFails(w, name, message, p.(checkFails := true));
    RunActs(cfg, unread, p, ALL_LAND);
    ConflictDecided(unread, name, message, p);
    var v := Concluded(unread, p);
    assert v.actor.failureCount == 1;
    assert Outcomes(v, ALL_LAND) == [Recorded(v.now, name, RunFailed, v.actor.lastCommit, 2)];
  }

  lemma ReadFails(w: World, name: string, message: Legible, p: Probe)
    requires Conflicted(w, name, message) && p.checkFails
    ensures var v := Concluded(w, p);
            Conflicted(v, name, message) && v.actor.failureCount == (w.actor.failureCount + 1) % U32
  {}

  // ---------------------------------------------------- the force-unlock path

  // What a step of the lifecycle machine schedules.
  ghost function ScheduledBy(cfg: Config, w: World, e: Event): Option<Requeue> {
    match e
    case DecideStep(p) =>
      if w.phase.HasRead? && Decide(w.updates, w.phase.snap, w.now, p).Erred?
      then RequeueOfError(w.actor, Decide(w.updates, w.phase.snap, w.now, p).recovery, w.now) else None
    case CreateStep(f) =>
      if w.phase.Creating? && Creation(cfg, w, f).Err? then RequeueOfError(w.actor, Creation(cfg, w, f).error, w.now)
      else None
    case ActStep(_) => if w.phase.Acting? then RequeueOf(w.actor, w.phase.action, w.phase.snap, w.now) else None
    case _ => None
  }

  function Creation(cfg: Config, w: World, f: CreateFaults): Result<string, Recovery>
    requires w.phase.Creating?
  {
    if w.phase.commit.Some? then
      var commit := w.phase.commit.value;
      CreateUpdate(w.updates, UpName(cfg.key, commit), NewUpdate(w.phase.snap, commit, w.now), f).1
    else CreateDestroyUpdate(w.updates, DestroyName(cfg.key, w.now), NewDestroy(w.now), f).1
  }

  // No step of the pipeline fails with a lock error: only the executor's stream produces one, and
  // the executor turns it into the message of the Update.
  predicate NoLockError(e: Event) {
    e.DecideStep? ==>
      && (e.probe.source.Err? ==> e.probe.source.error != ForceUnlockAndRetry)
      && e.probe.program != Some(ForceUnlockAndRetry)
      && e.probe.prerequisites != Some(ForceUnlockAndRetry)
      && (e.probe.workspace.Err? ==> e.probe.workspace.error != ForceUnlockAndRetry)
  }

  // As long as the patches land that record failures, no step of any run schedules a lock retry:
  // the force-unlock path is never taken.
  lemma ForceUnlockUnreachable(cfg: Config, w: World, es: seq<Event>, e: Event)
    requires Initial(w) && Throughout(cfg, w, es, RecordsFailures) && NoLockError(e)
    ensures var r := ScheduledBy(cfg, Run(cfg, w, es), e); r.Some? ==> r.value.trigger == Retry
  {
    var v := Run(cfg, w, es);
    match e
    case DecideStep(p) =>
      if v.phase.HasRead? { ErrorIsNoLock(v.updates, v.phase.snap, v.now, p); }
    case ActStep(_) =>
      if v.phase.Acting? {
        if v.phase.action.UpdateFailed? && IsLockError(v.phase.action.message) {
          LockNeverEscalates(cfg, w, es);
        } else {
          OnlyLocksForce(v.actor, v.phase.action, v.phase.snap, v.now);
        }
      }
    case _ =>
  }

  lemma ErrorIsNoLock(us: Updates, snap: Stack, now: nat, p: Probe)
    requires NoLockError(DecideStep(p))
    ensures var d := Decide(us, snap, now, p); d.Erred? ==> d.recovery != ForceUnlockAndRetry
  {}

  lemma OnlyLocksForce(a: ActorData, action: Action, snap: Stack, now: nat)
    requires !(action.UpdateFailed? && IsLockError(action.message))
    ensures var r := RequeueOf(a, action, snap, now); r.Some? ==> r.value.trigger == Retry
  {}
}
