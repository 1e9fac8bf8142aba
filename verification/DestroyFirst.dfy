/**
 Destroy before release: when the stack finalizer of a deleted Stack may come off, and which
 Updates may be created when.
 */
module DestroyFirst {
  import opened Basics
  import opened Api
  import opened UpdateCheck
  import opened Pipeline
  import opened Actions
  import opened Lifecycle

  // ------------------------------------------------ rules for every creation

  predicate WantsDestroy(spec: Spec) {
    spec.destroyOnFinalize && !spec.preview
  }

  predicate CreationRule(e: Entry) {
    e.Created? ==>
      && e.stack.finalizer
      && (e.kind == Destroy <==> e.snap.Deleting())
      && (e.kind == Destroy ==> WantsDestroy(e.snap.spec))
  }

  // Destroy Updates are born after the deletion they serve.
  predicate DestroysAreLate(w: World) {
    && (w.stack.Deleting() ==> w.stack.deletedAt.value <= w.now)
    && forall n :: n in w.updates && w.updates[n].kind == Destroy ==>
         w.stack.Deleting() && w.updates[n].createdAt >= w.stack.deletedAt.value
  }

  predicate SnapshotIsFaithful(w: World) {
    !w.phase.Idle? ==>
      var snap := w.phase.snap;
      && snap.finalizer == w.stack.finalizer
      && (snap.Deleting() ==> snap.deletedAt == w.stack.deletedAt)
      && (w.phase.Creating? ==>
            && snap.finalizer
            && (snap.Deleting() <==> w.phase.commit == None)
            && (snap.Deleting() ==> WantsDestroy(snap.spec)))
  }

  predicate Orderly(w: World) {
    && DestroysAreLate(w)
    && SnapshotIsFaithful(w)
    && forall i :: 0 <= i < |w.log| ==> CreationRule(w.log[i])
  }

  lemma CreationBringsOnly(us: Updates, name: string, u: Update, f: CreateFaults)
    ensures var us' := CreateUpdate(us, name, u, f).0;
            forall n :: n in us' ==>
              || us'[n] == u
              || (n in us && us'[n] == us[n].(finalizer := us'[n].finalizer, deleting := us'[n].deleting))
  {}

  lemma OrderlyStep(cfg: Config, w: World, e: Event)
    requires Orderly(w)
    ensures Orderly(Step(cfg, w, e))
  {
    match e
    case Read(_) =>
    case DecideStep(p) => OrderlyDecide(w, p);
    case CreateStep(f) => if w.phase.Creating? { OrderlyCreate(cfg, w, f); }
    case ActStep(f) => OrderlyAct(cfg, w, f);
    case _ => OrderlyEnvironment(w, e);
  }

  lemma OrderlyEnvironment(w: World, e: Event)
    requires Orderly(w) && (IsEnvironment(e) || e.Restart?)
    ensures Orderly(Environment(w, e))
  {
    if !e.Restart? { EnvironmentFrame(w, e); }
  }

  lemma OrderlyDecide(w: World, p: Probe)
    requires Orderly(w)
    ensures Orderly(DecidePhase(w, p))
  {
    if w.phase.HasRead? {
      DeletingDecision(w.updates, w.phase.snap, w.now, p);
      OrderlyAfterDecision(w, w.phase.snap, Decide(w.updates, w.phase.snap, w.now, p), Observed(w, w.phase.snap, p));
    }
  }

  lemma OrderlyAfterDecision(w: World, snap: Stack, d: Decision, more: seq<Entry>)
    requires Orderly(w) && w.phase == HasRead(snap)
    requires d.CreateUp? ==> snap.finalizer && !snap.Deleting()
    requires d.CreateDestroy? ==> snap.finalizer && snap.Deleting() && WantsDestroy(snap.spec)
    requires forall i :: 0 <= i < |more| ==> !more[i].Created?
    ensures Orderly(AfterDecision(w.(log := w.log + more), snap, d))
  {}

  lemma OrderlyAct(cfg: Config, w: World, f: ActFaults)
    requires Orderly(w)
    ensures Orderly(ActPhase(cfg, w, f))
  {
    if w.phase.Acting? {
      assert forall i :: 0 <= i < |Outcomes(w, f)| ==> !Outcomes(w, f)[i].Created?;
    }
  }

  // What the decision chain can conclude for a Stack read as deleted, and for one that is not.
  lemma DeletingDecision(us: Updates, snap: Stack, now: nat, p: Probe)
    ensures var d := Decide(us, snap, now, p);
            && (d.CreateUp? ==> snap.finalizer && !snap.Deleting())
            && (d.CreateDestroy? ==> snap.finalizer && snap.Deleting() && WantsDestroy(snap.spec))
  {}

  lemma OrderlyCreate(cfg: Config, w: World, f: CreateFaults)
    requires Orderly(w) && w.phase.Creating?
    ensures Orderly(CreatePhase(cfg, w, f))
  {
    if w.phase.commit.Some? {
      var commit := w.phase.commit.value;
      CreationBringsOnly(w.updates, UpName(cfg.key, commit), NewUpdate(w.phase.snap, commit, w.now), f);
    }
  }

  // In every run: an Update is created only while the finalizer is in place, a destroy Update
  // exactly by the reconciles that read the deletion, any other kind exactly by those that did not.
  lemma {:induction false} CreationRules(cfg: Config, w: World, es: seq<Event>)
    requires Initial(w)
    ensures Orderly(Run(cfg, w, es))
  {
    if es != [] {
      var k := |es| - 1;
      CreationRules(cfg, w, es[..k]);
      OrderlyStep(cfg, Run(cfg, w, es[..k]), es[k]);
    }
  }

  // --------------------------------------------------- destroy before release

  // An existing Update named by currentUpdate is a destroy Update or, where no late watch event may
  // start it over, one that has failed.
  predicate SafeName(us: Updates, name: Option<string>, late: bool) {
    name.Some? && name.value in us ==>
      us[name.value].kind == Destroy || (!late && CheckStatus(us[name.value].status).FailedWith?)
  }

  // No late watch event starts the ordinary Update over that the status names.
  predicate SparesNamed(w: World, e: Event) {
    e.LateStart? && w.stack.CurrentName() == Some(e.name) && e.name in w.updates ==> w.updates[e.name].kind == Destroy
  }

  // Runs with late starts, or without one of the named Update.
  ghost predicate Admitted(cfg: Config, w: World, es: seq<Event>, late: bool) {
    KeepsWanting(es) && (late || Throughout(cfg, w, es, SparesNamed))
  }

  // A Stack under deletion, at rest between two reconciles, that has to be destroyed first.
  predicate AwaitsDestroy(w: World) {
    && w.phase == Idle
    && w.stack.finalizer && w.stack.Deleting() && WantsDestroy(w.stack.spec)
    && DestroysAreLate(w)
  }

  predicate KeepsWanting(es: seq<Event>) {
    forall i :: 0 <= i < |es| && es[i].Edit? ==> WantsDestroy(es[i].spec)
  }

  predicate SuccessfulDestroy(e: Entry, deletedAt: nat) {
    && e.Saw?
    && e.update.kind == Destroy
    && e.update.createdAt >= deletedAt
    && CheckStatus(e.update.status) == Succeeded
  }

  ghost predicate DestroySeen(log: seq<Entry>, lo: nat, hi: nat, deletedAt: nat)
    requires hi <= |log|
  {
    exists j :: lo <= j < hi && SuccessfulDestroy(log[j], deletedAt)
  }

  // Since `lo`: only destroy Updates were created, and the finalizer came off only after the
  // operator had seen one Complete and not Failed.
  ghost predicate DestroyedBeforeRelease(log: seq<Entry>, lo: nat, deletedAt: nat) {
    forall i :: lo <= i < |log| ==>
      && (log[i].Created? ==> log[i].kind == Destroy)
      && (log[i].Released? ==> DestroySeen(log, lo, i, deletedAt))
  }

  ghost predicate Guarded(w: World, lo: nat, d: nat, late: bool) {
    && lo <= |w.log|
    && w.stack.deletedAt == Some(d) && WantsDestroy(w.stack.spec)
    && DestroysAreLate(w)
    && SafeName(w.updates, w.stack.CurrentName(), late)
    && DestroyedBeforeRelease(w.log, lo, d)
    && (!w.phase.Idle? ==>
          var snap := w.phase.snap;
          && snap.Deleting() && WantsDestroy(snap.spec)
          && snap.CurrentName() == w.stack.CurrentName()
          && (w.phase.Creating? ==> w.phase.commit == None)
          && (w.phase.Acting? ==>
                match w.phase.action
                case Done => true
                case WaitForUpdate(_) => true
                case WaitForWorkspace => true
                case DestroyFailed(_, _) => true
                case DestroyStarted(n) => SafeName(w.updates, Some(n), true)
                case RemoveFinalizerAfterDestroy => DestroySeen(w.log, lo, |w.log|, d)
                case _ => false))
  }

  lemma EnduredName(us: Updates, us': Updates, name: Option<string>)
    requires SafeName(us, name, true) && Endures(us, us')
    ensures SafeName(us', name, true)
  {}

  lemma EvolvedName(us: Updates, us': Updates, name: Option<string>, late: bool)
    requires SafeName(us, name, late) && Evolves(us, us')
    ensures SafeName(us', name, late)
  {}

  lemma SeenStays(log: seq<Entry>, more: seq<Entry>, lo: nat, hi: nat, d: nat)
    requires hi <= |log|
    ensures DestroySeen(log, lo, hi, d) ==> DestroySeen(log + more, lo, hi, d)
  {
    if j :| lo <= j < hi && SuccessfulDestroy(log[j], d) {
      assert (log + more)[j] == log[j];
    }
  }

  // Extending the history keeps the verdict if the new entries meet it.
  lemma HistoryGrows(log: seq<Entry>, more: seq<Entry>, lo: nat, d: nat)
    requires lo <= |log| && DestroyedBeforeRelease(log, lo, d)
    requires forall i :: 0 <= i < |more| ==>
               && (more[i].Created? ==> more[i].kind == Destroy)
               && (more[i].Released? ==> DestroySeen(log, lo, |log|, d))
    ensures DestroyedBeforeRelease(log + more, lo, d)
  {
    forall i | lo <= i < |log + more|
      ensures (log + more)[i].Created? ==> (log + more)[i].kind == Destroy
      ensures (log + more)[i].Released? ==> DestroySeen(log + more, lo, i, d)
    {
      if i < |log| {
        assert (log + more)[i] == log[i];
        SeenStays(log, more, lo, i, d);
      } else {
        assert (log + more)[i] == more[i - |log|];
        SeenStays(log, more, lo, |log|, d);
        if j :| lo <= j < |log| && SuccessfulDestroy((log + more)[j], d) {
          assert lo <= j < i;
        }
      }
    }
  }

  lemma GuardedEnvironment(cfg: Config, w: World, e: Event, lo: nat, d: nat, late: bool)
    requires Guarded(w, lo, d, late) && IsEnvironment(e)
    requires (e.Edit? ==> WantsDestroy(e.spec)) && (late || SparesNamed(w, e))
    ensures Guarded(Step(cfg, w, e), lo, d, late)
  {
    EnvironmentFrame(w, e);
    var w' := Environment(w, e);
    if w.phase.Acting? && w.phase.action.DestroyStarted? {
      EnduredName(w.updates, w'.updates, Some(w.phase.action.name));
    }
    if late {
      EnduredName(w.updates, w'.updates, w.stack.CurrentName());
    } else if !e.LateStart? {
      EvolvedName(w.updates, w'.updates, w.stack.CurrentName(), late);
    }
  }

  lemma GuardedDecide(cfg: Config, w: World, p: Probe, lo: nat, d: nat, late: bool)
    requires Guarded(w, lo, d, late)
    ensures Guarded(Step(cfg, w, DecideStep(p)), lo, d, late)
  {
    if w.phase.HasRead? {
      var snap := w.phase.snap;
      DestroyDecision(w.updates, snap, w.now, p);
      ReleaseIsRead(w.updates, snap, w.now, p);
      GuardedAfterDecision(w, snap, Decide(w.updates, snap, w.now, p), Observed(w, snap, p), lo, d, late);
    }
  }

  lemma ReleaseIsRead(us: Updates, snap: Stack, now: nat, p: Probe)
    ensures Decide(us, snap, now, p) == Decided(RemoveFinalizerAfterDestroy) ==> ReadsUpdate(snap, now, p)
  {}

  // What the decision chain can conclude for a Stack that has to be destroyed.
  predicate Destroying(us: Updates, snap: Stack, d: Decision) {
    match d
    case Decided(Done) => true
    case Decided(WaitForUpdate(_)) => true
    case Decided(WaitForWorkspace) => true
    case Decided(DestroyFailed(_, _)) => true
    case Decided(RemoveFinalizerAfterDestroy) =>
      var name := snap.CurrentName();
      name.Some? && name.value in us && CheckStatus(us[name.value].status) == Succeeded
    case Decided(_) => false
    case Erred(_) => true
    case CreateUp(_) => false
    case CreateDestroy => true
  }

  lemma DestroyDecision(us: Updates, snap: Stack, now: nat, p: Probe)
    requires snap.Deleting() && WantsDestroy(snap.spec)
    ensures Destroying(us, snap, Decide(us, snap, now, p))
  {}

  lemma GuardedAfterDecision(w: World, snap: Stack, d: Decision, more: seq<Entry>, lo: nat, at: nat, late: bool)
    requires Guarded(w, lo, at, late) && w.phase == HasRead(snap) && Destroying(w.updates, snap, d)
    requires forall i :: 0 <= i < |more| ==> !more[i].Created? && !more[i].Released?
    requires d == Decided(RemoveFinalizerAfterDestroy) ==>
               var name := snap.CurrentName().value;
               more != [] && more[|more| - 1] == Saw(w.now, name, w.updates[name])
    ensures Guarded(AfterDecision(w.(log := w.log + more), snap, d), lo, at, late)
  {
    HistoryGrows(w.log, more, lo, at);
    if d == Decided(RemoveFinalizerAfterDestroy) {
      assert SuccessfulDestroy((w.log + more)[|w.log + more| - 1], at);
    }
  }

  lemma GuardedCreate(cfg: Config, w: World, f: CreateFaults, lo: nat, d: nat, late: bool)
    requires Guarded(w, lo, d, late)
    ensures Guarded(Step(cfg, w, CreateStep(f)), lo, d, late)
  {
    if w.phase.Creating? {
      HistoryGrows(w.log, [Created(w.now, DestroyName(cfg.key, w.now), Destroy, w.phase.snap, w.stack)], lo, d);
    }
  }

  lemma GuardedAct(cfg: Config, w: World, f: ActFaults, lo: nat, d: nat, late: bool)
    requires Guarded(w, lo, d, late)
    ensures Guarded(Step(cfg, w, ActStep(f)), lo, d, late)
  {
    if w.phase.Acting? {
      HistoryGrows(w.log, Outcomes(w, f), lo, d);
    }
  }

  lemma {:induction false} GuardedRun(cfg: Config, w: World, es: seq<Event>, lo: nat, d: nat, late: bool)
    requires Guarded(w, lo, d, late) && Admitted(cfg, w, es, late)
    ensures Guarded(Run(cfg, w, es), lo, d, late)
  {
    if es != [] {
      var k := |es| - 1;
      if !late { ThroughoutInit(cfg, w, es, SparesNamed); }
      GuardedRun(cfg, w, es[..k], lo, d, late);
      var v := Run(cfg, w, es[..k]);
      match es[k]
      case Read(_) =>
      case Restart =>
      case DecideStep(p) => GuardedDecide(cfg, v, p, lo, d, late);
      case CreateStep(f) => GuardedCreate(cfg, v, f, lo, d, late);
      case ActStep(f) => GuardedAct(cfg, v, f, lo, d, late);
      case _ => GuardedEnvironment(cfg, v, es[k], lo, d, late);
    }
  }

  const READY := Probe(false, NotConfigured, Err(Stall), None, None, Ok(true))

  // An ordinary Update that has succeeded is taken for the destroy, and the finalizer goes.
  lemma MistakenReconcile(cfg: Config, w: World, name: string, p: Probe)
    requires AwaitsDestroy(w) && w.stack.CurrentName() == Some(name) && name in w.updates && !p.checkFails
    requires w.updates[name].kind != Destroy && CheckStatus(w.updates[name].status) == Succeeded
    ensures Run(cfg, w, [Read(false), DecideStep(p), ActStep(ALL_LAND)]).log
         == w.log + [Saw(w.now, name, w.updates[name])] + [Released(w.now, RemoveFinalizerAfterDestroy)]
  {
    RunActs(cfg, w, p, ALL_LAND);
    var v := Concluded(w, p);
    assert v.phase == Acting(w.stack, RemoveFinalizerAfterDestroy) && v.now == w.now;
    assert v.log == w.log + [Saw(w.now, name, w.updates[name])];
    assert Outcomes(v, ALL_LAND) == [Released(w.now, RemoveFinalizerAfterDestroy)];
  }

  // An Update in flight is let finish, and mistaken.
  lemma FinishIsMistaken(cfg: Config, w: World, name: string)
    requires AwaitsDestroy(w) && w.stack.CurrentName() == Some(name)
    requires name in w.updates && w.updates[name].kind != Destroy && !CheckStatus(w.updates[name].status).FailedWith?
    ensures !DestroyedBeforeRelease(Run(cfg, w, FinishAndRelease(name)).log, |w.log|, w.stack.deletedAt.value)
  {
    var finish, release := [Finish(name, None)], [Read(false), DecideStep(READY), ActStep(ALL_LAND)];
    RunOf1(cfg, w, finish[0]);
    FinishSucceeds(w, name);
    RunAppend(cfg, w, finish, release);
    MistakenReconcile(cfg, Environment(w, finish[0]), name, READY);
    var log := Run(cfg, w, finish + release).log;
    assert log[|w.log| + 1].Released?;
    assert log[|w.log|].Saw? && log[|w.log|].update.kind != Destroy;
  }

  function FinishAndRelease(name: string): seq<Event> {
    [Finish(name, None)] + [Read(false), DecideStep(READY), ActStep(ALL_LAND)]
  }

  lemma StartedOver(cfg: Config, w: World, name: string)
    requires AwaitsDestroy(w) && w.stack.CurrentName() == Some(name)
    requires name in w.updates && w.updates[name].kind != Destroy
    ensures var log := Run(cfg, w, [LateStart(name)] + FinishAndRelease(name)).log;
            !DestroyedBeforeRelease(log, |w.log|, w.stack.deletedAt.value)
  {
    RunAppend(cfg, w, [LateStart(name)], FinishAndRelease(name));
    RunOf1(cfg, w, LateStart(name));
    WritesReadBack("");
    var w1 := Environment(w, LateStart(name));
    assert AwaitsDestroy(w1) && CheckStatus(w1.updates[name].status) == InProgress;
    FinishIsMistaken(cfg, w1, name);
  }

  // An unsafe name: a failed Update is first started over by a late event, if there are such.
  lemma UnsafeNameReleases(cfg: Config, w: World, late: bool) returns (es: seq<Event>)
    requires AwaitsDestroy(w) && !SafeName(w.updates, w.stack.CurrentName(), late)
    ensures Admitted(cfg, w, es, late)
    ensures !DestroyedBeforeRelease(Run(cfg, w, es).log, |w.log|, w.stack.deletedAt.value)
  {
    var name := w.stack.CurrentName().value;
    if CheckStatus(w.updates[name].status).FailedWith? {
      es := [LateStart(name)] + FinishAndRelease(name);
      StartedOver(cfg, w, name);
    } else {
      es := FinishAndRelease(name);
      ThroughoutAlways(cfg, w, es, SparesNamed);
      FinishIsMistaken(cfg, w, name);
    }
  }

  lemma FinishSucceeds(w: World, name: string)
    requires AwaitsDestroy(w) && w.stack.CurrentName() == Some(name)
    requires name in w.updates && w.updates[name].kind != Destroy && !CheckStatus(w.updates[name].status).FailedWith?
    ensures var w1 := Environment(w, Finish(name, None));
            && AwaitsDestroy(w1) && w1.stack == w.stack && w1.log == w.log && w1.now == w.now
            && name in w1.updates && w1.updates[name].kind != Destroy
            && CheckStatus(w1.updates[name].status) == Succeeded
  {
    WritesReadBack("");
  }

  // From a deletion that is first read now, every run - with lost patches, outside deletions and
  // restarts - destroys before it releases, exactly when the status names no ordinary Update that
  // could still succeed: with late starts none that exists, without one of the named Update none
  // that has not failed.
  lemma DestroyBeforeRelease(cfg: Config, w: World, late: bool)
    requires AwaitsDestroy(w)
    ensures SafeName(w.updates, w.stack.CurrentName(), late) <==>
              forall es :: Admitted(cfg, w, es, late) ==>
                DestroyedBeforeRelease(Run(cfg, w, es).log, |w.log|, w.stack.deletedAt.value)
  {
    var d := w.stack.deletedAt.value;
    if SafeName(w.updates, w.stack.CurrentName(), late) {
      forall es | Admitted(cfg, w, es, late) ensures DestroyedBeforeRelease(Run(cfg, w, es).log, |w.log|, d) {
        GuardedRun(cfg, w, es, |w.log|, d, late);
      }
    } else {
      var es := UnsafeNameReleases(cfg, w, late);
    }
  }

  // ------------------------------------------------------------- it happens

  // A deleted Stack that wants no destroy is released by its next reconcile.
  lemma ReleasedAtOnce(cfg: Config, w: World, p: Probe)
    requires w.phase == Idle && w.stack.finalizer && w.stack.Deleting() && !WantsDestroy(w.stack.spec)
    ensures var w' := Run(cfg, w, [Read(false), DecideStep(p), ActStep(ALL_LAND)]);
            && !w'.stack.finalizer && w'.updates == w.updates
            && w'.log != [] && w'.log[|w'.log| - 1] == Released(w.now, RemoveFinalizer)
  {
    RunActs(cfg, w, p, ALL_LAND);
    var v := Concluded(w, p);
    assert v.phase == Acting(w.stack, RemoveFinalizer) && v.updates == w.updates && v.now == w.now;
    assert Outcomes(v, ALL_LAND) == [Released(w.now, RemoveFinalizer)];
  }

  lemma DestroyStarts(cfg: Config, w: World)
    requires AwaitsDestroy(w) && w.stack.CurrentName().None? && !InDestroyCooldown(w.stack, w.now)
    requires DestroyName(cfg.key, w.now) !in w.updates
    ensures var name, v := DestroyName(cfg.key, w.now), Concluded(w, READY);
            var v' := Step(cfg, Step(cfg, v, CreateStep(CALM)), ActStep(ALL_LAND));
            && v'.phase == Idle && v'.now == w.now && v'.updates == w.updates[name := NewDestroy(w.now)]
            && v'.stack == w.stack.(status := v'.stack.status) && v'.stack.CurrentName() == Some(name)
  {
    var v := Concluded(w, READY);
    assert v.phase == Creating(w.stack, None) && v.updates == w.updates && v.stack == w.stack && v.now == w.now;
    DestroyNamed(cfg, v);
  }

  lemma DestroyNamed(cfg: Config, v: World)
    requires v.phase.Creating? && v.phase.commit.None? && DestroyName(cfg.key, v.now) !in v.updates
    ensures var name := DestroyName(cfg.key, v.now);
            var v' := Step(cfg, Step(cfg, v, CreateStep(CALM)), ActStep(ALL_LAND));
            && v'.phase == Idle && v'.now == v.now && v'.updates == v.updates[name := NewDestroy(v.now)]
            && v'.stack == v.stack.(status := v'.stack.status) && v'.stack.CurrentName() == Some(name)
  {
    var name := DestroyName(cfg.key, v.now);
    var c := CreatePhase(cfg, v, CALM);
    assert c.phase == Acting(v.phase.snap, DestroyStarted(name)) && c.stack == v.stack && c.now == v.now;
  }

  lemma DestroyConcludes(cfg: Config, w: World, name: string)
    requires w.phase == Idle && w.stack.finalizer && w.stack.Deleting() && WantsDestroy(w.stack.spec)
    requires w.stack.CurrentName() == Some(name) && name in w.updates
    requires w.updates[name].status == Some(SucceededStatus())
    ensures !Run(cfg, w, [Read(false), DecideStep(READY), ActStep(ALL_LAND)]).stack.finalizer
  {
    WritesReadBack("");
    RunActs(cfg, w, READY, ALL_LAND);
    assert Concluded(w, READY).phase == Acting(w.stack, RemoveFinalizerAfterDestroy);
  }

  // One that wants a destroy, with no Update outstanding and no cooldown running, is released by
  // two reconciles if its destroy Update succeeds in between.
  lemma DestroyReleases(cfg: Config, w: World)
    requires AwaitsDestroy(w) && w.stack.CurrentName().None? && !InDestroyCooldown(w.stack, w.now)
    requires DestroyName(cfg.key, w.now) !in w.updates
    ensures var start := [Read(false), DecideStep(READY), CreateStep(CALM), ActStep(ALL_LAND)];
            var finish := [Finish(DestroyName(cfg.key, w.now), None)];
            var release := [Read(false), DecideStep(READY), ActStep(ALL_LAND)];
            !Run(cfg, w, start + finish + release).stack.finalizer
  {
    var name := DestroyName(cfg.key, w.now);
    var start := [Read(false), DecideStep(READY), CreateStep(CALM), ActStep(ALL_LAND)];
    var finish := [Finish(name, None)];
    var release := [Read(false), DecideStep(READY), ActStep(ALL_LAND)];
    RunAppend(cfg, w, start + finish, release);
    RunAppend(cfg, w, start, finish);
    RunOf4(cfg, w, start);
    RunDecides(cfg, w, READY);
    DestroyStarts(cfg, w);
    var v := Run(cfg, w, start);
    assert finish[..0] == [] && Run(cfg, v, finish) == Environment(v, finish[0]);
    DestroyConcludes(cfg, Environment(v, finish[0]), name);
  }
}
