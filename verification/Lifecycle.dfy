/**
 One Stack, its Updates, its actor and its environment as a state machine.

 A reconcile is four steps - read the Stack, decide, create the Update, act on the decision - and
 between any two of them time passes, users edit or delete the Stack, the executor advances
 Updates, somebody else deletes Updates, or the operator restarts. `log` is the history the
 properties speak about; no step reads it.
 */
module Lifecycle {
  import opened Basics
  import opened Time
  import opened Messages
  import opened LockStreak
  import opened Api
  import opened UpdateCheck
  import opened Project
  import opened Pipeline
  import opened Actions

  datatype Phase =
    | Idle
    | HasRead(snap: Stack)
    | Creating(snap: Stack, commit: Option<string>)  // None: a destroy Update
    | Acting(snap: Stack, action: Action)

  datatype Entry =
    // check_update read this Update, named by currentUpdate
    | Saw(at: nat, name: string, update: Update)
    // the decision to create an Update: the Stack as this reconcile had read it, what it found out, and
    // the Update the status names, if it was there
    | Passed(at: nat, snap: Stack, probe: Probe, named: Option<Update>)
    // an Update was created; the Stack as this reconcile had read it, and as it was
    | Created(at: nat, name: string, kind: UpdateKind, snap: Stack, stack: Stack)
    // a success or failure of an ordinary Update reached the status
    | Recorded(at: nat, name: string, state: RunState, commit: Option<string>, failures: int)
    // a destroy failure reached the status
    | DestroyFailureRecorded(at: nat, failures: int)
    // the project check of a reconcile
    | ProjectChecked(at: nat, verdict: Verdict)
    // a first NotFound reached the status as pendingDeletionSince
    | GraceStarted(at: nat)
    // the reconcile concluded that the grace period has passed
    | GraceExpired(at: nat, since: Timestamp, days: int)
    // the stack finalizer was removed
    | Released(at: nat, action: Action)

  // The Stack's name, and how the API server treats fields a status patch leaves out.
  datatype Config = Config(key: string, keep: bool)

  datatype World = World(
    now: nat,
    stack: Stack,
    updates: Updates,
    actor: ActorData,
    phase: Phase,
    log: seq<Entry>)

  datatype Event =
    | Tick(ms: nat)
    | Edit(spec: Spec, generation: int, annotation: Option<string>)
    | Delete(generation: int)
    | Progress(name: string)
    | LateStart(name: string)
    | Finish(name: string, error: Option<Legible>)
    | OutsideDelete(name: string, forced: bool)
    | Restart
    | Read(unlocked: bool)
    | DecideStep(probe: Probe)
    | CreateStep(createFaults: CreateFaults)
    | ActStep(actFaults: ActFaults)

  // ------------------------------------------------------------ environment

  function SetStatus(us: Updates, name: string, cs: seq<Condition>): Updates {
    if name in us && !Terminal(us[name]) then us[name := us[name].(status := Some(cs))] else us
  }

  // A watch event that comes late starts a finished Update over (Executor.LateEventRewinds). No other
  // write meets a finished one (Executor.OnlyStartsRewind).
  function Restarted(us: Updates, name: string): Updates {
    if name in us then us[name := us[name].(status := Some(ProgressingStatus()))] else us
  }

  function OutcomeStatus(error: Option<Legible>): seq<Condition> {
    if error.Some? then FailedStatus(error.value) else SucceededStatus()
  }

  function Environment(w: World, e: Event): World {
    match e
    case Tick(ms) => w.(now := w.now + ms)
    case Edit(spec, g, ann) => w.(stack := w.stack.(spec := spec, generation := g, annotation := ann))
    case Delete(g) =>
      if w.stack.Deleting() then w else w.(stack := w.stack.(deletedAt := Some(w.now), generation := g))
    case Progress(name) => w.(updates := SetStatus(w.updates, name, ProgressingStatus()))
    case LateStart(name) => w.(updates := Restarted(w.updates, name))
    case Finish(name, error) => w.(updates := SetStatus(w.updates, name, OutcomeStatus(error)))
    case OutsideDelete(name, forced) =>
      w.(updates := if forced then w.updates - {name} else DeleteUpdate(w.updates, name))
    case Restart => w.(actor := INITIAL_ACTOR, phase := Idle)
    case _ => w
  }

  // -------------------------------------------------------------- reconcile

  function ReadStack(w: World, unlocked: bool): World {
    if !w.phase.Idle? then w
    else
      var streak := w.actor.streak.(timeout := Max(w.stack.spec.lockTimeoutSecs, 60) * 1000);
      w.(actor := w.actor.(streak := if unlocked then OnSuccess(streak) else streak),
         phase := HasRead(w.stack))
  }

  // The timeout of the lock streak follows the Stack, never below 60 s, and a lock retry that
  // unlocked ends the streak.
  lemma ReadReadies(w: World, unlocked: bool)
    requires w.phase == Idle
    ensures var v, timeout := ReadStack(w, unlocked), 1000 * Max(w.stack.spec.lockTimeoutSecs, 60);
            && v.phase == HasRead(w.stack) && v == w.(phase := v.phase, actor := v.actor)
            && v.actor == w.actor.(streak := v.actor.streak)
            && v.actor.streak == if unlocked then Streak(None, timeout, 0) else w.actor.streak.(timeout := timeout)
  {}

  // What the executor's events make of an Update that has not finished, and of one that has.
  lemma ExecutorReads(w: World, name: string, error: Option<Legible>)
    requires name in w.updates
    ensures var before := CheckUpdate(w.updates, name);
            CheckUpdate(Environment(w, Finish(name, error)).updates, name) ==
              if before != InProgress then before
              else if error.Some? then FailedWith(Truncated(error.value))
              else Succeeded
    ensures CheckUpdate(Environment(w, Progress(name)).updates, name) == CheckUpdate(w.updates, name)
    ensures CheckUpdate(Environment(w, LateStart(name)).updates, name) == InProgress
  {
    WritesReadBack(if error.Some? then error.value else "");
  }

  // Whether the decision chain gets as far as reading the Update the status names, and reads it.
  predicate ReadsUpdate(snap: Stack, now: nat, p: Probe) {
    && !p.checkFails
    && match StackFinalizerAction(snap)
       case RunDestroy => true
       case NoAction =>
         var verdict := CheckProject(snap, p.project, now);
         verdict != NotFound && (verdict == Active ==> snap.status.pendingDeletionSince.None?)
       case _ => false
  }

  // What the decision chain looked at.
  function Observed(w: World, snap: Stack, p: Probe): seq<Entry> {
    var project :=
      if StackFinalizerAction(snap) == NoAction
      then [ProjectChecked(w.now, CheckProject(snap, p.project, w.now))] else [];
    var expired :=
      if Decide(w.updates, snap, w.now, p) == Decided(ProjectTtlExpired) && snap.status.pendingDeletionSince.Some?
      then [GraceExpired(w.now, snap.status.pendingDeletionSince.value, GraceDays(snap.spec))] else [];
    project + expired + Seen(w, snap, p) + Passing(w, snap, p)
  }

  function Seen(w: World, snap: Stack, p: Probe): seq<Entry> {
    var name := snap.CurrentName();
    if ReadsUpdate(snap, w.now, p) && name.Some? && name.value in w.updates
    then [Saw(w.now, name.value, w.updates[name.value])] else []
  }

  function Passing(w: World, snap: Stack, p: Probe): seq<Entry> {
    var d, name := Decide(w.updates, snap, w.now, p), snap.CurrentName();
    if d.CreateUp? || d.CreateDestroy? then
      [Passed(w.now, snap, p,
              if name.Some? && name.value in w.updates then Some(w.updates[name.value]) else None)]
    else []
  }

  function DecidePhase(w: World, p: Probe): World {
    if !w.phase.HasRead? then w
    else
      var snap := w.phase.snap;
      AfterDecision(w.(log := w.log + Observed(w, snap, p)), snap, Decide(w.updates, snap, w.now, p))
  }

  function AfterDecision(w: World, snap: Stack, d: Decision): World {
    match d
    case Decided(action) => w.(phase := Acting(snap, action))
    case Erred(r) => w.(phase := Idle, actor := ActorAfterError(w.actor, r, w.now))
    case CreateUp(commit) => w.(phase := Creating(snap, Some(commit)))
    case CreateDestroy => w.(phase := Creating(snap, None))
  }

  function CreatePhase(cfg: Config, w: World, f: CreateFaults): World {
    if !w.phase.Creating? then w
    else
      var snap := w.phase.snap;
      if w.phase.commit.Some? then
        var commit := w.phase.commit.value;
        var u := NewUpdate(snap, commit, w.now);
        var (us, r) := CreateUpdate(w.updates, UpName(cfg.key, commit), u, f);
        AfterCreate(w.(updates := us), r, u, snap)
      else
        var u := NewDestroy(w.now);
        var (us, r) := CreateDestroyUpdate(w.updates, DestroyName(cfg.key, w.now), u, f);
        AfterCreate(w.(updates := us), r, u, snap)
  }

  // Step 9 records the commit only when the creation went through.
  function AfterCreate(w: World, r: Result<string, Recovery>, u: Update, snap: Stack): World {
    match r
    case Err(recovery) => w.(phase := Idle, actor := ActorAfterError(w.actor, recovery, w.now))
    case Ok(name) =>
      w.(phase := Acting(snap, if u.commit.Some? then UpdateCreated(name) else DestroyStarted(name)),
         actor := if u.commit.Some? then w.actor.(lastCommit := u.commit) else w.actor,
         log := w.log + [Created(w.now, name, u.kind, snap, w.stack)])
  }

  function Outcomes(w: World, f: ActFaults): seq<Entry>
    requires w.phase.Acting?
  {
    var written :=
      if !f.patchLands then []
      else
        match w.phase.action
        case UpdateSucceeded(name) => [Recorded(w.now, name, RunSucceeded, w.actor.lastCommit, 0)]
        case UpdateFailed(name, _) =>
          [Recorded(w.now, name, RunFailed, w.actor.lastCommit, (w.actor.failureCount + 1) % U32)]
        case DestroyFailed(_, failures) => [DestroyFailureRecorded(w.now, failures)]
        case ProjectNotFound =>
          if w.phase.snap.status.pendingDeletionSince.None? then [GraceStarted(w.now)] else []
        case _ => [];
    var released :=
      if f.finalizerLands && Releases(w.phase.action, w.phase.snap) then [Released(w.now, w.phase.action)] else [];
    written + released
  }

  ghost function ActPhase(cfg: Config, w: World, f: ActFaults): World {
    if !w.phase.Acting? then w
    else
      var snap, action := w.phase.snap, w.phase.action;
      World(
        w.now,
        w.stack.(
        finalizer := FinalizerAfter(w.stack, action, snap, f.finalizerLands),
        status := StatusAfter(cfg.keep, w.stack.status, PatchOf(w.actor, action, snap, w.now), f.patchLands)),
        UpdatesAfter(w.updates, action, f.stripLands),
        ActorAfter(w.actor, action, w.now),
        Idle,
        w.log + Outcomes(w, f))
  }

  ghost function Step(cfg: Config, w: World, e: Event): World {
    match e
    case Read(unlocked) => ReadStack(w, unlocked)
    case DecideStep(p) => DecidePhase(w, p)
    case CreateStep(f) => CreatePhase(cfg, w, f)
    case ActStep(f) => ActPhase(cfg, w, f)
    case _ => Environment(w, e)
  }

  ghost function Run(cfg: Config, w: World, es: seq<Event>): World {
    if es == [] then w else Step(cfg, Run(cfg, w, es[..|es| - 1]), es[|es| - 1])
  }

  lemma {:induction false} RunAppend(cfg: Config, w: World, es: seq<Event>, fs: seq<Event>)
    ensures Run(cfg, w, es + fs) == Run(cfg, Run(cfg, w, es), fs)
  {
    if fs == [] {
      assert es + fs == es;
    } else {
      var k := |fs| - 1;
      RunAppend(cfg, w, es, fs[..k]);
      assert (es + fs)[..|es + fs| - 1] == es + fs[..k];
    }
  }

  lemma RunOf1(cfg: Config, w: World, e: Event)
    ensures Run(cfg, w, [e]) == Step(cfg, w, e)
  {
    assert [e][..0] == [];
  }

  lemma RunOf3(cfg: Config, w: World, es: seq<Event>)
    requires |es| == 3
    ensures Run(cfg, w, es) == Step(cfg, Step(cfg, Step(cfg, w, es[0]), es[1]), es[2])
  {
    assert es[..2][..1] == es[..1] && es[..1][..0] == [];
    assert Run(cfg, w, es[..1]) == Step(cfg, w, es[0]);
    assert Run(cfg, w, es[..2]) == Step(cfg, Run(cfg, w, es[..1]), es[1]);
  }

  lemma RunOf4(cfg: Config, w: World, es: seq<Event>)
    requires |es| == 4
    ensures Run(cfg, w, es) == Step(cfg, Step(cfg, Step(cfg, Step(cfg, w, es[0]), es[1]), es[2]), es[3])
  {
    RunOf3(cfg, w, es[..3]);
  }

  // The World after an undisturbed Read and a decision.
  function Concluded(w: World, p: Probe): World
    requires w.phase == Idle
  {
    var v := ReadStack(w, false);
    AfterDecision(v.(log := w.log + Observed(v, w.stack, p)), w.stack, Decide(w.updates, w.stack, w.now, p))
  }

  lemma RunDecides(cfg: Config, w: World, p: Probe)
    requires w.phase == Idle
    ensures Step(cfg, Step(cfg, w, Read(false)), DecideStep(p)) == Concluded(w, p)
  {}

  lemma RunActs(cfg: Config, w: World, p: Probe, f: ActFaults)
    requires w.phase == Idle
    ensures Run(cfg, w, [Read(false), DecideStep(p), ActStep(f)]) == ActPhase(cfg, Concluded(w, p), f)
  {
    RunOf3(cfg, w, [Read(false), DecideStep(p), ActStep(f)]);
    RunDecides(cfg, w, p);
  }

  // No API call fails.
  const CALM := CreateFaults(false, false, false, true, true, false)
  const ALL_LAND := ActFaults(true, true, true)

  // A Stack as its user has just created it, before the operator has seen it.
  predicate Initial(w: World) {
    && !w.stack.finalizer && !w.stack.Deleting()
    && w.stack.status == EMPTY_STATUS
    && w.updates == map[] && w.actor == INITIAL_ACTOR && w.phase == Idle && w.log == []
  }

  // ------------------------------------------- hypotheses about environments

  predicate NoVerification(es: seq<Event>) {
    forall i :: 0 <= i < |es| && es[i].Edit? ==> es[i].spec.verification.None?
  }

  // A hypothesis about every event of a run, in the state it meets.
  ghost predicate Throughout(cfg: Config, w: World, es: seq<Event>, holds: (World, Event) -> bool) {
    forall i :: 0 <= i < |es| ==> HoldsAt(cfg, w, es, i, holds)
  }

  ghost predicate HoldsAt(cfg: Config, w: World, es: seq<Event>, i: nat, holds: (World, Event) -> bool)
    requires i < |es|
  {
    holds(Run(cfg, w, es[..i]), es[i])
  }

  lemma ThroughoutInit(cfg: Config, w: World, es: seq<Event>, holds: (World, Event) -> bool)
    requires es != [] && Throughout(cfg, w, es, holds)
    ensures Throughout(cfg, w, es[..|es| - 1], holds)
    ensures holds(Run(cfg, w, es[..|es| - 1]), es[|es| - 1])
  {
    var init := es[..|es| - 1];
    assert HoldsAt(cfg, w, es, |es| - 1, holds);
    forall i | 0 <= i < |init| ensures HoldsAt(cfg, w, init, i, holds) {
      assert HoldsAt(cfg, w, es, i, holds);
      assert init[..i] == es[..i];
    }
  }

  lemma ThroughoutAlways(cfg: Config, w: World, es: seq<Event>, holds: (World, Event) -> bool)
    requires forall v, i :: 0 <= i < |es| ==> holds(v, es[i])
    ensures Throughout(cfg, w, es, holds)
  {}

  // The decided action does not reach the status: a restart, or a patch that is lost.
  predicate LosesWrite(e: Event) {
    e.Restart? || (e.ActStep? && !e.actFaults.patchLands)
  }

  predicate IsEnvironment(e: Event) {
    !e.Restart? && !e.Read? && !e.DecideStep? && !e.CreateStep? && !e.ActStep?
  }

  // Updates only disappear, and stay what they are.
  predicate Endures(us: Updates, us': Updates) {
    forall n :: n in us' ==>
      n in us && us'[n].kind == us[n].kind && us'[n].createdAt == us[n].createdAt && us'[n].commit == us[n].commit
  }

  // And a finished one keeps its outcome.
  predicate Evolves(us: Updates, us': Updates) {
    && Endures(us, us')
    && forall n :: n in us' && Terminal(us[n]) ==> us'[n].status == us[n].status
  }

  // The environment touches neither the status nor the finalizer nor the actor.
  lemma EnvironmentFrame(w: World, e: Event)
    requires IsEnvironment(e)
    ensures var w' := Environment(w, e);
            && Endures(w.updates, w'.updates)
            && (!e.LateStart? ==> Evolves(w.updates, w'.updates))
            && (e.LateStart? ==> forall n :: n in w.updates && n != e.name ==> w'.updates[n] == w.updates[n])
            && w'.stack.status == w.stack.status && w'.stack.finalizer == w.stack.finalizer
            && w'.actor == w.actor && w'.phase == w.phase && w'.log == w.log
            && (!e.OutsideDelete? ==> w'.updates.Keys == w.updates.Keys)
            && (!e.Edit? ==> w'.stack.spec == w.stack.spec && w'.stack.annotation == w.stack.annotation)
  {}

  // ------------------------------------------------------ facts of every run

  // The log only grows, by entries stamped with the present; the clock only advances; a deletion
  // is never taken back.
  lemma StepMonotone(cfg: Config, w: World, e: Event)
    ensures Extends(w, Step(cfg, w, e))
  {
    match e
    case Read(_) =>
    case DecideStep(p) => DecideExtends(w, p);
    case CreateStep(f) => CreateExtends(cfg, w, f);
    case ActStep(f) => ActExtends(cfg, w, f);
    case _ =>
  }

  predicate Stamped(es: seq<Entry>, now: nat) {
    forall i :: 0 <= i < |es| ==> es[i].at == now
  }

  lemma StampedJoin(a: seq<Entry>, b: seq<Entry>, now: nat)
    requires Stamped(a, now) && Stamped(b, now)
    ensures Stamped(a + b, now)
  {}

  lemma ObservedNow(w: World, snap: Stack, p: Probe)
    ensures Stamped(Observed(w, snap, p), w.now)
  {
    var passing := Passing(w, snap, p);
    var before := Observed(w, snap, p)[..|Observed(w, snap, p)| - |passing|];
    StampedJoin(before, passing, w.now);
    assert Observed(w, snap, p) == before + passing;
  }

  lemma DecideExtends(w: World, p: Probe)
    ensures Extends(w, DecidePhase(w, p))
  {
    if w.phase.HasRead? {
      ObservedNow(w, w.phase.snap, p);
      LogExtends(w, Observed(w, w.phase.snap, p), w.phase.snap, Decide(w.updates, w.phase.snap, w.now, p));
    }
  }

  lemma LogExtends(w: World, more: seq<Entry>, snap: Stack, d: Decision)
    requires Stamped(more, w.now)
    ensures Extends(w, AfterDecision(w.(log := w.log + more), snap, d))
  {}

  lemma ActExtends(cfg: Config, w: World, f: ActFaults)
    ensures Extends(w, ActPhase(cfg, w, f))
  {
    if w.phase.Acting? {
      assert forall i :: 0 <= i < |Outcomes(w, f)| ==> Outcomes(w, f)[i].at == w.now;
    }
  }

  predicate Extends(w: World, w': World) {
    && |w.log| <= |w'.log| && w'.log[..|w.log|] == w.log
    && (forall i :: |w.log| <= i < |w'.log| ==> w'.log[i].at == w.now)
    && w.now <= w'.now
    && (w.stack.Deleting() ==> w'.stack.deletedAt == w.stack.deletedAt)
  }

  lemma CreateExtends(cfg: Config, w: World, f: CreateFaults)
    ensures Extends(w, CreatePhase(cfg, w, f))
  {
    forall us, r, u, snap ensures Extends(w, AfterCreate(w.(updates := us), r, u, snap)) {
    }
  }

  // The history is in order of time and never ahead of the clock.
  predicate InOrder(w: World) {
    && (forall i :: 0 <= i < |w.log| ==> w.log[i].at <= w.now)
    && (forall i, j :: 0 <= i < j < |w.log| ==> w.log[i].at <= w.log[j].at)
  }

  lemma {:induction false} HistoryInOrder(cfg: Config, w: World, es: seq<Event>)
    requires InOrder(w)
    ensures InOrder(Run(cfg, w, es))
  {
    if es != [] {
      var k := |es| - 1;
      HistoryInOrder(cfg, w, es[..k]);
      var v := Run(cfg, w, es[..k]);
      StepMonotone(cfg, v, es[k]);
      OrderExtends(v, Step(cfg, v, es[k]));
    }
  }

  lemma OrderExtends(w: World, w': World)
    requires InOrder(w) && Extends(w, w')
    ensures InOrder(w')
  {
    assert forall i :: 0 <= i < |w.log| ==> w'.log[i] == w'.log[..|w.log|][i] == w.log[i];
  }
}
