/**
 One Update in flight: every non-terminal Update of a Stack is the one its status names, or the
 one whose creation is about to be written there.
 */
module OneInFlight {
  import opened Basics
  import opened Time
  import opened Api
  import opened UpdateCheck
  import opened Sync
  import opened Project
  import opened Pipeline
  import opened Actions
  import opened Lifecycle

  // At most the named Update is still running.
  predicate OnlyLive(us: Updates, name: Option<string>) {
    forall n :: n in us && !Terminal(us[n]) ==> name == Some(n)
  }

  // Without project verification; with it, patches that omit fields must keep them.
  predicate StatusIsKept(cfg: Config, w: World) {
    cfg.keep ||
    (&& w.stack.spec.verification.None?
     && (!w.phase.Idle? ==> w.phase.snap.spec.verification.None?)
     && (w.phase.Acting? ==> w.phase.action !in {ProjectNotFound, ProjectReinstated, ProjectTtlExpired}))
  }

  predicate NamesCurrent(w: World) {
    w.phase.Acting? &&
    match w.phase.action
    case UpdateSucceeded(_) => true
    case UpdateFailed(_, _) => true
    case DestroyFailed(_, _) => true
    case _ => false
  }

  // The name the status holds, as far as the reconcile under way is not about to replace it.
  function Named(w: World): Option<string> {
    match w.phase
    case Creating(_, _) => None
    case Acting(_, UpdateCreated(n)) => Some(n)
    case Acting(_, DestroyStarted(n)) => Some(n)
    case Acting(_, a) => if NamesCurrent(w) then None else w.stack.CurrentName()
    case _ => w.stack.CurrentName()
  }

  ghost predicate InFlight(cfg: Config, w: World) {
    && StatusIsKept(cfg, w)
    && (!w.phase.Idle? ==> w.phase.snap.status == w.stack.status)
    && OnlyLive(w.updates, Named(w))
  }

  // The name of a new Update reaches the status: neither a restart nor a lost patch comes between
  // a creation and the status write that names it.
  predicate NamesCreations(w: World, e: Event) {
    w.phase.Acting? && (w.phase.action.UpdateCreated? || w.phase.action.DestroyStarted?) ==> !LosesWrite(e)
  }

  // No late watch event starts another Update over than the one the status names.
  predicate StartsNamed(w: World, e: Event) {
    e.LateStart? && e.name in w.updates ==> Named(w) == Some(e.name)
  }

  predicate KeepsOne(w: World, e: Event) {
    NamesCreations(w, e) && StartsNamed(w, e)
  }

  ghost predicate Benign(cfg: Config, w: World, e: Event) {
    KeepsOne(w, e) && (e.Edit? && !cfg.keep ==> e.spec.verification.None?)
  }

  lemma EnvironmentKeeps(cfg: Config, w: World, e: Event)
    requires InFlight(cfg, w) && Benign(cfg, w, e)
    requires IsEnvironment(e)
    ensures InFlight(cfg, Environment(w, e))
  {
    if e.LateStart? {
      LateStartKeepsExactlyNamed(cfg, w, e.name);
    } else {
      EnvironmentFrame(w, e);
      EvolvedLive(w.updates, Environment(w, e).updates, Named(w));
    }
  }

  // A late start leaves one in flight exactly when it starts the named Update over, or nothing.
  lemma LateStartKeepsExactlyNamed(cfg: Config, w: World, name: string)
    requires InFlight(cfg, w)
    ensures InFlight(cfg, Environment(w, LateStart(name))) <==> StartsNamed(w, LateStart(name))
  {
    RestartedLive(w.updates, name, Named(w));
    assert Named(Environment(w, LateStart(name))) == Named(w);
  }

  lemma RestartedLive(us: Updates, name: string, named: Option<string>)
    requires OnlyLive(us, named)
    ensures OnlyLive(Restarted(us, name), named) <==> (name in us ==> named == Some(name))
  {
    WritesReadBack("");
    if name in us { assert !Terminal(Restarted(us, name)[name]); }
  }

  lemma EvolvedLive(us: Updates, us': Updates, name: Option<string>)
    requires OnlyLive(us, name) && Evolves(us, us')
    ensures OnlyLive(us', name)
  {}

  // What a decision about the named Update rests on.
  predicate RespectsName(us: Updates, snap: Stack, d: Decision) {
    match d
    case Decided(UpdateCreated(_)) => false
    case Decided(DestroyStarted(_)) => false
    case Decided(UpdateSucceeded(n)) => NameIsDone(us, snap)
    case Decided(UpdateFailed(n, _)) => NameIsDone(us, snap)
    case Decided(DestroyFailed(n, _)) => NameIsDone(us, snap)
    case Decided(a) => a in {ProjectNotFound, ProjectReinstated, ProjectTtlExpired} ==> snap.spec.verification.Some?
    case CreateUp(_) => NameIsDone(us, snap)
    case CreateDestroy => NameIsDone(us, snap)
    case Erred(_) => true
  }

  predicate NameIsDone(us: Updates, snap: Stack) {
    snap.CurrentName().Some? && snap.CurrentName().value in us ==> Terminal(us[snap.CurrentName().value])
  }

  lemma DecisionRespectsName(us: Updates, snap: Stack, now: nat, p: Probe)
    ensures RespectsName(us, snap, Decide(us, snap, now, p))
  {}

  lemma AfterDecisionKeeps(cfg: Config, w: World, snap: Stack, d: Decision, log: seq<Entry>)
    requires InFlight(cfg, w) && w.phase == HasRead(snap) && RespectsName(w.updates, snap, d)
    ensures InFlight(cfg, AfterDecision(w.(log := log), snap, d))
  {}

  lemma DecideKeeps(cfg: Config, w: World, p: Probe)
    requires InFlight(cfg, w)
    ensures InFlight(cfg, DecidePhase(w, p))
  {
    if w.phase.HasRead? {
      var snap := w.phase.snap;
      DecisionRespectsName(w.updates, snap, w.now, p);
      AfterDecisionKeeps(cfg, w, snap, Decide(w.updates, snap, w.now, p), w.log + Observed(w, snap, p));
    }
  }

  // The 409 recovery replaces a finished Update; it never finds a running one to reuse.
  lemma CreationLeavesOneLive(us: Updates, name: string, u: Update, f: CreateFaults)
    requires OnlyLive(us, None)
    ensures var (us', r) := CreateUpdate(us, name, u, f);
            && OnlyLive(us', if r.Ok? then Some(name) else None)
            && (r.Ok? ==> r.value == name && name in us' && us'[name] == u)
  {
    var found := if f.vanishes then us - {name} else us;
    assert OnlyLive(found, None);
    assert OnlyLive(Cleared(found, name, f), None);
    if name in found { assert Terminal(found[name]); }
  }

  lemma CreateKeeps(cfg: Config, w: World, f: CreateFaults)
    requires InFlight(cfg, w)
    ensures InFlight(cfg, CreatePhase(cfg, w, f))
  {
    if w.phase.Creating? && w.phase.commit.Some? {
      var commit := w.phase.commit.value;
      CreationLeavesOneLive(w.updates, UpName(cfg.key, commit), NewUpdate(w.phase.snap, commit, w.now), f);
    }
  }

  lemma ActKeeps(cfg: Config, w: World, f: ActFaults)
    requires InFlight(cfg, w) && NamesCreations(w, ActStep(f))
    ensures InFlight(cfg, ActPhase(cfg, w, f))
  {}

  lemma StepKeeps(cfg: Config, w: World, e: Event)
    requires InFlight(cfg, w) && Benign(cfg, w, e)
    ensures InFlight(cfg, Step(cfg, w, e))
  {
    match e
    case Read(_) =>
    case Restart =>
    case DecideStep(p) => DecideKeeps(cfg, w, p);
    case CreateStep(f) => CreateKeeps(cfg, w, f);
    case ActStep(f) => ActKeeps(cfg, w, f);
    case _ => EnvironmentKeeps(cfg, w, e);
  }

  ghost predicate BenignRun(cfg: Config, w: World, es: seq<Event>) {
    Throughout(cfg, w, es, KeepsOne) && (cfg.keep || NoVerification(es))
  }

  lemma {:induction false} RunKeeps(cfg: Config, w: World, es: seq<Event>)
    requires InFlight(cfg, w) && BenignRun(cfg, w, es)
    ensures InFlight(cfg, Run(cfg, w, es))
  {
    if es != [] {
      var k := |es| - 1;
      ThroughoutInit(cfg, w, es, KeepsOne);
      RunKeeps(cfg, w, es[..k]);
      StepKeeps(cfg, Run(cfg, w, es[..k]), es[k]);
    }
  }

  // ------------------------------------------------------------ the results

  predicate AtMostOneLive(us: Updates) {
    forall m, n :: m in us && n in us && !Terminal(us[m]) && !Terminal(us[n]) ==> m == n
  }

  // In every reachable state, across creation, outside deletion, stale-name recovery, failure,
  // destroy, restarts and lost patches, as long as every creation gets its name written and no late
  // event starts another Update over: between reconciles the one running Update is the one the
  // status names, and when a new one is about to be created none is running, so a creation never
  // reuses one.
  lemma OneUpdateInFlight(cfg: Config, w: World, es: seq<Event>)
    requires Initial(w) && BenignRun(cfg, w, es)
    requires cfg.keep || w.stack.spec.verification.None?
    ensures var w' := Run(cfg, w, es);
            && AtMostOneLive(w'.updates)
            && (w'.phase.Idle? || w'.phase.HasRead? ==> OnlyLive(w'.updates, w'.stack.CurrentName()))
            && (w'.phase.Creating? ==>
                  && OnlyLive(w'.updates, None)
                  && forall commit, u, f ::
                       var (us, r) := CreateUpdate(w'.updates, UpName(cfg.key, commit), u, f);
                       r.Ok? ==> r.value in us && us[r.value] == u)
  {
    RunKeeps(cfg, w, es);
    var w' := Run(cfg, w, es);
    if w'.phase.Creating? {
      forall commit, u, f
        ensures var (us, r) := CreateUpdate(w'.updates, UpName(cfg.key, commit), u, f);
                r.Ok? ==> r.value in us && us[r.value] == u
      {
        CreationLeavesOneLive(w'.updates, UpName(cfg.key, commit), u, f);
      }
    }
  }

  // With project verification allowed, one update in flight is a matter of the patch semantics
  // alone: it holds in all runs that write the names of their creations and start no other Update
  // over exactly when omitted status fields are kept.
  lemma KeptFieldsDecide(cfg: Config)
    ensures cfg.keep <==>
              forall w, es :: Initial(w) && Throughout(cfg, w, es, KeepsOne) ==>
                AtMostOneLive(Run(cfg, w, es).updates)
  {
    if cfg.keep {
      forall w, es | Initial(w) && Throughout(cfg, w, es, KeepsOne)
        ensures AtMostOneLive(Run(cfg, w, es).updates)
      {
        OneUpdateInFlight(cfg, w, es);
      }
    } else {
      var w, es := DroppedNameLeavesTwo(cfg);
      ThroughoutAlways(cfg, w, es, KeepsOne);
    }
  }

  const PLAIN := Spec(true, false, false, 0, 0, 900, None, false)
  const VERIFIED := PLAIN.(verification := Some(ProjectVerification(30, false)))

  function Answers(project: Verdict, commit: string): Probe {
    Probe(false, project, Ok(commit), None, None, Ok(true))
  }

  // A first reconcile sets the finalizer.
  lemma Adopts(cfg: Config, w: World, p: Probe)
    requires Initial(w)
    ensures var v := Run(cfg, w, [Read(false), DecideStep(p), ActStep(ALL_LAND)]);
            && v.phase == Idle && v.updates == map[] && v.stack == w.stack.(finalizer := true)
            && v.now == w.now && v.log == []
  {
    RunActs(cfg, w, p, ALL_LAND);
    assert Concluded(w, p).phase == Acting(w.stack, AddFinalizer);
  }

  predicate Watched(w: World) {
    w.phase == Idle && w.stack.finalizer && !w.stack.Deleting()
  }

  // A reconcile decides to start an Update for the commit, and creates it.
  lemma DecidesToStart(w: World, p: Probe, commit: string)
    requires Watched(w) && w.stack.status.currentUpdate.None? && !IsSynced(w.stack, commit, w.now)
    requires p == Answers(Active, commit) || p == Answers(CheckError, commit)
    requires CheckProject(w.stack, p.project, w.now) != NotFound
    requires CheckProject(w.stack, p.project, w.now) == Active ==> w.stack.status.pendingDeletionSince.None?
    ensures var v := Concluded(w, p);
            v.phase == Creating(w.stack, Some(commit)) && v.updates == w.updates && v.stack == w.stack && v.now == w.now
  {}

  lemma CreatesFresh(cfg: Config, w: World, commit: string)
    requires w.phase.Creating? && w.phase.commit == Some(commit) && UpName(cfg.key, commit) !in w.updates
    ensures var v, name := CreatePhase(cfg, w, CALM), UpName(cfg.key, commit);
            && v.phase == Acting(w.phase.snap, UpdateCreated(name)) && v.stack == w.stack
            && v.updates == w.updates[name := NewUpdate(w.phase.snap, commit, w.now)]
  {}

  function NamedStatus(generation: int, name: string): Status {
    EMPTY_STATUS.(currentUpdate := Some(CurrentUpdate(generation, Some(name))))
  }

  lemma NamesCreated(cfg: Config, w: World, name: string)
    requires w.phase.Acting? && w.phase.action == UpdateCreated(name)
    ensures var v := ActPhase(cfg, w, ALL_LAND);
            && v.phase == Idle && v.updates == w.updates
            && v.stack == w.stack.(status := v.stack.status)
            && (w.stack.status == EMPTY_STATUS ==>
                  v.stack.status == NamedStatus(w.phase.snap.generation, name))
  {}

  lemma Starts(cfg: Config, w: World, commit: string)
    requires Watched(w) && w.stack.status == EMPTY_STATUS && w.updates == map[]
    ensures var start := [Read(false), DecideStep(Answers(Active, commit)), CreateStep(CALM), ActStep(ALL_LAND)];
            var v := Run(cfg, w, start);
            var name := UpName(cfg.key, commit);
            && Watched(v) && v.stack == w.stack.(status := NamedStatus(w.stack.generation, name))
            && v.updates == w.updates[name := NewUpdate(w.stack, commit, w.now)]
  {
    var p := Answers(Active, commit);
    RunOf4(cfg, w, [Read(false), DecideStep(p), CreateStep(CALM), ActStep(ALL_LAND)]);
    RunDecides(cfg, w, p);
    DecidesToStart(w, p, commit);
    CarriesOut(cfg, w, Concluded(w, p), commit);
  }

  lemma CarriesOut(cfg: Config, w: World, v: World, commit: string)
    requires w.updates == map[] && w.stack.status == EMPTY_STATUS
    requires v.phase == Creating(w.stack, Some(commit))
    requires v.updates == w.updates && v.stack == w.stack && v.now == w.now
    ensures var v' := ActPhase(cfg, CreatePhase(cfg, v, CALM), ALL_LAND);
            var name := UpName(cfg.key, commit);
            && v'.phase == Idle
            && v'.updates == w.updates[name := NewUpdate(w.stack, commit, w.now)]
            && v'.stack == w.stack.(status := NamedStatus(w.stack.generation, name))
  {
    CreatesFresh(cfg, v, commit);
    var c := CreatePhase(cfg, v, CALM);
    assert c.phase.snap == w.stack && c.stack == w.stack;
    NamesCreated(cfg, c, UpName(cfg.key, commit));
  }

  function MissingStatus(since: nat): Status {
    Status(None, None, Some(At(since)), Some(ProjectCheck(At(since), NotFound)))
  }

  // The project is briefly missing: the patch that says so drops currentUpdate.
  lemma Drops(cfg: Config, w: World, p: Probe)
    requires !cfg.keep && Watched(w) && w.stack.spec.verification.Some? && p.project == NotFound
    requires w.stack.status.pendingDeletionSince.None? && w.stack.status.lastProjectCheck.None?
    ensures var v := Run(cfg, w, [Read(false), DecideStep(p), ActStep(ALL_LAND)]);
            && v.phase == Idle && v.updates == w.updates && v.now == w.now
            && v.stack == w.stack.(status := MissingStatus(w.now))
  {
    RunActs(cfg, w, p, ALL_LAND);
    var v := Concluded(w, p);
    assert v.phase == Acting(w.stack, ProjectNotFound) && v.stack == w.stack && v.updates == w.updates;
  }

  // Later the check fails, and the reconcile goes on to start another Update.
  lemma StartsAnother(cfg: Config, w: World, name: string)
    requires Watched(w)
    requires w.stack.status == MissingStatus(w.now)
    requires name in w.updates && !Terminal(w.updates[name]) && UpName(cfg.key, "b") !in w.updates
    ensures var another := [Tick(300_000), Read(false), DecideStep(Answers(CheckError, "b")), CreateStep(CALM)];
            !AtMostOneLive(Run(cfg, w, another).updates)
  {
    var p, other := Answers(CheckError, "b"), UpName(cfg.key, "b");
    RunOf4(cfg, w, [Tick(300_000), Read(false), DecideStep(p), CreateStep(CALM)]);
    var w1 := Environment(w, Tick(300_000));
    RunDecides(cfg, w1, p);
    DecidesToStart(w1, p, "b");
    CreatesFresh(cfg, Concluded(w1, p), "b");
    var us := CreatePhase(cfg, Concluded(w1, p), CALM).updates;
    assert us == w.updates[other := us[other]];
    assert !Terminal(us[other]) && !Terminal(us[name]);
  }

  predicate Gentle(es: seq<Event>) {
    forall i :: 0 <= i < |es| ==> !LosesWrite(es[i]) && !es[i].LateStart?
  }

  lemma Joins(cfg: Config, w: World, a: seq<Event>, b: seq<Event>, c: seq<Event>, d: seq<Event>)
    ensures Run(cfg, w, a + b + c + d) == Run(cfg, Run(cfg, Run(cfg, Run(cfg, w, a), b), c), d)
  {
    Joins3(cfg, w, a, b, c);
    RunAppend(cfg, w, a + b + c, d);
  }

  lemma Joins3(cfg: Config, w: World, a: seq<Event>, b: seq<Event>, c: seq<Event>)
    ensures Run(cfg, w, a + b + c) == Run(cfg, Run(cfg, Run(cfg, w, a), b), c)
  {
    RunAppend(cfg, w, a, b);
    RunAppend(cfg, w, a + b, c);
  }

  function Fresh(spec: Spec): World {
    World(0, Stack(false, None, 1, None, spec, EMPTY_STATUS), map[], INITIAL_ACTOR, Idle, [])
  }

  lemma DroppedNameLeavesTwo(cfg: Config) returns (w: World, es: seq<Event>)
    requires !cfg.keep
    ensures Initial(w) && Gentle(es)
    ensures !AtMostOneLive(Run(cfg, w, es).updates)
  {
    w := Fresh(VERIFIED);
    var started := StartedOnce(cfg, w);
    var drop := [Read(false), DecideStep(Answers(NotFound, "a")), ActStep(ALL_LAND)];
    var another := [Tick(300_000), Read(false), DecideStep(Answers(CheckError, "b")), CreateStep(CALM)];
    es := started + drop + another;
    Joins3(cfg, w, started, drop, another);
    var v' := Run(cfg, w, started);
    Drops(cfg, v', Answers(NotFound, "a"));
    NamesDiffer(cfg.key);
    StartsAnother(cfg, Run(cfg, v', drop), UpName(cfg.key, "a"));
  }

  lemma NamesDiffer(key: string)
    ensures UpName(key, "a") != UpName(key, "b")
  {
    assert UpName(key, "a")[|key| + 1] == 'a' && UpName(key, "b")[|key| + 1] == 'b';
  }

  // A reconcile that gets as far as creating an Update for the commit.
  lemma Creates(cfg: Config, w: World, commit: string)
    requires Watched(w) && UpName(cfg.key, commit) !in w.updates
    requires w.stack.status.currentUpdate.None? && !IsSynced(w.stack, commit, w.now)
    requires w.stack.status == EMPTY_STATUS || w.stack.spec.verification.None?
    ensures var v := Run(cfg, w, [Read(false), DecideStep(Answers(Active, commit)), CreateStep(CALM)]);
            var name := UpName(cfg.key, commit);
            && v.phase == Acting(w.stack, UpdateCreated(name)) && v.stack == w.stack
            && v.updates == w.updates[name := NewUpdate(w.stack, commit, w.now)]
  {
    var p := Answers(Active, commit);
    RunOf3(cfg, w, [Read(false), DecideStep(p), CreateStep(CALM)]);
    RunDecides(cfg, w, p);
    DecidesToStart(w, p, commit);
    CreatesFresh(cfg, Concluded(w, p), commit);
  }

  // The hypothesis carries weight whatever the patch semantics and without verification: one
  // restart or lost patch right after a creation, then a new commit, and two Updates run.
  lemma LostNameLeavesTwo(cfg: Config, loss: Event) returns (w: World, before: seq<Event>, after: seq<Event>)
    requires LosesWrite(loss)
    ensures Initial(w) && w.stack.spec.verification.None?
    ensures Gentle(before) && Gentle(after) && NoVerification(before + [loss] + after)
    ensures !AtMostOneLive(Run(cfg, w, before + [loss] + after).updates)
  {
    w := Fresh(PLAIN);
    var adopt := [Read(false), DecideStep(Answers(Active, "a")), ActStep(ALL_LAND)];
    var create := [Read(false), DecideStep(Answers(Active, "a")), CreateStep(CALM)];
    before := adopt + create;
    after := [Read(false), DecideStep(Answers(Active, "b")), CreateStep(CALM)];
    RunAppend(cfg, w, adopt, create + [loss] + after);
    assert before + [loss] + after == adopt + (create + [loss] + after);
    Adopts(cfg, w, Answers(Active, "a"));
    CreatesTwice(cfg, Run(cfg, w, adopt), loss);
  }

  lemma CreatesTwice(cfg: Config, w: World, loss: Event)
    requires LosesWrite(loss) && Watched(w) && w.stack.status == EMPTY_STATUS && w.updates == map[]
    ensures var create := [Read(false), DecideStep(Answers(Active, "a")), CreateStep(CALM)];
            var again := [Read(false), DecideStep(Answers(Active, "b")), CreateStep(CALM)];
            !AtMostOneLive(Run(cfg, w, create + [loss] + again).updates)
  {
    var create := [Read(false), DecideStep(Answers(Active, "a")), CreateStep(CALM)];
    var again := [Read(false), DecideStep(Answers(Active, "b")), CreateStep(CALM)];
    Joins3(cfg, w, create, [loss], again);
    Creates(cfg, w, "a");
    var v := Run(cfg, w, create);
    RunOf1(cfg, v, loss);
    LossForgetsName(cfg, v, loss);
    NamesDiffer(cfg.key);
    var v' := Step(cfg, v, loss);
    Creates(cfg, v', "b");
    TwoRun(UpName(cfg.key, "a"), UpName(cfg.key, "b"), Run(cfg, v', again).updates);
  }

  lemma LossForgetsName(cfg: Config, w: World, loss: Event)
    requires LosesWrite(loss) && w.phase.Acting? && (w.phase.action.UpdateCreated? || w.phase.action.DestroyStarted?)
    ensures var v := Step(cfg, w, loss);
            v.phase == Idle && v.stack == w.stack && v.updates == w.updates && v.now == w.now && v.log == w.log
  {}

  lemma TwoRun(m: string, n: string, us: Updates)
    requires m != n && m in us && n in us && !Terminal(us[m]) && !Terminal(us[n])
    ensures !AtMostOneLive(us)
  {}

  lemma Succeeds(w: World, name: string)
    requires name in w.updates && !Terminal(w.updates[name])
    ensures var w1 := Environment(w, Finish(name, None));
            && w1 == w.(updates := w1.updates) && w1.updates.Keys == w.updates.Keys
            && w1.updates[name] == w.updates[name].(status := Some(SucceededStatus()))
            && CheckStatus(w1.updates[name].status) == Succeeded
  {
    WritesReadBack("");
  }

  // The named Update succeeds, and that is recorded.
  lemma Records(cfg: Config, w: World, name: string)
    requires Watched(w) && w.stack.spec.verification.None? && w.stack.CurrentName() == Some(name)
    requires name in w.updates && !Terminal(w.updates[name]) && !w.updates[name].deleting
    ensures var record := [Finish(name, None)] + [Read(false), DecideStep(Answers(Active, "a")), ActStep(ALL_LAND)];
            var v := Run(cfg, w, record);
            && Watched(v) && v.stack == w.stack.(status := v.stack.status)
            && v.stack.status.currentUpdate.None? && v.stack.status.lastUpdate.Some?
            && v.stack.status.lastUpdate.value.generation == w.stack.generation
            && v.updates.Keys == w.updates.Keys
  {
    var p := Answers(Active, "a");
    RunAppend(cfg, w, [Finish(name, None)], [Read(false), DecideStep(p), ActStep(ALL_LAND)]);
    RunOf1(cfg, w, Finish(name, None));
    Succeeds(w, name);
    var w1 := Environment(w, Finish(name, None));
    RunActs(cfg, w1, p, ALL_LAND);
    DecidesSucceeded(w1, name, p);
    RecordKeepsNames(cfg, Concluded(w1, p), name);
  }

  lemma DecidesSucceeded(w: World, name: string, p: Probe)
    requires Watched(w) && w.stack.spec.verification.None? && !p.checkFails
    requires w.stack.CurrentName() == Some(name) && name in w.updates
    requires CheckStatus(w.updates[name].status) == Succeeded
    ensures var v := Concluded(w, p);
            && v.phase == Acting(w.stack, UpdateSucceeded(name)) && v.actor.lastCommit == w.actor.lastCommit
            && v.stack == w.stack && v.now == w.now && v.updates == w.updates
            && v.log != [] && v.log[|v.log| - 1] == Saw(w.now, name, w.updates[name])
  {}

  lemma RecordKeepsNames(cfg: Config, v: World, name: string)
    requires v.phase == Acting(v.stack, UpdateSucceeded(name)) && Watched(v.(phase := Idle))
    requires name in v.updates && !v.updates[name].deleting
    ensures var v' := ActPhase(cfg, v, ALL_LAND);
            && Watched(v') && v'.stack == v.stack.(status := v'.stack.status)
            && v'.stack.status.currentUpdate.None? && v'.stack.status.lastUpdate.Some?
            && v'.stack.status.lastUpdate.value.generation == v.stack.generation
            && v'.updates.Keys == v.updates.Keys
  {}

  // The other hypothesis carries weight too: with no restart, lost patch or verification, one late
  // start of a finished Update and a new commit leave two running.
  lemma LateStartLeavesTwo(cfg: Config) returns (w: World, before: seq<Event>, name: string, after: seq<Event>)
    ensures Initial(w) && w.stack.spec.verification.None?
    ensures Gentle(before) && Gentle(after) && NoVerification(before + [LateStart(name)] + after)
    ensures !AtMostOneLive(Run(cfg, w, before + [LateStart(name)] + after).updates)
  {
    w, name := Fresh(PLAIN), UpName(cfg.key, "a");
    var edit := [Edit(PLAIN, 2, None)];
    var first := FinishedOnce(cfg, w);
    before := first + edit;
    after := [Read(false), DecideStep(Answers(Active, "b")), CreateStep(CALM)];
    Joins(cfg, w, first, edit, [LateStart(name)], after);
    assert before + [LateStart(name)] + after == first + edit + [LateStart(name)] + after;
    var u := Run(cfg, w, first);
    RunOf1(cfg, u, edit[0]);
    StartsOver(cfg, u, name);
  }

  lemma FinishedOnce(cfg: Config, w: World) returns (es: seq<Event>)
    requires w == Fresh(PLAIN)
    ensures Gentle(es) && NoVerification(es)
    ensures var u := Run(cfg, w, es);
            && Watched(u) && u.stack.status.currentUpdate.None? && u.stack.status.lastUpdate.Some?
            && u.stack.status.lastUpdate.value.generation == 1 && u.updates.Keys == {UpName(cfg.key, "a")}
  {
    var name := UpName(cfg.key, "a");
    var record := [Finish(name, None)] + [Read(false), DecideStep(Answers(Active, "a")), ActStep(ALL_LAND)];
    var started := StartedOnce(cfg, w);
    es := started + record;
    RunAppend(cfg, w, started, record);
    Records(cfg, Run(cfg, w, started), name);
  }

  // A new Stack is adopted, and its first Update started.
  lemma StartedOnce(cfg: Config, w: World) returns (es: seq<Event>)
    requires w == Fresh(w.stack.spec)
    ensures Gentle(es) && NoVerification(es)
    ensures var u, name := Run(cfg, w, es), UpName(cfg.key, "a");
            && Watched(u) && u.updates.Keys == {name}
            && !Terminal(u.updates[name]) && !u.updates[name].deleting
            && u.stack == w.stack.(finalizer := true, status := NamedStatus(1, name))
  {
    var adopt := [Read(false), DecideStep(Answers(Active, "a")), ActStep(ALL_LAND)];
    var start := [Read(false), DecideStep(Answers(Active, "a")), CreateStep(CALM), ActStep(ALL_LAND)];
    es := adopt + start;
    RunAppend(cfg, w, adopt, start);
    Adopts(cfg, w, Answers(Active, "a"));
    Starts(cfg, Run(cfg, w, adopt), "a");
  }

  lemma StartsOver(cfg: Config, u: World, name: string)
    requires Watched(u) && u.stack.status.currentUpdate.None? && u.stack.status.lastUpdate.Some?
    requires u.stack.status.lastUpdate.value.generation == 1
    requires name == UpName(cfg.key, "a") && u.updates.Keys == {name}
    ensures var again := [Read(false), DecideStep(Answers(Active, "b")), CreateStep(CALM)];
            var v := Step(cfg, u, Edit(PLAIN, 2, None));
            !AtMostOneLive(Run(cfg, Run(cfg, v, [LateStart(name)]), again).updates)
  {
    var again := [Read(false), DecideStep(Answers(Active, "b")), CreateStep(CALM)];
    var v := Step(cfg, u, Edit(PLAIN, 2, None));
    RunOf1(cfg, v, LateStart(name));
    var v' := Step(cfg, v, LateStart(name));
    WritesReadBack("");
    NamesDiffer(cfg.key);
    Creates(cfg, v', "b");
    TwoRun(name, UpName(cfg.key, "b"), Run(cfg, v', again).updates);
  }
}
