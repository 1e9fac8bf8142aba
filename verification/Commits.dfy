/**
 Truthful commits: the commit recorded with an outcome is the commit of the Update that had it.
 */
module Commits {
  import opened Basics
  import opened Api
  import opened UpdateCheck
  import opened Sync
  import opened Pipeline
  import opened Actions
  import opened Lifecycle
  import opened OneInFlight
  import D = DestroyFirst

  predicate Outcome(u: Update, state: RunState) {
    if state == RunSucceeded then CheckStatus(u.status) == Succeeded
    else state == RunFailed && CheckStatus(u.status).FailedWith?
  }

  // The operator saw this Update of this commit with this outcome.
  predicate Attests(e: Entry, name: string, state: RunState, commit: Option<string>) {
    && e.Saw? && e.name == name
    && e.update.commit == commit && commit.Some?
    && Outcome(e.update, state)
  }

  // Every recorded outcome is what the same reconcile had just seen of the Update: nothing comes
  // between the read and the record in the history.
  predicate RecordsAttested(log: seq<Entry>) {
    forall i :: 0 <= i < |log| && log[i].Recorded? ==>
      i > 0 && Attests(log[i - 1], log[i].name, log[i].state, log[i].commit)
  }

  function LastRecord(log: seq<Entry>): Option<Entry> {
    if log == [] then None
    else if log[|log| - 1].Recorded? then Some(log[|log| - 1])
    else LastRecord(log[..|log| - 1])
  }

  lemma {:induction false} RecordsSkip(log: seq<Entry>, more: seq<Entry>)
    requires forall i :: 0 <= i < |more| ==> !more[i].Recorded?
    ensures LastRecord(log + more) == LastRecord(log)
    ensures RecordsAttested(log) ==> RecordsAttested(log + more)
  {
    if more == [] {
      assert log + more == log;
    } else {
      var k := |more| - 1;
      RecordsSkip(log, more[..k]);
      assert (log + more)[..|log + more| - 1] == log + more[..k];
    }
  }

  lemma RecordsStep(log: seq<Entry>, e: Entry)
    requires e.Recorded? && log != [] && Attests(log[|log| - 1], e.name, e.state, e.commit)
    ensures LastRecord(log + [e]) == Some(e)
    ensures RecordsAttested(log) ==> RecordsAttested(log + [e])
  {}

  // An existing ordinary Update of this name was created for the commit the actor remembers.
  predicate Remembered(w: World, name: Option<string>) {
    name.Some? && name.value in w.updates && w.updates[name.value].kind != Destroy ==>
      w.updates[name.value].commit == w.actor.lastCommit && w.actor.lastCommit.Some?
  }

  predicate NoDestroys(us: Updates) {
    forall n :: n in us ==> us[n].kind != Destroy
  }

  // What the status says of the last ordinary Update is what the last record says.
  predicate StatusRecorded(w: World) {
    w.stack.status.lastUpdate.Some? && w.stack.status.lastUpdate.value.kind == Some(Up) ==>
      var l, r := w.stack.status.lastUpdate.value, LastRecord(w.log);
      && r.Some? && r.value.Recorded?
      && l.name == Some(r.value.name) && l.state == Some(r.value.state)
      && r.value.commit == if r.value.state == RunSucceeded then l.lastSuccessfulCommit else l.lastAttemptedCommit
  }

  predicate JustSaw(w: World, name: string, state: RunState) {
    w.log != [] && Attests(w.log[|w.log| - 1], name, state, w.actor.lastCommit)
  }

  predicate PhaseTruthful(w: World) {
    match w.phase
    case Acting(_, UpdateCreated(n)) => Remembered(w, Some(n))
    case Acting(_, DestroyStarted(n)) => Remembered(w, Some(n))
    case Acting(_, UpdateSucceeded(n)) => JustSaw(w, n, RunSucceeded)
    case Acting(_, UpdateFailed(n, _)) => JustSaw(w, n, RunFailed)
    case _ => true
  }

  ghost predicate Truthful(cfg: Config, w: World) {
    && InFlight(cfg, w)
    && D.DestroysAreLate(w) && D.SnapshotIsFaithful(w)
    && (!w.phase.Idle? && !w.phase.snap.Deleting() ==> NoDestroys(w.updates))
    && (!(w.phase.Acting? && w.phase.action.UpdateCreated?) ==> Remembered(w, w.stack.CurrentName()))
    && (w.phase.Creating? ==> w.stack.CurrentName().Some? ==> w.stack.CurrentName().value !in w.updates)
    && StatusRecorded(w) && RecordsAttested(w.log)
    && PhaseTruthful(w)
  }

  // A restarted actor has forgotten the commit of the Update the status names.
  predicate RemembersCommit(w: World, e: Event) {
    var name := w.stack.CurrentName();
    e.Restart? && name.Some? && name.value in w.updates ==> w.updates[name.value].kind == Destroy
  }

  predicate Recalls(w: World, e: Event) {
    KeepsOne(w, e) && RemembersCommit(w, e)
  }

  lemma TruthfulEnvironment(cfg: Config, w: World, e: Event)
    requires Truthful(cfg, w) && Benign(cfg, w, e) && IsEnvironment(e)
    ensures Truthful(cfg, Environment(w, e))
  {
    EnvironmentKeeps(cfg, w, e);
    EnvironmentFrame(w, e);
  }

  // What a decision that settles the outstanding Update rests on.
  predicate Settles(us: Updates, snap: Stack, d: Decision) {
    match d
    case Decided(UpdateSucceeded(n)) =>
      !snap.Deleting() && snap.CurrentName() == Some(n) && n in us && Outcome(us[n], RunSucceeded)
    case Decided(UpdateFailed(n, _)) =>
      !snap.Deleting() && snap.CurrentName() == Some(n) && n in us && Outcome(us[n], RunFailed)
    case Decided(UpdateCreated(_)) => false
    case Decided(DestroyStarted(_)) => false
    case CreateUp(_) => snap.CurrentName().Some? ==> snap.CurrentName().value !in us
    case CreateDestroy => snap.CurrentName().Some? ==> snap.CurrentName().value !in us
    case _ => true
  }

  lemma DecisionSettles(us: Updates, snap: Stack, now: nat, p: Probe)
    ensures Settles(us, snap, Decide(us, snap, now, p))
  {}

  lemma SettlingReads(us: Updates, snap: Stack, now: nat, p: Probe)
    ensures var d := Decide(us, snap, now, p);
            d.Decided? && (d.action.UpdateSucceeded? || d.action.UpdateFailed?) ==> ReadsUpdate(snap, now, p)
  {}

  // The Update an outcome was read from is the last thing the chain looked at.
  lemma SeenIsLast(w: World, snap: Stack, p: Probe)
    ensures var d, more := Decide(w.updates, snap, w.now, p), Observed(w, snap, p);
            && (forall i :: 0 <= i < |more| ==> !more[i].Recorded?)
            && (d.Decided? && (d.action.UpdateSucceeded? || d.action.UpdateFailed?) ==>
                  && d.action.name in w.updates
                  && more != [] && more[|more| - 1] == Saw(w.now, d.action.name, w.updates[d.action.name]))
  {
    DecisionSettles(w.updates, snap, w.now, p);
    SettlingReads(w.updates, snap, w.now, p);
  }

  lemma TruthfulAfterDecision(cfg: Config, w: World, snap: Stack, d: Decision, more: seq<Entry>)
    requires Truthful(cfg, w) && w.phase == HasRead(snap)
    requires Settles(w.updates, snap, d)
    requires forall i :: 0 <= i < |more| ==> !more[i].Recorded?
    requires d.Decided? && (d.action.UpdateSucceeded? || d.action.UpdateFailed?) ==>
               more != [] && more[|more| - 1] == Saw(w.now, d.action.name, w.updates[d.action.name])
    requires var w' := AfterDecision(w.(log := w.log + more), snap, d);
             InFlight(cfg, w') && D.DestroysAreLate(w') && D.SnapshotIsFaithful(w')
    ensures Truthful(cfg, AfterDecision(w.(log := w.log + more), snap, d))
  {
    RecordsSkip(w.log, more);
    if d.Decided? && (d.action.UpdateSucceeded? || d.action.UpdateFailed?) {
      assert (w.log + more)[|w.log + more| - 1] == more[|more| - 1];
    }
  }

  lemma TruthfulDecide(cfg: Config, w: World, p: Probe)
    requires Truthful(cfg, w)
    ensures Truthful(cfg, DecidePhase(w, p))
  {
    if w.phase.HasRead? {
      var snap := w.phase.snap;
      DecideKeeps(cfg, w, p);
      D.DeletingDecision(w.updates, snap, w.now, p);
      DecisionSettles(w.updates, snap, w.now, p);
      SeenIsLast(w, snap, p);
      TruthfulAfterDecision(cfg, w, snap, Decide(w.updates, snap, w.now, p), Observed(w, snap, p));
    }
  }

  lemma TruthfulAfterCreate(cfg: Config, w: World, us: Updates, r: Result<string, Recovery>, u: Update)
    requires Truthful(cfg, w) && w.phase.Creating? && u.commit == w.phase.commit
    requires u.kind == Destroy <==> u.commit.None?
    requires u.createdAt == w.now
    requires r.Ok? ==> r.value in us && us[r.value] == u
    requires forall n :: n in us ==>
               || (r.Ok? && n == r.value)
               || (n in w.updates && us[n].kind == w.updates[n].kind && us[n].createdAt == w.updates[n].createdAt)
    requires InFlight(cfg, AfterCreate(w.(updates := us), r, u, w.phase.snap))
    ensures Truthful(cfg, AfterCreate(w.(updates := us), r, u, w.phase.snap))
  {
    if r.Ok? {
      RecordsSkip(w.log, [Created(w.now, r.value, u.kind, w.phase.snap, w.stack)]);
    }
  }

  lemma TruthfulCreate(cfg: Config, w: World, f: CreateFaults)
    requires Truthful(cfg, w)
    ensures Truthful(cfg, CreatePhase(cfg, w, f))
  {
    if w.phase.Creating? {
      CreateKeeps(cfg, w, f);
      if w.phase.commit.Some? { TruthfulCreateUp(cfg, w, f); } else { TruthfulCreateDestroy(cfg, w, f); }
    }
  }

  lemma TruthfulCreateUp(cfg: Config, w: World, f: CreateFaults)
    requires Truthful(cfg, w) && w.phase.Creating? && w.phase.commit.Some?
    requires InFlight(cfg, CreatePhase(cfg, w, f))
    ensures Truthful(cfg, CreatePhase(cfg, w, f))
  {
    var commit := w.phase.commit.value;
    var u := NewUpdate(w.phase.snap, commit, w.now);
    CreationLeavesOneLive(w.updates, UpName(cfg.key, commit), u, f);
    D.CreationBringsOnly(w.updates, UpName(cfg.key, commit), u, f);
    var (us, r) := CreateUpdate(w.updates, UpName(cfg.key, commit), u, f);
    TruthfulAfterCreate(cfg, w, us, r, u);
  }

  lemma TruthfulCreateDestroy(cfg: Config, w: World, f: CreateFaults)
    requires Truthful(cfg, w) && w.phase.Creating? && w.phase.commit.None?
    requires InFlight(cfg, CreatePhase(cfg, w, f))
    ensures Truthful(cfg, CreatePhase(cfg, w, f))
  {
    var (us, r) := CreateDestroyUpdate(w.updates, DestroyName(cfg.key, w.now), NewDestroy(w.now), f);
    TruthfulAfterCreate(cfg, w, us, r, NewDestroy(w.now));
  }

  lemma ActEvolves(us: Updates, action: Action, lands: bool)
    ensures Evolves(us, UpdatesAfter(us, action, lands))
  {}

  lemma ActRecords(cfg: Config, w: World, f: ActFaults)
    requires StatusRecorded(w) && RecordsAttested(w.log) && PhaseTruthful(w) && w.phase.Acting?
    ensures StatusRecorded(ActPhase(cfg, w, f)) && RecordsAttested(ActPhase(cfg, w, f).log)
  {
    if f.patchLands && (w.phase.action.UpdateSucceeded? || w.phase.action.UpdateFailed?) {
      ActWrites(cfg, w, f);
      RecordsStep(w.log, Outcomes(w, f)[0]);
    } else {
      RecordsSkip(w.log, Outcomes(w, f));
      ActKeepsRecord(cfg, w, f);
    }
  }

  // Nothing else writes the record of an ordinary Update.
  lemma ActKeepsRecord(cfg: Config, w: World, f: ActFaults)
    requires w.phase.Acting? && !(f.patchLands && (w.phase.action.UpdateSucceeded? || w.phase.action.UpdateFailed?))
    ensures var w' := ActPhase(cfg, w, f);
            && w'.log == w.log + Outcomes(w, f)
            && (w'.stack.status.lastUpdate.Some? && w'.stack.status.lastUpdate.value.kind == Some(Up) ==>
                  w'.stack.status.lastUpdate == w.stack.status.lastUpdate)
  {}

  // The record of an outcome carries the commit the actor remembers, in the field for that outcome.
  lemma ActWrites(cfg: Config, w: World, f: ActFaults)
    requires w.phase.Acting? && f.patchLands && w.actor.lastCommit.Some?
    requires w.phase.action.UpdateSucceeded? || w.phase.action.UpdateFailed?
    ensures var w', state := ActPhase(cfg, w, f), if w.phase.action.UpdateSucceeded? then RunSucceeded else RunFailed;
            && w'.log == w.log + Outcomes(w, f) && w'.stack.status.lastUpdate.Some?
            && (var es, name := Outcomes(w, f), w.phase.action.name;
                && es == [es[0]] && es[0].Recorded? && es[0].name == name && es[0].state == state
                && es[0].commit == w.actor.lastCommit)
            && var l := w'.stack.status.lastUpdate.value;
               && l.kind == Some(Up) && l.name == Some(w.phase.action.name) && l.state == Some(state)
               && w.actor.lastCommit == if state == RunSucceeded then l.lastSuccessfulCommit else l.lastAttemptedCommit
  {
    assert Outcomes(w, f) == [Outcomes(w, f)[0]];
  }

  lemma ActNamesRemembered(cfg: Config, w: World, f: ActFaults)
    requires Truthful(cfg, w) && w.phase.Acting? && NamesCreations(w, ActStep(f))
    ensures var w' := ActPhase(cfg, w, f);
            Remembered(w', w'.stack.CurrentName()) && D.DestroysAreLate(w')
  {
    ActEvolves(w.updates, w.phase.action, f.stripLands);
  }

  lemma TruthfulAct(cfg: Config, w: World, f: ActFaults)
    requires Truthful(cfg, w) && NamesCreations(w, ActStep(f))
    ensures Truthful(cfg, ActPhase(cfg, w, f))
  {
    if w.phase.Acting? {
      ActKeeps(cfg, w, f);
      ActRecords(cfg, w, f);
      ActNamesRemembered(cfg, w, f);
    }
  }

  lemma TruthfulRead(cfg: Config, w: World, unlocked: bool)
    requires Truthful(cfg, w)
    ensures Truthful(cfg, ReadStack(w, unlocked))
  {}

  lemma TruthfulRestart(cfg: Config, w: World)
    requires Truthful(cfg, w) && Recalls(w, Restart)
    ensures Truthful(cfg, Environment(w, Restart))
  {
    StepKeeps(cfg, w, Restart);
  }

  lemma TruthfulStep(cfg: Config, w: World, e: Event)
    requires Truthful(cfg, w) && Benign(cfg, w, e) && Recalls(w, e)
    ensures Truthful(cfg, Step(cfg, w, e))
  {
    match e
    case Read(unlocked) => TruthfulRead(cfg, w, unlocked);
    case Restart => TruthfulRestart(cfg, w);
    case DecideStep(p) => TruthfulDecide(cfg, w, p);
    case CreateStep(f) => TruthfulCreate(cfg, w, f);
    case ActStep(f) => TruthfulAct(cfg, w, f);
    case _ => TruthfulEnvironment(cfg, w, e);
  }

  // In every run each recorded outcome and commit is that of the very Update which the same
  // reconcile had just read with that outcome, and lastUpdate - the successful commit after a
  // success, the attempted one after a failure - says what the last record says; if no creation
  // goes unnamed, no late event starts another Update over, and no restart meets an ordinary Update
  // the status names.
  lemma {:induction false} TruthfulCommit(cfg: Config, w: World, es: seq<Event>)
    requires Initial(w) && Throughout(cfg, w, es, Recalls) && (cfg.keep || NoVerification(es))
    requires cfg.keep || w.stack.spec.verification.None?
    ensures Truthful(cfg, Run(cfg, w, es))
    ensures RecordsAttested(Run(cfg, w, es).log) && StatusRecorded(Run(cfg, w, es))
  {
    if es != [] {
      var k := |es| - 1;
      ThroughoutInit(cfg, w, es, Recalls);
      TruthfulCommit(cfg, w, es[..k]);
      TruthfulStep(cfg, Run(cfg, w, es[..k]), es[k]);
    }
  }

  // The restart hypothesis carries weight: after one the success of the named Update is recorded
  // with no commit at all.
  lemma RestartLosesCommit(cfg: Config, w: World, name: string, p: Probe)
    requires Watched(w) && w.stack.spec.verification.None? && !p.checkFails
    requires w.stack.CurrentName() == Some(name) && name in w.updates
    requires CheckStatus(w.updates[name].status) == Succeeded
    ensures var v := Run(cfg, w, [Restart] + [Read(false), DecideStep(p), ActStep(ALL_LAND)]);
            && v.phase == Idle
            && v.stack == w.stack.(status := v.stack.status)
            && v.stack.CurrentName().None?
            && v.stack.status.lastUpdate.Some?
            && v.stack.status.lastUpdate.value.name == Some(name)
            && v.stack.status.lastUpdate.value.state == Some(RunSucceeded)
            && v.stack.status.lastUpdate.value.lastSuccessfulCommit.None?
            && !RecordsAttested(v.log)
  {
    var again := [Read(false), DecideStep(p), ActStep(ALL_LAND)];
    RunAppend(cfg, w, [Restart], again);
    RunOf1(cfg, w, Restart);
    var w1 := Step(cfg, w, Restart);
    RunActs(cfg, w1, p, ALL_LAND);
    DecidesSucceeded(w1, name, p);
    RecordsNoCommit(cfg, Concluded(w1, p));
  }

  lemma RecordsNoCommit(cfg: Config, v: World)
    requires v.phase.Acting? && v.phase.action.UpdateSucceeded? && v.actor.lastCommit.None?
    requires v.phase.snap == v.stack && !v.stack.Deleting() && v.stack.finalizer
    ensures var v' := ActPhase(cfg, v, ALL_LAND);
            && v'.phase == Idle && v'.stack == v.stack.(status := v'.stack.status) && v'.stack.CurrentName().None?
            && v'.stack.status.lastUpdate.Some?
            && v'.stack.status.lastUpdate.value.name == Some(v.phase.action.name)
            && v'.stack.status.lastUpdate.value.state == Some(RunSucceeded)
            && v'.stack.status.lastUpdate.value.lastSuccessfulCommit.None?
            && !RecordsAttested(v'.log)
  {
    var log := ActPhase(cfg, v, ALL_LAND).log;
    CommitlessIsUnattested(log, |v.log|);
  }

  lemma CommitlessIsUnattested(log: seq<Entry>, i: nat)
    requires i < |log| && log[i].Recorded? && log[i].commit.None?
    ensures !RecordsAttested(log)
  {
    assert i > 0 ==> !Attests(log[i - 1], log[i].name, log[i].state, log[i].commit);
  }

  // So does the hypothesis on names: an Update whose name was lost is found again by the next
  // creation of that name, and its outcome is recorded for that creation's commit. Names keep eight
  // characters of a commit, so the two may differ.
  lemma ReusedNameMisleads(cfg: Config, w: World, commit: string)
    requires Watched(w) && w.stack.spec.verification.None? && w.stack.status.currentUpdate.None?
    requires !IsSynced(w.stack, commit, w.now)
    requires var name := UpName(cfg.key, commit);
             name in w.updates && !Terminal(w.updates[name]) && w.updates[name].commit != Some(commit)
    ensures var name, p := UpName(cfg.key, commit), Answers(Active, commit);
            var reuse := [Read(false), DecideStep(p), CreateStep(CALM), ActStep(ALL_LAND)];
            var record := [Finish(name, None)] + [Read(false), DecideStep(p), ActStep(ALL_LAND)];
            !RecordsAttested(Run(cfg, w, reuse + record).log)
  {
    var name, p := UpName(cfg.key, commit), Answers(Active, commit);
    var reuse := [Read(false), DecideStep(p), CreateStep(CALM), ActStep(ALL_LAND)];
    RunAppend(cfg, w, reuse, [Finish(name, None)] + [Read(false), DecideStep(p), ActStep(ALL_LAND)]);
    RunOf4(cfg, w, reuse);
    RunDecides(cfg, w, p);
    DecidesToStart(w, p, commit);
    Reuses(cfg, Concluded(w, p), commit);
    RecordsWrongCommit(cfg, Run(cfg, w, reuse), name, p);
  }

  lemma Reuses(cfg: Config, v: World, commit: string)
    requires v.phase == Creating(v.stack, Some(commit)) && v.stack.finalizer && !v.stack.Deleting()
    requires UpName(cfg.key, commit) in v.updates && !Terminal(v.updates[UpName(cfg.key, commit)])
    ensures var v', name := Step(cfg, Step(cfg, v, CreateStep(CALM)), ActStep(ALL_LAND)), UpName(cfg.key, commit);
            && Watched(v') && v'.stack.spec == v.stack.spec && v'.stack.CurrentName() == Some(name)
            && v'.updates == v.updates && v'.actor.lastCommit == Some(commit)
  {
    var c := CreatePhase(cfg, v, CALM);
    assert c.phase == Acting(v.stack, UpdateCreated(UpName(cfg.key, commit))) && c.updates == v.updates;
  }

  lemma RecordsWrongCommit(cfg: Config, w: World, name: string, p: Probe)
    requires Watched(w) && w.stack.spec.verification.None? && !p.checkFails
    requires w.stack.CurrentName() == Some(name) && name in w.updates && !Terminal(w.updates[name])
    requires w.updates[name].commit != w.actor.lastCommit
    ensures var record := [Finish(name, None)] + [Read(false), DecideStep(p), ActStep(ALL_LAND)];
            !RecordsAttested(Run(cfg, w, record).log)
  {
    RunAppend(cfg, w, [Finish(name, None)], [Read(false), DecideStep(p), ActStep(ALL_LAND)]);
    RunOf1(cfg, w, Finish(name, None));
    Succeeds(w, name);
    var w1 := Environment(w, Finish(name, None));
    RunActs(cfg, w1, p, ALL_LAND);
    DecidesSucceeded(w1, name, p);
    WrongCommitIsUnattested(cfg, Concluded(w1, p), name, w1.updates[name]);
  }

  lemma WrongCommitIsUnattested(cfg: Config, v: World, name: string, u: Update)
    requires v.phase.Acting? && v.phase.action == UpdateSucceeded(name)
    requires v.log != [] && v.log[|v.log| - 1] == Saw(v.now, name, u) && u.commit != v.actor.lastCommit
    ensures !RecordsAttested(ActPhase(cfg, v, ALL_LAND).log)
  {
    var e := Recorded(v.now, name, RunSucceeded, v.actor.lastCommit, 0);
    assert Outcomes(v, ALL_LAND) == [e];
    var log := v.log + [e];
    assert log[|v.log|] == e && log[|v.log| - 1] == v.log[|v.log| - 1];
    assert !Attests(log[|v.log| - 1], e.name, e.state, e.commit);
  }
}
