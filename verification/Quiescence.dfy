/**
 Quiescence: what may start another Update once an outcome has been recorded and nothing about
 the Stack changes.
 */
module Quiescence {
  import opened Basics
  import opened Time
  import opened LockStreak
  import opened Api
  import opened UpdateCheck
  import opened Sync
  import opened Pipeline
  import opened Actions
  import opened Lifecycle
  import C = Commits
  import O = OneInFlight

  // Nobody touches the Stack, and the source resolves to this commit whenever it resolves.
  predicate Steady(es: seq<Event>, commit: string) {
    forall i :: 0 <= i < |es| ==> SteadyEvent(es[i], commit)
  }

  predicate SteadyEvent(e: Event, commit: string) {
    && !e.Edit? && !e.Delete?
    && (e.DecideStep? && e.probe.source.Ok? ==> e.probe.source.value == commit)
  }

  // An outcome of the present generation is recorded and no Update is outstanding.
  predicate Concludes(stack: Stack) {
    && !stack.Deleting() && stack.spec.verification.None?
    && stack.CurrentName().None?
    && stack.status.lastUpdate.Some?
    && stack.status.lastUpdate.value.generation == stack.generation
  }

  predicate AtRest(stack: Stack) {
    Concludes(stack) && stack.status.lastUpdate.value.reconcileRequest == stack.annotation
  }

  // ------------------------------------------------- silence after a success

  // A success of the commit is recorded, and resync is not asked for.
  predicate SucceededWith(stack: Stack, commit: string) {
    && Concludes(stack) && !stack.spec.continueResync
    && stack.status.lastUpdate.value.state == Some(RunSucceeded)
    && stack.status.lastUpdate.value.lastSuccessfulCommit == Some(commit)
  }

  predicate Settled(stack: Stack, commit: string) {
    && AtRest(stack)
    && stack.status.lastUpdate.value.state == Some(RunSucceeded)
    && stack.status.lastUpdate.value.lastSuccessfulCommit == Some(commit)
  }

  predicate Silent(w: World, commit: string) {
    && Settled(w.stack, commit) && !w.stack.spec.continueResync
    && match w.phase
       case Idle => true
       case HasRead(snap) => snap == w.stack.(finalizer := snap.finalizer)
       case Creating(_, _) => false
       case Acting(_, a) => a == AddFinalizer || a == Synced
  }

  predicate NothingCreated(log: seq<Entry>, lo: nat) {
    forall i :: lo <= i < |log| ==> !log[i].Created?
  }

  lemma SilentStep(cfg: Config, w: World, e: Event, commit: string)
    requires Silent(w, commit) && SteadyEvent(e, commit)
    ensures Silent(Step(cfg, w, e), commit)
    ensures |w.log| <= |Step(cfg, w, e).log| && Step(cfg, w, e).log[..|w.log|] == w.log
    ensures NothingCreated(Step(cfg, w, e).log, |w.log|)
  {
    match e
    case DecideStep(p) => SilentDecide(w, p, commit);
    case CreateStep(_) =>
    case ActStep(f) => SilentAct(cfg, w, f, commit);
    case Read(_) =>
    case _ => SilentEnvironment(w, e, commit);
  }

  ghost predicate StaysSilent(w: World, w': World, commit: string) {
    Silent(w', commit) && |w.log| <= |w'.log| && w'.log[..|w.log|] == w.log && NothingCreated(w'.log, |w.log|)
  }

  lemma SilentDecide(w: World, p: Probe, commit: string)
    requires Silent(w, commit) && SteadyEvent(DecideStep(p), commit)
    ensures StaysSilent(w, DecidePhase(w, p), commit)
  {
    if w.phase.HasRead? {
      SilentDecision(w.updates, w.phase.snap, w.now, p, commit);
    }
  }

  lemma SilentAct(cfg: Config, w: World, f: ActFaults, commit: string)
    requires Silent(w, commit)
    ensures StaysSilent(w, ActPhase(cfg, w, f), commit)
  {}

  lemma SilentEnvironment(w: World, e: Event, commit: string)
    requires Silent(w, commit) && SteadyEvent(e, commit) && (IsEnvironment(e) || e.Restart?)
    ensures StaysSilent(w, Environment(w, e), commit)
  {}

  lemma SilentDecision(us: Updates, snap: Stack, now: nat, p: Probe, commit: string)
    requires Settled(snap, commit) && !snap.spec.continueResync
    requires p.source.Ok? ==> p.source.value == commit
    ensures var d := Decide(us, snap, now, p);
            d.Erred? || d == Decided(AddFinalizer) || d == Decided(Synced)
  {}

  // After a recorded success with generation, commit and annotation unchanged and no resync asked
  // for, no sequence of triggers, errors, lost patches, outside deletions or restarts creates
  // another Update.
  lemma {:induction false} SilenceAfterSuccess(cfg: Config, w: World, es: seq<Event>, commit: string)
    requires w.phase == Idle && Settled(w.stack, commit) && !w.stack.spec.continueResync
    requires Steady(es, commit)
    ensures var w' := Run(cfg, w, es);
            && Silent(w', commit)
            && |w.log| <= |w'.log| && NothingCreated(w'.log, |w.log|)
  {
    if es != [] {
      var k := |es| - 1;
      SilenceAfterSuccess(cfg, w, es[..k], commit);
      var v := Run(cfg, w, es[..k]);
      SilentStep(cfg, v, es[k], commit);
      var w' := Run(cfg, w, es);
      forall i | |w.log| <= i < |w'.log| ensures !w'.log[i].Created? {
        if i < |v.log| { assert w'.log[i] == w'.log[..|v.log|][i] == v.log[i]; }
      }
    }
  }

  // No write of the operator sets reconcileRequest.
  lemma {:induction false} RequestNeverRecorded(cfg: Config, w: World, es: seq<Event>)
    requires Initial(w)
    ensures var last := Run(cfg, w, es).stack.status.lastUpdate; last.Some? ==> last.value.reconcileRequest.None?
  {
    if es != [] {
      var k := |es| - 1;
      RequestNeverRecorded(cfg, w, es[..k]);
      RequestStaysUnset(cfg, Run(cfg, w, es[..k]), es[k]);
    }
  }

  lemma RequestStaysUnset(cfg: Config, w: World, e: Event)
    requires w.stack.status.lastUpdate.Some? ==> w.stack.status.lastUpdate.value.reconcileRequest.None?
    ensures var last := Step(cfg, w, e).stack.status.lastUpdate; last.Some? ==> last.value.reconcileRequest.None?
  {
    match e
    case ActStep(f) =>
    case DecideStep(p) =>
      if w.phase.HasRead? { StatusOutlivesDecision(w, w.phase.snap, p, Decide(w.updates, w.phase.snap, w.now, p)); }
    case CreateStep(f) =>
    case _ =>
  }

  lemma StatusOutlivesDecision(w: World, snap: Stack, p: Probe, d: Decision)
    ensures AfterDecision(w.(log := w.log + Observed(w, snap, p)), snap, d).stack == w.stack
  {}

  ghost predicate Quiescent(cfg: Config, w: World, commit: string) {
    forall es :: Steady(es, commit) ==> NothingCreated(Run(cfg, w, es).log, |w.log|)
  }

  // After a recorded success, in any reachable state, no steady run creates another Update exactly
  // when the Stack does not carry the reconcile-request annotation.
  lemma QuiescentExactlyUnannotated(cfg: Config, w0: World, es0: seq<Event>, commit: string)
    requires Initial(w0)
    requires var w := Run(cfg, w0, es0); w.phase == Idle && SucceededWith(w.stack, commit)
    ensures var w := Run(cfg, w0, es0); w.stack.annotation.None? <==> Quiescent(cfg, w, commit)
  {
    var w := Run(cfg, w0, es0);
    RequestNeverRecorded(cfg, w0, es0);
    if w.stack.annotation.None? {
      forall es | Steady(es, commit) ensures NothingCreated(Run(cfg, w, es).log, |w.log|) {
        SilenceAfterSuccess(cfg, w, es, commit);
      }
    } else {
      var es := AnnotationCreates(cfg, w, commit);
    }
  }

  // An annotated Stack starts the same Update over, as often as it is reconciled.
  lemma AnnotationCreates(cfg: Config, w: World, commit: string) returns (es: seq<Event>)
    requires w.phase == Idle && Concludes(w.stack)
    requires w.stack.annotation.Some? && w.stack.status.lastUpdate.value.reconcileRequest.None?
    ensures Steady(es, commit) && !NothingCreated(Run(cfg, w, es).log, |w.log|)
  {
    var p := O.Answers(Active, commit);
    var create := [Read(false), DecideStep(p), CreateStep(CALM)];
    if w.stack.finalizer {
      es := create;
      StaleRequestCreates(cfg, w, commit);
    } else {
      var adopt := [Read(false), DecideStep(p), ActStep(ALL_LAND)];
      es := adopt + create;
      RunAppend(cfg, w, adopt, create);
      FinalizerAdded(cfg, w, p);
      var v := Run(cfg, w, adopt);
      StaleRequestCreates(cfg, v, commit);
    }
  }

  lemma FinalizerAdded(cfg: Config, w: World, p: Probe)
    requires w.phase == Idle && Concludes(w.stack) && !w.stack.finalizer
    ensures var v := Run(cfg, w, [Read(false), DecideStep(p), ActStep(ALL_LAND)]);
            v.phase == Idle && v.stack == w.stack.(finalizer := true) && |v.log| >= |w.log|
  {
    RunActs(cfg, w, p, ALL_LAND);
    assert Concluded(w, p).phase == Acting(w.stack, AddFinalizer) && Concluded(w, p).stack == w.stack;
  }

  lemma StaleRequestCreates(cfg: Config, w: World, commit: string)
    requires w.phase == Idle && Concludes(w.stack) && w.stack.finalizer
    requires w.stack.status.lastUpdate.value.reconcileRequest != w.stack.annotation
    ensures var log := Run(cfg, w, [Read(false), DecideStep(O.Answers(Active, commit)), CreateStep(CALM)]).log;
            |log| > |w.log| && log[|log| - 1].Created?
  {
    var p := O.Answers(Active, commit);
    RunOf3(cfg, w, [Read(false), DecideStep(p), CreateStep(CALM)]);
    RunDecides(cfg, w, p);
    UnsyncedIsCreated(w, p, commit);
    CalmCreates(cfg, Concluded(w, p));
  }

  lemma UnsyncedIsCreated(w: World, p: Probe, commit: string)
    requires w.phase == Idle && w.stack.finalizer && !w.stack.Deleting() && w.stack.spec.verification.None?
    requires w.stack.CurrentName().Some? ==> w.stack.CurrentName().value !in w.updates
    requires !IsSynced(w.stack, commit, w.now) && p == O.Answers(Active, commit)
    ensures var v := Concluded(w, p);
            && v.phase == Creating(w.stack, Some(commit)) && v.now == w.now
            && v.log == w.log + [ProjectChecked(w.now, NotConfigured), Passed(w.now, w.stack, p, None)]
  {}

  // With no call failing, a creation goes through whatever is there under its name.
  lemma CalmCreates(cfg: Config, w: World)
    requires w.phase.Creating? && w.phase.commit.Some?
    ensures var v, name := CreatePhase(cfg, w, CALM), UpName(cfg.key, w.phase.commit.value);
            && v.phase == Acting(w.phase.snap, UpdateCreated(name)) && v.now == w.now
            && |v.log| == |w.log| + 1 && v.log[..|w.log|] == w.log && v.log[|w.log|].Created?
  {}

  // ------------------------------------------------ pacing of later Updates

  // What the history says: an outcome recorded and nothing since, or an Update under way.
  datatype Rhythm = Resting(at: nat, state: RunState, failures: int) | Busy(name: string)

  function RhythmOf(base: Rhythm, log: seq<Entry>): Rhythm {
    if log == [] then base
    else
      var before, e := RhythmOf(base, log[..|log| - 1]), log[|log| - 1];
      if e.Created? then Busy(e.name)
      else if e.Recorded? && before.Busy? then Resting(e.at, e.state, e.failures)
      else before
  }

  // After a success another Update waits for the resync period, and needs resync to be asked for;
  // after a failure it waits for the cooldown.
  predicate IsDue(r: Rhythm, spec: Spec, now: nat) {
    && r.Resting?
    && if r.state == RunSucceeded then spec.continueResync && now >= r.at + ResyncPeriod(spec)
       else r.state == RunFailed && now >= r.at + Cooldown(r.failures, spec)
  }

  predicate CreationsAreDue(base: Rhythm, log: seq<Entry>) {
    forall j :: 0 <= j < |log| && log[j].Created? ==> IsDue(RhythmOf(base, log[..j]), log[j].snap.spec, log[j].at)
  }

  // The status says what the rhythm says.
  predicate Rests(stack: Stack, r: Rhythm, commit: string) {
    && r.Resting? && AtRest(stack)
    && (var l := stack.status.lastUpdate.value;
        && l.lastResyncTime == Some(At(r.at))
        && l.state == Some(r.state)
        && ((r.state == RunSucceeded && l.lastSuccessfulCommit == Some(commit))
            || (r.state == RunFailed && l.lastAttemptedCommit == Some(commit) && l.failures == r.failures)))
  }

  predicate PlainStack(stack: Stack) {
    !stack.Deleting() && stack.spec.verification.None? && stack.annotation.None?
  }

  predicate Working(a: Action, n: string) {
    match a
    case AddFinalizer => true
    case WaitForUpdate(_) => true
    case UpdateSucceeded(m) => m == n
    case UpdateFailed(m, _) => m == n
    case _ => false
  }

  predicate Idling(a: Action) {
    match a
    case AddFinalizer => true
    case Synced => true
    case WaitForWorkspace => true
    case _ => false
  }

  predicate RhythmMatches(w: World, r: Rhythm, commit: string) {
    match r
    case Resting(at, _, _) =>
      && at <= w.now && Rests(w.stack, r, commit)
      && (w.phase.Creating? ==> w.phase.commit == Some(commit) && IsDue(r, w.stack.spec, w.now))
      && (w.phase.Acting? ==> Idling(w.phase.action))
    case Busy(n) =>
      && n in w.updates && w.actor.lastCommit == Some(commit)
      && !w.phase.Creating?
      && (if w.phase.Acting? && w.phase.action.UpdateCreated? then w.phase.action.name == n
          else w.stack.CurrentName() == Some(n) && (w.phase.Acting? ==> Working(w.phase.action, n)))
  }

  ghost predicate Rhythmic(w: World, base: Rhythm, lo: nat, commit: string) {
    && lo <= |w.log|
    && PlainStack(w.stack)
    && (w.stack.status.lastUpdate.Some? ==> w.stack.status.lastUpdate.value.reconcileRequest.None?)
    && (!w.phase.Idle? ==> w.phase.snap == w.stack.(finalizer := w.phase.snap.finalizer))
    && RhythmMatches(w, RhythmOf(base, w.log[lo..]), commit)
    && CreationsAreDue(base, w.log[lo..])
  }

  // Between the creation of an Update and the record of its outcome: its name is written, the
  // operator does not restart, and nobody else deletes it.
  predicate LeavesAlone(w: World, e: Event) {
    && O.NamesCreations(w, e)
    && (w.phase.Acting? && w.phase.action.UpdateCreated? && e.OutsideDelete? ==> e.name != w.phase.action.name)
    && (w.stack.CurrentName().Some? && w.stack.CurrentName().value in w.updates ==>
          !e.Restart? && (e.OutsideDelete? ==> e.name != w.stack.CurrentName().value))
    && (RecordsDeleted(w) ==> !LosesWrite(e))
  }

  // About to record the outcome of an Update somebody has begun to delete.
  predicate RecordsDeleted(w: World) {
    && w.phase.Acting? && (w.phase.action.UpdateSucceeded? || w.phase.action.UpdateFailed?)
    && w.phase.action.name in w.updates && w.updates[w.phase.action.name].deleting
  }

  predicate Undisturbed(w: World, e: Event, commit: string) {
    SteadyEvent(e, commit) && LeavesAlone(w, e)
  }

  lemma RhythmStep(base: Rhythm, log: seq<Entry>, e: Entry)
    requires CreationsAreDue(base, log)
    requires e.Created? ==> IsDue(RhythmOf(base, log), e.snap.spec, e.at)
    ensures CreationsAreDue(base, log + [e])
    ensures RhythmOf(base, log + [e]) ==
              if e.Created? then Busy(e.name)
              else if e.Recorded? && RhythmOf(base, log).Busy? then Resting(e.at, e.state, e.failures)
              else RhythmOf(base, log)
  {
    assert (log + [e])[..|log|] == log;
    forall j | 0 <= j < |log + [e]| && (log + [e])[j].Created?
      ensures IsDue(RhythmOf(base, (log + [e])[..j]), (log + [e])[j].snap.spec, (log + [e])[j].at)
    {
      assert (log + [e])[..j] == log[..j];
      if j == |log| { assert log[..j] == log; }
    }
  }

  lemma {:induction false} RhythmSkips(base: Rhythm, log: seq<Entry>, more: seq<Entry>)
    requires CreationsAreDue(base, log)
    requires forall i :: 0 <= i < |more| ==> !more[i].Created? && !more[i].Recorded?
    ensures CreationsAreDue(base, log + more) && RhythmOf(base, log + more) == RhythmOf(base, log)
  {
    if more == [] {
      assert log + more == log;
    } else {
      var k := |more| - 1;
      RhythmSkips(base, log, more[..k]);
      RhythmStep(base, log + more[..k], more[k]);
      assert log + more == log + more[..k] + [more[k]];
    }
  }

  // What the decision chain can conclude in either rhythm.
  lemma RestingDecision(us: Updates, snap: Stack, now: nat, p: Probe, r: Rhythm, commit: string)
    requires Rests(snap, r, commit) && r.at <= now
    requires p.source.Ok? ==> p.source.value == commit
    ensures match Decide(us, snap, now, p)
            case Decided(a) => Idling(a)
            case Erred(_) => true
            case CreateUp(c) => c == commit && IsDue(r, snap.spec, now)
            case CreateDestroy => false
  {}

  lemma BusyDecision(us: Updates, snap: Stack, now: nat, p: Probe, n: string)
    requires PlainStack(snap) && snap.CurrentName() == Some(n) && n in us
    ensures match Decide(us, snap, now, p)
            case Decided(a) => Working(a, n)
            case Erred(_) => true
            case CreateUp(_) => false
            case CreateDestroy => false
  {}

  predicate Allowed(r: Rhythm, snap: Stack, now: nat, commit: string, d: Decision) {
    match d
    case Decided(a) => if r.Resting? then Idling(a) else Working(a, r.name)
    case Erred(_) => true
    case CreateUp(c) => c == commit && IsDue(r, snap.spec, now)
    case CreateDestroy => false
  }

  lemma RhythmicDecision(w: World, snap: Stack, p: Probe, base: Rhythm, lo: nat, commit: string)
    requires Rhythmic(w, base, lo, commit) && w.phase == HasRead(snap)
    requires p.source.Ok? ==> p.source.value == commit
    ensures Allowed(RhythmOf(base, w.log[lo..]), snap, w.now, commit, Decide(w.updates, snap, w.now, p))
  {
    var r := RhythmOf(base, w.log[lo..]);
    if r.Resting? {
      RestingDecision(w.updates, snap, w.now, p, r, commit);
    } else {
      BusyDecision(w.updates, snap, w.now, p, r.name);
    }
  }

  lemma RhythmicAfterDecision(w: World, snap: Stack, d: Decision, more: seq<Entry>,
                              base: Rhythm, lo: nat, commit: string)
    requires Rhythmic(w, base, lo, commit) && w.phase == HasRead(snap)
    requires Allowed(RhythmOf(base, w.log[lo..]), snap, w.now, commit, d)
    requires forall i :: 0 <= i < |more| ==> !more[i].Created? && !more[i].Recorded?
    ensures Rhythmic(AfterDecision(w.(log := w.log + more), snap, d), base, lo, commit)
  {
    RhythmSkips(base, w.log[lo..], more);
    assert (w.log + more)[lo..] == w.log[lo..] + more;
  }

  lemma RhythmicDecide(cfg: Config, w: World, p: Probe, base: Rhythm, lo: nat, commit: string)
    requires Rhythmic(w, base, lo, commit) && SteadyEvent(DecideStep(p), commit)
    ensures Rhythmic(Step(cfg, w, DecideStep(p)), base, lo, commit)
  {
    if w.phase.HasRead? {
      var snap := w.phase.snap;
      RhythmicDecision(w, snap, p, base, lo, commit);
      RhythmicAfterDecision(w, snap, Decide(w.updates, snap, w.now, p), Observed(w, snap, p), base, lo, commit);
    }
  }

  lemma RhythmicCreate(cfg: Config, w: World, f: CreateFaults, base: Rhythm, lo: nat, commit: string)
    requires Rhythmic(w, base, lo, commit)
    ensures Rhythmic(Step(cfg, w, CreateStep(f)), base, lo, commit)
  {
    if w.phase.Creating? {
      var u := NewUpdate(w.phase.snap, commit, w.now);
      var (us, r) := CreateUpdate(w.updates, UpName(cfg.key, commit), u, f);
      assert r.Ok? ==> r.value in us;
      RhythmicAfterCreate(w, us, r, u, base, lo, commit);
    }
  }

  lemma RhythmicAfterCreate(w: World, us: Updates, r: Result<string, Recovery>, u: Update,
                            base: Rhythm, lo: nat, commit: string)
    requires Rhythmic(w, base, lo, commit) && w.phase.Creating?
    requires u.commit == Some(commit) && (r.Ok? ==> r.value in us)
    ensures Rhythmic(AfterCreate(w.(updates := us), r, u, w.phase.snap), base, lo, commit)
  {
    if r.Ok? {
      var e := Created(w.now, r.value, u.kind, w.phase.snap, w.stack);
      RhythmStep(base, w.log[lo..], e);
      assert (w.log + [e])[lo..] == w.log[lo..] + [e];
    }
  }

  lemma RhythmicAct(cfg: Config, w: World, f: ActFaults, base: Rhythm, lo: nat, commit: string)
    requires Rhythmic(w, base, lo, commit) && LeavesAlone(w, ActStep(f))
    ensures Rhythmic(Step(cfg, w, ActStep(f)), base, lo, commit)
  {
    if w.phase.Acting? {
      var a, more := w.phase.action, Outcomes(w, f);
      assert (w.log + more)[lo..] == w.log[lo..] + more;
      if (a.UpdateSucceeded? || a.UpdateFailed?) && f.patchLands {
        assert more == [more[0]] && more[0].Recorded?;
        RhythmStep(base, w.log[lo..], more[0]);
        RhythmicActRecords(cfg, w, f, base, lo, commit);
      } else {
        RhythmSkips(base, w.log[lo..], more);
        RhythmicActQuietly(cfg, w, f, base, lo, commit);
      }
    }
  }

  lemma RhythmicActQuietly(cfg: Config, w: World, f: ActFaults, base: Rhythm, lo: nat, commit: string)
    requires Rhythmic(w, base, lo, commit) && LeavesAlone(w, ActStep(f)) && w.phase.Acting?
    requires w.phase.action.UpdateSucceeded? || w.phase.action.UpdateFailed? ==> !f.patchLands
    requires var log := (w.log + Outcomes(w, f))[lo..];
             RhythmOf(base, log) == RhythmOf(base, w.log[lo..]) && CreationsAreDue(base, log)
    ensures Rhythmic(ActPhase(cfg, w, f), base, lo, commit)
  {}

  // Recording an outcome is what brings a Stack to rest, so the results above start there.
  lemma RecordingRests(cfg: Config, w: World, f: ActFaults, commit: string)
    requires w.phase.Acting? && (w.phase.action.UpdateSucceeded? || w.phase.action.UpdateFailed?)
    requires f.patchLands && w.actor.lastCommit == Some(commit)
    requires PlainStack(w.stack) && w.phase.snap == w.stack.(finalizer := w.phase.snap.finalizer)
    requires w.stack.status.lastUpdate.Some? ==> w.stack.status.lastUpdate.value.reconcileRequest.None?
    ensures var w' := ActPhase(cfg, w, f);
            var e := w'.log[|w.log|];
            && w'.phase == Idle && PlainStack(w'.stack) && w'.log == w.log + [e] && e.Recorded? && e.at == w.now
            && Rests(w'.stack, Resting(e.at, e.state, e.failures), commit)
            && (e.state == RunSucceeded ==> Settled(w'.stack, commit))
            && w'.stack.status.lastUpdate.value.reconcileRequest.None?
  {
    assert Outcomes(w, f) == [Outcomes(w, f)[0]];
  }

  lemma RhythmicActRecords(cfg: Config, w: World, f: ActFaults, base: Rhythm, lo: nat, commit: string)
    requires Rhythmic(w, base, lo, commit) && f.patchLands && w.phase.Acting?
    requires w.phase.action.UpdateSucceeded? || w.phase.action.UpdateFailed?
    requires var e := Outcomes(w, f)[0];
             && (w.log + Outcomes(w, f))[lo..] == w.log[lo..] + [e]
             && RhythmOf(base, w.log[lo..] + [e]) == Resting(e.at, e.state, e.failures)
             && CreationsAreDue(base, w.log[lo..] + [e])
    ensures Rhythmic(ActPhase(cfg, w, f), base, lo, commit)
  {
    RecordingRests(cfg, w, f, commit);
  }

  lemma RhythmicStep(cfg: Config, w: World, e: Event, base: Rhythm, lo: nat, commit: string)
    requires Rhythmic(w, base, lo, commit) && Undisturbed(w, e, commit)
    ensures Rhythmic(Step(cfg, w, e), base, lo, commit)
  {
    match e
    case Read(_) =>
    case DecideStep(p) => RhythmicDecide(cfg, w, p, base, lo, commit);
    case CreateStep(f) => RhythmicCreate(cfg, w, f, base, lo, commit);
    case ActStep(f) => RhythmicAct(cfg, w, f, base, lo, commit);
    case Restart =>
    case _ => RhythmicEnvironment(cfg, w, e, base, lo, commit);
  }

  lemma RhythmicEnvironment(cfg: Config, w: World, e: Event, base: Rhythm, lo: nat, commit: string)
    requires Rhythmic(w, base, lo, commit) && Undisturbed(w, e, commit) && IsEnvironment(e)
    ensures Rhythmic(Step(cfg, w, e), base, lo, commit)
  {
    EnvironmentFrame(w, e);
    assert forall n :: n in w.updates && !(e.OutsideDelete? && n == e.name) ==> n in Environment(w, e).updates;
  }

  ghost predicate UndisturbedRun(cfg: Config, w: World, es: seq<Event>, commit: string) {
    Steady(es, commit) && Throughout(cfg, w, es, LeavesAlone)
  }

  lemma {:induction false} RhythmicRun(cfg: Config, w: World, es: seq<Event>, base: Rhythm, commit: string)
    requires w.phase == Idle && PlainStack(w.stack) && Rests(w.stack, base, commit) && base.at <= w.now
    requires UndisturbedRun(cfg, w, es, commit)
    ensures Rhythmic(Run(cfg, w, es), base, |w.log|, commit)
  {
    if es == [] {
      assert w.log[|w.log|..] == [];
    } else {
      var k := |es| - 1;
      ThroughoutInit(cfg, w, es, LeavesAlone);
      RhythmicRun(cfg, w, es[..k], base, commit);
      RhythmicStep(cfg, Run(cfg, w, es[..k]), es[k], base, |w.log|, commit);
    }
  }

  // ------------------------------------------------------------ the result

  predicate Permits(outcome: Entry, later: Entry) {
    && outcome.Recorded? && later.Created?
    && IsDue(Resting(outcome.at, outcome.state, outcome.failures), later.snap.spec, later.at)
  }

  lemma {:induction false} RhythmWitness(base: Rhythm, log: seq<Entry>, i: nat)
    requires i < |log| && log[i].Created?
    ensures var r := RhythmOf(base, log);
            r.Resting? ==>
              exists m :: i < m < |log| && log[m].Recorded? && r == Resting(log[m].at, log[m].state, log[m].failures)
    decreases |log|
  {
    var k := |log| - 1;
    var r := RhythmOf(base, log);
    if i < k && r.Resting? {
      RhythmWitness(base, log[..k], i);
      if RhythmOf(base, log[..k]) == r {
        var m :| i < m < k && log[..k][m].Recorded?
                 && r == Resting(log[..k][m].at, log[..k][m].state, log[..k][m].failures);
        assert log[m] == log[..k][m];
      } else {
        assert log[k].Recorded? && r == Resting(log[k].at, log[k].state, log[k].failures);
      }
    }
  }

  lemma DueCreationsAreExplained(base: Rhythm, log: seq<Entry>, i: nat, j: nat)
    requires CreationsAreDue(base, log) && i < j < |log| && log[i].Created? && log[j].Created?
    ensures exists m :: i < m < j && Permits(log[m], log[j])
  {
    var before := log[..j];
    assert IsDue(RhythmOf(base, before), log[j].snap.spec, log[j].at);
    assert before[i] == log[i];
    RhythmWitness(base, before, i);
    var m :| i < m < j && before[m].Recorded?
             && RhythmOf(base, before) == Resting(before[m].at, before[m].state, before[m].failures);
    assert before[m] == log[m];
    assert Permits(log[m], log[j]);
  }

  // On an untouched Stack any two creations have a recorded outcome between them that permits the
  // later one: a success a resync period ago, with resync asked for, or a failure a cooldown ago.
  lemma CreationsArePaced(cfg: Config, w: World, es: seq<Event>, base: Rhythm, commit: string, i: nat, j: nat)
    requires w.phase == Idle && PlainStack(w.stack) && Rests(w.stack, base, commit) && base.at <= w.now
    requires UndisturbedRun(cfg, w, es, commit)
    requires |w.log| <= i < j < |Run(cfg, w, es).log|
    requires Run(cfg, w, es).log[i].Created? && Run(cfg, w, es).log[j].Created?
    ensures var log := Run(cfg, w, es).log;
            exists m :: i < m < j && Permits(log[m], log[j])
  {
    RhythmicRun(cfg, w, es, base, commit);
    var log, lo := Run(cfg, w, es).log, |w.log|;
    SuffixExplained(base, log, lo, i, j);
  }

  lemma SuffixExplained(base: Rhythm, log: seq<Entry>, lo: nat, i: nat, j: nat)
    requires lo <= i < j < |log| && CreationsAreDue(base, log[lo..]) && log[i].Created? && log[j].Created?
    ensures exists m :: i < m < j && Permits(log[m], log[j])
  {
    var tail := log[lo..];
    assert tail[i - lo] == log[i] && tail[j - lo] == log[j];
    DueCreationsAreExplained(base, tail, i - lo, j - lo);
    var m :| i - lo < m < j - lo && Permits(tail[m], tail[j - lo]);
    assert tail[m] == log[lo + m];
  }

  // The first creation is permitted by the outcome the run started from.
  lemma FirstCreationIsDue(cfg: Config, w: World, es: seq<Event>, base: Rhythm, commit: string, j: nat)
    requires w.phase == Idle && PlainStack(w.stack) && Rests(w.stack, base, commit) && base.at <= w.now
    requires UndisturbedRun(cfg, w, es, commit)
    requires |w.log| <= j < |Run(cfg, w, es).log| && Run(cfg, w, es).log[j].Created?
    requires forall i :: |w.log| <= i < j ==> !Run(cfg, w, es).log[i].Created?
    ensures IsDue(base, Run(cfg, w, es).log[j].snap.spec, Run(cfg, w, es).log[j].at)
  {
    RhythmicRun(cfg, w, es, base, commit);
    SuffixStarts(base, Run(cfg, w, es).log, |w.log|, j);
  }

  lemma SuffixStarts(base: Rhythm, log: seq<Entry>, lo: nat, j: nat)
    requires base.Resting? && lo <= j < |log| && CreationsAreDue(base, log[lo..]) && log[j].Created?
    requires forall i :: lo <= i < j ==> !log[i].Created?
    ensures IsDue(base, log[j].snap.spec, log[j].at)
  {
    var tail := log[lo..];
    assert tail[j - lo] == log[j];
    var before := tail[..j - lo];
    forall i | 0 <= i < |before| ensures !before[i].Created? {
      assert before[i] == log[lo + i];
    }
    NothingHappened(base, before);
  }

  lemma {:induction false} NothingHappened(base: Rhythm, log: seq<Entry>)
    requires base.Resting? && forall i :: 0 <= i < |log| ==> !log[i].Created?
    ensures RhythmOf(base, log) == base
  {
    if log != [] { NothingHappened(base, log[..|log| - 1]); }
  }

  // The restart hypothesis carries weight: the success of an Update that outlives a restart is
  // recorded without its commit, so the next reconcile starts another for that commit at once.
  lemma RestartRepeats(cfg: Config, w: World, name: string, commit: string)
    requires O.Watched(w) && w.stack.spec.verification.None?
    requires w.stack.CurrentName() == Some(name) && name in w.updates
    requires CheckStatus(w.updates[name].status) == Succeeded
    ensures var p := O.Answers(Active, commit);
            var record := [Restart] + [Read(false), DecideStep(p), ActStep(ALL_LAND)];
            var again := [Read(false), DecideStep(p), CreateStep(CALM)];
            var v := Run(cfg, w, record + again);
            && v.log != [] && v.log[|v.log| - 1].Created? && v.phase.Acting?
            && v.phase.snap.status.lastUpdate.Some? && v.phase.snap.status.lastUpdate.value.name == Some(name)
            && v.phase.snap.status.lastUpdate.value.state == Some(RunSucceeded)
  {
    var p := O.Answers(Active, commit);
    var record := [Restart] + [Read(false), DecideStep(p), ActStep(ALL_LAND)];
    var again := [Read(false), DecideStep(p), CreateStep(CALM)];
    RunAppend(cfg, w, record, again);
    C.RestartLosesCommit(cfg, w, name, p);
    var v := Run(cfg, w, record);
    RunOf3(cfg, v, again);
    RunDecides(cfg, v, p);
    UnsyncedIsCreated(v, p, commit);
    assert Concluded(v, p).phase.snap == v.stack;
    CalmCreates(cfg, Concluded(v, p));
  }

  // A reconcile that finds no Update under the name the status holds creates one, with nothing
  // recorded in between.
  lemma AbsentRepeats(cfg: Config, w: World, commit: string)
    requires O.Watched(w) && w.stack.spec.verification.None? && !IsSynced(w.stack, commit, w.now)
    requires w.stack.CurrentName().Some? ==> w.stack.CurrentName().value !in w.updates
    ensures var log := Run(cfg, w, [Read(false), DecideStep(O.Answers(Active, commit)), CreateStep(CALM)]).log;
            && |log| == |w.log| + 3 && log[..|w.log|] == w.log
            && !log[|w.log|].Recorded? && !log[|w.log| + 1].Recorded? && log[|w.log| + 2].Created?
  {
    var p := O.Answers(Active, commit);
    RunOf3(cfg, w, [Read(false), DecideStep(p), CreateStep(CALM)]);
    RunDecides(cfg, w, p);
    UnsyncedIsCreated(w, p, commit);
    CalmCreates(cfg, Concluded(w, p));
  }

  // And an Update that others delete before its outcome is recorded is replaced at once.
  lemma DeletionRepeats(cfg: Config, w: World, name: string, commit: string)
    requires O.Watched(w) && w.stack.spec.verification.None?
    requires w.stack.CurrentName() == Some(name) && !IsSynced(w.stack, commit, w.now)
    ensures var again := [Read(false), DecideStep(O.Answers(Active, commit)), CreateStep(CALM)];
            var log := Run(cfg, w, [OutsideDelete(name, true)] + again).log;
            && |log| == |w.log| + 3 && log[|w.log| + 2].Created?
            && !log[|w.log|].Recorded? && !log[|w.log| + 1].Recorded?
  {
    var again := [Read(false), DecideStep(O.Answers(Active, commit)), CreateStep(CALM)];
    RunAppend(cfg, w, [OutsideDelete(name, true)], again);
    RunOf1(cfg, w, OutsideDelete(name, true));
    AbsentRepeats(cfg, Step(cfg, w, OutsideDelete(name, true)), commit);
  }

  // So is one whose name never reached the status.
  lemma UnnamedRepeats(cfg: Config, w: World, loss: Event, commit: string)
    requires LosesWrite(loss) && w.phase.Acting? && w.phase.action.UpdateCreated?
    requires O.Watched(w.(phase := Idle)) && w.stack.spec.verification.None? && !IsSynced(w.stack, commit, w.now)
    requires w.stack.CurrentName().Some? ==> w.stack.CurrentName().value !in w.updates
    ensures var again := [Read(false), DecideStep(O.Answers(Active, commit)), CreateStep(CALM)];
            var log := Run(cfg, w, [loss] + again).log;
            && |log| == |w.log| + 3 && log[|w.log| + 2].Created?
            && !log[|w.log|].Recorded? && !log[|w.log| + 1].Recorded?
  {
    var again := [Read(false), DecideStep(O.Answers(Active, commit)), CreateStep(CALM)];
    RunAppend(cfg, w, [loss], again);
    RunOf1(cfg, w, loss);
    O.LossForgetsName(cfg, w, loss);
    AbsentRepeats(cfg, Step(cfg, w, loss), commit);
  }

  // And so is one under deletion whose outcome patch is lost, because its finalizer goes all the same.
  lemma StrippedRepeats(cfg: Config, w: World, name: string, commit: string)
    requires w.phase.Acting? && w.phase.action == UpdateSucceeded(name)
    requires name in w.updates && w.updates[name].deleting
    requires O.Watched(w.(phase := Idle)) && w.stack.spec.verification.None? && !IsSynced(w.stack, commit, w.now)
    requires w.stack.CurrentName() == Some(name)
    ensures var again := [Read(false), DecideStep(O.Answers(Active, commit)), CreateStep(CALM)];
            var log := Run(cfg, w, [ActStep(STRIPS_ONLY)] + again).log;
            && |log| == |w.log| + 3 && log[|w.log| + 2].Created?
            && !log[|w.log|].Recorded? && !log[|w.log| + 1].Recorded?
  {
    var again := [Read(false), DecideStep(O.Answers(Active, commit)), CreateStep(CALM)];
    RunAppend(cfg, w, [ActStep(STRIPS_ONLY)], again);
    RunOf1(cfg, w, ActStep(STRIPS_ONLY));
    var v := Step(cfg, w, ActStep(STRIPS_ONLY));
    assert v.stack == w.stack && v.updates == w.updates - {name} && v.log == w.log && v.now == w.now;
    AbsentRepeats(cfg, v, commit);
  }

  const STRIPS_ONLY := ActFaults(false, true, true)
}
