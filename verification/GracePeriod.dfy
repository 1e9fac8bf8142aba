/**
 The grace period of a missing project: what starts it and when it may be found expired.
 */
module GracePeriod {
  import opened Basics
  import opened Time
  import opened Api
  import opened Project
  import opened Pipeline
  import opened Actions
  import opened Lifecycle
  import O = OneInFlight

  predicate IsActiveCheck(e: Entry) {
    e.ProjectChecked? && e.verdict == Active
  }

  function LastVerdict(log: seq<Entry>): Option<Verdict> {
    if log == [] then None
    else if log[|log| - 1].ProjectChecked? then Some(log[|log| - 1].verdict)
    else LastVerdict(log[..|log| - 1])
  }

  // A first NotFound was written at time t, and no reconcile has found the project since.
  ghost predicate MissingSince(log: seq<Entry>, t: nat) {
    exists i :: 0 <= i < |log| && log[i] == GraceStarted(t) && forall j :: i < j < |log| ==> !IsActiveCheck(log[j])
  }

  ghost predicate GraceRule(before: seq<Entry>, e: Entry) {
    && (e.GraceStarted? ==> LastVerdict(before) == Some(NotFound))
    && (e.GraceExpired? ==>
          && LastVerdict(before) == Some(NotFound)
          && e.since.At? && MissingSince(before, e.since.ms)
          && e.since.ms <= e.at && e.at - e.since.ms >= GraceMs(e.days))
  }

  ghost predicate GraceRules(log: seq<Entry>) {
    forall i :: 0 <= i < |log| ==> GraceRule(log[..i], log[i])
  }

  ghost predicate Graceful(w: World) {
    && (!w.phase.Idle? ==> w.phase.snap.status == w.stack.status)
    && (w.stack.status.pendingDeletionSince.Some? && !(w.phase.Acting? && w.phase.action == ProjectReinstated) ==>
          var p := w.stack.status.pendingDeletionSince.value;
          p.At? && p.ms <= w.now && MissingSince(w.log, p.ms))
    && (w.phase.Acting? && w.phase.action == ProjectNotFound ==> LastVerdict(w.log) == Some(NotFound))
    && GraceRules(w.log)
  }

  lemma RulesExtend(log: seq<Entry>, e: Entry)
    requires GraceRules(log) && GraceRule(log, e)
    ensures GraceRules(log + [e])
  {
    forall i | 0 <= i < |log + [e]| ensures GraceRule((log + [e])[..i], (log + [e])[i]) {
      assert (log + [e])[..i] == log[..i];
      if i == |log| { assert log[..i] == log; }
    }
  }

  lemma MissingStays(log: seq<Entry>, e: Entry, t: nat)
    requires MissingSince(log, t) && !IsActiveCheck(e)
    ensures MissingSince(log + [e], t)
  {
    var i :| 0 <= i < |log| && log[i] == GraceStarted(t) && forall j :: i < j < |log| ==> !IsActiveCheck(log[j]);
    assert (log + [e])[i] == GraceStarted(t);
  }

  lemma VerdictStep(log: seq<Entry>, e: Entry)
    ensures LastVerdict(log + [e]) == if e.ProjectChecked? then Some(e.verdict) else LastVerdict(log)
  {
    assert (log + [e])[..|log|] == log;
  }

  // Entries the rules do not restrict and that report no project check.
  predicate Neutral(e: Entry) {
    !e.ProjectChecked? && !e.GraceStarted? && !e.GraceExpired?
  }

  lemma {:induction false} NeutralEntries(log: seq<Entry>, more: seq<Entry>)
    requires forall i :: 0 <= i < |more| ==> Neutral(more[i])
    ensures LastVerdict(log + more) == LastVerdict(log)
    ensures GraceRules(log) ==> GraceRules(log + more)
    ensures forall t :: MissingSince(log, t) ==> MissingSince(log + more, t)
  {
    if more == [] {
      assert log + more == log;
    } else {
      var k := |more| - 1;
      var mid := log + more[..k];
      NeutralEntries(log, more[..k]);
      assert log + more == mid + [more[k]];
      VerdictStep(mid, more[k]);
      if GraceRules(log) { RulesExtend(mid, more[k]); }
      forall t | MissingSince(log, t) ensures MissingSince(log + more, t) {
        MissingStays(mid, more[k], t);
      }
    }
  }

  // How a decision depends on the project check.
  predicate Heeds(snap: Stack, now: nat, v: Verdict, d: Decision) {
    var since := snap.status.pendingDeletionSince;
    if StackFinalizerAction(snap) == NoAction then
      && (d == Decided(ProjectTtlExpired) ==>
            v == NotFound && since.Some? && IsGraceExpired(since.value, GraceDays(snap.spec), now))
      && (d == Decided(ProjectNotFound) ==> v == NotFound)
      && (v == Active && since.Some? ==> d == Decided(ProjectReinstated))
    else d !in {Decided(ProjectTtlExpired), Decided(ProjectNotFound), Decided(ProjectReinstated)}
  }

  lemma DecisionHeeds(us: Updates, snap: Stack, now: nat, p: Probe)
    ensures Heeds(snap, now, CheckProject(snap, p.project, now), Decide(us, snap, now, p))
  {}

  function Checked(snap: Stack, now: nat, v: Verdict, d: Decision): seq<Entry> {
    if StackFinalizerAction(snap) != NoAction then []
    else
      [ProjectChecked(now, v)] +
      (if d == Decided(ProjectTtlExpired) && snap.status.pendingDeletionSince.Some?
       then [GraceExpired(now, snap.status.pendingDeletionSince.value, GraceDays(snap.spec))] else [])
  }

  lemma GraceChecked(w: World, snap: Stack, v: Verdict, d: Decision)
    requires Graceful(w) && w.phase == HasRead(snap) && Heeds(snap, w.now, v, d)
    ensures Observes(w, snap, d, w.log + Checked(snap, w.now, v, d))
  {
    var since := snap.status.pendingDeletionSince;
    if StackFinalizerAction(snap) == NoAction {
      var check := ProjectChecked(w.now, v);
      var log := w.log + [check];
      VerdictStep(w.log, check);
      RulesExtend(w.log, check);
      if v != Active && since.Some? { MissingStays(w.log, check, since.value.ms); }
      if d == Decided(ProjectTtlExpired) {
        var expired := GraceExpired(w.now, since.value, GraceDays(snap.spec));
        VerdictStep(log, expired);
        RulesExtend(log, expired);
        MissingStays(log, expired, since.value.ms);
        assert w.log + Checked(snap, w.now, v, d) == log + [expired];
      } else {
        assert w.log + Checked(snap, w.now, v, d) == log;
      }
    } else {
      assert w.log + Checked(snap, w.now, v, d) == w.log;
    }
  }

  ghost predicate Observes(w: World, snap: Stack, d: Decision, log: seq<Entry>) {
    && GraceRules(log)
    && (d == Decided(ProjectNotFound) ==> LastVerdict(log) == Some(NotFound))
    && (d != Decided(ProjectReinstated) && snap.status.pendingDeletionSince.Some? ==>
          && snap.status.pendingDeletionSince.value.At?
          && MissingSince(log, snap.status.pendingDeletionSince.value.ms))
  }

  lemma GraceObserved(w: World, snap: Stack, p: Probe)
    requires Graceful(w) && w.phase == HasRead(snap)
    ensures Observes(w, snap, Decide(w.updates, snap, w.now, p), w.log + Observed(w, snap, p))
  {
    var v, d := CheckProject(snap, p.project, w.now), Decide(w.updates, snap, w.now, p);
    DecisionHeeds(w.updates, snap, w.now, p);
    GraceChecked(w, snap, v, d);
    NeutralEntries(w.log + Checked(snap, w.now, v, d), Seen(w, snap, p) + Passing(w, snap, p));
    ObservedInOrder(w, snap, p);
  }

  lemma ObservedInOrder(w: World, snap: Stack, p: Probe)
    ensures w.log + Observed(w, snap, p) ==
              w.log
              + Checked(snap, w.now, CheckProject(snap, p.project, w.now), Decide(w.updates, snap, w.now, p))
              + (Seen(w, snap, p) + Passing(w, snap, p))
  {
    DecisionHeeds(w.updates, snap, w.now, p);
  }

  lemma GracefulAfterDecision(w: World, snap: Stack, d: Decision, log: seq<Entry>)
    requires Graceful(w) && w.phase == HasRead(snap)
    requires Observes(w, snap, d, log)
    ensures Graceful(AfterDecision(w.(log := log), snap, d))
  {}

  lemma GracefulDecide(cfg: Config, w: World, p: Probe)
    requires Graceful(w)
    ensures Graceful(Step(cfg, w, DecideStep(p)))
  {
    if w.phase.HasRead? {
      var snap := w.phase.snap;
      GraceObserved(w, snap, p);
      GracefulAfterDecision(w, snap, Decide(w.updates, snap, w.now, p), w.log + Observed(w, snap, p));
    }
  }

  lemma GracefulCreate(cfg: Config, w: World, f: CreateFaults)
    requires Graceful(w)
    ensures Graceful(Step(cfg, w, CreateStep(f)))
  {
    forall us, r, u | w.phase.Creating? ensures Graceful(AfterCreate(w.(updates := us), r, u, w.phase.snap)) {
      if r.Ok? {
        NeutralEntries(w.log, [Created(w.now, r.value, u.kind, w.phase.snap, w.stack)]);
      }
    }
  }

  // A reinstatement reaches the status.
  predicate WritesReinstatement(w: World, e: Event) {
    w.phase.Acting? && w.phase.action == ProjectReinstated ==> !LosesWrite(e)
  }

  lemma GracefulAct(cfg: Config, w: World, f: ActFaults)
    requires Graceful(w) && WritesReinstatement(w, ActStep(f))
    ensures Graceful(Step(cfg, w, ActStep(f)))
  {
    if w.phase.Acting? {
      if w.phase.action == ProjectNotFound && w.phase.snap.status.pendingDeletionSince.None? && f.patchLands {
        var e := GraceStarted(w.now);
        assert Outcomes(w, f) == [e];
        RulesExtend(w.log, e);
        assert (w.log + [e])[|w.log|] == e;
      } else {
        NeutralEntries(w.log, Outcomes(w, f));
        GracefulActQuietly(cfg, w, f);
      }
    }
  }

  lemma GracefulActQuietly(cfg: Config, w: World, f: ActFaults)
    requires Graceful(w) && WritesReinstatement(w, ActStep(f)) && w.phase.Acting?
    requires w.phase.action == ProjectNotFound && f.patchLands ==> w.phase.snap.status.pendingDeletionSince.Some?
    requires GraceRules(w.log + Outcomes(w, f))
    requires forall t :: MissingSince(w.log, t) ==> MissingSince(w.log + Outcomes(w, f), t)
    ensures Graceful(ActPhase(cfg, w, f))
  {}

  lemma GracefulStep(cfg: Config, w: World, e: Event)
    requires Graceful(w) && WritesReinstatement(w, e)
    ensures Graceful(Step(cfg, w, e))
  {
    match e
    case Read(_) =>
    case Restart =>
    case DecideStep(p) => GracefulDecide(cfg, w, p);
    case CreateStep(f) => GracefulCreate(cfg, w, f);
    case ActStep(f) => GracefulAct(cfg, w, f);
    case _ => EnvironmentFrame(w, e);
  }

  // In every run, whatever happens to omitted fields, as long as each reinstatement is written:
  // only a NotFound result starts the grace period; it is found expired only on a later NotFound,
  // the whole period after it was started, and with no Active result in between.
  lemma {:induction false} GraceIsGranted(cfg: Config, w: World, es: seq<Event>)
    requires Initial(w) && Throughout(cfg, w, es, WritesReinstatement)
    ensures Graceful(Run(cfg, w, es))
    ensures GraceRules(Run(cfg, w, es).log)
  {
    if es != [] {
      var k := |es| - 1;
      ThroughoutInit(cfg, w, es, WritesReinstatement);
      GraceIsGranted(cfg, w, es[..k]);
      GracefulStep(cfg, Run(cfg, w, es[..k]), es[k]);
    }
  }

  // ------------------------------------------- the hypothesis carries weight

  // The project is found missing.
  lemma GraceStarts(cfg: Config, w: World)
    requires O.Watched(w) && w.stack.spec.verification.Some? && w.stack.status == EMPTY_STATUS
    ensures var v := Run(cfg, w, [Read(false), DecideStep(O.Answers(NotFound, "a")), ActStep(ALL_LAND)]);
            && O.Watched(v) && v.stack == w.stack.(status := O.MissingStatus(w.now)) && v.now == w.now
            && v.log == w.log + [ProjectChecked(w.now, NotFound), GraceStarted(w.now)]
  {
    var p := O.Answers(NotFound, "a");
    RunActs(cfg, w, p, ALL_LAND);
    var v := Concluded(w, p);
    assert v.phase == Acting(w.stack, ProjectNotFound) && v.stack == w.stack && v.now == w.now;
    assert v.log == w.log + [ProjectChecked(w.now, NotFound)];
    assert Outcomes(v, ALL_LAND) == [GraceStarted(w.now)];
  }

  // It is back, but that is not written.
  lemma ReinstatementLost(cfg: Config, w: World, loss: Event)
    requires O.Watched(w) && w.stack.spec.verification.Some? && w.stack.status == O.MissingStatus(w.now)
    requires LosesWrite(loss)
    ensures var v := Run(cfg, w, [Tick(RECHECK_MS), Read(false), DecideStep(O.Answers(Active, "a")), loss]);
            && O.Watched(v) && v.stack == w.stack && v.now == w.now + RECHECK_MS
            && v.log == w.log + [ProjectChecked(v.now, Active)]
  {
    var p := O.Answers(Active, "a");
    RunOf4(cfg, w, [Tick(RECHECK_MS), Read(false), DecideStep(p), loss]);
    var w1 := Step(cfg, w, Tick(RECHECK_MS));
    RunDecides(cfg, w1, p);
    FoundAgain(w1, p);
    LossKeeps(cfg, Concluded(w1, p), loss);
  }

  lemma FoundAgain(w: World, p: Probe)
    requires O.Watched(w) && w.stack.spec.verification.Some? && p == O.Answers(Active, "a")
    requires w.now >= RECHECK_MS && w.stack.status == O.MissingStatus(w.now - RECHECK_MS)
    ensures var v := Concluded(w, p);
            && v.phase == Acting(w.stack, ProjectReinstated) && v.stack == w.stack && v.now == w.now
            && v.log == w.log + [ProjectChecked(w.now, Active)]
  {
    assert CheckProject(w.stack, Active, w.now) == Active;
    assert Decide(w.updates, w.stack, w.now, p) == Decided(ProjectReinstated);
  }

  lemma LossKeeps(cfg: Config, v: World, loss: Event)
    requires LosesWrite(loss) && v.phase.Acting? && v.phase.action == ProjectReinstated
    ensures var v' := Step(cfg, v, loss);
            v'.phase == Idle && v'.stack == v.stack && v'.now == v.now && v'.log == v.log
  {}

  // It is missing again, and the first absence is held against it.
  lemma ExpiresAnyway(cfg: Config, w: World, since: nat)
    requires O.Watched(w) && w.stack.spec.verification.Some? && w.stack.status == O.MissingStatus(since)
    requires w.now >= since + RECHECK_MS
    ensures var period := GraceMs(GraceDays(w.stack.spec));
            var v := Run(cfg, w, [Tick(period), Read(false), DecideStep(O.Answers(NotFound, "a"))]);
            v.log == w.log + [ProjectChecked(v.now, NotFound), GraceExpired(v.now, At(since), GraceDays(w.stack.spec))]
  {
    var p := O.Answers(NotFound, "a");
    var period := GraceMs(GraceDays(w.stack.spec));
    RunOf3(cfg, w, [Tick(period), Read(false), DecideStep(p)]);
    var w1 := Step(cfg, w, Tick(period));
    RunDecides(cfg, w1, p);
    assert CheckProject(w.stack, NotFound, w1.now) == NotFound;
    assert Decide(w1.updates, w.stack, w1.now, p) == Decided(ProjectTtlExpired);
  }

  // One restart or lost patch in place of a reinstatement, and the grace period is found expired
  // although the project was there in between.
  lemma UnwrittenReinstatementExpires(cfg: Config, w: World, loss: Event)
    requires O.Watched(w) && w.stack.spec.verification.Some? && w.stack.status == EMPTY_STATUS && w.log == []
    requires LosesWrite(loss)
    ensures var start := [Read(false), DecideStep(O.Answers(NotFound, "a")), ActStep(ALL_LAND)];
            var back := [Tick(RECHECK_MS), Read(false), DecideStep(O.Answers(Active, "a")), loss];
            var gone := [Tick(GraceMs(GraceDays(w.stack.spec))), Read(false), DecideStep(O.Answers(NotFound, "a"))];
            !GraceRules(Run(cfg, w, start + back + gone).log)
  {
    var start := [Read(false), DecideStep(O.Answers(NotFound, "a")), ActStep(ALL_LAND)];
    var back := [Tick(RECHECK_MS), Read(false), DecideStep(O.Answers(Active, "a")), loss];
    var gone := [Tick(GraceMs(GraceDays(w.stack.spec))), Read(false), DecideStep(O.Answers(NotFound, "a"))];
    O.Joins3(cfg, w, start, back, gone);
    GraceStarts(cfg, w);
    var v := Run(cfg, w, start);
    ReinstatementLost(cfg, v, loss);
    var v' := Run(cfg, v, back);
    ExpiresAnyway(cfg, v', w.now);
    var log := Run(cfg, v', gone).log;
    assert log[..4] == v'.log + [log[3]] && IsActiveCheck(log[2]) && log[4].GraceExpired?;
    assert !MissingSince(log[..4], w.now) by {
      assert IsActiveCheck(log[..4][2]);
      assert log[..4][3] != GraceStarted(w.now) && log[..4][2] != GraceStarted(w.now);
    }
    assert !GraceRule(log[..4], log[4]);
  }
}
