/**
 How destroy failures count up: by one each time when status fields a patch leaves out are kept,
 not at all when they are dropped, because the patch that names a new destroy Update leaves the
 last count out.
 */
module DestroyCounts {
  import opened Basics
  import opened Api
  import opened Pipeline
  import opened Actions
  import opened Lifecycle
  import D = DestroyPacing

  // The count of the latest recorded destroy failure.
  function LastCount(log: seq<Entry>): Option<int> {
    if log == [] then None
    else if log[|log| - 1].DestroyFailureRecorded? then Some(log[|log| - 1].failures)
    else LastCount(log[..|log| - 1])
  }

  predicate CountRule(keep: bool, before: seq<Entry>, e: Entry) {
    e.DestroyFailureRecorded? ==>
      if keep then LastCount(before).Some? ==> e.failures == LastCount(before).value + 1 else e.failures == 1
  }

  ghost predicate CountRules(keep: bool, log: seq<Entry>) {
    forall i :: 0 <= i < |log| ==> CountRule(keep, log[..i], log[i])
  }

  lemma RulesExtend(keep: bool, log: seq<Entry>, e: Entry)
    requires CountRules(keep, log) && CountRule(keep, log, e)
    ensures CountRules(keep, log + [e])
    ensures LastCount(log + [e]) == if e.DestroyFailureRecorded? then Some(e.failures) else LastCount(log)
  {
    assert (log + [e])[..|log|] == log;
    forall i | 0 <= i < |log + [e]| ensures CountRule(keep, (log + [e])[..i], (log + [e])[i]) {
      assert (log + [e])[..i] == log[..i];
      if i == |log| { assert log[..i] == log; }
    }
  }

  lemma {:induction false} RulesSkip(keep: bool, log: seq<Entry>, more: seq<Entry>)
    requires CountRules(keep, log)
    requires forall i :: 0 <= i < |more| ==> !more[i].DestroyFailureRecorded?
    ensures CountRules(keep, log + more) && LastCount(log + more) == LastCount(log)
  {
    if more == [] {
      assert log + more == log;
    } else {
      var k := |more| - 1;
      RulesSkip(keep, log, more[..k]);
      RulesExtend(keep, log + more[..k], more[k]);
      assert log + more == log + more[..k] + [more[k]];
    }
  }

  // --------------------------------------------------------- the invariant

  predicate Deletes(w: World) {
    && D.SnapshotCurrent(w)
    && (!w.phase.Idle? && w.phase.snap.Deleting() ==> w.stack.Deleting())
    && (w.phase.Acting? && w.phase.action.DestroyFailed? ==>
          w.phase.snap.Deleting() && w.phase.action.failures == PriorFailures(w.phase.snap) + 1)
    && (w.phase.Acting? && w.phase.action.DestroyFailed? ==> w.phase.snap.status.currentUpdate.Some?)
  }

  // With kept fields the status carries the latest count as long as the Stack exists.
  predicate Carries(w: World) {
    LastCount(w.log).Some? ==>
      && w.stack.Deleting()
      && w.stack.status.lastUpdate.Some? && w.stack.status.lastUpdate.value.failures == LastCount(w.log).value
      && (!w.phase.Idle? ==> w.phase.snap.Deleting())
      && (w.phase.Creating? ==> w.phase.commit.None?)
      && (w.phase.Acting? ==>
            D.Quiet(w.phase.action) || w.phase.action.DestroyStarted? || w.phase.action.DestroyFailed?)
  }

  // With dropped fields the status never holds both a current and a last Update.
  predicate Alternates(w: World) {
    w.stack.status.currentUpdate.Some? ==> w.stack.status.lastUpdate.None?
  }

  ghost predicate Counted(keep: bool, w: World) {
    Deletes(w) && (if keep then Carries(w) else Alternates(w)) && CountRules(keep, w.log)
  }

  lemma DecisionCounts(us: Updates, snap: Stack, now: nat, p: Probe)
    ensures var d := Decide(us, snap, now, p);
            d.Decided? && d.action.DestroyFailed? ==> snap.Deleting() && snap.status.currentUpdate.Some?
  {}

  lemma CountedAfterDecision(keep: bool, w: World, snap: Stack, d: Decision, log: seq<Entry>)
    requires Counted(keep, w) && w.phase == HasRead(snap) && D.Measured(w.updates, snap, w.now, d)
    requires d.Decided? && d.action.DestroyFailed? ==> snap.Deleting() && snap.status.currentUpdate.Some?
    requires CountRules(keep, log) && LastCount(log) == LastCount(w.log)
    ensures Counted(keep, AfterDecision(w.(log := log), snap, d))
  {}

  lemma CountedDecide(keep: bool, w: World, p: Probe)
    requires Counted(keep, w)
    ensures Counted(keep, DecidePhase(w, p))
  {
    if w.phase.HasRead? {
      var snap := w.phase.snap;
      RulesSkip(keep, w.log, Observed(w, snap, p));
      D.DecisionIsMeasured(w.updates, snap, w.now, p);
      DecisionCounts(w.updates, snap, w.now, p);
      CountedAfterDecision(keep, w, snap, Decide(w.updates, snap, w.now, p), w.log + Observed(w, snap, p));
    }
  }

  lemma CountedCreate(cfg: Config, w: World, f: CreateFaults)
    requires Counted(cfg.keep, w)
    ensures Counted(cfg.keep, CreatePhase(cfg, w, f))
  {
    if w.phase.Creating? {
      var snap := w.phase.snap;
      forall us, r, u: Update | u.commit == w.phase.commit
        ensures Counted(cfg.keep, AfterCreate(w.(updates := us), r, u, snap))
      {
        if r.Ok? { RulesSkip(cfg.keep, w.log, [Created(w.now, r.value, u.kind, snap, w.stack)]); }
      }
    }
  }

  lemma CountedAct(cfg: Config, w: World, f: ActFaults)
    requires Counted(cfg.keep, w)
    ensures Counted(cfg.keep, ActPhase(cfg, w, f))
  {
    if w.phase.Acting? {
      if w.phase.action.DestroyFailed? && f.patchLands {
        var e := DestroyFailureRecorded(w.now, w.phase.action.failures);
        assert Outcomes(w, f) == [e];
        RulesExtend(cfg.keep, w.log, e);
      } else {
        RulesSkip(cfg.keep, w.log, Outcomes(w, f));
        if !cfg.keep {
          ActAlternates(cfg, w, f);
        } else if LastCount(w.log).Some? {
          ActCarries(cfg, w, f);
        }
      }
    }
  }

  lemma ActAlternates(cfg: Config, w: World, f: ActFaults)
    requires !cfg.keep && Alternates(w) && w.phase.Acting?
    ensures Alternates(ActPhase(cfg, w, f))
  {}

  lemma ActCarries(cfg: Config, w: World, f: ActFaults)
    requires cfg.keep && w.phase.Acting?
    requires || D.Quiet(w.phase.action) || w.phase.action.DestroyStarted?
             || (w.phase.action.DestroyFailed? && !f.patchLands)
    ensures ActPhase(cfg, w, f).stack.status.lastUpdate == w.stack.status.lastUpdate
  {
    if !w.phase.action.DestroyStarted? { D.StatusUnwritten(cfg, w, f); }
  }

  lemma CountedStep(cfg: Config, w: World, e: Event)
    requires Counted(cfg.keep, w)
    ensures Counted(cfg.keep, Step(cfg, w, e))
  {
    match e
    case Read(_) =>
    case DecideStep(p) => CountedDecide(cfg.keep, w, p);
    case CreateStep(f) => CountedCreate(cfg, w, f);
    case ActStep(f) => CountedAct(cfg, w, f);
    case _ => CountedEnvironment(cfg.keep, w, e);
  }

  lemma CountedEnvironment(keep: bool, w: World, e: Event)
    requires Counted(keep, w) && (IsEnvironment(e) || e.Restart?)
    ensures Counted(keep, Environment(w, e))
  {
    if !e.Restart? { EnvironmentFrame(w, e); }
  }

  // In every run, whatever is lost or restarted: with kept fields each destroy failure counts one
  // more than the one before, so the cooldown escalates; with dropped fields each counts one, so it
  // does not.
  lemma {:induction false} DestroyFailuresCount(cfg: Config, w: World, es: seq<Event>)
    requires Initial(w)
    ensures Counted(cfg.keep, Run(cfg, w, es))
    ensures CountRules(cfg.keep, Run(cfg, w, es).log)
  {
    if es != [] {
      var k := |es| - 1;
      DestroyFailuresCount(cfg, w, es[..k]);
      CountedStep(cfg, Run(cfg, w, es[..k]), es[k]);
    }
  }
}
