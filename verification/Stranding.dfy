/**
 What becomes of a Stack whose Update never finishes, because its outcome patch was lost or the
 operator restarted while it ran (Executor.StrandedForever).
 */
module Stranding {
  import opened Basics
  import opened Api
  import opened UpdateCheck
  import opened Pipeline
  import opened Actions
  import opened Lifecycle
  import D = DestroyFirst

  predicate WaitsFor(stack: Stack, name: string) {
    stack.CurrentName() == Some(name) && stack.spec.verification.None? && D.WantsDestroy(stack.spec)
  }

  predicate Stuck(w: World, name: string) {
    && WaitsFor(w.stack, name)
    && name in w.updates && !Terminal(w.updates[name])
    && (!w.phase.Idle? ==> WaitsFor(w.phase.snap, name))
    && !w.phase.Creating?
    && (w.phase.Acting? ==> Waiting(w.phase.action))
  }

  predicate Waiting(a: Action) {
    a.WaitForUpdate? || a.AddFinalizer? || a.Done?
  }

  // The Update is neither finished nor deleted, and users keep asking for a destroy.
  predicate Unfinished(e: Event, name: string) {
    && (e.Finish? ==> e.name != name)
    && (e.OutsideDelete? ==> e.name != name)
    && (e.Edit? ==> e.spec.verification.None? && D.WantsDestroy(e.spec))
  }

  lemma DecisionWaits(us: Updates, snap: Stack, now: nat, p: Probe, name: string)
    requires WaitsFor(snap, name) && name in us && !Terminal(us[name])
    ensures var d := Decide(us, snap, now, p);
            d.Erred? || (d.Decided? && Waiting(d.action))
  {}

  // Nothing is created, recorded or released.
  predicate Uneventful(log: seq<Entry>, lo: nat) {
    forall i :: lo <= i < |log| ==> !log[i].Created? && !log[i].Recorded? && !log[i].Released?
  }

  lemma StepWaits(cfg: Config, w: World, e: Event, name: string)
    requires Stuck(w, name) && Unfinished(e, name)
    ensures Stuck(Step(cfg, w, e), name)
    ensures |w.log| <= |Step(cfg, w, e).log| && Uneventful(Step(cfg, w, e).log, |w.log|)
    ensures Step(cfg, w, e).log[..|w.log|] == w.log
  {
    match e
    case DecideStep(p) =>
      if w.phase.HasRead? {
        DecisionWaits(w.updates, w.phase.snap, w.now, p, name);
        StepWaitsAfter(w, w.phase.snap, Decide(w.updates, w.phase.snap, w.now, p), Observed(w, w.phase.snap, p), name);
      }
    case ActStep(f) =>
    case LateStart(n) => UpdatesWait(w.updates, name);
    case Progress(n) => UpdatesWait(w.updates, name);
    case _ =>
  }

  lemma UpdatesWait(us: Updates, name: string)
    requires name in us && !Terminal(us[name])
    ensures forall n :: name in Restarted(us, n) && !Terminal(Restarted(us, n)[name])
    ensures forall n :: name in SetStatus(us, n, ProgressingStatus())
                        && !Terminal(SetStatus(us, n, ProgressingStatus())[name])
  {
    WritesReadBack("");
  }

  lemma StepWaitsAfter(w: World, snap: Stack, d: Decision, more: seq<Entry>, name: string)
    requires Stuck(w, name) && w.phase == HasRead(snap)
    requires d.Erred? || (d.Decided? && Waiting(d.action))
    requires forall i :: 0 <= i < |more| ==> !more[i].Created? && !more[i].Recorded? && !more[i].Released?
    ensures var w' := AfterDecision(w.(log := w.log + more), snap, d);
            Stuck(w', name) && w'.log == w.log + more && Uneventful(w'.log, |w.log|)
  {}

  // The Stack waits for it for good, deleted or not: no run creates another Update, records an
  // outcome or releases the finalizer, whatever is reconciled, retried or restarted.
  lemma {:induction false} StrandedStackWaits(cfg: Config, w: World, es: seq<Event>, name: string)
    requires Stuck(w, name) && forall i :: 0 <= i < |es| ==> Unfinished(es[i], name)
    ensures var w' := Run(cfg, w, es);
            Stuck(w', name) && |w.log| <= |w'.log| && Uneventful(w'.log, |w.log|)
  {
    if es != [] {
      var k := |es| - 1;
      StrandedStackWaits(cfg, w, es[..k], name);
      var v := Run(cfg, w, es[..k]);
      StepWaits(cfg, v, es[k], name);
      var w' := Run(cfg, w, es);
      forall i | |w.log| <= i < |w'.log| ensures !w'.log[i].Created? && !w'.log[i].Recorded? && !w'.log[i].Released? {
        if i < |v.log| { assert w'.log[i] == w'.log[..|v.log|][i] == v.log[i]; }
      }
    }
  }
}
