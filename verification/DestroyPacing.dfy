/**
 No destroy storm: attempts to destroy a Stack are separated by the failure cooldown.
 */
module DestroyPacing {
  import opened Basics
  import opened Time
  import opened Api
  import opened Sync
  import opened Pipeline
  import opened Actions
  import opened Lifecycle
  import D = DestroyFirst
  import O = OneInFlight

  predicate IsAttempt(e: Entry) {
    e.Created? && e.kind == Destroy
  }

  // What the history says about the latest attempt.
  datatype Pace = NoAttempt | Attempting(name: string) | FailedAt(at: nat, failures: int)

  function PaceOf(log: seq<Entry>): Pace {
    if log == [] then NoAttempt
    else
      var before, e := PaceOf(log[..|log| - 1]), log[|log| - 1];
      if IsAttempt(e) then Attempting(e.name)
      else if e.DestroyFailureRecorded? && before.Attempting? then FailedAt(e.at, e.failures)
      else before
  }

  // An attempt is the first, or comes once the cooldown of the recorded failure has passed; the
  // cooldown is that of the spec the creating reconcile read.
  predicate AttemptIsDue(before: Pace, e: Entry) {
    || before == NoAttempt
    || (&& before.FailedAt? && before.failures >= 1
        && e.Created? && e.at >= before.at + Cooldown(before.failures, e.snap.spec))
  }

  predicate AttemptsAreDue(log: seq<Entry>) {
    forall j :: 0 <= j < |log| && IsAttempt(log[j]) ==> AttemptIsDue(PaceOf(log[..j]), log[j])
  }

  // --------------------------------------------------------- the invariant

  predicate Quiet(a: Action) {
    match a
    case Done => true
    case RemoveFinalizer => true
    case RemoveFinalizerAfterDestroy => true
    case WaitForUpdate(_) => true
    case WaitForWorkspace => true
    case _ => false
  }

  predicate SnapshotCurrent(w: World) {
    !w.phase.Idle? ==> w.phase.snap.status == w.stack.status
  }

  predicate FailuresCount(w: World) {
    && (w.stack.status.lastUpdate.Some? ==> w.stack.status.lastUpdate.value.failures >= 0)
    && (w.phase.Acting? && w.phase.action.DestroyFailed? ==> w.phase.action.failures >= 1)
  }

  ghost predicate PaceMatches(w: World, pace: Pace) {
    match pace
    case NoAttempt =>
      && (w.phase.Acting? && w.phase.action.DestroyStarted? ==> false)
    case Attempting(n) =>
      && n in w.updates && w.stack.Deleting()
      && w.phase.Creating? == false
      && (w.phase == Idle || w.phase.snap.Deleting())
      && (w.phase.Acting? && w.phase.action.DestroyStarted? ==> w.phase.action.name == n)
      && (!(w.phase.Acting? && w.phase.action.DestroyStarted?) ==> w.stack.CurrentName() == Some(n))
      && (w.phase.Acting? ==> Quiet(w.phase.action) || w.phase.action.DestroyStarted? || w.phase.action.DestroyFailed?)
    case FailedAt(tf, k) =>
      && k >= 1 && tf <= w.now && w.stack.Deleting()
      && w.stack.status.currentUpdate == None
      && w.stack.status.lastUpdate.Some?
      && (var last := w.stack.status.lastUpdate.value;
          && last.state == Some(RunFailed) && last.kind == Some(Destroy)
          && last.failures == k && last.lastResyncTime == Some(At(tf)))
      && (w.phase == Idle || w.phase.snap.Deleting())
      && (w.phase.Creating? ==> w.phase.commit == None && w.now >= tf + Cooldown(k, w.phase.snap.spec))
      && (w.phase.Acting? ==> Quiet(w.phase.action))
  }

  ghost predicate Pacing(w: World) {
    && SnapshotCurrent(w)
    && FailuresCount(w)
    && (!w.phase.Idle? && w.phase.snap.Deleting() ==> w.stack.Deleting())
    && (w.phase.Creating? ==>
          if w.phase.commit.Some? then PaceOf(w.log) == NoAttempt else w.phase.snap.Deleting())
    && PaceMatches(w, PaceOf(w.log))
    && AttemptsAreDue(w.log)
  }

  // An attempt that was started reaches the status, and nobody else deletes its Update.
  predicate PacesAttempts(w: World, e: Event) {
    && (w.phase.Acting? && w.phase.action.DestroyStarted? ==> !LosesWrite(e))
    && (e.OutsideDelete? ==> PaceOf(w.log) != Attempting(e.name))
  }

  lemma PaceSkips(log: seq<Entry>, more: seq<Entry>)
    requires forall i :: 0 <= i < |more| ==> !IsAttempt(more[i]) && !more[i].DestroyFailureRecorded?
    ensures PaceOf(log + more) == PaceOf(log)
    ensures AttemptsAreDue(log) ==> AttemptsAreDue(log + more)
  {
    if more == [] {
      assert log + more == log;
    } else {
      var k := |more| - 1;
      PaceSkips(log, more[..k]);
      assert (log + more)[..|log + more| - 1] == log + more[..k];
      if AttemptsAreDue(log) {
        DueGrows(log + more[..k], more[k]);
        assert log + more == log + more[..k] + [more[k]];
      }
    }
  }

  lemma DueGrows(log: seq<Entry>, e: Entry)
    requires AttemptsAreDue(log)
    requires IsAttempt(e) ==> AttemptIsDue(PaceOf(log), e)
    ensures AttemptsAreDue(log + [e])
  {
    forall j | 0 <= j < |log + [e]| && IsAttempt((log + [e])[j])
      ensures AttemptIsDue(PaceOf((log + [e])[..j]), (log + [e])[j])
    {
      assert (log + [e])[..j] == log[..j];
      if j == |log| { assert log[..j] == log; }
    }
  }

  lemma PaceStep(log: seq<Entry>, e: Entry)
    ensures PaceOf(log + [e]) ==
              if IsAttempt(e) then Attempting(e.name)
              else if e.DestroyFailureRecorded? && PaceOf(log).Attempting? then FailedAt(e.at, e.failures)
              else PaceOf(log)
  {
    assert (log + [e])[..|log|] == log;
  }

  // What the decision chain can conclude, in terms of the pace of destroying.
  predicate Measured(us: Updates, snap: Stack, now: nat, d: Decision) {
    if snap.Deleting() then
      match d
      case Decided(DestroyFailed(n, k)) =>
        snap.CurrentName() == Some(n) && n in us && k == PriorFailures(snap) + 1
      case Decided(a) => Quiet(a)
      case CreateUp(_) => false
      case CreateDestroy =>
        && !InDestroyCooldown(snap, now)
        && (snap.CurrentName().Some? ==> snap.CurrentName().value !in us)
      case Erred(_) => true
    else d != CreateDestroy && (d.Decided? ==> !d.action.DestroyFailed? && !d.action.DestroyStarted?)
  }

  lemma DecisionIsMeasured(us: Updates, snap: Stack, now: nat, p: Probe)
    ensures Measured(us, snap, now, Decide(us, snap, now, p))
  {}

  lemma PacingAfterDecision(w: World, snap: Stack, d: Decision, log: seq<Entry>)
    requires Pacing(w) && w.phase == HasRead(snap)
    requires Measured(w.updates, snap, w.now, d)
    requires PaceOf(log) == PaceOf(w.log) && AttemptsAreDue(log)
    ensures Pacing(AfterDecision(w.(log := log), snap, d))
  {}

  lemma ObservedAttemptsNothing(w: World, snap: Stack, p: Probe)
    ensures var more := Observed(w, snap, p);
            forall i :: 0 <= i < |more| ==> !IsAttempt(more[i]) && !more[i].DestroyFailureRecorded?
  {}

  lemma PacingDecide(w: World, p: Probe)
    requires Pacing(w)
    ensures Pacing(DecidePhase(w, p))
  {
    if w.phase.HasRead? {
      var snap := w.phase.snap;
      ObservedAttemptsNothing(w, snap, p);
      PaceSkips(w.log, Observed(w, snap, p));
      DecisionIsMeasured(w.updates, snap, w.now, p);
      PacingAfterDecision(w, snap, Decide(w.updates, snap, w.now, p), w.log + Observed(w, snap, p));
    }
  }

  lemma PacingAfterCreate(w: World, us: Updates, r: Result<string, Recovery>, u: Update)
    requires Pacing(w) && w.phase.Creating?
    requires u.commit == w.phase.commit && (u.kind == Destroy <==> u.commit.None?)
    requires r.Ok? ==> r.value in us
    ensures Pacing(AfterCreate(w.(updates := us), r, u, w.phase.snap))
  {
    if r.Ok? {
      var e := Created(w.now, r.value, u.kind, w.phase.snap, w.stack);
      PaceStep(w.log, e);
      DueGrows(w.log, e);
    }
  }

  lemma CreationNames(us: Updates, name: string, u: Update, f: CreateFaults)
    ensures var (us', r) := CreateUpdate(us, name, u, f); r.Ok? ==> r.value in us'
  {}

  lemma PacingCreate(cfg: Config, w: World, f: CreateFaults)
    requires Pacing(w)
    ensures Pacing(Step(cfg, w, CreateStep(f)))
  {
    if w.phase.Creating? && w.phase.commit.Some? {
      var commit := w.phase.commit.value;
      var u := NewUpdate(w.phase.snap, commit, w.now);
      var (us, r) := CreateUpdate(w.updates, UpName(cfg.key, commit), u, f);
      CreationNames(w.updates, UpName(cfg.key, commit), u, f);
      PacingAfterCreate(w, us, r, u);
    } else if w.phase.Creating? {
      var u := NewDestroy(w.now);
      var (us, r) := CreateDestroyUpdate(w.updates, DestroyName(cfg.key, w.now), u, f);
      PacingAfterCreate(w, us, r, u);
    }
  }

  lemma PacingAct(cfg: Config, w: World, f: ActFaults)
    requires Pacing(w) && PacesAttempts(w, ActStep(f))
    ensures Pacing(ActPhase(cfg, w, f))
  {
    if w.phase.Acting? {
      if w.phase.action.DestroyFailed? && f.patchLands {
        PacingActFailed(cfg, w, f);
      } else {
        PacingActOtherwise(cfg, w, f);
      }
    }
  }

  lemma PacingActOtherwise(cfg: Config, w: World, f: ActFaults)
    requires Pacing(w) && PacesAttempts(w, ActStep(f)) && w.phase.Acting?
    requires !(w.phase.action.DestroyFailed? && f.patchLands)
    ensures Pacing(ActPhase(cfg, w, f))
  {
    PaceSkips(w.log, Outcomes(w, f));
    if PaceOf(w.log).NoAttempt? {
      PacingActFirst(cfg, w, f);
    } else if w.phase.action.DestroyStarted? {
      PacingActStarted(cfg, w, f);
    } else {
      PacingActQuietly(cfg, w, f);
    }
  }

  lemma PacingActFailed(cfg: Config, w: World, f: ActFaults)
    requires Pacing(w) && f.patchLands && w.phase.Acting? && w.phase.action.DestroyFailed?
    ensures Pacing(ActPhase(cfg, w, f))
  {
    var e := DestroyFailureRecorded(w.now, w.phase.action.failures);
    assert Outcomes(w, f) == [e];
    PaceStep(w.log, e);
    DueGrows(w.log, e);
  }

  lemma PacingActFirst(cfg: Config, w: World, f: ActFaults)
    requires Pacing(w) && w.phase.Acting?
    requires PaceOf(w.log + Outcomes(w, f)) == NoAttempt && AttemptsAreDue(w.log + Outcomes(w, f))
    ensures Pacing(ActPhase(cfg, w, f))
  {
    CountsStayCounts(cfg, w, f);
    assert ActPhase(cfg, w, f).log == w.log + Outcomes(w, f) && ActPhase(cfg, w, f).phase == Idle;
  }

  lemma PacingActQuietly(cfg: Config, w: World, f: ActFaults)
    requires Pacing(w) && w.phase.Acting?
    requires Quiet(w.phase.action) || (w.phase.action.DestroyFailed? && !f.patchLands)
    requires PaceOf(w.log + Outcomes(w, f)) == PaceOf(w.log) != NoAttempt
    requires AttemptsAreDue(w.log + Outcomes(w, f))
    ensures Pacing(ActPhase(cfg, w, f))
  {
    StatusUnwritten(cfg, w, f);
    assert ActPhase(cfg, w, f).log == w.log + Outcomes(w, f);
  }

  // The status of a Stack never counts fewer than no failures.
  lemma CountsStayCounts(cfg: Config, w: World, f: ActFaults)
    requires FailuresCount(w) && w.phase.Acting?
    ensures FailuresCount(ActPhase(cfg, w, f))
  {
    PatchCounts(w.actor, w.phase.action, w.phase.snap, w.now);
  }

  lemma PatchCounts(a: ActorData, action: Action, snap: Stack, now: nat)
    requires action.DestroyFailed? ==> action.failures >= 0
    ensures var p := PatchOf(a, action, snap, now);
            p.Some? && p.value.lastUpdate.Set? ==> p.value.lastUpdate.value.failures >= 0
  {}

  lemma PacingActStarted(cfg: Config, w: World, f: ActFaults)
    requires Pacing(w) && f.patchLands && w.phase.Acting? && w.phase.action.DestroyStarted?
    requires PaceOf(w.log + Outcomes(w, f)) == PaceOf(w.log) != NoAttempt
    requires AttemptsAreDue(w.log + Outcomes(w, f))
    ensures Pacing(ActPhase(cfg, w, f))
  {
    CountsStayCounts(cfg, w, f);
    assert PatchOf(w.actor, w.phase.action, w.phase.snap, w.now) == Some(Started(w.phase.snap, w.phase.action.name));
  }

  lemma StatusUnwritten(cfg: Config, w: World, f: ActFaults)
    requires w.phase.Acting?
    requires Quiet(w.phase.action) || (w.phase.action.DestroyFailed? && !f.patchLands)
    ensures var w' := ActPhase(cfg, w, f);
            && w'.stack.status == w.stack.status && w'.stack.deletedAt == w.stack.deletedAt
            && w'.updates == w.updates && w'.now == w.now && w'.phase == Idle
  {}

  lemma PacingEnvironment(cfg: Config, w: World, e: Event)
    requires Pacing(w) && PacesAttempts(w, e) && IsEnvironment(e)
    ensures Pacing(Step(cfg, w, e))
  {
    EnvironmentFrame(w, e);
    var w' := Environment(w, e);
    assert forall n :: n in w.updates && !(e.OutsideDelete? && n == e.name) ==> n in w'.updates;
  }

  lemma PacingStep(cfg: Config, w: World, e: Event)
    requires Pacing(w) && PacesAttempts(w, e)
    ensures Pacing(Step(cfg, w, e))
  {
    match e
    case Read(_) =>
    case Restart =>
    case DecideStep(p) => PacingDecide(w, p);
    case CreateStep(f) => PacingCreate(cfg, w, f);
    case ActStep(f) => PacingAct(cfg, w, f);
    case _ => PacingEnvironment(cfg, w, e);
  }

  lemma {:induction false} PacingRun(cfg: Config, w: World, es: seq<Event>)
    requires Pacing(w) && Throughout(cfg, w, es, PacesAttempts)
    ensures Pacing(Run(cfg, w, es))
  {
    if es != [] {
      var k := |es| - 1;
      ThroughoutInit(cfg, w, es, PacesAttempts);
      PacingRun(cfg, w, es[..k]);
      PacingStep(cfg, Run(cfg, w, es[..k]), es[k]);
    }
  }

  // ----------------------------------------------------------- the results

  predicate Explains(failure: Entry, earlier: Entry, later: Entry) {
    && failure.DestroyFailureRecorded? && failure.failures >= 1
    && later.Created?
    && earlier.at <= failure.at
    && later.at >= failure.at + Cooldown(failure.failures, later.snap.spec)
  }

  lemma {:induction false} PaceWitness(log: seq<Entry>, i: nat)
    requires i < |log| && IsAttempt(log[i])
    ensures PaceOf(log) != NoAttempt
    ensures var p := PaceOf(log);
            p.FailedAt? ==> exists m :: i < m < |log| && log[m] == DestroyFailureRecorded(p.at, p.failures)
    decreases |log|
  {
    var k := |log| - 1;
    if i < k {
      PaceWitness(log[..k], i);
      if PaceOf(log).FailedAt? {
        if PaceOf(log[..k]) == PaceOf(log) {
          var m :| i < m < k && log[..k][m] == DestroyFailureRecorded(PaceOf(log).at, PaceOf(log).failures);
          assert log[m] == log[..k][m];
        } else {
          assert log[k] == DestroyFailureRecorded(PaceOf(log).at, PaceOf(log).failures);
        }
      }
    }
  }

  // Any two attempts have a recorded failure between them, and the later one waited out its
  // cooldown.
  lemma NoDestroyStorm(cfg: Config, w: World, es: seq<Event>, i: nat, j: nat)
    requires Initial(w) && Throughout(cfg, w, es, PacesAttempts)
    requires i < j < |Run(cfg, w, es).log|
    requires IsAttempt(Run(cfg, w, es).log[i]) && IsAttempt(Run(cfg, w, es).log[j])
    ensures var log := Run(cfg, w, es).log;
            exists m :: i < m < j && Explains(log[m], log[i], log[j])
  {
    PacingRun(cfg, w, es);
    HistoryInOrder(cfg, w, es);
    var log := Run(cfg, w, es).log;
    assert AttemptIsDue(PaceOf(log[..j]), log[j]);
    assert log[..j][i] == log[i];
    PaceWitness(log[..j], i);
    var p := PaceOf(log[..j]);
    var m :| i < m < j && log[..j][m] == DestroyFailureRecorded(p.at, p.failures);
    assert log[m] == log[..j][m];
    assert Explains(log[m], log[i], log[j]);
  }

  function Attempts(log: seq<Entry>, from: nat, to: nat): nat {
    if log == [] then 0
    else
      var e := log[|log| - 1];
      Attempts(log[..|log| - 1], from, to) + (if IsAttempt(e) && from <= e.at <= to then 1 else 0)
  }

  predicate Spaced(log: seq<Entry>, gap: nat) {
    forall i, j :: 0 <= i < j < |log| && IsAttempt(log[i]) && IsAttempt(log[j]) ==> log[i].at + gap <= log[j].at
  }

  lemma {:induction false} NoneInWindow(log: seq<Entry>, from: nat, to: nat)
    requires forall i :: 0 <= i < |log| && IsAttempt(log[i]) ==> !(from <= log[i].at <= to)
    ensures Attempts(log, from, to) == 0
  {
    if log != [] { NoneInWindow(log[..|log| - 1], from, to); }
  }

  lemma {:induction false} AttemptsUpTo(log: seq<Entry>, from: nat, to: nat, to': nat)
    requires to' <= to
    requires forall i :: 0 <= i < |log| && IsAttempt(log[i]) ==> log[i].at <= to'
    ensures Attempts(log, from, to) == Attempts(log, from, to')
  {
    if log != [] { AttemptsUpTo(log[..|log| - 1], from, to, to'); }
  }

  lemma OneMore(n: int, rest: nat, span: nat, gap: nat)
    requires (n - 1) * gap <= rest && rest + gap <= span
    ensures n * gap <= span
  {
    assert n * gap == (n - 1) * gap + gap;
  }

  lemma {:induction false} SpacedAttemptsAreFew(log: seq<Entry>, from: nat, span: nat, gap: nat)
    requires gap >= 1 && Spaced(log, gap)
    ensures (Attempts(log, from, from + span) - 1) * gap <= span
    decreases |log|
  {
    if log != [] {
      var init, e := log[..|log| - 1], log[|log| - 1];
      if IsAttempt(e) && from <= e.at <= from + span {
        if e.at < from + gap {
          NoneInWindow(init, from, from + span);
        } else {
          var rest := e.at - gap - from;
          AttemptsUpTo(init, from, from + span, from + rest);
          SpacedAttemptsAreFew(init, from, rest, gap);
          OneMore(Attempts(init, from, from + rest), rest, span, gap);
        }
      } else {
        SpacedAttemptsAreFew(init, from, span, gap);
      }
    }
  }

  // n attempts within a span of time need n - 1 smallest cooldowns in it.
  lemma AttemptsPerWindow(cfg: Config, w: World, es: seq<Event>, from: nat, span: nat, gap: nat)
    requires Initial(w) && Throughout(cfg, w, es, PacesAttempts)
    requires gap >= 1
    requires var log := Run(cfg, w, es).log;
             forall j :: 0 <= j < |log| && IsAttempt(log[j]) ==> gap <= Min(30, CapSecs(log[j].snap.spec)) * 1000
    ensures (Attempts(Run(cfg, w, es).log, from, from + span) - 1) * gap <= span
  {
    var log := Run(cfg, w, es).log;
    forall i, j | 0 <= i < j < |log| && IsAttempt(log[i]) && IsAttempt(log[j]) ensures log[i].at + gap <= log[j].at {
      NoDestroyStorm(cfg, w, es, i, j);
      var m :| i < m < j && Explains(log[m], log[i], log[j]);
      CooldownBounds(1, log[m].failures, log[j].snap.spec);
    }
    SpacedAttemptsAreFew(log, from, span, gap);
  }

  // ------------------------------------------- the hypothesis carries weight

  // A destroy that wants to be started, with nothing in its way.
  predicate MayAttempt(cfg: Config, w: World) {
    && D.AwaitsDestroy(w) && !InDestroyCooldown(w.stack, w.now)
    && (w.stack.CurrentName().Some? ==> w.stack.CurrentName().value !in w.updates)
    && DestroyName(cfg.key, w.now) !in w.updates
  }

  const ATTEMPT := [Read(false), DecideStep(D.READY), CreateStep(CALM)]

  lemma Attempt(cfg: Config, w: World)
    requires MayAttempt(cfg, w)
    ensures var v, name := Run(cfg, w, ATTEMPT), DestroyName(cfg.key, w.now);
            && v.phase == Acting(w.stack, DestroyStarted(name)) && v.stack == w.stack && v.now == w.now
            && v.updates == w.updates[name := NewDestroy(w.now)]
            && v.log == w.log + [Passed(w.now, w.stack, D.READY, None), Created(w.now, name, Destroy, w.stack, w.stack)]
  {
    RunOf3(cfg, w, ATTEMPT);
    RunDecides(cfg, w, D.READY);
    var v := Concluded(w, D.READY);
    var passed := Passed(w.now, w.stack, D.READY, None);
    assert Observed(ReadStack(w, false), w.stack, D.READY) == [passed];
    assert v.phase == Creating(w.stack, None) && v.updates == w.updates && v.stack == w.stack && v.now == w.now;
    assert v.log == w.log + [passed];
    AttemptCreates(cfg, v);
  }

  lemma AttemptCreates(cfg: Config, v: World)
    requires v.phase.Creating? && v.phase.commit.None? && DestroyName(cfg.key, v.now) !in v.updates
    ensures var v', name := CreatePhase(cfg, v, CALM), DestroyName(cfg.key, v.now);
            && v'.phase == Acting(v.phase.snap, DestroyStarted(name)) && v'.stack == v.stack && v'.now == v.now
            && v'.updates == v.updates[name := NewDestroy(v.now)]
            && v'.log == v.log + [Created(v.now, name, Destroy, v.phase.snap, v.stack)]
  {}

  lemma LaterNameDiffers(key: string, now: nat, later: nat)
    requires now / 1000 != later / 1000
    ensures DestroyName(key, now) != DestroyName(key, later)
  {
    DecimalReadsBack(now / 1000);
    DecimalReadsBack(later / 1000);
    var head := key + "-destroy-";
    assert DestroyName(key, now)[|head|..] == Decimal(now / 1000);
    assert DestroyName(key, later)[|head|..] == Decimal(later / 1000);
  }

  // A later attempt of the same Stack, once nothing it names is left.
  lemma MayAttemptLater(cfg: Config, w: World, v: World)
    requires MayAttempt(cfg, w) && v.phase == Idle && v.now == w.now + 1000
    requires v.stack == w.stack.(status := v.stack.status)
    requires v.stack.status.lastUpdate.Some? ==> v.stack.status.lastUpdate == w.stack.status.lastUpdate
    requires v.stack.CurrentName().Some? ==> v.stack.CurrentName().value !in v.updates
    requires DestroyName(cfg.key, v.now) !in v.updates && D.DestroysAreLate(v)
    ensures MayAttempt(cfg, v)
  {}

  // A restart or lost patch right after an attempt lets the next one follow a second later, with
  // no failure in between.
  lemma UnwrittenAttemptRepeats(cfg: Config, w: World, loss: Event)
    requires MayAttempt(cfg, w) && LosesWrite(loss)
    requires DestroyName(cfg.key, w.now + 1000) !in w.updates
    requires w.stack.CurrentName() != Some(DestroyName(cfg.key, w.now))
    ensures var log := Run(cfg, w, ATTEMPT + [loss] + [Tick(1000)] + ATTEMPT).log;
            && |log| == |w.log| + 4 && IsAttempt(log[|w.log| + 1]) && IsAttempt(log[|w.log| + 3])
            && log[|w.log| + 3].at == log[|w.log| + 1].at + 1000 && !log[|w.log| + 2].DestroyFailureRecorded?
  {
    O.Joins(cfg, w, ATTEMPT, [loss], [Tick(1000)], ATTEMPT);
    Attempt(cfg, w);
    var v := Run(cfg, w, ATTEMPT);
    RunOf1(cfg, v, loss);
    O.LossForgetsName(cfg, v, loss);
    var v1 := Step(cfg, v, loss);
    RunOf1(cfg, v1, Tick(1000));
    var v2 := Step(cfg, v1, Tick(1000));
    LaterNameDiffers(cfg.key, w.now, w.now + 1000);
    MayAttemptLater(cfg, w, v2);
    Attempt(cfg, v2);
  }

  // So does the deletion of an attempt's Update by others.
  lemma DeletedAttemptRepeats(cfg: Config, w: World)
    requires MayAttempt(cfg, w) && DestroyName(cfg.key, w.now + 1000) !in w.updates
    ensures var vanish := [OutsideDelete(DestroyName(cfg.key, w.now), true)];
            var log := Run(cfg, w, ATTEMPT + ([ActStep(ALL_LAND)] + vanish + [Tick(1000)]) + ATTEMPT).log;
            && |log| == |w.log| + 4 && IsAttempt(log[|w.log| + 1]) && IsAttempt(log[|w.log| + 3])
            && log[|w.log| + 3].at == log[|w.log| + 1].at + 1000 && !log[|w.log| + 2].DestroyFailureRecorded?
  {
    var name := DestroyName(cfg.key, w.now);
    var vanish := [ActStep(ALL_LAND)] + [OutsideDelete(name, true)] + [Tick(1000)];
    O.Joins3(cfg, w, ATTEMPT, vanish, ATTEMPT);
    Attempt(cfg, w);
    var v := Run(cfg, w, ATTEMPT);
    AttemptVanishes(cfg, v, name);
    var v' := Run(cfg, v, vanish);
    assert v'.updates == w.updates by { assert w.updates[name := NewDestroy(w.now)] - {name} == w.updates; }
    MayAttemptLater(cfg, w, v');
    Attempt(cfg, v');
  }

  lemma AttemptVanishes(cfg: Config, v: World, name: string)
    requires v.phase.Acting? && v.phase.action == DestroyStarted(name)
    ensures var v' := Run(cfg, v, [ActStep(ALL_LAND)] + [OutsideDelete(name, true)] + [Tick(1000)]);
            && v'.phase == Idle && v'.now == v.now + 1000 && v'.log == v.log && v'.updates == v.updates - {name}
            && v'.stack == v.stack.(status := v'.stack.status) && v'.stack.CurrentName() == Some(name)
            && (v'.stack.status.lastUpdate.Some? ==> v'.stack.status.lastUpdate == v.stack.status.lastUpdate)
  {
    O.Joins3(cfg, v, [ActStep(ALL_LAND)], [OutsideDelete(name, true)], [Tick(1000)]);
    RunOf1(cfg, v, ActStep(ALL_LAND));
    AttemptWritten(cfg, v, name);
    var v1 := Step(cfg, v, ActStep(ALL_LAND));
    RunOf1(cfg, v1, OutsideDelete(name, true));
    RunOf1(cfg, Step(cfg, v1, OutsideDelete(name, true)), Tick(1000));
  }

  lemma AttemptWritten(cfg: Config, v: World, name: string)
    requires v.phase.Acting? && v.phase.action == DestroyStarted(name)
    ensures var v' := Step(cfg, v, ActStep(ALL_LAND));
            && v'.phase == Idle && v'.now == v.now && v'.log == v.log && v'.updates == v.updates
            && v'.stack == v.stack.(status := v'.stack.status) && v'.stack.CurrentName() == Some(name)
            && (v'.stack.status.lastUpdate.Some? ==> v'.stack.status.lastUpdate == v.stack.status.lastUpdate)
  {}
}
