/**
 The gates of one reconcile: what has to be out of the way before an Update is created, and what each
 gate answers while it is closed. The gates are stated from src/operator/reconcile/pipeline.rs on
 their own, and the pipeline of module Reconciler is proved to answer with the first closed one; over
 runs, every creation is proved to have passed all of them.
 */
module Gates {
  import opened Basics
  import opened Time
  import opened Messages
  import opened Api
  import opened UpdateCheck
  import opened Sync
  import opened Project
  import opened Pipeline
  import opened Actions
  import opened Lifecycle

  // A gate, and what the pipeline answers when it is the first closed one.
  datatype Gate = Gate(closed: bool, answer: Result<Action, Recovery>)

  function Found(us: Updates, stack: Stack): Option<Update> {
    var name := stack.CurrentName();
    if name.Some? && name.value in us then Some(us[name.value]) else None
  }

  predicate Cooling(stack: Stack, now: nat) {
    stack.status.lastUpdate.Some? &&
    var last := stack.status.lastUpdate.value;
    && last.state == Some(RunFailed) && last.kind == Some(Destroy) && last.failures >= 1
    && ElapsedSince(last.lastResyncTime, now) < 1000 * CooldownSecs(last.failures, stack.spec)
  }

  // The finalizer and the deletion: after these the Stack wants an Update or a destroy.
  function FinalizerGates(stack: Stack): seq<Gate> {
    [Gate(!stack.finalizer && !stack.Deleting(), Ok(AddFinalizer)),
     Gate(!stack.finalizer && stack.Deleting(), Ok(Done)),
     Gate(stack.Deleting() && (stack.spec.preview || !stack.spec.destroyOnFinalize), Ok(RemoveFinalizer))]
  }

  function ProjectGates(stack: Stack, now: nat, p: Probe): seq<Gate> {
    var verdict, pending := CheckProject(stack, p.project, now), stack.status.pendingDeletionSince;
    var days := if stack.spec.verification.Some? then stack.spec.verification.value.graceDays else 30;
    [Gate(verdict == Active && pending.Some?, Ok(ProjectReinstated)),
     Gate(verdict == NotFound && pending.Some? && ElapsedSince(pending, now) >= GraceMs(days), Ok(ProjectTtlExpired)),
     Gate(verdict == NotFound, Ok(ProjectNotFound))]
  }

  // What is left of the Update the status names.
  function NamedGates(us: Updates, stack: Stack, p: Probe, succeeded: Action, failed: Action): seq<Gate> {
    var name, found := stack.CurrentName(), Found(us, stack);
    var r := if found.Some? then CheckStatus(found.value.status) else Absent;
    [Gate(name.Some? && p.checkFails, Err(RetryWithBackoff(1_000, 30_000))),
     Gate(r == InProgress, Ok(WaitForUpdate(if name.Some? then name.value else ""))),
     Gate(r == Succeeded, Ok(succeeded)),
     Gate(r.FailedWith?, Ok(failed))]
  }

  function OrdinaryNamedGates(us: Updates, stack: Stack, p: Probe): seq<Gate> {
    var name, found := stack.CurrentName(), Found(us, stack);
    var n := if name.Some? then name.value else "";
    var r := if found.Some? then CheckStatus(found.value.status) else Absent;
    NamedGates(us, stack, p, UpdateSucceeded(n), UpdateFailed(n, if r.FailedWith? then r.message else ""))
  }

  function DestroyNamedGates(us: Updates, stack: Stack, p: Probe): seq<Gate> {
    var name, last := stack.CurrentName(), stack.status.lastUpdate;
    var n := if name.Some? then name.value else "";
    NamedGates(us, stack, p, RemoveFinalizerAfterDestroy,
               DestroyFailed(n, 1 + if last.Some? then last.value.failures else 0))
  }

  function SideGates(stack: Stack, now: nat, p: Probe): seq<Gate> {
    [Gate(p.source.Err?, Err(if p.source.Err? then p.source.error else Stall)),
     Gate(stack.spec.usesProgram && p.program.Some?, Err(if p.program.Some? then p.program.value else Stall)),
     Gate(p.source.Ok? && IsSynced(stack, p.source.value, now), Ok(Synced)),
     Gate(p.prerequisites.Some?, Err(if p.prerequisites.Some? then p.prerequisites.value else Stall))]
  }

  function CooldownGate(stack: Stack, now: nat): seq<Gate> {
    var last := stack.status.lastUpdate;
    var n := if last.Some? && last.value.name.Some? then last.value.name.value else "";
    [Gate(Cooling(stack, now), Ok(WaitForUpdate(n)))]
  }

  function WorkspaceGates(p: Probe): seq<Gate> {
    [Gate(p.workspace.Err?, Err(if p.workspace.Err? then p.workspace.error else Stall)),
     Gate(p.workspace == Ok(false), Ok(WaitForWorkspace))]
  }

  function AllGates(us: Updates, stack: Stack, now: nat, p: Probe): seq<Gate> {
    FinalizerGates(stack) +
    if stack.Deleting() then DestroyNamedGates(us, stack, p) + CooldownGate(stack, now) + WorkspaceGates(p)
    else ProjectGates(stack, now, p) + OrdinaryNamedGates(us, stack, p) + SideGates(stack, now, p) + WorkspaceGates(p)
  }

  function FirstClosed(gates: seq<Gate>): Option<Result<Action, Recovery>> {
    if gates == [] then None
    else if gates[0].closed then Some(gates[0].answer)
    else FirstClosed(gates[1..])
  }

  lemma {:induction false} FirstOfBoth(a: seq<Gate>, b: seq<Gate>)
    ensures FirstClosed(a + b) == if FirstClosed(a).Some? then FirstClosed(a) else FirstClosed(b)
  {
    if a == [] {
      assert a + b == b;
    } else {
      FirstOfBoth(a[1..], b);
      assert (a + b)[1..] == a[1..] + b;
    }
  }

  // The first closed gate is closed and no gate before it is; with none, all are open.
  lemma {:induction false} FirstClosedIsFirst(gates: seq<Gate>)
    ensures var a := FirstClosed(gates);
            if a.Some? then
              exists i :: 0 <= i < |gates| && gates[i].closed && gates[i].answer == a.value
                          && forall j :: 0 <= j < i ==> !gates[j].closed
            else forall i :: 0 <= i < |gates| ==> !gates[i].closed
  {
    if gates != [] && !gates[0].closed {
      FirstClosedIsFirst(gates[1..]);
      if FirstClosed(gates).Some? {
        var i :| 0 <= i < |gates[1..]| && gates[1..][i].closed && gates[1..][i].answer == FirstClosed(gates).value
                 && forall j :: 0 <= j < i ==> !gates[1..][j].closed;
        assert gates[i + 1].closed;
        forall j | 0 <= j < i + 1 ensures !gates[j].closed {
          if j > 0 { assert gates[j] == gates[1..][j - 1]; }
        }
      } else {
        forall i | 0 < i < |gates| ensures !gates[i].closed { assert gates[i] == gates[1..][i - 1]; }
      }
    }
  }

  // ------------------------------------------------------------ one reconcile

  // Where the decision chain ends, as an answer; None if it calls for a creation.
  function AnswerOf(d: Decision): Option<Result<Action, Recovery>> {
    match d
    case Decided(a) => Some(Ok(a))
    case Erred(r) => Some(Err(r))
    case _ => None
  }

  lemma FinalizerAnswers(us: Updates, stack: Stack, now: nat, p: Probe)
    ensures var a := FirstClosed(FinalizerGates(stack));
            if a.Some? then AnswerOf(Decide(us, stack, now, p)) == a
            else StackFinalizerAction(stack) == if stack.Deleting() then RunDestroy else NoAction
  {
    FirstOf3(FinalizerGates(stack));
  }

  lemma FirstOf2(g: seq<Gate>)
    requires |g| == 2
    ensures FirstClosed(g) == if g[0].closed then Some(g[0].answer) else if g[1].closed then Some(g[1].answer) else None
  {
    var rest := g[1..];
    assert rest[0] == g[1] && rest[1..] == [];
    assert FirstClosed(rest) == if g[1].closed then Some(g[1].answer) else None;
  }

  lemma FirstOf3(g: seq<Gate>)
    requires |g| == 3
    ensures FirstClosed(g) == if g[0].closed then Some(g[0].answer) else FirstClosed(g[1..])
    ensures FirstClosed(g[1..]) ==
              if g[1].closed then Some(g[1].answer) else if g[2].closed then Some(g[2].answer) else None
  {
    FirstOf2(g[1..]);
    assert g[1..][0] == g[1] && g[1..][1] == g[2];
  }

  lemma FirstOf4(g: seq<Gate>)
    requires |g| == 4
    ensures FirstClosed(g) ==
              if g[0].closed then Some(g[0].answer) else if g[1].closed then Some(g[1].answer)
              else if g[2].closed then Some(g[2].answer) else if g[3].closed then Some(g[3].answer) else None
  {
    FirstOf3(g[1..]);
    assert g[1..][1..][0] == g[2] && g[1..][1..][1] == g[3];
  }

  lemma ProjectAnswers(us: Updates, stack: Stack, now: nat, p: Probe)
    requires StackFinalizerAction(stack) == NoAction
    ensures var a, d := FirstClosed(ProjectGates(stack, now, p)), Decide(us, stack, now, p);
            if a.Some? then AnswerOf(d) == a else d == DecideUpdate(us, stack, now, p)
  {
    FirstOf3(ProjectGates(stack, now, p));
  }

  lemma NamedAnswers(us: Updates, stack: Stack, now: nat, p: Probe)
    ensures var a, d := FirstClosed(OrdinaryNamedGates(us, stack, p)), DecideUpdate(us, stack, now, p);
            if a.Some? then AnswerOf(d) == a else d == DecideNext(stack, now, p)
    ensures var a, d := FirstClosed(DestroyNamedGates(us, stack, p)), DecideDestroy(us, stack, now, p);
            if a.Some? then AnswerOf(d) == a else d == DecideNextDestroy(stack, now, p)
  {
    FirstOf4(OrdinaryNamedGates(us, stack, p));
    FirstOf4(DestroyNamedGates(us, stack, p));
  }

  lemma SideAnswers(stack: Stack, now: nat, p: Probe)
    requires !stack.Deleting()
    ensures var a := FirstClosed(SideGates(stack, now, p) + WorkspaceGates(p));
            var d := DecideNext(stack, now, p);
            AnswerOf(d) == a && (a.None? ==> p.source.Ok? && d == CreateUp(p.source.value))
  {
    FirstOfBoth(SideGates(stack, now, p), WorkspaceGates(p));
    FirstOf4(SideGates(stack, now, p));
    FirstOf2(WorkspaceGates(p));
  }

  lemma CooldownAnswers(stack: Stack, now: nat, p: Probe)
    ensures var a := FirstClosed(CooldownGate(stack, now) + WorkspaceGates(p));
            var d := DecideNextDestroy(stack, now, p);
            AnswerOf(d) == a && (a.None? ==> d == CreateDestroy)
  {
    FirstOfBoth(CooldownGate(stack, now), WorkspaceGates(p));
    FirstOf2(WorkspaceGates(p));
    assert CooldownGate(stack, now)[1..] == [];
  }

  lemma DestroyAnswers(us: Updates, stack: Stack, now: nat, p: Probe)
    requires stack.Deleting()
    ensures EndsAt(stack, p, Decide(us, stack, now, p), FirstClosed(AllGates(us, stack, now, p)))
  {
    FinalizerAnswers(us, stack, now, p);
    NamedAnswers(us, stack, now, p);
    CooldownAnswers(stack, now, p);
    var rest := CooldownGate(stack, now) + WorkspaceGates(p);
    FirstOfBoth(DestroyNamedGates(us, stack, p), rest);
    FirstOfBoth(FinalizerGates(stack), DestroyNamedGates(us, stack, p) + rest);
    assert AllGates(us, stack, now, p) == FinalizerGates(stack) + (DestroyNamedGates(us, stack, p) + rest);
  }

  lemma OrdinaryAnswers(us: Updates, stack: Stack, now: nat, p: Probe)
    requires !stack.Deleting()
    ensures EndsAt(stack, p, Decide(us, stack, now, p), FirstClosed(AllGates(us, stack, now, p)))
  {
    FinalizerAnswers(us, stack, now, p);
    NamedAnswers(us, stack, now, p);
    SideAnswers(stack, now, p);
    if FirstClosed(FinalizerGates(stack)).None? { ProjectAnswers(us, stack, now, p); }
    var rest := SideGates(stack, now, p) + WorkspaceGates(p);
    var named := OrdinaryNamedGates(us, stack, p) + rest;
    FirstOfBoth(OrdinaryNamedGates(us, stack, p), rest);
    FirstOfBoth(ProjectGates(stack, now, p), named);
    FirstOfBoth(FinalizerGates(stack), ProjectGates(stack, now, p) + named);
    assert AllGates(us, stack, now, p) == FinalizerGates(stack) + (ProjectGates(stack, now, p) + named);
  }

  // The decision is the answer of the first closed gate, and behind the last one a creation.
  predicate EndsAt(stack: Stack, p: Probe, d: Decision, a: Option<Result<Action, Recovery>>) {
    && AnswerOf(d) == a
    && (a.None? ==>
          if stack.Deleting() then d == CreateDestroy else p.source.Ok? && d == CreateUp(p.source.value))
  }

  lemma ChainAnswers(us: Updates, stack: Stack, now: nat, p: Probe)
    ensures EndsAt(stack, p, Decide(us, stack, now, p), FirstClosed(AllGates(us, stack, now, p)))
  {
    if stack.Deleting() { DestroyAnswers(us, stack, now, p); } else { OrdinaryAnswers(us, stack, now, p); }
  }

  // What one reconcile does, by the gates: while one is closed the first such answers and nothing
  // changes; with all open, a Stack under deletion gets a destroy Update, any other one for the
  // commit the source resolved to.
  ghost predicate Obeys(key: string, us: Updates, lastCommit: Option<string>, stack: Stack, now: nat, p: Probe,
                        f: CreateFaults, us': Updates, lastCommit': Option<string>, r: Result<Action, Recovery>)
  {
    var a := FirstClosed(AllGates(us, stack, now, p));
    if a.Some? then
      us' == us && lastCommit' == lastCommit && r == a.value
    else if stack.Deleting() then
      var name := key + "-destroy-" + Decimal(now / 1000);
      && lastCommit' == lastCommit
      && if f.createFails || name in us then us' == us && r == Err(RetryWithBackoff(1_000, 30_000))
         else us' == us[name := Update(Destroy, true, false, None, now, None)] && r == Ok(DestroyStarted(name))
    else
      && p.source.Ok?
      && var commit := p.source.value;
         var name := key + "-" + if |commit| < 8 then commit else commit[..8];
         var u := Update(if stack.spec.preview then Preview else Up, true, false, None, now, Some(commit));
         && Creates(us, name, u, f, us', if r.Ok? then Ok(name) else Err(r.error))
         && (if r.Ok? then r == Ok(UpdateCreated(name)) && lastCommit' == Some(commit) else lastCommit' == lastCommit)
  }

  lemma FirstGateAnswers(key: string, us: Updates, lastCommit: Option<string>, stack: Stack, now: nat, p: Probe,
                         f: CreateFaults)
    ensures var (us', lastCommit', r) := Pipelined(key, us, lastCommit, stack, now, p, f);
            Obeys(key, us, lastCommit, stack, now, p, f, us', lastCommit', r)
  {
    ChainAnswers(us, stack, now, p);
    if p.source.Ok? {
      CreationMeans(us, UpName(key, p.source.value), NewUpdate(stack, p.source.value, now), f);
    }
  }

  // ---------------------------------------------------- what a creation needs

  // `named` is what is left of the Update the status names.
  predicate UpIsDue(stack: Stack, named: Option<Update>, now: nat, p: Probe) {
    var verdict := CheckProject(stack, p.project, now);
    && stack.finalizer && !stack.Deleting()
    && verdict != NotFound && (verdict == Active ==> stack.status.pendingDeletionSince.None?)
    && named.None? && (stack.CurrentName().Some? ==> !p.checkFails)
    && p.source.Ok? && (stack.spec.usesProgram ==> p.program.None?)
    && !IsSynced(stack, p.source.value, now)
    && p.prerequisites.None? && p.workspace == Ok(true)
  }

  predicate DestroyIsDue(stack: Stack, named: Option<Update>, now: nat, p: Probe) {
    && stack.finalizer && stack.Deleting() && stack.spec.destroyOnFinalize && !stack.spec.preview
    && named.None? && (stack.CurrentName().Some? ==> !p.checkFails)
    && !Cooling(stack, now) && p.workspace == Ok(true)
  }

  lemma DecisionIsDue(us: Updates, stack: Stack, now: nat, p: Probe)
    ensures Decide(us, stack, now, p).CreateUp? <==> UpIsDue(stack, Found(us, stack), now, p)
    ensures Decide(us, stack, now, p) == CreateDestroy <==> DestroyIsDue(stack, Found(us, stack), now, p)
  {}

  lemma DecisionCreatesNothing(us: Updates, stack: Stack, now: nat, p: Probe)
    ensures var d := Decide(us, stack, now, p);
            && (d.Decided? ==> !d.action.UpdateCreated? && !d.action.DestroyStarted?)
            && (d.CreateUp? ==> p.source == Ok(d.commit))
  {}

  lemma CompletedCreates(key: string, us: Updates, lastCommit: Option<string>, stack: Stack, now: nat, d: Decision,
                         f: CreateFaults)
    requires !f.createFails && DestroyName(key, now) !in us
    requires d.CreateUp? ==> UpName(key, d.commit) !in us
    requires d.Decided? ==> !d.action.UpdateCreated? && !d.action.DestroyStarted?
    ensures var (us', lastCommit', r) := Completed(key, us, lastCommit, stack, now, d, f);
            && (d.CreateUp? <==> r.Ok? && r.value.UpdateCreated?)
            && (d.CreateDestroy? <==> r.Ok? && r.value.DestroyStarted?)
            && (us' != us <==> r.Ok? && (r.value.UpdateCreated? || r.value.DestroyStarted?))
            && (lastCommit' != lastCommit ==> r.Ok? && r.value.UpdateCreated?)
  {}

  // An Update is created exactly when all of this is in place and the API server takes it.
  lemma CreatedExactlyWhen(key: string, us: Updates, lastCommit: Option<string>, stack: Stack, now: nat, p: Probe,
                           f: CreateFaults)
    requires !f.createFails && UpName(key, if p.source.Ok? then p.source.value else "") !in us
    requires DestroyName(key, now) !in us
    ensures var (us', lastCommit', r) := Pipelined(key, us, lastCommit, stack, now, p, f);
            && (UpIsDue(stack, Found(us, stack), now, p) <==> r.Ok? && r.value.UpdateCreated?)
            && (DestroyIsDue(stack, Found(us, stack), now, p) <==> r.Ok? && r.value.DestroyStarted?)
            && (us' != us <==> r.Ok? && (r.value.UpdateCreated? || r.value.DestroyStarted?))
            && (lastCommit' != lastCommit ==> r.Ok? && r.value.UpdateCreated?)
  {
    DecisionIsDue(us, stack, now, p);
    DecisionCreatesNothing(us, stack, now, p);
    CompletedCreates(key, us, lastCommit, stack, now, Decide(us, stack, now, p), f);
  }

  // ------------------------------------------------------------- in every run

  // The entry before a creation shows what it had passed.
  ghost predicate HasPassed(cfg: Config, before: Entry, e: Entry)
    requires e.Created?
  {
    && before.Passed? && before.snap == e.snap && before.at <= e.at
    && if e.kind == Destroy then
         && DestroyIsDue(before.snap, before.named, before.at, before.probe)
         && e.name == cfg.key + "-destroy-" + Decimal(e.at / 1000)
       else
         && UpIsDue(before.snap, before.named, before.at, before.probe)
         && e.kind == (if e.snap.spec.preview then Preview else Up)
         && var commit := before.probe.source.value;
            e.name == cfg.key + "-" + if |commit| < 8 then commit else commit[..8]
  }

  ghost predicate CreationsPassed(cfg: Config, log: seq<Entry>) {
    forall i :: 0 <= i < |log| && log[i].Created? ==> i > 0 && HasPassed(cfg, log[i - 1], log[i])
  }

  // A reconcile about to create has just passed.
  ghost predicate Gated(cfg: Config, w: World) {
    && CreationsPassed(cfg, w.log)
    && (w.phase.Creating? ==> w.log != [] && HasJustPassed(w, w.log[|w.log| - 1]))
  }

  predicate HasJustPassed(w: World, e: Entry)
    requires w.phase.Creating?
  {
    && e.Passed? && e.snap == w.phase.snap && e.at <= w.now
    && if w.phase.commit.Some? then
         UpIsDue(e.snap, e.named, e.at, e.probe) && e.probe.source.value == w.phase.commit.value
       else DestroyIsDue(e.snap, e.named, e.at, e.probe)
  }

  lemma PassedExtends(cfg: Config, log: seq<Entry>, more: seq<Entry>)
    requires CreationsPassed(cfg, log) && forall i :: 0 <= i < |more| ==> !more[i].Created?
    ensures CreationsPassed(cfg, log + more)
  {
    forall i | 0 <= i < |log + more| && (log + more)[i].Created?
      ensures i > 0 && HasPassed(cfg, (log + more)[i - 1], (log + more)[i])
    {
      assert (log + more)[i] == log[i];
    }
  }

  lemma GatedAfterDecision(cfg: Config, w: World, snap: Stack, p: Probe, d: Decision, more: seq<Entry>)
    requires Gated(cfg, w) && w.phase == HasRead(snap)
    requires forall i :: 0 <= i < |more| ==> !more[i].Created?
    requires d.CreateUp? || d.CreateDestroy? ==>
               more != [] && more[|more| - 1] == Passed(w.now, snap, p, Found(w.updates, snap))
    requires d.CreateUp? ==> UpIsDue(snap, Found(w.updates, snap), w.now, p) && d.commit == p.source.value
    requires d.CreateDestroy? ==> DestroyIsDue(snap, Found(w.updates, snap), w.now, p)
    ensures Gated(cfg, AfterDecision(w.(log := w.log + more), snap, d))
  {
    PassedExtends(cfg, w.log, more);
  }

  lemma GatedDecide(cfg: Config, w: World, p: Probe)
    requires Gated(cfg, w)
    ensures Gated(cfg, DecidePhase(w, p))
  {
    if w.phase.HasRead? {
      var snap := w.phase.snap;
      ChainAnswers(w.updates, snap, w.now, p);
      DecisionIsDue(w.updates, snap, w.now, p);
      PassingIsLast(w, snap, p);
      GatedAfterDecision(cfg, w, snap, p, Decide(w.updates, snap, w.now, p), Observed(w, snap, p));
    }
  }

  lemma PassingIsLast(w: World, snap: Stack, p: Probe)
    ensures var d, more := Decide(w.updates, snap, w.now, p), Observed(w, snap, p);
            && (forall i :: 0 <= i < |more| ==> !more[i].Created?)
            && (d.CreateUp? || d.CreateDestroy? ==>
                  more != [] && more[|more| - 1] == Passed(w.now, snap, p, Found(w.updates, snap)))
  {}

  lemma GatedCreate(cfg: Config, w: World, f: CreateFaults)
    requires Gated(cfg, w)
    ensures Gated(cfg, CreatePhase(cfg, w, f))
  {
    if w.phase.Creating? && w.phase.commit.Some? {
      var commit := w.phase.commit.value;
      CreationMeans(w.updates, UpName(cfg.key, commit), NewUpdate(w.phase.snap, commit, w.now), f);
    }
  }

  lemma GatedAct(cfg: Config, w: World, f: ActFaults)
    requires Gated(cfg, w)
    ensures Gated(cfg, ActPhase(cfg, w, f))
  {
    if w.phase.Acting? { PassedExtends(cfg, w.log, Outcomes(w, f)); }
  }

  lemma GatedStep(cfg: Config, w: World, e: Event)
    requires Gated(cfg, w)
    ensures Gated(cfg, Step(cfg, w, e))
  {
    match e
    case Read(_) =>
    case DecideStep(p) => GatedDecide(cfg, w, p);
    case CreateStep(f) => GatedCreate(cfg, w, f);
    case ActStep(f) => GatedAct(cfg, w, f);
    case _ =>
  }

  // In every run, whatever is lost or restarted: every creation comes right after a decision for
  // which nothing stood in its way, and is of the kind and name that decision calls for.
  lemma {:induction false} CreationsPassGates(cfg: Config, w: World, es: seq<Event>)
    requires Initial(w)
    ensures Gated(cfg, Run(cfg, w, es)) && CreationsPassed(cfg, Run(cfg, w, es).log)
  {
    if es != [] {
      var k := |es| - 1;
      CreationsPassGates(cfg, w, es[..k]);
      GatedStep(cfg, Run(cfg, w, es[..k]), es[k]);
    }
  }
}
