/**
 The decisions of one reconcile as functions: src/operator/finalizers.rs and
 src/operator/reconcile/pipeline.rs. Module Reconciler carries the same steps out on mutable
 state and is proved against these functions.

 Every call that leaves the process is an input: a Probe for the reads and side services of the
 decision chain, CreateFaults for the calls that create the Update.
 */
module Pipeline {
  import opened Basics
  import opened Time
  import opened Messages
  import opened Api
  import opened UpdateCheck
  import opened Sync
  import opened Project

  datatype FinalizerAction = Add | NoAction | AlreadyFinalized | RemoveImmediately | RunDestroy

  function StackFinalizerAction(stack: Stack): FinalizerAction {
    match (stack.finalizer, stack.Deleting(), stack.spec.destroyOnFinalize, stack.spec.preview)
    case (false, false, _, _) => Add
    case (true, false, _, _) => NoAction
    case (false, true, _, _) => AlreadyFinalized
    case (true, true, _, true) => RemoveImmediately
    case (true, true, false, _) => RemoveImmediately
    case _ => RunDestroy
  }

  datatype Action =
    | AddFinalizer
    | Done
    | RemoveFinalizer
    | WaitForUpdate(name: string)
    | Synced
    | WaitForWorkspace
    | UpdateCreated(name: string)
    | DestroyStarted(name: string)
    | DestroyFailed(name: string, failures: int)
    | RemoveFinalizerAfterDestroy
    | ProjectNotFound
    | ProjectReinstated
    | ProjectTtlExpired
    | UpdateSucceeded(name: string)
    | UpdateFailed(name: string, message: Legible)

  // The three ways an error is recovered from (src/core/recovery.rs).
  datatype Recovery = RetryWithBackoff(baseMs: nat, maxMs: nat) | Stall | ForceUnlockAndRetry

  const KUBE_RETRY := RetryWithBackoff(1_000, 30_000)

  datatype Probe = Probe(
    checkFails: bool,
    project: Verdict,
    source: Result<string, Recovery>,
    program: Option<Recovery>,
    prerequisites: Option<Recovery>,
    workspace: Result<bool, Recovery>)

  // Where the decision chain ends: an action, an error, or the creation of an Update.
  datatype Decision =
    | Decided(action: Action)
    | Erred(recovery: Recovery)
    | CreateUp(commit: string)
    | CreateDestroy

  function Decide(us: Updates, stack: Stack, now: nat, p: Probe): Decision {
    match StackFinalizerAction(stack)
    case Add => Decided(AddFinalizer)
    case AlreadyFinalized => Decided(Done)
    case RemoveImmediately => Decided(RemoveFinalizer)
    case RunDestroy => DecideDestroy(us, stack, now, p)
    case NoAction =>
      match CheckProject(stack, p.project, now)
      case Active =>
        if stack.status.pendingDeletionSince.Some? then Decided(ProjectReinstated)
        else DecideUpdate(us, stack, now, p)
      case NotFound =>
        if && stack.status.pendingDeletionSince.Some?
           && IsGraceExpired(stack.status.pendingDeletionSince.value, GraceDays(stack.spec), now)
        then Decided(ProjectTtlExpired)
        else Decided(ProjectNotFound)
      case _ => DecideUpdate(us, stack, now, p)
  }

  function GraceDays(spec: Spec): int {
    if spec.verification.Some? then spec.verification.value.graceDays else 30
  }

  // Steps 1 to 7: the outstanding Update, then source, sync test, prerequisites and workspace.
  function DecideUpdate(us: Updates, stack: Stack, now: nat, p: Probe): Decision {
    match stack.CurrentName()
    case None => DecideNext(stack, now, p)
    case Some(name) =>
      if p.checkFails then Erred(KUBE_RETRY)
      else
        match CheckUpdate(us, name)
        case InProgress => Decided(WaitForUpdate(name))
        case Succeeded => Decided(UpdateSucceeded(name))
        case FailedWith(message) => Decided(UpdateFailed(name, message))
        case Absent => DecideNext(stack, now, p)
  }

  function DecideNext(stack: Stack, now: nat, p: Probe): Decision {
    if stack.Deleting() then Decided(Done)
    else if p.source.Err? then Erred(p.source.error)
    else if stack.spec.usesProgram && p.program.Some? then Erred(p.program.value)
    else if IsSynced(stack, p.source.value, now) then Decided(Synced)
    else if p.prerequisites.Some? then Erred(p.prerequisites.value)
    else if p.workspace.Err? then Erred(p.workspace.error)
    else if !p.workspace.value then Decided(WaitForWorkspace)
    else CreateUp(p.source.value)
  }

  function PriorFailures(stack: Stack): int {
    if stack.status.lastUpdate.Some? then stack.status.lastUpdate.value.failures else 0
  }

  predicate InDestroyCooldown(stack: Stack, now: nat) {
    stack.status.lastUpdate.Some? &&
    var last := stack.status.lastUpdate.value;
    && last.state == Some(RunFailed)
    && last.kind == Some(Destroy)
    && last.failures > 0
    && ElapsedSince(last.lastResyncTime, now) < Cooldown(last.failures, stack.spec)
  }

  function DecideDestroy(us: Updates, stack: Stack, now: nat, p: Probe): Decision {
    match stack.CurrentName()
    case None => DecideNextDestroy(stack, now, p)
    case Some(name) =>
      if p.checkFails then Erred(KUBE_RETRY)
      else
        match CheckUpdate(us, name)
        case InProgress => Decided(WaitForUpdate(name))
        case Succeeded => Decided(RemoveFinalizerAfterDestroy)
        case FailedWith(_) => Decided(DestroyFailed(name, PriorFailures(stack) + 1))
        case Absent => DecideNextDestroy(stack, now, p)
  }

  function DecideNextDestroy(stack: Stack, now: nat, p: Probe): Decision {
    if InDestroyCooldown(stack, now) then
      Decided(WaitForUpdate(var n := stack.status.lastUpdate.value.name; if n.Some? then n.value else ""))
    else if p.workspace.Err? then Erred(p.workspace.error)
    else if !p.workspace.value then Decided(WaitForWorkspace)
    else CreateDestroy
  }

  // -------------------------------------------------------------- creation

  function HexShort(commit: string): string {
    if |commit| >= 8 then commit[..8] else commit
  }

  function UpName(key: string, commit: string): string {
    key + "-" + HexShort(commit)
  }

  function DestroyName(key: string, now: nat): string {
    key + "-destroy-" + Decimal(now / 1000)
  }

  // The 409 recovery of an ordinary Update can never hit a destroy Update: the names differ.
  lemma UpdateNamesDisjoint(key: string, commit: string, now: nat)
    ensures UpName(key, commit) != DestroyName(key, now)
  {
    assert |DestroyName(key, now)| >= |key| + 9 + 1;
    assert |UpName(key, commit)| <= |key| + 1 + 8;
  }

  function NewUpdate(stack: Stack, commit: string, now: nat): Update {
    Update(if stack.spec.preview then Preview else Up, true, false, None, now, Some(commit))
  }

  function NewDestroy(now: nat): Update {
    Update(Destroy, true, false, None, now, None)
  }

  // How the API calls of a creation go: the create itself, then on a 409 the object vanishing
  // before it is read, the read, the finalizer strip, the delete and the second create.
  datatype CreateFaults = CreateFaults(
    createFails: bool,
    vanishes: bool,
    checkFails: bool,
    stripLands: bool,
    deleteLands: bool,
    recreateFails: bool)

  // Plain creation: fails on a server error or an existing name.
  function TryCreate(us: Updates, name: string, u: Update, fails: bool): (Updates, bool) {
    if fails || name in us then (us, false) else (us[name := u], true)
  }

  function Cleared(us: Updates, name: string, f: CreateFaults): Updates {
    var stripped := if f.stripLands then StripFinalizer(us, name) else us;
    if f.deleteLands then DeleteUpdate(stripped, name) else stripped
  }

  function CreateUpdate(us: Updates, name: string, u: Update, f: CreateFaults)
    : (Updates, Result<string, Recovery>)
  {
    if f.createFails then (us, Err(KUBE_RETRY))
    else if name !in us then (us[name := u], Ok(name))
    else if f.checkFails then (us, Err(KUBE_RETRY))
    else
      var found := if f.vanishes then us - {name} else us;
      if CheckUpdate(found, name) == InProgress then (found, Ok(name))
      else
        var (us', ok) := TryCreate(Cleared(found, name, f), name, u, f.recreateFails);
        (us', if ok then Ok(name) else Err(KUBE_RETRY))
  }

  function CreateDestroyUpdate(us: Updates, name: string, u: Update, f: CreateFaults)
    : (Updates, Result<string, Recovery>)
  {
    var (us', ok) := TryCreate(us, name, u, f.createFails);
    (us', if ok then Ok(name) else Err(KUBE_RETRY))
  }

  // The pipeline as one function: decide, then create if that is the decision.
  function Pipelined(key: string, us: Updates, lastCommit: Option<string>, stack: Stack, now: nat,
                     p: Probe, f: CreateFaults): (Updates, Option<string>, Result<Action, Recovery>)
  {
    Completed(key, us, lastCommit, stack, now, Decide(us, stack, now, p), f)
  }

  function Completed(key: string, us: Updates, lastCommit: Option<string>, stack: Stack, now: nat,
                     d: Decision, f: CreateFaults): (Updates, Option<string>, Result<Action, Recovery>)
  {
    match d
    case Decided(a) => (us, lastCommit, Ok(a))
    case Erred(r) => (us, lastCommit, Err(r))
    case CreateUp(commit) =>
      var (us', r) := CreateUpdate(us, UpName(key, commit), NewUpdate(stack, commit, now), f);
      if r.Ok? then (us', Some(commit), Ok(UpdateCreated(r.value))) else (us', lastCommit, Err(r.error))
    case CreateDestroy =>
      var (us', r) := CreateDestroyUpdate(us, DestroyName(key, now), NewDestroy(now), f);
      (us', lastCommit, if r.Ok? then Ok(DestroyStarted(r.value)) else Err(r.error))
  }

  // What a creation makes of the Updates, in terms of what bears the name: a running Update is
  // reused; a finished one is replaced if strip and delete together remove it; anything else is an
  // error that is retried. No other Update is touched.
  ghost predicate Creates(us: Updates, name: string, u: Update, f: CreateFaults, us': Updates,
                          r: Result<string, Recovery>)
  {
    && (forall n :: n != name ==> (n in us' <==> n in us) && (n in us ==> us'[n] == us[n]))
    && (r == Ok(name) || r == Err(RetryWithBackoff(1_000, 30_000)))
    && (name !in us ==> (r.Ok? <==> !f.createFails) && us' == if r.Ok? then us[name := u] else us)
    && (name in us && (f.createFails || f.checkFails) ==> r.Err? && us' == us)
    && (name in us && !f.createFails && !f.checkFails ==>
          var was := us[name];
          var gone := || f.vanishes || (f.stripLands && was.deleting)
                      || (f.deleteLands && (f.stripLands || !was.finalizer));
          if !f.vanishes && CheckStatus(was.status) == InProgress then
            r.Ok? && us' == us
          else if gone then
            (r.Ok? <==> !f.recreateFails) && us' == if r.Ok? then us[name := u] else us - {name}
          else
            && r.Err? && name in us'
            && us'[name] ==
                 was.(finalizer := was.finalizer && !f.stripLands, deleting := was.deleting || f.deleteLands))
  }

  lemma CreationMeans(us: Updates, name: string, u: Update, f: CreateFaults)
    ensures var (us', r) := CreateUpdate(us, name, u, f); Creates(us, name, u, f, us', r)
  {
    if name in us && !f.createFails && !f.checkFails {
      var found := if f.vanishes then us - {name} else us;
      var left := Cleared(found, name, f);
      assert found[name := u] == us[name := u] && left[name := u] == us[name := u];
    }
  }
}
