/**
 The Kubernetes objects the reconciler reads and writes (src/api/stack.rs,
 src/api/update.rs, src/api/conditions.rs), restricted to the fields its logic
 depends on, with the effect of the API calls it makes on them.
 */
module Api {
  import opened Basics
  import opened Time
  import opened Messages

  // ---------------------------------------------------------------- Update

  datatype UpdateKind = Preview | Up | Destroy | Refresh

  datatype ConditionKind = Progressing | Complete | Failed | OtherKind

  datatype ConditionStatus = True | False | Unknown

  datatype Condition = Condition(kind: ConditionKind, status: ConditionStatus, message: Option<Legible>)

  // `commit` is not a field of the resource: it records, for the properties below, which commit
  // the Update was created for.
  datatype Update = Update(
    kind: UpdateKind,
    finalizer: bool,
    deleting: bool,
    status: Option<seq<Condition>>,
    createdAt: nat,
    commit: Option<string>)

  type Updates = map<string, Update>

  // An object being deleted disappears with its finalizer; one without a finalizer at once.
  function StripFinalizer(us: Updates, name: string): Updates {
    if name !in us then us
    else if us[name].deleting then us - {name}
    else us[name := us[name].(finalizer := false)]
  }

  function DeleteUpdate(us: Updates, name: string): Updates {
    if name !in us then us
    else if us[name].finalizer then us[name := us[name].(deleting := true)]
    else us - {name}
  }

  // ----------------------------------------------------------------- Stack

  datatype ProjectVerification = ProjectVerification(graceDays: int, removeFinalizerOnExpiry: bool)

  datatype Spec = Spec(
    destroyOnFinalize: bool,
    preview: bool,
    continueResync: bool,
    resyncFrequencySecs: int,
    retryMaxBackoffSecs: int,
    lockTimeoutSecs: int,
    verification: Option<ProjectVerification>,
    usesProgram: bool)

  datatype RunState = RunSucceeded | RunFailed | RunUnrecognised

  datatype LastUpdate = LastUpdate(
    generation: int,
    reconcileRequest: Option<string>,
    name: Option<string>,
    kind: Option<UpdateKind>,
    state: Option<RunState>,
    lastAttemptedCommit: Option<string>,
    lastSuccessfulCommit: Option<string>,
    lastResyncTime: Option<Timestamp>,
    failures: int)

  datatype CurrentUpdate = CurrentUpdate(generation: int, name: Option<string>)

  // Result of a cloud-project check, also as cached in the status.
  datatype Verdict = NotConfigured | Active | NotFound | CheckError

  datatype ProjectCheck = ProjectCheck(checkedAt: Timestamp, result: Verdict)

  datatype Status = Status(
    currentUpdate: Option<CurrentUpdate>,
    lastUpdate: Option<LastUpdate>,
    pendingDeletionSince: Option<Timestamp>,
    lastProjectCheck: Option<ProjectCheck>)

  const EMPTY_STATUS := Status(None, None, None, None)

  datatype Stack = Stack(
    finalizer: bool,
    deletedAt: Option<nat>,
    generation: int,
    annotation: Option<string>,
    spec: Spec,
    status: Status)
  {
    predicate Deleting() { deletedAt.Some? }

    // The name in `status.currentUpdate`, if there is one.
    function CurrentName(): Option<string> {
      match status.currentUpdate
      case Some(CurrentUpdate(_, name)) => name
      case None => None
    }
  }

  // -------------------------------------------------------- status patches

  // One field of a server-side-apply patch: left out, null, or a value.
  datatype Field<+T> = Omitted | Null | Set(value: T)

  datatype LastUpdatePatch = LastUpdatePatch(
    generation: int,
    name: string,
    kind: UpdateKind,
    state: RunState,
    lastAttemptedCommit: Field<string>,
    lastSuccessfulCommit: Field<string>,
    lastResyncTime: Timestamp,
    failures: int)

  datatype StatusPatch = StatusPatch(
    currentUpdate: Field<CurrentUpdate>,
    lastUpdate: Field<LastUpdatePatch>,
    pendingDeletionSince: Field<Timestamp>,
    lastProjectCheck: Field<ProjectCheck>)

  // With `keep` an omitted field keeps its value; without, the field manager gives it up and it
  // disappears.
  function Applied<T>(keep: bool, prior: Option<T>, f: Field<T>): Option<T> {
    match f
    case Omitted => if keep then prior else None
    case Null => None
    case Set(v) => Some(v)
  }

  function AppliedLast(keep: bool, prior: Option<LastUpdate>, f: Field<LastUpdatePatch>): Option<LastUpdate> {
    match f
    case Omitted => if keep then prior else None
    case Null => None
    case Set(p) =>
      Some(LastUpdate(
             p.generation,
             if keep && prior.Some? then prior.value.reconcileRequest else None,
             Some(p.name),
             Some(p.kind),
             Some(p.state),
             Applied(keep, if prior.Some? then prior.value.lastAttemptedCommit else None, p.lastAttemptedCommit),
             Applied(keep, if prior.Some? then prior.value.lastSuccessfulCommit else None, p.lastSuccessfulCommit),
             Some(p.lastResyncTime),
             p.failures))
  }

  function ApplyPatch(keep: bool, s: Status, p: StatusPatch): Status {
    Status(
      Applied(keep, s.currentUpdate, p.currentUpdate),
      AppliedLast(keep, s.lastUpdate, p.lastUpdate),
      Applied(keep, s.pendingDeletionSince, p.pendingDeletionSince),
      Applied(keep, s.lastProjectCheck, p.lastProjectCheck))
  }
}
