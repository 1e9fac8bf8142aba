/**
 Execution of Updates (`run_update_watcher` and `execute_update` of
 src/operator/controllers/mod.rs): the set of keys in progress, the background tasks, and the
 conditions they write. Each task is four steps - start, stream, report, leave the set - and all
 tasks, watch events and outside changes interleave. An event carries the Update as it was when the
 event was made, which may be long ago.
 */
module Executor {
  import opened Basics
  import opened Messages
  import opened Api
  import opened UpdateCheck

  type Key = string

  // `uid` tells apart Updates that bear one name one after another. `writer` is no field of the
  // resource: it records whose execution wrote the status last.
  datatype Object = Object(uid: nat, status: Option<seq<Condition>>, hasWorkspace: bool, writer: Option<nat>)

  datatype Stage = Starting | Streaming | Leaving

  // `uid` is that of the Update in the event that started the task.
  datatype ExecTask = ExecTask(key: Key, uid: nat, stage: Stage)

  // `pending`: keys with a watch event for their present state still to be delivered.
  datatype Plant = Plant(
    objects: map<Key, Object>,
    nextUid: nat,
    pending: set<Key>,
    inProgress: set<Key>,
    tasks: seq<ExecTask>)

  datatype Move =
    | Create(key: Key, hasWorkspace: bool)
    | Remove(key: Key)
    | Relist
    | Restart
    | Deliver(key: Key, seen: Object)
    | Start(task: nat, lands: bool)
    | Report(task: nat, error: Option<Legible>, lands: bool)
    | Leave(task: nat)

  function Outcome(error: Option<Legible>): seq<Condition> {
    if error.Some? then FailedStatus(error.value) else SucceededStatus()
  }

  // A patch goes by name: it lands on whatever object now bears it.
  function Write(p: Plant, t: ExecTask, cs: seq<Condition>): Plant {
    if t.key in p.objects then
      p.(objects := p.objects[t.key := p.objects[t.key].(status := Some(cs), writer := Some(t.uid))],
         pending := p.pending + {t.key})
    else p
  }

  function OnEvent(p: Plant, key: Key, seen: Object): Plant {
    if !NeedsExecution(seen.status) || key in p.inProgress || !seen.hasWorkspace then p
    else p.(inProgress := p.inProgress + {key}, tasks := p.tasks + [ExecTask(key, seen.uid, Starting)])
  }

  predicate UpToDate(p: Plant, key: Key, seen: Object) {
    key in p.objects && seen == p.objects[key]
  }

  function StartTask(p: Plant, i: nat, lands: bool): Plant
    requires i < |p.tasks|
  {
    var t := p.tasks[i];
    if !t.stage.Starting? then p
    else if lands && t.key in p.objects then
      Write(p, t, ProgressingStatus()).(tasks := p.tasks[i := t.(stage := Streaming)])
    else p.(tasks := p.tasks[i := t.(stage := Leaving)])
  }

  function ReportTask(p: Plant, i: nat, error: Option<Legible>, lands: bool): Plant
    requires i < |p.tasks|
  {
    var t := p.tasks[i];
    if !t.stage.Streaming? then p
    else (if lands then Write(p, t, Outcome(error)) else p).(tasks := p.tasks[i := t.(stage := Leaving)])
  }

  function LeaveTask(p: Plant, i: nat): Plant
    requires i < |p.tasks|
  {
    var t := p.tasks[i];
    if !t.stage.Leaving? then p
    else p.(inProgress := p.inProgress - {t.key}, tasks := p.tasks[..i] + p.tasks[i + 1..])
  }

  function CreateObject(p: Plant, key: Key, hasWorkspace: bool): Plant {
    if key in p.objects then p
    else
      p.(objects := p.objects[key := Object(p.nextUid, None, hasWorkspace, None)],
         nextUid := p.nextUid + 1,
         pending := p.pending + {key})
  }

  function Step(p: Plant, m: Move): Plant {
    match m
    case Create(k, w) => CreateObject(p, k, w)
    case Remove(k) => p.(objects := p.objects - {k}, pending := p.pending - {k})
    case Relist => p.(pending := p.objects.Keys)
    // The tasks die with the process, and the new watch begins with a list.
    case Restart => p.(pending := p.objects.Keys, inProgress := {}, tasks := [])
    case Deliver(k, seen) =>
      OnEvent(if UpToDate(p, k, seen) then p.(pending := p.pending - {k}) else p, k, seen)
    case Start(i, lands) => if i < |p.tasks| then StartTask(p, i, lands) else p
    case Report(i, error, lands) => if i < |p.tasks| then ReportTask(p, i, error, lands) else p
    case Leave(i) => if i < |p.tasks| then LeaveTask(p, i) else p
  }

  function Run(p: Plant, ms: seq<Move>): Plant {
    if ms == [] then p else Step(Run(p, ms[..|ms| - 1]), ms[|ms| - 1])
  }

  predicate Empty(p: Plant) {
    p.objects == map[] && p.pending == {} && p.inProgress == {} && p.tasks == []
  }

  // A hypothesis about every move of a run, in the state it meets.
  ghost predicate Throughout(p: Plant, ms: seq<Move>, holds: (Plant, Move) -> bool) {
    forall i :: 0 <= i < |ms| ==> HoldsAt(p, ms, i, holds)
  }

  ghost predicate HoldsAt(p: Plant, ms: seq<Move>, i: nat, holds: (Plant, Move) -> bool)
    requires i < |ms|
  {
    holds(Run(p, ms[..i]), ms[i])
  }

  lemma ThroughoutInit(p: Plant, ms: seq<Move>, holds: (Plant, Move) -> bool)
    requires ms != [] && Throughout(p, ms, holds)
    ensures Throughout(p, ms[..|ms| - 1], holds) && holds(Run(p, ms[..|ms| - 1]), ms[|ms| - 1])
  {
    var init := ms[..|ms| - 1];
    assert HoldsAt(p, ms, |ms| - 1, holds);
    forall i | 0 <= i < |init| ensures HoldsAt(p, init, i, holds) {
      assert HoldsAt(p, ms, i, holds);
      assert init[..i] == ms[..i];
    }
  }

  // The event carries the present state of the object.
  predicate CurrentEvents(p: Plant, m: Move) {
    m.Deliver? ==> UpToDate(p, m.key, m.seen)
  }

  // No Update is created under a name while a task of that name runs.
  predicate SparesTasks(p: Plant, m: Move) {
    m.Create? && m.key !in p.objects ==> m.key !in p.inProgress
  }

  // The progress patch of a task lands if there is an object to land on.
  predicate StartsLand(p: Plant, m: Move) {
    m.Start? && m.task < |p.tasks| && p.tasks[m.task].stage.Starting? && p.tasks[m.task].key in p.objects ==> m.lands
  }

  // -------------------------------------------------------------- exclusion

  // The set holds exactly the keys with one running task.
  ghost predicate Exclusive(p: Plant) {
    && (forall i, j :: 0 <= i < j < |p.tasks| ==> p.tasks[i].key != p.tasks[j].key)
    && (forall k :: k in p.inProgress <==> exists i :: 0 <= i < |p.tasks| && p.tasks[i].key == k)
  }

  lemma EventExcludes(p: Plant, k: Key, seen: Object)
    requires Exclusive(p)
    ensures Exclusive(OnEvent(p, k, seen))
  {
    var p' := OnEvent(p, k, seen);
    if p' != p {
      assert p'.tasks[|p.tasks|].key == k;
      forall l ensures l in p'.inProgress <==> exists i :: 0 <= i < |p'.tasks| && p'.tasks[i].key == l {
        if i :| 0 <= i < |p.tasks| && p.tasks[i].key == l { assert p'.tasks[i].key == l; }
      }
    }
  }

  lemma RestageExcludes(p: Plant, i: nat, stage: Stage)
    requires Exclusive(p) && i < |p.tasks|
    ensures Exclusive(p.(tasks := p.tasks[i := p.tasks[i].(stage := stage)]))
  {
    var p' := p.(tasks := p.tasks[i := p.tasks[i].(stage := stage)]);
    assert forall j :: 0 <= j < |p'.tasks| ==> p'.tasks[j].key == p.tasks[j].key;
  }

  lemma LeaveExcludes(p: Plant, i: nat)
    requires Exclusive(p) && i < |p.tasks|
    ensures Exclusive(LeaveTask(p, i))
  {
    var p' := LeaveTask(p, i);
    if p' != p {
      assert forall j :: 0 <= j < |p'.tasks| ==> p'.tasks[j] == p.tasks[if j < i then j else j + 1];
      forall k ensures k in p'.inProgress <==> exists j :: 0 <= j < |p'.tasks| && p'.tasks[j].key == k {
        if j :| 0 <= j < |p.tasks| && p.tasks[j].key == k && j != i {
          assert p'.tasks[if j < i then j else j - 1].key == k;
        }
      }
    }
  }

  lemma StepExcludes(p: Plant, m: Move)
    requires Exclusive(p)
    ensures Exclusive(Step(p, m))
  {
    match m
    case Deliver(k, seen) =>
      EventExcludes(if UpToDate(p, k, seen) then p.(pending := p.pending - {k}) else p, k, seen);
    case Start(i, lands) =>
      if i < |p.tasks| { RestageExcludes(p, i, Streaming); RestageExcludes(p, i, Leaving); }
    case Report(i, error, lands) => if i < |p.tasks| { RestageExcludes(p, i, Leaving); }
    case Leave(i) => if i < |p.tasks| { LeaveExcludes(p, i); }
    case _ =>
  }

  // At every moment of every run update_in_progress holds exactly the keys with one running
  // execution, however late the events are.
  lemma {:induction false} ExecutionExcludes(p: Plant, ms: seq<Move>)
    requires Empty(p)
    ensures Exclusive(Run(p, ms))
  {
    if ms != [] {
      ExecutionExcludes(p, ms[..|ms| - 1]);
      StepExcludes(Run(p, ms[..|ms| - 1]), ms[|ms| - 1]);
    }
  }

  // ------------------------------------------------------------ one outcome

  // Tasks find the object, whichever bears the name now, not yet executed or not yet finished.
  ghost predicate Fitting(p: Plant) {
    forall i :: 0 <= i < |p.tasks| && p.tasks[i].key in p.objects ==>
      var status := p.objects[p.tasks[i].key].status;
      && (p.tasks[i].stage.Starting? ==> NeedsExecution(status))
      && (p.tasks[i].stage.Streaming? ==> CheckStatus(status) == InProgress)
  }

  ghost predicate Sound(p: Plant) {
    Exclusive(p) && Fitting(p)
  }

  lemma LeaveKeeps(p: Plant, i: nat)
    requires Sound(p) && i < |p.tasks|
    ensures Sound(LeaveTask(p, i))
  {
    LeaveExcludes(p, i);
    var p' := LeaveTask(p, i);
    if p' != p {
      assert forall j :: 0 <= j < |p'.tasks| ==> p'.tasks[j] == p.tasks[if j < i then j else j + 1];
    }
  }

  lemma WriteKeeps(p: Plant, i: nat, cs: seq<Condition>, stage: Stage)
    requires Sound(p) && i < |p.tasks| && stage != Starting
    requires stage == Streaming ==> CheckStatus(Some(cs)) == InProgress
    ensures Sound(Write(p, p.tasks[i], cs).(tasks := p.tasks[i := p.tasks[i].(stage := stage)]))
  {
    RestageExcludes(p, i, stage);
    forall j | 0 <= j < |p.tasks| && j != i ensures p.tasks[j].key != p.tasks[i].key {
    }
  }

  lemma StartKeeps(p: Plant, i: nat, lands: bool)
    requires Sound(p) && i < |p.tasks|
    ensures Sound(StartTask(p, i, lands))
  {
    if p.tasks[i].stage.Starting? {
      WritesReadBack("");
      if lands && p.tasks[i].key in p.objects { WriteKeeps(p, i, ProgressingStatus(), Streaming); }
      else { RestageExcludes(p, i, Leaving); }
    }
  }

  lemma ReportKeeps(p: Plant, i: nat, error: Option<Legible>, lands: bool)
    requires Sound(p) && i < |p.tasks|
    ensures Sound(ReportTask(p, i, error, lands))
  {
    if p.tasks[i].stage.Streaming? {
      if lands { WriteKeeps(p, i, Outcome(error), Leaving); } else { RestageExcludes(p, i, Leaving); }
    }
  }

  lemma StepKeeps(p: Plant, m: Move)
    requires Sound(p) && CurrentEvents(p, m)
    ensures Sound(Step(p, m))
  {
    match m
    case Deliver(k, seen) => EventExcludes(p.(pending := p.pending - {k}), k, seen);
    case Start(i, lands) => if i < |p.tasks| { StartKeeps(p, i, lands); }
    case Report(i, error, lands) => if i < |p.tasks| { ReportKeeps(p, i, error, lands); }
    case Leave(i) => if i < |p.tasks| { LeaveKeeps(p, i); }
    case _ =>
  }

  // With events up to date no execution meets a finished Update.
  lemma {:induction false} TasksMeetUnfinished(p: Plant, ms: seq<Move>)
    requires Empty(p) && Throughout(p, ms, CurrentEvents)
    ensures Sound(Run(p, ms))
  {
    if ms != [] {
      ThroughoutInit(p, ms, CurrentEvents);
      TasksMeetUnfinished(p, ms[..|ms| - 1]);
      StepKeeps(Run(p, ms[..|ms| - 1]), ms[|ms| - 1]);
    }
  }

  function Progress(status: Option<seq<Condition>>): nat {
    if CheckStatus(status) != InProgress then 2 else if NeedsExecution(status) then 0 else 1
  }

  predicate Advances(was: Option<seq<Condition>>, now: Option<seq<Condition>>) {
    now == was || Progress(was) < Progress(now)
  }

  // With events up to date no step of any run takes an Update back: new, in progress, finished, and
  // then its outcome for good.
  lemma StatusAdvances(p: Plant, ms: seq<Move>, m: Move, k: Key)
    requires Empty(p) && Throughout(p, ms, CurrentEvents)
    requires k in Run(p, ms).objects && k in Step(Run(p, ms), m).objects
    requires Run(p, ms).objects[k].uid == Step(Run(p, ms), m).objects[k].uid
    ensures Advances(Run(p, ms).objects[k].status, Step(Run(p, ms), m).objects[k].status)
  {
    TasksMeetUnfinished(p, ms);
    StepAdvances(Run(p, ms), m, k);
  }

  lemma StepAdvances(p: Plant, m: Move, k: Key)
    requires Sound(p) && k in p.objects && k in Step(p, m).objects
    ensures Advances(p.objects[k].status, Step(p, m).objects[k].status)
  {
    match m
    case Start(i, lands) => if i < |p.tasks| { StartAdvances(p, i, lands, k); }
    case Report(i, error, lands) => if i < |p.tasks| { ReportAdvances(p, i, error, lands, k); }
    case _ =>
  }

  lemma StartAdvances(p: Plant, i: nat, lands: bool, k: Key)
    requires Sound(p) && k in p.objects && i < |p.tasks|
    ensures var p' := StartTask(p, i, lands);
            k in p'.objects && Advances(p.objects[k].status, p'.objects[k].status)
  {
    WritesReadBack("");
    if p.tasks[i].stage.Starting? && p.tasks[i].key == k { NewIsInProgress(p.objects[k].status); }
  }

  lemma ReportAdvances(p: Plant, i: nat, error: Option<Legible>, lands: bool, k: Key)
    requires Sound(p) && k in p.objects && i < |p.tasks|
    ensures var p' := ReportTask(p, i, error, lands);
            k in p'.objects && Advances(p.objects[k].status, p'.objects[k].status)
  {
    WritesReadBack(if error.Some? then error.value else "");
  }

  lemma {:induction false} NewIsInProgress(status: Option<seq<Condition>>)
    requires NeedsExecution(status)
    ensures CheckStatus(status) == InProgress
  {
    if status.Some? {
      FindsFirst(status.value, Complete);
    }
  }

  // Whatever the events, a streaming task finds the object in progress.
  predicate StreamsMeetRunning(p: Plant) {
    forall i :: 0 <= i < |p.tasks| && p.tasks[i].stage.Streaming? && p.tasks[i].key in p.objects ==>
      CheckStatus(p.objects[p.tasks[i].key].status) == InProgress
  }

  lemma {:induction false} StreamsRun(p: Plant, ms: seq<Move>)
    requires Empty(p)
    ensures Exclusive(Run(p, ms)) && StreamsMeetRunning(Run(p, ms))
  {
    if ms != [] {
      StreamsRun(p, ms[..|ms| - 1]);
      var q, m := Run(p, ms[..|ms| - 1]), ms[|ms| - 1];
      StepExcludes(q, m);
      if m.Leave? {
        if m.task < |q.tasks| { TasksMove(q, m.task); }
      } else {
        StreamsStep(q, m);
      }
    }
  }

  lemma StreamsStep(p: Plant, m: Move)
    requires Exclusive(p) && StreamsMeetRunning(p) && !m.Leave?
    ensures StreamsMeetRunning(Step(p, m))
  {
    WritesReadBack("");
  }

  // In every run, however late events come, the only step that takes a finished Update back is a
  // start, and it takes it back to progressing.
  lemma OnlyStartsRewind(p: Plant, ms: seq<Move>, m: Move, k: Key)
    requires Empty(p)
    requires k in Run(p, ms).objects && k in Step(Run(p, ms), m).objects
    requires Run(p, ms).objects[k].uid == Step(Run(p, ms), m).objects[k].uid
    requires CheckStatus(Run(p, ms).objects[k].status) != InProgress
    ensures var was, now := Run(p, ms).objects[k].status, Step(Run(p, ms), m).objects[k].status;
            now == was || (m.Start? && now == Some(ProgressingStatus()))
  {
    StreamsRun(p, ms);
  }

  // -------------------------------------------------------- what is read back

  // The report last written on the Update of that name since it was last started, or None. It is
  // read off the moves alone: which of them reach the object, and with which outcome.
  function Reported(p: Plant, ms: seq<Move>, k: Key): Option<Option<Legible>> {
    if ms == [] then None
    else
      var before, m := ms[..|ms| - 1], ms[|ms| - 1];
      var q := Run(p, before);
      if Reaches(q, m, k, Streaming) then Some(m.error)
      else if Reaches(q, m, k, Starting) || m == Remove(k) then None
      else Reported(p, before, k)
  }

  // A start or a report of a task in the given stage that lands on the object of that name.
  predicate Reaches(p: Plant, m: Move, k: Key, stage: Stage) {
    && (if stage == Starting then m.Start? else m.Report?)
    && m.lands && m.task < |p.tasks|
    && p.tasks[m.task].stage == stage && p.tasks[m.task].key == k && k in p.objects
  }

  function ReadBack(report: Option<Option<Legible>>): CheckResult {
    match report
    case None => InProgress
    case Some(None) => Succeeded
    case Some(Some(message)) => FailedWith(Truncated(message))
  }

  // What a step makes of what is read of the Update of that name, which it may have just created.
  ghost predicate ReadsAfter(p: Plant, m: Move, k: Key) {
    k in Step(p, m).objects ==>
      var now := CheckStatus(Step(p, m).objects[k].status);
      if Reaches(p, m, k, Streaming) then now == ReadBack(Some(m.error))
      else if Reaches(p, m, k, Starting) || k !in p.objects then now == InProgress
      else now == CheckStatus(p.objects[k].status)
  }

  lemma OutcomeReads(error: Option<Legible>)
    ensures CheckStatus(Some(Outcome(error))) == ReadBack(Some(error))
  {
    WritesReadBack(if error.Some? then error.value else "");
  }

  lemma ReportReads(p: Plant, m: Move, k: Key)
    requires m.Report?
    ensures ReadsAfter(p, m, k)
  {
    OutcomeReads(m.error);
  }

  lemma ProgressReads()
    ensures CheckStatus(Some(ProgressingStatus())) == InProgress
  {
    WritesReadBack("");
  }

  lemma StartReads(p: Plant, m: Move, k: Key)
    requires m.Start?
    ensures ReadsAfter(p, m, k)
  {
    ProgressReads();
  }

  // One step changes what is read of an Update only by reaching it, or by creating it.
  lemma StepReads(p: Plant, m: Move, k: Key)
    ensures ReadsAfter(p, m, k)
  {
    match m
    case Start(_, _) => StartReads(p, m, k);
    case Report(_, _, _) => ReportReads(p, m, k);
    case _ =>
  }

  // In every run, however late events come, an Update reads as failed exactly when the report last
  // written on it carried an error, then with that error; as succeeded exactly when it carried
  // none; and as in progress exactly when none was written since it was last started.
  lemma {:induction false} ReadsAsReported(p: Plant, ms: seq<Move>, k: Key)
    requires Empty(p)
    ensures k in Run(p, ms).objects ==> CheckStatus(Run(p, ms).objects[k].status) == ReadBack(Reported(p, ms, k))
    ensures k !in Run(p, ms).objects ==> Reported(p, ms, k) == None
  {
    if ms != [] {
      var before, m := ms[..|ms| - 1], ms[|ms| - 1];
      ReadsAsReported(p, before, k);
      StepReads(Run(p, before), m, k);
    }
  }

  // ------------------------------------------------------ nothing forgotten

  // An Update that still has to be executed has a task or an event on its way.
  ghost predicate Covered(p: Plant) {
    forall k :: k in p.objects && p.objects[k].hasWorkspace && NeedsExecution(p.objects[k].status) ==>
      k in p.pending || k in p.inProgress
  }

  // A task past its start has not left behind an Update to execute.
  ghost predicate Spent(p: Plant) {
    forall i :: 0 <= i < |p.tasks| && !p.tasks[i].stage.Starting? && p.tasks[i].key in p.objects ==>
      !NeedsExecution(p.objects[p.tasks[i].key].status)
  }

  ghost predicate Watched(p: Plant) {
    Exclusive(p) && Covered(p) && Spent(p)
  }

  // A write leaves nothing to execute behind, and a restaged task without one changes no object.
  lemma WriteWatched(p: Plant, i: nat, cs: seq<Condition>, stage: Stage)
    requires Watched(p) && i < |p.tasks| && !NeedsExecution(Some(cs))
    ensures Watched(Write(p, p.tasks[i], cs).(tasks := p.tasks[i := p.tasks[i].(stage := stage)]))
  {
    RestageExcludes(p, i, stage);
  }

  lemma RestageWatched(p: Plant, i: nat, stage: Stage)
    requires Watched(p) && i < |p.tasks|
    requires p.tasks[i].stage == Starting ==> p.tasks[i].key !in p.objects
    ensures Watched(p.(tasks := p.tasks[i := p.tasks[i].(stage := stage)]))
  {
    RestageExcludes(p, i, stage);
  }

  lemma StartWatched(p: Plant, i: nat, lands: bool)
    requires Watched(p) && i < |p.tasks| && StartsLand(p, Start(i, lands))
    ensures Watched(StartTask(p, i, lands))
  {
    if p.tasks[i].stage.Starting? {
      WritesReadBack("");
      if p.tasks[i].key in p.objects { WriteWatched(p, i, ProgressingStatus(), Streaming); }
      else { RestageWatched(p, i, Leaving); }
    }
  }

  lemma ReportWatched(p: Plant, i: nat, error: Option<Legible>, lands: bool)
    requires Watched(p) && i < |p.tasks|
    ensures Watched(ReportTask(p, i, error, lands))
  {
    if p.tasks[i].stage.Streaming? {
      WritesReadBack(if error.Some? then error.value else "");
      if lands { WriteWatched(p, i, Outcome(error), Leaving); } else { RestageWatched(p, i, Leaving); }
    }
  }

  lemma LeaveWatched(p: Plant, i: nat)
    requires Watched(p) && i < |p.tasks|
    ensures Watched(LeaveTask(p, i))
  {
    LeaveExcludes(p, i);
    var p' := LeaveTask(p, i);
    if p' != p {
      assert forall j :: 0 <= j < |p'.tasks| ==> p'.tasks[j] == p.tasks[if j < i then j else j + 1];
    }
  }

  lemma StepWatched(p: Plant, m: Move)
    requires Watched(p) && StartsLand(p, m) && SparesTasks(p, m)
    ensures Watched(Step(p, m))
  {
    match m
    case Create(k, w) => assert forall i :: 0 <= i < |p.tasks| ==> p.tasks[i].key in p.inProgress;
    case Deliver(k, seen) => StepExcludes(p, m);
    case Start(i, lands) => if i < |p.tasks| { StartWatched(p, i, lands); }
    case Report(i, error, lands) => if i < |p.tasks| { ReportWatched(p, i, error, lands); }
    case Leave(i) => if i < |p.tasks| { LeaveWatched(p, i); }
    case _ =>
  }

  predicate Reliable(p: Plant, m: Move) {
    StartsLand(p, m) && SparesTasks(p, m)
  }

  // If progress patches land and no Update is created while a task of its name runs, no run leaves
  // an Update without a task and without an event, however late other events are.
  lemma {:induction false} NothingForgotten(p: Plant, ms: seq<Move>)
    requires Empty(p) && Throughout(p, ms, Reliable)
    ensures Watched(Run(p, ms)) && Covered(Run(p, ms))
  {
    if ms != [] {
      ThroughoutInit(p, ms, Reliable);
      NothingForgotten(p, ms[..|ms| - 1]);
      StepWatched(Run(p, ms[..|ms| - 1]), ms[|ms| - 1]);
    }
  }

  // --------------------------------------------------------- nothing stranded

  // An Update that has been started and not finished has a task streaming it.
  ghost predicate Attended(p: Plant) {
    forall k :: k in p.objects && Progress(p.objects[k].status) == 1 ==> StreamedBy(p, k)
  }

  ghost predicate StreamedBy(p: Plant, k: Key) {
    exists i :: 0 <= i < |p.tasks| && p.tasks[i].key == k && p.tasks[i].stage.Streaming?
  }

  // An outcome patch that fails, or a restart, while there is such an Update.
  ghost predicate Abandons(p: Plant, m: Move) {
    || (&& m.Report? && !m.lands && m.task < |p.tasks| && p.tasks[m.task].stage.Streaming?
        && p.tasks[m.task].key in p.objects && Progress(p.objects[p.tasks[m.task].key].status) == 1)
    || (m.Restart? && exists k :: k in p.objects && Progress(p.objects[k].status) == 1)
  }

  lemma StreamedStays(p: Plant, i: nat, stage: Stage, k: Key)
    requires Exclusive(p) && i < |p.tasks|
    ensures var p' := p.(tasks := p.tasks[i := p.tasks[i].(stage := stage)]);
            StreamedBy(p', k) <==> if p.tasks[i].key == k then stage == Streaming else StreamedBy(p, k)
  {
    var p' := p.(tasks := p.tasks[i := p.tasks[i].(stage := stage)]);
    assert forall j :: 0 <= j < |p'.tasks| && j != i ==> p'.tasks[j] == p.tasks[j];
    if p.tasks[i].key == k {
      assert p'.tasks[i].key == k;
    } else if j :| 0 <= j < |p.tasks| && p.tasks[j].key == k && p.tasks[j].stage.Streaming? {
      assert p'.tasks[j] == p.tasks[j];
    }
  }

  lemma StartAttended(p: Plant, i: nat, lands: bool)
    requires Exclusive(p) && Attended(p) && i < |p.tasks|
    ensures Attended(StartTask(p, i, lands))
  {
    if p.tasks[i].stage.Starting? {
      var p' := StartTask(p, i, lands);
      WritesReadBack("");
      forall k | k in p'.objects && Progress(p'.objects[k].status) == 1 ensures StreamedBy(p', k) {
        StreamedStays(p, i, p'.tasks[i].stage, k);
        if p.tasks[i].key == k && p'.tasks[i].stage.Leaving? { OneTaskStreams(p, i, k); }
      }
    }
  }

  // A task of the key that does not stream it is the only one of the key.
  lemma OneTaskStreams(p: Plant, i: nat, k: Key)
    requires Exclusive(p) && i < |p.tasks| && p.tasks[i].key == k && !p.tasks[i].stage.Streaming?
    ensures !StreamedBy(p, k)
  {}

  lemma ReportAttended(p: Plant, i: nat, error: Option<Legible>, lands: bool)
    requires Exclusive(p) && Attended(p) && i < |p.tasks|
    ensures Attended(ReportTask(p, i, error, lands)) <==> !Abandons(p, Report(i, error, lands))
  {
    if p.tasks[i].stage.Streaming? {
      var p', key := ReportTask(p, i, error, lands), p.tasks[i].key;
      WritesReadBack(if error.Some? then error.value else "");
      forall k ensures StreamedBy(p', k) <==> if key == k then false else StreamedBy(p, k) {
        StreamedStays(p, i, Leaving, k);
      }
      if Abandons(p, Report(i, error, lands)) {
        assert key in p'.objects && Progress(p'.objects[key].status) == 1 && !StreamedBy(p', key);
      }
    }
  }

  lemma LeaveAttended(p: Plant, i: nat)
    requires Attended(p) && i < |p.tasks|
    ensures Attended(LeaveTask(p, i))
  {
    var p' := LeaveTask(p, i);
    forall k | k in p'.objects && Progress(p'.objects[k].status) == 1 ensures StreamedBy(p', k) {
      var j :| 0 <= j < |p.tasks| && p.tasks[j].key == k && p.tasks[j].stage.Streaming?;
      if p' != p { assert p'.tasks[if j < i then j else j - 1] == p.tasks[j]; }
    }
  }

  lemma EventAttended(p: Plant, m: Move)
    requires Attended(p) && m.Deliver?
    ensures Attended(Step(p, m))
  {
    var p' := Step(p, m);
    forall k | k in p'.objects && Progress(p'.objects[k].status) == 1 ensures StreamedBy(p', k) {
      var j :| 0 <= j < |p.tasks| && p.tasks[j].key == k && p.tasks[j].stage.Streaming?;
      assert p'.tasks[j] == p.tasks[j];
    }
  }

  // One step leaves a started Update without its task exactly by a failed outcome patch or a restart.
  lemma AttendedExactlyUntil(p: Plant, m: Move)
    requires Exclusive(p) && Attended(p)
    ensures Attended(Step(p, m)) <==> !Abandons(p, m)
  {
    match m
    case Deliver(_, _) => EventAttended(p, m);
    case Start(i, lands) => if i < |p.tasks| { StartAttended(p, i, lands); }
    case Report(i, error, lands) => if i < |p.tasks| { ReportAttended(p, i, error, lands); }
    case Leave(i) => if i < |p.tasks| { LeaveAttended(p, i); }
    case Restart =>
      if k :| k in p.objects && Progress(p.objects[k].status) == 1 { assert !StreamedBy(Step(p, m), k); }
    case _ => OthersAttended(p, m);
  }

  lemma OthersAttended(p: Plant, m: Move)
    requires Attended(p) && (m.Create? || m.Remove? || m.Relist?)
    ensures Attended(Step(p, m))
  {
    var p' := Step(p, m);
    assert p'.tasks == p.tasks;
    forall k | k in p'.objects && Progress(p'.objects[k].status) == 1 ensures StreamedBy(p', k) {
      assert k in p.objects && StreamedBy(p, k);
    }
  }

  ghost predicate Perseveres(p: Plant, m: Move) {
    !Abandons(p, m)
  }

  lemma {:induction false} NothingStranded(p: Plant, ms: seq<Move>)
    requires Empty(p) && Throughout(p, ms, Perseveres)
    ensures Attended(Run(p, ms))
  {
    if ms != [] {
      ThroughoutInit(p, ms, Perseveres);
      NothingStranded(p, ms[..|ms| - 1]);
      ExecutionExcludes(p, ms[..|ms| - 1]);
      AttendedExactlyUntil(Run(p, ms[..|ms| - 1]), ms[|ms| - 1]);
    }
  }

  // Once stranded, an Update stays in progress for as long as it exists: neither relists nor
  // restarts nor any up-to-date event ever bring it a task again.
  lemma {:induction false} StrandedForever(p: Plant, ms: seq<Move>, k: Key)
    requires Exclusive(p) && k in p.objects && Progress(p.objects[k].status) == 1 && k !in p.inProgress
    requires Throughout(p, ms, CurrentEvents) && Remove(k) !in ms
    ensures var q := Run(p, ms);
            && Exclusive(q) && k in q.objects && q.objects[k] == p.objects[k] && k !in q.inProgress
  {
    if ms != [] {
      var q, m := Run(p, ms[..|ms| - 1]), ms[|ms| - 1];
      ThroughoutInit(p, ms, CurrentEvents);
      StrandedForever(p, ms[..|ms| - 1], k);
      StepExcludes(q, m);
      StrandedStep(q, m, k);
    }
  }

  lemma StrandedStep(p: Plant, m: Move, k: Key)
    requires Exclusive(p) && k in p.objects && Progress(p.objects[k].status) == 1 && k !in p.inProgress
    requires CurrentEvents(p, m) && m != Remove(k)
    ensures var q := Step(p, m); k in q.objects && q.objects[k] == p.objects[k] && k !in q.inProgress
  {
    assert forall i :: 0 <= i < |p.tasks| ==> p.tasks[i].key != k;
  }

  // ------------------------------------------------------- whose outcome it is

  // What is written on an object was written by its own execution.
  predicate Owned(p: Plant) {
    forall k :: k in p.objects && p.objects[k].writer.Some? ==> p.objects[k].writer.value == p.objects[k].uid
  }

  // No object was recreated while a task of its name ran that has yet to write.
  predicate TasksMatch(p: Plant) {
    forall i :: 0 <= i < |p.tasks| && !p.tasks[i].stage.Leaving? && p.tasks[i].key in p.objects ==>
      p.objects[p.tasks[i].key].uid == p.tasks[i].uid
  }

  predicate Numbered(p: Plant) {
    && (forall k :: k in p.objects ==> p.objects[k].uid < p.nextUid)
    && (forall i :: 0 <= i < |p.tasks| ==> p.tasks[i].uid < p.nextUid)
  }

  // An Update is created while a task of its name has yet to write.
  predicate Recreates(p: Plant, m: Move) {
    && m.Create? && m.key !in p.objects
    && exists i :: 0 <= i < |p.tasks| && p.tasks[i].key == m.key && !p.tasks[i].stage.Leaving?
  }

  lemma NumbersStay(p: Plant, m: Move)
    requires Numbered(p) && CurrentEvents(p, m)
    ensures Numbered(Step(p, m))
  {
    if m.Leave? && m.task < |p.tasks| { TasksMove(p, m.task); }
  }

  lemma TasksMove(p: Plant, i: nat)
    requires i < |p.tasks|
    ensures var p' := LeaveTask(p, i);
            forall j :: 0 <= j < |p'.tasks| ==> p'.tasks[j] in p.tasks
  {
    var p' := LeaveTask(p, i);
    if p' != p {
      assert forall j :: 0 <= j < |p'.tasks| ==> p'.tasks[j] == p.tasks[if j < i then j else j + 1];
    }
  }

  lemma CreateMatches(p: Plant, k: Key, hasWorkspace: bool)
    requires Numbered(p) && TasksMatch(p)
    ensures TasksMatch(CreateObject(p, k, hasWorkspace)) <==> !Recreates(p, Create(k, hasWorkspace))
  {
    var p' := CreateObject(p, k, hasWorkspace);
    if Recreates(p, Create(k, hasWorkspace)) {
      var i :| 0 <= i < |p.tasks| && p.tasks[i].key == k && !p.tasks[i].stage.Leaving?;
      assert p'.tasks[i] == p.tasks[i] && p'.objects[k].uid == p.nextUid;
    }
  }

  lemma LeaveMatches(p: Plant, i: nat)
    requires TasksMatch(p) && i < |p.tasks|
    ensures TasksMatch(LeaveTask(p, i))
  {
    TasksMove(p, i);
  }

  lemma RestageMatches(p: Plant, m: Move)
    requires TasksMatch(p) && (m.Start? || m.Report?)
    ensures TasksMatch(Step(p, m))
  {}

  // Tasks and objects come apart exactly when an Update is created while an earlier task of its
  // name has yet to write.
  lemma MatchLostExactlyWhen(p: Plant, m: Move)
    requires Numbered(p) && TasksMatch(p) && CurrentEvents(p, m)
    ensures Numbered(Step(p, m))
    ensures TasksMatch(Step(p, m)) <==> !Recreates(p, m)
  {
    NumbersStay(p, m);
    match m
    case Create(k, w) => CreateMatches(p, k, w);
    case Start(_, _) => RestageMatches(p, m);
    case Report(_, _, _) => RestageMatches(p, m);
    case Leave(i) => if i < |p.tasks| { LeaveMatches(p, i); }
    case _ =>
  }

  lemma StepOwned(p: Plant, m: Move)
    requires Owned(p) && TasksMatch(p)
    ensures Owned(Step(p, m))
  {}

  predicate Careful(p: Plant, m: Move) {
    CurrentEvents(p, m) && !Recreates(p, m)
  }

  lemma {:induction false} OwnedRun(p: Plant, ms: seq<Move>)
    requires Numbered(p) && TasksMatch(p) && Owned(p) && Throughout(p, ms, Careful)
    ensures var q := Run(p, ms); Numbered(q) && TasksMatch(q) && Owned(q)
  {
    if ms != [] {
      ThroughoutInit(p, ms, Careful);
      OwnedRun(p, ms[..|ms| - 1]);
      var q, m := Run(p, ms[..|ms| - 1]), ms[|ms| - 1];
      MatchLostExactlyWhen(q, m);
      StepOwned(q, m);
    }
  }

  // From any state whose outcomes are their own objects', they stay so in all careful runs exactly
  // when no object has been recreated under a task that has yet to write.
  lemma OutcomesAreOwn(p: Plant)
    requires Numbered(p) && Owned(p)
    ensures TasksMatch(p) <==> forall ms :: Throughout(p, ms, Careful) ==> Owned(Run(p, ms))
  {
    if TasksMatch(p) {
      forall ms | Throughout(p, ms, Careful) ensures Owned(Run(p, ms)) { OwnedRun(p, ms); }
    } else {
      var i :| 0 <= i < |p.tasks| && !p.tasks[i].stage.Leaving? && p.tasks[i].key in p.objects
               && p.objects[p.tasks[i].key].uid != p.tasks[i].uid;
      var m := if p.tasks[i].stage.Starting? then Start(i, true) else Report(i, None, true);
      assert [m][..0] == [];
      assert Throughout(p, [m], Careful);
      assert Run(p, [m]) == Step(p, m);
      assert p.tasks[i].key in Step(p, m).objects;
    }
  }

  // ---------------------------------------------------- concrete failing runs

  const NOTHING := Plant(map[], 0, {}, {}, [])

  // The run `ms` from nothing ends in `p` and meets the hypothesis.
  ghost predicate Plays(ms: seq<Move>, p: Plant, holds: (Plant, Move) -> bool) {
    Throughout(NOTHING, ms, holds) && Run(NOTHING, ms) == p
  }

  lemma PlaysOn(ms: seq<Move>, p: Plant, m: Move, p': Plant, holds: (Plant, Move) -> bool)
    requires Plays(ms, p, holds) && holds(p, m) && Step(p, m) == p'
    ensures Plays(ms + [m], p', holds)
  {
    var ms' := ms + [m];
    assert ms'[..|ms|] == ms;
    forall i | 0 <= i < |ms'| ensures HoldsAt(NOTHING, ms', i, holds) {
      if i < |ms| {
        assert HoldsAt(NOTHING, ms, i, holds) && ms'[..i] == ms[..i];
      }
    }
  }

  // One Update "u" and at most one task of that name.
  function One(o: Object, nextUid: nat, due: bool, task: seq<Stage>): Plant {
    Plant(map["u" := o], nextUid, if due then {"u"} else {}, if task == [] then {} else {"u"}, Tasks(task))
  }

  function Tasks(task: seq<Stage>): seq<ExecTask> {
    if task == [] then [] else [ExecTask("u", 0, task[0])]
  }

  const FIRST := Object(0, None, true, None)
  const SECOND := Object(1, None, true, None)
  const RUNNING := Object(0, Some(ProgressingStatus()), true, Some(0))

  lemma DeliverOne(o: Object, n: nat, due: bool)
    requires NeedsExecution(o.status) && o.hasWorkspace && o.uid == 0
    ensures Step(One(o, n, due, []), Deliver("u", o)) == One(o, n, false, [Starting])
  {
    var p := One(o, n, due, []);
    assert p.objects["u"] == o && p.pending - {"u"} == {};
  }

  // An event for the present object, while a task of its name runs.
  lemma DeliverBusy(o: Object, n: nat, stage: Stage)
    ensures Step(One(o, n, true, [stage]), Deliver("u", o)) == One(o, n, false, [stage])
  {
    var p := One(o, n, true, [stage]);
    assert p.objects["u"] == o && p.pending - {"u"} == {};
  }

  lemma StartOne(o: Object, n: nat, due: bool)
    ensures Step(One(o, n, due, [Starting]), Start(0, true))
         == One(o.(status := Some(ProgressingStatus()), writer := Some(0)), n, true, [Streaming])
    ensures Step(One(o, n, due, [Starting]), Start(0, false)) == One(o, n, due, [Leaving])
  {
    var p := One(o, n, due, [Starting]);
    assert p.tasks[0] == ExecTask("u", 0, Starting) && p.objects["u"] == o && p.pending + {"u"} == {"u"};
    assert p.tasks[0 := ExecTask("u", 0, Streaming)] == Tasks([Streaming]);
    assert p.tasks[0 := ExecTask("u", 0, Leaving)] == Tasks([Leaving]);
  }

  lemma ReportOne(o: Object, n: nat, due: bool)
    ensures Step(One(o, n, due, [Streaming]), Report(0, None, true))
         == One(o.(status := Some(SucceededStatus()), writer := Some(0)), n, true, [Leaving])
  {
    var p := One(o, n, due, [Streaming]);
    assert p.tasks[0] == ExecTask("u", 0, Streaming) && p.objects["u"] == o && p.pending + {"u"} == {"u"};
    assert p.tasks[0 := ExecTask("u", 0, Leaving)] == Tasks([Leaving]);
  }

  lemma LeaveOne(o: Object, n: nat, due: bool)
    ensures Step(One(o, n, due, [Leaving]), Leave(0)) == One(o, n, due, [])
  {
    var p := One(o, n, due, [Leaving]);
    assert p.tasks[0] == ExecTask("u", 0, Leaving) && p.inProgress - {"u"} == {};
  }

  // Somebody removes the Update and creates another of its name.
  lemma Recreated(o: Object, due: bool, stage: Stage, ms: seq<Move>, holds: (Plant, Move) -> bool)
    returns (ms': seq<Move>)
    requires Plays(ms, One(o, 1, due, [stage]), holds)
    requires forall p :: holds(p, Remove("u")) && holds(p, Create("u", true))
    ensures Plays(ms', One(SECOND, 2, true, [stage]), holds)
  {
    var p := One(o, 1, due, [stage]);
    var gone := Plant(map[], 1, {}, {"u"}, p.tasks);
    assert p.objects - {"u"} == map[] && p.pending - {"u"} == {};
    PlaysOn(ms, p, Remove("u"), gone, holds);
    assert gone.objects["u" := SECOND] == map["u" := SECOND] && gone.pending + {"u"} == {"u"};
    PlaysOn(ms + [Remove("u")], gone, Create("u", true), One(SECOND, 2, true, [stage]), holds);
    ms' := ms + [Remove("u")] + [Create("u", true)];
  }

  // Created and delivered; and then started.
  lemma Delivered(holds: (Plant, Move) -> bool) returns (ms: seq<Move>)
    requires holds(NOTHING, Create("u", true)) && holds(One(FIRST, 1, true, []), Deliver("u", FIRST))
    ensures Plays(ms, One(FIRST, 1, false, [Starting]), holds)
  {
    assert Plays([], NOTHING, holds);
    assert NOTHING.objects["u" := FIRST] == map["u" := FIRST] && NOTHING.pending + {"u"} == {"u"};
    PlaysOn([], NOTHING, Create("u", true), One(FIRST, 1, true, []), holds);
    DeliverOne(FIRST, 1, true);
    PlaysOn([] + [Create("u", true)], One(FIRST, 1, true, []), Deliver("u", FIRST), One(FIRST, 1, false, [Starting]),
            holds);
    ms := [] + [Create("u", true)] + [Deliver("u", FIRST)];
  }

  lemma Started(holds: (Plant, Move) -> bool) returns (ms: seq<Move>)
    requires holds(NOTHING, Create("u", true)) && holds(One(FIRST, 1, true, []), Deliver("u", FIRST))
    requires holds(One(FIRST, 1, false, [Starting]), Start(0, true))
    ensures Plays(ms, One(RUNNING, 1, true, [Streaming]), holds)
  {
    ms := Delivered(holds);
    StartOne(FIRST, 1, false);
    PlaysOn(ms, One(FIRST, 1, false, [Starting]), Start(0, true), One(RUNNING, 1, true, [Streaming]), holds);
    ms := ms + [Start(0, true)];
  }

  predicate Sparing(p: Plant, m: Move) {
    CurrentEvents(p, m) && SparesTasks(p, m)
  }

  // A progress patch that fails leaves its Update behind.
  lemma LostStartForgets() returns (ms: seq<Move>)
    ensures Throughout(NOTHING, ms, Sparing) && !Covered(Run(NOTHING, ms))
  {
    ms := Delivered(Sparing);
    StartOne(FIRST, 1, false);
    PlaysOn(ms, One(FIRST, 1, false, [Starting]), Start(0, false), One(FIRST, 1, false, [Leaving]), Sparing);
    LeaveOne(FIRST, 1, false);
    PlaysOn(ms + [Start(0, false)], One(FIRST, 1, false, [Leaving]), Leave(0), One(FIRST, 1, false, []), Sparing);
    ms := ms + [Start(0, false)] + [Leave(0)];
    assert "u" in One(FIRST, 1, false, []).objects;
  }

  // Events are up to date and progress patches land.
  predicate Prompt(p: Plant, m: Move) {
    CurrentEvents(p, m) && StartsLand(p, m)
  }

  // So does recreation under a task that has already reported.
  lemma RecreationForgets() returns (ms: seq<Move>)
    ensures Throughout(NOTHING, ms, Prompt) && !Covered(Run(NOTHING, ms))
  {
    ms := Started(Prompt);
    var o := RUNNING.(status := Some(SucceededStatus()));
    ReportOne(RUNNING, 1, true);
    PlaysOn(ms, One(RUNNING, 1, true, [Streaming]), Report(0, None, true), One(o, 1, true, [Leaving]), Prompt);
    ms := Recreated(o, true, Leaving, ms + [Report(0, None, true)], Prompt);
    ms := Overlooked(Leaving, ms);
    LeaveOne(SECOND, 2, false);
    PlaysOn(ms, One(SECOND, 2, false, [Leaving]), Leave(0), One(SECOND, 2, false, []), Prompt);
    ms := ms + [Leave(0)];
    assert "u" in One(SECOND, 2, false, []).objects;
  }

  // The event of the new Update is ignored, because a task of its name runs.
  lemma Overlooked(stage: Stage, ms: seq<Move>) returns (ms': seq<Move>)
    requires Plays(ms, One(SECOND, 2, true, [stage]), Prompt)
    ensures Plays(ms', One(SECOND, 2, false, [stage]), Prompt)
  {
    DeliverBusy(SECOND, 2, stage);
    assert One(SECOND, 2, true, [stage]).objects["u"] == SECOND;
    PlaysOn(ms, One(SECOND, 2, true, [stage]), Deliver("u", SECOND), One(SECOND, 2, false, [stage]), Prompt);
    ms' := ms + [Deliver("u", SECOND)];
  }

  const TAKEN := Object(1, Some(SucceededStatus()), true, Some(0))

  // Recreated under a task that has yet to report, an Update is recorded finished without ever
  // having been executed, and no relist repairs that.
  lemma RecreationTakesOutcome() returns (ms: seq<Move>)
    ensures Throughout(NOTHING, ms, Prompt)
    ensures var q := Run(NOTHING, ms);
            && q == One(TAKEN, 2, true, []) && Covered(q) && !Owned(q)
            && Step(Step(q, Relist), Deliver("u", TAKEN)) == One(TAKEN, 2, false, [])
  {
    ms := Started(Prompt);
    ms := Recreated(RUNNING, true, Streaming, ms, Prompt);
    ms := Overlooked(Streaming, ms);
    ReportOne(SECOND, 2, false);
    PlaysOn(ms, One(SECOND, 2, false, [Streaming]), Report(0, None, true), One(TAKEN, 2, true, [Leaving]), Prompt);
    LeaveOne(TAKEN, 2, true);
    PlaysOn(ms + [Report(0, None, true)], One(TAKEN, 2, true, [Leaving]), Leave(0), One(TAKEN, 2, true, []), Prompt);
    ms := ms + [Report(0, None, true)] + [Leave(0)];
    WritesReadBack("");
    NoRepair();
  }

  lemma NoRepair()
    ensures var q := One(TAKEN, 2, true, []);
            !Owned(q) && Step(Step(q, Relist), Deliver("u", TAKEN)) == One(TAKEN, 2, false, [])
  {
    WritesReadBack("");
    var q := One(TAKEN, 2, true, []);
    assert "u" in q.objects && q.objects["u"] == TAKEN && q.objects.Keys == {"u"} && {"u"} - {"u"} == {};
    assert Step(q, Relist) == q;
  }

  // No recreation under a task that has yet to write, and progress patches land.
  predicate Unrecreated(p: Plant, m: Move) {
    !Recreates(p, m) && StartsLand(p, m)
  }

  // An event of an Update that is gone starts a task on the one that has replaced it.
  lemma LateEventTakesOver() returns (ms: seq<Move>)
    ensures Throughout(NOTHING, ms, Unrecreated) && !Owned(Run(NOTHING, ms))
  {
    assert Plays([], NOTHING, Unrecreated);
    assert NOTHING.objects["u" := FIRST] == map["u" := FIRST] && NOTHING.pending + {"u"} == {"u"};
    PlaysOn([], NOTHING, Create("u", true), One(FIRST, 1, true, []), Unrecreated);
    var gone := Plant(map[], 1, {}, {}, []);
    assert map["u" := FIRST] - {"u"} == map[] && {"u"} - {"u"} == {};
    PlaysOn([] + [Create("u", true)], One(FIRST, 1, true, []), Remove("u"), gone, Unrecreated);
    ms := [] + [Create("u", true)] + [Remove("u")];
    assert gone.objects["u" := SECOND] == map["u" := SECOND] && gone.pending + {"u"} == {"u"};
    PlaysOn(ms, gone, Create("u", true), One(SECOND, 2, true, []), Unrecreated);
    assert One(SECOND, 2, true, []).objects["u"] == SECOND;
    PlaysOn(ms + [Create("u", true)], One(SECOND, 2, true, []), Deliver("u", FIRST), One(SECOND, 2, true, [Starting]),
            Unrecreated);
    ms := ms + [Create("u", true)] + [Deliver("u", FIRST)];
    StartOne(SECOND, 2, true);
    var o := SECOND.(status := Some(ProgressingStatus()), writer := Some(0));
    PlaysOn(ms, One(SECOND, 2, true, [Starting]), Start(0, true), One(o, 2, true, [Streaming]), Unrecreated);
    ms := ms + [Start(0, true)];
    assert "u" in One(o, 2, true, [Streaming]).objects;
  }

  // An event that comes late, after its Update was executed, takes the finished Update back to
  // progressing and executes it again.
  lemma LateEventRewinds() returns (before: seq<Move>, after: seq<Move>)
    ensures Throughout(NOTHING, before + after, Reliable)
    ensures var was, now := Run(NOTHING, before), Run(NOTHING, before + after);
            && "u" in was.objects && "u" in now.objects && was.objects["u"].uid == now.objects["u"].uid
            && CheckStatus(was.objects["u"].status) == Succeeded
            && CheckStatus(now.objects["u"].status) == InProgress
  {
    WritesReadBack("");
    var ms := Started(Reliable);
    var o := RUNNING.(status := Some(SucceededStatus()));
    ReportOne(RUNNING, 1, true);
    PlaysOn(ms, One(RUNNING, 1, true, [Streaming]), Report(0, None, true), One(o, 1, true, [Leaving]), Reliable);
    LeaveOne(o, 1, true);
    PlaysOn(ms + [Report(0, None, true)], One(o, 1, true, [Leaving]), Leave(0), One(o, 1, true, []), Reliable);
    before := ms + [Report(0, None, true)] + [Leave(0)];
    DeliverLate(o);
    PlaysOn(before, One(o, 1, true, []), Deliver("u", FIRST), One(o, 1, true, [Starting]), Reliable);
    StartOne(o, 1, true);
    PlaysOn(before + [Deliver("u", FIRST)], One(o, 1, true, [Starting]), Start(0, true),
            One(RUNNING, 1, true, [Streaming]), Reliable);
    after := [Deliver("u", FIRST)] + [Start(0, true)];
    assert before + after == before + [Deliver("u", FIRST)] + [Start(0, true)];
  }

  lemma DeliverLate(o: Object)
    requires o.status.Some?
    ensures Step(One(o, 1, true, []), Deliver("u", FIRST)) == One(o, 1, true, [Starting])
  {
    assert One(o, 1, true, []).objects["u"] == o;
  }

  // ---------------------------------------------------------- mutable form

  // The same names are taken, and only on the given ones can anything differ.
  ghost predicate ChangesOnly(was: map<Key, Object>, now: map<Key, Object>, keys: set<Key>) {
    now.Keys == was.Keys && forall k :: k in now && k !in keys ==> now[k] == was[k]
  }

  class UpdateWatcher {
    var objects: map<Key, Object>
    var nextUid: nat
    var pending: set<Key>
    var updateInProgress: set<Key>
    var tasks: seq<ExecTask>

    function View(): Plant
      reads this
    {
      Plant(objects, nextUid, pending, updateInProgress, tasks)
    }

    // One Apply event of the watch stream, carrying the Update as it was.
    method OnApply(key: Key, update: Object)
      modifies `updateInProgress, `tasks
      ensures View() == OnEvent(old(View()), key, update)
      ensures var starts := && key !in old(updateInProgress) && update.hasWorkspace
                            && (update.status.Some? ==>
                                  forall c :: c in update.status.value && c.status == True ==>
                                    c.kind != Progressing && c.kind != Complete);
              && updateInProgress == old(updateInProgress) + (if starts then {key} else {})
              && tasks == old(tasks) + (if starts then [ExecTask(key, update.uid, Starting)] else [])
    {
      if NeedsExecution(update.status) {
        if key in updateInProgress {
          return;
        }
        updateInProgress := updateInProgress + {key};
        if !update.hasWorkspace {
          updateInProgress := updateInProgress - {key};
          return;
        }
        tasks := tasks + [ExecTask(key, update.uid, Starting)];
      }
    }

    // `execute_update` and the removal from the set behind it, with nothing in between.
    method Execute(i: nat, startLands: bool, error: Option<Legible>, reportLands: bool)
      requires i < |tasks| && tasks[i].stage.Starting?
      modifies this
      ensures View() == Step(Step(Step(old(View()), Start(i, startLands)), Report(i, error, reportLands)), Leave(i))
      ensures var key := old(tasks[i].key);
              && updateInProgress == old(updateInProgress) - {key}
              && tasks == old(tasks[..i] + tasks[i + 1..])
              && ChangesOnly(old(objects), objects, if startLands then {key} else {})
              && (key in objects && startLands ==>
                    CheckStatus(objects[key].status) ==
                      if !reportLands then InProgress
                      else if error.Some? then FailedWith(Truncated(error.value))
                      else Succeeded)
    {
      SetProgressing(i, startLands);
      if tasks[i].stage.Streaming? {
        ReportOutcome(i, error, reportLands);
      }
      LeaveSet(i);
    }

    method SetProgressing(i: nat, lands: bool)
      requires i < |tasks| && tasks[i].stage.Starting?
      modifies this
      ensures View() == StartTask(old(View()), i, lands)
      ensures var key := old(tasks[i].key);
              && tasks == old(tasks)[i := old(tasks[i]).(stage := tasks[i].stage)]
              && tasks[i].stage == (if lands && key in old(objects) then Streaming else Leaving)
              && (lands && key in objects ==> CheckStatus(objects[key].status) == InProgress)
              && ChangesOnly(old(objects), objects, if lands then {key} else {})
    {
      ProgressReads();
      var ok := PatchStatus(tasks[i], ProgressingStatus(), lands);
      tasks := tasks[i := tasks[i].(stage := if ok then Streaming else Leaving)];
    }

    method ReportOutcome(i: nat, error: Option<Legible>, lands: bool)
      requires i < |tasks| && tasks[i].stage.Streaming?
      modifies this
      ensures View() == ReportTask(old(View()), i, error, lands)
      ensures var key := old(tasks[i].key);
              && tasks == old(tasks)[i := old(tasks[i]).(stage := Leaving)]
              && (lands && key in objects ==>
                    CheckStatus(objects[key].status) ==
                      if error.Some? then FailedWith(Truncated(error.value)) else Succeeded)
              && ChangesOnly(old(objects), objects, if lands then {key} else {})
    {
      OutcomeReads(error);
      var ok: bool;
      if error.Some? {
        ok := PatchStatus(tasks[i], FailedStatus(error.value), lands);
      } else {
        ok := PatchStatus(tasks[i], SucceededStatus(), lands);
      }
      tasks := tasks[i := tasks[i].(stage := Leaving)];
    }

    method LeaveSet(i: nat)
      requires i < |tasks| && tasks[i].stage.Leaving?
      modifies `updateInProgress, `tasks
      ensures View() == LeaveTask(old(View()), i)
    {
      updateInProgress := updateInProgress - {tasks[i].key};
      tasks := tasks[..i] + tasks[i + 1..];
    }

    method PatchStatus(t: ExecTask, cs: seq<Condition>, lands: bool) returns (ok: bool)
      modifies `objects, `pending
      ensures ok == (lands && t.key in old(objects))
      ensures View() == if lands then Write(old(View()), t, cs) else old(View())
    {
      ok := lands && t.key in objects;
      if ok {
        objects := objects[t.key := objects[t.key].(status := Some(cs), writer := Some(t.uid))];
        pending := pending + {t.key};
      }
    }
  }
}
