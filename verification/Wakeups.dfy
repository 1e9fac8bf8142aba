/**
 When the next reconcile comes: the retry an action or error schedules falls on the end of the window
 in which a reconcile would find nothing to do, and a reconcile that ends waiting is read again at
 the very moment it asked for.
 */
module Wakeups {
  import opened Basics
  import opened Time
  import opened Messages
  import opened Api
  import opened Sync
  import opened Project
  import opened Pipeline
  import opened Actions
  import opened Effects
  import opened Lifecycle
  import opened Gates
  import D = DestroyFirst
  import E = Escalation
  import M = Mailbox

  // The destroy window is exact: once a failed destroy is recorded at `now`, a reconcile that finds
  // no Update under way waits precisely until the cooldown has passed, and then, the workspace
  // ready, starts the next destroy; the retry falls on the end of that window.
  lemma DestroyWindowExact(key: string, keep: bool, a: ActorData, name: string, failures: int, snap: Stack, now: nat,
                           later: nat, us: Updates, lastCommit: Option<string>, p: Probe, f: CreateFaults)
    requires snap.finalizer && snap.Deleting() && D.WantsDestroy(snap.spec) && failures >= 1 && now <= later
    requires p.workspace == Ok(true) && !f.createFails && DestroyName(key, later) !in us
    ensures var action := DestroyFailed(name, failures);
            var stack := Patched(keep, snap, a, action, snap, now, true);
            var window := 1000 * CooldownSecs(failures, snap.spec);
            var (us', lastCommit', r) := Pipelined(key, us, lastCommit, stack, later, p, f);
            && RequeueOf(a, action, snap, now) == Some(Requeue(window, FailureRetry, Retry))
            && r == Ok(if later < now + window then WaitForUpdate(name) else DestroyStarted(DestroyName(key, later)))
            && (later < now + window ==> us' == us)
  {
    PatchWrites(keep, snap.status, a, DestroyFailed(name, failures), snap, now);
    var stack := Patched(keep, snap, a, DestroyFailed(name, failures), snap, now, true);
    CoolingUntil(stack, failures, now, later, name);
    WindowDecides(us, stack, later, p);
  }

  lemma CoolingUntil(stack: Stack, failures: int, now: nat, later: nat, name: string)
    requires WritesLast(stack.status, stack.status, stack.generation, name, Destroy, RunFailed, now, failures)
    requires failures >= 1 && now <= later
    ensures Cooling(stack, later) <==> later < now + 1000 * CooldownSecs(failures, stack.spec)
  {}

  // With nothing named and the workspace ready, a Stack that wants a destroy waits or starts it.
  lemma WindowDecides(us: Updates, stack: Stack, later: nat, p: Probe)
    requires stack.finalizer && stack.Deleting() && D.WantsDestroy(stack.spec) && stack.status.currentUpdate.None?
    requires stack.status.lastUpdate.Some? && stack.status.lastUpdate.value.name.Some? && p.workspace == Ok(true)
    ensures Decide(us, stack, later, p) ==
              if Cooling(stack, later) then Decided(WaitForUpdate(stack.status.lastUpdate.value.name.value))
              else CreateDestroy
  {}

  // The success window is exact: after a recorded success a reconcile that finds this status is
  // synced precisely for the same generation, commit and reconcile request and, if the Stack asks for
  // resyncs, until the resync period - 60 s unless configured - has passed.
  lemma SuccessWindowExact(keep: bool, a: ActorData, name: string, snap: Stack, now: nat, stack: Stack, later: nat,
                           commit: string)
    requires now <= later && !stack.Deleting()
    requires stack.status == Patched(keep, snap, a, UpdateSucceeded(name), snap, now, true).status
    ensures var secs := stack.spec.resyncFrequencySecs;
            IsSynced(stack, commit, later) <==>
              && stack.generation == snap.generation && a.lastCommit == Some(commit)
              && stack.annotation == stack.status.lastUpdate.value.reconcileRequest
              && (stack.spec.continueResync ==> later < now + if secs > 0 then 1000 * secs else 60_000)
  {}

  // Without an outcome that can be told, or with one of another generation or request, nothing is in
  // sync.
  lemma NothingElseIsSynced(stack: Stack, commit: string, now: nat)
    requires IsSynced(stack, commit, now)
    ensures stack.status.lastUpdate.Some?
    ensures stack.status.lastUpdate.value.state in {Some(RunSucceeded), Some(RunFailed)}
    ensures stack.status.lastUpdate.value.generation == stack.generation
    ensures stack.status.lastUpdate.value.reconcileRequest == stack.annotation
  {}

  // A stamp ahead of the clock is no age at all.
  lemma FutureHoldsEverything(stack: Stack, stamp: nat, now: nat)
    requires now <= stamp && stack.status.lastUpdate.Some?
    requires stack.status.lastUpdate.value.lastResyncTime == Some(At(stamp))
    requires stack.status.lastUpdate.value.state == Some(RunFailed) && stack.status.lastUpdate.value.failures >= 1
    ensures stack.status.lastUpdate.value.kind == Some(Destroy) ==> Cooling(stack, now)
    ensures stack.status.lastUpdate.value.generation == stack.generation
            && stack.status.lastUpdate.value.reconcileRequest == stack.annotation
            && stack.status.lastUpdate.value.lastAttemptedCommit.Some? ==>
              IsSynced(stack, stack.status.lastUpdate.value.lastAttemptedCommit.value, now)
  {
    CooldownBounds(1, stack.status.lastUpdate.value.failures, stack.spec);
  }

  // A stamp that is missing or cannot be read holds no window open, as long as the resync period
  // fits 64 bits: no cooldown, no resync period and no cached project check outlast it.
  lemma UnreadableHoldsNothing(stack: Stack, commit: string, now: nat)
    requires stack.status.lastUpdate.Some? && stack.status.lastUpdate.value.lastResyncTime in {None, Some(Unparsable)}
    requires stack.spec.resyncFrequencySecs < 0x8000_0000_0000_0000
    ensures stack.status.lastUpdate.value.state == Some(RunFailed) ==> !IsSynced(stack, commit, now)
    ensures stack.spec.continueResync && !stack.Deleting() ==> !IsSynced(stack, commit, now)
    ensures !Cooling(stack, now)
    ensures stack.status.lastProjectCheck.Some? && stack.status.lastProjectCheck.value.checkedAt == Unparsable
            && stack.spec.verification.Some? ==>
              forall v :: CheckProject(stack, v, now) == v
  {
    Pow3At30();
    Pow3Mono(Min(Max(stack.status.lastUpdate.value.failures, 0), 30), 30);
  }

  // ----------------------------------------------------------------- waking

  // What a reconcile that ends waiting asks for.
  function WaitMs(action: Action, snap: Stack): Option<nat> {
    match action
    case WaitForUpdate(_) => Some(30_000)
    case WaitForWorkspace => Some(5_000)
    case ProjectNotFound => Some(300_000)
    case ProjectReinstated => Some(1_000)
    case DestroyFailed(_, n) => Some(1000 * CooldownSecs(n, snap.spec))
    case _ => None
  }

  // The moves by which an actor with nothing else to do comes to its next read.
  function Waking(s: M.Protocol, r: Requeue): seq<M.Move> {
    var t := Sleeper(s, r);
    [M.FinishReconcile(Some(r)), M.Receive] + [M.Elapse(r.delayMs), M.Fire(t), M.Receive] +
    [M.Receive, M.Pop(M.Queued(t.message, Some(t.id)))]
  }

  function Sleeper(s: M.Protocol, r: Requeue): M.SleepingRetry {
    M.SleepingRetry(s.nextId, s.now + r.delayMs, M.Message(r.priority, M.Reconcile(r.trigger)))
  }

  predicate Reading(s: M.Protocol) {
    s.live && s.stage.Running? && s.mailbox == [] && s.batch == multiset{}
  }

  lemma PlayOf2(s: M.Protocol, a: M.Move, b: M.Move)
    ensures M.Play(s, [a, b]) == M.Advance(M.Advance(s, a), b)
  {
    assert [a, b][..1] == [a] && [a][..0] == [];
    assert M.Play(s, [a]) == M.Advance(s, a);
  }

  lemma PlayOf3(s: M.Protocol, a: M.Move, b: M.Move, c: M.Move)
    ensures M.Play(s, [a, b, c]) == M.Advance(M.Advance(M.Advance(s, a), b), c)
  {
    assert [a, b, c] == [a, b] + [c] && [c][..0] == [];
    M.PlayAppend(s, [a, b], [c]);
    PlayOf2(s, a, b);
    assert M.Play(M.Play(s, [a, b]), [c]) == M.Advance(M.Play(s, [a, b]), c);
  }

  // It arms the debounce, puts a timer to sleep, and the actor waits for messages again.
  lemma FallsAsleep(s: M.Protocol, r: Requeue)
    requires Reading(s)
    ensures M.Play(s, [M.FinishReconcile(Some(r)), M.Receive]) == M.Schedule(s, r).(stage := M.Waiting)
  {
    PlayOf2(s, M.FinishReconcile(Some(r)), M.Receive);
  }

  function Fired(s: M.Protocol, t: M.SleepingRetry): M.Protocol {
    s.(now := t.due, timers := s.timers - {t}, stage := M.Draining, batch := multiset{M.Queued(t.message, Some(t.id))})
  }

  // The timer fires into the empty mailbox, and the message is received.
  lemma TimerFires(s: M.Protocol, t: M.SleepingRetry, ms: nat)
    requires s.live && s.stage.Waiting? && s.mailbox == [] && s.batch == multiset{}
    requires t in s.timers && t.due == s.now + ms
    ensures M.Play(s, [M.Elapse(ms), M.Fire(t), M.Receive]) == Fired(s, t)
  {
    PlayOf3(s, M.Elapse(ms), M.Fire(t), M.Receive);
    var v := M.Advance(M.Advance(s, M.Elapse(ms)), M.Fire(t));
    assert v.mailbox == [M.Queued(t.message, Some(t.id))];
    assert multiset{} + multiset{v.mailbox[0]} == multiset{v.mailbox[0]} && v.mailbox[1..] == [];
  }

  // It is the only one of its batch, popped at once, and the debounce lets it through.
  lemma RetryPops(s: M.Protocol, q: M.Queued)
    requires s.live && s.stage.Draining? && s.mailbox == [] && s.batch == multiset{q} && M.IsRetryMessage(q.message)
    ensures var v := M.Play(s, [M.Receive, M.Pop(q)]);
            && Reading(v) && v.debounce.None? && v.now == s.now
            && v.marks == s.marks + [M.ReadStarted(s.now, q.message.body.trigger)]
  {
    PlayOf2(s, M.Receive, M.Pop(q));
    var v := M.Advance(s, M.Receive);
    assert M.IsTop(v.batch, q) && v.batch - multiset{q} == multiset{};
  }

  // The retry of a reconcile comes through: armed with the debounce, asleep until the same moment,
  // received, popped and let through it starts the next read exactly then.
  lemma RetryRunsOnTime(s: M.Protocol, r: Requeue)
    requires Reading(s) && M.IsScheduled(r.trigger)
    ensures var v := M.Play(s, Waking(s, r));
            && Reading(v) && v.debounce.None? && v.now == s.now + r.delayMs
            && v.marks == s.marks + [M.Scheduled(v.now)] + [M.ReadStarted(v.now, r.trigger)]
  {
    var t := Sleeper(s, r);
    var q := M.Queued(t.message, Some(t.id));
    PlayAppend3(s, [M.FinishReconcile(Some(r)), M.Receive], [M.Elapse(r.delayMs), M.Fire(t), M.Receive],
                [M.Receive, M.Pop(q)]);
    FallsAsleep(s, r);
    var asleep := M.Schedule(s, r).(stage := M.Waiting);
    TimerFires(asleep, t, r.delayMs);
    var fired := Fired(asleep, t);
    RetryPops(fired, q);
    FiredMarks(s, r);
  }

  lemma FiredMarks(s: M.Protocol, r: Requeue)
    ensures Fired(M.Schedule(s, r).(stage := M.Waiting), Sleeper(s, r)).marks ==
              s.marks + [M.Scheduled(Sleeper(s, r).due)]
  {}

  lemma PlayAppend3(s: M.Protocol, a: seq<M.Move>, b: seq<M.Move>, c: seq<M.Move>)
    ensures M.Play(s, a + b + c) == M.Play(M.Play(M.Play(s, a), b), c)
  {
    M.PlayAppend(s, a + b, c);
    M.PlayAppend(s, a, b);
  }

  // A reconcile that ends waiting - for an Update or a destroy cooldown, for a workspace, for a
  // missing or reinstated project, after a failed destroy - is read again exactly 30 s, 5 s, 300 s,
  // 1 s or the cooldown after it ended, unless a message comes in between.
  lemma WaitsAreWoken(cfg: Config, v: World, f: ActFaults, s: M.Protocol)
    requires v.phase.Acting? && WaitMs(v.phase.action, v.phase.snap).Some?
    requires Reading(s) && s.now == v.now
    ensures var ms := WaitMs(v.phase.action, v.phase.snap).value;
            var q := E.ScheduledBy(cfg, v, ActStep(f));
            var v' := Run(cfg, v, [ActStep(f)] + [Tick(ms)]);
            && q.Some? && v'.phase == Idle && v'.now == v.now + ms
            && var s' := M.Play(s, Waking(s, q.value));
               && Reading(s') && s'.now == v'.now && s'.debounce.None?
               && s'.marks == s.marks + [M.Scheduled(v'.now)] + [M.ReadStarted(v'.now, Retry)]
  {
    var ms := WaitMs(v.phase.action, v.phase.snap).value;
    WaitSchedules(v.actor, v.phase.action, v.phase.snap, v.now);
    RetryRunsOnTime(s, E.ScheduledBy(cfg, v, ActStep(f)).value);
    TimePasses(cfg, v, f, ms);
  }

  lemma WaitSchedules(a: ActorData, action: Action, snap: Stack, now: nat)
    requires WaitMs(action, snap).Some?
    ensures var q := RequeueOf(a, action, snap, now);
            q.Some? && q.value.delayMs == WaitMs(action, snap).value && q.value.trigger == Retry
  {
    RequeueWakes(a, action, snap, now);
  }

  lemma TimePasses(cfg: Config, v: World, f: ActFaults, ms: nat)
    requires v.phase.Acting?
    ensures var v' := Run(cfg, v, [ActStep(f)] + [Tick(ms)]); v'.phase == Idle && v'.now == v.now + ms
  {
    RunAppend(cfg, v, [ActStep(f)], [Tick(ms)]);
    RunOf1(cfg, v, ActStep(f));
    RunOf1(cfg, Step(cfg, v, ActStep(f)), Tick(ms));
  }

  // Every other action leaves the actor to the next event; only a failed Update asks for a retry too.
  lemma SchedulesExactlyWhen(a: ActorData, action: Action, snap: Stack, now: nat)
    ensures RequeueOf(a, action, snap, now).Some? <==> WaitMs(action, snap).Some? || action.UpdateFailed?
  {
    RequeueWakes(a, action, snap, now);
  }
}
