/**
 The mailbox protocol of one actor as values: dispatch with drop, drain into a priority batch,
 debounce, and detached retry timers (src/operator/actors/actor.rs, dispatcher.rs, messages.rs).
 Module ActorLoop holds the mutable actor, whose rounds are proved to be plays of this machine.
 */
module Mailbox {
  import opened Basics
  import opened Actions

  datatype Body = Reconcile(trigger: Trigger) | Shutdown

  datatype Message = Message(priority: Priority, body: Body)

  const CAPACITY: nat := 64

  // Lower enum value, higher priority.
  function Rank(p: Priority): nat {
    match p
    case Deletion => 0
    case LockRecovery => 1
    case FailureRetry => 2
    case Normal => 3
  }

  predicate IsScheduled(t: Trigger) {
    t == Retry || t == LockRetry
  }

  // The debounce test of `handle_reconcile`: may this trigger run the pipeline now?
  predicate Passes(debounce: Option<nat>, now: nat, t: Trigger) {
    debounce.None? || debounce.value <= now || IsScheduled(t)
  }

  // ------------------------------------------------------- protocol machine

  // `id` tells scheduled retries apart; other messages carry none.
  datatype Queued = Queued(message: Message, id: Option<nat>)

  datatype SleepingRetry = SleepingRetry(id: nat, due: nat, message: Message)

  datatype Stage = Waiting | Draining | Processing | Running

  datatype Mark = Scheduled(due: nat) | ReadStarted(at: nat, trigger: Trigger)

  // `unserved`: an event was dispatched and no pipeline read has started since.
  datatype Protocol = Protocol(
    now: nat,
    live: bool,
    mailbox: seq<Queued>,
    batch: multiset<Queued>,
    timers: set<SleepingRetry>,
    debounce: Option<nat>,
    stage: Stage,
    nextId: nat,
    unserved: bool,
    marks: seq<Mark>)

  datatype Move =
    | Elapse(ms: nat)
    | Dispatch(message: Message)
    | Fire(timer: SleepingRetry)
    | Receive
    | Pop(entry: Queued)
    | FinishReconcile(requeue: Option<Requeue>)

  // A full mailbox drops the message.
  function Enqueue(mailbox: seq<Queued>, m: Message): seq<Queued> {
    if |mailbox| < CAPACITY then mailbox + [Queued(m, None)] else mailbox
  }

  function DispatchTo(s: Protocol, m: Message): Protocol {
    s.(mailbox := Enqueue(s.mailbox, m), unserved := s.unserved || m.body.Reconcile?)
  }

  // A retry whose sleep is over waits for room; it is never dropped.
  function FireTimer(s: Protocol, t: SleepingRetry): Protocol {
    if t in s.timers && t.due <= s.now && |s.mailbox| < CAPACITY then
      s.(timers := s.timers - {t}, mailbox := s.mailbox + [Queued(t.message, Some(t.id))])
    else s
  }

  // `recv` of the first message, then `try_recv` until the mailbox is empty.
  function ReceiveOne(s: Protocol): Protocol {
    if s.stage.Waiting? && s.mailbox != [] then
      s.(mailbox := s.mailbox[1..], batch := s.batch + multiset{s.mailbox[0]}, stage := Draining)
    else if s.stage.Draining? then
      (if s.mailbox != [] then
         s.(mailbox := s.mailbox[1..], batch := s.batch + multiset{s.mailbox[0]})
       else s.(stage := Processing))
    else if s.stage.Processing? && s.batch == multiset{} then s.(stage := Waiting)
    else s
  }

  predicate IsTop(batch: multiset<Queued>, q: Queued) {
    q in batch && forall o :: o in batch ==> Rank(q.message.priority) <= Rank(o.message.priority)
  }

  // The head of `handle_reconcile`: the debounce, then the read of the Stack.
  function StartRead(s: Protocol, t: Trigger): Protocol {
    s.(debounce := None, stage := Running, unserved := false, marks := s.marks + [ReadStarted(s.now, t)])
  }

  ghost function PopTop(s: Protocol, q: Queued): Protocol {
    if !s.stage.Processing? || !IsTop(s.batch, q) then s
    else
      var s' := s.(batch := s.batch - multiset{q});
      match q.message.body
      case Shutdown => s'.(live := false)
      case Reconcile(t) => if Passes(s.debounce, s.now, t) then StartRead(s', t) else s'
  }

  // `schedule_requeue`: arms the debounce and puts a retry to sleep until the same moment.
  function Schedule(s: Protocol, r: Requeue): Protocol {
    var due := s.now + r.delayMs;
    s.(stage := Processing,
       debounce := Some(due),
       timers := s.timers + {SleepingRetry(s.nextId, due, Message(r.priority, Reconcile(r.trigger)))},
       nextId := s.nextId + 1,
       marks := s.marks + [Scheduled(due)])
  }

  function Finish(s: Protocol, r: Option<Requeue>): Protocol {
    if !s.stage.Running? then s else if r.None? then s.(stage := Processing) else Schedule(s, r.value)
  }

  ghost function Advance(s: Protocol, m: Move): Protocol {
    if !s.live then s
    else
      match m
      case Elapse(ms) => s.(now := s.now + ms)
      case Dispatch(msg) => DispatchTo(s, msg)
      case Fire(t) => FireTimer(s, t)
      case Receive => ReceiveOne(s)
      case Pop(q) => PopTop(s, q)
      case FinishReconcile(r) => Finish(s, r)
  }

  ghost function Play(s: Protocol, ms: seq<Move>): Protocol {
    if ms == [] then s else Advance(Play(s, ms[..|ms| - 1]), ms[|ms| - 1])
  }

  lemma {:induction false} PlayAppend(s: Protocol, ms: seq<Move>, ns: seq<Move>)
    ensures Play(s, ms + ns) == Play(Play(s, ms), ns)
  {
    if ns == [] {
      assert ms + ns == ms;
    } else {
      var k := |ns| - 1;
      PlayAppend(s, ms, ns[..k]);
      assert (ms + ns)[..|ms + ns| - 1] == ms + ns[..k];
    }
  }

  // A sleeping retry ends in one way, by firing no earlier than it is due into a mailbox with room, and
  // nothing else puts a retry there.
  lemma RetriesComeDue(s: Protocol, m: Move, t: SleepingRetry, q: Queued)
    ensures t in s.timers && t !in Advance(s, m).timers ==>
              && m == Fire(t) && t.due <= s.now && |s.mailbox| < 64
              && Advance(s, m).mailbox == s.mailbox + [Queued(t.message, Some(t.id))]
    ensures q.id.Some? && q in Advance(s, m).mailbox && q !in s.mailbox ==>
              m.Fire? && m.timer in s.timers && m.timer.due <= s.now && q == Queued(m.timer.message, Some(m.timer.id))
  {
    if m.Receive? && s.mailbox != [] { assert q in s.mailbox[1..] ==> q in s.mailbox; }
  }

  predicate Newborn(s: Protocol) {
    && s.live && s.mailbox == [] && s.batch == multiset{} && s.timers == {} && s.debounce.None?
    && s.stage.Waiting? && !s.unserved && s.marks == []
  }

  // Reconciles end with what `handle_action` and `handle_error` schedule; by
  // Actions.RequeuesPassDebounce that is a Retry or a LockRetry.
  predicate Faithful(ms: seq<Move>) {
    forall i :: 0 <= i < |ms| && ms[i].FinishReconcile? && ms[i].requeue.Some? ==>
      IsScheduled(ms[i].requeue.value.trigger)
  }

  // ------------------------------------------------------------ invariants

  // The retry of the latest `schedule_requeue` is asleep, in the mailbox or in the batch.
  ghost predicate RetryPending(s: Protocol, id: nat, due: nat) {
    || (exists t :: t in s.timers && t.id == id && t.due == due && IsRetryMessage(t.message))
    || (exists i :: 0 <= i < |s.mailbox| && s.mailbox[i].id == Some(id) && IsRetryMessage(s.mailbox[i].message))
    || (exists q :: q in s.batch && q.id == Some(id) && IsRetryMessage(q.message))
  }

  predicate IsRetryMessage(m: Message) {
    m.body.Reconcile? && IsScheduled(m.body.trigger)
  }

  ghost predicate Backed(s: Protocol) {
    s.debounce.Some? ==> s.nextId > 0 && RetryPending(s, s.nextId - 1, s.debounce.value)
  }

  predicate Awake(s: Protocol) {
    s.unserved ==> s.debounce.Some? || s.mailbox != [] || s.batch != multiset{}
  }

  // A read on behalf of anything but a scheduled retry never undercuts the retry it displaced.
  predicate ReadsRespectSchedule(marks: seq<Mark>) {
    forall i :: 0 <= i < |marks| - 1 && marks[i].Scheduled? ==>
      && marks[i + 1].ReadStarted?
      && (IsScheduled(marks[i + 1].trigger) || marks[i].due <= marks[i + 1].at)
  }

  predicate MarksFollow(s: Protocol) {
    && ReadsRespectSchedule(s.marks)
    && (s.debounce.Some? <==> s.marks != [] && s.marks[|s.marks| - 1].Scheduled?)
    && (s.debounce.Some? ==> s.marks[|s.marks| - 1].due == s.debounce.value && !s.stage.Running?)
  }

  ghost predicate Sane(s: Protocol) {
    && |s.mailbox| <= CAPACITY
    && (s.live ==> Backed(s) && Awake(s))
    && MarksFollow(s)
    && (s.stage.Waiting? ==> s.batch == multiset{})
    && (forall t :: t in s.timers ==> IsRetryMessage(t.message))
  }

  lemma PendingSurvivesPush(s: Protocol, q: Queued, id: nat, due: nat)
    requires RetryPending(s, id, due)
    ensures RetryPending(s.(mailbox := s.mailbox + [q]), id, due)
  {
    var s' := s.(mailbox := s.mailbox + [q]);
    if i :| 0 <= i < |s.mailbox| && s.mailbox[i].id == Some(id) && IsRetryMessage(s.mailbox[i].message) {
      assert s'.mailbox[i] == s.mailbox[i];
    }
  }

  lemma PendingSurvivesFire(s: Protocol, t: SleepingRetry, id: nat, due: nat)
    requires RetryPending(s, id, due) && t in s.timers && IsRetryMessage(t.message)
    ensures RetryPending(s.(timers := s.timers - {t}, mailbox := s.mailbox + [Queued(t.message, Some(t.id))]), id, due)
  {
    var s' := s.(timers := s.timers - {t}, mailbox := s.mailbox + [Queued(t.message, Some(t.id))]);
    if i :| 0 <= i < |s.mailbox| && s.mailbox[i].id == Some(id) && IsRetryMessage(s.mailbox[i].message) {
      assert s'.mailbox[i] == s.mailbox[i];
    } else if u :| u in s.timers && u.id == id && u.due == due && IsRetryMessage(u.message) {
      if u == t {
        assert s'.mailbox[|s.mailbox|] == Queued(t.message, Some(id));
      } else {
        assert u in s'.timers;
      }
    }
  }

  lemma PendingSurvivesReceive(s: Protocol, id: nat, due: nat)
    requires RetryPending(s, id, due) && s.mailbox != []
    ensures RetryPending(s.(mailbox := s.mailbox[1..], batch := s.batch + multiset{s.mailbox[0]}), id, due)
  {
    var s' := s.(mailbox := s.mailbox[1..], batch := s.batch + multiset{s.mailbox[0]});
    if i :| 0 <= i < |s.mailbox| && s.mailbox[i].id == Some(id) && IsRetryMessage(s.mailbox[i].message) {
      if i == 0 { assert s.mailbox[0] in s'.batch; } else { assert s'.mailbox[i - 1] == s.mailbox[i]; }
    } else if q :| q in s.batch && q.id == Some(id) && IsRetryMessage(q.message) {
      assert q in s'.batch;
    }
  }

  // A discarded message is no retry, so the pending one is still there.
  lemma PendingSurvivesDiscard(s: Protocol, q: Queued, id: nat, due: nat)
    requires RetryPending(s, id, due) && q in s.batch && !IsRetryMessage(q.message)
    ensures RetryPending(s.(batch := s.batch - multiset{q}), id, due)
  {
    var s' := s.(batch := s.batch - multiset{q});
    if o :| o in s.batch && o.id == Some(id) && IsRetryMessage(o.message) {
      assert o in s'.batch;
    }
  }

  lemma PopKeeps(s: Protocol, q: Queued)
    requires Sane(s) && s.live
    ensures Sane(Advance(s, Pop(q)))
  {
    if s.stage.Processing? && IsTop(s.batch, q) && q.message.body.Reconcile?
       && !Passes(s.debounce, s.now, q.message.body.trigger) {
      PendingSurvivesDiscard(s, q, s.nextId - 1, s.debounce.value);
    }
  }

  lemma FinishKeeps(s: Protocol, r: Option<Requeue>)
    requires Sane(s) && s.live && (r.Some? ==> IsScheduled(r.value.trigger))
    ensures Sane(Advance(s, FinishReconcile(r)))
  {
    if s.stage.Running? && r.Some? {
      var t := SleepingRetry(s.nextId, s.now + r.value.delayMs, Message(r.value.priority, Reconcile(r.value.trigger)));
      assert t in Finish(s, r).timers;
    }
  }

  lemma DispatchKeeps(s: Protocol, msg: Message)
    requires Sane(s) && s.live
    ensures Sane(DispatchTo(s, msg))
  {
    if s.debounce.Some? { PendingSurvivesPush(s, Queued(msg, None), s.nextId - 1, s.debounce.value); }
  }

  lemma FireKeeps(s: Protocol, t: SleepingRetry)
    requires Sane(s) && s.live
    ensures Sane(FireTimer(s, t))
  {
    if s.debounce.Some? && t in s.timers { PendingSurvivesFire(s, t, s.nextId - 1, s.debounce.value); }
  }

  lemma ReceiveKeeps(s: Protocol)
    requires Sane(s) && s.live
    ensures Sane(ReceiveOne(s))
  {
    if s.mailbox != [] && (s.stage.Waiting? || s.stage.Draining?) { MovedKeeps(s); }
  }

  // The first message leaves the mailbox for the batch.
  lemma MovedKeeps(s: Protocol)
    requires Sane(s) && s.live && s.mailbox != []
    ensures Sane(s.(mailbox := s.mailbox[1..], batch := s.batch + multiset{s.mailbox[0]}, stage := Draining))
  {
    var s' := s.(mailbox := s.mailbox[1..], batch := s.batch + multiset{s.mailbox[0]});
    assert s.mailbox[0] in s'.batch;
    if s.debounce.Some? { PendingSurvivesReceive(s, s.nextId - 1, s.debounce.value); }
  }

  lemma MoveKeeps(s: Protocol, m: Move)
    requires Sane(s)
    requires m.FinishReconcile? && m.requeue.Some? ==> IsScheduled(m.requeue.value.trigger)
    ensures Sane(Advance(s, m))
  {
    if s.live {
      match m
      case Elapse(_) =>
      case Dispatch(msg) => DispatchKeeps(s, msg);
      case Fire(t) => FireKeeps(s, t);
      case Receive => ReceiveKeeps(s);
      case Pop(q) => PopKeeps(s, q);
      case FinishReconcile(r) => FinishKeeps(s, r);
    }
  }

  lemma {:induction false} PlayKeeps(s: Protocol, ms: seq<Move>)
    requires Sane(s) && Faithful(ms)
    ensures Sane(Play(s, ms))
  {
    if ms != [] {
      PlayKeeps(s, ms[..|ms| - 1]);
      MoveKeeps(Play(s, ms[..|ms| - 1]), ms[|ms| - 1]);
    }
  }

  // --------------------------------------------------------------- results

  // Armed debounce is always backed: whenever a live actor's debounce is set, the retry of the
  // latest schedule_requeue is still on its way.
  lemma ArmedDebounceIsBacked(s: Protocol, ms: seq<Move>)
    requires Newborn(s) && Faithful(ms)
    ensures var s' := Play(s, ms);
            s'.live && s'.debounce.Some? ==> s'.nextId > 0 && RetryPending(s', s'.nextId - 1, s'.debounce.value)
  {
    PlayKeeps(s, ms);
    SaneIsBacked(Play(s, ms));
  }

  lemma SaneIsBacked(s: Protocol)
    requires Sane(s)
    ensures s.live && s.debounce.Some? ==> s.nextId > 0 && RetryPending(s, s.nextId - 1, s.debounce.value)
  {}

  // Nothing in the operator sends a Shutdown.
  predicate OnlyReconciles(ms: seq<Move>) {
    forall i :: 0 <= i < |ms| && ms[i].Dispatch? ==> ms[i].message.body.Reconcile?
  }

  predicate HoldsReconciles(s: Protocol) {
    && s.live
    && (forall i :: 0 <= i < |s.mailbox| ==> s.mailbox[i].message.body.Reconcile?)
    && (forall q :: q in s.batch ==> q.message.body.Reconcile?)
    && (forall t :: t in s.timers ==> t.message.body.Reconcile?)
  }

  lemma {:induction false} OnlyReconcilesQueue(s: Protocol, ms: seq<Move>)
    requires Newborn(s) && OnlyReconciles(ms)
    ensures HoldsReconciles(Play(s, ms))
  {
    if ms != [] {
      OnlyReconcilesQueue(s, ms[..|ms| - 1]);
      MoveHoldsReconciles(Play(s, ms[..|ms| - 1]), ms[|ms| - 1]);
    }
  }

  lemma MoveHoldsReconciles(s: Protocol, m: Move)
    requires HoldsReconciles(s) && (m.Dispatch? ==> m.message.body.Reconcile?)
    ensures HoldsReconciles(Advance(s, m))
  {
    match m
    case Elapse(_) =>
    case Dispatch(_) =>
    case Fire(_) =>
    case Receive => ReceiveHoldsReconciles(s);
    case Pop(q) => PopHoldsReconciles(s, q);
    case FinishReconcile(_) =>
  }

  lemma ReceiveHoldsReconciles(s: Protocol)
    requires HoldsReconciles(s)
    ensures HoldsReconciles(ReceiveOne(s))
  {
    var s' := ReceiveOne(s);
    forall q | q in s'.batch ensures q.message.body.Reconcile? {
      assert q in s.batch || q == s.mailbox[0];
    }
  }

  lemma PopHoldsReconciles(s: Protocol, q: Queued)
    requires HoldsReconciles(s)
    ensures HoldsReconciles(PopTop(s, q))
  {
    forall o | o in PopTop(s, q).batch ensures o.message.body.Reconcile? {
      assert o in s.batch;
    }
  }

  // No lost wake-up: if an event was dispatched after the last pipeline read started, a reconcile
  // message that the debounce will let through is still on its way - dropped and discarded
  // messages notwithstanding: with the debounce armed its own retry, otherwise any queued one.
  lemma NoLostWakeUp(s: Protocol, ms: seq<Move>)
    requires Newborn(s) && Faithful(ms) && OnlyReconciles(ms)
    ensures var s' := Play(s, ms);
            && s'.live
            && (s'.unserved ==>
                  if s'.debounce.Some? then s'.nextId > 0 && RetryPending(s', s'.nextId - 1, s'.debounce.value)
                  else exists q :: (q in s'.mailbox || q in s'.batch) && q.message.body.Reconcile?)
  {
    PlayKeeps(s, ms);
    OnlyReconcilesQueue(s, ms);
    var s' := Play(s, ms);
    if s'.unserved && s'.debounce.None? {
      if s'.mailbox != [] {
        assert s'.mailbox[0] in s'.mailbox && s'.mailbox[0].message.body.Reconcile?;
      } else {
        var q :| q in s'.batch;
        assert q.message.body.Reconcile?;
      }
    }
  }

  // While a retry is scheduled for a later time, no other trigger runs the pipeline.
  lemma BackoffIsHonoured(s: Protocol, ms: seq<Move>)
    requires Newborn(s) && Faithful(ms)
    ensures ReadsRespectSchedule(Play(s, ms).marks)
  {
    PlayKeeps(s, ms);
  }
}
