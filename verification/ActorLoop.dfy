/**
 The mutable actor loop and dispatcher (src/operator/actors/actor.rs, dispatcher.rs): one round of
 `run` over a mailbox with the debounce and `schedule_requeue`, proved to be a play of the protocol
 machine of module Mailbox, and routing to one actor per key.
 */
module ActorLoop {
  import opened Basics
  import opened Actions
  import opened Mailbox

  // The channel shared by the dispatcher's sender and the actor's receiver.
  class Channel {
    var queue: seq<Queued>
    var closed: bool

    constructor ()
      ensures queue == [] && !closed
    {
      queue := [];
      closed := false;
    }

    predicate Accepts()
      reads this
    {
      !closed && |queue| < CAPACITY
    }

    method TrySend(m: Message) returns (sent: bool)
      modifies `queue
      ensures sent == old(Accepts()) == (!closed && |old(queue)| < 64)
      ensures queue == if closed then old(queue) else Enqueue(old(queue), m)
      ensures queue == old(queue) + (if sent then [Queued(m, None)] else [])
    {
      sent := !closed && |queue| < CAPACITY;
      if sent {
        queue := queue + [Queued(m, None)];
      }
    }
  }

  // ------------------------------------------------------- one round of run

  // How long a message waits before it is handled, how long its handling takes, and what its
  // reconcile, if it runs, asks to be scheduled.
  datatype Turn = Turn(wait: nat, work: nat, outcome: Option<Requeue>)

  function Receives(n: nat): seq<Move> {
    if n == 0 then [] else Receives(n - 1) + [Receive]
  }

  function Handling(q: Queued, turn: Turn): seq<Move> {
    [Elapse(turn.wait), Pop(q), Elapse(turn.work), FinishReconcile(turn.outcome)]
  }

  function Handlings(handled: seq<Queued>, turns: seq<Turn>): seq<Move>
    requires |handled| <= |turns|
  {
    if handled == [] then []
    else
      var k := |handled| - 1;
      Handlings(handled[..k], turns) + Handling(handled[k], turns[k])
  }

  // Receive until the mailbox is empty, handle the batch, and wait again.
  function RoundMoves(received: nat, handled: seq<Queued>, turns: seq<Turn>, stopped: bool): seq<Move>
    requires |handled| <= |turns|
  {
    Receives(received + 1) + Handlings(handled, turns) + (if stopped then [] else [Receive])
  }

  lemma PlayOne(s: Protocol, m: Move)
    ensures Play(s, [m]) == Advance(s, m)
  {
    assert [m][..0] == [];
  }

  lemma PlayHandling(s: Protocol, q: Queued, turn: Turn)
    ensures Play(s, Handling(q, turn)) ==
              Advance(Advance(Advance(Advance(s, Elapse(turn.wait)), Pop(q)), Elapse(turn.work)),
                      FinishReconcile(turn.outcome))
  {
    var ms := Handling(q, turn);
    var s1 := Advance(s, ms[0]);
    var s2 := Advance(s1, ms[1]);
    var s3 := Advance(s2, ms[2]);
    assert ms[..3][..2] == ms[..2] && ms[..2][..1] == ms[..1] && ms[..1][..0] == [];
    assert Play(s, ms[..1]) == s1;
    assert Play(s, ms[..2]) == s2;
    assert Play(s, ms[..3]) == s3;
  }

  // Handled no later than, as far as priority goes.
  predicate NotBehind(q: Queued, o: Queued) {
    Rank(q.message.priority) <= Rank(o.message.priority)
  }

  predicate ByPriority(ms: seq<Queued>) {
    forall i, j :: 0 <= i < j < |ms| ==> NotBehind(ms[i], ms[j])
  }

  // What the reconciles of a round schedule is a Retry or a LockRetry.
  predicate Scheduling(turns: seq<Turn>) {
    forall i :: 0 <= i < |turns| && turns[i].outcome.Some? ==> IsScheduled(turns[i].outcome.value.trigger)
  }

  lemma {:induction false} HandlingsFaithful(handled: seq<Queued>, turns: seq<Turn>)
    requires |handled| <= |turns| && Scheduling(turns)
    ensures Faithful(Handlings(handled, turns))
  {
    if handled != [] {
      HandlingsFaithful(handled[..|handled| - 1], turns);
    }
  }

  lemma {:induction false} ReceivesFaithful(n: nat)
    ensures Faithful(Receives(n))
  {
    if n > 0 {
      ReceivesFaithful(n - 1);
    }
  }

  lemma RoundFaithful(received: nat, handled: seq<Queued>, turns: seq<Turn>, stopped: bool)
    requires |handled| <= |turns| && Scheduling(turns)
    ensures Faithful(RoundMoves(received, handled, turns, stopped))
  {
    HandlingsFaithful(handled, turns);
    ReceivesFaithful(received + 1);
  }

  // Handling one message: the debounce, and if it passes, the reconcile.
  function Handled(s: Protocol, trigger: Trigger, turn: Turn): Protocol {
    if Passes(s.debounce, s.now, trigger) then Reconciled(s, trigger, turn) else s.(now := s.now + turn.work)
  }

  function Reconciled(s: Protocol, trigger: Trigger, turn: Turn): Protocol {
    var v := ReadFor(s, trigger, turn.work);
    if turn.outcome.Some? then Schedule(v, turn.outcome.value) else v.(stage := Processing)
  }

  function ReadFor(s: Protocol, trigger: Trigger, work: nat): Protocol {
    StartRead(s, trigger).(now := s.now + work)
  }

  ghost function Popped(s: Protocol, q: Queued, turn: Turn): Protocol {
    Answered(Taken(s, q, turn.wait), q.message.body, turn)
  }

  function Taken(s: Protocol, q: Queued, wait: nat): Protocol {
    s.(now := s.now + wait, batch := s.batch - multiset{q})
  }

  ghost function Answered(s: Protocol, body: Body, turn: Turn): Protocol {
    if body.Reconcile? then Handled(s, body.trigger, turn) else s.(live := false)
  }

  // The first n messages received.
  function Received(s: Protocol, n: nat): Protocol
    requires n <= |s.mailbox|
  {
    s.(mailbox := s.mailbox[n..], batch := s.batch + multiset(s.mailbox[..n]), stage := Draining)
  }

  // All messages received.
  function Drained(s: Protocol): Protocol {
    s.(mailbox := [], batch := s.batch + multiset(s.mailbox), stage := Processing)
  }

  class Actor {
    const rx: Channel
    var now: nat
    var live: bool
    var heap: multiset<Queued>
    var timers: set<SleepingRetry>
    var nextReconcileAt: Option<nat>
    var nextId: nat
    ghost var stage: Stage
    ghost var unserved: bool
    ghost var marks: seq<Mark>

    ghost function View(): Protocol
      reads this, rx
    {
      Protocol(now, live, rx.queue, heap, timers, nextReconcileAt, stage, nextId, unserved, marks)
    }

    constructor (rx: Channel, now: nat)
      requires rx.queue == []
      ensures this.rx == rx && this.now == now && Newborn(View())
    {
      this.rx, this.now, live := rx, now, true;
      heap, timers, nextReconcileAt, nextId := multiset{}, {}, None, 0;
      stage, unserved, marks := Waiting, false, [];
    }

    // Arms the debounce and puts a retry to sleep until the same moment.
    method ScheduleRequeue(r: Requeue)
      modifies `timers, `nextReconcileAt, `nextId, `stage, `marks
      ensures View() == Schedule(old(View()), r)
      ensures nextReconcileAt == Some(now + r.delayMs)
      ensures timers ==
                old(timers) + {SleepingRetry(old(nextId), now + r.delayMs, Message(r.priority, Reconcile(r.trigger)))}
    {
      nextReconcileAt := Some(now + r.delayMs);
      timers := timers + {SleepingRetry(nextId, now + r.delayMs, Message(r.priority, Reconcile(r.trigger)))};
      nextId := nextId + 1;
      stage, marks := Processing, marks + [Scheduled(now + r.delayMs)];
    }

    // A retry whose sleep is over and for which the mailbox has room.
    method Fire(t: SleepingRetry)
      requires t in timers && t.due <= now && |rx.queue| < CAPACITY
      modifies `timers, rx`queue
      ensures View() == FireTimer(old(View()), t)
    {
      timers := timers - {t};
      rx.queue := rx.queue + [Queued(t.message, Some(t.id))];
    }

    // A message the dispatcher sends to this actor.
    method Accept(m: Message) returns (sent: bool)
      requires !rx.closed
      modifies `unserved, rx`queue
      ensures View() == DispatchTo(old(View()), m)
      ensures sent == (|old(rx.queue)| < 64)
      ensures rx.queue == old(rx.queue) + (if sent then [Queued(m, None)] else [])
    {
      sent := rx.TrySend(m);
      unserved := unserved || m.body.Reconcile?;
    }

    // `handle_reconcile`.
    method Handle(trigger: Trigger, turn: Turn)
      modifies `now, `timers, `nextReconcileAt, `nextId, `stage, `unserved, `marks
      ensures View() == Handled(old(View()), trigger, turn)
      ensures now == old(now) + turn.work
      ensures if || old(nextReconcileAt).None? || old(nextReconcileAt).value <= old(now)
                 || trigger == Retry || trigger == LockRetry
              then
                && !unserved && |old(marks)| < |marks|
                && marks[..|old(marks)| + 1] == old(marks) + [ReadStarted(old(now), trigger)]
                && if turn.outcome.Some? then
                     var due, r := now + turn.outcome.value.delayMs, turn.outcome.value;
                     && nextReconcileAt == Some(due)
                     && timers ==
                          old(timers) + {SleepingRetry(old(nextId), due, Message(r.priority, Reconcile(r.trigger)))}
                   else nextReconcileAt.None? && timers == old(timers)
              else
                && unserved == old(unserved) && marks == old(marks)
                && nextReconcileAt == old(nextReconcileAt) && timers == old(timers)
    {
      if nextReconcileAt.Some? && now < nextReconcileAt.value && trigger != Retry && trigger != LockRetry {
        now := now + turn.work;
      } else {
        RunReconcile(trigger, turn);
      }
    }

    // Past the debounce: clear it, read the Stack, and schedule what the reconcile asks for.
    method RunReconcile(trigger: Trigger, turn: Turn)
      modifies `now, `timers, `nextReconcileAt, `nextId, `stage, `unserved, `marks
      ensures View() == Reconciled(old(View()), trigger, turn)
    {
      ReadStack(trigger, turn.work);
      if turn.outcome.Some? {
        ScheduleRequeue(turn.outcome.value);
      } else {
        stage := Processing;
      }
    }

    method ReadStack(trigger: Trigger, work: nat)
      modifies `now, `nextReconcileAt, `stage, `unserved, `marks
      ensures View() == ReadFor(old(View()), trigger, work)
    {
      nextReconcileAt := None;
      stage, unserved, marks := Running, false, marks + [ReadStarted(now, trigger)];
      now := now + work;
    }

    // Receive the first message and drain the rest into the heap.
    method Drain()
      requires heap == multiset{} && rx.queue != []
      modifies `heap, `stage, rx`queue
      ensures View() == Drained(old(View()))
    {
      ghost var batch := multiset(rx.queue);
      while rx.queue != []
        invariant heap + multiset(rx.queue) == batch
        decreases |rx.queue|
      {
        HeadMoves(heap, rx.queue);
        heap := heap + multiset{rx.queue[0]};
        rx.queue := rx.queue[1..];
      }
      stage := Processing;
    }

    // `heap.pop()`, some time after the last message was handled.
    method PopHeap(q: Queued, wait: nat)
      modifies `now, `heap
      ensures View() == Taken(old(View()), q, wait)
    {
      now := now + wait;
      heap := heap - multiset{q};
    }

    // Pop the message and handle it.
    method HandleTop(q: Queued, turn: Turn)
      modifies `now, `live, `heap, `timers, `nextReconcileAt, `nextId, `stage, `unserved, `marks
      ensures View() == Popped(old(View()), q, turn)
    {
      PopHeap(q, turn.wait);
      Answer(q.message.body, turn);
    }

    method Answer(body: Body, turn: Turn)
      modifies `now, `live, `timers, `nextReconcileAt, `nextId, `stage, `unserved, `marks
      ensures View() == Answered(old(View()), body, turn)
    {
      match body
      case Reconcile(trigger) => Handle(trigger, turn);
      case Shutdown => live := false;
    }

    // Handle by priority until the heap is empty or a Shutdown is popped. Which of several
    // messages of one priority comes first is left open.
    method Process(turns: seq<Turn>) returns (handled: seq<Queued>, stopped: bool)
      requires live && stage == Processing && |heap| <= |turns|
      modifies `now, `live, `heap, `timers, `nextReconcileAt, `nextId, `stage, `unserved, `marks
      ensures |handled| <= |turns|
      ensures View() == Play(old(View()), Handlings(handled, turns))
      ensures stage == Processing && live == !stopped && (!stopped ==> heap == multiset{})
      ensures IsRound(old(heap), handled, stopped)
    {
      ghost var was, batch := View(), heap;
      handled, stopped := [], false;
      while heap != multiset{} && !stopped
        invariant live == !stopped && stage == Processing
        invariant if stopped then IsRound(batch, handled, true) else Underway(batch, heap, handled)
        invariant |handled| <= |turns| && View() == Play(was, Handlings(handled, turns))
        decreases |heap|
      {
        var q := Top(heap);
        PopExtends(batch, heap, handled, q);
        NextHandling(was, handled, turns, q);
        HandlingIsPopped(View(), q, turns[|handled|]);
        PoppedFacts(View(), q, turns[|handled|]);
        HandleTop(q, turns[|handled|]);
        handled := handled + [q];
        stopped := q.message.body.Shutdown?;
      }
    }

    // One round of the actor's main loop.
    method Round(turns: seq<Turn>) returns (handled: seq<Queued>, stopped: bool)
      requires live && stage == Waiting && heap == multiset{}
      requires rx.queue != [] && |rx.queue| <= |turns|
      modifies this, rx`queue
      ensures |handled| <= |turns|
      ensures View() == Play(old(View()), RoundMoves(|old(rx.queue)|, handled, turns, stopped))
      ensures IsRound(multiset(old(rx.queue)), handled, stopped)
      ensures forall i, j :: 0 <= i < j < |handled| ==>
                var p, q := handled[i].message.priority, handled[j].message.priority;
                && (q.Deletion? ==> p.Deletion?)
                && (q.LockRecovery? ==> p.Deletion? || p.LockRecovery?)
                && (q.FailureRetry? ==> !p.Normal?)
      ensures if stopped then
                && handled != [] && handled[|handled| - 1].message.body.Shutdown?
                && forall m :: m in multiset(old(rx.queue)) - multiset(handled) ==>
                     var p, q := handled[|handled| - 1].message.priority, m.message.priority;
                     && (q.Deletion? ==> p.Deletion?)
                     && (q.LockRecovery? ==> p.Deletion? || p.LockRecovery?)
                     && (q.FailureRetry? ==> !p.Normal?)
              else multiset(handled) == multiset(old(rx.queue)) && rx.queue == [] && heap == multiset{}
    {
      ghost var was, received := View(), |rx.queue|;
      Drain();
      assert heap == multiset(old(rx.queue));
      handled, stopped := Process(turns);
      ReceivesDrain(was);
      RoundPlays(was, received, handled, turns, stopped);
      if !stopped {
        WaitsAgain(View());
        stage := Waiting;
      }
    }
  }

  lemma HeadMoves(heap: multiset<Queued>, queue: seq<Queued>)
    requires queue != []
    ensures heap + multiset{queue[0]} + multiset(queue[1..]) == heap + multiset(queue)
  {
    assert queue == [queue[0]] + queue[1..];
  }

  // Receiving n messages, the first of them by the wait for one.
  lemma {:induction false} ReceivesMove(s: Protocol, n: nat)
    requires s.live && s.stage == Waiting && 0 < n <= |s.mailbox|
    ensures Play(s, Receives(n)) == Received(s, n)
  {
    NextReceive(s, n - 1);
    if n == 1 {
      ReceiveFirst(s);
    } else {
      ReceivesMove(s, n - 1);
      ReceiveAnother(s, n);
    }
  }

  lemma ReceiveFirst(s: Protocol)
    requires s.live && s.stage == Waiting && s.mailbox != []
    ensures Advance(s, Receive) == Received(s, 1)
  {
    assert s.mailbox[..1] == [s.mailbox[0]];
  }

  lemma ReceiveAnother(s: Protocol, n: nat)
    requires s.live && 1 < n <= |s.mailbox|
    ensures Advance(Received(s, n - 1), Receive) == Received(s, n)
  {
    assert s.mailbox[..n] == s.mailbox[..n - 1] + [s.mailbox[n - 1]];
    assert s.mailbox[n - 1..][1..] == s.mailbox[n..];
  }

  lemma ReceivesDrain(s: Protocol)
    requires s.live && s.stage == Waiting && s.mailbox != []
    ensures Play(s, Receives(|s.mailbox| + 1)) == Drained(s)
  {
    var n := |s.mailbox|;
    ReceivesMove(s, n);
    NextReceive(s, n);
    assert s.mailbox[..n] == s.mailbox && s.mailbox[n..] == [];
  }

  lemma NextReceive(s: Protocol, n: nat)
    ensures Play(s, Receives(n + 1)) == Advance(Play(s, Receives(n)), Receive)
  {
    PlayAppend(s, Receives(n), [Receive]);
    PlayOne(Play(s, Receives(n)), Receive);
  }

  lemma WaitsAgain(s: Protocol)
    requires s.live && s.stage == Processing && s.batch == multiset{}
    ensures Advance(s, Receive) == s.(stage := Waiting)
  {}

  // A round keeps what module Mailbox proves of the protocol machine.
  lemma RoundKeeps(s: Protocol, received: nat, handled: seq<Queued>, turns: seq<Turn>, stopped: bool)
    requires |handled| <= |turns| && Scheduling(turns) && Sane(s)
    ensures Sane(Play(s, RoundMoves(received, handled, turns, stopped)))
  {
    RoundFaithful(received, handled, turns, stopped);
    PlayKeeps(s, RoundMoves(received, handled, turns, stopped));
  }

  lemma RoundPlays(s: Protocol, received: nat, handled: seq<Queued>, turns: seq<Turn>, stopped: bool)
    requires |handled| <= |turns|
    ensures var v := Play(Play(s, Receives(received + 1)), Handlings(handled, turns));
            Play(s, RoundMoves(received, handled, turns, stopped)) == if stopped then v else Advance(v, Receive)
  {
    var ms := Receives(received + 1) + Handlings(handled, turns);
    PlayAppend(s, Receives(received + 1), Handlings(handled, turns));
    PlayAppend(s, ms, if stopped then [] else [Receive]);
    PlayOne(Play(s, ms), Receive);
  }

  // The moves for one message amount to waiting, popping it and handling it.
  lemma HandlingIsPopped(s: Protocol, q: Queued, turn: Turn)
    requires s.live && s.stage == Processing && IsTop(s.batch, q)
    ensures Play(s, Handling(q, turn)) == Popped(s, q, turn)
  {
    PlayHandling(s, q, turn);
    HandlingAdvances(s, q, turn);
  }

  lemma PoppedFacts(s: Protocol, q: Queued, turn: Turn)
    requires s.live && s.stage == Processing
    ensures var s' := Popped(s, q, turn);
            && s'.batch == s.batch - multiset{q} && s'.stage == Processing && s'.live == q.message.body.Reconcile?
            && s'.mailbox == s.mailbox
  {}

  lemma HandlingAdvances(s: Protocol, q: Queued, turn: Turn)
    requires s.live && s.stage == Processing && IsTop(s.batch, q)
    ensures Popped(s, q, turn) ==
              Advance(Advance(Advance(Advance(s, Elapse(turn.wait)), Pop(q)), Elapse(turn.work)),
                      FinishReconcile(turn.outcome))
  {
    PopAdvances(s, q, turn);
    var popped := Taken(s, q, turn.wait);
    if q.message.body.Reconcile? {
      var t := q.message.body.trigger;
      RestOfHandling(if Passes(popped.debounce, popped.now, t) then StartRead(popped, t) else popped, turn);
    }
  }

  lemma PopAdvances(s: Protocol, q: Queued, turn: Turn)
    requires s.live && s.stage == Processing && IsTop(s.batch, q)
    ensures var popped := Taken(s, q, turn.wait);
            Advance(Advance(s, Elapse(turn.wait)), Pop(q)) ==
              if q.message.body.Shutdown? then popped.(live := false)
              else if !Passes(popped.debounce, popped.now, q.message.body.trigger) then popped
              else StartRead(popped, q.message.body.trigger)
  {}

  lemma RestOfHandling(s: Protocol, turn: Turn)
    requires s.live && (s.stage == Processing || s.stage == Running)
    ensures var v := s.(now := s.now + turn.work);
            Advance(Advance(s, Elapse(turn.work)), FinishReconcile(turn.outcome)) ==
              if s.stage == Processing then v
              else if turn.outcome.Some? then Schedule(v, turn.outcome.value) else v.(stage := Processing)
  {}

  lemma NextHandling(s: Protocol, handled: seq<Queued>, turns: seq<Turn>, q: Queued)
    requires |handled| < |turns|
    ensures Play(s, Handlings(handled + [q], turns))
         == Play(Play(s, Handlings(handled, turns)), Handling(q, turns[|handled|]))
  {
    assert (handled + [q])[..|handled|] == handled;
    PlayAppend(s, Handlings(handled, turns), Handling(q, turns[|handled|]));
  }

  // What one round handles: in order of priority, every drained message exactly once; or, when it
  // stopped, up to the first Shutdown, with nothing left behind of a higher priority.
  ghost predicate IsRound(batch: multiset<Queued>, handled: seq<Queued>, stopped: bool) {
    && ByPriority(handled)
    && multiset(handled) <= batch
    && (!stopped ==> multiset(handled) == batch)
    && (stopped ==>
          && handled != [] && handled[|handled| - 1].message.body.Shutdown?
          && forall m :: m in batch - multiset(handled) ==> NotBehind(handled[|handled| - 1], m))
    && forall i :: 0 <= i < |handled| - (if stopped then 1 else 0) ==> handled[i].message.body.Reconcile?
  }

  ghost predicate Underway(batch: multiset<Queued>, heap: multiset<Queued>, handled: seq<Queued>) {
    && multiset(handled) + heap == batch
    && |handled| + |heap| == |batch|
    && ByPriority(handled)
    && (forall i, m :: 0 <= i < |handled| && m in heap ==> NotBehind(handled[i], m))
    && (forall i :: 0 <= i < |handled| ==> handled[i].message.body.Reconcile?)
  }

  lemma PopExtends(batch: multiset<Queued>, heap: multiset<Queued>, handled: seq<Queued>, q: Queued)
    requires Underway(batch, heap, handled)
    requires q in heap && forall m :: m in heap ==> NotBehind(q, m)
    ensures q.message.body.Reconcile? ==> Underway(batch, heap - multiset{q}, handled + [q])
    ensures q.message.body.Shutdown? ==> IsRound(batch, handled + [q], true)
    ensures |handled| < |batch|
  {
    PopCounts(batch, heap, handled, q);
    PopOrders(heap, handled, q);
  }

  lemma PopCounts(batch: multiset<Queued>, heap: multiset<Queued>, handled: seq<Queued>, q: Queued)
    requires multiset(handled) + heap == batch && q in heap
    ensures multiset(handled + [q]) + (heap - multiset{q}) == batch
    ensures batch - multiset(handled + [q]) == heap - multiset{q}
    ensures |heap| == |heap - multiset{q}| + 1
  {
    assert multiset(handled + [q]) == multiset(handled) + multiset{q};
    assert heap == heap - multiset{q} + multiset{q};
  }

  lemma PopOrders(heap: multiset<Queued>, handled: seq<Queued>, q: Queued)
    requires ByPriority(handled) && q in heap
    requires forall i, m :: 0 <= i < |handled| && m in heap ==> NotBehind(handled[i], m)
    requires forall m :: m in heap ==> NotBehind(q, m)
    ensures ByPriority(handled + [q])
    ensures forall i, m :: 0 <= i < |handled + [q]| && m in heap - multiset{q} ==>
              NotBehind((handled + [q])[i], m)
  {
    forall m | m in heap - multiset{q} ensures m in heap {
    }
  }

  // `BinaryHeap::pop`: some entry of the greatest priority.
  method Top(heap: multiset<Queued>) returns (top: Queued)
    requires heap != multiset{}
    ensures top in heap && forall m :: m in heap ==> NotBehind(top, m)
    ensures forall m :: m in heap ==>
              && (top.message.priority.Normal? ==> m.message.priority.Normal?)
              && (top.message.priority.FailureRetry? ==> m.message.priority.FailureRetry? || m.message.priority.Normal?)
              && (top.message.priority.LockRecovery? ==> !m.message.priority.Deletion?)
  {
    top :| top in heap;
    var rest := heap - multiset{top};
    while rest != multiset{}
      invariant rest <= heap && top in heap
      invariant forall m :: m in heap && m !in rest ==> NotBehind(top, m)
      decreases |rest|
    {
      var m: Queued :| m in rest;
      if Rank(m.message.priority) < Rank(top.message.priority) {
        top := m;
      }
      rest := rest[m := 0];
    }
  }

  // ---------------------------------------------------------- one per key

  type Key = string

  // A spawned actor task; it only ever goes from running to finished.
  class Task {
    const key: Key
    var finished: bool

    constructor (key: Key)
      ensures this.key == key && !finished
    {
      this.key := key;
      finished := false;
    }
  }

  datatype ActorHandle = ActorHandle(tx: Channel, task: Task)

  class Dispatcher {
    var actors: map<Key, ActorHandle>
    ghost var spawned: set<Task>

    ghost predicate Valid()
      reads this, spawned
    {
      && (forall k :: k in actors ==> actors[k].task in spawned && actors[k].task.key == k)
      && (forall t :: t in spawned && !t.finished ==> t.key in actors && actors[t.key].task == t)
    }

    constructor ()
      ensures Valid() && actors == map[] && spawned == {}
    {
      actors := map[];
      spawned := {};
    }

    // At most one running actor per key, ever.
    lemma OneActorPerKey(t: Task, u: Task)
      requires Valid() && t in spawned && u in spawned
      requires !t.finished && !u.finished && t.key == u.key
      ensures t == u
    {}

    // Finished actors go; a missing one is spawned with a mailbox of its own.
    method Route(key: Key) returns (tx: Channel)
      requires Valid()
      modifies this
      ensures Valid()
      ensures forall k :: k != key ==>
                (k in actors <==> k in old(actors) && !old(actors[k].task.finished))
                && (k in actors ==> actors[k] == old(actors)[k])
      ensures key in actors && tx == actors[key].tx
      ensures if key in old(actors) && !old(actors[key].task.finished)
              then actors[key] == old(actors)[key] && spawned == old(spawned)
              else fresh(tx) && tx.queue == [] && !tx.closed && fresh(actors[key].task)
                   && spawned == old(spawned) + {actors[key].task}
    {
      actors := map k | k in actors && !actors[k].task.finished :: actors[k];
      if key !in actors {
        var rx := new Channel();
        var task := new Task(key);
        actors := actors[key := ActorHandle(rx, task)];
        spawned := spawned + {task};
      }
      tx := actors[key].tx;
    }

    // The one mailbox that changes is that of the key; a full one drops the message.
    method Dispatch(key: Key, priority: Priority, body: Body) returns (sent: bool)
      requires Valid()
      modifies this, (set k | k in actors :: actors[k].tx)`queue
      ensures Valid()
      ensures forall k :: k != key ==>
                (k in actors <==> k in old(actors) && !old(actors[k].task.finished))
                && (k in actors ==> actors[k] == old(actors)[k])
      ensures key in actors
      ensures if key in old(actors) && !old(actors[key].task.finished)
              then actors[key] == old(actors)[key] && spawned == old(spawned)
              else fresh(actors[key].tx) && fresh(actors[key].task) && spawned == old(spawned) + {actors[key].task}
      ensures var tx, m := actors[key].tx, Message(priority, body);
              if fresh(tx) then sent && tx.queue == [Queued(m, None)]
              else sent == (!tx.closed && |old(tx.queue)| < 64)
                   && tx.queue == old(tx.queue) + (if sent then [Queued(m, None)] else [])
      ensures forall k :: k in old(actors) && old(actors)[k].tx != actors[key].tx ==>
                old(actors)[k].tx.queue == old(actors[k].tx.queue)
    {
      var tx := Route(key);
      sent := tx.TrySend(Message(priority, body));
    }
  }
}
