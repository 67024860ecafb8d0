/**
Where threads are over whole runs: never in two places, and what becomes of the partner of a
rendezvous, which is made Inactive before it is woken and so is refused by `wake`.
*/
module IpcWake {
  import opened Sequences
  import opened Wrappers
  import opened Threads
  import opened Scheduler
  import opened Ipc
  import opened Joint
  import opened JointSteps
  import opened JointCancel
  import opened JointBadged
  import opened JointRuns

  // ----- one place at a time -----

  predicate OnQueue(s: Sys, e: Eid, t: Tid) { e in s.k.eps && e in s.q && t in s.q[e] }

  predicate OnProcessor(s: Sys, t: Tid) { s.k.current.Some? && s.k.current.value.tcb == t }

  /** At most one ready entry, one processor slot or one queue position, and only one of the three. */
  ghost predicate OnePlace(s: Sys, t: Tid) {
    && (forall x :: x in s.k.ready && x.tcb == t ==> s.k.ready[x] == 1 && Block(s, t).state == Inactive)
    && (forall x, y :: x in s.k.ready && y in s.k.ready && x.tcb == t && y.tcb == t ==> x == y)
    && (Readied(s.k.ready, t) ==> !OnProcessor(s, t))
    && (forall e {:trigger OnQueue(s, e, t)} ::
         OnQueue(s, e, t) ==> !Readied(s.k.ready, t) && !OnProcessor(s, t) && Distinct(s.q[e]))
    && (forall e, f {:trigger OnQueue(s, e, t), OnQueue(s, f, t)} :: OnQueue(s, e, t) && OnQueue(s, f, t) ==> e == f)
  }

  lemma SoundIsOnePlace(s: Sys, t: Tid)
    requires Inv(s)
    ensures OnePlace(s, t)
  {
    forall x | x in s.k.ready ensures s.k.ready[x] == 1 && Block(s, x.tcb).state == Inactive { assert ReadyOk(s, x); }
    forall e | OnQueue(s, e, t) ensures !Readied(s.k.ready, t) && !OnProcessor(s, t) && Distinct(s.q[e]) {
      assert QueueOk(s, e);
      QueuedIsWaiting(s, e, t);
    }
    forall e, f | OnQueue(s, e, t) && OnQueue(s, f, t) ensures e == f { QueuesApart(s, e, f, t); }
  }

  /** From boot, in every run, no thread is in two places. */
  lemma NeverInTwoPlaces(s: Sys, ops: seq<Op>, t: Tid)
    requires Boot(s) && LegalRun(s, ops)
    ensures Run(s, ops).Next? && OnePlace(Run(s, ops).s, t)
  {
    BootIsSound(s);
    RunsStaySound(s, ops);
    SoundIsOnePlace(Run(s, ops).s, t);
  }

  /** From boot, in every run, an endpoint is Idle exactly when its queue is empty, and waits are consistent. */
  lemma EndpointsAgree(s: Sys, ops: seq<Op>, e: Eid)
    requires Boot(s) && LegalRun(s, ops) && Run(s, ops).Next? && e in Run(s, ops).s.k.eps
    ensures var r := Run(s, ops).s;
            && e in r.q && (r.k.eps[e].state == EpIdle <==> r.q[e] == [])
            && (r.k.eps[e].queue.head == None <==> r.q[e] == [])
            && (forall t :: t in r.q[e] <==> IsQueuedState(Block(r, t).state) && Block(r, t).blockingObject == Some(e))
            && (forall t :: t in r.q[e] ==> WaitsOn(Block(r, t), e, r.k.eps[e].state))
  {
    BootIsSound(s);
    RunsStaySound(s, ops);
    var r := Run(s, ops).s;
    assert QueueOk(r, e) && StateOk(r, e);
    forall t ensures t in r.q[e] <==> IsQueuedState(Block(r, t).state) && Block(r, t).blockingObject == Some(e) {
      if t in r.q[e] { QueuedIsWaiting(r, e, t); }
      if t in r.k.tcbs { assert ThreadOk(r, t); }
    }
  }

  // ----- stranded threads -----

  /** Inactive, and in no place from which it could run. */
  ghost predicate Stranded(k: Kernel, t: Tid) {
    && t in k.tcbs && Get(k.tcbs, t).state == Inactive && !Readied(k.ready, t) && k.idle != Some(t)
    && (k.current.Some? ==> k.current.value.tcb != t)
  }

  /** Running or blocked, ready, or the idle thread. */
  ghost predicate Held(k: Kernel, t: Tid) {
    Get(k.tcbs, t).state != Inactive || Readied(k.ready, t) || k.idle == Some(t)
  }

  lemma StrandedIsNotHeld(s: Sys, t: Tid)
    requires Inv(s) && t in s.k.tcbs
    ensures Stranded(s.k, t) <==> !Held(s.k, t)
  {}

  // Scheduling alone neither strands a thread nor rescues one.

  lemma SwitchHolds(k: Kernel, next: Entry, t: Tid)
    ensures ContextSwitch(k, next).Go? ==> (Held(ContextSwitch(k, next).k, t) <==> Held(k, t) || next.tcb == t)
  {
    if ContextSwitch(k, next).Go? {
      var r := ContextSwitch(k, next).k;
      assert forall x :: x in k.ready ==> x in r.ready;
      if k.current.Some? && Get(k.tcbs, k.current.value.tcb).state == Running { assert k.current.value in r.ready; }
    }
  }

  lemma LeastHolds(k: Kernel, t: Tid)
    requires |k.ready| > 0
    ensures var x := Least(k.ready);
            var f := ContextSwitch(k.(ready := k.ready - multiset{x}), x);
            f.Go? ==> (Held(f.k, t) <==> Held(k, t))
  {
    var x := Least(k.ready);
    var d := k.(ready := k.ready - multiset{x});
    assert forall y :: y in k.ready && y != x ==> y in d.ready;
    SwitchHolds(d, x, t);
  }

  lemma ScheduleHolds(k: Kernel, t: Tid)
    ensures Schedule(k).Go? ==> (Held(Schedule(k).k, t) <==> Held(k, t))
  {
    if |k.ready| > 0 {
      LeastHolds(k, t);
    } else if k.idle.Some? {
      SwitchHolds(k, Entry(MAX_DEADLINE, k.idle.value), t);
    }
  }

  lemma ReschedHolds(k: Kernel, t: Tid)
    ensures Resched(k).Go? ==> (Held(Resched(k).k, t) <==> Held(k, t))
  {
    ScheduleHolds(k, t);
  }

  lemma PreemptHolds(k: Kernel, t: Tid)
    ensures Preempt(k).Go? ==> (Held(Preempt(k).k, t) <==> Held(k, t))
  {
    if |k.ready| > 0 { LeastHolds(k, t); }
  }

  lemma YieldHolds(s: Sys, t: Tid)
    requires Inv(s)
    ensures YieldCurrent(s.k).Go? ==> (Held(YieldCurrent(s.k).k, t) <==> Held(s.k, t))
  {
    if s.k.current.None? {
      ScheduleHolds(s.k, t);
    } else if |s.k.ready| < CAPACITY {
      var cur := s.k.current.value;
      PushHolds(s.k, t);
      ScheduleHolds(s.k.(
        tcbs := SetState(s.k.tcbs, cur.tcb, Inactive), ready := s.k.ready + multiset{cur}, current := None), t);
    }
  }

  /** A running thread put into the heap is still held. */
  lemma PushHolds(k: Kernel, t: Tid)
    requires k.current.Some? && Get(k.tcbs, k.current.value.tcb).state == Running
    ensures var cur := k.current.value;
            var d := k.(tcbs := SetState(k.tcbs, cur.tcb, Inactive), ready := k.ready + multiset{cur}, current := None);
            Held(d, t) <==> Held(k, t)
  {
    var cur := k.current.value;
    var d := k.ready + multiset{cur};
    assert cur in d;
    assert forall x :: x in k.ready ==> x in d;
    assert forall x :: x in d ==> x in k.ready || x == cur;
  }

  lemma BlockHolds(s: Sys, t: Tid)
    requires Inv(s)
    ensures var f := BlockCurrent(s.k, BlockedOnNotification); f.Go? ==> (Held(f.k, t) <==> Held(s.k, t))
  {
    if s.k.current.None? {
      ScheduleHolds(s.k, t);
    } else {
      var cur := s.k.current.value;
      ScheduleHolds(s.k.(tcbs := SetState(s.k.tcbs, cur.tcb, BlockedOnNotification), current := None), t);
    }
  }

  // ----- whom an operation strands -----

  /** When the threads of `ts` are offered to the heap in order, it is full before the turn of `t`. */
  ghost predicate TooLate(k: Kernel, ts: seq<Tid>, t: Tid) {
    exists i :: 0 <= i < |ts| && ts[i] == t && |k.ready| + i >= CAPACITY
  }

  /** The operation leaves `t` stranded. */
  ghost predicate Strands(s: Sys, op: Op, t: Tid)
    requires Callable(s, op)
  {
    match op
    case OpSend(e, a) =>
      && s.k.eps[e].state == EpRecv && s.q[e] != []
      && (t == s.q[e][0] || (t == Runner(s) && a.call && !ExpectsReply(Details(a))))
    case OpReceive(e, b) =>
      && s.k.eps[e].state == EpSend && s.q[e] != []
      && t == s.q[e][0] && !ExpectsReply(Block(s, t).ipc)
    case OpCancel(c) => c == t && IsBlocked(Block(s, t).state)
    case OpCancelAll(e) => TooLate(s.k, s.q[e], t)
    case OpCancelBadged(e, badge) =>
      s.k.eps[e].state == EpSend && TooLate(s.k, Hits(s.k.tcbs, s.q[e], badge), t)
    case OpWake(c) => c == t && IsBlocked(Block(s, t).state) && |s.k.ready| >= CAPACITY
    case _ => false
  }

  lemma DeliverHolds(s: Sys, e: Eid, a: SendArgs, t: Tid)
    requires Inv(s) && Callable(s, OpSend(e, a)) && s.k.eps[e].state == EpRecv && t in s.k.tcbs
    ensures s.q[e] != [] && EpOf(s.k, e).queue.head.Some?
    ensures Held(Deliver(s.k, Runner(s), e, a), t) <==> Held(s.k, t) && !Strands(s, OpSend(e, a), t)
  {
    SendMeets(s, e, a);
    var h := s.q[e][0];
    QueuedIsWaiting(s, e, h);
    DequeuedBlocks(s, e, t);
    forall x | x in s.k.ready ensures x.tcb != h { assert ReadyOk(s, x); }
  }

  lemma SendHolds(s: Sys, e: Eid, a: SendArgs, t: Tid)
    requires Inv(s) && Callable(s, OpSend(e, a)) && t in s.k.tcbs
    ensures Step(s, OpSend(e, a)).Next?
    ensures Held(Step(s, OpSend(e, a)).s.k, t) <==> Held(s.k, t) && !Strands(s, OpSend(e, a), t)
  {
    SendKeeps(s, e, a);
    if s.k.eps[e].state == EpRecv {
      SendMeets(s, e, a);
      DeliverHolds(s, e, a, t);
      ReschedHolds(Deliver(s.k, Runner(s), e, a), t);
    } else if a.blocking {
      SendBlocks(s, e, a);
      BlockedSendHolds(s, e, a, t);
      ReschedHolds(BlockOn(Saved(s, a).k, Runner(s), e, BlockedOnSend, EpSend), t);
    }
  }

  lemma JoinHolds(s: Sys, r: Sys, e: Eid, u: Tid, t: Tid)
    requires Joined(s, r, e, u) && t in s.k.tcbs
    ensures Held(r.k, t) <==> Held(s.k, t)
  {
    assert t != u ==> SameButLinks(Block(s, t), Block(r, t));
  }

  lemma BlockedSendHolds(s: Sys, e: Eid, a: SendArgs, t: Tid)
    requires Inv(s) && Callable(s, OpSend(e, a)) && s.k.eps[e].state != EpRecv && t in s.k.tcbs
    ensures Held(BlockOn(Saved(s, a).k, Runner(s), e, BlockedOnSend, EpSend), t) <==> Held(s.k, t)
  {
    SavedKeeps(s, a);
    assert StateOk(s, e);
    var d := Saved(s, a);
    BlockOnJoins(d, Runner(s), e, BlockedOnSend, EpSend);
    var q := d.q[e := d.q[e] + [Runner(s)]];
    JoinHolds(d, Sys(BlockOn(d.k, Runner(s), e, BlockedOnSend, EpSend), q), e, Runner(s), t);
  }

  lemma CollectHolds(s: Sys, e: Eid, b: bool, t: Tid)
    requires Inv(s) && Callable(s, OpReceive(e, b)) && s.k.eps[e].state == EpSend && t in s.k.tcbs
    ensures s.q[e] != [] && EpOf(s.k, e).queue.head.Some?
    ensures Held(Collect(s.k, Runner(s), e), t) <==> Held(s.k, t) && !Strands(s, OpReceive(e, b), t)
  {
    ReceiveMeets(s, e, b);
    var h := s.q[e][0];
    QueuedIsWaiting(s, e, h);
    DequeuedBlocks(s, e, t);
    forall x | x in s.k.ready ensures x.tcb != h { assert ReadyOk(s, x); }
  }

  lemma ReceiveHolds(s: Sys, e: Eid, b: bool, t: Tid)
    requires Inv(s) && Callable(s, OpReceive(e, b)) && t in s.k.tcbs
    ensures Step(s, OpReceive(e, b)).Next?
    ensures Held(Step(s, OpReceive(e, b)).s.k, t) <==> Held(s.k, t) && !Strands(s, OpReceive(e, b), t)
  {
    ReceiveKeeps(s, e, b);
    if s.k.eps[e].state == EpSend {
      ReceiveMeets(s, e, b);
      CollectHolds(s, e, b, t);
      ReschedHolds(Collect(s.k, Runner(s), e), t);
    } else if b {
      ReceiveBlocks(s, e);
      BlockedReceiveHolds(s, e, t);
      ReschedHolds(BlockOn(s.k, Runner(s), e, BlockedOnReceive, EpRecv), t);
    }
  }

  lemma BlockedReceiveHolds(s: Sys, e: Eid, t: Tid)
    requires Inv(s) && Callable(s, OpReceive(e, true)) && s.k.eps[e].state != EpSend && t in s.k.tcbs
    ensures Held(BlockOn(s.k, Runner(s), e, BlockedOnReceive, EpRecv), t) <==> Held(s.k, t)
  {
    assert StateOk(s, e);
    BlockOnJoins(s, Runner(s), e, BlockedOnReceive, EpRecv);
    var q := s.q[e := s.q[e] + [Runner(s)]];
    JoinHolds(s, Sys(BlockOn(s.k, Runner(s), e, BlockedOnReceive, EpRecv), q), e, Runner(s), t);
  }

  // ----- cancelling -----

  /** A cancel makes its thread Inactive if it was blocked, and changes no other state. */
  lemma CancelledStates(s: Sys, c: Tid, t: Tid)
    requires Inv(s) && c in s.k.tcbs && t in s.k.tcbs
    ensures var r := Cancelled(s, c);
            && r.k.ready == s.k.ready && r.k.idle == s.k.idle
            && Block(r, t).state == if t == c && IsBlocked(Block(s, c).state) then Inactive else Block(s, t).state
  {
    if IsQueuedState(Block(s, c).state) { CancelledQueued(s, c, t); }
  }

  lemma CancelHolds(s: Sys, c: Tid, t: Tid)
    requires Inv(s) && c in s.k.tcbs && t in s.k.tcbs
    ensures Held(Cancelled(s, c).k, t) <==> Held(s.k, t) && !Strands(s, OpCancel(c), t)
  {
    CancelledStates(s, c, t);
    if IsBlocked(Block(s, c).state) {
      forall x | x in s.k.ready ensures x.tcb != c { assert ReadyOk(s, x); }
    }
  }

  lemma CancelledQueued(s: Sys, c: Tid, t: Tid)
    requires Inv(s) && c in s.k.tcbs && t in s.k.tcbs && IsQueuedState(Block(s, c).state)
    ensures var r := Cancelled(s, c);
            && r.k.ready == s.k.ready && r.k.idle == s.k.idle && r.k.idle != Some(c) && Block(r, c).state == Inactive
            && (t != c ==> Block(r, t).state == Block(s, t).state)
  {
    assert ThreadOk(s, c);
    CancelQueuedLeaves(s, c, Block(s, c).blockingObject.value);
    assert t != c && t != s.k.idle.value ==> SameButLinks(Block(s, t), Block(Cancelled(s, c), t));
  }

  lemma CancelAllHolds(s: Sys, e: Eid, t: Tid)
    requires Inv(s) && e in s.k.eps && t in s.k.tcbs
    ensures e in s.q && (Held(CancelledAll(s, e).k, t) <==> Held(s.k, t) && !TooLate(s.k, s.q[e], t))
  {
    CancelAllKeeps(s, e);
    var r := CancelledAll(s, e);
    assert forall x :: x in s.k.ready ==> x in r.k.ready;
    if t in s.q[e] {
      QueuedIsWaiting(s, e, t);
      assert QueueOk(s, e);
      OfferedHolds(s.k, r.k, s.q[e], t);
    }
  }

  /** A waiter set free is held exactly when it came early enough. */
  lemma OfferedHolds(k: Kernel, r: Kernel, ts: seq<Tid>, t: Tid)
    requires Distinct(ts) && t in ts && InOrder(k.ready, r.ready, ts) && r.idle != Some(t)
    requires Get(r.tcbs, t).state == Inactive
    ensures Held(r, t) <==> !TooLate(k, ts, t)
  {
    var i :| 0 <= i < |ts| && ts[i] == t;
    assert Readied(r.ready, ts[i]) <==> |k.ready| + i < CAPACITY;
  }

  lemma CancelBadgedHolds(s: Sys, e: Eid, badge: nat, t: Tid)
    requires Inv(s) && Callable(s, OpCancelBadged(e, badge)) && t in s.k.tcbs
    ensures Held(CancelledBadged(s, e, badge).k, t) <==> Held(s.k, t) && !Strands(s, OpCancelBadged(e, badge), t)
  {
    CancelBadgedKeeps(s, e, badge);
    if s.k.eps[e].state == EpSend {
      var r := CancelledBadged(s, e, badge);
      SiftedThread(s, r, e, badge, t);
      assert QueueOk(s, e);
      HitsMembers(s.k.tcbs, s.q[e], badge, t);
      if t in s.q[e] { QueuedIsWaiting(s, e, t); }
      if t in Hits(s.k.tcbs, s.q[e], badge) {
        HitsDistinct(s.k.tcbs, s.q[e], badge);
        OfferedHolds(s.k, r.k, Hits(s.k.tcbs, s.q[e], badge), t);
      } else {
        SiftedReady(s, r, e, badge, t);
      }
    }
  }

  /** A thread that was not set free is ready afterwards exactly if it was. */
  lemma SiftedReady(s: Sys, r: Sys, e: Eid, badge: nat, t: Tid)
    requires Inv(s) && Sifted(s, r, e, badge) && t !in Hits(s.k.tcbs, s.q[e], badge) && t in s.k.tcbs
    ensures Readied(r.k.ready, t) <==> Readied(s.k.ready, t)
  {
    SiftedThread(s, r, e, badge, t);
    HitsMembers(s.k.tcbs, s.q[e], badge, t);
    if x :| x in r.k.ready && x.tcb == t && x !in s.k.ready { QueuedIsWaiting(s, e, t); }
    assert forall x :: x in s.k.ready ==> x in r.k.ready;
  }

  // ----- the whole system -----

  lemma WakeHolds(s: Sys, c: Tid, t: Tid)
    requires Inv(s) && c in s.k.tcbs && t in s.k.tcbs
    ensures Held(Wake(s.k, c).0, t) <==> Held(s.k, t) && !Strands(s, OpWake(c), t)
  {
    if IsBlocked(Block(s, c).state) {
      forall x | x in s.k.ready ensures x.tcb != c { assert ReadyOk(s, x); }
      var d := s.k.(tcbs := SetState(s.k.tcbs, c, Inactive));
      EnqueueEnters(d, c);
      EnqueueHolds(d, c, t);
    }
  }

  lemma EnqueueHolds(k: Kernel, c: Tid, t: Tid)
    ensures t != c ==> (Held(Enqueue(k, c).0, t) <==> Held(k, t))
    ensures Held(k, t) ==> Held(Enqueue(k, c).0, t)
    ensures !Held(k, c) ==> (Held(Enqueue(k, c).0, c) <==> |k.ready| < CAPACITY)
  {
    var r := Enqueue(k, c).0;
    assert forall x :: x in k.ready ==> x in r.ready;
    assert forall x :: x in r.ready ==> x in k.ready || x.tcb == c;
    assert Enqueue(k, c).1.Ok? ==> Entry(DeadlineOf(k.tcbs, c), c) in r.ready;
  }

  /** Who is held after an operation: whoever was and is not stranded by it, and whoever is enqueued with room. */
  lemma StepHolds(s: Sys, op: Op, t: Tid)
    requires Inv(s) && Legal(s, op) && t in s.k.tcbs
    ensures Step(s, op).Next?
    ensures Held(Step(s, op).s.k, t) <==>
              (Held(s.k, t) && !Strands(s, op, t)) || (op == OpEnqueue(t) && |s.k.ready| < CAPACITY)
  {
    StepKeeps(s, op);
    match op
    case OpSend(e, a) => SendHolds(s, e, a, t);
    case OpReceive(e, b) => ReceiveHolds(s, e, b, t);
    case OpCancel(c) => CancelHolds(s, c, t);
    case OpCancelAll(e) => CancelAllHolds(s, e, t);
    case OpCancelBadged(e, badge) => CancelBadgedHolds(s, e, badge, t);
    case OpEnqueue(u) => EnqueueHolds(s.k, u, t);
    case OpWake(u) => WakeHolds(s, u, t);
    case OpPreempt => PreemptHolds(s.k, t);
    case OpYield => YieldHolds(s, t);
    case OpBlock => BlockHolds(s, t);
    case OpSchedule => ScheduleHolds(s.k, t);
    case OpCompute(regs) =>
  }

  /** Exactly who is stranded after any operation. */
  lemma StrandedWhen(s: Sys, op: Op, t: Tid)
    requires Inv(s) && Legal(s, op) && t in s.k.tcbs
    ensures Step(s, op).Next? && t in Step(s, op).s.k.tcbs
    ensures Stranded(Step(s, op).s.k, t) <==>
              (Stranded(s.k, t) || Strands(s, op, t)) && !(op == OpEnqueue(t) && |s.k.ready| < CAPACITY)
  {
    StepKeeps(s, op);
    StepHolds(s, op, t);
    ThreadsStay(s, op, t);
    StrandedIsNotHeld(s, t);
    StrandedIsNotHeld(Step(s, op).s, t);
  }

  /** In every run without an `enqueue` of that very thread, a stranded thread never runs again. */
  lemma {:induction false} StrandedForever(s: Sys, ops: seq<Op>, t: Tid)
    requires Inv(s) && LegalRun(s, ops) && Stranded(s.k, t) && OpEnqueue(t) !in ops
    ensures Run(s, ops).Next? && Stranded(Run(s, ops).s.k, t)
    decreases |ops|
  {
    if ops != [] {
      StepKeeps(s, ops[0]);
      StrandedWhen(s, ops[0], t);
      StrandedForever(Step(s, ops[0]).s, ops[1..], t);
    }
  }

  /** The receiver that a send meets is always stranded. */
  lemma ReceiverIsStranded(s: Sys, e: Eid, a: SendArgs)
    requires Inv(s) && Callable(s, OpSend(e, a)) && s.k.eps[e].state == EpRecv
    ensures s.q[e] != [] && Step(s, OpSend(e, a)).Next? && Stranded(Step(s, OpSend(e, a)).s.k, s.q[e][0])
  {
    SendMeets(s, e, a);
    QueuedIsWaiting(s, e, s.q[e][0]);
    StrandedWhen(s, OpSend(e, a), s.q[e][0]);
  }

  /** The sender that a receive meets is stranded exactly when it does not now await a reply. */
  lemma SenderIsStranded(s: Sys, e: Eid, b: bool)
    requires Inv(s) && Callable(s, OpReceive(e, b)) && s.k.eps[e].state == EpSend
    ensures s.q[e] != [] && Step(s, OpReceive(e, b)).Next?
    ensures Stranded(Step(s, OpReceive(e, b)).s.k, s.q[e][0]) <==> !ExpectsReply(Block(s, s.q[e][0]).ipc)
  {
    ReceiveMeets(s, e, b);
    QueuedIsWaiting(s, e, s.q[e][0]);
    StrandedIsNotHeld(s, s.q[e][0]);
    StrandedWhen(s, OpReceive(e, b), s.q[e][0]);
  }

  /** Cancelling an endpoint restarts its waiters in order, and strands those the heap has no room for. */
  lemma CancelAllRestarts(s: Sys, e: Eid, i: nat)
    requires Inv(s) && e in s.k.eps && e in s.q && i < |s.q[e]|
    ensures var r, t := CancelledAll(s, e), s.q[e][i];
            && (Readied(r.k.ready, t) <==> |s.k.ready| + i < CAPACITY)
            && (Stranded(r.k, t) <==> |s.k.ready| + i >= CAPACITY)
  {
    CancelAllKeeps(s, e);
    QueuedIsWaiting(s, e, s.q[e][i]);
  }

  /** So does cancelling by badge, counting only the senders with that badge. */
  lemma CancelBadgedRestarts(s: Sys, e: Eid, badge: nat, i: nat)
    requires Inv(s) && e in s.k.eps && e in s.q && s.k.eps[e].state == EpSend
    requires i < |Hits(s.k.tcbs, s.q[e], badge)|
    ensures var r, t := CancelledBadged(s, e, badge), Hits(s.k.tcbs, s.q[e], badge)[i];
            && (Readied(r.k.ready, t) <==> |s.k.ready| + i < CAPACITY)
            && (Stranded(r.k, t) <==> |s.k.ready| + i >= CAPACITY)
  {
    var r, t := CancelledBadged(s, e, badge), Hits(s.k.tcbs, s.q[e], badge)[i];
    CancelBadgedKeeps(s, e, badge);
    HitsMembers(s.k.tcbs, s.q[e], badge, t);
    QueuedIsWaiting(s, e, t);
    SiftedThread(s, r, e, badge, t);
  }
}
