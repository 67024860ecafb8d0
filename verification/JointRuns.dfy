/** Runs of the joint system: system calls, cancellations, the timer, and the invariant over all of them. */
module JointRuns {
  import opened Wrappers
  import opened Threads
  import opened Scheduler
  import opened Ipc
  import opened Joint
  import opened JointSteps
  import opened JointCancel
  import opened JointBadged

  /** `OpCompute` is the running thread changing its own registers. */
  datatype Op =
    | OpSend(e: Eid, args: SendArgs)
    | OpReceive(e: Eid, blocking: bool)
    | OpCancel(t: Tid)
    | OpCancelAll(e: Eid)
    | OpCancelBadged(e: Eid, badge: nat)
    | OpEnqueue(t: Tid)
    | OpWake(t: Tid)
    | OpPreempt
    | OpYield
    | OpBlock
    | OpSchedule
    | OpCompute(regs: seq<nat>)

  /** The next state, or a failed `expect` or assertion. */
  datatype Outcome = Next(s: Sys) | Stop

  /** A thread other than the idle one is on the processor. */
  predicate CanAct(s: Sys) { s.k.current.Some? && s.k.idle != Some(s.k.current.value.tcb) }

  function Runner(s: Sys): (t: Tid)
    requires CanAct(s)
  {
    s.k.current.value.tcb
  }

  /** Waking a thread that no queue and no callee still speaks of. */
  ghost predicate WakeSafe(s: Sys, t: Tid) {
    && !IsQueuedState(Block(s, t).state)
    && (Block(s, t).state == BlockedOnReply ==> forall x :: x in s.k.tcbs ==> Block(s, x).caller != Some(t))
  }

  /** The threads and endpoints named exist, and a system call is made by the running thread. */
  predicate Callable(s: Sys, op: Op) {
    match op
    case OpSend(e, a) => CanAct(s) && e in s.k.eps && e in s.q
    case OpReceive(e, b) => CanAct(s) && e in s.k.eps && e in s.q
    case OpCancel(t) => t in s.k.tcbs
    case OpCancelAll(e) => e in s.k.eps && e in s.q
    case OpCancelBadged(e, badge) => e in s.k.eps && e in s.q
    case OpEnqueue(t) => t in s.k.tcbs
    case OpWake(t) => t in s.k.tcbs
    case OpPreempt => true
    case OpYield => true
    case OpBlock => CanAct(s)
    case OpSchedule => true
    case OpCompute(regs) => CanAct(s) && |regs| == REGISTERS
  }

  /** What an operation needs besides, to keep the invariant and not to stop the kernel. */
  ghost predicate Safe(s: Sys, op: Op) {
    match op
    case OpEnqueue(t) => Enqueue(s.k, t).1.Err? || !Readied(s.k.ready, t)
    case OpWake(t) => WakeSafe(s, t)
    case OpYield => s.k.current.Some? ==> |s.k.ready| < CAPACITY
    case OpSchedule => IdleRuns(s.k) ==> |s.k.ready| > 0
    case _ => true
  }

  ghost predicate Legal(s: Sys, op: Op) { Callable(s, op) && Safe(s, op) }

  /** A system call that leaves its thread not Running is followed by rescheduling. */
  ghost function Resched(k: Kernel): (f: Flow) {
    if k.current.Some? && Get(k.tcbs, k.current.value.tcb).state != Running then Schedule(k) else Go(k)
  }

  function Lift(f: Flow, q: map<Eid, seq<Tid>>): (o: Outcome) { if f.Go? then Next(Sys(f.k, q)) else Stop }

  ghost function AfterCall(f: Flow, q: map<Eid, seq<Tid>>): (o: Outcome) {
    if f.Go? then Lift(Resched(f.k), q) else Stop
  }

  function Tail(q: seq<Tid>): (r: seq<Tid>) { if q == [] then [] else q[1..] }

  function QueuesAfterSend(s: Sys, e: Eid, a: SendArgs): (q: map<Eid, seq<Tid>>)
    requires CanAct(s) && e in s.k.eps && e in s.q
  {
    if s.k.eps[e].state == EpRecv then s.q[e := Tail(s.q[e])]
    else if a.blocking then s.q[e := s.q[e] + [Runner(s)]] else s.q
  }

  function QueuesAfterReceive(s: Sys, e: Eid, blocking: bool): (q: map<Eid, seq<Tid>>)
    requires CanAct(s) && e in s.k.eps && e in s.q
  {
    if s.k.eps[e].state == EpSend then s.q[e := Tail(s.q[e])]
    else if blocking then s.q[e := s.q[e] + [Runner(s)]] else s.q
  }

  function Computed(s: Sys, regs: seq<nat>): (r: Sys)
    requires CanAct(s)
  {
    s.(k := s.k.(tcbs := s.k.tcbs[Runner(s) := Block(s, Runner(s)).(regs := regs)]))
  }

  ghost function Step(s: Sys, op: Op): (o: Outcome)
    requires Callable(s, op)
  {
    match op
    case OpSend(e, a) => AfterCall(SendIpc(s.k, Runner(s), e, a), QueuesAfterSend(s, e, a))
    case OpReceive(e, b) => AfterCall(ReceiveIpc(s.k, Runner(s), e, b), QueuesAfterReceive(s, e, b))
    case OpCancel(t) => Next(Cancelled(s, t))
    case OpCancelAll(e) => Next(CancelledAll(s, e))
    case OpCancelBadged(e, badge) => Next(CancelledBadged(s, e, badge))
    case OpEnqueue(t) => Next(Sys(Enqueue(s.k, t).0, s.q))
    case OpWake(t) => Next(Sys(Wake(s.k, t).0, s.q))
    case OpPreempt => Lift(Preempt(s.k), s.q)
    case OpYield => Lift(YieldCurrent(s.k), s.q)
    case OpBlock => Lift(BlockCurrent(s.k, BlockedOnNotification), s.q)
    case OpSchedule => Lift(Schedule(s.k), s.q)
    case OpCompute(regs) => Next(Computed(s, regs))
  }

  // ----- system calls -----

  /** Rescheduling after a call never fails. */
  lemma ReschedKeeps(s: Sys)
    requires Mid(s) && CanAct(s)
    ensures Resched(s.k).Go? && Inv(Sys(Resched(s.k).k, s.q))
  {
    if Block(s, Runner(s)).state != Running { ScheduleKeeps(s); }
  }

  /** The sender before it blocks, its message details saved. */
  function Saved(s: Sys, a: SendArgs): (r: Sys)
    requires CanAct(s)
  {
    s.(k := s.k.(tcbs := s.k.tcbs[Runner(s) := Block(s, Runner(s)).(ipc := Details(a))]))
  }

  lemma SavedKeeps(s: Sys, a: SendArgs)
    requires Inv(s) && CanAct(s)
    ensures Mid(Saved(s, a)) && Acting(Saved(s, a), Runner(s))
  {
    PayloadKeeps(s, Runner(s), Block(Saved(s, a), Runner(s)));
  }

  /** A send to an endpoint where nobody receives. */
  lemma SendBlocks(s: Sys, e: Eid, a: SendArgs)
    requires Inv(s) && Legal(s, OpSend(e, a)) && s.k.eps[e].state != EpRecv && a.blocking
    ensures SendIpc(s.k, Runner(s), e, a) == Go(BlockOn(Saved(s, a).k, Runner(s), e, BlockedOnSend, EpSend))
    ensures Mid(Sys(SendIpc(s.k, Runner(s), e, a).k, QueuesAfterSend(s, e, a)))
  {
    SavedKeeps(s, a);
    BlockKeeps(Saved(s, a), Runner(s), e, BlockedOnSend, EpSend);
  }

  /** A send to a waiting receiver. */
  lemma SendMeets(s: Sys, e: Eid, a: SendArgs)
    requires Inv(s) && Legal(s, OpSend(e, a)) && s.k.eps[e].state == EpRecv
    ensures s.q[e] != [] && EpOf(s.k, e).queue.head == Some(s.q[e][0])
    ensures SendIpc(s.k, Runner(s), e, a) == Go(Deliver(s.k, Runner(s), e, a))
    ensures QueuesAfterSend(s, e, a) == s.q[e := s.q[e][1..]]
    ensures Delivered(s, Deliver(s.k, Runner(s), e, a), Runner(s), e, a)
    ensures Mid(Popped(s, Deliver(s.k, Runner(s), e, a), e))
  {
    assert StateOk(s, e);
    DeliverIs(s, Runner(s), e, a);
    DeliveredKeeps(s, Deliver(s.k, Runner(s), e, a), Runner(s), e, a);
  }

  lemma SendKeeps(s: Sys, e: Eid, a: SendArgs)
    requires Inv(s) && Legal(s, OpSend(e, a))
    ensures Step(s, OpSend(e, a)).Next? && Inv(Step(s, OpSend(e, a)).s)
  {
    if s.k.eps[e].state == EpRecv {
      SendMeets(s, e, a);
      ReschedKeeps(Popped(s, Deliver(s.k, Runner(s), e, a), e));
    } else if a.blocking {
      SendBlocks(s, e, a);
      ReschedKeeps(Sys(SendIpc(s.k, Runner(s), e, a).k, QueuesAfterSend(s, e, a)));
    }
  }

  /** A receive with no sender waiting. */
  lemma ReceiveBlocks(s: Sys, e: Eid)
    requires Inv(s) && Legal(s, OpReceive(e, true)) && s.k.eps[e].state != EpSend
    ensures ReceiveIpc(s.k, Runner(s), e, true) == Go(BlockOn(s.k, Runner(s), e, BlockedOnReceive, EpRecv))
    ensures Mid(Sys(ReceiveIpc(s.k, Runner(s), e, true).k, QueuesAfterReceive(s, e, true)))
  {
    BlockKeeps(s, Runner(s), e, BlockedOnReceive, EpRecv);
  }

  /** A receive from a waiting sender. */
  lemma ReceiveMeets(s: Sys, e: Eid, b: bool)
    requires Inv(s) && Legal(s, OpReceive(e, b)) && s.k.eps[e].state == EpSend
    ensures s.q[e] != [] && EpOf(s.k, e).queue.head == Some(s.q[e][0])
    ensures ReceiveIpc(s.k, Runner(s), e, b) == Go(Collect(s.k, Runner(s), e))
    ensures QueuesAfterReceive(s, e, b) == s.q[e := s.q[e][1..]]
    ensures Collected(s, Collect(s.k, Runner(s), e), Runner(s), e)
    ensures Mid(Popped(s, Collect(s.k, Runner(s), e), e))
  {
    assert StateOk(s, e);
    CollectIs(s, Runner(s), e);
    CollectedKeeps(s, Collect(s.k, Runner(s), e), Runner(s), e);
  }

  lemma ReceiveKeeps(s: Sys, e: Eid, b: bool)
    requires Inv(s) && Legal(s, OpReceive(e, b))
    ensures Step(s, OpReceive(e, b)).Next? && Inv(Step(s, OpReceive(e, b)).s)
  {
    if s.k.eps[e].state == EpSend {
      ReceiveMeets(s, e, b);
      ReschedKeeps(Popped(s, Collect(s.k, Runner(s), e), e));
    } else if b {
      ReceiveBlocks(s, e);
      ReschedKeeps(Sys(ReceiveIpc(s.k, Runner(s), e, b).k, QueuesAfterReceive(s, e, b)));
    } else {
      ReceivePolls(s, e);
    }
  }

  lemma ReceivePolls(s: Sys, e: Eid)
    requires Inv(s) && Legal(s, OpReceive(e, false)) && s.k.eps[e].state != EpSend
    ensures Step(s, OpReceive(e, false)).Next? && Inv(Step(s, OpReceive(e, false)).s)
  {
    var r := Sys(ReceiveIpc(s.k, Runner(s), e, false).k, s.q);
    PayloadKeeps(s, Runner(s), Block(r, Runner(s)));
    ReschedKeeps(r);
  }

  /** Polling: with nobody to meet, a send changes nothing and a receive clears its first register. */
  lemma PollingOnlyReports(s: Sys, e: Eid, a: SendArgs)
    requires Inv(s) && CanAct(s) && e in s.k.eps && e in s.q
    ensures s.k.eps[e].state != EpRecv && !a.blocking ==> Step(s, OpSend(e, a)) == Next(s)
    ensures s.k.eps[e].state != EpSend ==>
      Step(s, OpReceive(e, false)) == Next(Computed(s, SetReg(Block(s, Runner(s)).regs, 0, 0)))
  {}

  // ----- the scheduler's own entry points -----

  /** `enqueue` keeps the invariant exactly when it refuses or the thread is not already ready. */
  lemma EnqueueKeepsWhen(s: Sys, t: Tid)
    requires Inv(s) && t in s.k.tcbs
    ensures Inv(Sys(Enqueue(s.k, t).0, s.q)) <==> Enqueue(s.k, t).1.Err? || !Readied(s.k.ready, t)
  {
    var r := Sys(Enqueue(s.k, t).0, s.q);
    if Enqueue(s.k, t).1.Ok? && !Readied(s.k.ready, t) {
      EnqueueKeeps(s, t);
      SameStates(s, r);
    } else if Enqueue(s.k, t).1.Ok? {
      var x :| x in s.k.ready && x.tcb == t;
      var y := Entry(DeadlineOf(s.k.tcbs, t), t);
      assert x in r.k.ready && y in r.k.ready;
      assert x != y ==> !PlacedOnce(r.k);
      assert x == y ==> !ReadyOk(r, y);
    }
  }

  /** The woken thread is Inactive and offered to the heap. */
  lemma WokenKeeps(s: Sys, t: Tid)
    requires Inv(s) && t in s.k.tcbs && WakeSafe(s, t) && IsBlocked(Block(s, t).state)
    ensures Inv(Sys(Wake(s.k, t).0, s.q))
  {
    var d := s.(k := s.k.(tcbs := SetState(s.k.tcbs, t, Inactive)));
    UnblockedKeeps(s, t);
    EnqueueKeeps(d, t);
    SameStates(s, Sys(Wake(s.k, t).0, s.q));
  }

  lemma UnblockedKeeps(s: Sys, t: Tid)
    requires Core(s) && t in s.k.tcbs && WakeSafe(s, t) && IsBlocked(Block(s, t).state)
    ensures !Readied(s.k.ready, t) && Core(s.(k := s.k.(tcbs := SetState(s.k.tcbs, t, Inactive))))
  {
    forall x | x in s.k.ready ensures x.tcb != t { assert ReadyOk(s, x); }
    ChangeOne(s, t, Block(s, t).(state := Inactive));
  }

  /** `wake` keeps the invariant exactly when nothing still waits with or on the thread. */
  lemma WakeKeepsWhen(s: Sys, t: Tid)
    requires Inv(s) && t in s.k.tcbs
    ensures Inv(Sys(Wake(s.k, t).0, s.q)) <==> WakeSafe(s, t)
  {
    var r := Sys(Wake(s.k, t).0, s.q);
    if WakeSafe(s, t) {
      if IsBlocked(Block(s, t).state) { WokenKeeps(s, t); }
    } else if IsQueuedState(Block(s, t).state) {
      assert ThreadOk(s, t);
      assert !QueueOk(r, Block(s, t).blockingObject.value);
    } else {
      var x :| x in s.k.tcbs && Block(s, x).caller == Some(t);
      assert !CallerOk(r, x);
    }
  }

  /** Rescheduling keeps the invariant exactly when the idle thread is not rescheduled over itself. */
  lemma ScheduleKeepsWhen(s: Sys)
    requires Inv(s)
    ensures Schedule(s.k).Go? && (Inv(Sys(Schedule(s.k).k, s.q)) <==> (IdleRuns(s.k) ==> |s.k.ready| > 0))
  {
    if IdleRuns(s.k) && |s.k.ready| == 0 {
      var r := Sys(Schedule(s.k).k, s.q);
      assert s.k.current.value in r.k.ready && !ReadyOk(r, s.k.current.value);
    } else {
      ScheduleKeeps(s);
    }
  }

  lemma ComputeKeeps(s: Sys, regs: seq<nat>)
    requires Inv(s) && CanAct(s)
    ensures Inv(Computed(s, regs))
  {
    PayloadKeeps(s, Runner(s), Block(s, Runner(s)).(regs := regs));
  }

  // ----- runs -----

  /** An operation goes on and keeps the invariant exactly when it is safe. */
  lemma StepKeepsWhen(s: Sys, op: Op)
    requires Inv(s) && Callable(s, op)
    ensures Step(s, op).Next? && Inv(Step(s, op).s) <==> Safe(s, op)
  {
    match op
    case OpSend(e, a) => SendKeeps(s, e, a);
    case OpReceive(e, b) => ReceiveKeeps(s, e, b);
    case OpCancel(t) => CancelIpcKeeps(s, t);
    case OpCancelAll(e) => CancelAllKeeps(s, e);
    case OpCancelBadged(e, badge) => CancelBadgedKeeps(s, e, badge);
    case OpEnqueue(t) => EnqueueKeepsWhen(s, t);
    case OpWake(t) => WakeKeepsWhen(s, t);
    case OpPreempt => PreemptKeeps(s);
    case OpYield => YieldIsEdf(s.k); if Safe(s, op) { YieldKeeps(s); }
    case OpBlock => BlockCurrentKeeps(s);
    case OpSchedule => ScheduleKeepsWhen(s);
    case OpCompute(regs) => ComputeKeeps(s, regs);
  }

  lemma StepKeeps(s: Sys, op: Op)
    requires Inv(s) && Legal(s, op)
    ensures Step(s, op).Next? && Inv(Step(s, op).s)
  {
    StepKeepsWhen(s, op);
  }

  lemma ScheduleStays(k: Kernel, t: Tid)
    requires t in k.tcbs
    ensures Schedule(k).Go? ==> t in Schedule(k).k.tcbs
    ensures Resched(k).Go? ==> t in Resched(k).k.tcbs
    ensures Preempt(k).Go? ==> t in Preempt(k).k.tcbs
  {}

  lemma SendStays(s: Sys, e: Eid, a: SendArgs, t: Tid)
    requires Inv(s) && Callable(s, OpSend(e, a)) && t in s.k.tcbs
    ensures Step(s, OpSend(e, a)).Next? && t in Step(s, OpSend(e, a)).s.k.tcbs
  {
    SendKeeps(s, e, a);
    if s.k.eps[e].state == EpRecv {
      SendMeets(s, e, a);
      DequeuedBlocks(s, e, t);
    } else if a.blocking {
      SendBlocks(s, e, a);
    }
    ScheduleStays(SendIpc(s.k, Runner(s), e, a).k, t);
  }

  lemma ReceiveStays(s: Sys, e: Eid, b: bool, t: Tid)
    requires Inv(s) && Callable(s, OpReceive(e, b)) && t in s.k.tcbs
    ensures Step(s, OpReceive(e, b)).Next? && t in Step(s, OpReceive(e, b)).s.k.tcbs
  {
    ReceiveKeeps(s, e, b);
    if s.k.eps[e].state == EpSend {
      ReceiveMeets(s, e, b);
      DequeuedBlocks(s, e, t);
    } else if b {
      ReceiveBlocks(s, e);
    }
    ScheduleStays(ReceiveIpc(s.k, Runner(s), e, b).k, t);
  }

  lemma YieldStays(k: Kernel, t: Tid)
    requires t in k.tcbs
    ensures YieldCurrent(k).Go? ==> t in YieldCurrent(k).k.tcbs
  {
    if k.current.Some? {
      var c := k.current.value;
      ScheduleStays(k.(tcbs := SetState(k.tcbs, c.tcb, Inactive), ready := k.ready + multiset{c}, current := None), t);
    } else {
      ScheduleStays(k, t);
    }
  }

  lemma BlockStays(k: Kernel, st: ThreadState, t: Tid)
    requires t in k.tcbs
    ensures BlockCurrent(k, st).Go? ==> t in BlockCurrent(k, st).k.tcbs
  {
    if k.current.Some? {
      ScheduleStays(k.(tcbs := SetState(k.tcbs, k.current.value.tcb, st), current := None), t);
    } else {
      ScheduleStays(k, t);
    }
  }

  /** No operation takes a thread out of the table. */
  lemma ThreadsStay(s: Sys, op: Op, t: Tid)
    requires Inv(s) && Legal(s, op) && t in s.k.tcbs
    ensures Step(s, op).Next? && t in Step(s, op).s.k.tcbs
  {
    StepKeeps(s, op);
    match op
    case OpSend(e, a) => SendStays(s, e, a, t);
    case OpReceive(e, b) => ReceiveStays(s, e, b, t);
    case OpCancelAll(e) => CancelAllKeeps(s, e);
    case OpCancelBadged(e, badge) => CancelBadgedKeeps(s, e, badge);
    case OpYield => YieldStays(s.k, t);
    case OpBlock => BlockStays(s.k, BlockedOnNotification, t);
    case OpPreempt => ScheduleStays(s.k, t);
    case OpSchedule => ScheduleStays(s.k, t);
    case _ =>
  }

  /** Every operation of the run is legal where it happens, and none stops the kernel. */
  ghost predicate LegalRun(s: Sys, ops: seq<Op>)
    decreases |ops|
  {
    ops != [] ==> Legal(s, ops[0]) && (Step(s, ops[0]).Next? ==> LegalRun(Step(s, ops[0]).s, ops[1..]))
  }

  ghost function Run(s: Sys, ops: seq<Op>): (o: Outcome)
    requires LegalRun(s, ops)
    decreases |ops|
  {
    if ops == [] then Next(s)
    else if Step(s, ops[0]).Stop? then Stop
    else Run(Step(s, ops[0]).s, ops[1..])
  }

  /** Boot: nobody queued, nobody called, nothing ready, nothing running. */
  ghost predicate Boot(s: Sys) {
    && s.q.Keys == s.k.eps.Keys && s.k.ready == multiset{} && s.k.current.None?
    && (forall e :: e in s.k.eps ==> s.k.eps[e] == Endpoint(EpIdle, EMPTY_QUEUE) && s.q[e] == [])
    && (forall t :: t in s.k.tcbs ==>
         && !IsQueuedState(Get(s.k.tcbs, t).state) && Get(s.k.tcbs, t).state != BlockedOnReply
         && Get(s.k.tcbs, t).caller == None && |Get(s.k.tcbs, t).regs| == REGISTERS)
    && s.k.idle.Some? && s.k.idle.value in s.k.tcbs && Get(s.k.tcbs, s.k.idle.value).state == Inactive
  }

  lemma BootIsSound(s: Sys)
    requires Boot(s)
    ensures Inv(s)
  {
    forall e | e in s.k.eps ensures QueueOk(s, e) && StateOk(s, e) {}
    forall t | t in s.k.tcbs ensures ThreadOk(s, t) && CallerOk(s, t) {}
  }

  /** In every run the kernel goes on, and the invariant holds. */
  lemma {:induction false} RunsStaySound(s: Sys, ops: seq<Op>)
    requires Inv(s) && LegalRun(s, ops)
    ensures Run(s, ops).Next? && Inv(Run(s, ops).s)
    decreases |ops|
  {
    if ops != [] {
      StepKeeps(s, ops[0]);
      RunsStaySound(Step(s, ops[0]).s, ops[1..]);
    }
  }

  /** Every operation of the run can be called, goes on, and leaves the invariant. */
  ghost predicate SoundRun(s: Sys, ops: seq<Op>)
    decreases |ops|
  {
    ops != [] ==>
      && Callable(s, ops[0]) && Step(s, ops[0]).Next? && Inv(Step(s, ops[0]).s)
      && SoundRun(Step(s, ops[0]).s, ops[1..])
  }

  /** The runs that stay sound are exactly those whose operations are legal where they happen. */
  lemma {:induction false} RunsAreSoundWhen(s: Sys, ops: seq<Op>)
    requires Inv(s)
    ensures SoundRun(s, ops) <==> LegalRun(s, ops)
    decreases |ops|
  {
    if ops != [] && Callable(s, ops[0]) {
      StepKeepsWhen(s, ops[0]);
      if Safe(s, ops[0]) { RunsAreSoundWhen(Step(s, ops[0]).s, ops[1..]); }
    }
  }

  // ----- putting runs together -----

  /** The operations are legal one after another and lead from `s` to `r`. */
  ghost predicate Leads(s: Sys, ops: seq<Op>, r: Sys) { LegalRun(s, ops) && Run(s, ops) == Next(r) }

  lemma LeadsOne(s: Sys, op: Op, r: Sys)
    requires Legal(s, op) && Step(s, op) == Next(r)
    ensures Leads(s, [op], r)
  {
    assert [op][1..] == [];
  }

  lemma {:induction false} LeadsOn(s: Sys, p: seq<Op>, r: Sys, q: seq<Op>, o: Outcome)
    requires Leads(s, p, r) && LegalRun(r, q) && Run(r, q) == o
    ensures LegalRun(s, p + q) && Run(s, p + q) == o
    decreases |p|
  {
    if p == [] {
      assert p + q == q;
    } else {
      assert (p + q)[0] == p[0] && (p + q)[1..] == p[1..] + q;
      LeadsOn(Step(s, p[0]).s, p[1..], r, q, o);
    }
  }
}
