/** Who is served, and with which message: order and contents over whole runs. */
module IpcOrder {
  import opened Sequences
  import opened Wrappers
  import opened Threads
  import opened Scheduler
  import opened Ipc
  import opened Joint
  import opened JointSteps
  import opened JointCancel
  import opened JointBadged
  import opened JointRuns
  import opened Edf

  // ----- registers and message details -----

  predicate SamePayload(a: Tcb, b: Tcb) { a.regs == b.regs && a.ipc == b.ipc }

  ghost predicate PayloadsKept(k: Kernel, r: Kernel) {
    forall u {:trigger Get(r.tcbs, u)} :: SamePayload(Get(k.tcbs, u), Get(r.tcbs, u))
  }

  lemma SwitchPayload(k: Kernel, next: Entry)
    ensures ContextSwitch(k, next).Go? ==> PayloadsKept(k, ContextSwitch(k, next).k)
  {}

  /** Scheduling changes run states only. */
  lemma SchedulePayload(k: Kernel)
    ensures Schedule(k).Go? ==> PayloadsKept(k, Schedule(k).k)
  {
    if |k.ready| > 0 {
      SwitchPayload(k.(ready := k.ready - multiset{Least(k.ready)}), Least(k.ready));
    } else if k.idle.Some? {
      SwitchPayload(k, Entry(MAX_DEADLINE, k.idle.value));
    }
  }

  lemma ReschedPayload(k: Kernel)
    ensures Resched(k).Go? ==> PayloadsKept(k, Resched(k).k)
  {
    SchedulePayload(k);
  }

  lemma PreemptPayload(k: Kernel)
    ensures Preempt(k).Go? ==> PayloadsKept(k, Preempt(k).k)
  {
    if |k.ready| > 0 { SwitchPayload(k.(ready := k.ready - multiset{Least(k.ready)}), Least(k.ready)); }
  }

  lemma YieldPayload(k: Kernel)
    ensures YieldCurrent(k).Go? ==> PayloadsKept(k, YieldCurrent(k).k)
  {
    if k.current.Some? && |k.ready| < CAPACITY {
      var cur := k.current.value;
      SchedulePayload(k.(
        tcbs := SetState(k.tcbs, cur.tcb, Inactive), ready := k.ready + multiset{cur}, current := None));
    } else if k.current.None? {
      SchedulePayload(k);
    }
  }

  lemma BlockPayload(k: Kernel, st: ThreadState)
    ensures BlockCurrent(k, st).Go? ==> PayloadsKept(k, BlockCurrent(k, st).k)
  {
    if IsBlocked(st) && k.current.Some? {
      SchedulePayload(k.(tcbs := SetState(k.tcbs, k.current.value.tcb, st), current := None));
    } else if IsBlocked(st) {
      SchedulePayload(k);
    }
  }

  /** A send writes the registers of the receiver it meets, and the message details of its own thread. */
  lemma SendPayload(s: Sys, e: Eid, a: SendArgs, u: Tid)
    requires Inv(s) && Legal(s, OpSend(e, a)) && u in s.k.tcbs && u != Runner(s)
    requires s.k.eps[e].state == EpRecv && s.q[e] != [] ==> u != s.q[e][0]
    ensures Step(s, OpSend(e, a)).Next? && SamePayload(Block(s, u), Block(Step(s, OpSend(e, a)).s, u))
  {
    SendKeeps(s, e, a);
    if s.k.eps[e].state == EpRecv {
      SendMeets(s, e, a);
      DequeuedBlocks(s, e, u);
      ReschedPayload(Deliver(s.k, Runner(s), e, a));
    } else if a.blocking {
      SendBlocks(s, e, a);
      SavedKeeps(s, a);
      SaveThenBlock(s, e, a, u);
      ReschedPayload(BlockOn(Saved(s, a).k, Runner(s), e, BlockedOnSend, EpSend));
    }
  }

  /** What the block of a thread holds once a send has queued the sender. */
  lemma SaveThenBlock(s: Sys, e: Eid, a: SendArgs, u: Tid)
    requires Inv(s) && Legal(s, OpSend(e, a)) && s.k.eps[e].state != EpRecv && u in s.k.tcbs
    ensures var b := Get(BlockOn(Saved(s, a).k, Runner(s), e, BlockedOnSend, EpSend).tcbs, u);
            && b.regs == Block(s, u).regs
            && b.ipc == if u != Runner(s) then Block(s, u).ipc
                        else Details(a)
  {
    SavedKeeps(s, a);
    assert StateOk(s, e);
    BlockOnJoins(Saved(s, a), Runner(s), e, BlockedOnSend, EpSend);
  }

  /** A receive writes the registers of its own thread only. */
  lemma ReceivePayload(s: Sys, e: Eid, b: bool, u: Tid)
    requires Inv(s) && Legal(s, OpReceive(e, b)) && u in s.k.tcbs && u != Runner(s)
    ensures Step(s, OpReceive(e, b)).Next? && SamePayload(Block(s, u), Block(Step(s, OpReceive(e, b)).s, u))
  {
    ReceiveKeeps(s, e, b);
    if s.k.eps[e].state == EpSend {
      MetSender(s, e, b, u);
      ReschedPayload(Collect(s.k, Runner(s), e));
    } else if b {
      QueuedReceiver(s, e, u);
      ReschedPayload(BlockOn(s.k, Runner(s), e, BlockedOnReceive, EpRecv));
    }
  }

  lemma MetSender(s: Sys, e: Eid, b: bool, u: Tid)
    requires Inv(s) && Legal(s, OpReceive(e, b)) && s.k.eps[e].state == EpSend && u in s.k.tcbs && u != Runner(s)
    ensures EpOf(s.k, e).queue.head.Some? && ReceiveIpc(s.k, Runner(s), e, b) == Go(Collect(s.k, Runner(s), e))
    ensures SamePayload(Block(s, u), Get(Collect(s.k, Runner(s), e).tcbs, u))
  {
    ReceiveMeets(s, e, b);
    DequeuedBlocks(s, e, u);
  }

  lemma QueuedReceiver(s: Sys, e: Eid, u: Tid)
    requires Inv(s) && Legal(s, OpReceive(e, true)) && s.k.eps[e].state != EpSend && u in s.k.tcbs
    ensures SamePayload(Block(s, u), Get(BlockOn(s.k, Runner(s), e, BlockedOnReceive, EpRecv).tcbs, u))
  {
    assert StateOk(s, e);
    BlockOnJoins(s, Runner(s), e, BlockedOnReceive, EpRecv);
  }

  lemma CancelPayload(s: Sys, t: Tid, u: Tid)
    requires Inv(s) && t in s.k.tcbs && u in s.k.tcbs && (u == t ==> !IsQueuedState(Block(s, t).state))
    ensures SamePayload(Block(s, u), Block(Cancelled(s, t), u))
  {
    if IsQueuedState(Block(s, t).state) {
      assert ThreadOk(s, t);
      CancelQueuedLeaves(s, t, Block(s, t).blockingObject.value);
      assert u != s.k.idle.value ==> SameButLinks(Block(s, u), Block(Cancelled(s, t), u));
    }
  }

  lemma BadgedPayload(s: Sys, e: Eid, badge: nat, u: Tid)
    requires Inv(s) && e in s.k.eps && u in s.k.tcbs
    ensures e in s.q && SamePayload(Block(s, u), Block(CancelledBadged(s, e, badge), u))
  {
    CancelBadgedKeeps(s, e, badge);
    if s.k.eps[e].state == EpSend { SiftedThread(s, CancelledBadged(s, e, badge), e, badge, u); }
  }

  /** A thread that the operation does not concern. */
  predicate Bystander(s: Sys, op: Op, u: Tid) {
    && (op.OpSend? || op.OpReceive? || op.OpCompute? ==> s.k.current.Some? && s.k.current.value.tcb != u)
    && (op.OpSend? && op.e in s.k.eps && op.e in s.q && s.k.eps[op.e].state == EpRecv && s.q[op.e] != [] ==>
          u != s.q[op.e][0])
    && (op.OpCancel? && op.t == u ==> !IsQueuedState(Block(s, u).state))
  }

  lemma StepPayload(s: Sys, op: Op, u: Tid)
    requires Inv(s) && Legal(s, op) && u in s.k.tcbs && Bystander(s, op, u)
    ensures Step(s, op).Next? && SamePayload(Block(s, u), Block(Step(s, op).s, u))
  {
    StepKeeps(s, op);
    match op
    case OpSend(f, a) => SendPayload(s, f, a, u);
    case OpReceive(f, b) => ReceivePayload(s, f, b, u);
    case OpCancel(t) => CancelPayload(s, t, u);
    case OpCancelAll(f) => CancelAllKeeps(s, f);
    case OpCancelBadged(f, badge) => BadgedPayload(s, f, badge, u);
    case OpEnqueue(t) =>
    case OpWake(t) =>
    case OpCompute(regs) =>
    case _ => SchedulingPayload(s, op, u);
  }

  lemma SchedulingPayload(s: Sys, op: Op, u: Tid)
    requires Legal(s, op) && (op.OpPreempt? || op.OpYield? || op.OpBlock? || op.OpSchedule?)
    ensures Step(s, op).Next? ==> SamePayload(Block(s, u), Block(Step(s, op).s, u))
  {
    match op
    case OpPreempt => PreemptPayload(s.k);
    case OpYield => YieldPayload(s.k);
    case OpBlock => BlockPayload(s.k, BlockedOnNotification);
    case OpSchedule => SchedulePayload(s.k);
  }

  /** The receiver a send meets does not stay queued. */
  lemma SendTakesHead(s: Sys, e: Eid, a: SendArgs)
    requires Inv(s) && Legal(s, OpSend(e, a)) && s.k.eps[e].state == EpRecv && s.q[e] != []
    requires Step(s, OpSend(e, a)).Next?
    ensures !IsQueuedState(Block(Step(s, OpSend(e, a)).s, s.q[e][0]).state)
  {
    SendMeets(s, e, a);
    ReschedLeaves(Deliver(s.k, Runner(s), e, a), s.q[e][0]);
  }

  /** Scheduling leaves a thread Inactive or makes it Running. */
  lemma ReschedLeaves(k: Kernel, t: Tid)
    requires Get(k.tcbs, t).state == Inactive
    ensures Resched(k).Go? ==> !IsQueuedState(Get(Resched(k).k.tcbs, t).state)
  {}

  lemma StaysBystander(s: Sys, op: Op, u: Tid)
    requires Inv(s) && Legal(s, op) && Step(s, op).Next?
    requires IsQueuedState(Block(s, u).state) && IsQueuedState(Block(Step(s, op).s, u).state)
    ensures Bystander(s, op, u)
  {
    if op.OpSend? && s.k.eps[op.e].state == EpRecv && s.q[op.e] != [] { SendTakesHead(s, op.e, op.args); }
  }

  /** No operation writes the registers or message details of a thread that stays on a queue. */
  lemma QueuedIsFrozen(s: Sys, op: Op, e: Eid, u: Tid)
    requires Inv(s) && Legal(s, op) && e in s.k.eps && e in s.q && u in s.q[e]
    ensures Step(s, op).Next? && Inv(Step(s, op).s)
    ensures var r := Step(s, op).s;
            e in r.k.eps && e in r.q && u in r.q[e] ==> SamePayload(Block(s, u), Block(r, u))
  {
    StepKeeps(s, op);
    QueuedIsWaiting(s, e, u);
    var r := Step(s, op).s;
    if e in r.k.eps && e in r.q && u in r.q[e] {
      QueuedIsWaiting(r, e, u);
      StaysBystander(s, op, u);
      StepPayload(s, op, u);
    }
  }

  // ----- order -----

  /** `a` stands before `b`. */
  ghost predicate Precedes(q: seq<Tid>, a: Tid, b: Tid) {
    exists i, j :: 0 <= i < j < |q| && q[i] == a && q[j] == b
  }

  /** Whoever remains, remains in the same order. */
  ghost predicate OrderKept(q: seq<Tid>, r: seq<Tid>) {
    forall a, b {:trigger Precedes(q, a, b)} :: Precedes(q, a, b) && a in r && b in r ==> Precedes(r, a, b)
  }

  lemma StillPrecedes(q: seq<Tid>, t: Tid, a: Tid, b: Tid)
    requires Precedes(q, a, b)
    ensures Precedes(q + [t], a, b)
  {
    var i, j :| 0 <= i < j < |q| && q[i] == a && q[j] == b;
    assert (q + [t])[i] == a && (q + [t])[j] == b;
  }

  lemma OrderOfAppend(q: seq<Tid>, t: Tid)
    ensures OrderKept(q, q + [t])
  {
    forall a, b | Precedes(q, a, b) ensures Precedes(q + [t], a, b) { StillPrecedes(q, t, a, b); }
  }

  lemma OrderOfRemoval(q: seq<Tid>, k: nat)
    requires Distinct(q) && k < |q|
    ensures OrderKept(q, q[..k] + q[k + 1..])
  {
    var r := q[..k] + q[k + 1..];
    DistinctWithout(q, k);
    forall a, b | Precedes(q, a, b) && a in r && b in r ensures Precedes(r, a, b) {
      var i, j :| 0 <= i < j < |q| && q[i] == a && q[j] == b;
      assert i != k && j != k;
      var x, y := if i < k then i else i - 1, if j < k then j else j - 1;
      assert r[x] == a && r[y] == b && x < y;
    }
  }

  lemma {:induction false} OrderOfKept(m: Tcbs, q: seq<Tid>, badge: nat)
    requires Distinct(q)
    ensures OrderKept(q, Kept(m, q, badge))
    decreases |q|
  {
    if q != [] {
      var n := |q| - 1;
      OrderOfKept(m, q[..n], badge);
      forall a, b | Precedes(q, a, b) && a in Kept(m, q, badge) && b in Kept(m, q, badge)
        ensures Precedes(Kept(m, q, badge), a, b)
      {
        KeptStep(m, q, badge, a, b, Kept(m, q[..n], badge));
      }
    }
  }

  lemma KeptStep(m: Tcbs, q: seq<Tid>, badge: nat, a: Tid, b: Tid, kf: seq<Tid>)
    requires q != [] && kf == Kept(m, q[..|q| - 1], badge)
    requires Precedes(q[..|q| - 1], a, b) && a in kf && b in kf ==> Precedes(kf, a, b)
    requires Precedes(q, a, b) && a in Kept(m, q, badge) && b in Kept(m, q, badge)
    ensures Precedes(Kept(m, q, badge), a, b)
  {
    var last := q[|q| - 1];
    PrecedesInFront(q, a, b);
    KeptInFront(m, q, badge, a);
    KeptMembers(m, q, badge, b);
    assert Kept(m, q, badge) == if Hit(m, last, badge) then kf else kf + [last];
    if b == last {
      LastAfter(kf, a, b);
    } else {
      KeptInFront(m, q, badge, b);
      StillPrecedes(kf, last, a, b);
    }
  }

  lemma PrecedesInFront(q: seq<Tid>, a: Tid, b: Tid)
    requires q != [] && Precedes(q, a, b)
    ensures a in q[..|q| - 1] && (b != q[|q| - 1] ==> b in q[..|q| - 1] && Precedes(q[..|q| - 1], a, b))
  {
    var n := |q| - 1;
    var i, j :| 0 <= i < j < |q| && q[i] == a && q[j] == b;
    assert q[..n][i] == a;
    if j < n { assert q[..n][j] == b; }
  }

  lemma KeptInFront(m: Tcbs, q: seq<Tid>, badge: nat, u: Tid)
    requires q != [] && u in q[..|q| - 1] && u in Kept(m, q, badge)
    ensures u in Kept(m, q[..|q| - 1], badge)
  {
    KeptMembers(m, q, badge, u);
    KeptMembers(m, q[..|q| - 1], badge, u);
  }

  lemma LastAfter(q: seq<Tid>, a: Tid, t: Tid)
    requires a in q
    ensures Precedes(q + [t], a, t)
  {
    var x :| 0 <= x < |q| && q[x] == a;
    assert (q + [t])[x] == a && (q + [t])[|q|] == t;
  }

  /** Each operation keeps the order of whoever stays on a queue. */
  lemma StepOrder(s: Sys, op: Op, e: Eid)
    requires Inv(s) && Legal(s, op) && e in s.k.eps && e in s.q
    ensures Step(s, op).Next? && e in Step(s, op).s.q && OrderKept(s.q[e], Step(s, op).s.q[e])
  {
    StepKeeps(s, op);
    assert QueueOk(s, e);
    match op
    case OpSend(f, a) => OrderOfTail(s.q[f]); OrderOfAppend(s.q[f], Runner(s));
    case OpReceive(f, b) => OrderOfTail(s.q[f]); OrderOfAppend(s.q[f], Runner(s));
    case OpCancel(t) => OrderOfCancel(s, t, e);
    case OpCancelAll(f) =>
    case OpCancelBadged(f, badge) => if f == e { OrderOfKept(s.k.tcbs, s.q[e], badge); }
    case _ =>
  }

  lemma OrderOfTail(q: seq<Tid>)
    ensures Distinct(q) ==> OrderKept(q, Tail(q))
  {
    if q != [] && Distinct(q) {
      OrderOfRemoval(q, 0);
      assert q[..0] + q[1..] == q[1..];
    }
  }

  lemma OrderOfCancel(s: Sys, t: Tid, e: Eid)
    requires Inv(s) && t in s.k.tcbs && e in s.k.eps && e in s.q
    ensures e in Cancelled(s, t).q && OrderKept(s.q[e], Cancelled(s, t).q[e])
  {
    assert QueueOk(s, e) && ThreadOk(s, t);
    if IsQueuedState(Block(s, t).state) && Block(s, t).blockingObject == Some(e) {
      var k: nat :| k < |s.q[e]| && s.q[e][k] == t;
      WithoutAt(s.q[e], k);
      OrderOfRemoval(s.q[e], k);
    }
  }

  // ----- over whole runs -----

  /** `t` is on the queue of `e` in every state of the run. */
  ghost predicate Stays(s: Sys, ops: seq<Op>, e: Eid, t: Tid)
    requires LegalRun(s, ops)
    decreases |ops|
  {
    && e in s.k.eps && e in s.q && t in s.q[e]
    && (ops != [] && Step(s, ops[0]).Next? ==> Stays(Step(s, ops[0]).s, ops[1..], e, t))
  }

  /** First come, first served: while `a` still waits, `b` who came later does not reach the head. */
  lemma {:induction false} ServedInOrder(s: Sys, ops: seq<Op>, e: Eid, a: Tid, b: Tid)
    requires Inv(s) && LegalRun(s, ops) && Stays(s, ops, e, a) && Stays(s, ops, e, b) && Precedes(s.q[e], a, b)
    ensures Run(s, ops).Next?
    ensures var r := Run(s, ops).s; e in r.q && Precedes(r.q[e], a, b) && r.q[e] != [] && r.q[e][0] != b
    decreases |ops|
  {
    assert QueueOk(s, e);
    if ops == [] {
      var i, j :| 0 <= i < j < |s.q[e]| && s.q[e][i] == a && s.q[e][j] == b;
    } else {
      StepKeeps(s, ops[0]);
      StepOrder(s, ops[0], e);
      ServedInOrder(Step(s, ops[0]).s, ops[1..], e, a, b);
    }
  }

  /** The registers and message details of a thread that waits are those it had when it began to. */
  lemma {:induction false} FrozenWhileQueued(s: Sys, ops: seq<Op>, e: Eid, t: Tid)
    requires Inv(s) && LegalRun(s, ops) && Stays(s, ops, e, t)
    ensures Run(s, ops).Next? && Inv(Run(s, ops).s) && SamePayload(Block(s, t), Block(Run(s, ops).s, t))
    ensures var r := Run(s, ops).s; e in r.k.eps && e in r.q && t in r.q[e]
    decreases |ops|
  {
    if ops != [] {
      QueuedIsFrozen(s, ops[0], e, t);
      FrozenWhileQueued(Step(s, ops[0]).s, ops[1..], e, t);
    }
  }

  /** A send that blocks leaves its thread on the queue, with its registers and the arguments saved. */
  lemma BlockedSender(s: Sys, e: Eid, a: SendArgs)
    requires Inv(s) && Legal(s, OpSend(e, a)) && s.k.eps[e].state != EpRecv && a.blocking
    ensures Step(s, OpSend(e, a)).Next?
    ensures var r, t := Step(s, OpSend(e, a)).s, Runner(s);
            && r.q[e] == s.q[e] + [t] && Block(r, t).regs == Block(s, t).regs
            && Block(r, t).ipc.badge == a.badge && Block(r, t).ipc.isCall == a.call
            && Block(r, t).ipc.canGrant == a.canGrant && Block(r, t).ipc.canGrantReply == a.canGrantReply
  {
    SendKeeps(s, e, a);
    SendBlocks(s, e, a);
    SaveThenBlock(s, e, a, Runner(s));
    ReschedPayload(BlockOn(Saved(s, a).k, Runner(s), e, BlockedOnSend, EpSend));
  }

  /** A receive that meets a sender takes the head of the queue and its first four registers. */
  lemma ReceivedRegisters(s: Sys, e: Eid, b: bool, j: nat)
    requires Inv(s) && Legal(s, OpReceive(e, b)) && s.k.eps[e].state == EpSend
    requires |Block(s, Runner(s)).regs| >= 4 && j < |Block(s, Runner(s)).regs|
    ensures Step(s, OpReceive(e, b)).Next? && s.q[e] != []
    ensures var r, own := Step(s, OpReceive(e, b)).s, Block(s, Runner(s)).regs;
            var regs := Block(r, Runner(s)).regs;
            && r.q[e] == s.q[e][1..] && |regs| == |own|
            && regs[j] == if j < 4 then GetReg(Block(s, s.q[e][0]).regs, j) else own[j]
  {
    ReceiveKeeps(s, e, b);
    ReceiveMeets(s, e, b);
    CollectedRegisters(s, e, j);
    ReschedPayload(Collect(s.k, Runner(s), e));
  }

  lemma CollectedRegisters(s: Sys, e: Eid, j: nat)
    requires Inv(s) && CanAct(s) && e in s.k.eps && e in s.q && s.q[e] != []
    requires EpOf(s.k, e).queue.head == Some(s.q[e][0])
    requires |Block(s, Runner(s)).regs| >= 4 && j < |Block(s, Runner(s)).regs|
    ensures var regs, own := Get(Collect(s.k, Runner(s), e).tcbs, Runner(s)).regs, Block(s, Runner(s)).regs;
            |regs| == |own| && regs[j] == if j < 4 then GetReg(Block(s, s.q[e][0]).regs, j) else own[j]
  {
    var t, h := Runner(s), s.q[e][0];
    var m := DequeueTcbs(s.k.tcbs, s.k.eps[e].queue);
    QueuedIsWaiting(s, e, h);
    DequeuedBlocks(s, e, t);
    CollectTcbsIs(m, h, t);
    TransferIs(m, h, t, Get(m, h).ipc.badge, j);
  }

  /** A send that meets a receiver serves the head of the queue and hands it its own first four registers. */
  lemma DeliveredRegisters(s: Sys, e: Eid, a: SendArgs, j: nat)
    requires Inv(s) && Legal(s, OpSend(e, a)) && s.k.eps[e].state == EpRecv && s.q[e] != []
    requires |Block(s, s.q[e][0]).regs| >= 4 && j < |Block(s, s.q[e][0]).regs|
    ensures Step(s, OpSend(e, a)).Next?
    ensures var r, own := Step(s, OpSend(e, a)).s, Block(s, s.q[e][0]).regs;
            var regs := Block(r, s.q[e][0]).regs;
            && r.q[e] == s.q[e][1..] && |regs| == |own|
            && regs[j] == if j < 4 then GetReg(Block(s, Runner(s)).regs, j) else own[j]
  {
    SendKeeps(s, e, a);
    SendMeets(s, e, a);
    MetRegisters(s, e, a, j);
    ReschedPayload(Deliver(s.k, Runner(s), e, a));
  }

  lemma MetRegisters(s: Sys, e: Eid, a: SendArgs, j: nat)
    requires Inv(s) && CanAct(s) && e in s.k.eps && e in s.q && s.q[e] != []
    requires EpOf(s.k, e).queue.head == Some(s.q[e][0])
    requires |Block(s, s.q[e][0]).regs| >= 4 && j < |Block(s, s.q[e][0]).regs|
    ensures var regs, own := Get(Deliver(s.k, Runner(s), e, a).tcbs, s.q[e][0]).regs, Block(s, s.q[e][0]).regs;
            |regs| == |own| && regs[j] == if j < 4 then GetReg(Block(s, Runner(s)).regs, j) else own[j]
  {
    var t, h := Runner(s), s.q[e][0];
    var m := DequeueTcbs(s.k.tcbs, s.k.eps[e].queue);
    QueuedIsWaiting(s, e, h);
    DequeuedBlocks(s, e, t);
    DeliverTcbsIs(m, t, h, a);
    TransferIs(m, t, h, a.badge, j);
  }

  /** End to end: the receiver gets the registers the sender had when it called `send_ipc`. */
  lemma MessageIsAsSent(s: Sys, e: Eid, a: SendArgs, ops: seq<Op>, b: bool, j: nat)
    requires Inv(s) && FullFrames(s.k.tcbs) && Legal(s, OpSend(e, a)) && s.k.eps[e].state != EpRecv && a.blocking
    requires Step(s, OpSend(e, a)).Next? && j < 4
    requires var s1 := Step(s, OpSend(e, a)).s;
             LegalRun(s1, ops) && Stays(s1, ops, e, Runner(s)) && Run(s1, ops).Next?
    requires var r := Run(Step(s, OpSend(e, a)).s, ops).s;
             Legal(r, OpReceive(e, b)) && r.q[e] != [] && r.q[e][0] == Runner(s) && r.k.eps[e].state == EpSend
    ensures var r := Run(Step(s, OpSend(e, a)).s, ops).s;
            && Step(r, OpReceive(e, b)).Next? && j < |Block(Step(r, OpReceive(e, b)).s, Runner(r)).regs|
            && Block(Step(r, OpReceive(e, b)).s, Runner(r)).regs[j] == GetReg(Block(s, Runner(s)).regs, j)
  {
    var s1 := Step(s, OpSend(e, a)).s;
    SendKeeps(s, e, a);
    BlockedSender(s, e, a);
    StepCarries(s, OpSend(e, a));
    RunCarries(s1, ops);
    FrozenWhileQueued(s1, ops, e, Runner(s));
    assert FullFrames(Run(s1, ops).s.k.tcbs);
    ReceivedRegisters(Run(s1, ops).s, e, b, j);
  }

  /** A thread of a system that booted has all its registers, so the above holds in every run from boot. */
  lemma ReachedIsFull(s: Sys, ops: seq<Op>)
    requires Boot(s) && LegalRun(s, ops)
    ensures Run(s, ops).Next? && Inv(Run(s, ops).s) && FullFrames(Run(s, ops).s.k.tcbs)
  {
    BootIsSound(s);
    RunsStaySound(s, ops);
    RunCarries(s, ops);
    assert FullFrames(s.k.tcbs);
  }
}
