/** Calls and replies over whole runs: what a recorded caller means, and when a call is forgotten. */
module IpcCalls {
  import opened Wrappers
  import opened Threads
  import opened Scheduler
  import opened Ipc
  import opened Joint
  import opened JointSteps
  import opened JointCancel
  import opened JointBadged
  import opened JointRuns

  /** No thread is recorded as the caller of two others, in any run. */
  lemma CallerIsUnique(s: Sys, ops: seq<Op>, x: Tid, y: Tid, c: Tid)
    requires Inv(s) && LegalRun(s, ops) && Run(s, ops).Next?
    requires var r := Run(s, ops).s;
             x in r.k.tcbs && y in r.k.tcbs && Block(r, x).caller == Some(c) && Block(r, y).caller == Some(c)
    ensures x == y && Block(Run(s, ops).s, c).state == BlockedOnReply && Block(Run(s, ops).s, c).replyTo == Some(x)
  {
    RunsStaySound(s, ops);
    assert CallerOk(Run(s, ops).s, x) && CallerOk(Run(s, ops).s, y);
  }

  // ----- the other direction -----

  /** Everyone who awaits a reply is recorded as the caller of the thread it awaits. */
  predicate Remembered(s: Sys, y: Tid) {
    var b := Block(s, y);
    b.state == BlockedOnReply ==>
      b.replyTo.Some? && b.replyTo.value in s.k.tcbs && Block(s, b.replyTo.value).caller == Some(y)
  }

  ghost predicate AllRemembered(s: Sys) { forall y {:trigger Remembered(s, y)} :: y in s.k.tcbs ==> Remembered(s, y) }

  /** Two blocks that say the same about calls. */
  predicate SameCalls(a: Tcb, b: Tcb) {
    && a.caller == b.caller && (a.state == BlockedOnReply <==> b.state == BlockedOnReply)
    && (a.state == BlockedOnReply ==> a.replyTo == b.replyTo)
  }

  ghost predicate CallsKept(k: Kernel, r: Kernel) {
    && r.tcbs.Keys == k.tcbs.Keys
    && forall u {:trigger Get(r.tcbs, u)} :: u in k.tcbs ==> SameCalls(Get(k.tcbs, u), Get(r.tcbs, u))
  }

  lemma CallsKeptRemembers(s: Sys, r: Sys)
    requires CallsKept(s.k, r.k)
    ensures AllRemembered(r) <==> AllRemembered(s)
  {
    forall y | y in s.k.tcbs ensures Remembered(r, y) <==> Remembered(s, y) {
      var b := Block(s, y);
      assert SameCalls(b, Block(r, y));
      assert b.replyTo.Some? && b.replyTo.value in s.k.tcbs ==>
               SameCalls(Block(s, b.replyTo.value), Block(r, b.replyTo.value));
    }
  }

  // ----- the scheduler -----

  lemma SwitchCalls(k: Kernel, next: Entry)
    requires next.tcb in k.tcbs && Get(k.tcbs, next.tcb).state != BlockedOnReply
    requires k.current.Some? ==> k.current.value.tcb in k.tcbs
    ensures ContextSwitch(k, next).Go? ==> CallsKept(k, ContextSwitch(k, next).k)
  {}

  lemma LeastCalls(s: Sys)
    requires Core(s) && |s.k.ready| > 0
    ensures var x := Least(s.k.ready);
            var f := ContextSwitch(s.k.(ready := s.k.ready - multiset{x}), x);
            f.Go? ==> CallsKept(s.k, f.k)
  {
    var x := Least(s.k.ready);
    assert ReadyOk(s, x);
    SwitchCalls(s.k.(ready := s.k.ready - multiset{x}), x);
  }

  lemma ScheduleCalls(s: Sys)
    requires Core(s)
    ensures Schedule(s.k).Go? ==> CallsKept(s.k, Schedule(s.k).k)
  {
    if |s.k.ready| > 0 { LeastCalls(s); } else { SwitchCalls(s.k, Entry(MAX_DEADLINE, s.k.idle.value)); }
  }

  lemma PreemptCalls(s: Sys)
    requires Core(s)
    ensures Preempt(s.k).Go? ==> CallsKept(s.k, Preempt(s.k).k)
  {
    if |s.k.ready| > 0 { LeastCalls(s); }
  }

  lemma YieldCalls(s: Sys)
    requires Inv(s) && (s.k.current.Some? ==> |s.k.ready| < CAPACITY)
    ensures YieldCurrent(s.k).Go? ==> CallsKept(s.k, YieldCurrent(s.k).k)
  {
    if s.k.current.None? {
      ScheduleCalls(s);
    } else {
      RetireKeeps(s);
      ScheduleCalls(Sys(Retire(s.k).k, s.q));
    }
  }

  lemma BlockCalls(s: Sys)
    requires Inv(s) && CanAct(s)
    ensures var f := BlockCurrent(s.k, BlockedOnNotification); f.Go? ==> CallsKept(s.k, f.k)
  {
    StateKeeps(s, Runner(s), BlockedOnNotification);
    var d := s.(k := s.k.(tcbs := SetState(s.k.tcbs, Runner(s), BlockedOnNotification)));
    DropCurrent(d);
    StoppedCalls(s, d.(k := d.k.(current := None)));
  }

  lemma StoppedCalls(s: Sys, d: Sys)
    requires Core(d) && CanAct(s) && Runner(s) in s.k.tcbs && Block(s, Runner(s)).state == Running
    requires d.k.tcbs == SetState(s.k.tcbs, Runner(s), BlockedOnNotification)
    ensures Schedule(d.k).Go? ==> CallsKept(s.k, Schedule(d.k).k)
  {
    ScheduleCalls(d);
    if Schedule(d.k).Go? { CallsKeptTrans(s.k, d.k, Schedule(d.k).k); }
  }

  lemma CallsKeptTrans(a: Kernel, b: Kernel, c: Kernel)
    requires CallsKept(a, b) && (c == b || CallsKept(b, c))
    ensures CallsKept(a, c)
  {
    forall u | u in a.tcbs ensures SameCalls(Get(a.tcbs, u), Get(c.tcbs, u)) {
      assert SameCalls(Get(a.tcbs, u), Get(b.tcbs, u));
    }
  }

  // ----- meetings -----

  /** Exactly one new call: `c` awaits the reply of `d`. */
  ghost predicate NewCall(k: Kernel, r: Kernel, c: Tid, d: Tid) {
    && r.tcbs.Keys == k.tcbs.Keys && c in k.tcbs && d in k.tcbs && c != d
    && (forall u {:trigger Get(r.tcbs, u)} ::
         u in k.tcbs && u != c && u != d ==> SameCalls(Get(k.tcbs, u), Get(r.tcbs, u)))
    && Get(k.tcbs, c).state != BlockedOnReply && Get(k.tcbs, d).state != BlockedOnReply
    && Get(r.tcbs, d).state != BlockedOnReply
    && Get(r.tcbs, c).state == BlockedOnReply && Get(r.tcbs, c).replyTo == Some(d)
    && Get(r.tcbs, c).caller == Get(k.tcbs, c).caller
    && Get(r.tcbs, d).caller == Some(c)
  }

  /** A new call is harmless exactly when its callee had no caller. */
  lemma NewCallRemembers(s: Sys, r: Sys, c: Tid, d: Tid)
    requires Core(s) && AllRemembered(s) && NewCall(s.k, r.k, c, d)
    ensures AllRemembered(r) <==> Block(s, d).caller == None
  {
    if Block(s, d).caller == None {
      forall y | y in r.k.tcbs ensures Remembered(r, y) { NewCallOther(s, r, c, d, y); }
    } else {
      assert CallerOk(s, d);
      assert !Remembered(r, Block(s, d).caller.value);
    }
  }

  lemma NewCallOther(s: Sys, r: Sys, c: Tid, d: Tid, y: Tid)
    requires AllRemembered(s) && NewCall(s.k, r.k, c, d) && Block(s, d).caller == None && y in s.k.tcbs
    ensures Remembered(r, y)
  {
    assert Remembered(s, y);
    if y != c && y != d && Block(s, y).state == BlockedOnReply {
      var z := Block(s, y).replyTo.value;
      assert z != d;
      assert SameCalls(Block(s, y), Block(r, y));
      assert z != c ==> SameCalls(Block(s, z), Block(r, z));
    }
  }

  /** A send that meets a receiver: a new call if it is one that may be replied to, and otherwise none. */
  lemma DeliverCalls(s: Sys, e: Eid, a: SendArgs)
    requires Inv(s) && Legal(s, OpSend(e, a)) && s.k.eps[e].state == EpRecv
    ensures s.q[e] != [] && EpOf(s.k, e).queue.head.Some?
    ensures var k := Deliver(s.k, Runner(s), e, a);
            if ExpectsReply(Details(a)) then NewCall(s.k, k, Runner(s), s.q[e][0])
            else CallsKept(s.k, k)
  {
    SendMeets(s, e, a);
    var k, h, t := Deliver(s.k, Runner(s), e, a), s.q[e][0], Runner(s);
    QueuedIsWaiting(s, e, h);
    DequeuedBlocks(s, e, t);
    forall u | u in s.k.tcbs && u != h && u != t ensures SameCalls(Block(s, u), Get(k.tcbs, u)) {
      DequeuedBlocks(s, e, u);
    }
  }

  lemma CollectCalls(s: Sys, e: Eid, b: bool)
    requires Inv(s) && Legal(s, OpReceive(e, b)) && s.k.eps[e].state == EpSend
    ensures s.q[e] != [] && EpOf(s.k, e).queue.head.Some?
    ensures var k, ipc := Collect(s.k, Runner(s), e), Block(s, s.q[e][0]).ipc;
            if ExpectsReply(ipc) then NewCall(s.k, k, s.q[e][0], Runner(s))
            else CallsKept(s.k, k)
  {
    ReceiveMeets(s, e, b);
    var k, h, t := Collect(s.k, Runner(s), e), s.q[e][0], Runner(s);
    QueuedIsWaiting(s, e, h);
    DequeuedBlocks(s, e, t);
    forall u | u in s.k.tcbs && u != h && u != t ensures SameCalls(Block(s, u), Get(k.tcbs, u)) {
      DequeuedBlocks(s, e, u);
    }
  }

  lemma JoinCalls(s: Sys, r: Sys, e: Eid, t: Tid)
    requires Joined(s, r, e, t)
    ensures CallsKept(s.k, r.k)
  {
    forall u | u in s.k.tcbs ensures SameCalls(Block(s, u), Block(r, u)) {
      assert u != t ==> SameButLinks(Block(s, u), Block(r, u));
    }
  }

  /** The operation sets up a call to a thread that already has a caller. */
  predicate Overwrites(s: Sys, op: Op) {
    match op
    case OpSend(e, a) =>
      && e in s.k.eps && e in s.q && s.q[e] != [] && s.k.eps[e].state == EpRecv
      && ExpectsReply(Details(a)) && Block(s, s.q[e][0]).caller.Some?
    case OpReceive(e, b) =>
      && e in s.k.eps && e in s.q && s.q[e] != [] && s.k.eps[e].state == EpSend && CanAct(s)
      && ExpectsReply(Block(s, s.q[e][0]).ipc)
      && Block(s, Runner(s)).caller.Some?
    case _ => false
  }

  lemma ReschedRemembers(r: Sys)
    requires Mid(r) && CanAct(r)
    ensures Resched(r.k).Go? && (AllRemembered(Sys(Resched(r.k).k, r.q)) <==> AllRemembered(r))
  {
    ReschedKeeps(r);
    ScheduleCalls(r);
    CallsKeptRemembers(r, Sys(Resched(r.k).k, r.q));
  }

  lemma SendRemembers(s: Sys, e: Eid, a: SendArgs)
    requires Inv(s) && Legal(s, OpSend(e, a)) && AllRemembered(s)
    ensures Step(s, OpSend(e, a)).Next? && (AllRemembered(Step(s, OpSend(e, a)).s) <==> !Overwrites(s, OpSend(e, a)))
  {
    if s.k.eps[e].state == EpRecv {
      SendMeets(s, e, a);
      DeliverCalls(s, e, a);
      var r := Popped(s, Deliver(s.k, Runner(s), e, a), e);
      if ExpectsReply(Details(a)) {
        NewCallRemembers(s, r, Runner(s), s.q[e][0]);
      } else {
        CallsKeptRemembers(s, r);
      }
      ReschedRemembers(r);
    } else if a.blocking {
      BlockedSendRemembers(s, e, a);
    }
  }

  lemma BlockedSendCalls(s: Sys, e: Eid, a: SendArgs)
    requires Inv(s) && Legal(s, OpSend(e, a)) && s.k.eps[e].state != EpRecv
    ensures CallsKept(s.k, BlockOn(Saved(s, a).k, Runner(s), e, BlockedOnSend, EpSend))
  {
    var d := Saved(s, a);
    var r := Sys(BlockOn(d.k, Runner(s), e, BlockedOnSend, EpSend), d.q[e := d.q[e] + [Runner(s)]]);
    SavedKeeps(s, a);
    assert StateOk(s, e);
    BlockOnJoins(d, Runner(s), e, BlockedOnSend, EpSend);
    JoinCalls(d, r, e, Runner(s));
    SavedCalls(s, a);
    CallsKeptTrans(s.k, d.k, r.k);
  }

  lemma SavedCalls(s: Sys, a: SendArgs)
    requires Inv(s) && CanAct(s)
    ensures CallsKept(s.k, Saved(s, a).k)
  {}

  lemma BlockedSendRemembers(s: Sys, e: Eid, a: SendArgs)
    requires Inv(s) && Legal(s, OpSend(e, a)) && AllRemembered(s) && s.k.eps[e].state != EpRecv && a.blocking
    ensures Step(s, OpSend(e, a)).Next? && AllRemembered(Step(s, OpSend(e, a)).s)
  {
    SendBlocks(s, e, a);
    BlockedSendCalls(s, e, a);
    var r := Sys(SendIpc(s.k, Runner(s), e, a).k, QueuesAfterSend(s, e, a));
    CallsKeptRemembers(s, r);
    ReschedRemembers(r);
  }

  lemma ReceiveRemembers(s: Sys, e: Eid, b: bool)
    requires Inv(s) && Legal(s, OpReceive(e, b)) && AllRemembered(s)
    ensures Step(s, OpReceive(e, b)).Next?
    ensures (AllRemembered(Step(s, OpReceive(e, b)).s) <==> !Overwrites(s, OpReceive(e, b)))
  {
    if s.k.eps[e].state == EpSend {
      ReceiveMeets(s, e, b);
      CollectCalls(s, e, b);
      var r, ipc := Popped(s, Collect(s.k, Runner(s), e), e), Block(s, s.q[e][0]).ipc;
      if ExpectsReply(ipc) {
        NewCallRemembers(s, r, s.q[e][0], Runner(s));
      } else {
        CallsKeptRemembers(s, r);
      }
      ReschedRemembers(r);
    } else if b {
      BlockedReceiveRemembers(s, e);
    } else {
      ReceiveKeeps(s, e, b);
      CallsKeptRemembers(s, Step(s, OpReceive(e, b)).s);
    }
  }

  lemma BlockedReceiveRemembers(s: Sys, e: Eid)
    requires Inv(s) && Legal(s, OpReceive(e, true)) && AllRemembered(s) && s.k.eps[e].state != EpSend
    ensures Step(s, OpReceive(e, true)).Next? && AllRemembered(Step(s, OpReceive(e, true)).s)
  {
    var r := Sys(BlockOn(s.k, Runner(s), e, BlockedOnReceive, EpRecv), s.q[e := s.q[e] + [Runner(s)]]);
    ReceiveBlocks(s, e);
    assert StateOk(s, e);
    BlockOnJoins(s, Runner(s), e, BlockedOnReceive, EpRecv);
    JoinCalls(s, r, e, Runner(s));
    CallsKeptRemembers(s, r);
    ReschedRemembers(r);
  }

  // ----- cancelling -----

  lemma CancelRemembers(s: Sys, t: Tid)
    requires Inv(s) && t in s.k.tcbs && AllRemembered(s)
    ensures AllRemembered(Cancelled(s, t))
  {
    var r := Cancelled(s, t);
    assert ThreadOk(s, t) && Remembered(s, t);
    if IsQueuedState(Block(s, t).state) {
      CancelQueuedCalls(s, t);
      CallsKeptRemembers(s, r);
    } else if Block(s, t).state == BlockedOnReply {
      forall y | y in r.k.tcbs ensures Remembered(r, y) { assert Remembered(s, y); }
    } else {
      CallsKeptRemembers(s, r);
    }
  }

  lemma CancelQueuedCalls(s: Sys, t: Tid)
    requires Inv(s) && t in s.k.tcbs && IsQueuedState(Block(s, t).state)
    ensures CallsKept(s.k, Cancelled(s, t).k)
  {
    var r := Cancelled(s, t);
    assert ThreadOk(s, t);
    CancelQueuedLeaves(s, t, Block(s, t).blockingObject.value);
    forall u | u in s.k.tcbs ensures SameCalls(Block(s, u), Block(r, u)) {
      assert u != t && u != s.k.idle.value ==> SameButLinks(Block(s, u), Block(r, u));
    }
  }

  lemma DrainedCalls(s: Sys, r: Sys, e: Eid)
    requires Core(s) && Drained(s, r, e)
    ensures CallsKept(s.k, r.k)
  {
    forall u | u in s.k.tcbs ensures SameCalls(Block(s, u), Block(r, u)) {
      if u in s.q[e] { QueuedIsWaiting(s, e, u); }
    }
  }

  lemma SiftedCalls(s: Sys, r: Sys, e: Eid, badge: nat)
    requires Core(s) && Sifted(s, r, e, badge)
    ensures CallsKept(s.k, r.k)
  {
    forall u | u in s.k.tcbs ensures SameCalls(Block(s, u), Block(r, u)) {
      SiftedThread(s, r, e, badge, u);
      if u in s.q[e] { QueuedIsWaiting(s, e, u); }
    }
  }

  lemma CancelAllCalls(s: Sys, e: Eid)
    requires Inv(s) && e in s.k.eps && e in s.q
    ensures CallsKept(s.k, CancelledAll(s, e).k)
  {
    CancelAllKeeps(s, e);
    DrainedCalls(s, CancelledAll(s, e), e);
  }

  lemma CancelBadgedCalls(s: Sys, e: Eid, badge: nat)
    requires Inv(s) && e in s.k.eps && e in s.q
    ensures CallsKept(s.k, CancelledBadged(s, e, badge).k)
  {
    CancelBadgedKeeps(s, e, badge);
    if s.k.eps[e].state == EpSend { SiftedCalls(s, CancelledBadged(s, e, badge), e, badge); }
  }

  /** A thread whose callee records it cannot be woken safely. */
  lemma WakeCalls(s: Sys, t: Tid)
    requires AllRemembered(s) && t in s.k.tcbs && WakeSafe(s, t)
    ensures CallsKept(s.k, Wake(s.k, t).0)
  {
    assert Remembered(s, t);
  }

  // ----- the whole system -----

  /** A call is forgotten exactly when another call to the same callee is set up on top of it. */
  lemma StepRemembersWhen(s: Sys, op: Op)
    requires Inv(s) && Legal(s, op) && AllRemembered(s)
    ensures Step(s, op).Next? && (AllRemembered(Step(s, op).s) <==> !Overwrites(s, op))
  {
    StepKeeps(s, op);
    match op
    case OpSend(e, a) => SendRemembers(s, e, a);
    case OpReceive(e, b) => ReceiveRemembers(s, e, b);
    case OpCancel(t) => CancelRemembers(s, t);
    case _ =>
      OtherCalls(s, op);
      CallsKeptRemembers(s, Step(s, op).s);
  }

  lemma OtherCalls(s: Sys, op: Op)
    requires Inv(s) && Legal(s, op) && AllRemembered(s) && Step(s, op).Next? && !op.OpSend? && !op.OpReceive?
    requires !op.OpCancel?
    ensures CallsKept(s.k, Step(s, op).s.k)
  {
    match op
    case OpCancelAll(e) => CancelAllCalls(s, e);
    case OpCancelBadged(e, badge) => CancelBadgedCalls(s, e, badge);
    case OpEnqueue(t) =>
    case OpWake(t) => WakeCalls(s, t);
    case OpCompute(regs) =>
    case _ => SchedulingCalls(s, op);
  }

  lemma SchedulingCalls(s: Sys, op: Op)
    requires Inv(s) && Legal(s, op) && AllRemembered(s) && Step(s, op).Next?
    requires op.OpPreempt? || op.OpYield? || op.OpBlock? || op.OpSchedule?
    ensures CallsKept(s.k, Step(s, op).s.k)
  {
    match op
    case OpPreempt => PreemptCalls(s);
    case OpYield => YieldCalls(s);
    case OpBlock => BlockCalls(s);
    case OpSchedule => ScheduleCalls(s);
  }

  /** No operation of the run sets up a call on top of another. */
  ghost predicate NeverOverwrites(s: Sys, ops: seq<Op>)
    requires LegalRun(s, ops)
    decreases |ops|
  {
    ops != [] ==> !Overwrites(s, ops[0]) && (Step(s, ops[0]).Next? ==> NeverOverwrites(Step(s, ops[0]).s, ops[1..]))
  }

  /** In a run that never does so, a thread awaits a reply exactly when its callee records it. */
  lemma {:induction false} RunsRemember(s: Sys, ops: seq<Op>)
    requires Inv(s) && AllRemembered(s) && LegalRun(s, ops) && NeverOverwrites(s, ops)
    ensures Run(s, ops).Next? && AllRemembered(Run(s, ops).s)
    decreases |ops|
  {
    if ops != [] {
      StepKeeps(s, ops[0]);
      StepRemembersWhen(s, ops[0]);
      RunsRemember(Step(s, ops[0]).s, ops[1..]);
    }
  }

  lemma BootRemembers(s: Sys)
    requires Boot(s)
    ensures AllRemembered(s)
  {
    forall y | y in s.k.tcbs ensures Remembered(s, y) {}
  }

  /** From boot: without such a call, callers and callees agree in both directions. */
  lemma RepliesAgree(s: Sys, ops: seq<Op>, x: Tid, y: Tid)
    requires Boot(s) && LegalRun(s, ops) && NeverOverwrites(s, ops)
    ensures Run(s, ops).Next?
    ensures var r := Run(s, ops).s;
            x in r.k.tcbs && y in r.k.tcbs ==>
              (Block(r, x).caller == Some(y) <==> Block(r, y).state == BlockedOnReply && Block(r, y).replyTo == Some(x))
  {
    BootIsSound(s);
    BootRemembers(s);
    RunsStaySound(s, ops);
    RunsRemember(s, ops);
    var r := Run(s, ops).s;
    if x in r.k.tcbs && y in r.k.tcbs { assert CallerOk(r, x) && Remembered(r, y); }
  }
}
