/** What becomes of a sender that blocked: by whom it is freed, and when it goes on to await a reply. */
module IpcFates {
  import opened Wrappers
  import opened Threads
  import opened Scheduler
  import opened Ipc
  import opened Joint
  import opened JointSteps
  import opened JointCancel
  import opened JointBadged
  import opened JointRuns
  import opened IpcOrder

  // ----- an endpoint does not change sides while anyone waits -----

  lemma SwitchKeepsEndpoints(k: Kernel, next: Entry)
    ensures ContextSwitch(k, next).Go? ==> ContextSwitch(k, next).k.eps == k.eps
  {}

  lemma ScheduleKeepsEndpoints(k: Kernel)
    ensures Schedule(k).Go? ==> Schedule(k).k.eps == k.eps
  {
    if |k.ready| > 0 {
      SwitchKeepsEndpoints(k.(ready := k.ready - multiset{Least(k.ready)}), Least(k.ready));
    } else if k.idle.Some? {
      SwitchKeepsEndpoints(k, Entry(MAX_DEADLINE, k.idle.value));
    }
  }

  lemma ReschedKeepsEndpoints(k: Kernel)
    ensures Resched(k).Go? ==> Resched(k).k.eps == k.eps
  {
    ScheduleKeepsEndpoints(k);
  }

  /** Senders and receivers never take turns on a queue without its being empty in between. */
  predicate SameSide(s: Sys, r: Sys, e: Eid) {
    e in s.k.eps && e in r.k.eps
    && (s.k.eps[e].state != EpIdle ==> r.k.eps[e].state == s.k.eps[e].state || r.k.eps[e].state == EpIdle)
  }

  lemma SideAfterCall(s: Sys, f: Flow, q: map<Eid, seq<Tid>>, e: Eid)
    requires f.Go? && SameSide(s, Sys(f.k, q), e)
    ensures AfterCall(f, q).Next? ==> SameSide(s, AfterCall(f, q).s, e)
  {
    ReschedKeepsEndpoints(f.k);
  }

  lemma SendSide(s: Sys, f: Eid, a: SendArgs, e: Eid)
    requires Inv(s) && Legal(s, OpSend(f, a)) && e in s.k.eps
    ensures Step(s, OpSend(f, a)).Next? && SameSide(s, Step(s, OpSend(f, a)).s, e)
  {
    SendKeeps(s, f, a);
    if s.k.eps[f].state == EpRecv {
      SendMeets(s, f, a);
      DeliverIsPlain(s.k, Runner(s), f, a);
    }
    SideAfterCall(s, SendIpc(s.k, Runner(s), f, a), QueuesAfterSend(s, f, a), e);
  }

  lemma ReceiveSide(s: Sys, f: Eid, b: bool, e: Eid)
    requires Inv(s) && Legal(s, OpReceive(f, b)) && e in s.k.eps
    ensures Step(s, OpReceive(f, b)).Next? && SameSide(s, Step(s, OpReceive(f, b)).s, e)
  {
    ReceiveKeeps(s, f, b);
    if s.k.eps[f].state == EpSend {
      ReceiveMeets(s, f, b);
      CollectIsPlain(s.k, Runner(s), f);
    }
    SideAfterCall(s, ReceiveIpc(s.k, Runner(s), f, b), QueuesAfterReceive(s, f, b), e);
  }

  lemma CancelSide(s: Sys, t: Tid, e: Eid)
    requires Inv(s) && t in s.k.tcbs && e in s.k.eps
    ensures SameSide(s, Cancelled(s, t), e)
  {
    assert ThreadOk(s, t);
  }

  lemma SchedulerSide(s: Sys, op: Op, e: Eid)
    requires Inv(s) && Legal(s, op) && e in s.k.eps && (op.OpPreempt? || op.OpYield? || op.OpBlock? || op.OpSchedule?)
    ensures Step(s, op).Next? ==> SameSide(s, Step(s, op).s, e)
  {
    var k := s.k;
    match op
    case OpPreempt =>
      if |k.ready| > 0 {
        SwitchKeepsEndpoints(k.(ready := k.ready - multiset{Least(k.ready)}), Least(k.ready));
      }
    case OpYield => YieldSide(k);
    case OpBlock => BlockSide(k);
    case OpSchedule => ScheduleKeepsEndpoints(k);
  }

  lemma YieldSide(k: Kernel)
    ensures YieldCurrent(k).Go? ==> YieldCurrent(k).k.eps == k.eps
  {
    if k.current.Some? && |k.ready| < CAPACITY {
      var cur := k.current.value;
      ScheduleKeepsEndpoints(k.(
        tcbs := SetState(k.tcbs, cur.tcb, Inactive), ready := k.ready + multiset{cur}, current := None));
    } else if k.current.None? {
      ScheduleKeepsEndpoints(k);
    }
  }

  lemma BlockSide(k: Kernel)
    ensures BlockCurrent(k, BlockedOnNotification).Go? ==> BlockCurrent(k, BlockedOnNotification).k.eps == k.eps
  {
    if k.current.Some? {
      ScheduleKeepsEndpoints(
        k.(tcbs := SetState(k.tcbs, k.current.value.tcb, BlockedOnNotification), current := None));
    } else {
      ScheduleKeepsEndpoints(k);
    }
  }

  lemma StepSide(s: Sys, op: Op, e: Eid)
    requires Inv(s) && Legal(s, op) && e in s.k.eps
    ensures Step(s, op).Next? && SameSide(s, Step(s, op).s, e)
  {
    StepKeeps(s, op);
    match op
    case OpSend(f, a) => SendSide(s, f, a, e);
    case OpReceive(f, b) => ReceiveSide(s, f, b, e);
    case OpCancel(t) => CancelSide(s, t, e);
    case OpCancelAll(f) => CancelAllKeeps(s, f);
    case OpCancelBadged(f, badge) => CancelBadgedKeeps(s, f, badge);
    case OpEnqueue(t) =>
    case OpWake(t) =>
    case OpCompute(regs) =>
    case _ => SchedulerSide(s, op, e);
  }

  /** A sender that stays on the queue stays a sender. */
  lemma {:induction false} StaysSender(s: Sys, ops: seq<Op>, e: Eid, t: Tid)
    requires Inv(s) && LegalRun(s, ops) && Stays(s, ops, e, t) && s.k.eps[e].state == EpSend
    ensures Run(s, ops).Next? && e in Run(s, ops).s.k.eps && Run(s, ops).s.k.eps[e].state == EpSend
    decreases |ops|
  {
    if ops != [] {
      StepKeeps(s, ops[0]);
      StepSide(s, ops[0], e);
      var r := Step(s, ops[0]).s;
      assert StateOk(r, e);
      StaysSender(r, ops[1..], e, t);
    }
  }

  // ----- the sender, from the call that blocked it to the operation that frees it -----

  /** The call blocks: nobody receives, and the caller asked to wait. */
  ghost predicate Blocks(s: Sys, e: Eid, a: SendArgs) {
    Inv(s) && Legal(s, OpSend(e, a)) && s.k.eps[e].state != EpRecv && a.blocking
  }

  /** The caller is still on the queue after each of `ops`. */
  ghost predicate StillQueued(s: Sys, e: Eid, a: SendArgs, ops: seq<Op>)
    requires Blocks(s, e, a)
  {
    var o := Step(s, OpSend(e, a));
    o.Next? && LegalRun(o.s, ops) && Stays(o.s, ops, e, Runner(s))
  }

  ghost function After(s: Sys, e: Eid, a: SendArgs, ops: seq<Op>): (o: Outcome)
    requires Blocks(s, e, a) && StillQueued(s, e, a, ops)
  {
    Run(Step(s, OpSend(e, a)).s, ops)
  }

  /** Its block says what it called with, however long it waits. */
  lemma QueuedSender(s: Sys, e: Eid, a: SendArgs, ops: seq<Op>)
    requires Blocks(s, e, a) && StillQueued(s, e, a, ops)
    ensures After(s, e, a, ops).Next? && Inv(After(s, e, a, ops).s)
    ensures var r, t := After(s, e, a, ops).s, Runner(s);
            && e in r.k.eps && e in r.q && t in r.q[e] && t in r.k.tcbs && r.k.eps[e].state == EpSend
            && Block(r, t).state == BlockedOnSend && Block(r, t).blockingObject == Some(e)
            && Block(r, t).regs == Block(s, t).regs && Block(r, t).ipc.badge == a.badge
            && Block(r, t).ipc.canGrant == a.canGrant && Block(r, t).ipc.canGrantReply == a.canGrantReply
            && Block(r, t).ipc.isCall == a.call
  {
    var r1, t := Step(s, OpSend(e, a)).s, Runner(s);
    SendKeeps(s, e, a);
    BlockedSender(s, e, a);
    SendSide(s, e, a, e);
    BlockedSide(s, e, a);
    FrozenWhileQueued(r1, ops, e, t);
    StaysSender(r1, ops, e, t);
    QueuedIsWaiting(Run(r1, ops).s, e, t);
  }

  lemma BlockedSide(s: Sys, e: Eid, a: SendArgs)
    requires Blocks(s, e, a)
    ensures Step(s, OpSend(e, a)).Next? && e in Step(s, OpSend(e, a)).s.k.eps
    ensures Step(s, OpSend(e, a)).s.k.eps[e].state == EpSend
  {
    SendKeeps(s, e, a);
    SendBlocks(s, e, a);
    ReschedKeepsEndpoints(BlockOn(Saved(s, a).k, Runner(s), e, BlockedOnSend, EpSend));
  }

  /**
  A sender that blocked with some badge, and still waits after any run, is freed by cancelling badge
  `c` on its endpoint exactly when it is that badge; otherwise it stays, and so does all it sent.
  */
  lemma FreedExactlyByItsBadge(s: Sys, e: Eid, a: SendArgs, ops: seq<Op>, c: nat)
    requires Blocks(s, e, a) && StillQueued(s, e, a, ops)
    ensures After(s, e, a, ops).Next? && Callable(After(s, e, a, ops).s, OpCancelBadged(e, c))
    ensures Step(After(s, e, a, ops).s, OpCancelBadged(e, c)).Next?
    ensures var z, t := Step(After(s, e, a, ops).s, OpCancelBadged(e, c)).s, Runner(s);
            && e in z.q && (t !in z.q[e] <==> a.badge == c)
            && (a.badge == c ==> Block(z, t).state == Inactive && Block(z, t).blockingObject == None
                                 && Block(z, t).epNext == None && Block(z, t).epPrev == None)
            && (a.badge != c ==> Block(z, t).state == BlockedOnSend && Block(z, t).blockingObject == Some(e))
            && Block(z, t).regs == Block(s, t).regs
  {
    QueuedSender(s, e, a, ops);
    var r, t := After(s, e, a, ops).s, Runner(s);
    CancelBadgedKeeps(r, e, c);
    SiftedThread(r, CancelledBadged(r, e, c), e, c, t);
    KeptMembers(r.k.tcbs, r.q[e], c, t);
  }

  /**
  When it is received, it awaits the receiver's reply exactly when it called with the right to be
  replied to; in every other case it is Inactive, and the receiver's caller is as before.
  */
  lemma AwaitsReplyExactlyWhen(s: Sys, e: Eid, a: SendArgs, ops: seq<Op>, b: bool)
    requires Blocks(s, e, a) && StillQueued(s, e, a, ops)
    requires var o := After(s, e, a, ops);
             o.Next? && Legal(o.s, OpReceive(e, b)) && o.s.q[e] != [] && o.s.q[e][0] == Runner(s)
    ensures var r, t := After(s, e, a, ops).s, Runner(s);
            var o, receiver := Step(r, OpReceive(e, b)), Runner(r);
            && o.Next? && receiver != t && e in o.s.q && o.s.q[e] == r.q[e][1..]
            && (Block(o.s, t).state == BlockedOnReply <==> a.call && (a.canGrant || a.canGrantReply))
            && (if Block(o.s, t).state == BlockedOnReply then
                  Block(o.s, t).replyTo == Some(receiver) && Block(o.s, receiver).caller == Some(t)
                else
                  Block(o.s, t).state == Inactive && Block(o.s, receiver).caller == Block(r, receiver).caller)
  {
    QueuedSender(s, e, a, ops);
    var r, t := After(s, e, a, ops).s, Runner(s);
    ReceiveMeets(r, e, b);
    CollectedSender(r, e, t);
  }

  /** What a receive makes of the sender at the head; the receiver goes on running. */
  lemma CollectedSender(s: Sys, e: Eid, t: Tid)
    requires Inv(s) && CanAct(s) && e in s.k.eps && e in s.q && s.q[e] != [] && s.q[e][0] == t
    requires EpOf(s.k, e).queue.head == Some(t)
    ensures var k, u := Collect(s.k, Runner(s), e), Runner(s);
            var awaits := Block(s, t).ipc.isCall && (Block(s, t).ipc.canGrant || Block(s, t).ipc.canGrantReply);
            && u != t && Resched(k) == Go(k)
            && Get(k.tcbs, t).state == (if awaits then BlockedOnReply else Inactive)
            && (awaits ==> Get(k.tcbs, t).replyTo == Some(u))
            && Get(k.tcbs, u).caller == if awaits then Some(t) else Block(s, u).caller
  {
    var u := Runner(s);
    QueuedIsWaiting(s, e, t);
    CollectIsPlain(s.k, u, e);
    DequeuedBlocks(s, e, u);
    DequeuedBlocks(s, e, t);
    CollectTcbsIs(DequeueTcbs(s.k.tcbs, s.k.eps[e].queue), t, u);
  }

  // ----- a sender that does not have to wait -----

  /** Rescheduling changes no thread but the next one, if the running one has stopped. */
  lemma ReschedSpares(k: Kernel, t: Tid)
    requires k.current.Some? && Get(k.tcbs, k.current.value.tcb).state != Running
    requires !Readied(k.ready, t) && k.idle != Some(t) && Resched(k).Go?
    ensures Get(Resched(k).k.tcbs, t) == Get(k.tcbs, t)
  {
    if |k.ready| > 0 { assert Least(k.ready) in k.ready; }
  }

  /** The partner a call met keeps its record of the caller, whoever runs next. */
  lemma ReschedKeepsCaller(k: Kernel, t: Tid)
    requires Resched(k).Go?
    ensures Get(Resched(k).k.tcbs, t).caller == Get(k.tcbs, t).caller
  {}

  /**
  A send that meets a receiver: a plain send goes on running; a call with the right to be replied to
  awaits its receiver, which records it; a call without is left Inactive.
  */
  lemma MeetingSender(s: Sys, e: Eid, a: SendArgs)
    requires Inv(s) && Legal(s, OpSend(e, a)) && s.k.eps[e].state == EpRecv
    ensures s.q[e] != [] && Step(s, OpSend(e, a)).Next?
    ensures var z, t, receiver := Step(s, OpSend(e, a)).s, Runner(s), s.q[e][0];
            && receiver != t && z.q[e] == s.q[e][1..]
            && Block(z, t).state == (if !a.call then Running
                                     else if a.canGrant || a.canGrantReply then BlockedOnReply else Inactive)
            && (a.call && (a.canGrant || a.canGrantReply) ==> Block(z, t).replyTo == Some(receiver))
            && Block(z, receiver).caller == if a.call && (a.canGrant || a.canGrantReply) then Some(t)
                                            else Block(s, receiver).caller
  {
    var t := Runner(s);
    SendKeeps(s, e, a);
    SendMeets(s, e, a);
    var k := Deliver(s.k, t, e, a);
    MetBlocks(s, e, a);
    ReschedKeepsCaller(k, s.q[e][0]);
    if a.call { ReschedSpares(k, t); }
  }

  lemma MetBlocks(s: Sys, e: Eid, a: SendArgs)
    requires Inv(s) && CanAct(s) && e in s.k.eps && e in s.q && s.q[e] != []
    requires EpOf(s.k, e).queue.head == Some(s.q[e][0])
    ensures var k, t, h := Deliver(s.k, Runner(s), e, a), Runner(s), s.q[e][0];
            && h != t && k.current == s.k.current && k.idle == s.k.idle && !Readied(k.ready, t)
            && Get(k.tcbs, t).state == (if !a.call then Running
                                        else if a.canGrant || a.canGrantReply then BlockedOnReply else Inactive)
            && (a.call && (a.canGrant || a.canGrantReply) ==> Get(k.tcbs, t).replyTo == Some(h))
            && Get(k.tcbs, h).caller == if a.call && (a.canGrant || a.canGrantReply) then Some(t)
                                        else Block(s, h).caller
  {
    var t, h := Runner(s), s.q[e][0];
    QueuedIsWaiting(s, e, h);
    DeliverIsPlain(s.k, t, e, a);
    DequeuedBlocks(s, e, t);
    DequeuedBlocks(s, e, h);
    DeliverTcbsIs(DequeueTcbs(s.k.tcbs, s.k.eps[e].queue), t, h, a);
  }
}
