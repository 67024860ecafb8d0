/**
The rendezvous repaired: the partner is offered to the heap with `enqueue`, which accepts it,
instead of `wake`, which does not.  Everything else is as in the kernel.
*/
module IpcRepair {
  import opened Wrappers
  import opened Threads
  import opened Scheduler
  import opened Ipc
  import opened Joint
  import opened JointSteps
  import opened JointCancel
  import opened JointBadged
  import opened JointRuns
  import opened IpcWake

  /** The first thread on the queue of `e`. */
  function HeadOf(k: Kernel, e: Eid): (h: Option<Tid>) { EpOf(k, e).queue.head }

  /** The kernel wakes its partner: after every send that meets a receiver, and every plain one that is received. */
  predicate Wakes(s: Sys, op: Op) {
    || (op.OpSend? && EpOf(s.k, op.e).state == EpRecv && HeadOf(s.k, op.e).Some?)
    || (op.OpReceive? && EpOf(s.k, op.e).state == EpSend && HeadOf(s.k, op.e).Some?
        && !Block(s, HeadOf(s.k, op.e).value).ipc.isCall)
  }

  /** The kernel right after the meeting. */
  function Met(s: Sys, op: Op): (k: Kernel)
    requires Callable(s, op) && Wakes(s, op)
  {
    if op.OpSend? then Deliver(s.k, Runner(s), op.e, op.args) else Collect(s.k, Runner(s), op.e)
  }

  function MetQueues(s: Sys, op: Op): (q: map<Eid, seq<Tid>>)
    requires Callable(s, op) && Wakes(s, op)
  {
    if op.OpSend? then QueuesAfterSend(s, op.e, op.args) else QueuesAfterReceive(s, op.e, op.blocking)
  }

  ghost function RepairedStep(s: Sys, op: Op): (o: Outcome)
    requires Callable(s, op)
  {
    if Wakes(s, op) then AfterCall(Go(Enqueue(Met(s, op), HeadOf(s.k, op.e).value).0), MetQueues(s, op))
    else Step(s, op)
  }

  // ----- one step -----

  /** A meeting leaves its partner Inactive and placed nowhere, with everything else sound. */
  lemma MetIs(s: Sys, op: Op)
    requires Inv(s) && Callable(s, op) && Wakes(s, op)
    ensures s.q[op.e] != [] && HeadOf(s.k, op.e) == Some(s.q[op.e][0])
    ensures var h, r := s.q[op.e][0], Sys(Met(s, op), MetQueues(s, op));
            && Mid(r) && CanAct(r) && h in r.k.tcbs && h != Runner(s) && r.k.ready == s.k.ready
            && !Held(r.k, h) && r.k.current == s.k.current && Step(s, op) == AfterCall(Go(r.k), r.q)
  {
    if op.OpSend? { SendMeets(s, op.e, op.args); } else { ReceiveMeets(s, op.e, op.blocking); }
    var h := s.q[op.e][0];
    QueuedIsWaiting(s, op.e, h);
    DequeuedBlocks(s, op.e, h);
    if op.OpSend? { DeliverHolds(s, op.e, op.args, h); } else { CollectHolds(s, op.e, op.blocking, h); }
  }

  lemma RescuedKeeps(s: Sys, h: Tid)
    requires Mid(s) && CanAct(s) && h in s.k.tcbs && !Held(s.k, h) && s.k.current.value.tcb != h
    ensures var r := Sys(Enqueue(s.k, h).0, s.q); Mid(r) && CanAct(r)
  {
    EnqueueKeeps(s, h);
    SameStates(s, Sys(Enqueue(s.k, h).0, s.q));
  }

  /** The repair keeps the invariant, wherever the kernel's own step does. */
  lemma RepairedKeeps(s: Sys, op: Op)
    requires Inv(s) && Legal(s, op)
    ensures RepairedStep(s, op).Next? && Inv(RepairedStep(s, op).s)
  {
    if Wakes(s, op) {
      MetIs(s, op);
      var h, r := s.q[op.e][0], Sys(Met(s, op), MetQueues(s, op));
      RescuedKeeps(r, h);
      ReschedKeeps(Sys(Enqueue(r.k, h).0, r.q));
    } else {
      StepKeeps(s, op);
    }
  }

  /** Whom the repaired step still leaves stranded: a partner only for want of room. */
  ghost predicate StillStrands(s: Sys, op: Op, t: Tid)
    requires Callable(s, op)
  {
    Strands(s, op, t) && !(Wakes(s, op) && HeadOf(s.k, op.e) == Some(t) && |s.k.ready| < CAPACITY)
  }

  lemma RepairedHolds(s: Sys, op: Op, t: Tid)
    requires Inv(s) && Legal(s, op) && t in s.k.tcbs
    ensures RepairedStep(s, op).Next?
    ensures Held(RepairedStep(s, op).s.k, t) <==>
              (Held(s.k, t) && !StillStrands(s, op, t)) || (op == OpEnqueue(t) && |s.k.ready| < CAPACITY)
  {
    RepairedKeeps(s, op);
    StepHolds(s, op, t);
    if Wakes(s, op) {
      MetIs(s, op);
      var h, k := s.q[op.e][0], Met(s, op);
      QueuedIsWaiting(s, op.e, h);
      ReschedHolds(k, t);
      EnqueueHolds(k, h, t);
      ReschedHolds(Enqueue(k, h).0, t);
    }
  }

  lemma RepairedThreadsStay(s: Sys, op: Op, t: Tid)
    requires Inv(s) && Legal(s, op) && t in s.k.tcbs
    ensures RepairedStep(s, op).Next? && t in RepairedStep(s, op).s.k.tcbs
  {
    RepairedKeeps(s, op);
    if Wakes(s, op) {
      MetIs(s, op);
      if op.OpSend? { SendMeets(s, op.e, op.args); } else { ReceiveMeets(s, op.e, op.blocking); }
      DequeuedBlocks(s, op.e, t);
      ScheduleStays(Enqueue(Met(s, op), s.q[op.e][0]).0, t);
    } else {
      ThreadsStay(s, op, t);
    }
  }

  /** Exactly who is stranded after a repaired step. */
  lemma RepairedStrandedWhen(s: Sys, op: Op, t: Tid)
    requires Inv(s) && Legal(s, op) && t in s.k.tcbs
    ensures RepairedStep(s, op).Next? && t in RepairedStep(s, op).s.k.tcbs
    ensures Stranded(RepairedStep(s, op).s.k, t) <==>
              (Stranded(s.k, t) || StillStrands(s, op, t)) && !(op == OpEnqueue(t) && |s.k.ready| < CAPACITY)
  {
    RepairedKeeps(s, op);
    RepairedHolds(s, op, t);
    RepairedThreadsStay(s, op, t);
    StrandedIsNotHeld(s, t);
    StrandedIsNotHeld(RepairedStep(s, op).s, t);
  }

  // ----- the partner -----

  /** Whoever is ready before scheduling is ready or running after it. */
  lemma ReadyStaysOrRuns(k: Kernel, t: Tid)
    requires Readied(k.ready, t)
    ensures Resched(k).Go? ==>
              Readied(Resched(k).k.ready, t)
              || (Resched(k).k.current.Some? && Resched(k).k.current.value.tcb == t)
  {
    if |k.ready| > 0 {
      var x := Least(k.ready);
      assert forall y :: y in k.ready && y != x ==> y in k.ready - multiset{x};
    }
  }

  /** After the repair, with room in the heap, the partner is ready or running. */
  lemma PartnerIsPlaced(s: Sys, op: Op)
    requires Inv(s) && Legal(s, op) && Wakes(s, op) && |s.k.ready| < CAPACITY
    ensures s.q[op.e] != [] && RepairedStep(s, op).Next?
    ensures var r, h := RepairedStep(s, op).s, s.q[op.e][0]; Readied(r.k.ready, h) || OnProcessor(r, h)
  {
    RepairedKeeps(s, op);
    MetIs(s, op);
    var h, k := s.q[op.e][0], Met(s, op);
    assert Get(k.tcbs, h).state == Inactive && !Readied(k.ready, h);
    EnqueueEnters(k, h);
    ReadyStaysOrRuns(Enqueue(k, h).0, h);
  }

  // ----- runs -----

  ghost predicate RepairedLegalRun(s: Sys, ops: seq<Op>)
    decreases |ops|
  {
    ops != [] ==>
      Legal(s, ops[0]) && (RepairedStep(s, ops[0]).Next? ==> RepairedLegalRun(RepairedStep(s, ops[0]).s, ops[1..]))
  }

  ghost function RepairedRun(s: Sys, ops: seq<Op>): (o: Outcome)
    requires RepairedLegalRun(s, ops)
    decreases |ops|
  {
    if ops == [] then Next(s)
    else if RepairedStep(s, ops[0]).Stop? then Stop
    else RepairedRun(RepairedStep(s, ops[0]).s, ops[1..])
  }

  /** No operation of the run strands `t`. */
  ghost predicate NeverStrands(s: Sys, ops: seq<Op>, t: Tid)
    requires RepairedLegalRun(s, ops)
    decreases |ops|
  {
    ops != [] ==>
      && !StillStrands(s, ops[0], t)
      && (RepairedStep(s, ops[0]).Next? ==> NeverStrands(RepairedStep(s, ops[0]).s, ops[1..], t))
  }

  /**
  In every repaired run the kernel goes on and stays sound, and a thread is lost only by being
  cancelled, by calling where no reply is allowed, or by a full heap.
  */
  lemma {:induction false} RepairedRunsLoseNobody(s: Sys, ops: seq<Op>, t: Tid)
    requires Inv(s) && RepairedLegalRun(s, ops) && t in s.k.tcbs
    ensures RepairedRun(s, ops).Next? && Inv(RepairedRun(s, ops).s)
    ensures !Stranded(s.k, t) && NeverStrands(s, ops, t) ==> !Stranded(RepairedRun(s, ops).s.k, t)
    decreases |ops|
  {
    if ops != [] {
      RepairedKeeps(s, ops[0]);
      RepairedStrandedWhen(s, ops[0], t);
      RepairedRunsLoseNobody(RepairedStep(s, ops[0]).s, ops[1..], t);
    }
  }

  /** In words: what is left of the ways to lose a thread. */
  lemma StillStrandsOnly(s: Sys, op: Op, t: Tid)
    requires Inv(s) && Callable(s, op) && StillStrands(s, op, t)
    ensures || op == OpCancel(t)
            || (op.OpSend? && t == Runner(s) && op.args.call && !ExpectsReply(Details(op.args)))
            || (op.OpReceive? && Block(s, t).ipc.isCall && !ExpectsReply(Block(s, t).ipc))
            || |s.k.ready| >= CAPACITY
            || (op.OpCancelAll? && |s.k.ready| + |s.q[op.e]| > CAPACITY)
            || (op.OpCancelBadged? && |s.k.ready| + |Hits(s.k.tcbs, s.q[op.e], op.badge)| > CAPACITY)
  {
    if op.OpSend? && s.k.eps[op.e].state == EpRecv { SendMeets(s, op.e, op.args); }
    if op.OpReceive? && s.k.eps[op.e].state == EpSend { ReceiveMeets(s, op.e, op.blocking); }
  }
}
