/**
Earliest deadline first over whole runs: what every operation carries along, exactly when the
running thread is the earliest after an operation, and when the idle thread runs.
*/
module Edf {
  import opened Sequences
  import opened Wrappers
  import opened Threads
  import opened Scheduler
  import opened Ipc
  import opened Joint
  import opened JointSteps
  import opened JointCancel
  import opened JointBadged
  import opened JointRuns

  // ----- deadlines and register counts -----

  /** Deadlines stay, and so does the size of every trap frame. */
  predicate SameFrame(a: Tcb, b: Tcb) { a.deadline == b.deadline && |a.regs| == |b.regs| }

  ghost predicate Framed(m: Tcbs, n: Tcbs) { forall u {:trigger Get(n, u)} :: SameFrame(Get(m, u), Get(n, u)) }

  ghost predicate FullFrames(m: Tcbs) { forall u {:trigger Get(m, u)} :: |Get(m, u).regs| == REGISTERS }

  lemma FramedTrans(a: Tcbs, b: Tcbs, c: Tcbs)
    requires Framed(a, b) && Framed(b, c)
    ensures Framed(a, c)
  {
    forall u ensures SameFrame(Get(a, u), Get(c, u)) { assert SameFrame(Get(a, u), Get(b, u)); }
  }

  lemma LinksFramed(m: Tcbs, qu: Queue, t: Tid)
    ensures Framed(m, AppendTcbs(m, qu, t)) && Framed(m, DequeueTcbs(m, qu)) && Framed(m, RemoveTcbs(m, t))
  {
    AppendFramed(m, qu, t);
    DequeueFramed(m, qu);
    RemoveFramed(m, t);
  }

  lemma AppendFramed(m: Tcbs, qu: Queue, t: Tid)
    ensures Framed(m, AppendTcbs(m, qu, t))
  {}

  lemma DequeueFramed(m: Tcbs, qu: Queue)
    ensures Framed(m, DequeueTcbs(m, qu))
  {}

  lemma RemoveFramed(m: Tcbs, t: Tid)
    ensures Framed(m, RemoveTcbs(m, t))
  {}

  lemma {:induction false} CopyKeepsSize(to: seq<nat>, from: seq<nat>, i: nat)
    requires i <= 4
    ensures |CopyRegs(to, from, i)| == |to|
    decreases 4 - i
  {
    if i < 4 { CopyKeepsSize(SetReg(to, i, GetReg(from, i)), from, i + 1); }
  }

  lemma TransferFramed(m: Tcbs, sender: Tid, receiver: Tid, badge: nat)
    ensures Framed(m, Transfer(m, sender, receiver, badge))
  {
    var regs := SetReg(Get(m, receiver).regs, 0, badge);
    CopyKeepsSize(regs, if sender == receiver then regs else Get(m, sender).regs, 0);
  }

  lemma DeliverTcbsFramed(m: Tcbs, sender: Tid, receiver: Tid, a: SendArgs)
    ensures Framed(m, DeliverTcbs(m, sender, receiver, a))
  {
    TransferFramed(m, sender, receiver, a.badge);
    var m2 := Transfer(m, sender, receiver, a.badge);
    assert Framed(m2, DeliverTcbs(m, sender, receiver, a));
    FramedTrans(m, m2, DeliverTcbs(m, sender, receiver, a));
  }

  lemma CollectTcbsFramed(m: Tcbs, sender: Tid, receiver: Tid)
    ensures Framed(m, CollectTcbs(m, sender, receiver))
  {
    var m2 := Transfer(m, sender, receiver, Get(m, sender).ipc.badge);
    TransferFramed(m, sender, receiver, Get(m, sender).ipc.badge);
    assert Framed(m2, CollectTcbs(m, sender, receiver));
    FramedTrans(m, m2, CollectTcbs(m, sender, receiver));
  }

  // ----- operations that do not schedule -----

  /** The entry carries its thread's own deadline. */
  predicate OnTime(m: Tcbs, x: Entry) { x.deadline == DeadlineOf(m, x.tcb) }

  /** Blocks change but for deadlines and frame sizes, and entries join the heap with their thread's deadline. */
  ghost predicate Admits(k: Kernel, r: Kernel) {
    && Framed(k.tcbs, r.tcbs) && r.current == k.current && r.idle == k.idle && k.ready <= r.ready
    && forall x :: x in r.ready ==> x in k.ready || OnTime(k.tcbs, x)
  }

  lemma AdmitsTrans(a: Kernel, b: Kernel, c: Kernel)
    requires Admits(a, b) && Admits(b, c)
    ensures Admits(a, c)
  {
    FramedTrans(a.tcbs, b.tcbs, c.tcbs);
    forall x | x in c.ready ensures x in a.ready || OnTime(a.tcbs, x) {
      assert SameFrame(Get(a.tcbs, x.tcb), Get(b.tcbs, x.tcb));
    }
  }

  lemma EnqueueAdmits(k: Kernel, t: Tid)
    ensures Admits(k, Enqueue(k, t).0)
  {}

  lemma WakeAdmits(k: Kernel, t: Tid)
    ensures Admits(k, Wake(k, t).0)
  {
    if IsBlocked(Get(k.tcbs, t).state) {
      var d := k.(tcbs := SetState(k.tcbs, t, Inactive));
      assert Admits(k, d);
      EnqueueAdmits(d, t);
      AdmitsTrans(k, d, Enqueue(d, t).0);
    }
  }

  lemma BlockOnAdmits(k: Kernel, t: Tid, e: Eid, st: ThreadState, kind: EndpointState)
    ensures Admits(k, BlockOn(k, t, e, st, kind))
  {
    var m := k.tcbs[t := Get(k.tcbs, t).(state := st, blockingObject := Some(e))];
    LinksFramed(m, EpOf(k, e).queue, t);
    assert Framed(k.tcbs, m);
    FramedTrans(k.tcbs, m, AppendTcbs(m, EpOf(k, e).queue, t));
  }

  lemma DeliverAdmits(k: Kernel, sender: Tid, e: Eid, a: SendArgs)
    requires EpOf(k, e).queue.head.Some?
    ensures Admits(k, Deliver(k, sender, e, a)) && Deliver(k, sender, e, a).ready == k.ready
  {
    var qu := EpOf(k, e).queue;
    var m := DequeueTcbs(k.tcbs, qu);
    DeliverIsPlain(k, sender, e, a);
    LinksFramed(k.tcbs, qu, sender);
    DeliverTcbsFramed(m, sender, qu.head.value, a);
    FramedTrans(k.tcbs, m, DeliverTcbs(m, sender, qu.head.value, a));
  }

  lemma CollectAdmits(k: Kernel, receiver: Tid, e: Eid)
    requires EpOf(k, e).queue.head.Some?
    ensures Admits(k, Collect(k, receiver, e)) && Collect(k, receiver, e).ready == k.ready
  {
    var qu := EpOf(k, e).queue;
    var m := DequeueTcbs(k.tcbs, qu);
    CollectIsPlain(k, receiver, e);
    LinksFramed(k.tcbs, qu, receiver);
    CollectTcbsFramed(m, qu.head.value, receiver);
    FramedTrans(k.tcbs, m, CollectTcbs(m, qu.head.value, receiver));
  }

  lemma SendAdmits(k: Kernel, sender: Tid, e: Eid, a: SendArgs)
    ensures var f := SendIpc(k, sender, e, a); f.Go? ==> Admits(k, f.k) && f.k.ready == k.ready
  {
    if EpOf(k, e).state != EpRecv {
      if a.blocking {
        var d := k.(tcbs := k.tcbs[sender := Get(k.tcbs, sender).(ipc := Details(a))]);
        assert Admits(k, d);
        BlockOnAdmits(d, sender, e, BlockedOnSend, EpSend);
        AdmitsTrans(k, d, BlockOn(d, sender, e, BlockedOnSend, EpSend));
      }
    } else if EpOf(k, e).queue.head.Some? {
      DeliverAdmits(k, sender, e, a);
    }
  }

  lemma ReceiveAdmits(k: Kernel, receiver: Tid, e: Eid, b: bool)
    ensures var f := ReceiveIpc(k, receiver, e, b); f.Go? ==> Admits(k, f.k) && f.k.ready == k.ready
  {
    if EpOf(k, e).state != EpSend {
      BlockOnAdmits(k, receiver, e, BlockedOnReceive, EpRecv);
    } else if EpOf(k, e).queue.head.Some? {
      CollectAdmits(k, receiver, e);
    }
  }

  lemma CancelAdmits(k: Kernel, t: Tid)
    ensures Admits(k, CancelIpc(k, t)) && CancelIpc(k, t).ready == k.ready
  {
    if IsQueuedState(Get(k.tcbs, t).state) { CancelQueuedAdmits(k, t); }
  }

  lemma CancelQueuedAdmits(k: Kernel, t: Tid)
    ensures Admits(k, CancelQueued(k, t)) && CancelQueued(k, t).ready == k.ready
  {
    LinksFramed(k.tcbs, EMPTY_QUEUE, t);
    var m := if Get(k.tcbs, t).blockingObject.Some? then RemoveTcbs(k.tcbs, t) else k.tcbs;
    var n := m[t := Get(m, t).(state := Inactive, blockingObject := None)];
    assert Framed(m, n) && CancelQueued(k, t).tcbs == n;
    FramedTrans(k.tcbs, m, n);
  }

  lemma RestartedAdmits(k: Kernel, t: Tid)
    ensures Admits(k, Restarted(k, t))
  {
    var d := k.(tcbs := k.tcbs[t := Get(k.tcbs, t).(state := Inactive, blockingObject := None)]);
    assert Admits(k, d);
    EnqueueAdmits(d, t);
    AdmitsTrans(k, d, Restarted(k, t));
  }

  lemma {:induction false} DrainAdmits(k: Kernel, e: Eid, n: nat)
    ensures Admits(k, Drain(k, e, n))
    decreases n
  {
    if n > 0 {
      RestartHeadAdmits(k, e);
      DrainAdmits(RestartHead(k, e), e, n - 1);
      AdmitsTrans(k, RestartHead(k, e), Drain(k, e, n));
    }
  }

  lemma RestartHeadAdmits(k: Kernel, e: Eid)
    ensures Admits(k, RestartHead(k, e))
  {
    var qu := EpOf(k, e).queue;
    if qu.head.Some? {
      var d := k.(tcbs := DequeueTcbs(k.tcbs, qu),
                  eps := k.eps[e := Endpoint(EpOf(k, e).state, DequeueQueue(k.tcbs, qu))]);
      LinksFramed(k.tcbs, qu, qu.head.value);
      assert Admits(k, d);
      RestartedAdmits(d, qu.head.value);
      AdmitsTrans(k, d, RestartHead(k, e));
    }
  }

  lemma CancelAllAdmits(k: Kernel, e: Eid, n: nat)
    ensures Admits(k, CancelAllIpc(k, e, n))
  {
    DrainAdmits(k, e, n);
  }

  lemma SweepOneAdmits(w: Sweep, t: Tid, badge: nat)
    ensures Admits(w.k, SweepOne(w, t, badge).k)
  {
    LinksFramed(w.k.tcbs, w.queue, t);
    var d := w.k.(tcbs := w.k.tcbs[t := Get(w.k.tcbs, t).(epNext := None, epPrev := None)]);
    assert Admits(w.k, d);
    RestartedAdmits(d, t);
    AdmitsTrans(w.k, d, Restarted(d, t));
  }

  lemma {:induction false} SweepAllAdmits(w: Sweep, ts: seq<Tid>, badge: nat)
    ensures Admits(w.k, SweepAll(w, ts, badge).k)
    decreases |ts|
  {
    if ts != [] {
      var n := |ts| - 1;
      var v := SweepAll(w, ts[..n], badge);
      SweepAllAdmits(w, ts[..n], badge);
      SweepOneAdmits(v, ts[n], badge);
      AdmitsTrans(w.k, v.k, SweepAll(w, ts, badge).k);
    }
  }

  lemma CancelBadgedAdmits(k: Kernel, e: Eid, ts: seq<Tid>, badge: nat)
    ensures Admits(k, CancelBadgedSends(k, e, ts, badge))
  {
    SweepAllAdmits(Sweep(k, EMPTY_QUEUE), ts, badge);
  }

  // ----- every operation -----

  /** Every entry, ready or running, has its thread's deadline, and the idle thread's is the last. */
  ghost predicate Timed(k: Kernel) {
    && (forall x :: x in k.ready ==> OnTime(k.tcbs, x))
    && (k.current.Some? ==> OnTime(k.tcbs, k.current.value))
    && (k.idle.Some? ==> DeadlineOf(k.tcbs, k.idle.value) == MAX_DEADLINE)
  }

  /** What an operation carries along, whatever it does. */
  ghost predicate Carries(k: Kernel, r: Kernel) {
    && r.idle == k.idle && (forall u {:trigger Get(r.tcbs, u)} :: Get(r.tcbs, u).deadline == Get(k.tcbs, u).deadline)
    && (FullFrames(k.tcbs) ==> FullFrames(r.tcbs)) && (Timed(k) ==> Timed(r))
  }

  lemma CarriesTrans(a: Kernel, b: Kernel, c: Kernel)
    requires Carries(a, b) && Carries(b, c)
    ensures Carries(a, c)
  {
    forall u ensures Get(c.tcbs, u).deadline == Get(a.tcbs, u).deadline {
      assert Get(b.tcbs, u).deadline == Get(a.tcbs, u).deadline;
    }
  }

  lemma FramedIsFull(m: Tcbs, n: Tcbs)
    requires Framed(m, n)
    ensures FullFrames(m) ==> FullFrames(n)
    ensures forall x: Entry :: OnTime(n, x) <==> OnTime(m, x)
  {
    forall u ensures SameFrame(Get(m, u), Get(n, u)) && (FullFrames(m) ==> |Get(n, u).regs| == REGISTERS) {
      assert |Get(m, u).regs| == |Get(n, u).regs|;
    }
    forall x: Entry ensures OnTime(n, x) <==> OnTime(m, x) { assert SameFrame(Get(m, x.tcb), Get(n, x.tcb)); }
  }

  lemma AdmitsCarries(k: Kernel, r: Kernel)
    requires Admits(k, r)
    ensures Carries(k, r)
  {
    FramedIsFull(k.tcbs, r.tcbs);
    if k.idle.Some? { assert SameFrame(Get(k.tcbs, k.idle.value), Get(r.tcbs, k.idle.value)); }
  }

  lemma SwitchCarries(k: Kernel, next: Entry)
    requires Timed(k) ==> OnTime(k.tcbs, next)
    ensures ContextSwitch(k, next).Go? ==> Carries(k, ContextSwitch(k, next).k)
  {
    if ContextSwitch(k, next).Go? {
      var r := ContextSwitch(k, next).k;
      assert Framed(k.tcbs, r.tcbs);
      FramedIsFull(k.tcbs, r.tcbs);
      assert forall x :: x in r.ready ==> x in k.ready || k.current == Some(x);
      if k.idle.Some? { assert SameFrame(Get(k.tcbs, k.idle.value), Get(r.tcbs, k.idle.value)); }
    }
  }

  /** Taking entries out of the heap, or giving up the processor. */
  lemma LessCarries(k: Kernel, r: Kernel)
    requires r == k.(ready := r.ready, current := r.current) && r.ready <= k.ready
    requires r.current == k.current || r.current.None?
    ensures Carries(k, r)
  {}

  lemma LeastCarries(k: Kernel)
    requires |k.ready| > 0
    ensures var x := Least(k.ready);
            var f := ContextSwitch(k.(ready := k.ready - multiset{x}), x);
            f.Go? ==> Carries(k, f.k)
  {
    var x := Least(k.ready);
    var d := k.(ready := k.ready - multiset{x});
    LessCarries(k, d);
    if Timed(d) && !Timed(k) {
      // Only the entry that is gone can have been late, and then nothing is asked.
      LateSwitch(k, d, x);
    } else {
      SwitchCarries(d, x);
      if ContextSwitch(d, x).Go? { CarriesTrans(k, d, ContextSwitch(d, x).k); }
    }
  }

  lemma LateSwitch(k: Kernel, d: Kernel, x: Entry)
    requires !Timed(k) && d.tcbs == k.tcbs && d.idle == k.idle
    ensures ContextSwitch(d, x).Go? ==> Carries(k, ContextSwitch(d, x).k)
  {
    if ContextSwitch(d, x).Go? {
      var r := ContextSwitch(d, x).k;
      assert Framed(k.tcbs, r.tcbs);
      FramedIsFull(k.tcbs, r.tcbs);
    }
  }

  lemma ScheduleCarries(k: Kernel)
    ensures Schedule(k).Go? ==> Carries(k, Schedule(k).k)
    ensures Resched(k).Go? ==> Carries(k, Resched(k).k)
  {
    if |k.ready| > 0 {
      LeastCarries(k);
    } else if k.idle.Some? {
      SwitchCarries(k, Entry(MAX_DEADLINE, k.idle.value));
    }
  }

  lemma PreemptCarries(k: Kernel)
    ensures Preempt(k).Go? ==> Carries(k, Preempt(k).k)
  {
    if |k.ready| > 0 { LeastCarries(k); }
  }

  lemma YieldCarries(k: Kernel)
    ensures YieldCurrent(k).Go? ==> Carries(k, YieldCurrent(k).k)
  {
    if k.current.None? {
      ScheduleCarries(k);
    } else if |k.ready| < CAPACITY {
      var cur := k.current.value;
      var d := k.(tcbs := SetState(k.tcbs, cur.tcb, Inactive), ready := k.ready + multiset{cur}, current := None);
      PushedCarries(k, d);
      ScheduleCarries(d);
      if Schedule(d).Go? { CarriesTrans(k, d, Schedule(d).k); }
    }
  }

  lemma PushedCarries(k: Kernel, d: Kernel)
    requires k.current.Some? && d.idle == k.idle && d.current.None?
    requires exists st :: d.tcbs == SetState(k.tcbs, k.current.value.tcb, st)
    requires forall x :: x in d.ready ==> x in k.ready || x == k.current.value
    ensures Carries(k, d)
  {
    assert Framed(k.tcbs, d.tcbs);
    FramedIsFull(k.tcbs, d.tcbs);
    if k.idle.Some? { assert SameFrame(Get(k.tcbs, k.idle.value), Get(d.tcbs, k.idle.value)); }
  }

  lemma BlockCarries(k: Kernel, st: ThreadState)
    ensures BlockCurrent(k, st).Go? ==> Carries(k, BlockCurrent(k, st).k)
  {
    if k.current.None? {
      ScheduleCarries(k);
    } else if IsBlocked(st) {
      var d := k.(tcbs := SetState(k.tcbs, k.current.value.tcb, st), current := None);
      PushedCarries(k, d);
      ScheduleCarries(d);
      if Schedule(d).Go? { CarriesTrans(k, d, Schedule(d).k); }
    }
  }

  lemma CallCarries(k: Kernel, f: Flow, q: map<Eid, seq<Tid>>)
    requires f.Go? ==> Admits(k, f.k)
    ensures AfterCall(f, q).Next? ==> Carries(k, AfterCall(f, q).s.k)
  {
    if AfterCall(f, q).Next? {
      AdmitsCarries(k, f.k);
      ScheduleCarries(f.k);
      CarriesTrans(k, f.k, Resched(f.k).k);
    }
  }

  lemma ComputeCarries(s: Sys, regs: seq<nat>)
    requires CanAct(s) && |regs| == REGISTERS
    ensures Carries(s.k, Computed(s, regs).k)
  {
    var r := Computed(s, regs);
    forall u ensures FullFrames(s.k.tcbs) ==> |Block(r, u).regs| == REGISTERS {
      assert SameFrame(Block(s, u), Block(s, u));
    }
  }

  /** Deadlines never change, trap frames keep their size, and entries keep their thread's deadline. */
  lemma StepCarries(s: Sys, op: Op)
    requires Callable(s, op) && Step(s, op).Next?
    ensures Carries(s.k, Step(s, op).s.k)
  {
    match op
    case OpSend(e, a) =>
      SendAdmits(s.k, Runner(s), e, a);
      CallCarries(s.k, SendIpc(s.k, Runner(s), e, a), QueuesAfterSend(s, e, a));
    case OpReceive(e, b) =>
      ReceiveAdmits(s.k, Runner(s), e, b);
      CallCarries(s.k, ReceiveIpc(s.k, Runner(s), e, b), QueuesAfterReceive(s, e, b));
    case OpCancel(t) => CancelAdmits(s.k, t); AdmitsCarries(s.k, CancelIpc(s.k, t));
    case OpCancelAll(e) => CancelAllAdmits(s.k, e, |s.q[e]|); AdmitsCarries(s.k, CancelledAll(s, e).k);
    case OpCancelBadged(e, badge) =>
      CancelBadgedAdmits(s.k, e, s.q[e], badge);
      AdmitsCarries(s.k, CancelledBadged(s, e, badge).k);
    case OpEnqueue(t) => EnqueueAdmits(s.k, t); AdmitsCarries(s.k, Enqueue(s.k, t).0);
    case OpWake(t) => WakeAdmits(s.k, t); AdmitsCarries(s.k, Wake(s.k, t).0);
    case OpPreempt => PreemptCarries(s.k);
    case OpYield => YieldCarries(s.k);
    case OpBlock => BlockCarries(s.k, BlockedOnNotification);
    case OpSchedule => ScheduleCarries(s.k);
    case OpCompute(regs) => ComputeCarries(s, regs);
  }

  lemma {:induction false} RunCarries(s: Sys, ops: seq<Op>)
    requires LegalRun(s, ops) && Run(s, ops).Next?
    ensures Carries(s.k, Run(s, ops).s.k)
    decreases |ops|
  {
    if ops == [] {
      LessCarries(s.k, s.k);
    } else {
      StepCarries(s, ops[0]);
      RunCarries(Step(s, ops[0]).s, ops[1..]);
      CarriesTrans(s.k, Step(s, ops[0]).s.k, Run(s, ops).s.k);
    }
  }

  // ----- exactly when the earliest thread runs -----

  /** The running entry, if any, is not later than `d`. */
  predicate NotAfter(k: Kernel, d: nat) { k.current.Some? ==> k.current.value.deadline <= d }

  /** Of the threads of `ts`, those the heap has room for are not earlier than the running one. */
  ghost predicate NoneEarlier(k: Kernel, ts: seq<Tid>) {
    forall i :: 0 <= i < |ts| && |k.ready| + i < CAPACITY ==> NotAfter(k, DeadlineOf(k.tcbs, ts[i]))
  }

  /** The call leaves its own thread not Running. */
  predicate CallStops(s: Sys, op: Op)
    requires Callable(s, op)
  {
    match op
    case OpSend(e, a) => if s.k.eps[e].state == EpRecv then a.call else a.blocking
    case OpReceive(e, b) => s.k.eps[e].state != EpSend && b
    case _ => false
  }

  /** What must hold before an operation for the running thread to be the earliest after it. */
  ghost predicate EarliestAfter(s: Sys, op: Op)
    requires Callable(s, op)
  {
    match op
    case OpSend(e, a) => CallStops(s, op) || EarliestFirst(s.k)
    case OpReceive(e, b) => CallStops(s, op) || EarliestFirst(s.k)
    case OpCancelAll(e) => EarliestFirst(s.k) && NoneEarlier(s.k, s.q[e])
    case OpCancelBadged(e, badge) =>
      EarliestFirst(s.k) && (s.k.eps[e].state == EpSend ==> NoneEarlier(s.k, Hits(s.k.tcbs, s.q[e], badge)))
    case OpEnqueue(t) => EarliestFirst(s.k) && (Enqueue(s.k, t).1.Ok? ==> NotAfter(s.k, DeadlineOf(s.k.tcbs, t)))
    case OpWake(t) => EarliestFirst(s.k) && (Wake(s.k, t).1.Ok? ==> NotAfter(s.k, DeadlineOf(s.k.tcbs, t)))
    case OpPreempt => true
    case OpYield => true
    case OpBlock => true
    case OpSchedule => (|s.k.ready| > 0 || s.k.idle.Some?) ==> NotBefore(s.k)
    case _ => EarliestFirst(s.k)
  }

  /** The running thread is not earlier than the next. */
  ghost predicate NotBefore(k: Kernel)
    requires |k.ready| > 0 || k.idle.Some?
  {
    k.current.Some? ==> NextEntry(k).deadline <= k.current.value.deadline
  }

  /** Threads offered to the heap in order, seen from the running one. */
  lemma OfferedEarliest(k: Kernel, r: Kernel, ts: seq<Tid>)
    requires Admits(k, r) && InOrder(k.ready, r.ready, ts)
    requires forall t :: t in ts ==> !Readied(k.ready, t)
    requires forall x :: x in r.ready ==> x in k.ready || x.tcb in ts
    ensures EarliestFirst(r) <==> EarliestFirst(k) && NoneEarlier(k, ts)
  {
    if EarliestFirst(r) {
      forall i | 0 <= i < |ts| && |k.ready| + i < CAPACITY ensures NotAfter(k, DeadlineOf(k.tcbs, ts[i])) {
        assert Readied(r.ready, ts[i]);
        var x :| x in r.ready && x.tcb == ts[i];
        assert ts[i] in ts;
        assert x !in k.ready;
      }
      assert forall x :: x in k.ready ==> x in r.ready;
    }
    if EarliestFirst(k) && NoneEarlier(k, ts) {
      forall x | x in r.ready && x !in k.ready ensures NotAfter(k, x.deadline) {
        var i :| 0 <= i < |ts| && ts[i] == x.tcb;
        assert Readied(r.ready, ts[i]);
      }
    }
  }

  lemma CancelAllEarliest(s: Sys, e: Eid)
    requires Inv(s) && Callable(s, OpCancelAll(e))
    ensures EarliestFirst(CancelledAll(s, e).k) <==> EarliestAfter(s, OpCancelAll(e))
  {
    CancelAllKeeps(s, e);
    CancelAllAdmits(s.k, e, |s.q[e]|);
    WaitersNotReady(s, e);
    OfferedEarliest(s.k, CancelledAll(s, e).k, s.q[e]);
  }

  lemma WaitersNotReady(s: Sys, e: Eid)
    requires Core(s) && e in s.k.eps && e in s.q
    ensures forall t :: t in s.q[e] ==> !Readied(s.k.ready, t)
  {
    forall t | t in s.q[e] ensures !Readied(s.k.ready, t) {
      QueuedIsWaiting(s, e, t);
      forall x | x in s.k.ready ensures x.tcb != t { assert ReadyOk(s, x); }
    }
  }

  lemma CancelBadgedEarliest(s: Sys, e: Eid, badge: nat)
    requires Inv(s) && Callable(s, OpCancelBadged(e, badge))
    ensures EarliestFirst(CancelledBadged(s, e, badge).k) <==> EarliestAfter(s, OpCancelBadged(e, badge))
  {
    CancelBadgedKeeps(s, e, badge);
    if s.k.eps[e].state == EpSend {
      var r, ts := CancelledBadged(s, e, badge), Hits(s.k.tcbs, s.q[e], badge);
      CancelBadgedAdmits(s.k, e, s.q[e], badge);
      WaitersNotReady(s, e);
      forall t ensures t in ts <==> t in s.q[e] && Hit(s.k.tcbs, t, badge) { HitsMembers(s.k.tcbs, s.q[e], badge, t); }
      forall x | x in r.k.ready ensures x in s.k.ready || x.tcb in ts { OnlyHitsJoin(s, r, e, badge, x); }
      OfferedEarliest(s.k, r.k, ts);
    }
  }

  lemma OnlyHitsJoin(s: Sys, r: Sys, e: Eid, badge: nat, x: Entry)
    requires Inv(s) && Inv(r) && Sifted(s, r, e, badge) && x in r.k.ready
    ensures x in s.k.ready || x.tcb in Hits(s.k.tcbs, s.q[e], badge)
  {
    assert ReadyOk(r, x);
    HitsMembers(s.k.tcbs, s.q[e], badge, x.tcb);
    if x !in s.k.ready {
      QueuedIsWaiting(s, e, x.tcb);
      SiftedThread(s, r, e, badge, x.tcb);
    }
  }

  lemma EnqueueEarliest(k: Kernel, t: Tid)
    ensures EarliestFirst(Enqueue(k, t).0) <==>
              EarliestFirst(k) && (Enqueue(k, t).1.Ok? ==> NotAfter(k, DeadlineOf(k.tcbs, t)))
  {
    if Enqueue(k, t).1.Ok? {
      var x := Entry(DeadlineOf(k.tcbs, t), t);
      assert Enqueue(k, t).0.ready == k.ready + multiset{x};
      assert x in k.ready + multiset{x};
    }
  }

  lemma WakeEarliest(k: Kernel, t: Tid)
    ensures EarliestFirst(Wake(k, t).0) <==>
              EarliestFirst(k) && (Wake(k, t).1.Ok? ==> NotAfter(k, DeadlineOf(k.tcbs, t)))
  {
    if IsBlocked(Get(k.tcbs, t).state) { EnqueueEarliest(k.(tcbs := SetState(k.tcbs, t, Inactive)), t); }
  }

  /** After a call: rescheduled if its thread stopped, and otherwise as before. */
  lemma CallEarliest(s: Sys, r: Sys, stops: bool)
    requires Mid(r) && CanAct(r) && r.k.ready == s.k.ready && r.k.current == s.k.current && r.k.idle == s.k.idle
    requires stops <==> Block(r, Runner(r)).state != Running
    ensures Resched(r.k).Go?
    ensures EarliestFirst(Resched(r.k).k) <==> stops || EarliestFirst(s.k)
    ensures stops ==> Resched(r.k).k.current == Some(NextEntry(s.k))
  {
    ReschedKeeps(r);
    ScheduleIsEdf(r.k);
  }

  /** The operation leaves its thread stopped exactly if it stops it, and then the next entry runs. */
  ghost predicate CallChooses(s: Sys, op: Op, o: Outcome)
    requires Callable(s, op)
  {
    && o.Next? && (EarliestFirst(o.s.k) <==> CallStops(s, op) || EarliestFirst(s.k))
    && (CallStops(s, op) ==> (|s.k.ready| > 0 || s.k.idle.Some?) && o.s.k.current == Some(NextEntry(s.k)))
  }

  lemma SendMeetsEarliest(s: Sys, e: Eid, a: SendArgs)
    requires Inv(s) && Callable(s, OpSend(e, a)) && s.k.eps[e].state == EpRecv
    ensures CallChooses(s, OpSend(e, a), Step(s, OpSend(e, a)))
  {
    SendMeets(s, e, a);
    DequeuedBlocks(s, e, Runner(s));
    CallEarliest(s, Popped(s, Deliver(s.k, Runner(s), e, a), e), a.call);
  }

  lemma SendBlocksEarliest(s: Sys, e: Eid, a: SendArgs)
    requires Inv(s) && Callable(s, OpSend(e, a)) && s.k.eps[e].state != EpRecv && a.blocking
    ensures CallChooses(s, OpSend(e, a), Step(s, OpSend(e, a)))
  {
    SendBlocks(s, e, a);
    SendStops(s, e, a);
    CallEarliest(s, Sys(SendIpc(s.k, Runner(s), e, a).k, QueuesAfterSend(s, e, a)), true);
  }

  lemma SendStops(s: Sys, e: Eid, a: SendArgs)
    requires Inv(s) && Callable(s, OpSend(e, a)) && s.k.eps[e].state != EpRecv
    ensures var k := BlockOn(Saved(s, a).k, Runner(s), e, BlockedOnSend, EpSend);
            && Get(k.tcbs, Runner(s)).state != Running
            && k.ready == s.k.ready && k.current == s.k.current && k.idle == s.k.idle
  {
    SavedKeeps(s, a);
    assert StateOk(s, e);
    BlockOnJoins(Saved(s, a), Runner(s), e, BlockedOnSend, EpSend);
  }

  /** A send runs the next entry if it stops its own thread, and otherwise changes nobody's turn. */
  lemma SendEarliest(s: Sys, e: Eid, a: SendArgs)
    requires Inv(s) && Callable(s, OpSend(e, a))
    ensures CallChooses(s, OpSend(e, a), Step(s, OpSend(e, a)))
  {
    if s.k.eps[e].state == EpRecv {
      SendMeetsEarliest(s, e, a);
    } else if a.blocking {
      SendBlocksEarliest(s, e, a);
    }
  }

  /** So does a receive. */
  lemma ReceiveEarliest(s: Sys, e: Eid, b: bool)
    requires Inv(s) && Callable(s, OpReceive(e, b))
    ensures CallChooses(s, OpReceive(e, b), Step(s, OpReceive(e, b)))
  {
    if s.k.eps[e].state == EpSend {
      ReceiveMeetsEarliest(s, e, b);
    } else if b {
      ReceiveBlocks(s, e);
      ReceiveStops(s, e);
      CallEarliest(s, Sys(ReceiveIpc(s.k, Runner(s), e, b).k, QueuesAfterReceive(s, e, b)), true);
    }
  }

  lemma ReceiveMeetsEarliest(s: Sys, e: Eid, b: bool)
    requires Inv(s) && Callable(s, OpReceive(e, b)) && s.k.eps[e].state == EpSend
    ensures CallChooses(s, OpReceive(e, b), Step(s, OpReceive(e, b)))
  {
    ReceiveMeets(s, e, b);
    DequeuedBlocks(s, e, Runner(s));
    CallEarliest(s, Popped(s, Collect(s.k, Runner(s), e), e), false);
  }

  lemma ReceiveStops(s: Sys, e: Eid)
    requires Inv(s) && Callable(s, OpReceive(e, true)) && s.k.eps[e].state != EpSend
    ensures var k := BlockOn(s.k, Runner(s), e, BlockedOnReceive, EpRecv);
            && Get(k.tcbs, Runner(s)).state != Running
            && k.ready == s.k.ready && k.current == s.k.current && k.idle == s.k.idle
  {
    assert StateOk(s, e);
    BlockOnJoins(s, Runner(s), e, BlockedOnReceive, EpRecv);
  }

  /** For every operation, exactly when the running thread is the earliest afterwards. */
  lemma EarliestFirstWhen(s: Sys, op: Op)
    requires Inv(s) && Legal(s, op)
    ensures Step(s, op).Next? && (EarliestFirst(Step(s, op).s.k) <==> EarliestAfter(s, op))
  {
    StepKeeps(s, op);
    match op
    case OpSend(e, a) => SendEarliest(s, e, a);
    case OpReceive(e, b) => ReceiveEarliest(s, e, b);
    case OpCancel(t) => CancelAdmits(s.k, t);
    case OpCancelAll(e) => CancelAllEarliest(s, e);
    case OpCancelBadged(e, badge) => CancelBadgedEarliest(s, e, badge);
    case OpEnqueue(t) => EnqueueEarliest(s.k, t);
    case OpWake(t) => WakeEarliest(s.k, t);
    case OpPreempt => PreemptIsEdf(s.k);
    case OpYield => YieldIsEdf(s.k);
    case OpBlock => BlockIsEdf(s.k, BlockedOnNotification);
    case OpSchedule => ScheduleIsEdf(s.k);
    case OpCompute(regs) =>
  }

  // ----- when the idle thread runs -----

  lemma BootIsTimed(s: Sys)
    requires Boot(s) && DeadlineOf(s.k.tcbs, s.k.idle.value) == MAX_DEADLINE
    ensures Timed(s.k)
  {}

  /** Every thread but the idle one has a deadline of its own, by `m`. */
  ghost predicate RealDeadlines(k: Kernel, m: Tcbs) {
    forall t :: t in k.tcbs && k.idle != Some(t) ==> DeadlineOf(m, t) < MAX_DEADLINE
  }

  /** In a sound state with the earliest thread running: idle runs only over entries as late as can be. */
  lemma IdleRunsLast(s: Sys)
    requires Inv(s) && Timed(s.k) && EarliestFirst(s.k) && IdleRuns(s.k)
    ensures forall x :: x in s.k.ready ==> x.deadline >= MAX_DEADLINE
    ensures RealDeadlines(s.k, s.k.tcbs) ==> |s.k.ready| == 0
  {
    forall x | x in s.k.ready
      ensures x.tcb in s.k.tcbs && s.k.idle != Some(x.tcb) && DeadlineOf(s.k.tcbs, x.tcb) >= MAX_DEADLINE
    {
      assert ReadyOk(s, x);
    }
    if |s.k.ready| > 0 {
      var x :| x in s.k.ready;
      assert DeadlineOf(s.k.tcbs, x.tcb) >= MAX_DEADLINE;
    }
  }

  /** The operations after which the scheduler has chosen. */
  predicate Chooses(op: Op) { op.OpPreempt? || op.OpYield? || op.OpBlock? }

  lemma ChosenIdle(s: Sys, op: Op)
    requires Inv(s) && Timed(s.k) && Legal(s, op) && Chooses(op)
    ensures Step(s, op).Next? && Carries(s.k, Step(s, op).s.k)
    ensures var r := Step(s, op).s;
            IdleRuns(r.k) ==>
              && (forall x :: x in r.k.ready ==> x.deadline >= MAX_DEADLINE)
              && (RealDeadlines(r.k, r.k.tcbs) ==> |r.k.ready| == 0)
  {
    StepKeeps(s, op);
    StepCarries(s, op);
    EarliestFirstWhen(s, op);
    if IdleRuns(Step(s, op).s.k) { IdleRunsLast(Step(s, op).s); }
  }

  lemma ReachedIsTimed(s: Sys, ops: seq<Op>)
    requires Boot(s) && DeadlineOf(s.k.tcbs, s.k.idle.value) == MAX_DEADLINE && LegalRun(s, ops)
    ensures Run(s, ops).Next? && Inv(Run(s, ops).s) && Timed(Run(s, ops).s.k) && Carries(s.k, Run(s, ops).s.k)
  {
    BootIsSound(s);
    BootIsTimed(s);
    RunsStaySound(s, ops);
    RunCarries(s, ops);
  }

  lemma SameDeadlines(k: Kernel, r: Kernel)
    requires Carries(k, r)
    ensures RealDeadlines(r, k.tcbs) <==> RealDeadlines(r, r.tcbs)
  {
    forall t ensures DeadlineOf(r.tcbs, t) == DeadlineOf(k.tcbs, t) {
      assert Get(r.tcbs, t).deadline == Get(k.tcbs, t).deadline;
    }
  }

  /**
  From boot, with an idle thread that has no deadline: whenever the timer, a yield or a block leaves
  the idle thread running, every ready entry is as late as can be; so nothing is ready if every other
  thread was given a real deadline.
  */
  lemma IdleOnlyAtTheEnd(s: Sys, ops: seq<Op>, op: Op)
    requires Boot(s) && DeadlineOf(s.k.tcbs, s.k.idle.value) == MAX_DEADLINE
    requires LegalRun(s, ops) && Run(s, ops).Next? && Legal(Run(s, ops).s, op) && Chooses(op)
    ensures Step(Run(s, ops).s, op).Next?
    ensures var r := Step(Run(s, ops).s, op).s;
            IdleRuns(r.k) ==>
              && (forall x :: x in r.k.ready ==> x.deadline >= MAX_DEADLINE)
              && (RealDeadlines(r.k, s.k.tcbs) ==> |r.k.ready| == 0)
  {
    var m := Run(s, ops).s;
    ReachedIsTimed(s, ops);
    ChosenIdle(m, op);
    CarriesTrans(s.k, m.k, Step(m, op).s.k);
    SameDeadlines(s.k, Step(m, op).s.k);
  }

  // ----- the deadlines threads were given -----

  /** `enqueue` enters an Inactive thread at its own deadline, or at the last one if it has none. */
  lemma EnqueueEntersAt(k: Kernel, t: Tid)
    ensures var (r, result) := Enqueue(k, t);
            var at := match Get(k.tcbs, t).deadline { case Some(d) => d case None => 0xFFFF_FFFF_FFFF_FFFF };
            && (result.Ok? <==> Get(k.tcbs, t).state == Inactive && |k.ready| < 64)
            && (result == Err(InvalidState) <==> Get(k.tcbs, t).state != Inactive)
            && (result == Err(QueueFull) <==> Get(k.tcbs, t).state == Inactive && |k.ready| >= 64)
            && r == if result.Ok? then k.(ready := k.ready + multiset{Entry(at, t)}) else k
  {}

  /** `wake` makes a blocked thread Inactive, and enters it likewise if there is room. */
  lemma WakeEntersAt(k: Kernel, t: Tid)
    ensures var (r, result) := Wake(k, t);
            var st := Get(k.tcbs, t).state;
            var blocked := st == BlockedOnReceive || st == BlockedOnSend || st == BlockedOnReply
                           || st == BlockedOnNotification;
            var at := match Get(k.tcbs, t).deadline { case Some(d) => d case None => 0xFFFF_FFFF_FFFF_FFFF };
            && (result.Ok? <==> blocked && |k.ready| < 64)
            && (result == Err(InvalidState) <==> !blocked)
            && (result == Err(QueueFull) <==> blocked && |k.ready| >= 64)
            && r.tcbs == (if blocked then k.tcbs[t := Get(k.tcbs, t).(state := Inactive)] else k.tcbs)
            && r == k.(tcbs := r.tcbs, ready := if result.Ok? then k.ready + multiset{Entry(at, t)} else k.ready)
  {
    if IsBlocked(Get(k.tcbs, t).state) { EnqueueEntersAt(k.(tcbs := SetState(k.tcbs, t, Inactive)), t); }
  }

  /** The idle thread was given no deadline, or the last one. */
  predicate IdleIsLast(k: Kernel) {
    k.idle.Some? && (var d := Get(k.tcbs, k.idle.value).deadline; d.None? || d.value == 0xFFFF_FFFF_FFFF_FFFF)
  }

  /** In every run from boot, each entry stands at the deadline its thread has in its block. */
  lemma EntriesStandAtDeadlines(s: Sys, ops: seq<Op>, x: Entry)
    requires Boot(s) && IdleIsLast(s.k) && LegalRun(s, ops)
    ensures Run(s, ops).Next?
    ensures var r := Run(s, ops).s;
            x in r.k.ready || r.k.current == Some(x) ==>
              && Block(r, x.tcb).deadline == Block(s, x.tcb).deadline
              && x.deadline == match Block(s, x.tcb).deadline { case Some(d) => d case None => 0xFFFF_FFFF_FFFF_FFFF }
  {
    ReachedIsTimed(s, ops);
    assert x in Run(s, ops).s.k.ready ==> OnTime(Run(s, ops).s.k.tcbs, x);
    assert Get(Run(s, ops).s.k.tcbs, x.tcb).deadline == Get(s.k.tcbs, x.tcb).deadline;
  }

  lemma TimedAndEarliest(k: Kernel, x: Entry)
    requires Timed(k) && EarliestFirst(k) && k.current.Some? && x in k.ready
    ensures DeadlineOf(k.tcbs, k.current.value.tcb) <= DeadlineOf(k.tcbs, x.tcb)
  {
    assert OnTime(k.tcbs, x);
  }

  /**
  From boot: after the timer, a yield or a block, no ready thread was given an earlier deadline than
  the thread that runs.
  */
  lemma NobodyEarlierIsReady(s: Sys, ops: seq<Op>, op: Op, x: Entry)
    requires Boot(s) && IdleIsLast(s.k) && LegalRun(s, ops)
    requires Run(s, ops).Next? && Legal(Run(s, ops).s, op) && (op.OpPreempt? || op.OpYield? || op.OpBlock?)
    ensures Step(Run(s, ops).s, op).Next?
    ensures var r := Step(Run(s, ops).s, op).s;
            x in r.k.ready ==>
              && r.k.current.Some?
              && var mine, other := Block(s, r.k.current.value.tcb).deadline, Block(s, x.tcb).deadline;
                 && (mine.Some? && other.Some? ==> mine.value <= other.value)
                 && (mine.None? && other.Some? ==> 0xFFFF_FFFF_FFFF_FFFF <= other.value)
                 && (mine.Some? && other.None? ==> mine.value <= 0xFFFF_FFFF_FFFF_FFFF)
  {
    var m := Run(s, ops).s;
    ReachedIsTimed(s, ops);
    StepKeeps(m, op);
    StepCarries(m, op);
    EarliestFirstWhen(m, op);
    var r := Step(m, op).s;
    CarriesTrans(s.k, m.k, r.k);
    if x in r.k.ready {
      ChosenRuns(m, op, x);
      TimedAndEarliest(r.k, x);
      assert Get(r.k.tcbs, x.tcb).deadline == Get(s.k.tcbs, x.tcb).deadline;
      var c := r.k.current.value.tcb;
      assert Get(r.k.tcbs, c).deadline == Get(s.k.tcbs, c).deadline;
    }
  }

  /** After any of them somebody runs, if anybody is ready. */
  lemma ChosenRuns(s: Sys, op: Op, x: Entry)
    requires Inv(s) && Legal(s, op) && Chooses(op) && Step(s, op).Next? && x in Step(s, op).s.k.ready
    ensures Step(s, op).s.k.current.Some?
  {
    match op
    case OpPreempt => PreemptIsEdf(s.k);
    case OpYield => YieldIsEdf(s.k);
    case OpBlock => BlockIsEdf(s.k, BlockedOnNotification);
    case _ =>
  }
}
