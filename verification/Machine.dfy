/**
The executor, the endpoints and the thread queues as they run: one object whose fields every
operation updates in place, each method proved equal to its specification.
*/
module Machine {
  import opened Sequences
  import opened Wrappers
  import opened Threads
  import opened Scheduler
  import opened Ipc
  import opened Joint
  import opened JointSteps
  import opened JointCancel
  import opened JointBadged
  import opened JointRuns

  // ----- queues while a loop runs over them -----

  /** One turn of `cancel_all_ipc` leaves the rest of the queue. */
  lemma RestartHeadQueue(k: Scheduler.Kernel, e: Eid, q: seq<Tid>)
    requires e in k.eps && IsQueue(k.tcbs, k.eps[e].queue, q) && q != []
    ensures var r := RestartHead(k, e);
            e in r.eps && k.eps[e].queue.head == Some(q[0]) && IsQueue(r.tcbs, r.eps[e].queue, q[1..])
  {
    DequeueIs(k.tcbs, k.eps[e].queue, q);
    var m, r := DequeueTcbs(k.tcbs, k.eps[e].queue), RestartHead(k, e);
    MembersAreBlocks(m, r.eps[e].queue, q[1..]);
    QueueFrame(m, r.tcbs, r.eps[e].queue, q[1..]);
  }

  /** The links of the threads not yet visited are those of the old queue. */
  ghost predicate Ahead(m: Tcbs, q: seq<Tid>, i: nat) {
    forall j {:trigger q[j]} :: i <= j < |q| ==> Get(m, q[j]).epNext == if j + 1 < |q| then Some(q[j + 1]) else None
  }

  lemma QueueIsAhead(m: Tcbs, qu: Queue, q: seq<Tid>)
    requires IsQueue(m, qu, q)
    ensures Ahead(m, q, 0)
  {
    forall j | 0 <= j < |q| ensures Get(m, q[j]).epNext == if j + 1 < |q| then Some(q[j + 1]) else None {
      assert LinkAt(m, q, j);
    }
  }

  /** Visiting one thread leaves the links ahead alone. */
  lemma SweepOneAhead(w: Sweep, q: seq<Tid>, i: nat, badge: nat)
    requires Distinct(q) && i < |q| && Ahead(w.k.tcbs, q, i) && (w.queue.tail.Some? ==> w.queue.tail.value in q[..i])
    ensures var r := SweepOne(w, q[i], badge);
            Ahead(r.k.tcbs, q, i + 1) && (r.queue.tail.Some? ==> r.queue.tail.value in q[..i + 1])
  {
    var r := SweepOne(w, q[i], badge);
    forall j | i + 1 <= j < |q| ensures Get(r.k.tcbs, q[j]) == Get(w.k.tcbs, q[j]) {
      assert q[j] != q[i] && q[j] !in q[..i];
    }
    assert q[i] in q[..i + 1] && forall t :: t in q[..i] ==> t in q[..i + 1];
  }

  lemma SweepAllStep(w: Sweep, q: seq<Tid>, i: nat, badge: nat)
    requires i < |q|
    ensures SweepAll(w, q[..i + 1], badge) == SweepOne(SweepAll(w, q[..i], badge), q[i], badge)
  {
    assert q[..i + 1][..i] == q[..i];
  }

  /** The `Restart` state of a cancelled thread does not outlast the turn. */
  lemma RestartIs(m: Tcbs, t: Tid)
    ensures var m1 := m[t := Get(m, t).(state := Restart, blockingObject := None)];
            SetState(m1, t, Inactive) == m[t := Get(m, t).(state := Inactive, blockingObject := None)]
  {}

  class Machine {
    var tcbs: Tcbs
    var eps: map<Eid, Endpoint>
    var ready: multiset<Entry>
    var current: Option<Entry>
    var idle: Option<Tid>
    /** The threads on each endpoint's queue, in order. */
    ghost var lists: map<Eid, seq<Tid>>

    function State(): (k: Scheduler.Kernel)
      reads this
    {
      Kernel(tcbs, eps, ready, current, idle)
    }

    ghost function System(): (s: Sys)
      reads this
    {
      Sys(State(), lists)
    }

    // ----- TcbQueue -----

    method Append(qu: Queue, t: Tid) returns (r: Queue)
      modifies this`tcbs
      ensures tcbs == AppendTcbs(old(tcbs), qu, t) && r == AppendQueue(qu, t)
    {
      r := qu;
      tcbs := tcbs[t := Get(tcbs, t).(epNext := None, epPrev := r.tail)];
      match r.tail {
        case Some(tail) => tcbs := tcbs[tail := Get(tcbs, tail).(epNext := Some(t))];
        case None => r := r.(head := Some(t));
      }
      r := r.(tail := Some(t));
    }

    method DequeueHead(qu: Queue) returns (h: Option<Tid>, r: Queue)
      modifies this`tcbs
      ensures h == qu.head && tcbs == DequeueTcbs(old(tcbs), qu) && r == DequeueQueue(old(tcbs), qu)
    {
      h, r := qu.head, qu;
      if h.Some? {
        r := r.(head := Get(tcbs, h.value).epNext);
        match r.head {
          case Some(next) => tcbs := tcbs[next := Get(tcbs, next).(epPrev := None)];
          case None => r := r.(tail := None);
        }
        tcbs := tcbs[h.value := Get(tcbs, h.value).(epNext := None, epPrev := None)];
      }
    }

    method RemoveFrom(qu: Queue, t: Tid) returns (r: Queue)
      modifies this`tcbs
      ensures tcbs == RemoveTcbs(old(tcbs), t) && r == RemoveQueue(old(tcbs), qu, t)
    {
      r := qu;
      var prev, next := Get(tcbs, t).epPrev, Get(tcbs, t).epNext;
      match prev {
        case Some(p) => tcbs := tcbs[p := Get(tcbs, p).(epNext := next)];
        case None => r := r.(head := next);
      }
      match next {
        case Some(n) => tcbs := tcbs[n := Get(tcbs, n).(epPrev := prev)];
        case None => r := r.(tail := prev);
      }
      tcbs := tcbs[t := Get(tcbs, t).(epNext := None, epPrev := None)];
    }

    // ----- executor -----

    method Enqueue(t: Tid) returns (r: Result<(), SchedError>)
      modifies this`ready
      ensures (State(), r) == Scheduler.Enqueue(old(State()), t)
      ensures var at := match Get(tcbs, t).deadline { case Some(d) => d case None => 0xFFFF_FFFF_FFFF_FFFF };
              ready == if r.Ok? then old(ready) + multiset{Entry(at, t)} else old(ready)
    {
      if Get(tcbs, t).state != Inactive { return Err(InvalidState); }
      if |ready| >= CAPACITY { return Err(QueueFull); }
      ready := ready + multiset{Entry(DeadlineOf(tcbs, t), t)};
      r := Ok(());
    }

    method Wake(t: Tid) returns (r: Result<(), SchedError>)
      modifies this`ready, this`tcbs
      ensures (State(), r) == Scheduler.Wake(old(State()), t)
    {
      if !IsBlocked(Get(tcbs, t).state) { return Err(InvalidState); }
      tcbs := SetState(tcbs, t, Inactive);
      r := Enqueue(t);
    }

    /** The heap's `peek`. */
    method PeekLeast() returns (x: Entry)
      requires |ready| > 0
      ensures x == Least(ready)
    {
      var rest := ready;
      x :| x in rest;
      rest := rest - multiset{x};
      while |rest| > 0
        invariant x in ready && rest <= ready
        invariant forall f :: f in ready ==> f in rest || Before(x, f)
        decreases |rest|
      {
        var y :| y in rest;
        rest := rest - multiset{y};
        if Before(y, x) { x := y; }
      }
      assert IsLeast(ready, x);
      LeastIsUnique(ready, x, Least(ready));
    }

    /** The heap's `pop`. */
    method PopLeast() returns (x: Entry)
      requires |ready| > 0
      modifies this`ready
      ensures x == Least(old(ready)) && ready == old(ready) - multiset{x}
    {
      x := PeekLeast();
      ready := ready - multiset{x};
    }

    /** `ok` is false where the push's `expect` fails. */
    method ContextSwitch(next: Entry) returns (ok: bool)
      modifies this`tcbs, this`ready, this`current
      ensures ok <==> Scheduler.ContextSwitch(old(State()), next).Go?
      ensures ok ==> Go(State()) == Scheduler.ContextSwitch(old(State()), next)
    {
      if current.Some? {
        var cur := current.value;
        current := None;
        if Get(tcbs, cur.tcb).state == Running {
          tcbs := SetState(tcbs, cur.tcb, Inactive);
          if |ready| >= CAPACITY { return false; }
          ready := ready + multiset{cur};
        }
      }
      tcbs := SetState(tcbs, next.tcb, Running);
      current := Some(next);
      ok := true;
    }

    method Preempt() returns (ok: bool)
      modifies this`tcbs, this`ready, this`current
      ensures ok <==> Scheduler.Preempt(old(State())).Go?
      ensures ok ==> Go(State()) == Scheduler.Preempt(old(State()))
    {
      if |ready| == 0 { return true; }
      var head := PeekLeast();
      if !ShouldPreempt(current, Some(head)) { return true; }
      var next := PopLeast();
      ok := ContextSwitch(next);
    }

    method Schedule() returns (ok: bool)
      modifies this`tcbs, this`ready, this`current
      ensures ok <==> Scheduler.Schedule(old(State())).Go?
      ensures ok ==> Go(State()) == Scheduler.Schedule(old(State()))
    {
      if |ready| > 0 {
        var next := PopLeast();
        ok := ContextSwitch(next);
      } else if idle.Some? {
        ok := ContextSwitch(Entry(MAX_DEADLINE, idle.value));
      } else {
        ok := true;
      }
    }

    method YieldCurrent() returns (ok: bool)
      modifies this`tcbs, this`ready, this`current
      ensures ok <==> Scheduler.YieldCurrent(old(State())).Go?
      ensures ok ==> Go(State()) == Scheduler.YieldCurrent(old(State()))
    {
      if current.Some? {
        var cur := current.value;
        current := None;
        tcbs := SetState(tcbs, cur.tcb, Inactive);
        if |ready| >= CAPACITY { return false; }
        ready := ready + multiset{cur};
      }
      ok := Schedule();
    }

    method BlockCurrent(st: ThreadState) returns (ok: bool)
      modifies this`tcbs, this`ready, this`current
      ensures ok <==> Scheduler.BlockCurrent(old(State()), st).Go?
      ensures ok ==> Go(State()) == Scheduler.BlockCurrent(old(State()), st)
    {
      if !IsBlocked(st) { return false; }
      if current.Some? {
        tcbs := SetState(tcbs, current.value.tcb, st);
        current := None;
      }
      ok := Schedule();
    }

    // ----- endpoints -----

    method DoIpcTransfer(sender: Tid, receiver: Tid, badge: nat)
      modifies this`tcbs
      ensures tcbs == Transfer(old(tcbs), sender, receiver, badge)
    {
      tcbs := tcbs[receiver := Get(tcbs, receiver).(regs := SetReg(Get(tcbs, receiver).regs, 0, badge))];
      ghost var m, from := tcbs, Get(tcbs, sender).regs;
      ghost var all := CopyRegs(Get(m, receiver).regs, from, 0);
      for i := 0 to 4
        invariant tcbs == m[receiver := Get(m, receiver).(regs := Get(tcbs, receiver).regs)]
        invariant CopyRegs(Get(tcbs, receiver).regs, from, i) == all
        invariant Get(tcbs, sender).regs == from
      {
        var val := GetReg(Get(tcbs, sender).regs, i);
        tcbs := tcbs[receiver := Get(tcbs, receiver).(regs := SetReg(Get(tcbs, receiver).regs, i, val))];
      }
    }

    method SetupCallerCap(caller: Tid, callee: Tid)
      modifies this`tcbs
      ensures tcbs == SetupCaller(old(tcbs), caller, callee)
    {
      tcbs := tcbs[caller := Get(tcbs, caller).(state := BlockedOnReply, replyTo := Some(callee))];
      tcbs := tcbs[callee := Get(tcbs, callee).(caller := Some(caller))];
    }

    /** `ok` is false where the `expect` on an empty queue fails. */
    /** The part of `send_ipc` in which the sender joins the queue, with what it sends saved in its block. */
    method BlockSender(sender: Tid, e: Eid, a: SendArgs)
      requires e in eps
      modifies this`tcbs, this`eps
      ensures var k := old(State());
              var m := k.tcbs[sender := Get(k.tcbs, sender).(ipc := Details(a))];
              State() == BlockOn(k.(tcbs := m), sender, e, BlockedOnSend, EpSend)
      ensures var b := Get(tcbs, sender);
              && b.ipc.badge == a.badge && b.ipc.isCall == a.call && b.ipc.canGrant == a.canGrant
              && b.ipc.canGrantReply == a.canGrantReply && b.state == BlockedOnSend && b.blockingObject == Some(e)
    {
      tcbs := tcbs[sender := Get(tcbs, sender).(ipc := IpcState(a.badge, a.canGrant, a.canGrantReply, a.call))];
      tcbs := tcbs[sender := Get(tcbs, sender).(state := BlockedOnSend, blockingObject := Some(e))];
      var qu := Append(eps[e].queue, sender);
      eps := eps[e := Endpoint(EpSend, qu)];
    }

    method SendIpc(sender: Tid, e: Eid, a: SendArgs) returns (ok: bool)
      requires e in eps
      modifies this`tcbs, this`eps, this`ready
      ensures ok <==> Ipc.SendIpc(old(State()), sender, e, a).Go?
      ensures ok ==> Go(State()) == Ipc.SendIpc(old(State()), sender, e, a)
      ensures old(eps[e].state) != EpRecv && a.blocking ==>
        var b := Get(tcbs, sender);
        && b.ipc.badge == a.badge && b.ipc.isCall == a.call && b.ipc.canGrant == a.canGrant
        && b.ipc.canGrantReply == a.canGrantReply && b.state == BlockedOnSend && b.blockingObject == Some(e)
    {
      if eps[e].state != EpRecv {
        if a.blocking {
          BlockSender(sender, e, a);
        }
        return true;
      }
      var h, qu := DequeueHead(eps[e].queue);
      if h.None? { return false; }
      eps := eps[e := Settle(EpRecv, qu)];
      DoIpcTransfer(sender, h.value, a.badge);
      if a.call {
        if a.canGrant || a.canGrantReply {
          SetupCallerCap(sender, h.value);
        } else {
          tcbs := SetState(tcbs, sender, Inactive);
        }
      }
      tcbs := SetState(tcbs, h.value, Running);
      tcbs := SetState(tcbs, h.value, Inactive);
      var woken := Wake(h.value);
      ok := true;
    }

    method ReceiveIpc(receiver: Tid, e: Eid, blocking: bool) returns (ok: bool)
      requires e in eps
      modifies this`tcbs, this`eps, this`ready
      ensures ok <==> Ipc.ReceiveIpc(old(State()), receiver, e, blocking).Go?
      ensures ok ==> Go(State()) == Ipc.ReceiveIpc(old(State()), receiver, e, blocking)
    {
      if eps[e].state != EpSend {
        if blocking {
          tcbs := tcbs[receiver := Get(tcbs, receiver).(state := BlockedOnReceive, blockingObject := Some(e))];
          var qu := Append(eps[e].queue, receiver);
          eps := eps[e := Endpoint(EpRecv, qu)];
        } else {
          tcbs := tcbs[receiver := Get(tcbs, receiver).(regs := SetReg(Get(tcbs, receiver).regs, 0, 0))];
        }
        return true;
      }
      var h, qu := DequeueHead(eps[e].queue);
      if h.None? { return false; }
      eps := eps[e := Settle(EpSend, qu)];
      var ipc := Get(tcbs, h.value).ipc;
      DoIpcTransfer(h.value, receiver, ipc.badge);
      if ipc.isCall {
        if ipc.canGrant || ipc.canGrantReply {
          SetupCallerCap(h.value, receiver);
        } else {
          tcbs := SetState(tcbs, h.value, Inactive);
        }
      } else {
        tcbs := SetState(tcbs, h.value, Inactive);
        var woken := Wake(h.value);
      }
      ok := true;
    }

    method CancelIpc(t: Tid)
      modifies this`tcbs, this`eps
      ensures State() == Ipc.CancelIpc(old(State()), t)
    {
      match Get(tcbs, t).state {
        case BlockedOnSend => CancelQueued(t);
        case BlockedOnReceive => CancelQueued(t);
        case BlockedOnNotification => tcbs := SetState(tcbs, t, Inactive);
        case BlockedOnReply =>
          var callee := Get(tcbs, t).replyTo;
          if callee.Some? { tcbs := tcbs[callee.value := Get(tcbs, callee.value).(caller := None)]; }
          tcbs := tcbs[t := Get(tcbs, t).(replyTo := None, state := Inactive)];
        case _ =>
      }
    }

    method CancelQueued(t: Tid)
      modifies this`tcbs, this`eps
      ensures State() == Ipc.CancelQueued(old(State()), t)
    {
      var on := Get(tcbs, t).blockingObject;
      if on.Some? {
        var st := EpOf(State(), on.value).state;
        var qu := RemoveFrom(EpOf(State(), on.value).queue, t);
        eps := eps[on.value := Settle(st, qu)];
      }
      tcbs := tcbs[t := Get(tcbs, t).(state := Inactive, blockingObject := None)];
    }

    /** One turn of `cancel_all_ipc`. */
    method RestartFirst(e: Eid)
      requires e in eps && eps[e].queue.head.Some?
      modifies this`tcbs, this`eps, this`ready
      ensures State() == RestartHead(old(State()), e)
    {
      ghost var k := State();
      var h, qu := DequeueHead(eps[e].queue);
      eps := eps[e := eps[e].(queue := qu)];
      tcbs := tcbs[h.value := Get(tcbs, h.value).(state := Restart, blockingObject := None)];
      tcbs := SetState(tcbs, h.value, Inactive);
      RestartIs(DequeueTcbs(k.tcbs, k.eps[e].queue), h.value);
      var enqueued := Enqueue(h.value);
    }

    method CancelAllIpc(e: Eid, ghost q: seq<Tid>)
      requires e in eps && IsQueue(tcbs, eps[e].queue, q)
      modifies this`tcbs, this`eps, this`ready
      ensures State() == Ipc.CancelAllIpc(old(State()), e, |q|)
    {
      if eps[e].state == EpIdle { return; }
      ghost var rest := q;
      while eps[e].queue.head.Some?
        invariant e in eps && IsQueue(tcbs, eps[e].queue, rest)
        invariant Drain(State(), e, |rest|) == Drain(old(State()), e, |q|)
        decreases |rest|
      {
        RestartHeadQueue(State(), e, rest);
        RestartFirst(e);
        rest := rest[1..];
      }
      eps := eps[e := eps[e].(state := EpIdle)];
    }

    method CancelBadgedSends(e: Eid, badge: nat, ghost q: seq<Tid>)
      requires e in eps && IsQueue(tcbs, eps[e].queue, q)
      modifies this`tcbs, this`eps, this`ready
      ensures State() == Ipc.CancelBadgedSends(old(State()), e, q, badge)
    {
      if eps[e].state != EpSend { return; }
      ghost var w, i: nat := Sweep(State(), EMPTY_QUEUE), 0;
      QueueIsAhead(tcbs, eps[e].queue, q);
      var cur, queue := eps[e].queue.head, EMPTY_QUEUE;
      while cur.Some?
        invariant i <= |q| && cur == (if i < |q| then Some(q[i]) else None) && eps == old(eps)
        invariant Sweep(State(), queue) == SweepAll(w, q[..i], badge)
        invariant Ahead(tcbs, q, i) && (queue.tail.Some? ==> queue.tail.value in q[..i])
        decreases |q| - i
      {
        var t := cur.value;
        var next := Get(tcbs, t).epNext;
        SweepOneAhead(Sweep(State(), queue), q, i, badge);
        SweepAllStep(w, q, i, badge);
        queue := VisitSender(queue, t, badge);
        cur, i := next, i + 1;
      }
      assert q[..i] == q;
      eps := eps[e := Settle(EpSend, queue)];
    }

    /** One turn of `cancel_badged_sends`. */
    method VisitSender(queue: Queue, t: Tid, badge: nat) returns (r: Queue)
      modifies this`tcbs, this`ready
      ensures Sweep(State(), r) == SweepOne(Sweep(old(State()), queue), t, badge)
    {
      if Get(tcbs, t).ipc.badge == badge {
        r := queue;
        tcbs := tcbs[t := Get(tcbs, t).(epNext := None, epPrev := None)];
        ghost var m := tcbs;
        tcbs := tcbs[t := Get(tcbs, t).(state := Restart, blockingObject := None)];
        tcbs := SetState(tcbs, t, Inactive);
        RestartIs(m, t);
        var enqueued := Enqueue(t);
      } else {
        r := Append(queue, t);
      }
    }

    // ----- the operations of a run -----

    method Reschedule() returns (ok: bool)
      modifies this`tcbs, this`ready, this`current
      ensures ok <==> Resched(old(State())).Go?
      ensures ok ==> Go(State()) == Resched(old(State()))
    {
      ok := true;
      if current.Some? && Get(tcbs, current.value.tcb).state != Running { ok := Schedule(); }
    }

    /** The send system call, from a sound state: no `expect` fails. */
    method SendCall(e: Eid, a: SendArgs) returns (ok: bool)
      requires Inv(System()) && Legal(System(), OpSend(e, a))
      modifies this
      ensures ok && Next(System()) == Step(old(System()), OpSend(e, a)) && Inv(System())
    {
      ghost var s := System();
      StepKeeps(s, OpSend(e, a));
      ok := SendIpc(current.value.tcb, e, a);
      ok := Reschedule();
      lists := QueuesAfterSend(s, e, a);
    }

    method ReceiveCall(e: Eid, blocking: bool) returns (ok: bool)
      requires Inv(System()) && Legal(System(), OpReceive(e, blocking))
      modifies this
      ensures ok && Next(System()) == Step(old(System()), OpReceive(e, blocking)) && Inv(System())
    {
      ghost var s := System();
      StepKeeps(s, OpReceive(e, blocking));
      ok := ReceiveIpc(current.value.tcb, e, blocking);
      ok := Reschedule();
      lists := QueuesAfterReceive(s, e, blocking);
    }

    method CancelThread(t: Tid)
      requires Inv(System()) && Legal(System(), OpCancel(t))
      modifies this
      ensures Next(System()) == Step(old(System()), OpCancel(t)) && Inv(System())
    {
      ghost var s := System();
      StepKeeps(s, OpCancel(t));
      CancelIpc(t);
      lists := Cancelled(s, t).q;
    }

    method CancelEndpoint(e: Eid)
      requires Inv(System()) && Legal(System(), OpCancelAll(e))
      modifies this
      ensures Next(System()) == Step(old(System()), OpCancelAll(e)) && Inv(System())
    {
      ghost var s := System();
      StepKeeps(s, OpCancelAll(e));
      assert QueueOk(s, e);
      CancelAllIpc(e, lists[e]);
      lists := lists[e := []];
    }

    method CancelBadge(e: Eid, badge: nat)
      requires Inv(System()) && Legal(System(), OpCancelBadged(e, badge))
      modifies this
      ensures Next(System()) == Step(old(System()), OpCancelBadged(e, badge)) && Inv(System())
    {
      ghost var s := System();
      StepKeeps(s, OpCancelBadged(e, badge));
      assert QueueOk(s, e);
      CancelBadgedSends(e, badge, lists[e]);
      lists := CancelledBadged(s, e, badge).q;
    }

    method Timer() returns (ok: bool)
      requires Inv(System())
      modifies this
      ensures ok && Next(System()) == Step(old(System()), OpPreempt) && Inv(System())
    {
      StepKeeps(System(), OpPreempt);
      ok := Preempt();
    }

    method Yield() returns (ok: bool)
      requires Inv(System()) && Legal(System(), OpYield)
      modifies this
      ensures ok && Next(System()) == Step(old(System()), OpYield) && Inv(System())
    {
      StepKeeps(System(), OpYield);
      ok := YieldCurrent();
    }

    method AwaitNotification() returns (ok: bool)
      requires Inv(System()) && Legal(System(), OpBlock)
      modifies this
      ensures ok && Next(System()) == Step(old(System()), OpBlock) && Inv(System())
    {
      StepKeeps(System(), OpBlock);
      ok := BlockCurrent(BlockedOnNotification);
    }

    /** `run` */
    method RunNext() returns (ok: bool)
      requires Inv(System()) && Legal(System(), OpSchedule)
      modifies this
      ensures ok && Next(System()) == Step(old(System()), OpSchedule) && Inv(System())
    {
      StepKeeps(System(), OpSchedule);
      ok := Schedule();
    }

    method EnqueueThread(t: Tid) returns (r: Result<(), SchedError>)
      requires Inv(System()) && Legal(System(), OpEnqueue(t))
      modifies this
      ensures Next(System()) == Step(old(System()), OpEnqueue(t)) && Inv(System())
      ensures r == Scheduler.Enqueue(old(State()), t).1
    {
      StepKeeps(System(), OpEnqueue(t));
      r := Enqueue(t);
    }

    method WakeThread(t: Tid) returns (r: Result<(), SchedError>)
      requires Inv(System()) && Legal(System(), OpWake(t))
      modifies this
      ensures Next(System()) == Step(old(System()), OpWake(t)) && Inv(System())
      ensures r == Scheduler.Wake(old(State()), t).1
    {
      StepKeeps(System(), OpWake(t));
      r := Wake(t);
    }

    /** User code: the running thread rewrites its registers. */
    method Compute(regs: seq<nat>)
      requires Inv(System()) && Legal(System(), OpCompute(regs))
      modifies this
      ensures Next(System()) == Step(old(System()), OpCompute(regs)) && Inv(System())
    {
      StepKeeps(System(), OpCompute(regs));
      var t := current.value.tcb;
      tcbs := tcbs[t := Get(tcbs, t).(regs := regs)];
    }
  }
}
