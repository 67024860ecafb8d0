/** Every operation of the joint system keeps the invariant. */
module JointSteps {
  import opened Wrappers
  import opened Threads
  import opened Scheduler
  import opened Ipc
  import opened Joint

  /** The thread on the processor, not the idle one, is making a system call. */
  predicate Acting(s: Sys, t: Tid) {
    && s.k.current.Some? && s.k.current.value.tcb == t && t in s.k.tcbs
    && Block(s, t).state == Running && s.k.idle != Some(t)
  }

  /** Both halves of the invariant but for the state of the running thread. */
  ghost predicate Mid(s: Sys) { Core(s) && StatesOk(s) }

  lemma SettledState(s: Sys, r: Sys, e: Eid)
    requires StatesOk(s) && e in r.k.eps && e in r.q && IsQueue(r.k.tcbs, r.k.eps[e].queue, r.q[e])
    requires r.k.eps.Keys == s.k.eps.Keys && r.q.Keys == s.q.Keys
    requires forall f :: f in s.k.eps && f != e ==> r.k.eps[f] == s.k.eps[f]
    requires forall f :: f in s.q && f != e ==> r.q[f] == s.q[f]
    requires r.k.eps[e].state == EpIdle <==> r.k.eps[e].queue.head.None?
    ensures StatesOk(r)
  {
    forall f | f in r.k.eps && f in r.q ensures StateOk(r, f) {
      if f != e { assert StateOk(s, f); }
    }
  }

  // ----- send -----

  /** After a meeting, whichever way it went. */
  lemma MeetingKeeps(s: Sys, r: Sys, t: Tid, e: Eid)
    requires Mid(s) && Acting(s, t) && e in s.k.eps && e in s.q && s.q[e] != []
    requires Left(s, r, e, s.q[e][0], t) && Parted(s, r, s.q[e][0], t)
    requires r.k.eps[e].state == EpIdle <==> r.k.eps[e].queue.head.None?
    ensures Mid(r)
  {
    LeftKeeps(s, r, e, s.q[e][0], t);
    SettledState(s, r, e);
  }

  /** Dequeuing changes links only. */
  lemma DequeuedBlocks(s: Sys, e: Eid, t: Tid)
    requires Core(s) && e in s.k.eps && e in s.q && s.q[e] != [] && t in s.k.tcbs
    ensures var m, h := DequeueTcbs(s.k.tcbs, s.k.eps[e].queue), s.q[e][0];
            && SameButLinks(Block(s, h), Get(m, h)) && SameButLinks(Block(s, t), Get(m, t))
            && (t !in s.q[e] ==> Get(m, t) == Block(s, t))
            && (DequeueQueue(s.k.tcbs, s.k.eps[e].queue).head.None? <==> s.q[e][1..] == [])
            && m.Keys == s.k.tcbs.Keys && Get(m, h).epNext == None && Get(m, h).epPrev == None
  {
    assert QueueOk(s, e);
    DequeueIs(s.k.tcbs, s.k.eps[e].queue, s.q[e]);
  }

  lemma DeliveredLeft(s: Sys, k: Kernel, t: Tid, e: Eid, a: SendArgs)
    requires Core(s) && Acting(s, t) && e in s.k.eps && e in s.q && s.q[e] != [] && s.k.eps[e].state == EpRecv
    requires Delivered(s, k, t, e, a)
    ensures Left(s, Popped(s, k, e), e, s.q[e][0], t)
  {
    DequeuedBlocks(s, e, t);
    PoppedLeft(s, k, e, t);
  }

  lemma DeliveredParted(s: Sys, k: Kernel, t: Tid, e: Eid, a: SendArgs)
    requires Core(s) && Acting(s, t) && e in s.k.eps && e in s.q && s.q[e] != []
    requires Delivered(s, k, t, e, a)
    ensures Parted(s, Popped(s, k, e), s.q[e][0], t)
  {
    DequeuedBlocks(s, e, t);
    QueuedIsWaiting(s, e, s.q[e][0]);
  }

  lemma DeliveredKeeps(s: Sys, k: Kernel, t: Tid, e: Eid, a: SendArgs)
    requires Mid(s) && Acting(s, t) && e in s.k.eps && e in s.q && s.q[e] != [] && s.k.eps[e].state == EpRecv
    requires Delivered(s, k, t, e, a)
    ensures Mid(Popped(s, k, e))
  {
    DeliveredLeft(s, k, t, e, a);
    DeliveredParted(s, k, t, e, a);
    MeetingKeeps(s, Popped(s, k, e), t, e);
  }

  lemma CollectedLeft(s: Sys, k: Kernel, t: Tid, e: Eid)
    requires Core(s) && Acting(s, t) && e in s.k.eps && e in s.q && s.q[e] != [] && s.k.eps[e].state == EpSend
    requires Collected(s, k, t, e)
    ensures Left(s, Popped(s, k, e), e, s.q[e][0], t)
  {
    DequeuedBlocks(s, e, t);
    PoppedLeft(s, k, e, t);
  }

  lemma CollectedParted(s: Sys, k: Kernel, t: Tid, e: Eid)
    requires Core(s) && Acting(s, t) && e in s.k.eps && e in s.q && s.q[e] != []
    requires Collected(s, k, t, e)
    ensures Parted(s, Popped(s, k, e), s.q[e][0], t)
  {
    DequeuedBlocks(s, e, t);
    QueuedIsWaiting(s, e, s.q[e][0]);
  }

  lemma CollectedKeeps(s: Sys, k: Kernel, t: Tid, e: Eid)
    requires Mid(s) && Acting(s, t) && e in s.k.eps && e in s.q && s.q[e] != [] && s.k.eps[e].state == EpSend
    requires Collected(s, k, t, e)
    ensures Mid(Popped(s, k, e))
  {
    CollectedLeft(s, k, t, e);
    CollectedParted(s, k, t, e);
    MeetingKeeps(s, Popped(s, k, e), t, e);
  }

  lemma BlockKeeps(s: Sys, t: Tid, e: Eid, st: ThreadState, kind: EndpointState)
    requires Mid(s) && Acting(s, t) && e in s.k.eps && e in s.q
    requires (st == BlockedOnSend && kind == EpSend) || (st == BlockedOnReceive && kind == EpRecv)
    requires s.k.eps[e].state == kind || s.k.eps[e].state == EpIdle
    ensures Mid(Sys(BlockOn(s.k, t, e, st, kind), s.q[e := s.q[e] + [t]]))
  {
    var r := Sys(BlockOn(s.k, t, e, st, kind), s.q[e := s.q[e] + [t]]);
    assert StateOk(s, e);
    BlockOnJoins(s, t, e, st, kind);
    JoinedKeeps(s, r, e, t);
    SettledState(s, r, e);
  }

  /** Changing the saved message or the registers of an unqueued thread. */
  lemma PayloadKeeps(s: Sys, t: Tid, b: Tcb)
    requires Mid(s) && t in s.k.tcbs && !IsQueuedState(Block(s, t).state)
    requires b == Block(s, t).(ipc := b.ipc, regs := b.regs)
    ensures Mid(s.(k := s.k.(tcbs := s.k.tcbs[t := b])))
  {
    var r := s.(k := s.k.(tcbs := s.k.tcbs[t := b]));
    forall x | x in s.k.ready && x.tcb == t ensures b.state == Inactive { assert ReadyOk(s, x); }
    ChangeOne(s, t, b);
    forall e | e in r.k.eps && e in r.q ensures StateOk(r, e) { assert StateOk(s, e); }
  }

  // ----- the heap -----

  /** Some entry of the heap names `t`. */
  ghost predicate Readied(h: multiset<Entry>, t: Tid) { exists x :: x in h && x.tcb == t }

  lemma PushKeeps(s: Sys, x: Entry)
    requires Core(s) && x.tcb in s.k.tcbs && Block(s, x.tcb).state == Inactive && !Readied(s.k.ready, x.tcb)
    requires |s.k.ready| < CAPACITY && (s.k.current.Some? ==> s.k.current.value.tcb != x.tcb)
    ensures Core(s.(k := s.k.(ready := s.k.ready + multiset{x})))
  {
    var r := s.(k := s.k.(ready := s.k.ready + multiset{x}));
    SameBlocks(s, r);
    forall y | y in r.k.ready ensures ReadyOk(r, y) {
      if y != x { assert ReadyOk(s, y); }
    }
  }

  lemma PopKeeps(s: Sys, x: Entry)
    requires Core(s) && x in s.k.ready
    ensures var r := s.(k := s.k.(ready := s.k.ready - multiset{x}));
            Core(r) && !Readied(r.k.ready, x.tcb) && x.tcb in s.k.tcbs && Block(s, x.tcb).state == Inactive
  {
    var r := s.(k := s.k.(ready := s.k.ready - multiset{x}));
    SameBlocks(s, r);
    assert ReadyOk(s, x);
    forall y | y in r.k.ready ensures ReadyOk(r, y) { assert ReadyOk(s, y); }
  }

  /** Threads and endpoints alone did not change. */
  lemma SameBlocks(s: Sys, r: Sys)
    requires Core(s) && r.q == s.q && r.k.tcbs == s.k.tcbs && r.k.eps == s.k.eps
    ensures forall e {:trigger QueueOk(r, e)} :: e in r.k.eps ==> QueueOk(r, e)
    ensures forall t {:trigger ThreadOk(r, t)} :: t in r.k.tcbs ==> ThreadOk(r, t)
    ensures forall x {:trigger CallerOk(r, x)} :: x in r.k.tcbs ==> CallerOk(r, x)
  {
    forall e | e in r.k.eps ensures QueueOk(r, e) { assert QueueOk(s, e); }
    forall t | t in r.k.tcbs ensures ThreadOk(r, t) { assert ThreadOk(s, t); }
    forall x | x in r.k.tcbs ensures CallerOk(r, x) { assert CallerOk(s, x); }
  }

  lemma SameStates(s: Sys, r: Sys)
    requires StatesOk(s) && r.q == s.q && r.k.eps == s.k.eps
    ensures StatesOk(r)
  {
    forall e | e in r.k.eps && e in r.q ensures StateOk(r, e) { assert StateOk(s, e); }
  }

  // ----- switching -----

  lemma DropCurrent(s: Sys)
    requires Mid(s)
    ensures Mid(s.(k := s.k.(current := None)))
  {
    var r := s.(k := s.k.(current := None));
    SameBlocks(s, r);
    SameStates(s, r);
    forall x | x in r.k.ready ensures ReadyOk(r, x) { assert ReadyOk(s, x); }
  }

  /** Change the run state of a thread that is neither queued nor waiting for a reply. */
  lemma StateKeeps(s: Sys, t: Tid, st: ThreadState)
    requires Mid(s) && t in s.k.tcbs && !IsQueuedState(st) && st != BlockedOnReply && !Readied(s.k.ready, t)
    requires !IsQueuedState(Block(s, t).state) && Block(s, t).state != BlockedOnReply
    requires s.k.idle == Some(t) ==> st == Inactive || st == Running
    ensures Mid(s.(k := s.k.(tcbs := SetState(s.k.tcbs, t, st))))
  {
    ChangeOne(s, t, Block(s, t).(state := st));
    SameStates(s, s.(k := s.k.(tcbs := SetState(s.k.tcbs, t, st))));
  }

  /** The running thread leaves the processor: to the heap if it is still Running. */
  lemma RetireKeeps(s: Sys)
    requires Mid(s) && |s.k.ready| < CAPACITY
    ensures Retire(s.k).Go?
    ensures var r := Sys(Retire(s.k).k, s.q);
            && Mid(r) && r.k.current.None? && r.k.idle == s.k.idle && r.k.tcbs.Keys == s.k.tcbs.Keys
            && (forall x ::
                 x in r.k.ready ==> x in s.k.ready || (s.k.current == Some(x) && Block(s, x.tcb).state == Running))
            && (forall u ::
                 u in s.k.tcbs && (s.k.current.Some? ==> s.k.current.value.tcb != u) ==> Block(r, u) == Block(s, u))
  {
    DropCurrent(s);
    if s.k.current.Some? {
      var cur := s.k.current.value;
      if Block(s, cur.tcb).state == Running {
        var d := s.(k := s.k.(current := None));
        StateKeeps(d, cur.tcb, Inactive);
        var d1 := d.(k := d.k.(tcbs := SetState(d.k.tcbs, cur.tcb, Inactive)));
        PushKeeps(d1, cur);
        SameStates(d1, d1.(k := d1.k.(ready := d1.k.ready + multiset{cur})));
      }
    }
  }

  lemma ResumeKeeps(s: Sys, next: Entry)
    requires Mid(s) && s.k.current.None? && next.tcb in s.k.tcbs && !Readied(s.k.ready, next.tcb)
    requires Block(s, next.tcb).state == Inactive || Block(s, next.tcb).state == Running
    ensures Inv(Sys(Resume(s.k, next), s.q))
  {
    StateKeeps(s, next.tcb, Running);
    var d := s.(k := s.k.(tcbs := SetState(s.k.tcbs, next.tcb, Running)));
    var r := Sys(Resume(s.k, next), s.q);
    SameBlocks(d, r);
    SameStates(d, r);
    forall x | x in r.k.ready ensures ReadyOk(r, x) { assert ReadyOk(d, x); }
  }

  /** Switching to a thread that is placed nowhere. */
  lemma SwitchKeeps(s: Sys, next: Entry)
    requires Mid(s) && |s.k.ready| < CAPACITY && next.tcb in s.k.tcbs && !Readied(s.k.ready, next.tcb)
    requires Block(s, next.tcb).state == Inactive || Block(s, next.tcb).state == Running
    requires s.k.current.Some? ==> s.k.current.value.tcb != next.tcb
    ensures ContextSwitch(s.k, next).Go? && Inv(Sys(ContextSwitch(s.k, next).k, s.q))
  {
    RetireKeeps(s);
    ResumeKeeps(Sys(Retire(s.k).k, s.q), next);
  }

  lemma SwitchToLeast(s: Sys)
    requires Mid(s) && |s.k.ready| > 0
    ensures var x := Least(s.k.ready);
            var f := ContextSwitch(s.k.(ready := s.k.ready - multiset{x}), x);
            f.Go? && Inv(Sys(f.k, s.q))
  {
    var x := Least(s.k.ready);
    PopKeeps(s, x);
    var d := s.(k := s.k.(ready := s.k.ready - multiset{x}));
    SameStates(s, d);
    SwitchKeeps(d, x);
  }

  /** The timer. */
  lemma PreemptKeeps(s: Sys)
    requires Inv(s)
    ensures Preempt(s.k).Go? && Inv(Sys(Preempt(s.k).k, s.q))
  {
    if |s.k.ready| > 0 { SwitchToLeast(s); }
  }

  /** Rescheduling, when the thread on the processor is not the idle one or someone else is ready. */
  lemma ScheduleKeeps(s: Sys)
    requires Mid(s) && (IdleRuns(s.k) ==> |s.k.ready| > 0)
    ensures Schedule(s.k).Go? && Inv(Sys(Schedule(s.k).k, s.q)) && Schedule(s.k).k.current.Some?
  {
    if |s.k.ready| > 0 {
      SwitchToLeast(s);
    } else {
      SwitchKeeps(s, Entry(MAX_DEADLINE, s.k.idle.value));
    }
  }

  lemma YieldKeeps(s: Sys)
    requires Inv(s) && (s.k.current.Some? ==> |s.k.ready| < CAPACITY)
    ensures YieldCurrent(s.k).Go? && Inv(Sys(YieldCurrent(s.k).k, s.q))
  {
    if s.k.current.None? {
      ScheduleKeeps(s);
    } else {
      RetireKeeps(s);
      ScheduleKeeps(Sys(Retire(s.k).k, s.q));
    }
  }

  /** The running thread stops for something other than IPC. */
  lemma BlockCurrentKeeps(s: Sys)
    requires Inv(s) && s.k.current.Some? && s.k.current.value.tcb != s.k.idle.value
    ensures BlockCurrent(s.k, BlockedOnNotification).Go?
    ensures Inv(Sys(BlockCurrent(s.k, BlockedOnNotification).k, s.q))
  {
    BlockCurrentKeepsWhen(s, BlockedOnNotification);
  }

  /** The states in which a thread may stop without the help of an endpoint. */
  predicate StopState(s: Sys, t: Tid, st: ThreadState) {
    || st == BlockedOnNotification
    || (st == BlockedOnReply && Block(s, t).replyTo.Some? && Block(s, t).replyTo.value in s.k.tcbs)
  }

  /** For every state: blocking goes on exactly in the four, and keeps the invariant exactly in these. */
  lemma BlockCurrentKeepsWhen(s: Sys, st: ThreadState)
    requires Inv(s) && s.k.current.Some? && s.k.current.value.tcb != s.k.idle.value
    ensures BlockCurrent(s.k, st).Go? <==> IsBlocked(st)
    ensures BlockCurrent(s.k, st).Go? && Inv(Sys(BlockCurrent(s.k, st).k, s.q))
        <==> StopState(s, s.k.current.value.tcb, st)
  {
    BlockIsEdf(s.k, st);
    if StopState(s, s.k.current.value.tcb, st) {
      StopKeeps(s, st);
    } else if IsBlocked(st) {
      StopBreaks(s, st);
    }
  }

  lemma StopKeeps(s: Sys, st: ThreadState)
    requires Inv(s) && s.k.current.Some? && s.k.current.value.tcb != s.k.idle.value
    requires StopState(s, s.k.current.value.tcb, st)
    ensures BlockCurrent(s.k, st).Go? && Inv(Sys(BlockCurrent(s.k, st).k, s.q))
  {
    StoppedKeeps(s, st);
    var d := s.(k := s.k.(tcbs := SetState(s.k.tcbs, s.k.current.value.tcb, st)));
    DropCurrent(d);
    ScheduleKeeps(d.(k := d.k.(current := None)));
  }

  lemma StopBreaks(s: Sys, st: ThreadState)
    requires Inv(s) && s.k.current.Some? && s.k.current.value.tcb != s.k.idle.value
    requires IsBlocked(st) && !StopState(s, s.k.current.value.tcb, st)
    ensures BlockCurrent(s.k, st).Go? && !Core(Sys(BlockCurrent(s.k, st).k, s.q))
  {
    StopStays(s, st);
    var t, r := s.k.current.value.tcb, Sys(BlockCurrent(s.k, st).k, s.q);
    var on := Block(s, t).blockingObject;
    if on.Some? && on.value in s.k.eps && on.value in s.q && t in s.q[on.value] { QueuedIsWaiting(s, on.value, t); }
    assert !ThreadOk(r, t);
  }

  lemma StoppedKeeps(s: Sys, st: ThreadState)
    requires Inv(s) && s.k.current.Some? && s.k.current.value.tcb != s.k.idle.value
    requires StopState(s, s.k.current.value.tcb, st)
    ensures Mid(s.(k := s.k.(tcbs := SetState(s.k.tcbs, s.k.current.value.tcb, st))))
  {
    var t := s.k.current.value.tcb;
    var r := s.(k := s.k.(tcbs := SetState(s.k.tcbs, t, st)));
    if st == BlockedOnNotification {
      StateKeeps(s, t, st);
    } else {
      ReplyStateKeeps(s, t);
      SameStates(s, r);
    }
  }

  lemma ReplyStateKeeps(s: Sys, t: Tid)
    requires Core(s) && t in s.k.tcbs && Block(s, t).state == Running && !Readied(s.k.ready, t) && s.k.idle != Some(t)
    requires Block(s, t).replyTo.Some? && Block(s, t).replyTo.value in s.k.tcbs
    ensures Core(s.(k := s.k.(tcbs := SetState(s.k.tcbs, t, BlockedOnReply))))
  {
    var r := s.(k := s.k.(tcbs := SetState(s.k.tcbs, t, BlockedOnReply)));
    forall e | e in r.k.eps ensures QueueOk(r, e) {
      assert QueueOk(s, e);
      forall u | u in s.q[e] ensures u in r.k.tcbs && Block(r, u) == Block(s, u) { QueuedIsWaiting(s, e, u); }
      OtherQueue(s, r, e);
    }
    forall u | u in r.k.tcbs ensures ThreadOk(r, u) { assert ThreadOk(s, u); }
    forall x | x in r.k.tcbs ensures CallerOk(r, x) { assert CallerOk(s, x); }
    forall x | x in r.k.ready ensures ReadyOk(r, x) { assert ReadyOk(s, x); }
  }

  /** The scheduler leaves the thread that stopped alone. */
  lemma StopStays(s: Sys, st: ThreadState)
    requires Inv(s) && s.k.current.Some? && s.k.current.value.tcb != s.k.idle.value && IsBlocked(st)
    ensures var f, t := BlockCurrent(s.k, st), s.k.current.value.tcb;
            && f.Go? && t in f.k.tcbs && Get(f.k.tcbs, t) == Block(s, t).(state := st)
            && s.k.tcbs.Keys == f.k.tcbs.Keys && f.k.eps == s.k.eps
  {
    var t := s.k.current.value.tcb;
    var d := s.k.(tcbs := SetState(s.k.tcbs, t, st), current := None);
    if |d.ready| > 0 {
      assert ReadyOk(s, Least(d.ready));
      assert Least(d.ready).tcb != t;
    }
  }
}
