/**
The earliest-deadline-first executor: a bounded heap of ready threads, the running thread and an
idle thread.
*/
module Scheduler {
  import opened Wrappers
  import opened Threads

  const CAPACITY: nat := 64
  const MAX_DEADLINE: nat := 0xFFFF_FFFF_FFFF_FFFF

  datatype Entry = Entry(deadline: nat, tcb: Tid)

  datatype EndpointState = EpIdle | EpSend | EpRecv

  datatype Endpoint = Endpoint(state: EndpointState, queue: Queue)

  datatype SchedError = QueueFull | InvalidState

  /** Everything the executor and the endpoints share. */
  datatype Kernel = Kernel(
    tcbs: Tcbs, eps: map<Eid, Endpoint>,
    ready: multiset<Entry>, current: Option<Entry>, idle: Option<Tid>)

  /** A step goes on, or stops the kernel at an `expect`. */
  datatype Flow = Go(k: Kernel) | Panic

  function SetState(m: Tcbs, t: Tid, st: ThreadState): (r: Tcbs) { m[t := Get(m, t).(state := st)] }

  function DeadlineOf(m: Tcbs, t: Tid): (d: nat) {
    if Get(m, t).deadline.Some? then Get(m, t).deadline.value else MAX_DEADLINE
  }

  predicate IsBlocked(st: ThreadState) {
    st.BlockedOnReceive? || st.BlockedOnSend? || st.BlockedOnReply? || st.BlockedOnNotification?
  }

  // ----- the heap -----

  predicate Before(a: Entry, b: Entry) { a.deadline < b.deadline || (a.deadline == b.deadline && a.tcb <= b.tcb) }

  ghost predicate IsLeast(h: multiset<Entry>, e: Entry) { e in h && forall f :: f in h ==> Before(e, f) }

  lemma {:induction false} LeastExists(h: multiset<Entry>)
    requires |h| > 0
    ensures exists e :: IsLeast(h, e)
    decreases |h|
  {
    var e :| e in h;
    var rest := h - multiset{e};
    if |rest| > 0 {
      LeastExists(rest);
      var m :| IsLeast(rest, m);
      var least := if Before(e, m) then e else m;
      forall f | f in h ensures Before(least, f) {
        if f != e { assert f in rest; }
      }
      assert IsLeast(h, least);
    } else {
      forall f | f in h ensures f == e { assert f != e ==> f in rest; }
      assert IsLeast(h, e);
    }
  }

  /** What `pop` returns. */
  ghost function Least(h: multiset<Entry>): (e: Entry)
    requires |h| > 0
    ensures IsLeast(h, e)
  {
    LeastExists(h);
    var e :| IsLeast(h, e); e
  }

  /** The earliest deadline, and among equals the lowest thread. */
  lemma LeastMeans(h: multiset<Entry>, x: Entry)
    requires |h| > 0 && x in h
    ensures var e := Least(h); e in h && (e.deadline < x.deadline || (e.deadline == x.deadline && e.tcb <= x.tcb))
  {
    assert IsLeast(h, Least(h));
  }

  lemma LeastIsUnique(h: multiset<Entry>, a: Entry, b: Entry)
    requires IsLeast(h, a) && IsLeast(h, b)
    ensures a == b
  {
    assert Before(a, b) && Before(b, a);
  }

  lemma Picks(h: multiset<Entry>, x: Entry)
    requires IsLeast(h, x)
    ensures |h| > 0 && Least(h) == x
  {
    assert x in h;
    LeastIsUnique(h, x, Least(h));
  }

  // ----- enqueue and wake -----

  function Enqueue(k: Kernel, t: Tid): (r: (Kernel, Result<(), SchedError>)) {
    if Get(k.tcbs, t).state != Inactive then (k, Err(InvalidState))
    else if |k.ready| >= CAPACITY then (k, Err(QueueFull))
    else (k.(ready := k.ready + multiset{Entry(DeadlineOf(k.tcbs, t), t)}), Ok(()))
  }

  function Wake(k: Kernel, t: Tid): (r: (Kernel, Result<(), SchedError>)) {
    if !IsBlocked(Get(k.tcbs, t).state) then (k, Err(InvalidState))
    else Enqueue(k.(tcbs := SetState(k.tcbs, t, Inactive)), t)
  }

  // ----- switching -----

  /** Give up the running thread: back to the heap if it can still run. */
  function Retire(k: Kernel): (f: Flow) {
    if k.current.None? then Go(k)
    else
      var cur := k.current.value;
      if Get(k.tcbs, cur.tcb).state != Running then Go(k.(current := None))
      else if |k.ready| >= CAPACITY then Panic
      else Go(k.(tcbs := SetState(k.tcbs, cur.tcb, Inactive), ready := k.ready + multiset{cur}, current := None))
  }

  function Resume(k: Kernel, next: Entry): (r: Kernel) {
    k.(tcbs := SetState(k.tcbs, next.tcb, Running), current := Some(next))
  }

  function ContextSwitch(k: Kernel, next: Entry): (f: Flow) {
    match Retire(k)
    case Panic => Panic
    case Go(k1) => Go(Resume(k1, next))
  }

  predicate ShouldPreempt(current: Option<Entry>, head: Option<Entry>) {
    head.Some? && (current.Some? ==> head.value.deadline < current.value.deadline)
  }

  ghost function Preempt(k: Kernel): (f: Flow) {
    if |k.ready| == 0 || !ShouldPreempt(k.current, Some(Least(k.ready))) then Go(k)
    else ContextSwitch(k.(ready := k.ready - multiset{Least(k.ready)}), Least(k.ready))
  }

  /** With nothing ready and no idle thread the core halts and nothing changes. */
  ghost function Schedule(k: Kernel): (f: Flow) {
    if |k.ready| > 0 then ContextSwitch(k.(ready := k.ready - multiset{Least(k.ready)}), Least(k.ready))
    else if k.idle.Some? then ContextSwitch(k, Entry(MAX_DEADLINE, k.idle.value))
    else Go(k)
  }

  ghost function YieldCurrent(k: Kernel): (f: Flow) {
    if k.current.None? then Schedule(k)
    else if |k.ready| >= CAPACITY then Panic
    else
      var cur := k.current.value;
      Schedule(k.(tcbs := SetState(k.tcbs, cur.tcb, Inactive), ready := k.ready + multiset{cur}, current := None))
  }

  ghost function BlockCurrent(k: Kernel, st: ThreadState): (f: Flow) {
    if !IsBlocked(st) then Panic
    else if k.current.None? then Schedule(k)
    else Schedule(k.(tcbs := SetState(k.tcbs, k.current.value.tcb, st), current := None))
  }

  // ----- what the executor guarantees -----

  /** The running entry's deadline is no later than any ready one's. */
  ghost predicate EarliestFirst(k: Kernel) {
    k.current.Some? ==> forall e :: e in k.ready ==> k.current.value.deadline <= e.deadline
  }

  /** The timer switches exactly when someone ready is strictly earlier, and its push never overflows. */
  lemma PreemptIsEdf(k: Kernel)
    requires |k.ready| <= CAPACITY
    ensures Preempt(k).Go? && |Preempt(k).k.ready| <= CAPACITY && EarliestFirst(Preempt(k).k)
    ensures |k.ready| > 0 ==> Preempt(k).k.current.Some?
    ensures k.current.Some? ==>
      Preempt(k).k.current == if EarliestFirst(k) then k.current else Some(Least(k.ready))
    ensures k.current.Some? && EarliestFirst(k) ==> Preempt(k).k == k
  {
    if |k.ready| > 0 { assert IsLeast(k.ready, Least(k.ready)); }
  }

  function Slot(c: Option<Entry>): (m: multiset<Entry>) { if c.Some? then multiset{c.value} else multiset{} }

  /** No entry is lost or made by the timer. */
  lemma PreemptConserves(k: Kernel)
    requires |k.ready| <= CAPACITY && (k.current.Some? ==> Get(k.tcbs, k.current.value.tcb).state == Running)
    ensures Preempt(k).Go? && Preempt(k).k.ready + Slot(Preempt(k).k.current) == k.ready + Slot(k.current)
  {
    if |k.ready| > 0 && ShouldPreempt(k.current, Some(Least(k.ready))) {
      assert k.ready == (k.ready - multiset{Least(k.ready)}) + multiset{Least(k.ready)};
    }
  }

  lemma ScheduleConserves(k: Kernel)
    requires k.current.None? && |k.ready| > 0
    ensures Schedule(k).Go? && Schedule(k).k.ready + Slot(Schedule(k).k.current) == k.ready
  {
    assert k.ready == (k.ready - multiset{Least(k.ready)}) + multiset{Least(k.ready)};
  }

  /** Nor by yielding. */
  lemma YieldConserves(k: Kernel)
    requires |k.ready| < CAPACITY && (k.current.Some? || |k.ready| > 0)
    ensures YieldCurrent(k).Go?
    ensures YieldCurrent(k).k.ready + Slot(YieldCurrent(k).k.current) == k.ready + Slot(k.current)
  {
    if k.current.None? {
      ScheduleConserves(k);
    } else {
      var cur := k.current.value;
      ScheduleConserves(k.(
        tcbs := SetState(k.tcbs, cur.tcb, Inactive), ready := k.ready + multiset{cur}, current := None));
    }
  }

  /** The entry scheduling switches to: the least ready one, or the idle thread's. */
  ghost function NextEntry(k: Kernel): (e: Entry)
    requires |k.ready| > 0 || k.idle.Some?
  {
    if |k.ready| > 0 then Least(k.ready) else Entry(MAX_DEADLINE, k.idle.value)
  }

  /** The running thread goes back to the heap when it is switched away from. */
  predicate Returns(k: Kernel) { k.current.Some? && Get(k.tcbs, k.current.value.tcb).state == Running }

  /**
  Scheduling in any state: the least ready entry runs, and with none the idle thread.  The result
  is earliest first exactly when a thread that returns to the heap is not earlier than the next.
  */
  lemma ScheduleIsEdf(k: Kernel)
    requires |k.ready| <= CAPACITY
    ensures Schedule(k).Go?
    ensures |k.ready| == 0 && k.idle.None? ==> Schedule(k) == Go(k)
    ensures |k.ready| > 0 || k.idle.Some? ==>
      && Schedule(k).k.current == Some(NextEntry(k))
      && (EarliestFirst(Schedule(k).k) <==> (Returns(k) ==> NextEntry(k).deadline <= k.current.value.deadline))
  {
    if |k.ready| > 0 {
      var next := Least(k.ready);
      SwitchLeaves(k.(ready := k.ready - multiset{next}), next);
      assert IsLeast(k.ready, next);
    } else if k.idle.Some? {
      SwitchLeaves(k, NextEntry(k));
    }
  }

  /** Switching puts the next entry on the processor, and the old one back if it can still run. */
  lemma SwitchLeaves(k: Kernel, next: Entry)
    requires |k.ready| < CAPACITY
    ensures ContextSwitch(k, next).Go? && ContextSwitch(k, next).k.current == Some(next)
    ensures ContextSwitch(k, next).k.ready == if Returns(k) then k.ready + multiset{k.current.value} else k.ready
  {}

  /** Yielding: the earliest of all, the yielder included, runs; it overflows exactly when the heap is full. */
  lemma YieldIsEdf(k: Kernel)
    requires |k.ready| <= CAPACITY
    ensures YieldCurrent(k).Panic? <==> k.current.Some? && |k.ready| == CAPACITY
    ensures YieldCurrent(k).Go? ==> EarliestFirst(YieldCurrent(k).k)
    ensures YieldCurrent(k).Go? && k.current.Some? ==>
      YieldCurrent(k).k.current == Some(Least(k.ready + multiset{k.current.value}))
  {
    if k.current.Some? && |k.ready| < CAPACITY {
      var cur := k.current.value;
      ScheduleIsEdf(k.(tcbs := SetState(k.tcbs, cur.tcb, Inactive), ready := k.ready + multiset{cur}, current := None));
    } else if k.current.None? {
      ScheduleIsEdf(k);
    }
  }

  /** Blocking: the least ready entry runs, and with none the idle thread; a state that does not block is refused. */
  lemma BlockIsEdf(k: Kernel, st: ThreadState)
    requires |k.ready| <= CAPACITY
    ensures BlockCurrent(k, st).Panic? <==> !IsBlocked(st)
    ensures BlockCurrent(k, st).Go? ==> EarliestFirst(BlockCurrent(k, st).k)
    ensures BlockCurrent(k, st).Go? && (|k.ready| > 0 || k.idle.Some?) ==>
      BlockCurrent(k, st).k.current == Some(NextEntry(k))
  {
    if IsBlocked(st) && k.current.Some? {
      ScheduleIsEdf(k.(tcbs := SetState(k.tcbs, k.current.value.tcb, st), current := None));
    } else if IsBlocked(st) {
      ScheduleIsEdf(k);
    }
  }

  // ----- when the idle thread runs although another is ready -----

  /** The idle thread is on the processor. */
  predicate IdleRuns(k: Kernel) { k.current.Some? && k.idle == Some(k.current.value.tcb) }

  /** ... while something is ready. */
  predicate IdleAmidReady(k: Kernel) { IdleRuns(k) && |k.ready| > 0 }

  /** One entry leaves the heap, if there is one, and a thread that can still run goes back. */
  lemma ScheduleSizes(k: Kernel)
    requires |k.ready| <= CAPACITY && (|k.ready| > 0 || k.idle.Some?)
    ensures Schedule(k).Go?
    ensures |Schedule(k).k.ready| == (if |k.ready| > 0 then |k.ready| - 1 else 0) + (if Returns(k) then 1 else 0)
    ensures Schedule(k).k.idle == k.idle
  {}

  /** After scheduling: exactly when the idle thread's entry was next, and not the only one left. */
  lemma ScheduleIdlesWhen(k: Kernel)
    requires |k.ready| <= CAPACITY && k.idle.Some?
    ensures IdleAmidReady(Schedule(k).k) <==>
              NextEntry(k).tcb == k.idle.value && (|k.ready| > 1 || Returns(k))
  {
    ScheduleIsEdf(k);
    ScheduleSizes(k);
  }

  /** After the timer. */
  lemma PreemptIdlesWhen(k: Kernel)
    requires |k.ready| <= CAPACITY && k.idle.Some?
    ensures IdleAmidReady(Preempt(k).k) <==>
              && |k.ready| > 0
              && (if k.current.Some? && EarliestFirst(k) then IdleRuns(k)
                  else Least(k.ready).tcb == k.idle.value && (|k.ready| > 1 || Returns(k)))
  {
    PreemptIsEdf(k);
  }

  /** After a yield. */
  lemma YieldIdlesWhen(k: Kernel)
    requires |k.ready| < CAPACITY && k.idle.Some? && k.current.Some?
    ensures IdleAmidReady(YieldCurrent(k).k) <==>
              |k.ready| > 0 && Least(k.ready + multiset{k.current.value}).tcb == k.idle.value
  {
    var cur := k.current.value;
    ScheduleIdlesWhen(k.(
      tcbs := SetState(k.tcbs, cur.tcb, Inactive), ready := k.ready + multiset{cur}, current := None));
  }

  /** After blocking. */
  lemma BlockIdlesWhen(k: Kernel, st: ThreadState)
    requires |k.ready| <= CAPACITY && k.idle.Some? && k.current.Some? && IsBlocked(st)
    ensures IdleAmidReady(BlockCurrent(k, st).k) <==> |k.ready| > 1 && Least(k.ready).tcb == k.idle.value
  {
    ScheduleIdlesWhen(k.(tcbs := SetState(k.tcbs, k.current.value.tcb, st), current := None));
  }

  /** `enqueue` leaves the thread Inactive, so a second call adds it a second time. */
  lemma EnqueueTwiceDuplicates(k: Kernel, t: Tid)
    requires Get(k.tcbs, t).state == Inactive && |k.ready| + 1 < CAPACITY
    ensures var k2 := Enqueue(Enqueue(k, t).0, t).0;
            k2.ready[Entry(DeadlineOf(k.tcbs, t), t)] == k.ready[Entry(DeadlineOf(k.tcbs, t), t)] + 2
  {
    var e := Entry(DeadlineOf(k.tcbs, t), t);
    assert Enqueue(k, t).0.ready == k.ready + multiset{e};
  }
}
