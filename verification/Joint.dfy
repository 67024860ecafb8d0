/**
The joint system of endpoints and executor, with the queues written out as sequences beside the
kernel state, and the invariant every operation keeps.
*/
module Joint {
  import opened Wrappers
  import opened Threads
  import opened Scheduler
  import opened Ipc

  /** The kernel and, for each endpoint, the threads on its queue in order. */
  datatype Sys = Sys(k: Kernel, q: map<Eid, seq<Tid>>)

  function Block(s: Sys, t: Tid): (b: Tcb) { Get(s.k.tcbs, t) }

  /** A thread waits on `e` in the way the endpoint's state says. */
  predicate WaitsOn(b: Tcb, e: Eid, kind: EndpointState) {
    && b.blockingObject == Some(e)
    && ((kind == EpSend && b.state == BlockedOnSend) || (kind == EpRecv && b.state == BlockedOnReceive))
  }

  /** The links of an endpoint's queue list its sequence, and everyone on it waits for it. */
  ghost predicate QueueOk(s: Sys, e: Eid)
    requires e in s.k.eps
  {
    && e in s.q
    && IsQueue(s.k.tcbs, s.k.eps[e].queue, s.q[e])
    && forall t :: t in s.q[e] ==> WaitsOn(Block(s, t), e, s.k.eps[e].state)
  }

  /** Idle exactly when the queue is empty. */
  predicate StateOk(s: Sys, e: Eid)
    requires e in s.k.eps && e in s.q
  {
    s.k.eps[e].state == EpIdle <==> s.q[e] == []
  }

  /** A thread that waits is on the queue it waits for; one that awaits a reply knows from whom. */
  predicate ThreadOk(s: Sys, t: Tid) {
    var b := Block(s, t);
    && (IsQueuedState(b.state) ==>
          && b.blockingObject.Some? && b.blockingObject.value in s.k.eps
          && b.blockingObject.value in s.q && t in s.q[b.blockingObject.value])
    && (b.state == BlockedOnReply ==> b.replyTo.Some? && b.replyTo.value in s.k.tcbs)
  }

  /** A recorded caller is waiting for this thread's reply. */
  predicate CallerOk(s: Sys, x: Tid) {
    var y := Block(s, x).caller;
    y.Some? ==> y.value in s.k.tcbs && Block(s, y.value).state == BlockedOnReply && Block(s, y.value).replyTo == Some(x)
  }

  /** A ready entry names an Inactive thread, and is there once. */
  predicate ReadyOk(s: Sys, x: Entry) {
    x.tcb in s.k.tcbs && Block(s, x.tcb).state == Inactive && s.k.ready[x] == 1
  }

  /** No thread is ready twice, and none is ready while it runs. */
  ghost predicate PlacedOnce(k: Kernel) {
    && (forall x, y :: x in k.ready && y in k.ready && x.tcb == y.tcb ==> x == y)
    && (k.current.Some? ==> forall x :: x in k.ready ==> x.tcb != k.current.value.tcb)
  }

  ghost predicate Core(s: Sys) {
    && (forall e {:trigger QueueOk(s, e)} :: e in s.k.eps ==> QueueOk(s, e))
    && (forall t {:trigger ThreadOk(s, t)} :: t in s.k.tcbs ==> ThreadOk(s, t))
    && (forall x {:trigger CallerOk(s, x)} :: x in s.k.tcbs ==> CallerOk(s, x))
    && (forall x {:trigger ReadyOk(s, x)} :: x in s.k.ready ==> ReadyOk(s, x))
    && PlacedOnce(s.k) && |s.k.ready| <= CAPACITY
    && (s.k.current.Some? ==> s.k.current.value.tcb in s.k.tcbs)
    && s.k.idle.Some? && s.k.idle.value in s.k.tcbs
    && (Block(s, s.k.idle.value).state == Inactive || Block(s, s.k.idle.value).state == Running)
  }

  ghost predicate StatesOk(s: Sys) {
    forall e {:trigger StateOk(s, e)} :: e in s.k.eps && e in s.q ==> StateOk(s, e)
  }

  /** What holds between operations. */
  ghost predicate Inv(s: Sys) {
    && Core(s) && StatesOk(s)
    && (s.k.current.Some? ==> Block(s, s.k.current.value.tcb).state == Running)
  }

  // ----- consequences -----

  /** A thread is on at most one queue. */
  lemma QueuesApart(s: Sys, e: Eid, f: Eid, t: Tid)
    requires Core(s) && e in s.k.eps && f in s.k.eps && e in s.q && f in s.q && t in s.q[e] && t in s.q[f]
    ensures e == f
  {
    assert QueueOk(s, e) && QueueOk(s, f);
  }

  lemma QueuedIsWaiting(s: Sys, e: Eid, t: Tid)
    requires Core(s) && e in s.k.eps && e in s.q && t in s.q[e]
    ensures t in s.k.tcbs && WaitsOn(Block(s, t), e, s.k.eps[e].state) && IsQueuedState(Block(s, t).state)
  {
    assert QueueOk(s, e);
    var i :| 0 <= i < |s.q[e]| && s.q[e][i] == t;
    assert LinkAt(s.k.tcbs, s.q[e], i);
  }

  /** An endpoint none of whose threads changed. */
  lemma OtherQueue(s: Sys, r: Sys, f: Eid)
    requires f in s.k.eps && QueueOk(s, f) && f in r.k.eps && f in r.q && r.k.eps[f] == s.k.eps[f] && r.q[f] == s.q[f]
    requires forall t :: t in s.q[f] ==> t in r.k.tcbs && Block(r, t) == Block(s, t)
    ensures QueueOk(r, f)
  {
    QueueFrame(s.k.tcbs, r.k.tcbs, s.k.eps[f].queue, s.q[f]);
  }

  // ----- changing one thread that no queue holds -----

  /** Replace the block of one unqueued thread by one that is not queued either. */
  lemma ChangeOne(s: Sys, t: Tid, b: Tcb)
    requires Core(s) && t in s.k.tcbs && !IsQueuedState(Block(s, t).state) && !IsQueuedState(b.state)
    requires b.state == BlockedOnReply ==> Block(s, t).state == BlockedOnReply && b.replyTo == Block(s, t).replyTo
    requires Block(s, t).state == BlockedOnReply ==>
      b.state == BlockedOnReply || forall x :: x in s.k.tcbs ==> Block(s, x).caller != Some(t)
    requires b.caller == Block(s, t).caller || b.caller == None
    requires (exists x :: x in s.k.ready && x.tcb == t) ==> b.state == Inactive
    requires t == s.k.idle.value ==> b.state == Inactive || b.state == Running
    ensures Core(s.(k := s.k.(tcbs := s.k.tcbs[t := b])))
  {
    var r := s.(k := s.k.(tcbs := s.k.tcbs[t := b]));
    forall e | e in r.k.eps ensures QueueOk(r, e) {
      assert QueueOk(s, e);
      forall u | u in s.q[e] ensures u in r.k.tcbs && Block(r, u) == Block(s, u) { QueuedIsWaiting(s, e, u); }
      OtherQueue(s, r, e);
    }
    forall u | u in r.k.tcbs ensures ThreadOk(r, u) { assert ThreadOk(s, u); }
    forall x | x in r.k.tcbs ensures CallerOk(r, x) { assert CallerOk(s, x); }
    forall x | x in r.k.ready ensures ReadyOk(r, x) { assert ReadyOk(s, x); }
  }

  // ----- joining a queue -----

  /** What it comes to when the running thread `t` joins the queue of `e`. */
  ghost predicate Joined(s: Sys, r: Sys, e: Eid, t: Tid) {
    && e in s.k.eps && e in s.q && t in s.k.tcbs && Block(s, t).state == Running
    && r.k.tcbs.Keys == s.k.tcbs.Keys && r.k.eps.Keys == s.k.eps.Keys && r.q.Keys == s.q.Keys
    && (forall f :: f in s.k.eps && f != e ==> r.k.eps[f] == s.k.eps[f])
    && (forall f :: f in s.q && f != e ==> r.q[f] == s.q[f])
    && (forall u :: u in s.k.tcbs && u != t ==> SameButLinks(Block(s, u), Block(r, u)))
    && (forall u :: u in s.k.tcbs && u != t && u !in s.q[e] ==> Block(r, u) == Block(s, u))
    && Block(r, t).caller == Block(s, t).caller && WaitsOn(Block(r, t), e, r.k.eps[e].state)
    && r.q[e] == s.q[e] + [t] && IsQueue(r.k.tcbs, r.k.eps[e].queue, r.q[e])
    && (s.q[e] != [] ==> r.k.eps[e].state == s.k.eps[e].state)
    && r.k.ready == s.k.ready && r.k.current == s.k.current && r.k.idle == s.k.idle
  }

  lemma JoinedQueues(s: Sys, r: Sys, e: Eid, t: Tid, f: Eid)
    requires Core(s) && Joined(s, r, e, t) && f in r.k.eps
    ensures QueueOk(r, f)
  {
    assert QueueOk(s, f) && QueueOk(s, e);
    if f != e {
      forall u | u in s.q[f] ensures u in r.k.tcbs && Block(r, u) == Block(s, u) {
        QueuedIsWaiting(s, f, u);
        if u in s.q[e] { QueuesApart(s, e, f, u); }
      }
      OtherQueue(s, r, f);
    } else {
      forall u | u in r.q[e] ensures WaitsOn(Block(r, u), e, r.k.eps[e].state) {
        if u != t { QueuedIsWaiting(s, e, u); }
      }
    }
  }

  lemma JoinedThread(s: Sys, r: Sys, e: Eid, t: Tid, u: Tid)
    requires Core(s) && Joined(s, r, e, t) && u in r.k.tcbs
    ensures ThreadOk(r, u)
  {
    assert ThreadOk(s, u);
    if u != t { assert SameButLinks(Block(s, u), Block(r, u)); }
  }

  lemma JoinedCaller(s: Sys, r: Sys, e: Eid, t: Tid, x: Tid)
    requires Core(s) && Joined(s, r, e, t) && x in r.k.tcbs
    ensures CallerOk(r, x)
  {
    assert CallerOk(s, x);
    if x != t { assert SameButLinks(Block(s, x), Block(r, x)); }
    var y := Block(s, x).caller;
    if y.Some? { assert SameButLinks(Block(s, y.value), Block(r, y.value)); }
  }

  lemma JoinedKeeps(s: Sys, r: Sys, e: Eid, t: Tid)
    requires Core(s) && Joined(s, r, e, t) && t != s.k.idle.value
    ensures Core(r)
  {
    forall f | f in r.k.eps ensures QueueOk(r, f) { JoinedQueues(s, r, e, t, f); }
    forall u | u in r.k.tcbs ensures ThreadOk(r, u) { JoinedThread(s, r, e, t, u); }
    forall x | x in r.k.tcbs ensures CallerOk(r, x) { JoinedCaller(s, r, e, t, x); }
    forall x | x in r.k.ready ensures ReadyOk(r, x) { assert ReadyOk(s, x); }
  }

  /** The running thread joins the queue of `e` and waits. */
  lemma BlockOnJoins(s: Sys, t: Tid, e: Eid, st: ThreadState, kind: EndpointState)
    requires Core(s) && e in s.k.eps && e in s.q && t in s.k.tcbs && Block(s, t).state == Running
    requires (st == BlockedOnSend && kind == EpSend) || (st == BlockedOnReceive && kind == EpRecv)
    requires s.k.eps[e].state == kind || s.q[e] == []
    ensures Joined(s, Sys(BlockOn(s.k, t, e, st, kind), s.q[e := s.q[e] + [t]]), e, t)
    ensures var n := BlockOn(s.k, t, e, st, kind).tcbs;
            forall u :: u in n ==> Get(n, u).regs == Block(s, u).regs && Get(n, u).ipc == Block(s, u).ipc
  {
    var b := Block(s, t).(state := st, blockingObject := Some(e));
    assert QueueOk(s, e);
    if t in s.q[e] { QueuedIsWaiting(s, e, t); }
    ChangedThenAppended(s.k.tcbs, s.k.eps[e].queue, s.q[e], t, b);
    AppendedJoins(s, Sys(BlockOn(s.k, t, e, st, kind), s.q[e := s.q[e] + [t]]), t, e, b, kind);
  }

  lemma AppendedJoins(s: Sys, r: Sys, t: Tid, e: Eid, b: Tcb, kind: EndpointState)
    requires e in s.k.eps && e in s.q && t in s.k.tcbs && Block(s, t).state == Running && r.q == s.q[e := s.q[e] + [t]]
    requires r.k == s.k.(tcbs := r.k.tcbs, eps := s.k.eps[e := Endpoint(kind, AppendQueue(s.k.eps[e].queue, t))])
    requires IsQueue(r.k.tcbs, AppendQueue(s.k.eps[e].queue, t), s.q[e] + [t]) && r.k.tcbs.Keys == s.k.tcbs.Keys
    requires b == Block(s, t).(state := b.state, blockingObject := Some(e)) && SameButLinks(b, Block(r, t))
    requires WaitsOn(b, e, kind)
    requires forall u :: u in s.k.tcbs && u != t ==> SameButLinks(Block(s, u), Block(r, u))
    requires forall u :: u in s.k.tcbs && u != t && u !in s.q[e] ==> Block(r, u) == Block(s, u)
    requires s.k.eps[e].state == kind || s.q[e] == []
    ensures Joined(s, r, e, t)
  {}

  /** Rewriting a block and appending it, on the table of blocks alone. */
  lemma ChangedThenAppended(m: Tcbs, qu: Queue, q: seq<Tid>, t: Tid, b: Tcb)
    requires IsQueue(m, qu, q) && t in m && t !in q
    ensures var n := AppendTcbs(m[t := b], qu, t);
            && IsQueue(n, AppendQueue(qu, t), q + [t])
            && n.Keys == m.Keys && SameButLinks(b, Get(n, t))
            && (forall u :: u in m && u != t ==> SameButLinks(Get(m, u), Get(n, u)))
            && (forall u :: u in m && u != t && u !in q ==> Get(n, u) == Get(m, u))
  {
    forall u | u in q ensures u in m {
      var i :| 0 <= i < |q| && q[i] == u;
      assert LinkAt(m, q, i);
    }
    QueueFrame(m, m[t := b], qu, q);
    AppendIs(m[t := b], qu, q, t);
  }

  // ----- leaving a queue -----

  /** What taking `h` off the queue of `e` and changing `h` and `a` must come to. */
  ghost predicate Left(s: Sys, r: Sys, e: Eid, h: Tid, a: Tid) {
    && e in s.k.eps && e in s.q && h in s.q[e] && h in s.k.tcbs && a in s.k.tcbs && a != h
    && r.k.tcbs.Keys == s.k.tcbs.Keys && r.k.eps.Keys == s.k.eps.Keys && r.q.Keys == s.q.Keys
    && (forall f :: f in s.k.eps && f != e ==> r.k.eps[f] == s.k.eps[f])
    && (forall f :: f in s.q && f != e ==> r.q[f] == s.q[f])
    && (forall u :: u in s.k.tcbs && u != h && u != a ==> SameButLinks(Block(s, u), Block(r, u)))
    && (forall u :: u in s.k.tcbs && u != h && u != a && u !in s.q[e] ==> Block(r, u) == Block(s, u))
    && SameLinks(Block(s, a), Block(r, a))
    && IsQueue(r.k.tcbs, r.k.eps[e].queue, r.q[e])
    && (forall u :: u in r.q[e] <==> u in s.q[e] && u != h)
    && (r.q[e] != [] ==> r.k.eps[e].state == s.k.eps[e].state)
    && r.k.ready == s.k.ready && r.k.current == s.k.current && r.k.idle == s.k.idle
  }

  /** At most one new call: `c` now waits for the reply of `d`. */
  predicate CallLink(s: Sys, r: Sys, c: Tid, d: Tid) {
    && c in r.k.tcbs && Block(r, c).state == BlockedOnReply && Block(r, c).replyTo == Some(d)
    && Block(r, d).caller == Some(c) && Block(r, c).caller == Block(s, c).caller
  }

  lemma LeftQueues(s: Sys, r: Sys, e: Eid, h: Tid, a: Tid, f: Eid)
    requires Core(s) && Left(s, r, e, h, a) && !IsQueuedState(Block(s, a).state) && f in r.k.eps
    ensures QueueOk(r, f)
  {
    assert QueueOk(s, f) && QueueOk(s, e);
    if f != e {
      forall u | u in s.q[f] ensures u in r.k.tcbs && Block(r, u) == Block(s, u) {
        QueuedIsWaiting(s, f, u);
        if u in s.q[e] { QueuesApart(s, e, f, u); }
      }
      OtherQueue(s, r, f);
    } else {
      forall u | u in r.q[e] ensures WaitsOn(Block(r, u), e, r.k.eps[e].state) {
        QueuedIsWaiting(s, e, u);
      }
    }
  }

  /** The states in which two threads may part after a meeting. */
  predicate Parted(s: Sys, r: Sys, h: Tid, a: Tid) {
    && !IsQueuedState(Block(r, h).state) && !IsQueuedState(Block(r, a).state)
    && ((Block(r, h).caller == Block(s, h).caller && Block(r, a).caller == Block(s, a).caller)
        || CallLink(s, r, h, a) || CallLink(s, r, a, h))
    && (Block(r, h).state == BlockedOnReply ==> Block(r, h).replyTo == Some(a))
    && (Block(r, a).state == BlockedOnReply ==> Block(r, a).replyTo == Some(h) || Block(r, a) == Block(s, a))
  }

  /** The other thread did not change, or nothing else in the system speaks of it. */
  ghost predicate MayChange(s: Sys, r: Sys, a: Tid) {
    && !IsQueuedState(Block(s, a).state)
    && (Block(r, a) == Block(s, a)
        || (Block(s, a).state != BlockedOnReply && s.k.idle != Some(a) && forall x :: x in s.k.ready ==> x.tcb != a))
  }

  lemma LeftCaller(s: Sys, r: Sys, e: Eid, h: Tid, a: Tid, x: Tid)
    requires Core(s) && Left(s, r, e, h, a) && Parted(s, r, h, a) && MayChange(s, r, a) && x in r.k.tcbs
    ensures CallerOk(r, x)
  {
    QueuedIsWaiting(s, e, h);
    assert CallerOk(s, x);
    var y := Block(s, x).caller;
    if y.Some? {
      assert y.value != h;
      assert SameButLinks(Block(s, y.value), Block(r, y.value));
    }
    if x != h && x != a { assert SameButLinks(Block(s, x), Block(r, x)); }
  }

  lemma LeftThread(s: Sys, r: Sys, e: Eid, h: Tid, a: Tid, u: Tid)
    requires Core(s) && Left(s, r, e, h, a) && Parted(s, r, h, a) && u in r.k.tcbs
    ensures ThreadOk(r, u)
  {
    assert ThreadOk(s, u);
    if u != h && u != a { assert SameButLinks(Block(s, u), Block(r, u)); }
  }

  /** A thread leaves a queue and stops waiting; it and one other, unqueued thread may change. */
  lemma LeftKeeps(s: Sys, r: Sys, e: Eid, h: Tid, a: Tid)
    requires Core(s) && Left(s, r, e, h, a) && Parted(s, r, h, a) && MayChange(s, r, a)
    ensures Core(r)
  {
    QueuedIsWaiting(s, e, h);
    forall f | f in r.k.eps ensures QueueOk(r, f) { LeftQueues(s, r, e, h, a, f); }
    forall u | u in r.k.tcbs ensures ThreadOk(r, u) { LeftThread(s, r, e, h, a, u); }
    forall x | x in r.k.tcbs ensures CallerOk(r, x) { LeftCaller(s, r, e, h, a, x); }
    forall x | x in r.k.ready ensures ReadyOk(r, x) { assert ReadyOk(s, x); }
  }

  // ----- rendezvous -----

  /** The queue of `e` without its head. */
  function Popped(s: Sys, k: Kernel, e: Eid): (r: Sys)
    requires e in s.q && s.q[e] != []
  {
    Sys(k, s.q[e := s.q[e][1..]])
  }

  /** Dequeuing the head and changing nothing but states, callers and registers of the two threads. */
  lemma PoppedLeft(s: Sys, k: Kernel, e: Eid, a: Tid)
    requires Core(s) && e in s.k.eps && e in s.q && s.q[e] != [] && a in s.k.tcbs && !IsQueuedState(Block(s, a).state)
    requires var m, h := DequeueTcbs(s.k.tcbs, s.k.eps[e].queue), s.q[e][0];
             && k.tcbs.Keys == m.Keys
             && (forall u :: u in m && u != h && u != a ==> Get(k.tcbs, u) == Get(m, u))
             && SameLinks(Get(k.tcbs, h), Get(m, h)) && SameLinks(Get(k.tcbs, a), Get(m, a))
    requires e in k.eps && k.eps == s.k.eps[e := k.eps[e]] && k.eps[e].queue == DequeueQueue(s.k.tcbs, s.k.eps[e].queue)
    requires s.q[e][1..] != [] ==> k.eps[e].state == s.k.eps[e].state
    requires k.ready == s.k.ready && k.current == s.k.current && k.idle == s.k.idle
    ensures Left(s, Popped(s, k, e), e, s.q[e][0], a)
  {
    var m, qu, q := DequeueTcbs(s.k.tcbs, s.k.eps[e].queue), s.k.eps[e].queue, s.q[e];
    assert QueueOk(s, e);
    DequeueIs(s.k.tcbs, qu, q);
    if a in q { QueuedIsWaiting(s, e, a); }
    forall t | t in q[1..] ensures t in k.tcbs && SameLinks(Get(m, t), Get(k.tcbs, t)) {
      QueuedIsWaiting(s, e, t);
    }
    QueueFrame(m, k.tcbs, DequeueQueue(s.k.tcbs, qu), q[1..]);
    assert forall u :: u in q <==> u == q[0] || u in q[1..];
  }

  /** What sending to a waiting receiver does to the two blocks, and to no other. */
  ghost predicate Delivered(s: Sys, k: Kernel, sender: Tid, e: Eid, a: SendArgs)
    requires e in s.k.eps && e in s.q && s.q[e] != []
  {
    var h, m := s.q[e][0], DequeueTcbs(s.k.tcbs, s.k.eps[e].queue);
    && k == s.k.(tcbs := k.tcbs, eps := s.k.eps[e := Settle(EpRecv, DequeueQueue(s.k.tcbs, s.k.eps[e].queue))])
    && k.tcbs.Keys == m.Keys && h in m && h != sender
    && (forall u :: u in m && u != h && u != sender ==> Get(k.tcbs, u) == Get(m, u))
    && Get(k.tcbs, h) == Get(m, h).(state := Inactive, regs := Get(k.tcbs, h).regs,
         caller := if ExpectsReply(Details(a)) then Some(sender) else Get(m, h).caller)
    && Get(k.tcbs, sender) ==
         if !a.call then Get(m, sender)
         else if a.canGrant || a.canGrantReply then Get(m, sender).(state := BlockedOnReply, replyTo := Some(h))
         else Get(m, sender).(state := Inactive)
  }

  lemma DeliverIs(s: Sys, sender: Tid, e: Eid, a: SendArgs)
    requires Core(s) && e in s.k.eps && e in s.q && s.q[e] != [] && sender in s.k.tcbs
    requires Block(s, sender).state == Running
    ensures EpOf(s.k, e).queue.head == Some(s.q[e][0])
    ensures Delivered(s, Deliver(s.k, sender, e, a), sender, e, a)
  {
    assert QueueOk(s, e);
    DequeueIs(s.k.tcbs, s.k.eps[e].queue, s.q[e]);
    QueuedIsWaiting(s, e, s.q[e][0]);
    DeliverIsPlain(s.k, sender, e, a);
    DeliverTcbsIs(DequeueTcbs(s.k.tcbs, s.k.eps[e].queue), sender, s.q[e][0], a);
  }

  /** What receiving from a waiting sender does to the two blocks, and to no other. */
  ghost predicate Collected(s: Sys, k: Kernel, receiver: Tid, e: Eid)
    requires e in s.k.eps && e in s.q && s.q[e] != []
  {
    var h, m := s.q[e][0], DequeueTcbs(s.k.tcbs, s.k.eps[e].queue);
    var ipc := Block(s, h).ipc;
    && k == s.k.(tcbs := k.tcbs, eps := s.k.eps[e := Settle(EpSend, DequeueQueue(s.k.tcbs, s.k.eps[e].queue))])
    && k.tcbs.Keys == m.Keys && h in m && h != receiver
    && (forall u :: u in m && u != h && u != receiver ==> Get(k.tcbs, u) == Get(m, u))
    && Get(k.tcbs, h) == (if ExpectsReply(ipc)
                          then Get(m, h).(state := BlockedOnReply, replyTo := Some(receiver))
                          else Get(m, h).(state := Inactive))
    && Get(k.tcbs, receiver) == Get(m, receiver).(regs := Get(k.tcbs, receiver).regs,
         caller := if ExpectsReply(ipc) then Some(h) else Get(m, receiver).caller)
  }

  lemma CollectIs(s: Sys, receiver: Tid, e: Eid)
    requires Core(s) && e in s.k.eps && e in s.q && s.q[e] != [] && receiver in s.k.tcbs
    requires Block(s, receiver).state == Running
    ensures EpOf(s.k, e).queue.head == Some(s.q[e][0])
    ensures Collected(s, Collect(s.k, receiver, e), receiver, e)
  {
    assert QueueOk(s, e);
    DequeueIs(s.k.tcbs, s.k.eps[e].queue, s.q[e]);
    QueuedIsWaiting(s, e, s.q[e][0]);
    CollectIsPlain(s.k, receiver, e);
    CollectTcbsIs(DequeueTcbs(s.k.tcbs, s.k.eps[e].queue), s.q[e][0], receiver);
  }
}
