/** Cancelling: one thread, every thread of an endpoint, or every sender with a badge. */
module JointCancel {
  import opened Sequences
  import opened Wrappers
  import opened Threads
  import opened Scheduler
  import opened Ipc
  import opened Joint
  import opened JointSteps

  // ----- cancel_ipc -----

  function Without(q: seq<Tid>, t: Tid): (r: seq<Tid>) {
    if q == [] then [] else if q[0] == t then q[1..] else [q[0]] + Without(q[1..], t)
  }

  lemma DropFromTail(q: seq<Tid>, k: nat)
    requires 0 < k < |q|
    ensures [q[0]] + (q[1..][..k - 1] + q[1..][k..]) == q[..k] + q[k + 1..]
  {
    assert q[1..][..k - 1] == q[1..k] && q[1..][k..] == q[k + 1..];
  }

  lemma {:induction false} WithoutAt(q: seq<Tid>, k: nat)
    requires Distinct(q) && k < |q|
    ensures Without(q, q[k]) == q[..k] + q[k + 1..]
  {
    if k == 0 {
      assert q[..0] + q[1..] == q[1..];
    } else {
      var tail := q[1..];
      assert tail[k - 1] == q[k] && Distinct(tail);
      WithoutAt(tail, k - 1);
      DropFromTail(q, k);
    }
  }

  /** The system after `cancel_ipc`. */
  function Cancelled(s: Sys, t: Tid): (r: Sys) {
    var b := Block(s, t);
    Sys(CancelIpc(s.k, t),
        if IsQueuedState(b.state) && b.blockingObject.Some? && b.blockingObject.value in s.q
        then s.q[b.blockingObject.value := Without(s.q[b.blockingObject.value], t)] else s.q)
  }

  /** The thread unlinked and rewritten, and its endpoint settled. */
  ghost predicate Unlinked(s: Sys, r: Sys, t: Tid, e: Eid) {
    && e in s.k.eps && e in s.q && r.q == s.q[e := Without(s.q[e], t)]
    && r.k == s.k.(tcbs := RemovedTcbs(s.k.tcbs, t),
                   eps := s.k.eps[e := Settle(s.k.eps[e].state, RemoveQueue(s.k.tcbs, s.k.eps[e].queue, t))])
  }

  lemma UnlinkedLeaves(s: Sys, r: Sys, t: Tid, e: Eid)
    requires Core(s) && Unlinked(s, r, t, e) && t in s.q[e] && s.k.idle.value !in s.q[e]
    ensures t in s.k.tcbs && Left(s, r, e, t, s.k.idle.value)
    ensures Block(r, s.k.idle.value) == Block(s, s.k.idle.value)
    ensures Block(r, t).state == Inactive && Block(r, t).blockingObject == None
    ensures Block(r, t).caller == Block(s, t).caller
  {
    assert QueueOk(s, e);
    RemovedThenChanged(s.k.tcbs, s.k.eps[e].queue, s.q[e], t);
  }

  lemma CancelQueuedLeaves(s: Sys, t: Tid, e: Eid)
    requires Core(s) && e in s.k.eps && e in s.q && t in s.q[e]
    ensures var r := Sys(CancelQueued(s.k, t), s.q[e := Without(s.q[e], t)]);
            && t in s.k.tcbs && t != s.k.idle.value
            && Left(s, r, e, t, s.k.idle.value) && Block(r, s.k.idle.value) == Block(s, s.k.idle.value)
            && Block(r, t).state == Inactive && Block(r, t).blockingObject == None
            && Block(r, t).caller == Block(s, t).caller
            && (r.k.eps[e].state == EpIdle <==> r.k.eps[e].queue.head.None? || s.k.eps[e].state == EpIdle)
  {
    QueuedIsWaiting(s, e, t);
    if s.k.idle.value in s.q[e] { QueuedIsWaiting(s, e, s.k.idle.value); }
    CancelQueuedIs(s.k, t, e);
    UnlinkedLeaves(s, Sys(CancelQueued(s.k, t), s.q[e := Without(s.q[e], t)]), t, e);
  }

  lemma CancelQueuedIs(k: Kernel, t: Tid, e: Eid)
    requires e in k.eps && Get(k.tcbs, t).blockingObject == Some(e)
    ensures CancelQueued(k, t) == k.(
      tcbs := RemovedTcbs(k.tcbs, t), eps := k.eps[e := Settle(k.eps[e].state, RemoveQueue(k.tcbs, k.eps[e].queue, t))])
  {}

  function RemovedTcbs(m: Tcbs, t: Tid): (n: Tcbs) {
    var m1 := RemoveTcbs(m, t);
    m1[t := Get(m1, t).(state := Inactive, blockingObject := None)]
  }

  /** Unlinking a block, on the table of blocks alone. */
  lemma RemoveWithout(m: Tcbs, qu: Queue, q: seq<Tid>, t: Tid)
    requires IsQueue(m, qu, q) && t in q
    ensures var n, r := RemoveTcbs(m, t), Without(q, t);
            && IsQueue(n, RemoveQueue(m, qu, t), r) && n.Keys == m.Keys && t in m
            && Get(n, t).epNext == None && Get(n, t).epPrev == None
            && (forall u :: u in m ==> SameButLinks(Get(m, u), Get(n, u)) && (u !in q ==> Get(n, u) == Get(m, u)))
            && (forall u :: u in r <==> u in q && u != t)
  {
    var i: nat :| i < |q| && q[i] == t;
    WithoutAt(q, i);
    RemoveIs(m, qu, q, i);
    forall u ensures u in Without(q, t) <==> u in q && u != t { WithoutMembers(q, i, u); }
  }

  /** Unlinking a block and rewriting it. */
  lemma RemovedThenChanged(m: Tcbs, qu: Queue, q: seq<Tid>, t: Tid)
    requires IsQueue(m, qu, q) && t in q
    ensures var n, r := RemovedTcbs(m, t), Without(q, t);
            && IsQueue(n, RemoveQueue(m, qu, t), r) && n.Keys == m.Keys && t in m
            && (forall u :: u in r <==> u in q && u != t)
            && Get(n, t).state == Inactive && Get(n, t).blockingObject == None && Get(n, t).caller == Get(m, t).caller
            && Get(n, t).regs == Get(m, t).regs && Get(n, t).epNext == None && Get(n, t).epPrev == None
            && (forall u :: u in m && u != t ==> SameButLinks(Get(m, u), Get(n, u)))
            && (forall u :: u in m && u !in q ==> Get(n, u) == Get(m, u))
  {
    RemoveWithout(m, qu, q, t);
    var m1, r := RemoveTcbs(m, t), Without(q, t);
    MembersAreBlocks(m1, RemoveQueue(m, qu, t), r);
    QueueFrame(m1, RemovedTcbs(m, t), RemoveQueue(m, qu, t), r);
  }

  lemma WithoutMembers(q: seq<Tid>, k: nat, u: Tid)
    requires Distinct(q) && k < |q|
    ensures u in q[..k] + q[k + 1..] <==> u in q && u != q[k]
  {
    DistinctWithout(q, k);
    assert q == q[..k] + [q[k]] + q[k + 1..];
  }

  lemma MembersAreBlocks(m: Tcbs, qu: Queue, q: seq<Tid>)
    requires IsQueue(m, qu, q)
    ensures forall t :: t in q ==> t in m
  {
    forall t | t in q ensures t in m {
      var i :| 0 <= i < |q| && q[i] == t;
      assert LinkAt(m, q, i);
    }
  }

  /** A thread waiting on an endpoint is taken off its queue. */
  lemma CancelQueuedKeeps(s: Sys, t: Tid, e: Eid)
    requires Mid(s) && e in s.k.eps && e in s.q && t in s.q[e]
    ensures Mid(Sys(CancelQueued(s.k, t), s.q[e := Without(s.q[e], t)]))
  {
    CancelQueuedLeaves(s, t, e);
    var r := Sys(CancelQueued(s.k, t), s.q[e := Without(s.q[e], t)]);
    assert StateOk(s, e);
    LeftKeeps(s, r, e, t, s.k.idle.value);
    SettledState(s, r, e);
  }

  /** A thread waiting for a reply stops waiting, and its callee forgets it. */
  lemma CancelReplyKeeps(s: Sys, t: Tid)
    requires Mid(s) && t in s.k.tcbs && Block(s, t).state == BlockedOnReply
    ensures Mid(Sys(CancelIpc(s.k, t), s.q))
  {
    assert ThreadOk(s, t);
    var callee := Block(s, t).replyTo.value;
    var c := Block(s, callee).(caller := None);
    var d := s.(k := s.k.(tcbs := s.k.tcbs[callee := c]));
    ForgetCaller(s, callee);
    forall x | x in d.k.tcbs ensures Block(d, x).caller != Some(t) { assert CallerOk(s, x); }
    forall x | x in d.k.ready ensures x.tcb != t { assert ReadyOk(d, x); }
    ChangeOne(d, t, Block(d, t).(replyTo := None, state := Inactive));
    SameStates(s, Sys(CancelIpc(s.k, t), s.q));
  }

  lemma ForgetCaller(s: Sys, x: Tid)
    requires Core(s) && x in s.k.tcbs
    ensures Core(s.(k := s.k.(tcbs := s.k.tcbs[x := Block(s, x).(caller := None)])))
  {
    var b := Block(s, x).(caller := None);
    var r := s.(k := s.k.(tcbs := s.k.tcbs[x := b]));
    forall e | e in r.k.eps ensures QueueOk(r, e) {
      assert QueueOk(s, e);
      MembersAreBlocks(s.k.tcbs, s.k.eps[e].queue, s.q[e]);
      QueueFrame(s.k.tcbs, r.k.tcbs, s.k.eps[e].queue, s.q[e]);
    }
    forall u | u in r.k.tcbs ensures ThreadOk(r, u) { assert ThreadOk(s, u); }
    forall u | u in r.k.tcbs ensures CallerOk(r, u) { assert CallerOk(s, u); }
    forall y | y in r.k.ready ensures ReadyOk(r, y) { assert ReadyOk(s, y); }
  }

  /** `cancel_ipc` on any thread in any state. */
  lemma CancelIpcKeeps(s: Sys, t: Tid)
    requires Inv(s) && t in s.k.tcbs
    ensures Inv(Cancelled(s, t))
  {
    var b := Block(s, t);
    assert ThreadOk(s, t);
    match b.state
    case BlockedOnSend => CancelRunning(s, t);
    case BlockedOnReceive => CancelRunning(s, t);
    case BlockedOnReply =>
      CancelReplyKeeps(s, t);
    case BlockedOnNotification =>
      forall x | x in s.k.ready ensures x.tcb != t { assert ReadyOk(s, x); }
      StateKeeps(s, t, Inactive);
    case _ =>
  }

  lemma CancelRunning(s: Sys, t: Tid)
    requires Inv(s) && t in s.k.tcbs && IsQueuedState(Block(s, t).state)
    ensures Inv(Cancelled(s, t))
  {
    assert ThreadOk(s, t);
    var e := Block(s, t).blockingObject.value;
    CancelQueuedLeaves(s, t, e);
    CancelQueuedKeeps(s, t, e);
    var r := Sys(CancelQueued(s.k, t), s.q[e := Without(s.q[e], t)]);
    if s.k.current.Some? {
      var c := s.k.current.value.tcb;
      if c != s.k.idle.value { assert SameButLinks(Block(s, c), Block(r, c)); }
    }
  }

  /** A cancelled thread waits for nothing, is on no queue, and nobody records it as its caller. */
  lemma CancelIpcFrees(s: Sys, t: Tid)
    requires Inv(s) && t in s.k.tcbs && IsBlocked(Block(s, t).state)
    ensures var r := Cancelled(s, t);
            && Block(r, t).state == Inactive
            && (forall e :: e in r.k.eps && e in r.q ==> t !in r.q[e])
            && (forall x :: x in r.k.tcbs ==> Block(r, x).caller != Some(t))
            && (IsQueuedState(Block(s, t).state) ==> Block(r, t).blockingObject == None)
            && (Block(s, t).state == BlockedOnReply ==> Block(r, t).replyTo == None)
  {
    var r := Cancelled(s, t);
    CancelIpcKeeps(s, t);
    assert ThreadOk(s, t);
    if IsQueuedState(Block(s, t).state) { CancelQueuedLeaves(s, t, Block(s, t).blockingObject.value); }
    forall e | e in r.k.eps && e in r.q ensures t !in r.q[e] {
      if t in r.q[e] { QueuedIsWaiting(r, e, t); }
    }
    forall x | x in r.k.tcbs ensures Block(r, x).caller != Some(t) { assert CallerOk(r, x); }
  }

  // ----- cancel_all_ipc -----

  /** Everything but the endpoint `e` and the threads on its queue is as it was. */
  ghost predicate Spared(s: Sys, r: Sys, e: Eid) {
    && e in s.k.eps && e in s.q
    && r.k.tcbs.Keys == s.k.tcbs.Keys && r.k.eps.Keys == s.k.eps.Keys && r.q.Keys == s.q.Keys
    && (forall f :: f in s.k.eps && f != e ==> r.k.eps[f] == s.k.eps[f])
    && (forall f :: f in s.q && f != e ==> r.q[f] == s.q[f])
    && (forall u :: u in s.k.tcbs && u !in s.q[e] ==> Block(r, u) == Block(s, u))
    && (forall u :: u in s.k.tcbs ==>
         && Block(r, u).regs == Block(s, u).regs && Block(r, u).ipc == Block(s, u).ipc
         && Block(r, u).caller == Block(s, u).caller)
    && (forall x :: x in r.k.ready ==> x in s.k.ready || x.tcb in s.q[e])
    && r.k.current == s.k.current && r.k.idle == s.k.idle && s.k.ready <= r.k.ready
    && (forall u :: u in r.q[e] ==> u in s.q[e])
  }

  lemma SparedTransitive(a: Sys, b: Sys, c: Sys, e: Eid)
    requires Spared(a, b, e) && Spared(b, c, e)
    ensures Spared(a, c, e)
  {}

  /** A freshly unqueued thread joins the heap if there is room. */
  lemma EnqueueKeeps(s: Sys, t: Tid)
    requires Core(s) && t in s.k.tcbs && !Readied(s.k.ready, t) && (s.k.current.Some? ==> s.k.current.value.tcb != t)
    ensures Core(Sys(Enqueue(s.k, t).0, s.q))
  {
    if Block(s, t).state == Inactive && |s.k.ready| < CAPACITY {
      PushKeeps(s, Entry(DeadlineOf(s.k.tcbs, t), t));
    }
  }

  /** The head taken off its queue, before it is offered to the heap. */
  function Unqueued(k: Kernel, e: Eid, h: Tid): (r: Kernel)
    requires e in k.eps
  {
    var qu := k.eps[e].queue;
    var m := DequeueTcbs(k.tcbs, qu);
    k.(tcbs := m[h := Get(m, h).(state := Inactive, blockingObject := None)],
       eps := k.eps[e := Endpoint(k.eps[e].state, DequeueQueue(k.tcbs, qu))])
  }

  /** Taking a thread off a queue spares everything else. */
  lemma LeftSpares(s: Sys, r: Sys, e: Eid, h: Tid, a: Tid)
    requires Left(s, r, e, h, a) && Block(r, a) == Block(s, a)
    requires Block(r, h).regs == Block(s, h).regs && Block(r, h).ipc == Block(s, h).ipc
    requires Block(r, h).caller == Block(s, h).caller
    ensures Spared(s, r, e)
  {
    forall u | u in s.k.tcbs
      ensures Block(r, u).regs == Block(s, u).regs && Block(r, u).ipc == Block(s, u).ipc
      ensures Block(r, u).caller == Block(s, u).caller
    {
      if u != h && u != a { assert SameButLinks(Block(s, u), Block(r, u)); }
    }
  }

  /** No longer waiting for anything, and on no queue. */
  predicate Freed(b: Tcb) { b.state == Inactive && b.blockingObject == None && b.epNext == None && b.epPrev == None }

  lemma UnqueuedLeft(s: Sys, e: Eid)
    requires Core(s) && e in s.k.eps && e in s.q && s.q[e] != []
    ensures var h, idle := s.q[e][0], s.k.idle.value;
            var r := Popped(s, Unqueued(s.k, e, h), e);
            && h in s.k.tcbs && Left(s, r, e, h, idle) && Block(r, idle) == Block(s, idle)
            && Block(r, h) == Block(s, h).(state := Inactive, blockingObject := None, epNext := None, epPrev := None)
            && r.k.eps[e].state == s.k.eps[e].state
  {
    var h, idle := s.q[e][0], s.k.idle.value;
    QueuedIsWaiting(s, e, h);
    if idle in s.q[e] { QueuedIsWaiting(s, e, idle); }
    DequeuedBlocks(s, e, idle);
    PoppedLeft(s, Unqueued(s.k, e, h), e, idle);
  }

  lemma UnqueuedKeeps(s: Sys, e: Eid)
    requires Core(s) && e in s.k.eps && e in s.q && s.q[e] != []
    ensures var h := s.q[e][0];
            var r := Popped(s, Unqueued(s.k, e, h), e);
            h in s.k.tcbs && Core(r) && Spared(s, r, e) && Freed(Block(r, h)) && r.k.eps[e].state == s.k.eps[e].state
  {
    var h, idle := s.q[e][0], s.k.idle.value;
    var r := Popped(s, Unqueued(s.k, e, h), e);
    UnqueuedLeft(s, e);
    LeftSpares(s, r, e, h, idle);
    LeftKeeps(s, r, e, h, idle);
  }

  lemma RestartHeadIs(s: Sys, e: Eid)
    requires Core(s) && e in s.k.eps && e in s.q && s.q[e] != []
    ensures RestartHead(s.k, e) == Enqueue(Unqueued(s.k, e, s.q[e][0]), s.q[e][0]).0
    ensures !Readied(s.k.ready, s.q[e][0])
  {
    assert QueueOk(s, e);
    QueuedIsWaiting(s, e, s.q[e][0]);
    forall x | x in s.k.ready ensures x.tcb != s.q[e][0] { assert ReadyOk(s, x); }
  }

  /** One turn of the loop. */
  lemma RestartHeadKeeps(s: Sys, e: Eid)
    requires Core(s) && e in s.k.eps && e in s.q && s.q[e] != []
    requires (s.k.current.Some? ==> s.k.current.value.tcb !in s.q[e])
    ensures var r := Popped(s, RestartHead(s.k, e), e);
            && Core(r) && Spared(s, r, e) && Freed(Block(r, s.q[e][0]))
            && (Readied(r.k.ready, s.q[e][0]) <==> |s.k.ready| < CAPACITY) && |r.k.ready| == Took(s.k.ready)
  {
    var h := s.q[e][0];
    var d := Popped(s, Unqueued(s.k, e, h), e);
    UnqueuedKeeps(s, e);
    RestartHeadIs(s, e);
    EnqueueKeeps(d, h);
    EnqueueSpares(s, d, e, h);
    EnqueueEnters(d.k, h);
  }

  function Took(h: multiset<Entry>): (n: nat) { if |h| < CAPACITY then |h| + 1 else |h| }

  /** One more in the heap, or refused for want of room. */
  lemma EnqueueEnters(k: Kernel, t: Tid)
    requires Get(k.tcbs, t).state == Inactive && !Readied(k.ready, t)
    ensures Readied(Enqueue(k, t).0.ready, t) <==> |k.ready| < CAPACITY
    ensures |Enqueue(k, t).0.ready| == Took(k.ready)
  {
    if |k.ready| < CAPACITY { assert Entry(DeadlineOf(k.tcbs, t), t) in Enqueue(k, t).0.ready; }
  }

  lemma EnqueueSpares(s: Sys, d: Sys, e: Eid, h: Tid)
    requires Spared(s, d, e) && h in s.q[e]
    ensures Spared(s, Sys(Enqueue(d.k, h).0, d.q), e) && Enqueue(d.k, h).0.tcbs == d.k.tcbs
  {}

  ghost predicate AllFreed(ts: seq<Tid>, r: Sys) { forall u :: u in ts ==> Freed(Block(r, u)) }

  /** The threads of `ts` were offered to the heap in their order, and entered it while it had room. */
  ghost predicate InOrder(before: multiset<Entry>, after: multiset<Entry>, ts: seq<Tid>) {
    forall i :: 0 <= i < |ts| ==> (Readied(after, ts[i]) <==> |before| + i < CAPACITY)
  }

  /** What emptying the queue of `e` comes to. */
  ghost predicate Drained(s: Sys, r: Sys, e: Eid) {
    Spared(s, r, e) && AllFreed(s.q[e], r) && InOrder(s.k.ready, r.k.ready, s.q[e]) && r.q == s.q[e := []]
  }

  lemma DrainedNothing(s: Sys, e: Eid)
    requires e in s.k.eps && e in s.q && s.q[e] == []
    ensures Drained(s, s, e)
  {
    assert s.q[e := []] == s.q;
  }

  lemma Overwrite(q: map<Eid, seq<Tid>>, e: Eid, v: seq<Tid>)
    ensures q[e := v][e := []] == q[e := []]
  {}

  lemma DrainedOneMore(s: Sys, d: Sys, r: Sys, e: Eid)
    requires e in s.q && s.q[e] != [] && Distinct(s.q[e]) && d.q == s.q[e := s.q[e][1..]]
    requires Spared(s, d, e) && Freed(Block(d, s.q[e][0])) && s.q[e][0] in d.k.tcbs && |s.k.ready| <= CAPACITY
    requires (Readied(d.k.ready, s.q[e][0]) <==> |s.k.ready| < CAPACITY) && |d.k.ready| == Took(s.k.ready)
    requires Drained(d, r, e)
    ensures Drained(s, r, e)
  {
    FirstFreed(s, d, r, e);
    FirstInOrder(s, d, r, e);
    SparedTransitive(s, d, r, e);
    Overwrite(s.q, e, s.q[e][1..]);
  }

  lemma FirstInOrder(s: Sys, d: Sys, r: Sys, e: Eid)
    requires e in s.q && s.q[e] != [] && Distinct(s.q[e]) && |s.k.ready| <= CAPACITY && |d.k.ready| == Took(s.k.ready)
    requires Spared(d, r, e) && d.q[e] == s.q[e][1..] && InOrder(d.k.ready, r.k.ready, d.q[e])
    requires Readied(d.k.ready, s.q[e][0]) <==> |s.k.ready| < CAPACITY
    ensures InOrder(s.k.ready, r.k.ready, s.q[e])
  {
    var q := s.q[e];
    assert q[0] !in q[1..];
    assert Readied(r.k.ready, q[0]) <==> Readied(d.k.ready, q[0]);
    forall i | 0 <= i < |q| ensures Readied(r.k.ready, q[i]) <==> |s.k.ready| + i < CAPACITY {
      if i > 0 { assert q[i] == d.q[e][i - 1]; }
    }
  }

  lemma DrainReady(s: Sys, d: Sys, e: Eid)
    requires Core(s) && e in s.k.eps && e in s.q && s.q[e] != [] && d.q == s.q[e := s.q[e][1..]] && Spared(s, d, e)
    requires s.k.current.Some? ==> s.k.current.value.tcb !in s.q[e]
    ensures Distinct(s.q[e]) && s.q[e][0] in d.k.tcbs && e in d.k.eps
    ensures d.k.current.Some? ==> d.k.current.value.tcb !in d.q[e]
  {
    assert QueueOk(s, e);
    QueuedIsWaiting(s, e, s.q[e][0]);
  }

  /** The whole loop: the queue is emptied and everyone on it is freed. */
  lemma {:induction false} DrainKeeps(s: Sys, e: Eid, n: nat)
    requires Core(s) && e in s.k.eps && e in s.q && n == |s.q[e]|
    requires s.k.current.Some? ==> s.k.current.value.tcb !in s.q[e]
    ensures var r := Sys(Drain(s.k, e, n), s.q[e := []]); Core(r) && Drained(s, r, e)
    decreases n
  {
    if n == 0 {
      DrainedNothing(s, e);
      assert s.q[e := []] == s.q;
    } else {
      var d := Popped(s, RestartHead(s.k, e), e);
      RestartHeadKeeps(s, e);
      DrainReady(s, d, e);
      DrainKeeps(d, e, n - 1);
      Overwrite(s.q, e, s.q[e][1..]);
      DrainedOneMore(s, d, Sys(Drain(s.k, e, n), s.q[e := []]), e);
    }
  }

  lemma FirstFreed(s: Sys, d: Sys, r: Sys, e: Eid)
    requires e in s.q && s.q[e] != [] && Distinct(s.q[e]) && s.q[e][0] in d.k.tcbs
    requires Spared(d, r, e) && d.q[e] == s.q[e][1..] && Freed(Block(d, s.q[e][0])) && AllFreed(d.q[e], r)
    ensures AllFreed(s.q[e], r)
  {
    assert forall u :: u in s.q[e] <==> u == s.q[e][0] || u in s.q[e][1..];
  }

  /** The system after `cancel_all_ipc`. */
  function CancelledAll(s: Sys, e: Eid): (r: Sys)
    requires e in s.q
  {
    Sys(CancelAllIpc(s.k, e, |s.q[e]|), s.q[e := []])
  }

  /** `cancel_all_ipc` empties the endpoint and frees every thread that waited on it. */
  lemma CancelAllKeeps(s: Sys, e: Eid)
    requires Inv(s) && e in s.k.eps
    ensures e in s.q && Inv(CancelledAll(s, e)) && Drained(s, CancelledAll(s, e), e)
    ensures CancelledAll(s, e).k.eps[e] == Endpoint(EpIdle, EMPTY_QUEUE)
  {
    assert QueueOk(s, e) && StateOk(s, e);
    if s.q[e] == [] {
      DrainedNothing(s, e);
      assert s.q[e := []] == s.q;
    } else {
      if s.k.current.Some? && s.k.current.value.tcb in s.q[e] { QueuedIsWaiting(s, e, s.k.current.value.tcb); }
      var d := Sys(Drain(s.k, e, |s.q[e]|), s.q[e := []]);
      DrainKeeps(s, e, |s.q[e]|);
      DrainedThenIdle(s, d, e);
    }
  }

  lemma DrainedThenIdle(s: Sys, d: Sys, e: Eid)
    requires Inv(s) && e in s.k.eps && Core(d) && Drained(s, d, e)
    requires s.k.current.Some? ==> s.k.current.value.tcb !in s.q[e]
    ensures var r := d.(k := d.k.(eps := d.k.eps[e := d.k.eps[e].(state := EpIdle)]));
            Inv(r) && Drained(s, r, e) && r.k.eps[e] == Endpoint(EpIdle, EMPTY_QUEUE)
  {
    var r := d.(k := d.k.(eps := d.k.eps[e := d.k.eps[e].(state := EpIdle)]));
    assert QueueOk(d, e);
    SetIdleKeeps(d, e);
    SettledState(s, r, e);
  }

  lemma SetIdleKeeps(s: Sys, e: Eid)
    requires Core(s) && e in s.k.eps && e in s.q && s.q[e] == []
    ensures Core(s.(k := s.k.(eps := s.k.eps[e := s.k.eps[e].(state := EpIdle)])))
  {
    var r := s.(k := s.k.(eps := s.k.eps[e := s.k.eps[e].(state := EpIdle)]));
    forall f | f in r.k.eps ensures QueueOk(r, f) { assert QueueOk(s, f); }
    forall t | t in r.k.tcbs ensures ThreadOk(r, t) { assert ThreadOk(s, t); }
    forall x | x in r.k.tcbs ensures CallerOk(r, x) { assert CallerOk(s, x); }
    forall x | x in r.k.ready ensures ReadyOk(r, x) { assert ReadyOk(s, x); }
  }
}
