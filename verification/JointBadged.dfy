/** Cancelling every queued sender that carries a given badge. */
module JointBadged {
  import opened Sequences
  import opened Wrappers
  import opened Threads
  import opened Scheduler
  import opened Ipc
  import opened Joint
  import opened JointSteps
  import opened JointCancel

  predicate Hit(m: Tcbs, t: Tid, badge: nat) { Get(m, t).ipc.badge == badge }

  /** The senders with another badge, in their order. */
  function Kept(m: Tcbs, ts: seq<Tid>, badge: nat): (r: seq<Tid>)
    decreases |ts|
  {
    if ts == [] then []
    else
      var front, t := Kept(m, ts[..|ts| - 1], badge), ts[|ts| - 1];
      if Hit(m, t, badge) then front else front + [t]
  }

  lemma {:induction false} KeptMembers(m: Tcbs, ts: seq<Tid>, badge: nat, u: Tid)
    ensures u in Kept(m, ts, badge) <==> u in ts && !Hit(m, u, badge)
    decreases |ts|
  {
    if ts != [] {
      var n := |ts| - 1;
      KeptMembers(m, ts[..n], badge, u);
      assert u in ts <==> u in ts[..n] || u == ts[n];
    }
  }

  /** The heap's part of the invariant. */
  ghost predicate HeapOk(k: Kernel) {
    && (forall x :: x in k.ready ==> x.tcb in k.tcbs && Get(k.tcbs, x.tcb).state == Inactive && k.ready[x] == 1)
    && PlacedOnce(k) && |k.ready| <= CAPACITY
  }

  function FreedBlock(b: Tcb): (r: Tcb)
    ensures Freed(r)
  {
    b.(state := Inactive, blockingObject := None, epNext := None, epPrev := None)
  }

  /** What the walk over `ts` has made of thread `u`. */
  predicate SweptThread(k: Kernel, r: Kernel, ts: seq<Tid>, badge: nat, u: Tid) {
    if u !in ts then Get(r.tcbs, u) == Get(k.tcbs, u)
    else if Hit(k.tcbs, u, badge) then Get(r.tcbs, u) == FreedBlock(Get(k.tcbs, u))
    else SameButLinks(Get(k.tcbs, u), Get(r.tcbs, u))
  }

  /** The senders with the badge, in their order. */
  function Hits(m: Tcbs, ts: seq<Tid>, badge: nat): (r: seq<Tid>)
    decreases |ts|
  {
    if ts == [] then []
    else
      var front, t := Hits(m, ts[..|ts| - 1], badge), ts[|ts| - 1];
      if Hit(m, t, badge) then front + [t] else front
  }

  lemma {:induction false} HitsMembers(m: Tcbs, ts: seq<Tid>, badge: nat, u: Tid)
    ensures u in Hits(m, ts, badge) <==> u in ts && Hit(m, u, badge)
    decreases |ts|
  {
    if ts != [] {
      var n := |ts| - 1;
      HitsMembers(m, ts[..n], badge, u);
      assert u in ts <==> u in ts[..n] || u == ts[n];
    }
  }

  lemma {:induction false} HitsDistinct(m: Tcbs, ts: seq<Tid>, badge: nat)
    requires Distinct(ts)
    ensures Distinct(Hits(m, ts, badge))
    decreases |ts|
  {
    if ts != [] {
      var n := |ts| - 1;
      HitsDistinct(m, ts[..n], badge);
      HitsMembers(m, ts[..n], badge, ts[n]);
    }
  }

  /** The heap took the threads of `ts` in order while it had room. */
  ghost predicate Offered(before: multiset<Entry>, after: multiset<Entry>, ts: seq<Tid>) {
    && |before| <= CAPACITY
    && |after| == (if |before| + |ts| < CAPACITY then |before| + |ts| else CAPACITY)
    && InOrder(before, after, ts)
  }

  lemma OfferedOneMore(h: multiset<Entry>, w: multiset<Entry>, r: multiset<Entry>, ts: seq<Tid>, t: Tid)
    requires Offered(h, w, ts) && t !in ts && w <= r && forall x :: x in r ==> x in w || x.tcb == t
    requires (Readied(r, t) <==> |w| < CAPACITY) && |r| == Took(w)
    ensures Offered(h, r, ts + [t])
  {
    forall i | 0 <= i < |ts| ensures Readied(r, ts[i]) <==> Readied(w, ts[i]) { assert ts[i] != t; }
  }

  /** The walk has seen `ts`: exactly the senders with the badge were offered to the heap. */
  ghost predicate SweptHeap(k: Kernel, r: Kernel, ts: seq<Tid>, badge: nat) {
    && HeapOk(r) && k.ready <= r.ready && Offered(k.ready, r.ready, Hits(k.tcbs, ts, badge))
    && forall x :: x in r.ready ==> x in k.ready || x.tcb in ts
  }

  /** The new queue lists the kept senders, and the others are freed. */
  ghost predicate Swept(k: Kernel, w: Sweep, ts: seq<Tid>, badge: nat) {
    && IsQueue(w.k.tcbs, w.queue, Kept(k.tcbs, ts, badge)) && SweptHeap(k, w.k, ts, badge)
    && w.k == k.(tcbs := w.k.tcbs, ready := w.k.ready) && w.k.tcbs.Keys == k.tcbs.Keys
    && forall u {:trigger SweptThread(k, w.k, ts, badge, u)} :: u in k.tcbs ==> SweptThread(k, w.k, ts, badge, u)
  }

  lemma HeapAfterHit(k: Kernel, w: Kernel, r: Kernel, ts: seq<Tid>, badge: nat, t: Tid)
    requires SweptHeap(k, w, ts, badge) && t !in ts && Hit(k.tcbs, t, badge) && HeapOk(r) && w.ready <= r.ready
    requires (Readied(r.ready, t) <==> |w.ready| < CAPACITY) && |r.ready| == Took(w.ready)
    requires forall x :: x in r.ready ==> x in w.ready || x.tcb == t
    ensures SweptHeap(k, r, ts + [t], badge)
  {
    assert (ts + [t])[..|ts|] == ts;
    HitsMembers(k.tcbs, ts, badge, t);
    OfferedOneMore(k.ready, w.ready, r.ready, Hits(k.tcbs, ts, badge), t);
  }

  lemma HeapAfterKeep(k: Kernel, w: Kernel, r: Kernel, ts: seq<Tid>, badge: nat, t: Tid)
    requires SweptHeap(k, w, ts, badge) && !Hit(k.tcbs, t, badge)
    requires r == w.(tcbs := r.tcbs) && r.tcbs.Keys == w.tcbs.Keys
    requires forall u :: u in w.tcbs ==> SameButLinks(Get(w.tcbs, u), Get(r.tcbs, u))
    ensures SweptHeap(k, r, ts + [t], badge)
  {
    assert (ts + [t])[..|ts|] == ts;
    SameStatesHeap(w, r);
  }

  /** A thread that was not ready becomes Inactive and, if there is room, ready. */
  lemma FreeKeepsHeap(k: Kernel, t: Tid, b: Tcb)
    requires HeapOk(k) && t in k.tcbs && Get(k.tcbs, t).state != Inactive && Freed(b)
    requires k.current.Some? ==> k.current.value.tcb != t
    ensures var r := Enqueue(k.(tcbs := k.tcbs[t := b]), t).0;
            HeapOk(r) && r == k.(tcbs := k.tcbs[t := b], ready := r.ready) && k.ready <= r.ready
            && forall x :: x in r.ready ==> x in k.ready || x.tcb == t
  {
    var r := Enqueue(k.(tcbs := k.tcbs[t := b]), t).0;
    forall x | x in r.ready ensures x.tcb in r.tcbs && Get(r.tcbs, x.tcb).state == Inactive && r.ready[x] == 1 {
      assert x in k.ready || x.tcb == t;
    }
  }

  lemma SweptHit(k: Kernel, w: Sweep, ts: seq<Tid>, badge: nat, t: Tid)
    requires Swept(k, w, ts, badge) && t in k.tcbs && t !in ts && Hit(k.tcbs, t, badge)
    requires Get(k.tcbs, t).state == BlockedOnSend && (k.current.Some? ==> k.current.value.tcb != t)
    ensures Swept(k, SweepOne(w, t, badge), ts + [t], badge)
  {
    var b := FreedBlock(Get(k.tcbs, t));
    assert SweptThread(k, w.k, ts, badge, t);
    SweepHitIs(w, t, badge, b);
    FreeKeepsHeap(w.k, t, b);
    EnqueueEnters(w.k.(tcbs := w.k.tcbs[t := b]), t);
    SweptFreed(k, w, ts, badge, t, SweepOne(w, t, badge).k);
  }

  lemma SweptFreed(k: Kernel, w: Sweep, ts: seq<Tid>, badge: nat, t: Tid, r: Kernel)
    requires Swept(k, w, ts, badge) && t in k.tcbs && t !in ts && Hit(k.tcbs, t, badge)
    requires r == w.k.(tcbs := w.k.tcbs[t := FreedBlock(Get(k.tcbs, t))], ready := r.ready)
    requires HeapOk(r) && w.k.ready <= r.ready
    requires (Readied(r.ready, t) <==> |w.k.ready| < CAPACITY) && |r.ready| == Took(w.k.ready)
    requires forall x :: x in r.ready ==> x in w.k.ready || x.tcb == t
    ensures Swept(k, Sweep(r, w.queue), ts + [t], badge)
  {
    var all, q := ts + [t], Kept(k.tcbs, ts, badge);
    assert all[..|all| - 1] == ts;
    HeapAfterHit(k, w.k, r, ts, badge, t);
    KeptMembers(k.tcbs, ts, badge, t);
    MembersAreBlocks(w.k.tcbs, w.queue, q);
    QueueFrame(w.k.tcbs, r.tcbs, w.queue, q);
    forall u | u in k.tcbs ensures SweptThread(k, r, all, badge, u) { assert SweptThread(k, w.k, ts, badge, u); }
  }

  lemma SweepHitIs(w: Sweep, t: Tid, badge: nat, b: Tcb)
    requires t in w.k.tcbs && Hit(w.k.tcbs, t, badge) && b == FreedBlock(Get(w.k.tcbs, t))
    ensures SweepOne(w, t, badge) == Sweep(Enqueue(w.k.(tcbs := w.k.tcbs[t := b]), t).0, w.queue)
  {
    var m := w.k.tcbs[t := Get(w.k.tcbs, t).(epNext := None, epPrev := None)];
    assert m[t := Get(m, t).(state := Inactive, blockingObject := None)] == w.k.tcbs[t := b];
  }

  lemma SweptKeep(k: Kernel, w: Sweep, ts: seq<Tid>, badge: nat, t: Tid)
    requires Swept(k, w, ts, badge) && t in k.tcbs && t !in ts && !Hit(k.tcbs, t, badge)
    ensures Swept(k, SweepOne(w, t, badge), ts + [t], badge)
  {
    var r, all, q := SweepOne(w, t, badge), ts + [t], Kept(k.tcbs, ts, badge);
    assert all[..|all| - 1] == ts;
    assert SweptThread(k, w.k, ts, badge, t);
    KeptMembers(k.tcbs, ts, badge, t);
    AppendIs(w.k.tcbs, w.queue, q, t);
    forall u | u in k.tcbs ensures SweptThread(k, r.k, all, badge, u) {
      assert SweptThread(k, w.k, ts, badge, u);
      KeptMembers(k.tcbs, ts, badge, u);
    }
    HeapAfterKeep(k, w.k, r.k, ts, badge, t);
  }

  lemma SameStatesHeap(k: Kernel, r: Kernel)
    requires HeapOk(k) && r == k.(tcbs := r.tcbs) && r.tcbs.Keys == k.tcbs.Keys
    requires forall u :: u in k.tcbs ==> SameButLinks(Get(k.tcbs, u), Get(r.tcbs, u))
    ensures HeapOk(r)
  {}

  /** Everyone on the list can be cancelled. */
  ghost predicate Cancellable(k: Kernel, ts: seq<Tid>) {
    && Distinct(ts)
    && (forall t :: t in ts ==> t in k.tcbs && Get(k.tcbs, t).state == BlockedOnSend)
    && (k.current.Some? ==> k.current.value.tcb !in ts)
  }

  lemma SweptNothing(k: Kernel, badge: nat)
    requires HeapOk(k)
    ensures Swept(k, Sweep(k, EMPTY_QUEUE), [], badge)
  {
    forall u | u in k.tcbs ensures SweptThread(k, k, [], badge, u) {}
  }

  lemma CancellableFront(k: Kernel, ts: seq<Tid>, n: nat)
    requires Cancellable(k, ts) && n < |ts|
    ensures Cancellable(k, ts[..n]) && ts[n] !in ts[..n] && ts[n] in k.tcbs && Get(k.tcbs, ts[n]).state == BlockedOnSend
    ensures k.current.Some? ==> k.current.value.tcb != ts[n]
  {}

  /** The walk over a whole queue. */
  lemma {:induction false} SweepIs(k: Kernel, ts: seq<Tid>, badge: nat)
    requires HeapOk(k) && Cancellable(k, ts)
    ensures Swept(k, SweepAll(Sweep(k, EMPTY_QUEUE), ts, badge), ts, badge)
    decreases |ts|
  {
    if ts == [] {
      SweptNothing(k, badge);
    } else {
      var n := |ts| - 1;
      CancellableFront(k, ts, n);
      SweepIs(k, ts[..n], badge);
      assert ts[..n] + [ts[n]] == ts;
      var w := SweepAll(Sweep(k, EMPTY_QUEUE), ts[..n], badge);
      assert SweptThread(k, w.k, ts[..n], badge, ts[n]);
      if Hit(k.tcbs, ts[n], badge) {
        SweptHit(k, w, ts[..n], badge, ts[n]);
      } else {
        SweptKeep(k, w, ts[..n], badge, ts[n]);
      }
    }
  }

  // ----- the endpoint afterwards -----

  /** The system after `cancel_badged_sends`. */
  function CancelledBadged(s: Sys, e: Eid, badge: nat): (r: Sys)
    requires e in s.q
  {
    Sys(CancelBadgedSends(s.k, e, s.q[e], badge),
        if EpOf(s.k, e).state == EpSend then s.q[e := Kept(s.k.tcbs, s.q[e], badge)] else s.q)
  }

  /** What cancelling by badge comes to. */
  ghost predicate Sifted(s: Sys, r: Sys, e: Eid, badge: nat) {
    && e in s.k.eps && e in s.q && e in r.k.eps && r.q == s.q[e := Kept(s.k.tcbs, s.q[e], badge)]
    && r.k.eps == s.k.eps[e := Settle(EpSend, r.k.eps[e].queue)]
    && Swept(s.k, Sweep(r.k.(eps := s.k.eps), r.k.eps[e].queue), s.q[e], badge)
  }

  lemma SiftedThread(s: Sys, r: Sys, e: Eid, badge: nat, u: Tid)
    requires Sifted(s, r, e, badge) && u in s.k.tcbs
    ensures u in r.k.tcbs && SweptThread(s.k, r.k, s.q[e], badge, u)
  {
    assert SweptThread(s.k, r.k.(eps := s.k.eps), s.q[e], badge, u);
  }

  lemma SiftedQueue(s: Sys, r: Sys, e: Eid, badge: nat, f: Eid)
    requires Core(s) && Sifted(s, r, e, badge) && s.k.eps[e].state == EpSend && f in r.k.eps
    ensures QueueOk(r, f)
  {
    assert QueueOk(s, f);
    if f == e {
      var q := r.q[e];
      forall u | u in q ensures WaitsOn(Block(r, u), e, r.k.eps[e].state) {
        KeptMembers(s.k.tcbs, s.q[e], badge, u);
        QueuedIsWaiting(s, e, u);
        SiftedThread(s, r, e, badge, u);
      }
    } else {
      forall u | u in s.q[f] ensures u in r.k.tcbs && Block(r, u) == Block(s, u) {
        QueuedIsWaiting(s, f, u);
        if u in s.q[e] { QueuesApart(s, e, f, u); }
        SiftedThread(s, r, e, badge, u);
      }
      OtherQueue(s, r, f);
    }
  }

  lemma SiftedWaits(s: Sys, r: Sys, e: Eid, badge: nat, u: Tid)
    requires Core(s) && Sifted(s, r, e, badge) && u in r.k.tcbs
    ensures ThreadOk(r, u)
  {
    assert ThreadOk(s, u);
    SiftedThread(s, r, e, badge, u);
    KeptMembers(s.k.tcbs, s.q[e], badge, u);
  }

  lemma SiftedCaller(s: Sys, r: Sys, e: Eid, badge: nat, x: Tid)
    requires Core(s) && Sifted(s, r, e, badge) && x in r.k.tcbs
    ensures CallerOk(r, x)
  {
    assert CallerOk(s, x);
    SiftedThread(s, r, e, badge, x);
    var y := Block(s, x).caller;
    if y.Some? {
      if y.value in s.q[e] { QueuedIsWaiting(s, e, y.value); }
      SiftedThread(s, r, e, badge, y.value);
    }
  }

  lemma SiftedKeeps(s: Sys, r: Sys, e: Eid, badge: nat)
    requires Core(s) && Sifted(s, r, e, badge) && s.k.eps[e].state == EpSend
    ensures Core(r)
  {
    forall f | f in r.k.eps ensures QueueOk(r, f) { SiftedQueue(s, r, e, badge, f); }
    forall u | u in r.k.tcbs ensures ThreadOk(r, u) { SiftedWaits(s, r, e, badge, u); }
    forall x | x in r.k.tcbs ensures CallerOk(r, x) { SiftedCaller(s, r, e, badge, x); }
    var idle := s.k.idle.value;
    SiftedThread(s, r, e, badge, idle);
    if idle in s.q[e] { QueuedIsWaiting(s, e, idle); }
  }

  lemma QueueIsCancellable(s: Sys, e: Eid)
    requires Inv(s) && e in s.k.eps && e in s.q && s.k.eps[e].state == EpSend
    ensures HeapOk(s.k) && Cancellable(s.k, s.q[e])
  {
    assert QueueOk(s, e);
    forall x | x in s.k.ready ensures x.tcb in s.k.tcbs && Block(s, x.tcb).state == Inactive && s.k.ready[x] == 1 {
      assert ReadyOk(s, x);
    }
    forall t | t in s.q[e] ensures t in s.k.tcbs && Block(s, t).state == BlockedOnSend { QueuedIsWaiting(s, e, t); }
  }

  /** Exactly the senders with that badge are freed; the rest keep their order. */
  lemma CancelBadgedKeeps(s: Sys, e: Eid, badge: nat)
    requires Inv(s) && e in s.k.eps
    ensures e in s.q && Inv(CancelledBadged(s, e, badge))
    ensures s.k.eps[e].state == EpSend ==> Sifted(s, CancelledBadged(s, e, badge), e, badge)
  {
    assert QueueOk(s, e);
    if s.k.eps[e].state == EpSend {
      var r := CancelledBadged(s, e, badge);
      QueueIsCancellable(s, e);
      SweepIs(s.k, s.q[e], badge);
      SiftedKeeps(s, r, e, badge);
      SettledState(s, r, e);
      SiftedRunning(s, r, e, badge);
    }
  }

  lemma SiftedRunning(s: Sys, r: Sys, e: Eid, badge: nat)
    requires Inv(s) && Sifted(s, r, e, badge)
    ensures r.k.current.Some? ==> Block(r, r.k.current.value.tcb).state == Running
  {
    if s.k.current.Some? {
      var c := s.k.current.value.tcb;
      SiftedThread(s, r, e, badge, c);
      if c in s.q[e] { QueuedIsWaiting(s, e, c); }
    }
  }
}
