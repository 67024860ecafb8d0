/**
Thread control blocks and the intrusive queues that link them.  Memory is a table of blocks; a
pointer is an index into it, and a queue is a pair of pointers.
*/
module Threads {
  import opened Sequences
  import opened Wrappers

  type Tid = nat
  type Eid = nat

  datatype ThreadState =
    | Inactive | Ready | Running | Restart | BlockedOnReceive | BlockedOnSend | BlockedOnReply
    | BlockedOnNotification | RunningVm | Idle

  datatype IpcState = IpcState(badge: nat, canGrant: bool, canGrantReply: bool, isCall: bool)

  datatype Tcb = Tcb(
    state: ThreadState,
    epNext: Option<Tid>, epPrev: Option<Tid>,
    blockingObject: Option<Eid>,
    ipc: IpcState,
    replyTo: Option<Tid>, caller: Option<Tid>,
    regs: seq<nat>,
    deadline: Option<nat>)

  type Tcbs = map<Tid, Tcb>

  /** The registers of a trap frame. */
  const REGISTERS: nat := 15

  function Zeros(n: nat): (r: seq<nat>)
    ensures |r| == n && forall i :: 0 <= i < n ==> r[i] == 0
  {
    seq(n, _ => 0)
  }

  const NO_TCB := Tcb(Inactive, None, None, None, IpcState(0, false, false, false), None, None, Zeros(REGISTERS), None)

  function Get(m: Tcbs, t: Tid): (b: Tcb) { if t in m then m[t] else NO_TCB }

  datatype Queue = Queue(head: Option<Tid>, tail: Option<Tid>)

  const EMPTY_QUEUE := Queue(None, None)

  // ----- queues as sequences -----

  predicate LinkAt(m: Tcbs, q: seq<Tid>, i: int)
    requires 0 <= i < |q|
  {
    && q[i] in m
    && Get(m, q[i]).epPrev == (if i == 0 then None else Some(q[i - 1]))
    && Get(m, q[i]).epNext == (if i == |q| - 1 then None else Some(q[i + 1]))
  }

  /** The blocks reached from the queue's two pointers are, in order, exactly `q`. */
  ghost predicate IsQueue(m: Tcbs, qu: Queue, q: seq<Tid>) {
    && Distinct(q)
    && qu.head == (if q == [] then None else Some(q[0]))
    && qu.tail == (if q == [] then None else Some(q[|q| - 1]))
    && forall i {:trigger LinkAt(m, q, i)} :: 0 <= i < |q| ==> LinkAt(m, q, i)
  }

  /** Nothing but the two links differs. */
  predicate SameButLinks(a: Tcb, b: Tcb) { a.(epNext := b.epNext, epPrev := b.epPrev) == b }

  predicate SameLinks(a: Tcb, b: Tcb) { a.epNext == b.epNext && a.epPrev == b.epPrev }

  lemma QueueFrame(m: Tcbs, n: Tcbs, qu: Queue, q: seq<Tid>)
    requires IsQueue(m, qu, q)
    requires forall t :: t in q ==> t in n && SameLinks(Get(m, t), Get(n, t))
    ensures IsQueue(n, qu, q)
  {
    forall i | 0 <= i < |q| ensures LinkAt(n, q, i) {
      assert LinkAt(m, q, i);
      assert q[i] in q;
    }
  }

  // ----- append -----

  function AppendTcbs(m: Tcbs, qu: Queue, t: Tid): (r: Tcbs) {
    var m1 := m[t := Get(m, t).(epNext := None, epPrev := qu.tail)];
    if qu.tail.Some? then m1[qu.tail.value := Get(m1, qu.tail.value).(epNext := Some(t))] else m1
  }

  function AppendQueue(qu: Queue, t: Tid): (r: Queue) {
    Queue(if qu.tail.Some? then qu.head else Some(t), Some(t))
  }

  /** Appending adds at the end, and touches no other block's links. */
  lemma AppendIs(m: Tcbs, qu: Queue, q: seq<Tid>, t: Tid)
    requires IsQueue(m, qu, q) && t in m && t !in q
    ensures var n := AppendTcbs(m, qu, t);
            && IsQueue(n, AppendQueue(qu, t), q + [t])
            && n.Keys == m.Keys
            && forall u ::
                u in m ==> SameButLinks(Get(m, u), Get(n, u)) && (u != t && u !in q ==> Get(n, u) == Get(m, u))
  {
    var n, r := AppendTcbs(m, qu, t), q + [t];
    if q != [] { assert LinkAt(m, q, |q| - 1); }
    forall i | 0 <= i < |r| ensures LinkAt(n, r, i) {
      if i < |q| { assert LinkAt(m, q, i) && r[i] == q[i]; }
    }
    assert forall i :: 0 <= i < |q| ==> r[i] == q[i];
    assert q != [] ==> q[|q| - 1] in q;
  }

  // ----- dequeue_head -----

  function DequeueTcbs(m: Tcbs, qu: Queue): (r: Tcbs) {
    if qu.head.None? then m
    else
      var h := qu.head.value;
      var next := Get(m, h).epNext;
      var m1 := if next.Some? then m[next.value := Get(m, next.value).(epPrev := None)] else m;
      m1[h := Get(m1, h).(epNext := None, epPrev := None)]
  }

  function DequeueQueue(m: Tcbs, qu: Queue): (r: Queue) {
    if qu.head.None? then qu
    else
      var next := Get(m, qu.head.value).epNext;
      Queue(next, if next.Some? then qu.tail else None)
  }

  /** Dequeuing takes the first, clears its links, and touches no block outside the queue. */
  lemma DequeueIs(m: Tcbs, qu: Queue, q: seq<Tid>)
    requires IsQueue(m, qu, q) && q != []
    ensures var n := DequeueTcbs(m, qu);
            && qu.head == Some(q[0])
            && IsQueue(n, DequeueQueue(m, qu), q[1..])
            && n.Keys == m.Keys && q[0] in m && q[0] !in q[1..]
            && Get(n, q[0]).epNext == None && Get(n, q[0]).epPrev == None
            && forall u :: u in m ==> SameButLinks(Get(m, u), Get(n, u)) && (u !in q ==> Get(n, u) == Get(m, u))
  {
    var n, r := DequeueTcbs(m, qu), q[1..];
    assert LinkAt(m, q, 0);
    if |q| > 1 { assert LinkAt(m, q, 1); }
    forall i | 0 <= i < |r| ensures LinkAt(n, r, i) {
      assert LinkAt(m, q, i + 1) && r[i] == q[i + 1] && q[i + 1] != q[0];
    }
    assert |q| > 1 ==> q[1] in q;
  }

  // ----- remove -----

  function RemoveTcbs(m: Tcbs, t: Tid): (r: Tcbs) {
    var prev, next := Get(m, t).epPrev, Get(m, t).epNext;
    var m1 := if prev.Some? then m[prev.value := Get(m, prev.value).(epNext := next)] else m;
    var m2 := if next.Some? then m1[next.value := Get(m1, next.value).(epPrev := prev)] else m1;
    m2[t := Get(m2, t).(epNext := None, epPrev := None)]
  }

  function RemoveQueue(m: Tcbs, qu: Queue, t: Tid): (r: Queue) {
    var prev, next := Get(m, t).epPrev, Get(m, t).epNext;
    Queue(if prev.Some? then qu.head else next, if next.Some? then qu.tail else prev)
  }

  /** What removal leaves in each block of a queue. */
  lemma RemoveLinks(m: Tcbs, qu: Queue, q: seq<Tid>, k: nat)
    requires IsQueue(m, qu, q) && k < |q|
    ensures var n := RemoveTcbs(m, q[k]);
            && n.Keys == m.Keys && q[k] in m
            && Get(n, q[k]) == Get(m, q[k]).(epNext := None, epPrev := None)
            && (k > 0 ==> Get(n, q[k - 1]) == Get(m, q[k - 1]).(epNext := Get(m, q[k]).epNext))
            && (k + 1 < |q| ==> Get(n, q[k + 1]) == Get(m, q[k + 1]).(epPrev := Get(m, q[k]).epPrev))
            && forall u ::
                u != q[k] && (k > 0 ==> u != q[k - 1]) && (k + 1 < |q| ==> u != q[k + 1]) ==> Get(n, u) == Get(m, u)
  {
    assert LinkAt(m, q, k);
    if k > 0 { assert LinkAt(m, q, k - 1); }
    if k + 1 < |q| { assert LinkAt(m, q, k + 1); }
  }

  lemma DistinctWithout(q: seq<Tid>, k: nat)
    requires Distinct(q) && k < |q|
    ensures Distinct(q[..k] + q[k + 1..]) && q[k] !in q[..k] + q[k + 1..]
  {
    var r := q[..k] + q[k + 1..];
    assert forall i :: 0 <= i < |r| ==> r[i] == if i < k then q[i] else q[i + 1];
  }

  lemma RemoveLinkAt(m: Tcbs, qu: Queue, q: seq<Tid>, k: nat, i: nat)
    requires IsQueue(m, qu, q) && k < |q| && i < |q| - 1
    ensures LinkAt(RemoveTcbs(m, q[k]), q[..k] + q[k + 1..], i)
  {
    var r, j := q[..k] + q[k + 1..], if i < k then i else i + 1;
    RemoveLinks(m, qu, q, k);
    assert r[i] == q[j] && LinkAt(m, q, j) && LinkAt(m, q, k);
    assert i > 0 ==> r[i - 1] == if i - 1 < k then q[i - 1] else q[i];
    assert i + 1 < |r| ==> r[i + 1] == if i + 1 < k then q[i + 1] else q[i + 2];
  }

  /** Removing takes one thread out, wherever it is, and touches no block outside the queue. */
  lemma RemoveIs(m: Tcbs, qu: Queue, q: seq<Tid>, k: nat)
    requires IsQueue(m, qu, q) && k < |q|
    ensures var t, r := q[k], q[..k] + q[k + 1..];
            var n := RemoveTcbs(m, t);
            && IsQueue(n, RemoveQueue(m, qu, t), r)
            && n.Keys == m.Keys && t in m && t !in r
            && Get(n, t).epNext == None && Get(n, t).epPrev == None
            && forall u :: u in m ==> SameButLinks(Get(m, u), Get(n, u)) && (u !in q ==> Get(n, u) == Get(m, u))
  {
    var r, n := q[..k] + q[k + 1..], RemoveTcbs(m, q[k]);
    RemoveLinks(m, qu, q, k);
    DistinctWithout(q, k);
    assert LinkAt(m, q, k);
    forall i: nat | i < |r| ensures LinkAt(n, r, i) { RemoveLinkAt(m, qu, q, k, i); }
    assert r != [] ==> r[0] == if k == 0 then q[1] else q[0];
    assert r != [] ==> r[|r| - 1] == if k == |q| - 1 then q[k - 1] else q[|q| - 1];
  }
}
