/**
Synchronous IPC over endpoints.  The acting thread is the executor's current thread; every
operation is a function of the whole kernel state.
*/
module Ipc {
  import opened Wrappers
  import opened Threads
  import opened Scheduler

  function EpOf(k: Kernel, e: Eid): (r: Endpoint) { if e in k.eps then k.eps[e] else Endpoint(EpIdle, EMPTY_QUEUE) }

  /** `if queue.is_empty() { state = Idle }` */
  function Settle(st: EndpointState, qu: Queue): (r: Endpoint) {
    Endpoint(if qu.head.None? then EpIdle else st, qu)
  }

  // ----- message transfer -----

  function SetReg(regs: seq<nat>, i: nat, v: nat): (r: seq<nat>) { if i < |regs| then regs[i := v] else regs }

  function GetReg(regs: seq<nat>, i: nat): (v: nat) { if i < |regs| then regs[i] else 0 }

  /** The copy loop, from register `i` on. */
  function CopyRegs(to: seq<nat>, from: seq<nat>, i: nat): (r: seq<nat>)
    requires i <= 4
    decreases 4 - i
  {
    if i == 4 then to else CopyRegs(SetReg(to, i, GetReg(from, i)), from, i + 1)
  }

  /** The badge goes to register 0, and is then overwritten by the copy, unless a thread sends to itself. */
  function Transfer(m: Tcbs, sender: Tid, receiver: Tid, badge: nat): (r: Tcbs) {
    var regs := SetReg(Get(m, receiver).regs, 0, badge);
    var from := if sender == receiver then regs else Get(m, sender).regs;
    m[receiver := Get(m, receiver).(regs := CopyRegs(regs, from, 0))]
  }

  lemma {:induction false} CopyRegsIs(to: seq<nat>, from: seq<nat>, i: nat, j: nat)
    requires i <= 4 && |to| >= 4 && j < |to|
    ensures |CopyRegs(to, from, i)| == |to|
    ensures CopyRegs(to, from, i)[j] == if i <= j < 4 then GetReg(from, j) else to[j]
    decreases 4 - i
  {
    if i < 4 { CopyRegsIs(SetReg(to, i, GetReg(from, i)), from, i + 1, j); }
  }

  /** The receiver ends with the sender's registers 0 to 3, and keeps the rest; the badge is lost. */
  lemma TransferIs(m: Tcbs, sender: Tid, receiver: Tid, badge: nat, j: nat)
    requires |Get(m, receiver).regs| >= 4 && j < |Get(m, receiver).regs|
    ensures var r, own := Get(Transfer(m, sender, receiver, badge), receiver).regs, Get(m, receiver).regs;
            && |r| == |own|
            && (sender != receiver ==> r[j] == if j < 4 then GetReg(Get(m, sender).regs, j) else own[j])
            && (sender == receiver ==> r[j] == if j == 0 then badge else own[j])
  {
    var regs := SetReg(Get(m, receiver).regs, 0, badge);
    CopyRegsIs(regs, if sender == receiver then regs else Get(m, sender).regs, 0, j);
  }

  /** `setup_caller_cap` */
  function SetupCaller(m: Tcbs, caller: Tid, callee: Tid): (r: Tcbs) {
    var m1 := m[caller := Get(m, caller).(state := BlockedOnReply, replyTo := Some(callee))];
    m1[callee := Get(m1, callee).(caller := Some(caller))]
  }

  // ----- send -----

  datatype SendArgs = SendArgs(blocking: bool, call: bool, badge: nat, canGrant: bool, canGrantReply: bool)

  /** What a sender that blocks leaves in its block. */
  function Details(a: SendArgs): (ipc: IpcState) { IpcState(a.badge, a.canGrant, a.canGrantReply, a.call) }

  /** A call whose sender waits for the reply. */
  predicate ExpectsReply(ipc: IpcState) { ipc.isCall && (ipc.canGrant || ipc.canGrantReply) }

  /** Join the queue of `e` and wait. */
  function BlockOn(k: Kernel, t: Tid, e: Eid, st: ThreadState, kind: EndpointState): (r: Kernel) {
    var m1 := k.tcbs[t := Get(k.tcbs, t).(state := st, blockingObject := Some(e))];
    var qu := EpOf(k, e).queue;
    k.(tcbs := AppendTcbs(m1, qu, t), eps := k.eps[e := Endpoint(kind, AppendQueue(qu, t))])
  }

  function SendIpc(k: Kernel, sender: Tid, e: Eid, a: SendArgs): (f: Flow) {
    if EpOf(k, e).state != EpRecv then
      if !a.blocking then Go(k)
      else
        var m := k.tcbs[sender := Get(k.tcbs, sender).(ipc := Details(a))];
        Go(BlockOn(k.(tcbs := m), sender, e, BlockedOnSend, EpSend))
    else if EpOf(k, e).queue.head.None? then Panic
    else Go(Deliver(k, sender, e, a))
  }

  /** The message handed over, the call set up, and the receiver left Inactive. */
  function DeliverTcbs(m: Tcbs, sender: Tid, receiver: Tid, a: SendArgs): (r: Tcbs) {
    var m2 := Transfer(m, sender, receiver, a.badge);
    var m3 := if !a.call then m2
              else if a.canGrant || a.canGrantReply then SetupCaller(m2, sender, receiver)
              else SetState(m2, sender, Inactive);
    SetState(SetState(m3, receiver, Running), receiver, Inactive)
  }

  /** A receiver was waiting.  The wake that follows finds it Inactive and refuses. */
  function Deliver(k: Kernel, sender: Tid, e: Eid, a: SendArgs): (r: Kernel)
    requires EpOf(k, e).queue.head.Some?
  {
    var qu, receiver := EpOf(k, e).queue, EpOf(k, e).queue.head.value;
    var m := DeliverTcbs(DequeueTcbs(k.tcbs, qu), sender, receiver, a);
    Wake(k.(tcbs := m, eps := k.eps[e := Settle(EpRecv, DequeueQueue(k.tcbs, qu))]), receiver).0
  }

  /** So a delivery is the dequeuing, the handing over and nothing else. */
  lemma DeliverIsPlain(k: Kernel, sender: Tid, e: Eid, a: SendArgs)
    requires EpOf(k, e).queue.head.Some?
    ensures var qu := EpOf(k, e).queue;
            Deliver(k, sender, e, a) == k.(tcbs := DeliverTcbs(DequeueTcbs(k.tcbs, qu), sender, qu.head.value, a),
                                           eps := k.eps[e := Settle(EpRecv, DequeueQueue(k.tcbs, qu))])
  {
    var m := DequeueTcbs(k.tcbs, EpOf(k, e).queue);
    var receiver := EpOf(k, e).queue.head.value;
    assert Get(DeliverTcbs(m, sender, receiver, a), receiver).state == Inactive;
  }

  lemma DeliverTcbsIs(m: Tcbs, sender: Tid, receiver: Tid, a: SendArgs)
    requires sender in m && receiver in m && sender != receiver
    ensures var n := DeliverTcbs(m, sender, receiver, a);
            && n.Keys == m.Keys
            && (forall u :: u != receiver && u != sender ==> Get(n, u) == Get(m, u))
            && Get(n, receiver) == Get(m, receiver).(state := Inactive, regs := Get(n, receiver).regs,
                 caller := if ExpectsReply(Details(a)) then Some(sender) else Get(m, receiver).caller)
            && Get(n, receiver).regs == Get(Transfer(m, sender, receiver, a.badge), receiver).regs
            && Get(n, sender) ==
                 if !a.call then Get(m, sender)
                 else if a.canGrant || a.canGrantReply then
                   Get(m, sender).(state := BlockedOnReply, replyTo := Some(receiver))
                 else Get(m, sender).(state := Inactive)
  {}

  // ----- receive -----

  function ReceiveIpc(k: Kernel, receiver: Tid, e: Eid, blocking: bool): (f: Flow) {
    if EpOf(k, e).state != EpSend then
      if blocking then Go(BlockOn(k, receiver, e, BlockedOnReceive, EpRecv))
      else Go(k.(tcbs := k.tcbs[receiver := Get(k.tcbs, receiver).(regs := SetReg(Get(k.tcbs, receiver).regs, 0, 0))]))
    else if EpOf(k, e).queue.head.None? then Panic
    else Go(Collect(k, receiver, e))
  }

  /** The message taken, and the call set up or the sender left Inactive. */
  function CollectTcbs(m: Tcbs, sender: Tid, receiver: Tid): (r: Tcbs) {
    var ipc := Get(m, sender).ipc;
    var m2 := Transfer(m, sender, receiver, ipc.badge);
    if ExpectsReply(ipc) then SetupCaller(m2, sender, receiver)
    else SetState(m2, sender, Inactive)
  }

  /** A sender was waiting.  After a plain send the wake finds it Inactive and refuses. */
  function Collect(k: Kernel, receiver: Tid, e: Eid): (r: Kernel)
    requires EpOf(k, e).queue.head.Some?
  {
    var qu, sender := EpOf(k, e).queue, EpOf(k, e).queue.head.value;
    var m1 := DequeueTcbs(k.tcbs, qu);
    var k1 := k.(tcbs := CollectTcbs(m1, sender, receiver),
                 eps := k.eps[e := Settle(EpSend, DequeueQueue(k.tcbs, qu))]);
    if Get(m1, sender).ipc.isCall then k1 else Wake(k1, sender).0
  }

  /** So a collection is the dequeuing, the handing over and nothing else. */
  lemma CollectIsPlain(k: Kernel, receiver: Tid, e: Eid)
    requires EpOf(k, e).queue.head.Some?
    ensures var qu := EpOf(k, e).queue;
            Collect(k, receiver, e) == k.(tcbs := CollectTcbs(DequeueTcbs(k.tcbs, qu), qu.head.value, receiver),
                                          eps := k.eps[e := Settle(EpSend, DequeueQueue(k.tcbs, qu))])
  {
    var m := DequeueTcbs(k.tcbs, EpOf(k, e).queue);
    var sender := EpOf(k, e).queue.head.value;
    assert !Get(m, sender).ipc.isCall ==> Get(CollectTcbs(m, sender, receiver), sender).state == Inactive;
  }

  lemma CollectTcbsIs(m: Tcbs, sender: Tid, receiver: Tid)
    requires sender in m && receiver in m && sender != receiver
    ensures var n, ipc := CollectTcbs(m, sender, receiver), Get(m, sender).ipc;
            && n.Keys == m.Keys
            && (forall u :: u != receiver && u != sender ==> Get(n, u) == Get(m, u))
            && Get(n, sender) == (if ExpectsReply(ipc)
                                  then Get(m, sender).(state := BlockedOnReply, replyTo := Some(receiver))
                                  else Get(m, sender).(state := Inactive))
            && Get(n, receiver) == Get(m, receiver).(regs := Get(n, receiver).regs,
                 caller := if ExpectsReply(ipc) then Some(sender)
                           else Get(m, receiver).caller)
            && Get(n, receiver).regs == Get(Transfer(m, sender, receiver, ipc.badge), receiver).regs
  {}

  // ----- cancel -----

  function CancelIpc(k: Kernel, t: Tid): (r: Kernel) {
    var b := Get(k.tcbs, t);
    match b.state
    case BlockedOnSend => CancelQueued(k, t)
    case BlockedOnReceive => CancelQueued(k, t)
    case BlockedOnNotification => k.(tcbs := SetState(k.tcbs, t, Inactive))
    case BlockedOnReply =>
      var m1 := if b.replyTo.None? then k.tcbs
                else k.tcbs[b.replyTo.value := Get(k.tcbs, b.replyTo.value).(caller := None)];
      k.(tcbs := m1[t := Get(m1, t).(replyTo := None, state := Inactive)])
    case _ => k
  }

  function CancelQueued(k: Kernel, t: Tid): (r: Kernel) {
    var b := Get(k.tcbs, t);
    var k1 :=
      if b.blockingObject.Some? then
        var e := b.blockingObject.value;
        k.(tcbs := RemoveTcbs(k.tcbs, t),
           eps := k.eps[e := Settle(EpOf(k, e).state, RemoveQueue(k.tcbs, EpOf(k, e).queue, t))])
      else k;
    k1.(tcbs := k1.tcbs[t := Get(k1.tcbs, t).(state := Inactive, blockingObject := None)])
  }

  /** A thread taken off an endpoint is Inactive again and, if the heap has room, ready. */
  function Restarted(k: Kernel, t: Tid): (r: Kernel) {
    Enqueue(k.(tcbs := k.tcbs[t := Get(k.tcbs, t).(state := Inactive, blockingObject := None)]), t).0
  }

  /** One turn of `cancel_all_ipc`: the head of the queue is taken off and restarted. */
  function RestartHead(k: Kernel, e: Eid): (r: Kernel) {
    var qu := EpOf(k, e).queue;
    if qu.head.None? then k
    else
      var k1 := k.(tcbs := DequeueTcbs(k.tcbs, qu),
                   eps := k.eps[e := Endpoint(EpOf(k, e).state, DequeueQueue(k.tcbs, qu))]);
      Restarted(k1, qu.head.value)
  }

  /** `n` turns of the loop. */
  function Drain(k: Kernel, e: Eid, n: nat): (r: Kernel)
    decreases n
  {
    if n == 0 then k else Drain(RestartHead(k, e), e, n - 1)
  }

  /** `cancel_all_ipc` on a queue of `n` threads. */
  function CancelAllIpc(k: Kernel, e: Eid, n: nat): (r: Kernel) {
    if EpOf(k, e).state == EpIdle then k
    else
      var k1 := Drain(k, e, n);
      k1.(eps := k1.eps[e := EpOf(k1, e).(state := EpIdle)])
  }

  /** The state of `cancel_badged_sends` while it walks the old queue and builds the new one. */
  datatype Sweep = Sweep(k: Kernel, queue: Queue)

  function SweepOne(w: Sweep, t: Tid, badge: nat): (r: Sweep) {
    var b := Get(w.k.tcbs, t);
    if b.ipc.badge == badge then
      w.(k := Restarted(w.k.(tcbs := w.k.tcbs[t := b.(epNext := None, epPrev := None)]), t))
    else Sweep(w.k.(tcbs := AppendTcbs(w.k.tcbs, w.queue, t)), AppendQueue(w.queue, t))
  }

  function SweepAll(w: Sweep, ts: seq<Tid>, badge: nat): (r: Sweep)
    decreases |ts|
  {
    if ts == [] then w else SweepOne(SweepAll(w, ts[..|ts| - 1], badge), ts[|ts| - 1], badge)
  }

  /** `cancel_badged_sends` on a queue listing `ts`. */
  function CancelBadgedSends(k: Kernel, e: Eid, ts: seq<Tid>, badge: nat): (r: Kernel) {
    if EpOf(k, e).state != EpSend then k
    else
      var w := SweepAll(Sweep(k, EMPTY_QUEUE), ts, badge);
      w.k.(eps := w.k.eps[e := Settle(EpSend, w.queue)])
  }

  /** States of a thread that an endpoint queue holds. */
  predicate IsQueuedState(st: ThreadState) { st.BlockedOnSend? || st.BlockedOnReceive? }
}
