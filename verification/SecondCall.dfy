/**
A run from boot in which a callee takes a second call before it has answered the first, and the
first caller is forgotten.
*/
module SecondCall {
  import opened Wrappers
  import opened Threads
  import opened Scheduler
  import opened Ipc
  import opened Joint
  import opened JointSteps
  import opened JointRuns
  import opened IpcCalls

  function Table(a: Tcb, b: Tcb, c: Tcb): (m: Tcbs) { map[0 := NO_TCB, 1 := a, 2 := b, 3 := c] }

  lemma TableSets(a: Tcb, b: Tcb, c: Tcb, x: Tcb)
    ensures Table(a, b, c)[1 := x] == Table(x, b, c)
    ensures Table(a, b, c)[2 := x] == Table(a, x, c)
    ensures Table(a, b, c)[3 := x] == Table(a, b, x)
  {}

  /** The idle thread 0, three threads, one endpoint with queue `q`. */
  function Scene(
    a: Tcb, b: Tcb, c: Tcb, ep: Endpoint, ready: multiset<Entry>, current: Option<Entry>, q: seq<Tid>): (s: Sys)
  {
    Sys(Kernel(Table(a, b, c), map[0 := ep], ready, current, Some(0)), map[0 := q])
  }

  function Due(d: nat): (b: Tcb) { NO_TCB.(deadline := Some(d)) }

  const E1 := Entry(1, 1)
  const E2 := Entry(2, 2)
  const E3 := Entry(3, 3)
  const QUIET := Endpoint(EpIdle, EMPTY_QUEUE)
  const WAITED := Endpoint(EpRecv, Queue(Some(1), Some(1)))

  const CALL := OpSend(0, SendArgs(true, true, 0, true, true))
  const RECEIVE := OpReceive(0, true)

  /** Thread 1 is called by 2, is enqueued again, and receives again; then 3 calls it. */
  const START: seq<Op> := [OpEnqueue(1)] + ([OpEnqueue(2)] + ([OpEnqueue(3)] + [OpSchedule]))
  const MIDDLE: seq<Op> := [RECEIVE] + ([CALL] + [OpEnqueue(1)])
  const END: seq<Op> := [OpYield] + [RECEIVE]

  // Thread 1 receiving, called, and receiving again; thread 2 calling.
  function Receiver(): (b: Tcb) { Due(1).(state := BlockedOnReceive, blockingObject := Some(0)) }
  function Called(): (b: Tcb) { Due(1).(blockingObject := Some(0), caller := Some(2)) }
  function Again(): (b: Tcb) { Called().(state := BlockedOnReceive) }
  function Caller(): (b: Tcb) { Due(2).(state := BlockedOnReply, replyTo := Some(1)) }
  function Runs(b: Tcb): (r: Tcb) { b.(state := Running) }

  // The states before each operation.
  function S0(): (s: Sys) { Scene(Due(1), Due(2), Due(3), QUIET, multiset{}, None, []) }
  function S1(): (s: Sys) { Scene(Due(1), Due(2), Due(3), QUIET, multiset{E1}, None, []) }
  function S2(): (s: Sys) { Scene(Due(1), Due(2), Due(3), QUIET, multiset{E1, E2}, None, []) }
  function S3(): (s: Sys) { Scene(Due(1), Due(2), Due(3), QUIET, multiset{E1, E2, E3}, None, []) }
  function S4(): (s: Sys) { Scene(Runs(Due(1)), Due(2), Due(3), QUIET, multiset{E2, E3}, Some(E1), []) }
  function S5(): (s: Sys) { Scene(Receiver(), Runs(Due(2)), Due(3), WAITED, multiset{E3}, Some(E2), [1]) }
  function S6(): (s: Sys) { Scene(Called(), Caller(), Runs(Due(3)), QUIET, multiset{}, Some(E3), []) }
  function S7(): (s: Sys) { Scene(Called(), Caller(), Runs(Due(3)), QUIET, multiset{E1}, Some(E3), []) }
  function S8(): (s: Sys) { Scene(Runs(Called()), Caller(), Due(3), QUIET, multiset{E3}, Some(E1), []) }
  function S9(): (s: Sys) { Scene(Again(), Caller(), Runs(Due(3)), WAITED, multiset{}, Some(E3), [1]) }

  /** Scheduling with `x` least, when the processor has been given up or its thread is not Running. */
  lemma SwitchesTo(k: Kernel, x: Entry, rest: multiset<Entry>, m: Tcbs)
    requires IsLeast(k.ready, x) && k.ready - multiset{x} == rest && SetState(k.tcbs, x.tcb, Running) == m
    requires k.current.Some? ==> Get(k.tcbs, k.current.value.tcb).state != Running
    ensures Schedule(k) == Go(k.(tcbs := m, ready := rest, current := Some(x)))
  {
    Picks(k.ready, x);
  }

  lemma Enqueues(s: Sys, t: Tid, x: Entry, r: Sys)
    requires t in s.k.tcbs && Get(s.k.tcbs, t).state == Inactive && !Readied(s.k.ready, t) && |s.k.ready| < CAPACITY
    requires x == Entry(DeadlineOf(s.k.tcbs, t), t) && r == s.(k := s.k.(ready := s.k.ready + multiset{x}))
    ensures Leads(s, [OpEnqueue(t)], r)
  {
    LeadsOne(s, OpEnqueue(t), r);
  }

  lemma Enqueued()
    ensures Leads(S0(), [OpEnqueue(1)], S1())
    ensures Leads(S1(), [OpEnqueue(2)], S2())
    ensures Leads(S2(), [OpEnqueue(3)], S3())
  {
    Enqueues(S0(), 1, E1, S1());
    Enqueues(S1(), 2, E2, S2());
    Enqueues(S2(), 3, E3, S3());
  }

  lemma EnqueuedAgain()
    ensures Leads(S6(), [OpEnqueue(1)], S7())
  {
    Enqueues(S6(), 1, E1, S7());
  }

  lemma Scheduled()
    ensures Leads(S3(), [OpSchedule], S4())
  {
    TableSets(Due(1), Due(2), Due(3), Runs(Due(1)));
    SwitchesTo(S3().k, E1, multiset{E2, E3}, S4().k.tcbs);
    LeadsOne(S3(), OpSchedule, S4());
  }

  /** Thread 1 joins the empty queue. */
  lemma Blocks(a: Tcb, b: Tcb, c: Tcb, ready: multiset<Entry>)
    requires a.epNext == None && a.epPrev == None
    ensures var s := Scene(a, b, c, QUIET, ready, Some(E1), []);
            var w := a.(state := BlockedOnReceive, blockingObject := Some(0));
            && BlockOn(s.k, 1, 0, BlockedOnReceive, EpRecv) == Scene(w, b, c, WAITED, ready, Some(E1), [1]).k
            && s.q[0] + [1] == [1]
  {
    TableSets(a, b, c, a.(state := BlockedOnReceive, blockingObject := Some(0)));
    var w := a.(state := BlockedOnReceive, blockingObject := Some(0));
    TableSets(w, b, c, w);
  }

  /** Thread 1 blocks and the scheduler goes on to thread 2. */
  lemma FirstReceive()
    ensures Leads(S4(), [RECEIVE], S5())
  {
    Blocks(Runs(Due(1)), Due(2), Due(3), multiset{E2, E3});
    TableSets(Receiver(), Due(2), Due(3), Runs(Due(2)));
    SwitchesTo(BlockOn(S4().k, 1, 0, BlockedOnReceive, EpRecv), E2, multiset{E3}, S5().k.tcbs);
    LeadsOne(S4(), RECEIVE, S5());
  }

  lemma Hands(m: Tcbs)
    requires m == Table(Receiver(), Runs(Due(2)), Due(3))
    ensures DeliverTcbs(m, 2, 1, CALL.args) == Table(Called(), Caller(), Due(3))
  {
    DeliverTcbsIs(m, 2, 1, CALL.args);
    assert SetReg(NO_TCB.regs, 0, 0) == NO_TCB.regs;
    CopyOfSame(NO_TCB.regs, 0);
  }

  lemma Delivers()
    ensures Deliver(S5().k, 2, 0, CALL.args)
         == S5().k.(tcbs := Table(Called(), Caller(), Due(3)), eps := map[0 := QUIET])
  {
    var s := S5();
    DeliverIsPlain(s.k, 2, 0, CALL.args);
    assert DequeueTcbs(s.k.tcbs, WAITED.queue) == s.k.tcbs;
    Hands(s.k.tcbs);
    assert s.k.eps[0 := QUIET] == map[0 := QUIET];
  }

  /** Thread 2 calls thread 1 and the scheduler goes on to thread 3. */
  lemma FirstCall()
    ensures Leads(S5(), [CALL], S6())
  {
    var s, r := S5(), S6();
    Delivers();
    TableSets(Called(), Caller(), Due(3), Runs(Due(3)));
    SwitchesTo(Deliver(s.k, 2, 0, CALL.args), E3, multiset{}, r.k.tcbs);
    assert QueuesAfterSend(s, 0, CALL.args) == r.q;
    LeadsOne(S5(), CALL, S6());
  }

  /** Copying registers onto equal ones changes nothing. */
  lemma {:induction false} CopyOfSame(regs: seq<nat>, i: nat)
    requires i <= 4
    ensures CopyRegs(regs, regs, i) == regs
    decreases 4 - i
  {
    if i < 4 {
      assert SetReg(regs, i, GetReg(regs, i)) == regs;
      CopyOfSame(regs, i + 1);
    }
  }

  lemma Yielded()
    ensures Leads(S7(), [OpYield], S8())
  {
    var s := S7();
    TableSets(Called(), Caller(), Runs(Due(3)), Due(3));
    TableSets(Called(), Caller(), Due(3), Runs(Called()));
    var k := s.k.(tcbs := Table(Called(), Caller(), Due(3)), ready := s.k.ready + multiset{E3}, current := None);
    SwitchesTo(k, E1, multiset{E3}, S8().k.tcbs);
    assert SetState(s.k.tcbs, 3, Inactive) == k.tcbs;
    LeadsOne(S7(), OpYield, S8());
  }

  /** Thread 1 receives again, with its first caller still waiting. */
  lemma SecondReceive()
    ensures Leads(S8(), [RECEIVE], S9())
  {
    Blocks(Runs(Called()), Caller(), Due(3), multiset{E3});
    TableSets(Again(), Caller(), Due(3), Runs(Due(3)));
    SwitchesTo(BlockOn(S8().k, 1, 0, BlockedOnReceive, EpRecv), E3, multiset{}, S9().k.tcbs);
    LeadsOne(S8(), RECEIVE, S9());
  }

  /** Boot, until thread 1 runs. */
  lemma Starts()
    ensures Leads(S0(), START, S4())
  {
    Enqueued();
    Scheduled();
    LeadsOn(S2(), [OpEnqueue(3)], S3(), [OpSchedule], Next(S4()));
    LeadsOn(S1(), [OpEnqueue(2)], S2(), [OpEnqueue(3)] + [OpSchedule], Next(S4()));
    LeadsOn(S0(), [OpEnqueue(1)], S1(), [OpEnqueue(2)] + ([OpEnqueue(3)] + [OpSchedule]), Next(S4()));
  }

  /** The first call, until its callee is ready again. */
  lemma Continues()
    ensures Leads(S4(), MIDDLE, S7())
  {
    FirstReceive();
    FirstCall();
    EnqueuedAgain();
    LeadsOn(S5(), [CALL], S6(), [OpEnqueue(1)], Next(S7()));
    LeadsOn(S4(), [RECEIVE], S5(), [CALL] + [OpEnqueue(1)], Next(S7()));
  }

  /** The callee receives again. */
  lemma Ends()
    ensures Leads(S7(), END, S9())
  {
    Yielded();
    SecondReceive();
    LeadsOn(S7(), [OpYield], S8(), [RECEIVE], Next(S9()));
  }

  /** Up to the second call. */
  lemma Reaches()
    ensures Leads(S0(), START + (MIDDLE + END), S9())
  {
    Starts();
    Continues();
    Ends();
    LeadsOn(S4(), MIDDLE, S7(), END, Next(S9()));
    LeadsOn(S0(), START, S4(), MIDDLE + END, Next(S9()));
  }

  lemma LastOverwrites()
    ensures Legal(S9(), CALL) && Overwrites(S9(), CALL) && AllRemembered(S9())
  {
    var s := S9();
    forall y | y in s.k.tcbs ensures Remembered(s, y) {}
  }

  const OPS: seq<Op> := START + (MIDDLE + END) + [CALL]

  /** A caller that is not remembered, at the end of a legal run from boot. */
  lemma SecondCallForgetsFirst()
    ensures Boot(S0()) && LegalRun(S0(), OPS)
    ensures Run(S0(), OPS).Next? && !AllRemembered(Run(S0(), OPS).s)
  {
    BootIsSound(S0());
    Reaches();
    RunsStaySound(S0(), START + (MIDDLE + END));
    SecondCallForgets(S9());
    LeadsOn(S0(), START + (MIDDLE + END), S9(), [CALL], Run(S9(), [CALL]));
  }

  lemma SecondCallForgets(s: Sys)
    requires s == S9() && Inv(s)
    ensures LegalRun(s, [CALL]) && Run(s, [CALL]).Next? && !AllRemembered(Run(s, [CALL]).s)
  {
    LastOverwrites();
    StepRemembersWhen(s, CALL);
    LeadsOne(s, CALL, Step(s, CALL).s);
  }
}
