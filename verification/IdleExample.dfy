/** Two runs from boot that leave the idle thread on the processor while another thread is ready. */
module IdleExample {
  import opened Wrappers
  import opened Threads
  import opened Scheduler
  import opened Ipc
  import opened Joint
  import opened JointSteps
  import opened JointRuns

  const IDLE := Entry(MAX_DEADLINE, 0)
  const OTHER := Entry(MAX_DEADLINE, 1)

  /** The idle thread 0, in the given block, and thread 1, neither with a deadline. */
  function Scene(idle: Tcb, ready: multiset<Entry>, current: Option<Entry>): (s: Sys) {
    Sys(Kernel(map[0 := idle, 1 := NO_TCB], map[], ready, current, Some(0)), map[])
  }

  function Start(): (s: Sys) { Scene(NO_TCB, multiset{}, None) }
  function Idling(): (s: Sys) { Scene(NO_TCB.(state := Running), multiset{}, Some(IDLE)) }
  function Waiting(): (s: Sys) { Scene(NO_TCB.(state := Running), multiset{OTHER}, Some(IDLE)) }

  lemma Starts()
    ensures Leads(Start(), [OpSchedule], Idling())
  {
    var s := Start();
    assert SetState(s.k.tcbs, 0, Running) == Idling().k.tcbs;
    LeadsOne(s, OpSchedule, Idling());
  }

  lemma Enqueues()
    ensures Leads(Idling(), [OpEnqueue(1)], Waiting())
  {
    assert Enqueue(Idling().k, 1).0.ready == multiset{OTHER};
    LeadsOne(Idling(), OpEnqueue(1), Waiting());
  }

  /** The timer finds no deadline that is strictly earlier. */
  lemma TimerStays()
    ensures Leads(Waiting(), [OpPreempt], Waiting())
  {
    Picks(multiset{OTHER}, OTHER);
    LeadsOne(Waiting(), OpPreempt, Waiting());
  }

  /** A yield puts the idle thread into the heap and takes it out again. */
  lemma YieldReturns()
    ensures Leads(Waiting(), [OpYield], Waiting())
  {
    var s := Waiting();
    var k := s.k.(tcbs := SetState(s.k.tcbs, 0, Inactive), ready := multiset{OTHER} + multiset{IDLE}, current := None);
    Picks(k.ready, IDLE);
    assert k.ready - multiset{IDLE} == multiset{OTHER};
    assert SetState(k.tcbs, 0, Running) == s.k.tcbs;
    LeadsOne(s, OpYield, s);
  }

  lemma Reaches()
    ensures Leads(Start(), [OpSchedule] + [OpEnqueue(1)], Waiting())
  {
    Starts();
    Enqueues();
    LeadsOn(Start(), [OpSchedule], Idling(), [OpEnqueue(1)], Next(Waiting()));
  }

  const BEFORE: seq<Op> := [OpSchedule] + [OpEnqueue(1)]

  lemma TimerRun()
    ensures Leads(Start(), BEFORE + [OpPreempt], Waiting())
  {
    Reaches();
    TimerStays();
    LeadsOn(Start(), BEFORE, Waiting(), [OpPreempt], Next(Waiting()));
  }

  lemma YieldRun()
    ensures Leads(Start(), BEFORE + [OpYield], Waiting())
  {
    Reaches();
    YieldReturns();
    LeadsOn(Start(), BEFORE, Waiting(), [OpYield], Next(Waiting()));
  }

  lemma StartIsBoot()
    ensures Boot(Start())
  {}

  /** After either run the idle thread runs and thread 1 is ready. */
  lemma IdleRunsAmidReady(op: Op)
    requires op == OpPreempt || op == OpYield
    ensures Boot(Start()) && Leads(Start(), BEFORE + [op], Waiting()) && IdleAmidReady(Waiting().k)
  {
    StartIsBoot();
    if op == OpPreempt { TimerRun(); } else { YieldRun(); }
  }
}
