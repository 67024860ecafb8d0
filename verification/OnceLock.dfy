/**
The write-once cell, as interleaved atomic steps of any number of threads.  Each step is one
atomic access to the state word or the value cell, or one outcome of the initialiser.
*/
module OnceLock {
  import opened Wrappers

  datatype Once = Uninitialized | Initializing | Initialized

  /** Where a thread stands.  `get_or_init` is the first group, `set` the second, `get` the third. */
  datatype Pc<T> =
    | Outside
    | FastLoad | Cas | RunInit | DropGuard | Write(v: T) | Publish | Read | Spin | Recheck
    | SetCas(v: T) | SetWrite(v: T) | SetPublish(v: T)
    | GetLoad | GetRead

  /** What a run has shown so far, in order. */
  datatype Event<T> =
    | InitReturned(t: nat, v: T) | InitPanicked(t: nat)
    | Wrote(t: nat, v: T)
    | Saw(t: nat, v: T) | UnwrapFailed(t: nat)
    | SetOk(t: nat, v: T) | SetErr(t: nat)
    | GotNone(t: nat)

  datatype State<T> = State(once: Once, value: Option<T>, pcs: map<nat, Pc<T>>, log: seq<Event<T>>)

  datatype Action<T> = CallGetOrInit | CallSet(v: T) | CallGet | InitReturns(v: T) | InitPanics | Advance

  /** What one atomic step leaves in the word, the cell and the thread, and what it shows. */
  datatype Effect<T> = Effect(once: Once, value: Option<T>, pc: Pc<T>, event: Option<Event<T>>)

  /** `(*self.value.get()).as_ref().unwrap()` and return. */
  function ReadAndReturn<T>(once: Once, value: Option<T>, t: nat): (r: Effect<T>) {
    Effect(once, value, Outside, Some(if value.Some? then Saw(t, value.value) else UnwrapFailed(t)))
  }

  /** One atomic step of a thread at `pc`; an action its position does not allow does nothing. */
  function Local<T>(once: Once, value: Option<T>, t: nat, pc: Pc<T>, a: Action<T>): (r: Effect<T>) {
    match (pc, a)
    case (Outside, CallGetOrInit) => Effect(once, value, FastLoad, None)
    case (Outside, CallSet(v)) => Effect(once, value, SetCas(v), None)
    case (Outside, CallGet) => Effect(once, value, GetLoad, None)

    case (FastLoad, Advance) => Effect(once, value, if once == Initialized then Read else Cas, None)
    case (Cas, Advance) =>
      if once == Uninitialized then Effect(Initializing, value, RunInit, None) else Effect(once, value, Spin, None)
    case (RunInit, InitReturns(v)) => Effect(once, value, Write(v), Some(InitReturned(t, v)))
    case (RunInit, InitPanics) => Effect(once, value, DropGuard, Some(InitPanicked(t)))
    case (DropGuard, Advance) => Effect(Uninitialized, value, Outside, None)
    case (Write(v), Advance) => Effect(once, Some(v), Publish, Some(Wrote(t, v)))
    case (Publish, Advance) => Effect(Initialized, value, Read, None)
    case (Read, Advance) => ReadAndReturn(once, value, t)
    case (Spin, Advance) => Effect(once, value, if once == Initializing then Spin else Recheck, None)
    case (Recheck, Advance) => Effect(once, value, if once == Initialized then Read else FastLoad, None)

    case (SetCas(v), Advance) =>
      if once == Uninitialized then Effect(Initializing, value, SetWrite(v), None)
      else Effect(once, value, Outside, Some(SetErr(t)))
    case (SetWrite(v), Advance) => Effect(once, Some(v), SetPublish(v), Some(Wrote(t, v)))
    case (SetPublish(v), Advance) => Effect(Initialized, value, Outside, Some(SetOk(t, v)))

    case (GetLoad, Advance) =>
      if once == Initialized then Effect(once, value, GetRead, None)
      else Effect(once, value, Outside, Some(GotNone(t)))
    case (GetRead, Advance) =>
      Effect(once, value, Outside, Some(if value.Some? then Saw(t, value.value) else GotNone(t)))
    case _ => Effect(once, value, pc, None)
  }

  /** Thread `t` takes one step. */
  function Step<T>(s: State<T>, t: nat, a: Action<T>): (r: State<T>) {
    if t !in s.pcs then s
    else
      var e := Local(s.once, s.value, t, s.pcs[t], a);
      State(e.once, e.value, s.pcs[t := e.pc], if e.event.Some? then s.log + [e.event.value] else s.log)
  }

  function Run<T>(s: State<T>, acts: seq<(nat, Action<T>)>): (r: State<T>)
    decreases |acts|
  {
    if acts == [] then s
    else Step(Run(s, acts[..|acts| - 1]), acts[|acts| - 1].0, acts[|acts| - 1].1)
  }

  ghost predicate Fresh<T(!new)>(s: State<T>) {
    && s.once == Uninitialized && s.value == None && s.log == []
    && forall t :: t in s.pcs ==> s.pcs[t] == Outside
  }

  /** Holding the guard: between winning the exchange and the store that ends the section. */
  predicate InSection<T>(pc: Pc<T>) {
    pc.RunInit? || pc.DropGuard? || pc.Write? || pc.Publish? || pc.SetWrite? || pc.SetPublish?
  }

  predicate HasWritten<T>(pc: Pc<T>) { pc.Publish? || pc.SetPublish? }

  // ----- the invariant -----

  ghost predicate Exclusive<T(!new)>(s: State<T>) {
    && (forall t, u :: t in s.pcs && u in s.pcs && InSection(s.pcs[t]) && InSection(s.pcs[u]) ==> t == u)
    && (s.once == Initializing <==> exists t :: t in s.pcs && InSection(s.pcs[t]))
  }

  ghost predicate CellOk<T(!new)>(s: State<T>) {
    && (s.once == Uninitialized ==> s.value == None)
    && (s.once == Initialized ==> s.value.Some?)
    && (forall t :: t in s.pcs && InSection(s.pcs[t]) ==> (s.value.Some? <==> HasWritten(s.pcs[t])))
    && (forall t :: t in s.pcs && s.pcs[t].SetPublish? ==> s.value == Some(s.pcs[t].v))
    && (forall t :: t in s.pcs && (s.pcs[t].Read? || s.pcs[t].GetRead?) ==> s.once == Initialized)
  }

  /** What each event says about the present state. */
  ghost predicate EventOk<T(!new)>(s: State<T>, e: Event<T>) {
    match e
    case InitReturned(_, v) =>
      s.value == Some(v) || (s.value == None && exists t :: t in s.pcs && s.pcs[t] == Write(v))
    case Wrote(_, v) => s.value == Some(v)
    case Saw(_, v) => s.once == Initialized && s.value == Some(v)
    case SetOk(_, v) => s.once == Initialized && s.value == Some(v)
    case UnwrapFailed(_) => false
    case _ => true
  }

  /** The cell is written at most once, and at most one initialiser runs to completion. */
  ghost predicate WrittenOnce<T>(log: seq<Event<T>>) {
    forall i, j :: 0 <= i < j < |log| ==>
      !(log[i].Wrote? && log[j].Wrote?) && !(log[i].InitReturned? && log[j].InitReturned?)
  }

  /** After a read or a successful `set`, no later `get` reports None and no `set` succeeds. */
  ghost predicate Settled<T>(log: seq<Event<T>>) {
    forall i, j :: 0 <= i < j < |log| && (log[i].Saw? || log[i].SetOk?) ==> !log[j].GotNone? && !log[j].SetOk?
  }

  ghost predicate Inv<T(!new)>(s: State<T>) {
    && Exclusive(s)
    && CellOk(s)
    && (forall i :: 0 <= i < |s.log| ==> EventOk(s, s.log[i]))
    && WrittenOnce(s.log)
    && Settled(s.log)
  }

  // ----- every step keeps it -----

  /** How one step may change the word and the cell, by whether the thread holds the guard. */
  ghost predicate LocalOk<T(!new)>(once: Once, value: Option<T>, pc: Pc<T>, e: Effect<T>) {
    && (if InSection(pc) then
          e.once == (if InSection(e.pc) then Initializing else if e.value == None then Uninitialized else Initialized)
        else if InSection(e.pc) then once == Uninitialized && e.once == Initializing
        else e.once == once)
    && (value != e.value ==> InSection(pc) && value == None && e.value.Some?)
    && (InSection(e.pc) ==> (e.value.Some? <==> HasWritten(e.pc)))
    && (e.pc.SetPublish? ==> e.value == Some(e.pc.v))
    && (e.pc.Read? || e.pc.GetRead? ==> e.once == Initialized)
  }

  lemma LocalStep<T(!new)>(s: State<T>, t: nat, a: Action<T>)
    requires Exclusive(s) && CellOk(s) && t in s.pcs
    ensures LocalOk(s.once, s.value, s.pcs[t], Local(s.once, s.value, t, s.pcs[t], a))
  {
    assert InSection(s.pcs[t]) ==> s.once == Initializing;
  }

  lemma StepKeepsExclusion<T(!new)>(s: State<T>, t: nat, a: Action<T>)
    requires Exclusive(s) && CellOk(s)
    ensures Exclusive(Step(s, t, a))
  {
    if t in s.pcs {
      LocalStep(s, t, a);
      SectionMoves(s, Step(s, t, a), t);
    }
  }

  lemma SectionMoves<T(!new)>(s: State<T>, r: State<T>, t: nat)
    requires Exclusive(s) && t in s.pcs && t in r.pcs && r.pcs == s.pcs[t := r.pcs[t]]
    requires if InSection(s.pcs[t]) then (r.once == Initializing <==> InSection(r.pcs[t]))
             else if InSection(r.pcs[t]) then s.once == Uninitialized && r.once == Initializing
             else r.once == s.once
    ensures Exclusive(r)
  {
    if exists u :: u in s.pcs && InSection(s.pcs[u]) {
      var u :| u in s.pcs && InSection(s.pcs[u]);
      assert u in r.pcs;
      assert u != t ==> InSection(r.pcs[u]);
    }
  }

  lemma StepKeepsCell<T(!new)>(s: State<T>, t: nat, a: Action<T>)
    requires Exclusive(s) && CellOk(s)
    ensures CellOk(Step(s, t, a))
  {
    if t in s.pcs {
      LocalStep(s, t, a);
      var r := Step(s, t, a);
      assert InSection(s.pcs[t]) ==> s.once == Initializing;
      forall u | u in s.pcs && u != t
        ensures r.pcs[u] == s.pcs[u]
        ensures InSection(s.pcs[u]) ==> !InSection(s.pcs[t]) && r.value == s.value
        ensures s.once == Initialized ==> r.once == Initialized
      {}
    }
  }

  lemma StepKeepsEvents<T(!new)>(s: State<T>, t: nat, a: Action<T>, i: nat)
    requires Inv(s) && i < |Step(s, t, a).log|
    ensures EventOk(Step(s, t, a), Step(s, t, a).log[i])
  {
    var r := Step(s, t, a);
    if t in s.pcs {
      LocalStep(s, t, a);
      assert InSection(s.pcs[t]) ==> s.once == Initializing;
      assert t in r.pcs;
      if i < |s.log| {
        var e := s.log[i];
        assert EventOk(s, e) && r.log[i] == e;
        if e.InitReturned? && s.value == None {
          var u :| u in s.pcs && s.pcs[u] == Write(e.v);
          assert u in r.pcs && InSection(s.pcs[u]);
        }
      }
    }
  }

  /** What a logged event says of the next step: a written cell, a finished initialiser, a published value. */
  lemma LoggedMeans<T(!new)>(s: State<T>, t: nat, i: nat)
    requires Inv(s) && t in s.pcs && i < |s.log|
    ensures s.log[i].Wrote? ==> s.value.Some?
    ensures s.pcs[t].RunInit? ==> !s.log[i].InitReturned?
    ensures s.log[i].Saw? || s.log[i].SetOk? ==> s.once == Initialized
  {
    assert EventOk(s, s.log[i]);
    if s.log[i].InitReturned? && s.value == None {
      var u :| u in s.pcs && s.pcs[u] == Write(s.log[i].v);
      assert InSection(s.pcs[u]);
    }
  }

  lemma StepKeepsWrittenOnce<T(!new)>(s: State<T>, t: nat, a: Action<T>)
    requires Inv(s)
    ensures WrittenOnce(Step(s, t, a).log)
  {
    if t in s.pcs {
      assert InSection(s.pcs[t]) ==> s.once == Initializing;
      forall i: nat | i < |s.log|
        ensures s.log[i].Wrote? ==> s.value.Some?
        ensures s.pcs[t].RunInit? ==> !s.log[i].InitReturned?
      {
        LoggedMeans(s, t, i);
      }
    }
  }

  lemma StepKeepsSettled<T(!new)>(s: State<T>, t: nat, a: Action<T>)
    requires Inv(s)
    ensures Settled(Step(s, t, a).log)
  {
    if t in s.pcs {
      assert InSection(s.pcs[t]) ==> s.once == Initializing;
      forall i: nat | i < |s.log| ensures s.log[i].Saw? || s.log[i].SetOk? ==> s.once == Initialized {
        LoggedMeans(s, t, i);
      }
    }
  }

  lemma {:induction false} RunKeepsInv<T(!new)>(s: State<T>, acts: seq<(nat, Action<T>)>)
    requires Inv(s)
    ensures Inv(Run(s, acts))
    decreases |acts|
  {
    if acts != [] {
      var p := Run(s, acts[..|acts| - 1]);
      var (t, a) := acts[|acts| - 1];
      RunKeepsInv(s, acts[..|acts| - 1]);
      StepKeepsExclusion(p, t, a);
      StepKeepsCell(p, t, a);
      forall i | 0 <= i < |Step(p, t, a).log| ensures EventOk(Step(p, t, a), Step(p, t, a).log[i]) {
        StepKeepsEvents(p, t, a, i);
      }
      StepKeepsWrittenOnce(p, t, a);
      StepKeepsSettled(p, t, a);
    }
  }

  // ----- what holds of every run -----

  /** At most one thread is ever in the initialising section. */
  lemma MutualExclusion<T(!new)>(s: State<T>, acts: seq<(nat, Action<T>)>, t: nat, u: nat)
    requires Fresh(s)
    requires var r := Run(s, acts); t in r.pcs && u in r.pcs && InSection(r.pcs[t]) && InSection(r.pcs[u])
    ensures t == u && Run(s, acts).once == Initializing
  {
    RunKeepsInv(s, acts);
  }

  /** Once initialised, always initialised, with the same value, whatever the threads do next. */
  lemma {:induction false} InitializedIsPermanent<T(!new)>(
    s: State<T>, acts: seq<(nat, Action<T>)>, more: seq<(nat, Action<T>)>)
    requires Fresh(s) && Run(s, acts).once == Initialized
    ensures var r, r' := Run(s, acts), Run(s, acts + more);
            r.value.Some? && r'.once == Initialized && r'.value == r.value
    decreases |more|
  {
    if more == [] {
      assert acts + more == acts;
      RunKeepsInv(s, acts);
    } else {
      var init := more[..|more| - 1];
      InitializedIsPermanent(s, acts, init);
      RunKeepsInv(s, acts + init);
      assert (acts + more)[..|acts + more| - 1] == acts + init;
      assert (acts + more)[|acts + more| - 1] == more[|more| - 1];
    }
  }

  /**
  Every value read, every value a successful `set` stored and every value written is one and the
  same; the cell is written and an initialiser completes at most once; no unwrap fails; and no `get`
  reports None, nor does any `set` succeed, after the value has been seen.
  */
  lemma ReadersAgree<T(!new)>(s: State<T>, acts: seq<(nat, Action<T>)>, i: nat, j: nat)
    requires Fresh(s) && i < j < |Run(s, acts).log|
    ensures var e, f := Run(s, acts).log[i], Run(s, acts).log[j];
            && ((e.Saw? || e.SetOk? || e.Wrote?) && (f.Saw? || f.SetOk? || f.Wrote?) ==> e.v == f.v)
            && !e.UnwrapFailed? && !f.UnwrapFailed?
            && !(e.Wrote? && f.Wrote?) && !(e.InitReturned? && f.InitReturned?)
            && (e.Saw? || e.SetOk? ==> !f.GotNone? && !f.SetOk?)
  {
    RunKeepsInv(s, acts);
    assert EventOk(Run(s, acts), Run(s, acts).log[i]) && EventOk(Run(s, acts), Run(s, acts).log[j]);
  }

  /** If an initialiser returned at all, what readers see is what it returned. */
  lemma InitialiserResultIsKept<T(!new)>(s: State<T>, acts: seq<(nat, Action<T>)>, i: nat, j: nat)
    requires Fresh(s) && i < |Run(s, acts).log| && j < |Run(s, acts).log|
    requires Run(s, acts).log[i].InitReturned? && Run(s, acts).log[j].Saw?
    ensures Run(s, acts).log[j].v == Run(s, acts).log[i].v
  {
    RunKeepsInv(s, acts);
    assert EventOk(Run(s, acts), Run(s, acts).log[i]) && EventOk(Run(s, acts), Run(s, acts).log[j]);
  }

  // ----- when a call is refused -----

  /** The step of a run that showed the event at a place of its log. */
  lemma {:induction false} ShownBy<T(!new)>(s: State<T>, acts: seq<(nat, Action<T>)>, i: nat) returns (k: nat)
    requires s.log == [] && i < |Run(s, acts).log|
    ensures k < |acts| && |Run(s, acts[..k]).log| == i
    ensures Step(Run(s, acts[..k]), acts[k].0, acts[k].1).log == Run(s, acts[..k]).log + [Run(s, acts).log[i]]
    decreases |acts|
  {
    var front := acts[..|acts| - 1];
    if i < |Run(s, front).log| {
      k := ShownBy(s, front, i);
      assert front[..k] == acts[..k] && front[k] == acts[k];
    } else {
      k := |acts| - 1;
    }
  }

  /** Some thread other than `t` holds the guard. */
  ghost predicate HeldByAnother<T(!new)>(s: State<T>, t: nat) {
    exists u :: u in s.pcs && u != t && InSection(s.pcs[u])
  }

  /**
  In every run a `set` fails only at a moment when the value is there or another thread is storing
  one, and a `get` reports None only at a moment when the value is not yet published.
  */
  lemma RefusedOnlyWhen<T(!new)>(s: State<T>, acts: seq<(nat, Action<T>)>, i: nat) returns (k: nat)
    requires Fresh(s) && i < |Run(s, acts).log|
    ensures k < |acts| && |Run(s, acts[..k]).log| == i
    ensures var p, e := Run(s, acts[..k]), Run(s, acts).log[i];
            && (e.SetErr? ==> p.once != Uninitialized && (p.once == Initialized || HeldByAnother(p, e.t)))
            && (e.GotNone? ==> p.once != Initialized)
  {
    k := ShownBy(s, acts, i);
    var p := Run(s, acts[..k]);
    RunKeepsInv(s, acts[..k]);
    var e := Run(s, acts).log[i];
    assert e == Step(p, acts[k].0, acts[k].1).log[i];
    if e.SetErr? && p.once == Initializing {
      var u :| u in p.pcs && InSection(p.pcs[u]);
      assert u != e.t;
    }
  }

  // ----- a call on its own -----

  lemma {:induction false} RunOn<T>(s: State<T>, p: State<T>, acts: seq<(nat, Action<T>)>, t: nat, a: Action<T>)
    requires Run(s, acts) == p
    ensures Run(s, acts + [(t, a)]) == Step(p, t, a)
  {
    assert (acts + [(t, a)])[..|acts|] == acts;
  }

  /** Thread `t` takes `a`, and then `n` more steps, with nobody else moving. */
  function Alone<T>(t: nat, a: Action<T>, n: nat): (acts: seq<(nat, Action<T>)>) {
    seq(n + 1, i => (t, if i == 0 then a else Advance))
  }

  /** What a step of `t` alone leaves. */
  function Left<T>(s: State<T>, t: nat, e: Effect<T>, log: seq<Event<T>>): (r: State<T>) {
    State(e.once, e.value, s.pcs[t := e.pc], if e.event.Some? then log + [e.event.value] else log)
  }

  lemma {:induction false} AloneFirst<T>(s: State<T>, t: nat, a: Action<T>)
    requires t in s.pcs
    ensures Run(s, Alone(t, a, 0)) == Left(s, t, Local(s.once, s.value, t, s.pcs[t], a), s.log)
  {
    RunOn(s, s, [], t, a);
    assert [] + [(t, a)] == Alone(t, a, 0);
  }

  lemma {:induction false} AloneNext<T>(s: State<T>, p: Effect<T>, log: seq<Event<T>>, t: nat, a: Action<T>, n: nat)
    requires n > 0 && Run(s, Alone(t, a, n - 1)) == State(p.once, p.value, s.pcs[t := p.pc], log)
    ensures Run(s, Alone(t, a, n)) == Left(s, t, Local(p.once, p.value, t, p.pc, Advance), log)
  {
    var m := State(p.once, p.value, s.pcs[t := p.pc], log);
    assert Alone(t, a, n) == Alone(t, a, n - 1) + [(t, Advance)];
    RunOn(s, m, Alone(t, a, n - 1), t, Advance);
    var e := Local(p.once, p.value, t, p.pc, Advance);
    assert s.pcs[t := p.pc][t := e.pc] == s.pcs[t := e.pc];
  }

  lemma {:induction false} Returned<T>(m: map<nat, Pc<T>>, t: nat)
    requires t in m && m[t] == Outside
    ensures m[t := Outside] == m
  {}

  lemma {:induction false} SetAloneWrites<T(!new)>(s: State<T>, t: nat, v: T)
    requires t in s.pcs && s.pcs[t] == Outside && s.once == Uninitialized
    ensures Run(s, Alone(t, CallSet(v), 2))
         == State(Initializing, Some(v), s.pcs[t := SetPublish(v)], s.log + [Wrote(t, v)])
  {
    var a := CallSet(v);
    AloneFirst(s, t, a);
    AloneNext(s, Effect(Uninitialized, s.value, SetCas(v), None), s.log, t, a, 1);
    AloneNext(s, Effect(Initializing, s.value, SetWrite(v), None), s.log, t, a, 2);
  }

  /** `set` on an uninitialised cell stores its value, publishes it and reports success. */
  lemma {:induction false} SetAloneStores<T(!new)>(s: State<T>, t: nat, v: T)
    requires t in s.pcs && s.pcs[t] == Outside && s.once == Uninitialized
    ensures Run(s, Alone(t, CallSet(v), 3)) == State(Initialized, Some(v), s.pcs, s.log + [Wrote(t, v), SetOk(t, v)])
  {
    SetAloneWrites(s, t, v);
    AloneNext(s, Effect(Initializing, Some(v), SetPublish(v), None), s.log + [Wrote(t, v)], t, CallSet(v), 3);
    Returned(s.pcs, t);
    assert s.log + [Wrote(t, v)] + [SetOk(t, v)] == s.log + [Wrote(t, v), SetOk(t, v)];
  }

  /** ... and on any other it fails at once, and leaves everything as it was. */
  lemma {:induction false} SetAloneFails<T(!new)>(s: State<T>, t: nat, v: T)
    requires t in s.pcs && s.pcs[t] == Outside && s.once != Uninitialized
    ensures Run(s, Alone(t, CallSet(v), 1)) == s.(log := s.log + [SetErr(t)])
  {
    AloneFirst(s, t, CallSet(v));
    AloneNext(s, Effect(s.once, s.value, SetCas(v), None), s.log, t, CallSet(v), 1);
    Returned(s.pcs, t);
  }

  /** `get_or_init` on an uninitialised cell reaches its initialiser, with the word claimed. */
  lemma {:induction false} InitialiserIsReached<T(!new)>(s: State<T>, t: nat)
    requires t in s.pcs && s.pcs[t] == Outside && s.once == Uninitialized
    ensures Run(s, Alone(t, CallGetOrInit, 2)) == s.(once := Initializing, pcs := s.pcs[t := RunInit])
  {
    AloneFirst(s, t, CallGetOrInit);
    AloneNext(s, Effect(s.once, s.value, FastLoad, None), s.log, t, CallGetOrInit, 1);
    AloneNext(s, Effect(s.once, s.value, Cas, None), s.log, t, CallGetOrInit, 2);
  }

  lemma {:induction false} InitialiserResultIsStored<T(!new)>(s: State<T>, t: nat, v: T, log: seq<Event<T>>)
    requires t in s.pcs && s.pcs[t] == RunInit && log == s.log + [InitReturned(t, v)]
    ensures Run(s, Alone(t, InitReturns(v), 2)) == State(Initialized, Some(v), s.pcs[t := Read], log + [Wrote(t, v)])
  {
    var a := InitReturns(v);
    AloneFirst(s, t, a);
    AloneNext(s, Effect(s.once, s.value, Write(v), None), log, t, a, 1);
    AloneNext(s, Effect(s.once, Some(v), Publish, None), log + [Wrote(t, v)], t, a, 2);
  }

  /** What the initialiser returns is stored, published and handed to the caller. */
  lemma {:induction false} InitialiserResultIsReturned<T(!new)>(s: State<T>, t: nat, v: T)
    requires t in s.pcs && s.pcs[t] == RunInit
    ensures Run(s, Alone(t, InitReturns(v), 3))
         == State(Initialized, Some(v), s.pcs[t := Outside], s.log + [InitReturned(t, v), Wrote(t, v), Saw(t, v)])
  {
    var log := s.log + [InitReturned(t, v)];
    InitialiserResultIsStored(s, t, v, log);
    AloneNext(s, Effect(Initialized, Some(v), Read, None), log + [Wrote(t, v)], t, InitReturns(v), 3);
    assert log + [Wrote(t, v)] + [Saw(t, v)] == s.log + [InitReturned(t, v), Wrote(t, v), Saw(t, v)];
  }

  /** An initialiser that panics leaves the cell as if the call had not been made. */
  lemma {:induction false} PanicLeavesNoTrace<T(!new)>(s: State<T>, t: nat)
    requires t in s.pcs && s.pcs[t] == RunInit
    ensures Run(s, Alone(t, InitPanics, 1))
         == State(Uninitialized, s.value, s.pcs[t := Outside], s.log + [InitPanicked(t)])
  {
    AloneFirst(s, t, InitPanics);
    AloneNext(s, Effect(s.once, s.value, DropGuard, None), s.log + [InitPanicked(t)], t, InitPanics, 1);
  }

  /** On an initialised cell `get` returns the stored value. */
  lemma {:induction false} InitializedIsGot<T(!new)>(s: State<T>, t: nat)
    requires t in s.pcs && s.pcs[t] == Outside && s.once == Initialized && s.value.Some?
    ensures Run(s, Alone(t, CallGet, 2)) == s.(log := s.log + [Saw(t, s.value.value)])
  {
    AloneFirst(s, t, CallGet);
    AloneNext(s, Effect(s.once, s.value, GetLoad, None), s.log, t, CallGet, 1);
    AloneNext(s, Effect(s.once, s.value, GetRead, None), s.log, t, CallGet, 2);
    Returned(s.pcs, t);
  }

  /** So does `get_or_init`, which runs no initialiser. */
  lemma {:induction false} InitializedIsNotRunAgain<T(!new)>(s: State<T>, t: nat)
    requires t in s.pcs && s.pcs[t] == Outside && s.once == Initialized && s.value.Some?
    ensures Run(s, Alone(t, CallGetOrInit, 2)) == s.(log := s.log + [Saw(t, s.value.value)])
  {
    AloneFirst(s, t, CallGetOrInit);
    AloneNext(s, Effect(s.once, s.value, FastLoad, None), s.log, t, CallGetOrInit, 1);
    AloneNext(s, Effect(s.once, s.value, Read, None), s.log, t, CallGetOrInit, 2);
    Returned(s.pcs, t);
  }

  /** A `get` before the value is published reports None. */
  lemma {:induction false} EarlyGetIsNone<T(!new)>(s: State<T>, t: nat)
    requires t in s.pcs && s.pcs[t] == Outside && s.once != Initialized
    ensures Run(s, Alone(t, CallGet, 1)) == s.(log := s.log + [GotNone(t)])
  {
    AloneFirst(s, t, CallGet);
    AloneNext(s, Effect(s.once, s.value, GetLoad, None), s.log, t, CallGet, 1);
    Returned(s.pcs, t);
  }

  // ----- a caller that lost the exchange -----

  /** It waits while the word is Initializing. */
  lemma {:induction false} WaiterWaits<T(!new)>(s: State<T>, t: nat)
    requires t in s.pcs && s.pcs[t] == Spin && s.once == Initializing
    ensures Step(s, t, Advance) == s
  {
    assert s.pcs[t := Spin] == s.pcs;
  }

  /** Once the value is published it returns that value. */
  lemma {:induction false} WaiterReturns<T(!new)>(s: State<T>, t: nat)
    requires t in s.pcs && s.pcs[t] == Spin && s.once == Initialized && s.value.Some?
    ensures Run(s, Alone(t, Advance, 2)) == s.(pcs := s.pcs[t := Outside], log := s.log + [Saw(t, s.value.value)])
  {
    AloneFirst(s, t, Advance);
    AloneNext(s, Effect(s.once, s.value, Recheck, None), s.log, t, Advance, 1);
    AloneNext(s, Effect(s.once, s.value, Read, None), s.log, t, Advance, 2);
  }

  /** If the initialiser it waited for panicked, it claims the word and runs its own. */
  lemma {:induction false} WaiterTakesOver<T(!new)>(s: State<T>, t: nat)
    requires t in s.pcs && s.pcs[t] == Spin && s.once == Uninitialized
    ensures Run(s, Alone(t, Advance, 3)) == s.(once := Initializing, pcs := s.pcs[t := RunInit])
  {
    AloneFirst(s, t, Advance);
    AloneNext(s, Effect(s.once, s.value, Recheck, None), s.log, t, Advance, 1);
    AloneNext(s, Effect(s.once, s.value, FastLoad, None), s.log, t, Advance, 2);
    AloneNext(s, Effect(s.once, s.value, Cas, None), s.log, t, Advance, 3);
  }
}
