/**
Capability address resolution: a walk through CNodes that consumes, at each node, the
node's guard and then an index.  The capability graph is arbitrary and may be cyclic.
*/
module CSpace {
  import opened Wrappers
  import opened Bits
  import opened Caps
  import opened CNode

  /** Slots are read through their address; every address holds some raw capability. */
  type Memory = nat -> CapRaw

  datatype Resolved = Resolved(slot: nat, bitsRemaining: nat)

  /** Address of slot `index` of the node `cap` names. */
  function SlotAt(cap: CapRaw, index: nat): (r: nat) { cap.paddr + CNODE_ENTRY_SZ * index }

  // ----- one iteration of the walk -----

  datatype Progress = Done(result: Result<Resolved, SysError>) | Go(slot: nat, bits: nat)

  /** `(cptr >> shift) & mask!(width)`, where the processor keeps six bits of the shift. */
  function ShiftMask(cptr: nat, shift: int, width: nat): (r: nat) { Field(cptr, shift % 64, width) }

  function Step(mem: Memory, slot: nat, cptr: nat, bits: nat): (p: Progress) {
    var cap := mem(slot);
    if cap.capType != CNode then Done(Err(CSpaceNotFound))
    else if GuardBits(cap) > bits
         || (if GuardBits(cap) == 0 then 0
             else ShiftMask(cptr, bits - GuardBits(cap), GuardBits(cap))) != cap.arg2 then
      Done(Err(LookupError))
    else if LevelBits(cap) > bits then Done(Err(LookupError))
    else
      var index := if RadixBits(cap) == 0 then 0
                   else ShiftMask(cptr, bits - LevelBits(cap), RadixBits(cap));
      if index >= Pow2(RadixBits(cap)) then Done(Err(SlotEmpty))
      else if bits == LevelBits(cap) then Done(Ok(Resolved(SlotAt(cap, index), 0)))
      else if mem(SlotAt(cap, index)).capType != CNode then
        Done(Ok(Resolved(SlotAt(cap, index), bits - LevelBits(cap))))
      else Go(SlotAt(cap, index), bits - LevelBits(cap))
  }

  /** At most `k` iterations of the loop; None when it is still going. */
  function ResolveWithin(mem: Memory, slot: nat, cptr: nat, bits: nat, k: nat): (r: Option<Result<Resolved, SysError>>)
    decreases k
  {
    if k == 0 then None
    else match Step(mem, slot, cptr, bits)
      case Done(res) => Some(res)
      case Go(next, rest) => ResolveWithin(mem, next, cptr, rest, k - 1)
  }

  // ----- whether it ends -----

  /** Some number of turns is enough. */
  ghost predicate Halts(mem: Memory, slot: nat, cptr: nat, bits: nat) {
    exists k: nat :: ResolveWithin(mem, slot, cptr, bits, k).Some?
  }

  /** A CNode capability that lets every address through and consumes none of it. */
  predicate ZeroNode(cap: CapRaw) { cap.capType == CNode && LevelBits(cap) == 0 && cap.arg2 == 0 }

  /** The slot `n` first slots further on. */
  function Hop(mem: Memory, slot: nat, n: nat): (r: nat)
    decreases n
  {
    if n == 0 then slot else Hop(mem, SlotAt(mem(slot), 0), n - 1)
  }

  /** From `slot` on, first slot after first slot, there are only such capabilities. */
  ghost predicate Stuck(mem: Memory, slot: nat) { forall n: nat :: ZeroNode(mem(Hop(mem, slot, n))) }

  /** Where `k` turns lead, if none of them ends the walk. */
  function Advance(mem: Memory, slot: nat, cptr: nat, bits: nat, k: nat): (r: Option<(nat, nat)>)
    decreases k
  {
    if k == 0 then Some((slot, bits))
    else match Step(mem, slot, cptr, bits)
      case Done(_) => None
      case Go(next, rest) => Advance(mem, next, cptr, rest, k - 1)
  }

  /** The walk comes, with bits left to resolve, to a capability it never gets away from. */
  ghost predicate EntersStuck(mem: Memory, slot: nat, cptr: nat, bits: nat) {
    exists k: nat :: EntersStuckAt(mem, slot, cptr, bits, k)
  }

  ghost predicate EntersStuckAt(mem: Memory, slot: nat, cptr: nat, bits: nat, k: nat) {
    var p := Advance(mem, slot, cptr, bits, k);
    p.Some? && p.value.1 > 0 && Stuck(mem, p.value.0)
  }

  lemma StuckStays(mem: Memory, slot: nat)
    requires Stuck(mem, slot)
    ensures ZeroNode(mem(slot)) && Stuck(mem, SlotAt(mem(slot), 0))
  {
    assert Hop(mem, slot, 0) == slot;
    forall n: nat ensures ZeroNode(mem(Hop(mem, SlotAt(mem(slot), 0), n))) {
      assert Hop(mem, slot, n + 1) == Hop(mem, SlotAt(mem(slot), 0), n);
    }
  }

  lemma {:induction false} StuckNeverEnds(mem: Memory, slot: nat, cptr: nat, bits: nat, k: nat)
    requires Stuck(mem, slot) && bits > 0
    ensures ResolveWithin(mem, slot, cptr, bits, k) == None
    decreases k
  {
    if k > 0 {
      StuckStays(mem, slot);
      StuckStays(mem, SlotAt(mem(slot), 0));
      StuckNeverEnds(mem, SlotAt(mem(slot), 0), cptr, bits, k - 1);
    }
  }

  lemma {:induction false} EnteringNeverEnds(mem: Memory, slot: nat, cptr: nat, bits: nat, j: nat, k: nat)
    requires EntersStuckAt(mem, slot, cptr, bits, j)
    ensures ResolveWithin(mem, slot, cptr, bits, k) == None
    decreases j
  {
    if j == 0 {
      StuckNeverEnds(mem, slot, cptr, bits, k);
    } else if k > 0 {
      var p := Step(mem, slot, cptr, bits);
      EnteringNeverEnds(mem, p.slot, cptr, p.bits, j - 1, k - 1);
    }
  }

  /** A walk that does not end goes on from here, and does not end there either. */
  lemma EndlessGoes(mem: Memory, slot: nat, cptr: nat, bits: nat)
    requires !Halts(mem, slot, cptr, bits)
    ensures var p := Step(mem, slot, cptr, bits);
            p.Go? && p.bits <= bits && 0 < p.bits && !Halts(mem, p.slot, cptr, p.bits)
    ensures ZeroNode(mem(slot)) ==> Step(mem, slot, cptr, bits) == Go(SlotAt(mem(slot), 0), bits)
    ensures !ZeroNode(mem(slot)) ==> Step(mem, slot, cptr, bits).bits < bits
  {
    var p := Step(mem, slot, cptr, bits);
    assert p.Done? ==> ResolveWithin(mem, slot, cptr, bits, 1).Some?;
    if k: nat :| p.Go? && ResolveWithin(mem, p.slot, cptr, p.bits, k).Some? {
      assert ResolveWithin(mem, slot, cptr, bits, k + 1).Some?;
    }
  }

  lemma EntersLater(mem: Memory, slot: nat, cptr: nat, bits: nat)
    requires var p := Step(mem, slot, cptr, bits); p.Go? && EntersStuck(mem, p.slot, cptr, p.bits)
    ensures EntersStuck(mem, slot, cptr, bits)
  {
    var p := Step(mem, slot, cptr, bits);
    var k: nat :| EntersStuckAt(mem, p.slot, cptr, p.bits, k);
    assert EntersStuckAt(mem, slot, cptr, bits, k + 1);
  }

  lemma {:induction false} EndlessEnters(mem: Memory, slot: nat, cptr: nat, bits: nat)
    requires !Halts(mem, slot, cptr, bits)
    ensures EntersStuck(mem, slot, cptr, bits)
    decreases bits, 1, 0
  {
    EndlessGoes(mem, slot, cptr, bits);
    if Stuck(mem, slot) {
      assert EntersStuckAt(mem, slot, cptr, bits, 0);
    } else {
      var n: nat :| !ZeroNode(mem(Hop(mem, slot, n)));
      EndlessLeaves(mem, slot, cptr, bits, n);
    }
  }

  /** An endless walk gets past a chain of such capabilities if the chain has an end. */
  lemma {:induction false} EndlessLeaves(mem: Memory, slot: nat, cptr: nat, bits: nat, n: nat)
    requires !Halts(mem, slot, cptr, bits) && !ZeroNode(mem(Hop(mem, slot, n)))
    ensures EntersStuck(mem, slot, cptr, bits)
    decreases bits, 0, n
  {
    EndlessGoes(mem, slot, cptr, bits);
    var p := Step(mem, slot, cptr, bits);
    if ZeroNode(mem(slot)) {
      EndlessLeaves(mem, p.slot, cptr, p.bits, n - 1);
    } else {
      EndlessEnters(mem, p.slot, cptr, p.bits);
    }
    EntersLater(mem, slot, cptr, bits);
  }

  /** On every capability graph, cyclic or not: resolution ends exactly when it never gets stuck. */
  lemma ResolutionEndsWhen(mem: Memory, slot: nat, cptr: nat, bits: nat)
    ensures Halts(mem, slot, cptr, bits) <==> !EntersStuck(mem, slot, cptr, bits)
  {
    if !Halts(mem, slot, cptr, bits) {
      EndlessEnters(mem, slot, cptr, bits);
    } else if j: nat :| EntersStuckAt(mem, slot, cptr, bits, j) {
      forall k: nat ensures ResolveWithin(mem, slot, cptr, bits, k) == None {
        EnteringNeverEnds(mem, slot, cptr, bits, j, k);
      }
    }
  }

  /** The walk stands, within `k` turns, on a CNode that resolves no bits. */
  ghost predicate TripsWithin(mem: Memory, slot: nat, cptr: nat, bits: nat, k: nat) {
    exists j: nat :: TripsAt(mem, slot, cptr, bits, j) && j < k
  }

  predicate TripsAt(mem: Memory, slot: nat, cptr: nat, bits: nat, j: nat) {
    var p := Advance(mem, slot, cptr, bits, j);
    p.Some? && mem(p.value.0).capType == CNode && LevelBits(mem(p.value.0)) == 0
  }

  /** On every graph, after one turn per address bit the walk has ended or tripped the kernel's assertion. */
  lemma {:induction false} EndsOrTrips(mem: Memory, slot: nat, cptr: nat, bits: nat)
    ensures ResolveWithin(mem, slot, cptr, bits, bits + 1).Some? || TripsWithin(mem, slot, cptr, bits, bits + 1)
    decreases bits
  {
    match Step(mem, slot, cptr, bits)
    case Done(_) =>
    case Go(next, rest) =>
      if LevelBits(mem(slot)) == 0 {
        assert TripsAt(mem, slot, cptr, bits, 0);
      } else {
        EndsOrTrips(mem, next, cptr, rest);
        if ResolveWithin(mem, next, cptr, rest, rest + 1).Some? {
          MoreTurns(mem, next, cptr, rest, rest + 1, bits);
        } else {
          var j: nat :| TripsAt(mem, next, cptr, rest, j) && j < rest + 1;
          assert TripsAt(mem, slot, cptr, bits, j + 1);
        }
      }
  }

  /** Turns beyond the last change nothing. */
  lemma {:induction false} MoreTurns(mem: Memory, slot: nat, cptr: nat, bits: nat, j: nat, k: nat)
    requires j <= k && ResolveWithin(mem, slot, cptr, bits, j).Some?
    ensures ResolveWithin(mem, slot, cptr, bits, k) == ResolveWithin(mem, slot, cptr, bits, j)
    decreases j
  {
    match Step(mem, slot, cptr, bits)
    case Done(_) =>
    case Go(next, rest) => MoreTurns(mem, next, cptr, rest, j - 1, k - 1);
  }

  /** An input on which it does not end: a zero-bit node in its own first slot. */
  lemma ZeroBitNodeNeverResolves(mem: Memory, slot: nat, cptr: nat, bits: nat)
    requires ZeroNode(mem(slot)) && mem(slot).paddr == slot && bits > 0
    ensures !Halts(mem, slot, cptr, bits)
  {
    forall n: nat ensures ZeroNode(mem(Hop(mem, slot, n))) { HopsHome(mem, slot, n); }
    assert EntersStuckAt(mem, slot, cptr, bits, 0);
    ResolutionEndsWhen(mem, slot, cptr, bits);
  }

  lemma {:induction false} HopsHome(mem: Memory, slot: nat, n: nat)
    requires mem(slot).paddr == slot
    ensures Hop(mem, slot, n) == slot
    decreases n
  {
    if n > 0 { HopsHome(mem, slot, n - 1); }
  }

  // ----- the walk -----

  /** What resolution returns, or None when it never does. */
  ghost function Resolve(mem: Memory, slot: nat, cptr: nat, bits: nat): (r: Option<Result<Resolved, SysError>>) {
    if Halts(mem, slot, cptr, bits) then
      var k: nat :| ResolveWithin(mem, slot, cptr, bits, k).Some?;
      ResolveWithin(mem, slot, cptr, bits, k)
    else None
  }

  lemma ResolveIs(mem: Memory, slot: nat, cptr: nat, bits: nat, k: nat)
    requires ResolveWithin(mem, slot, cptr, bits, k).Some?
    ensures Resolve(mem, slot, cptr, bits) == ResolveWithin(mem, slot, cptr, bits, k)
  {
    var j: nat :| ResolveWithin(mem, slot, cptr, bits, j).Some?
                  && Resolve(mem, slot, cptr, bits) == ResolveWithin(mem, slot, cptr, bits, j);
    if j <= k { MoreTurns(mem, slot, cptr, bits, j, k); } else { MoreTurns(mem, slot, cptr, bits, k, j); }
  }

  /** One turn of the walk, and then the rest. */
  lemma ResolveStep(mem: Memory, slot: nat, cptr: nat, bits: nat)
    ensures Resolve(mem, slot, cptr, bits) ==
              match Step(mem, slot, cptr, bits)
              case Done(res) => Some(res)
              case Go(next, rest) => Resolve(mem, next, cptr, rest)
  {
    match Step(mem, slot, cptr, bits)
    case Done(_) => ResolveIs(mem, slot, cptr, bits, 1);
    case Go(next, rest) =>
      if Halts(mem, next, cptr, rest) {
        var k: nat :| ResolveWithin(mem, next, cptr, rest, k).Some?;
        ResolveIs(mem, next, cptr, rest, k);
        ResolveIs(mem, slot, cptr, bits, k + 1);
      } else {
        forall k: nat ensures ResolveWithin(mem, slot, cptr, bits, k) == None {
          assert k > 0 ==> ResolveWithin(mem, slot, cptr, bits, k) == ResolveWithin(mem, next, cptr, rest, k - 1);
        }
      }
  }

  /** One turn of the kernel's loop. */
  method ResolveTurn(mem: Memory, current: nat, cptr: nat, bits: nat) returns (p: Progress)
    ensures p == Step(mem, current, cptr, bits)
  {
    var cap := mem(current);
    if cap.capType != CNode {
      return Done(Err(CSpaceNotFound));
    }
    var radixBits, guardBits := RadixBits(cap), GuardBits(cap);
    var levelBits := radixBits + guardBits;
    var guard := if guardBits == 0 then 0 else ShiftMask(cptr, bits - guardBits, guardBits);
    if guardBits > bits || guard != cap.arg2 {
      return Done(Err(LookupError));
    }
    if levelBits > bits {
      return Done(Err(LookupError));
    }
    var index := if radixBits == 0 then 0 else ShiftMask(cptr, bits - levelBits, radixBits);
    if index >= Pow2(radixBits) {
      return Done(Err(SlotEmpty));
    }
    var slot := SlotAt(cap, index);
    if bits == levelBits {
      return Done(Ok(Resolved(slot, 0)));
    }
    if mem(slot).capType != CNode {
      return Done(Ok(Resolved(slot, bits - levelBits)));
    }
    return Go(slot, bits - levelBits);
  }

  lemma {:induction false} OneTurnLess(mem: Memory, slot: nat, cptr: nat, bits: nat, k: nat)
    requires ResolveWithin(mem, slot, cptr, bits, k).Some?
    ensures k > 0 && match Step(mem, slot, cptr, bits)
                     case Done(_) => true
                     case Go(next, rest) => ResolveWithin(mem, next, cptr, rest, k - 1).Some?
  {}

  /** The kernel's loop, wherever it ends. */
  method ResolveInternal(mem: Memory, root: nat, cptr: nat, depth: nat) returns (r: Result<Resolved, SysError>)
    requires !EntersStuck(mem, root, cptr, depth)
    ensures Some(r) == Resolve(mem, root, cptr, depth)
  {
    ResolutionEndsWhen(mem, root, cptr, depth);
    ghost var turns: nat :| ResolveWithin(mem, root, cptr, depth, turns).Some?;
    var current, bits := root, depth;
    while true
      invariant ResolveWithin(mem, current, cptr, bits, turns).Some?
      invariant Resolve(mem, current, cptr, bits) == Resolve(mem, root, cptr, depth)
      decreases turns
    {
      OneTurnLess(mem, current, cptr, bits, turns);
      ResolveStep(mem, current, cptr, bits);
      var p := ResolveTurn(mem, current, cptr, bits);
      match p {
        case Done(result) => return result;
        case Go(slot, rest) => current, bits, turns := slot, rest, turns - 1;
      }
    }
  }

  // ----- what an address means -----

  /**
  Following `indices` from the capability in `slot` is legal at every hop and ends at `target`, in
  a node that resolves bits.
  */
  ghost predicate PathTo(mem: Memory, slot: nat, indices: seq<nat>, target: nat)
    decreases |indices|
  {
    var cap := mem(slot);
    && |indices| > 0
    && cap.capType == CNode
    && cap.arg2 < Pow2(GuardBits(cap))
    && indices[0] < Pow2(RadixBits(cap))
    && (if |indices| == 1 then LevelBits(cap) > 0 && target == SlotAt(cap, indices[0])
        else PathTo(mem, SlotAt(cap, indices[0]), indices[1..], target))
  }

  /** Number of address bits the path spells. */
  ghost function PathBits(mem: Memory, slot: nat, indices: seq<nat>): (r: nat)
    decreases |indices|
  {
    if indices == [] then 0
    else LevelBits(mem(slot)) + PathBits(mem, SlotAt(mem(slot), indices[0]), indices[1..])
  }

  /** Guard and index of one node as a number. */
  function HeadValue(cap: CapRaw, index: nat): (r: nat) { cap.arg2 * Pow2(RadixBits(cap)) + index }

  /** The path as a number: guard, index, guard, index, ... most significant first. */
  ghost function PathValue(mem: Memory, slot: nat, indices: seq<nat>): (r: nat)
    decreases |indices|
  {
    if indices == [] then 0
    else
      var cap, next := mem(slot), SlotAt(mem(slot), indices[0]);
      HeadValue(cap, indices[0]) * Pow2(PathBits(mem, next, indices[1..])) + PathValue(mem, next, indices[1..])
  }

  ghost predicate Spells(mem: Memory, slot: nat, cptr: nat, bits: nat, indices: seq<nat>, target: nat) {
    && PathTo(mem, slot, indices, target)
    && PathBits(mem, slot, indices) == bits
    && PathValue(mem, slot, indices) == Low(cptr, bits)
  }

  lemma {:induction false} PathHasBits(mem: Memory, slot: nat, indices: seq<nat>, target: nat)
    requires PathTo(mem, slot, indices, target)
    ensures PathBits(mem, slot, indices) > 0
    decreases |indices|
  {
    if |indices| > 1 { PathHasBits(mem, SlotAt(mem(slot), indices[0]), indices[1..], target); }
  }

  lemma HeadFits(cap: CapRaw, index: nat)
    requires cap.arg2 < Pow2(GuardBits(cap)) && index < Pow2(RadixBits(cap))
    ensures HeadValue(cap, index) < Pow2(LevelBits(cap))
  {
    Pow2Add(GuardBits(cap), RadixBits(cap));
    DigitsFit(cap.arg2, index, Pow2(GuardBits(cap)), Pow2(RadixBits(cap)));
  }

  /** A head and a tail that each fit their bits make a number that fits both. */
  lemma HeadAndTailFit(head: nat, bits: nat, tail: nat, rest: nat)
    requires head < Pow2(bits) && tail < Pow2(rest)
    ensures head * Pow2(rest) + tail < Pow2(bits + rest)
  {
    Pow2Add(bits, rest);
    DigitsFit(head, tail, Pow2(bits), Pow2(rest));
  }

  lemma {:induction false} PathValueFits(mem: Memory, slot: nat, indices: seq<nat>, target: nat)
    requires PathTo(mem, slot, indices, target)
    ensures PathValue(mem, slot, indices) < Pow2(PathBits(mem, slot, indices))
    decreases |indices|
  {
    var cap, next, tail := mem(slot), SlotAt(mem(slot), indices[0]), indices[1..];
    if |indices| > 1 { PathValueFits(mem, next, tail, target); }
    HeadFits(cap, indices[0]);
    HeadAndTailFit(HeadValue(cap, indices[0]), LevelBits(cap), PathValue(mem, next, tail), PathBits(mem, next, tail));
  }

  /** The low `bits` bits of an address are: guard field, index field, and what is left. */
  lemma SplitAddress(cptr: nat, bits: nat, g: nat, r: nat)
    requires g + r <= bits
    ensures Low(cptr, bits)
         == (Field(cptr, bits - g, g) * Pow2(r) + Field(cptr, bits - g - r, r)) * Pow2(bits - g - r)
            + Low(cptr, bits - g - r)
  {
    var rest := bits - g - r;
    SplitField(cptr, rest + r, g);
    SplitField(cptr, rest, r);
    Pow2Add(r, rest);
    Regroup(Field(cptr, bits - g, g), Field(cptr, rest, r), Pow2(r), Pow2(rest));
  }

  /** The fields one iteration reads, without the shift wrap. */
  ghost predicate HeadMatches(cap: CapRaw, cptr: nat, bits: nat, index: nat) {
    && LevelBits(cap) <= bits
    && cap.arg2 == Field(cptr, bits - GuardBits(cap), GuardBits(cap))
    && index == Field(cptr, bits - LevelBits(cap), RadixBits(cap))
  }

  lemma StepReadsFields(mem: Memory, slot: nat, cptr: nat, bits: nat)
    requires 0 < bits <= 64 && mem(slot).capType == CNode
    ensures var cap, p := mem(slot), Step(mem, slot, cptr, bits);
            if exists index :: HeadMatches(cap, cptr, bits, index) then
              var index := Field(cptr, bits - LevelBits(cap), RadixBits(cap));
              var next := SlotAt(cap, index);
              && HeadMatches(cap, cptr, bits, index)
              && (if bits == LevelBits(cap) then p == Done(Ok(Resolved(next, 0)))
                  else if mem(next).capType != CNode then p == Done(Ok(Resolved(next, bits - LevelBits(cap))))
                  else p == Go(next, bits - LevelBits(cap)))
            else p == Done(Err(LookupError))
  {
    var cap := mem(slot);
    if LevelBits(cap) <= bits {
      assert GuardBits(cap) > 0 ==> (bits - GuardBits(cap)) % 64 == bits - GuardBits(cap);
      assert RadixBits(cap) > 0 ==> (bits - LevelBits(cap)) % 64 == bits - LevelBits(cap);
      assert HeadMatches(cap, cptr, bits, Field(cptr, bits - LevelBits(cap), RadixBits(cap)))
        <==> cap.arg2 == Field(cptr, bits - GuardBits(cap), GuardBits(cap));
    }
  }

  /** A guard, an index and a tail spell an address exactly when each is the field in its place. */
  lemma HeadOfAddress(cptr: nat, g: nat, r: nat, rest: nat, guard: nat, index: nat, tail: nat)
    requires index < Pow2(r) && tail < Pow2(rest)
    ensures (guard * Pow2(r) + index) * Pow2(rest) + tail == Low(cptr, g + r + rest) <==>
              && guard == Field(cptr, r + rest, g)
              && index == Field(cptr, rest, r)
              && tail == Low(cptr, rest)
  {
    SplitAddress(cptr, g + r + rest, g, r);
    ThreeDigitsUnique(Pow2(r), Pow2(rest), guard, index, tail,
                      Field(cptr, r + rest, g), Field(cptr, rest, r), Low(cptr, rest));
  }

  lemma SpellsOne(mem: Memory, slot: nat, cptr: nat, bits: nat, index: nat, target: nat)
    requires mem(slot).capType == CNode
    ensures Spells(mem, slot, cptr, bits, [index], target) <==>
              && HeadMatches(mem(slot), cptr, bits, index)
              && 0 < bits == LevelBits(mem(slot)) && target == SlotAt(mem(slot), index)
  {
    var cap := mem(slot);
    assert PathBits(mem, slot, [index]) == LevelBits(cap);
    assert PathValue(mem, slot, [index]) == (cap.arg2 * Pow2(RadixBits(cap)) + index) * Pow2(0) + 0;
    if bits == LevelBits(cap) && index < Pow2(RadixBits(cap)) {
      HeadOfAddress(cptr, GuardBits(cap), RadixBits(cap), 0, cap.arg2, index, 0);
    }
  }

  /** A longer path spells an address exactly when its head matches and its tail spells the rest. */
  lemma SpellsMore(mem: Memory, slot: nat, cptr: nat, bits: nat, index: nat, tail: seq<nat>, target: nat)
    requires mem(slot).capType == CNode && |tail| > 0
    ensures Spells(mem, slot, cptr, bits, [index] + tail, target) <==>
              && HeadMatches(mem(slot), cptr, bits, index)
              && Spells(mem, SlotAt(mem(slot), index), cptr, bits - LevelBits(mem(slot)), tail, target)
  {
    var cap, next, path := mem(slot), SlotAt(mem(slot), index), [index] + tail;
    assert path[1..] == tail;
    var rest, value := PathBits(mem, next, tail), PathValue(mem, next, tail);
    assert PathBits(mem, slot, path) == LevelBits(cap) + rest;
    assert PathValue(mem, slot, path) == (cap.arg2 * Pow2(RadixBits(cap)) + index) * Pow2(rest) + value;
    if PathTo(mem, next, tail, target) && bits == LevelBits(cap) + rest && index < Pow2(RadixBits(cap)) {
      PathValueFits(mem, next, tail, target);
      HeadOfAddress(cptr, GuardBits(cap), RadixBits(cap), rest, cap.arg2, index, value);
    }
  }

  // ----- the main results -----

  /** Resolution ends with no bits left exactly when the address spells a path, and then at its end. */
  lemma ResolveMeansPath(mem: Memory, slot: nat, cptr: nat, bits: nat, target: nat)
    requires 0 < bits <= 64
    ensures Resolve(mem, slot, cptr, bits) == Some(Ok(Resolved(target, 0)))
        <==> exists indices :: Spells(mem, slot, cptr, bits, indices, target)
  {
    if Resolve(mem, slot, cptr, bits) == Some(Ok(Resolved(target, 0))) {
      var k: nat :| ResolveWithin(mem, slot, cptr, bits, k).Some?;
      ResolveIs(mem, slot, cptr, bits, k);
      var indices := ResolvedPath(mem, slot, cptr, bits, target, k);
    }
    forall indices | Spells(mem, slot, cptr, bits, indices, target)
      ensures Resolve(mem, slot, cptr, bits) == Some(Ok(Resolved(target, 0)))
    {
      PathResolves(mem, slot, cptr, bits, indices, target);
    }
  }

  lemma {:induction false} ResolvedPath(mem: Memory, slot: nat, cptr: nat, bits: nat, target: nat, k: nat)
    returns (indices: seq<nat>)
    requires 0 < bits <= 64 && ResolveWithin(mem, slot, cptr, bits, k) == Some(Ok(Resolved(target, 0)))
    ensures Spells(mem, slot, cptr, bits, indices, target)
    decreases k
  {
    var cap := mem(slot);
    StepReadsFields(mem, slot, cptr, bits);
    var index := Field(cptr, bits - LevelBits(cap), RadixBits(cap));
    if LevelBits(cap) == bits {
      SpellsOne(mem, slot, cptr, bits, index, target);
      indices := [index];
    } else {
      var tail := ResolvedPath(mem, SlotAt(cap, index), cptr, bits - LevelBits(cap), target, k - 1);
      SpellsMore(mem, slot, cptr, bits, index, tail, target);
      indices := [index] + tail;
    }
  }

  lemma {:induction false} PathResolves(
    mem: Memory, slot: nat, cptr: nat, bits: nat, indices: seq<nat>, target: nat)
    requires 0 < bits <= 64 && Spells(mem, slot, cptr, bits, indices, target)
    ensures Resolve(mem, slot, cptr, bits) == Some(Ok(Resolved(target, 0)))
    decreases |indices|
  {
    StepReadsFields(mem, slot, cptr, bits);
    ResolveStep(mem, slot, cptr, bits);
    SpellsHead(mem, slot, cptr, bits, indices, target);
    if |indices| > 1 {
      var cap := mem(slot);
      PathResolves(mem, SlotAt(cap, indices[0]), cptr, bits - LevelBits(cap), indices[1..], target);
    }
  }

  /** Taking a spelt path apart. */
  lemma SpellsHead(mem: Memory, slot: nat, cptr: nat, bits: nat, indices: seq<nat>, target: nat)
    requires Spells(mem, slot, cptr, bits, indices, target)
    ensures var cap := mem(slot);
            var next := SlotAt(cap, indices[0]);
            && HeadMatches(cap, cptr, bits, indices[0])
            && (if |indices| == 1 then 0 < bits == LevelBits(cap) && target == next
                else bits > LevelBits(cap) && mem(next).capType == CNode
                     && Spells(mem, next, cptr, bits - LevelBits(cap), indices[1..], target))
  {
    if |indices| == 1 {
      assert indices == [indices[0]];
      SpellsOne(mem, slot, cptr, bits, indices[0], target);
    } else {
      assert indices == [indices[0]] + indices[1..];
      SpellsMore(mem, slot, cptr, bits, indices[0], indices[1..], target);
      PathHasBits(mem, SlotAt(mem(slot), indices[0]), indices[1..], target);
    }
  }

  /** `lookup_with_depth`, or None when it never returns. */
  ghost function LookupWithDepth(mem: Memory, root: nat, cptr: nat, depth: nat): (r: Option<Result<nat, SysError>>) {
    if !(1 <= depth <= CNODE_DEPTH) then Some(Err(InvalidValue))
    else match Resolve(mem, root, cptr, depth)
      case None => None
      case Some(Err(e)) => Some(Err(e))
      case Some(Ok(res)) => if res.bitsRemaining != 0 then Some(Err(LookupError)) else Some(Ok(res.slot))
  }

  /** A lookup succeeds with a slot exactly when the low `depth` bits spell a path to it. */
  lemma LookupMeansPath(mem: Memory, root: nat, cptr: nat, depth: nat, target: nat)
    ensures LookupWithDepth(mem, root, cptr, depth) == Some(Ok(target))
        <==> 1 <= depth <= 32 && exists indices :: Spells(mem, root, cptr, depth, indices, target)
  {
    if 1 <= depth <= 32 { ResolveMeansPath(mem, root, cptr, depth, target); }
  }

  /** In one node: a right guard selects the slot 64 bytes times the index into the node, and a wrong one fails. */
  lemma LookupInOneNode(mem: Memory, root: nat, cptr: nat, g: nat, r: nat)
    requires mem(root).capType == CNode && g == mem(root).arg1 % 64 && r == mem(root).arg1 / 64 % 64
    requires 1 <= g + r <= 32
    ensures LookupWithDepth(mem, root, cptr, g + r) ==
              if cptr / Pow2(r) % Pow2(g) == mem(root).arg2 then
                Some(Ok(mem(root).paddr + 64 * (cptr % Pow2(r))))
              else Some(Err(LookupError))
  {
    DivModIs(cptr, Pow2(r));
    DivModIs(cptr / Pow2(r), Pow2(g));
    assert Field(cptr, r, g) == cptr / Pow2(r) % Pow2(g);
    FieldOfZero(cptr, r);
    StepReadsFields(mem, root, cptr, g + r);
    assert HeadMatches(mem(root), cptr, g + r, cptr % Pow2(r)) <==> cptr / Pow2(r) % Pow2(g) == mem(root).arg2;
    ResolveStep(mem, root, cptr, g + r);
  }

  lemma FieldOfZero(x: nat, width: nat)
    ensures Field(x, 0, width) == x % Pow2(width)
  {
    DivModIs(x, Pow2(0));
    DivModIs(x, Pow2(width));
  }

  /** Writing a path down as an address and looking it up gives its last slot back. */
  lemma EncodeThenLookup(mem: Memory, root: nat, indices: seq<nat>, target: nat)
    requires PathTo(mem, root, indices, target) && PathBits(mem, root, indices) <= 32
    ensures LookupWithDepth(mem, root, PathValue(mem, root, indices), PathBits(mem, root, indices)) == Some(Ok(target))
  {
    var bits, cptr := PathBits(mem, root, indices), PathValue(mem, root, indices);
    PathHasBits(mem, root, indices, target);
    PathValueFits(mem, root, indices, target);
    LowOfSmall(cptr, bits);
    assert Spells(mem, root, cptr, bits, indices, target);
    LookupMeansPath(mem, root, cptr, bits, target);
  }

  /** No two paths share an address: the encoding is prefix free. */
  lemma {:induction false} AddressesAreUnambiguous(
    mem: Memory, slot: nat, cptr: nat, bits: nat, p: seq<nat>, q: seq<nat>, s: nat, t: nat)
    requires Spells(mem, slot, cptr, bits, p, s) && Spells(mem, slot, cptr, bits, q, t)
    ensures p == q && s == t
    decreases |p|
  {
    SpellsHead(mem, slot, cptr, bits, p, s);
    SpellsHead(mem, slot, cptr, bits, q, t);
    var cap, next := mem(slot), SlotAt(mem(slot), p[0]);
    assert p == [p[0]] + p[1..] && q == [q[0]] + q[1..];
    if |p| > 1 && |q| > 1 {
      AddressesAreUnambiguous(mem, next, cptr, bits - LevelBits(cap), p[1..], q[1..], s, t);
    }
  }

  /** Whether a lookup returns and which error it reports, for every input; the empty-slot error never occurs. */
  lemma LookupErrors(mem: Memory, root: nat, cptr: nat, depth: nat)
    ensures var r := LookupWithDepth(mem, root, cptr, depth);
            && (r == None <==> 1 <= depth <= 32 && EntersStuck(mem, root, cptr, depth))
            && (r == Some(Err(InvalidValue)) <==> !(1 <= depth <= 32))
            && (r == Some(Err(CSpaceNotFound)) <==> 1 <= depth <= 32 && mem(root).capType != CNode)
            && (r.Some? && r.value.Err? ==> r.value.error in {InvalidValue, CSpaceNotFound, LookupError})
  {
    if 1 <= depth <= 32 {
      ResolutionEndsWhen(mem, root, cptr, depth);
      if k: nat :| ResolveWithin(mem, root, cptr, depth, k).Some? {
        ResolveIs(mem, root, cptr, depth, k);
        ResolveErrors(mem, root, cptr, depth, k);
      } else {
        assert mem(root).capType != CNode ==> ResolveWithin(mem, root, cptr, depth, 1).Some?;
      }
    }
  }

  lemma {:induction false} ResolveErrors(mem: Memory, slot: nat, cptr: nat, bits: nat, k: nat)
    requires 0 < bits <= 64 && ResolveWithin(mem, slot, cptr, bits, k).Some?
    ensures var r := ResolveWithin(mem, slot, cptr, bits, k).value;
            && (r == Err(CSpaceNotFound) <==> mem(slot).capType != CNode)
            && (r.Err? ==> r.error in {CSpaceNotFound, LookupError})
    decreases k
  {
    if mem(slot).capType == CNode {
      StepReadsFields(mem, slot, cptr, bits);
      match Step(mem, slot, cptr, bits)
      case Done(_) =>
      case Go(next, rest) => ResolveErrors(mem, next, cptr, rest, k - 1);
    }
  }
}
