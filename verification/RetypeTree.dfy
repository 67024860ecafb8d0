/**
Every tree of `retype` calls: the capabilities made so far, each with the untyped capability it
was carved from.
*/
module RetypeTree {
  import opened Wrappers
  import opened Bits
  import opened Caps
  import opened Untyped
  import CSpace

  // ----- the memory a capability stands for -----

  function End(cap: CapRaw): (r: nat) { cap.paddr + SizeOf(cap) }

  predicate Disjoint(a: CapRaw, b: CapRaw) { End(a) <= b.paddr || End(b) <= a.paddr }

  predicate Within(a: CapRaw, b: CapRaw) { b.paddr <= a.paddr && End(a) <= End(b) }

  predicate NaturallyAligned(cap: CapRaw) { SizeOf(cap) > 0 && Mod(cap.paddr, SizeOf(cap)) == 0 }

  predicate Device(cap: CapRaw) {
    if cap.capType == ObjType.Frame then Mod(Div(cap.arg1, 64), 2) == 1
    else cap.capType == ObjType.Untyped && IsDevice(cap)
  }

  /** An untyped capability whose watermark is inside its region and small enough to pack. */
  predicate UntypedOk(cap: CapRaw) {
    cap.capType == ObjType.Untyped && BitSize(cap) <= 57 && FreeOffset(cap) <= Pow2(BitSize(cap))
  }

  // ----- one successful call -----

  /** What a successful call leaves behind, without the checks that led there. */
  ghost predicate CarvedFrom(
    cap: CapRaw, ty: ObjType, bits: nat, start: nat, size: nat, caps: seq<CapRaw>, left: CapRaw)
  {
    && Fits(cap, ty, bits, start, size, |caps|)
    && (|caps| > 0 ==> Carvable(cap, ty, bits))
    && left == SetFreeOffset(cap, start + Mul(|caps|, size))
    && caps == Batch(ty, bits, IsDevice(cap), cap.paddr + start, size, |caps|)
  }

  ghost predicate Fits(cap: CapRaw, ty: ObjType, bits: nat, start: nat, size: nat, count: nat) {
    && ObjectSize(ty, bits) == Some(size)
    && size == Pow2(ObjectAlignment(ty, bits))
    && FreeOffset(cap) <= start && Mod(start, size) == 0
    && start + Mul(count, size) <= Pow2(BitSize(cap))
  }

  /** Types `retype` can mint at all, and what it mints from device memory. */
  predicate Carvable(cap: CapRaw, ty: ObjType, bits: nat) {
    && (ty == ObjType.Untyped || ty == ObjType.Frame || ty == ObjType.VSpace
        || (ty == ObjType.CNode && bits == CNODE_ENTRY_BITS))
    && (IsDevice(cap) ==> ty == ObjType.Frame || ty == ObjType.Untyped)
  }

  lemma AdmittedIs(cap: CapRaw, ty: ObjType, bits: nat, count: nat)
    requires Admit(cap, ty, bits, count).Admitted?
    ensures var a := Admit(cap, ty, bits, count);
            && ObjectSize(ty, bits) == Some(a.size)
            && a.start == AlignUp(FreeOffset(cap), ObjectAlignment(ty, bits)) && a.total == Mul(count, a.size)
            && a.start + a.total <= Pow2(BitSize(cap))
            && (IsDevice(cap) ==> ty == ObjType.Frame || ty == ObjType.Untyped)
  {}

  lemma AdmittedFits(cap: CapRaw, ty: ObjType, bits: nat, count: nat, a: Admission)
    requires a.Admitted? && ObjectSize(ty, bits) == Some(a.size)
    requires a.start == AlignUp(FreeOffset(cap), ObjectAlignment(ty, bits)) && a.total == Mul(count, a.size)
    requires a.start + a.total <= Pow2(BitSize(cap))
    ensures Fits(cap, ty, bits, a.start, a.size, count)
  {
    SizeIsAlignment(ty, bits);
    AlignUpIsLeast(FreeOffset(cap), ObjectAlignment(ty, bits));
  }

  lemma DoneIsAdmitted(cap: CapRaw, ty: ObjType, bits: nat, count: nat)
    requires RetypeCaps(cap, ty, bits, count, true).Done?
    ensures var a := Admit(cap, ty, bits, count);
            a.Admitted? && RetypeCaps(cap, ty, bits, count, true) == Carved(a, cap, ty, bits, count)
  {}

  lemma RetypeCarves(cap: CapRaw, ty: ObjType, bits: nat, count: nat) returns (start: nat, size: nat)
    requires RetypeCaps(cap, ty, bits, count, true).Done?
    ensures var o := RetypeCaps(cap, ty, bits, count, true);
            |o.caps| == count && CarvedFrom(cap, ty, bits, start, size, o.caps, o.untyped)
  {
    DoneIsAdmitted(cap, ty, bits, count);
    AdmittedIs(cap, ty, bits, count);
    start, size := AdmittedCarves(cap, ty, bits, count, Admit(cap, ty, bits, count));
  }

  lemma AdmittedCarves(cap: CapRaw, ty: ObjType, bits: nat, count: nat, a: Admission) returns (start: nat, size: nat)
    requires a.Admitted? && ObjectSize(ty, bits) == Some(a.size)
    requires a.start == AlignUp(FreeOffset(cap), ObjectAlignment(ty, bits)) && a.total == Mul(count, a.size)
    requires a.start + a.total <= Pow2(BitSize(cap))
    requires IsDevice(cap) ==> ty == ObjType.Frame || ty == ObjType.Untyped
    requires Carved(a, cap, ty, bits, count).Done?
    ensures var o := Carved(a, cap, ty, bits, count);
            |o.caps| == count && CarvedFrom(cap, ty, bits, start, size, o.caps, o.untyped)
  {
    AdmittedFits(cap, ty, bits, count, a);
    start, size := a.start, a.size;
    CarvedIs(a, cap, ty, bits, count);
  }

  lemma CarvedIs(a: Admission, cap: CapRaw, ty: ObjType, bits: nat, count: nat)
    requires a.Admitted? && Carved(a, cap, ty, bits, count).Done?
    requires Fits(cap, ty, bits, a.start, a.size, count) && a.total == Mul(count, a.size)
    requires IsDevice(cap) ==> ty == ObjType.Frame || ty == ObjType.Untyped
    ensures var o := Carved(a, cap, ty, bits, count);
            |o.caps| == count && CarvedFrom(cap, ty, bits, a.start, a.size, o.caps, o.untyped)
  {
    CarvedDone(a, cap, ty, bits, count);
    if count > 0 { SizedIsCarvable(cap, ty, bits); }
    var o := Carved(a, cap, ty, bits, count);
    CarvedParts(cap, ty, bits, a.start, a.size, o.caps, o.untyped);
  }

  lemma CarvedParts(cap: CapRaw, ty: ObjType, bits: nat, start: nat, size: nat, caps: seq<CapRaw>, left: CapRaw)
    requires Fits(cap, ty, bits, start, size, |caps|) && (|caps| > 0 ==> Carvable(cap, ty, bits))
    requires left == SetFreeOffset(cap, start + Mul(|caps|, size))
    requires caps == Batch(ty, bits, IsDevice(cap), cap.paddr + start, size, |caps|)
    ensures CarvedFrom(cap, ty, bits, start, size, caps, left)
  {}

  lemma CarvedDone(a: Admission, cap: CapRaw, ty: ObjType, bits: nat, count: nat)
    requires a.Admitted? && Carved(a, cap, ty, bits, count).Done?
    ensures count > 0 ==> ty != ObjType.Tcb && !MintAsserts(ty, bits)
    ensures var o := Carved(a, cap, ty, bits, count);
            && o.caps == Batch(ty, bits, IsDevice(cap), cap.paddr + a.start, a.size, count) && |o.caps| == count
            && o.untyped == SetFreeOffset(cap, a.start + a.total)
  {}

  lemma SizedIsCarvable(cap: CapRaw, ty: ObjType, bits: nat)
    requires ObjectSize(ty, bits).Some? && ty != ObjType.Tcb && !MintAsserts(ty, bits)
    requires IsDevice(cap) ==> ty == ObjType.Frame || ty == ObjType.Untyped
    ensures Carvable(cap, ty, bits)
  {
    if ty == ObjType.CNode { CNodeMintFailsWhen(0, bits); }
  }

  /** The watermark moves up past the new objects, stays in the region, and packs without loss. */
  lemma WatermarkMoves(cap: CapRaw, ty: ObjType, bits: nat, start: nat, size: nat, caps: seq<CapRaw>, left: CapRaw)
    requires UntypedOk(cap) && CarvedFrom(cap, ty, bits, start, size, caps, left)
    ensures left == cap.(arg2 := left.arg2) && BitSize(left) == BitSize(cap)
    ensures FreeOffset(left) == start + Mul(|caps|, size)
    ensures FreeOffset(cap) <= start <= FreeOffset(left) <= SizeOf(cap)
    ensures UntypedOk(left)
  {
    var off := start + Mul(|caps|, size);
    PacksBelow58(BitSize(cap), off);
    PackingIsExactWhen(cap, off);
    assert left == SetFreeOffset(cap, off);
  }

  lemma PacksBelow58(bits: nat, off: nat)
    requires bits <= 57 && off <= Pow2(bits)
    ensures off < WORD / 64
  {
    Pow2Monotone(bits, 57);
    Pow2Of57();
  }

  /** A minted capability has the requested type and size, and its parent's device status. */
  lemma Minted(cap: CapRaw, ty: ObjType, bits: nat, size: nat, addr: nat)
    requires Carvable(cap, ty, bits) && cap.capType == ObjType.Untyped && ObjectSize(ty, bits) == Some(size)
    ensures var c := MintAt(ty, bits, IsDevice(cap), addr);
            && c.capType == ty && c.paddr == addr && SizeOf(c) == size
            && (ty == ObjType.Untyped ==> UntypedOk(c) && FreeOffset(c) == 0)
            && (ty == ObjType.Frame || ty == ObjType.Untyped ==> Device(c) == Device(cap))
  {
    match ty
    case Untyped => MintedUntyped(addr, bits, IsDevice(cap));
    case Frame => MintedFrame(addr, bits, IsDevice(cap));
    case _ =>
  }

  lemma MintedUntyped(addr: nat, bits: nat, device: bool)
    requires bits <= 48
    ensures var c := MintUntyped(addr, bits, device);
            SizeOf(c) == Pow2(bits) && UntypedOk(c) && FreeOffset(c) == 0 && Device(c) == device
  {
  }

  lemma {:induction false} MintedFrame(addr: nat, bits: nat, device: bool)
    requires bits == 12 || bits == 21 || bits == 30
    ensures var c := MintFrame(addr, bits, device); SizeOf(c) == Pow2(bits) && Device(c) == device
  {
    var high := if device then 5 else 0;
    FrameWord(bits, high);
    FrameFields(MintFrame(addr, bits, device), bits, high);
    assert Mod(3, 2) == 1 && Mod(5, 2) == Mod(3, 2);
  }

  lemma FrameFields(c: CapRaw, bits: nat, high: nat)
    requires c.capType == ObjType.Frame && Mod(c.arg1, 64) == bits && Div(c.arg1, 64) == high
    ensures SizeOf(c) == Pow2(bits) && (Device(c) <==> Mod(high, 2) == 1)
  {}

  lemma FrameWord(bits: nat, high: nat)
    requires bits < 64
    ensures Mod(bits + 64 * high, 64) == bits && Div(bits + 64 * high, 64) == high
  {
    DivModUnique(bits + 64 * high, 64, high, bits);
  }

  /** Places in a batch, on plain numbers. */
  lemma PlacesInOrder(first: nat, size: nat, i: nat, j: nat)
    requires i < j
    ensures first <= AddrAt(first, size, i) && AddrAt(first, size, i) + size <= AddrAt(first, size, j)
  {
    MulSum(i + 1, j - i - 1, size);
  }

  lemma ObjectAt(cap: CapRaw, ty: ObjType, bits: nat, start: nat, size: nat, caps: seq<CapRaw>, left: CapRaw, i: nat)
    requires UntypedOk(cap) && CarvedFrom(cap, ty, bits, start, size, caps, left) && i < |caps|
    ensures caps[i].capType == ty && Carvable(cap, ty, bits)
    ensures caps[i].paddr == AddrAt(cap.paddr + start, size, i) && SizeOf(caps[i]) == size
    ensures ty == ObjType.Untyped ==> UntypedOk(caps[i]) && FreeOffset(caps[i]) == 0
    ensures ty == ObjType.Frame || ty == ObjType.Untyped ==> Device(caps[i]) == Device(cap)
  {
    assert caps[i] == MintAt(ty, bits, IsDevice(cap), AddrAt(cap.paddr + start, size, i));
    Minted(cap, ty, bits, size, AddrAt(cap.paddr + start, size, i));
  }

  /** Objects of one call lie one after another, above the old watermark and up to the new one. */
  lemma ObjectsInOrder(
    cap: CapRaw, ty: ObjType, bits: nat, start: nat, size: nat, caps: seq<CapRaw>, left: CapRaw, i: nat, j: nat)
    requires UntypedOk(cap) && CarvedFrom(cap, ty, bits, start, size, caps, left) && i < j <= |caps|
    ensures cap.paddr + FreeOffset(cap) <= caps[i].paddr
    ensures End(caps[i]) <= if j < |caps| then caps[j].paddr else cap.paddr + FreeOffset(left)
  {
    WatermarkMoves(cap, ty, bits, start, size, caps, left);
    ObjectAt(cap, ty, bits, start, size, caps, left, i);
    if j < |caps| { ObjectAt(cap, ty, bits, start, size, caps, left, j); }
    PlacesInOrder(cap.paddr + start, size, i, j);
  }

  /** Objects carved from a naturally aligned region are naturally aligned. */
  lemma ObjectIsAligned(
    cap: CapRaw, ty: ObjType, bits: nat, start: nat, size: nat, caps: seq<CapRaw>, left: CapRaw, i: nat)
    requires UntypedOk(cap) && CarvedFrom(cap, ty, bits, start, size, caps, left) && i < |caps|
    requires NaturallyAligned(cap)
    ensures NaturallyAligned(caps[i])
  {
    ObjectAt(cap, ty, bits, start, size, caps, left, i);
    BatchFits(cap, ty, bits, start, size, caps, left);
    AlignedObject(cap, caps[i], start, ObjectAlignment(ty, bits), i);
  }

  lemma AlignedObject(cap: CapRaw, c: CapRaw, start: nat, a: nat, i: nat)
    requires cap.capType == ObjType.Untyped && NaturallyAligned(cap)
    requires c.paddr == AddrAt(cap.paddr + start, Pow2(a), i) && SizeOf(c) == Pow2(a)
    requires Mod(start, Pow2(a)) == 0 && Pow2(a) <= Pow2(BitSize(cap))
    ensures NaturallyAligned(c)
  {
    PlaceIsAligned(cap.paddr, BitSize(cap), start, a, i);
  }

  lemma BatchFits(cap: CapRaw, ty: ObjType, bits: nat, start: nat, size: nat, caps: seq<CapRaw>, left: CapRaw)
    requires UntypedOk(cap) && CarvedFrom(cap, ty, bits, start, size, caps, left) && |caps| > 0
    ensures var d := Pow2(ObjectAlignment(ty, bits)); size == d && Mod(start, d) == 0 && d <= Pow2(BitSize(cap))
  {
    MulAtLeastOne(|caps|, size);
  }

  lemma MulAtLeastOne(n: nat, size: nat)
    requires n > 0
    ensures Mul(n, size) >= size
  {}

  lemma PlaceIsAligned(base: nat, baseBits: nat, start: nat, a: nat, i: nat)
    requires Mod(base, Pow2(baseBits)) == 0 && Mod(start, Pow2(a)) == 0 && Pow2(a) <= Pow2(baseBits)
    ensures Mod(AddrAt(base + start, Pow2(a), i), Pow2(a)) == 0
  {
    if a > baseBits { Pow2StrictlyMonotone(baseBits, a); }
    CoarserAligned(base, a, baseBits);
    AlignedSum(base, start, Pow2(a));
    MultipleIsAligned(i, Pow2(a));
    AlignedSum(base + start, Mul(i, Pow2(a)), Pow2(a));
  }

  /** All of the above about one object of a successful call. */
  predicate ObjectOk(cap: CapRaw, left: CapRaw, c: CapRaw) {
    && (c.capType == ObjType.Untyped ==> UntypedOk(c))
    && c.capType in {ObjType.Untyped, ObjType.Frame, ObjType.VSpace, ObjType.CNode}
    && cap.paddr + FreeOffset(cap) <= c.paddr && End(c) <= cap.paddr + FreeOffset(left)
    && (c.capType == ObjType.Frame || c.capType == ObjType.Untyped ==> Device(c) == Device(cap))
    && (Device(cap) ==> c.capType == ObjType.Frame || c.capType == ObjType.Untyped)
    && (NaturallyAligned(cap) ==> NaturallyAligned(c))
  }

  ghost predicate GrownBy(cap: CapRaw, caps: seq<CapRaw>, left: CapRaw) {
    && UntypedOk(cap) && UntypedOk(left) && left == cap.(arg2 := left.arg2)
    && BitSize(left) == BitSize(cap) && FreeOffset(cap) <= FreeOffset(left)
    && (forall i: nat {:trigger caps[i]} :: i < |caps| ==> ObjectOk(cap, left, caps[i]))
    && (forall i: nat, j: nat {:trigger caps[i], caps[j]} :: i < j < |caps| ==> End(caps[i]) <= caps[j].paddr)
  }

  /** Every successful call on a sound untyped capability. */
  lemma RetypeGrows(cap: CapRaw, ty: ObjType, bits: nat, count: nat)
    requires UntypedOk(cap) && RetypeCaps(cap, ty, bits, count, true).Done?
    ensures var o := RetypeCaps(cap, ty, bits, count, true); |o.caps| == count && GrownBy(cap, o.caps, o.untyped)
  {
    var start, size := RetypeCarves(cap, ty, bits, count);
    var o := RetypeCaps(cap, ty, bits, count, true);
    CarvingGrows(cap, ty, bits, start, size, o.caps, o.untyped);
  }

  lemma CarvingGrows(cap: CapRaw, ty: ObjType, bits: nat, start: nat, size: nat, caps: seq<CapRaw>, left: CapRaw)
    requires UntypedOk(cap) && CarvedFrom(cap, ty, bits, start, size, caps, left)
    ensures GrownBy(cap, caps, left)
  {
    WatermarkMoves(cap, ty, bits, start, size, caps, left);
    forall i: nat | i < |caps| ensures ObjectOk(cap, left, caps[i]) {
      CarvedObjectOk(cap, ty, bits, start, size, caps, left, i);
    }
    forall i: nat, j: nat | i < j < |caps| ensures End(caps[i]) <= caps[j].paddr {
      ObjectsInOrder(cap, ty, bits, start, size, caps, left, i, j);
    }
  }

  lemma CarvedObjectOk(
    cap: CapRaw, ty: ObjType, bits: nat, start: nat, size: nat, caps: seq<CapRaw>, left: CapRaw, i: nat)
    requires UntypedOk(cap) && CarvedFrom(cap, ty, bits, start, size, caps, left) && i < |caps|
    ensures ObjectOk(cap, left, caps[i])
  {
    ObjectAt(cap, ty, bits, start, size, caps, left, i);
    ObjectsInOrder(cap, ty, bits, start, size, caps, left, i, |caps|);
    if NaturallyAligned(cap) { ObjectIsAligned(cap, ty, bits, start, size, caps, left, i); }
  }

  // ----- trees of calls -----

  /** A capability and the index of the untyped one it was carved from; the root is its own. */
  datatype Node = Node(cap: CapRaw, parent: nat)

  /** One call on node `k`.  A call that does not succeed leaves every capability as it was. */
  function Call(t: seq<Node>, k: nat, ty: ObjType, bits: nat, count: nat): (r: seq<Node>) {
    if k < |t| && t[k].cap.capType == ObjType.Untyped && RetypeCaps(t[k].cap, ty, bits, count, true).Done? then
      var o := RetypeCaps(t[k].cap, ty, bits, count, true);
      Grow(t, k, o.caps, o.untyped)
    else t
  }

  function Grow(t: seq<Node>, k: nat, caps: seq<CapRaw>, left: CapRaw): (r: seq<Node>)
    requires k < |t|
  {
    t[k := Node(left, t[k].parent)] + seq(|caps|, (i: nat) requires i < |caps| => Node(caps[i], k))
  }

  datatype Request = Request(k: nat, ty: ObjType, bits: nat, count: nat)

  function Calls(t: seq<Node>, reqs: seq<Request>): (r: seq<Node>)
    decreases |reqs|
  {
    if reqs == [] then t
    else
      var q := reqs[|reqs| - 1];
      Call(Calls(t, reqs[..|reqs| - 1]), q.k, q.ty, q.bits, q.count)
  }

  predicate NodeOk(t: seq<Node>, i: nat)
    requires i < |t|
  {
    var c := t[i].cap;
    && (c.capType == ObjType.Untyped ==> UntypedOk(c))
    && c.capType in {ObjType.Untyped, ObjType.Frame, ObjType.VSpace, ObjType.CNode}
  }

  /** A child lies in its parent, below the watermark, and shares the parent's device status. */
  predicate ChildOk(t: seq<Node>, i: nat)
    requires 0 < i < |t|
  {
    && t[i].parent < i
    && var c, p := t[i].cap, t[t[i].parent].cap;
       && p.capType == ObjType.Untyped
       && p.paddr <= c.paddr && End(c) <= p.paddr + FreeOffset(p)
       && (c.capType == ObjType.Frame || c.capType == ObjType.Untyped ==> Device(c) == Device(p))
       && (Device(p) ==> c.capType == ObjType.Frame || c.capType == ObjType.Untyped)
  }

  /** Children of one node lie in the order they were made. */
  predicate SiblingsOk(t: seq<Node>, i: nat, j: nat)
    requires 0 < i < j < |t|
  {
    t[i].parent == t[j].parent ==> End(t[i].cap) <= t[j].cap.paddr
  }

  ghost predicate TreeOk(t: seq<Node>) {
    && (forall i: nat {:trigger NodeOk(t, i)} :: i < |t| ==> NodeOk(t, i))
    && (forall i: nat {:trigger ChildOk(t, i)} :: 0 < i < |t| ==> ChildOk(t, i))
    && (forall i: nat, j: nat {:trigger SiblingsOk(t, i, j)} :: 0 < i < j < |t| ==> SiblingsOk(t, i, j))
  }

  /** Every old node keeps its capability, but for the watermark of `k`, which only moves up. */
  lemma OldNodes(t: seq<Node>, k: nat, caps: seq<CapRaw>, left: CapRaw, i: nat)
    requires k < |t| && i < |t| && GrownBy(t[k].cap, caps, left)
    ensures var n := Grow(t, k, caps, left)[i];
            && n.parent == t[i].parent && n.cap.paddr == t[i].cap.paddr && n.cap.capType == t[i].cap.capType
            && SizeOf(n.cap) == SizeOf(t[i].cap) && Device(n.cap) == Device(t[i].cap)
            && FreeOffset(t[i].cap) <= FreeOffset(n.cap)
            && (i != k ==> n == t[i])
  {}

  lemma GrowKeeps(t: seq<Node>, k: nat, caps: seq<CapRaw>, left: CapRaw)
    requires TreeOk(t) && k < |t| && GrownBy(t[k].cap, caps, left)
    ensures TreeOk(Grow(t, k, caps, left))
  {
    var r, n := Grow(t, k, caps, left), |t|;
    assert forall i: nat :: i < |caps| ==> r[n + i] == Node(caps[i], k);
    forall i: nat | i < |r| ensures NodeOk(r, i) {
      if i < n {
        assert NodeOk(t, i);
      } else {
        assert ObjectOk(t[k].cap, left, caps[i - n]);
      }
    }
    forall i: nat | 0 < i < |r| ensures ChildOk(r, i) {
      if i < n {
        OldChild(t, k, caps, left, i);
      } else {
        assert ObjectOk(t[k].cap, left, caps[i - n]);
      }
    }
    forall i: nat, j: nat | 0 < i < j < |r| ensures SiblingsOk(r, i, j) {
      if i < n { OldNodes(t, k, caps, left, i); }
      if j < n {
        assert SiblingsOk(t, i, j);
        OldNodes(t, k, caps, left, j);
      } else if i < n {
        assert ChildOk(t, i);
        assert ObjectOk(t[k].cap, left, caps[j - n]);
      } else {
        assert r[i].cap == caps[i - n] && r[j].cap == caps[j - n];
      }
    }
  }

  lemma OldChild(t: seq<Node>, k: nat, caps: seq<CapRaw>, left: CapRaw, i: nat)
    requires TreeOk(t) && k < |t| && GrownBy(t[k].cap, caps, left) && 0 < i < |t|
    ensures ChildOk(Grow(t, k, caps, left), i)
  {
    assert ChildOk(t, i);
    OldNodes(t, k, caps, left, i);
    OldNodes(t, k, caps, left, t[i].parent);
  }

  /** A root: one untyped region of at most 57 bits, nothing carved yet. */
  ghost predicate IsRootTree(t: seq<Node>) {
    |t| == 1 && UntypedOk(t[0].cap) && FreeOffset(t[0].cap) == 0
  }

  lemma CallGrows(t: seq<Node>, k: nat, ty: ObjType, bits: nat, count: nat) returns (o: Outcome)
    requires TreeOk(t) && Call(t, k, ty, bits, count) != t
    ensures k < |t| && o.Done? && GrownBy(t[k].cap, o.caps, o.untyped)
    ensures Call(t, k, ty, bits, count) == Grow(t, k, o.caps, o.untyped)
  {
    assert NodeOk(t, k);
    o := RetypeCaps(t[k].cap, ty, bits, count, true);
    RetypeGrows(t[k].cap, ty, bits, count);
  }

  /** Any sequence of calls on any nodes keeps the tree in order. */
  lemma {:induction false} CallsKeepTree(t: seq<Node>, reqs: seq<Request>)
    requires IsRootTree(t)
    ensures TreeOk(Calls(t, reqs)) && |Calls(t, reqs)| >= 1
    decreases |reqs|
  {
    if reqs != [] {
      CallsKeepTree(t, reqs[..|reqs| - 1]);
      var u, q := Calls(t, reqs[..|reqs| - 1]), reqs[|reqs| - 1];
      if Call(u, q.k, q.ty, q.bits, q.count) != u {
        var o := CallGrows(u, q.k, q.ty, q.bits, q.count);
        GrowKeeps(u, q.k, o.caps, o.untyped);
      }
    }
  }

  // ----- what holds of every tree -----

  /** `a` is a proper ancestor of `i`. */
  predicate Ancestor(t: seq<Node>, a: nat, i: nat)
    requires i < |t|
    decreases i
  {
    i > 0 && t[i].parent < i && (t[i].parent == a || Ancestor(t, a, t[i].parent))
  }

  lemma {:induction false} DescendantsLieWithin(t: seq<Node>, a: nat, i: nat)
    requires TreeOk(t) && i < |t| && Ancestor(t, a, i)
    ensures a < i && Within(t[i].cap, t[a].cap) && t[a].cap.capType == ObjType.Untyped
    ensures t[i].cap.capType == ObjType.Frame || t[i].cap.capType == ObjType.Untyped ==>
              Device(t[i].cap) == Device(t[a].cap)
    decreases i
  {
    assert ChildOk(t, i);
    var p := t[i].parent;
    assert NodeOk(t, p) && Within(t[i].cap, t[p].cap);
    if p != a { DescendantsLieWithin(t, a, p); }
  }

  /** The child of `a` under which its descendant `i` lies, or `i` itself. */
  lemma {:induction false} BranchOf(t: seq<Node>, a: nat, i: nat) returns (c: nat)
    requires TreeOk(t) && i < |t| && Ancestor(t, a, i)
    ensures 0 < c <= i && t[c].parent == a && Within(t[i].cap, t[c].cap)
    decreases i
  {
    assert ChildOk(t, i);
    var p := t[i].parent;
    if p == a {
      c := i;
    } else {
      c := BranchOf(t, a, p);
      assert NodeOk(t, p) && Within(t[i].cap, t[p].cap);
    }
  }

  /** Any two capabilities anywhere in the tree name disjoint memory, unless one was carved from the other. */
  lemma {:induction false} NestedOrDisjoint(t: seq<Node>, i: nat, j: nat)
    requires TreeOk(t) && i < j < |t|
    ensures Ancestor(t, i, j) || Disjoint(t[i].cap, t[j].cap)
    decreases i + j
  {
    assert ChildOk(t, j);
    var p := t[j].parent;
    assert NodeOk(t, p) && Within(t[j].cap, t[p].cap);
    if p < i {
      if Ancestor(t, p, i) {
        var c := BranchOf(t, p, i);
        assert SiblingsOk(t, c, j);
      } else {
        NestedOrDisjoint(t, p, i);
      }
    } else if i < p {
      NestedOrDisjoint(t, i, p);
    }
  }

  /** From a naturally aligned root, every object ever made is aligned to its own size. */
  lemma {:induction false} EverythingIsAligned(t: seq<Node>, reqs: seq<Request>, i: nat)
    requires IsRootTree(t) && NaturallyAligned(t[0].cap) && i < |Calls(t, reqs)|
    ensures NaturallyAligned(Calls(t, reqs)[i].cap)
    decreases |reqs|
  {
    if reqs != [] {
      CallsKeepTree(t, reqs[..|reqs| - 1]);
      var u, q := Calls(t, reqs[..|reqs| - 1]), reqs[|reqs| - 1];
      if Call(u, q.k, q.ty, q.bits, q.count) == u {
        EverythingIsAligned(t, reqs[..|reqs| - 1], i);
      } else {
        var o := CallGrows(u, q.k, q.ty, q.bits, q.count);
        EverythingIsAligned(t, reqs[..|reqs| - 1], q.k);
        if i < |u| {
          EverythingIsAligned(t, reqs[..|reqs| - 1], i);
          OldNodes(u, q.k, o.caps, o.untyped, i);
        } else {
          assert ObjectOk(u[q.k].cap, o.untyped, o.caps[i - |u|]);
        }
      }
    }
  }

  /** Watermarks never fall and never pass the region, whatever calls follow. */
  lemma {:induction false} WatermarksOnlyRise(t: seq<Node>, reqs: seq<Request>, more: seq<Request>, i: nat)
    requires IsRootTree(t) && i < |Calls(t, reqs)| && Calls(t, reqs)[i].cap.capType == ObjType.Untyped
    ensures var u, v := Calls(t, reqs), Calls(t, reqs + more);
            && i < |v| && v[i].cap.capType == ObjType.Untyped
            && FreeOffset(u[i].cap) <= FreeOffset(v[i].cap) <= SizeOf(v[i].cap) == SizeOf(u[i].cap)
    decreases |more|
  {
    if more == [] {
      assert reqs + more == reqs;
      CallsKeepTree(t, reqs);
      assert NodeOk(Calls(t, reqs), i);
    } else {
      var rest, q := more[..|more| - 1], more[|more| - 1];
      WatermarksOnlyRise(t, reqs, rest, i);
      CallsKeepTree(t, reqs + rest);
      assert (reqs + more)[..|reqs + more| - 1] == reqs + rest && (reqs + more)[|reqs + more| - 1] == q;
      var u := Calls(t, reqs + rest);
      if Call(u, q.k, q.ty, q.bits, q.count) != u {
        var o := CallGrows(u, q.k, q.ty, q.bits, q.count);
        OldNodes(u, q.k, o.caps, o.untyped, i);
        assert NodeOk(u, i);
      }
    }
  }

  // ----- regions too large to pack -----

  /** After a successful call the stored watermark is the true one exactly when that is below 2^58. */
  lemma WatermarkIsTrueWhen(cap: CapRaw, ty: ObjType, bits: nat, count: nat)
    requires RetypeCaps(cap, ty, bits, count, true).Done?
    ensures var a := Admit(cap, ty, bits, count);
            && a.Admitted?
            && (FreeOffset(RetypeCaps(cap, ty, bits, count, true).untyped) == a.start + a.total
                <==> a.start + a.total < WORD / 64)
  {
    CarvedWatermark(Admit(cap, ty, bits, count), cap, ty, bits, count);
  }

  lemma CarvedWatermark(a: Admission, cap: CapRaw, ty: ObjType, bits: nat, count: nat)
    requires Carved(a, cap, ty, bits, count).Done?
    ensures a.Admitted?
    ensures FreeOffset(Carved(a, cap, ty, bits, count).untyped) == a.start + a.total <==> a.start + a.total < WORD / 64
  {
    PackingIsExactWhen(cap, a.start + a.total);
  }

  /**
  A region of 2^58 bytes filled to the last byte: the stored watermark wraps, the untyped capability
  is as it was, and the same call hands out the same memory again.
  */
  lemma FullRegionIsHandedOutTwice(cap: CapRaw, bits: nat, count: nat)
    requires cap.capType == ObjType.Untyped && cap.paddr < PHYS_LIMIT
    requires BitSize(cap) == 58 && FreeOffset(cap) == 0
    requires MIN_BIT_SIZE <= bits <= 48 && Mul(count, Pow2(bits)) == WORD / 64
    ensures var o := RetypeCaps(cap, ObjType.Untyped, bits, count, true);
            && o.Done? && |o.caps| == count && o.untyped == cap
            && RetypeCaps(o.untyped, ObjType.Untyped, bits, count, true) == o
  {
    assert Pow2(BitSize(cap)) == WORD / 64 by { Pow2Of57(); }
    assert AlignUp(FreeOffset(cap), bits) == 0 by { AlignUpOfZero(bits); }
    var a := Admitted(0, Pow2(bits), WORD / 64);
    assert Admit(cap, ObjType.Untyped, bits, count) == a;
    assert Carved(a, cap, ObjType.Untyped, bits, count).untyped == SetFreeOffset(cap, 0 + WORD / 64);
    FullWraps(cap);
  }

  lemma FullWraps(cap: CapRaw)
    requires FreeOffset(cap) == 0
    ensures SetFreeOffset(cap, WORD / 64) == cap
  {
    var r := SetFreeOffset(cap, WORD / 64);
    PackingIsExactWhen(cap, WORD / 64);
    DivModRecombine(cap.arg2, 64);
    DivModRecombine(r.arg2, 64);
  }

  lemma AlignUpOfZero(bits: nat)
    ensures AlignUp(0, bits) == 0
  {
    assert Div(Pow2(bits) - 1, Pow2(bits)) == 0;
  }

  /** Such calls exist: 1024 objects of 2^48 bytes. */
  lemma FullRegionExample(cap: CapRaw, bits: nat, count: nat)
    requires cap.capType == ObjType.Untyped && cap.paddr < PHYS_LIMIT
    requires BitSize(cap) == 58 && FreeOffset(cap) == 0 && bits == 48 && count == 1024
    ensures var o := RetypeCaps(cap, ObjType.Untyped, bits, count, true);
            o.Done? && |o.caps| == 1024 && RetypeCaps(o.untyped, ObjType.Untyped, bits, count, true) == o
  {
    assert Mul(count, Pow2(bits)) == WORD / 64 by {
      Pow2Of57();
      Pow2Add(9, bits);
      assert Pow2(9) == 512;
      MulIs(count, Pow2(bits));
    }
    FullRegionIsHandedOutTwice(cap, bits, count);
  }

  /**
  Clearing touches only memory of the region that was not handed out before, whether the call then
  succeeds or not; and when it succeeds, exactly the new objects.
  */
  lemma ClearedIsFree(cap: CapRaw, ty: ObjType, bits: nat, count: nat, i: nat)
    requires UntypedOk(cap) && i < |Cleared(Admit(cap, ty, bits, count), cap, ty, bits, count)|
    ensures var (addr, size) := Cleared(Admit(cap, ty, bits, count), cap, ty, bits, count)[i];
            && cap.paddr + FreeOffset(cap) <= addr && addr + size <= cap.paddr + SizeOf(cap)
            && (RetypeCaps(cap, ty, bits, count, true).Done? ==>
                  && i < |RetypeCaps(cap, ty, bits, count, true).caps|
                  && addr == RetypeCaps(cap, ty, bits, count, true).caps[i].paddr)
  {
    var a := Admit(cap, ty, bits, count);
    AdmittedIs(cap, ty, bits, count);
    AdmittedFits(cap, ty, bits, count, a);
    StretchFits(cap, ty, bits, a.start, a.size, count, i);
    StretchAt(a, cap, ty, bits, count, i);
  }

  lemma StretchFits(cap: CapRaw, ty: ObjType, bits: nat, start: nat, size: nat, count: nat, i: nat)
    requires Fits(cap, ty, bits, start, size, count) && i < count
    ensures var addr := AddrAt(cap.paddr + start, size, i);
            cap.paddr + FreeOffset(cap) <= addr && addr + size <= cap.paddr + Pow2(BitSize(cap))
  {
    PlacesInOrder(cap.paddr + start, size, i, count);
  }

  lemma StretchAt(a: Admission, cap: CapRaw, ty: ObjType, bits: nat, count: nat, i: nat)
    requires i < |Cleared(a, cap, ty, bits, count)|
    ensures a.Admitted? && i < count
    ensures Cleared(a, cap, ty, bits, count)[i] == (AddrAt(cap.paddr + a.start, a.size, i), a.size)
    ensures var o := Carved(a, cap, ty, bits, count);
            o.Done? ==> i < |o.caps| && o.caps[i].paddr == AddrAt(cap.paddr + a.start, a.size, i)
  {}

  /** Sizes `retype` takes: by type, the base-2 logarithm of what each object occupies. */
  lemma SizesAre(ty: ObjType, bits: nat)
    ensures ObjectSize(ty, bits) == match ty {
              case Frame => if bits == 12 || bits == 21 || bits == 30 then Some(Pow2(bits)) else None
              case VSpace => Some(Pow2(12))
              case CNode => if 6 <= bits <= 48 then Some(Pow2(bits)) else None
              case Tcb => Some(Pow2(10))
              case Untyped => if 4 <= bits <= 48 then Some(Pow2(bits)) else None
              case _ => None }
    ensures ObjectSize(ty, bits).Some? ==>
      ObjectAlignment(ty, bits) == match ty { case VSpace => 12 case Tcb => 10 case _ => bits }
  {}

  /** The type and size are ones that can be made from this region at all. */
  predicate Makeable(cap: CapRaw, ty: ObjType, bits: nat) {
    && (match ty {
          case Frame => bits == 12 || bits == 21 || bits == 30
          case VSpace => true
          case CNode => 6 <= bits <= 48
          case Tcb => true
          case Untyped => 4 <= bits <= 48
          case _ => false })
    && (cap.arg1 != 0 ==> ty == ObjType.Frame || ty == ObjType.Untyped)
  }

  /** Where the last of `count` objects would end, counted from the region's first byte. */
  function Required(cap: CapRaw, ty: ObjType, bits: nat, count: nat): (r: nat) {
    var log := match ty { case VSpace => 12 case Tcb => 10 case _ => bits };
    AlignUp(cap.arg2 / 64, log) + Mul(count, Pow2(log))
  }

  lemma AdmitUnmakeable(cap: CapRaw, ty: ObjType, bits: nat, count: nat)
    requires !Makeable(cap, ty, bits)
    ensures Admit(cap, ty, bits, count) == Refused(InvalidValue)
  {
    SizesAre(ty, bits);
  }

  lemma PlaceIs(cap: CapRaw, start: nat, size: nat, count: nat)
    ensures var a, end := Place(cap, start, size, count), start + Mul(count, size);
            if end >= 0x1_0000_0000_0000_0000 then a == Refused(InvalidValue)
            else if end > Pow2(cap.arg2 % 64) then a == Refused(OutOfMemory)
            else if cap.paddr >= 0x10_0000_0000_0000 then a == BadAddress
            else a.Admitted?
  {
    DivModIs(cap.arg2, 64);
  }

  lemma AdmitMakeable(cap: CapRaw, ty: ObjType, bits: nat, count: nat)
    requires Makeable(cap, ty, bits)
    ensures var log := match ty { case VSpace => 12 case Tcb => 10 case _ => bits };
            Admit(cap, ty, bits, count) == Place(cap, AlignUp(cap.arg2 / 64, log), Pow2(log), count)
  {
    SizesAre(ty, bits);
    DivModIs(cap.arg2, 64);
  }

  lemma AdmitIs(cap: CapRaw, ty: ObjType, bits: nat, count: nat)
    ensures var a, end := Admit(cap, ty, bits, count), Required(cap, ty, bits, count);
            && (a == Refused(InvalidValue) <==> !Makeable(cap, ty, bits) || end >= 0x1_0000_0000_0000_0000)
            && (a == Refused(OutOfMemory) <==>
                Makeable(cap, ty, bits) && end < 0x1_0000_0000_0000_0000 && end > Pow2(cap.arg2 % 64))
            && (a.Refused? ==> a.error == InvalidValue || a.error == OutOfMemory)
            && (a.Admitted? <==> Makeable(cap, ty, bits) && end < 0x1_0000_0000_0000_0000
                                 && end <= Pow2(cap.arg2 % 64) && cap.paddr < 0x10_0000_0000_0000)
  {
    if Makeable(cap, ty, bits) {
      var log := match ty { case VSpace => 12 case Tcb => 10 case _ => bits };
      AdmitMakeable(cap, ty, bits, count);
      PlaceIs(cap, AlignUp(cap.arg2 / 64, log), Pow2(log), count);
    } else {
      AdmitUnmakeable(cap, ty, bits, count);
    }
  }

  /** The outcome of `retype`, for every capability and every request. */
  lemma RetypeOutcomes(cap: CapRaw, ty: ObjType, bits: nat, count: nat, free: bool)
    ensures var r, end := RetypeCaps(cap, ty, bits, count, free), Required(cap, ty, bits, count);
            var fits := Makeable(cap, ty, bits) && end < 0x1_0000_0000_0000_0000 && end <= Pow2(cap.arg2 % 64);
            var mintable := count > 0 ==> ty != ObjType.Tcb && (ty == ObjType.CNode ==> bits == 6);
            && (r == Failed(SlotNotEmpty) <==> !free)
            && (r == Failed(OutOfMemory) <==>
                free && Makeable(cap, ty, bits) && end < 0x1_0000_0000_0000_0000 && end > Pow2(cap.arg2 % 64))
            && (r == Failed(InvalidValue) <==>
                free && (!Makeable(cap, ty, bits) || end >= 0x1_0000_0000_0000_0000
                         || (fits && cap.paddr < 0x10_0000_0000_0000 && count > 0 && ty == ObjType.Tcb)))
            && (r.Done? <==> free && fits && cap.paddr < 0x10_0000_0000_0000 && mintable)
            && (r.Panicked? <==>
                free && fits && (cap.paddr < 0x10_0000_0000_0000 ==> !mintable && ty != ObjType.Tcb))
  {
    AdmitIs(cap, ty, bits, count);
    OutcomeFrom(Admit(cap, ty, bits, count), cap, ty, bits, count);
  }

  lemma OutcomeFrom(a: Admission, cap: CapRaw, ty: ObjType, bits: nat, count: nat)
    requires a.Admitted? ==> Makeable(cap, ty, bits)
    ensures var r := Carved(a, cap, ty, bits, count);
            var mintable := count > 0 ==> ty != ObjType.Tcb && (ty == ObjType.CNode ==> bits == 6);
            && (a.Refused? ==> r == Failed(a.error))
            && (a.BadAddress? ==> r.Panicked?)
            && (a.Admitted? ==>
                  if mintable then r.Done? else if ty == ObjType.Tcb then r == Failed(InvalidValue) else r.Panicked?)
  {
    if a.Admitted? && ty == ObjType.CNode { CNodeMintFailsWhen(0, bits); }
  }

  /** When `retype` panics: on a physical address out of range, or on the first CNode of more than one slot. */
  lemma RetypePanicsWhen(cap: CapRaw, ty: ObjType, bits: nat, count: nat)
    ensures var a := Admit(cap, ty, bits, count);
            RetypeCaps(cap, ty, bits, count, true).Panicked? <==>
              a.BadAddress? || (a.Admitted? && count > 0 && ty == ObjType.CNode && bits > CNODE_ENTRY_BITS)
  {
    AdmitIs(cap, ty, bits, count);
    OutcomeFrom(Admit(cap, ty, bits, count), cap, ty, bits, count);
  }

  /** The CNodes `retype` makes have one slot, and their capabilities resolve no address bits. */
  lemma RetypedCNodesResolveNothing(cap: CapRaw, bits: nat, count: nat, i: nat)
    requires RetypeCaps(cap, ObjType.CNode, bits, count, true).Done? && i < count
    ensures var o := RetypeCaps(cap, ObjType.CNode, bits, count, true);
            bits == CNODE_ENTRY_BITS && i < |o.caps| && CSpace.ZeroNode(o.caps[i])
  {
    var a := Admit(cap, ObjType.CNode, bits, count);
    assert a.Admitted? && ObjectSize(ObjType.CNode, bits).Some?;
    var addr := AddrAt(cap.paddr + a.start, a.size, i);
    CNodeMintFailsWhen(addr, bits);
    assert Carved(a, cap, ObjType.CNode, bits, count).caps[i] == MintAt(ObjType.CNode, bits, IsDevice(cap), addr);
  }
}
