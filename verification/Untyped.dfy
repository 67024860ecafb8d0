/**
Untyped memory: a region with a watermark, packed with the region's bit size into one word, from
which `retype` carves typed objects upwards.
*/
module Untyped {
  import opened Wrappers
  import opened Bits
  import opened Caps
  import opened Mdb
  import CNode

  const WORD: nat := 0x1_0000_0000_0000_0000
  const PHYS_LIMIT: nat := 0x10_0000_0000_0000
  const MIN_BIT_SIZE: nat := 4
  const PAGE_BITS_4K: nat := 12

  // ----- the packed word -----

  function MintUntyped(paddr: nat, bitSize: nat, device: bool): (r: CapRaw) {
    CapRaw(if device then 1 else 0, Mod(bitSize, 64), paddr, ObjType.Untyped, {Control})
  }

  function BitSize(cap: CapRaw): (r: nat) { Mod(cap.arg2, 64) }

  function FreeOffset(cap: CapRaw): (r: nat) { Div(cap.arg2, 64) }

  /** `(arg2 & mask!(6)) | (off << 6)`; the shift drops what does not fit the word. */
  function SetFreeOffset(cap: CapRaw, off: nat): (r: CapRaw) {
    cap.(arg2 := Mod(cap.arg2, 64) + Mod(64 * off, WORD))
  }

  function IsDevice(cap: CapRaw): (r: bool) { cap.arg1 != 0 }

  /** The watermark reads back exactly when it is below 2^58; the bit size always does. */
  lemma PackingIsExactWhen(cap: CapRaw, off: nat)
    ensures FreeOffset(SetFreeOffset(cap, off)) == off <==> off < WORD / 64
    ensures FreeOffset(SetFreeOffset(cap, off)) == off % (WORD / 64)
    ensures BitSize(SetFreeOffset(cap, off)) == BitSize(cap)
    ensures SetFreeOffset(cap, off).arg2 < WORD
  {
    var low, high := Mod(cap.arg2, 64), off % (WORD / 64);
    assert Mod(64 * off, WORD) == 64 * high by {
      DivModIs(64 * off, WORD);
    }
    DivModUnique(low + 64 * high, 64, high, low);
  }

  // ----- sizes and alignment -----

  function ObjectAlignment(ty: ObjType, bits: nat): (r: nat) {
    match ty
    case Frame => bits
    case VSpace => PAGE_BITS_4K
    case CNode => CNODE_ENTRY_BITS + (if bits > CNODE_ENTRY_BITS then bits - CNODE_ENTRY_BITS else 0)
    case Tcb => 10
    case _ => bits
  }

  function ObjectSize(ty: ObjType, bits: nat): (r: Option<nat>) {
    match ty
    case Frame => if bits == 12 || bits == 21 || bits == 30 then Some(Pow2(bits)) else None
    case VSpace => Some(Pow2(PAGE_BITS_4K))
    case CNode => if CNODE_ENTRY_BITS <= bits <= 48 then Some(Pow2(bits)) else None
    case Tcb => Some(Pow2(10))
    case Untyped => if MIN_BIT_SIZE <= bits <= 48 then Some(Pow2(bits)) else None
    case _ => None
  }

  /** `alignup!`; a watermark is below 2^58 and an alignment at most 48 bits, so nothing overflows. */
  function AlignUp(off: nat, bits: nat): (r: nat) {
    Mul(Div(off + Pow2(bits) - 1, Pow2(bits)), Pow2(bits))
  }

  /** The least multiple of the alignment at or above the watermark. */
  lemma AlignUpIsLeast(off: nat, bits: nat)
    ensures off <= AlignUp(off, bits) < off + Pow2(bits)
    ensures Mod(AlignUp(off, bits), Pow2(bits)) == 0
  {
    var d := Pow2(bits);
    DivModRecombine(off + d - 1, d);
    MulIs(Div(off + d - 1, d), d);
    MultipleIsAligned(Div(off + d - 1, d), d);
  }

  /** Every object is as large as it is aligned. */
  lemma SizeIsAlignment(ty: ObjType, bits: nat)
    requires ObjectSize(ty, bits).Some?
    ensures ObjectSize(ty, bits).value == Pow2(ObjectAlignment(ty, bits)) && ObjectAlignment(ty, bits) <= 48
  {}

  // ----- what each slot gets -----

  function MintFrame(paddr: nat, bits: nat, device: bool): (r: CapRaw) {
    CapRaw(bits + (if device then 64 + 128 * 2 else 0), 0, paddr, ObjType.Frame, {Read, Write})
  }

  function MintVSpace(paddr: nat): (r: CapRaw) {
    var asid := Mod(Div(paddr, 4096), 0x1_0000);
    CapRaw(if asid == 0 then 1 else asid, 0, paddr, ObjType.VSpace, {Control})
  }

  /** The radix `retype` asks for, and the guard that with it would make 64 bits. */
  function RadixFor(bits: nat): (r: nat) { if bits > CNODE_ENTRY_BITS then bits - CNODE_ENTRY_BITS else 0 }

  function GuardFor(bits: nat): (r: nat) { if RadixFor(bits) < 64 then 64 - RadixFor(bits) else 0 }

  function MintCNode(paddr: nat, bits: nat): (r: Option<CapRaw>) {
    CNode.Mint(paddr, RadixFor(bits), GuardFor(bits), 0, {Control})
  }

  function MintAt(ty: ObjType, bits: nat, device: bool, addr: nat): (r: CapRaw) {
    match ty
    case Untyped => MintUntyped(addr, bits, device)
    case CNode => if MintCNode(addr, bits).Some? then MintCNode(addr, bits).value else NULL_CAP
    case Frame => MintFrame(addr, bits, device)
    case _ => MintVSpace(addr)
  }

  /** Bytes of memory a capability stands for. */
  function SizeOf(cap: CapRaw): (r: nat) {
    match cap.capType
    case Untyped => Pow2(BitSize(cap))
    case Frame => Pow2(Mod(cap.arg1, 64))
    case VSpace => Pow2(PAGE_BITS_4K)
    case CNode => Pow2(CNODE_ENTRY_BITS + Mod(Div(cap.arg1, 64), 64))
    case _ => 0
  }

  function AddrAt(first: nat, size: nat, i: nat): (r: nat) { first + Mul(i, size) }

  /** `count` objects of `size` bytes, one after another from `first`. */
  function Batch(ty: ObjType, bits: nat, device: bool, first: nat, size: nat, count: nat): (r: seq<CapRaw>)
    ensures |r| == count && forall i :: 0 <= i < count ==> r[i] == MintAt(ty, bits, device, AddrAt(first, size, i))
  {
    seq(count, (i: nat) => MintAt(ty, bits, device, AddrAt(first, size, i)))
  }

  // ----- retype -----

  datatype Admission = Admitted(start: nat, size: nat, total: nat) | Refused(error: SysError) | BadAddress

  /** The checks before any slot is written, in order. */
  function Admit(cap: CapRaw, ty: ObjType, bits: nat, count: nat): (r: Admission) {
    if IsDevice(cap) && ty != ObjType.Frame && ty != ObjType.Untyped then Refused(InvalidValue)
    else if ObjectSize(ty, bits) == None then Refused(InvalidValue)
    else Place(cap, AlignUp(FreeOffset(cap), ObjectAlignment(ty, bits)), ObjectSize(ty, bits).value, count)
  }

  /** Room for `count` objects of `size` bytes from offset `start` on. */
  function Place(cap: CapRaw, start: nat, size: nat, count: nat): (r: Admission) {
    var total := Mul(count, size);
    if total >= WORD || start + total >= WORD then Refused(InvalidValue)
    else if Pow2(BitSize(cap)) < start + total then Refused(OutOfMemory)
    else if cap.paddr >= PHYS_LIMIT then BadAddress
    else Admitted(start, size, total)
  }

  /** The assertion in the mint of a CNode fails, whatever its address. */
  predicate MintAsserts(ty: ObjType, bits: nat) { ty == ObjType.CNode && MintCNode(0, bits).None? }

  /** It fails for every CNode of more than one slot; one of a single slot resolves no bits. */
  lemma CNodeMintFailsWhen(addr: nat, bits: nat)
    requires ObjectSize(ObjType.CNode, bits).Some?
    ensures MintCNode(addr, bits).None? <==> bits > CNODE_ENTRY_BITS
    ensures MintAsserts(ObjType.CNode, bits) <==> bits > CNODE_ENTRY_BITS
    ensures bits == CNODE_ENTRY_BITS ==> MintCNode(addr, bits) == Some(CapRaw(0, 0, addr, ObjType.CNode, {Control}))
  {
    var radix := RadixFor(bits);
    assert 0 < radix < 64 ==> GuardFor(bits) % 64 == 64 - radix;
  }

  // ----- what the words of a new capability say -----

  /** An untyped region, a frame or a VSpace, word for word; a VSpace never gets address-space number zero. */
  lemma MintedWords(bits: nat, device: bool, addr: nat)
    ensures bits < 64 ==>
      MintAt(ObjType.Untyped, bits, device, addr)
      == CapRaw(if device then 1 else 0, bits, addr, ObjType.Untyped, {Control})
    ensures MintAt(ObjType.Frame, bits, device, addr)
         == CapRaw(if device then bits + 320 else bits, 0, addr, ObjType.Frame, {Read, Write})
    ensures var asid := addr / 4096 % 65536;
            MintAt(ObjType.VSpace, bits, device, addr)
            == CapRaw(if asid == 0 then 1 else asid, 0, addr, ObjType.VSpace, {Control})
  {
    DivModIs(addr, 4096);
    DivModIs(addr / 4096, 65536);
  }

  datatype Outcome = Done(caps: seq<CapRaw>, untyped: CapRaw) | Failed(error: SysError) | Panicked

  /** The whole of `retype` on values; `free` says whether every destination slot is null. */
  function RetypeCaps(cap: CapRaw, ty: ObjType, bits: nat, count: nat, free: bool): (r: Outcome) {
    if !free then Failed(SlotNotEmpty) else Carved(Admit(cap, ty, bits, count), cap, ty, bits, count)
  }

  function Carved(a: Admission, cap: CapRaw, ty: ObjType, bits: nat, count: nat): (r: Outcome) {
    match a
    case Refused(e) => Failed(e)
    case BadAddress => Panicked
    case Admitted(start, size, total) =>
      if count > 0 && ty == ObjType.Tcb then Failed(InvalidValue)
      else if count > 0 && MintAsserts(ty, bits) then Panicked
      else Done(Batch(ty, bits, IsDevice(cap), cap.paddr + start, size, count), SetFreeOffset(cap, start + total))
  }

  /** The stretches of memory, each as address and size, that a call clears, in order. */
  function Cleared(a: Admission, cap: CapRaw, ty: ObjType, bits: nat, count: nat): (r: seq<(nat, nat)>) {
    if a.Admitted? then ClearedBy(ty, bits, cap.paddr + a.start, a.size, count) else []
  }

  /** A CNode or a VSpace is cleared before it is minted, so a mint that fails leaves one cleared. */
  function ClearedBy(ty: ObjType, bits: nat, first: nat, size: nat, count: nat): (r: seq<(nat, nat)>) {
    if ty != ObjType.CNode && ty != ObjType.VSpace then []
    else ClearedFrom(first, size, if MintAsserts(ty, bits) && count > 1 then 1 else count)
  }

  function ClearedFrom(first: nat, size: nat, n: nat): (r: seq<(nat, nat)>)
    ensures |r| == n
  {
    seq(n, (i: nat) => (AddrAt(first, size, i), size))
  }

  /** A CNode or VSpace capability that could be minted names its address and the size asked for. */
  lemma MintedAt(ty: ObjType, bits: nat, device: bool, addr: nat)
    requires (ty == ObjType.CNode || ty == ObjType.VSpace) && !MintAsserts(ty, bits)
    ensures var c := MintAt(ty, bits, device, addr);
            c.paddr == addr && (ObjectSize(ty, bits).Some? ==> SizeOf(c) == ObjectSize(ty, bits).value)
  {
    if ty == ObjType.CNode && ObjectSize(ty, bits).Some? { CNodeMintFailsWhen(addr, bits); }
  }

  datatype Status = Success | Failure(error: SysError) | Panic

  /** What the caller sees: on anything but success, nothing changed. */
  ghost predicate Reports(o: Outcome, r: Status) {
    match o
    case Done(_, _) => r == Success
    case Failed(e) => r == Failure(e)
    case Panicked => r == Panic
  }

  /** The kernel's code: slots are scanned, then written one by one, then the watermark moves. */
  method Retype(untyped: CNodeEntry, ty: ObjType, bits: nat, slots: seq<CNodeEntry>)
    returns (r: Status, cleared: seq<(nat, nat)>)
    requires untyped.raw.capType == ObjType.Untyped
    requires forall i, j :: 0 <= i < j < |slots| ==> slots[i] != slots[j]
    modifies untyped`raw, slots
    ensures var o := old(RetypeCaps(untyped.raw, ty, bits, |slots|, AllNull(slots)));
            && Reports(o, r)
            && (if o.Done? then untyped.raw == o.untyped && Holds(slots, o.caps)
                else unchanged(untyped) && unchanged(slots))
    ensures cleared == old(
      if AllNull(slots) then Cleared(Admit(untyped.raw, ty, bits, |slots|), untyped.raw, ty, bits, |slots|) else [])
    ensures r == Success ==>
      if ty == ObjType.CNode || ty == ObjType.VSpace then
        |cleared| == |slots|
        && forall i :: 0 <= i < |slots| ==> cleared[i] == (slots[i].raw.paddr, SizeOf(slots[i].raw))
      else cleared == []
  {
    var free := ScanSlots(slots);
    if !free {
      return Failure(SlotNotEmpty), [];
    }
    assert forall i :: 0 <= i < |slots| ==> slots[i] != untyped;
    var left;
    var admission := Admit(untyped.raw, ty, bits, |slots|);
    r, left, cleared := Carve(admission, untyped.raw, ty, bits, slots);
    if r == Success {
      SlotsAreSized(untyped.raw, ty, bits, slots);
      untyped.raw := left;
    }
  }

  /** The slots hold these capabilities, freshly written and without MDB links. */
  ghost predicate Holds(slots: seq<CNodeEntry>, caps: seq<CapRaw>)
    reads slots
  {
    |caps| == |slots| && forall i :: 0 <= i < |slots| ==> slots[i].raw == caps[i] && slots[i].Isolated()
  }

  /** Every new CNode or VSpace was cleared, and nothing else was. */
  ghost predicate AsMade(ty: ObjType, slots: seq<CNodeEntry>, size: nat, cleared: seq<(nat, nat)>)
    reads slots
  {
    if ty == ObjType.CNode || ty == ObjType.VSpace then
      |cleared| == |slots| && forall i :: 0 <= i < |slots| ==> cleared[i] == (slots[i].raw.paddr, size)
    else cleared == []
  }

  lemma AdmittedSize(cap: CapRaw, ty: ObjType, bits: nat, count: nat)
    requires Admit(cap, ty, bits, count).Admitted?
    ensures ObjectSize(ty, bits) == Some(Admit(cap, ty, bits, count).size)
  {}

  lemma SlotsAreSized(cap: CapRaw, ty: ObjType, bits: nat, slots: seq<CNodeEntry>)
    requires Carved(Admit(cap, ty, bits, |slots|), cap, ty, bits, |slots|).Done?
    requires Holds(slots, Carved(Admit(cap, ty, bits, |slots|), cap, ty, bits, |slots|).caps)
    ensures Admit(cap, ty, bits, |slots|).Admitted?
    ensures ty == ObjType.CNode || ty == ObjType.VSpace ==>
      forall i :: 0 <= i < |slots| ==> SizeOf(slots[i].raw) == Admit(cap, ty, bits, |slots|).size
  {
    var a := Admit(cap, ty, bits, |slots|);
    AdmittedSize(cap, ty, bits, |slots|);
    if ty == ObjType.CNode || ty == ObjType.VSpace {
      forall i | 0 <= i < |slots| ensures SizeOf(slots[i].raw) == a.size {
        MintedAt(ty, bits, IsDevice(cap), AddrAt(cap.paddr + a.start, a.size, i));
      }
    }
  }

  method Carve(a: Admission, cap: CapRaw, ty: ObjType, bits: nat, slots: seq<CNodeEntry>)
    returns (r: Status, left: CapRaw, cleared: seq<(nat, nat)>)
    requires forall i, j :: 0 <= i < j < |slots| ==> slots[i] != slots[j]
    modifies slots
    ensures var o := Carved(a, cap, ty, bits, |slots|);
            && Reports(o, r)
            && (if o.Done? then left == o.untyped && Holds(slots, o.caps) else unchanged(slots))
    ensures cleared == Cleared(a, cap, ty, bits, |slots|)
    ensures r == Success ==> a.Admitted? && AsMade(ty, slots, a.size, cleared)
  {
    match a {
      case Refused(e) => return Failure(e), cap, [];
      case BadAddress => return Panic, cap, [];
      case Admitted(start, size, total) =>
        r, cleared := WriteSlots(ty, bits, IsDevice(cap), cap.paddr + start, size, slots);
        left := SetFreeOffset(cap, start + total);
    }
  }

  method ScanSlots(slots: seq<CNodeEntry>) returns (free: bool)
    ensures free <==> AllNull(slots)
  {
    for k := 0 to |slots|
      invariant forall i :: 0 <= i < k ==> slots[i].raw.capType == NullObj
    {
      if slots[k].raw.capType != NullObj {
        return false;
      }
    }
    return true;
  }

  ghost predicate AllNull(slots: seq<CNodeEntry>)
    reads slots
  {
    forall i :: 0 <= i < |slots| ==> slots[i].raw.capType == NullObj
  }

  method WriteSlots(ty: ObjType, bits: nat, device: bool, first: nat, size: nat, slots: seq<CNodeEntry>)
    returns (r: Status, cleared: seq<(nat, nat)>)
    requires forall i, j :: 0 <= i < j < |slots| ==> slots[i] != slots[j]
    modifies slots
    ensures if |slots| > 0 && ty == ObjType.Tcb then r == Failure(InvalidValue) && unchanged(slots)
            else if |slots| > 0 && MintAsserts(ty, bits) then r == Panic && unchanged(slots)
            else r == Success && Holds(slots, Batch(ty, bits, device, first, size, |slots|))
    ensures cleared == ClearedBy(ty, bits, first, size, |slots|)
    ensures r == Success ==> AsMade(ty, slots, size, cleared)
  {
    cleared := [];
    for i := 0 to |slots|
      invariant i > 0 ==> ty != ObjType.Tcb && !MintAsserts(ty, bits)
      invariant i == 0 ==> unchanged(slots)
      invariant cleared == if ty == ObjType.CNode || ty == ObjType.VSpace then ClearedFrom(first, size, i) else []
      invariant forall j :: 0 <= j < i ==>
        slots[j].raw == MintAt(ty, bits, device, AddrAt(first, size, j)) && slots[j].Isolated()
    {
      if ty == ObjType.Tcb {
        return Failure(InvalidValue), cleared;
      }
      if ty == ObjType.CNode || ty == ObjType.VSpace {
        cleared := cleared + [(AddrAt(first, size, i), size)];
      }
      if MintAsserts(ty, bits) {
        return Panic, cleared;
      }
      var slot := slots[i];
      slot.raw, slot.prev, slot.next := MintAt(ty, bits, device, AddrAt(first, size, i)), null, null;
    }
    if ty == ObjType.CNode || ty == ObjType.VSpace {
      forall j | 0 <= j < |slots| ensures slots[j].raw.paddr == AddrAt(first, size, j) {
        MintedAt(ty, bits, device, AddrAt(first, size, j));
      }
    }
    r := Success;
  }
}
