/**
What `retype` makes for page tables: the memory cleared for a new VSpace is what an empty PML4, or
a fresh table, has to be, and a new frame is one the map operations accept.
*/
module RetypedPages {
  import opened Wrappers
  import opened Bits
  import opened Caps
  import opened Untyped
  import opened RetypeTree
  import PageEntry
  import V = VSpace
  import AddressSpace
  import PageTableRuns
  import FrameMapping

  const PAGE: nat := 4096

  // ----- numbers as machine words -----

  function Digit(d: nat): (w: bv64)
    ensures w < 8
  {
    match d case 0 => 0 case 1 => 1 case 2 => 2 case 3 => 3 case 4 => 4 case 5 => 5 case 6 => 6 case _ => 7
  }

  function Push(w: bv64, d: nat): (r: bv64) { (w << 3) | Digit(d) }

  /** A number as a machine word, three bits at a time. */
  function Word(n: nat): (w: bv64) {
    if n == 0 then 0 else Push(Word(n / 8), n % 8)
  }

  predicate Below(w: bv64, top: bv64) { w < top }

  lemma PushFits(w: bv64, d: nat, top: bv64, next: bv64)
    requires Below(w, top) && top <= 0x1000_0000_0000_0000 && next == top << 3
    ensures Below(Push(w, d), next) && Below(0, next)
  {}

  lemma {:induction false} WordFits(n: nat, top: bv64, next: bv64)
    requires Below(Word(n / 8), top) && top <= 0x1000_0000_0000_0000 && next == top << 3
    ensures Below(Word(n), next)
  {
    PushFits(Word(n / 8), n % 8, top, next);
  }

  lemma {:induction false} WordBelow4Bits(n: nat)
    requires n < 0x10
    ensures Below(Word(n), 0x10)
  {
    assert Below(Word(n / 8), 2) by { assert n / 8 <= 1 && Word(0) == 0; }
    WordFits(n, 2, 0x10);
  }

  lemma {:induction false} WordBelow16Bits(n: nat)
    requires n < 0x1_0000
    ensures Below(Word(n), 0x1_0000)
  {
    var a := n / 8;
    var b := a / 8;
    var c := b / 8;
    WordBelow4Bits(c / 8);
    WordFits(c, 0x10, 0x80);
    WordFits(b, 0x80, 0x400);
    WordFits(a, 0x400, 0x2000);
    WordFits(n, 0x2000, 0x1_0000);
  }

  lemma {:induction false} WordBelow28Bits(n: nat)
    requires n < 0x1000_0000
    ensures Below(Word(n), 0x1000_0000)
  {
    var a := n / 8;
    var b := a / 8;
    var c := b / 8;
    WordBelow16Bits(c / 8);
    WordFits(c, 0x1_0000, 0x8_0000);
    WordFits(b, 0x8_0000, 0x40_0000);
    WordFits(a, 0x40_0000, 0x200_0000);
    WordFits(n, 0x200_0000, 0x1000_0000);
  }

  lemma {:induction false} WordBelow40Bits(n: nat)
    requires n < 0x100_0000_0000
    ensures Below(Word(n), 0x100_0000_0000)
  {
    var a := n / 8;
    var b := a / 8;
    var c := b / 8;
    WordBelow28Bits(c / 8);
    WordFits(c, 0x1000_0000, 0x8000_0000);
    WordFits(b, 0x8000_0000, 0x4_0000_0000);
    WordFits(a, 0x4_0000_0000, 0x20_0000_0000);
    WordFits(n, 0x20_0000_0000, 0x100_0000_0000);
  }

  /** A physical address, below 2^52, is a word below 2^52. */
  lemma {:induction false} WordBelow52Bits(n: nat)
    requires n < 0x10_0000_0000_0000
    ensures Below(Word(n), 0x10_0000_0000_0000)
  {
    var a := n / 8;
    var b := a / 8;
    var c := b / 8;
    WordBelow40Bits(c / 8);
    WordFits(c, 0x100_0000_0000, 0x800_0000_0000);
    WordFits(b, 0x800_0000_0000, 0x4000_0000_0000);
    WordFits(a, 0x4000_0000_0000, 0x2_0000_0000_0000);
    WordFits(n, 0x2_0000_0000_0000, 0x10_0000_0000_0000);
  }

  lemma {:induction false} WordShifts(m: nat)
    ensures Word(8 * m) == Word(m) << 3
  {
    if m > 0 { assert (8 * m) / 8 == m && (8 * m) % 8 == 0; }
  }

  lemma ShiftsAdd(w: bv64)
    ensures (w << 3) << 3 == w << 6 && (w << 6) << 3 == w << 9 && (w << 9) << 3 == w << 12
  {}

  lemma {:induction false} WordShifts9(m: nat)
    ensures Word(512 * m) == Word(m) << 9
  {
    WordShifts(m);
    WordShifts(8 * m);
    WordShifts(64 * m);
    ShiftsAdd(Word(m));
  }

  lemma {:induction false} WordShifts12(m: nat)
    ensures Word(PAGE * m) == Word(m) << 12
  {
    WordShifts9(m);
    WordShifts(512 * m);
    ShiftsAdd(Word(m));
  }

  lemma ShiftedIsAligned(w: bv64)
    ensures (w << 12) & 0xFFF == 0
    ensures ((w << 9) << 12) & 0x1F_FFFF == 0
    ensures (((w << 9) << 9) << 12) & 0x3FFF_FFFF == 0
  {}

  // Multiples of the three frame sizes are aligned words.

  lemma {:induction false} SmallWord(m: nat)
    ensures Word(PAGE * m) & 0xFFF == 0
  {
    WordShifts12(m);
    ShiftedIsAligned(Word(m));
  }

  lemma {:induction false} LargeWord(m: nat)
    ensures Word(PAGE * (512 * m)) & 0x1F_FFFF == 0
  {
    WordShifts9(m);
    WordShifts12(512 * m);
    ShiftedIsAligned(Word(m));
  }

  lemma {:induction false} HugeWord(m: nat)
    ensures Word(PAGE * (512 * (512 * m))) & 0x3FFF_FFFF == 0
  {
    WordShifts9(m);
    WordShifts9(512 * m);
    WordShifts12(512 * (512 * m));
    ShiftedIsAligned(Word(m));
  }

  lemma {:induction false} WordIsAligned(n: nat)
    ensures n % PAGE == 0 ==> Word(n) & 0xFFF == 0
    ensures n % 0x20_0000 == 0 ==> Word(n) & 0x1F_FFFF == 0
    ensures n % 0x4000_0000 == 0 ==> Word(n) & 0x3FFF_FFFF == 0
  {
    if n % PAGE == 0 {
      SmallWord(n / PAGE);
      assert PAGE * (n / PAGE) == n;
    }
    if n % 0x20_0000 == 0 {
      LargeWord(n / 0x20_0000);
      assert PAGE * (512 * (n / 0x20_0000)) == n;
    }
    if n % 0x4000_0000 == 0 {
      HugeWord(n / 0x4000_0000);
      assert PAGE * (512 * (512 * (n / 0x4000_0000))) == n;
    }
  }

  /** A page address fits the address field of a table entry. */
  lemma PageIsHoldable(n: nat)
    requires n < 0x10_0000_0000_0000 && n % PAGE == 0
    ensures PageEntry.Holdable(Word(n))
  {
    WordBelow52Bits(n);
    WordIsAligned(n);
    PageEntry.AlignedIsHoldable(Word(n));
  }

  // ----- cleared memory -----

  /** Every table entry of the page at `addr` is zero. */
  ghost predicate ZeroPage(mem: V.Mem, addr: nat) {
    forall i: bv64 :: i < 512 ==> V.Loc(Word(addr), i) in mem && mem[V.Loc(Word(addr), i)] == 0
  }

  /** The pages of every stretch are zero. */
  ghost predicate Wiped(mem: V.Mem, cleared: seq<(nat, nat)>) {
    forall j: nat, addr: nat :: j < |cleared| && cleared[j].0 <= addr && addr + PAGE <= cleared[j].0 + cleared[j].1
      ==> ZeroPage(mem, addr)
  }

  lemma OnPage(c: CapRaw)
    requires SizeOf(c) == Pow2(PAGE_BITS_4K) && NaturallyAligned(c) && End(c) <= PHYS_LIMIT
    ensures SizeOf(c) == PAGE && c.paddr % PAGE == 0 && c.paddr < 0x10_0000_0000_0000
  {
    assert Pow2(PAGE_BITS_4K) == PAGE;
    DivModIs(c.paddr, PAGE);
  }

  /** A VSpace object lies in its region, aligned, and is one page long. */
  lemma VSpaceAt(cap: CapRaw, bits: nat, start: nat, size: nat, caps: seq<CapRaw>, left: CapRaw, i: nat)
    requires UntypedOk(cap) && NaturallyAligned(cap) && i < |caps|
    requires CarvedFrom(cap, ObjType.VSpace, bits, start, size, caps, left)
    ensures SizeOf(caps[i]) == Pow2(PAGE_BITS_4K) && NaturallyAligned(caps[i]) && End(caps[i]) <= End(cap)
  {
    ObjectAt(cap, ObjType.VSpace, bits, start, size, caps, left, i);
    ObjectIsAligned(cap, ObjType.VSpace, bits, start, size, caps, left, i);
    ObjectsInOrder(cap, ObjType.VSpace, bits, start, size, caps, left, i, |caps|);
    WatermarkMoves(cap, ObjType.VSpace, bits, start, size, caps, left);
  }

  lemma {:induction false} VSpaceIsOnePage(cap: CapRaw, bits: nat, count: nat, i: nat)
    requires UntypedOk(cap) && NaturallyAligned(cap) && End(cap) <= PHYS_LIMIT && i < count
    requires RetypeCaps(cap, ObjType.VSpace, bits, count, true).Done?
    ensures var c := RetypeCaps(cap, ObjType.VSpace, bits, count, true).caps;
            |c| == count && SizeOf(c[i]) == PAGE && c[i].paddr % PAGE == 0 && c[i].paddr < 0x10_0000_0000_0000
  {
    var start, size := RetypeCarves(cap, ObjType.VSpace, bits, count);
    var o := RetypeCaps(cap, ObjType.VSpace, bits, count, true);
    VSpaceAt(cap, bits, start, size, o.caps, o.untyped, i);
    OnPage(o.caps[i]);
  }

  /**
  Whatever a call of `retype` made, with the memory it reports as cleared really zero, the i-th new
  VSpace is an empty PML4, and a fresh frame for every address space it is not yet a table of.
  */
  lemma NewVSpaceIsFresh(
    cap: CapRaw, bits: nat, count: nat, i: nat, cleared: seq<(nat, nat)>, s: AddressSpace.Space)
    requires UntypedOk(cap) && NaturallyAligned(cap) && End(cap) <= PHYS_LIMIT && i < count
    requires RetypeCaps(cap, ObjType.VSpace, bits, count, true).Done?
    requires var c := RetypeCaps(cap, ObjType.VSpace, bits, count, true).caps;
             |cleared| == |c| && forall j :: 0 <= j < |c| ==> cleared[j] == (c[j].paddr, SizeOf(c[j]))
    requires Wiped(s.mem, cleared)
    ensures |RetypeCaps(cap, ObjType.VSpace, bits, count, true).caps| == count
    ensures var t := Word(RetypeCaps(cap, ObjType.VSpace, bits, count, true).caps[i].paddr);
            && (s.root == t && s.tab == map[AddressSpace.Root := t] && s.pages == map[] ==> PageTableRuns.IsEmpty(s))
            && ((forall p :: p in s.tab ==> s.tab[p] != t) ==> AddressSpace.FreshFrame(s, t))
  {
    VSpaceIsOnePage(cap, bits, count, i);
    var addr := RetypeCaps(cap, ObjType.VSpace, bits, count, true).caps[i].paddr;
    assert cleared[i] == (addr, PAGE);
    assert ZeroPage(s.mem, addr);
    PageIsHoldable(addr);
  }

  // ----- frames -----

  /** A frame capability as the map operations read it. */
  function FrameOf(c: CapRaw): (f: FrameMapping.FrameCap) {
    FrameMapping.FrameCap(Word(c.paddr), c.arg1, c.rights)
  }

  lemma MintedFrameReads(addr: nat, bits: nat, device: bool)
    requires bits == 12 || bits == 21 || bits == 30
    ensures var f := FrameOf(MintFrame(addr, bits, device));
            && FrameMapping.SizeOf(f) == (if bits == 12 then V.Small else if bits == 21 then V.Large else V.Huge)
            && FrameMapping.CacheOf(f) == if device then PageEntry.Uncacheable else PageEntry.WriteBack
  {
    var f := FrameOf(MintFrame(addr, bits, device));
    FrameMapping.SizeReads(f);
    FrameMapping.CacheReads(f);
  }

  lemma FrameSizes()
    ensures Pow2(12) == 0x1000 && Pow2(21) == 0x20_0000 && Pow2(30) == 0x4000_0000
  {
    assert Pow2(3) == 8;
    Pow2Add(3, 3);
    Pow2Add(6, 3);
    Pow2Add(6, 6);
    Pow2Add(12, 9);
    Pow2Add(21, 9);
  }

  /** The frames a call makes read back as the size asked for, writable, and uncached exactly for devices. */
  lemma RetypedFrameReads(cap: CapRaw, bits: nat, count: nat, i: nat)
    requires UntypedOk(cap) && RetypeCaps(cap, ObjType.Frame, bits, count, true).Done? && i < count
    ensures |RetypeCaps(cap, ObjType.Frame, bits, count, true).caps| == count
    ensures var c := RetypeCaps(cap, ObjType.Frame, bits, count, true).caps[i];
            var f := FrameOf(c);
            && (FrameMapping.SizeOf(f) == V.Small <==> bits == 12 && SizeOf(c) == 0x1000)
            && (FrameMapping.SizeOf(f) == V.Large <==> bits == 21 && SizeOf(c) == 0x20_0000)
            && (FrameMapping.SizeOf(f) == V.Huge <==> bits == 30 && SizeOf(c) == 0x4000_0000)
            && FrameMapping.CacheOf(f) == (if cap.arg1 != 0 then PageEntry.Uncacheable else PageEntry.WriteBack)
            && f.rights == {Read, Write}
  {
    var start, size := RetypeCarves(cap, ObjType.Frame, bits, count);
    var o := RetypeCaps(cap, ObjType.Frame, bits, count, true);
    ObjectAt(cap, ObjType.Frame, bits, start, size, o.caps, o.untyped, i);
    FrameSizes();
    MintedFrameReads(AddrAt(cap.paddr + start, size, i), bits, IsDevice(cap));
  }

  lemma FrameAt(cap: CapRaw, bits: nat, start: nat, size: nat, caps: seq<CapRaw>, left: CapRaw, i: nat)
    requires UntypedOk(cap) && NaturallyAligned(cap) && i < |caps|
    requires CarvedFrom(cap, ObjType.Frame, bits, start, size, caps, left)
    ensures NaturallyAligned(caps[i]) && End(caps[i]) <= End(cap)
  {
    ObjectIsAligned(cap, ObjType.Frame, bits, start, size, caps, left, i);
    ObjectsInOrder(cap, ObjType.Frame, bits, start, size, caps, left, i, |caps|);
    WatermarkMoves(cap, ObjType.Frame, bits, start, size, caps, left);
  }

  /** Mapping a frame that `retype` made is never refused for the frame's own address. */
  lemma RetypedFrameIsAccepted(
    cap: CapRaw, bits: nat, count: nat, i: nat, s: AddressSpace.Space, v: bv64, user: bool)
    requires UntypedOk(cap) && NaturallyAligned(cap) && End(cap) <= PHYS_LIMIT && i < count
    requires RetypeCaps(cap, ObjType.Frame, bits, count, true).Done? && AddressSpace.Inv(s)
    ensures |RetypeCaps(cap, ObjType.Frame, bits, count, true).caps| == count
    ensures var f := FrameOf(RetypeCaps(cap, ObjType.Frame, bits, count, true).caps[i]);
            && f.paddr < 0x10_0000_0000_0000
            && V.Map(s.mem, s.root, FrameMapping.SizeOf(f), v, f.paddr, FrameMapping.AttributesOf(f, user)).result
               != Err(V.MisalignedPAddr)
  {
    var start, size := RetypeCarves(cap, ObjType.Frame, bits, count);
    var o := RetypeCaps(cap, ObjType.Frame, bits, count, true);
    FrameAt(cap, bits, start, size, o.caps, o.untyped, i);
    RetypedFrameReads(cap, bits, count, i);
    var c := o.caps[i];
    var f := FrameOf(c);
    FrameIsAligned(c);
    PageTableRuns.MapRejectsWhen(s, FrameMapping.SizeOf(f), v, f.paddr, FrameMapping.AttributesOf(f, user));
  }

  lemma FrameIsAligned(c: CapRaw)
    requires NaturallyAligned(c) && End(c) <= PHYS_LIMIT
    ensures Word(c.paddr) < 0x10_0000_0000_0000
    ensures SizeOf(c) == 0x1000 ==> Word(c.paddr) & 0xFFF == 0
    ensures SizeOf(c) == 0x20_0000 ==> Word(c.paddr) & 0x1F_FFFF == 0
    ensures SizeOf(c) == 0x4000_0000 ==> Word(c.paddr) & 0x3FFF_FFFF == 0
  {
    WordBelow52Bits(c.paddr);
    WordIsAligned(c.paddr);
    DivModIs(c.paddr, SizeOf(c));
  }
}
