/**
Frame capabilities and the rights a mapping really grants: what the processor allows is decided
by every entry on the path, not by the leaf alone.
*/
module FrameMapping {
  import opened Wrappers
  import opened Bits
  import opened Caps
  import opened PageEntry
  import opened VSpace
  import opened AddressSpace
  import opened PageTableRuns

  // ----- frame capabilities -----

  /** A frame capability, with its address as a machine word. */
  datatype FrameCap = FrameCap(paddr: bv64, arg1: nat, rights: set<Right>)

  function SizeOf(cap: FrameCap): (size: FrameSize) {
    var bits := Mod(cap.arg1, 64);
    if bits == 21 then Large else if bits == 30 then Huge else Small
  }

  function CacheOf(cap: FrameCap): (policy: CachePolicy) {
    var policy := Mod(Div(cap.arg1, 128), 8);
    if policy == 1 then WriteThrough
    else if policy == 2 then Uncacheable
    else if policy == 3 then WriteCombining
    else WriteBack
  }

  /** Bits 0 to 5 of the first word hold the size; a value that is no frame size reads as a small page. */
  lemma SizeReads(cap: FrameCap)
    ensures SizeOf(cap) == Large <==> cap.arg1 % 64 == 21
    ensures SizeOf(cap) == Huge <==> cap.arg1 % 64 == 30
    ensures SizeOf(cap) == Small <==> cap.arg1 % 64 != 21 && cap.arg1 % 64 != 30
  {
    DivModIs(cap.arg1, 64);
  }

  /** Bits 7 to 9 hold the cache policy; a value that is no policy reads as write-back. */
  lemma CacheReads(cap: FrameCap)
    ensures CacheOf(cap) == WriteThrough <==> cap.arg1 / 128 % 8 == 1
    ensures CacheOf(cap) == Uncacheable <==> cap.arg1 / 128 % 8 == 2
    ensures CacheOf(cap) == WriteCombining <==> cap.arg1 / 128 % 8 == 3
    ensures CacheOf(cap) == WriteBack <==> cap.arg1 / 128 % 8 == 0 || cap.arg1 / 128 % 8 > 3
  {
    DivModIs(cap.arg1, 128);
    DivModIs(cap.arg1 / 128, 8);
  }

  function AttributesOf(cap: FrameCap, user: bool): (attr: VMAttributes) {
    VMAttributes(Right.Read in cap.rights, Right.Write in cap.rights, Right.Execute in cap.rights,
                 CacheOf(cap), false, user)
  }

  /** Each right, the cache policy and the user flag go where they belong; no mapping is global. */
  lemma AttributesRead(cap: FrameCap, user: bool)
    ensures var a := AttributesOf(cap, user);
            && (a.read <==> Right.Read in cap.rights) && (a.write <==> Right.Write in cap.rights)
            && (a.execute <==> Right.Execute in cap.rights) && a.user == user && !a.global
            && (a.cache == WriteThrough <==> cap.arg1 / 128 % 8 == 1)
            && (a.cache == Uncacheable <==> cap.arg1 / 128 % 8 == 2)
            && (a.cache == WriteCombining <==> cap.arg1 / 128 % 8 == 3)
  {
    CacheReads(cap);
  }

  datatype VMRight = VRead | VWrite | VExecute

  /** `vm_rights_from_cap`, with its accumulator. */
  method VmRights(cap: FrameCap) returns (rights: set<VMRight>)
    ensures VRead in rights <==> Right.Read in cap.rights
    ensures VWrite in rights <==> Right.Write in cap.rights
    ensures VExecute in rights <==> Right.Execute in cap.rights
  {
    rights := {};
    if Right.Read in cap.rights {
      rights := rights + {VRead};
    }
    if Right.Write in cap.rights {
      rights := rights + {VWrite};
    }
    if Right.Execute in cap.rights {
      rights := rights + {VExecute};
    }
  }

  /** `map_frame`: size, address and attributes all come from the capability. */
  method MapFrame(tables: Tables, v: bv64, cap: FrameCap, user: bool) returns (r: Result<(), VSpaceError>)
    modifies tables`mem
    ensures VSpace.Write(tables.mem, r)
         == old(Map(tables.mem, tables.root, SizeOf(cap), v, cap.paddr, AttributesOf(cap, user)))
  {
    var rights := VmRights(cap);
    var attr := VMAttributes(VRead in rights, VWrite in rights, VExecute in rights, CacheOf(cap), false, user);
    r := tables.MapPage(SizeOf(cap), v, cap.paddr, attr);
  }

  // ----- what the processor allows -----

  datatype Access = Access(write: bool, user: bool, noExecute: bool)

  function Through(a: Access, e: bv64): (r: Access) {
    Access(a.write && IsWritable(e), a.user && IsUser(e), a.noExecute || IsNoExecute(e))
  }

  /** Every entry met on the way down to depth `n` takes its share of rights away. */
  function Effective(mem: Mem, root: bv64, x: Indices, n: nat): (a: Access)
    requires n <= 4
  {
    if n == 0 then Access(true, true, false)
    else
      var above := Effective(mem, root, x, n - 1);
      match Descend(mem, root, x, n - 1)
      case Table(t) => Through(above, VSpace.Read(mem, Loc(t, Index(x, n))))
      case _ => above
  }

  /** Tables are permissive at every level: they take nothing away. */
  lemma {:induction false} TablesTakeNothing(s: Space, x: Indices, n: nat)
    requires Inv(s) && InRange(x) && n <= 3 && At(x, n) in s.tab
    ensures Effective(s.mem, s.root, x, n) == Access(true, true, false)
  {
    if n > 0 {
      assert TableOk(s, At(x, n));
      TablesTakeNothing(s, x, n - 1);
      ReachTable(s, x, n - 1);
      IndexInRange(x, n);
      EntryReadsAs(s, At(x, n - 1), Index(x, n));
      TableEntryReads(s.tab[At(x, n)]);
      EffectiveAt(s.mem, s.root, x, n, s.tab[At(x, n - 1)]);
    }
  }

  lemma ReachTable(s: Space, x: Indices, n: nat)
    requires Inv(s) && InRange(x) && n <= 3 && At(x, n) in s.tab
    ensures Descend(s.mem, s.root, x, n) == Table(s.tab[At(x, n)])
  {
    DescendMeans(s, x, n);
    var d := Descend(s.mem, s.root, x, n);
    if d.Page? {
      TableNotPage(s, x, d.n, n);
    } else if d.Missing? {
      if d.n < n { TablesAbove(s, x, d.n, n); }
    }
  }

  lemma {:induction false} PastPage(s: Space, x: Indices, m: nat, n: nat)
    requires Inv(s) && InRange(x) && m <= n <= 4 && Covered(s, x, m)
    ensures !Descend(s.mem, s.root, x, n).Table?
    ensures Effective(s.mem, s.root, x, n) == Effective(s.mem, s.root, x, m)
    decreases n
  {
    if m < n {
      PastPage(s, x, m, n - 1);
    } else {
      DescendMeans(s, x, n);
      assert At(x, n) in s.tab ==> TableOk(s, At(x, n));
    }
  }

  /** The rights along the whole path are those of the leaf word. */
  lemma PathGrantsLeaf(s: Space, x: Indices, n: nat)
    requires Inv(s) && InRange(x) && Covered(s, x, n)
    ensures var e := s.pages[At(x, n)];
            Effective(s.mem, s.root, x, 4) == Access(IsWritable(e), IsUser(e), IsNoExecute(e))
  {
    assert PageOk(s, At(x, n));
    TablesTakeNothing(s, x, n - 1);
    LeafTakes(s, x, n);
    PastPage(s, x, n, 4);
  }

  lemma LeafTakes(s: Space, x: Indices, n: nat)
    requires Inv(s) && InRange(x) && Covered(s, x, n) && At(x, n - 1) in s.tab
    ensures Effective(s.mem, s.root, x, n) == Through(Effective(s.mem, s.root, x, n - 1), s.pages[At(x, n)])
  {
    assert PageOk(s, At(x, n));
    ReachTable(s, x, n - 1);
    EntryReadsAs(s, At(x, n - 1), Index(x, n));
    EffectiveAt(s.mem, s.root, x, n, s.tab[At(x, n - 1)]);
  }

  lemma EffectiveAt(mem: Mem, root: bv64, x: Indices, n: nat, t: bv64)
    requires 1 <= n <= 4 && Descend(mem, root, x, n - 1) == Table(t)
    ensures Effective(mem, root, x, n) == Through(Effective(mem, root, x, n - 1), VSpace.Read(mem, Loc(t, Index(x, n))))
  {}

  // ----- in every run -----

  lemma MapKeepsPage(s: Space, size: FrameSize, v: bv64, frame: bv64, attr: VMAttributes, c: Path)
    requires Inv(s) && frame < 0x10_0000_0000_0000 && c in s.pages
    ensures var r := MapStep(s, size, v, frame, attr); c in r.pages && r.pages[c] == s.pages[c]
  {
    MapStepIs(s, size, v, frame, attr);
  }

  lemma UnmapKeepsPage(s: Space, v: bv64, c: Path)
    requires Inv(s) && c in s.pages && Depth(c) <= 4 && c != At(VaddrIndices(v), Depth(c))
    ensures var r := UnmapStep(s, v); c in r.pages && r.pages[c] == s.pages[c]
  {
    var n := UnmapStepIs(s, v);
  }

  /** Only an unmap inside a page ends its record. */
  lemma PageStays(s: Space, op: Op, c: Path)
    requires Inv(s) && Legal(s, op) && c in s.pages && Depth(c) <= 4
    requires op.OpUnmap? ==> c != At(VaddrIndices(op.v), Depth(c))
    ensures c in Step(s, op).pages && Step(s, op).pages[c] == s.pages[c]
  {
    match op
    case OpMap(size, v, frame, attr) => MapKeepsPage(s, size, v, frame, attr, c);
    case OpInstall(v, level, table) => assert InstallStep(s, v, level, table).pages == s.pages;
    case OpUnmap(v) => UnmapKeepsPage(s, v, c);
  }

  /** No operation of the list unmaps at an address of the page of `v`. */
  predicate NeverUnmaps(ops: seq<Op>, v: bv64, size: FrameSize) {
    forall i :: 0 <= i < |ops| && ops[i].OpUnmap? ==> !SamePage(v, ops[i].v, size)
  }

  lemma {:induction false} PageStaysInRun(s: Space, ops: seq<Op>, v: bv64, size: FrameSize)
    requires Inv(s) && LegalRun(s, ops) && NeverUnmaps(ops, v, size) && Covered(s, VaddrIndices(v), DepthOf(size))
    ensures var c := At(VaddrIndices(v), DepthOf(size));
            c in Run(s, ops).pages && Run(s, ops).pages[c] == s.pages[c]
    decreases |ops|
  {
    if ops != [] {
      assert ops[0].OpUnmap? ==> !SamePage(v, ops[0].v, size);
      assert forall i :: 0 <= i < |ops[1..]| ==> ops[1..][i] == ops[i + 1];
      PageStays(s, ops[0], At(VaddrIndices(v), DepthOf(size)));
      StepKeeps(s, ops[0]);
      PageStaysInRun(Step(s, ops[0]), ops[1..], v, size);
    }
  }

  /**
  A frame mapped through its capability: as long as nobody unmaps the page, at every one of its
  addresses the processor allows exactly what the capability and the user flag said.
  */
  lemma FrameRightsInAnyRun(s: Space, v: bv64, cap: FrameCap, user: bool, ops: seq<Op>, w: bv64)
    requires Inv(s) && cap.paddr < 0x10_0000_0000_0000 && SamePage(v, w, SizeOf(cap))
    requires Map(s.mem, s.root, SizeOf(cap), v, cap.paddr, AttributesOf(cap, user)).result.Ok?
    requires LegalRun(MapStep(s, SizeOf(cap), v, cap.paddr, AttributesOf(cap, user)), ops)
    requires NeverUnmaps(ops, v, SizeOf(cap))
    ensures var r := Run(MapStep(s, SizeOf(cap), v, cap.paddr, AttributesOf(cap, user)), ops);
            Effective(r.mem, r.root, VaddrIndices(w), 4)
              == Access(Right.Write in cap.rights, user, Right.Execute !in cap.rights)
  {
    var size, attr := SizeOf(cap), AttributesOf(cap, user);
    var t := MapStep(s, size, v, cap.paddr, attr);
    MappedLeaf(s, size, v, cap.paddr, attr);
    PageStaysInRun(t, ops, v, size);
    RunsStaySound(t, ops);
    IndicesInRange(w);
    PathGrantsLeaf(Run(t, ops), VaddrIndices(w), DepthOf(size));
  }

  /**
  And the word the walk ends at carries the capability's cache policy in bits 3 and 4, maps the
  capability's frame, and is not global.
  */
  lemma FrameWordInAnyRun(s: Space, v: bv64, cap: FrameCap, user: bool, ops: seq<Op>, w: bv64)
    requires Inv(s) && cap.paddr < 0x10_0000_0000_0000 && SamePage(v, w, SizeOf(cap))
    requires Map(s.mem, s.root, SizeOf(cap), v, cap.paddr, AttributesOf(cap, user)).result.Ok?
    requires LegalRun(MapStep(s, SizeOf(cap), v, cap.paddr, AttributesOf(cap, user)), ops)
    requires NeverUnmaps(ops, v, SizeOf(cap))
    ensures var r := Run(MapStep(s, SizeOf(cap), v, cap.paddr, AttributesOf(cap, user)), ops);
            var d, policy := Descend(r.mem, r.root, VaddrIndices(w), 4), cap.arg1 / 128 % 8;
            && d.Page? && d.n == DepthOf(SizeOf(cap)) && d.entry & 0x000F_FFFF_FFFF_F000 == cap.paddr
            && (d.entry & 0x8 != 0 <==> policy == 1 || policy == 3)
            && (d.entry & 0x10 != 0 <==> policy == 2 || policy == 3)
            && d.entry & 0x100 == 0
  {
    var size, attr := SizeOf(cap), AttributesOf(cap, user);
    var t := MapStep(s, size, v, cap.paddr, attr);
    MappedLeaf(s, size, v, cap.paddr, attr);
    MappedWord(s, size, v, cap.paddr, attr);
    PageStaysInRun(t, ops, v, size);
    RunsStaySound(t, ops);
    IndicesInRange(w);
    DescendFindsPage(Run(t, ops), VaddrIndices(w), DepthOf(size));
    AttributesRead(cap, user);
  }

  lemma MappedWord(s: Space, size: FrameSize, v: bv64, frame: bv64, attr: VMAttributes)
    requires Inv(s) && frame < 0x10_0000_0000_0000 && Map(s.mem, s.root, size, v, frame, attr).result.Ok?
    ensures var t, c := MapStep(s, size, v, frame, attr), At(VaddrIndices(v), DepthOf(size));
            && c in t.pages && t.pages[c] & 0x000F_FFFF_FFFF_F000 == frame
            && (t.pages[c] & 0x8 != 0) == (attr.cache == WriteThrough || attr.cache == WriteCombining)
            && (t.pages[c] & 0x10 != 0) == (attr.cache == Uncacheable || attr.cache == WriteCombining)
            && (t.pages[c] & 0x100 != 0) == attr.global
  {
    MapStepIs(s, size, v, frame, attr);
    MapMeans(s, size, v, frame, attr);
    AlignedFrameIsHoldable(size, frame);
    LeafBits(frame, attr, size != Small);
  }

  lemma MappedLeaf(s: Space, size: FrameSize, v: bv64, frame: bv64, attr: VMAttributes)
    requires Inv(s) && frame < 0x10_0000_0000_0000 && Map(s.mem, s.root, size, v, frame, attr).result.Ok?
    ensures var t, c := MapStep(s, size, v, frame, attr), At(VaddrIndices(v), DepthOf(size));
            && Inv(t) && Covered(t, VaddrIndices(v), DepthOf(size))
            && IsWritable(t.pages[c]) == attr.write && IsUser(t.pages[c]) == attr.user
            && IsNoExecute(t.pages[c]) == !attr.execute
  {
    MapStepIs(s, size, v, frame, attr);
    StepKeeps(s, OpMap(size, v, frame, attr));
    MapMeans(s, size, v, frame, attr);
    LeafOfReads(size, v, frame, attr);
  }
}
