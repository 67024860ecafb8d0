/**
Four-level page tables in physical memory: walking, mapping, unmapping and installing tables.
*/
module VSpace {
  import opened Wrappers
  import opened PageEntry

  datatype FrameSize = Small | Large | Huge

  datatype VSpaceError = InvalidVAddr | MisalignedPAddr | MisalignedVAddr | AlreadyMapped | NotMapped | MissingTable

  datatype WalkResult = MappedPage(paddr: bv64, size: FrameSize, level: nat) | Unmapped(level: nat)

  // ----- addresses -----

  predicate IsCanonical(v: bv64) { v >> 47 == 0 || v >> 47 == 0x1FFFF }

  /** The four table indices of an address, from the PML4 down. */
  datatype Indices = Indices(pml4: bv64, pdpt: bv64, pd: bv64, pt: bv64)

  function VaddrIndices(v: bv64): (x: Indices) {
    Indices((v >> 39) & 0x1FF, (v >> 30) & 0x1FF, (v >> 21) & 0x1FF, (v >> 12) & 0x1FF)
  }

  /** Index into the table of level `5 - n`; `n` is 1 for the PML4 and 4 for the page table. */
  function Index(x: Indices, n: nat): (r: bv64)
    requires 1 <= n <= 4
  {
    if n == 1 then x.pml4 else if n == 2 then x.pdpt else if n == 3 then x.pd else x.pt
  }

  predicate InRange(x: Indices) { x.pml4 < 512 && x.pdpt < 512 && x.pd < 512 && x.pt < 512 }

  lemma IndicesInRange(v: bv64)
    ensures InRange(VaddrIndices(v))
  {}

  lemma IndexInRange(x: Indices, n: nat)
    requires InRange(x) && 1 <= n <= 4
    ensures Index(x, n) < 512
  {
    if n == 1 {
    } else if n == 2 {
    } else if n == 3 {
    } else {
    }
  }

  /** Depth at which pages of a size are entered. */
  function DepthOf(size: FrameSize): (n: nat) {
    match size
    case Huge => 2
    case Large => 3
    case Small => 4
  }

  function SizeAt(n: nat): (size: FrameSize)
    requires 2 <= n <= 4
  {
    if n == 2 then Huge else if n == 3 then Large else Small
  }

  predicate IsAligned(size: FrameSize, addr: bv64) {
    match size
    case Small => addr & 0xFFF == 0
    case Large => addr & 0x1F_FFFF == 0
    case Huge => addr & 0x3FFF_FFFF == 0
  }

  // ----- physical memory -----

  /** One entry of one table frame. */
  datatype Loc = Loc(table: bv64, index: bv64)

  type Mem = map<Loc, bv64>

  function Read(mem: Mem, loc: Loc): (e: bv64) { if loc in mem then mem[loc] else 0 }

  /** `is_page`: never in a PML4, always in a page table, and by the size bit in between. */
  predicate IsPage(n: nat, e: bv64) { IsPresent(e) && (n == 4 || (1 < n && IsHuge(e))) }

  // ----- the walk, level by level -----

  datatype Descent = Table(table: bv64) | Missing(n: nat) | Page(n: nat, loc: Loc, entry: bv64)

  /** Follow an address through `n` entries, stopping at the first that is absent or maps a page. */
  function Descend(mem: Mem, root: bv64, x: Indices, n: nat): (d: Descent)
    requires n <= 4
  {
    if n == 0 then Table(root)
    else match Descend(mem, root, x, n - 1)
      case Table(t) => Look(mem, Loc(t, Index(x, n)), n)
      case stop => stop
  }

  /** What the entry at `loc`, in a table of depth `n`, says. */
  function Look(mem: Mem, loc: Loc, n: nat): (d: Descent) {
    var e := Read(mem, loc);
    if !IsPresent(e) then Missing(n) else if IsPage(n, e) then Page(n, loc, e) else Table(Addr(e))
  }

  function Walk(mem: Mem, root: bv64, v: bv64): (r: Result<WalkResult, VSpaceError>) {
    if !IsCanonical(v) then Err(InvalidVAddr) else Ok(WalkFrom(Descend(mem, root, VaddrIndices(v), 4)))
  }

  function WalkFrom(d: Descent): (r: WalkResult) {
    match d
    case Missing(n) => Unmapped(if n <= 5 then 5 - n else 0)
    case Page(n, _, e) => MappedPage(Addr(e), if 2 <= n <= 4 then SizeAt(n) else Small, if n <= 5 then 5 - n else 0)
    case Table(_) => Unmapped(0)
  }

  /** Outcome of an operation that may write one entry. */
  datatype Write<T> = Write(mem: Mem, result: Result<T, VSpaceError>)

  /** Put `e` at depth `n` on the path of an address, if the tables above exist and the place is free. */
  function Enter(mem: Mem, root: bv64, x: Indices, n: nat, e: bv64): (w: Write<()>)
    requires 1 <= n <= 4
  {
    EnterFrom(Descend(mem, root, x, n - 1), mem, Index(x, n), e)
  }

  function EnterFrom(d: Descent, mem: Mem, i: bv64, e: bv64): (w: Write<()>) {
    match d
    case Missing(_) => Write(mem, Err(MissingTable))
    case Page(_, _, _) => Write(mem, Err(AlreadyMapped))
    case Table(t) =>
      if IsPresent(Read(mem, Loc(t, i))) then Write(mem, Err(AlreadyMapped)) else Write(mem[Loc(t, i) := e], Ok(()))
  }

  /** The checks of a map operation, in order. */
  function MapCheck(size: FrameSize, v: bv64, frame: bv64): (r: Option<VSpaceError>) {
    if !IsCanonical(v) then Some(InvalidVAddr)
    else if !IsAligned(size, v) then Some(MisalignedVAddr)
    else if !IsAligned(size, frame) then Some(MisalignedPAddr)
    else None
  }

  function Map(mem: Mem, root: bv64, size: FrameSize, v: bv64, frame: bv64, attr: VMAttributes): (w: Write<()>) {
    MapChecked(MapCheck(size, v, frame), mem, root, VaddrIndices(v), DepthOf(size),
               LeafEntry(frame, attr, size != Small))
  }

  function MapChecked(check: Option<VSpaceError>, mem: Mem, root: bv64, x: Indices, n: nat, e: bv64): (w: Write<()>)
    requires 1 <= n <= 4
  {
    if check.Some? then Write(mem, Err(check.value)) else Enter(mem, root, x, n, e)
  }

  function InstallTable(mem: Mem, root: bv64, v: bv64, level: nat, table: bv64): (w: Write<()>) {
    if !IsCanonical(v) then Write(mem, Err(InvalidVAddr))
    else if !IsAligned(Small, table) then Write(mem, Err(MisalignedPAddr))
    else if 1 <= level <= 3 then Enter(mem, root, VaddrIndices(v), 4 - level, TableEntry(table))
    else Write(mem, Err(InvalidVAddr))
  }

  function Unmap(mem: Mem, root: bv64, v: bv64): (w: Write<(bv64, FrameSize)>) {
    if !IsCanonical(v) then Write(mem, Err(InvalidVAddr)) else UnmapFrom(Descend(mem, root, VaddrIndices(v), 4), mem)
  }

  function UnmapFrom(d: Descent, mem: Mem): (w: Write<(bv64, FrameSize)>) {
    match d
    case Page(n, loc, e) => Write(mem[loc := 0], Ok((Addr(e), if 2 <= n <= 4 then SizeAt(n) else Small)))
    case _ => Write(mem, Err(NotMapped))
  }

  lemma {:induction false} DescentShape(mem: Mem, root: bv64, x: Indices, n: nat)
    requires n <= 4
    ensures match Descend(mem, root, x, n)
            case Missing(m) => 1 <= m <= n
            case Page(m, _, _) => 2 <= m <= n
            case Table(_) => n < 4
  {
    if n > 0 { DescentShape(mem, root, x, n - 1); }
  }

  // ----- the kernel's straight-line code -----

  /** The tables a VSpace capability reaches, updated in place. */
  class Tables {
    const root: bv64
    var mem: Mem

    constructor (root: bv64, mem: Mem)
      ensures this.root == root && this.mem == mem
    {
      this.root, this.mem := root, mem;
    }

    /** A walk that has stopped stays where it stopped. */
    lemma Stopped(x: Indices, m: nat, n: nat)
      requires m <= n <= 4 && !Descend(mem, root, x, m).Table?
      ensures Descend(mem, root, x, n) == Descend(mem, root, x, m)
      decreases n
    {
      if m < n { Stopped(x, m, n - 1); }
    }

    method WalkPage(v: bv64) returns (r: Result<WalkResult, VSpaceError>)
      ensures r == Walk(mem, root, v)
    {
      if !IsCanonical(v) {
        return Err(InvalidVAddr);
      }
      var found := WalkTables(VaddrIndices(v));
      r := Ok(found);
    }

    /** The walk itself, from the four indices of the address. */
    method WalkTables(x: Indices) returns (r: WalkResult)
      ensures r == WalkFrom(Descend(mem, root, x, 4))
    {
      var pml4e := Read(mem, Loc(root, x.pml4));
      assert Descend(mem, root, x, 1) == if IsPresent(pml4e) then Table(Addr(pml4e)) else Missing(1);
      if !IsPresent(pml4e) {
        Stopped(x, 1, 4);
        return Unmapped(4);
      }
      var pdpte := Read(mem, Loc(Addr(pml4e), x.pdpt));
      if !IsPresent(pdpte) {
        Stopped(x, 2, 4);
        return Unmapped(3);
      }
      if IsPage(2, pdpte) {
        Stopped(x, 2, 4);
        return MappedPage(Addr(pdpte), Huge, 3);
      }
      assert Descend(mem, root, x, 2) == Table(Addr(pdpte));
      var pde := Read(mem, Loc(Addr(pdpte), x.pd));
      if !IsPresent(pde) {
        Stopped(x, 3, 4);
        return Unmapped(2);
      }
      if IsPage(3, pde) {
        Stopped(x, 3, 4);
        return MappedPage(Addr(pde), Large, 2);
      }
      assert Descend(mem, root, x, 3) == Table(Addr(pde));
      var pte := Read(mem, Loc(Addr(pde), x.pt));
      if !IsPresent(pte) {
        return Unmapped(1);
      }
      return MappedPage(Addr(pte), Small, 1);
    }

    // The table walks shared by the map operations and `install_table`: write `e` into the
    // PML4, the PDPT, the page directory or the page table on the path of an address.

    method EnterPml4(x: Indices, e: bv64) returns (r: Result<(), VSpaceError>)
      modifies this`mem
      ensures Write(mem, r) == old(Enter(mem, root, x, 1, e))
    {
      var loc := Loc(root, x.pml4);
      if IsPresent(Read(mem, loc)) {
        return Err(AlreadyMapped);
      }
      mem := mem[loc := e];
      return Ok(());
    }

    method EnterPdpt(x: Indices, e: bv64) returns (r: Result<(), VSpaceError>)
      modifies this`mem
      ensures Write(mem, r) == old(Enter(mem, root, x, 2, e))
    {
      var pml4e := Read(mem, Loc(root, x.pml4));
      assert Descend(mem, root, x, 1) == if IsPresent(pml4e) then Table(Addr(pml4e)) else Missing(1);
      if !IsPresent(pml4e) {
        return Err(MissingTable);
      }
      var loc := Loc(Addr(pml4e), x.pdpt);
      if IsPresent(Read(mem, loc)) {
        return Err(AlreadyMapped);
      }
      mem := mem[loc := e];
      return Ok(());
    }

    method EnterPd(x: Indices, e: bv64) returns (r: Result<(), VSpaceError>)
      modifies this`mem
      ensures Write(mem, r) == old(Enter(mem, root, x, 3, e))
    {
      var pml4e := Read(mem, Loc(root, x.pml4));
      assert Descend(mem, root, x, 1) == if IsPresent(pml4e) then Table(Addr(pml4e)) else Missing(1);
      if !IsPresent(pml4e) {
        Stopped(x, 1, 2);
        return Err(MissingTable);
      }
      var pdpte := Read(mem, Loc(Addr(pml4e), x.pdpt));
      if !IsPresent(pdpte) {
        return Err(MissingTable);
      }
      if IsPage(2, pdpte) {
        return Err(AlreadyMapped);
      }
      assert Descend(mem, root, x, 2) == Table(Addr(pdpte));
      var loc := Loc(Addr(pdpte), x.pd);
      if IsPresent(Read(mem, loc)) {
        return Err(AlreadyMapped);
      }
      mem := mem[loc := e];
      return Ok(());
    }

    method EnterPt(x: Indices, e: bv64) returns (r: Result<(), VSpaceError>)
      modifies this`mem
      ensures Write(mem, r) == old(Enter(mem, root, x, 4, e))
    {
      var pml4e := Read(mem, Loc(root, x.pml4));
      assert Descend(mem, root, x, 1) == if IsPresent(pml4e) then Table(Addr(pml4e)) else Missing(1);
      if !IsPresent(pml4e) {
        Stopped(x, 1, 3);
        return Err(MissingTable);
      }
      var pdpte := Read(mem, Loc(Addr(pml4e), x.pdpt));
      if !IsPresent(pdpte) {
        Stopped(x, 2, 3);
        return Err(MissingTable);
      }
      if IsPage(2, pdpte) {
        Stopped(x, 2, 3);
        return Err(AlreadyMapped);
      }
      assert Descend(mem, root, x, 2) == Table(Addr(pdpte));
      var pde := Read(mem, Loc(Addr(pdpte), x.pd));
      if !IsPresent(pde) {
        return Err(MissingTable);
      }
      if IsPage(3, pde) {
        return Err(AlreadyMapped);
      }
      assert Descend(mem, root, x, 3) == Table(Addr(pde));
      var loc := Loc(Addr(pde), x.pt);
      if IsPresent(Read(mem, loc)) {
        return Err(AlreadyMapped);
      }
      mem := mem[loc := e];
      return Ok(());
    }

    /** `map_4k`, `map_2m` and `map_1g`: the same checks, then the walk of that size. */
    method MapPage(size: FrameSize, v: bv64, frame: bv64, attr: VMAttributes) returns (r: Result<(), VSpaceError>)
      modifies this`mem
      ensures Write(mem, r) == old(Map(mem, root, size, v, frame, attr))
    {
      var check := CheckMap(size, v, frame);
      if check.Some? {
        return Err(check.value);
      }
      var e;
      if size == Small {
        e := NewPage(frame, attr);
      } else {
        e := NewLargePage(frame, attr);
      }
      r := EnterSized(size, VaddrIndices(v), e);
    }

    static method CheckMap(size: FrameSize, v: bv64, frame: bv64) returns (r: Option<VSpaceError>)
      ensures r == MapCheck(size, v, frame)
    {
      if !IsCanonical(v) {
        return Some(InvalidVAddr);
      }
      if !IsAligned(size, v) {
        return Some(MisalignedVAddr);
      }
      if !IsAligned(size, frame) {
        return Some(MisalignedPAddr);
      }
      return None;
    }

    method EnterSized(size: FrameSize, x: Indices, e: bv64) returns (r: Result<(), VSpaceError>)
      modifies this`mem
      ensures Write(mem, r) == old(Enter(mem, root, x, DepthOf(size), e))
    {
      match size {
        case Small => r := EnterPt(x, e);
        case Large => r := EnterPd(x, e);
        case Huge => r := EnterPdpt(x, e);
      }
    }

    method UnmapPage(v: bv64) returns (r: Result<(bv64, FrameSize), VSpaceError>)
      modifies this`mem
      ensures Write(mem, r) == old(Unmap(mem, root, v))
    {
      if !IsCanonical(v) {
        return Err(InvalidVAddr);
      }
      r := UnmapTables(VaddrIndices(v));
    }

    method UnmapTables(x: Indices) returns (r: Result<(bv64, FrameSize), VSpaceError>)
      modifies this`mem
      ensures Write(mem, r) == old(UnmapFrom(Descend(mem, root, x, 4), mem))
    {
      var pml4e := Read(mem, Loc(root, x.pml4));
      assert Descend(mem, root, x, 1) == if IsPresent(pml4e) then Table(Addr(pml4e)) else Missing(1);
      if !IsPresent(pml4e) {
        Stopped(x, 1, 4);
        return Err(NotMapped);
      }
      var pdpteLoc := Loc(Addr(pml4e), x.pdpt);
      var pdpte := Read(mem, pdpteLoc);
      if !IsPresent(pdpte) {
        Stopped(x, 2, 4);
        return Err(NotMapped);
      }
      if IsPage(2, pdpte) {
        Stopped(x, 2, 4);
        mem := mem[pdpteLoc := 0];
        return Ok((Addr(pdpte), Huge));
      }
      assert Descend(mem, root, x, 2) == Table(Addr(pdpte));
      var pdeLoc := Loc(Addr(pdpte), x.pd);
      var pde := Read(mem, pdeLoc);
      if !IsPresent(pde) {
        Stopped(x, 3, 4);
        return Err(NotMapped);
      }
      if IsPage(3, pde) {
        Stopped(x, 3, 4);
        mem := mem[pdeLoc := 0];
        return Ok((Addr(pde), Large));
      }
      assert Descend(mem, root, x, 3) == Table(Addr(pde));
      var pteLoc := Loc(Addr(pde), x.pt);
      var pte := Read(mem, pteLoc);
      if !IsPresent(pte) {
        return Err(NotMapped);
      }
      mem := mem[pteLoc := 0];
      return Ok((Addr(pte), Small));
    }

    method Install(v: bv64, level: nat, table: bv64) returns (r: Result<(), VSpaceError>)
      modifies this`mem
      ensures Write(mem, r) == old(InstallTable(mem, root, v, level, table))
    {
      if !IsCanonical(v) {
        return Err(InvalidVAddr);
      }
      if !IsAligned(Small, table) {
        return Err(MisalignedPAddr);
      }
      match level {
        case 3 => r := EnterPml4(VaddrIndices(v), TableEntry(table));
        case 2 => r := EnterPdpt(VaddrIndices(v), TableEntry(table));
        case 1 => r := EnterPd(VaddrIndices(v), TableEntry(table));
        case _ => return Err(InvalidVAddr);
      }
    }
  }
}
