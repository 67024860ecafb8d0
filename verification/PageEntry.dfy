/**
x86-64 page table entries: the flag bits, the four kinds of entry the kernel builds, and what
can be read back from them.
*/
module PageEntry {
  const PRESENT: bv64 := 0x1
  const WRITABLE: bv64 := 0x2
  const USER: bv64 := 0x4
  const WRITE_THROUGH: bv64 := 0x8
  const CACHE_DISABLE: bv64 := 0x10
  const HUGE_PAGE: bv64 := 0x80
  const GLOBAL: bv64 := 0x100
  const NO_EXECUTE: bv64 := 0x8000_0000_0000_0000
  const ADDR_MASK: bv64 := 0x000F_FFFF_FFFF_F000

  datatype CachePolicy = WriteBack | WriteThrough | Uncacheable | WriteCombining

  datatype VMAttributes =
    VMAttributes(read: bool, write: bool, execute: bool, cache: CachePolicy, global: bool, user: bool)

  function Flag(on: bool, bit: bv64): (r: bv64) { if on then bit else 0 }

  /** The flag word of a mapping, one bit per attribute. */
  function Flags(attr: VMAttributes): (r: bv64) {
    PRESENT | Flag(attr.write, WRITABLE) | Flag(attr.user, USER) | Flag(attr.global, GLOBAL)
    | Flag(!attr.execute, NO_EXECUTE)
    | Flag(attr.cache == WriteThrough || attr.cache == WriteCombining, WRITE_THROUGH)
    | Flag(attr.cache == Uncacheable || attr.cache == WriteCombining, CACHE_DISABLE)
  }

  /** `build_flags`, with its accumulator. */
  method BuildFlags(attr: VMAttributes) returns (flags: bv64)
    ensures flags == Flags(attr)
  {
    flags := PRESENT;
    if attr.write {
      flags := flags | WRITABLE;
    }
    if attr.user {
      flags := flags | USER;
    }
    if attr.global {
      flags := flags | GLOBAL;
    }
    if !attr.execute {
      flags := flags | NO_EXECUTE;
    }
    match attr.cache {
      case WriteBack =>
      case WriteThrough => flags := flags | WRITE_THROUGH;
      case Uncacheable => flags := flags | CACHE_DISABLE;
      case WriteCombining => flags := flags | (WRITE_THROUGH | CACHE_DISABLE);
    }
  }

  /** `new_table` at every level. */
  function TableEntry(addr: bv64): (e: bv64) { (addr & ADDR_MASK) | PRESENT | WRITABLE | USER }

  /** `new_page`, and with `large` set `new_large_page` and `new_huge_page`. */
  function LeafEntry(addr: bv64, attr: VMAttributes, large: bool): (e: bv64) {
    (addr & ADDR_MASK) | LeafFlags(attr, large)
  }

  function LeafFlags(attr: VMAttributes, large: bool): (f: bv64) { Flags(attr) | Flag(large, HUGE_PAGE) }

  method NewPage(addr: bv64, attr: VMAttributes) returns (e: bv64)
    ensures e == LeafEntry(addr, attr, false)
  {
    var flags := BuildFlags(attr);
    OrZero(Flags(attr));
    e := (addr & ADDR_MASK) | flags;
  }

  /** `new_large_page` and `new_huge_page` build the same word. */
  method NewLargePage(addr: bv64, attr: VMAttributes) returns (e: bv64)
    ensures e == LeafEntry(addr, attr, true)
  {
    var flags := BuildFlags(attr);
    e := (addr & ADDR_MASK) | (flags | HUGE_PAGE);
  }

  lemma OrZero(x: bv64)
    ensures x | 0 == x
  {}

  predicate IsPresent(e: bv64) { e & PRESENT != 0 }

  predicate IsHuge(e: bv64) { e & HUGE_PAGE != 0 }

  predicate IsWritable(e: bv64) { e & WRITABLE != 0 }

  predicate IsUser(e: bv64) { e & USER != 0 }

  predicate IsNoExecute(e: bv64) { e & NO_EXECUTE != 0 }

  function Addr(e: bv64): (a: bv64) { e & ADDR_MASK }

  /** Addresses an entry can hold without loss. */
  predicate Holdable(addr: bv64) { addr & ADDR_MASK == addr }

  lemma ZeroIsAbsent()
    ensures !IsPresent(0)
  {}

  lemma TableEntryReads(addr: bv64)
    requires Holdable(addr)
    ensures var e := TableEntry(addr);
            && IsPresent(e) && !IsHuge(e) && Addr(e) == addr
            && IsWritable(e) && IsUser(e) && !IsNoExecute(e)
  {}

  // ----- reading a leaf back -----

  lemma AddrOf(a: bv64, f: bv64)
    requires Holdable(a) && f & ADDR_MASK == 0
    ensures Addr(a | f) == a
  {}

  lemma BitOf(a: bv64, f: bv64, b: bv64)
    requires Holdable(a) && b & ADDR_MASK == 0
    ensures (a | f) & b == f & b
  {}

  lemma FlagBits(attr: VMAttributes, large: bool)
    ensures var f := LeafFlags(attr, large);
            && f & ADDR_MASK == 0 && f & PRESENT != 0 && (f & HUGE_PAGE != 0) == large
            && (f & WRITABLE != 0) == attr.write && (f & USER != 0) == attr.user
  {}

  lemma MoreFlagBits(attr: VMAttributes, large: bool)
    ensures var f := LeafFlags(attr, large);
            && (f & NO_EXECUTE != 0) == !attr.execute && (f & GLOBAL != 0) == attr.global
  {}

  lemma CacheFlagBits(attr: VMAttributes, large: bool)
    ensures var f := LeafFlags(attr, large);
            && (f & WRITE_THROUGH != 0) == (attr.cache == WriteThrough || attr.cache == WriteCombining)
            && (f & CACHE_DISABLE != 0) == (attr.cache == Uncacheable || attr.cache == WriteCombining)
  {}

  lemma LeafAddr(addr: bv64, attr: VMAttributes, large: bool)
    requires Holdable(addr)
    ensures Addr(LeafEntry(addr, attr, large)) == addr
  {
    FlagBits(attr, large);
    AddrOf(addr, LeafFlags(attr, large));
  }

  lemma LeafKind(addr: bv64, attr: VMAttributes, large: bool)
    requires Holdable(addr)
    ensures IsPresent(LeafEntry(addr, attr, large)) && IsHuge(LeafEntry(addr, attr, large)) == large
  {
    FlagBits(attr, large);
    BitOf(addr, LeafFlags(attr, large), PRESENT);
    BitOf(addr, LeafFlags(attr, large), HUGE_PAGE);
  }

  lemma LeafAccess(addr: bv64, attr: VMAttributes, large: bool)
    requires Holdable(addr)
    ensures IsWritable(LeafEntry(addr, attr, large)) == attr.write && IsUser(LeafEntry(addr, attr, large)) == attr.user
  {
    FlagBits(attr, large);
    BitOf(addr, LeafFlags(attr, large), WRITABLE);
    BitOf(addr, LeafFlags(attr, large), USER);
  }

  lemma LeafExecute(addr: bv64, attr: VMAttributes, large: bool)
    requires Holdable(addr)
    ensures IsNoExecute(LeafEntry(addr, attr, large)) == !attr.execute
  {
    MoreFlagBits(attr, large);
    BitOf(addr, LeafFlags(attr, large), NO_EXECUTE);
  }

  lemma LeafEntryReads(addr: bv64, attr: VMAttributes, large: bool)
    requires Holdable(addr)
    ensures var e := LeafEntry(addr, attr, large);
            && IsPresent(e) && IsHuge(e) == large && Addr(e) == addr
            && IsWritable(e) == attr.write && IsUser(e) == attr.user && IsNoExecute(e) == !attr.execute
  {
    LeafAddr(addr, attr, large);
    LeafKind(addr, attr, large);
    LeafAccess(addr, attr, large);
    LeafExecute(addr, attr, large);
  }

  /** Physical addresses are below 2^52; a page-aligned one fits an entry. */
  lemma AlignedIsHoldable(addr: bv64)
    requires addr < 0x10_0000_0000_0000 && addr & 0xFFF == 0
    ensures Holdable(addr)
  {}

  /** A leaf entry determines the mapping: frame, size class and every attribute but read. */
  lemma LeafEntryIsInjective(a: bv64, b: bv64, p: VMAttributes, q: VMAttributes, large: bool, large': bool)
    requires Holdable(a) && Holdable(b) && LeafEntry(a, p, large) == LeafEntry(b, q, large')
    ensures a == b && large == large' && p.(read := q.read) == q
  {
    LeafEntryReads(a, p, large);
    LeafEntryReads(b, q, large');
    LeafCacheBits(a, p, large);
    LeafCacheBits(b, q, large');
  }

  lemma LeafCacheBits(addr: bv64, attr: VMAttributes, large: bool)
    requires Holdable(addr)
    ensures var e := LeafEntry(addr, attr, large);
            && (e & GLOBAL != 0) == attr.global
            && (e & WRITE_THROUGH != 0) == (attr.cache == WriteThrough || attr.cache == WriteCombining)
            && (e & CACHE_DISABLE != 0) == (attr.cache == Uncacheable || attr.cache == WriteCombining)
  {
    var f := LeafFlags(attr, large);
    MoreFlagBits(attr, large);
    CacheFlagBits(attr, large);
    BitOf(addr, f, GLOBAL);
    BitOf(addr, f, WRITE_THROUGH);
    BitOf(addr, f, CACHE_DISABLE);
  }

  /** Every flag of a leaf at the bit the processor reads it from. */
  lemma LeafBits(addr: bv64, attr: VMAttributes, large: bool)
    requires Holdable(addr)
    ensures var e := LeafEntry(addr, attr, large);
            && e & 0x1 != 0 && (e & 0x2 != 0) == attr.write && (e & 0x4 != 0) == attr.user
            && (e & 0x8 != 0) == (attr.cache == WriteThrough || attr.cache == WriteCombining)
            && (e & 0x10 != 0) == (attr.cache == Uncacheable || attr.cache == WriteCombining)
            && (e & 0x80 != 0) == large && (e & 0x100 != 0) == attr.global
            && (e & 0x8000_0000_0000_0000 != 0) == !attr.execute
            && e & 0x000F_FFFF_FFFF_F000 == addr
  {
    LeafEntryReads(addr, attr, large);
    LeafCacheBits(addr, attr, large);
  }

  /** A table entry: present, writable and user, and nothing else besides the address. */
  lemma TableBits(addr: bv64)
    requires addr < 0x10_0000_0000_0000 && addr & 0xFFF == 0
    ensures TableEntry(addr) == addr | 0x7
  {}
}
