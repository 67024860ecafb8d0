/** CNode capabilities: two field widths packed into one word. */
module CNode {
  import opened Wrappers
  import opened Caps

  function GuardBits(cap: CapRaw): (r: nat) { cap.arg1 % 64 }

  function RadixBits(cap: CapRaw): (r: nat) { (cap.arg1 / 64) % 64 }

  function LevelBits(cap: CapRaw): (r: nat) { GuardBits(cap) + RadixBits(cap) }

  /** `mint`: both widths cut to six bits and packed; None where its assertion on their sum fails. */
  function Mint(addr: nat, radixBits: nat, guardBits: nat, guard: nat, rights: set<Right>): (r: Option<CapRaw>) {
    var guardSz, radixSz := guardBits % 64, radixBits % 64;
    if radixSz + guardSz > CNODE_DEPTH then None
    else Some(CapRaw(guardSz + 64 * radixSz, guard, addr, ObjType.CNode, rights))
  }

  /** A mint succeeds exactly when the widths, cut to six bits, fit the depth, and then both read back. */
  lemma MintReadsBack(addr: nat, radixBits: nat, guardBits: nat, guard: nat, rights: set<Right>)
    ensures var r := Mint(addr, radixBits, guardBits, guard, rights);
            && (r.Some? <==> radixBits % 64 + guardBits % 64 <= 32)
            && (r.Some? ==>
                  && RadixBits(r.value) == radixBits % 64 && GuardBits(r.value) == guardBits % 64
                  && r.value.arg2 == guard && r.value.paddr == addr && r.value.capType == ObjType.CNode
                  && r.value.rights == rights)
  {
    var g, x := guardBits % 64, radixBits % 64;
    assert (g + 64 * x) % 64 == g && (g + 64 * x) / 64 == x;
  }

  /** Two mints give the same capability exactly when they agree on all they keep. */
  lemma MintIsInjective(a: nat, x: nat, g: nat, v: nat, b: nat, y: nat, h: nat, w: nat, rights: set<Right>)
    requires Mint(a, x, g, v, rights).Some? && Mint(b, y, h, w, rights).Some?
    ensures Mint(a, x, g, v, rights) == Mint(b, y, h, w, rights)
         <==> a == b && x % 64 == y % 64 && g % 64 == h % 64 && v == w
  {
    MintReadsBack(a, x, g, v, rights);
    MintReadsBack(b, y, h, w, rights);
  }
}
