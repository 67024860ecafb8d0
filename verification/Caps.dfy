/** Raw capabilities: the words every kernel object is named by. */
module Caps {
  datatype ObjType =
    | NullObj | Untyped | CNode | Tcb | Frame | Endpoint | Reply | Monitor | Interrupt | VSpace

  /** The flags of `CapRights`; a rights word is the set of the flags it holds. */
  datatype Right = Read | Write | Execute | Grant | Control | Send | Receive

  datatype SysError =
    | CSpaceNotFound | LookupError | SlotNotEmpty | SlotEmpty | InvalidValue | OutOfMemory

  /** A capability without its MDB links; `arg1`, `arg2` and `paddr` are 64-bit words. */
  datatype CapRaw = CapRaw(arg1: nat, arg2: nat, paddr: nat, capType: ObjType, rights: set<Right>)

  const NULL_CAP := CapRaw(0, 0, 0, NullObj, {})

  /** `size_of::<CNodeEntry>()` rounded up to a power of two, and its logarithm. */
  const CNODE_ENTRY_SZ: nat := 64
  const CNODE_ENTRY_BITS: nat := 6

  /** Number of capability address bits a lookup may resolve. */
  const CNODE_DEPTH: nat := 32
}
