/**
Every run of `install_table`, the map operations and `unmap` from an empty PML4, and what each
step does to the translation of every address.
*/
module PageTableRuns {
  import opened Wrappers
  import opened PageEntry
  import opened VSpace
  import opened AddressSpace

  // ----- what a change of the record does to every translation -----

  /** The first free place of a path is unique. */
  lemma HoleIsUnique(s: Space, x: Indices, m: nat, k: nat)
    requires Inv(s) && 1 <= m <= 4 && 1 <= k <= 4
    requires At(x, m - 1) in s.tab && At(x, m) !in s.tab && At(x, k - 1) in s.tab && At(x, k) !in s.tab
    ensures m == k
  {
    if m < k - 1 {
      TablesAbove(s, x, m, k - 1);
    } else if k < m - 1 {
      TablesAbove(s, x, k, m - 1);
    }
  }

  function Translate(s: Space, x: Indices): (r: WalkResult) { WalkFrom(Descend(s.mem, s.root, x, 4)) }

  lemma TranslatePage(s: Space, x: Indices, n: nat)
    requires Inv(s) && InRange(x) && Covered(s, x, n)
    ensures Translate(s, x) == MappedPage(Addr(s.pages[At(x, n)]), SizeAt(n), 5 - n)
  {
    DescendFindsPage(s, x, n);
  }

  lemma TranslateHole(s: Space, x: Indices, m: nat)
    requires Inv(s) && InRange(x) && 1 <= m <= 4 && At(x, m - 1) in s.tab && At(x, m) !in s.tab && At(x, m) !in s.pages
    ensures Translate(s, x) == Unmapped(5 - m)
  {
    forall k: nat ensures !Covered(s, x, k) {
      if 2 <= k <= 4 { PathBlocked(s, x, m, k); }
    }
    var k := DescendFindsHole(s, x);
    HoleIsUnique(s, x, m, k);
  }

  /** States with the same tables that differ only at a page place off the path translate alike. */
  lemma TranslateElsewhere(s: Space, r: Space, x: Indices, c: Path)
    requires Inv(s) && Inv(r) && InRange(x) && s.tab == r.tab
    requires forall d :: d != c ==> (d in r.pages <==> d in s.pages) && (d in s.pages ==> r.pages[d] == s.pages[d])
    requires forall n: nat :: n <= 4 ==> At(x, n) != c
    ensures Translate(s, x) == Translate(r, x)
  {
    if n: nat :| Covered(s, x, n) {
      TranslatePage(s, x, n);
      assert Covered(r, x, n);
      TranslatePage(r, x, n);
    } else {
      var m := DescendFindsHole(s, x);
      TranslateHole(s, x, m);
      TranslateHole(r, x, m);
    }
  }

  lemma OffPath(x: Indices, y: Indices, n: nat, k: nat)
    requires n <= 4 && k <= 4 && At(y, n) != At(x, n)
    ensures At(y, k) != At(x, n)
  {
    assert Depth(At(y, k)) == k && Depth(At(x, n)) == n;
  }

  /** Adding a page translates the addresses under it and no others. */
  lemma AddPageTranslates(s: Space, x: Indices, n: nat, e: bv64, y: Indices)
    requires Inv(s) && InRange(y) && 2 <= n <= 4 && Free(s, At(x, n)) && IsPage(n, e)
    ensures var r := AddPage(s, At(x, n), e);
            if At(y, n) == At(x, n) then
              Translate(s, y) == Unmapped(5 - n) && Translate(r, y) == MappedPage(Addr(e), SizeAt(n), 5 - n)
            else Translate(r, y) == Translate(s, y)
  {
    var c := At(x, n);
    var r := AddPage(s, c, e);
    AddPageKeeps(s, c, e);
    if At(y, n) == c {
      TranslateHole(s, y, n);
      assert Covered(r, y, n);
      TranslatePage(r, y, n);
    } else {
      forall k: nat | k <= 4 ensures At(y, k) != c { OffPath(x, y, n, k); }
      TranslateElsewhere(s, r, y, c);
    }
  }

  /** Removing a page clears the addresses under it and no others. */
  lemma RemovePageTranslates(s: Space, x: Indices, n: nat, y: Indices)
    requires Inv(s) && InRange(y) && Covered(s, x, n) && At(x, n).parent in s.tab
    ensures var r := RemovePage(s, At(x, n));
            if At(y, n) == At(x, n) then
              Translate(s, y) == MappedPage(Addr(s.pages[At(x, n)]), SizeAt(n), 5 - n)
              && Translate(r, y) == Unmapped(5 - n)
            else Translate(r, y) == Translate(s, y)
  {
    var c := At(x, n);
    var r := RemovePage(s, c);
    RemovePageKeeps(s, c);
    assert c in s.tab ==> TableOk(s, c);
    if At(y, n) == c {
      assert Covered(s, y, n);
      TranslatePage(s, y, n);
      TranslateHole(r, y, n);
    } else {
      forall k: nat | k <= 4 ensures At(y, k) != c { OffPath(x, y, n, k); }
      TranslateElsewhere(s, r, y, c);
    }
  }

  /** Adding a table maps nothing and unmaps nothing. */
  lemma AddTableTranslates(s: Space, c: Path, t: bv64, y: Indices)
    requires Inv(s) && InRange(y) && Free(s, c) && Depth(c) <= 3 && FreshFrame(s, t)
    ensures var r := AddTable(s, c, t);
            && (Translate(s, y).MappedPage? ==> Translate(r, y) == Translate(s, y))
            && (Translate(s, y).Unmapped? ==> Translate(r, y).Unmapped?)
  {
    var r := AddTable(s, c, t);
    AddTableKeeps(s, c, t);
    if n: nat :| Covered(s, y, n) {
      TranslatePage(s, y, n);
      assert Covered(r, y, n);
      TranslatePage(r, y, n);
    } else {
      var m := DescendFindsHole(s, y);
      assert forall n: nat :: Covered(r, y, n) ==> Covered(s, y, n);
      var k := DescendFindsHole(r, y);
    }
  }

  // ----- the operations, seen through the record -----

  /** The page a map operation enters, as a word. */
  function LeafOf(size: FrameSize, frame: bv64, attr: VMAttributes): (e: bv64) {
    LeafEntry(frame, attr, size != Small)
  }

  lemma LeafOfReads(size: FrameSize, v: bv64, frame: bv64, attr: VMAttributes)
    requires frame < 0x10_0000_0000_0000 && MapCheck(size, v, frame).None?
    ensures var e := LeafOf(size, frame, attr);
            && IsPage(DepthOf(size), e) && Addr(e) == frame
            && IsWritable(e) == attr.write && IsUser(e) == attr.user && IsNoExecute(e) == !attr.execute
  {
    AlignedFrameIsHoldable(size, frame);
    LeafEntryReads(frame, attr, size != Small);
  }

  lemma AlignedFrameIsHoldable(size: FrameSize, frame: bv64)
    requires frame < 0x10_0000_0000_0000 && IsAligned(size, frame)
    ensures Holdable(frame)
  {
    match size
    case Small => AlignedIsHoldable(frame);
    case Large => LargeIsSmall(frame); AlignedIsHoldable(frame);
    case Huge => HugeIsSmall(frame); AlignedIsHoldable(frame);
  }

  lemma LargeIsSmall(a: bv64)
    requires a & 0x1F_FFFF == 0
    ensures a & 0xFFF == 0
  {}

  lemma HugeIsSmall(a: bv64)
    requires a & 0x3FFF_FFFF == 0
    ensures a & 0xFFF == 0
  {}

  lemma MapCheckedMeans(s: Space, check: Option<VSpaceError>, x: Indices, n: nat, e: bv64)
    requires Inv(s) && InRange(x) && 2 <= n <= 4
    ensures var w := MapChecked(check, s.mem, s.root, x, n, e);
            && w.result == (if check.Some? then Err(check.value) else Verdict(s, x, n))
            && (w.result.Err? ==> w.mem == s.mem)
            && (w.result.Ok? ==> Free(s, At(x, n)) && w.mem == AddPage(s, At(x, n), e).mem)
  {
    EnterMeans(s, x, n, e);
    VerdictMeans(s, x, n);
    if Verdict(s, x, n).Ok? { FreeAt(s, x, n); }
  }

  lemma {:induction false} FreeAt(s: Space, x: Indices, n: nat)
    requires InRange(x) && 1 <= n <= 4 && At(x, n - 1) in s.tab && At(x, n) !in s.tab && At(x, n) !in s.pages
    ensures Free(s, At(x, n))
  {
    IndexInRange(x, n);
    assert At(x, n) == Sub(At(x, n - 1), Index(x, n));
  }

  /** A map operation fails exactly as its checks and the record say, and otherwise adds one page. */
  lemma MapMeans(s: Space, size: FrameSize, v: bv64, frame: bv64, attr: VMAttributes)
    requires Inv(s)
    ensures var w, x, n := Map(s.mem, s.root, size, v, frame, attr), VaddrIndices(v), DepthOf(size);
            && w.result == (if MapCheck(size, v, frame).Some? then Err(MapCheck(size, v, frame).value)
                            else Verdict(s, x, n))
            && (w.result.Err? ==> w.mem == s.mem)
            && (w.result.Ok? ==> Free(s, At(x, n)) && w.mem == AddPage(s, At(x, n), LeafOf(size, frame, attr)).mem)
  {
    IndicesInRange(v);
    MapCheckedMeans(s, MapCheck(size, v, frame), VaddrIndices(v), DepthOf(size), LeafOf(size, frame, attr));
  }

  /** `install_table` likewise, and otherwise adds one table. */
  lemma InstallMeans(s: Space, v: bv64, level: nat, table: bv64)
    requires Inv(s)
    ensures var w, x := InstallTable(s.mem, s.root, v, level, table), VaddrIndices(v);
            && w.result == (if !IsCanonical(v) then Err(InvalidVAddr)
                            else if !IsAligned(Small, table) then Err(MisalignedPAddr)
                            else if 1 <= level <= 3 then Verdict(s, x, 4 - level)
                            else Err(InvalidVAddr))
            && (w.result.Err? ==> w.mem == s.mem)
            && (w.result.Ok? ==>
                  1 <= level <= 3 && Free(s, At(x, 4 - level)) && w.mem == AddTable(s, At(x, 4 - level), table).mem)
  {
    IndicesInRange(v);
    if 1 <= level <= 3 { EnterMeans(s, VaddrIndices(v), 4 - level, TableEntry(table)); }
  }

  // ----- the exact conditions, on the bits of the arguments and the record -----

  /** Bit 47 is repeated in every bit above it. */
  lemma CanonicalMeans(v: bv64)
    ensures IsCanonical(v) <==> v < 0x8000_0000_0000 || 0xFFFF_8000_0000_0000 <= v
  {}

  lemma MapCheckMeans(size: FrameSize, v: bv64, frame: bv64)
    ensures var vOk := match size {
                case Small => v & 0xFFF == 0 case Large => v & 0x1F_FFFF == 0 case Huge => v & 0x3FFF_FFFF == 0 };
            var frameOk := match size {
                case Small => frame & 0xFFF == 0
                case Large => frame & 0x1F_FFFF == 0
                case Huge => frame & 0x3FFF_FFFF == 0 };
            MapCheck(size, v, frame) ==
            if !(v < 0x8000_0000_0000 || 0xFFFF_8000_0000_0000 <= v) then Some(InvalidVAddr)
            else if !vOk then Some(MisalignedVAddr)
            else if !frameOk then Some(MisalignedPAddr)
            else None
  {
    CanonicalMeans(v);
  }

  /** The verdict, read off the record: a table above, and nothing in the place or over it. */
  lemma VerdictMeans(s: Space, x: Indices, n: nat)
    requires Inv(s) && 1 <= n <= 4
    ensures Verdict(s, x, n).Ok? <==> At(x, n - 1) in s.tab && At(x, n) !in s.tab && At(x, n) !in s.pages
    ensures Verdict(s, x, n) == Err(AlreadyMapped) <==>
            At(x, n) in s.tab || exists k: nat :: k <= n && Covered(s, x, k)
    ensures Verdict(s, x, n) == Err(MissingTable) <==>
            At(x, n - 1) !in s.tab && forall k: nat :: k <= n ==> !Covered(s, x, k)
    ensures Verdict(s, x, n).Err? ==> Verdict(s, x, n).error.AlreadyMapped? || Verdict(s, x, n).error.MissingTable?
  {
    assert At(x, n) in s.tab ==> TableOk(s, At(x, n));
    assert At(x, n) in s.pages ==> PageOk(s, At(x, n)) && Covered(s, x, n);
    if At(x, n - 1) in s.tab {
      ReachedVerdict(s, x, n);
      forall k: nat | k < n ensures !Covered(s, x, k) { TableNotPage(s, x, k, n - 1); }
    }
  }

  /** A map operation of any size rejects its arguments exactly when they are out of range or misaligned. */
  lemma MapRejectsWhen(s: Space, size: FrameSize, v: bv64, frame: bv64, attr: VMAttributes)
    requires Inv(s)
    ensures var r := Map(s.mem, s.root, size, v, frame, attr).result;
            var vOk := match size {
                case Small => v & 0xFFF == 0 case Large => v & 0x1F_FFFF == 0 case Huge => v & 0x3FFF_FFFF == 0 };
            var frameOk := match size {
                case Small => frame & 0xFFF == 0
                case Large => frame & 0x1F_FFFF == 0
                case Huge => frame & 0x3FFF_FFFF == 0 };
            var canonical := v < 0x8000_0000_0000 || 0xFFFF_8000_0000_0000 <= v;
            && (r == Err(InvalidVAddr) <==> !canonical)
            && (r == Err(MisalignedVAddr) <==> canonical && !vOk)
            && (r == Err(MisalignedPAddr) <==> canonical && vOk && !frameOk)
  {
    MapCheckMeans(size, v, frame);
    MapMeans(s, size, v, frame, attr);
    VerdictMeans(s, VaddrIndices(v), DepthOf(size));
  }

  lemma CheckedMeans(s: Space, check: Option<VSpaceError>, x: Indices, n: nat, r: Result<(), VSpaceError>)
    requires Inv(s) && 1 <= n <= 4
    requires check.Some? ==> !check.value.AlreadyMapped? && !check.value.MissingTable?
    requires r == if check.Some? then Err(check.value) else Verdict(s, x, n)
    ensures r.Ok? <==> check.None? && At(x, n - 1) in s.tab && At(x, n) !in s.tab && At(x, n) !in s.pages
    ensures r == Err(AlreadyMapped) <==>
            check.None? && (At(x, n) in s.tab || exists k: nat :: k <= n && Covered(s, x, k))
    ensures r == Err(MissingTable) <==>
            check.None? && At(x, n - 1) !in s.tab && forall k: nat :: k <= n ==> !Covered(s, x, k)
  {
    VerdictMeans(s, x, n);
  }

  /** With arguments in order it succeeds, or fails, exactly as the record of tables and pages says. */
  lemma MapSucceedsWhen(s: Space, size: FrameSize, v: bv64, frame: bv64, attr: VMAttributes)
    requires Inv(s)
    ensures var r, x := Map(s.mem, s.root, size, v, frame, attr).result, VaddrIndices(v);
            var vOk := match size {
                case Small => v & 0xFFF == 0 case Large => v & 0x1F_FFFF == 0 case Huge => v & 0x3FFF_FFFF == 0 };
            var frameOk := match size {
                case Small => frame & 0xFFF == 0
                case Large => frame & 0x1F_FFFF == 0
                case Huge => frame & 0x3FFF_FFFF == 0 };
            var n := match size { case Small => 4 case Large => 3 case Huge => 2 };
            var valid := (v < 0x8000_0000_0000 || 0xFFFF_8000_0000_0000 <= v) && vOk && frameOk;
            && (r.Ok? <==> valid && At(x, n - 1) in s.tab && At(x, n) !in s.tab && At(x, n) !in s.pages)
            && (r == Err(AlreadyMapped) <==>
                valid && (At(x, n) in s.tab || exists k: nat :: k <= n && Covered(s, x, k)))
            && (r == Err(MissingTable) <==>
                valid && At(x, n - 1) !in s.tab && forall k: nat :: k <= n ==> !Covered(s, x, k))
  {
    MapCheckMeans(size, v, frame);
    MapMeans(s, size, v, frame, attr);
    CheckedMeans(s, MapCheck(size, v, frame), VaddrIndices(v), DepthOf(size),
                 Map(s.mem, s.root, size, v, frame, attr).result);
  }

  /** Likewise for `install_table`: level 3 is entered in the PML4, level 1 in a page directory. */
  lemma InstallSucceedsWhen(s: Space, v: bv64, level: nat, table: bv64)
    requires Inv(s)
    ensures var r, x := InstallTable(s.mem, s.root, v, level, table).result, VaddrIndices(v);
            var canonical := v < 0x8000_0000_0000 || 0xFFFF_8000_0000_0000 <= v;
            var valid := canonical && table & 0xFFF == 0 && 1 <= level <= 3;
            && (r.Ok? <==> valid && At(x, 3 - level) in s.tab && At(x, 4 - level) !in s.tab
                           && At(x, 4 - level) !in s.pages)
            && (r == Err(InvalidVAddr) <==> !canonical || (table & 0xFFF == 0 && !(1 <= level <= 3)))
            && (r == Err(MisalignedPAddr) <==> canonical && table & 0xFFF != 0)
            && (r == Err(AlreadyMapped) <==>
                valid && (At(x, 4 - level) in s.tab || exists k: nat :: k <= 4 - level && Covered(s, x, k)))
            && (r == Err(MissingTable) <==>
                && valid && At(x, 3 - level) !in s.tab
                && forall k: nat :: k <= 4 - level ==> !Covered(s, x, k))
  {
    CanonicalMeans(v);
    InstallMeans(s, v, level, table);
    if 1 <= level <= 3 { VerdictMeans(s, VaddrIndices(v), 4 - level); }
  }

  lemma UnmapFromMeans(s: Space, x: Indices, n: nat)
    requires Inv(s) && InRange(x) && Covered(s, x, n)
    ensures var c := At(x, n);
            && c.parent in s.tab
            && UnmapFrom(Descend(s.mem, s.root, x, 4), s.mem)
               == Write(RemovePage(s, c).mem, Ok((Addr(s.pages[c]), SizeAt(n))))
  {
    DescendFindsPage(s, x, n);
  }

  /** `unmap` removes the recorded page over the address; with none there it fails and changes nothing. */
  lemma UnmapMeans(s: Space, v: bv64)
    requires Inv(s)
    ensures var w, x := Unmap(s.mem, s.root, v), VaddrIndices(v);
            && (!IsCanonical(v) ==> w == Write(s.mem, Err(InvalidVAddr)))
            && (IsCanonical(v) && (forall n: nat :: !Covered(s, x, n)) ==> w == Write(s.mem, Err(NotMapped)))
            && (IsCanonical(v) ==> forall n: nat :: Covered(s, x, n) ==>
                  && At(x, n).parent in s.tab
                  && w == Write(RemovePage(s, At(x, n)).mem, Ok((Addr(s.pages[At(x, n)]), SizeAt(n)))))
  {
    var x := VaddrIndices(v);
    IndicesInRange(v);
    if n: nat :| Covered(s, x, n) {
      forall k: nat | Covered(s, x, k) ensures k == n { OnePageOnPath(s, x, n, k); }
      UnmapFromMeans(s, x, n);
    } else {
      var m := DescendFindsHole(s, x);
    }
  }

  // ----- runs -----

  datatype Op =
    | OpMap(size: FrameSize, v: bv64, frame: bv64, attr: VMAttributes)
    | OpInstall(v: bv64, level: nat, table: bv64)
    | OpUnmap(v: bv64)

  /** Physical addresses are below 2^52; a table is installed in a fresh frame of zeroes. */
  ghost predicate Legal(s: Space, op: Op) {
    match op
    case OpMap(_, _, frame, _) => frame < 0x10_0000_0000_0000
    case OpInstall(_, _, table) => FreshFrame(s, table)
    case OpUnmap(_) => true
  }

  /** The code's effect on memory, and the record beside it. */
  function Step(s: Space, op: Op): (r: Space) {
    match op
    case OpMap(size, v, frame, attr) => MapStep(s, size, v, frame, attr)
    case OpInstall(v, level, table) => InstallStep(s, v, level, table)
    case OpUnmap(v) => UnmapStep(s, v)
  }

  function MapStep(s: Space, size: FrameSize, v: bv64, frame: bv64, attr: VMAttributes): (r: Space) {
    var w := Map(s.mem, s.root, size, v, frame, attr);
    if w.result.Err? then s.(mem := w.mem)
    else s.(mem := w.mem, pages := s.pages[At(VaddrIndices(v), DepthOf(size)) := LeafOf(size, frame, attr)])
  }

  function InstallStep(s: Space, v: bv64, level: nat, table: bv64): (r: Space) {
    var w := InstallTable(s.mem, s.root, v, level, table);
    if w.result.Err? || !(1 <= level <= 3) then s.(mem := w.mem)
    else s.(mem := w.mem, tab := s.tab[At(VaddrIndices(v), 4 - level) := table])
  }

  function UnmapStep(s: Space, v: bv64): (r: Space) {
    var w := Unmap(s.mem, s.root, v);
    if w.result.Err? then s.(mem := w.mem)
    else s.(mem := w.mem, pages := s.pages - {At(VaddrIndices(v), DepthOf(w.result.value.1))})
  }

  lemma MapStepIs(s: Space, size: FrameSize, v: bv64, frame: bv64, attr: VMAttributes)
    requires Inv(s) && frame < 0x10_0000_0000_0000
    ensures var c, e := At(VaddrIndices(v), DepthOf(size)), LeafOf(size, frame, attr);
            if Map(s.mem, s.root, size, v, frame, attr).result.Ok? then
              && Free(s, c) && IsPage(DepthOf(size), e) && Addr(e) == frame
              && MapStep(s, size, v, frame, attr) == AddPage(s, c, e)
            else MapStep(s, size, v, frame, attr) == s
  {
    MapMeans(s, size, v, frame, attr);
    if Map(s.mem, s.root, size, v, frame, attr).result.Ok? { LeafOfReads(size, v, frame, attr); }
  }

  lemma UnmapStepHits(s: Space, v: bv64, n: nat)
    requires Inv(s) && IsCanonical(v) && Covered(s, VaddrIndices(v), n)
    ensures var w, c := Unmap(s.mem, s.root, v), At(VaddrIndices(v), n);
            && c.parent in s.tab && w.result == Ok((Addr(s.pages[c]), SizeAt(n)))
            && UnmapStep(s, v) == RemovePage(s, c)
  {
    UnmapMeans(s, v);
  }

  lemma UnmapStepMisses(s: Space, v: bv64)
    requires Inv(s) && (IsCanonical(v) ==> forall n: nat :: !Covered(s, VaddrIndices(v), n))
    ensures Unmap(s.mem, s.root, v).result.Err? && UnmapStep(s, v) == s
  {
    UnmapMeans(s, v);
  }

  lemma UnmapStepIs(s: Space, v: bv64) returns (n: nat)
    requires Inv(s)
    ensures var w, x := Unmap(s.mem, s.root, v), VaddrIndices(v);
            if w.result.Ok? then
              && IsCanonical(v) && Covered(s, x, n) && At(x, n).parent in s.tab
              && w.result.value == (Addr(s.pages[At(x, n)]), SizeAt(n))
              && UnmapStep(s, v) == RemovePage(s, At(x, n))
            else UnmapStep(s, v) == s
  {
    n := 0;
    if k: nat :| IsCanonical(v) && Covered(s, VaddrIndices(v), k) {
      n := k;
      UnmapStepHits(s, v, n);
    } else {
      UnmapStepMisses(s, v);
    }
  }

  lemma StepKeeps(s: Space, op: Op)
    requires Inv(s) && Legal(s, op)
    ensures Inv(Step(s, op))
  {
    match op
    case OpMap(size, v, frame, attr) =>
      MapStepIs(s, size, v, frame, attr);
      if Map(s.mem, s.root, size, v, frame, attr).result.Ok? {
        AddPageKeeps(s, At(VaddrIndices(v), DepthOf(size)), LeafOf(size, frame, attr));
      }
    case OpInstall(v, level, table) =>
      InstallMeans(s, v, level, table);
      if InstallTable(s.mem, s.root, v, level, table).result.Ok? {
        AddTableKeeps(s, At(VaddrIndices(v), 4 - level), table);
      }
    case OpUnmap(v) =>
      var n := UnmapStepIs(s, v);
      if Unmap(s.mem, s.root, v).result.Ok? {
        RemovePageKeeps(s, At(VaddrIndices(v), n));
      }
  }

  ghost predicate LegalRun(s: Space, ops: seq<Op>)
    decreases |ops|
  {
    ops == [] || (Legal(s, ops[0]) && LegalRun(Step(s, ops[0]), ops[1..]))
  }

  function Run(s: Space, ops: seq<Op>): (r: Space)
    decreases |ops|
  {
    if ops == [] then s else Run(Step(s, ops[0]), ops[1..])
  }

  /** An empty PML4: one zeroed frame and nothing recorded. */
  ghost predicate IsEmpty(s: Space) {
    && Holdable(s.root) && s.tab == map[Root := s.root] && s.pages == map[]
    && forall i: bv64 :: i < 512 ==> Loc(s.root, i) in s.mem && s.mem[Loc(s.root, i)] == 0
  }

  lemma EmptyIsSound(s: Space)
    requires IsEmpty(s)
    ensures Inv(s)
  {}

  /** In every state of every run the tables are an alias-free tree that agrees with the record. */
  lemma {:induction false} RunsStaySound(s: Space, ops: seq<Op>)
    requires Inv(s) && LegalRun(s, ops)
    ensures Inv(Run(s, ops))
    decreases |ops|
  {
    if ops != [] {
      StepKeeps(s, ops[0]);
      RunsStaySound(Step(s, ops[0]), ops[1..]);
    }
  }

  /** ... so in every run from an empty PML4, `walk` is lookup in a map of disjoint pages. */
  lemma WalkInAnyRun(s: Space, ops: seq<Op>, v: bv64)
    requires IsEmpty(s) && LegalRun(s, ops) && IsCanonical(v)
    ensures var r, x := Run(s, ops), VaddrIndices(v);
            && (forall n: nat :: Covered(r, x, n) ==>
                  Walk(r.mem, r.root, v) == Ok(MappedPage(Addr(r.pages[At(x, n)]), SizeAt(n), 5 - n)))
            && ((forall n: nat ::
                 !Covered(r, x, n)) ==> Walk(r.mem, r.root, v).Ok? && Walk(r.mem, r.root, v).value.Unmapped?)
            && (forall m: nat, n: nat :: Covered(r, x, m) && Covered(r, x, n) ==> m == n)
  {
    EmptyIsSound(s);
    RunsStaySound(s, ops);
    var r, x := Run(s, ops), VaddrIndices(v);
    forall n: nat | Covered(r, x, n)
      ensures Walk(r.mem, r.root, v) == Ok(MappedPage(Addr(r.pages[At(x, n)]), SizeAt(n), 5 - n))
    {
      WalkFindsPage(r, v, n);
    }
    if forall n: nat :: !Covered(r, x, n) { var m := WalkFindsHole(r, v); }
    forall m: nat, n: nat | Covered(r, x, m) && Covered(r, x, n) ensures m == n { OnePageOnPath(r, x, m, n); }
  }

  // ----- each step, for every address -----

  predicate SamePage(v: bv64, w: bv64, size: FrameSize) {
    At(VaddrIndices(v), DepthOf(size)) == At(VaddrIndices(w), DepthOf(size))
  }

  /** How a step that changes one page shows in a walk. */
  lemma WalksMove(s: Space, r: Space, same: bool, w: bv64, before: WalkResult, after: WalkResult)
    requires IsCanonical(w)
    requires var y := VaddrIndices(w);
             if same then Translate(s, y) == before && Translate(r, y) == after
             else Translate(r, y) == Translate(s, y)
    ensures if same then Walk(s.mem, s.root, w) == Ok(before) && Walk(r.mem, r.root, w) == Ok(after)
            else Walk(r.mem, r.root, w) == Walk(s.mem, s.root, w)
  {}

  /** A successful map translates every address of its page, and changes no other translation. */
  lemma MapTranslates(s: Space, size: FrameSize, v: bv64, frame: bv64, attr: VMAttributes, w: bv64)
    requires Inv(s) && frame < 0x10_0000_0000_0000 && IsCanonical(w)
    requires Map(s.mem, s.root, size, v, frame, attr).result.Ok?
    ensures var r := MapStep(s, size, v, frame, attr);
            if SamePage(v, w, size) then
              && Walk(s.mem, s.root, w) == Ok(Unmapped(5 - DepthOf(size)))
              && Walk(r.mem, r.root, w) == Ok(MappedPage(frame, size, 5 - DepthOf(size)))
            else Walk(r.mem, r.root, w) == Walk(s.mem, s.root, w)
  {
    var n := DepthOf(size);
    IndicesInRange(w);
    MapStepTranslates(s, size, v, frame, attr, VaddrIndices(w));
    WalksMove(s, MapStep(s, size, v, frame, attr), SamePage(v, w, size), w,
              Unmapped(5 - n), MappedPage(frame, size, 5 - n));
  }

  lemma MapStepTranslates(s: Space, size: FrameSize, v: bv64, frame: bv64, attr: VMAttributes, y: Indices)
    requires Inv(s) && frame < 0x10_0000_0000_0000 && InRange(y)
    requires Map(s.mem, s.root, size, v, frame, attr).result.Ok?
    ensures var r, n := MapStep(s, size, v, frame, attr), DepthOf(size);
            if At(VaddrIndices(v), n) == At(y, n) then
              Translate(s, y) == Unmapped(5 - n) && Translate(r, y) == MappedPage(frame, size, 5 - n)
            else Translate(r, y) == Translate(s, y)
  {
    MapStepIs(s, size, v, frame, attr);
    AddPageTranslates(s, VaddrIndices(v), DepthOf(size), LeafOf(size, frame, attr), y);
  }

  /** A successful unmap clears every address of one page, and changes no other translation. */
  lemma UnmapTranslates(s: Space, v: bv64, w: bv64)
    requires Inv(s) && IsCanonical(w) && Unmap(s.mem, s.root, v).result.Ok?
    ensures var r, (frame, size) := UnmapStep(s, v), Unmap(s.mem, s.root, v).result.value;
            if SamePage(v, w, size) then
              && Walk(s.mem, s.root, w) == Ok(MappedPage(frame, size, 5 - DepthOf(size)))
              && Walk(r.mem, r.root, w) == Ok(Unmapped(5 - DepthOf(size)))
            else Walk(r.mem, r.root, w) == Walk(s.mem, s.root, w)
  {
    var r, y := UnmapStep(s, v), VaddrIndices(w);
    var n := UnmapStepIs(s, v);
    IndicesInRange(w);
    RemovePageTranslates(s, VaddrIndices(v), n, y);
    WalksMove(s, r, SamePage(v, w, SizeAt(n)), w,
              MappedPage(Addr(s.pages[At(VaddrIndices(v), n)]), SizeAt(n), 5 - n), Unmapped(5 - n));
  }

  /** Installing a table keeps every translation, and maps nothing. */
  lemma InstallTranslates(s: Space, v: bv64, level: nat, table: bv64, w: bv64)
    requires Inv(s) && FreshFrame(s, table) && IsCanonical(w)
    ensures var r := InstallStep(s, v, level, table);
            && Walk(s.mem, s.root, w).Ok? && Walk(r.mem, r.root, w).Ok?
            && (Walk(s.mem, s.root, w).value.MappedPage? ==> Walk(r.mem, r.root, w) == Walk(s.mem, s.root, w))
            && (Walk(s.mem, s.root, w).value.Unmapped? ==> Walk(r.mem, r.root, w).value.Unmapped?)
  {
    InstallMeans(s, v, level, table);
    IndicesInRange(w);
    if InstallTable(s.mem, s.root, v, level, table).result.Ok? {
      AddTableTranslates(s, At(VaddrIndices(v), 4 - level), table, VaddrIndices(w));
    }
  }

  // ----- undoing -----

  lemma AddThenRemove(s: Space, c: Path, e: bv64)
    requires Inv(s) && Free(s, c)
    ensures RemovePage(AddPage(s, c, e), c) == s
  {
    assert EntryOk(s, c.parent, c.index);
    assert s.pages[c := e] - {c} == s.pages;
  }

  /** Mapping a page and unmapping at any address inside it gives the frame and size back, and restores memory. */
  lemma MapThenUnmap(s: Space, size: FrameSize, v: bv64, frame: bv64, attr: VMAttributes, w: bv64)
    requires Inv(s) && frame < 0x10_0000_0000_0000 && IsCanonical(w) && SamePage(v, w, size)
    requires Map(s.mem, s.root, size, v, frame, attr).result.Ok?
    ensures Unmap(Map(s.mem, s.root, size, v, frame, attr).mem, s.root, w) == Write(s.mem, Ok((frame, size)))
  {
    MapStepIs(s, size, v, frame, attr);
    IndicesInRange(w);
    EnterThenUnmap(s, VaddrIndices(w), DepthOf(size), LeafOf(size, frame, attr));
  }

  lemma EnterThenUnmap(s: Space, x: Indices, n: nat, e: bv64)
    requires Inv(s) && InRange(x) && 2 <= n <= 4 && Free(s, At(x, n)) && IsPage(n, e)
    ensures var r := AddPage(s, At(x, n), e);
            UnmapFrom(Descend(r.mem, r.root, x, 4), r.mem) == Write(s.mem, Ok((Addr(e), SizeAt(n))))
  {
    var c := At(x, n);
    AddPageKeeps(s, c, e);
    UnmapFromMeans(AddPage(s, c, e), x, n);
    AddThenRemove(s, c, e);
  }

  // ----- pages as address ranges -----

  // First address of a page: the indices put back, and the sign extended.

  function HugeBase(i4: bv64, i3: bv64): (a: bv64) {
    (if i4 < 256 then 0 else 0xFFFF_0000_0000_0000) | (i4 << 39) | (i3 << 30)
  }

  function LargeBase(i4: bv64, i3: bv64, i2: bv64): (a: bv64) { HugeBase(i4, i3) | (i2 << 21) }

  function SmallBase(i4: bv64, i3: bv64, i2: bv64, i1: bv64): (a: bv64) { LargeBase(i4, i3, i2) | (i1 << 12) }

  // Clearing the page offset of a canonical address leaves the first address of its page.

  lemma HugeBaseIs(v: bv64)
    requires IsCanonical(v)
    ensures v & !0x3FFF_FFFF == HugeBase((v >> 39) & 0x1FF, (v >> 30) & 0x1FF)
  {}

  lemma LargeBaseIs(v: bv64)
    requires IsCanonical(v)
    ensures v & !0x1F_FFFF == LargeBase((v >> 39) & 0x1FF, (v >> 30) & 0x1FF, (v >> 21) & 0x1FF)
  {}

  lemma SmallBaseIs(v: bv64)
    requires IsCanonical(v)
    ensures v & !0xFFF == SmallBase((v >> 39) & 0x1FF, (v >> 30) & 0x1FF, (v >> 21) & 0x1FF, (v >> 12) & 0x1FF)
  {}

  lemma HugeFields(v: bv64)
    ensures var z := v & !0x3FFF_FFFF;
            (v >> 39) & 0x1FF == (z >> 39) & 0x1FF && (v >> 30) & 0x1FF == (z >> 30) & 0x1FF
  {}

  lemma LargeFields(v: bv64)
    ensures var z := v & !0x1F_FFFF;
            && (v >> 39) & 0x1FF == (z >> 39) & 0x1FF && (v >> 30) & 0x1FF == (z >> 30) & 0x1FF
            && (v >> 21) & 0x1FF == (z >> 21) & 0x1FF
  {}

  lemma SmallFields(v: bv64)
    ensures var z := v & !0xFFF;
            && (v >> 39) & 0x1FF == (z >> 39) & 0x1FF && (v >> 30) & 0x1FF == (z >> 30) & 0x1FF
            && (v >> 21) & 0x1FF == (z >> 21) & 0x1FF && (v >> 12) & 0x1FF == (z >> 12) & 0x1FF
  {}

  lemma {:induction false} PathEq(x: Indices, y: Indices)
    ensures At(x, 2) == At(y, 2) <==> x.pml4 == y.pml4 && x.pdpt == y.pdpt
    ensures At(x, 3) == At(y, 3) <==> x.pml4 == y.pml4 && x.pdpt == y.pdpt && x.pd == y.pd
    ensures At(x, 4) == At(y, 4) <==> x == y
  {
    assert At(x, 1) == Sub(Root, x.pml4) && At(y, 1) == Sub(Root, y.pml4);
    assert At(x, 2) == Sub(At(x, 1), x.pdpt) && At(y, 2) == Sub(At(y, 1), y.pdpt);
    assert At(x, 3) == Sub(At(x, 2), x.pd) && At(y, 3) == Sub(At(y, 2), y.pd);
    assert At(x, 4) == Sub(At(x, 3), x.pt) && At(y, 4) == Sub(At(y, 3), y.pt);
  }

  /** The place of an address at each depth: bits 39 to 47 in the PML4, and nine bits less at every table below. */
  lemma PathOfAddress(v: bv64)
    ensures var x := VaddrIndices(v);
            && At(x, 1) == Sub(Root, (v >> 39) & 0x1FF)
            && At(x, 2) == Sub(At(x, 1), (v >> 30) & 0x1FF)
            && At(x, 3) == Sub(At(x, 2), (v >> 21) & 0x1FF)
            && At(x, 4) == Sub(At(x, 3), (v >> 12) & 0x1FF)
  {
    assert At(VaddrIndices(v), 0) == Root;
  }

  lemma SameHuge(v: bv64, w: bv64)
    requires IsCanonical(v) && IsCanonical(w)
    requires (v >> 39) & 0x1FF == (w >> 39) & 0x1FF && (v >> 30) & 0x1FF == (w >> 30) & 0x1FF
    ensures v & !0x3FFF_FFFF == w & !0x3FFF_FFFF
  {
    HugeBaseIs(v);
    HugeBaseIs(w);
  }

  lemma SameLarge(v: bv64, w: bv64)
    requires IsCanonical(v) && IsCanonical(w)
    requires (v >> 39) & 0x1FF == (w >> 39) & 0x1FF && (v >> 30) & 0x1FF == (w >> 30) & 0x1FF
    requires (v >> 21) & 0x1FF == (w >> 21) & 0x1FF
    ensures v & !0x1F_FFFF == w & !0x1F_FFFF
  {
    LargeBaseIs(v);
    LargeBaseIs(w);
  }

  lemma SameSmall(v: bv64, w: bv64)
    requires IsCanonical(v) && IsCanonical(w)
    requires (v >> 39) & 0x1FF == (w >> 39) & 0x1FF && (v >> 30) & 0x1FF == (w >> 30) & 0x1FF
    requires (v >> 21) & 0x1FF == (w >> 21) & 0x1FF && (v >> 12) & 0x1FF == (w >> 12) & 0x1FF
    ensures v & !0xFFF == w & !0xFFF
  {
    SmallBaseIs(v);
    SmallBaseIs(w);
  }

  lemma HugePathBase(v: bv64, w: bv64)
    requires IsCanonical(v) && IsCanonical(w) && At(VaddrIndices(v), 2) == At(VaddrIndices(w), 2)
    ensures v & !0x3FFF_FFFF == w & !0x3FFF_FFFF
  {
    PathEq(VaddrIndices(v), VaddrIndices(w));
    SameHuge(v, w);
  }

  lemma LargePathBase(v: bv64, w: bv64)
    requires IsCanonical(v) && IsCanonical(w) && At(VaddrIndices(v), 3) == At(VaddrIndices(w), 3)
    ensures v & !0x1F_FFFF == w & !0x1F_FFFF
  {
    PathEq(VaddrIndices(v), VaddrIndices(w));
    SameLarge(v, w);
  }

  lemma SmallPathBase(v: bv64, w: bv64)
    requires IsCanonical(v) && IsCanonical(w) && At(VaddrIndices(v), 4) == At(VaddrIndices(w), 4)
    ensures v & !0xFFF == w & !0xFFF
  {
    PathEq(VaddrIndices(v), VaddrIndices(w));
    SameSmall(v, w);
  }

  // Two canonical addresses are in one page exactly when they agree above the page offset.

  lemma HugePageMeans(v: bv64, w: bv64)
    requires IsCanonical(v) && IsCanonical(w)
    ensures SamePage(v, w, Huge) <==> v & !0x3FFF_FFFF == w & !0x3FFF_FFFF
  {
    if SamePage(v, w, Huge) {
      HugePathBase(v, w);
    }
    if v & !0x3FFF_FFFF == w & !0x3FFF_FFFF {
      PathEq(VaddrIndices(v), VaddrIndices(w));
      HugeFields(v);
      HugeFields(w);
    }
  }

  lemma LargePageMeans(v: bv64, w: bv64)
    requires IsCanonical(v) && IsCanonical(w)
    ensures SamePage(v, w, Large) <==> v & !0x1F_FFFF == w & !0x1F_FFFF
  {
    if SamePage(v, w, Large) {
      LargePathBase(v, w);
    }
    if v & !0x1F_FFFF == w & !0x1F_FFFF {
      PathEq(VaddrIndices(v), VaddrIndices(w));
      LargeFields(v);
      LargeFields(w);
    }
  }

  lemma SmallPageMeans(v: bv64, w: bv64)
    requires IsCanonical(v) && IsCanonical(w)
    ensures SamePage(v, w, Small) <==> v & !0xFFF == w & !0xFFF
  {
    if SamePage(v, w, Small) {
      SmallPathBase(v, w);
    }
    if v & !0xFFF == w & !0xFFF {
      PathEq(VaddrIndices(v), VaddrIndices(w));
      SmallFields(v);
      SmallFields(w);
    }
  }
}
