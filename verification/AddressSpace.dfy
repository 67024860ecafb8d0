/**
What page tables mean: a tree of table frames and a map of disjoint pages.  Every run of the
VSpace operations keeps physical memory in agreement with both.
*/
module AddressSpace {
  import opened Wrappers
  import opened PageEntry
  import opened VSpace

  /** A place in the tree: the indices taken from the PML4 down, last one outermost. */
  datatype Path = Root | Sub(parent: Path, index: bv64)

  function Depth(p: Path): (n: nat) { match p case Root => 0 case Sub(q, _) => Depth(q) + 1 }

  /** The place an address passes at depth `n`. */
  function At(x: Indices, n: nat): (p: Path)
    requires n <= 4
    ensures Depth(p) == n
  {
    if n == 0 then Root else Sub(At(x, n - 1), Index(x, n))
  }

  /** Memory, with the record of which frame is the table, and which leaf word maps a page, at each place. */
  datatype Space = Space(root: bv64, mem: Mem, tab: map<Path, bv64>, pages: map<Path, bv64>)

  /** The word a place must hold. */
  function Expected(tab: map<Path, bv64>, pages: map<Path, bv64>, c: Path): (e: bv64) {
    if c in tab then TableEntry(tab[c]) else if c in pages then pages[c] else 0
  }

  // ----- the invariant -----

  predicate TableOk(s: Space, p: Path)
    requires p in s.tab
  {
    && Depth(p) <= 3 && Holdable(s.tab[p]) && p !in s.pages
    && (p.Sub? ==> p.parent in s.tab && p.index < 512)
  }

  predicate PageOk(s: Space, p: Path)
    requires p in s.pages
  {
    2 <= Depth(p) <= 4 && IsPage(Depth(p), s.pages[p]) && p.parent in s.tab && p.index < 512
  }

  predicate NoAlias(s: Space, p: Path, q: Path)
    requires p in s.tab && q in s.tab
  {
    s.tab[p] == s.tab[q] ==> p == q
  }

  predicate EntryOk(s: Space, p: Path, i: bv64)
    requires p in s.tab
  {
    var loc := Loc(s.tab[p], i);
    loc in s.mem && s.mem[loc] == Expected(s.tab, s.pages, Sub(p, i))
  }

  /** Tables form an alias-free tree, and every entry of every table is as recorded. */
  ghost predicate Inv(s: Space) {
    && Root in s.tab && s.tab[Root] == s.root
    && (forall p {:trigger TableOk(s, p)} :: p in s.tab ==> TableOk(s, p))
    && (forall p {:trigger PageOk(s, p)} :: p in s.pages ==> PageOk(s, p))
    && (forall p, q {:trigger NoAlias(s, p, q)} :: p in s.tab && q in s.tab ==> NoAlias(s, p, q))
    && (forall p, i {:trigger EntryOk(s, p, i)} :: p in s.tab && i < 512 ==> EntryOk(s, p, i))
  }

  // ----- walking is looking up -----

  /** What an entry of a recorded table reads as. */
  lemma EntryReadsAs(s: Space, p: Path, i: bv64)
    requires Inv(s) && p in s.tab && i < 512
    ensures var c, e := Sub(p, i), Read(s.mem, Loc(s.tab[p], i));
            && e == Expected(s.tab, s.pages, c)
            && (c in s.tab ==> IsPresent(e) && !IsPage(Depth(c), e) && Addr(e) == s.tab[c])
            && (c in s.pages ==> IsPage(Depth(c), e) && e == s.pages[c])
            && (c !in s.tab && c !in s.pages ==> e == 0 && !IsPresent(e))
  {
    var c := Sub(p, i);
    assert EntryOk(s, p, i);
    if c in s.tab {
      assert TableOk(s, c);
      TableEntryReads(s.tab[c]);
    } else if c in s.pages {
      assert PageOk(s, c);
    } else {
      ZeroIsAbsent();
    }
  }

  /** Reading one entry of a recorded table. */
  lemma LookMeans(s: Space, p: Path, i: bv64)
    requires Inv(s) && p in s.tab && i < 512
    ensures var c, loc, n := Sub(p, i), Loc(s.tab[p], i), Depth(p) + 1;
            if c in s.tab then Look(s.mem, loc, n) == Table(s.tab[c])
            else if c in s.pages then Look(s.mem, loc, n) == Page(n, loc, s.pages[c])
            else Look(s.mem, loc, n) == Missing(n)
  {
    EntryReadsAs(s, p, i);
  }

  ghost predicate Means(s: Space, x: Indices, n: nat, d: Descent)
    requires n <= 4
  {
    match d
    case Table(t) => At(x, n) in s.tab && t == s.tab[At(x, n)]
    case Missing(m) =>
      1 <= m <= n && At(x, m - 1) in s.tab && At(x, m) !in s.tab && At(x, m) !in s.pages
    case Page(m, loc, e) =>
      && 2 <= m <= n && At(x, m - 1) in s.tab && At(x, m) !in s.tab && At(x, m) in s.pages
      && loc == Loc(s.tab[At(x, m - 1)], Index(x, m)) && e == s.pages[At(x, m)]
  }

  lemma MeansAtTable(s: Space, x: Indices, n: nat)
    requires Inv(s) && InRange(x) && 1 <= n <= 4 && At(x, n - 1) in s.tab
    ensures Means(s, x, n, Look(s.mem, Loc(s.tab[At(x, n - 1)], Index(x, n)), n))
  {
    IndexInRange(x, n);
    LookMeans(s, At(x, n - 1), Index(x, n));
    assert At(x, n) in s.pages ==> PageOk(s, At(x, n));
  }

  lemma MeansFurther(s: Space, x: Indices, n: nat, d: Descent)
    requires 1 <= n <= 4 && !d.Table? && Means(s, x, n - 1, d)
    ensures Means(s, x, n, d)
  {}

  /** The walk through memory finds exactly what is recorded on the path of the address. */
  lemma {:induction false} DescendMeans(s: Space, x: Indices, n: nat)
    requires Inv(s) && InRange(x) && n <= 4
    ensures Means(s, x, n, Descend(s.mem, s.root, x, n))
  {
    if n > 0 {
      DescendMeans(s, x, n - 1);
      var d := Descend(s.mem, s.root, x, n - 1);
      if d.Table? {
        assert d.table == s.tab[At(x, n - 1)];
        MeansAtTable(s, x, n);
        var d' := Look(s.mem, Loc(d.table, Index(x, n)), n);
        assert Means(s, x, n, d') && Descend(s.mem, s.root, x, n) == d';
      } else {
        MeansFurther(s, x, n, d);
        assert Descend(s.mem, s.root, x, n) == d;
      }
    }
  }

  /** Places above a table or a page hold tables. */
  lemma {:induction false} TablesAbove(s: Space, x: Indices, m: nat, n: nat)
    requires Inv(s) && m < n <= 4 && (At(x, n) in s.tab || At(x, n) in s.pages)
    ensures At(x, m) in s.tab && At(x, m) !in s.pages
    decreases n
  {
    assert At(x, n) in s.tab ==> TableOk(s, At(x, n));
    assert At(x, n) in s.pages ==> PageOk(s, At(x, n));
    assert TableOk(s, At(x, n - 1));
    if m < n - 1 { TablesAbove(s, x, m, n - 1); }
  }

  /** Every address is under at most one recorded page. */
  lemma OnePageOnPath(s: Space, x: Indices, m: nat, n: nat)
    requires Inv(s) && m <= 4 && n <= 4 && At(x, m) in s.pages && At(x, n) in s.pages
    ensures m == n
  {
    if m < n {
      TablesAbove(s, x, m, n);
    } else if n < m {
      TablesAbove(s, x, n, m);
    }
  }

  /** Nothing is recorded past the first free place of a path. */
  lemma NothingBelow(s: Space, x: Indices, m: nat, n: nat)
    requires Inv(s) && m <= n <= 4 && At(x, m) !in s.tab && At(x, m) !in s.pages
    ensures At(x, n) !in s.tab && At(x, n) !in s.pages
  {
    if m < n && (At(x, n) in s.tab || At(x, n) in s.pages) {
      TablesAbove(s, x, m, n);
    }
  }

  /** A recorded page of size class `n` lies over the address. */
  predicate Covered(s: Space, x: Indices, n: nat) { 2 <= n <= 4 && At(x, n) in s.pages }

  lemma PathBlocked(s: Space, x: Indices, m: nat, n: nat)
    requires Inv(s) && 1 <= m <= 4 && n <= 4 && At(x, m - 1) in s.tab && At(x, m) !in s.tab && At(x, m) !in s.pages
    ensures At(x, n) !in s.pages
  {
    if m <= n {
      NothingBelow(s, x, m, n);
    } else if n < m - 1 {
      TablesAbove(s, x, n, m - 1);
    } else {
      assert TableOk(s, At(x, n));
    }
  }

  lemma DescendFindsPage(s: Space, x: Indices, n: nat)
    requires Inv(s) && InRange(x) && Covered(s, x, n)
    ensures var d := Descend(s.mem, s.root, x, 4);
            At(x, n - 1) in s.tab && d == Page(n, Loc(s.tab[At(x, n - 1)], Index(x, n)), s.pages[At(x, n)])
  {
    DescendMeans(s, x, 4);
    DescentShape(s.mem, s.root, x, 4);
    var d := Descend(s.mem, s.root, x, 4);
    if d.Page? {
      OnePageOnPath(s, x, d.n, n);
    } else {
      PathBlocked(s, x, d.n, n);
    }
  }

  /**
  `walk` on every canonical address: it reports a page exactly when one is recorded over the
  address, with that page's frame, size and level.
  */
  lemma WalkFindsPage(s: Space, v: bv64, n: nat)
    requires Inv(s) && IsCanonical(v) && Covered(s, VaddrIndices(v), n)
    ensures Walk(s.mem, s.root, v) == Ok(MappedPage(Addr(s.pages[At(VaddrIndices(v), n)]), SizeAt(n), 5 - n))
  {
    IndicesInRange(v);
    DescendFindsPage(s, VaddrIndices(v), n);
  }

  lemma DescendFindsHole(s: Space, x: Indices) returns (m: nat)
    requires Inv(s) && InRange(x) && forall n :: !Covered(s, x, n)
    ensures 1 <= m <= 4 && At(x, m - 1) in s.tab && At(x, m) !in s.tab && At(x, m) !in s.pages
    ensures Descend(s.mem, s.root, x, 4) == Missing(m)
  {
    DescendMeans(s, x, 4);
    DescentShape(s.mem, s.root, x, 4);
    var d := Descend(s.mem, s.root, x, 4);
    assert d.Page? ==> Covered(s, x, d.n);
    m := d.n;
  }

  /** And otherwise the level of the first table on the path that has no entry for it. */
  lemma WalkFindsHole(s: Space, v: bv64) returns (m: nat)
    requires Inv(s) && IsCanonical(v) && forall n :: !Covered(s, VaddrIndices(v), n)
    ensures var x := VaddrIndices(v);
            1 <= m <= 4 && At(x, m - 1) in s.tab && At(x, m) !in s.tab && At(x, m) !in s.pages
    ensures Walk(s.mem, s.root, v) == Ok(Unmapped(5 - m))
  {
    IndicesInRange(v);
    m := DescendFindsHole(s, VaddrIndices(v));
  }

  // ----- entering something at a free place -----

  /** Whether something may be entered at depth `n`: the verdict, from the record alone. */
  ghost function Verdict(s: Space, x: Indices, n: nat): (r: Result<(), VSpaceError>)
    requires 1 <= n <= 4
  {
    if exists m: nat :: m < n && Covered(s, x, m) then Err(AlreadyMapped)
    else if At(x, n - 1) !in s.tab then Err(MissingTable)
    else if At(x, n) in s.tab || At(x, n) in s.pages then Err(AlreadyMapped)
    else Ok(())
  }

  lemma EnterAtTable(s: Space, p: Path, i: bv64, e: bv64)
    requires Inv(s) && p in s.tab && i < 512
    ensures var w := EnterFrom(Table(s.tab[p]), s.mem, i, e);
            if Sub(p, i) in s.tab || Sub(p, i) in s.pages then w == Write(s.mem, Err(AlreadyMapped))
            else w == Write(s.mem[Loc(s.tab[p], i) := e], Ok(()))
  {
    EntryReadsAs(s, p, i);
  }

  lemma VerdictFrom(s: Space, x: Indices, n: nat, d: Descent)
    requires Inv(s) && 1 <= n <= 4 && Means(s, x, n - 1, d)
    ensures d.Page? ==> Verdict(s, x, n) == Err(AlreadyMapped)
    ensures d.Missing? ==> Verdict(s, x, n) == Err(MissingTable)
    ensures d.Table? ==>
      Verdict(s, x, n) == if At(x, n) in s.tab || At(x, n) in s.pages then Err(AlreadyMapped) else Ok(())
  {
    if d.Page? {
      assert Covered(s, x, d.n);
    } else if d.Missing? {
      BlockedVerdict(s, x, n, d.n);
    } else {
      ReachedVerdict(s, x, n);
    }
  }

  lemma EnterFromMeans(s: Space, x: Indices, n: nat, e: bv64, d: Descent)
    requires Inv(s) && InRange(x) && 1 <= n <= 4 && Means(s, x, n - 1, d)
    ensures var w := EnterFrom(d, s.mem, Index(x, n), e);
            && w.result == Verdict(s, x, n)
            && (w.result.Err? ==> w.mem == s.mem)
            && (w.result.Ok? ==> At(x, n - 1) in s.tab && w.mem == s.mem[Loc(s.tab[At(x, n - 1)], Index(x, n)) := e])
  {
    VerdictFrom(s, x, n, d);
    IndexInRange(x, n);
    if d.Table? { EnterAtTable(s, At(x, n - 1), Index(x, n), e); }
  }

  /** Entering succeeds, or fails with its error, exactly as the record says, and writes one entry. */
  lemma EnterMeans(s: Space, x: Indices, n: nat, e: bv64)
    requires Inv(s) && InRange(x) && 1 <= n <= 4
    ensures var w := Enter(s.mem, s.root, x, n, e);
            && w.result == Verdict(s, x, n)
            && (w.result.Err? ==> w.mem == s.mem)
            && (w.result.Ok? ==> At(x, n - 1) in s.tab && w.mem == s.mem[Loc(s.tab[At(x, n - 1)], Index(x, n)) := e])
  {
    DescendMeans(s, x, n - 1);
    EnterFromMeans(s, x, n, e, Descend(s.mem, s.root, x, n - 1));
  }

  lemma BlockedVerdict(s: Space, x: Indices, n: nat, m: nat)
    requires Inv(s) && 1 <= m < n <= 4 && At(x, m - 1) in s.tab && At(x, m) !in s.tab && At(x, m) !in s.pages
    ensures Verdict(s, x, n) == Err(MissingTable)
  {
    forall k: nat | k < n ensures !Covered(s, x, k) {
      if 2 <= k { PathBlocked(s, x, m, k); }
    }
    NothingBelow(s, x, m, n - 1);
  }

  lemma ReachedVerdict(s: Space, x: Indices, n: nat)
    requires Inv(s) && 1 <= n <= 4 && At(x, n - 1) in s.tab
    ensures Verdict(s, x, n) == if At(x, n) in s.tab || At(x, n) in s.pages then Err(AlreadyMapped) else Ok(())
  {
    forall k: nat | k < n ensures !Covered(s, x, k) {
      TableNotPage(s, x, k, n - 1);
    }
  }

  lemma TableNotPage(s: Space, x: Indices, k: nat, n: nat)
    requires Inv(s) && k <= n <= 4 && At(x, n) in s.tab
    ensures At(x, k) !in s.pages
  {
    if k < n { TablesAbove(s, x, k, n); } else { assert TableOk(s, At(x, n)); }
  }

  // ----- three ways the record changes -----

  function AddPage(s: Space, c: Path, e: bv64): (r: Space)
    requires c.Sub? && c.parent in s.tab
  {
    s.(mem := s.mem[Loc(s.tab[c.parent], c.index) := e], pages := s.pages[c := e])
  }

  function RemovePage(s: Space, c: Path): (r: Space)
    requires c.Sub? && c.parent in s.tab
  {
    s.(mem := s.mem[Loc(s.tab[c.parent], c.index) := 0], pages := s.pages - {c})
  }

  function AddTable(s: Space, c: Path, t: bv64): (r: Space)
    requires c.Sub? && c.parent in s.tab
  {
    s.(mem := s.mem[Loc(s.tab[c.parent], c.index) := TableEntry(t)], tab := s.tab[c := t])
  }

  /** A place where nothing is recorded, under a table. */
  predicate Free(s: Space, c: Path) {
    c.Sub? && c.parent in s.tab && c.index < 512 && c !in s.tab && c !in s.pages
  }

  /** A frame of zeroes that is no table yet. */
  ghost predicate FreshFrame(s: Space, t: bv64) {
    && Holdable(t)
    && (forall p :: p in s.tab ==> s.tab[p] != t)
    && (forall i: bv64 :: i < 512 ==> Loc(t, i) in s.mem && s.mem[Loc(t, i)] == 0)
  }

  /** Writing what is now recorded at `c`, and recording nothing else anew, keeps every entry right. */
  lemma EntryKept(s: Space, r: Space, c: Path, p: Path, i: bv64)
    requires Inv(s) && c.Sub? && c.parent in s.tab && c !in s.tab && p in s.tab && i < 512 && r.tab == s.tab
    requires var d := Sub(p, i);
             d != c ==> (d in r.pages <==> d in s.pages) && (d in s.pages ==> r.pages[d] == s.pages[d])
    requires r.mem == s.mem[Loc(s.tab[c.parent], c.index) := if c in r.pages then r.pages[c] else 0]
    ensures EntryOk(r, p, i)
  {
    assert EntryOk(s, p, i) && NoAlias(s, p, c.parent);
  }

  lemma PageChangeKeeps(s: Space, r: Space, c: Path)
    requires Inv(s) && c.Sub? && c.parent in s.tab && c !in s.tab && r.root == s.root
    requires r.tab == s.tab && forall d ::
        d != c ==> (d in r.pages <==> d in s.pages) && (d in s.pages ==> r.pages[d] == s.pages[d])
    requires r.mem == s.mem[Loc(s.tab[c.parent], c.index) := if c in r.pages then r.pages[c] else 0]
    requires c in r.pages ==> PageOk(r, c)
    ensures Inv(r)
  {
    forall p | p in r.tab ensures TableOk(r, p) { assert TableOk(s, p); }
    forall p | p in r.pages ensures PageOk(r, p) { assert p != c ==> PageOk(s, p); }
    forall p, q | p in r.tab && q in r.tab ensures NoAlias(r, p, q) { assert NoAlias(s, p, q); }
    forall p, i | p in r.tab && i < 512 ensures EntryOk(r, p, i) { EntryKept(s, r, c, p, i); }
  }

  lemma AddPageKeeps(s: Space, c: Path, e: bv64)
    requires Inv(s) && Free(s, c) && 2 <= Depth(c) <= 4 && IsPage(Depth(c), e)
    ensures Inv(AddPage(s, c, e))
  {
    PageChangeKeeps(s, AddPage(s, c, e), c);
  }

  lemma RemovePageKeeps(s: Space, c: Path)
    requires Inv(s) && c in s.pages && c.Sub? && c.parent in s.tab
    ensures Inv(RemovePage(s, c))
  {
    assert c in s.tab ==> TableOk(s, c);
    PageChangeKeeps(s, RemovePage(s, c), c);
  }

  lemma AddTableKeeps(s: Space, c: Path, t: bv64)
    requires Inv(s) && Free(s, c) && Depth(c) <= 3 && FreshFrame(s, t)
    ensures Inv(AddTable(s, c, t))
  {
    var r := AddTable(s, c, t);
    forall p | p in r.tab ensures TableOk(r, p) { assert p != c ==> TableOk(s, p); }
    forall p | p in r.pages ensures PageOk(r, p) { assert PageOk(s, p); }
    forall p, q | p in r.tab && q in r.tab ensures NoAlias(r, p, q) {
      if p != c && q != c { assert NoAlias(s, p, q); }
    }
    forall p, i | p in r.tab && i < 512 ensures EntryOk(r, p, i) {
      if p == c {
        NewTableEntry(s, c, t, i);
      } else {
        OldTableEntry(s, c, t, p, i);
      }
    }
  }

  lemma NewTableEntry(s: Space, c: Path, t: bv64, i: bv64)
    requires Inv(s) && Free(s, c) && FreshFrame(s, t) && i < 512
    ensures EntryOk(AddTable(s, c, t), c, i)
  {
    NothingUnder(s, c, i);
  }

  lemma OldTableEntry(s: Space, c: Path, t: bv64, p: Path, i: bv64)
    requires Inv(s) && Free(s, c) && FreshFrame(s, t) && p in s.tab && i < 512
    ensures EntryOk(AddTable(s, c, t), p, i)
  {
    assert EntryOk(s, p, i) && NoAlias(s, p, c.parent);
  }

  lemma NothingUnder(s: Space, c: Path, i: bv64)
    requires Inv(s) && c !in s.tab
    ensures Sub(c, i) !in s.tab && Sub(c, i) !in s.pages
  {
    assert Sub(c, i) in s.tab ==> TableOk(s, Sub(c, i));
    assert Sub(c, i) in s.pages ==> PageOk(s, Sub(c, i));
  }
}
