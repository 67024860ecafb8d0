/**
The whole mapping database as a value: every slot with the derivation forest its chain lists.
`mdb_insert_after`, `mdb_remove` and `revoke` are three changes of that value.
*/
module Database {
  import opened Sequences
  import opened Derivation

  function Alone<X>(x: X): (f: Forest<X>) { Grove(x, Empty, Empty) }

  lemma AloneListing<X>(x: X)
    ensures Preorder(Alone(x)) == [x]
  {
    assert Preorder<X>(Empty) == [];
  }

  /** Each slot is listed by its own forest, once, together with its whole chain and no other slot. */
  ghost predicate SlotOk<X>(db: map<X, Forest<X>>, x: X)
    requires x in db
  {
    && x in Preorder(db[x])
    && Distinct(Preorder(db[x]))
    && forall y :: y in Preorder(db[x]) ==> y in db && db[y] == db[x]
  }

  ghost predicate DbOk<X>(db: map<X, Forest<X>>) {
    forall x {:trigger SlotOk(db, x)} :: x in db ==> SlotOk(db, x)
  }

  /** `c` was derived directly from `p`. */
  ghost predicate Derived<X>(db: map<X, Forest<X>>, p: X, c: X) {
    c in db && Parent(db[c], p, c)
  }

  /** `d` was derived from `a` in one or more steps. */
  ghost predicate DerivedFrom<X>(db: map<X, Forest<X>>, a: X, d: X) {
    d in db && Descends(db[d], a, d)
  }

  // ----- the three changes -----

  function Insert<X(==)>(db: map<X, Forest<X>>, src: X, dst: X): (r: map<X, Forest<X>>)
    requires src in db
  {
    map y | y in db :: if y == dst || y in Preorder(db[src]) then Derive(db[src], src, dst) else db[y]
  }

  function Remove<X(==)>(db: map<X, Forest<X>>, x: X): (r: map<X, Forest<X>>)
    requires x in db
  {
    map y | y in db :: if y == x then Alone(x) else if y in Preorder(db[x]) then Promote(db[x], x) else db[y]
  }

  /** Slots that `revoke` keeps on the chain of `x`: those listed up to `x` itself. */
  function Kept<X(==)>(db: map<X, Forest<X>>, x: X): (r: seq<X>)
    requires x in db
  {
    Preorder(Cut(db[x], x))
  }

  predicate Erased<X(==)>(db: map<X, Forest<X>>, x: X, y: X)
    requires x in db
  {
    y in Preorder(db[x]) && y !in Kept(db, x)
  }

  function Revoke<X(==)>(db: map<X, Forest<X>>, x: X): (r: map<X, Forest<X>>)
    requires x in db
  {
    map y | y in db ::
      if Erased(db, x, y) then Alone(y) else if y in Preorder(db[x]) then Cut(db[x], x) else db[y]
  }

  // ----- they keep every chain a preorder listing -----

  lemma InsertKeeps<X>(db: map<X, Forest<X>>, src: X, dst: X)
    requires DbOk(db) && src in db && dst in db && src != dst && db[dst] == Alone(dst)
    ensures DbOk(Insert(db, src, dst))
    ensures dst !in Preorder(db[src])
  {
    var f, r := db[src], Insert(db, src, dst);
    assert SlotOk(db, src) && SlotOk(db, dst);
    assert Preorder(Alone(dst)) == [dst];
    var p, q := Listing(f, src, dst);
    var g := Derive(f, src, dst);
    DistinctInsert(p, src, q, dst);
    assert forall y :: y in Preorder(g) <==> y == dst || y in Preorder(f);
    forall x | x in r ensures SlotOk(r, x) {
      assert SlotOk(db, x);
    }
  }

  /** A chain shrunk to the slots of `g`, every other slot of it left alone. */
  lemma ShrinkKeeps<X>(db: map<X, Forest<X>>, r: map<X, Forest<X>>, x: X, g: Forest<X>)
    requires DbOk(db) && x in db && r.Keys == db.Keys && Distinct(Preorder(g))
    requires forall y :: y in Preorder(g) ==> y in Preorder(db[x])
    requires forall y :: y in db ==>
      r[y] == if y !in Preorder(db[x]) then db[y] else if y in Preorder(g) then g else Alone(y)
    ensures DbOk(r)
  {
    assert SlotOk(db, x);
    forall y | y in r ensures SlotOk(r, y) {
      assert SlotOk(db, y);
      if y !in Preorder(db[x]) {
        forall z | z in Preorder(r[y]) ensures z in r && r[z] == r[y] {}
      } else if y in Preorder(g) {
        forall z | z in Preorder(r[y]) ensures z in r && r[z] == r[y] {}
      } else {
        AloneListing(y);
      }
    }
  }

  lemma RemoveKeeps<X>(db: map<X, Forest<X>>, x: X)
    requires DbOk(db) && x in db
    ensures DbOk(Remove(db, x))
  {
    assert SlotOk(db, x);
    var p, q := Listing(db[x], x, x);
    DistinctRemove(p, x, q);
    assert p + [] + q == p + q;
    ShrinkKeeps(db, Remove(db, x), x, Promote(db[x], x));
  }

  lemma RevokeKeeps<X>(db: map<X, Forest<X>>, x: X)
    requires DbOk(db) && x in db
    ensures DbOk(Revoke(db, x))
  {
    assert SlotOk(db, x);
    var p, q := Listing(db[x], x, x);
    DistinctConcat(p + [x], q);
    ShrinkKeeps(db, Revoke(db, x), x, Cut(db[x], x));
  }

  // ----- and change the derivations exactly as intended -----

  lemma AloneHasNoParents<X>(y: X, p: X, c: X)
    ensures !Parent(Alone(y), p, c)
  {}

  lemma InsertDerives<X>(db: map<X, Forest<X>>, src: X, dst: X, p: X, c: X)
    requires DbOk(db) && src in db && dst in db && src != dst && db[dst] == Alone(dst)
    ensures Derived(Insert(db, src, dst), p, c) <==> Derived(db, p, c) || (p == src && c == dst)
  {
    InsertKeeps(db, src, dst);
    assert SlotOk(db, src);
    AloneHasNoParents(dst, p, c);
    DeriveRelation(db[src], src, dst, p, c);
    Unlisted(db[src], p, dst, c);
  }

  lemma RemovePromotes<X>(db: map<X, Forest<X>>, x: X, p: X, c: X)
    requires DbOk(db) && x in db
    ensures Derived(Remove(db, x), p, c) <==>
              (p != x && c != x && Derived(db, p, c)) || (c != x && Derived(db, p, x) && Derived(db, x, c))
  {
    assert SlotOk(db, x);
    AloneHasNoParents(x, p, c);
    PromoteRelation(db[x], x, p, c);
    if c in db {
      assert SlotOk(db, c);
      Unlisted(db[c], p, x, c);
      Unlisted(db[x], p, x, c);
    }
  }

  lemma RevokeDrops<X>(db: map<X, Forest<X>>, x: X, p: X, c: X)
    requires DbOk(db) && x in db
    ensures Derived(Revoke(db, x), p, c) <==> Derived(db, p, c) && !Erased(db, x, c)
  {
    assert SlotOk(db, x);
    AloneHasNoParents(c, p, c);
    CutRelation(db[x], x, p, c);
    CutKeepsOnly(db[x], x);
    if c in db { assert SlotOk(db, c); }
  }

  // ----- what revoke reaches -----

  lemma IndexOf<X>(s: seq<X>, x: X) returns (i: nat)
    requires x in s
    ensures i < |s| && s[i] == x
  {
    i :| 0 <= i < |s| && s[i] == x;
  }

  lemma ErasedAreLater<X>(db: map<X, Forest<X>>, x: X, i: nat, j: nat)
    requires DbOk(db) && x in db
    requires i < |Preorder(db[x])| && j < |Preorder(db[x])| && Preorder(db[x])[i] == x
    ensures Erased(db, x, Preorder(db[x])[j]) <==> i < j
  {
    assert SlotOk(db, x);
    var s := Preorder(db[x]);
    var p, q := Listing(db[x], x, x);
    assert s[|p|] == x;
    assert Kept(db, x) == s[..i + 1];
  }

  /** Revoking erases every transitive derivative of `x` and none of the capabilities `x` came from. */
  lemma RevokeReach<X>(db: map<X, Forest<X>>, x: X, y: X)
    requires DbOk(db) && x in db && y in db
    ensures DerivedFrom(db, x, y) ==> Erased(db, x, y)
    ensures DerivedFrom(db, y, x) || y == x ==> !Erased(db, x, y)
  {
    assert SlotOk(db, x) && SlotOk(db, y);
    if DerivedFrom(db, x, y) || DerivedFrom(db, y, x) || y == x {
      if DerivedFrom(db, x, y) { DescendantIsListed(db[y], x, y); }
      if DerivedFrom(db, y, x) { DescendantIsListed(db[x], y, x); }
      var s := Preorder(db[x]);
      var i := IndexOf(s, x);
      var j := IndexOf(s, y);
      ErasedAreLater(db, x, i, j);
      if DerivedFrom(db, x, y) { DescendantsComeLater(db[x], i, j); }
      if DerivedFrom(db, y, x) { DescendantsComeLater(db[x], j, i); }
    }
  }

  /**
  Revoking erases nothing but derivatives of `x` exactly when the last slot of the chain is `x`
  or one of its derivatives; otherwise unrelated capabilities further down are lost too.
  */
  lemma RevokeIsExactWhen<X(!new)>(db: map<X, Forest<X>>, x: X)
    requires DbOk(db) && x in db
    ensures var s := Preorder(db[x]);
            && s != []
            && ((forall y :: y in db && Erased(db, x, y) ==> DerivedFrom(db, x, y))
                <==> s[|s| - 1] == x || DerivedFrom(db, x, s[|s| - 1]))
  {
    assert SlotOk(db, x);
    var f, s := db[x], Preorder(db[x]);
    var last := s[|s| - 1];
    var i := IndexOf(s, x);
    assert last in db && SlotOk(db, last);
    ErasedAreLater(db, x, i, |s| - 1);
    if last == x || DerivedFrom(db, x, last) {
      forall y | y in db && Erased(db, x, y) ensures DerivedFrom(db, x, y) {
        var j := IndexOf(s, y);
        ErasedAreLater(db, x, i, j);
        if last != x {
          DescendantsAreContiguous(f, i, j, |s| - 1, x, y, last);
        }
      }
    }
  }

  /** A root with two children, the later one listed first. */
  function TwoChildren(root: nat, a: nat, b: nat): (f: Forest<nat>) {
    Grove(root, Grove(a, Empty, Alone(b)), Empty)
  }

  lemma TwoChildrenListing(root: nat, a: nat, b: nat)
    requires root != a && root != b && a != b
    ensures var f := TwoChildren(root, a, b);
            && Preorder(f) == [root, a, b] && Preorder(Cut(f, a)) == [root, a] && !Descends(f, a, b)
            && f == Derive(Derive(Alone(root), root, b), root, a)
  {
    var f, kids := TwoChildren(root, a, b), Grove(a, Empty, Alone(b));
    AloneListing(a);
    AloneListing(b);
    AloneListing(root);
    assert Preorder<nat>(Empty) == [];
    assert Preorder(kids) == [a] + [] + [b];
    assert Preorder(f) == [root] + [a, b] + [];
    assert Cut(kids, a) == Alone(a) && Cut(f, a) == Grove(root, Alone(a), Empty);
    assert Preorder(Cut(f, a)) == [root] + [a] + [];
    assert !Descends(Alone(b), a, b);
  }

  lemma SecondChildIsErased(db: map<nat, Forest<nat>>, root: nat, a: nat, b: nat)
    requires root != a && root != b && a != b && a in db && b in db
    requires db[a] == TwoChildren(root, a, b) && db[b] == TwoChildren(root, a, b)
    ensures Derived(db, root, a) && Derived(db, root, b)
    ensures Erased(db, a, b) && !DerivedFrom(db, a, b)
  {
    TwoChildrenListing(root, a, b);
    assert b == [root, a, b][2];
    assert Kept(db, a) == [root, a];
    assert IsRoot(Alone(b), b);
    assert IsRoot(Grove(a, Empty, Alone(b)), b);
  }

  /** The family that shows it: two children of one root; revoking the first erases the second. */
  lemma RevokeErasesSiblings(db0: map<nat, Forest<nat>>, root: nat, a: nat, b: nat)
    requires root != a && root != b && a != b && db0.Keys == {root, a, b}
    requires forall x :: x in db0 ==> db0[x] == Alone(x)
    ensures var db := Insert(Insert(db0, root, b), root, a);
            && Derived(db, root, a) && Derived(db, root, b)
            && Erased(db, a, b) && !DerivedFrom(db, a, b)
  {
    AloneListing(root);
    var g := Derive(Alone(root), root, b);
    var db1 := Insert(db0, root, b);
    assert db1[root] == g && db1[b] == g && db1[a] == Alone(a);
    assert b in Preorder(g) by { var p, q := Listing(Alone(root), root, b); assert [root, b][1] == b; }
    TwoChildrenListing(root, a, b);
    SecondChildIsErased(Insert(db1, root, a), root, a, b);
  }

  // ----- every run -----

  datatype Op<X> = OpInsert(src: X, dst: X) | OpRemove(x: X) | OpRevoke(x: X)

  /** What the callers owe: slots that exist, and an isolated destination other than the source. */
  ghost predicate Legal<X>(db: map<X, Forest<X>>, op: Op<X>) {
    match op
    case OpInsert(src, dst) => src in db && dst in db && src != dst && db[dst] == Alone(dst)
    case OpRemove(x) => x in db
    case OpRevoke(x) => x in db
  }

  /** The database with a plain record of who was derived from whom, kept beside it. */
  datatype History<!X> = History(db: map<X, Forest<X>>, made: (X, X) -> bool)

  ghost function Apply<X(!new)>(h: History<X>, op: Op<X>): (r: History<X>)
    requires Legal(h.db, op)
  {
    match op
    case OpInsert(src, dst) =>
      History(Insert(h.db, src, dst), (p, c) => h.made(p, c) || (p == src && c == dst))
    case OpRemove(x) =>
      History(Remove(h.db, x), (p, c) => (p != x && c != x && h.made(p, c)) || (c != x && h.made(p, x) && h.made(x, c)))
    case OpRevoke(x) =>
      var db := h.db;
      History(Revoke(db, x), (p, c) => h.made(p, c) && x in db && !Erased(db, x, c))
  }

  ghost predicate LegalRun<X(!new)>(h: History<X>, ops: seq<Op<X>>)
    decreases |ops|
  {
    ops == [] || (Legal(h.db, ops[0]) && LegalRun(Apply(h, ops[0]), ops[1..]))
  }

  ghost function RunOps<X(!new)>(h: History<X>, ops: seq<Op<X>>): (r: History<X>)
    requires LegalRun(h, ops)
    decreases |ops|
  {
    if ops == [] then h else RunOps(Apply(h, ops[0]), ops[1..])
  }

  /** Every chain lists a forest in preorder, and the forest is the recorded derivation relation. */
  ghost predicate Faithful<X(!new)>(h: History<X>) {
    DbOk(h.db) && forall p, c :: h.made(p, c) <==> Derived(h.db, p, c)
  }

  lemma ApplyKeeps<X(!new)>(h: History<X>, op: Op<X>)
    requires Faithful(h) && Legal(h.db, op)
    ensures Faithful(Apply(h, op)) && Apply(h, op).db.Keys == h.db.Keys
  {
    match op
    case OpInsert(src, dst) =>
      InsertKeeps(h.db, src, dst);
      forall p, c ensures Apply(h, op).made(p, c) <==> Derived(Apply(h, op).db, p, c) {
        InsertDerives(h.db, src, dst, p, c);
      }
    case OpRemove(x) =>
      RemoveKeeps(h.db, x);
      forall p, c ensures Apply(h, op).made(p, c) <==> Derived(Apply(h, op).db, p, c) {
        RemovePromotes(h.db, x, p, c);
      }
    case OpRevoke(x) =>
      RevokeKeeps(h.db, x);
      forall p, c ensures Apply(h, op).made(p, c) <==> Derived(Apply(h, op).db, p, c) {
        RevokeDrops(h.db, x, p, c);
      }
  }

  /** In every run the chains list exactly the recorded derivations, and no slot is lost. */
  lemma {:induction false} RunsStayFaithful<X(!new)>(h: History<X>, ops: seq<Op<X>>)
    requires Faithful(h) && LegalRun(h, ops)
    ensures Faithful(RunOps(h, ops)) && RunOps(h, ops).db.Keys == h.db.Keys
    decreases |ops|
  {
    if ops != [] {
      ApplyKeeps(h, ops[0]);
      RunsStayFaithful(Apply(h, ops[0]), ops[1..]);
    }
  }

  /** Runs start from isolated slots and no derivations. */
  ghost function Start<X(!new)>(slots: set<X>): (h: History<X>) {
    History(map x | x in slots :: Alone(x), (p: X, c: X) => false)
  }

  lemma StartIsFaithful<X(!new)>(slots: set<X>)
    ensures Faithful(Start(slots)) && Start(slots).db.Keys == slots
  {
    var h := Start(slots);
    forall x | x in h.db ensures SlotOk(h.db, x) { assert Preorder(h.db[x]) == [x]; }
    forall p, c ensures !Derived(h.db, p, c) { AloneHasNoParents(c, p, c); }
  }

  /** Recorded derivation in one or more steps, stated without forests. */
  least predicate Reaches<X(!new)>(made: (X, X) -> bool, a: X, d: X) {
    made(a, d) || exists m :: made(m, d) && Reaches(made, a, m)
  }

  /**
  In any state of any run: revoking `x` erases everything the record shows to be derived from
  `x`, in however many steps, and nothing `x` was derived from.
  */
  lemma RevokeInAnyRun<X(!new)>(slots: set<X>, ops: seq<Op<X>>, x: X, y: X)
    requires LegalRun(Start(slots), ops) && x in slots && y in slots
    ensures var h := RunOps(Start(slots), ops);
            && x in h.db
            && (Reaches(h.made, x, y) ==> Erased(h.db, x, y))
            && (Reaches(h.made, y, x) ==> !Erased(h.db, x, y))
  {
    StartIsFaithful(slots);
    RunsStayFaithful(Start(slots), ops);
    var h := RunOps(Start(slots), ops);
    RevokeReach(h.db, x, y);
    if Reaches(h.made, x, y) { ReachesDescends(h, x, y); }
    if Reaches(h.made, y, x) { ReachesDescends(h, y, x); }
  }

  least lemma ReachesDescends<X(!new)>(h: History<X>, a: X, d: X)
    requires Faithful(h) && Reaches(h.made, a, d)
    ensures DerivedFrom(h.db, a, d)
  {
    if h.made(a, d) {
      assert Derived(h.db, a, d);
      ParentDescends(h.db[d], a, d);
    } else {
      var m :| h.made(m, d) && Reaches(h.made, a, m);
      ReachesDescends(h, a, m);
      assert Derived(h.db, m, d) && SlotOk(h.db, d) && SlotOk(h.db, m);
      ParentDescends(h.db[d], m, d);
      ParentIsListed(h.db[d], m, d);
      DescendsTransitive(h.db[d], a, m, d);
    }
  }
}
