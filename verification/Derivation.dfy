/**
Derivation forests: who was derived from whom.  A chain of the MDB lists such a forest in
preorder; this module says what inserting, removing and cutting do to both.
*/
module Derivation {
  import opened Sequences

  /** First-child / next-sibling form: `children` were derived from `entry`. */
  datatype Forest<X> = Empty | Grove(entry: X, children: Forest<X>, siblings: Forest<X>)

  function Preorder<X>(f: Forest<X>): (s: seq<X>) {
    match f
    case Empty => []
    case Grove(x, kids, rest) => [x] + Preorder(kids) + Preorder(rest)
  }

  // ----- the derivation relation -----

  ghost predicate IsRoot<X>(f: Forest<X>, x: X) {
    f.Grove? && (f.entry == x || IsRoot(f.siblings, x))
  }

  /** `c` was derived directly from `p`. */
  ghost predicate Parent<X>(f: Forest<X>, p: X, c: X) {
    f.Grove? && ((f.entry == p && IsRoot(f.children, c)) || Parent(f.children, p, c) || Parent(f.siblings, p, c))
  }

  /** `d` was derived from `a` in one or more steps. */
  ghost predicate Descends<X>(f: Forest<X>, a: X, d: X) {
    && f.Grove?
    && ((f.entry == a && d in Preorder(f.children)) || Descends(f.children, a, d) || Descends(f.siblings, a, d))
  }

  lemma {:induction false} RootIsListed<X>(f: Forest<X>, x: X)
    requires IsRoot(f, x)
    ensures x in Preorder(f)
  {
    if f.entry != x { RootIsListed(f.siblings, x); }
  }

  lemma {:induction false} ParentIsListed<X>(f: Forest<X>, p: X, c: X)
    requires Parent(f, p, c)
    ensures p in Preorder(f) && c in Preorder(f)
  {
    if f.entry == p && IsRoot(f.children, c) {
      RootIsListed(f.children, c);
    } else if Parent(f.children, p, c) {
      ParentIsListed(f.children, p, c);
    } else {
      ParentIsListed(f.siblings, p, c);
    }
  }

  lemma {:induction false} DescendantIsListed<X>(f: Forest<X>, a: X, d: X)
    requires Descends(f, a, d)
    ensures a in Preorder(f) && d in Preorder(f)
  {
    if f.entry == a && d in Preorder(f.children) {
    } else if Descends(f.children, a, d) {
      DescendantIsListed(f.children, a, d);
    } else {
      DescendantIsListed(f.siblings, a, d);
    }
  }

  lemma DistinctConcat<X>(a: seq<X>, b: seq<X>)
    requires Distinct(a + b)
    ensures Distinct(a) && Distinct(b)
    ensures forall x :: x in a ==> x !in b
  {
    assert forall i :: 0 <= i < |a| ==> (a + b)[i] == a[i];
    assert forall i :: 0 <= i < |b| ==> (a + b)[|a| + i] == b[i];
  }

  lemma DistinctRemove<X>(p: seq<X>, x: X, q: seq<X>)
    requires Distinct(p + [x] + q)
    ensures Distinct(p + q) && x !in p && x !in q
  {
    var s, t := p + [x] + q, p + q;
    assert s[|p|] == x;
    assert forall i :: 0 <= i < |p| ==> s[i] == p[i];
    assert forall i :: 0 <= i < |q| ==> s[|p| + 1 + i] == q[i];
    assert forall i :: 0 <= i < |t| ==> t[i] == if i < |p| then s[i] else s[i + 1];
  }

  lemma DistinctInsert<X>(p: seq<X>, x: X, q: seq<X>, y: X)
    requires Distinct(p + [x] + q) && y !in p && y != x && y !in q
    ensures Distinct(p + [x, y] + q)
  {
    var s, t := p + [x] + q, p + [x, y] + q;
    assert forall i :: 0 <= i < |s| ==> s[i] != y;
    assert forall i :: 0 <= i < |t| ==> t[i] == if i <= |p| then s[i] else if i == |p| + 1 then y else s[i - 1];
    forall i, j | 0 <= i < j < |t| ensures t[i] != t[j] {
      var i', j' := if i <= |p| then i else i - 1, if j <= |p| then j else j - 1;
      if i != |p| + 1 && j != |p| + 1 { assert t[i] == s[i'] && t[j] == s[j']; }
    }
  }

  lemma DistinctParts<X>(f: Forest<X>)
    requires f.Grove? && Distinct(Preorder(f))
    ensures Distinct(Preorder(f.children)) && Distinct(Preorder(f.siblings))
    ensures f.entry !in Preorder(f.children) && f.entry !in Preorder(f.siblings)
    ensures forall x :: x in Preorder(f.children) ==> x !in Preorder(f.siblings)
  {
    var k, r := Preorder(f.children), Preorder(f.siblings);
    DistinctConcat([f.entry] + k, r);
    DistinctConcat([f.entry], k);
    assert f.entry in [f.entry] + k;
  }

  /** Every listed entry that is not a root has a parent. */
  lemma {:induction false} ParentOf<X>(f: Forest<X>, x: X) returns (p: X)
    requires x in Preorder(f) && !IsRoot(f, x)
    ensures Parent(f, p, x)
  {
    if x in Preorder(f.children) {
      if IsRoot(f.children, x) {
        p := f.entry;
      } else {
        p := ParentOf(f.children, x);
      }
    } else {
      p := ParentOf(f.siblings, x);
    }
  }

  // ----- inserting, removing and cutting -----

  /** `dst` becomes the first child of `src`. */
  function Derive<X(==)>(f: Forest<X>, src: X, dst: X): (r: Forest<X>) {
    match f
    case Empty => Empty
    case Grove(x, kids, rest) =>
      if x == src then Grove(x, Grove(dst, Empty, kids), rest)
      else if src in Preorder(kids) then Grove(x, Derive(kids, src, dst), rest)
      else Grove(x, kids, Derive(rest, src, dst))
  }

  function Join<X>(f: Forest<X>, g: Forest<X>): (r: Forest<X>) {
    match f
    case Empty => g
    case Grove(x, kids, rest) => Grove(x, kids, Join(rest, g))
  }

  /** `x` goes and its children take its place. */
  function Promote<X(==)>(f: Forest<X>, x: X): (r: Forest<X>) {
    match f
    case Empty => Empty
    case Grove(y, kids, rest) =>
      if y == x then Join(kids, rest)
      else if x in Preorder(kids) then Grove(y, Promote(kids, x), rest)
      else Grove(y, kids, Promote(rest, x))
  }

  /** Everything listed after `x` goes. */
  function Cut<X(==)>(f: Forest<X>, x: X): (r: Forest<X>) {
    match f
    case Empty => Empty
    case Grove(y, kids, rest) =>
      if y == x then Grove(y, Empty, Empty)
      else if x in Preorder(kids) then Grove(y, Cut(kids, x), Empty)
      else Grove(y, kids, Cut(rest, x))
  }

  // ----- the chain stays a preorder listing -----

  lemma Assoc<X>(a: seq<X>, b: seq<X>, c: seq<X>)
    ensures a + b + c == a + (b + c)
  {}

  lemma {:induction false} JoinListing<X>(f: Forest<X>, g: Forest<X>)
    ensures Preorder(Join(f, g)) == Preorder(f) + Preorder(g)
  {
    match f
    case Empty => assert Preorder(f) + Preorder(g) == Preorder(g);
    case Grove(x, kids, rest) =>
      JoinListing(rest, g);
      Assoc([x] + Preorder(kids), Preorder(rest), Preorder(g));
  }

  /** `a + ([x] + q) + r`, taken apart at `x`, with `m` put where `x` was. */
  lemma Splice<X>(a: seq<X>, p: seq<X>, m: seq<X>, q: seq<X>, r: seq<X>)
    ensures a + (p + m + q) + r == (a + p) + m + (q + r)
  {}

  /**
  In the listing `p + [x] + q`: deriving `dst` from `x` puts it right after `x`, removing `x`
  leaves `p + q`, and cutting after `x` leaves `p + [x]`.
  */
  lemma {:induction false} Listing<X>(f: Forest<X>, x: X, dst: X) returns (p: seq<X>, q: seq<X>)
    requires x in Preorder(f)
    ensures Preorder(f) == p + [x] + q && x !in p
    ensures Preorder(Derive(f, x, dst)) == p + [x, dst] + q
    ensures Preorder(Promote(f, x)) == p + [] + q
    ensures Preorder(Cut(f, x)) == p + [x]
  {
    var y, kids, rest := f.entry, f.children, f.siblings;
    var k, r := Preorder(kids), Preorder(rest);
    if y == x {
      p, q := [], k + r;
      RootSplice(x, dst, k, r);
      ListingAtRoot(f, dst);
    } else if x in k {
      var p', q' := Listing(kids, x, dst);
      p, q := [y] + p', q' + r;
      ListingInChildren(f, x, dst);
      SpliceAll([y], p', x, dst, q', r);
    } else {
      var p', q' := Listing(rest, x, dst);
      p, q := [y] + k + p', q' + [];
      ListingInSiblings(f, x, dst);
      SpliceAll([y] + k, p', x, dst, q', []);
    }
  }

  lemma SpliceAll<X>(a: seq<X>, p: seq<X>, x: X, dst: X, q: seq<X>, r: seq<X>)
    ensures a + (p + [x] + q) + r == (a + p) + [x] + (q + r)
    ensures a + (p + [x, dst] + q) + r == (a + p) + [x, dst] + (q + r)
    ensures a + (p + [] + q) + r == (a + p) + [] + (q + r)
    ensures a + (p + [x]) + [] == (a + p) + [x]
  {
    Splice(a, p, [x], q, r);
    Splice(a, p, [x, dst], q, r);
    Splice(a, p, [], q, r);
  }

  lemma RootSplice<X>(x: X, dst: X, k: seq<X>, r: seq<X>)
    ensures [x] + k + r == [] + [x] + (k + r)
    ensures [x] + ([dst] + [] + k) + r == [] + [x, dst] + (k + r)
    ensures k + r == [] + [] + (k + r)
    ensures [x] + [] + [] == [] + [x]
  {}

  lemma ListingAtRoot<X>(f: Forest<X>, dst: X)
    requires f.Grove?
    ensures var x, k, r := f.entry, Preorder(f.children), Preorder(f.siblings);
            && Preorder(f) == [x] + k + r
            && Preorder(Derive(f, x, dst)) == [x] + ([dst] + [] + k) + r
            && Preorder(Promote(f, x)) == k + r
            && Preorder(Cut(f, x)) == [x] + [] + []
  {
    var x, kids, rest := f.entry, f.children, f.siblings;
    assert Preorder(Grove(dst, Empty, kids)) == [dst] + Preorder<X>(Empty) + Preorder(kids);
    assert Cut(f, x) == Grove(x, Empty, Empty);
    JoinListing(kids, rest);
  }

  lemma ListingInChildren<X>(f: Forest<X>, x: X, dst: X)
    requires f.Grove? && f.entry != x && x in Preorder(f.children)
    ensures var y, kids, r := f.entry, f.children, Preorder(f.siblings);
            && Preorder(f) == [y] + Preorder(kids) + r
            && Preorder(Derive(f, x, dst)) == [y] + Preorder(Derive(kids, x, dst)) + r
            && Preorder(Promote(f, x)) == [y] + Preorder(Promote(kids, x)) + r
            && Preorder(Cut(f, x)) == [y] + Preorder(Cut(kids, x)) + []
  {}

  lemma {:induction false} ListingInSiblings<X>(f: Forest<X>, x: X, dst: X)
    requires f.Grove? && f.entry != x && x !in Preorder(f.children)
    ensures var y, k, rest := f.entry, Preorder(f.children), f.siblings;
            && Preorder(f) == [y] + k + Preorder(rest) + []
            && Preorder(Derive(f, x, dst)) == [y] + k + Preorder(Derive(rest, x, dst)) + []
            && Preorder(Promote(f, x)) == [y] + k + Preorder(Promote(rest, x)) + []
            && Preorder(Cut(f, x)) == [y] + k + Preorder(Cut(rest, x)) + []
  {}

  // ----- the relation changes as intended -----

  lemma {:induction false} DeriveRoots<X>(f: Forest<X>, src: X, dst: X, x: X)
    ensures IsRoot(Derive(f, src, dst), x) <==> IsRoot(f, x)
  {
    if f.Grove? { DeriveRoots(f.siblings, src, dst, x); }
  }

  /** Inserting after `src` adds exactly one derivation: `dst` from `src`. */
  lemma {:induction false} DeriveRelation<X>(f: Forest<X>, src: X, dst: X, p: X, c: X)
    requires src in Preorder(f) && Distinct(Preorder(f))
    ensures Parent(Derive(f, src, dst), p, c) <==> Parent(f, p, c) || (p == src && c == dst)
  {
    DistinctParts(f);
    if f.entry == src {
      var kids := Grove(dst, Empty, f.children);
      assert IsRoot(kids, c) <==> dst == c || IsRoot(f.children, c);
      assert Parent(kids, p, c) <==> Parent(f.children, p, c);
    } else if src in Preorder(f.children) {
      DeriveRelation(f.children, src, dst, p, c);
      DeriveRoots(f.children, src, dst, c);
    } else {
      DeriveRelation(f.siblings, src, dst, p, c);
    }
  }

  lemma {:induction false} JoinRelation<X>(f: Forest<X>, g: Forest<X>, p: X, c: X)
    ensures Parent(Join(f, g), p, c) <==> Parent(f, p, c) || Parent(g, p, c)
    ensures IsRoot(Join(f, g), c) <==> IsRoot(f, c) || IsRoot(g, c)
  {
    if f.Grove? { JoinRelation(f.siblings, g, p, c); }
  }

  /** Removing `x` hands its children to its parent and changes no other derivation. */
  lemma {:induction false} PromoteRelation<X>(f: Forest<X>, x: X, p: X, c: X)
    requires x in Preorder(f) && Distinct(Preorder(f))
    ensures Parent(Promote(f, x), p, c) <==>
              (p != x && c != x && Parent(f, p, c)) || (Parent(f, p, x) && Parent(f, x, c))
    ensures IsRoot(Promote(f, x), c) <==> (c != x && IsRoot(f, c)) || (IsRoot(f, x) && Parent(f, x, c))
  {
    DistinctParts(f);
    Unlisted(f.children, p, x, c);
    Unlisted(f.siblings, p, x, c);
    if f.entry == x {
      JoinRelation(f.children, f.siblings, p, c);
    } else if x in Preorder(f.children) {
      PromoteRelation(f.children, x, p, c);
    } else {
      PromoteRelation(f.siblings, x, p, c);
    }
  }

  /** An entry not listed takes part in no derivation. */
  lemma Unlisted<X>(f: Forest<X>, p: X, x: X, c: X)
    ensures x !in Preorder(f) ==> !IsRoot(f, x) && !Parent(f, p, x) && !Parent(f, x, c)
    ensures p !in Preorder(f) ==> !IsRoot(f, p) && !Parent(f, p, x) && !Parent(f, p, c)
    ensures c !in Preorder(f) ==> !IsRoot(f, c) && !Parent(f, x, c) && !Parent(f, p, c)
  {
    forall y | y in {p, x, c} && IsRoot(f, y) ensures y in Preorder(f) { RootIsListed(f, y); }
    forall y, z | y in {p, x, c} && z in {p, x, c} && Parent(f, y, z)
      ensures y in Preorder(f) && z in Preorder(f)
    {
      ParentIsListed(f, y, z);
    }
  }

  // ----- what the listing says about descendants -----

  /** Descent is the transitive closure of direct derivation: it has a last step. */
  lemma {:induction false} DescendsLastStep<X>(f: Forest<X>, a: X, d: X) returns (m: X)
    requires Descends(f, a, d)
    ensures Parent(f, m, d) && (m == a || Descends(f, a, m))
  {
    if f.entry == a && d in Preorder(f.children) {
      if IsRoot(f.children, d) {
        m := a;
      } else {
        m := ParentOf(f.children, d);
        ParentIsListed(f.children, m, d);
      }
    } else if Descends(f.children, a, d) {
      m := DescendsLastStep(f.children, a, d);
    } else {
      m := DescendsLastStep(f.siblings, a, d);
    }
  }

  lemma {:induction false} ParentDescends<X>(f: Forest<X>, p: X, c: X)
    requires Parent(f, p, c)
    ensures Descends(f, p, c)
  {
    if f.entry == p && IsRoot(f.children, c) {
      RootIsListed(f.children, c);
    } else if Parent(f.children, p, c) {
      ParentDescends(f.children, p, c);
    } else {
      ParentDescends(f.siblings, p, c);
    }
  }

  lemma {:induction false} DescendsTransitive<X>(f: Forest<X>, a: X, m: X, d: X)
    requires Distinct(Preorder(f)) && Descends(f, a, m) && Descends(f, m, d)
    ensures Descends(f, a, d)
  {
    DistinctParts(f);
    if f.entry == m && d in Preorder(f.children) {
      if Descends(f.children, a, m) {
        DescendantIsListed(f.children, a, m);
      } else if Descends(f.siblings, a, m) {
        DescendantIsListed(f.siblings, a, m);
      }
    } else if Descends(f.children, m, d) {
      DescendantIsListed(f.children, m, d);
      if Descends(f.siblings, a, m) {
        DescendantIsListed(f.siblings, a, m);
      } else if Descends(f.children, a, m) {
        DescendsTransitive(f.children, a, m, d);
      }
    } else {
      DescendantIsListed(f.siblings, m, d);
      if Descends(f.siblings, a, m) {
        DescendsTransitive(f.siblings, a, m, d);
      } else if Descends(f.children, a, m) {
        DescendantIsListed(f.children, a, m);
      }
    }
  }

  /** Where the children and the siblings of the first entry sit in the listing. */
  lemma PartAt<X>(f: Forest<X>, i: nat)
    requires f.Grove? && Distinct(Preorder(f)) && i < |Preorder(f)|
    ensures var k, r, x := Preorder(f.children), Preorder(f.siblings), Preorder(f)[i];
            && (x == f.entry <==> i == 0)
            && (x in k <==> 1 <= i <= |k|) && (1 <= i <= |k| ==> x == k[i - 1])
            && (x in r <==> i > |k|) && (i > |k| ==> x == r[i - 1 - |k|])
  {
    DistinctParts(f);
    var k, r := Preorder(f.children), Preorder(f.siblings);
    assert Preorder(f) == [f.entry] + k + r;
    assert 1 <= i <= |k| ==> Preorder(f)[i] == k[i - 1];
    assert i > |k| ==> Preorder(f)[i] == r[i - 1 - |k|];
  }

  /** The descendants of an entry are listed after it, and its ancestors before it. */
  lemma {:induction false} DescendantsComeLater<X>(f: Forest<X>, i: nat, j: nat)
    requires Distinct(Preorder(f)) && i < |Preorder(f)| && j < |Preorder(f)|
    requires Descends(f, Preorder(f)[i], Preorder(f)[j])
    ensures i < j
  {
    DistinctParts(f);
    PartAt(f, i);
    PartAt(f, j);
    var a, d := Preorder(f)[i], Preorder(f)[j];
    if f.entry == a && d in Preorder(f.children) {
    } else if Descends(f.children, a, d) {
      DescendantIsListed(f.children, a, d);
      DescendantsComeLater(f.children, i - 1, j - 1);
    } else {
      DescendantIsListed(f.siblings, a, d);
      var n := 1 + |Preorder(f.children)|;
      DescendantsComeLater(f.siblings, i - n, j - n);
    }
  }

  /** The descendants of an entry are one unbroken stretch right after it. */
  lemma {:induction false} DescendantsAreContiguous<X>(f: Forest<X>, i: nat, m: nat, j: nat, a: X, b: X, d: X)
    requires Distinct(Preorder(f)) && i < m <= j < |Preorder(f)|
    requires Preorder(f)[i] == a && Preorder(f)[m] == b && Preorder(f)[j] == d
    requires Descends(f, a, d)
    ensures Descends(f, a, b)
  {
    DistinctParts(f);
    PartAt(f, i);
    PartAt(f, m);
    PartAt(f, j);
    var k, r := Preorder(f.children), Preorder(f.siblings);
    if f.entry == a && d in k {
      assert b in k;
    } else if Descends(f.children, a, d) {
      DescendantIsListed(f.children, a, d);
      DescendantsAreContiguous(f.children, i - 1, m - 1, j - 1, a, b, d);
    } else {
      DescendantIsListed(f.siblings, a, d);
      DescendantsAreContiguous(f.siblings, i - 1 - |k|, m - 1 - |k|, j - 1 - |k|, a, b, d);
    }
  }

  lemma {:induction false} CutRoots<X>(f: Forest<X>, x: X, c: X)
    requires x in Preorder(f) && Distinct(Preorder(f))
    ensures IsRoot(Cut(f, x), c) <==> IsRoot(f, c) && c in Preorder(Cut(f, x))
  {
    DistinctParts(f);
    if f.entry == x {
      Unlisted(f.siblings, c, c, c);
    } else if x in Preorder(f.children) {
      Unlisted(f.siblings, c, c, c);
      CutKeepsOnly(f.children, x);
    } else {
      CutRoots(f.siblings, x, c);
      Unlisted(f.siblings, c, c, c);
    }
  }

  lemma CutKeepsOnly<X>(f: Forest<X>, x: X)
    requires x in Preorder(f)
    ensures forall y :: y in Preorder(Cut(f, x)) ==> y in Preorder(f)
  {
    var p, q := Listing(f, x, x);
  }

  /** Cutting after `x` keeps every derivation among the entries that stay. */
  lemma {:induction false} CutRelation<X>(f: Forest<X>, x: X, p: X, c: X)
    requires x in Preorder(f) && Distinct(Preorder(f))
    ensures Parent(Cut(f, x), p, c) <==> Parent(f, p, c) && c in Preorder(Cut(f, x))
  {
    DistinctParts(f);
    Unlisted(f.children, p, x, c);
    Unlisted(f.siblings, p, x, c);
    if f.entry == x {
    } else if x in Preorder(f.children) {
      CutRelation(f.children, x, p, c);
      CutRoots(f.children, x, c);
      CutKeepsOnly(f.children, x);
    } else {
      CutRelation(f.siblings, x, p, c);
      CutKeepsOnly(f.siblings, x);
    }
  }
}
