/**
The mapping database: capability slots linked into chains, in derivation order.  The links are
real pointers; a ghost forest per chain records which capability was derived from which.
*/
module Mdb {
  import opened Sequences
  import opened Caps
  import opened Derivation
  import D = Database

  /** Slot `i` of the chain points to its neighbours, and to nothing at either end. */
  ghost predicate LinkOk(s: seq<CNodeEntry>, i: int)
    requires 0 <= i < |s|
    reads s[i]
  {
    && s[i].prev == (if i == 0 then null else s[i - 1])
    && s[i].next == (if i == |s| - 1 then null else s[i + 1])
  }

  /** A chain: pairwise distinct slots, each linked to its neighbours. */
  ghost predicate Linked(s: seq<CNodeEntry>)
    reads s
  {
    Distinct(s) && forall i :: 0 <= i < |s| ==> LinkOk(s, i)
  }

  /** A capability slot with its two MDB links. */
  class CNodeEntry {
    var raw: CapRaw
    var prev: CNodeEntry?
    var next: CNodeEntry?

    constructor ()
      ensures raw == NULL_CAP && Isolated()
    {
      raw, prev, next := NULL_CAP, null, null;
    }

    ghost predicate Isolated()
      reads this
    {
      prev == null && next == null
    }

    /**
    `mdb_insert_after`: the chain `p + [src] + q` becomes `p + [src, dst] + q`.  A slot inserted
    after itself ends up linked to itself.
    */
    static method MdbInsertAfter(src: CNodeEntry, dst: CNodeEntry, ghost p: seq<CNodeEntry>, ghost q: seq<CNodeEntry>)
      requires Linked(p + [src] + q) && dst.Isolated()
      requires dst !in p && dst !in q
      modifies src`prev, src`next, dst`prev, dst`next, (if src.next == null then {} else {src.next})`prev
      ensures src != dst ==> Linked(p + [src, dst] + q)
      ensures src == dst ==> src.next == src && src.prev == null
    {
      ghost var s, t, k := p + [src] + q, p + [src, dst] + q, |p|;
      assert s[k] == src && LinkOk(s, k);
      var srcPrev, origNext := src.prev, src.next;
      dst.prev := src;
      dst.next := origNext;
      if origNext != null {
        origNext.prev := dst;
      }
      // The source slot was read before the destination was written, and is written back whole.
      src.prev := srcPrev;
      src.next := dst;
      if src != dst {
        assert forall i :: 0 <= i < |s| ==> s[i] != dst;
        DistinctInsert(p, src, q, dst);
        forall i | 0 <= i < |t| ensures LinkOk(t, i) {
          if i <= k {
            assert t[i] == s[i] && old(LinkOk(s, i));
          } else if i > k + 1 {
            assert t[i] == s[i - 1] && old(LinkOk(s, i - 1));
          }
        }
      }
    }

    /** `mdb_remove`: the chain `p + [this] + q` becomes `p + q`. */
    method MdbRemove(ghost p: seq<CNodeEntry>, ghost q: seq<CNodeEntry>)
      requires Linked(p + [this] + q)
      modifies this`prev, this`next
      modifies (if prev == null then {} else {prev})`next, (if next == null then {} else {next})`prev
      ensures Isolated() && Linked(p + q)
    {
      ghost var s, t, k := p + [this] + q, p + q, |p|;
      assert s[k] == this && LinkOk(s, k);
      var before, after := prev, next;
      if before != null {
        before.next := after;
      }
      if after != null {
        after.prev := before;
      }
      prev, next := null, null;
      DistinctRemove(p, this, q);
      forall i | 0 <= i < |t| ensures LinkOk(t, i) {
        if i < k {
          assert t[i] == s[i] && old(LinkOk(s, i));
        } else {
          assert t[i] == s[i + 1] && old(LinkOk(s, i + 1));
        }
      }
    }

    /** `revoke`: everything after `this` in the chain is erased and isolated; the rest is kept. */
    method Revoke(ghost p: seq<CNodeEntry>, ghost q: seq<CNodeEntry>)
      requires Linked(p + [this] + q)
      modifies this`next, q
      ensures Linked(p + [this])
      ensures forall e :: e in q ==> e.raw == CapRaw(0, 0, 0, NullObj, {}) && e.Isolated()
    {
      ghost var s, done, rest := p + [this], [], q;
      assert (s + q)[|p|] == this && LinkOk(s + q, |p|);
      var cur := next;
      while cur != null
        invariant q == done + rest && cur == if rest == [] then null else rest[0]
        invariant Linked(s + rest)
        invariant Apart(done, s + rest)
        invariant forall e :: e in done ==> e.raw == NULL_CAP && e.Isolated()
        decreases |rest|
      {
        ApartFrom(done, s, rest);
        assert s[|s| - 1] == this && rest[0] in q && (|rest| > 1 ==> rest[1] in q);
        cur := EraseOne(cur, s, rest);
        done, rest := done + [rest[0]], rest[1..];
      }
      assert s + rest == s;
    }

    /** One iteration of `revoke`: erase the first slot after `s` and take it off the chain. */
    static method EraseOne(entry: CNodeEntry, ghost s: seq<CNodeEntry>, ghost q: seq<CNodeEntry>)
      returns (cur: CNodeEntry?)
      requires Linked(s + q) && s != [] && q != [] && q[0] == entry
      modifies {s[|s| - 1]}`next, entry, (if |q| > 1 then {q[1]} else {})`prev
      ensures cur == if |q| > 1 then q[1] else null
      ensures Linked(s + q[1..]) && entry.raw == NULL_CAP && entry.Isolated()
    {
      assert s + q == s + [entry] + q[1..];
      assert (s + q)[|s|] == entry && LinkOk(s + q, |s|);
      cur := entry.next;
      entry.raw := CapRaw(0, 0, 0, NullObj, {});
      forall i | 0 <= i < |s + q| ensures LinkOk(s + q, i) {
        assert old(LinkOk(s + q, i));
      }
      entry.MdbRemove(s, q[1..]);
    }
  }

  ghost predicate Apart(a: seq<CNodeEntry>, b: seq<CNodeEntry>) { forall e :: e in a ==> e !in b }

  /** The first slot after `s` joins those already taken off the chain. */
  lemma ApartFrom(done: seq<CNodeEntry>, s: seq<CNodeEntry>, q: seq<CNodeEntry>)
    requires Distinct(s + q) && q != [] && s != [] && Apart(done, s + q)
    ensures Apart(done + [q[0]], s + q[1..])
    ensures q[0] !in done && s[|s| - 1] !in done && (|q| > 1 ==> q[1] !in done)
  {
    SuffixIsApart(s, q);
    assert q[0] in s + q && s[|s| - 1] in s + q && (|q| > 1 ==> q[1] in s + q);
    assert forall e :: e in s + q[1..] ==> e in s + q;
  }

  lemma SuffixIsApart(s: seq<CNodeEntry>, q: seq<CNodeEntry>)
    requires Distinct(s + q)
    ensures forall i :: 0 <= i < |q| ==> q[i] !in s && q[i] !in q[i + 1..]
  {
    assert forall i :: 0 <= i < |q| ==> (s + q)[|s| + i] == q[i];
    assert forall i :: 0 <= i < |s| ==> (s + q)[i] == s[i];
  }

  /** The links of the chain of `x` list its forest. */
  ghost predicate ChainOk(db: map<CNodeEntry, Forest<CNodeEntry>>, x: CNodeEntry)
    requires x in db
    reads db.Keys
  {
    D.SlotOk(db, x) && Linked(Preorder(db[x]))
  }

  /**
  All the slots at once.  `db` is ghost: the code only follows links, and these methods prove
  that every chain of links always lists the derivation forest `db` gives for it.
  */
  class MappingDatabase {
    ghost var db: map<CNodeEntry, Forest<CNodeEntry>>

    ghost predicate Valid()
      reads this, db.Keys
    {
      D.DbOk(db) && forall x {:trigger ChainOk(db, x)} :: x in db ==> ChainOk(db, x)
    }

    constructor (slots: set<CNodeEntry>)
      requires forall x :: x in slots ==> x.Isolated()
      ensures Valid() && db == map x | x in slots :: D.Alone(x)
    {
      db := map x | x in slots :: D.Alone(x);
      new;
      forall x | x in db ensures D.SlotOk(db, x) && ChainOk(db, x) {
        D.AloneListing(x);
        AloneIsLinked(x);
      }
    }

    /** The neighbours of a slot are on its own chain. */
    lemma NeighboursOnChain(x: CNodeEntry)
      requires Valid() && x in db
      ensures x.prev != null ==> x.prev in Preorder(db[x])
      ensures x.next != null ==> x.next in Preorder(db[x])
    {
      var s := Preorder(db[x]);
      assert ChainOk(db, x);
      var i := D.IndexOf(s, x);
      assert LinkOk(s, i);
    }

    lemma IsolatedIsAlone(x: CNodeEntry)
      requires Valid() && x in db && x.Isolated()
      ensures db[x] == D.Alone(x)
    {
      var s := Preorder(db[x]);
      assert ChainOk(db, x);
      var i := D.IndexOf(s, x);
      assert LinkOk(s, i);
      assert |s| == 1;
      assert Preorder(db[x].children) == [] && Preorder(db[x].siblings) == [];
    }

    /** `mdb_insert_after` on the whole database. */
    method InsertAfter(src: CNodeEntry, dst: CNodeEntry)
      requires Valid() && src in db && dst in db && src != dst && dst.Isolated()
      modifies this`db, db.Keys`prev, db.Keys`next
      ensures Valid() && db == old(D.Insert(db, src, dst))
    {
      ghost var f, r := db[src], D.Insert(db, src, dst);
      IsolatedIsAlone(dst);
      D.AloneListing(dst);
      NeighboursOnChain(src);
      assert ChainOk(db, src);
      D.InsertKeeps(db, src, dst);
      ghost var p, q := Listing(f, src, dst);
      CNodeEntry.MdbInsertAfter(src, dst, p, q);
      forall x | x in r ensures ChainOk(r, x) {
        assert D.SlotOk(r, x);
        if x != dst && x !in Preorder(f) {
          assert old(ChainOk(db, x));
          ChainsApart(db, src, x);
          SameLinks(Preorder(db[x]));
        }
      }
      db := r;
    }

    /** `mdb_remove` on the whole database. */
    method Remove(x: CNodeEntry)
      requires Valid() && x in db
      modifies this`db, db.Keys`prev, db.Keys`next
      ensures Valid() && x.Isolated() && db == old(D.Remove(db, x))
    {
      ghost var f, r := db[x], D.Remove(db, x);
      NeighboursOnChain(x);
      assert ChainOk(db, x);
      D.RemoveKeeps(db, x);
      ghost var p, q := SplitAt(x);
      x.MdbRemove(p, q);
      forall y | y in r ensures ChainOk(r, y) {
        assert D.SlotOk(r, y);
        if y == x {
          AloneIsLinked(x);
        } else if y !in Preorder(f) {
          assert old(ChainOk(db, y));
          ChainsApart(db, x, y);
          SameLinks(Preorder(db[y]));
        }
      }
      db := r;
    }

    /**
    `revoke` on the whole database: the slots listed after `x` become null capabilities with no
    links, and no other slot's capability changes.
    */
    method Revoke(x: CNodeEntry)
      requires Valid() && x in db
      modifies this`db, db.Keys
      ensures Valid() && db == old(D.Revoke(db, x))
      ensures forall y :: y in db && old(D.Erased(db, x, y)) ==> y.raw == CapRaw(0, 0, 0, NullObj, {}) && y.Isolated()
      ensures forall y :: y in db && !old(D.Erased(db, x, y)) ==> y.raw == old(y.raw)
    {
      ghost var r := D.Revoke(db, x);
      assert ChainOk(db, x);
      D.RevokeKeeps(db, x);
      ghost var p, q := SplitAt(x);
      x.Revoke(p, q);
      forall y | y in r ensures ChainOk(r, y) {
        assert D.SlotOk(r, y);
        if y in q {
          AloneIsLinked(y);
        } else if y !in Preorder(db[x]) {
          assert old(ChainOk(db, y));
          ChainsApart(db, x, y);
          SameLinks(Preorder(db[y]));
        }
      }
      db := r;
    }

    /** The chain of `x`, split at `x`: what comes after it is what `revoke` erases. */
    lemma SplitAt(x: CNodeEntry) returns (p: seq<CNodeEntry>, q: seq<CNodeEntry>)
      requires Valid() && x in db
      ensures Linked(p + [x] + q) && Preorder(db[x]) == p + [x] + q
      ensures Preorder(Cut(db[x], x)) == p + [x] && Preorder(Promote(db[x], x)) == p + q
      ensures forall y :: y in db ==> (D.Erased(db, x, y) <==> y in q)
      ensures x !in q && forall y :: y in q ==> y in db && y in Preorder(db[x])
    {
      assert ChainOk(db, x);
      p, q := Listing(db[x], x, x);
      assert p + [] + q == p + q;
      SuffixIsApart(p + [x], q);
    }
  }

  /** A chain none of whose slots was relinked is still a chain. */
  twostate lemma SameLinks(s: seq<CNodeEntry>)
    requires old(Linked(s)) && forall z :: z in s ==> z.prev == old(z.prev) && z.next == old(z.next)
    ensures Linked(s)
  {
    forall i | 0 <= i < |s| ensures LinkOk(s, i) { assert old(LinkOk(s, i)); }
  }

  lemma AloneIsLinked(x: CNodeEntry)
    requires x.Isolated()
    ensures Linked(Preorder(D.Alone(x)))
  {
    D.AloneListing(x);
    assert LinkOk([x], 0);
  }

  lemma ChainsApart(db: map<CNodeEntry, Forest<CNodeEntry>>, x: CNodeEntry, y: CNodeEntry)
    requires D.DbOk(db) && x in db && y in db && y !in Preorder(db[x])
    ensures forall z :: z in Preorder(db[y]) ==> z !in Preorder(db[x])
  {
    assert D.SlotOk(db, x) && D.SlotOk(db, y);
  }
}
