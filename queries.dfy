/** The queries behind the list routes: `find(filter)` over the collection and
    the store's `sort({ fechaCreacion: -1 })`. */
module Queries {
  import opened ProductSchema

  /** `find()` and `find({ promo: { $exists: true, $ne: "" } })`. */
  datatype Filter = Everything | OnPromotion

  predicate Matches(f: Filter, p: Product) {
    f.Everything? || p.promo != ""
  }

  predicate NewestFirst(s: seq<Product>) {
    forall i, j :: 0 <= i < j < |s| ==> s[i].fechaCreacion >= s[j].fechaCreacion
  }

  predicate DistinctIds(s: seq<Product>) {
    forall i, j :: 0 <= i < j < |s| ==> s[i].id != s[j].id
  }

  /** The matching records with ids below `n`, in ascending id order. */
  function Find(m: map<Id, Product>, n: nat, f: Filter): (r: seq<Product>)
    requires forall k :: k in m ==> m[k].id == k
    ensures forall i :: 0 <= i < |r| ==>
              r[i].id < n && r[i].id in m && m[r[i].id] == r[i] && Matches(f, r[i])
    ensures forall k :: k in m && k < n && Matches(f, m[k]) ==> m[k] in r
    ensures forall i, j :: 0 <= i < j < |r| ==> r[i].id < r[j].id
  {
    if n == 0 then []
    else
      var k := n - 1;
      Find(m, k, f) + (if k in m && Matches(f, m[k]) then [m[k]] else [])
  }

  /** Puts `p` in front of the first record that is not newer than it. */
  function InsertByDate(p: Product, s: seq<Product>): (r: seq<Product>)
    requires NewestFirst(s)
    ensures NewestFirst(r)
    ensures multiset(r) == multiset(s) + multiset{p}
  {
    if s == [] || s[0].fechaCreacion <= p.fechaCreacion then
      NewestFirstBelow(s);
      [p] + s
    else
      var rest := InsertByDate(p, s[1..]);
      assert s == [s[0]] + s[1..];
      NewestFirstBelow(s);
      InsertedFrom(p, s[1..], rest);
      Prepend(s[0], rest);
      [s[0]] + rest
  }

  /** In a newest-first sequence nothing is newer than the first record. */
  lemma NewestFirstBelow(s: seq<Product>)
    requires NewestFirst(s)
    ensures forall q :: q in s ==> q.fechaCreacion <= s[0].fechaCreacion
  {
    forall q | q in s ensures q.fechaCreacion <= s[0].fechaCreacion {
      var k :| 0 <= k < |s| && s[k] == q;
      assert k == 0 || s[0].fechaCreacion >= s[k].fechaCreacion;
    }
  }

  /** A record no older than everything in a newest-first sequence may go in front. */
  lemma Prepend(q: Product, s: seq<Product>)
    requires NewestFirst(s)
    requires forall x :: x in s ==> x.fechaCreacion <= q.fechaCreacion
    ensures NewestFirst([q] + s)
  {
    var r := [q] + s;
    forall i, j | 0 <= i < j < |r| ensures r[i].fechaCreacion >= r[j].fechaCreacion {
      assert r[j] == s[j - 1];
      if i > 0 {
        assert r[i] == s[i - 1];
      } else {
        assert r[j] in s;
      }
    }
  }

  /** Every element of a sequence whose multiset is that of `s` plus `p` is `p` or an element of `s`. */
  lemma InsertedFrom(p: Product, s: seq<Product>, r: seq<Product>)
    requires multiset(r) == multiset(s) + multiset{p}
    ensures forall q :: q in r ==> q == p || q in s
  {
    forall q | q in r ensures q == p || q in s {
      assert q in multiset(r);
    }
  }

  /** Inserting a record whose id is new keeps the ids distinct. */
  lemma {:induction false} InsertKeepsIdsDistinct(p: Product, s: seq<Product>)
    requires NewestFirst(s) && DistinctIds(s)
    requires forall q :: q in s ==> q.id != p.id
    ensures DistinctIds(InsertByDate(p, s))
  {
    if s == [] || s[0].fechaCreacion <= p.fechaCreacion {
      PrependKeepsIdsDistinct(p, s);
    } else {
      var rest := InsertByDate(p, s[1..]);
      assert s == [s[0]] + s[1..];
      InsertKeepsIdsDistinct(p, s[1..]);
      InsertedFrom(p, s[1..], rest);
      forall x | x in s[1..] ensures x.id != s[0].id {
        var k :| 0 <= k < |s[1..]| && s[1..][k] == x;
        assert s[k + 1] == x;
      }
      PrependKeepsIdsDistinct(s[0], rest);
    }
  }

  /** A record whose id is not yet in a sequence of distinct ids may go in front. */
  lemma PrependKeepsIdsDistinct(q: Product, s: seq<Product>)
    requires DistinctIds(s)
    requires forall x :: x in s ==> x.id != q.id
    ensures DistinctIds([q] + s)
  {
    var r := [q] + s;
    forall i, j | 0 <= i < j < |r| ensures r[i].id != r[j].id {
      assert r[j] == s[j - 1];
      if i > 0 {
        assert r[i] == s[i - 1];
      } else {
        assert r[j] in s;
      }
    }
  }

  /** The store's sort on `fechaCreacion`, newest first; records with the same
      stamp keep their natural order. */
  function SortByDate(s: seq<Product>): (r: seq<Product>)
    ensures NewestFirst(r)
    ensures multiset(r) == multiset(s)
  {
    if s == [] then []
    else
      assert s == [s[0]] + s[1..];
      InsertByDate(s[0], SortByDate(s[1..]))
  }

  /** Sorting keeps the ids distinct. */
  lemma {:induction false} SortKeepsIdsDistinct(s: seq<Product>)
    requires DistinctIds(s)
    ensures DistinctIds(SortByDate(s))
  {
    if s != [] {
      var sorted := SortByDate(s[1..]);
      assert s == [s[0]] + s[1..];
      SortKeepsIdsDistinct(s[1..]);
      forall q | q in sorted ensures q in s[1..] {
        assert q in multiset(sorted);
      }
      InsertKeepsIdsDistinct(s[0], sorted);
    }
  }
}
