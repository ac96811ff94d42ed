/**
 * The fixed product catalogue of the store and the queries over it:
 * lookup by id, the category filter of the product listing and the
 * name/category test of the search.
 */
module Catalogue {
  import opened Wrappers
  import opened Python

  /** A catalogue record; `price` is in integer cents. */
  datatype Product = Product(id: int, name: string, price: int, category: string, stock: int)

  /** The ten products the store starts with, in catalogue order. */
  const InitialProducts: seq<Product> := [
    Product(1, "iPhone 15 Pro", 99999, "Electronics", 50),
    Product(2, "Samsung Galaxy S24", 89999, "Electronics", 30),
    Product(3, "MacBook Pro M3", 199999, "Computers", 25),
    Product(4, "Dell XPS 13", 129999, "Computers", 40),
    Product(5, "Sony WH-1000XM5", 39999, "Audio", 60),
    Product(6, "AirPods Pro", 24999, "Audio", 80),
    Product(7, "Nike Air Max", 12999, "Shoes", 100),
    Product(8, "Adidas Ultraboost", 18099, "Shoes", 75),
    Product(9, "Levi's 501 Jeans", 8999, "Clothing", 120),
    Product(10, "Uniqlo T-Shirt", 1999, "Clothing", 200)
  ]

  /** The first product with the given id, as `next(p for p in products if p['id'] == id)`. */
  function FindById(ps: seq<Product>, id: int): (r: Option<Product>)
    ensures r.None? <==> forall i :: 0 <= i < |ps| ==> ps[i].id != id
    ensures r.Some? ==> r.value.id == id
    ensures r.Some? ==> exists i :: 0 <= i < |ps| && ps[i] == r.value && forall j :: 0 <= j < i ==> ps[j].id != id
  {
    if ps == [] then None
    else if ps[0].id == id then Some(ps[0])
    else
      var r := FindById(ps[1..], id);
      assert r.Some? ==> exists i :: 0 < i < |ps| && ps[i] == r.value && forall j :: 0 <= j < i ==> ps[j].id != id by {
        if r.Some? {
          var i :| 0 <= i < |ps[1..]| && ps[1..][i] == r.value && forall j :: 0 <= j < i ==> ps[1..][j].id != id;
          assert forall j :: 0 <= j < i + 1 ==> ps[j].id != id by {
            forall j | 0 <= j < i + 1 ensures ps[j].id != id {
              if j > 0 { assert ps[j] == ps[1..][j - 1]; }
            }
          }
        }
      }
      r
  }

  /** Case-insensitive category equality, `p['category'].lower() == c.lower()`. */
  predicate SameCategory(p: Product, c: string)
  {
    Lower(p.category) == Lower(c)
  }

  /** Which products a query keeps. */
  datatype Criterion =
    | InCategory(category: string)
    | NameAndCategory(query: string, within: Option<string>)

  predicate Matches(p: Product, k: Criterion)
  {
    match k
    case InCategory(c) => SameCategory(p, c)
    case NameAndCategory(q, c) => Contains(Lower(p.name), Lower(q)) && (!TruthyStr(c) || SameCategory(p, c.value))
  }

  /** The products that meet `k`, in catalogue order. */
  function Select(ps: seq<Product>, k: Criterion): (r: seq<Product>)
    ensures |r| <= |ps|
    ensures forall p :: p in r ==> p in ps && Matches(p, k)
  {
    if ps == [] then []
    else (if Matches(ps[0], k) then [ps[0]] else []) + Select(ps[1..], k)
  }

  /** Selecting over one more product extends the result at its end only:
      the result is built in catalogue order, as a loop that appends. */
  lemma {:induction false} SelectAppend(ps: seq<Product>, p: Product, k: Criterion)
    ensures Select(ps + [p], k) == Select(ps, k) + (if Matches(p, k) then [p] else [])
  {
    if ps == [] {
      assert ps + [p] == [p];
    } else {
      assert (ps + [p])[1..] == ps[1..] + [p];
      SelectAppend(ps[1..], p, k);
    }
  }

  /** Selection keeps every product that meets `k`, as often as it occurs,
      and no other product. */
  lemma {:induction false} SelectExact(ps: seq<Product>, k: Criterion)
    ensures forall p :: multiset(Select(ps, k))[p] == if Matches(p, k) then multiset(ps)[p] else 0
  {
    if ps != [] {
      SelectExact(ps[1..], k);
      assert ps == [ps[0]] + ps[1..];
      assert multiset(ps) == multiset{ps[0]} + multiset(ps[1..]);
    }
  }

  /** When every product meets `k` nothing is dropped. */
  lemma {:induction false} SelectAll(ps: seq<Product>, k: Criterion)
    requires forall i :: 0 <= i < |ps| ==> Matches(ps[i], k)
    ensures Select(ps, k) == ps
  {
    if ps != [] {
      SelectAll(ps[1..], k);
    }
  }

  /** When no product meets `k` the selection is empty. */
  lemma {:induction false} SelectNone(ps: seq<Product>, k: Criterion)
    requires forall i :: 0 <= i < |ps| ==> !Matches(ps[i], k)
    ensures Select(ps, k) == []
  {
    if ps != [] {
      SelectNone(ps[1..], k);
    }
  }

  /** A search with an empty query and no (or an empty) category lists the whole catalogue. */
  lemma {:induction false} EmptySearchListsAll(ps: seq<Product>, category: Option<string>)
    requires !TruthyStr(category)
    ensures Select(ps, NameAndCategory("", category)) == ps
  {
    forall i | 0 <= i < |ps| ensures Matches(ps[i], NameAndCategory("", category)) {
      ContainsIff(Lower(ps[i].name), Lower(""));
    }
    SelectAll(ps, NameAndCategory("", category));
  }

  /** The list the product listing paginates: the category filter when a
      non-empty category is given, else the whole catalogue. */
  function Listed(ps: seq<Product>, category: Option<string>): (r: seq<Product>)
    ensures |r| <= |ps|
    ensures !TruthyStr(category) ==> r == ps
    ensures forall p :: p in r ==> p in ps
  {
    if TruthyStr(category) then Select(ps, InCategory(category.value)) else ps
  }

  /** The listing holds each product whose category equals the query
      case-insensitively (every product when there is no query), as often as
      the catalogue does, and nothing else. (Its order is the catalogue's:
      see `SelectAppend`.) */
  lemma ListedExact(ps: seq<Product>, category: Option<string>)
    ensures forall p :: multiset(Listed(ps, category))[p] ==
              if !TruthyStr(category) || SameCategory(p, category.value) then multiset(ps)[p] else 0
    ensures forall p :: p in Listed(ps, category) <==>
              p in ps && (!TruthyStr(category) || SameCategory(p, category.value))
  {
    if TruthyStr(category) {
      SelectExact(ps, InCategory(category.value));
    }
  }

  /** The category comparison ignores letter case on both sides: a query
      matches exactly when its lower-cased form does, so "ELECTRONICS",
      "Electronics" and "electronics" select the same products. */
  lemma CategoryIgnoresCase(p: Product, c: string)
    ensures SameCategory(p, c) <==> SameCategory(p, Lower(c))
  {
    LowerIdempotent(c);
  }
}
