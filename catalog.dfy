/**
 * Products and the sort step of `generateGridData` (src/App.tsx:69-77).
 *
 * Each comparator used there orders products by a single key: `a.price -
 * b.price` by price, `b.price - a.price` by negated price, and
 * `localeCompare` on the category by the locale's collation order, which
 * the model takes as a rank function `categoryRank` (any total preorder on
 * strings is the order of some such rank). `Array.prototype.sort` is stable,
 * so the result is THE stable sort by that key; the model computes it by
 * insertion sort.
 */
module Catalog {
  import opened Layout

  datatype Product = Product(
    id: string,
    name: string,
    description: string,
    costPrice: real,
    discountPercentage: real,
    images: seq<string>,
    price: real,
    category: string)

  /** The key each comparator orders by; `Random` does not sort. */
  function SortKey(order: ProductSort, categoryRank: string -> real, p: Product): real {
    match order
    case PriceAsc => p.price
    case PriceDesc => -p.price
    case Category => categoryRank(p.category)
    case Random => 0.0
  }

  ghost predicate SortedByKey(s: seq<Product>, order: ProductSort, categoryRank: string -> real) {
    forall i, j :: 0 <= i < j < |s| ==> SortKey(order, categoryRank, s[i]) <= SortKey(order, categoryRank, s[j])
  }

  /** Insert `x` after every element whose key is not greater than its own (the comparator says "not after"). */
  function Insert(s: seq<Product>, x: Product, order: ProductSort, categoryRank: string -> real): seq<Product> {
    if s == [] || SortKey(order, categoryRank, s[|s| - 1]) <= SortKey(order, categoryRank, x) then s + [x]
    else Insert(s[..|s| - 1], x, order, categoryRank) + [s[|s| - 1]]
  }

  /** The stable sort by key, inserting the elements one at a time from the front. */
  function InsertionSort(s: seq<Product>, order: ProductSort, categoryRank: string -> real): seq<Product> {
    if s == [] then [] else Insert(InsertionSort(s[..|s| - 1], order, categoryRank), s[|s| - 1], order, categoryRank)
  }

  /** `sortedProducts` after lines 70-77. */
  function SortProducts(products: seq<Product>, order: ProductSort, categoryRank: string -> real): seq<Product> {
    if order == Random then products else InsertionSort(products, order, categoryRank)
  }

  lemma {:induction false} InsertPermutes(s: seq<Product>, x: Product, order: ProductSort, categoryRank: string -> real)
    ensures multiset(Insert(s, x, order, categoryRank)) == multiset(s) + multiset{x}
  {
    if !(s == [] || SortKey(order, categoryRank, s[|s| - 1]) <= SortKey(order, categoryRank, x)) {
      InsertPermutes(s[..|s| - 1], x, order, categoryRank);
      assert s == s[..|s| - 1] + [s[|s| - 1]];
    }
  }

  lemma {:induction false} InsertionSortPermutes(s: seq<Product>, order: ProductSort, categoryRank: string -> real)
    ensures multiset(InsertionSort(s, order, categoryRank)) == multiset(s)
  {
    if s != [] {
      InsertionSortPermutes(s[..|s| - 1], order, categoryRank);
      InsertPermutes(InsertionSort(s[..|s| - 1], order, categoryRank), s[|s| - 1], order, categoryRank);
      assert s == s[..|s| - 1] + [s[|s| - 1]];
    }
  }

  lemma {:induction false} InsertSorted(s: seq<Product>, x: Product, order: ProductSort, categoryRank: string -> real)
    requires SortedByKey(s, order, categoryRank)
    ensures SortedByKey(Insert(s, x, order, categoryRank), order, categoryRank)
    ensures |Insert(s, x, order, categoryRank)| == |s| + 1
    ensures s != [] ==> var r := Insert(s, x, order, categoryRank);
      r[|r| - 1] == (if SortKey(order, categoryRank, s[|s| - 1]) <= SortKey(order, categoryRank, x) then x else s[|s| - 1])
  {
    if !(s == [] || SortKey(order, categoryRank, s[|s| - 1]) <= SortKey(order, categoryRank, x)) {
      var init := s[..|s| - 1];
      InsertSorted(init, x, order, categoryRank);
      var r0 := Insert(init, x, order, categoryRank);
      var r := r0 + [s[|s| - 1]];
      forall i, j | 0 <= i < j < |r|
        ensures SortKey(order, categoryRank, r[i]) <= SortKey(order, categoryRank, r[j])
      {
        if j == |r| - 1 {
          InsertElements(init, x, order, categoryRank, i);
        }
      }
    }
  }

  /** Every element of an insertion is `x` or an element of `s`. */
  lemma {:induction false} InsertElements(s: seq<Product>, x: Product, order: ProductSort, categoryRank: string -> real, i: nat)
    requires i < |Insert(s, x, order, categoryRank)|
    ensures Insert(s, x, order, categoryRank)[i] == x || Insert(s, x, order, categoryRank)[i] in s
  {
    InsertPermutes(s, x, order, categoryRank);
    var r := Insert(s, x, order, categoryRank);
    assert r[i] in multiset(r);
  }

  /** The sorted list is ordered by the key (non-decreasing). */
  lemma {:induction false} InsertionSortSorted(s: seq<Product>, order: ProductSort, categoryRank: string -> real)
    ensures SortedByKey(InsertionSort(s, order, categoryRank), order, categoryRank)
    ensures |InsertionSort(s, order, categoryRank)| == |s|
  {
    if s != [] {
      InsertionSortSorted(s[..|s| - 1], order, categoryRank);
      InsertSorted(InsertionSort(s[..|s| - 1], order, categoryRank), s[|s| - 1], order, categoryRank);
    }
  }

  /** The sort step only reorders: the sorted list is a permutation of the product list. */
  lemma SortProductsPermutes(products: seq<Product>, order: ProductSort, categoryRank: string -> real)
    ensures |SortProducts(products, order, categoryRank)| == |products|
    ensures multiset(SortProducts(products, order, categoryRank)) == multiset(products)
  {
    if order != Random {
      InsertionSortPermutes(products, order, categoryRank);
      InsertionSortSorted(products, order, categoryRank);
    }
  }

  /** `price-asc` gives non-decreasing prices, `price-desc` non-increasing ones, `category` non-decreasing ranks, `random` the input order. */
  lemma SortProductsOrders(products: seq<Product>, order: ProductSort, categoryRank: string -> real)
    ensures var s := SortProducts(products, order, categoryRank);
      && (order == PriceAsc ==> forall i, j :: 0 <= i < j < |s| ==> s[i].price <= s[j].price)
      && (order == PriceDesc ==> forall i, j :: 0 <= i < j < |s| ==> s[i].price >= s[j].price)
      && (order == Category ==> forall i, j :: 0 <= i < j < |s| ==> categoryRank(s[i].category) <= categoryRank(s[j].category))
      && (order == Random ==> s == products)
  {
    if order != Random {
      InsertionSortSorted(products, order, categoryRank);
      var s := SortProducts(products, order, categoryRank);
      assert forall i, j :: 0 <= i < j < |s| ==> SortKey(order, categoryRank, s[i]) <= SortKey(order, categoryRank, s[j]);
    }
  }

  /** The products whose key is `k`, in list order. */
  function KeyFilter(s: seq<Product>, order: ProductSort, categoryRank: string -> real, k: real): seq<Product> {
    if s == [] then []
    else KeyFilter(s[..|s| - 1], order, categoryRank, k) + (if SortKey(order, categoryRank, s[|s| - 1]) == k then [s[|s| - 1]] else [])
  }

  /** The products with key `k` of `t + [y]`. */
  lemma KeyFilterSnoc(t: seq<Product>, y: Product, order: ProductSort, categoryRank: string -> real, k: real)
    ensures KeyFilter(t + [y], order, categoryRank, k)
      == KeyFilter(t, order, categoryRank, k) + (if SortKey(order, categoryRank, y) == k then [y] else [])
  {
    assert (t + [y])[..|t|] == t;
  }

  /** Inserting into a sorted list puts `x` after every product with the same key. */
  lemma {:induction false} InsertKeyFilter(s: seq<Product>, x: Product, order: ProductSort, categoryRank: string -> real, k: real)
    requires SortedByKey(s, order, categoryRank)
    ensures KeyFilter(Insert(s, x, order, categoryRank), order, categoryRank, k)
      == KeyFilter(s, order, categoryRank, k) + (if SortKey(order, categoryRank, x) == k then [x] else [])
  {
    var xs: seq<Product> := if SortKey(order, categoryRank, x) == k then [x] else [];
    if s == [] || SortKey(order, categoryRank, s[|s| - 1]) <= SortKey(order, categoryRank, x) {
      KeyFilterSnoc(s, x, order, categoryRank, k);
    } else {
      var init, last := s[..|s| - 1], s[|s| - 1];
      var ls: seq<Product> := if SortKey(order, categoryRank, last) == k then [last] else [];
      assert SortedByKey(init, order, categoryRank);
      InsertKeyFilter(init, x, order, categoryRank, k);
      var r0 := Insert(init, x, order, categoryRank);
      KeyFilterSnoc(r0, last, order, categoryRank, k);
      // `last` has a greater key than `x`, so at most one of them has key `k`
      assert xs == [] || ls == [];
      FilterSwap(KeyFilter(Insert(s, x, order, categoryRank), order, categoryRank, k),
        KeyFilter(r0, order, categoryRank, k), KeyFilter(init, order, categoryRank, k), KeyFilter(s, order, categoryRank, k), xs, ls);
    }
  }

  /** The two appends commute when at most one of them adds something. */
  lemma FilterSwap(whole: seq<Product>, front: seq<Product>, base: seq<Product>, orig: seq<Product>, xs: seq<Product>, ls: seq<Product>)
    requires whole == front + ls && front == base + xs && orig == base + ls
    requires xs == [] || ls == []
    ensures whole == orig + xs
  {
  }

  /**
   * The sort is stable: the products sharing a key appear in the sorted list
   * in the order they have in the input, as `Array.prototype.sort` keeps them.
   */
  lemma {:induction false} InsertionSortStable(s: seq<Product>, order: ProductSort, categoryRank: string -> real, k: real)
    ensures KeyFilter(InsertionSort(s, order, categoryRank), order, categoryRank, k) == KeyFilter(s, order, categoryRank, k)
  {
    if s != [] {
      var init := s[..|s| - 1];
      InsertionSortStable(init, order, categoryRank, k);
      InsertionSortSorted(init, order, categoryRank);
      InsertKeyFilter(InsertionSort(init, order, categoryRank), s[|s| - 1], order, categoryRank, k);
    }
  }

  /** `sortedProducts` keeps the input order among products the comparator calls equal. */
  lemma SortProductsStable(products: seq<Product>, order: ProductSort, categoryRank: string -> real, k: real)
    ensures KeyFilter(SortProducts(products, order, categoryRank), order, categoryRank, k) == KeyFilter(products, order, categoryRank, k)
  {
    if order != Random {
      InsertionSortStable(products, order, categoryRank, k);
    }
  }
}
