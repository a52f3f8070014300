/**
 * The catalogue page (frontend/src/pages/Shop.jsx): `filteredProducts`
 * keeps the products of the active category whose name contains the search
 * query, then sorts them with a comparator chosen by `sortBy`.
 */
module Shop {
  import opened Text
  import opened Seqs
  import opened Catalog

  // ---------------------------------------------------------------------
  // The filter.
  // ---------------------------------------------------------------------

  /**
   * 'all' matches everything (compared exactly); otherwise the category's
   * name, lower-cased, or its slug as stored, must equal the lower-cased
   * active category. A product without a category never matches.
   */
  predicate MatchesCategory(p: Product, activeCategory: string) {
    activeCategory == "all" ||
    (p.category.Some? &&
     (Lower(p.category.value.name) == Lower(activeCategory) || p.category.value.slug == Lower(activeCategory)))
  }

  predicate MatchesSearch(p: Product, searchQuery: string) {
    Contains(Lower(p.name), Lower(searchQuery))
  }

  predicate Matches(p: Product, activeCategory: string, searchQuery: string) {
    MatchesCategory(p, activeCategory) && MatchesSearch(p, searchQuery)
  }

  // ---------------------------------------------------------------------
  // A stable sort by an integer key.
  // ---------------------------------------------------------------------

  /** The comparator passed to `sort`, case by case as the page writes it. */
  function Compare(sortBy: string, a: Product, b: Product): (c: int)
    ensures c == SortKey(sortBy, a) - SortKey(sortBy, b)
  {
    if sortBy == "price-low" then a.price - b.price
    else if sortBy == "price-high" then b.price - a.price
    else if sortBy == "newest" then b.createdAt as int - a.createdAt as int
    else 0
  }

  /**
   * Each comparator is `key(a) - key(b)` for one key, so sorting with it is
   * `Array.prototype.sort` (stable) ordering by that key.
   */
  function SortKey(sortBy: string, p: Product): (key: int) {
    if sortBy == "price-low" then p.price
    else if sortBy == "price-high" then -p.price
    else if sortBy == "newest" then -(p.createdAt as int)
    else 0
  }

  predicate SortedBy<T>(key: T -> int, s: seq<T>) {
    forall i, j :: 0 <= i < j < |s| ==> key(s[i]) <= key(s[j])
  }

  /** Inserts `x` before the first element whose key is not smaller. */
  function Insert<T>(key: T -> int, x: T, s: seq<T>): (r: seq<T>)
    ensures multiset(r) == multiset(s) + multiset{x}
    ensures forall i :: 0 <= i < |r| ==> r[i] == x || r[i] in s
    decreases |s|
  {
    if s == [] then [x]
    else if key(x) <= key(s[0]) then [x] + s
    else
      assert s == [s[0]] + s[1..];
      [s[0]] + Insert(key, x, s[1..])
  }

  lemma {:induction false} InsertSorted<T>(key: T -> int, x: T, s: seq<T>)
    requires SortedBy(key, s)
    ensures SortedBy(key, Insert(key, x, s))
    decreases |s|
  {
    if s != [] && key(x) > key(s[0]) {
      var t := Insert(key, x, s[1..]);
      assert SortedBy(key, s[1..]) by {
        forall i, j | 0 <= i < j < |s[1..]| ensures key(s[1..][i]) <= key(s[1..][j]) {
          assert s[1..][i] == s[i + 1] && s[1..][j] == s[j + 1];
        }
      }
      InsertSorted(key, x, s[1..]);
      forall i | 0 <= i < |t| ensures key(s[0]) <= key(t[i]) {
        if t[i] != x {
          var m :| 0 <= m < |s[1..]| && s[1..][m] == t[i];
          assert s[1..][m] == s[m + 1];
        }
      }
      var r := [s[0]] + t;
      forall i, j | 0 <= i < j < |r| ensures key(r[i]) <= key(r[j]) {
        assert r[j] == t[j - 1];
        if i > 0 { assert r[i] == t[i - 1]; }
      }
    }
  }

  function StableSort<T>(key: T -> int, s: seq<T>): (r: seq<T>)
    ensures multiset(r) == multiset(s)
    ensures SortedBy(key, r)
    decreases |s|
  {
    if s == [] then []
    else
      assert s == [s[0]] + s[1..];
      var t := StableSort(key, s[1..]);
      InsertSorted(key, s[0], t);
      Insert(key, s[0], t)
  }

  function KeyIs<T>(key: T -> int, c: int): T -> bool {
    y => key(y) == c
  }

  lemma FilterCons<T(!new)>(f: T -> bool, x: T, s: seq<T>)
    ensures Filter(f, [x] + s) == (if f(x) then [x] else []) + Filter(f, s)
  {
    assert ([x] + s)[0] == x && ([x] + s)[1..] == s;
  }

  lemma {:induction false} InsertKeepsTies<T(!new)>(key: T -> int, c: int, x: T, s: seq<T>)
    ensures Filter(KeyIs(key, c), Insert(key, x, s)) == Filter(KeyIs(key, c), [x] + s)
    decreases |s|
  {
    var f := KeyIs(key, c);
    if s != [] && key(x) > key(s[0]) {
      var y, rest := s[0], s[1..];
      assert s == [y] + rest;
      var fx := if f(x) then [x] else [];
      var fy := if f(y) then [y] else [];
      assert fx == [] || fy == [];
      calc {
        Filter(f, Insert(key, x, s));
        Filter(f, [y] + Insert(key, x, rest));
        { FilterCons(f, y, Insert(key, x, rest)); }
        fy + Filter(f, Insert(key, x, rest));
        { InsertKeepsTies(key, c, x, rest); FilterCons(f, x, rest); }
        fy + (fx + Filter(f, rest));
        fx + (fy + Filter(f, rest));
        { FilterCons(f, y, rest); }
        fx + Filter(f, s);
        { FilterCons(f, x, s); }
        Filter(f, [x] + s);
      }
    }
  }

  /** Stability: elements with the same key keep their relative order. */
  lemma {:induction false} StableSortKeepsTies<T(!new)>(key: T -> int, c: int, s: seq<T>)
    ensures Filter(KeyIs(key, c), StableSort(key, s)) == Filter(KeyIs(key, c), s)
    decreases |s|
  {
    var f := KeyIs(key, c);
    if s != [] {
      var t := StableSort(key, s[1..]);
      StableSortKeepsTies(key, c, s[1..]);
      InsertKeepsTies(key, c, s[0], t);
      FilterConcat(f, [s[0]], t);
      FilterConcat(f, [s[0]], s[1..]);
      assert s == [s[0]] + s[1..];
    }
  }

  /** With every key equal the sort changes nothing. */
  lemma {:induction false} StableSortConstantKey<T>(key: T -> int, s: seq<T>)
    requires forall i, j :: 0 <= i < |s| && 0 <= j < |s| ==> key(s[i]) == key(s[j])
    ensures StableSort(key, s) == s
    decreases |s|
  {
    if s != [] {
      assert forall i, j :: 0 <= i < |s[1..]| && 0 <= j < |s[1..]| ==> key(s[1..][i]) == key(s[1..][j]) by {
        forall i, j | 0 <= i < |s[1..]| && 0 <= j < |s[1..]|
          ensures key(s[1..][i]) == key(s[1..][j])
        {
          assert s[1..][i] == s[i + 1] && s[1..][j] == s[j + 1];
        }
      }
      StableSortConstantKey(key, s[1..]);
      assert s == [s[0]] + s[1..];
    }
  }

  // ---------------------------------------------------------------------
  // filteredProducts
  // ---------------------------------------------------------------------

  function Filtered(products: seq<Product>, activeCategory: string, searchQuery: string): (r: seq<Product>)
    ensures forall p :: p in r <==> p in products && Matches(p, activeCategory, searchQuery)
  {
    Filter((p: Product) => Matches(p, activeCategory, searchQuery), products)
  }

  function FilteredProducts(products: seq<Product>, activeCategory: string, searchQuery: string, sortBy: string): (r: seq<Product>)
    ensures multiset(r) == multiset(Filtered(products, activeCategory, searchQuery))
    ensures forall p :: p in r <==> p in products && Matches(p, activeCategory, searchQuery)
    ensures sortBy == "price-low" ==> forall i, j :: 0 <= i < j < |r| ==> r[i].price <= r[j].price
    ensures sortBy == "price-high" ==> forall i, j :: 0 <= i < j < |r| ==> r[i].price >= r[j].price
    ensures sortBy == "newest" ==> forall i, j :: 0 <= i < j < |r| ==> r[i].createdAt >= r[j].createdAt
  {
    var kept := Filtered(products, activeCategory, searchQuery);
    var r := StableSort((p: Product) => SortKey(sortBy, p), kept);
    SameElements(r, kept);
    SortKeyOrder(sortBy, r);
    r
  }

  lemma SameElements(a: seq<Product>, b: seq<Product>)
    requires multiset(a) == multiset(b)
    ensures forall p :: p in a <==> p in b
  {
    forall p ensures p in a <==> p in b {
      assert p in a <==> p in multiset(a);
      assert p in b <==> p in multiset(b);
    }
  }

  /** What ascending `SortKey` order means for each `sortBy`. */
  lemma SortKeyOrder(sortBy: string, r: seq<Product>)
    requires SortedBy((p: Product) => SortKey(sortBy, p), r)
    ensures sortBy == "price-low" ==> forall i, j :: 0 <= i < j < |r| ==> r[i].price <= r[j].price
    ensures sortBy == "price-high" ==> forall i, j :: 0 <= i < j < |r| ==> r[i].price >= r[j].price
    ensures sortBy == "newest" ==> forall i, j :: 0 <= i < j < |r| ==> r[i].createdAt >= r[j].createdAt
  {
    var key := (p: Product) => SortKey(sortBy, p);
    forall i, j | 0 <= i < j < |r| ensures key(r[i]) <= key(r[j]) { }
  }

  /** Any other `sortBy` (the default 'featured') keeps the filtered order. */
  lemma FeaturedKeepsOrder(products: seq<Product>, activeCategory: string, searchQuery: string, sortBy: string)
    requires sortBy != "price-low" && sortBy != "price-high" && sortBy != "newest"
    ensures FilteredProducts(products, activeCategory, searchQuery, sortBy) == Filtered(products, activeCategory, searchQuery)
  {
    StableSortConstantKey((p: Product) => SortKey(sortBy, p), Filtered(products, activeCategory, searchQuery));
  }

  /** Products with an equal price keep their catalogue order under either price sort. */
  lemma PriceSortIsStable(products: seq<Product>, activeCategory: string, searchQuery: string, sortBy: string, c: int)
    requires sortBy == "price-low" || sortBy == "price-high"
    ensures var key := (p: Product) => SortKey(sortBy, p);
            Filter(KeyIs(key, c), FilteredProducts(products, activeCategory, searchQuery, sortBy))
            == Filter(KeyIs(key, c), Filtered(products, activeCategory, searchQuery))
  {
    StableSortKeepsTies((p: Product) => SortKey(sortBy, p), c, Filtered(products, activeCategory, searchQuery));
  }

  /** The filter keeps products in catalogue order: filtering a concatenation filters each part. */
  lemma FilterKeepsCatalogueOrder(a: seq<Product>, b: seq<Product>, activeCategory: string, searchQuery: string)
    ensures Filtered(a + b, activeCategory, searchQuery)
            == Filtered(a, activeCategory, searchQuery) + Filtered(b, activeCategory, searchQuery)
  {
    FilterConcat((p: Product) => Matches(p, activeCategory, searchQuery), a, b);
  }

  /** 'all' with an empty query shows the whole catalogue, in its order. */
  lemma AllWithEmptyQueryShowsEverything(products: seq<Product>)
    ensures FilteredProducts(products, "all", "", "featured") == products
  {
    forall i | 0 <= i < |products| ensures Matches(products[i], "all", "") {
      ContainsEmpty(Lower(products[i].name));
      assert Lower("") == "";
    }
    FilterKeepsAll((p: Product) => Matches(p, "all", ""), products);
    FeaturedKeepsOrder(products, "all", "", "featured");
  }
}
