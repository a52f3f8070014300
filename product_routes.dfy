/**
 * The product routes (backend/routes/productRoutes.js): listing with a
 * default limit, lookup by id or slug, update by merge-then-save and delete.
 */
module ProductRoutes {
  import opened Common
  import opened Text
  import opened Catalog
  import opened Store

  datatype HttpError = NotFound | BadRequest

  // ---------------------------------------------------------------------
  // GET /api/products?search=…&limit=…
  // ---------------------------------------------------------------------

  /** `parseInt(req.query.limit) || 100`; `limitParam` is the parse, None for NaN. */
  function EffectiveLimit(limitParam: Option<int>): (l: int)
    ensures l != 0
    ensures limitParam.None? || limitParam.value == 0 ==> l == 100
    ensures limitParam.Some? && limitParam.value != 0 ==> l == limitParam.value
  {
    OrDefault(limitParam, 100)
  }

  /** The most documents a query with `.limit(l)` returns: MongoDB reads a negative limit as its magnitude. */
  function LimitBound(l: int): (n: nat)
    ensures n == l || n == -l
  {
    if l < 0 then -l else l
  }

  /** The `$regex` name filter, read as a case-insensitive substring test; an absent or empty `search` filters nothing. */
  predicate MatchesKeyword(p: Product, search: Option<string>) {
    search.None? || search.value == "" || Contains(Lower(p.name), Lower(search.value))
  }

  function CreatedAt(products: map<ObjectId, Product>, id: ObjectId): (t: nat) {
    if id in products then products[id].createdAt else 0
  }

  predicate NewestFirst(products: map<ObjectId, Product>, ids: seq<ObjectId>) {
    forall i, j :: 0 <= i < j < |ids| ==> CreatedAt(products, ids[i]) >= CreatedAt(products, ids[j])
  }

  predicate Distinct(ids: seq<ObjectId>) {
    forall i, j :: 0 <= i < j < |ids| ==> ids[i] != ids[j]
  }

  /** Insert `id` into a newest-first list, before every document not newer than it. */
  function InsertNewest(products: map<ObjectId, Product>, ids: seq<ObjectId>, id: ObjectId): (r: seq<ObjectId>)
    requires NewestFirst(products, ids)
    ensures |r| == |ids| + 1
    ensures forall x :: x in r <==> x in ids || x == id
    ensures NewestFirst(products, r)
    ensures Distinct(ids) && id !in ids ==> Distinct(r)
    decreases |ids|
  {
    if ids == [] then [id]
    else if CreatedAt(products, id) >= CreatedAt(products, ids[0]) then [id] + ids
    else
      assert NewestFirst(products, ids[1..]) by {
        forall i, j | 0 <= i < j < |ids[1..]|
          ensures CreatedAt(products, ids[1..][i]) >= CreatedAt(products, ids[1..][j])
        {
          assert ids[1..][i] == ids[i + 1] && ids[1..][j] == ids[j + 1];
        }
      }
      var rest := InsertNewest(products, ids[1..], id);
      assert forall x :: x in ids <==> x == ids[0] || x in ids[1..];
      assert forall k :: 0 <= k < |rest| ==> CreatedAt(products, ids[0]) >= CreatedAt(products, rest[k]) by {
        forall k | 0 <= k < |rest| ensures CreatedAt(products, ids[0]) >= CreatedAt(products, rest[k]) {
          assert rest[k] in rest;
          if rest[k] != id {
            var m :| 0 <= m < |ids[1..]| && ids[1..][m] == rest[k];
            assert ids[1..][m] == ids[m + 1];
          }
        }
      }
      var r := [ids[0]] + rest;
      assert NewestFirst(products, r) by {
        forall i, j | 0 <= i < j < |r| ensures CreatedAt(products, r[i]) >= CreatedAt(products, r[j]) {
          assert r[j] == rest[j - 1];
          if i > 0 { assert r[i] == rest[i - 1]; }
        }
      }
      assert Distinct(ids) && id !in ids ==> Distinct(r) by {
        if Distinct(ids) && id !in ids {
          assert Distinct(ids[1..]) by {
            forall i, j | 0 <= i < j < |ids[1..]| ensures ids[1..][i] != ids[1..][j] {
              assert ids[1..][i] == ids[i + 1] && ids[1..][j] == ids[j + 1];
            }
          }
          assert ids[0] !in ids[1..] by {
            forall m | 0 <= m < |ids[1..]| ensures ids[1..][m] != ids[0] {
              assert ids[1..][m] == ids[m + 1];
            }
          }
          assert ids[0] !in rest;
          forall i, j | 0 <= i < j < |r| ensures r[i] != r[j] {
            assert r[j] == rest[j - 1];
            assert r[j] in rest;
            if i > 0 { assert r[i] == rest[i - 1]; }
          }
        }
      }
      r
  }

  lemma {:induction false} DistinctCardinality(ids: seq<ObjectId>)
    requires Distinct(ids)
    ensures |set x | x in ids| == |ids|
    decreases |ids|
  {
    if ids != [] {
      var rest := ids[1..];
      assert Distinct(rest) by {
        forall i, j | 0 <= i < j < |rest| ensures rest[i] != rest[j] {
          assert rest[i] == ids[i + 1] && rest[j] == ids[j + 1];
        }
      }
      DistinctCardinality(rest);
      assert ids[0] !in rest by {
        forall i | 0 <= i < |rest| ensures rest[i] != ids[0] {
          assert rest[i] == ids[i + 1];
        }
      }
      assert (set x | x in ids) == (set x | x in rest) + {ids[0]};
    }
  }

  ghost function Matching(products: map<ObjectId, Product>, search: Option<string>): set<ObjectId> {
    set id | id in products && MatchesKeyword(products[id], search)
  }

  /** The query before its limit: every matching id once, newest first. */
  method SortedMatches(db: Database, search: Option<string>) returns (all: seq<ObjectId>)
    ensures forall x :: x in all <==> x in db.products && MatchesKeyword(db.products[x], search)
    ensures Distinct(all) && NewestFirst(db.products, all)
  {
    var remaining := db.products.Keys;
    all := [];
    while remaining != {}
      invariant remaining <= db.products.Keys
      invariant forall x :: x in all <==> x in db.products && MatchesKeyword(db.products[x], search) && x !in remaining
      invariant Distinct(all) && NewestFirst(db.products, all)
      decreases remaining
    {
      var id :| id in remaining;
      if MatchesKeyword(db.products[id], search) {
        all := InsertNewest(db.products, all, id);
      }
      remaining := remaining - {id};
    }
  }

  /** Cutting a newest-first list of all matches keeps the newest ones. */
  lemma TakeNewest(products: map<ObjectId, Product>, search: Option<string>, all: seq<ObjectId>, n: nat)
    requires forall x :: x in all <==> x in products && MatchesKeyword(products[x], search)
    requires Distinct(all) && NewestFirst(products, all)
    requires n <= |all|
    ensures |all| == |Matching(products, search)|
    ensures forall i :: 0 <= i < n ==> all[..n][i] in products && MatchesKeyword(products[all[..n][i]], search)
    ensures Distinct(all[..n]) && NewestFirst(products, all[..n])
    ensures forall id, i :: id in products && MatchesKeyword(products[id], search) && id !in all[..n] && 0 <= i < n ==>
              CreatedAt(products, id) <= CreatedAt(products, all[..n][i])
  {
    assert (set x | x in all) == Matching(products, search);
    DistinctCardinality(all);
    var ids := all[..n];
    assert forall i :: 0 <= i < n ==> ids[i] == all[i] && all[i] in all;
    forall id, i | id in products && MatchesKeyword(products[id], search) && id !in ids && 0 <= i < n
      ensures CreatedAt(products, id) <= CreatedAt(products, ids[i])
    {
      var k :| 0 <= k < |all| && all[k] == id;
      assert k >= n;
    }
  }

  /**
   * The list route: of the products whose name matches `search`, the
   * newest ones, newest first, as many as the limit allows.
   */
  method ListProducts(db: Database, search: Option<string>, limitParam: Option<int>)
      returns (ids: seq<ObjectId>, products: seq<Product>)
    ensures |ids| <= LimitBound(EffectiveLimit(limitParam))
    ensures |ids| == Min(LimitBound(EffectiveLimit(limitParam)), |Matching(db.products, search)|)
    ensures forall i :: 0 <= i < |ids| ==> ids[i] in db.products && MatchesKeyword(db.products[ids[i]], search)
    ensures Distinct(ids) && NewestFirst(db.products, ids)
    ensures forall id, i :: id in db.products && MatchesKeyword(db.products[id], search) && id !in ids && 0 <= i < |ids| ==>
              CreatedAt(db.products, id) <= CreatedAt(db.products, ids[i])
    ensures |products| == |ids| && forall i :: 0 <= i < |ids| ==> products[i] == db.products[ids[i]]
  {
    var all := SortedMatches(db, search);
    var n := Min(LimitBound(EffectiveLimit(limitParam)), |all|);
    TakeNewest(db.products, search, all, n);
    ids := all[..n];
    var store := db.products;
    products := seq(|ids|, i requires 0 <= i < |ids| => store[ids[i]]);
  }

  /** Without a search term (absent or empty) every product matches. */
  lemma NoSearchKeepsEverything(products: map<ObjectId, Product>)
    ensures Matching(products, None) == products.Keys
    ensures Matching(products, Some("")) == products.Keys
  {
  }

  // ---------------------------------------------------------------------
  // GET /api/products/:idOrSlug
  // ---------------------------------------------------------------------

  /** `/^[0-9a-fA-F]{24}$/`. */
  predicate IsObjectIdFormat(s: string) {
    |s| == 24 && forall i :: 0 <= i < |s| ==> IsHexDigit(s[i])
  }

  /** Whether the argument is read as an id (cast to its lower-case form) or as a slug. */
  datatype Lookup = ById(id: ObjectId) | BySlug(slug: string)

  function LookupOf(idOrSlug: string): (l: Lookup)
    ensures l.ById? <==> IsObjectIdFormat(idOrSlug)
    ensures l.ById? ==> l.id == Lower(idOrSlug)
    ensures l.BySlug? ==> l.slug == idOrSlug
  {
    if IsObjectIdFormat(idOrSlug) then ById(Lower(idOrSlug)) else BySlug(idOrSlug)
  }

  /** The same id in either case is the same lookup. */
  lemma LookupIgnoresHexCase(s: string)
    requires IsObjectIdFormat(s)
    ensures IsObjectIdFormat(Lower(s)) && LookupOf(Lower(s)) == LookupOf(s)
  {
    LowerIdempotent(s);
    forall i | 0 <= i < |s| ensures IsHexDigit(Lower(s)[i]) {
      assert Lower(s)[i] == LowerChar(s[i]);
    }
  }

  method GetProduct(db: Database, idOrSlug: string) returns (r: Result<Product, HttpError>)
    ensures r.Err? ==> r.error == NotFound
    ensures LookupOf(idOrSlug).ById? ==>
              if LookupOf(idOrSlug).id in db.products then r == Ok(db.products[LookupOf(idOrSlug).id]) else r.Err?
    ensures LookupOf(idOrSlug).BySlug? ==>
              (r.Ok? ==> r.value in db.products.Values && r.value.slug == idOrSlug) &&
              (r.Err? <==> forall id :: id in db.products ==> db.products[id].slug != idOrSlug)
  {
    if IsObjectIdFormat(idOrSlug) {
      var id := Lower(idOrSlug);
      if id in db.products {
        r := Ok(db.products[id]);
      } else {
        r := Err(NotFound);
      }
    } else {
      if exists id :: id in db.products && db.products[id].slug == idOrSlug {
        var id :| id in db.products && db.products[id].slug == idOrSlug;
        r := Ok(db.products[id]);
      } else {
        r := Err(NotFound);
      }
    }
  }

  // ---------------------------------------------------------------------
  // PUT /api/products/:id and DELETE /api/products/:id
  // ---------------------------------------------------------------------

  /** A request body: the fields it carries overwrite the document's. */
  datatype ProductPatch = ProductPatch(
    name: Option<string>,
    slug: Option<string>,
    description: Option<string>,
    price: Option<int>,
    discountPrice: Option<int>,
    stock: Option<int>,
    inventory: Option<seq<InventoryEntry>>,
    category: Option<Category>,
    images: Option<seq<Image>>,
    sizes: Option<seq<string>>,
    featured: Option<bool>,
    newArrival: Option<bool>,
    sale: Option<bool>,
    bestSeller: Option<bool>)

  /** `Object.assign(product, req.body)`. */
  function Assign(p: Product, b: ProductPatch): (q: Product)
    ensures q.id == p.id && q.createdAt == p.createdAt
    ensures q.name == b.name.GetOr(p.name) && q.slug == b.slug.GetOr(p.slug)
    ensures q.description == b.description.GetOr(p.description) && q.price == b.price.GetOr(p.price)
    ensures q.stock == b.stock.GetOr(p.stock) && q.inventory == b.inventory.GetOr(p.inventory)
    ensures q.sizes == b.sizes.GetOr(p.sizes) && q.images == b.images.GetOr(p.images)
    ensures q.discountPrice == (if b.discountPrice.Some? then b.discountPrice else p.discountPrice)
    ensures q.category == (if b.category.Some? then b.category else p.category)
    ensures q.featured == b.featured.GetOr(p.featured) && q.newArrival == b.newArrival.GetOr(p.newArrival)
    ensures q.sale == b.sale.GetOr(p.sale) && q.bestSeller == b.bestSeller.GetOr(p.bestSeller)
    ensures b == ProductPatch(None, None, None, None, None, None, None, None, None, None, None, None, None, None) ==> q == p
  {
    p.(name := b.name.GetOr(p.name),
       slug := b.slug.GetOr(p.slug),
       description := b.description.GetOr(p.description),
       price := b.price.GetOr(p.price),
       discountPrice := if b.discountPrice.Some? then b.discountPrice else p.discountPrice,
       stock := b.stock.GetOr(p.stock),
       inventory := b.inventory.GetOr(p.inventory),
       category := if b.category.Some? then b.category else p.category,
       images := b.images.GetOr(p.images),
       sizes := b.sizes.GetOr(p.sizes),
       featured := b.featured.GetOr(p.featured),
       newArrival := b.newArrival.GetOr(p.newArrival),
       sale := b.sale.GetOr(p.sale),
       bestSeller := b.bestSeller.GetOr(p.bestSeller))
  }

  /**
   * What `save` accepts: the schema's required strings are non-empty, every
   * inventory row has a non-empty size, and the slug is not another
   * product's (its unique index).
   */
  predicate Savable(products: map<ObjectId, Product>, id: ObjectId, p: Product) {
    && p.name != "" && p.slug != "" && p.description != ""
    && (forall e :: e in p.inventory ==> e.size != "")
    && forall other :: other in products && other != id ==> products[other].slug != p.slug
  }

  method UpdateProduct(db: Database, id: ObjectId, body: ProductPatch) returns (r: Result<Product, HttpError>)
    modifies db
    ensures id !in old(db.products) ==> r == Err(NotFound) && db.products == old(db.products)
    ensures id in old(db.products) ==>
              var merged := Assign(old(db.products)[id], body);
              if Savable(old(db.products), id, merged) then
                r == Ok(Save(merged)) && db.products == old(db.products)[id := Save(merged)]
              else
                r == Err(BadRequest) && db.products == old(db.products)
    ensures db.orders == old(db.orders)
  {
    if id in db.products {
      var product := Assign(db.products[id], body);
      if Savable(db.products, id, product) {
        db.SaveProduct(id, product);
        r := Ok(Save(product));
      } else {
        r := Err(BadRequest);
      }
    } else {
      r := Err(NotFound);
    }
  }

  /**
   * An update that sends a non-empty inventory leaves the stored stock equal
   * to that inventory's total, whatever stock the body or the document had.
   */
  lemma UpdateRederivesStock(p: Product, body: ProductPatch)
    requires body.inventory.Some? && body.inventory.value != []
    ensures Save(Assign(p, body)).stock == SumQuantities(body.inventory.value)
    ensures Save(Assign(p, body)).sizes == InStockSizes(body.inventory.value)
  {
  }

  /**
   * An update that empties the inventory and sends no stock keeps the old
   * stock and sizes: the hook does not run on an empty inventory.
   */
  lemma EmptiedInventoryKeepsOldStock(p: Product, body: ProductPatch)
    requires body.inventory == Some([]) && body.stock.None? && body.sizes.None?
    ensures Save(Assign(p, body)).stock == p.stock
    ensures Save(Assign(p, body)).sizes == p.sizes
  {
  }

  method DeleteProduct(db: Database, id: ObjectId) returns (r: Result<string, HttpError>)
    modifies db
    ensures id in old(db.products) ==> r == Ok("Product removed") && db.products == old(db.products) - {id}
    ensures id !in old(db.products) ==> r == Err(NotFound) && db.products == old(db.products)
    ensures id !in db.products
    ensures forall other :: other in old(db.products) && other != id ==>
              other in db.products && db.products[other] == old(db.products)[other]
    ensures db.orders == old(db.orders)
  {
    if id in db.products {
      db.products := db.products - {id};
      r := Ok("Product removed");
    } else {
      r := Err(NotFound);
    }
  }

  function Status(r: Result<Product, HttpError>): (code: int)
    ensures r.Ok? <==> code == 200
    ensures r == Err(NotFound) <==> code == 404
    ensures r == Err(BadRequest) <==> code == 400
  {
    match r
    case Ok(_) => 200
    case Err(NotFound) => 404
    case Err(BadRequest) => 400
  }
}
