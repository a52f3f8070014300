/**
 * The product document and its pre-save hook (backend/models/Product.js).
 *
 * A product carries a per-size `inventory`; the hook derives the total
 * `stock` and the list of in-stock `sizes` from it on every save. A product
 * whose inventory is empty is a "legacy" product: its `stock` is an
 * independent counter and the hook leaves it alone.
 */
module Catalog {
  import opened Common
  import opened Seqs

  /** A document id: twelve bytes, written as 24 lower-case hex digits. */
  type ObjectId = string

  datatype InventoryEntry = InventoryEntry(size: string, quantity: int)

  datatype Category = Category(id: ObjectId, name: string, slug: string)

  datatype Image = Image(url: string, alt: string)

  /** Prices are integer cents; `createdAt` is an opaque timestamp. */
  datatype Product = Product(
    id: ObjectId,
    name: string,
    slug: string,
    description: string,
    price: int,
    discountPrice: Option<int>,
    stock: int,
    inventory: seq<InventoryEntry>,
    category: Option<Category>,
    images: seq<Image>,
    sizes: seq<string>,
    featured: bool,
    newArrival: bool,
    sale: bool,
    bestSeller: bool,
    createdAt: nat)

  predicate IsLegacy(p: Product) { |p.inventory| == 0 }

  /** `inventory.reduce((acc, item) => acc + item.quantity, 0)`. */
  function SumQuantities(inv: seq<InventoryEntry>): (total: int)
    ensures (forall k :: 0 <= k < |inv| ==> inv[k].quantity >= 0) ==>
              total >= 0 && forall k :: 0 <= k < |inv| ==> inv[k].quantity <= total
    decreases |inv|
  {
    if inv == [] then 0
    else
      assert forall k :: 1 <= k < |inv| ==> inv[k] == inv[1..][k - 1];
      inv[0].quantity + SumQuantities(inv[1..])
  }

  /** `inventory.filter(item => item.quantity > 0).map(item => item.size)`. */
  function InStockSizes(inv: seq<InventoryEntry>): (r: seq<string>)
    ensures |r| <= |inv|
    ensures forall s :: s in r <==> exists k :: 0 <= k < |inv| && inv[k].size == s && inv[k].quantity > 0
    decreases |inv|
  {
    if inv == [] then []
    else
      var rest := InStockSizes(inv[1..]);
      assert forall k :: 1 <= k < |inv| ==> inv[k] == inv[1..][k - 1];
      (if inv[0].quantity > 0 then [inv[0].size] else []) + rest
  }

  /** The first entry whose size is `size` (`find` / `findIndex`). */
  function FindEntry(inv: seq<InventoryEntry>, size: string): (r: Option<nat>)
    ensures r.Some? ==> r.value < |inv| && inv[r.value].size == size
    ensures r.Some? ==> forall j :: 0 <= j < r.value ==> inv[j].size != size
    ensures r.None? ==> forall j :: 0 <= j < |inv| ==> inv[j].size != size
  {
    FindFirst((e: InventoryEntry) => e.size == size, inv)
  }

  /** The pre-save hook: with a non-empty inventory, recompute `stock` and `sizes`. */
  function Save(p: Product): (r: Product)
    ensures !IsLegacy(p) ==> r.stock == SumQuantities(p.inventory) && r.sizes == InStockSizes(p.inventory)
    ensures IsLegacy(p) ==> r == p
    ensures r.(stock := p.stock, sizes := p.sizes) == p
  {
    if |p.inventory| > 0 then
      p.(stock := SumQuantities(p.inventory), sizes := InStockSizes(p.inventory))
    else
      p
  }

  /** Saving twice is the same as saving once. */
  lemma SaveIdempotent(p: Product)
    ensures Save(Save(p)) == Save(p)
  {
  }

  lemma {:induction false} SumQuantitiesConcat(a: seq<InventoryEntry>, b: seq<InventoryEntry>)
    ensures SumQuantities(a + b) == SumQuantities(a) + SumQuantities(b)
    decreases |a|
  {
    if a == [] {
      assert a + b == b;
    } else {
      assert (a + b)[1..] == a[1..] + b;
      SumQuantitiesConcat(a[1..], b);
    }
  }

  /** Changing one entry's quantity changes the total by the difference. */
  lemma {:induction false} SumQuantitiesUpdate(inv: seq<InventoryEntry>, k: nat, q: int)
    requires k < |inv|
    ensures SumQuantities(inv[k := inv[k].(quantity := q)]) == SumQuantities(inv) - inv[k].quantity + q
    decreases |inv|
  {
    if k > 0 {
      assert inv[k := inv[k].(quantity := q)][1..] == inv[1..][k - 1 := inv[k].(quantity := q)];
      SumQuantitiesUpdate(inv[1..], k - 1, q);
    }
  }

  /** The in-stock sizes of a concatenation are the in-stock sizes of each part, in order. */
  lemma {:induction false} InStockSizesConcat(a: seq<InventoryEntry>, b: seq<InventoryEntry>)
    ensures InStockSizes(a + b) == InStockSizes(a) + InStockSizes(b)
    decreases |a|
  {
    if a == [] {
      assert a + b == b;
    } else {
      assert (a + b)[1..] == a[1..] + b;
      assert (a + b)[0] == a[0];
      InStockSizesConcat(a[1..], b);
    }
  }

  /**
   * With no negative quantities, the saved stock is positive exactly when
   * some size is listed as in stock.
   */
  lemma {:induction false} PositiveStockIffSomeSizeInStock(inv: seq<InventoryEntry>)
    requires forall k :: 0 <= k < |inv| ==> inv[k].quantity >= 0
    ensures SumQuantities(inv) >= 0
    ensures SumQuantities(inv) > 0 <==> InStockSizes(inv) != []
    decreases |inv|
  {
    if inv != [] {
      PositiveStockIffSomeSizeInStock(inv[1..]);
    }
  }

  /**
   * Once a quantity has gone negative, the two derived fields disagree:
   * a size is listed as in stock while the total stock is 0.
   */
  lemma NegativeRowHidesStock()
    ensures var inv := [InventoryEntry("S", 3), InventoryEntry("M", -3)];
            SumQuantities(inv) == 0 && InStockSizes(inv) == ["S"]
  {
    var inv := [InventoryEntry("S", 3), InventoryEntry("M", -3)];
    assert inv[1..][1..] == [];
  }
}
