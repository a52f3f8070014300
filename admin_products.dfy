/**
 * The admin product editor (frontend/src/pages/Admin/Products.jsx): the
 * list filter, the legacy-stock migration that seeds the size editor, the
 * functional update of the `{size, quantity}` list, the total shown under
 * it, and the slug derived from a name when the slug field is blank.
 */
module AdminProducts {
  import opened Common
  import opened Text
  import opened Seqs
  import opened Catalog
  import ProductRoutes

  // ---------------------------------------------------------------------
  // The product list filter.
  // ---------------------------------------------------------------------

  /**
   * The name contains the search term, ignoring case, and the category is the
   * selected one (or 'all'). Products reach the page with their category
   * populated, so `p.category === selectedCategory` never holds and only the
   * id comparison decides.
   */
  predicate AdminMatches(p: Product, searchTerm: string, selectedCategory: string) {
    && Contains(Lower(p.name), Lower(searchTerm))
    && (selectedCategory == "all" || (p.category.Some? && p.category.value.id == selectedCategory))
  }

  function AdminFiltered(products: seq<Product>, searchTerm: string, selectedCategory: string): (r: seq<Product>)
    ensures forall p :: p in r <==> p in products && AdminMatches(p, searchTerm, selectedCategory)
    ensures |r| <= |products|
  {
    Filter((p: Product) => AdminMatches(p, searchTerm, selectedCategory), products)
  }

  // ---------------------------------------------------------------------
  // Seeding the size editor.
  // ---------------------------------------------------------------------

  /** `initialInventory`: `product` is None when a new product is being created. */
  function InitialInventory(product: Option<Product>): (inv: seq<InventoryEntry>)
    ensures product.Some? && |product.value.inventory| > 0 ==> inv == product.value.inventory
    ensures product.Some? && |product.value.inventory| == 0 && product.value.stock > 0 ==>
              inv == [InventoryEntry("L", product.value.stock)]
    ensures product.None? || (|product.value.inventory| == 0 && product.value.stock <= 0) ==> inv == []
  {
    if product.Some? && |product.value.inventory| > 0 then product.value.inventory
    else if product.Some? && product.value.stock > 0 then [InventoryEntry("L", product.value.stock)]
    else []
  }

  /** The migration shows a legacy product's whole stock, as one `L` row. */
  lemma MigrationKeepsTotal(p: Product)
    requires IsLegacy(p) && p.stock > 0
    ensures SumQuantities(InitialInventory(Some(p))) == p.stock
    ensures InStockSizes(InitialInventory(Some(p))) == ["L"]
  {
    var inv := InitialInventory(Some(p));
    assert inv[1..] == [];
  }

  // ---------------------------------------------------------------------
  // handleInventoryChange
  // ---------------------------------------------------------------------

  /** `parseInt(qty) || 0`; `qty` is the parse, None for NaN. */
  function ParsedQuantity(qty: Option<int>): (q: int) { OrDefault(qty, 0) }

  /** The `prev → next` updater passed to `setInventory`. */
  function InventoryChange(prev: seq<InventoryEntry>, size: string, qty: Option<int>): (next: seq<InventoryEntry>)
    ensures FindEntry(prev, size).Some? && ParsedQuantity(qty) == 0 ==> forall i :: 0 <= i < |next| ==> next[i].size != size
    ensures FindEntry(prev, size).None? || ParsedQuantity(qty) != 0 ==> InventoryEntry(size, ParsedQuantity(qty)) in next
    ensures forall e :: e in next && e.size != size ==> e in prev
    ensures forall e :: e in prev && e.size != size ==> e in next
  {
    var q := ParsedQuantity(qty);
    if FindEntry(prev, size).Some? then
      if q == 0 then Filter((e: InventoryEntry) => e.size != size, prev)
      else
        var next := seq(|prev|, i requires 0 <= i < |prev| => if prev[i].size == size then prev[i].(quantity := q) else prev[i]);
        var k := FindEntry(prev, size).value;
        assert next[k] == InventoryEntry(size, q);
        assert forall i :: 0 <= i < |prev| && prev[i].size != size ==> next[i] == prev[i] && next[i] in next;
        next
    else prev + [InventoryEntry(size, q)]
  }

  predicate UniqueSizes(inv: seq<InventoryEntry>) {
    forall i, j :: 0 <= i < j < |inv| ==> inv[i].size != inv[j].size
  }

  /** A non-zero quantity for a listed size replaces that row's quantity and nothing else. */
  lemma ChangeReplacesQuantity(prev: seq<InventoryEntry>, size: string, qty: Option<int>)
    requires FindEntry(prev, size).Some? && ParsedQuantity(qty) != 0
    ensures var r := InventoryChange(prev, size, qty);
            |r| == |prev| &&
            forall i :: 0 <= i < |prev| ==>
              r[i].size == prev[i].size &&
              r[i].quantity == (if prev[i].size == size then ParsedQuantity(qty) else prev[i].quantity)
  {
  }

  /** A zero quantity for a listed size removes it, and the result is shorter; the other rows stay,
      in their order and with their repetitions. */
  lemma ChangeToZeroRemoves(prev: seq<InventoryEntry>, size: string, qty: Option<int>)
    requires FindEntry(prev, size).Some? && ParsedQuantity(qty) == 0
    ensures InventoryChange(prev, size, qty) == Filter((e: InventoryEntry) => e.size != size, prev)
    ensures var r := InventoryChange(prev, size, qty);
            (forall i :: 0 <= i < |r| ==> r[i].size != size) &&
            (forall e :: e in r <==> e in prev && e.size != size) &&
            |r| < |prev|
  {
    var f := (e: InventoryEntry) => e.size != size;
    var k := FindEntry(prev, size).value;
    assert prev == prev[..k] + [prev[k]] + prev[k + 1..];
    FilterConcat(f, prev[..k] + [prev[k]], prev[k + 1..]);
    FilterConcat(f, prev[..k], [prev[k]]);
    assert Filter(f, [prev[k]]) == [];
  }

  /** A size not yet listed is appended at the end, even with quantity 0. */
  lemma ChangeAppendsNewSize(prev: seq<InventoryEntry>, size: string, qty: Option<int>)
    requires forall i :: 0 <= i < |prev| ==> prev[i].size != size
    ensures InventoryChange(prev, size, qty) == prev + [InventoryEntry(size, ParsedQuantity(qty))]
  {
  }

  lemma UniqueSizesTail(inv: seq<InventoryEntry>)
    requires inv != [] && UniqueSizes(inv)
    ensures UniqueSizes(inv[1..])
    ensures forall e :: e in inv[1..] ==> e.size != inv[0].size
  {
    var rest := inv[1..];
    forall i, j | 0 <= i < j < |rest| ensures rest[i].size != rest[j].size {
      assert rest[i] == inv[i + 1] && rest[j] == inv[j + 1];
    }
    forall e | e in rest ensures e.size != inv[0].size {
      var m :| 0 <= m < |rest| && rest[m] == e;
      assert rest[m] == inv[m + 1];
    }
  }

  lemma UniqueSizesCons(x: InventoryEntry, tail: seq<InventoryEntry>)
    requires UniqueSizes(tail)
    requires forall e :: e in tail ==> e.size != x.size
    ensures UniqueSizes([x] + tail)
  {
    var r := [x] + tail;
    forall i, j | 0 <= i < j < |r| ensures r[i].size != r[j].size {
      assert r[j] == tail[j - 1];
      if i > 0 { assert r[i] == tail[i - 1]; }
    }
  }

  lemma {:induction false} FilterKeepsUniqueSizes(f: InventoryEntry -> bool, inv: seq<InventoryEntry>)
    requires UniqueSizes(inv)
    ensures UniqueSizes(Filter(f, inv))
    decreases |inv|
  {
    if inv != [] {
      UniqueSizesTail(inv);
      FilterKeepsUniqueSizes(f, inv[1..]);
      if f(inv[0]) {
        UniqueSizesCons(inv[0], Filter(f, inv[1..]));
      }
    }
  }

  /** An edit never gives a size two rows. */
  lemma ChangeKeepsSizesUnique(prev: seq<InventoryEntry>, size: string, qty: Option<int>)
    requires UniqueSizes(prev)
    ensures UniqueSizes(InventoryChange(prev, size, qty))
  {
    var q := ParsedQuantity(qty);
    if FindEntry(prev, size).Some? && q == 0 {
      FilterKeepsUniqueSizes((e: InventoryEntry) => e.size != size, prev);
    }
  }

  // ---------------------------------------------------------------------
  // The total under the editor, against what the server then stores.
  // ---------------------------------------------------------------------

  /**
   * Zeroing the only row of a migrated legacy product empties the editor and
   * shows a total of 0. The form sends neither `stock` nor `sizes`, so the
   * saved product keeps its old stock (and stays orderable as a legacy
   * product), because the hook skips empty inventories.
   */
  lemma ClearedLegacyProductKeepsStock(p: Product, body: ProductRoutes.ProductPatch)
    requires IsLegacy(p) && p.stock > 0
    requires body.inventory == Some(InventoryChange(InitialInventory(Some(p)), "L", Some(0)))
    requires body.stock.None? && body.sizes.None?
    ensures body.inventory == Some([]) && SumQuantities(body.inventory.value) == 0
    ensures Save(ProductRoutes.Assign(p, body)).stock == p.stock > 0
  {
    var inv := InitialInventory(Some(p));
    assert FindEntry(inv, "L") == Some(0);
    var f := (e: InventoryEntry) => e.size != "L";
    assert inv[1..] == [];
    assert Filter(f, inv) == [];
  }

  // ---------------------------------------------------------------------
  // Slugs
  // ---------------------------------------------------------------------

  /** `[\w-]`: ASCII letters, digits, `_` and `-`. */
  predicate IsSlugChar(c: char) {
    ('a' <= c <= 'z') || ('A' <= c <= 'Z') || ('0' <= c <= '9') || c == '_' || c == '-'
  }

  function SpaceToDash(c: char): (d: char) { if c == ' ' then '-' else c }

  /** `.replace(/ /g, '-')` */
  function Dashed(s: string): (r: string)
    ensures |r| == |s| && forall i :: 0 <= i < |s| ==> r[i] == SpaceToDash(s[i])
  {
    seq(|s|, i requires 0 <= i < |s| => SpaceToDash(s[i]))
  }

  /** `name.toLowerCase().replace(/ /g, '-').replace(/[^\w-]+/g, '')`. */
  function Slugify(name: string): (slug: string)
    ensures forall i :: 0 <= i < |slug| ==> IsSlugChar(slug[i]) && !IsUpper(slug[i])
    ensures |slug| <= |name|
  {
    Filter(IsSlugChar, Dashed(Lower(name)))
  }

  /** The rule works character by character: each slug is the concatenation of its characters' slugs. */
  lemma SlugifyConcat(a: string, b: string)
    ensures Slugify(a + b) == Slugify(a) + Slugify(b)
  {
    LowerConcat(a, b);
    assert Dashed(Lower(a) + Lower(b)) == Dashed(Lower(a)) + Dashed(Lower(b));
    FilterConcat(IsSlugChar, Dashed(Lower(a)), Dashed(Lower(b)));
  }

  /** One character: lower-cased, a space becomes a dash, and anything outside `[A-Za-z0-9_-]` is dropped. */
  lemma SlugifyChar(c: char)
    ensures Slugify([c]) == (var d := SpaceToDash(LowerChar(c)); if IsSlugChar(d) then [d] else [])
  {
    var d := SpaceToDash(LowerChar(c));
    assert Dashed(Lower([c])) == [d];
    assert [d][1..] == [];
  }

  /** A slug is its own slug. */
  lemma SlugifyIdempotent(name: string)
    ensures Slugify(Slugify(name)) == Slugify(name)
  {
    var s := Slugify(name);
    assert Lower(s) == s;
    assert Dashed(s) == s;
    FilterKeepsAll(IsSlugChar, s);
  }

  /** The slug sent with the form: the typed one, or one derived from the name when blank. */
  function PayloadSlug(formSlug: string, name: string): (slug: string)
    ensures formSlug != "" ==> slug == formSlug
    ensures formSlug == "" ==> slug == Slugify(name)
    ensures formSlug == "" ==> forall i :: 0 <= i < |slug| ==> IsSlugChar(slug[i])
  {
    if formSlug != "" then formSlug else Slugify(name)
  }
}
