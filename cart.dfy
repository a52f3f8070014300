/**
 * The cart reducer (frontend/src/redux/slices/cartSlice.js): a list of
 * lines keyed by product id and size, and two totals that every action but
 * `setCart` recomputes from the lines. Prices are integer cents.
 */
module CartSlice {
  import opened Common
  import opened Seqs

  datatype CartLine = CartLine(
    id: string,
    size: string,
    name: string,
    price: int,
    image: string,
    quantity: int,
    maxStock: int)

  /** The `addToCart` payload; `quantity` and `maxStock` may be absent. */
  datatype NewItem = NewItem(
    id: string,
    size: string,
    name: string,
    price: int,
    image: string,
    quantity: Option<int>,
    maxStock: Option<int>)

  datatype CartPayload = CartPayload(items: Option<seq<CartLine>>, totalQuantity: Option<int>, totalAmount: Option<int>)

  const DefaultMaxStock: int := 99

  /** `items.reduce((total, item) => total + item.quantity, 0)`. */
  function SumQuantity(items: seq<CartLine>): (total: int)
    ensures (forall i :: 0 <= i < |items| ==> items[i].quantity >= 1) ==> total >= |items|
    decreases |items|
  {
    if items == [] then 0 else items[0].quantity + SumQuantity(items[1..])
  }

  /** `items.reduce((total, item) => total + item.price * item.quantity, 0)`. */
  function SumAmount(items: seq<CartLine>): (total: int)
    ensures (forall i :: 0 <= i < |items| ==> items[i].price >= 0 && items[i].quantity >= 0) ==> total >= 0
    decreases |items|
  {
    if items == [] then 0 else items[0].price * items[0].quantity + SumAmount(items[1..])
  }

  /** The first line with both this id and this size. */
  function FindLine(items: seq<CartLine>, id: string, size: string): (r: Option<nat>)
    ensures r.Some? ==> r.value < |items| && items[r.value].id == id && items[r.value].size == size
    ensures r.Some? ==> forall j :: 0 <= j < r.value ==> !(items[j].id == id && items[j].size == size)
    ensures r.None? ==> forall j :: 0 <= j < |items| ==> !(items[j].id == id && items[j].size == size)
  {
    FindFirst((l: CartLine) => l.id == id && l.size == size, items)
  }

  /** The first line with this id, whatever its size. */
  function FindById(items: seq<CartLine>, id: string): (r: Option<nat>)
    ensures r.Some? ==> r.value < |items| && items[r.value].id == id
    ensures r.Some? ==> forall j :: 0 <= j < r.value ==> items[j].id != id
    ensures r.None? ==> forall j :: 0 <= j < |items| ==> items[j].id != id
  {
    FindFirst((l: CartLine) => l.id == id, items)
  }

  function Requested(n: NewItem): (q: int) { OrDefault(n.quantity, 1) }

  function MaxStockOf(n: NewItem): (limit: int) { OrDefault(n.maxStock, DefaultMaxStock) }

  /** The lines after `addToCart`. */
  function AddLine(items: seq<CartLine>, n: NewItem): (r: seq<CartLine>)
    ensures FindLine(items, n.id, n.size).Some? ==>
              var k := FindLine(items, n.id, n.size).value;
              |r| == |items| &&
              r[k] == items[k].(quantity := Min(items[k].quantity + Requested(n), MaxStockOf(n))) &&
              forall j :: 0 <= j < |items| && j != k ==> r[j] == items[j]
    ensures FindLine(items, n.id, n.size).None? ==>
              r == items + [CartLine(n.id, n.size, n.name, n.price, n.image, Min(Requested(n), MaxStockOf(n)), MaxStockOf(n))]
  {
    var maxStock := MaxStockOf(n);
    match FindLine(items, n.id, n.size)
    case Some(k) =>
      var totalAfterAdd := items[k].quantity + Requested(n);
      items[k := items[k].(quantity := if totalAfterAdd <= maxStock then totalAfterAdd else maxStock)]
    case None =>
      items + [CartLine(n.id, n.size, n.name, n.price, n.image, Min(Requested(n), maxStock), maxStock)]
  }

  /** The lines after `removeFromCart`: every line with this id goes, whatever its size. */
  function RemoveLines(items: seq<CartLine>, id: string): (r: seq<CartLine>)
    ensures forall l :: l in r <==> l in items && l.id != id
  {
    Filter((l: CartLine) => l.id != id, items)
  }

  /** Removal works line by line: the kept lines stay in their order, repeats included. */
  lemma RemoveLinesConcat(a: seq<CartLine>, b: seq<CartLine>, id: string)
    ensures RemoveLines(a + b, id) == RemoveLines(a, id) + RemoveLines(b, id)
  {
    FilterConcat((l: CartLine) => l.id != id, a, b);
  }

  /** A single line is kept exactly when its id differs. */
  lemma RemoveLinesSingle(l: CartLine, id: string)
    ensures RemoveLines([l], id) == if l.id != id then [l] else []
  {
  }

  /** A cart with no line of this id is returned unchanged. */
  lemma {:induction false} RemoveAbsentIdKeepsCart(items: seq<CartLine>, id: string)
    requires forall i :: 0 <= i < |items| ==> items[i].id != id
    ensures RemoveLines(items, id) == items
    decreases |items|
  {
    if items != [] {
      RemoveAbsentIdKeepsCart(items[1..], id);
      assert items == [items[0]] + items[1..];
      RemoveLinesConcat([items[0]], items[1..], id);
      RemoveLinesSingle(items[0], id);
    }
  }

  /** The stored line's `maxStock || 99`. */
  function LimitOf(l: CartLine): (limit: int)
    ensures limit != 0
    ensures l.maxStock != 0 ==> limit == l.maxStock
    ensures l.maxStock == 0 ==> limit == DefaultMaxStock
  {
    if l.maxStock != 0 then l.maxStock else DefaultMaxStock
  }

  /** `quantity > limit ? limit : Math.max(1, quantity)`. */
  function Clamp(quantity: int, limit: int): (q: int)
    ensures 1 <= limit ==> 1 <= q <= limit
    ensures 1 <= quantity <= limit ==> q == quantity
    ensures quantity > limit ==> q == limit
    ensures quantity <= limit ==> q == Max(1, quantity)
  {
    if quantity > limit then limit else Max(1, quantity)
  }

  /** The lines after `updateQuantity`: only the first line with this id changes. */
  function UpdateLine(items: seq<CartLine>, id: string, quantity: int): (r: seq<CartLine>)
    ensures |r| == |items|
    ensures FindById(items, id).None? ==> r == items
    ensures FindById(items, id).Some? ==>
              var k := FindById(items, id).value;
              r[k] == items[k].(quantity := Clamp(quantity, LimitOf(items[k]))) &&
              forall j :: 0 <= j < |items| && j != k ==> r[j] == items[j]
  {
    match FindById(items, id)
    case Some(k) => items[k := items[k].(quantity := Clamp(quantity, LimitOf(items[k])))]
    case None => items
  }

  lemma {:induction false} SumsConcat(a: seq<CartLine>, b: seq<CartLine>)
    ensures SumQuantity(a + b) == SumQuantity(a) + SumQuantity(b)
    ensures SumAmount(a + b) == SumAmount(a) + SumAmount(b)
    decreases |a|
  {
    if a == [] {
      assert a + b == b;
    } else {
      assert (a + b)[1..] == a[1..] + b;
      SumsConcat(a[1..], b);
    }
  }

  lemma {:induction false} SumsUpdate(items: seq<CartLine>, k: nat, q: int)
    requires k < |items|
    ensures SumQuantity(items[k := items[k].(quantity := q)]) == SumQuantity(items) - items[k].quantity + q
    ensures SumAmount(items[k := items[k].(quantity := q)]) ==
            SumAmount(items) - items[k].price * items[k].quantity + items[k].price * q
    decreases |items|
  {
    if k > 0 {
      assert items[k := items[k].(quantity := q)][1..] == items[1..][k - 1 := items[k].(quantity := q)];
      SumsUpdate(items[1..], k - 1, q);
    }
  }

  /** Adding to the cart raises both totals by exactly what the merged or new line gained. */
  lemma AddLineTotals(items: seq<CartLine>, n: NewItem)
    ensures FindLine(items, n.id, n.size).Some? ==>
              var k := FindLine(items, n.id, n.size).value;
              SumQuantity(AddLine(items, n)) ==
              SumQuantity(items) - items[k].quantity + Min(items[k].quantity + Requested(n), MaxStockOf(n)) &&
              SumAmount(AddLine(items, n)) ==
              SumAmount(items) - items[k].price * items[k].quantity +
              items[k].price * Min(items[k].quantity + Requested(n), MaxStockOf(n))
    ensures FindLine(items, n.id, n.size).None? ==>
              SumQuantity(AddLine(items, n)) == SumQuantity(items) + Min(Requested(n), MaxStockOf(n)) &&
              SumAmount(AddLine(items, n)) == SumAmount(items) + n.price * Min(Requested(n), MaxStockOf(n))
  {
    match FindLine(items, n.id, n.size)
    case Some(k) =>
      var m := Min(items[k].quantity + Requested(n), MaxStockOf(n));
      assert AddLine(items, n) == items[k := items[k].(quantity := m)];
      SumsUpdate(items, k, m);
    case None =>
      var line := CartLine(n.id, n.size, n.name, n.price, n.image, Min(Requested(n), MaxStockOf(n)), MaxStockOf(n));
      SumsConcat(items, [line]);
      assert [line][1..] == [];
  }

  predicate KeysUnique(items: seq<CartLine>) {
    forall i, j :: 0 <= i < j < |items| ==> !(items[i].id == items[j].id && items[i].size == items[j].size)
  }

  /** Adding never creates a second line for the same id and size. */
  lemma AddLineKeepsKeysUnique(items: seq<CartLine>, n: NewItem)
    requires KeysUnique(items)
    ensures KeysUnique(AddLine(items, n))
  {
    var r := AddLine(items, n);
    if FindLine(items, n.id, n.size).None? {
      forall i, j | 0 <= i < j < |r| ensures !(r[i].id == r[j].id && r[i].size == r[j].size) {
        if j < |items| { assert r[i] == items[i] && r[j] == items[j]; } else { assert r[i] == items[i]; }
      }
    }
  }

  /** Removing by id lowers each total by exactly the removed lines' share. */
  lemma {:induction false} RemoveLinesTotals(items: seq<CartLine>, id: string)
    ensures SumQuantity(RemoveLines(items, id)) == SumQuantity(items) - SumQuantity(Filter((l: CartLine) => l.id == id, items))
    ensures SumAmount(RemoveLines(items, id)) == SumAmount(items) - SumAmount(Filter((l: CartLine) => l.id == id, items))
    decreases |items|
  {
    if items != [] {
      RemoveLinesTotals(items[1..], id);
      var keep := (l: CartLine) => l.id != id;
      var drop := (l: CartLine) => l.id == id;
      assert Filter(keep, items) == (if keep(items[0]) then [items[0]] else []) + Filter(keep, items[1..]);
      assert Filter(drop, items) == (if drop(items[0]) then [items[0]] else []) + Filter(drop, items[1..]);
      SumsConcat(if keep(items[0]) then [items[0]] else [], Filter(keep, items[1..]));
      SumsConcat(if drop(items[0]) then [items[0]] else [], Filter(drop, items[1..]));
      assert [items[0]][1..] == [];
    }
  }

  /** `setCart` trusts the payload's totals: a payload whose totals do not match its lines is kept as sent. */
  lemma SetCartTotalsUntrusted()
    ensures var line := CartLine("p", "M", "Tee", 2000, "", 1, 99);
            var payload := CartPayload(Some([line]), Some(5), None);
            OrDefault(payload.totalQuantity, 0) != SumQuantity(payload.items.GetOr([])) &&
            OrDefault(payload.totalAmount, 0) != SumAmount(payload.items.GetOr([]))
  {
    var line := CartLine("p", "M", "Tee", 2000, "", 1, 99);
    assert [line][1..] == [];
  }

  class Cart {
    var items: seq<CartLine>
    var totalQuantity: int
    var totalAmount: int

    ghost predicate TotalsConsistent()
      reads this
    {
      totalQuantity == SumQuantity(items) && totalAmount == SumAmount(items)
    }

    constructor ()
      ensures items == [] && totalQuantity == 0 && totalAmount == 0
      ensures TotalsConsistent()
    {
      items := [];
      totalQuantity := 0;
      totalAmount := 0;
    }

    method RecalculateTotals()
      modifies this
      ensures items == old(items) && TotalsConsistent()
    {
      totalQuantity := SumQuantity(items);
      totalAmount := SumAmount(items);
    }

    method AddToCart(newItem: NewItem)
      modifies this
      ensures items == AddLine(old(items), newItem)
      ensures TotalsConsistent()
    {
      var maxStock := MaxStockOf(newItem);
      var existing := FindLine(items, newItem.id, newItem.size);
      if existing.Some? {
        var k := existing.value;
        var totalAfterAdd := items[k].quantity + Requested(newItem);
        if totalAfterAdd <= maxStock {
          items := items[k := items[k].(quantity := items[k].quantity + Requested(newItem))];
        } else {
          items := items[k := items[k].(quantity := maxStock)];
        }
      } else {
        items := items + [CartLine(newItem.id, newItem.size, newItem.name, newItem.price, newItem.image,
                                   Min(Requested(newItem), maxStock), maxStock)];
      }
      RecalculateTotals();
    }

    method RemoveFromCart(id: string)
      modifies this
      ensures items == RemoveLines(old(items), id)
      ensures TotalsConsistent()
    {
      items := Filter((l: CartLine) => l.id != id, items);
      RecalculateTotals();
    }

    method UpdateQuantity(id: string, quantity: int)
      modifies this
      ensures items == UpdateLine(old(items), id, quantity)
      ensures TotalsConsistent()
    {
      var found := FindById(items, id);
      if found.Some? {
        var k := found.value;
        var limit := LimitOf(items[k]);
        if quantity > limit {
          items := items[k := items[k].(quantity := limit)];
        } else {
          items := items[k := items[k].(quantity := Max(1, quantity))];
        }
      }
      RecalculateTotals();
    }

    method ClearCart()
      modifies this
      ensures items == [] && totalQuantity == 0 && totalAmount == 0
      ensures TotalsConsistent()
    {
      items := [];
      totalQuantity := 0;
      totalAmount := 0;
    }

    /** Copies the payload as is; the totals are not recomputed. */
    method SetCart(payload: CartPayload)
      modifies this
      ensures items == payload.items.GetOr([])
      ensures totalQuantity == OrDefault(payload.totalQuantity, 0)
      ensures totalAmount == OrDefault(payload.totalAmount, 0)
    {
      items := payload.items.GetOr([]);
      totalQuantity := OrDefault(payload.totalQuantity, 0);
      totalAmount := OrDefault(payload.totalAmount, 0);
    }
  }
}
