/**
 * Order placement and delivery (backend/routes/orderRoutes.js).
 *
 * POST /api/orders runs two passes over the requested lines. The first
 * checks every line against the catalogue and rejects the whole request on
 * the first failing line; the second re-reads each line's product, lowers the
 * matching size row (or the legacy stock counter) and saves the product. The
 * order is then stored as paid. Nothing is rolled back and nothing is
 * recomputed: the client's `totalPrice` is stored as sent, and two lines for
 * the same product and size are each checked against the stock held before
 * the order but are both subtracted.
 */
module OrderRoutes {
  import opened Common
  import opened Catalog
  import opened OrderModel
  import opened Store

  datatype OrderRequest = OrderRequest(
    orderItems: Option<seq<OrderItem>>,
    shippingAddress: ShippingAddress,
    paymentMethod: Option<string>,
    totalPrice: Option<int>)

  datatype OrderError =
    | NoOrderItems                                  // the explicit early return
    | ItemsNotIterable                              // `for…of` over an absent `orderItems` throws
    | ProductNotFound(name: string)
    | InvalidSize(size: string, name: string)
    | InsufficientSizeStock(name: string, size: string)
    | InsufficientStock(name: string)
    | OrderValidationFailed                         // `order.save()` rejects a missing `paymentMethod`

  /** The response body's message, where the route writes it itself. */
  function Message(e: OrderError): (m: Option<string>)
    ensures m.None? <==> e.ItemsNotIterable? || e.OrderValidationFailed?
  {
    match e
    case NoOrderItems => Some("No order items")
    case ProductNotFound(name) => Some("Product not found: " + name)
    case InvalidSize(size, name) => Some("Size " + size + " is invalid for " + name)
    case InsufficientSizeStock(name, size) => Some("Insufficient stock for " + name + " (Size: " + size + ")")
    case InsufficientStock(name) => Some("Insufficient stock for " + name)
    case ItemsNotIterable => None
    case OrderValidationFailed => None
  }

  /** Every failure, whether returned early or thrown and caught, answers 400. */
  function Status(r: Result<Order, OrderError>): (code: int)
    ensures r.Ok? <==> code == 201
    ensures r.Err? <==> code == 400
  {
    if r.Ok? then 201 else 400
  }

  // ---------------------------------------------------------------------
  // Pass 1: validation, as a function of the catalogue before the order.
  // ---------------------------------------------------------------------

  /** The check the first loop makes for one line. */
  function CheckItem(products: map<ObjectId, Product>, item: OrderItem): (e: Option<OrderError>)
    ensures e == Some(ProductNotFound(item.name)) <==> item.product !in products
    ensures e.Some? ==>
              e.value == ProductNotFound(item.name) || e.value == InvalidSize(item.size, item.name) ||
              e.value == InsufficientSizeStock(item.name, item.size) || e.value == InsufficientStock(item.name)
    ensures e.Some? && (e.value.InvalidSize? || e.value.InsufficientSizeStock?) ==>
              item.product in products && !IsLegacy(products[item.product])
    ensures e.Some? && e.value.InsufficientStock? ==> item.product in products && IsLegacy(products[item.product])
  {
    if item.product !in products then Some(ProductNotFound(item.name))
    else
      var p := products[item.product];
      if |p.inventory| > 0 then
        match FindEntry(p.inventory, item.size)
        case None => Some(InvalidSize(item.size, item.name))
        case Some(k) =>
          if p.inventory[k].quantity < item.quantity then Some(InsufficientSizeStock(item.name, item.size))
          else None
      else if p.stock < item.quantity then Some(InsufficientStock(item.name))
      else None
  }

  /** The error of the first failing line, if any. */
  function Validate(products: map<ObjectId, Product>, items: seq<OrderItem>): (e: Option<OrderError>)
    ensures e.Some? ==> exists j :: 0 <= j < |items| && CheckItem(products, items[j]) == e
    decreases |items|
  {
    if items == [] then None
    else match CheckItem(products, items[0])
      case Some(e) => Some(e)
      case None =>
        var rest := Validate(products, items[1..]);
        assert rest.Some? ==> exists j :: 1 <= j < |items| && CheckItem(products, items[j]) == rest by {
          if rest.Some? {
            var j :| 0 <= j < |items[1..]| && CheckItem(products, items[1..][j]) == rest;
            assert items[1..][j] == items[j + 1];
          }
        }
        rest
  }

  /**
   * A line passes exactly when its product exists and the line asks for no
   * more than the matching size row holds (or, for a legacy product, than
   * its stock counter holds); a sized product without a matching row fails.
   */
  lemma CheckItemPasses(products: map<ObjectId, Product>, item: OrderItem)
    ensures CheckItem(products, item).None? <==>
      item.product in products &&
      (var p := products[item.product];
       if |p.inventory| > 0 then
         FindEntry(p.inventory, item.size).Some? &&
         item.quantity <= p.inventory[FindEntry(p.inventory, item.size).value].quantity
       else
         item.quantity <= p.stock)
    ensures item.product in products && |products[item.product].inventory| > 0 &&
            FindEntry(products[item.product].inventory, item.size).None? ==>
            CheckItem(products, item) == Some(InvalidSize(item.size, item.name))
    ensures item.product !in products ==> CheckItem(products, item) == Some(ProductNotFound(item.name))
  {
  }

  /** A request validates exactly when every one of its lines passes. */
  lemma {:induction false} ValidatePasses(products: map<ObjectId, Product>, items: seq<OrderItem>)
    ensures Validate(products, items).None? <==> forall j :: 0 <= j < |items| ==> CheckItem(products, items[j]).None?
    decreases |items|
  {
    if items != [] {
      ValidatePasses(products, items[1..]);
      assert forall j :: 1 <= j < |items| ==> items[j] == items[1..][j - 1];
    }
  }

  /** The reported error is that of the first failing line. */
  lemma {:induction false} ValidateFailsAt(products: map<ObjectId, Product>, items: seq<OrderItem>, i: nat)
    requires i < |items|
    requires forall j :: 0 <= j < i ==> CheckItem(products, items[j]).None?
    requires CheckItem(products, items[i]).Some?
    ensures Validate(products, items) == CheckItem(products, items[i])
    decreases i
  {
    if i > 0 {
      assert forall j :: 0 <= j < i - 1 ==> items[1..][j] == items[j + 1];
      ValidateFailsAt(products, items[1..], i - 1);
    }
  }

  // ---------------------------------------------------------------------
  // Pass 2: the decrements, as a left fold over the lines.
  // ---------------------------------------------------------------------

  /** What the second loop does to one product before saving it. */
  function DecrementLine(p: Product, item: OrderItem): (q: Product)
    ensures q.(inventory := p.inventory, stock := p.stock) == p
    ensures |q.inventory| == |p.inventory| && forall i :: 0 <= i < |p.inventory| ==> q.inventory[i].size == p.inventory[i].size
    ensures IsLegacy(p) ==> q.stock == p.stock - item.quantity
    ensures !IsLegacy(p) ==> q.stock == p.stock
    ensures !IsLegacy(p) ==>
              forall i :: 0 <= i < |p.inventory| ==>
                q.inventory[i].quantity == p.inventory[i].quantity - (if FindEntry(p.inventory, item.size) == Some(i) then item.quantity else 0)
  {
    if |p.inventory| > 0 then
      match FindEntry(p.inventory, item.size)
      case Some(k) =>
        p.(inventory := p.inventory[k := p.inventory[k].(quantity := p.inventory[k].quantity - item.quantity)])
      case None => p
    else
      p.(stock := p.stock - item.quantity)
  }

  /** One iteration of the second loop: re-read, decrement, save. */
  function ApplyLine(products: map<ObjectId, Product>, item: OrderItem): (r: map<ObjectId, Product>)
    ensures r.Keys == products.Keys
    ensures forall pid :: pid in products && pid != item.product ==> r[pid] == products[pid]
  {
    if item.product in products then products[item.product := Save(DecrementLine(products[item.product], item))]
    else products
  }

  /** The catalogue after the second loop has handled `items` in order. */
  function ApplyAll(products: map<ObjectId, Product>, items: seq<OrderItem>): (r: map<ObjectId, Product>)
    ensures r.Keys == products.Keys
    decreases |items|
  {
    if items == [] then products
    else ApplyLine(ApplyAll(products, items[..|items| - 1]), items[|items| - 1])
  }

  /** The order document the route creates. */
  function NewOrder(user: ObjectId, items: seq<OrderItem>, req: OrderRequest, now: nat): (o: Order)
    ensures o.isPaid && o.paidAt == Some(now) && !o.isDelivered && o.deliveredAt.None?
    ensures o.user == user && o.orderItems == ToLines(items)
    ensures o.shippingAddress == req.shippingAddress
    ensures req.paymentMethod.Some? ==> o.paymentMethod == req.paymentMethod.value
    ensures o.totalPrice == req.totalPrice.GetOr(0)
  {
    Order(user, ToLines(items), req.shippingAddress, req.paymentMethod.GetOr(""),
          req.totalPrice.GetOr(0), true, Some(now), false, None)
  }

  /** The first loop: the error of the first failing line, or none. */
  method ValidateItems(db: Database, items: seq<OrderItem>) returns (e: Option<OrderError>)
    ensures e == Validate(db.products, items)
  {
    var i := 0;
    while i < |items|
      invariant 0 <= i <= |items|
      invariant forall j :: 0 <= j < i ==> CheckItem(db.products, items[j]).None?
    {
      var item := items[i];
      if item.product !in db.products {
        ValidateFailsAt(db.products, items, i);
        return Some(ProductNotFound(item.name));
      }
      var product := db.products[item.product];
      var sizeItem := FindEntry(product.inventory, item.size);
      if |product.inventory| > 0 {
        if sizeItem.None? {
          ValidateFailsAt(db.products, items, i);
          return Some(InvalidSize(item.size, item.name));
        }
        if product.inventory[sizeItem.value].quantity < item.quantity {
          ValidateFailsAt(db.products, items, i);
          return Some(InsufficientSizeStock(item.name, item.size));
        }
      } else {
        if product.stock < item.quantity {
          ValidateFailsAt(db.products, items, i);
          return Some(InsufficientStock(item.name));
        }
      }
      i := i + 1;
    }
    ValidatePasses(db.products, items);
    e := None;
  }

  /** The second loop: re-read each line's product, lower its row, save it. */
  method DecrementItems(db: Database, items: seq<OrderItem>)
    modifies db
    ensures db.products == ApplyAll(old(db.products), items)
    ensures db.orders == old(db.orders)
  {
    var i := 0;
    while i < |items|
      invariant 0 <= i <= |items|
      invariant db.products == ApplyAll(old(db.products), items[..i])
      invariant db.orders == old(db.orders)
    {
      var item := items[i];
      if item.product in db.products {
        var product := db.products[item.product];
        if |product.inventory| > 0 {
          var sizeIndex := FindEntry(product.inventory, item.size);
          if sizeIndex.Some? {
            var k := sizeIndex.value;
            product := product.(inventory := product.inventory[k := product.inventory[k].(quantity := product.inventory[k].quantity - item.quantity)]);
          }
        } else {
          product := product.(stock := product.stock - item.quantity);
        }
        assert product == DecrementLine(db.products[item.product], item);
        db.SaveProduct(item.product, product);
      }
      assert items[..i + 1][..i] == items[..i];
      i := i + 1;
    }
    assert items[..|items|] == items;
  }

  /**
   * POST /api/orders for the authenticated user `user`, at time `now`; the store
   * gives the new order the unused id `newId`.
   */
  method PlaceOrder(db: Database, user: ObjectId, req: OrderRequest, now: nat, newId: ObjectId)
      returns (r: Result<Order, OrderError>)
    requires newId !in db.orders
    modifies db
    ensures req.orderItems == Some([]) ==> r == Err(NoOrderItems)
    ensures req.orderItems.None? ==> r == Err(ItemsNotIterable)
    ensures req.orderItems.None? || req.orderItems == Some([]) ==>
              db.products == old(db.products) && db.orders == old(db.orders)
    ensures req.orderItems.Some? && req.orderItems.value != [] && Validate(old(db.products), req.orderItems.value).Some? ==>
              r == Err(Validate(old(db.products), req.orderItems.value).value) &&
              db.products == old(db.products) && db.orders == old(db.orders)
    ensures req.orderItems.Some? && req.orderItems.value != [] && Validate(old(db.products), req.orderItems.value).None? ==>
              db.products == ApplyAll(old(db.products), req.orderItems.value) &&
              if HasPaymentMethod(req.paymentMethod) then
                r == Ok(NewOrder(user, req.orderItems.value, req, now)) && db.orders == old(db.orders)[newId := r.value]
              else
                r == Err(OrderValidationFailed) && db.orders == old(db.orders)
  {
    if req.orderItems.Some? && |req.orderItems.value| == 0 {
      return Err(NoOrderItems);
    }
    if req.orderItems.None? {
      return Err(ItemsNotIterable);
    }
    var items := req.orderItems.value;
    var failure := ValidateItems(db, items);
    if failure.Some? {
      return Err(failure.value);
    }
    DecrementItems(db, items);
    if !HasPaymentMethod(req.paymentMethod) {
      return Err(OrderValidationFailed);
    }
    var order := NewOrder(user, items, req, now);
    db.orders := db.orders[newId := order];
    r := Ok(order);
  }

  // ---------------------------------------------------------------------
  // Bookkeeping of the second loop.
  // ---------------------------------------------------------------------

  /** The total quantity the lines ask of size `size` of product `pid`. */
  function Demand(items: seq<OrderItem>, pid: ObjectId, size: string): (total: int)
    decreases |items|
  {
    if items == [] then 0
    else
      var last := items[|items| - 1];
      Demand(items[..|items| - 1], pid, size) + (if last.product == pid && last.size == size then last.quantity else 0)
  }

  /** The total quantity the lines ask of product `pid`, whatever the size. */
  function LegacyDemand(items: seq<OrderItem>, pid: ObjectId): (total: int)
    decreases |items|
  {
    if items == [] then 0
    else
      var last := items[|items| - 1];
      LegacyDemand(items[..|items| - 1], pid) + (if last.product == pid then last.quantity else 0)
  }

  /** How many lines ask for size `size` of product `pid`. */
  function LineCount(items: seq<OrderItem>, pid: ObjectId, size: string): (count: nat)
    decreases |items|
  {
    if items == [] then 0
    else
      var last := items[|items| - 1];
      LineCount(items[..|items| - 1], pid, size) + (if last.product == pid && last.size == size then 1 else 0)
  }

  predicate Touches(items: seq<OrderItem>, pid: ObjectId) {
    exists j :: 0 <= j < |items| && items[j].product == pid
  }

  /** Same document apart from stock, sizes and inventory quantities. */
  predicate SameShape(p: Product, q: Product) {
    && |q.inventory| == |p.inventory|
    && (forall i :: 0 <= i < |p.inventory| ==> q.inventory[i].size == p.inventory[i].size)
    && q.(stock := p.stock, sizes := p.sizes, inventory := p.inventory) == p
  }

  lemma FindEntrySameSizes(a: seq<InventoryEntry>, b: seq<InventoryEntry>, size: string)
    requires |a| == |b|
    requires forall i :: 0 <= i < |a| ==> a[i].size == b[i].size
    ensures FindEntry(a, size) == FindEntry(b, size)
  {
  }

  /** The second loop never adds or removes a product, a size row or any other field. */
  lemma {:induction false} ApplyAllShape(products: map<ObjectId, Product>, items: seq<OrderItem>, pid: ObjectId)
    requires pid in products
    ensures pid in ApplyAll(products, items)
    ensures SameShape(products[pid], ApplyAll(products, items)[pid])
    decreases |items|
  {
    if items != [] {
      ApplyAllShape(products, items[..|items| - 1], pid);
    }
  }

  /** A product no line names is left exactly as it was. */
  lemma {:induction false} UntouchedProductUnchanged(products: map<ObjectId, Product>, items: seq<OrderItem>, pid: ObjectId)
    requires pid in products
    requires !Touches(items, pid)
    ensures pid in ApplyAll(products, items) && ApplyAll(products, items)[pid] == products[pid]
    decreases |items|
  {
    if items != [] {
      var init := items[..|items| - 1];
      assert !Touches(init, pid) by {
        forall j | 0 <= j < |init| ensures init[j].product != pid {
          assert init[j] == items[j];
        }
      }
      UntouchedProductUnchanged(products, init, pid);
    }
  }

  /** One line's effect on one size row of a sized product. */
  lemma DecrementRow(p: Product, item: OrderItem, k: nat)
    requires |p.inventory| > 0 && k < |p.inventory|
    ensures var inv' := Save(DecrementLine(p, item)).inventory;
            |inv'| == |p.inventory| && inv'[k].size == p.inventory[k].size &&
            inv'[k].quantity == p.inventory[k].quantity - (if FindEntry(p.inventory, item.size) == Some(k) then item.quantity else 0)
  {
  }

  /**
   * Each size row of a sized product ends lowered by the total the lines ask
   * of that size, when it is the first row with its size (the one `findIndex`
   * finds); any later duplicate row is left alone.
   */
  lemma {:induction false} SizedRowAfterOrder(products: map<ObjectId, Product>, items: seq<OrderItem>, pid: ObjectId, k: nat)
    requires pid in products && |products[pid].inventory| > 0 && k < |products[pid].inventory|
    ensures pid in ApplyAll(products, items)
    ensures var inv := products[pid].inventory;
            var inv' := ApplyAll(products, items)[pid].inventory;
            |inv'| == |inv| && inv'[k].size == inv[k].size &&
            inv'[k].quantity == inv[k].quantity - (if FindEntry(inv, inv[k].size) == Some(k) then Demand(items, pid, inv[k].size) else 0)
    decreases |items|
  {
    if items != [] {
      var inv := products[pid].inventory;
      var init := items[..|items| - 1];
      var last := items[|items| - 1];
      SizedRowAfterOrder(products, init, pid, k);
      ApplyAllShape(products, init, pid);
      var mid := ApplyAll(products, init);
      assert ApplyAll(products, items) == ApplyLine(mid, last);
      assert Demand(items, pid, inv[k].size) ==
             Demand(init, pid, inv[k].size) + (if last.product == pid && last.size == inv[k].size then last.quantity else 0);
      if last.product == pid {
        FindEntrySameSizes(inv, mid[pid].inventory, last.size);
        DecrementRow(mid[pid], last, k);
        assert ApplyLine(mid, last)[pid] == Save(DecrementLine(mid[pid], last));
        if last.size == inv[k].size {
          assert FindEntry(inv, last.size) == FindEntry(inv, inv[k].size);
        } else {
          assert FindEntry(inv, last.size) != Some(k);
        }
      } else {
        assert ApplyLine(mid, last)[pid] == mid[pid];
      }
    }
  }

  /** A legacy product's counter ends lowered by everything the lines ask of it. */
  lemma {:induction false} LegacyStockAfterOrder(products: map<ObjectId, Product>, items: seq<OrderItem>, pid: ObjectId)
    requires pid in products && |products[pid].inventory| == 0
    ensures pid in ApplyAll(products, items)
    ensures ApplyAll(products, items)[pid].stock == products[pid].stock - LegacyDemand(items, pid)
    ensures ApplyAll(products, items)[pid].sizes == products[pid].sizes
    decreases |items|
  {
    if items != [] {
      LegacyStockAfterOrder(products, items[..|items| - 1], pid);
      ApplyAllShape(products, items[..|items| - 1], pid);
    }
  }

  /**
   * A sized product that some line names ends with its stock and sizes
   * re-derived from its new inventory by the save hook.
   */
  lemma {:induction false} SizedStockAfterOrder(products: map<ObjectId, Product>, items: seq<OrderItem>, pid: ObjectId)
    requires pid in products && |products[pid].inventory| > 0
    requires Touches(items, pid)
    ensures pid in ApplyAll(products, items)
    ensures var p' := ApplyAll(products, items)[pid];
            p'.stock == SumQuantities(p'.inventory) && p'.sizes == InStockSizes(p'.inventory)
    decreases |items|
  {
    var init := items[..|items| - 1];
    var last := items[|items| - 1];
    ApplyAllShape(products, init, pid);
    if last.product != pid {
      var j :| 0 <= j < |items| && items[j].product == pid;
      assert j < |init| && init[j] == items[j];
      SizedStockAfterOrder(products, init, pid);
    }
  }

  lemma {:induction false} DemandOfSingleLine(items: seq<OrderItem>, pid: ObjectId, size: string)
    requires LineCount(items, pid, size) == 1
    ensures exists j :: 0 <= j < |items| && items[j].product == pid && items[j].size == size &&
                        Demand(items, pid, size) == items[j].quantity
    decreases |items|
  {
    var init := items[..|items| - 1];
    var last := items[|items| - 1];
    if last.product == pid && last.size == size {
      DemandNoLine(init, pid, size);
      assert items[|items| - 1] == last;
    } else {
      DemandOfSingleLine(init, pid, size);
      var j :| 0 <= j < |init| && init[j].product == pid && init[j].size == size && Demand(init, pid, size) == init[j].quantity;
      assert items[j] == init[j];
    }
  }

  lemma {:induction false} DemandNoLine(items: seq<OrderItem>, pid: ObjectId, size: string)
    requires LineCount(items, pid, size) == 0
    ensures Demand(items, pid, size) == 0
    decreases |items|
  {
    if items != [] {
      DemandNoLine(items[..|items| - 1], pid, size);
    }
  }

  /**
   * Without duplicate lines there is no oversell: a validated order in which
   * exactly one line asks for a given size row leaves that row non-negative.
   */
  lemma SingleLineCannotOversell(products: map<ObjectId, Product>, items: seq<OrderItem>, pid: ObjectId, k: nat)
    requires Validate(products, items).None?
    requires pid in products && |products[pid].inventory| > 0 && k < |products[pid].inventory|
    requires FindEntry(products[pid].inventory, products[pid].inventory[k].size) == Some(k)
    requires LineCount(items, pid, products[pid].inventory[k].size) == 1
    ensures pid in ApplyAll(products, items)
    ensures |ApplyAll(products, items)[pid].inventory| > k
    ensures ApplyAll(products, items)[pid].inventory[k].quantity >= 0
  {
    var size := products[pid].inventory[k].size;
    SizedRowAfterOrder(products, items, pid, k);
    DemandOfSingleLine(items, pid, size);
    var j :| 0 <= j < |items| && items[j].product == pid && items[j].size == size && Demand(items, pid, size) == items[j].quantity;
    ValidatePasses(products, items);
    assert CheckItem(products, items[j]).None?;
  }

  /**
   * Two lines for the same size each pass the check against the stock held
   * before the order, and both are subtracted: a row of 2 ends at -2.
   */
  lemma DuplicateLinesOversell()
    ensures var p := Product("p", "Tee", "tee", "A tee", 2000, None, 2, [InventoryEntry("S", 2)], None, [], ["S"],
                             false, false, false, false, 0);
            var products := map["p" := p];
            var line := OrderItem("p", "Tee", "S", 2, 2000, "");
            var items := [line, line];
            Validate(products, items).None? &&
            "p" in ApplyAll(products, items) &&
            |ApplyAll(products, items)["p"].inventory| == 1 &&
            ApplyAll(products, items)["p"].inventory[0].quantity == -2 &&
            ApplyAll(products, items)["p"].stock == -2
  {
    var p := Product("p", "Tee", "tee", "A tee", 2000, None, 2, [InventoryEntry("S", 2)], None, [], ["S"],
                     false, false, false, false, 0);
    var products := map["p" := p];
    var line := OrderItem("p", "Tee", "S", 2, 2000, "");
    var items := [line, line];
    assert items[..1] == [line] && items[..1][..0] == [];
    ValidatePasses(products, items);
    assert Demand(items[..1], "p", "S") == 2;
    assert Demand(items, "p", "S") == 4;
    assert FindEntry(p.inventory, "S") == Some(0);
    SizedRowAfterOrder(products, items, "p", 0);
    assert Touches(items, "p") by { assert items[0].product == "p"; }
    SizedStockAfterOrder(products, items, "p");
    var inv' := ApplyAll(products, items)["p"].inventory;
    assert inv'[1..] == [];
  }

  // ---------------------------------------------------------------------
  // PUT /api/orders/:id/deliver
  // ---------------------------------------------------------------------

  datatype DeliverError = OrderNotFound

  function Delivered(o: Order, now: nat): (d: Order)
    ensures d.isDelivered && d.deliveredAt == Some(now)
    ensures d.(isDelivered := o.isDelivered, deliveredAt := o.deliveredAt) == o
  {
    o.(isDelivered := true, deliveredAt := Some(now))
  }

  method MarkDelivered(db: Database, id: ObjectId, now: nat) returns (r: Result<Order, DeliverError>)
    modifies db
    ensures id in old(db.orders) ==>
              r == Ok(Delivered(old(db.orders)[id], now)) && db.orders == old(db.orders)[id := r.value]
    ensures id !in old(db.orders) ==> r == Err(OrderNotFound) && db.orders == old(db.orders)
    ensures db.products == old(db.products)
  {
    if id in db.orders {
      var order := db.orders[id];
      order := order.(isDelivered := true, deliveredAt := Some(now));
      db.orders := db.orders[id := order];
      r := Ok(order);
    } else {
      r := Err(OrderNotFound);
    }
  }

  /** 200 with the order, or 404. */
  function DeliverStatus(r: Result<Order, DeliverError>): (code: int)
    ensures r.Ok? <==> code == 200
    ensures r.Err? <==> code == 404
  {
    if r.Ok? then 200 else 404
  }

  /** Delivering again overwrites the delivery time; the flag stays set. */
  lemma DeliverOverwritesTimestamp(o: Order, t1: nat, t2: nat)
    ensures Delivered(Delivered(o, t1), t2) == Delivered(o, t2)
    ensures t1 != t2 ==> Delivered(Delivered(o, t1), t2).deliveredAt != Delivered(o, t1).deliveredAt
  {
  }
}
