/**
 * The two collections the routes work on, as maps from document id to
 * document. `findById` is a map lookup and `save` a map update.
 */
module Store {
  import opened Catalog
  import opened OrderModel

  class Database {
    var products: map<ObjectId, Product>
    var orders: map<ObjectId, Order>

    constructor (products0: map<ObjectId, Product>, orders0: map<ObjectId, Order>)
      ensures products == products0 && orders == orders0
    {
      products := products0;
      orders := orders0;
    }

    /** `product.save()`: the pre-save hook runs, then the document is written. */
    method SaveProduct(id: ObjectId, p: Product)
      modifies this
      ensures products == old(products)[id := Save(p)]
      ensures orders == old(orders)
    {
      products := products[id := Save(p)];
    }
  }
}
