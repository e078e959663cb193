/**
 * The screen sale form: one unit of a screen is sold to a named customer at a selling price,
 * either saved for later (`complete`, into `Saved`) or completed at once (`handleSubmit`,
 * into `Complete` and `Receipt`). Both paths write the product record first, then the
 * orders, then mirror the product into the search index, and stop at the first failure
 * without undoing what was already written.
 */
module Sell {
  import opened Wrappers
  import opened Text
  import opened Amounts
  import opened Store
  import opened Forms
  import opened Customers

  // ---------------------------------------------------------------------------------------
  // What a sale writes
  // ---------------------------------------------------------------------------------------

  /** The order record of a screen sale: one unit at the selling price. */
  function SaleRecord(stock: Item, id: Key, price: Amount, customer: string, now: int): Order {
    Order(stock.product_name, price, Num(1.0), customer, Some(now), id)
  }

  /** The product update of a screen sale: one unit less, and the selling price as price. */
  function SalePatch(stock: Item, price: Amount, now: int): ItemPatch {
    ItemPatch(stock.product_name, Minus(stock.quantity, 1.0), Some(price), Some(now))
  }

  /** The index document of a screen sale: one unit less, at the price the stock had. */
  function SaleDoc(stock: Item): Doc {
    Doc(stock.product_name, Minus(stock.quantity, 1.0), Some(stock.price))
  }

  /** After a screen sale the product record carries the selling price while its search
      document keeps the stock price, and both carry the same quantity: one less than the
      stock had. */
  lemma SalePricesDiverge(stored: Item, prior: Option<Doc>, stock: Item, price: Amount, now: int)
    ensures Merge(stored, SalePatch(stock, price, now)).price == price
    ensures MergeDoc(prior, SaleDoc(stock)).price == Some(stock.price)
    ensures Merge(stored, SalePatch(stock, price, now)).quantity == MergeDoc(prior, SaleDoc(stock)).quantity
    ensures Merge(stored, SalePatch(stock, price, now)).quantity == Minus(stock.quantity, 1.0)
  {
  }

  /**
   * The store writes of a sale recorded into two order collections (`done` and `receipt`):
   * the product update, then two pushed keys, then the record under each of them, stopping
   * at the first write that fails.
   */
  function RecordSale(db: Db, c: ItemColl, id: Key, p: ItemPatch, rec: Order,
                      done: OrderColl, receipt: OrderColl,
                      okUpdate: bool, okDone: bool, okReceipt: bool): (d: Db)
    requires id in db.Items(c) && done != receipt
    ensures !okUpdate ==> d == db
    ensures okUpdate ==> d.Items(c) == db.Items(c)[id := Merge(db.Items(c)[id], p)] && d.nextKey == db.nextKey + 2
    ensures forall c' :: c' != c ==> d.Items(c') == db.Items(c')
    ensures d.Orders(done) == if okUpdate && okDone then db.Orders(done)[db.nextKey := rec] else db.Orders(done)
    ensures d.Orders(receipt) ==
      if okUpdate && okDone && okReceipt then db.Orders(receipt)[db.nextKey + 1 := rec] else db.Orders(receipt)
    ensures forall o :: o != done && o != receipt ==> d.Orders(o) == db.Orders(o)
    ensures db.Valid() ==> d.Valid()
  {
    if !okUpdate then db
    else
      var pushed := db.UpdateItem(c, id, p).Push().Push();
      if !okDone then pushed
      else
        var d1 := pushed.SetOrder(done, db.nextKey, rec);
        if okReceipt then d1.SetOrder(receipt, db.nextKey + 1, rec) else d1
  }

  /** Whenever both records are written, the two order collections gain the identical record,
      each under its own fresh key. */
  lemma RecordSaleTwins(db: Db, c: ItemColl, id: Key, p: ItemPatch, rec: Order, done: OrderColl, receipt: OrderColl)
    requires db.Valid() && id in db.Items(c) && done != receipt
    ensures var d := RecordSale(db, c, id, p, rec, done, receipt, true, true, true);
      && (d.Orders(done).Keys - db.Orders(done).Keys) == {db.nextKey}
      && (d.Orders(receipt).Keys - db.Orders(receipt).Keys) == {db.nextKey + 1}
      && d.Orders(done)[db.nextKey] == d.Orders(receipt)[db.nextKey + 1] == rec
  {
    db.NextKeyFresh();
    assert db.nextKey + 1 !in db.Orders(receipt);
    var d := RecordSale(db, c, id, p, rec, done, receipt, true, true, true);
    assert d.Orders(done) == db.Orders(done)[db.nextKey := rec];
    assert d.Orders(receipt) == db.Orders(receipt)[db.nextKey + 1 := rec];
  }

  /** The store writes of a sale recorded into two order collections, each awaited in turn;
      `stored` says that all of them succeeded. */
  method WriteSale(store: Database, c: ItemColl, id: Key, p: ItemPatch, rec: Order,
                   done: OrderColl, receipt: OrderColl,
                   okUpdate: bool, okDone: bool, okReceipt: bool) returns (stored: bool)
    requires store.db.Valid() && id in store.db.Items(c) && done != receipt
    modifies store
    ensures store.db.Valid()
    ensures store.db == RecordSale(old(store.db), c, id, p, rec, done, receipt, okUpdate, okDone, okReceipt)
    ensures stored == (okUpdate && okDone && okReceipt)
  {
    store.UpdateItem(c, id, p, okUpdate);
    if !okUpdate {
      return false;
    }
    var k1 := store.Push();
    var k2 := store.Push();
    store.SetOrder(done, k1, rec, okDone);
    if !okDone {
      return false;
    }
    store.SetOrder(receipt, k2, rec, okReceipt);
    return okReceipt;
  }

  /** The store writes of a saved sale: the product update, then one pushed key and the
      record under it in `Saved`. */
  function SaveSale(db: Db, id: Key, p: ItemPatch, rec: Order, okUpdate: bool, okSave: bool): (d: Db)
    requires id in db.Items(LCD)
    ensures !okUpdate ==> d == db
    ensures okUpdate ==> d.Items(LCD) == db.Items(LCD)[id := Merge(db.Items(LCD)[id], p)] && d.nextKey == db.nextKey + 1
    ensures d.Items(Accessory) == db.Items(Accessory)
    ensures d.Orders(Saved) == if okUpdate && okSave then db.Orders(Saved)[db.nextKey := rec] else db.Orders(Saved)
    ensures forall o :: o != Saved ==> d.Orders(o) == db.Orders(o)
    ensures db.Valid() ==> d.Valid()
  {
    if !okUpdate then db
    else
      var pushed := db.UpdateItem(LCD, id, p).Push();
      if okSave then pushed.SetOrder(Saved, db.nextKey, rec) else pushed
  }

  /** The index after the mirror step of a sale: untouched unless every store write succeeded
      and the index task was enqueued. */
  function Mirror(m: map<Key, Doc>, id: Key, d: Doc, stored: bool, reply: IndexReply): (r: map<Key, Doc>)
    ensures stored && reply == Enqueued ==> r == PatchDocs(m, id, d)
    ensures !(stored && reply == Enqueued) ==> r == m
    ensures r.Keys <= m.Keys + {id}
    ensures forall j :: j in m && j != id ==> j in r && r[j] == m[j]
    ensures id in r && id !in m ==> r[id].price == d.price
    ensures stored && reply == Enqueued ==>
      id in r && r[id].product_name == d.product_name && r[id].quantity == d.quantity
  {
    if stored && reply == Enqueued then PatchDocs(m, id, d) else m
  }

  // ---------------------------------------------------------------------------------------
  // Validation
  // ---------------------------------------------------------------------------------------

  /** The screen sale's conditions: a product name that is not blank, a stock quantity and a
      selling price that read as numbers and are not negative, and a customer name made of
      letters and spaces. */
  predicate ValidSale(stock: Item, price: Amount, customer: string) {
    && !IsBlank(stock.product_name)
    && !IsNaN(stock.quantity) && !Below(stock.quantity, 0.0)
    && !IsNaN(price) && !Below(price, 0.0)
    && IsCustomerName(customer)
  }

  /** `validateForm()`: the checks in order, each rejecting with its own message. */
  function ValidateForm(stock: Item, price: Amount, customer: string): (v: Verdict)
    ensures v.Accept? <==> ValidSale(stock, price, customer)
    ensures IsBlank(stock.product_name) ==> v == Reject("Product name cannot be empty")
    ensures !IsBlank(stock.product_name) && (IsNaN(stock.quantity) || Below(stock.quantity, 0.0)) ==>
      v == Reject("quantity must be a positive number")
    ensures (!IsBlank(stock.product_name) && !IsNaN(stock.quantity) && !Below(stock.quantity, 0.0)
             && (IsNaN(price) || Below(price, 0.0))) ==> v == Reject("Price must be a positive number")
    ensures (!IsBlank(stock.product_name) && !IsNaN(stock.quantity) && !Below(stock.quantity, 0.0)
             && !IsNaN(price) && !Below(price, 0.0) && !IsCustomerName(customer)) ==> v == Reject("Customer name is required")
    ensures (v.Reject? && !IsBlank(stock.product_name) && !IsNaN(stock.quantity) && !Below(stock.quantity, 0.0)
             && !IsNaN(price) && !Below(price, 0.0)) ==> v == Reject("Customer name is required")
  {
    if IsBlank(stock.product_name) then Reject("Product name cannot be empty")
    else if IsNaN(stock.quantity) || Below(stock.quantity, 0.0) then Reject("quantity must be a positive number")
    else if IsNaN(price) || Below(price, 0.0) then Reject("Price must be a positive number")
    else if !IsCustomerName(customer) then Reject("Customer name is required")
    else Accept
  }

  /** Only a negative stock is refused, so the last unit on the books can be sold twice: a
      stock of 0 passes and the product is written with quantity -1. */
  lemma ZeroStockSells(stock: Item, price: Amount, customer: string, now: int)
    requires stock.quantity == Num(0.0) && !IsBlank(stock.product_name)
    requires price.Num? && price.x >= 0.0 && IsCustomerName(customer)
    ensures ValidSale(stock, price, customer)
    ensures SalePatch(stock, price, now).quantity == Num(-1.0)
  {
  }

  /** An accepted screen sale never writes a quantity below -1. */
  lemma ValidSaleQuantity(stock: Item, price: Amount, customer: string, now: int)
    requires ValidSale(stock, price, customer)
    ensures SalePatch(stock, price, now).quantity.Num?
    ensures SalePatch(stock, price, now).quantity.x >= -1.0
  {
  }

  // ---------------------------------------------------------------------------------------
  // The screen
  // ---------------------------------------------------------------------------------------

  /** The selling price field: the price loaded with the product (initially the number 0),
      or the text the price filter produced from what was typed. */
  datatype PriceField = Fetched(a: Amount) | Typed(t: string) {
    /** The number the field holds, as JavaScript reads it. */
    function Value(): Amount {
      match this
      case Fetched(a) => a
      case Typed(t) => ReadDecimal(t)
    }
  }

  /** `checkValue(event)`: the field keeps what the price filter leaves of the typed text. */
  function CheckValue(typed: string): (f: PriceField)
    ensures f.Typed? && f.t <= typed && IsDecimalText(f.t)
    ensures f.Value().NaN? || f.Value().Empty? || f.Value().x >= 0.0
  {
    DecimalPrefixShape(typed);
    Typed(DecimalPrefix(typed))
  }

  class SellScreen {
    const id: Key
    const field: CustomerField
    var stock: Option<Item>
    var sellingPrice: PriceField
    var send: bool
    var completeB: bool
    var navigated: bool

    constructor (id: Key)
      ensures this.id == id && fresh(field)
      ensures field.customer == "" && field.customers == [] && !field.showCustomerPreview
      ensures stock.None? && sellingPrice == Fetched(Num(0.0)) && !send && !completeB && !navigated
    {
      this.id := id;
      field := new CustomerField();
      stock, sellingPrice, send, completeB, navigated := None, Fetched(Num(0.0)), false, false, false;
    }

    /** `fetchProduct()`: a found product becomes the stock and its price the selling price;
        a missing product or a failed read changes nothing. */
    method OnProduct(r: Read)
      modifies this
      ensures r.Found? ==> stock == Some(r.item) && sellingPrice == Fetched(r.item.price)
      ensures !r.Found? ==> stock == old(stock) && sellingPrice == old(sellingPrice)
      ensures send == old(send) && completeB == old(completeB) && navigated == old(navigated)
    {
      if r.Found? {
        stock := Some(r.item);
        sellingPrice := Fetched(r.item.price);
      }
    }

    /** `checkValue(event)` on the selling price input. */
    method OnPriceInput(typed: string)
      modifies this
      ensures sellingPrice == CheckValue(typed)
      ensures stock == old(stock) && send == old(send) && completeB == old(completeB) && navigated == old(navigated)
    {
      sellingPrice := CheckValue(typed);
    }

    /** The product is loaded and the form passes validation. Before the product is loaded,
        `validateForm` throws on the missing stock, so nothing is written either. */
    predicate Accepted()
      reads this, field
    {
      stock.Some? && ValidSale(stock.value, sellingPrice.Value(), field.customer)
    }

    /** `complete(id)`, the save path: the product update, then a `Saved` record, then the
        index mirror; a failure at any step leaves the earlier writes in place, clears
        `completeB` and stays on the screen. */
    method Complete(store: Database, index: SearchIndex, now: int, okUpdate: bool, okSave: bool, reply: IndexReply)
      requires store.db.Valid() && id in store.db.Items(LCD)
      modifies this, store, index
      ensures store.db.Valid()
      ensures stock == old(stock) && sellingPrice == old(sellingPrice) && send == old(send)
      ensures !old(Accepted()) ==>
        store.db == old(store.db) && index.docs == old(index.docs)
        && completeB == old(completeB) && navigated == old(navigated)
      ensures old(Accepted()) ==>
        && store.db == SaveSale(old(store.db), id, SalePatch(stock.value, sellingPrice.Value(), now),
                                SaleRecord(stock.value, id, sellingPrice.Value(), field.customer, now), okUpdate, okSave)
        && index.Docs(LcdIndex) == Mirror(old(index.Docs(LcdIndex)), id, SaleDoc(stock.value), okUpdate && okSave, reply)
        && index.Docs(Shop1Accessory) == old(index.Docs(Shop1Accessory))
        && completeB == (okUpdate && okSave && reply == Enqueued)
        && navigated == (old(navigated) || completeB)
    {
      if !Accepted() {
        return;
      }
      var st, price, customer := stock.value, sellingPrice.Value(), field.customer;
      completeB := true;
      var rec := SaleRecord(st, id, price, customer, now);
      var patch := SalePatch(st, price, now);
      store.UpdateItem(LCD, id, patch, okUpdate);
      if !okUpdate {
        completeB := false;
        return;
      }
      var k := store.Push();
      store.SetOrder(Saved, k, rec, okSave);
      if !okSave {
        completeB := false;
        return;
      }
      index.UpdateDocument(LcdIndex, id, SaleDoc(st), reply);
      if reply == Enqueued {
        navigated := true;
      } else {
        completeB := false;
      }
    }

    /** `handleSubmit(event)`, the complete path: the product update, then the identical
        record under two fresh keys in `Complete` and `Receipt`, then the index mirror; a
        failure at any step leaves the earlier writes in place, clears `send` and stays on
        the screen. Nothing is written to `Saved`. */
    method HandleSubmit(store: Database, index: SearchIndex, now: int,
                        okUpdate: bool, okComplete: bool, okReceipt: bool, reply: IndexReply)
      requires store.db.Valid() && id in store.db.Items(LCD)
      modifies this, store, index
      ensures store.db.Valid()
      ensures stock == old(stock) && sellingPrice == old(sellingPrice) && completeB == old(completeB)
      ensures !old(Accepted()) ==>
        store.db == old(store.db) && index.docs == old(index.docs)
        && send == old(send) && navigated == old(navigated)
      ensures old(Accepted()) ==>
        && store.db == RecordSale(old(store.db), LCD, id, SalePatch(stock.value, sellingPrice.Value(), now),
                                  SaleRecord(stock.value, id, sellingPrice.Value(), field.customer, now),
                                  OrderColl.Complete, Receipt, okUpdate, okComplete, okReceipt)
        && index.Docs(LcdIndex) ==
             Mirror(old(index.Docs(LcdIndex)), id, SaleDoc(stock.value), okUpdate && okComplete && okReceipt, reply)
        && index.Docs(Shop1Accessory) == old(index.Docs(Shop1Accessory))
        && send == (okUpdate && okComplete && okReceipt && reply == Enqueued)
        && navigated == (old(navigated) || send)
    {
      if !Accepted() {
        return;
      }
      var st, price, customer := stock.value, sellingPrice.Value(), field.customer;
      send := true;
      var rec := SaleRecord(st, id, price, customer, now);
      var patch := SalePatch(st, price, now);
      var stored := WriteSale(store, LCD, id, patch, rec, OrderColl.Complete, Receipt, okUpdate, okComplete, okReceipt);
      if !stored {
        send := false;
        return;
      }
      index.UpdateDocument(LcdIndex, id, SaleDoc(st), reply);
      if reply == Enqueued {
        navigated := true;
      } else {
        send := false;
      }
    }
  }
}
