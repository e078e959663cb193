/**
 * The accessory sale form: a quantity of an accessory is sold to a named customer at a unit
 * price. The sale writes the product record, then the identical order under two fresh keys
 * in `CompleteAccessory` and `ReceiptAccessory`, then mirrors the product into the
 * `Shop1Accessory` index, stopping at the first failure without undoing earlier writes.
 */
module SellAccessory {
  import opened Wrappers
  import opened Text
  import opened Amounts
  import opened Store
  import opened Forms
  import opened Customers
  import Sell

  /** The unit price field: the text of the price loaded with the product, or a text the
      price acceptor let through (initially the empty text). */
  datatype PriceText = FromStore(a: Amount) | Typed(t: string) {
    /** `parseFloat` of the text: a loaded number is kept and anything else loaded is not a
        number; of a typed text, the empty text and a lone '.' are not numbers, a run of
        digits is its decimal value, and nothing typed reads as negative. */
    function Number(): (r: Amount)
      ensures !r.Empty?
      ensures FromStore? ==> (r.Num? <==> a.Num?) && (a.Num? ==> r == a)
      ensures Typed? && (t == "" || t == ".") ==> r.NaN?
      ensures Typed? && t != "" && AllDigits(t) ==> r == Num(DigitsValue(t) as real)
      ensures Typed? && r.Num? ==> r.x >= 0.0
    {
      match this
      case FromStore(a) => ParseFloat(a)
      case Typed(t) => ParseFloat(ReadDecimal(t))
    }

    /** The texts the field can hold: the loaded price, the empty text, or a price text. */
    predicate Acceptable() {
      Typed? ==> t == "" || IsPriceText(t)
    }
  }

  /** `handlePriceChange(event)`: the empty text or digits with at most one '.' replace the
      price; anything else leaves it as it was. */
  function PriceChange(current: PriceText, typed: string): (r: PriceText)
    ensures typed == "" || IsPriceText(typed) ==> r == Typed(typed)
    ensures !(typed == "" || IsPriceText(typed)) ==> r == current
  {
    if typed == "" || IsPriceText(typed) then Typed(typed) else current
  }

  /** The price field only ever holds an acceptable text. */
  lemma PriceChangeKeepsShape(current: PriceText, typed: string)
    requires current.Acceptable()
    ensures PriceChange(current, typed).Acceptable()
  {
  }

  /** A typed price is never negative when read. */
  lemma TypedPriceNotNegative(t: string)
    ensures !Below(Typed(t).Number(), 0.0)
  {
    ReadDecimalNeverNegative(t);
  }

  /** `setSellingQuantity(parseInt(value) || 0)`: the quantity input always holds a whole
      number, 0 when the text does not read as one. */
  function QuantityInput(typed: Amount): (q: Amount)
    ensures q.Num? && q.x.Floor as real == q.x
    ensures typed.Num? && typed.x >= 0.0 ==> q.x <= typed.x < q.x + 1.0
  {
    var p := ParseInt(typed);
    if p.Num? then p else Num(0.0)
  }

  /** The accessory sale's conditions: a product name that is not blank, a quantity that
      reads as a positive number and does not exceed the stock, a unit price that parses to
      a positive number, and a customer name made of letters and spaces. A stock quantity
      that is not a number compares false, so it does not stop the sale. */
  predicate ValidSale(stock: Item, q: Amount, price: PriceText, customer: string) {
    && !IsBlank(stock.product_name)
    && !IsNaN(q) && !AtMost(q, 0.0)
    && !Below(stock.quantity, ToNumber(q))
    && !IsNaN(price.Number()) && !AtMost(price.Number(), 0.0)
    && IsCustomerName(customer)
  }

  /** `validateForm()`: the checks in order, each rejecting with its own message. */
  function ValidateForm(stock: Item, q: Amount, price: PriceText, customer: string): (v: Verdict)
    ensures v.Accept? <==> ValidSale(stock, q, price, customer)
    ensures IsBlank(stock.product_name) ==> v == Reject("Product name is required")
    ensures !IsBlank(stock.product_name) && (IsNaN(q) || AtMost(q, 0.0)) ==> v == Reject("Quantity must be a positive number")
    ensures (!IsBlank(stock.product_name) && !IsNaN(q) && !AtMost(q, 0.0) && Below(stock.quantity, ToNumber(q))) ==>
      v == Reject("Quantity in stock is insufficient")
    ensures (!IsBlank(stock.product_name) && !IsNaN(q) && !AtMost(q, 0.0) && !Below(stock.quantity, ToNumber(q))
             && (IsNaN(price.Number()) || AtMost(price.Number(), 0.0))) ==> v == Reject("Price must be a positive number")
    ensures (!IsBlank(stock.product_name) && !IsNaN(q) && !AtMost(q, 0.0) && !Below(stock.quantity, ToNumber(q))
             && !IsNaN(price.Number()) && !AtMost(price.Number(), 0.0) && !IsCustomerName(customer)) ==>
      v == Reject("Customer name is required")
  {
    if IsBlank(stock.product_name) then Reject("Product name is required")
    else if IsNaN(q) || AtMost(q, 0.0) then Reject("Quantity must be a positive number")
    else if Below(stock.quantity, ToNumber(q)) then Reject("Quantity in stock is insufficient")
    else if IsNaN(price.Number()) || AtMost(price.Number(), 0.0) then Reject("Price must be a positive number")
    else if !IsCustomerName(customer) then Reject("Customer name is required")
    else Accept
  }

  /** The order record: the quantity sold, at the unit price times that quantity. */
  function SaleRecord(stock: Item, id: Key, q: Amount, price: PriceText, customer: string, now: int): Order
    requires price.Number().Num? && q.Num?
  {
    Order(stock.product_name, Num(price.Number().x * q.x), q, customer, Some(now), id)
  }

  /** The product update: the quantity sold less, name and price as the stock had them. */
  function SalePatch(stock: Item, q: Amount, now: int): ItemPatch
    requires q.Num?
  {
    ItemPatch(stock.product_name, Minus(stock.quantity, q.x), Some(stock.price), Some(now))
  }

  /** The index document: the same quantity and price as the product update. */
  function SaleDoc(stock: Item, q: Amount): Doc
    requires q.Num?
  {
    Doc(stock.product_name, Minus(stock.quantity, q.x), Some(stock.price))
  }

  /** An accepted sale of a whole quantity from a numeric stock leaves between 0 and one less
      than the stock: an accessory sale cannot take the stock below zero. */
  lemma SaleStaysInStock(stock: Item, q: Amount, price: PriceText, customer: string, now: int)
    requires ValidSale(stock, q, price, customer) && stock.quantity.Num?
    requires q.Num? && q.x.Floor as real == q.x
    ensures var nq := SalePatch(stock, q, now).quantity;
      nq.Num? && 0.0 <= nq.x <= stock.quantity.x - 1.0
  {
    assert q.x >= 1.0 by {
      assert q.x.Floor >= 1;
    }
  }

  /** The product record keeps its name and price and the index document carries exactly
      the name, quantity and price the record gets. */
  lemma SaleMirrorAgrees(stored: Item, prior: Option<Doc>, stock: Item, q: Amount, now: int)
    requires q.Num?
    ensures var r := Merge(stored, SalePatch(stock, q, now));
      var d := MergeDoc(prior, SaleDoc(stock, q));
      && r.product_name == d.product_name == stock.product_name
      && r.price == stock.price && d.price == Some(r.price)
      && r.quantity == d.quantity
  {
  }

  /** A stock quantity that does not read as a number lets any positive quantity through,
      and the product is then written with a quantity that is not a number. */
  lemma UnreadableStockPasses(stock: Item, q: Amount, price: PriceText, customer: string, now: int)
    requires stock.quantity.NaN? && q.Num? && q.x > 0.0
    requires !IsBlank(stock.product_name) && price.Number().Num? && price.Number().x > 0.0
    requires IsCustomerName(customer)
    ensures ValidSale(stock, q, price, customer)
    ensures SalePatch(stock, q, now).quantity.NaN?
  {
  }

  class SellAccessoryScreen {
    const id: Key
    const field: CustomerField
    var stock: Option<Item>
    var sellingPrice: PriceText
    var sellingQuantity: Amount
    var completeB: bool
    var navigated: bool

    constructor (id: Key)
      ensures this.id == id && fresh(field)
      ensures field.customer == "" && field.customers == [] && !field.showCustomerPreview
      ensures stock.None? && sellingPrice == Typed("") && sellingQuantity == Empty && !completeB && !navigated
    {
      this.id := id;
      field := new CustomerField();
      stock, sellingPrice, sellingQuantity, completeB, navigated := None, Typed(""), Empty, false, false;
    }

    /** `fetchProduct()`: a found product becomes the stock and the text of its price the
        unit price; a missing product or a failed read changes nothing. */
    method OnProduct(r: Read)
      modifies this
      ensures r.Found? ==> stock == Some(r.item) && sellingPrice == FromStore(r.item.price)
      ensures !r.Found? ==> stock == old(stock) && sellingPrice == old(sellingPrice)
      ensures sellingQuantity == old(sellingQuantity) && completeB == old(completeB) && navigated == old(navigated)
    {
      if r.Found? {
        stock := Some(r.item);
        sellingPrice := FromStore(r.item.price);
      }
    }

    method OnPriceInput(typed: string)
      modifies this
      ensures sellingPrice == PriceChange(old(sellingPrice), typed)
      ensures stock == old(stock) && sellingQuantity == old(sellingQuantity)
      ensures completeB == old(completeB) && navigated == old(navigated)
    {
      if typed == "" || IsPriceText(typed) {
        sellingPrice := Typed(typed);
      }
    }

    method OnQuantityInput(typed: Amount)
      modifies this
      ensures sellingQuantity == QuantityInput(typed)
      ensures stock == old(stock) && sellingPrice == old(sellingPrice)
      ensures completeB == old(completeB) && navigated == old(navigated)
    {
      sellingQuantity := QuantityInput(typed);
    }

    /** The product is loaded and the form passes validation. */
    predicate Accepted()
      reads this, field
    {
      stock.Some? && ValidSale(stock.value, sellingQuantity, sellingPrice, field.customer)
    }

    /** `complete()`: a rejected form writes nothing; an accepted one writes the product,
        the two orders and the index document in turn, and `completeB` stays set only when
        the index task was enqueued. */
    method Complete(store: Database, index: SearchIndex, now: int,
                    okUpdate: bool, okComplete: bool, okReceipt: bool, reply: IndexReply)
      requires store.db.Valid() && id in store.db.Items(Accessory)
      modifies this, store, index
      ensures store.db.Valid()
      ensures stock == old(stock) && sellingPrice == old(sellingPrice) && sellingQuantity == old(sellingQuantity)
      ensures !old(Accepted()) ==>
        store.db == old(store.db) && index.docs == old(index.docs)
        && completeB == old(completeB) && navigated == old(navigated)
      ensures old(Accepted()) ==>
        && store.db == Sell.RecordSale(old(store.db), Accessory, id, SalePatch(stock.value, sellingQuantity, now),
                         SaleRecord(stock.value, id, sellingQuantity, sellingPrice, field.customer, now),
                         CompleteAccessory, ReceiptAccessory, okUpdate, okComplete, okReceipt)
        && index.Docs(Shop1Accessory) == Sell.Mirror(old(index.Docs(Shop1Accessory)), id,
                         SaleDoc(stock.value, sellingQuantity), okUpdate && okComplete && okReceipt, reply)
        && index.Docs(LcdIndex) == old(index.Docs(LcdIndex))
        && completeB == (okUpdate && okComplete && okReceipt && reply == Enqueued)
        && navigated == (old(navigated) || completeB)
    {
      if !Accepted() {
        return;
      }
      var st, q := stock.value, sellingQuantity;
      Commit(store, index, SalePatch(st, q, now), SaleRecord(st, id, q, sellingPrice, field.customer, now),
             SaleDoc(st, q), okUpdate, okComplete, okReceipt, reply);
    }

    /** The writes of an accepted sale, in turn: the product, the two orders, then the index
        document once every store write succeeded. */
    method Commit(store: Database, index: SearchIndex, patch: ItemPatch, rec: Order, doc: Doc,
                  okUpdate: bool, okComplete: bool, okReceipt: bool, reply: IndexReply)
      requires store.db.Valid() && id in store.db.Items(Accessory)
      modifies this, store, index
      ensures store.db.Valid()
      ensures stock == old(stock) && sellingPrice == old(sellingPrice) && sellingQuantity == old(sellingQuantity)
      ensures store.db == Sell.RecordSale(old(store.db), Accessory, id, patch, rec,
                                          CompleteAccessory, ReceiptAccessory, okUpdate, okComplete, okReceipt)
      ensures index.Docs(Shop1Accessory) == Sell.Mirror(old(index.Docs(Shop1Accessory)), id, doc,
                                                        okUpdate && okComplete && okReceipt, reply)
      ensures index.Docs(LcdIndex) == old(index.Docs(LcdIndex))
      ensures completeB == (okUpdate && okComplete && okReceipt && reply == Enqueued)
      ensures navigated == (old(navigated) || completeB)
    {
      completeB := true;
      var stored := Sell.WriteSale(store, Accessory, id, patch, rec, CompleteAccessory, ReceiptAccessory,
                                   okUpdate, okComplete, okReceipt);
      if !stored {
        completeB := false;
        return;
      }
      index.UpdateDocument(Shop1Accessory, id, doc, reply);
      if reply == Enqueued {
        navigated := true;
      } else {
        completeB := false;
      }
    }
  }
}
