/**
 * The saved-orders screen: the orders parked in `Saved` are listed newest first, can be
 * searched by customer or product, completed (filed into `Complete` and `Receipt`) or
 * refunded (one unit back into stock). Each operation is a sequence of awaited writes that
 * stops at the first failure without undoing what was already written.
 */
module Saved {
  import opened Wrappers
  import opened Amounts
  import opened Store
  import opened Customers

  // ---------------------------------------------------------------------------------------
  // The listing
  // ---------------------------------------------------------------------------------------

  /** One child of the `Saved` snapshot: its key and its record. */
  datatype Child = Child(key: Key, order: Order)

  /** `{id: key, ...record, timestamp: record.timestamp || 0}`. */
  datatype Listed = Listed(id: Key, order: Order, ts: int)

  function ToListed(c: Child): (l: Listed)
    ensures l.id == c.key && l.order == c.order
    ensures l.ts == (if c.order.timestamp.Some? then c.order.timestamp.value else 0)
  {
    Listed(c.key, c.order, c.order.timestamp.GetOr(0))
  }

  /** Newest first: timestamps never increase along the list. */
  predicate SortedByTime(s: seq<Listed>) {
    forall i, j :: 0 <= i < j < |s| ==> s[i].ts >= s[j].ts
  }

  /** Places `x` before the first element that is not newer than it, so that among orders
      with the same timestamp the earlier one stays first. */
  function Insert(x: Listed, s: seq<Listed>): (r: seq<Listed>)
    ensures multiset(r) == multiset(s) + multiset{x}
    ensures |r| == |s| + 1
  {
    if s == [] || s[0].ts <= x.ts then [x] + s
    else
      assert s == [s[0]] + s[1..];
      [s[0]] + Insert(x, s[1..])
  }

  lemma {:induction false} InsertSorted(x: Listed, s: seq<Listed>)
    requires SortedByTime(s)
    ensures SortedByTime(Insert(x, s))
  {
    if s == [] || s[0].ts <= x.ts {
    } else {
      assert SortedByTime(s[1..]);
      InsertSorted(x, s[1..]);
      var r := Insert(x, s[1..]);
      forall k | 0 <= k < |r| ensures s[0].ts >= r[k].ts {
        assert r[k] in multiset(r);
        assert r[k] in multiset(s[1..]) || r[k] == x;
        if r[k] != x {
          assert r[k] in s[1..];
        }
      }
    }
  }

  /** `array.sort((a, b) => b.timestamp - a.timestamp)`, a stable sort, as its result. */
  function SortByTime(s: seq<Listed>): (r: seq<Listed>)
    ensures multiset(r) == multiset(s) && |r| == |s|
  {
    if s == [] then []
    else
      assert s == [s[0]] + s[1..];
      Insert(s[0], SortByTime(s[1..]))
  }

  lemma {:induction false} SortByTimeSorted(s: seq<Listed>)
    ensures SortedByTime(SortByTime(s))
  {
    if s != [] {
      SortByTimeSorted(s[1..]);
      InsertSorted(s[0], SortByTime(s[1..]));
    }
  }

  /** The listener's loop over the snapshot, followed by the sort: every saved order appears
      once, newest first. */
  method BuildListing(children: seq<Child>) returns (listing: seq<Listed>)
    ensures SortedByTime(listing)
    ensures multiset(listing) == multiset(seq(|children|, i requires 0 <= i < |children| => ToListed(children[i])))
  {
    var transactions: seq<Listed> := [];
    for i := 0 to |children|
      invariant |transactions| == i
      invariant forall j :: 0 <= j < i ==> transactions[j] == ToListed(children[j])
    {
      transactions := transactions + [ToListed(children[i])];
    }
    assert transactions == seq(|children|, i requires 0 <= i < |children| => ToListed(children[i]));
    listing := SortByTime(transactions);
    SortByTimeSorted(transactions);
  }

  /** `shopData.find(item => item.id === id)`: the first listed order with that id. */
  function Find(s: seq<Listed>, id: Key): (r: Option<Listed>)
    ensures r.None? <==> forall i :: 0 <= i < |s| ==> s[i].id != id
    ensures r.Some? ==> r.value in s && r.value.id == id
  {
    if s == [] then None else if s[0].id == id then Some(s[0]) else Find(s[1..], id)
  }

  /** `filteredShopData`: the orders whose customer or product name contains the search
      term, ignoring case, in listing order. */
  function FilterOrders(s: seq<Listed>, term: string): (r: seq<Listed>)
    ensures |r| <= |s|
    ensures forall x :: x in r <==> x in s && (Matches(x.order.customer_name, term) || Matches(x.order.product_name, term))
  {
    if s == [] then []
    else
      var keep := Matches(s[0].order.customer_name, term) || Matches(s[0].order.product_name, term);
      (if keep then [s[0]] else []) + FilterOrders(s[1..], term)
  }

  /** Filtering keeps the listing's order: a newest-first listing filters to a newest-first
      list. */
  lemma {:induction false} FilterKeepsNewestFirst(s: seq<Listed>, term: string)
    requires SortedByTime(s)
    ensures SortedByTime(FilterOrders(s, term))
  {
    if s != [] {
      assert SortedByTime(s[1..]);
      FilterKeepsNewestFirst(s[1..], term);
      var rest := FilterOrders(s[1..], term);
      forall k | 0 <= k < |rest| ensures s[0].ts >= rest[k].ts {
        assert rest[k] in rest;
        assert rest[k] in s[1..];
      }
    }
  }

  /** An empty search term keeps the whole listing. */
  lemma {:induction false} FilterEmptyKeepsAll(s: seq<Listed>)
    ensures FilterOrders(s, "") == s
  {
    if s != [] {
      MatchesEmpty(s[0].order.customer_name);
      FilterEmptyKeepsAll(s[1..]);
    }
  }

  // ---------------------------------------------------------------------------------------
  // Completing and refunding a saved order
  // ---------------------------------------------------------------------------------------

  /** The record `completeOrder` files: the saved order's name, price, customer and product,
      one unit, a new timestamp. */
  function CompletedRecord(o: Order, now: int): Order {
    Order(o.product_name, o.price, Num(1.0), o.customer_name, Some(now), o.product_id)
  }

  /** The store writes of `completeOrder`: two pushed keys, the record under each in
      `Complete` and `Receipt`, then the removal of the saved entry. */
  function FileOrder(db: Db, id: Key, rec: Order, okComplete: bool, okReceipt: bool, okRemove: bool): (d: Db)
    ensures d.items == db.items && d.nextKey == db.nextKey + 2
    ensures d.Orders(Complete) == if okComplete then db.Orders(Complete)[db.nextKey := rec] else db.Orders(Complete)
    ensures d.Orders(Receipt) == if okComplete && okReceipt then db.Orders(Receipt)[db.nextKey + 1 := rec] else db.Orders(Receipt)
    ensures d.Orders(Saved) == if okComplete && okReceipt && okRemove then db.Orders(Saved) - {id} else db.Orders(Saved)
    ensures forall o :: o !in {Complete, Receipt, Saved} ==> d.Orders(o) == db.Orders(o)
    ensures db.Valid() ==> d.Valid()
  {
    var pushed := db.Push().Push();
    if !okComplete then pushed
    else
      var d1 := pushed.SetOrder(Complete, db.nextKey, rec);
      if !okReceipt then d1
      else
        var d2 := d1.SetOrder(Receipt, db.nextKey + 1, rec);
        if okRemove then d2.RemoveOrder(Saved, id) else d2
  }

  /** The product update of a refund: the order's product name, one more unit than the
      product has now, a new timestamp; the price is not sent. */
  function RefundPatch(o: Order, product: Item, now: int): ItemPatch {
    ItemPatch(o.product_name, Plus(product.quantity, 1.0), None, Some(now))
  }

  /** The index document of a refund: name and quantity only. */
  function RefundDoc(o: Order, product: Item): Doc {
    Doc(o.product_name, Plus(product.quantity, 1.0), None)
  }

  /** A refund puts back exactly one unit, whatever quantity the order was for, keeps the
      product's price, and the index document gets the same quantity and keeps its price. */
  lemma RefundAddsOne(o: Order, product: Item, prior: Option<Doc>, now: int)
    ensures Merge(product, RefundPatch(o, product, now)).quantity == Plus(product.quantity, 1.0)
    ensures Merge(product, RefundPatch(o, product, now)).price == product.price
    ensures MergeDoc(prior, RefundDoc(o, product)).quantity == Plus(product.quantity, 1.0)
    ensures prior.Some? ==> MergeDoc(prior, RefundDoc(o, product)).price == prior.value.price
    ensures product.quantity.Num? ==> Plus(product.quantity, 1.0) == Num(product.quantity.x + 1.0)
  {
  }

  /** The store writes of a refund of a product that exists: the product update, then, once
      the index call has returned, the removal of the saved entry. */
  function RefundWrites(db: Db, pid: Key, id: Key, p: ItemPatch, okUpdate: bool, removed: bool): (d: Db)
    requires pid in db.Items(LCD)
    ensures !okUpdate ==> d == db
    ensures okUpdate ==> d.Items(LCD) == db.Items(LCD)[pid := Merge(db.Items(LCD)[pid], p)]
    ensures d.Items(Accessory) == db.Items(Accessory) && d.nextKey == db.nextKey
    ensures d.Orders(Saved) == if okUpdate && removed then db.Orders(Saved) - {id} else db.Orders(Saved)
    ensures forall o :: o != Saved ==> d.Orders(o) == db.Orders(o)
    ensures db.Valid() ==> d.Valid()
  {
    if !okUpdate then db
    else
      var d1 := db.UpdateItem(LCD, pid, p);
      if removed then d1.RemoveOrder(Saved, id) else d1
  }

  /** `completeOrder(item)`; `threw` says that the returned promise rejects. Inventory and
      index are not touched. */
  method CompleteOrder(store: Database, item: Listed, now: int, okComplete: bool, okReceipt: bool, okRemove: bool)
    returns (threw: bool)
    requires store.db.Valid()
    modifies store
    ensures store.db.Valid()
    ensures store.db == FileOrder(old(store.db), item.id, CompletedRecord(item.order, now), okComplete, okReceipt, okRemove)
    ensures threw <==> !(okComplete && okReceipt && okRemove)
  {
    var rec := CompletedRecord(item.order, now);
    var k1 := store.Push();
    var k2 := store.Push();
    store.SetOrder(Complete, k1, rec, okComplete);
    if !okComplete {
      return true;
    }
    store.SetOrder(Receipt, k2, rec, okReceipt);
    if !okReceipt {
      return true;
    }
    store.RemoveOrder(Saved, item.id, okRemove);
    threw := !okRemove;
  }

  /** `refundOrder(item)`: reads the product; when it exists, adds one unit to it, mirrors
      that into the index without looking at the index task's status, then removes the saved
      entry. A missing product writes nothing and keeps the saved entry. */
  method RefundOrder(store: Database, index: SearchIndex, item: Listed, now: int,
                     okGet: bool, okUpdate: bool, reply: IndexReply, okRemove: bool)
    returns (threw: bool)
    requires store.db.Valid()
    modifies store, index
    ensures store.db.Valid()
    ensures var pid := item.order.product_id;
      if !okGet || pid !in old(store.db).Items(LCD) then
        && store.db == old(store.db) && index.docs == old(index.docs)
        && threw == !okGet
      else
        var product := old(store.db).Items(LCD)[pid];
        && store.db == RefundWrites(old(store.db), pid, item.id, RefundPatch(item.order, product, now),
                                    okUpdate, reply != Thrown && okRemove)
        && index.Docs(LcdIndex) == (if okUpdate && reply == Enqueued
                                    then PatchDocs(old(index.Docs(LcdIndex)), pid, RefundDoc(item.order, product))
                                    else old(index.Docs(LcdIndex)))
        && index.Docs(Shop1Accessory) == old(index.Docs(Shop1Accessory))
        && threw == !(okUpdate && reply != Thrown && okRemove)
  {
    var pid := item.order.product_id;
    var r := store.Get(LCD, pid, okGet);
    if r.ReadFailed? {
      return true;
    }
    if r.Missing? {
      return false;
    }
    var product := r.item;
    store.UpdateItem(LCD, pid, RefundPatch(item.order, product, now), okUpdate);
    if !okUpdate {
      return true;
    }
    index.UpdateDocument(LcdIndex, pid, RefundDoc(item.order, product), reply);
    if reply == Thrown {
      return true;
    }
    store.RemoveOrder(Saved, item.id, okRemove);
    threw := !okRemove;
  }

  // ---------------------------------------------------------------------------------------
  // The screen
  // ---------------------------------------------------------------------------------------

  class SavedScreen {
    var shopData: Option<seq<Listed>>
    var loading: bool
    var alertOpen: bool
    var alertItem: Option<Key>
    var refundState: bool
    var searchTerm: string

    constructor ()
      ensures shopData.None? && !loading && !alertOpen && alertItem.None? && !refundState && searchTerm == ""
    {
      shopData, loading, alertOpen, alertItem, refundState, searchTerm := None, false, false, None, false, "";
    }

    /** The mount effect: loading until the listener first delivers. */
    method Mount()
      modifies this
      ensures loading && shopData == old(shopData)
    {
      loading := true;
    }

    /** The `Saved` listener: the listing of the snapshot replaces the data; loading ends. */
    method OnSaved(children: seq<Child>)
      modifies this
      ensures shopData.Some? && SortedByTime(shopData.value) && !loading
      ensures multiset(shopData.value) == multiset(seq(|children|, i requires 0 <= i < |children| => ToListed(children[i])))
      ensures alertOpen == old(alertOpen) && alertItem == old(alertItem) && refundState == old(refundState)
    {
      var listing := BuildListing(children);
      shopData := Some(listing);
      loading := false;
    }

    /** The orders shown: none before the first snapshot, then the filtered listing. */
    function Shown(): (r: seq<Listed>)
      reads this
      ensures shopData.None? ==> r == []
      ensures shopData.Some? && searchTerm == "" ==> r == shopData.value
      ensures shopData.Some? && SortedByTime(shopData.value) ==> SortedByTime(r)
      ensures forall x :: x in r <==> (shopData.Some? && x in shopData.value
                                       && (Matches(x.order.customer_name, searchTerm) || Matches(x.order.product_name, searchTerm)))
    {
      if shopData.None? then []
      else
        FilterEmptyKeepsAll(shopData.value);
        assert SortedByTime(shopData.value) ==> SortedByTime(FilterOrders(shopData.value, searchTerm)) by {
          if SortedByTime(shopData.value) {
            FilterKeepsNewestFirst(shopData.value, searchTerm);
          }
        }
        FilterOrders(shopData.value, searchTerm)
    }

    /** The refund button: opens the confirmation for this order. */
    method AskRefund(id: Key)
      modifies this
      ensures alertOpen && alertItem == Some(id)
      ensures shopData == old(shopData) && refundState == old(refundState)
    {
      alertOpen, alertItem := true, Some(id);
    }

    /** The order `complete(id)` and `refund(id)` act on: none when nothing is listed yet or
        no listed order has this id, in which case they throw before any write. */
    function Target(id: Key): (r: Option<Listed>)
      reads this
      ensures r.Some? ==> shopData.Some? && r.value in shopData.value && r.value.id == id
      ensures r.None? <==> shopData.None? || forall i :: 0 <= i < |shopData.value| ==> shopData.value[i].id != id
    {
      if shopData.None? then None else Find(shopData.value, id)
    }

    /** `complete(id)`: an id that is not listed writes nothing; otherwise the order is filed.
        Every error ends in a toast. */
    method Complete(store: Database, id: Key, now: int, okComplete: bool, okReceipt: bool, okRemove: bool)
      requires store.db.Valid()
      modifies store
      ensures store.db.Valid()
      ensures old(Target(id)).None? ==> store.db == old(store.db)
      ensures old(Target(id)).Some? ==>
        store.db == FileOrder(old(store.db), id, CompletedRecord(old(Target(id)).value.order, now), okComplete, okReceipt, okRemove)
    {
      var target := Target(id);
      if target.None? {
        return;
      }
      var _ := CompleteOrder(store, target.value, now, okComplete, okReceipt, okRemove);
    }

    /** `refund(id)`: an id that is not listed writes nothing; otherwise the order is
        refunded. On every path the refund flag is cleared and the dialog closed. */
    method Refund(store: Database, index: SearchIndex, id: Key, now: int,
                  okGet: bool, okUpdate: bool, reply: IndexReply, okRemove: bool)
      requires store.db.Valid()
      modifies this, store, index
      ensures store.db.Valid()
      ensures !refundState && !alertOpen && alertItem.None?
      ensures shopData == old(shopData) && searchTerm == old(searchTerm)
      ensures old(Target(id)).None? ==> store.db == old(store.db) && index.docs == old(index.docs)
      ensures old(Target(id)).Some? ==>
        var item := old(Target(id)).value;
        var pid := item.order.product_id;
        if !okGet || pid !in old(store.db).Items(LCD) then
          store.db == old(store.db) && index.docs == old(index.docs)
        else
          && store.db == RefundWrites(old(store.db), pid, id,
                                      RefundPatch(item.order, old(store.db).Items(LCD)[pid], now),
                                      okUpdate, reply != Thrown && okRemove)
          && index.Docs(LcdIndex) == (if okUpdate && reply == Enqueued
                                      then PatchDocs(old(index.Docs(LcdIndex)), pid,
                                                     RefundDoc(item.order, old(store.db).Items(LCD)[pid]))
                                      else old(index.Docs(LcdIndex)))
          && index.Docs(Shop1Accessory) == old(index.Docs(Shop1Accessory))
    {
      refundState := true;
      var target := Target(id);
      if target.Some? {
        var _ := RefundOrder(store, index, target.value, now, okGet, okUpdate, reply, okRemove);
      }
      refundState := false;
      alertOpen, alertItem := false, None;
    }
  }
}
