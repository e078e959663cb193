/**
 * The two inventory listings, screens (`LCD`) and accessories (`Accessory`): what the page
 * shows given the pagination and search state, the per-item stock badge and sell button,
 * and deletion of an item from the store and then from its index.
 */
module Listing {
  import opened Wrappers
  import opened Amounts
  import opened Store
  import opened Pagination
  import opened Search

  /** One card of the grid: an id with the fields it displays. */
  datatype Card = Card(id: Key, product_name: string, quantity: Amount, price: Option<Amount>)

  function ProductCard(p: Product): Card {
    Card(p.id, p.item.product_name, p.item.quantity, Some(p.item.price))
  }

  function HitCard(h: Hit): Card {
    Card(h.id, h.doc.product_name, h.doc.quantity, h.doc.price)
  }

  /** The main area of the page. */
  datatype View = Skeletons(count: nat) | Cards(cards: seq<Card>) | NoItems

  /** While either source is loading, one skeleton per page slot; otherwise the search
      results if there are any, else the loaded products, else the "No items" text. */
  function Display(pageSize: nat, paginationLoading: bool, searchLoading: bool,
                   results: seq<Hit>, products: seq<Product>): (v: View)
    ensures v.Skeletons? <==> paginationLoading || searchLoading
    ensures v.Skeletons? ==> v.count == pageSize
    ensures v.NoItems? <==> !paginationLoading && !searchLoading && results == [] && products == []
    ensures v.Cards? && results != [] ==> (|v.cards| == |results|
      && forall i :: 0 <= i < |results| ==> v.cards[i] == HitCard(results[i]))
    ensures v.Cards? && results == [] ==> (|v.cards| == |products|
      && forall i :: 0 <= i < |products| ==> v.cards[i] == ProductCard(products[i]))
  {
    if paginationLoading || searchLoading then Skeletons(pageSize)
    else if |results| > 0 then Cards(seq(|results|, i requires 0 <= i < |results| => HitCard(results[i])))
    else if |products| > 0 then Cards(seq(|products|, i requires 0 <= i < |products| => ProductCard(products[i])))
    else NoItems
  }

  /** The "Load More" button: no search results, no search running, and more to load. The
      pagination's own loading does not hide it. */
  predicate LoadMoreVisible(results: seq<Hit>, searchLoading: bool, hasMore: bool) {
    results == [] && !searchLoading && hasMore
  }

  /** Whenever "Load More" is shown beside cards, those cards are the loaded products, so
      the button always extends what is on the page. */
  lemma LoadMoreExtendsProducts(pageSize: nat, paginationLoading: bool, searchLoading: bool,
                                results: seq<Hit>, products: seq<Product>, hasMore: bool)
    requires LoadMoreVisible(results, searchLoading, hasMore)
    ensures var v := Display(pageSize, paginationLoading, searchLoading, results, products);
      v.Cards? ==> v.cards == seq(|products|, i requires 0 <= i < |products| => ProductCard(products[i]))
  {
  }

  /** `item.quantity > 0`: the badge reads "In Stock". */
  predicate InStock(q: Amount) { Above(q, 0.0) }

  /** `item?.quantity <= 0`: the Sell button is disabled. */
  predicate SellDisabled(q: Amount) { AtMost(q, 0.0) }

  /** The badge text; the two listings spell the out-of-stock text differently. */
  function Badge(c: ItemColl, q: Amount): (s: string)
    ensures InStock(q) ==> s == "In Stock"
    ensures !InStock(q) ==> s == (if c == LCD then "Out of Stock" else "Out Of Stock")
  {
    if InStock(q) then "In Stock" else if c == LCD then "Out of Stock" else "Out Of Stock"
  }

  /** For a quantity that reads as a number, Sell is enabled exactly when the item is shown
      in stock. */
  lemma BadgeMatchesSell(q: Amount)
    requires !q.NaN?
    ensures !SellDisabled(q) <==> InStock(q)
  {
  }

  /** A quantity that does not read as a number is shown out of stock, yet Sell stays
      enabled. */
  lemma UnreadableQuantitySellable(c: ItemColl)
    ensures Badge(c, NaN) != "In Stock" && !SellDisabled(NaN)
  {
  }

  class ListingScreen {
    const coll: ItemColl
    const search: SearchHook
    var isDeleteDialogOpen: bool
    var deleteItemId: Option<Key>
    var isDeleting: bool

    constructor (coll: ItemColl)
      ensures this.coll == coll && fresh(search)
      ensures search.searchParam == "" && search.searchResults == [] && !search.searchLoading && search.error.None?
      ensures !isDeleteDialogOpen && deleteItemId.None? && !isDeleting
    {
      this.coll := coll;
      search := new SearchHook("");
      isDeleteDialogOpen, deleteItemId, isDeleting := false, None, false;
    }

    /** The Delete button of a card: remembers the item and opens the dialog. */
    method AskDelete(id: Key)
      modifies this
      ensures deleteItemId == Some(id) && isDeleteDialogOpen && isDeleting == old(isDeleting)
    {
      deleteItemId := Some(id);
      isDeleteDialogOpen := true;
    }

    /** `handleDelete(id)`: the record is removed, then the index document. The search state
        is cleared once both calls returned; the status of the index call is not looked
        at, so only an exception stops it. A failure at either step leaves the earlier removal
        in place. The dialog closes and `isDeleting` resets on every path. */
    method HandleDelete(store: Database, index: SearchIndex, id: Key, okRemove: bool, reply: IndexReply)
      requires store.db.Valid()
      modifies this, store, index, search
      ensures store.db.Valid() && !isDeleting && !isDeleteDialogOpen && deleteItemId == old(deleteItemId)
      ensures store.db == (if okRemove then old(store.db).RemoveItem(coll, id) else old(store.db))
      ensures index.Docs(IndexOf(coll)) ==
        (if okRemove && reply == Enqueued then old(index.Docs(IndexOf(coll))) - {id} else old(index.Docs(IndexOf(coll))))
      ensures forall n :: n != IndexOf(coll) ==> index.Docs(n) == old(index.Docs(n))
      ensures search.searchLoading == old(search.searchLoading) && search.error == old(search.error)
      ensures okRemove && reply != Thrown ==> search.searchResults == [] && search.searchParam == ""
      ensures !(okRemove && reply != Thrown) ==>
        search.searchResults == old(search.searchResults) && search.searchParam == old(search.searchParam)
    {
      isDeleting := true;
      store.RemoveItem(coll, id, okRemove);
      if okRemove {
        index.DeleteDocument(IndexOf(coll), id, reply);
        if reply != Thrown {
          search.SetSearchResults([]);
          search.SetSearchParam("");
        }
      }
      isDeleting := false;
      isDeleteDialogOpen := false;
    }
  }
}
