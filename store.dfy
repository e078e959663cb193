/**
 * The two remote stores every screen writes to, seen from the client.
 *
 * The realtime database holds, under `alltech/`, two inventory collections (`LCD` for
 * screens, `Accessory`) and five order collections (`Saved`, `Complete`, `Receipt`,
 * `CompleteAccessory`, `ReceiptAccessory`), each a map from key to a flat record. The search
 * index holds two indexes (`LCD`, `Shop1Accessory`) mapping document ids to documents.
 *
 * Every SDK call is one step whose success is decided by an outcome parameter supplied by
 * the caller, so that the effect of a sequence of calls that stops at its first failure can
 * be stated exactly. Server timestamps are a clock value passed in by the caller.
 */
module Store {
  import opened Wrappers
  import opened Amounts

  /** Keys of records. Push keys are generated in increasing order, so keys are modelled
      as naturals ordered by value (the store orders its string keys the same way). */
  type Key = nat

  datatype ItemColl = LCD | Accessory
  datatype OrderColl = Saved | Complete | Receipt | CompleteAccessory | ReceiptAccessory
  datatype IndexName = LcdIndex | Shop1Accessory

  /** The index that mirrors an inventory collection. */
  function IndexOf(c: ItemColl): IndexName {
    match c
    case LCD => LcdIndex
    case Accessory => Shop1Accessory
  }

  /** An inventory record `{product_name, quantity, price, timestamp}`. */
  datatype Item = Item(product_name: string, quantity: Amount, price: Amount, timestamp: Option<int>)

  /** An order record `{product_name, price, quantity, customer_name, timestamp, product_id}`. */
  datatype Order = Order(product_name: string, price: Amount, quantity: Amount,
                         customer_name: string, timestamp: Option<int>, product_id: Key)

  /** The fields an `update()` call sends; an absent price or timestamp is left as stored. */
  datatype ItemPatch = ItemPatch(product_name: string, quantity: Amount, price: Option<Amount>, timestamp: Option<int>)

  /** A search document `{id, product_name, quantity, price}` without its id; an absent
      price is a field the document does not carry. */
  datatype Doc = Doc(product_name: string, quantity: Amount, price: Option<Amount>)

  /** What an index call answers: an enqueued task, a task with any other status, or an
      exception. */
  datatype IndexReply = Enqueued | Refused | Thrown

  /** `update(ref, patch)` on an existing record: the sent fields replace the stored ones. */
  function Merge(stored: Item, p: ItemPatch): (r: Item)
    ensures r.product_name == p.product_name && r.quantity == p.quantity
    ensures r.price == (if p.price.Some? then p.price.value else stored.price)
    ensures r.timestamp == (if p.timestamp.Some? then p.timestamp else stored.timestamp)
  {
    Item(p.product_name, p.quantity, p.price.GetOr(stored.price), if p.timestamp.Some? then p.timestamp else stored.timestamp)
  }

  /** `updateDocuments([{id, ...p}])`: the sent fields replace those of the document, which
      is created when the id is new; a price that is not sent is kept. */
  function MergeDoc(prior: Option<Doc>, p: Doc): (r: Doc)
    ensures r.product_name == p.product_name && r.quantity == p.quantity
    ensures r.price == (if p.price.Some? || prior.None? then p.price else prior.value.price)
  {
    if p.price.None? && prior.Some? then p.(price := prior.value.price) else p
  }

  /** Sending the same update twice leaves the record, and the index document, as sending
      it once does. */
  lemma UpdateIdempotent(stored: Item, p: ItemPatch, prior: Option<Doc>, d: Doc)
    ensures Merge(Merge(stored, p), p) == Merge(stored, p)
    ensures MergeDoc(Some(MergeDoc(prior, d)), d) == MergeDoc(prior, d)
  {
  }

  /** The whole realtime database, with the generator of push keys. */
  datatype Db = Db(items: map<ItemColl, map<Key, Item>>, orders: map<OrderColl, map<Key, Order>>, nextKey: Key) {

    function Items(c: ItemColl): map<Key, Item> {
      if c in items then items[c] else map[]
    }

    function Orders(c: OrderColl): map<Key, Order> {
      if c in orders then orders[c] else map[]
    }

    /** Every stored key was generated before `nextKey`, so the next push key is fresh. */
    predicate Valid() {
      && (forall c, k | c in items && k in items[c] :: k < nextKey)
      && (forall c, k | c in orders && k in orders[c] :: k < nextKey)
    }

    /** The next push key is in no collection. */
    lemma NextKeyFresh()
      requires Valid()
      ensures forall c :: nextKey !in Items(c)
      ensures forall c :: nextKey !in Orders(c)
    {
    }

    /** `push(ref)`: a new key, generated locally; nothing is written. */
    function Push(): (d: Db)
      ensures d.items == items && d.orders == orders && d.nextKey == nextKey + 1
      ensures Valid() ==> d.Valid()
    {
      this.(nextKey := nextKey + 1)
    }

    function UpdateItem(c: ItemColl, k: Key, p: ItemPatch): (d: Db)
      requires k in Items(c)
      ensures d.Items(c) == Items(c)[k := Merge(Items(c)[k], p)]
      ensures forall c' :: c' != c ==> d.Items(c') == Items(c')
      ensures d.orders == orders && d.nextKey == nextKey
      ensures Valid() ==> d.Valid()
    {
      this.(items := items[c := Items(c)[k := Merge(Items(c)[k], p)]])
    }

    function SetItem(c: ItemColl, k: Key, it: Item): (d: Db)
      ensures d.Items(c) == Items(c)[k := it]
      ensures forall c' :: c' != c ==> d.Items(c') == Items(c')
      ensures d.orders == orders && d.nextKey == nextKey
      ensures Valid() && k < nextKey ==> d.Valid()
    {
      this.(items := items[c := Items(c)[k := it]])
    }

    function RemoveItem(c: ItemColl, k: Key): (d: Db)
      ensures d.Items(c) == Items(c) - {k}
      ensures forall c' :: c' != c ==> d.Items(c') == Items(c')
      ensures d.orders == orders && d.nextKey == nextKey
      ensures Valid() ==> d.Valid()
    {
      this.(items := items[c := Items(c) - {k}])
    }

    function SetOrder(c: OrderColl, k: Key, o: Order): (d: Db)
      ensures d.Orders(c) == Orders(c)[k := o]
      ensures forall c' :: c' != c ==> d.Orders(c') == Orders(c')
      ensures d.items == items && d.nextKey == nextKey
      ensures Valid() && k < nextKey ==> d.Valid()
    {
      this.(orders := orders[c := Orders(c)[k := o]])
    }

    function RemoveOrder(c: OrderColl, k: Key): (d: Db)
      ensures d.Orders(c) == Orders(c) - {k}
      ensures forall c' :: c' != c ==> d.Orders(c') == Orders(c')
      ensures d.items == items && d.nextKey == nextKey
      ensures Valid() ==> d.Valid()
    {
      this.(orders := orders[c := Orders(c) - {k}])
    }

    /** Some record of collection `c` has exactly this `product_name`
        (`orderByChild('product_name'), equalTo(name)` finds something). */
    predicate HasName(c: ItemColl, name: string) {
      exists k | k in Items(c) :: Items(c)[k].product_name == name
    }
  }

  /** The result of a point read. */
  datatype Read = ReadFailed | Missing | Found(item: Item)

  /** The realtime database as the client sees it: each method is one awaited SDK call and
      `ok` says whether the remote side accepted it. */
  class Database {
    var db: Db

    constructor (initial: Db)
      requires initial.Valid()
      ensures db == initial
    {
      db := initial;
    }

    /** `push(ref)`: the returned key is fresh in every collection. */
    method Push() returns (k: Key)
      requires db.Valid()
      modifies this
      ensures k == old(db).nextKey && db == old(db).Push()
      ensures forall c :: k !in db.Items(c)
      ensures forall c :: k !in db.Orders(c)
    {
      k := db.nextKey;
      db.NextKeyFresh();
      db := db.Push();
    }

    /** `get(ref)` of one inventory record. */
    method Get(c: ItemColl, k: Key, ok: bool) returns (r: Read)
      ensures !ok <==> r.ReadFailed?
      ensures ok ==> r == (if k in db.Items(c) then Found(db.Items(c)[k]) else Missing)
    {
      if !ok {
        r := ReadFailed;
      } else if k in db.Items(c) {
        r := Found(db.Items(c)[k]);
      } else {
        r := Missing;
      }
    }

    /** `get(query(ref, orderByChild('product_name'), equalTo(name)))` then
        `snapshot.exists()`; `None` when the read fails. */
    method NameExists(c: ItemColl, name: string, ok: bool) returns (r: Option<bool>)
      ensures !ok <==> r.None?
      ensures ok ==> r == Some(db.HasName(c, name))
    {
      if ok {
        r := Some(db.HasName(c, name));
      } else {
        r := None;
      }
    }

    method UpdateItem(c: ItemColl, k: Key, p: ItemPatch, ok: bool)
      requires db.Valid() && k in db.Items(c)
      modifies this
      ensures db.Valid()
      ensures db == if ok then old(db).UpdateItem(c, k, p) else old(db)
    {
      if ok {
        db := db.UpdateItem(c, k, p);
      }
    }

    method SetItem(c: ItemColl, k: Key, it: Item, ok: bool)
      requires db.Valid() && k < db.nextKey
      modifies this
      ensures db.Valid()
      ensures db == if ok then old(db).SetItem(c, k, it) else old(db)
    {
      if ok {
        db := db.SetItem(c, k, it);
      }
    }

    method RemoveItem(c: ItemColl, k: Key, ok: bool)
      requires db.Valid()
      modifies this
      ensures db.Valid()
      ensures db == if ok then old(db).RemoveItem(c, k) else old(db)
    {
      if ok {
        db := db.RemoveItem(c, k);
      }
    }

    method SetOrder(c: OrderColl, k: Key, o: Order, ok: bool)
      requires db.Valid() && k < db.nextKey
      modifies this
      ensures db.Valid()
      ensures db == if ok then old(db).SetOrder(c, k, o) else old(db)
    {
      if ok {
        db := db.SetOrder(c, k, o);
      }
    }

    method RemoveOrder(c: OrderColl, k: Key, ok: bool)
      requires db.Valid()
      modifies this
      ensures db.Valid()
      ensures db == if ok then old(db).RemoveOrder(c, k) else old(db)
    {
      if ok {
        db := db.RemoveOrder(c, k);
      }
    }
  }

  /** The documents of one index after `updateDocuments([{id, ...d}])` has been applied. */
  function PatchDocs(m: map<Key, Doc>, id: Key, d: Doc): (r: map<Key, Doc>)
    ensures r.Keys == m.Keys + {id}
    ensures forall j :: j in m && j != id ==> r[j] == m[j]
    ensures r[id] == MergeDoc(if id in m then Some(m[id]) else None, d)
  {
    m[id := MergeDoc(if id in m then Some(m[id]) else None, d)]
  }

  /** The search index as the client sees it. A call changes a document only when its
      task is enqueued. */
  class SearchIndex {
    var docs: map<IndexName, map<Key, Doc>>

    constructor (initial: map<IndexName, map<Key, Doc>>)
      ensures docs == initial
    {
      docs := initial;
    }

    function Docs(n: IndexName): map<Key, Doc>
      reads this
    {
      if n in docs then docs[n] else map[]
    }

    /** `addDocuments([{id, ...d}])`: the document replaces any with the same id. */
    method AddDocument(n: IndexName, id: Key, d: Doc, reply: IndexReply)
      modifies this
      ensures Docs(n) == if reply == Enqueued then old(Docs(n))[id := d] else old(Docs(n))
      ensures forall n' :: n' != n ==> Docs(n') == old(Docs(n'))
    {
      if reply == Enqueued {
        docs := docs[n := Docs(n)[id := d]];
      }
    }

    /** `updateDocuments([{id, ...d}])`: the sent fields are merged into the document. */
    method UpdateDocument(n: IndexName, id: Key, d: Doc, reply: IndexReply)
      modifies this
      ensures Docs(n) == if reply == Enqueued then PatchDocs(old(Docs(n)), id, d) else old(Docs(n))
      ensures forall n' :: n' != n ==> Docs(n') == old(Docs(n'))
    {
      if reply == Enqueued {
        docs := docs[n := PatchDocs(Docs(n), id, d)];
      }
    }

    /** `deleteDocument(id)`. */
    method DeleteDocument(n: IndexName, id: Key, reply: IndexReply)
      modifies this
      ensures Docs(n) == if reply == Enqueued then old(Docs(n)) - {id} else old(Docs(n))
      ensures forall n' :: n' != n ==> Docs(n') == old(Docs(n'))
    {
      if reply == Enqueued {
        docs := docs[n := Docs(n) - {id}];
      }
    }
  }
}
