/**
 * The accessory update screen: the record is loaded, edited field by field, validated, and
 * written back whole with `update()`; the index document is then updated from the form
 * data. A failed store write is only reported, so the index is updated even then.
 */
module UpdateAccessory {
  import opened Wrappers
  import opened Text
  import opened Amounts
  import opened Store
  import opened Forms

  /** The update screen's conditions: a name that is not blank, a quantity that is a
      non-negative number (the empty text reads as 0), and a price that is a positive
      number. */
  predicate ValidUpdate(data: Item) {
    && !IsBlank(data.product_name)
    && !IsNaN(data.quantity) && !Below(data.quantity, 0.0)
    && !IsNaN(data.price) && !AtMost(data.price, 0.0)
  }

  /** `validateForm()`: the checks in order, each rejecting with its own message. */
  function ValidateForm(data: Item): (v: Verdict)
    ensures v.Accept? <==> ValidUpdate(data)
    ensures IsBlank(data.product_name) ==> v == Reject("Product name is required")
    ensures (!IsBlank(data.product_name) && (IsNaN(data.quantity) || Below(data.quantity, 0.0))) ==>
      v == Reject("Quantity must be a positive number")
    ensures (!IsBlank(data.product_name) && !IsNaN(data.quantity) && !Below(data.quantity, 0.0)
             && (IsNaN(data.price) || AtMost(data.price, 0.0))) ==>
      v == Reject("Price must be a positive number")
  {
    if IsBlank(data.product_name) then Reject("Product name is required")
    else if IsNaN(data.quantity) || Below(data.quantity, 0.0) then Reject("Quantity must be a positive number")
    else if IsNaN(data.price) || AtMost(data.price, 0.0) then Reject("Price must be a positive number")
    else Accept
  }

  /** Of `validateForm` alone: a cleared quantity input passes it, while a cleared price
      input does not. The inputs are also marked required, and the browser's own check of
      that, which runs before the submit handler, is not modelled. */
  lemma ClearedFields(data: Item)
    requires !IsBlank(data.product_name) && data.price.Num? && data.price.x > 0.0
    ensures ValidUpdate(data.(quantity := Empty))
    ensures !ValidUpdate(data.(price := Empty))
  {
  }

  /** `update(productRef, data)`: every field the form holds; a record loaded without a
      timestamp sends none. */
  function UpdatePatch(data: Item): ItemPatch {
    ItemPatch(data.product_name, data.quantity, Some(data.price), data.timestamp)
  }

  /** The document sent with `updateDocuments`: the form's name, quantity and price. */
  function UpdateDoc(data: Item): Doc {
    Doc(data.product_name, data.quantity, Some(data.price))
  }

  /** The stored record becomes the form data, keeping the stored timestamp when the form
      has none, and the index document carries the same name, quantity and price. */
  lemma UpdateMirrorAgrees(stored: Item, prior: Option<Doc>, data: Item)
    ensures var r := Merge(stored, UpdatePatch(data));
      && r == data.(timestamp := if data.timestamp.Some? then data.timestamp else stored.timestamp)
      && MergeDoc(prior, UpdateDoc(data)) == Doc(r.product_name, r.quantity, Some(r.price))
  {
  }

  class UpdateAccessoryScreen {
    const id: Key
    var data: Option<Item>
    var sending: bool
    var navigated: bool

    constructor (id: Key)
      ensures this.id == id && data.None? && !sending && !navigated
    {
      this.id := id;
      data, sending, navigated := None, false, false;
    }

    /** `fetchProduct()`: a found record becomes the form data; a missing record or a failed
        read is only reported. */
    method OnProduct(r: Read)
      modifies this
      ensures data == (if r.Found? then Some(r.item) else old(data))
      ensures sending == old(sending) && navigated == old(navigated)
    {
      if r.Found? {
        data := Some(r.item);
      }
    }

    /** `handleChange(event)`: the named field takes the typed value, the others stay. The
        inputs are only shown once the record is loaded. */
    method HandleChange(e: FieldEdit)
      requires data.Some?
      modifies this
      ensures data == Some(Forms.Edit(old(data.value), e))
      ensures sending == old(sending) && navigated == old(navigated)
    {
      data := Some(Forms.Edit(data.value, e));
    }

    /** `handleSubmit(event)`: an invalid form writes nothing. A valid one sends the update,
        whose failure is only reported, and then the index update; the page is left only
        when the index task is enqueued. `sending` is cleared on every path. */
    method HandleSubmit(store: Database, index: SearchIndex, okUpdate: bool, reply: IndexReply)
      requires data.Some?
      requires store.db.Valid() && id in store.db.Items(Accessory)
      modifies this, store, index
      ensures store.db.Valid() && !sending && data == old(data)
      ensures !ValidUpdate(data.value) ==>
        store.db == old(store.db) && index.docs == old(index.docs) && navigated == old(navigated)
      ensures ValidUpdate(data.value) ==>
        && store.db == (if okUpdate then old(store.db).UpdateItem(Accessory, id, UpdatePatch(data.value)) else old(store.db))
        && index.Docs(Shop1Accessory) ==
             (if reply == Enqueued then PatchDocs(old(index.Docs(Shop1Accessory)), id, UpdateDoc(data.value))
              else old(index.Docs(Shop1Accessory)))
        && index.Docs(LcdIndex) == old(index.Docs(LcdIndex))
        && navigated == (old(navigated) || reply == Enqueued)
    {
      sending := true;
      if ValidateForm(data.value).Reject? {
        sending := false;
        return;
      }
      var d := data.value;
      store.UpdateItem(Accessory, id, UpdatePatch(d), okUpdate);
      index.UpdateDocument(Shop1Accessory, id, UpdateDoc(d), reply);
      if reply == Enqueued {
        navigated := true;
      }
      sending := false;
    }
  }
}
