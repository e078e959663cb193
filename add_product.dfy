/**
 * The two "add product" screens, for screens (`LCD`) and for accessories (`Accessory`),
 * which differ only in the collection, the index and the page they return to. The form is
 * validated and checked for a duplicate name on every change; submitting creates the record
 * under a fresh key and then adds the matching document to the index.
 */
module AddProduct {
  import opened Wrappers
  import opened Amounts
  import opened Store
  import opened Forms

  /** The record the form creates: the name, the quantity read by `parseInt`, the price read
      by `parseFloat`, and the server's timestamp. */
  function NewRecord(data: Item, now: int): Item {
    Item(data.product_name, ParseInt(data.quantity), ParseFloat(data.price), Some(now))
  }

  /** The index document: the record's name, quantity and price, without its timestamp. */
  function NewDoc(data: Item): Doc {
    Doc(data.product_name, ParseInt(data.quantity), Some(ParseFloat(data.price)))
  }

  /** The document carries exactly the name, quantity and price of the record it mirrors,
      and a complete form gives a whole, non-negative quantity and a non-negative price. */
  lemma NewDocMirrorsRecord(data: Item, now: int)
    ensures NewDoc(data).product_name == NewRecord(data, now).product_name
    ensures NewDoc(data).quantity == NewRecord(data, now).quantity
    ensures NewDoc(data).price == Some(NewRecord(data, now).price)
    ensures IsComplete(data) ==>
      && NewRecord(data, now).quantity.Num? && NewRecord(data, now).quantity.x >= 0.0
      && NewRecord(data, now).price.Num? && NewRecord(data, now).price.x >= 0.0
  {
  }

  /** The store writes of a submit once the duplicate check has returned: nothing when the
      gate says the name exists, otherwise a pushed key and the new record under it. */
  function SubmitWrites(db: Db, c: ItemColl, data: Item, gate: bool, now: int, okSet: bool): (d: Db)
    ensures gate ==> d == db
    ensures !gate ==> (d.nextKey == db.nextKey + 1
      && d.Items(c) == (if okSet then db.Items(c)[db.nextKey := NewRecord(data, now)] else db.Items(c)))
    ensures forall c' :: c' != c ==> d.Items(c') == db.Items(c')
    ensures d.orders == db.orders
    ensures db.Valid() ==> d.Valid()
  {
    if gate then db
    else
      var pushed := db.Push();
      if okSet then pushed.SetItem(c, db.nextKey, NewRecord(data, now)) else pushed
  }

  /** Gated by the stale value `false` while the store already holds the name, a successful
      submit leaves two records of the collection with that name. */
  lemma StaleGateDuplicates(db: Db, c: ItemColl, data: Item, now: int)
    requires db.Valid() && db.HasName(c, data.product_name)
    ensures var d := SubmitWrites(db, c, data, false, now, true);
      exists k1, k2 :: k1 in d.Items(c) && k2 in d.Items(c) && k1 != k2
        && d.Items(c)[k1].product_name == data.product_name && d.Items(c)[k2].product_name == data.product_name
  {
    var k :| k in db.Items(c) && db.Items(c)[k].product_name == data.product_name;
    db.NextKeyFresh();
    var d := SubmitWrites(db, c, data, false, now, true);
    assert k in d.Items(c) && db.nextKey in d.Items(c) && k != db.nextKey;
  }

  /** Gated by what the store holds, a submit never adds a record whose name the collection
      already had. */
  lemma FreshGateNoDuplicate(db: Db, c: ItemColl, data: Item, now: int, okSet: bool)
    requires db.Valid()
    ensures var d := SubmitWrites(db, c, data, db.HasName(c, data.product_name), now, okSet);
      forall k :: k in d.Items(c) && k !in db.Items(c) ==> !db.HasName(c, d.Items(c)[k].product_name)
  {
  }

  class AddProductScreen {
    const kind: ItemColl
    const form: FormHook
    const validator: Validator
    const checker: ProductExists
    var saving: bool
    var navigated: bool

    /** The screen before its first effect: empty fields, not valid, no duplicate seen. */
    constructor (kind: ItemColl)
      ensures this.kind == kind && fresh(form) && fresh(validator) && fresh(checker)
      ensures form.data == Item("", Empty, Empty, None)
      ensures !validator.isValid && !checker.productExists && !saving && !navigated
    {
      this.kind := kind;
      form := new FormHook(Item("", Empty, Empty, None));
      validator := new Validator();
      checker := new ProductExists();
      saving, navigated := false, false;
    }

    /** An edit of one of the inputs. */
    method OnEdit(e: FieldEdit)
      modifies form
      ensures form.data == Forms.Edit(old(form.data), e)
    {
      form.HandleChange(e);
    }

    /** The effect that runs after each change of the form data: a non-empty name is checked
        for duplicates and the data is validated. */
    method OnDataChange(store: Database, okCheck: bool)
      modifies checker, validator
      ensures validator.isValid == IsComplete(form.data)
      ensures SubmitEnabled() <==> IsComplete(form.data)
      ensures form.data.product_name != "" && okCheck ==> checker.productExists == store.db.HasName(kind, form.data.product_name)
      ensures form.data.product_name == "" || !okCheck ==> checker.productExists == old(checker.productExists)
    {
      if form.data.product_name != "" {
        var _ := checker.Check(store, kind, form.data.product_name, okCheck);
      }
      var _ := validator.Validate(form.data);
    }

    /** A keystroke as the screen sees it: the edit, then the effect it triggers. Once the
        effect has run, the submit button is enabled exactly when the edited data is
        complete. */
    method Input(e: FieldEdit, store: Database, okCheck: bool)
      modifies form, checker, validator
      ensures form.data == Forms.Edit(old(form.data), e)
      ensures SubmitEnabled() <==> IsComplete(Forms.Edit(old(form.data), e))
      ensures form.data.product_name != "" && okCheck ==> checker.productExists == store.db.HasName(kind, form.data.product_name)
    {
      OnEdit(e);
      OnDataChange(store, okCheck);
    }

    /** `isDisabled={!isValid}`. */
    predicate SubmitEnabled()
      reads validator
    {
      validator.isValid
    }

    /** `handleSubmit(event)`. The duplicate check is awaited, but the gate reads the
        `exists` state the handler captured when it was created, before that check returned.
        A rejected check writes nothing; a store failure or an index task that is not
        enqueued leaves the earlier writes in place. `saving` is cleared on every path. */
    method HandleSubmit(store: Database, index: SearchIndex, now: int, okCheck: bool, okSet: bool, reply: IndexReply)
      requires store.db.Valid()
      modifies this, checker, store, index
      ensures store.db.Valid() && !saving
      ensures okCheck ==> checker.productExists == old(store.db).HasName(kind, form.data.product_name)
      ensures !okCheck ==> checker.productExists == old(checker.productExists)
      ensures !okCheck ==> store.db == old(store.db) && index.docs == old(index.docs) && navigated == old(navigated)
      ensures okCheck ==>
        && store.db == SubmitWrites(old(store.db), kind, form.data, old(checker.productExists), now, okSet)
        && index.Docs(IndexOf(kind)) ==
             (if !old(checker.productExists) && okSet && reply == Enqueued
              then old(index.Docs(IndexOf(kind)))[old(store.db).nextKey := NewDoc(form.data)]
              else old(index.Docs(IndexOf(kind))))
        && (forall n :: n != IndexOf(kind) ==> index.Docs(n) == old(index.Docs(n)))
        && navigated == (old(navigated) || (!old(checker.productExists) && okSet && reply == Enqueued))
    {
      saving := true;
      var gate := checker.productExists;
      var threw := checker.Check(store, kind, form.data.product_name, okCheck);
      if threw {
        saving := false;
        return;
      }
      Insert(store, index, gate, now, okSet, reply);
    }

    /** `handleSubmit` gated by the result of the check it awaits. */
    method HandleSubmitFresh(store: Database, index: SearchIndex, now: int, okCheck: bool, okSet: bool, reply: IndexReply)
      requires store.db.Valid()
      modifies this, checker, store, index
      ensures store.db.Valid() && !saving
      ensures okCheck ==> checker.productExists == old(store.db).HasName(kind, form.data.product_name)
      ensures !okCheck ==> checker.productExists == old(checker.productExists)
      ensures !okCheck ==> store.db == old(store.db) && index.docs == old(index.docs) && navigated == old(navigated)
      ensures okCheck && old(store.db).HasName(kind, form.data.product_name) ==>
        store.db == old(store.db) && (forall n :: index.Docs(n) == old(index.Docs(n))) && navigated == old(navigated)
      ensures okCheck ==>
        && store.db == SubmitWrites(old(store.db), kind, form.data, old(store.db).HasName(kind, form.data.product_name), now, okSet)
        && index.Docs(IndexOf(kind)) ==
             (if !old(store.db).HasName(kind, form.data.product_name) && okSet && reply == Enqueued
              then old(index.Docs(IndexOf(kind)))[old(store.db).nextKey := NewDoc(form.data)]
              else old(index.Docs(IndexOf(kind))))
        && (forall n :: n != IndexOf(kind) ==> index.Docs(n) == old(index.Docs(n)))
        && navigated == (old(navigated) || (!old(store.db).HasName(kind, form.data.product_name) && okSet && reply == Enqueued))
    {
      saving := true;
      var threw := checker.Check(store, kind, form.data.product_name, okCheck);
      if threw {
        saving := false;
        return;
      }
      Insert(store, index, checker.productExists, now, okSet, reply);
    }

    /** The rest of a submit after the duplicate check, behind the given gate. */
    method Insert(store: Database, index: SearchIndex, gate: bool, now: int, okSet: bool, reply: IndexReply)
      requires store.db.Valid()
      modifies this, store, index
      ensures store.db.Valid() && !saving
      ensures store.db == SubmitWrites(old(store.db), kind, form.data, gate, now, okSet)
      ensures index.Docs(IndexOf(kind)) ==
        (if !gate && okSet && reply == Enqueued
         then old(index.Docs(IndexOf(kind)))[old(store.db).nextKey := NewDoc(form.data)]
         else old(index.Docs(IndexOf(kind))))
      ensures forall n :: n != IndexOf(kind) ==> index.Docs(n) == old(index.Docs(n))
      ensures navigated == (old(navigated) || (!gate && okSet && reply == Enqueued))
    {
      if gate {
        saving := false;
        return;
      }
      var k := store.Push();
      store.SetItem(kind, k, NewRecord(form.data, now), okSet);
      if okSet {
        index.AddDocument(IndexOf(kind), k, NewDoc(form.data), reply);
        if reply == Enqueued {
          navigated := true;
        }
      }
      saving := false;
    }
  }
}
