/**
 * The three hooks behind the product forms: the single-field form update, the completeness
 * validator whose result enables the submit button, and the duplicate-name check.
 *
 * A form's data is a product record: the text of the name input, and the values of the two
 * number inputs, which a browser only ever reports as the empty text or a numeric text
 * (`Empty` or `Num`).
 */
module Forms {
  import opened Wrappers
  import opened Text
  import opened Amounts
  import opened Store

  // ---------------------------------------------------------------------------------------
  // useForm
  // ---------------------------------------------------------------------------------------

  /** `prev => ({...prev, [name]: value})`: the named field takes the value, whether or not
      the record had it, and every other field is kept. */
  function HandleChange<V>(data: map<string, V>, name: string, value: V): (r: map<string, V>)
    ensures r.Keys == data.Keys + {name}
    ensures name in r && r[name] == value
    ensures forall f :: f in data && f != name ==> r[f] == data[f]
  {
    data[name := value]
  }

  /** A second change of the same field wins. */
  lemma HandleChangeLastWins<V>(data: map<string, V>, name: string, v1: V, v2: V)
    ensures HandleChange(HandleChange(data, name, v1), name, v2) == HandleChange(data, name, v2)
  {
  }

  /** Changes of different fields commute. */
  lemma HandleChangeCommutes<V>(data: map<string, V>, n1: string, v1: V, n2: string, v2: V)
    requires n1 != n2
    ensures HandleChange(HandleChange(data, n1, v1), n2, v2) == HandleChange(HandleChange(data, n2, v2), n1, v1)
  {
  }

  /** The JavaScript value of one field of a product record. */
  datatype Value = Str(s: string) | Amt(a: Amount) | Stamp(t: int)

  /** A product record as the object the form holds; a record without a timestamp (a new
      product's form) has no `timestamp` field. */
  function Fields(it: Item): (m: map<string, Value>)
    ensures m.Keys == {"product_name", "quantity", "price"} + (if it.timestamp.Some? then {"timestamp"} else {})
    ensures m["product_name"] == Str(it.product_name)
    ensures m["quantity"] == Amt(it.quantity) && m["price"] == Amt(it.price)
  {
    var m := map["product_name" := Str(it.product_name), "quantity" := Amt(it.quantity), "price" := Amt(it.price)];
    if it.timestamp.Some? then m["timestamp" := Stamp(it.timestamp.value)] else m
  }

  /** An edit event of one of the three inputs of a product form. */
  datatype FieldEdit = EditName(s: string) | EditQuantity(q: Amount) | EditPrice(p: Amount) {
    function Name(): string {
      match this
      case EditName(_) => "product_name"
      case EditQuantity(_) => "quantity"
      case EditPrice(_) => "price"
    }
    function NewValue(): Value {
      match this
      case EditName(s) => Str(s)
      case EditQuantity(q) => Amt(q)
      case EditPrice(p) => Amt(p)
    }
  }

  /** The form update on a product record. */
  function Edit(it: Item, e: FieldEdit): (r: Item)
    ensures r.timestamp == it.timestamp
    ensures e.EditName? ==> r == it.(product_name := e.s)
    ensures e.EditQuantity? ==> r == it.(quantity := e.q)
    ensures e.EditPrice? ==> r == it.(price := e.p)
  {
    match e
    case EditName(s) => it.(product_name := s)
    case EditQuantity(q) => it.(quantity := q)
    case EditPrice(p) => it.(price := p)
  }

  /** Editing the record is the generic form update applied to the record's fields. */
  lemma EditIsHandleChange(it: Item, e: FieldEdit)
    ensures Fields(Edit(it, e)) == HandleChange(Fields(it), e.Name(), e.NewValue())
  {
    var l, r := Fields(Edit(it, e)), HandleChange(Fields(it), e.Name(), e.NewValue());
    assert l.Keys == r.Keys;
    forall f | f in l ensures l[f] == r[f] {
    }
  }

  /** `useForm(initialValues)`: the form data starts as the initial values. */
  class FormHook {
    var data: Item

    constructor (initialValues: Item)
      ensures data == initialValues
    {
      data := initialValues;
    }

    /** `handleChange(event)`. */
    method HandleChange(e: FieldEdit)
      modifies this
      ensures data == Edit(old(data), e)
    {
      data := Edit(data, e);
    }
  }

  // ---------------------------------------------------------------------------------------
  // useValidate
  // ---------------------------------------------------------------------------------------

  /** The outcome of a screen's `validateForm()`: accepted, or rejected with the message of
      the first check that failed. */
  datatype Verdict = Accept | Reject(message: string)

  /** The form is complete: a name that is not blank, and a truthy, non-negative quantity
      and price. A number input's text "0" is truthy, so zero passes. */
  predicate IsComplete(data: Item) {
    && !IsBlank(data.product_name)
    && Truthy(data.quantity) && !Below(data.quantity, 0.0)
    && Truthy(data.price) && !Below(data.price, 0.0)
  }

  /** A complete form holds a non-negative number in both numeric fields. */
  lemma CompleteHasNumbers(data: Item)
    requires IsComplete(data)
    ensures data.quantity.Num? && data.quantity.x >= 0.0
    ensures data.price.Num? && data.price.x >= 0.0
  {
  }

  /** `useValidate()`: `isValid` starts false and holds the result of the last validation. */
  class Validator {
    var isValid: bool

    constructor ()
      ensures !isValid
    {
      isValid := false;
    }

    /** `validate(data)`: clears the flag on each failed check in turn, then stores it. */
    method Validate(data: Item) returns (valid: bool)
      modifies this
      ensures valid == IsComplete(data)
      ensures isValid == valid
    {
      valid := true;
      if IsBlank(data.product_name) {
        valid := false;
      }
      if !Truthy(data.quantity) || Below(data.quantity, 0.0) {
        valid := false;
      }
      if !Truthy(data.price) || Below(data.price, 0.0) {
        valid := false;
      }
      isValid := valid;
    }
  }

  // ---------------------------------------------------------------------------------------
  // useProductExists
  // ---------------------------------------------------------------------------------------

  /** `useProductExists()`: its `exists` state, here `productExists`, starts false. */
  class ProductExists {
    var productExists: bool

    constructor ()
      ensures !productExists
    {
      productExists := false;
    }

    /** `checkProductExists(name, collection)`: reads, without writing, whether a record of
        the collection carries exactly this name, and records it in the state. A failed read
        rejects the returned promise (`threw`) and leaves the state as it was. */
    method Check(store: Database, c: ItemColl, name: string, ok: bool) returns (threw: bool)
      modifies this
      ensures threw <==> !ok
      ensures ok ==> productExists == store.db.HasName(c, name)
      ensures !ok ==> productExists == old(productExists)
    {
      var r := store.NameExists(c, name, ok);
      if r.Some? {
        productExists := r.value;
        threw := false;
      } else {
        threw := true;
      }
    }
  }
}
