/**
 * Customer suggestions of the two sale screens: the distinct customer names found in the
 * receipts, and the case-insensitive filter applied to them as the customer field is typed.
 * The same case-insensitive containment test is used by every text filter of the screens.
 */
module Customers {
  import opened Text
  import opened Store

  /** `name.toLowerCase().includes(text.toLowerCase())`. */
  predicate Matches(name: string, text: string) {
    Contains(Lower(name), Lower(text))
  }

  /** Every name matches the empty filter text. */
  lemma MatchesEmpty(name: string)
    ensures Matches(name, "")
  {
    ContainsEmpty(Lower(name));
  }

  predicate Distinct(names: seq<string>) {
    forall i, j :: 0 <= i < j < |names| ==> names[i] != names[j]
  }

  /** Some receipt carries this customer name. */
  predicate Named(receipts: seq<Order>, x: string) {
    exists i :: 0 <= i < |receipts| && receipts[i].customer_name == x
  }

  /**
   * The receipts listener's loop: every receipt whose `customer_name` is truthy adds it to a
   * `Set`, which `Array.from` then lists in insertion order. The result holds each non-empty
   * name of the receipts exactly once and nothing else.
   */
  method DistinctCustomers(receipts: seq<Order>) returns (names: seq<string>)
    ensures Distinct(names)
    ensures forall x :: x in names <==> x != "" && Named(receipts, x)
  {
    var seen: set<string> := {};
    names := [];
    for i := 0 to |receipts|
      invariant seen == set x | x in names
      invariant Distinct(names)
      invariant forall x :: x in names <==> x != "" && Named(receipts[..i], x)
    {
      var n := receipts[i].customer_name;
      if n != "" && n !in seen {
        seen := seen + {n};
        names := names + [n];
      }
      forall x ensures Named(receipts[..i + 1], x) <==> Named(receipts[..i], x) || x == n {
        if Named(receipts[..i + 1], x) {
          var j :| 0 <= j < i + 1 && receipts[..i + 1][j].customer_name == x;
          if j < i {
            assert receipts[..i][j] == receipts[..i + 1][j];
          }
        }
        if Named(receipts[..i], x) {
          var j :| 0 <= j < i && receipts[..i][j].customer_name == x;
          assert receipts[..i + 1][j] == receipts[..i][j];
        }
        if x == n {
          assert receipts[..i + 1][i] == receipts[i];
        }
      }
    }
    assert receipts[..|receipts|] == receipts;
  }

  /** `customers.filter(c => c.toLowerCase().includes(text.toLowerCase()))`: the matching
      names, in their order. */
  function Suggestions(names: seq<string>, text: string): (r: seq<string>)
    ensures |r| <= |names|
    ensures forall x :: x in r <==> x in names && Matches(x, text)
  {
    if names == [] then []
    else (if Matches(names[0], text) then [names[0]] else []) + Suggestions(names[1..], text)
  }

  /** Filtering a list without repetitions gives a list without repetitions. */
  lemma {:induction false} SuggestionsDistinct(names: seq<string>, text: string)
    requires Distinct(names)
    ensures Distinct(Suggestions(names, text))
  {
    if names != [] {
      assert Distinct(names[1..]);
      SuggestionsDistinct(names[1..], text);
      assert names[0] !in names[1..];
    }
  }

  /** The state the customer field drives on both sale screens. */
  class CustomerField {
    var customer: string
    var customers: seq<string>
    var filteredCustomers: seq<string>
    var showCustomerPreview: bool

    constructor ()
      ensures customer == "" && customers == [] && filteredCustomers == [] && !showCustomerPreview
    {
      customer, customers, filteredCustomers, showCustomerPreview := "", [], [], false;
    }

    /** The receipts listener: a non-empty snapshot replaces the suggestions with the distinct
        customer names of its records (given in key order); an empty one changes nothing. */
    method OnReceipts(receipts: seq<Order>)
      modifies this
      ensures receipts == [] ==> customers == old(customers)
      ensures receipts != [] ==> Distinct(customers) && forall x :: x in customers <==> x != "" && Named(receipts, x)
      ensures customer == old(customer) && filteredCustomers == old(filteredCustomers)
      ensures showCustomerPreview == old(showCustomerPreview)
    {
      if receipts != [] {
        customers := DistinctCustomers(receipts);
      }
    }

    /** `handleCustomerSearch(text)`: the field takes the text; a blank text hides the preview
        and leaves the last suggestions in place, any other refilters and shows them. */
    method HandleCustomerSearch(text: string)
      modifies this
      ensures customer == text && customers == old(customers)
      ensures IsBlank(text) ==> !showCustomerPreview && filteredCustomers == old(filteredCustomers)
      ensures !IsBlank(text) ==> showCustomerPreview && filteredCustomers == Suggestions(customers, text)
    {
      customer := text;
      if IsBlank(text) {
        showCustomerPreview := false;
        return;
      }
      filteredCustomers := Suggestions(customers, text);
      showCustomerPreview := true;
    }

    /** `selectCustomer(name)`: takes a suggestion and hides the preview. */
    method SelectCustomer(name: string)
      modifies this
      ensures customer == name && !showCustomerPreview
      ensures customers == old(customers) && filteredCustomers == old(filteredCustomers)
    {
      customer := name;
      showCustomerPreview := false;
    }
  }
}
