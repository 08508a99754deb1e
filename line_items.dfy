/**
 * The form's list of line items and the three things the user does to it:
 * edit one field of one line (recomputing the line's amount when the
 * quantity or the rate changed), add a blank line, and remove a line, which
 * is refused while only one line is left.
 */
module LineItems {
  import opened InvoiceData
  import JsBuiltins

  /** The line a fresh form starts with and "Add Line Item" appends. */
  const DefaultLineItem := LineItem("", 1, 0.0, 0.0)

  /** A field name with the value written to it. */
  datatype Edit = Description(text: string) | Quantity(quantity: int) | Rate(rate: real)

  /** The line after one edit: the edited field takes the new value, and a
      quantity or rate edit also sets the amount to quantity * rate. */
  function EditedItem(item: LineItem, edit: Edit): (r: LineItem)
    ensures r.description == (if edit.Description? then edit.text else item.description)
    ensures r.quantity == (if edit.Quantity? then edit.quantity else item.quantity)
    ensures r.rate == (if edit.Rate? then edit.rate else item.rate)
    ensures edit.Description? ==> r.amount == item.amount
    ensures !edit.Description? ==> AmountConsistent(r)
  {
    match edit
    case Description(text) => item.(description := text)
    case Quantity(q) => LineItem(item.description, q, item.rate, q as real * item.rate)
    case Rate(x) => LineItem(item.description, item.quantity, x, item.quantity as real * x)
  }

  /** `updateLineItemAmount(index, field, value)`: a shallow copy of the list
      whose line `index` gets the value in its field and, for the quantity
      or the rate, the recomputed amount.  An index outside the list makes
      the field write throw (the element is undefined); then `ok` is false
      and nothing is stored. */
  method UpdateLineItemAmount(lineItems: seq<LineItem>, index: int, edit: Edit)
    returns (newLineItems: seq<LineItem>, ok: bool)
    ensures ok <==> 0 <= index < |lineItems|
    ensures |newLineItems| == |lineItems|
    ensures ok ==> newLineItems[index] == EditedItem(lineItems[index], edit)
    ensures forall j :: 0 <= j < |lineItems| && j != index ==> newLineItems[j] == lineItems[j]
  {
    newLineItems := lineItems;
    if !(0 <= index < |newLineItems|) {
      ok := false;
      return;
    }
    ok := true;
    match edit {
      case Description(text) =>
        newLineItems := newLineItems[index := newLineItems[index].(description := text)];
      case Quantity(q) =>
        newLineItems := newLineItems[index := newLineItems[index].(quantity := q)];
      case Rate(x) =>
        newLineItems := newLineItems[index := newLineItems[index].(rate := x)];
    }
    if edit.Quantity? || edit.Rate? {
      var item := newLineItems[index];
      newLineItems := newLineItems[index := item.(amount := item.quantity as real * item.rate)];
    }
  }

  /** `addLineItem`: the list with one default line appended. */
  function AddLineItem(lineItems: seq<LineItem>): (r: seq<LineItem>)
    ensures |r| == |lineItems| + 1
    ensures r[..|lineItems|] == lineItems
    ensures r[|lineItems|] == LineItem("", 1, 0.0, 0.0) && AmountConsistent(r[|lineItems|])
  {
    lineItems + [DefaultLineItem]
  }

  /** The `filter` callback of `removeLineItem`: keep every index but `index`. */
  function KeepOtherIndex(index: int): (keep: (LineItem, nat) -> bool)
    ensures forall x, i :: keep(x, i) == (i != index)
  {
    (x: LineItem, i: nat) => i != index
  }

  /** `removeLineItem(index)`: with more than one line, the lines whose
      position is not `index`; with one line (or none), the list as it is. */
  function RemoveLineItem(lineItems: seq<LineItem>, index: int): (r: seq<LineItem>)
    ensures |lineItems| <= 1 ==> r == lineItems
    ensures |lineItems| > 1 && 0 <= index < |lineItems| ==> r == lineItems[..index] + lineItems[index + 1..]
    ensures !(0 <= index < |lineItems|) ==> r == lineItems
    ensures |lineItems| >= 1 ==> |r| >= 1
  {
    if |lineItems| > 1 then
      JsBuiltins.FilterDropsIndex(lineItems, KeepOtherIndex(index), index);
      JsBuiltins.Filter(lineItems, KeepOtherIndex(index))
    else lineItems
  }

  /** Every line satisfies the amount relation, and there is at least one line. */
  predicate DraftInvariant(lineItems: seq<LineItem>)
  {
    |lineItems| >= 1 && AllAmountsConsistent(lineItems)
  }

  /** The starting list satisfies the invariant. */
  lemma InitialDraftInvariant()
    ensures DraftInvariant([DefaultLineItem])
  {
  }

  /** Editing, adding and removing keep the invariant. */
  lemma EditKeepsDraftInvariant(lineItems: seq<LineItem>, index: nat, edit: Edit)
    requires DraftInvariant(lineItems) && index < |lineItems|
    ensures DraftInvariant(lineItems[index := EditedItem(lineItems[index], edit)])
  {
    assert AmountConsistent(lineItems[index]);
  }

  lemma AddKeepsDraftInvariant(lineItems: seq<LineItem>)
    requires DraftInvariant(lineItems)
    ensures DraftInvariant(AddLineItem(lineItems))
  {
    var r := AddLineItem(lineItems);
    forall i | 0 <= i < |r| ensures AmountConsistent(r[i]) {
      if i < |lineItems| {
        assert r[i] == r[..|lineItems|][i];
      }
    }
  }

  lemma RemoveKeepsDraftInvariant(lineItems: seq<LineItem>, index: int)
    requires DraftInvariant(lineItems)
    ensures DraftInvariant(RemoveLineItem(lineItems, index))
  {
    var r := RemoveLineItem(lineItems, index);
    if |lineItems| > 1 && 0 <= index < |lineItems| {
      forall i | 0 <= i < |r| ensures AmountConsistent(r[i]) {
        if i < index {
          assert r[i] == lineItems[i];
        } else {
          assert r[i] == lineItems[i + 1];
        }
      }
    }
  }
}
