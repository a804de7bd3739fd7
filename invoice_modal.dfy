/**
  The create-invoice modal of src/components/modals/CreateInvoiceModal.tsx:
  an editable, never-empty list of line items whose amounts follow
  quantity × unit price, the modal's own subtotal/tax/total formulas, the
  submit gate in front of the invoice service, and the form reset.
 */
module InvoiceModal {
  import opened Common
  import Service = InvoiceService

  /** `InvoiceItem`. */
  datatype Item = Item(description: string, quantity: real, unitPrice: real, amount: real)

  /** The row `addItem` appends and `resetForm` starts from: 1 × 0 = 0. */
  const BlankItem: Item := Item("", 1.0, 0.0, 0.0)

  /** `amount == quantity * unit_price` for one item and for every item. */
  predicate Priced(it: Item) {
    it.amount == it.quantity * it.unitPrice
  }

  predicate AllPriced(items: seq<Item>) {
    forall i :: 0 <= i < |items| ==> Priced(items[i])
  }

  /** The `(field, value)` pairs `updateItem` receives. The form's inputs
      send the first three; the item type also admits `amount`. */
  datatype ItemEdit =
    | SetDescription(text: string)
    | SetQuantity(quantity: real)
    | SetUnitPrice(unitPrice: real)
    | SetAmount(amount: real)

  /** The item `updateItem` writes back at the edited index: the field is
      replaced and, for quantity or unit price, the amount recomputed. */
  function ApplyEdit(it: Item, edit: ItemEdit): (r: Item)
    ensures edit.SetQuantity? || edit.SetUnitPrice? ==> Priced(r)
    ensures edit.SetDescription? ==> r == it.(description := edit.text)
    ensures edit.SetQuantity? ==> r.quantity == edit.quantity && r.description == it.description && r.unitPrice == it.unitPrice
    ensures edit.SetUnitPrice? ==> r.unitPrice == edit.unitPrice && r.description == it.description && r.quantity == it.quantity
    ensures edit.SetAmount? ==> r == it.(amount := edit.amount)
    ensures !edit.SetAmount? && Priced(it) ==> Priced(r)
  {
    match edit
    case SetDescription(t) => it.(description := t)
    case SetQuantity(q) => var e := it.(quantity := q); e.(amount := e.quantity * e.unitPrice)
    case SetUnitPrice(p) => var e := it.(unitPrice := p); e.(amount := e.quantity * e.unitPrice)
    case SetAmount(a) => it.(amount := a)
  }

  /** `items.filter((_, i) => i !== index)`, walking from position `from`. */
  function DropIndex(items: seq<Item>, index: int, from: int): seq<Item>
    decreases |items|
  {
    if items == [] then []
    else (if from == index then [] else [items[0]]) + DropIndex(items[1..], index, from + 1)
  }

  /** The filter deletes exactly the item at `index` when it is in range,
      keeping the others in order, and nothing otherwise. */
  lemma DropIndexIsSplice(items: seq<Item>, index: int, from: int)
    ensures from <= index < from + |items| ==> DropIndex(items, index, from) == items[..index - from] + items[index - from + 1..]
    ensures !(from <= index < from + |items|) ==> DropIndex(items, index, from) == items
  {
    if from <= index < from + |items| {
      DropIndexInside(items, index, from);
    } else {
      DropIndexOutside(items, index, from);
    }
  }

  lemma {:induction false} DropIndexOutside(items: seq<Item>, index: int, from: int)
    requires !(from <= index < from + |items|)
    ensures DropIndex(items, index, from) == items
    decreases |items|
  {
    if items != [] {
      DropIndexOutside(items[1..], index, from + 1);
      assert items == [items[0]] + items[1..];
    }
  }

  lemma {:induction false} DropIndexInside(items: seq<Item>, index: int, from: int)
    requires from <= index < from + |items|
    ensures DropIndex(items, index, from) == items[..index - from] + items[index - from + 1..]
    decreases |items|
  {
    var tail := items[1..];
    if from == index {
      DropIndexOutside(tail, index, from + 1);
      assert items[..0] + items[1..] == tail;
    } else {
      DropIndexInside(tail, index, from + 1);
      var k := index - from;
      assert items[..k] == [items[0]] + tail[..k - 1];
      assert items[k + 1..] == tail[k..];
    }
  }

  /** Σ amount over the items (`calculateSubtotal`). */
  function Subtotal(items: seq<Item>): real {
    if items == [] then 0.0 else items[0].amount + Subtotal(items[1..])
  }

  /** The modal's tax: the discounted subtotal is taxed (`calculateTax`). */
  function ModalTax(subtotal: real, discount: real, taxPercent: real): real {
    (subtotal - discount) * (taxPercent / 100.0)
  }

  /** `calculateTotal`. */
  function ModalTotal(subtotal: real, discount: real, taxPercent: real): real {
    subtotal - discount + ModalTax(subtotal, discount, taxPercent)
  }

  /** Without tax the modal's total is the subtotal less the discount, and the
      total is always the discounted subtotal scaled by (1 + tax%/100). */
  lemma ModalTotalShape(subtotal: real, discount: real, taxPercent: real)
    ensures ModalTotal(subtotal, discount, 0.0) == subtotal - discount
    ensures ModalTotal(subtotal, discount, taxPercent) == (subtotal - discount) * (1.0 + taxPercent / 100.0)
  {
  }

  /** The modal and the service total the same prices differently; the two
      agree exactly when there is no discount or no tax. */
  lemma {:induction false} TotalsAgreeIff(subtotal: real, discount: real, taxPercent: real)
    ensures ModalTotal(subtotal, discount, taxPercent) == Service.ServiceTotal(subtotal, discount, taxPercent)
      <==> discount == 0.0 || taxPercent == 0.0
  {
    var p := taxPercent / 100.0;
    assert ModalTotal(subtotal, discount, taxPercent) - Service.ServiceTotal(subtotal, discount, taxPercent) == -(discount * p);
    if discount != 0.0 && taxPercent != 0.0 {
      assert p != 0.0;
    }
  }

  /** The two items of a draft of 2 × 50 with 10% tax and a discount of 5:
      the modal shows a total of 104.5 while the service records 105. */
  lemma TotalsDivergeOnDiscountedTaxedDraft()
    ensures var items := [Item("Consulting", 2.0, 50.0, 100.0)];
      && Subtotal(items) == 100.0
      && ModalTax(100.0, 5.0, 10.0) == 9.5
      && ModalTotal(Subtotal(items), 5.0, 10.0) == 104.5
      && Service.ServiceTotal(Service.LinesSubtotal(Lines(items)), 5.0, 10.0) == 105.0
  {
    var items := [Item("Consulting", 2.0, 50.0, 100.0)];
    assert Lines(items) == [Service.LineInput("Consulting", 2.0, 50.0)];
  }

  /** The lines the modal hands to `createInvoice` (amount dropped). */
  function Lines(items: seq<Item>): (r: seq<Service.LineInput>)
    ensures |r| == |items|
    ensures forall i :: 0 <= i < |items| ==>
      r[i] == Service.LineInput(items[i].description, items[i].quantity, items[i].unitPrice)
  {
    if items == [] then [] else [Service.LineInput(items[0].description, items[0].quantity, items[0].unitPrice)] + Lines(items[1..])
  }

  /** When every amount is priced, the modal's subtotal (Σ amount) equals the
      service's subtotal (Σ quantity × unit price) of the submitted lines. */
  lemma {:induction false} SubtotalsAgree(items: seq<Item>)
    requires AllPriced(items)
    ensures Subtotal(items) == Service.LinesSubtotal(Lines(items))
  {
    if items != [] {
      assert Lines(items)[1..] == Lines(items[1..]);
      SubtotalsAgree(items[1..]);
    }
  }

  /** Why `handleSubmit` refuses. */
  datatype SubmitError = NoCustomer | IncompleteItem

  /** An item the submit gate rejects: no description, quantity ≤ 0 or a
      negative unit price. */
  predicate BadItem(it: Item) {
    it.description == "" || it.quantity <= 0.0 || it.unitPrice < 0.0
  }

  /** `x || undefined` for a text field. */
  function NonEmpty(s: string): Option<string> {
    if s == "" then None else Some(s)
  }

  /** The checks at the head of `handleSubmit` and the request it builds. */
  function SubmitGate(customerId: string, items: seq<Item>, dueDate: string, notes: string, terms: string,
                      taxPercent: real, discount: real): (r: Result<Service.InvoiceData, SubmitError>)
    ensures r == Err(NoCustomer) <==> customerId == ""
    ensures r == Err(IncompleteItem) <==> customerId != "" && exists i :: 0 <= i < |items| && BadItem(items[i])
    ensures r.Ok? ==> forall i :: 0 <= i < |items| ==> !BadItem(items[i])
    ensures r.Ok? ==> r.value.customerId == customerId && r.value.items == Lines(items)
    ensures r.Ok? ==> r.value.taxPercent == Some(taxPercent) && r.value.discountAmount == Some(discount)
    ensures r.Ok? ==> r.value.dueDate == NonEmpty(dueDate) && r.value.notes == NonEmpty(notes) && r.value.terms == NonEmpty(terms)
  {
    if customerId == "" then Err(NoCustomer)
    else if exists i :: 0 <= i < |items| && BadItem(items[i]) then Err(IncompleteItem)
    else Ok(Service.InvoiceData(customerId, Lines(items), NonEmpty(dueDate), NonEmpty(notes), NonEmpty(terms),
                                Some(taxPercent), Some(discount)))
  }

  /** A request that passes the gate has a non-negative service subtotal. */
  lemma AcceptedSubtotalNonNegative(customerId: string, items: seq<Item>, dueDate: string, notes: string, terms: string,
                                    taxPercent: real, discount: real)
    requires SubmitGate(customerId, items, dueDate, notes, terms, taxPercent, discount).Ok?
    ensures Service.LinesSubtotal(SubmitGate(customerId, items, dueDate, notes, terms, taxPercent, discount).value.items) >= 0.0
  {
    Service.LinesSubtotalNonNegative(Lines(items));
  }

  /** The modal's state. `initialCustomerId` is the `customerId` prop. */
  class Form {
    const initialCustomerId: string
    var selectedCustomerId: string
    var items: seq<Item>
    var dueDate: string
    var notes: string
    var terms: string
    var taxPercent: real
    var discountAmount: real

    /** The list is never empty. */
    ghost predicate Valid()
      reads this
    {
      |items| >= 1
    }

    /** The state after `resetForm` (and on first render). */
    ghost predicate IsReset()
      reads this
    {
      && selectedCustomerId == initialCustomerId
      && items == [BlankItem]
      && dueDate == "" && notes == "" && terms == ""
      && taxPercent == 0.0 && discountAmount == 0.0
    }

    constructor (customerId: string)
      ensures initialCustomerId == customerId
      ensures IsReset() && Valid() && AllPriced(items)
    {
      initialCustomerId := customerId;
      selectedCustomerId := customerId;
      items := [BlankItem];
      dueDate, notes, terms := "", "", "";
      taxPercent, discountAmount := 0.0, 0.0;
    }

    /** `addItem`: one blank item at the end. */
    method AddItem()
      requires Valid()
      modifies this`items
      ensures Valid()
      ensures items == old(items) + [BlankItem]
      ensures AllPriced(old(items)) ==> AllPriced(items)
    {
      items := items + [BlankItem];
    }

    /** `removeItem`: drops the item at `index` unless it is the last one. */
    method RemoveItem(index: int)
      requires Valid()
      modifies this`items
      ensures Valid()
      ensures |old(items)| > 1 && 0 <= index < |old(items)| ==> items == old(items)[..index] + old(items)[index + 1..]
      ensures |old(items)| <= 1 || !(0 <= index < |old(items)|) ==> items == old(items)
      ensures AllPriced(old(items)) ==> AllPriced(items)
    {
      if |items| > 1 {
        DropIndexIsSplice(items, index, 0);
        items := DropIndex(items, index, 0);
      }
    }

    /** `updateItem`: rewrites one field of the item at `index`. */
    method UpdateItem(index: nat, edit: ItemEdit)
      requires Valid() && index < |items|
      modifies this`items
      ensures Valid()
      ensures |items| == |old(items)|
      ensures items[index] == ApplyEdit(old(items)[index], edit)
      ensures forall j :: 0 <= j < |items| && j != index ==> items[j] == old(items)[j]
      ensures !edit.SetAmount? && AllPriced(old(items)) ==> AllPriced(items)
    {
      var updated := items;
      updated := updated[index := ApplyEdit(updated[index], edit)];
      items := updated;
    }

    /** `resetForm`. */
    method ResetForm()
      modifies this
      ensures IsReset() && Valid() && AllPriced(items)
    {
      selectedCustomerId := initialCustomerId;
      items := [BlankItem];
      dueDate, notes, terms := "", "", "";
      taxPercent, discountAmount := 0.0, 0.0;
    }

    /** `handleSubmit`: refuse with the gate's error and change nothing, or
        hand the request to `createInvoice` and reset the form. */
    method HandleSubmit(now: nat, createdAt: string) returns (outcome: Result<Service.CreatedInvoice, SubmitError>)
      requires Valid()
      modifies this
      ensures Valid()
      ensures var gate := SubmitGate(old(selectedCustomerId), old(items), old(dueDate), old(notes), old(terms),
                                     old(taxPercent), old(discountAmount));
        && (gate.Err? ==> outcome == Err(gate.error) && unchanged(this))
        && (gate.Ok? ==> outcome == Ok(Service.CreateInvoice(gate.value, now, createdAt, Service.Completed)) && IsReset())
    {
      var gate := SubmitGate(selectedCustomerId, items, dueDate, notes, terms, taxPercent, discountAmount);
      if gate.Err? {
        return Err(gate.error);
      }
      var created := Service.CreateInvoice(gate.value, now, createdAt, Service.Completed);
      outcome := Ok(created);
      ResetForm();
    }
  }

  /** A submitted form whose amounts are all priced records a subtotal equal
      to the one the modal showed. */
  lemma SubmittedSubtotalMatchesShown(customerId: string, items: seq<Item>, dueDate: string, notes: string, terms: string,
                                      taxPercent: real, discount: real, now: nat, createdAt: string)
    requires AllPriced(items)
    requires SubmitGate(customerId, items, dueDate, notes, terms, taxPercent, discount).Ok?
    ensures var r := Service.CreateInvoice(SubmitGate(customerId, items, dueDate, notes, terms, taxPercent, discount).value,
                                           now, createdAt, Service.Completed);
      && r.subtotal == Subtotal(items)
      && (r.totalAmount == ModalTotal(Subtotal(items), discount, taxPercent) <==> discount == 0.0 || taxPercent == 0.0)
  {
    SubtotalsAgree(items);
    TotalsAgreeIff(Subtotal(items), discount, taxPercent);
  }
}
