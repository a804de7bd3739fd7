/**
  The invoice service of src/services/invoiceService.ts in its demo mode:
  `createInvoice` prices the line items and builds a fresh draft record,
  `markAsPaid` and `cancelInvoice` return literal update records. The clock
  (`Date.now()` and `new Date().toISOString()`) is a parameter; the
  simulated delays are dropped.
 */
module InvoiceService {
  import opened Common
  import Text

  /** One line of `InvoiceData.items`. */
  datatype LineInput = LineInput(description: string, quantity: real, unitPrice: real)

  /** `InvoiceData`: what a caller asks the service to create. */
  datatype InvoiceData = InvoiceData(
    customerId: string,
    items: seq<LineInput>,
    dueDate: Option<string>,
    notes: Option<string>,
    terms: Option<string>,
    taxPercent: Option<real>,
    discountAmount: Option<real>)

  /** The record `createInvoice` returns: the full draft on the normal path,
      the fixed stub its catch block returns otherwise. */
  datatype CreatedInvoice =
    | Draft(
        id: string,
        invoiceNumber: string,
        customerId: string,
        status: string,
        subtotal: real,
        taxAmount: real,
        discountAmount: real,
        totalAmount: real,
        amountDue: real,
        currency: string,
        dueDate: Option<string>,
        notes: Option<string>,
        terms: Option<string>,
        createdAt: string)
    | ErrorStub(id: string, invoiceNumber: string, status: string)

  /** Whether a service call ran to completion or its body threw and the
      catch block answered instead. */
  datatype Path = Completed | Threw

  /** `x || 0` for an optional number. */
  function OrZero(x: Option<real>): real {
    x.GetOr(0.0)
  }

  /** Σ quantity·unit_price over the lines. */
  function LinesSubtotal(items: seq<LineInput>): real {
    if items == [] then 0.0
    else items[0].quantity * items[0].unitPrice + LinesSubtotal(items[1..])
  }

  /** The subtotal of a concatenation is the sum of the subtotals. */
  lemma {:induction false} LinesSubtotalAppend(a: seq<LineInput>, b: seq<LineInput>)
    ensures LinesSubtotal(a + b) == LinesSubtotal(a) + LinesSubtotal(b)
  {
    if a != [] {
      assert (a + b)[1..] == a[1..] + b;
      LinesSubtotalAppend(a[1..], b);
    } else {
      assert a + b == b;
    }
  }

  /** With no negative quantity or price, the subtotal is not negative. */
  lemma {:induction false} LinesSubtotalNonNegative(items: seq<LineInput>)
    requires forall i :: 0 <= i < |items| ==> items[i].quantity >= 0.0 && items[i].unitPrice >= 0.0
    ensures LinesSubtotal(items) >= 0.0
  {
    if items != [] {
      LinesSubtotalNonNegative(items[1..]);
    }
  }

  /** The service's tax, `subtotal * (tax_percent / 100)`: the full subtotal is taxed. */
  function ServiceTax(subtotal: real, taxPercent: real): real {
    subtotal * (taxPercent / 100.0)
  }

  /** The service's total: taxed subtotal, then the discount is subtracted. */
  function ServiceTotal(subtotal: real, discount: real, taxPercent: real): real {
    subtotal + ServiceTax(subtotal, taxPercent) - discount
  }

  /** 'INV-' followed by the last six characters of the clock's decimal rendering. */
  function InvoiceNumber(now: nat): string {
    "INV-" + Text.Last(Text.NatToString(now), 6)
  }

  /** `createInvoice`. `now` is `Date.now()`, `createdAt` its ISO rendering. */
  function CreateInvoice(data: InvoiceData, now: nat, createdAt: string, path: Path): (r: CreatedInvoice)
    ensures path == Threw <==> r.ErrorStub?
    ensures r.status == "draft"
    ensures r.Draft? ==> r.customerId == data.customerId && r.currency == "USD"
    ensures r.Draft? ==> r.subtotal == LinesSubtotal(data.items)
    ensures r.Draft? ==> r.discountAmount == OrZero(data.discountAmount)
    ensures r.Draft? ==> r.taxAmount == ServiceTax(r.subtotal, OrZero(data.taxPercent))
    ensures r.Draft? ==> r.totalAmount == r.subtotal + r.taxAmount - r.discountAmount
    ensures r.Draft? ==> r.amountDue == r.totalAmount
    ensures r.Draft? ==> r.invoiceNumber == InvoiceNumber(now) && r.id == "inv_demo_" + Text.NatToString(now)
    ensures r.Draft? ==> r.dueDate == data.dueDate && r.notes == data.notes && r.terms == data.terms
    ensures r.Draft? ==> r.createdAt == createdAt
    ensures r.ErrorStub? ==> r.id == "inv_demo_error" && r.invoiceNumber == "INV-ERROR"
  {
    match path
    case Threw => ErrorStub("inv_demo_error", "INV-ERROR", "draft")
    case Completed =>
      var subtotal := LinesSubtotal(data.items);
      var tax := ServiceTax(subtotal, OrZero(data.taxPercent));
      var total := subtotal + tax - OrZero(data.discountAmount);
      Draft(
        "inv_demo_" + Text.NatToString(now),
        InvoiceNumber(now),
        data.customerId,
        "draft",
        subtotal, tax, OrZero(data.discountAmount), total, total,
        "USD",
        data.dueDate, data.notes, data.terms,
        createdAt)
  }

  /** The invariants every stored invoice is meant to satisfy:
      total = subtotal − discount + tax and amount_due = total − amount_paid. */
  predicate Balanced(subtotal: real, tax: real, discount: real, total: real, amountPaid: real, amountDue: real) {
    total == subtotal - discount + tax && amountDue == total - amountPaid
  }

  /** A created draft is balanced with nothing paid, and without tax or
      discount its total is exactly the subtotal. */
  lemma CreatedDraftBalanced(data: InvoiceData, now: nat, createdAt: string)
    ensures var r := CreateInvoice(data, now, createdAt, Completed);
      && Balanced(r.subtotal, r.taxAmount, r.discountAmount, r.totalAmount, 0.0, r.amountDue)
      && (OrZero(data.taxPercent) == 0.0 && OrZero(data.discountAmount) == 0.0 ==> r.totalAmount == LinesSubtotal(data.items))
  {
  }

  /** Once the clock has six digits the invoice number is 'INV-' and exactly
      six decimal digits. */
  lemma InvoiceNumberShape(now: nat)
    requires now >= 100000
    ensures var n := InvoiceNumber(now);
      && |n| == 10 && n[..4] == "INV-"
      && forall i :: 4 <= i < 10 ==> '0' <= n[i] <= '9'
  {
    Text.NatToStringLength(now);
    var k := Text.DigitCount(now);
    if k < 6 {
      PowMonotone(k, 5);
      assert false;
    }
    var s := Text.NatToString(now);
    var tail := Text.Last(s, 6);
    assert forall i :: 0 <= i < 6 ==> tail[i] == s[|s| - 6 + i];
  }

  /** The created draft's number carries the last six digits of its id. */
  lemma CreatedNumberMatchesId(data: InvoiceData, now: nat, createdAt: string)
    requires now >= 100000
    ensures var r := CreateInvoice(data, now, createdAt, Completed);
      && |r.invoiceNumber| == 10 && r.invoiceNumber[..4] == "INV-"
      && |r.id| >= 6 && r.invoiceNumber[4..] == r.id[|r.id| - 6..]
  {
    InvoiceNumberShape(now);
    var r := CreateInvoice(data, now, createdAt, Completed);
    var digits := Text.NatToString(now);
    assert |digits| >= 6;
    assert r.id[|r.id| - 6..] == digits[|digits| - 6..];
  }

  lemma {:induction false} PowMonotone(k: nat, m: nat)
    requires k <= m
    ensures Text.Pow10(k) <= Text.Pow10(m)
  {
    if k < m {
      PowMonotone(k, m - 1);
    }
  }

  /** What `markAsPaid` returns. */
  datatype PaidUpdate = PaidUpdate(id: string, status: string, paidAt: Option<string>, amountPaid: Option<real>)

  /** `markAsPaid(invoiceId, paymentAmount)`; `paidAt` is the clock's ISO rendering. */
  function MarkAsPaid(invoiceId: string, paymentAmount: Option<real>, paidAt: string, path: Path): (r: PaidUpdate)
    ensures r.id == invoiceId && r.status == "paid"
    ensures path == Completed ==> r.amountPaid == paymentAmount && r.paidAt == Some(paidAt)
    ensures path == Threw ==> r.amountPaid == None && r.paidAt == None
  {
    match path
    case Completed => PaidUpdate(invoiceId, "paid", Some(paidAt), paymentAmount)
    case Threw => PaidUpdate(invoiceId, "paid", None, None)
  }

  /** What `cancelInvoice` returns. */
  datatype StatusUpdate = StatusUpdate(id: string, status: string)

  /** `cancelInvoice(invoiceId)`: both paths answer the same record. */
  function CancelInvoice(invoiceId: string, path: Path): (r: StatusUpdate)
    ensures r == StatusUpdate(invoiceId, "canceled")
  {
    match path
    case Completed => StatusUpdate(invoiceId, "canceled")
    case Threw => StatusUpdate(invoiceId, "canceled")
  }
}
