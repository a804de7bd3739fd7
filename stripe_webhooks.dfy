/**
  The payment-processor webhook of supabase/functions/stripe-webhooks/index.ts:
  a signed event is logged, dispatched on its type to one handler that
  inserts into or updates one table, and the log row is then flagged as
  processed. The remote tables are a store object holding one sequence of
  rows per table; `insert` appends a row and `update(...).eq(column, v)`
  rewrites every row whose column equals v. The signature check, the clock,
  the ISO rendering of timestamps and the database-assigned row ids are
  parameters.
 */
module StripeWebhooks {
  import opened Common
  import Text
  import Lists

  // ------------------------------------------------------------ the tables

  /** A `customers` row: the columns the webhook reads or writes. `userId` is
      None for a row the webhook inserted, since it gives none. */
  datatype CustomerRow = CustomerRow(
    id: string, userId: Option<string>, stripeCustomerId: Option<string>,
    name: Option<string>, email: Option<string>, phone: Option<string>)

  datatype InvoiceRow = InvoiceRow(
    id: string, userId: Option<string>, customerId: string, stripeInvoiceId: Option<string>,
    invoiceNumber: Option<string>, status: string, currency: string,
    subtotal: real, taxAmount: real, totalAmount: real, amountDue: real,
    amountPaid: Option<real>, dueDate: Option<string>, paidAt: Option<string>,
    hostedInvoiceUrl: Option<string>, pdfUrl: Option<string>)

  datatype SubscriptionRow = SubscriptionRow(
    id: string, userId: Option<string>, customerId: string, stripeSubscriptionId: Option<string>,
    status: string, periodStart: string, periodEnd: string,
    trialStart: Option<string>, trialEnd: Option<string>,
    canceledAt: Option<string>, endedAt: Option<string>)

  datatype PaymentRow = PaymentRow(
    id: string, userId: Option<string>, customerId: string, stripePaymentId: string,
    amount: real, currency: string, status: string, paymentMethod: Option<string>,
    processedAt: Option<string>, failureReason: Option<string>)

  /** A `webhooks` log row (the payload column is not modelled). */
  datatype WebhookRow = WebhookRow(eventType: string, eventId: string, processed: bool)

  /** The four business tables together. */
  datatype Tables = Tables(
    customers: seq<CustomerRow>, invoices: seq<InvoiceRow>,
    subscriptions: seq<SubscriptionRow>, payments: seq<PaymentRow>)

  // ---------------------------------------------------------- the payloads

  /** `event.data.object`, by the kind of object the event carries. Amounts
      are in cents, times in seconds since the epoch. */
  datatype Payload =
    | CustomerObject(id: string, name: Option<string>, email: Option<string>, phone: Option<string>)
    | InvoiceObject(
        id: string, customer: Option<string>, number: Option<string>, invoiceStatus: Option<string>,
        currency: string, subtotal: int, tax: Option<int>, total: int,
        amountDue: int, amountPaid: int, dueDate: Option<int>,
        hostedInvoiceUrl: Option<string>, invoicePdf: Option<string>)
    | SubscriptionObject(
        id: string, customer: Option<string>, status: string,
        currentPeriodStart: int, currentPeriodEnd: int,
        trialStart: Option<int>, trialEnd: Option<int>,
        canceledAt: Option<int>, endedAt: Option<int>)
    | PaymentIntentObject(
        id: string, customer: Option<string>, amount: int, currency: string,
        paymentMethodTypes: seq<string>, lastErrorMessage: Option<string>)
    | OtherObject

  datatype Event = Event(id: string, eventType: string, data: Payload)

  /** `new Date().toISOString()` and `new Date(s * 1000).toISOString()`. */
  datatype Clock = Clock(now: string, iso: int -> string)

  // ---------------------------------------------------------- the dispatch

  datatype Handler =
    | CustomerCreated | CustomerUpdated
    | InvoiceCreated | InvoicePaymentSucceeded | InvoicePaymentFailed
    | SubscriptionCreated | SubscriptionUpdated | SubscriptionDeleted
    | PaymentSucceeded | PaymentFailed
    | Unhandled

  /** The event types the switch names. */
  const HandledTypes: seq<string> := [
    "customer.created", "customer.updated",
    "invoice.created", "invoice.payment_succeeded", "invoice.payment_failed",
    "customer.subscription.created", "customer.subscription.updated", "customer.subscription.deleted",
    "payment_intent.succeeded", "payment_intent.payment_failed"]

  /** The `switch (event.type)`. */
  function Classify(eventType: string): (h: Handler)
    ensures h == Unhandled <==> eventType !in HandledTypes
    ensures h == CustomerCreated <==> eventType == "customer.created"
    ensures h == CustomerUpdated <==> eventType == "customer.updated"
    ensures h == InvoiceCreated <==> eventType == "invoice.created"
    ensures h == InvoicePaymentSucceeded <==> eventType == "invoice.payment_succeeded"
    ensures h == InvoicePaymentFailed <==> eventType == "invoice.payment_failed"
    ensures h == SubscriptionCreated <==> eventType == "customer.subscription.created"
    ensures h == SubscriptionUpdated <==> eventType == "customer.subscription.updated"
    ensures h == SubscriptionDeleted <==> eventType == "customer.subscription.deleted"
    ensures h == PaymentSucceeded <==> eventType == "payment_intent.succeeded"
    ensures h == PaymentFailed <==> eventType == "payment_intent.payment_failed"
  {
    match eventType
    case "customer.created" => CustomerCreated
    case "customer.updated" => CustomerUpdated
    case "invoice.created" => InvoiceCreated
    case "invoice.payment_succeeded" => InvoicePaymentSucceeded
    case "invoice.payment_failed" => InvoicePaymentFailed
    case "customer.subscription.created" => SubscriptionCreated
    case "customer.subscription.updated" => SubscriptionUpdated
    case "customer.subscription.deleted" => SubscriptionDeleted
    case "payment_intent.succeeded" => PaymentSucceeded
    case "payment_intent.payment_failed" => PaymentFailed
    case _ => Unhandled
  }

  /** The processor sends, with each event type, the kind of object its
      handler casts `event.data.object` to. */
  predicate Fits(e: Event) {
    match Classify(e.eventType)
    case CustomerCreated => e.data.CustomerObject?
    case CustomerUpdated => e.data.CustomerObject?
    case InvoiceCreated => e.data.InvoiceObject?
    case InvoicePaymentSucceeded => e.data.InvoiceObject?
    case InvoicePaymentFailed => e.data.InvoiceObject?
    case SubscriptionCreated => e.data.SubscriptionObject?
    case SubscriptionUpdated => e.data.SubscriptionObject?
    case SubscriptionDeleted => e.data.SubscriptionObject?
    case PaymentSucceeded => e.data.PaymentIntentObject?
    case PaymentFailed => e.data.PaymentIntentObject?
    case Unhandled => true
  }

  // ------------------------------------------------------- field mappings

  /** `cents / 100`. */
  function Units(cents: int): (u: real)
    ensures u * 100.0 == cents as real
  {
    cents as real / 100.0
  }

  /** `null / 100` is 0 in JavaScript. */
  function UnitsOrZero(cents: Option<int>): (u: real)
    ensures cents.None? ==> u == 0.0
    ensures cents.Some? ==> u == Units(cents.value)
  {
    if cents.Some? then Units(cents.value) else 0.0
  }

  /** `t ? new Date(t * 1000).toISOString() : null`: 0 and null give null. */
  function IsoOrNull(t: Option<int>, clock: Clock): (r: Option<string>)
    ensures r.None? <==> t.None? || t.value == 0
    ensures r.Some? ==> r.value == clock.iso(t.value)
  {
    if t.Some? && t.value != 0 then Some(clock.iso(t.value)) else None
  }

  /** `customer.name || customer.email`. */
  function NameOrEmail(name: Option<string>, email: Option<string>): (r: Option<string>)
    ensures name.Some? && name.value != "" ==> r == name
    ensures name.None? || name.value == "" ==> r == email
  {
    if name.Some? && name.value != "" then name else email
  }

  /** `.select('id, user_id').eq('stripe_customer_id', id).single()`: the
      row when exactly one matches, otherwise no data. An absent id (null)
      matches no row. */
  function SingleCustomer(rows: seq<CustomerRow>, stripeId: Option<string>): (r: Option<CustomerRow>)
    ensures r.Some? <==> stripeId.Some? && Lists.Count(rows, (c: CustomerRow) => c.stripeCustomerId == stripeId) == 1
    ensures r.Some? ==> r.value in rows && r.value.stripeCustomerId == stripeId
  {
    if stripeId.None? then None
    else
      var matches := Lists.Filter(rows, (c: CustomerRow) => c.stripeCustomerId == stripeId);
      Lists.FilterLength(rows, (c: CustomerRow) => c.stripeCustomerId == stripeId);
      if |matches| == 1 then Some(matches[0]) else None
  }

  /** The row `handleInvoiceCreated` inserts for the invoice, owned by the
      customer the lookup found. */
  function NewInvoiceRow(owner: CustomerRow, inv: Payload, clock: Clock, newId: string): (r: InvoiceRow)
    requires inv.InvoiceObject?
    ensures r.customerId == owner.id && r.userId == owner.userId && r.stripeInvoiceId == Some(inv.id)
    ensures r.status == "paid" <==> inv.invoiceStatus == Some("paid")
    ensures r.status == "paid" || r.status == "sent"
    ensures r.currency == Text.Upper(inv.currency)
    ensures r.subtotal * 100.0 == inv.subtotal as real && r.totalAmount * 100.0 == inv.total as real
    ensures r.amountDue * 100.0 == inv.amountDue as real
    ensures r.taxAmount * 100.0 == inv.tax.GetOr(0) as real
    ensures r.amountPaid == None && r.paidAt == None
  {
    InvoiceRow(
      newId, owner.userId, owner.id, Some(inv.id), inv.number,
      if inv.invoiceStatus == Some("paid") then "paid" else "sent",
      Text.Upper(inv.currency),
      Units(inv.subtotal), UnitsOrZero(inv.tax), Units(inv.total), Units(inv.amountDue),
      None, IsoOrNull(inv.dueDate, clock), None,
      inv.hostedInvoiceUrl, inv.invoicePdf)
  }

  function NewSubscriptionRow(owner: CustomerRow, sub: Payload, clock: Clock, newId: string): (r: SubscriptionRow)
    requires sub.SubscriptionObject?
    ensures r.customerId == owner.id && r.userId == owner.userId && r.stripeSubscriptionId == Some(sub.id)
    ensures r.status == sub.status
    ensures r.periodStart == clock.iso(sub.currentPeriodStart) && r.periodEnd == clock.iso(sub.currentPeriodEnd)
    ensures r.canceledAt == None && r.endedAt == None
  {
    SubscriptionRow(
      newId, owner.userId, owner.id, Some(sub.id), sub.status,
      clock.iso(sub.currentPeriodStart), clock.iso(sub.currentPeriodEnd),
      IsoOrNull(sub.trialStart, clock), IsoOrNull(sub.trialEnd, clock), None, None)
  }

  /** The row `handlePaymentSucceeded` (succeeded) or `handlePaymentFailed`
      inserts. */
  function NewPaymentRow(owner: CustomerRow, pi: Payload, succeeded: bool, clock: Clock, newId: string): (r: PaymentRow)
    requires pi.PaymentIntentObject?
    ensures r.customerId == owner.id && r.userId == owner.userId && r.stripePaymentId == pi.id
    ensures r.amount * 100.0 == pi.amount as real && r.currency == Text.Upper(pi.currency)
    ensures r.status == (if succeeded then "succeeded" else "failed")
    ensures succeeded ==> r.processedAt == Some(clock.now) && r.failureReason == None
    ensures !succeeded ==> r.processedAt == None && r.failureReason == pi.lastErrorMessage
    ensures r.paymentMethod == (if |pi.paymentMethodTypes| > 0 then Some(pi.paymentMethodTypes[0]) else None)
  {
    PaymentRow(
      newId, owner.userId, owner.id, pi.id, Units(pi.amount), Text.Upper(pi.currency),
      if succeeded then "succeeded" else "failed",
      if |pi.paymentMethodTypes| > 0 then Some(pi.paymentMethodTypes[0]) else None,
      if succeeded then Some(clock.now) else None,
      if succeeded then None else pi.lastErrorMessage)
  }

  // ------------------------------------------------------------ handlers

  /** Rows the update of a handler selects: those with the processor's id. */
  predicate CustomerHas(id: string, r: CustomerRow) { r.stripeCustomerId == Some(id) }
  predicate InvoiceHas(id: string, r: InvoiceRow) { r.stripeInvoiceId == Some(id) }
  predicate SubscriptionHas(id: string, r: SubscriptionRow) { r.stripeSubscriptionId == Some(id) }

  /** The effect of one event on the tables: the switch and its handler. */
  function Dispatch(t: Tables, e: Event, clock: Clock, newId: string): (r: Tables)
    requires Fits(e)
    ensures Classify(e.eventType) == Unhandled ==> r == t
    ensures Classify(e.eventType) in {CustomerCreated, CustomerUpdated} ==>
      r.invoices == t.invoices && r.subscriptions == t.subscriptions && r.payments == t.payments
    ensures Classify(e.eventType) in {InvoiceCreated, InvoicePaymentSucceeded, InvoicePaymentFailed} ==>
      r.customers == t.customers && r.subscriptions == t.subscriptions && r.payments == t.payments
    ensures Classify(e.eventType) in {SubscriptionCreated, SubscriptionUpdated, SubscriptionDeleted} ==>
      r.customers == t.customers && r.invoices == t.invoices && r.payments == t.payments
    ensures Classify(e.eventType) in {PaymentSucceeded, PaymentFailed} ==>
      r.customers == t.customers && r.invoices == t.invoices && r.subscriptions == t.subscriptions
  {
    var o := e.data;
    match Classify(e.eventType)
    case CustomerCreated =>
      t.(customers := t.customers + [CustomerRow(newId, None, Some(o.id), NameOrEmail(o.name, o.email), o.email, o.phone)])
    case CustomerUpdated =>
      t.(customers := Lists.Update(t.customers, (c: CustomerRow) => CustomerHas(o.id, c),
        (c: CustomerRow) => c.(name := NameOrEmail(o.name, o.email), email := o.email, phone := o.phone)))
    case InvoiceCreated =>
      var owner := SingleCustomer(t.customers, o.customer);
      if owner.None? then t
      else t.(invoices := t.invoices + [NewInvoiceRow(owner.value, o, clock, newId)])
    case InvoicePaymentSucceeded =>
      t.(invoices := Lists.Update(t.invoices, (i: InvoiceRow) => InvoiceHas(o.id, i),
        (i: InvoiceRow) => i.(status := "paid", paidAt := Some(clock.now), amountPaid := Some(Units(o.amountPaid)))))
    case InvoicePaymentFailed =>
      t.(invoices := Lists.Update(t.invoices, (i: InvoiceRow) => InvoiceHas(o.id, i),
        (i: InvoiceRow) => i.(status := "overdue")))
    case SubscriptionCreated =>
      var owner := SingleCustomer(t.customers, o.customer);
      if owner.None? then t
      else t.(subscriptions := t.subscriptions + [NewSubscriptionRow(owner.value, o, clock, newId)])
    case SubscriptionUpdated =>
      t.(subscriptions := Lists.Update(t.subscriptions, (s: SubscriptionRow) => SubscriptionHas(o.id, s),
        (s: SubscriptionRow) => s.(status := o.status,
          periodStart := clock.iso(o.currentPeriodStart), periodEnd := clock.iso(o.currentPeriodEnd),
          trialStart := IsoOrNull(o.trialStart, clock), trialEnd := IsoOrNull(o.trialEnd, clock),
          canceledAt := IsoOrNull(o.canceledAt, clock), endedAt := IsoOrNull(o.endedAt, clock))))
    case SubscriptionDeleted =>
      t.(subscriptions := Lists.Update(t.subscriptions, (s: SubscriptionRow) => SubscriptionHas(o.id, s),
        (s: SubscriptionRow) => s.(status := "canceled", canceledAt := Some(clock.now), endedAt := Some(clock.now))))
    case PaymentSucceeded =>
      var owner := SingleCustomer(t.customers, o.customer);
      if owner.None? then t
      else t.(payments := t.payments + [NewPaymentRow(owner.value, o, true, clock, newId)])
    case PaymentFailed =>
      var owner := SingleCustomer(t.customers, o.customer);
      if owner.None? then t
      else t.(payments := t.payments + [NewPaymentRow(owner.value, o, false, clock, newId)])
    case Unhandled => t
  }

  /** invoice.payment_succeeded marks every invoice with the processor's id
      paid now, with the amount paid in units, keeps its other columns, and
      touches no other row. */
  lemma PaymentSucceededMarksPaid(t: Tables, e: Event, clock: Clock, newId: string)
    requires Fits(e) && e.eventType == "invoice.payment_succeeded"
    ensures var r := Dispatch(t, e, clock, newId);
      && |r.invoices| == |t.invoices|
      && (forall i :: 0 <= i < |t.invoices| ==>
        r.invoices[i] == (if t.invoices[i].stripeInvoiceId == Some(e.data.id)
          then t.invoices[i].(status := "paid", paidAt := Some(clock.now), amountPaid := Some(Units(e.data.amountPaid)))
          else t.invoices[i]))
      && forall i :: 0 <= i < |t.invoices| && t.invoices[i].stripeInvoiceId == Some(e.data.id) ==>
        r.invoices[i].amountPaid.Some? && r.invoices[i].amountPaid.value * 100.0 == e.data.amountPaid as real
  {
  }

  /** invoice.payment_failed makes the invoices with the processor's id
      overdue and changes nothing else about them; no other row changes. */
  lemma PaymentFailedMarksOverdue(t: Tables, e: Event, clock: Clock, newId: string)
    requires Fits(e) && e.eventType == "invoice.payment_failed"
    ensures var r := Dispatch(t, e, clock, newId);
      && |r.invoices| == |t.invoices|
      && forall i :: 0 <= i < |t.invoices| ==>
        r.invoices[i] == if t.invoices[i].stripeInvoiceId == Some(e.data.id)
          then t.invoices[i].(status := "overdue") else t.invoices[i]
  {
  }

  /** customer.subscription.deleted cancels the subscriptions with the
      processor's id, stamping canceled_at and ended_at now; no other column
      or row changes. */
  lemma SubscriptionDeletedCancels(t: Tables, e: Event, clock: Clock, newId: string)
    requires Fits(e) && e.eventType == "customer.subscription.deleted"
    ensures var r := Dispatch(t, e, clock, newId);
      && |r.subscriptions| == |t.subscriptions|
      && forall i :: 0 <= i < |t.subscriptions| ==>
        r.subscriptions[i] == if t.subscriptions[i].stripeSubscriptionId == Some(e.data.id)
          then t.subscriptions[i].(status := "canceled", canceledAt := Some(clock.now), endedAt := Some(clock.now))
          else t.subscriptions[i]
  {
  }

  /** customer.subscription.updated copies the status and the ISO renderings
      of the period, trial, cancellation and end times onto every
      subscription with the processor's id; no other column or row changes. */
  lemma SubscriptionUpdatedRewrites(t: Tables, e: Event, clock: Clock, newId: string)
    requires Fits(e) && e.eventType == "customer.subscription.updated"
    ensures var r := Dispatch(t, e, clock, newId); var o := e.data;
      && |r.subscriptions| == |t.subscriptions|
      && forall i :: 0 <= i < |t.subscriptions| ==>
        r.subscriptions[i] == if t.subscriptions[i].stripeSubscriptionId == Some(o.id)
          then t.subscriptions[i].(status := o.status,
            periodStart := clock.iso(o.currentPeriodStart), periodEnd := clock.iso(o.currentPeriodEnd),
            trialStart := IsoOrNull(o.trialStart, clock), trialEnd := IsoOrNull(o.trialEnd, clock),
            canceledAt := IsoOrNull(o.canceledAt, clock), endedAt := IsoOrNull(o.endedAt, clock))
          else t.subscriptions[i]
  {
  }

  /** The handlers that look up a customer write nothing unless exactly one
      customer row carries the processor's customer id; when one does, they
      keep every existing row and append exactly the row built for that
      customer, to their own table. */
  lemma LookupGuardsInserts(t: Tables, e: Event, clock: Clock, newId: string)
    requires Fits(e)
    requires Classify(e.eventType) in {InvoiceCreated, SubscriptionCreated, PaymentSucceeded, PaymentFailed}
    ensures SingleCustomer(t.customers, e.data.customer).None? ==> Dispatch(t, e, clock, newId) == t
    ensures SingleCustomer(t.customers, e.data.customer).Some? ==>
      var owner := SingleCustomer(t.customers, e.data.customer).value;
      var r := Dispatch(t, e, clock, newId);
      && |r.invoices| + |r.subscriptions| + |r.payments| == |t.invoices| + |t.subscriptions| + |t.payments| + 1
      && (Classify(e.eventType) == InvoiceCreated ==>
            r == t.(invoices := t.invoices + [NewInvoiceRow(owner, e.data, clock, newId)]))
      && (Classify(e.eventType) == SubscriptionCreated ==>
            r == t.(subscriptions := t.subscriptions + [NewSubscriptionRow(owner, e.data, clock, newId)]))
      && (Classify(e.eventType) == PaymentSucceeded ==>
            r == t.(payments := t.payments + [NewPaymentRow(owner, e.data, true, clock, newId)]))
      && (Classify(e.eventType) == PaymentFailed ==>
            r == t.(payments := t.payments + [NewPaymentRow(owner, e.data, false, clock, newId)]))
  {
  }

  /** customer.created keeps every customer row and appends one carrying the
      processor's id, its name falling back to the e-mail; customer.updated
      rewrites the name, e-mail and phone of the rows with that id and keeps
      the others. Neither touches another table. */
  lemma CustomerEvents(t: Tables, e: Event, clock: Clock, newId: string)
    requires Fits(e)
    ensures e.eventType == "customer.created" ==> var r := Dispatch(t, e, clock, newId);
      && |r.customers| == |t.customers| + 1
      && r.customers[..|t.customers|] == t.customers
      && r.customers[|t.customers|] ==
           CustomerRow(newId, None, Some(e.data.id), NameOrEmail(e.data.name, e.data.email), e.data.email, e.data.phone)
      && r.invoices == t.invoices && r.subscriptions == t.subscriptions && r.payments == t.payments
    ensures e.eventType == "customer.updated" ==> var r := Dispatch(t, e, clock, newId);
      && |r.customers| == |t.customers|
      && (forall i :: 0 <= i < |t.customers| ==>
            r.customers[i] == if t.customers[i].stripeCustomerId == Some(e.data.id)
              then t.customers[i].(name := NameOrEmail(e.data.name, e.data.email), email := e.data.email, phone := e.data.phone)
              else t.customers[i])
      && r.invoices == t.invoices && r.subscriptions == t.subscriptions && r.payments == t.payments
  {
  }

  /** The handlers that update rows by the processor's id are idempotent: a
      redelivered event (same clock) leaves the tables as one delivery did. */
  lemma UpdatesIdempotent(t: Tables, e: Event, clock: Clock, newId: string)
    requires Fits(e)
    requires Classify(e.eventType) in {CustomerUpdated, InvoicePaymentSucceeded, InvoicePaymentFailed, SubscriptionUpdated, SubscriptionDeleted}
    ensures Dispatch(Dispatch(t, e, clock, newId), e, clock, newId) == Dispatch(t, e, clock, newId)
  {
    var o := e.data;
    match Classify(e.eventType)
    case CustomerUpdated =>
      Lists.UpdateIdempotent(t.customers, (c: CustomerRow) => CustomerHas(o.id, c),
        (c: CustomerRow) => c.(name := NameOrEmail(o.name, o.email), email := o.email, phone := o.phone));
    case InvoicePaymentSucceeded =>
      Lists.UpdateIdempotent(t.invoices, (i: InvoiceRow) => InvoiceHas(o.id, i),
        (i: InvoiceRow) => i.(status := "paid", paidAt := Some(clock.now), amountPaid := Some(Units(o.amountPaid))));
    case InvoicePaymentFailed =>
      Lists.UpdateIdempotent(t.invoices, (i: InvoiceRow) => InvoiceHas(o.id, i),
        (i: InvoiceRow) => i.(status := "overdue"));
    case SubscriptionUpdated =>
      Lists.UpdateIdempotent(t.subscriptions, (s: SubscriptionRow) => SubscriptionHas(o.id, s),
        (s: SubscriptionRow) => s.(status := o.status,
          periodStart := clock.iso(o.currentPeriodStart), periodEnd := clock.iso(o.currentPeriodEnd),
          trialStart := IsoOrNull(o.trialStart, clock), trialEnd := IsoOrNull(o.trialEnd, clock),
          canceledAt := IsoOrNull(o.canceledAt, clock), endedAt := IsoOrNull(o.endedAt, clock)));
    case SubscriptionDeleted =>
      Lists.UpdateIdempotent(t.subscriptions, (s: SubscriptionRow) => SubscriptionHas(o.id, s),
        (s: SubscriptionRow) => s.(status := "canceled", canceledAt := Some(clock.now), endedAt := Some(clock.now)));
  }

  /** There is no replay protection for inserts: delivering the same
      invoice.created event twice, with its customer found, stores two
      invoice rows for it. */
  lemma InvoiceCreatedTwiceDuplicates(t: Tables, e: Event, clock: Clock, id1: string, id2: string)
    requires Fits(e) && e.eventType == "invoice.created"
    requires SingleCustomer(t.customers, e.data.customer).Some?
    ensures var r := Dispatch(Dispatch(t, e, clock, id1), e, clock, id2);
      && |r.invoices| == |t.invoices| + 2
      && r.invoices[|t.invoices|].stripeInvoiceId == r.invoices[|t.invoices| + 1].stripeInvoiceId == Some(e.data.id)
  {
  }

  // -------------------------------------------------------------- the log

  /** The log after the event's row was inserted and then every row with
      its id flagged as processed. */
  function LogAndMark(log: seq<WebhookRow>, e: Event): (r: seq<WebhookRow>)
    ensures |r| == |log| + 1
    ensures r[|log|] == WebhookRow(e.eventType, e.id, true)
    ensures forall i :: 0 <= i < |log| && log[i].eventId == e.id ==> r[i] == log[i].(processed := true)
    ensures forall i :: 0 <= i < |log| && log[i].eventId != e.id ==> r[i] == log[i]
    ensures forall i :: 0 <= i < |r| && r[i].eventId == e.id ==> r[i].processed
  {
    Lists.Update(log + [WebhookRow(e.eventType, e.id, false)],
      (w: WebhookRow) => w.eventId == e.id, (w: WebhookRow) => w.(processed := true))
  }

  // ------------------------------------------------------------ the store

  datatype Response = Response(status: int, body: string)

  /** The remote tables the function writes to. */
  class Store {
    var customers: seq<CustomerRow>
    var invoices: seq<InvoiceRow>
    var subscriptions: seq<SubscriptionRow>
    var payments: seq<PaymentRow>
    var webhooks: seq<WebhookRow>

    function Snapshot(): Tables
      reads this
    {
      Tables(customers, invoices, subscriptions, payments)
    }

    constructor (t: Tables, log: seq<WebhookRow>)
      ensures Snapshot() == t && webhooks == log
    {
      customers, invoices, subscriptions, payments := t.customers, t.invoices, t.subscriptions, t.payments;
      webhooks := log;
    }

    /** One request. A CORS preflight is answered "ok" and writes nothing; a
        request whose signature fails to verify is answered 400 and writes
        nothing; otherwise the event is logged unprocessed, handled, flagged
        processed, and answered 200. */
    method Receive(preflight: bool, signatureValid: bool, e: Event, clock: Clock, newId: string)
      returns (response: Response)
      requires Fits(e)
      modifies this
      ensures preflight ==> response == Response(200, "ok")
      ensures !preflight && !signatureValid ==> response == Response(400, "Webhook signature verification failed")
      ensures preflight || !signatureValid ==>
        Snapshot() == old(Snapshot()) && webhooks == old(webhooks)
      ensures !preflight && signatureValid ==>
        && response == Response(200, "{\"received\":true}")
        && Snapshot() == Dispatch(old(Snapshot()), e, clock, newId)
        && webhooks == LogAndMark(old(webhooks), e)
    {
      if preflight {
        return Response(200, "ok");
      }
      if !signatureValid {
        return Response(400, "Webhook signature verification failed");
      }
      webhooks := webhooks + [WebhookRow(e.eventType, e.id, false)];
      var after := Dispatch(Snapshot(), e, clock, newId);
      customers := after.customers;
      invoices := after.invoices;
      subscriptions := after.subscriptions;
      payments := after.payments;
      webhooks := Lists.Update(webhooks, (w: WebhookRow) => w.eventId == e.id, (w: WebhookRow) => w.(processed := true));
      response := Response(200, "{\"received\":true}");
    }
  }
}
