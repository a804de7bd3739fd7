/**
  The demo data of src/services/mockDataService.ts: the four fixture tables
  (customers, subscriptions, invoices, plans), the derived display fields
  added to customers and invoices, the table lookup `getMockData` and the
  case-insensitive search `searchMockData`. Every amount in the fixtures is
  a whole number, so money is `nat` here. The locale-dependent renderings
  (`toLocaleString`, `toLocaleDateString`) are a parameter.
 */
module MockData {
  import opened Common
  import Text
  import Lists

  datatype Customer = Customer(
    id: string, userId: string, name: string, email: string, phone: string,
    company: string, status: string, totalRevenue: nat, currency: string,
    createdAt: string, updatedAt: string, subscriptions: nat)

  datatype Subscription = Subscription(
    id: string, userId: string, customerId: string, planId: string, status: string,
    periodStart: string, periodEnd: string, trialEnd: Option<string>,
    unitAmount: nat, currency: string, quantity: nat,
    discountPercent: nat, taxPercent: nat, createdAt: string)

  datatype Invoice = Invoice(
    id: string, userId: string, customerId: string, subscriptionId: Option<string>,
    invoiceNumber: string, status: string, currency: string,
    subtotal: nat, taxAmount: nat, discountAmount: nat, totalAmount: nat,
    amountPaid: nat, amountDue: nat, taxPercent: nat, discountPercent: nat,
    dueDate: string, paidAt: Option<string>, sentAt: Option<string>,
    createdAt: string, updatedAt: string, customerName: string, customerEmail: string)

  datatype Plan = Plan(
    id: string, userId: string, name: string, description: string, price: nat,
    currency: string, interval: string, intervalCount: nat, trialPeriodDays: nat,
    active: bool, features: seq<string>, createdAt: string)

  // --------------------------------------------------------------- fixtures

  const Customers: seq<Customer> := [
    Customer("1", "demo-user", "John Doe", "john@example.com", "+1 (555) 123-4567",
      "Tech Solutions Inc", "active", 2450, "USD", "2024-01-15T00:00:00Z", "2024-01-15T00:00:00Z", 2),
    Customer("2", "demo-user", "Jane Smith", "jane@example.com", "+1 (555) 987-6543",
      "Design Studio LLC", "active", 1890, "USD", "2024-02-20T00:00:00Z", "2024-02-20T00:00:00Z", 1),
    Customer("3", "demo-user", "Bob Johnson", "bob@example.com", "+1 (555) 456-7890",
      "Marketing Pro", "inactive", 750, "USD", "2024-01-08T00:00:00Z", "2024-01-08T00:00:00Z", 0),
    Customer("4", "demo-user", "Alice Brown", "alice@example.com", "+1 (555) 321-0987",
      "Consulting Group", "active", 3200, "USD", "2023-12-10T00:00:00Z", "2023-12-10T00:00:00Z", 3),
    Customer("5", "demo-user", "Michael Chen", "michael@example.com", "+1 (555) 654-3210",
      "Innovation Labs", "active", 5670, "USD", "2023-11-05T00:00:00Z", "2023-11-05T00:00:00Z", 2),
    Customer("6", "demo-user", "Sarah Wilson", "sarah@example.com", "+1 (555) 789-0123",
      "Creative Agency", "active", 4320, "USD", "2024-01-22T00:00:00Z", "2024-01-22T00:00:00Z", 1)]

  const Subscriptions: seq<Subscription> := [
    Subscription("1", "demo-user", "1", "1", "active", "2024-01-01T00:00:00Z", "2024-02-01T00:00:00Z",
      None, 99, "USD", 1, 0, 0, "2024-01-01T00:00:00Z"),
    Subscription("2", "demo-user", "2", "2", "active", "2024-01-15T00:00:00Z", "2024-02-15T00:00:00Z",
      None, 199, "USD", 1, 0, 0, "2024-01-15T00:00:00Z"),
    Subscription("3", "demo-user", "4", "3", "trialing", "2024-01-20T00:00:00Z", "2024-02-20T00:00:00Z",
      Some("2024-02-05T00:00:00Z"), 299, "USD", 1, 0, 0, "2024-01-20T00:00:00Z")]

  const Invoices: seq<Invoice> := [
    Invoice("1", "demo-user", "1", Some("1"), "INV-000001", "paid", "USD",
      99, 0, 0, 99, 99, 0, 0, 0,
      "2024-02-01T00:00:00Z", Some("2024-01-28T00:00:00Z"), Some("2024-01-01T00:00:00Z"),
      "2024-01-01T00:00:00Z", "2024-01-28T00:00:00Z", "John Doe", "john@example.com"),
    Invoice("2", "demo-user", "2", Some("2"), "INV-000002", "sent", "USD",
      199, 0, 0, 199, 0, 199, 0, 0,
      "2024-02-15T00:00:00Z", None, Some("2024-01-15T00:00:00Z"),
      "2024-01-15T00:00:00Z", "2024-01-15T00:00:00Z", "Jane Smith", "jane@example.com"),
    Invoice("3", "demo-user", "4", Some("3"), "INV-000003", "overdue", "USD",
      299, 0, 0, 299, 0, 299, 0, 0,
      "2024-01-25T00:00:00Z", None, Some("2024-01-10T00:00:00Z"),
      "2024-01-10T00:00:00Z", "2024-01-10T00:00:00Z", "Alice Brown", "alice@example.com"),
    Invoice("4", "demo-user", "5", None, "INV-000004", "draft", "USD",
      450, 45, 0, 495, 0, 495, 10, 0,
      "2024-03-01T00:00:00Z", None, None,
      "2024-02-01T00:00:00Z", "2024-02-01T00:00:00Z", "Michael Chen", "michael@example.com")]

  const Plans: seq<Plan> := [
    Plan("1", "demo-user", "Starter", "Perfect for small businesses", 99, "USD", "month", 1, 14, true,
      ["Up to 100 customers", "Basic invoicing", "Email support"], "2024-01-01T00:00:00Z"),
    Plan("2", "demo-user", "Professional", "For growing businesses", 199, "USD", "month", 1, 14, true,
      ["Up to 1000 customers", "Advanced invoicing", "Priority support", "Analytics"], "2024-01-01T00:00:00Z"),
    Plan("3", "demo-user", "Enterprise", "For large organizations", 299, "USD", "month", 1, 30, true,
      ["Unlimited customers", "Custom invoicing", "24/7 support", "Advanced analytics", "API access"],
      "2024-01-01T00:00:00Z")]

  // ------------------------------------------------- fixture consistency

  predicate HasCustomer(id: string) {
    exists i :: 0 <= i < |Customers| && Customers[i].id == id
  }

  predicate HasSubscription(id: string) {
    exists i :: 0 <= i < |Subscriptions| && Subscriptions[i].id == id
  }

  predicate HasPlan(id: string) {
    exists i :: 0 <= i < |Plans| && Plans[i].id == id
  }

  /** Every fixture invoice is balanced: total = subtotal + tax − discount,
      amount due = total − amount paid, and the tax is the tax percentage of
      the subtotal. */
  lemma InvoicesBalanced()
    ensures forall i :: 0 <= i < |Invoices| ==>
      var inv := Invoices[i];
      && inv.totalAmount == inv.subtotal + inv.taxAmount - inv.discountAmount
      && inv.amountDue == inv.totalAmount - inv.amountPaid
      && inv.taxAmount * 100 == inv.subtotal * inv.taxPercent
  {
  }

  /** Every reference between the fixtures resolves: subscriptions name an
      existing customer and plan, invoices an existing customer and, when
      they have one, an existing subscription. */
  lemma ReferencesResolve()
    ensures forall i :: 0 <= i < |Subscriptions| ==>
      HasCustomer(Subscriptions[i].customerId) && HasPlan(Subscriptions[i].planId)
    ensures forall i :: 0 <= i < |Invoices| ==>
      && HasCustomer(Invoices[i].customerId)
      && (Invoices[i].subscriptionId.Some? ==> HasSubscription(Invoices[i].subscriptionId.value))
  {
    assert Customers[0].id == "1" && Customers[1].id == "2" && Customers[3].id == "4" && Customers[4].id == "5";
    assert Plans[0].id == "1" && Plans[1].id == "2" && Plans[2].id == "3";
    assert Subscriptions[0].id == "1" && Subscriptions[1].id == "2" && Subscriptions[2].id == "3";
  }

  /** The copies the fixtures carry agree with their sources: an invoice's
      customer name and e-mail are its customer's, a subscription's unit
      amount is its plan's price, and a subscription invoice bills the
      subscription's unit amount times its quantity. */
  lemma DenormalisedFieldsAgree()
    ensures forall i, j :: 0 <= i < |Invoices| && 0 <= j < |Customers| && Invoices[i].customerId == Customers[j].id ==>
      Invoices[i].customerName == Customers[j].name && Invoices[i].customerEmail == Customers[j].email
    ensures forall i, j :: 0 <= i < |Subscriptions| && 0 <= j < |Plans| && Subscriptions[i].planId == Plans[j].id ==>
      Subscriptions[i].unitAmount == Plans[j].price
    ensures forall i, j :: 0 <= i < |Invoices| && 0 <= j < |Subscriptions| && Invoices[i].subscriptionId == Some(Subscriptions[j].id) ==>
      Invoices[i].subtotal == Subscriptions[j].unitAmount * Subscriptions[j].quantity
  {
  }

  // ------------------------------------------------------ generic records

  /** A field value as `Object.values` yields it. */
  datatype Value = Str(s: string) | Num(n: nat) | Bool(b: bool) | Strings(items: seq<string>) | EmptyObject

  /** A record: its fields in insertion order. An optional fixture field
      that is absent is not a field at all. */
  type Record = seq<(string, Value)>

  /** `String(value)`: arrays join with commas, a plain object renders as
      "[object Object]". */
  function Show(v: Value): string {
    match v
    case Str(s) => s
    case Num(n) => Text.NatToString(n)
    case Bool(b) => if b then "true" else "false"
    case Strings(items) => Join(items)
    case EmptyObject => "[object Object]"
  }

  /** `items.join(',')`. */
  function Join(items: seq<string>): string {
    if items == [] then "" else if |items| == 1 then items[0] else items[0] + "," + Join(items[1..])
  }

  /** The locale-dependent renderings: `n.toLocaleString()` and
      `new Date(iso).toLocaleDateString()`. */
  datatype Locale = Locale(number: nat -> string, date: string -> string)

  function OptionalField(name: string, v: Option<string>): Record {
    if v.Some? then [(name, Str(v.value))] else []
  }

  /** A customer of `processedData`: the fixture plus displayName,
      revenueFormatted and joinDate. */
  function CustomerRecord(c: Customer, loc: Locale): Record {
    [ ("id", Str(c.id)), ("user_id", Str(c.userId)), ("name", Str(c.name)), ("email", Str(c.email)),
      ("phone", Str(c.phone)), ("company", Str(c.company)), ("status", Str(c.status)),
      ("total_revenue", Num(c.totalRevenue)), ("currency", Str(c.currency)),
      ("created_at", Str(c.createdAt)), ("updated_at", Str(c.updatedAt)),
      ("subscriptions", Num(c.subscriptions)),
      ("displayName", Str(c.name + " (" + c.company + ")")),
      ("revenueFormatted", Str("$" + loc.number(c.totalRevenue))),
      ("joinDate", Str(loc.date(c.createdAt))) ]
  }

  function SubscriptionRecord(s: Subscription): Record {
    [ ("id", Str(s.id)), ("user_id", Str(s.userId)), ("customer_id", Str(s.customerId)),
      ("plan_id", Str(s.planId)), ("status", Str(s.status)),
      ("current_period_start", Str(s.periodStart)), ("current_period_end", Str(s.periodEnd)) ]
    + OptionalField("trial_end", s.trialEnd)
    + [ ("unit_amount", Num(s.unitAmount)), ("currency", Str(s.currency)), ("quantity", Num(s.quantity)),
        ("discount_percent", Num(s.discountPercent)), ("tax_percent", Num(s.taxPercent)),
        ("created_at", Str(s.createdAt)) ]
  }

  /** `total_amount.toFixed(2)` for a whole amount. */
  function Fixed2(n: nat): string {
    Text.NatToString(n) + ".00"
  }

  /** An invoice of `processedData`: the fixture plus totalFormatted,
      dueDateFormatted and createdDateFormatted. */
  function InvoiceRecord(inv: Invoice, loc: Locale): Record {
    [ ("id", Str(inv.id)), ("user_id", Str(inv.userId)), ("customer_id", Str(inv.customerId)) ]
    + OptionalField("subscription_id", inv.subscriptionId)
    + [ ("invoice_number", Str(inv.invoiceNumber)), ("status", Str(inv.status)), ("currency", Str(inv.currency)),
        ("subtotal", Num(inv.subtotal)), ("tax_amount", Num(inv.taxAmount)),
        ("discount_amount", Num(inv.discountAmount)), ("total_amount", Num(inv.totalAmount)),
        ("amount_paid", Num(inv.amountPaid)), ("amount_due", Num(inv.amountDue)),
        ("tax_percent", Num(inv.taxPercent)), ("discount_percent", Num(inv.discountPercent)),
        ("due_date", Str(inv.dueDate)) ]
    + OptionalField("paid_at", inv.paidAt)
    + OptionalField("sent_at", inv.sentAt)
    + [ ("created_at", Str(inv.createdAt)), ("updated_at", Str(inv.updatedAt)),
        ("customer_name", Str(inv.customerName)), ("customer_email", Str(inv.customerEmail)),
        ("totalFormatted", Str("$" + Fixed2(inv.totalAmount))),
        ("dueDateFormatted", Str(loc.date(inv.dueDate))),
        ("createdDateFormatted", Str(loc.date(inv.createdAt))) ]
  }

  function PlanRecord(p: Plan): Record {
    [ ("id", Str(p.id)), ("user_id", Str(p.userId)), ("name", Str(p.name)),
      ("description", Str(p.description)), ("price", Num(p.price)), ("currency", Str(p.currency)),
      ("interval", Str(p.interval)), ("interval_count", Num(p.intervalCount)),
      ("trial_period_days", Num(p.trialPeriodDays)), ("active", Bool(p.active)),
      ("features", Strings(p.features)), ("metadata", EmptyObject), ("created_at", Str(p.createdAt)) ]
  }

  // ------------------------------------------------------ lookup and search

  /** The tables `processedData` holds. */
  const TableNames: seq<string> := ["customers", "subscriptions", "invoices", "plans"]

  /** `getMockData(table)`: the table's records, or [] for any other name. */
  function GetMockData(table: string, loc: Locale): (r: seq<Record>)
    ensures table !in TableNames ==> r == []
    ensures table == "customers" ==> |r| == |Customers|
    ensures table == "subscriptions" ==> |r| == |Subscriptions|
    ensures table == "invoices" ==> |r| == |Invoices|
    ensures table == "plans" ==> |r| == |Plans|
    ensures table == "customers" ==> forall i :: 0 <= i < |r| ==> r[i] == CustomerRecord(Customers[i], loc)
    ensures table == "subscriptions" ==> forall i :: 0 <= i < |r| ==> r[i] == SubscriptionRecord(Subscriptions[i])
    ensures table == "invoices" ==> forall i :: 0 <= i < |r| ==> r[i] == InvoiceRecord(Invoices[i], loc)
    ensures table == "plans" ==> forall i :: 0 <= i < |r| ==> r[i] == PlanRecord(Plans[i])
  {
    if table == "customers" then seq(|Customers|, i requires 0 <= i < |Customers| => CustomerRecord(Customers[i], loc))
    else if table == "subscriptions" then seq(|Subscriptions|, i requires 0 <= i < |Subscriptions| => SubscriptionRecord(Subscriptions[i]))
    else if table == "invoices" then seq(|Invoices|, i requires 0 <= i < |Invoices| => InvoiceRecord(Invoices[i], loc))
    else if table == "plans" then seq(|Plans|, i requires 0 <= i < |Plans| => PlanRecord(Plans[i]))
    else []
  }

  /** Some field's `String(value).toLowerCase()` includes `term`, which is
      already lower-cased. */
  predicate SomeFieldIncludes(item: Record, term: string) {
    exists i :: 0 <= i < |item| && Text.Contains(Text.Lower(Show(item[i].1)), term)
  }

  /** `searchMockData(table, searchTerm)`. */
  function SearchMockData(table: string, searchTerm: string, loc: Locale): (r: seq<Record>)
    ensures searchTerm == "" ==> r == GetMockData(table, loc)
    ensures searchTerm != "" ==> forall i :: 0 <= i < |r| ==> SomeFieldIncludes(r[i], Text.Lower(searchTerm))
  {
    var data := GetMockData(table, loc);
    if searchTerm == "" then data
    else
      var term := Text.Lower(searchTerm);
      Lists.Filter(data, (item: Record) => SomeFieldIncludes(item, term))
  }

  /** The search keeps, in order, exactly the records one of whose fields
      includes the term regardless of case; an unknown table yields []. */
  lemma SearchSpec(table: string, searchTerm: string, loc: Locale)
    ensures Lists.IsSubsequence(SearchMockData(table, searchTerm, loc), GetMockData(table, loc))
    ensures searchTerm != "" ==> forall item :: item in SearchMockData(table, searchTerm, loc) <==>
      item in GetMockData(table, loc) && SomeFieldIncludes(item, Text.Lower(searchTerm))
    ensures table !in TableNames ==> SearchMockData(table, searchTerm, loc) == []
  {
    var data := GetMockData(table, loc);
    if searchTerm == "" {
      Lists.SubsequenceReflexive(data);
    } else {
      var term := Text.Lower(searchTerm);
      forall item
        ensures item in SearchMockData(table, searchTerm, loc) <==> item in data && SomeFieldIncludes(item, term)
      {
        Lists.FilterMembership(data, (item: Record) => SomeFieldIncludes(item, term), item);
      }
    }
  }

  /** The term's letter case does not affect the result. */
  lemma SearchIgnoresTermCase(table: string, t1: string, t2: string, loc: Locale)
    requires Text.Lower(t1) == Text.Lower(t2)
    ensures SearchMockData(table, t1, loc) == SearchMockData(table, t2, loc)
  {
  }

  /** Searching the result again with the same term changes nothing. */
  lemma SearchIdempotent(table: string, searchTerm: string, loc: Locale)
    requires searchTerm != ""
    ensures var term := Text.Lower(searchTerm);
      Lists.Filter(SearchMockData(table, searchTerm, loc), (item: Record) => SomeFieldIncludes(item, term))
        == SearchMockData(table, searchTerm, loc)
  {
    var term := Text.Lower(searchTerm);
    Lists.FilterIdempotent(GetMockData(table, loc), (item: Record) => SomeFieldIncludes(item, term));
  }

  /** Searching customers for "JOHN" finds both John Doe and Bob Johnson,
      whatever the locale. */
  lemma SearchFindsNameInAnyCase(loc: Locale)
    ensures CustomerRecord(Customers[0], loc) in SearchMockData("customers", "JOHN", loc)
    ensures CustomerRecord(Customers[2], loc) in SearchMockData("customers", "JOHN", loc)
  {
    JohnInName(0, 0);
    JohnInName(2, 4);
    CustomerFound(0, loc);
    CustomerFound(2, loc);
  }

  /** The name of customer i spells "john", in any case, from offset k. */
  lemma JohnInName(i: nat, k: nat)
    requires (i == 0 && k == 0) || (i == 2 && k == 4)
    ensures i < |Customers| && Text.Contains(Text.Lower(Customers[i].name), "john")
  {
    var name := Customers[i].name;
    assert i == 0 ==> name == "John Doe";
    assert i == 2 ==> name == "Bob Johnson";
    NameOccurs(name, k);
  }

  /** A customer whose lower-cased name includes "john" is in the result of
      searching customers for "JOHN". */
  lemma CustomerFound(i: nat, loc: Locale)
    requires i < |Customers| && Text.Contains(Text.Lower(Customers[i].name), "john")
    ensures CustomerRecord(Customers[i], loc) in SearchMockData("customers", "JOHN", loc)
  {
    LowerJohn();
    var data := GetMockData("customers", loc);
    assert data[i] == CustomerRecord(Customers[i], loc);
    NameFieldMatches(Customers[i], "john", loc);
    Lists.FilterMembership(data, (item: Record) => SomeFieldIncludes(item, "john"), data[i]);
  }

  lemma LowerJohn()
    ensures Text.Lower("JOHN") == "john"
  {
  }

  /** A name whose letters k..k+3 lower-case to "john" contains it once
      lower-cased. */
  lemma NameOccurs(name: string, k: nat)
    requires k + 4 <= |name|
    requires Text.LowerChar(name[k]) == 'j' && Text.LowerChar(name[k + 1]) == 'o'
    requires Text.LowerChar(name[k + 2]) == 'h' && Text.LowerChar(name[k + 3]) == 'n'
    ensures Text.Contains(Text.Lower(name), "john")
  {
    var lower := Text.Lower(name);
    assert lower[k..k + 4] == "john";
    assert Text.OccursAt(lower, "john", k);
  }

  /** A customer whose lower-cased name includes the term matches it. */
  lemma NameFieldMatches(c: Customer, term: string, loc: Locale)
    requires Text.Contains(Text.Lower(c.name), term)
    ensures SomeFieldIncludes(CustomerRecord(c, loc), term)
  {
    assert CustomerRecord(c, loc)[2].1 == Str(c.name);
  }
}
