# QuillBill core in Dafny

QuillBill is a small CRM and billing front end with a processor webhook
back end. This project models its core logic in Dafny and proves properties
of it:

- **Invoice creation.** The create-invoice modal keeps an editable,
  never-empty list of line items. It computes its own subtotal, tax and
  total, checks the form before submitting, and resets after a successful
  submit. It hands the request to the invoice service.
- **The invoice service (demo mode).** `createInvoice` prices the lines and
  builds a draft. `markAsPaid` and `cancelInvoice` return fixed update
  records.
- **The data table.** A case-insensitive search over every field, a one-key
  sort with an ascending/descending toggle, pages and the page buttons.
- **The lead board.** Five kanban columns with drag and drop, adding and
  deleting leads, column totals and column colours.
- **The users page and the home dashboard.** Adding, editing, deleting and
  toggling users. The to-do list, the pending-task count and the two feeds a
  timer refreshes.
- **The setup checklist and the status badge.** Four toggleable steps with a
  progress line. The colour and label of a status pill.
- **The mock data service.** The fixture tables, the derived display fields,
  lookup by table name and the case-insensitive search.
- **The processor webhook function.** The request gate, the event log, the
  dispatch on the event type, and each handler's effect on the customers,
  invoices, subscriptions and payments tables.

## Layout

- One module per source file: `InvoiceModal`, `InvoiceService`,
  `OptimizedTable`, `Leads`, `Users`, `Home`, `SetupGuide`, `StatusBadge`,
  `MockData` and `StripeWebhooks`.
- Three shared modules:
  - `Common` holds `Option` and `Result`.
  - `Text` holds ASCII case mapping, substring search, trimming and decimal
    rendering.
  - `Lists` holds the order-preserving `Filter`, `Count` and the row-wise
    `Update` that the pages and the webhook handlers share.
- **Pure code** (the service, the search, the status badge, the fixtures,
  the webhook handlers) is written as functions with lemmas.
- **React pages.** Each page becomes a class whose fields are the page's
  state hooks. Each handler becomes a method stating the page's new state.
- **The sort.** The table's in-place sort is a method on an array.
- **The webhook's database** is a class holding the remote tables.

Everything outside the program is a parameter of the operation that uses
it:

- the clock: `Date.now()`, ISO and locale renderings;
- `Math.random` picks;
- the answers to `confirm` and `prompt`;
- the result of the signature check;
- the database's fresh row ids.

## Model

| member | source | states |
|---|---|---|
| InvoiceService.CreateInvoice | src/services/invoiceService.ts:23-62 | a completed call returns a draft in USD for the customer: subtotal = Σ quantity·unit_price, tax = subtotal·tax%/100, total = subtotal + tax − discount, amount due = total; its id is "inv_demo_" and its number "INV-" followed by the last six characters of the clock's decimal rendering; due date, notes and terms pass through and created_at is the clock's ISO time; a call whose body threw returns the fixed stub "inv_demo_error" / "INV-ERROR", also a draft |
| InvoiceService.LinesSubtotalAppend | src/services/invoiceService.ts:27 | the subtotal reduce is additive over concatenation of line lists |
| InvoiceService.LinesSubtotalNonNegative | src/services/invoiceService.ts:27 | lines with no negative quantity or price have a non-negative subtotal |
| InvoiceService.CreatedDraftBalanced | src/services/invoiceService.ts:26-53 | a created draft satisfies total = subtotal − discount + tax and amount_due = total − 0; without tax or discount its total is the subtotal |
| InvoiceService.InvoiceNumberShape | src/services/invoiceService.ts:26 | once Date.now() has six digits, the invoice number is "INV-" followed by exactly six decimal digits |
| InvoiceService.CreatedNumberMatchesId | src/services/invoiceService.ts:26-33 | once Date.now() has six digits, a created draft's number is "INV-" and the last six digits of its id |
| InvoiceService.MarkAsPaid | src/services/invoiceService.ts:139-156 | the update always names the invoice and status "paid"; paid_at and amount_paid are present only on the completed path |
| InvoiceService.CancelInvoice | src/services/invoiceService.ts:159-174 | both paths answer {id, status "canceled"} |
| InvoiceModal.ApplyEdit | src/components/modals/CreateInvoiceModal.tsx:71-81 | the edited field takes the new value and no other input field changes; after a quantity or unit-price edit, amount = quantity × unit price; a priced item stays priced under any of the three form edits |
| InvoiceModal.DropIndexIsSplice | src/components/modals/CreateInvoiceModal.tsx:67 | the index filter removes exactly the item at an in-range index, keeping the rest in order, and changes nothing for an index out of range |
| InvoiceModal.ModalTotalShape | src/components/modals/CreateInvoiceModal.tsx:87-93 | the modal's total is (subtotal − discount)·(1 + tax%/100), and subtotal − discount without tax |
| InvoiceModal.TotalsAgreeIff | src/components/modals/CreateInvoiceModal.tsx:87-93 | the modal's total equals the service's total for the same numbers if and only if the discount is 0 or the tax is 0 |
| InvoiceModal.TotalsDivergeOnDiscountedTaxedDraft | src/components/modals/CreateInvoiceModal.tsx:83-93 | for one line of 2 × 50 with 10% tax and discount 5, the modal shows 104.5 while the service records 105 |
| InvoiceModal.Lines | src/components/modals/CreateInvoiceModal.tsx:113-117 | the submitted lines are the items without their amounts, position by position |
| InvoiceModal.SubtotalsAgree | src/components/modals/CreateInvoiceModal.tsx:83-85 | when every amount is quantity × unit price, the modal's Σ amount equals the service's subtotal of the submitted lines |
| InvoiceModal.SubmitGate | src/components/modals/CreateInvoiceModal.tsx:98-123 | refuses with "no customer" exactly when none is selected, and with "incomplete item" exactly when some item has no description, quantity ≤ 0 or a negative price; otherwise builds the request with empty texts as undefined |
| InvoiceModal.AcceptedSubtotalNonNegative | src/components/modals/CreateInvoiceModal.tsx:103-117 | a request that passes the gate has a non-negative subtotal |
| InvoiceModal.SubmittedSubtotalMatchesShown | src/components/modals/CreateInvoiceModal.tsx:83-123 | a submitted priced form is recorded with the subtotal the modal showed; the recorded total matches the shown total if and only if discount or tax is 0 |
| InvoiceModal.Form.constructor | src/components/modals/CreateInvoiceModal.tsx:28-36 | the form starts reset: the customer prop, one blank item, empty texts, zero tax and discount |
| InvoiceModal.Form.AddItem | src/components/modals/CreateInvoiceModal.tsx:61-63 | appends one blank item and keeps the list non-empty and priced |
| InvoiceModal.Form.RemoveItem | src/components/modals/CreateInvoiceModal.tsx:65-69 | removes exactly the item at the index when more than one remains; otherwise nothing changes; the list never becomes empty |
| InvoiceModal.Form.UpdateItem | src/components/modals/CreateInvoiceModal.tsx:71-81 | only the item at the index changes, to ApplyEdit of it; the length is kept |
| InvoiceModal.Form.ResetForm | src/components/modals/CreateInvoiceModal.tsx:137-145 | every field returns to its initial value |
| InvoiceModal.Form.HandleSubmit | src/components/modals/CreateInvoiceModal.tsx:95-135 | a refused form returns the gate's error and changes nothing; an accepted one returns the service's invoice for the gate's request and resets the form |
| OptimizedTable.SearchFilterSpec | src/components/ui/OptimizedTable.tsx:43-50 | an empty term keeps all rows; otherwise the result is a subsequence of the rows that keeps a row if and only if one of its values contains the term, ignoring case, and keeps as many rows as match, so in order exactly the matching ones (Lists.FilterUnique) |
| OptimizedTable.SearchIgnoresTermCase | src/components/ui/OptimizedTable.tsx:44-49 | two terms with the same lower-case form select the same rows |
| OptimizedTable.KeyNotLessTransitive | src/components/ui/OptimizedTable.tsx:55-64 | "not less than" on sort keys is transitive |
| OptimizedTable.KeyLessAsymmetric | src/components/ui/OptimizedTable.tsx:58-63 | no two keys are each less than the other |
| OptimizedTable.Compare | src/components/ui/OptimizedTable.tsx:54-65 | the comparator returns −1, 0 or 1 |
| OptimizedTable.PrecedesMeaning | src/components/ui/OptimizedTable.tsx:58-63 | ascending: a may precede b if and only if b's key is not less than a's; descending: the reverse |
| OptimizedTable.PrecedesTotal | src/components/ui/OptimizedTable.tsx:54-65 | any two rows are ordered one way or the other |
| OptimizedTable.PrecedesTransitive | src/components/ui/OptimizedTable.tsx:54-65 | the comparator's order is transitive |
| OptimizedTable.SortInPlace | src/components/ui/OptimizedTable.tsx:53-66 | afterwards the array is sorted by the comparator, is a permutation of its old contents, and rows the comparator ranks equal keep their relative order (a stable sort) |
| OptimizedTable.StableSortUnique | src/components/ui/OptimizedTable.tsx:53-66 | two sorted sequences that list every group of equally ranked rows in the same order are equal, so the stable sort's result is determined by its input |
| OptimizedTable.FilteredAndSorted | src/components/ui/OptimizedTable.tsx:40-69 | the result is a permutation of the searched rows; exactly the searched rows when no sort is set; otherwise sorted by the configured key and direction, with equally ranked rows in their searched order |
| OptimizedTable.Table.View | src/components/ui/OptimizedTable.tsx:40-76 | for the `data` prop, the shown rows are FilteredAndSorted of it under the current search and sort, the page is the current page of them, and totalPages is their page count, which depends only on the search |
| OptimizedTable.Page | src/components/ui/OptimizedTable.tsx:71-74 | a page holds at most pageSize rows: rows (p−1)·size up to p·size, or none past the end |
| OptimizedTable.TotalPages | src/components/ui/OptimizedTable.tsx:76 | the page count t is the least with n ≤ t·size |
| OptimizedTable.RowOnExactlyOnePage | src/components/ui/OptimizedTable.tsx:71-76 | row i lies on page i/size + 1, within 1..totalPages, at offset i mod size, and on no other page |
| OptimizedTable.NextSort | src/components/ui/OptimizedTable.tsx:78-83 | a header click sorts by that key, descending if and only if the same key was ascending |
| OptimizedTable.SortClicksAlternate | src/components/ui/OptimizedTable.tsx:78-83 | repeated clicks on one header alternate the direction |
| OptimizedTable.Table.constructor | src/components/ui/OptimizedTable.tsx:33-38 | empty search, no sort, page 1 |
| OptimizedTable.Table.SetSearchTerm | src/components/ui/OptimizedTable.tsx:102 | the term is replaced and the page is kept |
| OptimizedTable.Table.HandleSort | src/components/ui/OptimizedTable.tsx:78-83 | the sort becomes NextSort of the old one |
| OptimizedTable.Table.PreviousPage | src/components/ui/OptimizedTable.tsx:194 | the page moves down one, never below 1 |
| OptimizedTable.Table.NextPage | src/components/ui/OptimizedTable.tsx:218 | the page moves up one, never past the last page of the searched `data` |
| OptimizedTable.Table.GoToPage | src/components/ui/OptimizedTable.tsx:200-205 | a numbered button (1..min(5, totalPages) for the searched `data`) selects its page |
| Leads.InitialColumns | src/pages/Leads.tsx:15-30 | the board has exactly the five named columns; "New" holds two leads and "Closed" none |
| Leads.ColumnValuePermutation | src/pages/Leads.tsx:99-101 | a column's total value depends only on its leads, not their order |
| Leads.RemoveAt | src/pages/Leads.tsx:49 | removing at an index yields that lead and the rest in order |
| Leads.InsertAt | src/pages/Leads.tsx:50 | inserting puts the lead at the index, or at the end past it, adding exactly that lead |
| Leads.BoardSumsReplace | src/pages/Leads.tsx:52-55 | replacing one column changes the board's count and value by that column's change |
| Leads.Board.constructor | src/pages/Leads.tsx:33-39 | the initial columns and an empty, hidden form |
| Leads.Board.ToggleAddForm | src/pages/Leads.tsx:119 | the header button flips the form's visibility |
| Leads.Board.SetNewLead | src/pages/Leads.tsx:134-148 | the inputs set the content and contact; the value is the parsed integer, or 0 |
| Leads.Board.OnDragEnd | src/pages/Leads.tsx:41-69 | no destination: nothing changes; same column: the lead moves within it; otherwise it leaves the source and enters the destination at the index |
| Leads.Board.AddLead | src/pages/Leads.tsx:71-88 | with content and contact, a lead with id String(Date.now()) goes first in "New" and the form is cleared and hidden; otherwise nothing changes |
| Leads.Board.DeleteLead | src/pages/Leads.tsx:90-97 | after confirmation the column loses the leads with that id; otherwise nothing changes |
| Leads.WithoutLead | src/pages/Leads.tsx:94 | the remaining leads are a subsequence of the column, all with another id, as many as the column has with another id, so in order exactly those (Lists.FilterUnique) |
| Leads.WithoutAbsentLead | src/pages/Leads.tsx:94 | deleting an id not in the column changes nothing |
| Leads.CrossColumnMoveConserves | src/pages/Leads.tsx:57-67 | a move between columns keeps the two columns' leads and value; the moved lead lands at the index |
| Leads.SameColumnMoveIsPermutation | src/pages/Leads.tsx:46-55 | a move within a column permutes it, keeps its value and puts the lead at the index |
| Leads.DragConservesBoard | src/pages/Leads.tsx:41-69 | any drop keeps the column names, the number of leads, the total value and every untouched column |
| Leads.ColumnColor | src/pages/Leads.tsx:103-112 | New is #3b82f6, Contacted #f59e0b, Qualified #8b5cf6, Proposal #06b6d4 and Closed #10b981, each exactly for its column; any other name gets grey #6b7280 |
| Users.InitialUsers | src/pages/Users.tsx:12-16 | three users with distinct ids |
| Users.Toggled | src/pages/Users.tsx:75 | the new status is "Inactive" exactly when the old one was "Active"; always Active or Inactive |
| Users.ToggledTwice | src/pages/Users.tsx:75 | toggling Active or Inactive twice restores it |
| Users.ToggleWhere | src/pages/Users.tsx:72-78 | rows with the id have their status toggled; other rows are unchanged |
| Users.UpdateWhere | src/pages/Users.tsx:55-59 | rows with the id take the form's fields and keep their id; other rows are unchanged |
| Users.WithoutUser | src/pages/Users.tsx:68 | the remaining rows are a subsequence of the list, all with another id, as many as the list has with another id, so in order exactly those (Lists.FilterUnique) |
| Users.ToggleWhereTwice | src/pages/Users.tsx:72-78 | two toggles of one id restore the list when its statuses are Active or Inactive |
| Users.ToggleTwiceFromOtherStatus | src/pages/Users.tsx:75 | any other status ends up "Inactive" after two toggles |
| Users.DeleteRemovesExactly | src/pages/Users.tsx:66-70 | deleting is idempotent and a user stays if and only if it was there with another id |
| Users.UserPage.constructor | src/pages/Users.tsx:12-25 | the initial users, a hidden form, no edit in progress, the cleared form |
| Users.UserPage.ToggleAddForm | src/pages/Users.tsx:85 | the header button flips the form's visibility |
| Users.UserPage.SetForm | src/pages/Users.tsx:100-123 | an input replaces the form's fields |
| Users.UserPage.AddUser | src/pages/Users.tsx:27-40 | with name, role and email filled in, the new user goes first and the form is cleared and hidden; otherwise nothing changes |
| Users.UserPage.EditUser | src/pages/Users.tsx:42-51 | the user is being edited, its fields fill the form, and the form is shown |
| Users.UserPage.UpdateUser | src/pages/Users.tsx:53-64 | with an edit in progress and a complete form, the rows with that id take the form; the edit ends and the form is cleared and hidden; otherwise nothing changes |
| Users.UserPage.DeleteUser | src/pages/Users.tsx:66-70 | after confirmation the users with that id are removed; otherwise nothing changes |
| Users.UserPage.ToggleUserStatus | src/pages/Users.tsx:72-78 | the users become ToggleWhere of the old list |
| Home.InitialTasks | src/pages/Home.tsx:10-14 | three tasks, two of them pending |
| Home.Pending | src/pages/Home.tsx:99 | the pending count is the number of tasks not done |
| Home.ToggleWhere | src/pages/Home.tsx:60-62 | tasks with the id flip done; others are unchanged |
| Home.ToggleTwice | src/pages/Home.tsx:60-62 | toggling a task twice restores the list |
| Home.TogglePendingCount | src/pages/Home.tsx:60-62 | toggling a unique task moves the pending count by one: up when it was done, down when it was pending |
| Home.WithoutTask | src/pages/Home.tsx:71-73 | the remaining tasks are a subsequence of the list, all with another id, as many as the list has with another id, so in order exactly those (Lists.FilterUnique) |
| Lists.FilterUnique | src/pages/Home.tsx:72 | a subsequence whose elements all pass the filter's test and that has as many elements as pass it is the filter's result |
| Home.DeleteRemovesExactly | src/pages/Home.tsx:71-73 | a task stays if and only if it was there with another id |
| Home.RetextWhere | src/pages/Home.tsx:78 | tasks with the id get the new text and keep id and done; others are unchanged |
| Home.Push | src/pages/Home.tsx:53-54 | a tick puts the entry first and keeps at most four older entries, in order |
| Home.PushAllNewestFirst | src/pages/Home.tsx:49-55 | after any run of ticks a feed has at most five entries, the newest first |
| Home.NotificationText | src/pages/Home.tsx:54 | a notification is the template, " - ", then the time |
| Home.Dashboard.constructor | src/pages/Home.tsx:10-26 | the initial tasks and both initial feeds, with an empty input |
| Home.Dashboard.SetNewTaskText | src/pages/Home.tsx:114 | the input's text is replaced |
| Home.Dashboard.ToggleTask | src/pages/Home.tsx:60-62 | the list becomes ToggleWhere of the old list |
| Home.Dashboard.AddTask | src/pages/Home.tsx:64-69 | text that trims to nothing is ignored; otherwise a pending task with the untrimmed text goes first and the input is cleared |
| Home.Dashboard.DeleteTask | src/pages/Home.tsx:71-73 | the list loses every task with the id |
| Home.Dashboard.EditTask | src/pages/Home.tsx:75-80 | a cancelled or empty answer changes nothing; otherwise the matching tasks get the new text |
| Home.Dashboard.Tick | src/pages/Home.tsx:49-55 | the picked suggestion and the stamped notification go first in their feeds, which stay within five |
| SetupGuide.Toggle | src/components/SetupGuide.tsx:12-18 | the step becomes completed if and only if it was not; every other step keeps its state |
| SetupGuide.ToggleKeepsNoDuplicates | src/components/SetupGuide.tsx:12-18 | toggling never lists a step twice |
| SetupGuide.ToggleTwice | src/components/SetupGuide.tsx:12-18 | two toggles restore the set of completed steps, and the list itself when the step was not completed |
| SetupGuide.ProgressBounds | src/components/SetupGuide.tsx:109-120 | the count lies in 0..4, the remaining count is not negative, the bar stays within 0..100%, and "all setup complete" shows if and only if every step is completed |
| SetupGuide.Guide.constructor | src/components/SetupGuide.tsx:10 | no step is completed |
| SetupGuide.Guide.ToggleStep | src/components/SetupGuide.tsx:12-18 | the list becomes Toggle of the old one and stays duplicate-free within the four step ids |
| StatusBadge.StatusClasses | src/components/ui/StatusBadge.tsx:8-30 | green, red, blue or yellow exactly for their lower-cased statuses; grey for every other status, canceled and cancelled included |
| StatusBadge.ClassesIgnoreCase | src/components/ui/StatusBadge.tsx:9 | the colour does not depend on the letter case |
| StatusBadge.Label | src/components/ui/StatusBadge.tsx:36 | the label has the status's length, its first character upper-cased and the rest unchanged |
| StatusBadge.LabelIdempotent | src/components/ui/StatusBadge.tsx:36 | capitalising a label again changes nothing |
| MockData.InvoicesBalanced | src/services/mockDataService.ts:141-233 | every fixture invoice has total = subtotal + tax − discount, amount due = total − paid and tax = subtotal·tax% |
| MockData.ReferencesResolve | src/services/mockDataService.ts:92-233 | every customer, plan and subscription that a fixture refers to exists |
| MockData.DenormalisedFieldsAgree | src/services/mockDataService.ts:92-281 | invoice customer names and e-mails match the customer; a subscription's unit amount is its plan's price; a subscription invoice bills unit amount × quantity |
| MockData.GetMockData | src/services/mockDataService.ts:284-304 | each of the four tables yields one record per fixture, record i being fixture i with its derived display fields; any other name yields [] |
| MockData.SearchMockData | src/services/mockDataService.ts:307-317 | an empty term returns the table; otherwise every returned record has a field containing the lower-cased term |
| MockData.SearchSpec | src/services/mockDataService.ts:307-317 | the result is a subsequence of the table holding exactly the records with a matching field; an unknown table yields [] |
| MockData.SearchIgnoresTermCase | src/services/mockDataService.ts:311 | terms with the same lower-case form give the same result |
| MockData.SearchIdempotent | src/services/mockDataService.ts:312-316 | filtering a search result again with the same term changes nothing |
| MockData.SearchFindsNameInAnyCase | src/services/mockDataService.ts:307-317 | searching customers for "JOHN" finds John Doe and Bob Johnson |
| StripeWebhooks.Classify | supabase/functions/stripe-webhooks/index.ts:47-90 | an event type is unhandled if and only if the switch does not name it; each of the ten named types selects its own handler, and only that type selects it |
| StripeWebhooks.Units | supabase/functions/stripe-webhooks/index.ts:158-161 | units × 100 equals the amount in cents |
| StripeWebhooks.UnitsOrZero | supabase/functions/stripe-webhooks/index.ts:159 | a missing tax divided by 100 is 0 |
| StripeWebhooks.IsoOrNull | supabase/functions/stripe-webhooks/index.ts:162 | a missing or zero timestamp gives null; any other gives its ISO rendering |
| StripeWebhooks.NameOrEmail | supabase/functions/stripe-webhooks/index.ts:117 | the name when non-empty, else the e-mail |
| StripeWebhooks.SingleCustomer | supabase/functions/stripe-webhooks/index.ts:143-149 | the lookup yields a row if and only if the id is present and exactly one customer row carries it, and then that row |
| StripeWebhooks.NewInvoiceRow | supabase/functions/stripe-webhooks/index.ts:151-165 | the inserted invoice belongs to the found customer; "paid" exactly when the processor says paid, else "sent"; currency upper-cased; amounts are the cents divided by 100 |
| StripeWebhooks.NewSubscriptionRow | supabase/functions/stripe-webhooks/index.ts:201-211 | the inserted subscription belongs to the found customer and carries the status and period |
| StripeWebhooks.NewPaymentRow | supabase/functions/stripe-webhooks/index.ts:256-290 | the inserted payment belongs to the found customer with amount/100 and an upper-cased currency; a success is stamped now, a failure carries the error message |
| StripeWebhooks.Dispatch | supabase/functions/stripe-webhooks/index.ts:47-90 | an unhandled event changes no table; every handler writes only its own table |
| StripeWebhooks.PaymentSucceededMarksPaid | supabase/functions/stripe-webhooks/index.ts:170-181 | every invoice with the processor's id becomes paid now with amount_paid = cents/100 and keeps every other column; other invoices are unchanged |
| StripeWebhooks.PaymentFailedMarksOverdue | supabase/functions/stripe-webhooks/index.ts:183-190 | a failed payment makes the matching invoices overdue and changes nothing else about them; no other invoice changes |
| StripeWebhooks.SubscriptionDeletedCancels | supabase/functions/stripe-webhooks/index.ts:234-245 | a deleted subscription makes the matching subscriptions canceled with canceled_at and ended_at stamped now and every other column kept; no other subscription changes |
| StripeWebhooks.SubscriptionUpdatedRewrites | supabase/functions/stripe-webhooks/index.ts:216-232 | an updated subscription copies the status and the ISO period, trial, cancellation and end times onto the matching rows, keeping their other columns; no other subscription changes |
| StripeWebhooks.LookupGuardsInserts | supabase/functions/stripe-webhooks/index.ts:142-168 | the inserting handlers write nothing unless exactly one customer matches; when one does, the tables become the old ones with NewInvoiceRow, NewSubscriptionRow or NewPaymentRow of that customer appended to the handler's table |
| StripeWebhooks.CustomerEvents | supabase/functions/stripe-webhooks/index.ts:113-140 | customer.created keeps the customer rows and appends one with the processor's id, name or else e-mail, e-mail and phone; customer.updated rewrites those fields on the rows with the id and keeps the others; no other table changes |
| StripeWebhooks.UpdatesIdempotent | supabase/functions/stripe-webhooks/index.ts:127-140 | a redelivered update event, handled with the same clock reading, leaves the tables as a single delivery did |
| StripeWebhooks.InvoiceCreatedTwiceDuplicates | supabase/functions/stripe-webhooks/index.ts:142-168 | delivering invoice.created twice stores two rows for the same invoice |
| StripeWebhooks.LogAndMark | supabase/functions/stripe-webhooks/index.ts:39-44 | the log gains the event's row; every row with the event's id ends up processed and no other row changes |
| StripeWebhooks.Store.Receive | supabase/functions/stripe-webhooks/index.ts:10-101 | a preflight answers "ok" and a bad signature answers 400, neither writing anything; otherwise the tables become Dispatch of the old ones, the log becomes LogAndMark, and the answer is 200 {"received":true} |

## Left out

- **Case mapping and whitespace.** `toLowerCase`, `toUpperCase` and `trim` are modelled on ASCII letters and ASCII white space. JavaScript maps all of Unicode.
- **Mixed-kind sort columns.** JavaScript's `<` is not a consistent comparison on a column mixing numbers, strings, booleans, null and missing values, and the resulting order is left to the engine. There the model fixes one order: missing and undefined values, then null, booleans, numbers and strings.
- **Table cell values.** A table row's values are numbers, strings, booleans, null and undefined. Object and array values, whose `String()` rendering depends on their contents, are not modelled.
- OptimizedTable.StrLess: compares characters as Unicode code points, while JavaScript compares UTF-16 code units; the two orders differ only on strings holding characters above U+FFFF.
- **Modal and service totals.** The modal taxes the discounted subtotal; the service taxes the full subtotal and then subtracts the discount. The model follows the code and proves when the two agree (`InvoiceModal.TotalsAgreeIff`). It does not choose one formula as the intended one.
- **Numbers.** Money and quantities in the invoice code, and the webhook's `cents / 100` conversions (`StripeWebhooks.Units`), are exact reals, not IEEE doubles, so rounding is not modelled. The mock fixtures are whole numbers and are modelled as `nat`.
- StripeWebhooks.Dispatch: one clock reading stands for every `new Date()` a handler makes, so a deleted subscription's canceled_at and ended_at are always equal; in JavaScript the two calls may read different milliseconds. A real redelivery runs at a later time, so `UpdatesIdempotent` holds only for a redelivery handled with the same clock reading.
- InvoiceModal.ApplyEdit: the `amount` edit kind, which no input of the form sends, may break amount = quantity × unit price; invariant preservation is stated for the three edits the form sends.
- InvoiceService.CreateInvoice: one clock reading stands for both `Date.now()` calls, so the number and the id always share their digits; in JavaScript the two calls may read different milliseconds.
- **Service catch blocks.** Whether a service call's body threw is a parameter (`Threw`), since nothing in the demo body can throw.
- **Unmodelled service operations.** `sendInvoice`, `generateInvoicePDF` and the invoice HTML template are not modelled. They are e-mail and document rendering calls.
- **Remote data loading.** The modal's customer fetch, the loading and toast state, and `onSuccess`/`onClose` callbacks are not modelled (network and UI).
- **Table data source.** The table's loading skeleton and the data hook that feeds it are not modelled. Nor is `pageSize` ≤ 0: the table requires a page size of at least 1.
- **Out-of-range page state.** The table's page is not reset when the search shrinks the data, and the model does not reset it either. Nothing is proved about a page past the end beyond it being empty.
- **Object prototype keys.** `getMockData` and `getColumnColor` index plain objects. Names such as "toString" reach prototype members in JavaScript; the model treats them as unknown names.
- **Missing due dates.** `dueDateFormatted` renders the due date unconditionally, since every fixture invoice has one; the null branch for a missing due date is not reachable with these fixtures.
- **Locale rendering.** `toLocaleString` and `toLocaleDateString` are parameters (`MockData.Locale`).
- **Fixture subscription counts.** The customers' `subscriptions` counts do not match the subscription fixtures. No property is claimed about them.
- **Webhook columns.** The customer `address` and `metadata` columns and the log's `payload` column are not modelled.
- **Database responses.** The database's error results on insert and update are not modelled; they are only logged. The outer catch that answers 400 on a thrown error is also left out, as is whether the remote schema accepts a customer row without `user_id`.
- **Signature verification.** The signature check is a boolean parameter of `Receive`; the HMAC itself is not modelled.
- **Random dashboard cards.** The "New Leads" and "Revenue" cards on the dashboard are random numbers and are not modelled.
