# Invoice ledger model

A Dafny model of the invoice ledger of a financial-practice dashboard: the
line-item editor of the invoice creation form with its always-current totals
and submission rules, the invoice page's list of records with its
verify-by-id handler, and the invoice uploader's small state machine.

Modules, one per source component, plus the shared record type
(`InvoiceData`, src/pages/Invoices.tsx:12-30) and the totals derivation
(`Totals`, src/components/InvoiceCreator.tsx:83-91):

- `InvoiceData` (`invoice_data.dfy`): the invoice record, its line items and
  the `pending | processed | verified` status.
- `Totals` (`totals.dfy`): subtotal, tax and total as pure functions of the
  items and the tax rate, with lemmas on how each table edit moves the
  subtotal and on the bounds of the totals.
- `InvoiceCreator` (`invoice_creator.dfy`): the form schema (as a list of
  rejection reasons and as a predicate, shown equivalent), the table edits as
  pure sequence functions, the `Editor` class whose methods apply them and
  keep the totals current, and submission into a pending record.
- `InvoiceUploader` (`invoice_uploader.dfy`): the media-type whitelist, the
  fixed extracted record, and the `Uploader` class (selection and processing
  flag).
- `Invoices` (`invoices.dfy`): the `Ledger` class holding the page's records,
  verification as a pure map over the list, and the wiring of the uploader
  into the ledger.

Money is `real`. Ids, invoice numbers and dates that the source draws from
the random generator or the clock are parameters. The e-mail syntax check of
the schema library is a parameter `isEmail`. A numeric input is represented
after parsing as `Option<real>`, `None` standing for a value that does not
parse.

The model follows the code where it is narrower than its own messages or
than one might expect:

- the schema demands quantity >= 0.01 (`min(0.01)`), although its own message
  reads "Quantity must be greater than 0" (src/components/InvoiceCreator.tsx:28);
- no handler moves a record from pending to processed: both are initial
  statuses (creation form and uploader), and verified is the only transition;
- there is no look-up by id in the page; records are selected by clicking a
  row;
- the creation form's e-mail is validated but not copied into the record.

## Model

| member | source | states |
|---|---|---|
| `Totals.SubtotalAppend` | src/components/InvoiceCreator.tsx:84 | appending an item raises the subtotal by exactly its amount |
| `Totals.SubtotalUpdate` | src/components/InvoiceCreator.tsx:84 | replacing item i changes the subtotal by the new amount minus the old one |
| `Totals.SubtotalRemove` | src/components/InvoiceCreator.tsx:84 | removing item i lowers the subtotal by exactly its amount |
| `Totals.SubtotalNonNegative` | src/components/InvoiceCreator.tsx:84 | with no negative amount the subtotal is not negative |
| `Totals.TotalIsScaledSubtotal` | src/components/InvoiceCreator.tsx:83-91 | total == subtotal * (1 + taxRate/100), subtotal is the sum of the amounts |
| `Totals.TotalsBounds` | src/components/InvoiceCreator.tsx:83-91 | non-negative amounts and rate give 0 <= subtotal <= total and tax >= 0 |
| `Totals.ConsistentAmountsNonNegative` | src/components/InvoiceCreator.tsx:94-104 | amounts equal to quantity * price with non-negative factors are non-negative |
| `InvoiceCreator.RowErrorsMember` | src/components/InvoiceCreator.tsx:26-30 | one row reports exactly the rules its item breaks, each against that row's index |
| `InvoiceCreator.ItemIssueSound` | src/components/InvoiceCreator.tsx:25-32 | a given reported issue names an existing item and a rule that item breaks |
| `InvoiceCreator.ItemErrorsComplete` | src/components/InvoiceCreator.tsx:25-32 | every rule an item breaks is reported against that item's index |
| `InvoiceCreator.ItemErrorsInRange` | src/components/InvoiceCreator.tsx:25-32 | every reported item issue names an existing item and a rule that item breaks |
| `InvoiceCreator.ItemErrorsExact` | src/components/InvoiceCreator.tsx:25-32 | an item issue is reported if and only if that item breaks that rule (description, quantity >= 0.01, price >= 0) |
| `InvoiceCreator.ItemErrorsEmpty` | src/components/InvoiceCreator.tsx:25-32 | no item issue exactly when every item is valid |
| `InvoiceCreator.ValidationErrorsEmptyIff` | src/components/InvoiceCreator.tsx:18-37 | the schema reports nothing if and only if all header fields are non-empty, the e-mail is empty or valid, there is an item, every item is valid and 0 <= taxRate <= 100 |
| `InvoiceCreator.SubmittedInvoiceWellFormed` | src/components/InvoiceCreator.tsx:139-157 | a valid form with current totals yields a pending record named "invoice-" + number + ".pdf" with the form's items, consistent totals and 0 <= subtotal <= total |
| `InvoiceCreator.WithNewItem` | src/components/InvoiceCreator.tsx:107-117 | adding keeps the prefix, lengthens by one and appends the default item |
| `InvoiceCreator.WithAmount` | src/components/InvoiceCreator.tsx:94-104 | row i gets the new quantity, price and amount quantity*price and keeps its description; other rows and the length are unchanged |
| `InvoiceCreator.WithDescription` | src/components/InvoiceCreator.tsx:326-330 | row i gets the new description, its numbers and every other row are unchanged |
| `InvoiceCreator.WithoutItem` | src/components/InvoiceCreator.tsx:120-125 | with more than one row exactly row i is removed, order kept, length down by one; a single row is kept; never empties a non-empty list |
| `InvoiceCreator.NewItemKeepsAmounts` | src/components/InvoiceCreator.tsx:107-117 | the appended default row does not make any amount stale |
| `InvoiceCreator.EditKeepsTableSound` | src/components/InvoiceCreator.tsx:94-131 | one add, update, description edit or removal keeps the table non-empty with no stale amount |
| `InvoiceCreator.EditsKeepTableSound` | src/components/InvoiceCreator.tsx:63-70 | any run of edits from a sound table (such as the single default row) keeps it non-empty with no stale amount |
| `InvoiceCreator.DefaultTableSound` | src/components/InvoiceCreator.tsx:63-74 | the default row has a current amount and gives all-zero totals |
| `InvoiceCreator.DefaultSummary` | src/components/InvoiceCreator.tsx:63-75 | the initial one-row table at the default 10% rate has a current amount and summarises to zero subtotal, tax and total |
| `InvoiceCreator.Editor.constructor` | src/components/InvoiceCreator.tsx:54-76 | the form defaults: one default row, rate 10, zero totals, empty client fields |
| `InvoiceCreator.Editor.RecomputeTotals` | src/components/InvoiceCreator.tsx:83-91 | subtotal, tax and total become `Summarize(items, taxRate)`, the one definition whose bounds `Totals.TotalsBounds` and `Totals.TotalIsScaledSubtotal` prove |
| `InvoiceCreator.Editor.SetDetails` | src/components/InvoiceCreator.tsx:215-297 | the header and client fields take the entered values, nothing else changes |
| `InvoiceCreator.Editor.AddItem` | src/components/InvoiceCreator.tsx:107-117 | items become WithNewItem of the old items, totals current, other fields unchanged |
| `InvoiceCreator.Editor.UpdateItemAmount` | src/components/InvoiceCreator.tsx:94-104 | items become WithAmount of the old items, totals current, other fields unchanged |
| `InvoiceCreator.Editor.SetQuantity` | src/components/InvoiceCreator.tsx:338-341 | a quantity that does not parse is stored as 0; the row's amount follows |
| `InvoiceCreator.Editor.SetUnitPrice` | src/components/InvoiceCreator.tsx:351-354 | a unit price that does not parse is stored as 0; the row's amount follows |
| `InvoiceCreator.Editor.SetDescription` | src/components/InvoiceCreator.tsx:326-330 | items become WithDescription of the old items; totals do not move |
| `InvoiceCreator.Editor.RemoveItem` | src/components/InvoiceCreator.tsx:120-132 | refused exactly when one row is left, then nothing changes; otherwise items become WithoutItem of the old items |
| `InvoiceCreator.Editor.SetTaxRate` | src/components/InvoiceCreator.tsx:392 | a rate that does not parse is stored as 0; totals follow |
| `InvoiceCreator.Editor.Submit` | src/components/InvoiceCreator.tsx:135-157 | created if and only if the form is valid, then the pending, well-formed record; otherwise every rejection reason |
| `InvoiceUploader.AcceptedExactly` | src/components/InvoiceUploader.tsx:21-26 | exactly application/pdf, image/jpeg, image/jpg and image/png are accepted |
| `InvoiceUploader.ExtractedInvoiceWellFormed` | src/components/InvoiceUploader.tsx:85-111 | the extracted record is processed, named after the file, each amount is quantity*price, subtotal is their sum, total is subtotal + tax (a 20% rate) |
| `InvoiceUploader.Uploader.constructor` | src/components/InvoiceUploader.tsx:17-18 | no selection, not processing, so Process and Clear are disabled |
| `InvoiceUploader.Uploader.ValidateAndSetFile` | src/components/InvoiceUploader.tsx:55-66 | the file is selected if and only if its type is accepted; otherwise the selection is kept; after an accepted file Process and Clear are enabled unless processing runs (lines 190, 193) |
| `InvoiceUploader.Uploader.ClearSelectedFile` | src/components/InvoiceUploader.tsx:68-73 | the selection becomes none (so clearing twice is clearing once) and Process and Clear are disabled |
| `InvoiceUploader.Uploader.ProcessInvoice` | src/components/InvoiceUploader.tsx:75-124 | no file: nothing changes; success: exactly one processed, well-formed record with the file's name, selection cleared; failure: nothing emitted, selection kept; processing flag false after either, so Process and Clear are enabled again exactly after a failure (lines 190, 193) |
| `Invoices.MarkVerifiedAt` | src/pages/Invoices.tsx:45-50 | verifying keeps length; a record with the id becomes verified and is otherwise unchanged; any other record is unchanged |
| `Invoices.MarkVerifiedLength` | src/pages/Invoices.tsx:46-50 | verifying preserves the length of the list |
| `Invoices.MarkVerifiedAbsent` | src/pages/Invoices.tsx:46-50 | an id no record carries leaves the list identical |
| `Invoices.MarkVerifiedIdempotent` | src/pages/Invoices.tsx:45-50 | verifying twice with the same id equals verifying once |
| `Invoices.VerifyNoRegression` | src/pages/Invoices.tsx:45-50 | verifying only moves statuses to verified and changes nothing else |
| `Invoices.AppendNoRegression` | src/pages/Invoices.tsx:37-38 | appending leaves every existing record as it was |
| `Invoices.NoRegressionTransitive` | src/pages/Invoices.tsx:37-55 | two steps that only move statuses to verified compose into one |
| `Invoices.RunNoRegression` | src/pages/Invoices.tsx:28-55 | after any run of append and verify handlers no existing record loses verified, changes otherwise, or moves |
| `Invoices.VerifyOfferedChanges` | src/pages/Invoices.tsx:119-122 | the Verify button changes its record exactly when it is offered (status not verified), and leaves it verified |
| `Invoices.Ledger.constructor` | src/pages/Invoices.tsx:34 | the page starts with no records |
| `Invoices.Ledger.HandleInvoiceProcessed` | src/pages/Invoices.tsx:37-43 | the new list is the old list plus the record at the end |
| `Invoices.Ledger.HandleVerifyInvoice` | src/pages/Invoices.tsx:45-55 | the new list is MarkVerified of the old one, with the same length |
| `Invoices.ProcessUpload` | src/pages/Invoices.tsx:68 | a record the uploader emits is appended to the page's list, otherwise the list is unchanged; a failed step appends nothing and keeps the selection, a successful one clears it, and the processing flag ends false |

## Left out

- Rendering, dialogs, toasts, drag-and-drop highlighting, the hidden file input and its reset: presentation only.
- `sendInvoice` and `downloadInvoice`: they only raise notices, `sendInvoice` after a 2-second delay.
- The 2-second processing delay: processing is one atomic step. The awaited timer itself never rejects (src/components/InvoiceUploader.tsx:82), so the catch path at lines 115-120 cannot fire as written; the parameter `fails` stands for a failure of the extraction call that the comment on line 81 anticipates in its place, and when it fails nothing has been emitted.
- React effect scheduling: the totals effect runs after a render in the source, so a render with stale totals can be observed there; the model recomputes totals inside each edit.
- `parseFloat` itself: the model starts from the parsed value or its absence.
- `Math.random()` ids, `Date`-based defaults and `toFixed(2)` display rounding; floating-point rounding (money is `real`).
- The e-mail regular expression of the schema library: a parameter.
- InvoiceCreator.Editor.UpdateItemAmount: requires an existing row; the source is only called with indices of rendered rows, and for any other index it would create a row with no description.
- InvoiceCreator.Editor.SetDescription: requires an existing row; in the source the handler writes through the row object shared with the previous list, which the value model does not capture (and it would fail on a missing row).
- InvoiceCreator.Editor.Submit: the browser's native constraint checks on the inputs (`step="0.01"` and `min="0"` on quantity and unit price, `max="100" step="0.01"` on the tax rate, `type="email"`, src/components/InvoiceCreator.tsx:279, 343-344, 356-357, 393-395) also gate the submit event and are not modelled; "created if and only if valid" holds for the schema and `handleSubmit`, so e.g. a quantity of 1.005 is accepted by the model but stopped by the page.
- The schema's `z.number()` checks on amount and totals: every `real` is a number; NaN and infinities are not modelled.
- Negative indices to `splice`: indices are `nat`, as the source only passes row indices.
