# EDH HMS billing and HMO receivables, modelled in Dafny

This project models the billing core of the Empress Desire Hospital
management system (EDH HMS), a Django application. It covers:

- the cost split between patient and HMO;
- invoice generation from a visit's consultation and prescriptions;
- payment entry and the invoice figures it recomputes;
- invoice, hospital and visit numbering;
- HMO claim batches from DRAFT through SUBMITTED to PAID, and their CSV rows;
- the HMO aging report, disputes and reminders;
- the weekly follow-up sweep, the follow-up due list and the revenue dashboard;
- the visit, prescription and lab-request status flows;
- the role gates and the small formatters used on receipts and reminder letters.

## How the system is represented

- **The database** is one class, `Store.Db`, with one `seq` field per table.
  Rows are datatypes. Row `k` of a table has primary key `k + 1`.
  - The invoice-line table is the exception. Regenerating an invoice
    deletes its lines, so the table shrinks and a line's row no longer
    gives its primary key. No foreign key and no view reads a line's
    primary key, so the model never needs it.
  - `Db.Valid()` states the foreign keys and the schema's uniqueness
    rules of the modelled tables. These are: unique invoice numbers
    (never blank once saved), unique usernames and unique lab test
    names, and one-to-one links from invoice to visit, from patient to
    user and from lab result to request. It also states one claim item
    per invoice and one follow-up per key.
  - `Db.Valid()` also states that every hospital number and every visit
    number is the one the post-save hook derives from the row's own id.
    Only the hooks write those fields, since no form includes them.
    `Store.NumberedUnique` derives from this the schema's `unique=True`
    on both columns. The hooks themselves also handle a store where
    their number is already taken: the unique column rejects the save.
  - The schema itself does not enforce those last two. The claim item's
    invoice is a plain foreign key, and the follow-up has no unique
    constraint. Only the views' `exists()` checks and `get_or_create` keep
    them. So `Db.Valid()` describes the states reachable through the
    modelled views, and every view that writes is proved to keep it.
- **Views that change rows** are methods on the store. Each `ensures` states
  the whole new state, usually as a pure specification function of the old
  one, and lemmas prove what that function promises.
- **Read-only views** are functions that return a `Page`: the content shown,
  or the refusal or not-found they stopped at.
  - A role gate (`require_roles`, `patient_only`, `login_required`) is a
    function from the viewer to the refusal, if there is one.
  - A submitted form is an `Option`: `None` stands for a form that does not
    validate.
- **Money** is a whole number of cents. `Decimal.quantize` to cents under the
  default context is rounding half to even (`Decimal.RoundHalfEven`).
  Quantities are held in hundredths.
- **Time inputs.** `now`, `today` and the day of the month are parameters.
  A date is a day number, and a timestamp is a date with a second of the day.
- **Random tokens.** The `uuid4` token and clock reading behind a fresh
  invoice number come from a finite sequence of draws passed in.
- **Creation order.** Every table except the invoice lines only grows, in
  creation order. So `order_by("created_at")` is row order and
  `order_by("-created_at")` is its reverse.
- **Whitespace.** `str.strip()` removes the characters for which
  `str.isspace()` holds, ASCII and Unicode alike (`Text.Whitespace`).

The model follows the code as written, including where it departs from its
own comments:

- `amount_paid` sums every payment on an invoice, HMO payments included.
- The POST path that adds invoices to a claim batch does not check the
  batch's period.
- The weekly sweep's outstanding amount covers all of an HMO's invoices,
  not only the thirty-day window.
- The invoice builder never emits a LAB line.
- The REMINDED follow-up status is stored as the literal `"REINDED"`.

## Model

| member | source | states |
|---|---|---|
| AccountsUtils.RequireRoles | accounts/utils.py:7-13 | an anonymous user is refused with "Login required"; a superuser always passes; anyone else passes exactly when their role is in the set, and is otherwise refused with the permission message |
| AccountsUtils.RequireRolesMonotone | accounts/utils.py:7-13 | widening the role set never refuses a user who was let through |
| AccountsUtils.RequireNoRoles | accounts/utils.py:10-13 | with no roles, only an authenticated superuser gets through |
| AccountsUtils.StaffGate | accounts/utils.py:7-13 | login_required before the role gate: an anonymous visitor is sent to log in; an authenticated one goes on exactly when the role gate allows, and is otherwise refused with the permission message |
| AccountsUtils.LoginGate | accounts/utils.py:8-9 | the view goes on exactly when the user is authenticated; otherwise the user is sent to log in |
| AccountsViews.SuccessUrl | accounts/views.py:7-14 | a user with role "patient" goes to the portal; anyone else follows the `next` URL when one is given, and goes to the patient list otherwise |
| AccountsViews.SuccessUrlRoles | accounts/views.py:7-14 | the portal is reached exactly by patients, and a patient never follows `next` |
| BillingExtras.GetItem | billing/templatetags/billing_extras.py:5-14 | a dictionary gives the key's value, and `None` exactly when the key is missing; a sequence gives the element at an index in range and `None` otherwise; anything else gives `None`: the filter never raises |
| BillingExtras.GetItemFound | billing/templatetags/billing_extras.py:5-14 | a value the filter returns is one of the dictionary's values or one of the sequence's elements |
| BillingUtils.SplitAmount | billing/utils.py:3-11 | an uninsured charge is all the patient's; an insured one gives the HMO 80% of it rounded to the cent, half to even; the two shares always add up to the charge |
| BillingUtils.SplitIsNearest | billing/utils.py:9-10 | the HMO share of a whole number of cents is strictly within half a cent of 80% of it, so the rounding mode never decides a tie |
| BillingUtils.SplitBounds | billing/utils.py:5-11 | for a non-negative charge both shares lie between zero and the charge |
| BillingUtils.SplitExact | billing/utils.py:9-10 | a charge that is a multiple of five cents splits exactly four to one between HMO and patient |
| BillingSignals.SetInvoiceNumber | billing/signals.py:5-9 | only the creating save of an invoice with a blank number writes a number: the `EDH-INV-` id, passed through the uniqueness loop, and nothing else changes; otherwise nothing changes |
| PatientsSignals.HospitalNumberFor | patients/signals.py:8 | the hospital number starts with `EDH-` and holds at least six digits |
| PatientsSignals.HospitalNumbersDistinct | patients/signals.py:8 | distinct patient ids give distinct hospital numbers |
| PatientsSignals.SetHospitalNumber | patients/signals.py:5-9 | only the creating save of a patient with a blank hospital number writes one, `EDH-` and the zero-padded id, and it changes no other field or row; when another patient already holds that number the save fails with the unique-constraint error and nothing changes; otherwise nothing changes |
| PatientsSignals.HookNumbersNewPatient | patients/signals.py:5-9 | in a table where every patient carries its own hook number, a newly appended patient's number is held by no other row, and numbering it keeps the whole table numbered |
| VisitsSignals.VisitNumberFor | visits/signals.py:8 | the visit number starts with `EDH-V-` and holds at least six digits |
| VisitsSignals.VisitNumbersDistinct | visits/signals.py:8 | distinct visit ids give distinct visit numbers |
| VisitsSignals.SetVisitNumber | visits/signals.py:5-9 | only the creating save of a visit with a blank number writes one, `EDH-V-` and the zero-padded id, and it changes no other field or row; when another visit already holds that number the save fails with the unique-constraint error and nothing changes; otherwise nothing changes |
| VisitsSignals.HookNumbersNewVisit | visits/signals.py:5-9 | in a table where every visit carries its own hook number, a newly appended visit's number is held by no other row, and numbering it keeps the whole table numbered |
| PortalUtils.PatientOnly | patients/portal_utils.py:3-5 | exactly an authenticated user whose role is "patient" passes, superuser or not; everyone else is refused with "Patient access only" |
| PortalUtils.PortalAndStaffDisjoint | patients/portal_utils.py:3-5 | a non-superuser never passes both the portal gate and a staff gate whose roles leave out "patient" |
| Claims.ItemRow | billing/claims.py:15-19 | a data row has the eight header columns: the batch's HMO and period first, the invoice's number and the item's own HMO amount last |
| Claims.ExportClaimBatchCsv | billing/claims.py:5-21 | a missing batch is an error; otherwise the export is the header followed by the rows of the batch's items |
| Claims.WriteRows | billing/claims.py:12-19 | the writer loop produces the header and then one row for each item of the batch, in item order |
| Claims.BatchRowsFollowItems | billing/claims.py:14-19 | there is one data row per item of the batch, and the j-th row is that of the batch's j-th item in primary-key order |
| Claims.BatchRowsShape | billing/claims.py:14-19 | every data row has eight cells, starts with the batch's HMO and period, and ends with the HMO amount of one of the batch's items |
| BillingModels.NewInvoice | billing/models.py:16-43 | a new invoice is UNPAID, in HMO state OK, with every amount zero, blank HMO name and dispute reason and no reminder time, and carries the number, patient, visit and creation time given |
| BillingModels.NewClaimBatch | billing/models.py:124-129 | a new claim batch is a DRAFT for the HMO and period given |
| BillingModels.SaveLine | billing/models.py:95-97 | saving a line recomputes only `line_total`, as quantity times unit price rounded to the cent; a quantity of one keeps the unit price exactly |
| BillingModels.NewInvoiceNumber | billing/models.py:45-53 | a generated number is 26 characters: `INV-`, eight date digits, `-`, six time digits, `-`, and six upper-case hexadecimal digits |
| BillingModels.ParseNewInvoiceNumber | billing/models.py:45-53 | a generated number reads back as the clock reading and the upper-cased first six digits of the token it was built from |
| BillingModels.TakenByOtherIff | billing/models.py:66 | the collision query holds exactly when some row other than the invoice itself carries the number |
| BillingModels.FirstFree | billing/models.py:62-67 | the first candidate no other row carries, `None` exactly when every candidate is taken |
| BillingModels.Retry | billing/models.py:66-67 | the loop's result is a number no other row carries, non-blank when it started non-blank, and a free starting number is kept as is |
| BillingModels.EnsureUniqueInvoiceNumber | billing/models.py:55-67 | the method computes `UniqueNumber`: a blank number is replaced by a generated one, the result is never blank and no other row carries it, and a free non-blank number is left alone |
| BillingModels.RetryLoop | billing/models.py:66-67 | the `while` loop, stepping through the draws, computes `Retry` |
| BillingModels.UniqueNumberIsFirstFree | billing/models.py:55-67 | the numbers are tried in order, the current one first unless blank and then one per draw, and the first free one is kept |
| BillingModels.RetryIsFirstFree | billing/models.py:66-67 | the retry loop from a number keeps the first free one among it and the numbers of the draws that follow |
| BillingModels.GeneratedNumberIsNotSignalNumber | billing/models.py:53 | a generated `INV-` number never equals an `EDH-INV-` number the post-save signal assigns |
| InvoiceSaves.InsertInvoice | billing/models.py:69-71 | inserting an invoice whose number the loop has made unique appends exactly that row and keeps every table constraint, numbers unique and one invoice per visit included; the post-save hook leaves the set number alone |
| InvoiceSaves.SaveInvoice | billing/models.py:69-71 | re-saving row `k` with its number, patient and visit unchanged writes exactly that row, keeps its number through the loop, and keeps every table constraint |
| InvoiceSaves.NotTakenAppend | billing/models.py:66 | a number the collision query finds on no row is carried by no row |
| InvoiceSaves.NotTakenBySelf | billing/models.py:66 | with unique numbers, the collision query never fires on an invoice's own number, since it excludes its own row |
| InvoiceSaves.InvoicesOkUpdate | billing/models.py:16-19 | rewriting an invoice without touching its number, patient or visit keeps the numbers unique, the references in range and the visits one-to-one |
| InvoiceSaves.InvoicesOkAppend | billing/models.py:16-19 | appending an invoice with a fresh non-blank number, for a visit that has no invoice, keeps the invoice constraints |
| BillingServices.ChargeLine | billing/services.py:19-45 | a created charge line is on the invoice with quantity 1, unit price and total equal to the charge, and shares as `split_amount` gives, which add up to the total |
| BillingServices.ChargeLineIsSaved | billing/services.py:21-29 | the line the create stores, after the save fills in its total, is the charge line |
| BillingServices.DrugPrice | billing/services.py:35 | a drug without a price is billed at zero, any other at its price |
| BillingServices.PrescriptionsOfVisit | billing/services.py:34 | the visit's prescriptions are exactly the prescriptions of that visit, whatever their status |
| BillingServices.VisitPrescriptionsExist | billing/services.py:34 | every prescription of the visit refers to an existing drug |
| BillingServices.DrugLines | billing/services.py:34-45 | one drug line per prescription |
| BillingServices.LinesOfMembers | billing/services.py:48-50 | `invoice.lines.all()` holds exactly the invoice's lines |
| BillingServices.LinesWithoutMembers | billing/services.py:17 | the delete keeps exactly the lines of the other invoices |
| BillingServices.LinesOfAppend | billing/services.py:48-50 | the lines of an invoice in two stretches of the table are its lines in the first followed by those in the second |
| BillingServices.LinesWithoutAppend | billing/services.py:17 | deleting an invoice's lines acts on each stretch of the table separately |
| BillingServices.OwnLines | billing/services.py:17-45 | lines that all belong to the invoice are all found by `lines.all()` and all removed by the delete |
| BillingServices.LinesAfterRebuild | billing/services.py:17-50 | after the delete and the creates, the invoice's lines are exactly the created ones and the other invoices' lines are as they were |
| BillingServices.NoOwnLines | billing/services.py:17 | lines of other invoices are not found and not deleted |
| BillingServices.DrugLinesShape | billing/services.py:37-45 | every drug line is a DRUG line with quantity 1 whose total splits exactly into the two shares |
| BillingServices.RebuiltLinesCharged | billing/services.py:19-45 | every rebuilt line is on the invoice with quantity 1 and an exact split, and every line after the first is a DRUG line |
| BillingServices.RebuiltLinesKinds | billing/services.py:19-45 | the rebuild gives the consultation line at the fee, then one DRUG line per prescription of the visit, and never a LAB line |
| BillingServices.LineSumsSplit | billing/services.py:48-50 | when every line's total splits exactly, the invoice total is the patient amount plus the HMO amount |
| BillingServices.RebuiltLinesSplit | billing/services.py:48-55 | the rebuilt lines' total is their patient share plus their HMO share |
| BillingServices.StatusFor | billing/services.py:59-64 | PAID exactly when the balance is at most zero, PARTIAL exactly when something is owed and something was paid, UNPAID exactly when something is owed and nothing was paid |
| BillingServices.RefreshedFigures | billing/services.py:47-64 | the recomputed invoice holds the three line sums, the sum of all its payments, balance equal to patient amount minus amount paid, the status rule and the patient's HMO name, and keeps its number, patient, visit, creator, creation time and HMO state |
| BillingServices.RefreshIdempotent | billing/services.py:47-64 | recomputing the figures a second time from the same lines and payments changes nothing |
| BillingServices.AmountPaidCountsHmoPayments | billing/services.py:56 | every payment of any method, HMO settlements included, adds its amount to `amount_paid` |
| BillingServices.Target | billing/services.py:11-14 | the invoice the call works on is at most one row past the end of the table |
| BillingServices.GenerationOfTarget | billing/services.py:8-67 | when get-or-create lands on row `k` holding `base`, generation refreshes that row from the rebuilt lines and replaces the invoice's old lines with the rebuilt ones |
| BillingServices.GenerationIdempotent | billing/services.py:8-67 | generating a visit's invoice a second time, with no new prescriptions or payments, leaves both tables as the first call left them, whatever clock and draws the second call gets |
| BillingServices.GenerationSettled | billing/services.py:8-67 | after generation the visit's invoice is found at the row written, already carries the figures of its rebuilt lines, and those lines come last in the table |
| BillingServices.GenerationRowHoldsVisit | billing/services.py:11-14 | the row generation worked on is an invoice of the visit |
| BillingServices.GenerationFound | billing/services.py:11-14 | after generation, looking up the visit's invoice finds the row generation worked on, never a second invoice |
| BillingServices.GenerationOfExisting | billing/services.py:11-14 | for a visit that has an invoice at row `k`, generation rewrites that row in place and draws no number |
| BillingServices.GenerationAgain | billing/services.py:8-67 | generation over tables that already hold the visit's settled invoice and its rebuilt lines leaves both tables as they are |
| BillingServices.GenerationParts | billing/services.py:8-67 | names the row generation worked on, the invoice it wrote there and the lines it rebuilt, and states that the invoice is a fixed point of the refresh |
| BillingServices.GetOrCreateInvoice | billing/services.py:11-14 | the visit's invoice is found, or a new one numbered by the uniqueness loop is appended; exhausting the draws is an error that changes nothing; the table constraints hold afterwards |
| BillingServices.RebuildLines | billing/services.py:16-45 | the invoice's old lines are deleted and the rebuilt ones appended; afterwards its lines are exactly the rebuilt ones and the table constraints hold |
| BillingServices.DeleteLines | billing/services.py:17 | the delete leaves exactly the lines of the other invoices, and the table constraints hold |
| BillingServices.AddChargeLines | billing/services.py:19-45 | the creates append the consultation line and then the drug lines, in prescription order |
| BillingServices.AddDrugLines | billing/services.py:33-45 | the loop appends one DRUG line per prescription, priced from the drug and split as the patient's cover says |
| BillingServices.LinesOkAppend | billing/services.py:21-45 | lines that refer to existing invoices can be appended without breaking the line table's constraint |
| BillingServices.RefreshInvoice | billing/services.py:47-66 | the invoice row is replaced by its recomputed figures from its current lines and payments, saved under its own number, and the table constraints hold |
| BillingServices.GenerateInvoiceForVisit | billing/services.py:8-67 | the invoice and line tables become exactly those `Generation` describes, and the row returned is the visit's invoice; when no number can be drawn it is an error and nothing changes; the table constraints hold |
| BillingServices.GenerateOn | billing/services.py:16-66 | the rebuild and refresh of the row the get-or-create wrote complete the generation that started from the tables before it |
| BillingServices.GenerationRegenerated | billing/services.py:8-67 | a get-or-create on row `k` followed by the rebuild of its lines and the refresh of its figures leaves the tables `Generation` describes |
| BillingServices.RegenerateInvoice | billing/services.py:16-66 | the lines are rebuilt and the invoice row refreshed from exactly those lines and all its payments; the table constraints hold |
| BillingServices.PutThenSet | billing/services.py:11-14 | overwriting the row just written or appended is the same as writing the new value there |
| BillingViews.InvoiceList | billing/views.py:8-22 | outside billing, admin and frontdesk the gate's outcome; otherwise at most 200 invoice rows, newest first, each matching the stripped query case-insensitively in the number, hospital number, first or last name, and a matching invoice is left out only when the page is full of newer ones |
| BillingViews.InvoiceDetail | billing/views.py:25-29 | the gate's outcome, not found for a missing id, otherwise the invoice with that id |
| BillingViews.AddPayment | billing/views.py:32-62 | outside billing and admin nothing changes; a missing invoice is not found and a GET changes nothing; a POST with an unparsable amount or without a method fails and writes nothing; otherwise the payment with the amount (blank as zero), method, stripped reference, time and user is recorded and its invoice recomputed |
| BillingViews.PostPayment | billing/views.py:42-58 | the payment is appended, and a visit's invoice is regenerated in full while any other invoice only gets its paid amount and balance recomputed |
| BillingViews.PostVisitPayment | billing/views.py:42-53 | for an invoice tied to a visit: payment appended, lines rebuilt from the visit's prescriptions and every figure refreshed in the same row |
| BillingViews.PostLoosePayment | billing/views.py:42-48 | for an invoice without a visit: payment appended, lines untouched, and only `amount_paid` and `balance` recomputed |
| BillingViews.RecordPayment | billing/views.py:42-48 | the payments table gains exactly the new payment at its end |
| BillingViews.RecomputeVisitInvoice | billing/views.py:52-53 | regenerating a visit's own invoice rewrites that row in place (no new number drawn), its lines replaced by the rebuilt ones, all other rows kept |
| BillingViews.RecomputeLooseInvoice | billing/views.py:54-58 | `amount_paid` becomes the sum of all the invoice's payments and `balance` the patient amount minus it; nothing else in the invoice changes |
| BillingViews.PaidAfterPayment | billing/views.py:56 | a new payment raises its own invoice's paid sum by its amount and leaves every other invoice's sum unchanged |
| ClaimsViews.ClaimBatchList | billing/claims_views.py:11-15 | outside billing and admin the gate's outcome; otherwise every batch exactly once, newest first |
| ClaimsViews.ClaimBatchCreate | billing/claims_views.py:18-41 | a GET changes nothing; a POST without two valid dates fails and writes nothing; otherwise exactly one DRAFT batch is appended, for the stripped HMO name and the posted period |
| ClaimsViews.ClaimFor | billing/claims_views.py:85-92 | the claim item snapshots the invoice's HMO amount, the patient's "last first" name and hospital number, and the visit number or an empty string, and starts undisputed |
| ClaimsViews.NewClaims | billing/claims_views.py:76-93 | every item created belongs to the batch and references one of the invoices walked so far |
| ClaimsViews.ClaimedAppend | billing/claims_views.py:82 | an invoice is claimed in two tables put together exactly when it is claimed in one of them |
| ClaimsViews.NewClaimsBelow | billing/claims_views.py:76-93 | walking the first n invoices never claims a later invoice |
| ClaimsViews.NewClaimsClaim | billing/claims_views.py:76-93 | among the walked invoices, the new items claim exactly the posted ones with a positive HMO amount, the batch's HMO name and no earlier claim |
| ClaimsViews.NewClaimsSpec | billing/claims_views.py:59-95 | after the POST an invoice is claimed exactly when it was claimed before, or it was posted, has an HMO share, is billed to the batch's HMO |
| ClaimsViews.NewClaimsSnapshots | billing/claims_views.py:85-92 | every new item is the snapshot of an invoice that passed the filter |
| ClaimsViews.ItemsOkAfterClaims | billing/claims_views.py:81-83 | the one-claim-per-invoice rule and the item references still hold after the POST |
| ClaimsViews.ItemsOkAppend | billing/claims_views.py:81-83 | adding an item for an unclaimed invoice keeps one claim per invoice |
| ClaimsViews.ClaimBatchAddInvoices | billing/claims_views.py:59-111 | the gate's outcome, or not found for a missing batch; a GET changes nothing; a POST whose posted ids include one that is not an integer fails with nothing written; otherwise a POST appends exactly the new claims to the items table |
| ClaimsViews.ClaimInvoices | billing/claims_views.py:75-93 | the loop over the invoices leaves the items table as it was plus exactly the new claims |
| ClaimsViews.ClaimStep | billing/claims_views.py:76-93 | one turn of the loop claims the invoice exactly when it passes the filter, judged against the claims already in the table |
| ClaimsViews.ClaimedSoFar | billing/claims_views.py:82 | the existence check partway through the loop gives the same answer as it would against the items from before the POST |
| ClaimsViews.EligibleInvoices | billing/claims_views.py:97-106 | at most 300 invoices, newest first, each with a positive HMO amount, the batch's HMO name, a creation date inside the period and no claim; an eligible invoice is left out only when the page is full of newer ones |
| ClaimsViews.TotalMatchesExport | billing/claims_views.py:49-50 | the detail page's HMO total equals the sum of the HMO Amount column of the batch's export |
| ClaimsViews.ClaimBatchDetail | billing/claims_views.py:44-56 | the gate's outcome, or not found for a missing batch; otherwise the batch, exactly its items, each once and newest first, and the sum of their HMO amounts |
| ClaimsViews.ClaimBatchExportCsv | billing/claims_views.py:114-136 | the gate's outcome, or not found for a missing batch; otherwise the header followed by one row per item of the batch |
| ClaimsViews.SubmitStatus | billing/claims_views.py:143-144 | DRAFT becomes SUBMITTED, and every other status stays as it is |
| ClaimsViews.ClaimBatchSubmit | billing/claims_views.py:139-146 | on any request method, only the batch's status changes, as SubmitStatus gives |
| ClaimsViews.Settled | billing/claims_views.py:161-177 | the settlement loop only adds payments; the rows that were there stay first and unchanged |
| ClaimsViews.HasSettlementGrows | billing/claims_views.py:167 | once an invoice has an HMO payment with the reference, adding more payments keeps it |
| ClaimsViews.SettledCovers | billing/claims_views.py:161-177 | after the loop, the invoice of every item in the batch with a positive amount has an HMO settlement with the reference |
| ClaimsViews.SettledNothingToDo | billing/claims_views.py:166-169 | when every such invoice already has a settlement, the loop posts nothing |
| ClaimsViews.SettledIdempotent | billing/claims_views.py:166-169 | marking the batch paid again with the same reference posts nothing new, whoever does it and whenever |
| ClaimsViews.SettledPostsSettlements | billing/claims_views.py:171-177 | every payment the loop posts is an HMO payment with the reference, user and time, for the invoice and amount of a payable item |
| ClaimsViews.ClaimBatchMarkPaid | billing/claims_views.py:149-183 | the gate's outcome, or not found; a GET changes nothing; a POST posts the settlements and sets the batch to PAID whatever its status was, leaving invoices alone |
| ClaimsViews.SettleItems | billing/claims_views.py:161-177 | the loop leaves exactly the payments Settled describes |
| VisitsModels.NoVitalsWhenAllNull | visits/models.py:67-71 | a visit whose eight readings are all null has no vitals |
| VisitsModels.HasVitalsIff | visits/models.py:67-71 | vitals are present exactly when one of the eight readings is non-null and non-zero, so a recorded zero counts as absent |
| VisitsModels.HasVitals | visits/models.py:67-71 | vitals are present only when at least one of the eight readings is recorded |
| VisitsModels.TriageNoteIgnored | visits/models.py:61-71 | the triage note has no effect on whether vitals are present |
| VisitsViews.NewVisit | visits/views.py:19-24 | a started visit belongs to the patient, has the posted type, is OPEN, stamped now, with no doctor, notes, vitals, closing time or number yet |
| VisitsViews.WithVitals | visits/views.py:36-41 | saving vitals replaces the readings and moves the visit to WAITING_DOCTOR from any status; nothing else changes |
| VisitsViews.TakeCase | visits/views.py:72-76 | an OPEN or WAITING_DOCTOR visit goes IN_CONSULT with the user as doctor when their role is doctor; any other visit is unchanged; only status and doctor ever change |
| VisitsViews.Closed | visits/views.py:117-119 | the visit becomes CLOSED with the closing time set, from any status; nothing else changes |
| VisitsViews.TakeCaseIdempotent | visits/views.py:72-76 | taking a case twice is taking it once, and a closed visit cannot be taken back into consultation |
| VisitsViews.QueueSpec | visits/views.py:51-53 | the queue holds exactly the OPEN, WAITING_DOCTOR and IN_CONSULT visits, each once, oldest first |
| VisitsViews.Queue | visits/views.py:47-55 | every visit in the queue exists and is OPEN, WAITING_DOCTOR or IN_CONSULT |
| VisitsViews.QueueByCreation | visits/views.py:53 | when rows follow the creation clock, the queue is ordered by creation time |
| VisitsViews.QueueFlow | visits/views.py:23-119 | a new visit and a visit with vitals are in the queue, taking a case keeps a visit where it was, and closing takes it out |
| VisitsViews.VisitQueue | visits/views.py:47-55 | outside doctor, admin, frontdesk and nurse the gate's outcome, otherwise the queue |
| VisitsViews.VisitDetail | visits/views.py:58-64 | the gate's outcome, not found for a missing id, otherwise the visit with that id |
| VisitsViews.StartVisit | visits/views.py:13-27 | the gate's outcome or not found for a missing patient; a GET or an invalid form changes nothing; otherwise exactly one new visit is appended, numbered by the post-save hook |
| VisitsViews.InsertVisit | visits/views.py:21-24 | the visits table gains the new visit at its end, with the number the post-save hook gives its id |
| VisitsViews.VitalsUpdate | visits/views.py:30-44 | the gate's outcome or not found; a GET or an invalid form changes nothing; otherwise only that visit changes, as WithVitals gives |
| VisitsViews.DoctorTakeCase | visits/views.py:67-77 | the gate's outcome or not found; otherwise only that visit changes, as TakeCase gives, on any request method |
| VisitsViews.Consultation | visits/views.py:79-108 | the gate's outcome or not found; opening the page takes the case even on a GET, and a valid POST then also saves the doctor's notes |
| VisitsViews.CloseVisit | visits/views.py:111-136 | the gate's outcome or not found; otherwise the visit is closed, and an invoice is generated only when the visit had none; any invoice shown is the visit's own |
| VisitsViews.InvoiceIfMissing | visits/views.py:121-136 | a visit that already has an invoice keeps both tables and shows it; one without gets the generation's tables and shows the invoice written, or nothing when the bounded number draws of `EnsureUniqueInvoiceNumber` run out (where the source would still be drawing) |
| VisitsViews.GenerateAndReload | visits/views.py:127-136 | the tables become those `generate_invoice_for_visit` gives, and the invoice shown is the one now linked to the visit |
| PdfReceipts.Ungroup | billing/pdf_receipts.py:15 | removing commas never lengthens a string |
| PdfReceipts.WholePart | billing/pdf_receipts.py:15 | the grouped integer part of an amount is never empty and starts with a digit |
| PdfReceipts.Fraction | billing/pdf_receipts.py:15 | the decimals are exactly two digits whose value is the amount's cents |
| PdfReceipts.UngroupAppend | billing/pdf_receipts.py:15 | removing commas distributes over concatenation |
| PdfReceipts.UngroupDigits | billing/pdf_receipts.py:15 | a string of digits has no commas to remove |
| PdfReceipts.GroupedUngroup | billing/pdf_receipts.py:15 | removing the thousands separators from grouped digits gives the digits back |
| PdfReceipts.UngroupGroup | billing/pdf_receipts.py:15 | removing commas across a comma and a digit group keeps the group |
| PdfReceipts.UngroupComma | billing/pdf_receipts.py:15 | a trailing comma is removed |
| PdfReceipts.GroupedFirst | billing/pdf_receipts.py:15 | grouping keeps the leading digit first |
| PdfReceipts.GroupedCommas | billing/pdf_receipts.py:15 | the thousands separator stands exactly every three digits counted from the right, never first |
| PdfReceipts.CommaJoin | billing/pdf_receipts.py:15 | adding a comma and three digits to a well-grouped string keeps it well grouped |
| PdfReceipts.CommaJoinAt | billing/pdf_receipts.py:15 | in such a join, a position holds a comma exactly when it is not first and a multiple of four from the end |
| PdfReceipts.MoneyParts | billing/pdf_receipts.py:13-17 | where sign, grouped integer part, point and decimals sit in the rendered amount |
| PdfReceipts.MoneyShape | billing/pdf_receipts.py:13-17 | `_money` output ends in a point and two digits, groups the integer part every three digits, and starts with a minus sign exactly for a negative amount |
| PdfReceipts.Money | billing/pdf_receipts.py:13-17 | a non-numeric value is shown as given; an amount ends in a point and two characters and starts with a minus sign exactly when it is negative |
| PdfReceipts.ParseUnsignedParts | billing/pdf_receipts.py:15 | a grouped integer part, a point and two digits read back as their value in cents |
| PdfReceipts.ParseNegative | billing/pdf_receipts.py:15 | a minus sign in front negates the value read |
| PdfReceipts.ParseNonNegative | billing/pdf_receipts.py:15 | an unsigned amount reads back as itself |
| PdfReceipts.UnsignedRoundTrip | billing/pdf_receipts.py:15 | the unsigned rendering reads back as the amount's magnitude |
| PdfReceipts.MoneyRoundTrip | billing/pdf_receipts.py:13-17 | every amount in cents reads back from its `_money` rendering, to the cent |
| PdfReceipts.MoneyZero | billing/pdf_receipts.py:13-17 | zero renders as "0.00" |
| PdfReceipts.ContactLineSpec | billing/pdf_receipts.py:40-45 | for a phone and email that neither start nor end with a space or bullet, the header's contact line is phone and email joined by the bullet when both are given, the one given otherwise, and empty when neither is |
| PdfReceipts.ContactLine | billing/pdf_receipts.py:45 | the contact line neither starts nor ends with a space or a bullet |
| PdfReceipts.PatientNameSpec | billing/pdf_receipts.py:90-95 | without a patient the name is empty; otherwise, for names without outer whitespace, it is the non-empty ones of last and first name joined by one space |
| PdfReceipts.PatientName | billing/pdf_receipts.py:90-95 | the name has no outer whitespace, and is empty without a patient |
| PdfReceipts.MethodLabel | billing/pdf_receipts.py:117-118 | each known payment method shows its display label, and a stored value outside the choices shows as it is |
| PdfReceipts.ShownReference | billing/pdf_receipts.py:119 | a blank reference shows as a dash and any other as itself |
| PdfReceipts.ReceiptAmounts | billing/pdf_receipts.py:87-134 | every amount on the receipt is the naira sign followed by a rendering that reads back as the stored value, the reference shown is never blank, and without a patient the name and hospital number are blank |
| PdfReceipts.ReceiptFor | billing/pdf_receipts.py:87-134 | the receipt carries the invoice's number; the reference shown is the payment's when it has one and is never blank; without a patient the name and hospital number are blank |
| PdfHmoReminder.ReminderContactSpec | billing/pdf_hmo_reminder.py:46 | the reminder's contact line is phone and email joined by the bullet when both are given, the one given otherwise, and empty when neither is |
| PdfHmoReminder.ReminderContact | billing/pdf_hmo_reminder.py:46 | without a phone the line is the email alone; with one, the line starts with the phone |
| PdfHmoReminder.ContactLinesAgree | billing/pdf_hmo_reminder.py:46 | for a phone and an email that do not start or end with a space or bullet, the reminder and the receipt show the same contact line |
| PdfHmoReminder.GeneratedAt | billing/pdf_hmo_reminder.py:20-21 | the generation time is the one given, or the current time when none is given |
| PdfHmoReminder.IntString | billing/pdf_hmo_reminder.py:77 | a day count always shows as a non-empty string |
| PdfHmoReminder.TableRowCells | billing/pdf_hmo_reminder.py:65-79 | each row has one cell per header column; without an invoice the number, hospital number and name are blank, without a patient the last two are, and a missing day count is blank |
| PdfHmoReminder.TableRow | billing/pdf_hmo_reminder.py:65-79 | every row has exactly one cell per header column |
| PdfHmoReminder.TableRowAmount | billing/pdf_hmo_reminder.py:78 | a missing outstanding amount shows as "0.00", and a given amount reads back as itself |
| PdfHmoReminder.BuildTable | billing/pdf_hmo_reminder.py:64-79 | the table is the header followed by one row per input row, in input order |
| PdfHmoReminder.TableWidth | billing/pdf_hmo_reminder.py:64-81 | every row of the table is exactly as wide as the header |
| PatientsViews.PatientOfUser | patients/views.py:88 | the linked patient found belongs to the account; when none is found, no patient is linked to it |
| PatientsViews.PatientOfUserUnique | patients/views.py:88 | with at most one patient per account, the patient found for an account is the one linked to it |
| PatientsViews.PatientDetail | patients/views.py:84-97 | a patient user without a linked record is refused, as is one asking for a record other than their own; every other logged-in user sees any existing record, and a missing one is not found |
| PatientsViews.DetailShowsOwnRecord | patients/views.py:86-93 | a page is only shown for the record asked for, and to a patient user only when it is linked to their account |
| PatientsViews.PatientSearchSpec | patients/views.py:70-81 | the list shows only patients whose hospital number, first name, last name or phone contains the query ignoring case (everyone for an empty query), newest first, at most 200, and leaves a match out only when the page is full of newer ones |
| PatientsViews.PatientSearch | patients/views.py:70-81 | the list has at most 200 rows, each an existing patient matching the query |
| PatientsViews.PatientList | patients/views.py:64-81 | patient users are sent to the portal; anyone else gets the search for the stripped query |
| PatientsViews.VisitsOfSpec | patients/views.py:106 | the portal lists exactly the patient's visits, newest first |
| PatientsViews.VisitsOf | patients/views.py:106 | every visit listed exists and belongs to the patient |
| PatientsViews.PatientPortal | patients/views.py:100-114 | an account with a linked patient gets that patient and their visits, whatever its role; one without is sent to the staff list |
| PatientsViews.FormPatient | patients/views.py:24-27 | the unsaved patient holds the posted fields, with no account and no hospital number yet |
| PatientsViews.UserByName | patients/views.py:31-37 | the account found has that username; when none is found, no account has it |
| PatientsViews.PatientAccount | patients/views.py:31-42 | a created account is named by the email, holds it, has role patient and cannot log in until a password is set |
| PatientsViews.GetOrCreateAccount | patients/views.py:31-37 | the existing account named by the email is reused with the user table unchanged; otherwise a patient account is appended; either way the key returned names an account with that username |
| PatientsViews.RegisteredLink | patients/views.py:26-59 | registration appends one patient and keeps every earlier row; it links an account exactly when an email was given, to an account with that username, and creates one only when none existed |
| PatientsViews.PatientCreate | patients/views.py:18-61 | patient users are sent to the portal; a GET or an invalid form changes nothing; linking an account already linked to another patient fails and writes nothing; otherwise the registration is saved and the view redirects to the new record |
| PatientsViews.Register | patients/views.py:27-58 | the user and patient tables become those of the registration |
| PatientsViews.RegisteredValid | patients/views.py:31-58 | a registration that does not fail keeps usernames unique, every account linked to at most one patient and every patient carrying its hook number |
| PatientsViews.RegisteredNumbered | patients/views.py:58 | the registered patient gets the number the post-save hook derives from its new id, so the table stays numbered |
| HmoAgingViews.BucketOf | billing/hmo_aging_views.py:13-20 | ages up to 30 days, a negative age included, fall in "0-30", 31 to 60 in "31-60", 61 to 90 in "61-90" and anything older in "90+"; each bucket holds exactly those ages |
| HmoAgingViews.BucketMonotone | billing/hmo_aging_views.py:13-20 | an older invoice never lands in a younger bucket |
| HmoAgingViews.Add | billing/hmo_aging_views.py:67-71 | adding an amount to a bucket raises that bucket and the total by it, leaves the other buckets alone, and keeps the buckets adding up to the total |
| HmoAgingViews.AgingName | billing/hmo_aging_views.py:54 | an invoice is grouped under its stripped HMO name, or "UNKNOWN HMO" when that is blank, so the name is never empty |
| HmoAgingViews.HmoInvoicesIn | billing/hmo_aging_views.py:30-35 | the report walks exactly the invoices with a positive HMO share |
| HmoAgingViews.UpsertNames | billing/hmo_aging_views.py:64-65 | a new HMO name is added at the end of the table and an existing one keeps its place |
| HmoAgingViews.UpsertLine | billing/hmo_aging_views.py:64-68 | adding to an HMO's line changes only that line, by the amount in the given bucket |
| HmoAgingViews.UpsertBalanced | billing/hmo_aging_views.py:64-68 | adding to a table whose lines are balanced keeps them balanced |
| HmoAgingViews.UpsertSum | billing/hmo_aging_views.py:64-71 | adding to an HMO's line adds the same amount to the sum of all lines |
| HmoAgingViews.GroupedBalanced | billing/hmo_aging_views.py:64-71 | for every HMO and for the grand line, the four bucket sums add up to the total |
| HmoAgingViews.GrandIsSumOfLines | billing/hmo_aging_views.py:67-71 | the grand line, and so the grand total, is the bucket-by-bucket sum of the HMO lines |
| HmoAgingViews.LineTotals | billing/hmo_aging_views.py:67-68 | each HMO's total is the sum of the outstanding amounts of its invoices |
| HmoAgingViews.GroupedNames | billing/hmo_aging_views.py:64-65 | the table lists each HMO name once, exactly for the HMOs that have rows |
| HmoAgingViews.RowsOfListed | billing/hmo_aging_views.py:53-83 | the walk gives an invoice a row exactly when it was walked and the HMO still owes something on it |
| HmoAgingViews.RowsOfFit | billing/hmo_aging_views.py:53-83 | every row carries its invoice's outstanding amount, which is positive, its grouping name and the bucket of its age |
| HmoAgingViews.AgingRowsSpec | billing/hmo_aging_views.py:30-83 | the report lists exactly the invoices with a positive HMO share and a positive outstanding amount (the HMO share less the HMO-method payments), each under its grouping name and bucket |
| HmoAgingViews.AgingReportOrder | billing/hmo_aging_views.py:85-94 | the HMO table is a permutation of the HMO lines sorted by total, largest first; the drill list is the rows sorted by outstanding, largest first, cut to 50 |
| HmoAgingViews.HmoAgingDashboard | billing/hmo_aging_views.py:23-112 | outside admin and billing the gate's outcome; otherwise the HMO table, grand line and drill list of the report |
| HmoAgingViews.Aggregate | billing/hmo_aging_views.py:47-83 | the loop ends with exactly the report's rows, the HMO lines they group into and their grand line |
| HmoAgingViews.RowsOfStep | billing/hmo_aging_views.py:53-83 | one more turn of the walk appends the next invoice's row exactly when something is outstanding on it |
| HmoActionsViews.MarkDisputed | billing/hmo_actions_views.py:17-20 | the invoice is DISPUTED with the given reason and amount, and no other field changes |
| HmoActionsViews.ClearDispute | billing/hmo_actions_views.py:31-34 | the invoice is OK with an empty reason and a zero amount, and no other field changes |
| HmoActionsViews.ClearUndoesDispute | billing/hmo_actions_views.py:17-34 | clearing after marking is just clearing, clearing twice is clearing once, and an undisputed invoice is left as it is |
| HmoActionsViews.MarkDisputedOverwrites | billing/hmo_actions_views.py:17-20 | marking again keeps only the last reason and amount |
| HmoActionsViews.DisputeKeepsAmounts | billing/hmo_actions_views.py:20 | a dispute leaves the invoice's amounts, status, HMO name and creation time as they were |
| HmoActionsViews.FlagItem | billing/hmo_actions_views.py:44-47 | the claim item is flagged with the reason and the time, and no other field changes |
| HmoActionsViews.RemindAll | billing/hmo_actions_views.py:70-71 | exactly the invoices with a positive HMO share and that exact HMO name get the reminder time, each other invoice is unchanged, and the table keeps its length |
| HmoActionsViews.RemindAllIdempotent | billing/hmo_actions_views.py:70-71 | stamping twice at the same time is stamping once, and another HMO's invoices are never touched |
| HmoActionsViews.MarkInvoiceDisputed | billing/hmo_actions_views.py:11-23 | outside billing and admin the gate's outcome, a missing invoice not found, and a GET changes nothing; a POST with an unparsable amount fails and writes nothing; otherwise only that invoice changes, disputed with the stripped reason and the amount (blank as zero) |
| HmoActionsViews.DisputeInvoice | billing/hmo_actions_views.py:17-20 | the save marks only the invoice in that row, or fails with nothing written for an unparsable amount |
| HmoActionsViews.ClearInvoiceDispute | billing/hmo_actions_views.py:26-35 | on any request method only that invoice changes, its dispute cleared; claim items are untouched |
| HmoActionsViews.FlagClaimItemDisputed | billing/hmo_actions_views.py:38-56 | the gate's outcome, a missing item not found, and a GET changes nothing; a POST flags the item with the stripped reason and time and marks its invoice disputed with that reason and the item's HMO amount, nothing else changing |
| HmoActionsViews.FlagAndDispute | billing/hmo_actions_views.py:44-53 | only the item and its invoice change, as the flag and the dispute give |
| HmoActionsViews.MarkHmoReminded | billing/hmo_actions_views.py:59-72 | a blank stripped HMO name changes nothing; otherwise the invoice table becomes the one RemindAll gives for that name |
| WeeklyHmoPacks.SweepNamesSpec | billing/management/commands/generate_weekly_hmo_packs.py:18-25 | the sweep visits each HMO name that has an invoice with a positive HMO share, and only those, once each |
| WeeklyHmoPacks.OwedSplits | billing/management/commands/generate_weekly_hmo_packs.py:26-34 | the per-invoice amounts owed add up to the HMO shares billed less the HMO payments on those invoices |
| WeeklyHmoPacks.PaidPerInvoiceAppend | billing/management/commands/generate_weekly_hmo_packs.py:29-32 | one more payment adds its amount exactly when it is an HMO payment on one of that HMO's invoices |
| WeeklyHmoPacks.PaidSwap | billing/management/commands/generate_weekly_hmo_packs.py:29-32 | summing the HMO payments over the payment table equals summing them invoice by invoice |
| WeeklyHmoPacks.PaidPerInvoiceEmpty | billing/management/commands/generate_weekly_hmo_packs.py:31 | with no payments the HMO has paid nothing |
| WeeklyHmoPacks.OutstandingIsPerInvoiceSum | billing/management/commands/generate_weekly_hmo_packs.py:26-34 | what the sweep takes an HMO to owe is the sum of the aging report's per-invoice amounts over all of that HMO's invoices, overpaid ones and those outside the 30-day window included |
| WeeklyHmoPacks.FindFollowUp | billing/management/commands/generate_weekly_hmo_packs.py:39-47 | the row found holds the key, and when none is found no row does |
| WeeklyHmoPacks.TouchKeepsOnePerKey | billing/management/commands/generate_weekly_hmo_packs.py:39-47 | the get-or-create never makes a second follow-up for a key |
| WeeklyHmoPacks.SweepKeepsOnePerKey | billing/management/commands/generate_weekly_hmo_packs.py:25-52 | after the sweep there is still at most one follow-up per HMO name and period |
| WeeklyHmoPacks.TouchStamps | billing/management/commands/generate_weekly_hmo_packs.py:39-52 | the upsert leaves its own key's follow-up REMINDED and due a week from today, new or existing, and keeps every key already so |
| WeeklyHmoPacks.SweepStamps | billing/management/commands/generate_weekly_hmo_packs.py:25-52 | after the sweep every HMO that owes something has the follow-up for the window from 30 days ago to today, REMINDED and due a week from today |
| WeeklyHmoPacks.SweepLeavesOthers | billing/management/commands/generate_weekly_hmo_packs.py:36-37 | HMOs that owe nothing, and other periods, keep their follow-ups row for row and field for field; rows are only ever added |
| WeeklyHmoPacks.TouchStampedAgain | billing/management/commands/generate_weekly_hmo_packs.py:39-52 | upserting a key that is already stamped changes only its last action time |
| WeeklyHmoPacks.SameButActionKeeps | billing/management/commands/generate_weekly_hmo_packs.py:49-52 | tables that differ only in last action times agree on what is stamped and on one follow-up per key |
| WeeklyHmoPacks.SweepStampedAgain | billing/management/commands/generate_weekly_hmo_packs.py:25-52 | sweeping a table in which every HMO that owes something is already stamped changes only last action times |
| WeeklyHmoPacks.SweepRerun | billing/management/commands/generate_weekly_hmo_packs.py:39-52 | running the sweep again on the same day creates no follow-up and leaves every status and next date as the first run left them |
| WeeklyHmoPacks.Handle | billing/management/commands/generate_weekly_hmo_packs.py:13-58 | the loop leaves the follow-up table as the sweep over the HMO names gives |
| DashboardViews.SumBetweenSplits | billing/dashboard_views.py:27-28 | a one-day range sums that day's payments, and a range splits at any day inside it, so month-to-date is the days before today plus today |
| DashboardViews.SumBetweenEmpty | billing/dashboard_views.py:28 | a range that ends before it starts sums to zero |
| DashboardViews.DedupSpec | billing/dashboard_views.py:36-50 | grouping lists each value once, exactly the values that occur |
| DashboardViews.NoDupCounts | billing/dashboard_views.py:36-50 | a sequence has no repeats exactly when no value occurs twice in its multiset |
| DashboardViews.NoDupPermutation | billing/dashboard_views.py:41-49 | reordering a sequence without repeats gives one without repeats |
| DashboardViews.FromMembers | billing/dashboard_views.py:37-46 | the window's dates and methods are exactly those of the payments paid on or after its first day |
| DashboardViews.TrendRows | billing/dashboard_views.py:38-40 | each trend point pairs its day with the total paid that day |
| DashboardViews.TrendDaysSpec | billing/dashboard_views.py:36-42 | the trend's days increase strictly and are exactly the days, from 29 days ago on, with a payment |
| DashboardViews.TrendSpec | billing/dashboard_views.py:34-42 | the trend has one point per day with a payment from 29 days ago on (with no upper end), in increasing day order, each with that day's total |
| DashboardViews.Keys | billing/dashboard_views.py:35-50 | the keys of a grouped result, row by row: the days of the trend and the methods of the breakdown |
| DashboardViews.MethodRows | billing/dashboard_views.py:47-48 | each breakdown row pairs its method with the window's total for it |
| DashboardViews.MethodTableSpec | billing/dashboard_views.py:45-48 | before sorting, each row has its method's total, and the methods are listed once each, exactly those paid in the window |
| DashboardViews.ReorderKeepsTotals | billing/dashboard_views.py:49 | reordering the rows keeps each total right, each method once and the same methods |
| DashboardViews.SameNames | billing/dashboard_views.py:49 | two orderings of the same rows list the same methods |
| DashboardViews.ByMethodSpec | billing/dashboard_views.py:44-50 | the breakdown lists every method paid in the window once, with its total, largest total first |
| DashboardViews.RevenueDashboard | billing/dashboard_views.py:10-60 | outside admin and billing the gate's outcome; otherwise the due count is the length of the follow-up due list, today's collections are the payments of today, and month-to-date is the days of the month before today plus today |
| FollowupViews.DueBeforePreorder | billing/followup_views.py:16 | ordering by next date and then HMO name is a total preorder, so the sort is well defined |
| FollowupViews.DueRowsMembers | billing/followup_views.py:12-15 | the unsorted due rows are exactly the follow-ups due by today and not settled, each with its own key |
| FollowupViews.FollowupsList | billing/followup_views.py:9-21 | an anonymous visitor must log in; anyone logged in gets the due list |
| FollowupViews.DueListSpec | billing/followup_views.py:12-17 | the due list holds exactly the follow-ups with a next date on or before today and a status other than SETTLED (a null next date never is due), each once, ordered by next date and then HMO name, and its length is the dashboard's count |
| FollowupViews.CountDueIsRows | billing/dashboard_views.py:19-24 | the dashboard's due count is the number of due rows |
| FollowupViews.Updated | billing/followup_views.py:30-39 | the status is the posted one or the old one, the notes the posted ones or empty, the next date the posted one when given and the old one otherwise, the action time is now, and the key, owner and creation time stay |
| FollowupViews.UpdateLeavesDueList | billing/followup_views.py:30-39 | posting SETTLED, or a next date after today, takes the follow-up off the due list; posting neither a status nor a date keeps it where it was |
| FollowupViews.FollowupUpdate | billing/followup_views.py:24-45 | an anonymous visitor must log in, a missing follow-up is not found and a GET changes nothing; a next date that cannot be parsed fails and writes nothing; otherwise only that follow-up changes, as Updated gives |
| LabViews.NewLabRequest | views.py:15-17 | the saved request belongs to the visit, carries the posted test and priority, starts REQUESTED and is stamped with the time of the request |
| LabViews.LabQueueSpec | views.py:24-26 | the lab queue holds exactly the requests whose status is REQUESTED or SAMPLE_COLLECTED, each once, oldest request first |
| LabViews.LabQueue | views.py:24-26 | every request in the lab queue exists and is REQUESTED or SAMPLE_COLLECTED |
| LabViews.NewRequestQueued | views.py:15-17 | a newly saved request joins the back of the lab queue and leaves the rest of it as it was |
| LabViews.LabQueuePage | views.py:20-28 | a visitor without the lab or admin role is refused; the lab and admin roles see the queue |
| LabViews.ResultOf | views.py:36 | the result found belongs to the request; when none is found, no result row belongs to it |
| LabViews.SaveResultSpec | views.py:37-43 | after saving, the request has exactly one result, holding the posted text, remarks and uploader; the results of other requests are untouched; a row is added only when the request had no result |
| LabViews.SaveResult | views.py:36-43 | the table keeps its rows and gains the saved result, and the rows of other requests are untouched |
| LabViews.SaveResultIdempotent | views.py:37-43 | uploading the same result twice leaves the table as uploading it once |
| LabViews.Resulted | views.py:44-45 | the request becomes RESULT_READY, which the queue does not show, and nothing else about it changes |
| LabViews.AddLabRequest | views.py:8-18 | a visitor without the doctor or admin role is refused, an unknown visit is not found, a GET or an invalid form changes nothing, and a valid POST appends exactly the new request |
| LabViews.UploadResult | views.py:30-48 | a visitor without the lab or admin role is refused, an unknown request is not found, a GET or an invalid form changes nothing, and a valid POST saves the result as the uploader's and marks only that request RESULT_READY |
| PharmacyModels.DrugToString | pharmacy/models.py:12-16 | the label is the name, then a space and the strength when the strength is not blank, then the dosage form in parentheses when it is not blank |
| PharmacyModels.DrugLabel | pharmacy/models.py:12-16 | the label starts with the drug's name, and is the name alone when strength and dosage form are blank |
| PharmacyModels.DrugLabelShape | pharmacy/models.py:12-16 | the label starts with the name, is just the name when both extras are blank, carries the strength right after the name and ends with the parenthesised dosage form when they are given |
| PharmacyViews.NewPrescription | pharmacy/views.py:15-17 | the saved item belongs to the visit, carries the posted drug and directions, starts PENDING with a price of zero and is stamped with its creation time |
| PharmacyViews.Dispense | pharmacy/views.py:35-36 | the item becomes DISPENSED and nothing else about it changes |
| PharmacyViews.DispenseIdempotent | pharmacy/views.py:35-36 | dispensing twice is dispensing once, and a cancelled item is dispensed too since the view does not look at the old status |
| PharmacyViews.PharmacyQueueSpec | pharmacy/views.py:24-26 | the queue holds exactly the PENDING items, each once, oldest first |
| PharmacyViews.PharmacyQueue | pharmacy/views.py:24-26 | every item in the queue exists and is PENDING |
| PharmacyViews.DispenseLeavesQueue | pharmacy/views.py:34-36 | dispensing an item takes it, and only it, off the queue |
| PharmacyViews.NewPrescriptionQueued | pharmacy/views.py:15-17 | a new item joins the back of the queue and leaves the rest of it as it was |
| PharmacyViews.PharmacyQueuePage | pharmacy/views.py:20-28 | a visitor without the pharmacy or admin role is refused; the pharmacy and admin roles see the queue |
| PharmacyViews.AddPrescription | pharmacy/views.py:8-18 | a visitor without the doctor or admin role is refused, an unknown visit is not found, a GET or an invalid form changes nothing, and a valid POST appends exactly the new item |
| PharmacyViews.MarkDispensed | pharmacy/views.py:30-37 | a visitor without the pharmacy or admin role is refused, an unknown item is not found, and otherwise only that item becomes DISPENSED, on any request method |
| Decimal.RoundHalfEven | billing/utils.py:9-10 | the result is within half a unit of the exact quotient, and a tie goes to the even neighbour, which is what `quantize` does under the default rounding mode |
| Decimal.RoundHalfEvenUnique | billing/utils.py:9-10 | exactly one integer rounds a quotient half to even, so any rounding satisfying that rule gives the same result |
| Decimal.RoundExact | billing/services.py:57 | quantizing an amount that is already a whole number of cents leaves it unchanged |
| Common.DecimalOrZero | billing/views.py:38 | a blank posted amount reads as zero, a number reads as itself, and only unparseable text is an error |
| Text.StripIdempotent | billing/views.py:11 | stripping an already stripped query changes nothing |
| Text.StripSetSlice | billing/views.py:11 | the stripped string is a contiguous piece of the input, with nothing but characters of the `str.isspace()` set removed around it (Unicode spaces such as U+00A0 included) and none of them at either end |
| Text.ContainsIff | billing/views.py:15-20 | the substring scan behind `icontains` succeeds exactly when the query occurs at some position of the field |
| Text.PadNatValue | patients/signals.py:8 | the zero-padded rendering of an id reads back as that id |
| Text.PadNatLength | patients/signals.py:8 | an id below 10 to the width renders in exactly the width's number of digits |
| Text.PrefixedId | visits/signals.py:8 | a number begins with its prefix and continues with at least six digits |
| Text.PrefixedIdInjective | billing/signals.py:8 | two ids with the same prefix get the same number only when they are the same id |
| Text.PrefixedIdValue | billing/signals.py:8 | the id can be read back from the digits after the prefix |
| Text.StrLeTotal | billing/followup_views.py:16 | any two HMO names are comparable in the ordering the database sorts by |
| Text.StrLeTransitive | billing/followup_views.py:16 | the name ordering is transitive |
| Sorting.SortBy | billing/hmo_aging_views.py:90-93 | the sorted list is ordered by the key and is a permutation of the input |
| Queries.NewestFirstSpec | billing/views.py:13 | ordering by newest creation lists exactly the rows the filter keeps, each once, newest first |
| Queries.OldestFirstSpec | visits/views.py:50-53 | ordering by oldest creation lists exactly the rows the filter keeps, each once, oldest first |
| Queries.NewestIsReversedOldest | visits/views.py:53 | the two creation orders list the same rows, one the reverse of the other |
| Queries.NewestPage | billing/views.py:13-22 | a sliced newest-first listing holds only kept rows, newest first, and leaves a kept row out only when the page is full of newer rows |
| Queries.NewestFirstAll | billing/claims_views.py:14 | with no filter every row is listed |
| Queries.OldestFirstFrame | visits/views.py:50-53 | the oldest-first listing of the first rows depends only on those rows, so appending a row cannot reorder them |
| Queries.Take | billing/views.py:22 | a slice holds the first rows, as many as the limit or all of them when there are fewer |
| Store.InvoiceOfVisit | billing/models.py:19 | the invoice found is the visit's; when none is found no invoice belongs to the visit |
| Store.InvoiceOfVisitUnique | billing/models.py:19 | with invoices one-to-one on visits, a visit's invoice is the one the lookup finds |
| Store.NumberedUnique | patients/models.py:13 | when every patient and visit carries its hook number, no two patients share a hospital number and no two visits share a visit number |
| Store.PaymentsOfMembers | billing/services.py:56 | an invoice's payments are exactly the payments that point at it |
| Store.PaymentsOfAppend | billing/views.py:43-57 | a new payment joins the payments of its own invoice and no other |
| Store.SumAmountsAppend | billing/services.py:56 | the sum of amounts over two runs of payments is the sum of the two sums |
| Store.HmoPaidIsHmoPayments | billing/hmo_aging_views.py:37-45 | the per-invoice HMO-paid total is the sum of that invoice's payments with method HMO |

## Left out

- Chart data: the float conversions behind the aging and dashboard charts are not modelled, since the model has no floating point.
- PDF drawing: ReportLab page layout, fonts, coordinates and the step-by-step `y` cursor of the receipt and reminder builders are left out. Only the field helpers (the amounts, contact lines, patient name, method label and reference) and the reminder's table rows are modelled; the other drawn strings are not: the hospital's name, address and title lines, the reminder's title and `HMO:` line, its total-outstanding line and the footers.
- HTTP mechanics: redirects, template rendering, the CSV `HttpResponse` headers and its attachment filename are left out. A view's effect on the store and the content it would render are modelled.
- Dates: `strftime`, the local time zone and calendar arithmetic are left out. Dates are day numbers, and the first of the month is given as the day of the month.
- Email: sending the welcome and password-reset emails when a patient is registered is left out as I/O.
- HMO table: HMOs are referred to by name, and the HMO table itself is not part of this model, so `HMO.name` being unique is not stated.
- Concurrency: the check-then-insert races in claim items, HMO payments and number generation are left out. Each view is modelled as one uninterrupted step.
- Row order: `created_at` and `requested_at` order is taken to be row order, which assumes the clock never runs backwards between inserts.
- Grouping order: distinct names and grouped rows from the database are taken in order of first appearance in the table. An SQL engine may return them in another order.
- Posted decimals: a posted decimal is a whole number of cents or unparseable text. Amounts with more than two decimal places are not modelled.
- Form validation: Django form validation is abstracted as an `Option`. Only the rules the views read themselves are stated: the active-drug choice and an existing lab test.
- Consultation page: the side panels of the consultation page and related listings (its prescriptions and lab requests) are not modelled, only its status transition.
- BillingModels.EnsureUniqueInvoiceNumber: when the draws run out before a free number is found, the result is `None`, where the source would keep drawing forever.
- PdfReceipts.Money: its input is a whole number of cents or a value that is not numeric. Decimals with more digits and floats are outside the model.
- Hospital profile: the `getattr` defaults on the hospital profile in the PDF builders are not modelled, and the profile is not part of this model.
- WeeklyHmoPacks.Handle: the console messages the command writes are left out.
- Visit.updated_at: the `auto_now` timestamp of a visit is not modelled; the status saves of the take-case, consultation and close views also write it, but no core rule reads it.
- Visit and prescription texts: `Visit.__str__` and `PrescriptionItem.__str__` are not modelled, since no core rule depends on them.
- Patient portal views: patients/portal_views.py is not part of this model. Only the `patient_portal` fallback in patients/views.py is.
- DashboardViews.RevenueDashboard: its contract states the due count and today's and month-to-date sums. It does not state the outstanding, receivables, trend and by-method fields, which `DashboardViews.TrendSpec` and `DashboardViews.ByMethodSpec` state for the functions that compute them.
- Sorting.SortBy: its contract states that the result is ordered and is a permutation of the input. It does not state that the sort is stable.
- Demo data: the seed commands and the demo-data script are left out.
- Configuration: URL configuration, admin registration and the schema-only models serve only as reference data for the enums.
