# 4S Logistics customs portal — a verified model of its rules

4S Logistics is a customs-brokerage portal. Its React frontend tracks import jobs through an
eight-status lifecycle and an eleven-step progress timeline. It offers list pages with search
filters and forms with required-field checks. The job page has small per-section workflow
cards (customer approval, customs submission, transport, duty payment, closure, checklist).
Its FastAPI backend stores tenants, users, customers, clients, jobs, containers, documents,
milestones, alerts, transport records and an activity log in PostgreSQL. It classifies
packing lists by their INCOTERM and files uploads into per-type folders.

This project models the deterministic rules under that plumbing:

- the status, label and step-index tables and the agreement of their two copies;
- the timeline classification;
- the list filters, toggles and form validators of the pages;
- the workflow cards, as classes whose methods change their state;
- the money arithmetic of the billing views;
- the INCOTERM classifier and the upload path construction;
- for every backend route in scope, the SQL statement it sends and the reply it gives.

An SQL statement is modelled structurally: a `Statement(sql, params)` whose text is rendered
from typed clause lists. The invariant every builder keeps is proved: the text holds exactly
one `%s` placeholder per bound parameter. This is the `WellFormed` predicate.

Clocks, UUIDs, hashing, JSON serialisation, date parsing and the database are not modelled as
behaviour. They enter as parameters: the value a clock or hash produced, the outcome a parse
or a statement had (`DateInput`, `Outcome`, `Inserted`). Python's `str.isalnum`, which decides
what the INCOTERM search's `\b` treats as a word character, is the parameter `alnum` (only its
agreement with ASCII on ASCII characters is assumed where a lemma needs it).

Python truthiness (`if x:`) and `is not None` tests differ in the source from route to route.
The model keeps each route's own test (`TruthyStr`/`TruthyInt` versus `.Some?`).

Modules follow the source files: one module per source file, plus the shared modules
`Common`, `Strings`, `Seqs`, `Paths` and `Sql`.

## Model

| member | source | states |
|---|---|---|
| JobModel.ParseStatus | src/types.ts:1-9 | a raw status string parses to a status only when it is one of the eight literals, and the status prints back as that string |
| JobModel.ParseStatusName | src/types.ts:1-9 | every status round-trips through its string form |
| JobModel.AllStatusesComplete | src/types.ts:1-9 | the list of all statuses covers every status |
| JobModel.Rank | src/types.ts:1-9 | each status has a unique position in the declaration order |
| Constants.StatusLabelsDistinct | src/constants.ts:3-12 | the eight labels are pairwise distinct |
| Constants.StepIndex | src/constants.ts:28-40 | every step index is a valid index into the eleven timeline steps |
| Constants.StepIndexTable | src/constants.ts:28-37 | in declaration order the statuses map to 0,1,1,2,5,6,7,8 |
| Constants.StepIndexMonotone | src/constants.ts:29-37 | the index never decreases along the lifecycle order |
| Constants.CreatedAndDocsPendingShareStep | src/constants.ts:31-32 | created and docs-pending both map to step 1 |
| Constants.UnreachableSteps | src/constants.ts:28-40 | no input string yields step 3, 4, 9 or 10 |
| Constants.OutOfDomainIsZero | src/constants.ts:38 | a string that is not a status yields 0 |
| DummyData.StatusLabelAgrees | src/data/dummyData.ts:40-49 | the duplicated label table agrees with the constants table on every status |
| DummyData.TimelineStepsAgree | src/data/dummyData.ts:263-275 | the duplicated timeline step list equals the constants list |
| DummyData.StepIndex | src/data/dummyData.ts:277-289 | every step index of the duplicate is a valid timeline index |
| DummyData.StepIndexAgrees | src/data/dummyData.ts:277-289 | the duplicate `getStepIndex` agrees with the constants copy on every string, default included |
| DummyData.StatusCountsTotal | src/data/dummyData.ts:51-60 | the status counts are defined and positive for every status, and their total is the fixture sum |
| DummyData.SecondFixtureOnVerificationStep | src/data/dummyData.ts:94 | fixture JOB-2024-002 is verification-pending and sits on step 2, "Verification" |
| StatusTimeline.ExactlyOneState | src/components/job/StatusTimeline.tsx:16-18 | exactly one of completed, current and pending holds for any index |
| StatusTimeline.Timeline | src/components/job/StatusTimeline.tsx:15-49 | eleven steps; completed iff before the current step, current iff equal, pending iff after; a check mark only on completed steps, else the 1-based number; a connector after every step but the last, coloured iff the step is completed |
| StatusTimeline.PrefixCounts | src/components/job/StatusTimeline.tsx:15-18 | over any prefix the completed, current and pending counts are the clamped values of the current step |
| StatusTimeline.TimelineCounts | src/components/job/StatusTimeline.tsx:15-18 | for a current step in 0..10: that many completed, one current, 10 minus it pending |
| StatusTimeline.StatusTimelineHasOneCurrent | src/components/job/StatusTimeline.tsx:15-18 | the timeline of any status string has exactly one current step |
| JobDetail.FindIndex | src/pages/JobDetail.tsx:24 | the position found holds the first job with the id; None iff no job has it |
| JobDetail.BadgeClassTable | src/pages/JobDetail.tsx:51-58 | cleared/delivered give status-cleared, customs-submitted gives status-submitted, the other five give status-pending |
| JobDetail.Render | src/pages/JobDetail.tsx:24-119 | not found iff no job has the id; otherwise the first such job, its dummy-data step index and timeline, its badge class and label, the missing-documents panel iff a document is missing, the checklist iff it has items |
| JobDetail.SecondFixturePage | src/pages/JobDetail.tsx:36-60 | the page of JOB-2024-002 is on step 2 with a pending badge and no missing-documents panel |
| JobDetail.FirstFixtureShowsMissingDocuments | src/pages/JobDetail.tsx:37 | the page of JOB-2024-001 shows the missing-documents panel |
| JobsTable.StatusStyleSharing | src/components/dashboard/JobsTable.tsx:21-30 | exactly the three pending statuses share status-pending; no other two statuses share a class |
| JobsTable.Render | src/components/dashboard/JobsTable.tsx:50-79 | an empty list renders the single "No jobs found." row; otherwise one row per job, highlighted iff the flag (default true) and the job's needsAction, id cell the truthy job number or the id, badge class and label of the status, warning icon iff needsAction, and the job's pending action |
| Dashboard.StatusCardsEachOnce | src/pages/Dashboard.tsx:16-25 | the cards list every status exactly once, in lifecycle order |
| Dashboard.CardLabelAgrees | src/pages/Dashboard.tsx:27-36 | the page's own label table agrees with the constants table |
| Dashboard.Toggle | src/pages/Dashboard.tsx:45-47 | clicking a card clears the filter iff it was that card, otherwise selects it |
| Dashboard.ToggleTwice | src/pages/Dashboard.tsx:45-47 | two clicks on one card restore the filter iff it was empty or that card; from another card they clear it |
| Dashboard.FilterJobsSpec | src/pages/Dashboard.tsx:41-43 | no filter shows every job; a filter keeps exactly the jobs with that status, as a subsequence |
| Dashboard.Heading | src/pages/Dashboard.tsx:75 | "Recent Jobs" without a filter, "<label> Jobs" with one |
| Dashboard.Cards | src/pages/Dashboard.tsx:58-68 | eight cards in lifecycle order with their status labels as titles and their status counts; a card is active iff it is the filter, so at most one is |
| Dashboard.DashboardPage.constructor | src/pages/Dashboard.tsx:39 | the filter starts empty |
| Dashboard.DashboardPage.HandleCardClick | src/pages/Dashboard.tsx:45-47 | the filter becomes the toggle of the old filter |
| Dashboard.DashboardPage.ClearFilter | src/pages/Dashboard.tsx:79 | the filter becomes empty |
| Dashboard.TwoClicksRestoreAllJobs | src/pages/Dashboard.tsx:41-47 | on a fresh page two clicks on one card show all jobs again |
| JobList.FilterJobsSpec | src/pages/JobList.tsx:19-28 | a job is kept iff the lowered query is in its lowered id, importer or port and the filter is "all" or its status; the result is a subsequence, never longer |
| JobList.EmptyQueryAllStatusesKeepsAll | src/pages/JobList.tsx:19-28 | an empty query with "all" keeps every job |
| JobList.StatusOptions | src/pages/JobList.tsx:60-65 | "All Statuses" first, then one option per status with its label |
| JobList.StatusOptionsCover | src/pages/JobList.tsx:60-65 | every status is offered, and every option is "all" or a status |
| JobList.JobListPage.constructor | src/pages/JobList.tsx:16-17 | empty query, filter "all" |
| JobList.JobListPage.SetSearchQuery | src/pages/JobList.tsx:50 | only the query changes |
| JobList.JobListPage.SetStatusFilter | src/pages/JobList.tsx:54 | only the filter changes, to an offered value |
| JobList.JobListPage.ResultCount | src/pages/JobList.tsx:76 | the shown count is the length of the filtered list and never exceeds the total, which is the fixture count |
| Documents.FilterDocsSpec | src/pages/Documents.tsx:30-34 | a document is kept iff the lowered query is in its lowered name or job, as a subsequence |
| Documents.EmptyQueryShowsAll | src/pages/Documents.tsx:16-30 | an empty query shows all eight documents in order |
| Documents.StatusConfigDistinct | src/pages/Documents.tsx:36-40 | the three status badges have distinct texts |
| Documents.UploadedColumn | src/pages/Documents.tsx:101 | the column shows '-' iff the upload date is falsy, the date otherwise |
| Documents.DashOnlyForMissing | src/pages/Documents.tsx:17-24 | in the fixture the dash appears exactly on the missing document |
| Documents.DocumentsPage.constructor | src/pages/Documents.tsx:28 | the query starts empty |
| Documents.DocumentsPage.SetSearchQuery | src/pages/Documents.tsx:60 | the query becomes the typed text |
| Customers.TenantId | src/pages/Customers.tsx:81-87 | no stored tenant gives null, otherwise its id |
| Customers.FilterCustomersSpec | src/pages/Customers.tsx:115-120 | a customer is kept iff the query is a case-insensitive substring of the company name or of a present contact, email or GST number |
| Customers.GstCountSpec | src/pages/Customers.tsx:244 | the "With GST" count is the number of truthy GST numbers and at most the total |
| Customers.FormFor | src/pages/Customers.tsx:123-136 | editing fills every form field from the customer with null as "" |
| Customers.SaveRequestFor | src/pages/Customers.tsx:141-170 | no request iff the trimmed company name is empty; PUT to the edited id, else POST with the tenant id |
| Customers.UnicodeBlankNameRefused | src/pages/Customers.tsx:142-145 | a company name of one no-break or ideographic space issues no request |
| Customers.CustomersPage.constructor | src/pages/Customers.tsx:70-78 | empty list, closed dialogs, empty form, not saving |
| Customers.CustomersPage.OpenDialog | src/pages/Customers.tsx:123-138 | the form is the customer's or the empty form, editing is set accordingly, the dialog opens |
| Customers.CustomersPage.HandleSave | src/pages/Customers.tsx:141-183 | the request is the one `SaveRequestFor` gives; none leaves the state alone; a request clears the saving flag, and closes the dialog and starts a list refetch iff it succeeded |
| Customers.CustomersPage.HandleDelete | src/pages/Customers.tsx:186-203 | a DELETE for the chosen customer only; success closes the dialog, clears the choice and starts a list refetch |
| ClientManager.FormFor | src/components/settings/ClientManager.tsx:103-117 | opening on a client copies its five fields, missing as '' |
| ClientManager.FilterClientsSpec | src/components/settings/ClientManager.tsx:120-122 | a client is kept iff the lowered query is in its lowered name |
| ClientManager.SaveRequestFor | src/components/settings/ClientManager.tsx:62-86 | no request iff the name is empty; PUT for the edited client, else POST |
| ClientManager.BlankNameIsAccepted | src/components/settings/ClientManager.tsx:63-66 | a whitespace-only name is sent, since nothing is trimmed |
| ClientManager.ClientManagerDialog.constructor | src/components/settings/ClientManager.tsx:23-37 | no clients, empty query and form, closed form |
| ClientManager.ClientManagerDialog.OpenForm | src/components/settings/ClientManager.tsx:103-118 | the form is the client's fields or all empty, editing set accordingly, the form opens |
| ClientManager.ClientManagerDialog.HandleSave | src/components/settings/ClientManager.tsx:62-86 | the request is the one `SaveRequestFor` gives; success closes the form and clears editing |
| SignUp.Validate | src/pages/SignUp.tsx:40-68 | unagreed terms are refused before the password length; a password under 6 characters is refused; otherwise the tenant request carries the form and plan "trial" |
| SignUp.FailureMessage | src/pages/SignUp.tsx:71-74 | the error detail, or "Registration failed" without one |
| SignUp.SignUpPage.constructor | src/pages/SignUp.tsx:22-38 | terms unagreed, empty form, nothing stored |
| SignUp.SignUpPage.HandleSubmit | src/pages/SignUp.tsx:40-96 | a refused form sends nothing; a success stores the tenant and an admin user with the form's name and email and the tenant's id |
| SignUp.SignUpThenTenantId | src/pages/SignUp.tsx:80-86 | after a sign-up the customers page reads back the new tenant's id |
| BillingPage.PaidPlusPendingIsTotal | src/pages/BillingPage.tsx:28-30 | paid plus pending equals the total, for any invoice list |
| BillingPage.SampleTotals | src/pages/BillingPage.tsx:13-30 | on the fixture: total 41012, paid 7778, pending 33234 |
| BillingPage.StatusConfigDistinct | src/pages/BillingPage.tsx:20-25 | the four invoice statuses have distinct texts and classes |
| Billing.InvoiceTotal | src/components/job/Billing.tsx:10-12 | the total is duty plus 528 plus the 450 service fee |
| Billing.InvoiceTotalSpec | src/components/job/Billing.tsx:10-12 | the invoice amount does not affect the total, which exceeds the duty card's total due by exactly 450 |
| DutyPayment.TotalDue | src/components/job/DutyPayment.tsx:41 | the total due exceeds the duty by 528 |
| DutyPayment.PaymentBadge | src/components/job/DutyPayment.tsx:17-25 | "Paid" iff paid, "Payment Due" with status-pending otherwise |
| DutyPayment.MarkAsPaidOffered | src/components/job/DutyPayment.tsx:51-60 | the button is offered iff unpaid |
| DutyPayment.DutyPaymentCard.constructor | src/components/job/DutyPayment.tsx:11 | the card starts unpaid |
| DutyPayment.DutyPaymentCard.MarkAsPaid | src/components/job/DutyPayment.tsx:52 | the card becomes paid, the duty unchanged |
| DutyPayment.PaidIsFinal | src/components/job/DutyPayment.tsx:51-60 | once paid no control is offered and the badge stays "Paid" |
| Common.OrText | src/components/job/DocumentVerification.tsx:11-20 | the value when truthy, the fallback otherwise; empty iff the value is falsy and the fallback empty (the forms use "", the verification rows "-") |
| DocumentVerification.FieldListSpec | src/components/job/DocumentVerification.tsx:10-21 | ten rows; Unit Price and HS Code never match; each other row matches iff its value is truthy |
| DocumentVerification.MismatchBounds | src/components/job/DocumentVerification.tsx:23 | the mismatch count is between 2 and 10 |
| DocumentVerification.NoFieldsAllMismatch | src/components/job/DocumentVerification.tsx:9-23 | with the default empty fields all ten are flagged |
| Checklist.Toggled | src/components/job/Checklist.tsx:17-21 | same length, ids and labels; only items with the id flip |
| Checklist.ToggleTwice | src/components/job/Checklist.tsx:17-21 | toggling one id twice restores the list |
| Checklist.ToggleUnknownId | src/components/job/Checklist.tsx:18-20 | an unknown id changes nothing |
| Checklist.CompletionSpec | src/components/job/Checklist.tsx:13-15 | the completed count is at most the total; complete iff every item is checked, so an empty list is complete |
| Checklist.ChecklistCard.constructor | src/components/job/Checklist.tsx:11 | the card starts with the given items |
| Checklist.ChecklistCard.HandleToggle | src/components/job/Checklist.tsx:17-21 | the items become the toggled list |
| CustomerApproval.LabelAndClassDistinct | src/components/job/CustomerApproval.tsx:22-32 | labels and badge classes are each distinct per state |
| CustomerApproval.OfferedStepsForward | src/components/job/CustomerApproval.tsx:36-76 | an offered action moves exactly one state forward; approved offers nothing |
| CustomerApproval.RunAdvances | src/components/job/CustomerApproval.tsx:36-76 | any accepted click sequence advances by its length, at most two steps in all |
| CustomerApproval.CustomerApprovalCard.constructor | src/components/job/CustomerApproval.tsx:7 | the card starts pending |
| CustomerApproval.CustomerApprovalCard.HandleSendApproval | src/components/job/CustomerApproval.tsx:9-11 | the state becomes sent |
| CustomerApproval.CustomerApprovalCard.HandleSimulateApproval | src/components/job/CustomerApproval.tsx:13-15 | the state becomes approved |
| CustomerApproval.CustomerApprovalCard.Click | src/components/job/CustomerApproval.tsx:36-76 | an offered click moves one step forward |
| CustomsSubmission.LabelAndClassDistinct | src/components/job/CustomsSubmission.tsx:14-24 | labels and badge classes are each distinct per state |
| CustomsSubmission.OfferedStepsForward | src/components/job/CustomsSubmission.tsx:53-89 | an offered action moves exactly one state forward; accepted offers nothing |
| CustomsSubmission.RunAdvances | src/components/job/CustomsSubmission.tsx:53-89 | any accepted click sequence advances by its length, at most two steps in all |
| CustomsSubmission.CustomsSubmissionCard.constructor | src/components/job/CustomsSubmission.tsx:7 | the card starts ready |
| CustomsSubmission.CustomsSubmissionCard.Click | src/components/job/CustomsSubmission.tsx:53-72 | an offered click moves one step forward |
| TransportDelivery.LabelAndClassDistinct | src/components/job/TransportDelivery.tsx:28-43 | labels and badge classes are each distinct per state |
| TransportDelivery.StepKeepsConsistent | src/components/job/TransportDelivery.tsx:18-50 | every action keeps "POD uploaded implies a carrier and delivered"; the POD flag never clears; after upload the control is gone |
| TransportDelivery.ReselectAfterDelivery | src/components/job/TransportDelivery.tsx:50 | choosing a carrier always sets in-transit, even after delivery, and leaves the POD flag |
| TransportDelivery.RunKeepsConsistent | src/components/job/TransportDelivery.tsx:18-101 | any accepted action sequence keeps the invariant |
| TransportDelivery.InitialConsistent | src/components/job/TransportDelivery.tsx:14-16 | the initial state satisfies it and offers no upload |
| TransportDelivery.TransportDeliveryCard.constructor | src/components/job/TransportDelivery.tsx:14-16 | no carrier, no POD, pending |
| TransportDelivery.TransportDeliveryCard.HandleCarrierChange | src/components/job/TransportDelivery.tsx:50 | the state becomes the carrier step |
| TransportDelivery.TransportDeliveryCard.HandleUploadPod | src/components/job/TransportDelivery.tsx:18-21 | the state becomes the upload step |
| JobClosure.ClosureBadge | src/components/job/JobClosure.tsx:13-22 | "Closed & Archived" with status-cleared iff closed, else "Open" with status-prealert |
| JobClosure.CloseOffered | src/components/job/JobClosure.tsx:25-48 | the close button is offered iff the job is open |
| JobClosure.JobClosureCard.constructor | src/components/job/JobClosure.tsx:7 | the card starts open |
| JobClosure.JobClosureCard.CloseJob | src/components/job/JobClosure.tsx:33 | the job is closed and cannot be closed again |
| Sidebar.DashboardOnlyOnRoot | src/components/layout/Sidebar.tsx:41-42 | Dashboard is active iff the path is exactly "/" |
| Sidebar.JobsPrefixRule | src/components/layout/Sidebar.tsx:41-42 | Jobs is active on /jobs/JOB-2024-001 and on /jobsarchive (plain prefix), not on /job |
| Sidebar.CandidateIndex | src/components/layout/Sidebar.tsx:13-19 | the only nav item that can be active for a path, or none |
| Sidebar.ActiveIsCandidate | src/components/layout/Sidebar.tsx:41-42 | an active item is that candidate |
| Sidebar.AtMostOneActive | src/components/layout/Sidebar.tsx:13-42 | at most one of the five items is active for any path |
| Sidebar.SettingsExact | src/components/layout/Sidebar.tsx:67 | Settings is active iff the path is exactly /settings, and then no nav item is |
| Paths.Extension | backend/routes/upload.py:52 | the `splitext` suffix: a dot-led tail without a further dot or slash, empty exactly when the last component has no dot after a non-dot character |
| Paths.Root | backend/routes/upload.py:52 | root plus extension rebuilds the path |
| Paths.ExtensionOfNamedFile | backend/routes/upload.py:52 | a name without dots followed by an extension splits back into it |
| Paths.HiddenFileHasNoExtension | backend/routes/upload.py:52 | ".pdf" alone has no extension, as for `splitext` |
| DocumentAi.FirstWordMatchIndex | backend/services/document_ai.py:126-136 | the first code in list order that occurs as a whole word, with any Unicode alphanumeric or `_` as a word character, and no earlier code does |
| DocumentAi.FindIncoterm | backend/services/document_ai.py:121-188 | the result is the classification of the detected term |
| DocumentAi.CodesBeforePhrases | backend/services/document_ai.py:126-151 | a code match wins; the phrase fallbacks run only without one |
| DocumentAi.DetectedTermIsIncoterm | backend/services/document_ai.py:126-151 | a detected term is always one of the listed codes |
| DocumentAi.CifBeatsFob | backend/services/document_ai.py:126-136 | text with both CIF and FOB is classified by an earlier code (DAP or CIF), never FOB |
| DocumentAi.CategoryRules | backend/services/document_ai.py:164-174 | FOB/EXW/FCA need freight and misc; CFR/C&F/CNF need misc only; every other code is basic |
| DocumentAi.ResultShape | backend/services/document_ai.py:153-179 | detected iff a term; required docs are bl, invoice, pl plus freight iff needed; freight implies misc |
| DocumentAi.CategoryListsWellFormed | backend/services/document_ai.py:23-40 | the category lists are disjoint subsets of the code list |
| DocumentAi.CodeInsideWordIsNotMatched | backend/services/document_ai.py:131-134 | a code inside a longer ASCII word is not matched |
| DocumentAi.AccentedLetterJoinsWord | backend/services/document_ai.py:131-134 | a non-ASCII letter glued to a code also blocks the match: "ÉFOB" holds no FOB |
| DocumentAi.MimeTypeFor | backend/services/document_ai.py:61-71 | one of the four MIME types; an unknown extension gives application/pdf |
| DocumentAi.ProcessPackingList | backend/services/document_ai.py:218-233 | text-extracted iff non-empty, its length, and the INCOTERM result of the text |
| Upload.FolderTable | backend/routes/upload.py:19-24 | packing_list goes to pl, the other three types to their own names |
| Upload.CleanJobNo | backend/routes/upload.py:72-74 | same length, no slash or backslash left, other characters kept |
| Upload.StoredNameStaysInFolder | backend/routes/upload.py:72-87 | with slash-free stamp, id and fallback the stored name has no slash |
| Upload.UploadFile | backend/routes/upload.py:32-119 | type checked before extension (400 each), 500 on a failed save; on success the name, folder, path "uploads/<folder>/<name>" and message; INCOTERM info iff a packing list, failed extraction reported |
| Upload.ExtractInvoiceData | backend/routes/upload.py:122-187 | 400 on the extension, 500 on a failed save; name with prefix "invoice" unless a job number, the original file name echoed; misc charges iff asked, 0.0 when extraction failed |
| Upload.GetFile | backend/routes/upload.py:190-207 | 404 for an unknown folder or missing file, else the file |
| Upload.DeleteFile | backend/routes/upload.py:210-229 | 400 for an unknown folder, 404 for a missing file, 500 "Failed to delete file: …" when the removal raises, else the deletion message |
| Upload.UploadedFilesAreReachable | backend/routes/upload.py:194-215 | every upload folder is one the download and delete routes accept |
| Strings.PadNat | backend/routes/job.py:65 | `{n:03d}`: decimal digits of the value n, at least the width long |
| Strings.NatToStringRoundTrip | backend/routes/job.py:65 | the decimal digits read back as the number |
| Strings.TrimEmptyIffBlank | src/pages/Customers.tsx:142 | the trimmed text is empty iff every character is whitespace as JavaScript `trim()` defines it, Unicode space separators included |
| Strings.UnicodeSpacesTrimAway | src/pages/Customers.tsx:142 | a no-break space or an ideographic space alone trims to the empty string |
| Strings.ContainsIffOccurs | src/pages/JobList.tsx:21-23 | `includes` holds iff the needle occurs at some position |
| Strings.EmptyQueryMatchesAll | src/pages/JobList.tsx:20-23 | the empty query is found in every text |
| Sql.UpdateWellFormed | backend/routes/new_job.py:248-256 | with safe column names an UPDATE has one placeholder per parameter, the id bound last |
| Sql.SelectWellFormed | backend/routes/activity_log.py:40-68 | with safe columns a filtered SELECT has one placeholder per condition value |
| Sql.DeleteWellFormed | backend/routes/client.py:203 | a DELETE by id has one placeholder and one parameter |
| Sql.SendUpdate | backend/routes/user.py:172-180 | no clauses give 400 "No fields to update" before any SQL; otherwise the UPDATE is sent with the id last |
| Sql.Reply | backend/routes/document.py:175-189 | a row gives the success message, no row gives 404, an exception gives 500 with the route's prefix |
| Sql.Echo | backend/routes/user.py:182-200 | a row is returned, no row gives 404, an exception gives 500 with the route's prefix |
| Sql.CreateFailure | backend/routes/user.py:111-115 | a unique violation is tested before a foreign-key one (400 each when the route maps it); otherwise 500 with the route's prefix |
| Sql.Created | backend/routes/user.py:96-115 | success iff the row was inserted, else the mapped failure |
| Sql.WithDefault | backend/routes/container.py:20 | an absent key takes the default, a sent value (null included) is kept |
| JobRoutes.Serial | backend/routes/job.py:56-63 | the count of the year plus one, or 1 when the count query failed |
| JobRoutes.GenerateJobNumber | backend/routes/job.py:52-65 | the number of that serial and year, which parses back to the serial |
| JobRoutes.JobNumberRoundTrip | backend/routes/job.py:65 | "4S/AMP/" + padded serial + "/" + year parses back to the serial; the serial has at least three digits |
| JobRoutes.FallbackJobNumber | backend/routes/job.py:62-65 | after a failed count the number is "4S/AMP/001/<year>" |
| JobRoutes.JobNumberInjective | backend/routes/job.py:65 | two serials of one year never share a number (the format is injective; whether issued serials repeat is outside it) |
| JobRoutes.JobValues | backend/routes/job.py:142-151 | importer; vessel name or, when falsy, origin; eta date or NULL when unparsable; remarks "Port: …, Container: …" with "TBD" for a falsy container |
| JobRoutes.RequestRemarksIgnored | backend/routes/job.py:150 | the request's remarks never reach the database |
| JobRoutes.CreateJob | backend/routes/job.py:113-171 | parameters are the generated number then the seven values; success answers status "created" and "Job <number> created successfully"; every failure is 500 |
| JobRoutes.JobChanges | backend/routes/job.py:281-290 | all seven legacy columns are set, in order, whatever the request holds |
| JobRoutes.UpdateJob | backend/routes/job.py:266-318 | the UPDATE of the seven values with the id last and one placeholder each; 404 "Job with ID <id> not found"; 500 on an exception |
| JobRoutes.UpdateClearsOmitted | backend/routes/job.py:281-300 | an omitted bill of lading, carton count or weight writes NULL |
| JobRoutes.DocumentView | backend/routes/job.py:204-211 | uploaded_at is always removed; uploadedAt is present iff the timestamp was set; the other keys are unchanged |
| JobRoutes.DocumentViews | backend/routes/job.py:204-212 | one converted row per fetched row, in order |
| NewJobRoutes.ListNewJobs | backend/routes/new_job.py:45-70 | tenant then status conditions, each iff truthy, newest first, one placeholder per value |
| NewJobRoutes.ListWellFormed | backend/routes/new_job.py:63-70 | the list query has one placeholder per value |
| NewJobRoutes.ListFilterOrder | backend/routes/new_job.py:63-68 | conditions and values follow the truthy filters in order |
| NewJobRoutes.ShipmentChanges | backend/routes/new_job.py:227-238 | the first six fields, each iff not None, dates only when they parse |
| NewJobRoutes.NewJobChanges | backend/routes/new_job.py:227-246 | all fields in fixed order, each contributing one clause iff present |
| NewJobRoutes.UpdateNewJob | backend/routes/new_job.py:216-263 | 400 before SQL without clauses; otherwise one placeholder per parameter, parameters one more than clauses, the id last |
| NewJobRoutes.UpdateShape | backend/routes/new_job.py:227-246 | every clause sets a value with a safe column |
| NewJobRoutes.NothingToUpdate | backend/routes/new_job.py:248-249 | 400 iff every field is absent or an unparsable date |
| NewJobRoutes.OnlyBadEtaIsRefused | backend/routes/new_job.py:233-249 | a request holding only an unparsable eta is refused |
| NewJobRoutes.AnyStatusIsWritten | backend/routes/new_job.py:245 | any status string is written, without a whitelist |
| NewJobRoutes.BadEtaIsSkipped | backend/routes/new_job.py:233-236 | an unparsable eta writes no eta clause |
| NewJobRoutes.CreateParams | backend/routes/new_job.py:102-115 | ten values in column order; the eta is a date iff it is truthy and parses, NULL otherwise |
| NewJobRoutes.CreateNewJob | backend/routes/new_job.py:94-137 | success iff inserted; a unique violation gives 400 "Job number already exists for this tenant", anything else 500 |
| NewJobRoutes.BadEtaCreatesWithNull | backend/routes/new_job.py:102-107 | an unparsable eta is passed to the insert as NULL |
| MilestoneRoutes.ListMilestones | backend/routes/milestone.py:33-79 | job then status conditions, each iff truthy, one placeholder per value |
| MilestoneRoutes.ListWellFormed | backend/routes/milestone.py:50-57 | the list query has one placeholder per value |
| MilestoneRoutes.ZeroJobIdIsNoFilter | backend/routes/milestone.py:50 | job id 0 filters nothing |
| MilestoneRoutes.MilestoneChanges | backend/routes/milestone.py:207-226 | status, automatic or parsed completed_at, remarks, in order |
| MilestoneRoutes.UpdateMilestone | backend/routes/milestone.py:196-257 | 400 before SQL without clauses; otherwise one placeholder per parameter, the id last |
| MilestoneRoutes.NothingToUpdate | backend/routes/milestone.py:228-229 | 400 iff no status, no parsable completed_at and no remarks |
| MilestoneRoutes.AutoCompletion | backend/routes/milestone.py:207-211 | completed_at = CURRENT_TIMESTAMP iff status is "completed" and no completed_at was sent |
| MilestoneRoutes.AtMostOneCompletedAt | backend/routes/milestone.py:210-219 | never both the automatic and the parsed completed_at |
| MilestoneRoutes.CompletedWithBadTime | backend/routes/milestone.py:207-219 | completed with an unparsable time writes only the status |
| MilestoneRoutes.InitializeMilestones | backend/routes/milestone.py:149-193 | a raising lookup, template query or insert gives 500 "Failed to initialize milestones: …" with nothing committed; otherwise 404 before any insert for an unknown job; otherwise one insert per template, count the sum of row counts |
| MilestoneRoutes.InitializedAtMostTemplates | backend/routes/milestone.py:172-183 | with row counts 0 or 1 the count is between 0 and the template count |
| MilestoneRoutes.CreateMilestone | backend/routes/milestone.py:112-143 | success iff inserted; a foreign-key violation gives 400 "Job not found", anything else 500 |
| AlertRoutes.ListAlerts | backend/routes/alert.py:29-71 | job then status conditions, each iff truthy, id descending |
| AlertRoutes.ListWellFormed | backend/routes/alert.py:45-52 | the list query has one placeholder per value |
| AlertRoutes.ListFilters | backend/routes/alert.py:45-52 | conditions follow the truthy filters in order |
| AlertRoutes.AlertChanges | backend/routes/alert.py:115-128 | status always; sent_at iff status is "sent" |
| AlertRoutes.UpdateAlert | backend/routes/alert.py:104-151 | 400 for a missing or empty status before SQL; otherwise the UPDATE with one placeholder per parameter; 404 for an unknown id |
| AlertRoutes.OtherStatusKeepsSentAt | backend/routes/alert.py:115-128 | a status other than "sent" never writes sent_at |
| AlertRoutes.CreateAlert | backend/routes/alert.py:74-98 | success iff inserted; a foreign-key violation gives 400 "Job not found", anything else 500 |
| TransportRoutes.ListTransport | backend/routes/transport.py:34-76 | restricted to the job iff its id is truthy |
| TransportRoutes.TransportChanges | backend/routes/transport.py:159-176 | contact fields iff not None; times iff truthy and parsable |
| TransportRoutes.UpdateTransport | backend/routes/transport.py:148-203 | 400 before SQL without clauses; otherwise one placeholder per parameter, the id last |
| TransportRoutes.EmptyContactIsWritten | backend/routes/transport.py:159-164 | an empty transporter name is written |
| TransportRoutes.BadTimeIsSkipped | backend/routes/transport.py:165-176 | an empty or unparsable gate-out or delivery time writes no clause for that column |
| TransportRoutes.NothingToUpdate | backend/routes/transport.py:178-179 | 400 iff no contact field and no usable time |
| TransportRoutes.MarkGateOut | backend/routes/transport.py:206-234 | sets only gate_out_time to the current time, the id the only parameter |
| TransportRoutes.MarkDelivered | backend/routes/transport.py:237-265 | sets only delivered_time to the current time, the id the only parameter |
| TransportRoutes.CreateTransport | backend/routes/transport.py:79-103 | success iff inserted; a foreign-key violation gives 400 "Job not found", anything else 500 |
| TenantRoutes.TenantChanges | backend/routes/tenant.py:178-183 | company name, email, plan and status iff truthy; contact and phone iff not None |
| TenantRoutes.UpdateTenant | backend/routes/tenant.py:167-216 | 400 before SQL without clauses; the row, 404 or 500 otherwise |
| TenantRoutes.NothingToUpdate | backend/routes/tenant.py:185-186 | 400 iff every field is falsy or None as its test demands |
| TenantRoutes.EmptyStringsDiffer | backend/routes/tenant.py:178-179 | an empty contact name is written, an empty company name is not |
| TenantRoutes.PasswordHash | backend/routes/tenant.py:89-91 | a hash iff the password is truthy |
| TenantRoutes.AdminName | backend/routes/tenant.py:109 | the contact name when truthy, else the company name |
| TenantRoutes.CreateTenant | backend/routes/tenant.py:80-131 | the tenant insert first; the admin insert iff the tenant was inserted and a password given; committed iff success; a duplicate email gives 400, other failures 500 |
| TenantRoutes.AdminUserShape | backend/routes/tenant.py:104-109 | the admin user has the tenant's id, the contact or company name, the tenant's email, the hash and role "admin" |
| TenantRoutes.CreationDefaults | backend/routes/tenant.py:24 | an absent plan is stored as "basic" |
| UserRoutes.UserChanges | backend/routes/user.py:165-170 | name, email, password and role iff truthy; the password as its digest |
| UserRoutes.UpdateUser | backend/routes/user.py:154-203 | 400 before SQL without clauses; the row, 404 or 500 otherwise |
| UserRoutes.NothingToUpdate | backend/routes/user.py:172-173 | 400 iff all four fields are falsy |
| UserRoutes.PasswordOnlyAsDigest | backend/routes/user.py:167-168 | a password column is written iff a password is given, and only as its digest |
| UserRoutes.UserParams | backend/routes/user.py:88-94 | five parameters: tenant, name, email, the password digest, and the role, "staff" when absent |
| UserRoutes.CreateUser | backend/routes/user.py:81-118 | unique violation 400 first, then foreign key 400 "Tenant not found", else 500 |
| CustomerRoutes.ListCustomers | backend/routes/customer.py:47-81 | restricted to the tenant iff its id is truthy, always by company name |
| CustomerRoutes.ListWellFormed | backend/routes/customer.py:55-64 | the list query has one placeholder per value |
| CustomerRoutes.ListParams | backend/routes/customer.py:55-64 | the only parameter is the truthy tenant id |
| CustomerRoutes.CustomerChanges | backend/routes/customer.py:164-168 | company name iff truthy; the other four iff not None |
| CustomerRoutes.UpdateCustomer | backend/routes/customer.py:153-201 | 400 before SQL without clauses; the row, 404 or 500 otherwise; id last |
| CustomerRoutes.NothingToUpdate | backend/routes/customer.py:170-171 | 400 iff the name is falsy and the others None |
| CustomerRoutes.EmptyStringsDiffer | backend/routes/customer.py:164-168 | an empty GST number is written, an empty company name is not |
| CustomerRoutes.CreateCustomer | backend/routes/customer.py:84-117 | a foreign-key violation gives 400 "Tenant not found", else 500 |
| ContainerRoutes.ListContainers | backend/routes/container.py:34-68 | restricted to the job iff its id is truthy |
| ContainerRoutes.ContainerChanges | backend/routes/container.py:143-147 | container number and status iff truthy; size, type and seal iff not None |
| ContainerRoutes.UpdateContainer | backend/routes/container.py:132-174 | 400 before SQL without clauses; otherwise the UPDATE with the id last |
| ContainerRoutes.NothingToUpdate | backend/routes/container.py:149-150 | 400 exactly when nothing qualifies by its test |
| ContainerRoutes.EmptyStringsDiffer | backend/routes/container.py:143-147 | an empty seal number is written, an empty status is not |
| ContainerRoutes.ContainerParams | backend/routes/container.py:16-22 | five parameters: the job, number, size, seal, and type "dry" unless sent |
| ContainerRoutes.CreateContainer | backend/routes/container.py:71-98 | a foreign-key violation gives 400 "Job not found", else 500 |
| DocumentRoutes.ListDocuments | backend/routes/document.py:31-75 | job then type conditions, each iff truthy, newest upload first |
| DocumentRoutes.ListWellFormed | backend/routes/document.py:49-56 | the list query has one placeholder per value |
| DocumentRoutes.ListParams | backend/routes/document.py:49-56 | values follow the truthy filters in order |
| DocumentRoutes.DocumentChanges | backend/routes/document.py:161-162 | type and URL iff truthy |
| DocumentRoutes.UpdateDocument | backend/routes/document.py:150-189 | 400 before SQL without clauses; otherwise the UPDATE with the id last |
| DocumentRoutes.NothingToUpdate | backend/routes/document.py:164-165 | 400 iff both fields are falsy |
| DocumentRoutes.CreateDocument | backend/routes/document.py:78-110 | a foreign-key violation gives 400 "Job or User not found", else 500 |
| ClientRoutes.CreateClient | backend/routes/client.py:76-118 | a unique violation gives 400 "Client with this name already exists", else 500 |
| ClientRoutes.ClientChanges | backend/routes/client.py:133-147 | each of the five fields iff not None |
| ClientRoutes.ClientReply | backend/routes/client.py:158-184 | the row; 404 for a missing id; 400 for a duplicate name; else 500 |
| ClientRoutes.UpdateClient | backend/routes/client.py:121-184 | 400 before SQL without clauses; otherwise the UPDATE with the id last and the reply above |
| ClientRoutes.NothingToUpdate | backend/routes/client.py:149-150 | 400 iff all five fields are None |
| ClientRoutes.OneClausePerField | backend/routes/client.py:133-147 | one clause per field that is not None |
| ClientRoutes.DeleteClient | backend/routes/client.py:187-220 | refused with 400 when legacy jobs use the client, before any DELETE; otherwise the DELETE and its reply |
| ActivityLogRoutes.ListActivityLogs | backend/routes/activity_log.py:29-86 | tenant, user, entity, entity id conditions each iff truthy, newest first, limit 100 by default |
| ActivityLogRoutes.ListWellFormed | backend/routes/activity_log.py:53-66 | the list query has one placeholder per value, the limit written into the text |
| ActivityLogRoutes.ListParamsOrder | backend/routes/activity_log.py:53-64 | with all filters the values are tenant, user, entity, entity id |
| ActivityLogRoutes.ZeroIdIsNoFilter | backend/routes/activity_log.py:53-62 | id filters of 0 filter nothing |
| ActivityLogRoutes.LogParams | backend/routes/activity_log.py:95-105 | six parameters; details serialised iff present and non-empty, NULL otherwise |
| ActivityLogRoutes.CreateActivityLog | backend/routes/activity_log.py:89-120 | success iff inserted, every failure 500 |

## Left out

- Rendering, CSS other than the class tables, icons, toasts, navigation, loading flags and the `fetch` plumbing of the pages. Asynchronous React updates are modelled as completed method calls.
- The database, HTTP framework, connection pool, commits and rollbacks. A statement's effect enters as its outcome. SQL column lists, joins, `RETURNING` lists and the rendering of the SELECT column list are not modelled; a filtered SELECT is rendered canonically from its source, conditions, order and limit.
- Clocks, UUIDs, password hashing, `json.dumps`, OCR and file storage are parameters. JSON details are a map of serialised strings. The misc-charge extraction (`extract_misc_charges`) and the invoice processing that only wraps it are not modelled; their result is a parameter.
- Dates are parsed outside the model: a `DateInput` carries the text and what `strptime`/`fromisoformat` gave.
- Floating-point amounts (misc charges, weights) are not computed on; money is whole dollars, as in the fixtures.
- Strings are sequences of Unicode scalar values, so lengths count characters where JavaScript's `length` counts UTF-16 code units: `SignUp.Validate` refuses a password of three astral characters (six code units) that the page accepts. Case folding (`toLowerCase`, `.lower()`, `.upper()`) is ASCII only. Trimming follows JavaScript's `trim()` whitespace set in full.
- JobRoutes.JobNumberInjective: proves only that the number format is injective in the serial. It does not promise that issued numbers are unique: `COUNT(*) + 1` can issue a serial again after a job of the year is deleted, or to two creates running concurrently; the table schema is not part of this model.
- The get-by-id and delete-by-id routes of alerts, milestones, new jobs, transport, documents, containers, tenants, users and customers are not modelled: each binds one id and answers 404 when no row comes back, the rule the shared `Echo`/`Reply` replies state for the updates. The creates of tenants, users, customers, containers, documents, clients, alerts, milestones, transport records, new jobs and legacy jobs are modelled by their error mapping, and by their parameters where the route computes one (a default, a digest, a date fallback); the fields they echo from the returned row are not. `get_entity_activity`, `get_milestone_templates`, `get_all_tenants`, `get_all_clients`, `get_all_jobs` and `get_all_users` are plain scans or single-filter lists left out for the same reason.
- `delete_job` and the legacy `get_job` joins other than the document-row conversion are not modelled.
- JobRoutes.GenerateJobNumber: the year is a parameter (the two-digit `%y` of the current date); the model does not describe that after a failed count query PostgreSQL aborts the transaction, so the fallback serial 1 is only observable with the database's own behaviour.
- Sql.Reply and Sql.Echo: the 500 detail is the route's prefix followed by the exception text; the text of a driver exception is a parameter.
