# customer-needs, modelled in Dafny

customer-needs is a small web front end that tracks customers, the transactions charged to
them (phone-line charging, subscriptions) and the payments made against those transactions.
The application stores its data in a hosted database and adds a few exact rules on top of it.
This project models those rules and proves properties about them:

- **Ledger arithmetic.** A transaction's paid total and the amount still remaining (which may go
  negative), the customer detail page's split of a signed balance into "Should Receive" and
  "You Owe", and the dashboard's fold of all balances into a receivable and a payable total
  (`ledger.dfy`, `dashboard.dfy`, with the generic sum in `sums.dfy`).
- **List views.** The customers, transactions and payments pages are classes whose fields are the
  pages' state cells: rows, total, page, search and filters, the form being edited. Their methods
  are the handlers: fetch results, search input, filter selects, the Prev/Next buttons, and the
  add, edit and delete flows up to the toast each pushes (`customers.dfy`, `transactions.dfy`,
  `payments.dfy`). `paging.dfy` holds the offset window of a page, the page count and the
  clamped steps, which all three pages share.
- **Input validation.** The edit schemas and the add-customer schema, as functions that accept or
  reject an input and normalise it (`validation.dfy`). JavaScript's `Number(string)`, which the
  submit guards and the zod coercion use, is modelled exactly on rationals (`jsnumber.dfy`).
- **Toast queue.** Append with a given id, and dismiss by id (`toast.dfy`).
- **Helpers.** `cn` class joining and the two enumerations (`utils.dfy`); the redirect guard
  and the theme toggle of the root route (`root.dfy`); case-insensitive containment, which
  stands for ILIKE (`text.dfy`).
- **Service worker.** The offline cache: cache-first answers for same-origin GET requests, and a
  conditional store on a miss (`serviceworker.dfy`).

Amounts are exact `real`s, not IEEE doubles. Every call to the database becomes a parameter:
- A list query becomes a function `store` from the query (a page window plus filter conjuncts)
  to a reply `{ data, error, count }`.
- An insert, update or delete becomes the error it answered with, if any.
- `crypto.randomUUID()` becomes an `id` parameter.
- The network in the service worker becomes a function from a request to its response, or to none when the fetch rejects.

Where the source writes state through a React setter, the method assigns the field. Each
method's `ensures` gives the page's whole new state as a `Snapshot()` of the old one with its
changed fields replaced, so the fields a handler leaves alone are stated too.

## Model

| member | source | states |
|---|---|---|
| Paging.PageWindow | web/src/routes/customers.tsx:70 | the range of page p runs from offset (p-1)*10 to p*10-1 inclusive, exactly ten rows |
| Paging.PageOf | web/src/routes/customers.tsx:70 | the page whose window holds row i is at least 1 |
| Paging.WindowsPartitionRows | web/src/routes/customers.tsx:70 | row i lies in page p's window iff p is PageOf(i), so windows neither overlap nor leave gaps |
| Paging.ConsecutiveWindowsAdjoin | web/src/routes/customers.tsx:70 | page p+1's window starts right after page p's ends |
| Paging.TotalPages | web/src/routes/customers.tsx:113 | max(1, ceil(total/10)) is at least 1, its pages hold all rows, and one page fewer would not |
| Paging.PagesCoverRows | web/src/routes/customers.tsx:113 | every row's page lies between 1 and TotalPages, and the last row falls in the last page |
| Paging.PrevPage | web/src/routes/customers.tsx:249 | max(1, p-1): p-1 from page 2 on, 1 at page 1 and below, so never below 1 and never above p for p>=1 |
| Paging.NextPage | web/src/routes/customers.tsx:256 | min(totalPages, p+1) is at most totalPages: p+1 below it, totalPages when p started at or above it |
| Paging.StepsStayInRange | web/src/routes/payments.tsx:250-257 | from a page within [1, totalPages], both steps land within [1, totalPages] |
| Paging.CountOrZero | web/src/routes/payments.tsx:64 | definition, transcribed: `count \|\| 0`: the count when present, otherwise 0 |
| Paging.NoCountSinglePage | web/src/routes/payments.tsx:57-64 | a reply without a count gives total 0 and a single page |
| CustomersPage.QueryFor | web/src/routes/customers.tsx:66-71 | definition, transcribed: the query has page p's window and a name filter exactly when the search is non-empty |
| CustomersPage.SearchMeaning | web/src/routes/customers.tsx:71 | definition, transcribed: a row is selected iff the search is empty or the name contains it, ignoring case |
| CustomersPage.SearchFindsExactName | web/src/routes/customers.tsx:71 | searching for a customer's exact name selects that customer |
| CustomersPage.EditUpdate | web/src/routes/customers.tsx:291 | the update keeps the name, stores null for an empty or absent phone and any other phone as is |
| CustomersPage.PrefillRoundTrip | web/src/routes/customers.tsx:203-204 | saving the edit form prefilled from a valid row writes the row's own name and phone back, blank phone as null |
| CustomersPage.EditStoresBlankPhoneAsNull | web/src/routes/customers.tsx:291 | for any accepted edit, the stored phone is null iff the input phone was empty or absent, else it has at least 5 characters |
| CustomersPage.CustomersView.constructor | web/src/routes/customers.tsx:40-60 | the initial state cells: no rows, loading, page 1, total 0, empty search, nothing edited |
| CustomersPage.CustomersView.PageCount | web/src/routes/customers.tsx:113 | the page count shown is at least 1 |
| CustomersPage.CustomersView.Fetch | web/src/routes/customers.tsx:64-78 | with no error and data, rows become the data and total the count or 0; otherwise rows and total are kept; loading ends in both cases |
| CustomersPage.CustomersView.OnSearchInput | web/src/routes/customers.tsx:123-126 | typing sets the page to 1 and the search to the text, nothing else |
| CustomersPage.CustomersView.ClickPrev | web/src/routes/customers.tsx:248-249 | disabled on page 1, otherwise the page becomes max(1, p-1); the page stays at least 1 |
| CustomersPage.CustomersView.ClickNext | web/src/routes/customers.tsx:255-256 | disabled on the last page, otherwise the page becomes min(totalPages, p+1), at most totalPages |
| CustomersPage.CustomersView.ToggleForm | web/src/routes/customers.tsx:131 | the add form's visibility flips and nothing else changes |
| CustomersPage.CustomersView.SubmitAdd | web/src/routes/customers.tsx:26-29 | an insert of the parsed form is attempted iff the add schema accepts it, and only then is adding set |
| CustomersPage.CustomersView.FinishAdd | web/src/routes/customers.tsx:100-111 | adding ends; on success the form closes and "Customer added" is pushed, on failure "Error" with the message |
| CustomersPage.CustomersView.BeginEdit | web/src/routes/customers.tsx:203-204 | the row becomes the edited one and the edit form holds its name and phone, "" for a null phone |
| CustomersPage.CustomersView.CancelEdit | web/src/routes/customers.tsx:266 | closing or cancelling the modal forgets the edited row |
| CustomersPage.CustomersView.SubmitEdit | web/src/routes/customers.tsx:286-291 | an update is sent iff the edit schema accepts the form and a row is being edited, for that row's id |
| CustomersPage.CustomersView.FinishEdit | web/src/routes/customers.tsx:292-303 | on success "Customer updated" is pushed and the modal closes; on failure "Update failed" and it stays open |
| CustomersPage.CustomersView.FinishDelete | web/src/routes/customers.tsx:211-229 | only a toast: "Customer deleted", or "Delete failed" with the message |
| Ledger.Paid | web/src/routes/customers.tsx:409-413 | the paid total is 0 when the payments are missing or empty |
| Ledger.Remaining | web/src/routes/customers.tsx:414 | remaining plus paid is the amount, with no clamping, and remaining is negative iff the row is overpaid |
| Ledger.HighlightedIffUnderpaid | web/src/routes/customers.tsx:427 | a row is highlighted iff less than its amount has been paid |
| Ledger.PaidOrderIndependent | web/src/routes/customers.tsx:409-413 | with exact sums, the order of the payments does not change the paid total |
| Ledger.RemainingAfterPayment | web/src/routes/customers.tsx:409-414 | one more payment lowers the remaining amount by exactly that payment |
| Ledger.PaidNonNegative | web/src/routes/customers.tsx:409-413 | positive payments never give a negative paid total |
| Ledger.UnpaidRemainsAmount | web/src/routes/customers.tsx:409-427 | without payments the whole amount remains, highlighted iff it is positive |
| Ledger.BalanceOf | web/src/routes/customers.tsx:355 | definition, transcribed: `outstanding ?? 0`: a missing balance row or value gives 0 |
| Ledger.Abs | web/src/routes/customers.tsx:367 | the magnitude is non-negative and equals x or -x |
| Ledger.SplitBalance | web/src/routes/customers.tsx:366-367 | receive and owe are non-negative, at most one is non-zero, and receive - owe is the balance |
| Ledger.SplitUnique | web/src/routes/customers.tsx:366-367 | any split with those three properties is the one shown |
| Ledger.MissingBalanceShowsNothing | web/src/routes/customers.tsx:355-367 | a missing balance shows 0 both as receive and as owe |
| Ledger.ExamplePartlyPaid | web/src/routes/customers.tsx:409-427 | 100 with payments of 30 and 20 has 50 paid and 50 remaining, highlighted |
| Ledger.ExampleOverpaid | web/src/routes/customers.tsx:409-427 | 50 paid with 75 leaves -25, not highlighted |
| Dashboard.Totals | web/src/routes/index.tsx:27-32 | the loop returns the receivable and payable totals, r >= 0 and o <= 0 throughout, and r + o is the sum of all balances |
| Dashboard.Positives | web/src/routes/index.tsx:30 | the values the first branch adds are all strictly positive |
| Dashboard.Negatives | web/src/routes/index.tsx:31 | the values the second branch adds are all strictly negative |
| Dashboard.ReceivableIsSumOfPositives | web/src/routes/index.tsx:29-32 | r is exactly the sum of the strictly positive balances |
| Dashboard.PayableIsSumOfNegatives | web/src/routes/index.tsx:29-32 | o is exactly the sum of the strictly negative balances |
| Dashboard.NetSplits | web/src/routes/index.tsx:27-32 | r + o is the sum of all balances |
| Dashboard.NeutralEntriesIgnored | web/src/routes/index.tsx:30-31 | a zero or null balance changes neither total |
| Dashboard.AllPositiveOwesNothing | web/src/routes/index.tsx:27-32 | when every balance is positive, o is 0 and r is their sum |
| Dashboard.AllNegativeReceivesNothing | web/src/routes/index.tsx:27-32 | when every balance is negative, r is 0 and o is their sum |
| Dashboard.TotalsOrderIndependent | web/src/routes/index.tsx:29-32 | with exact sums, permuting the balances changes neither total |
| Dashboard.OweShown | web/src/routes/index.tsx:58 | the displayed Math.abs(owe ?? 0) is non-negative and is -o for the fold's o |
| Dashboard.ExamplePortfolio | web/src/routes/index.tsx:27-32 | balances 25, -25 and 0 give r = 25 and o = -25 |
| Dashboard.DashboardView.constructor | web/src/routes/index.tsx:13-16 | initially no figures and loading; the sign invariant Valid holds |
| Dashboard.DashboardView.Load | web/src/routes/index.tsx:19-36 | after loading, the count is `cCount \|\| 0`, and receive and owe are the fold's r and o over the balances, both 0 when the balances are null; Valid holds, so receive >= 0 and owe <= 0 |
| Dashboard.DashboardView.ReceiveShown | web/src/routes/index.tsx:52 | nothing while loading; afterwards exactly `receive ?? 0`, which Valid makes non-negative |
| Dashboard.DashboardView.OweFigure | web/src/routes/index.tsx:58 | nothing while loading; afterwards exactly `Math.abs(owe ?? 0)`, non-negative, and the negated payable total once owe is loaded |
| Sums.SumByAppend | web/src/routes/index.tsx:29-32 | the sum over a concatenation is the sum of the sums |
| Sums.SumBySnoc | web/src/routes/index.tsx:29-32 | one more element adds its value |
| Sums.SumByPermutation | web/src/routes/customers.tsx:409-413 | sums over sequences with the same multiset agree |
| Sums.SumByNonNegative | web/src/routes/index.tsx:30 | summing non-negative values gives a non-negative sum |
| Sums.SumByNonPositive | web/src/routes/index.tsx:31 | summing non-positive values gives a non-positive sum |
| Sums.SumByPointwise | web/src/routes/index.tsx:29-32 | sums of pointwise equal functions agree |
| Sums.SumByAdd | web/src/routes/index.tsx:29-32 | the sum of a pointwise sum is the sum of the sums |
| TransactionsPage.Conjuncts | web/src/routes/transactions.tsx:57-59 | each non-empty filter adds exactly one conjunct, on its own column, and empty filters add none |
| TransactionsPage.FiltersMeaning | web/src/routes/transactions.tsx:57-59 | a row is selected iff it matches the type, the method and the case-insensitive title search of every filter that is on |
| TransactionsPage.NoFiltersSelectAll | web/src/routes/transactions.tsx:34 | the initial all-empty filters add no conjunct and select every row |
| TransactionsPage.QueryFor | web/src/routes/transactions.tsx:52-59 | definition, transcribed: the query has page p's window and the filters' conjuncts |
| TransactionsPage.InsertPayload | web/src/routes/transactions.tsx:96-99 | an insert is attempted iff customer, title and type are non-empty and Number(amount) > 0; the payload is the form with amount parsed |
| TransactionsPage.InsertedRowEditable | web/src/routes/transactions.tsx:97 | an inserted row passes the edit schema unchanged iff its title has at least 2 characters, although 1 was enough to insert it |
| TransactionsPage.PrefillRoundTrip | web/src/routes/transactions.tsx:272-276 | saving the edit form prefilled from a valid row writes back its own title and amount |
| TransactionsPage.TransactionsView.constructor | web/src/routes/transactions.tsx:30-38 | the initial state cells: no rows, loading, all filters empty, page 1, total 0 |
| TransactionsPage.TransactionsView.PageCount | web/src/routes/transactions.tsx:110 | the page count shown is at least 1 |
| TransactionsPage.TransactionsView.Fetch | web/src/routes/transactions.tsx:50-66 | without an error, rows become the data or none and total the count or 0; on an error both are kept; loading ends |
| TransactionsPage.TransactionsView.LoadCustomers | web/src/routes/transactions.tsx:68-74 | the customer options become the data, or none |
| TransactionsPage.TransactionsView.OnSearchInput | web/src/routes/transactions.tsx:120-122 | page 1, the search replaced, the type and method filters unchanged |
| TransactionsPage.TransactionsView.OnKindSelect | web/src/routes/transactions.tsx:128-130 | page 1, the type replaced, the method and search filters unchanged |
| TransactionsPage.TransactionsView.OnMethodSelect | web/src/routes/transactions.tsx:143-145 | page 1, the method replaced, the type and search filters unchanged |
| TransactionsPage.TransactionsView.ClickPrev | web/src/routes/transactions.tsx:320-321 | disabled on page 1, otherwise max(1, p-1) |
| TransactionsPage.TransactionsView.ClickNext | web/src/routes/transactions.tsx:327-328 | disabled on the last page, otherwise min(totalPages, p+1) |
| TransactionsPage.TransactionsView.ToggleForm | web/src/routes/transactions.tsx:156 | the add form's visibility flips |
| TransactionsPage.TransactionsView.FinishAdd | web/src/routes/transactions.tsx:100-107 | on success the form closes and "Transaction added" is pushed, on failure "Error" with the message |
| TransactionsPage.TransactionsView.BeginEdit | web/src/routes/transactions.tsx:272-276 | the row becomes the edited one, with its title and numeric amount in the edit form |
| TransactionsPage.TransactionsView.CancelEdit | web/src/routes/transactions.tsx:338 | closing or cancelling the modal forgets the edited row |
| TransactionsPage.TransactionsView.SubmitEdit | web/src/routes/transactions.tsx:358-362 | an update `{ title, amount }` is sent iff the edit schema accepts the form and a row is being edited |
| TransactionsPage.TransactionsView.FinishEdit | web/src/routes/transactions.tsx:363-374 | on success "Transaction updated" and the modal closes; on failure "Update failed" |
| TransactionsPage.TransactionsView.FinishDelete | web/src/routes/transactions.tsx:284-301 | only a toast: "Transaction deleted", or "Delete failed" |
| PaymentsPage.WithField | web/src/routes/payments.tsx:140-169 | definition, transcribed: each input replaces its own field of the form and no other |
| PaymentsPage.WithFieldOverwrites | web/src/routes/payments.tsx:140-169 | two inputs to one field keep only the second |
| PaymentsPage.WithFieldCommutes | web/src/routes/payments.tsx:140-169 | inputs to different fields commute |
| PaymentsPage.InsertRow | web/src/routes/payments.tsx:96-107 | an insert is attempted iff a transaction and a method are chosen and Number(amount) > 0; the row holds exactly those four fields |
| PaymentsPage.EmptyFormRejected | web/src/routes/payments.tsx:109 | the reset form never passes the guard |
| PaymentsPage.InsertedRowEditable | web/src/routes/payments.tsx:97-104 | every inserted amount also passes the payment edit schema |
| PaymentsPage.TypedCentsInserted | web/src/routes/payments.tsx:97-107 | a typed decimal with two cents digits is inserted as exactly that amount |
| PaymentsPage.QueryFor | web/src/routes/payments.tsx:55-61 | definition, corrected (see Findings): the query has page p's window, asks for the exact count, and has a note filter exactly when the search is non-empty |
| PaymentsPage.QueryAsWritten | web/src/routes/payments.tsx:55-60 | the query as the code builds it: page p's window and the note filter, with no count asked for |
| PaymentsPage.UncountedPaymentsStayOnFirstPage | web/src/routes/payments.tsx:57-64 | as written, a successful reply gives total 0 and one page, so Prev and Next both stay on page 1 |
| PaymentsPage.CountedPaymentsReachEveryRow | web/src/routes/payments.tsx:61-64 | with the count asked for, every row lies on a page within the pager's range, and past ten payments Next leaves page 1 |
| PaymentsPage.SearchMeaning | web/src/routes/payments.tsx:60 | definition, transcribed: a row is selected iff the search is empty or its note contains it, ignoring case; a null note never matches |
| PaymentsPage.PrefillRoundTrip | web/src/routes/payments.tsx:204-205 | saving the prefilled edit form of a positive payment writes its own amount back |
| PaymentsPage.PaymentsView.constructor | web/src/routes/payments.tsx:28-42 | the initial state cells: no rows, loading, page 1, total 0, an all-empty form |
| PaymentsPage.PaymentsView.PageCount | web/src/routes/payments.tsx:116 | the page count shown is at least 1 |
| PaymentsPage.PaymentsView.Fetch | web/src/routes/payments.tsx:53-66 | the query sent asks for no count, as written; without an error, rows become the data or none and total the count or 0, so total 0 and one page when the store answers as asked; on an error both are kept |
| PaymentsPage.PaymentsView.LoadNeverPages | web/src/routes/payments.tsx:55-64 | for the view's own query, a successful reply from a store that answers as asked gives total 0 and a single page (see Findings) |
| PaymentsPage.PaymentsView.LoadTransactions | web/src/routes/payments.tsx:68-75 | the transaction options become the data, or none |
| PaymentsPage.PaymentsView.OnSearchInput | web/src/routes/payments.tsx:126-128 | typing sets the page to 1 and the search to the text |
| PaymentsPage.PaymentsView.OnFormInput | web/src/routes/payments.tsx:140-169 | an input replaces one field of the form, nothing else changes |
| PaymentsPage.PaymentsView.ClickPrev | web/src/routes/payments.tsx:249-250 | disabled on page 1, otherwise max(1, p-1) |
| PaymentsPage.PaymentsView.ClickNext | web/src/routes/payments.tsx:256-257 | disabled on the last page, otherwise min(totalPages, p+1) |
| PaymentsPage.PaymentsView.Submit | web/src/routes/payments.tsx:96-107 | the row inserted for the current form, if the guard lets it through |
| PaymentsPage.PaymentsView.FinishAdd | web/src/routes/payments.tsx:108-113 | on success all four fields are reset to "" and "Payment added" is pushed; a failure keeps the form and pushes "Error" |
| PaymentsPage.PaymentsView.BeginEdit | web/src/routes/payments.tsx:204-205 | the row becomes the edited one, with its numeric amount in the edit form |
| PaymentsPage.PaymentsView.CancelEdit | web/src/routes/payments.tsx:267 | closing or cancelling the modal forgets the edited row |
| PaymentsPage.PaymentsView.SubmitEdit | web/src/routes/payments.tsx:287-291 | an update `{ amount }` is sent iff the coerced amount is positive and a row is being edited |
| PaymentsPage.PaymentsView.FinishEdit | web/src/routes/payments.tsx:292-303 | on success "Payment updated" and the modal closes; on failure "Update failed" |
| PaymentsPage.PaymentsView.FinishDelete | web/src/routes/payments.tsx:213-230 | only a toast: "Payment deleted", or "Delete failed" |
| Validation.CustomerEditSchema | web/src/lib/validation.ts:3-10 | accepted iff the name has at least 2 characters and the phone is absent, "" or at least 5 characters; "" is normalised to absent |
| Validation.CustomerEditIssues | web/src/lib/validation.ts:4-7 | a rejection lists "Name too short" iff the name is short, then "Phone too short" iff the phone is bad, and nothing else |
| Validation.ShortPhoneRejected | web/src/lib/validation.ts:5-9 | phones of 1 to 4 characters are rejected with "Phone too short" |
| Validation.CustomerEditIdempotent | web/src/lib/validation.ts:3-10 | an accepted, normalised value is accepted again unchanged |
| Validation.CustomerAddSchema | web/src/routes/customers.tsx:26-29 | accepted iff the name has at least 2 characters and the phone is absent or has at least 5, with no exception for "" |
| Validation.BlankPhoneAddVersusEdit | web/src/routes/customers.tsx:26-29 | a blank phone is rejected when adding but accepted, as absent, when editing |
| Validation.TransactionEditSchema | web/src/lib/validation.ts:13-16 | accepted iff the title has at least 2 characters and the coerced amount is strictly positive |
| Validation.PaymentEditSchema | web/src/lib/validation.ts:19-21 | accepted iff the coerced amount is strictly positive, which is then the value |
| Validation.NonPositiveRejected | web/src/lib/validation.ts:20 | 0 and negative amounts are rejected with "Amount must be positive" |
| Validation.TypedAmountAccepted | web/src/lib/validation.ts:20 | a typed decimal with two cents digits is accepted iff positive, as exactly that amount |
| JsNumber.NatRoundTrip | web/src/routes/transactions.tsx:97 | Number() of a decimal numeral is the number it denotes |
| JsNumber.CentsRoundTrip | web/src/routes/payments.tsx:97 | Number() of "u.cc" is exactly u + cc/100 |
| JsNumber.BlankIsZero | web/src/routes/payments.tsx:97-98 | Number() of an empty or blank amount is 0, which the guards reject |
| JsNumber.TrimStart | web/src/routes/payments.tsx:97 | the result is a suffix of s, every dropped character is whitespace, and the result does not start with whitespace |
| JsNumber.TrimEnd | web/src/routes/payments.tsx:97 | the result is a prefix of s, every dropped character is whitespace, and the result does not end with whitespace |
| Toasts.WithId | web/src/components/toast.tsx:23 | definition, transcribed: the new toast has the given id and exactly the pushed title, description and variant |
| Toasts.Notice | web/src/routes/customers.tsx:104-110 | definition, transcribed: success toasts carry the success title and variant; failures the error title, the message and the error variant |
| Toasts.Without | web/src/components/toast.tsx:27-28 | the filtered list holds exactly the toasts whose id differs, and is no longer |
| Toasts.WithoutAppend | web/src/components/toast.tsx:27-28 | filtering distributes over concatenation, so order is kept |
| Toasts.WithoutCounts | web/src/components/toast.tsx:27-28 | each toast with another id keeps its multiplicity; those with the id vanish |
| Toasts.WithoutAbsent | web/src/components/toast.tsx:27-28 | dismissing an absent id changes nothing |
| Toasts.WithoutRemovesId | web/src/components/toast.tsx:27-28 | after a dismissal no toast has that id |
| Toasts.WithoutIdempotent | web/src/components/toast.tsx:27-28 | dismissing twice is dismissing once |
| Toasts.PushThenDismiss | web/src/components/toast.tsx:22-28 | pushing with a fresh id and dismissing that id restores the list |
| Toasts.PushKeepsDistinct | web/src/components/toast.tsx:22-24 | pushing with a fresh id keeps all ids distinct |
| Toasts.ToastQueue.constructor | web/src/components/toast.tsx:21 | the queue starts empty |
| Toasts.ToastQueue.Push | web/src/components/toast.tsx:22-24 | exactly one toast is appended at the end, earlier toasts unchanged |
| Toasts.ToastQueue.Dismiss | web/src/components/toast.tsx:27-28 | the list becomes the filtered one |
| Toasts.UseToast | web/src/components/toast.tsx:63-67 | definition, transcribed: fails with "ToastProvider missing" iff there is no provider, else returns it |
| Utils.Kept | web/src/lib/utils.ts:2 | the kept classes are never empty strings and are no more than the arguments |
| Utils.KeptAppend | web/src/lib/utils.ts:2 | filtering keeps argument order across a concatenation |
| Utils.KeptMembers | web/src/lib/utils.ts:2 | a class is kept iff it is a non-empty string argument |
| Utils.JoinAppend | web/src/lib/utils.ts:2 | joining a concatenation puts exactly one separator between the parts |
| Utils.JoinLength | web/src/lib/utils.ts:2 | the joined length is the parts' lengths plus one separator between neighbours |
| Utils.CnAppend | web/src/lib/utils.ts:2 | cn of two argument lists is their cn values joined by one space |
| Utils.CnNoTruthy | web/src/lib/utils.ts:2 | with no truthy argument the result is "" |
| Utils.CnDropsFalsy | web/src/lib/utils.ts:2 | a false, null, undefined or "" argument anywhere changes nothing |
| Utils.CnSingle | web/src/lib/utils.ts:2 | a single non-empty class comes back unchanged |
| Utils.EnumerationsDistinct | web/src/lib/utils.ts:5-13 | definition, transcribed: four distinct transaction types; the payment methods are exactly "whish" and "cash" |
| Text.LowerString | web/src/routes/customers.tsx:71 | definition, transcribed: case folding keeps length and folds each character |
| Text.ContainsEmpty | web/src/routes/customers.tsx:71 | every text contains the empty pattern |
| Text.ContainsAt | web/src/routes/customers.tsx:71 | a pattern occurring at some offset is contained |
| Text.ContainsSelf | web/src/routes/customers.tsx:71 | every text contains itself |
| RootRoute.BeforeLoad | web/src/routes/__root.tsx:18-23 | the only redirect ever thrown goes to "/login" |
| RootRoute.RedirectIff | web/src/routes/__root.tsx:19-21 | definition, transcribed: a redirect happens iff the session is ready, absent, and the path does not end in "/login" or "/signup" |
| RootRoute.NoRedirectUnlessSignedOut | web/src/routes/__root.tsx:20 | never a redirect before the session is ready, nor while a session exists |
| RootRoute.RedirectDoesNotLoop | web/src/routes/__root.tsx:19-21 | the target "/login" is exempt, so following a redirect never redirects again |
| RootRoute.InitialTheme | web/src/routes/__root.tsx:32-34 | definition, transcribed: the stored value when it is non-empty, otherwise "light" |
| RootRoute.Toggled | web/src/routes/__root.tsx:62-64 | the result is "dark" or "light", and "dark" iff the theme was not "dark" |
| RootRoute.ToggleTwice | web/src/routes/__root.tsx:62-64 | toggling twice restores the theme iff it is "dark" or "light"; any other stored value comes back as "light" |
| RootRoute.ToggledThemesAlternate | web/src/routes/__root.tsx:62-64 | each toggle changes the theme, and after the first one toggling alternates |
| RootRoute.ThemeCell.constructor | web/src/routes/__root.tsx:32-39 | mounting starts from the stored theme and the dark class and storage agree with it |
| RootRoute.ThemeCell.Toggle | web/src/routes/__root.tsx:35-39 | after a toggle the dark class is present iff the theme is "dark", and the theme is stored |
| RootRoute.ThemeCell.ButtonLabel | web/src/routes/__root.tsx:68 | the button shows "Light" iff the theme is dark, otherwise "Dark" |
| ServiceWorker.Open | web/public/sw.js:14 | definition, transcribed: opening the cache creates it empty when missing and changes nothing otherwise |
| ServiceWorker.AfterMiss | web/public/sw.js:17-23 | after a miss the URL is stored iff the response is a 200 whose content-type contains "text"; existing entries stay |
| ServiceWorker.FetchStep | web/public/sw.js:9-28 | non-GET and cross-origin requests pass through untouched; others are answered or fail with a network error, with the cache present; a network error only when the fetch rejected |
| ServiceWorker.CacheHit | web/public/sw.js:15-16 | a hit returns the cached response, asks the network nothing and changes no cache |
| ServiceWorker.CacheMiss | web/public/sw.js:17-24 | a miss returns the network response, which is stored iff it is storable; a rejected fetch gives a network error and stores nothing |
| ServiceWorker.NeverEvicts | web/public/sw.js:15-22 | no cache and no entry is ever removed or overwritten |
| ServiceWorker.OtherCachesUntouched | web/public/sw.js:14-22 | only the worker's own cache changes, and only at the requested URL |
| ServiceWorker.SecondRequestHits | web/public/sw.js:15-22 | after a storable miss, the same request is a hit with the stored response, whatever the network does next |
| ServiceWorker.Worker.constructor | web/public/sw.js:1-8 | the worker starts on the existing Cache Storage |
| ServiceWorker.Worker.OnInstall | web/public/sw.js:1-3 | install skips waiting and leaves Cache Storage unchanged: the declared assets are not precached |
| ServiceWorker.Worker.OnActivate | web/public/sw.js:4-6 | activation claims the clients and leaves Cache Storage unchanged |
| ServiceWorker.Worker.OnFetch | web/public/sw.js:9-28 | a fetch event answers, or fails with a network error, and updates Cache Storage exactly as FetchStep says |

## Findings

| source | as written | input that shows it | evidently intended | confidence | as-written member | corrected member |
|---|---|---|---|---|---|---|
| web/src/routes/payments.tsx:57 | `.select(...)` is given no count option, so the reply's `count` is null, the total is 0 and there is one page; Prev and Next stay disabled | eleven payments and no search: only the ten newest are ever listed | `.select(..., { count: "exact" })`, as the other two list pages do and the comment at line 61 says | not executed; high | PaymentsPage.PaymentsView.LoadNeverPages, PaymentsPage.UncountedPaymentsStayOnFirstPage | PaymentsPage.CountedPaymentsReachEveryRow |

`PaymentsView` sends the query as written (`QueryAsWritten`), so its pager behaves as the program's does. `QueryFor` is the corrected query, and `CountedPaymentsReachEveryRow` states what it would change.

## Left out

- The hosted database: queries, inserts, updates, deletes, the `customer_balances` view and the realtime channels. Each view receives only what the store answered: a reply `{ data, error, count }`, or the error of a mutation.
- How `customer_balances.outstanding` is computed. It is server-side, so nothing relates it to the per-row remaining amounts.
- The re-fetch after a successful mutation, and the fetch that the effects trigger when the page, search or filters change. A caller models each of them as a separate `Fetch` call. Fetches running concurrently and finishing out of order are not modelled.
- The add forms of the customers and transactions pages are reset internally by react-hook-form. That reset is not modelled; there is no state field for it.
- The customer detail page's own fetch sequence. Only its arithmetic is modelled: paid, remaining, highlight, and the balance split.
- `web/src/routes/transactions.$transactionId.tsx`, the auth pages, `App.tsx`, `main.tsx`, `routeTree.gen.ts`, `supabaseClient.ts`, `modal.tsx`, `ui.tsx` and `tailwind.config.js` are not part of this model. They are sign-in I/O, wiring, configuration or markup.
- Floating point: sums, `Number()` and `toFixed(2)` are modelled on exact rationals, so there is no rounding and no overflow to ±Infinity for long numerals. Dates and `toLocaleDateString` are left out.
- JsNumber.ToNumber: a numeral with its exponent or digits too large for a double yields the exact rational rather than a rounded double or Infinity.
- Ledger.Paid: payment amounts are exact numbers. The `Number(p.amount)` conversion of a database numeric is not modelled.
- ILIKE: the search text is matched as a literal substring. `%` and `_` inside the search typed by the user are not treated as wildcards. Case folding covers ASCII letters only.
- String lengths: Dafny counts characters where zod's `min` counts UTF-16 code units. They agree on text without astral characters.
- `crypto.randomUUID()` is the `id` parameter of `Push`. Its freshness is the premise of `Toasts.PushThenDismiss` and `Toasts.PushKeepsDistinct`.
- The 4200 ms auto-dismiss timer. A caller models it as a later `Dismiss` of the same id.
- Form error messages rendered under the inputs, the `isSubmitting` spinner, and the `confirm()` dialog before a delete. A declined confirmation sends nothing, so there is nothing to model.
- Service worker: `cache.put` is not awaited in the source but is applied at once here, and `res.clone()` is the same response value. `cache.match` is keyed by URL only; the request's other attributes are ignored.
- Service worker: a request the network cannot answer is `None` from the network function. The page receives it as a network error (`NetworkError`), not as an error response.
- Service worker: Cache Storage persisting across browser restarts, and several workers at once, are not modelled.
- The theme's `document.documentElement` class list and `localStorage` entry are fields of `ThemeCell`. No other effect on the document is modelled.
