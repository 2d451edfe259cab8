# Loan applications core, modelled in Dafny

This project models the client-side logic of a loan-application front end.
Customers submit loan applications and log payments. Administrators review
applications and approve them, reject them with a reason, or ask for more
evidence. The model covers:

- **the fallback store** (`storage_utils.dfy`, module `StorageUtils`). This is
  a `LocalStore` object holding two lists, applications and payments. It has
  the random `APP-XXXXXX` / `PAY-XXXXXX` id generator, the append operations,
  the queries (by customer name, by id, payments by application, the id list),
  the update of one application's status, and the reset.
- **the form validators** (`validators.dfy`): name, loan amount, payment amount
  and application id.
- **the status badge class** (`formatters.dfy`, `getStatusColorClass`).
- **the administrators' dashboard** (`dashboard.dfy`). This covers the search
  and status filter, the local update applied once the backend accepts a
  status change, the workflow that the action buttons offer
  (Pending → Approved / Rejected / Evidence Required, and Evidence Required →
  Approved / Rejected), and the handlers with their guards. A rejection needs a
  reason and an evidence request needs a description.
- **the customer applications table** (`applications_table.dfy`). It searches
  the store by name. In admin mode its buttons write a status to the store and
  then patch the displayed list instead of searching again. The model proves
  that this patch gives the same list as a fresh search whenever the stored ids
  are unique. It also shows by example that the patch can differ from a fresh
  search when two rows share an id.

Two helper modules stand in for JavaScript built-ins. `seqs.dfy` holds
`filter`/`map` and "order-preserving subsequence". `text.dfy` holds `trim`,
`toLowerCase` and `includes`. `js_values.dfy` models `undefined` as `Option` and
a JS `number` as NaN, ±Infinity or a finite real.

The store's status type has three values (Pending, Approved, Rejected). The
dashboard's has four (it adds Evidence Required). They are kept as two
datatypes, `StorageUtils.Status` and `Dashboard.LoanStatus`.

Behaviour worth noting:
- The dashboard does not update the list optimistically, and it does not
  refetch. The local update happens only after the backend reports no error,
  and an error leaves the list as it was (`DashboardView.UpdatedBy`).
- `validatePaymentAmount` accepts positive infinity, since only NaN is
  excluded. `validateLoanAmount` rejects both infinities through its bounds.
- The store's `updateApplicationStatus` sets the status only. It stores no
  rejection reason or evidence description.

## Model

| member | source | states |
|---|---|---|
| `StorageUtils.CharIndex` | src/utils/storageUtils.ts:22 | `Math.floor(Math.random() * 36)` always indexes inside the 36-character alphabet |
| `StorageUtils.CharactersAreIdChars` | src/utils/storageUtils.ts:19 | every alphabet character is an upper-case letter or a digit |
| `StorageUtils.GenerateId` | src/utils/storageUtils.ts:18-25 | the id is `prefix + "-" + s`, where `s` has six characters from A–Z0–9 (so the length is `|prefix| + 7`), and the k-th character is the one the k-th random draw selects |
| `StorageUtils.LocalStore.constructor` | src/utils/storageUtils.ts:28-31 | with no stored keys, both lists read as empty |
| `StorageUtils.LocalStore.SaveLoanApplication` | src/utils/storageUtils.ts:34-48 | appends exactly one record, leaving the earlier records and the payments unchanged. The record has status Pending, copies the name and amount, has an `APP-` id and the given timestamp. If its id is new, a lookup by that id finds it |
| `StorageUtils.AppendedIsFound` | src/utils/storageUtils.ts:44-47 | a record appended under an id that no earlier record has is what `getApplicationById` returns for it |
| `StorageUtils.ApplicationsByCustomer` | src/utils/storageUtils.ts:51-56 | returns exactly the records whose lower-cased name equals the lower-cased query, each as many times as it is stored, as an order-preserving subsequence of the list |
| `StorageUtils.FindIndex` | src/utils/storageUtils.ts:70 | `findIndex`: none iff no record has the id; otherwise the position of the first record that has it |
| `StorageUtils.ApplicationById` | src/utils/storageUtils.ts:59-62 | the first record with the id, or none exactly when no record has it |
| `StorageUtils.WithStatus` | src/utils/storageUtils.ts:69-73 | the list after the update keeps its length. Every record differs from the stored one at most in its status, and that status is either the old one or the new one |
| `StorageUtils.LocalStore.UpdateApplicationStatus` | src/utils/storageUtils.ts:65-79 | returns true iff some record has the id; the list becomes `WithStatus` of the old list; payments unchanged |
| `StorageUtils.UpdateTouchesOnlyFirstMatch` | src/utils/storageUtils.ts:65-79 | the update keeps the length and changes only the status of the first matching record. It changes nothing when no record matches |
| `StorageUtils.UpdateKeepsIds` | src/utils/storageUtils.ts:73 | the update never changes an id |
| `StorageUtils.UpdateIdempotent` | src/utils/storageUtils.ts:65-79 | repeating an update changes nothing further |
| `StorageUtils.UpdateIsVisible` | src/utils/storageUtils.ts:69-75 | after the update, looking up the id gives the same record with the new status |
| `StorageUtils.LocalStore.SavePayment` | src/utils/storageUtils.ts:88-101 | appends exactly one payment with a `PAY-` id, the given application id, amount and date. The applications are unchanged. That application's payment list grows by exactly this payment |
| `StorageUtils.PaymentsAppend` | src/utils/storageUtils.ts:97-107 | appending a payment extends its own application's payment list by that payment, and leaves every other application's list unchanged |
| `StorageUtils.PaymentsByApplication` | src/utils/storageUtils.ts:104-107 | exactly the payments carrying the id, each as many times as it is stored, in stored order (an order-preserving subsequence) |
| `StorageUtils.ApplicationIds` | src/utils/storageUtils.ts:110-112 | same length as the list, and the i-th id is the i-th record's id |
| `StorageUtils.ListedIdIsFound` | src/utils/storageUtils.ts:110-112 | an id is in `getApplicationIds()` iff `getApplicationById` finds a record for it |
| `StorageUtils.LocalStore.ClearAllData` | src/utils/storageUtils.ts:115-118 | both lists are empty afterwards |
| `Seqs.Filter` | src/utils/storageUtils.ts:53-55 | `filter`: no longer than the input; every kept element occurs in the input and satisfies the predicate; every input element that satisfies it is kept |
| `Seqs.FilterCounts` | src/utils/storageUtils.ts:53-55 | `filter` keeps each satisfying element exactly as often as it occurs, and drops every other element |
| `Seqs.Map` | src/utils/storageUtils.ts:111 | `map`: same length, and position i holds the callback applied to input position i |
| `Text.Lower` | src/utils/storageUtils.ts:54 | `toLowerCase`: same length; 'A'–'Z' become 'a'–'z' and every other character is kept |
| `Text.TrimStart` | src/utils/validators.ts:4 | the result is a suffix that does not start with whitespace, and everything dropped is whitespace |
| `Text.TrimEnd` | src/utils/validators.ts:4 | the result is a prefix that does not end with whitespace, and everything dropped is whitespace |
| `Text.Trim` | src/utils/validators.ts:4 | the result is a slice of the input with only whitespace on both sides, and it neither starts nor ends with whitespace |
| `Text.TrimIgnoresPadding` | src/utils/validators.ts:4 | whitespace added before or after a string does not change its trim |
| `Text.Includes` | src/pages/Dashboard.tsx:122-123 | `includes` holds iff the term occurs at some position |
| `Validators.ValidateName` | src/utils/validators.ts:3-5 | accepts exactly the names with two non-whitespace characters at different positions |
| `Validators.TrimmedLengthCountsNonSpace` | src/utils/validators.ts:4 | trimmed length ≥ 2 iff the name has two non-whitespace characters |
| `Validators.ValidateNameIgnoresPadding` | src/utils/validators.ts:4 | leading or trailing whitespace never changes whether a name is accepted |
| `Validators.ShortOrBlankNamesRejected` | src/utils/validators.ts:3-5 | names that are all whitespace, and names shorter than two characters, are rejected |
| `Validators.ValidateLoanAmount` | src/utils/validators.ts:8-10 | accepts exactly the finite amounts with 100 ≤ a ≤ 100000, both bounds inclusive. NaN and the infinities are rejected |
| `Validators.ValidatePaymentAmount` | src/utils/validators.ts:13-15 | accepts exactly the finite amounts > 0, plus positive infinity. Zero and NaN are rejected |
| `Validators.LoanAmountIsPaymentAmount` | src/utils/validators.ts:8-15 | every valid loan amount is a valid payment amount |
| `Validators.ValidateApplicationId` | src/utils/validators.ts:18-20 | holds iff the id is defined and not the empty string |
| `Validators.ValidatorExamples` | src/utils/validators.ts:3-15 | 99.99 is rejected, 100 and 100000 are accepted, 100000.01 is rejected. A payment of 0 or NaN is rejected. `" a "` is rejected and `"Al"` is accepted |
| `Formatters.StatusColorClass` | src/utils/formatters.ts:34-44 | green iff 'Approved', red iff 'Rejected', amber for every other string. So the function is total |
| `Formatters.UnlistedStatusLooksPending` | src/utils/formatters.ts:40-42 | any status other than 'Approved' and 'Rejected' (e.g. 'Evidence Required') gets Pending's class |
| `Dashboard.FilterApplications` | src/pages/Dashboard.tsx:109-128 | the status pass followed by the search pass keeps exactly what a single pass with both conditions keeps |
| `Dashboard.FilteredIsSubsequence` | src/pages/Dashboard.tsx:110-127 | the filtered list is an order-preserving subsequence of the applications |
| `Dashboard.FilteredMembership` | src/pages/Dashboard.tsx:113-124 | an application is shown iff it passes the status filter ('all' or an equal status) and either the term is empty or the lower-cased term occurs in its lower-cased name or id |
| `Dashboard.NoFilterShowsAll` | src/pages/Dashboard.tsx:113-118 | with 'all' and an empty term, the filtered list equals the applications |
| `Dashboard.StatusFilterShowsOnlyThatStatus` | src/pages/Dashboard.tsx:113-115 | with a status selected, every shown application has that status |
| `Dashboard.WithStatus` | src/pages/Dashboard.tsx:147-153 | the length is kept. Rows with another id are unchanged. Rows with the id take the new status and the fields sent in `additionalData`, and keep everything else |
| `Dashboard.UpdateIdempotent` | src/pages/Dashboard.tsx:147-153 | applying the same local update twice equals applying it once |
| `Dashboard.UpdatedRowsShowUnderNewStatus` | src/pages/Dashboard.tsx:147-153 | after the update, every row with the id appears under the filter for its new status |
| `Dashboard.RejectionStoresReason` | src/pages/Dashboard.tsx:148-151 | a rejection merged with its reason gives status Rejected and that reason, and keeps any earlier evidence request |
| `Dashboard.OfferedActions` | src/pages/Dashboard.tsx:294-346 | Approved and Rejected rows get no buttons. Pending and Evidence Required rows can be approved or rejected. Only Pending rows offer the evidence request |
| `Dashboard.OfferedTransitions` | src/pages/Dashboard.tsx:294-346 | the offered transitions are exactly Pending → {Approved, Rejected, Evidence Required} and Evidence Required → {Approved, Rejected}. Approved and Rejected offer none |
| `Dashboard.OfferedMovesForward` | src/pages/Dashboard.tsx:294-346 | every offered button moves an application to a strictly later stage |
| `Dashboard.StageGrowsAlongPath` | src/pages/Dashboard.tsx:294-346 | along a chain of offered transitions, the k-th status is at least k stages in |
| `Dashboard.OfferedPathsAreShort` | src/pages/Dashboard.tsx:294-346 | a chain of offered transitions has at most two steps. The only two-step chain is Pending → Evidence Required → Approved or Rejected |
| `Dashboard.DashboardView.constructor` | src/pages/Dashboard.tsx:59-68 | the initial state after a successful fetch: empty term, 'all', no selection, dialogs closed, and the whole list shown |
| `Dashboard.DashboardView.FilteredApplications` | src/pages/Dashboard.tsx:109-128 | `filteredApplications` is an order-preserving subsequence of `applications`. Every shown row passes the status filter and the search. Every row that passes both is shown, as many times as it occurs in `applications` |
| `Dashboard.DashboardView.UpdateApplicationStatus` | src/pages/Dashboard.tsx:131-174 | a backend error leaves the whole state unchanged. On success the local update is applied, both dialogs close, both text fields are cleared and the selection is dropped |
| `Dashboard.DashboardView.HandleApprove` | src/pages/Dashboard.tsx:177-179 | asks for Approved with no additional fields |
| `Dashboard.DashboardView.OpenRejectDialog` | src/pages/Dashboard.tsx:182-185 | selects the application and opens the reject dialog; nothing else changes |
| `Dashboard.DashboardView.OpenEvidenceDialog` | src/pages/Dashboard.tsx:188-191 | selects the application and opens the evidence dialog; nothing else changes |
| `Dashboard.DashboardView.HandleReject` | src/pages/Dashboard.tsx:194-198 | with no selection or an empty reason nothing changes; otherwise asks for Rejected with `rejection_reason` set to the reason |
| `Dashboard.DashboardView.HandleRequestEvidence` | src/pages/Dashboard.tsx:201-205 | with no selection or an empty description nothing changes; otherwise asks for Evidence Required with `evidence_required` set to the description |
| `ApplicationsTable.LocalStatusChange` | src/components/loan/ApplicationsTable.tsx:45-49 | rows with the id get the new status and keep every other field; other rows and the length are unchanged |
| `ApplicationsTable.StoreUpdateIsLocalUpdate` | src/components/loan/ApplicationsTable.tsx:42-49 | with unique ids, the store's first-match update equals the table's all-matches patch |
| `ApplicationsTable.LocalUpdateMatchesRefetch` | src/components/loan/ApplicationsTable.tsx:44-49 | with unique ids, patching the search result equals searching the updated store again |
| `ApplicationsTable.DuplicateIdsBreakRefetchAgreement` | src/components/loan/ApplicationsTable.tsx:42-49 | without unique ids the two can differ (two rows of one customer sharing an id) |
| `ApplicationsTable.StatusButtons` | src/components/loan/ApplicationsTable.tsx:126-155 | in admin mode each of Pending, Approved and Rejected is offered exactly once, whatever the current status; outside admin mode none are |
| `ApplicationsTable.StatusBadgesDiffer` | src/components/loan/ApplicationsTable.tsx:119 | the three store statuses get three different badge classes |
| `ApplicationsTable.ApplicationsTableView.constructor` | src/components/loan/ApplicationsTable.tsx:19-23 | the initial state: empty name, empty list, not loading, no search yet, admin mode off |
| `ApplicationsTable.ApplicationsTableView.SetCustomerName` | src/components/loan/ApplicationsTable.tsx:63 | sets the name field only |
| `ApplicationsTable.ApplicationsTableView.ToggleAdminMode` | src/components/loan/ApplicationsTable.tsx:74 | flips admin mode only |
| `ApplicationsTable.ApplicationsTableView.HandleSearch` | src/components/loan/ApplicationsTable.tsx:25-39 | a name that trims to empty changes nothing. Otherwise the list becomes the store's records for that name, loading ends and the search is marked as done |
| `ApplicationsTable.ApplicationsTableView.HandleStatusChange` | src/components/loan/ApplicationsTable.tsx:41-50 | the store gets the first-match update and the list gets the all-matches patch, whatever the store returned. If the list showed the store before and the stored ids are unique, it still does afterwards |

## Left out

- `localStorage` and JSON serialisation. The two `LocalStore` fields are the
  parsed values that `getLoanApplications` and `getPayments` return. A
  malformed stored value, and the `catch` in `handleSearch` that it would
  trigger, are not modelled.
- Randomness and time. `Math.random()` is replaced by six draws in [0, 1)
  passed to `GenerateId`. `new Date().toISOString()` is an opaque string
  parameter. Id collisions are not ruled out; the model only shows what they
  break (`DuplicateIdsBreakRefetchAgreement`).
- Unicode. `trim` removes only ASCII whitespace (space, tab, LF, VT, FF, CR),
  and `toLowerCase` folds only A–Z.
- Validators.ValidateName: string length counts Unicode characters, not
  UTF-16 code units as `.length` does. So a name of one character outside
  the Basic Multilingual Plane (such as "𠮷") is rejected by the model but
  accepted by the source. Strings are not modelled as UTF-16 units.
- Non-finite amounts are not serialised. `JSON.stringify` writes NaN and
  ±Infinity as `null`, so the source would read such a record back with
  amount `null`. After `SaveLoanApplication` or `SavePayment` with such an
  amount, the `LocalStore` fields keep NaN or ±Infinity instead.
- JS numbers are NaN, ±Infinity or an exact real. Rounding, -0 and parsing
  with `parseFloat` are not modelled.
- The hosted backend: its fetch in the dashboard (lines 71–106), the update
  request itself (lines 133–140, reduced to an `Outcome`), and the remote
  data-access layer (src/utils/supabaseUtils.ts). That layer also covers
  ownership checks and remote search. src/utils/supabaseUtils.ts is not part
  of this model.
- Authentication, the admin redirect and the loading screen of the dashboard
  (src/contexts/AuthContext.tsx is not part of this model).
- Asynchrony. Each handler runs to completion. Late replies, toasts and the
  intermediate `isLoading` value are not modelled.
- `filteredApplications` is modelled as the function
  `DashboardView.FilteredApplications` of the current state. That is the
  value the effect settles on; when the effect runs is not modelled.
- The dashboard's cast of any stored string to `LoanStatus`. Rows hold one of
  the four statuses.
- The dashboard's inline badge colours (lines 283–287) and all other
  rendering.
- `formatCurrency`, `formatDateTime` and `formatDate` (wrappers over `Intl`),
  the forms, navigation and the other pages.
