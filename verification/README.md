# Budget page and registration form — a Dafny model

This project models the pure logic inside two pages of a planning web
app. The pages keep their data in Firestore and use Firebase Auth.

- **Budget page** (`frontend/src/pages/BudgetPage.tsx`):
  - Every document of a live snapshot is normalised into a strict budget
    item. Missing or malformed fields get defaults.
  - Three totals are derived from the list: estimated, actual and paid.
  - The write payloads for editing and creating an item.
  - The modal and submit state. Submitting, success and failure are separate
    states.
  - Deletion after the user confirms it.
- **Registration page** (`frontend/src/pages/RegisterPage.tsx`):
  - The password check that blocks account creation.
  - The mapping from provider error codes to the three user messages.
  - The inline mismatch hint.
  - The busy flag and the redirect to `/login` after success.

Modules, one concept each:

| file | module | contents |
|---|---|---|
| `values.dfy` | `Optional`, `Values` | `Option` with `??`, JavaScript values and truthiness, document data as `map<string, Value>` |
| `budget_items.dfy` | `BudgetItems` | `BudgetItem`, snapshot documents, normalisation |
| `budget_summary.dfy` | `BudgetSummary` | folds, filter, the three totals, the one-pass `Summarize` |
| `budget_page.dfy` | `BudgetPage` | page state, payloads, the abstract backend store, submit/delete/snapshot transitions, screen choice |
| `register_page.dfy` | `RegisterPage` | form state, error mapping, submission |

Modelling choices:

- **Money.** Money is an `int`, a number of cents. JavaScript `number` sums are
  not modelled, so sums, permutation and append properties hold exactly.
- **Raw values.** A document's data is a map from field names to JavaScript
  values (`Values.Value`). A missing key reads as `undefined`. Truthiness is
  JavaScript's: `undefined`, `null`, `false`, `0` and `""` are falsy.
- **Fields the code does not check.** The page only casts `description`,
  `category`, `status` and `notes` to their TypeScript types. So a
  `BudgetItem` keeps them as raw values. A truthy status that is not one of
  the four declared statuses passes through unchanged. Only the exact string
  `"paid"` counts as paid.
- **Clock fallback.** `Timestamp.now()` is the parameter `now` of
  normalisation.
- **Backend.** The backend is an abstract `Backend(accepts, newId, now)`:
  - `accepts` says whether the backend takes the write;
  - `newId` is the id `addDoc` would assign;
  - `now` is what `serverTimestamp()` resolves to.

  Two cases count as rejections, as they do in Firestore:
  - an update of a document that does not exist;
  - an add under an id that is already taken.
- **Store.** The store is the signed-in user's `budgetItems` collection, as a
  map from document id to document data.
- **Confirmation.** `window.confirm` is a boolean input of `Delete`.

Where what one would expect of a budget tracker and what the code does part
ways, the model follows the code:

- **Non-numeric actual cost.** Only `estimatedCost` defaults to 0. A
  non-numeric `actualCost` becomes absent, not 0 (`BudgetPage.tsx:75-76`).
- **Status not validated.** The status is not checked against its four
  declared values (`BudgetPage.tsx:77`).
- **`createdAt` on edit.** An edit writes back the *normalised* `createdAt`
  (`BudgetPage.tsx:141`). A stored document whose `createdAt` is not a
  timestamp was normalised with the client's clock, so editing it stores that
  client time. `EditOfStoredItemKeepsCreatedAt` states the guarantee the code
  does give: a stored timestamp is kept exactly.
- **No user.** Without a signed-in user the page does not subscribe. It stops
  loading and shows the login message (`BudgetPage.tsx:51-55`); see
  `Subscribe`.

## Model

| member | source | states |
|---|---|---|
| Values.Truthy | frontend/src/pages/BudgetPage.tsx:73-77 | defines JavaScript truthiness, which decides the logical-or defaults: undefined, null, false, 0 and the empty string are falsy |
| Values.Or | frontend/src/pages/BudgetPage.tsx:73-77 | JavaScript's logical or of a and b is truthy iff one operand is, is one of the two operands, and is `a` whenever `a` is truthy |
| BudgetItems.Normalise | frontend/src/pages/BudgetPage.tsx:71-82 | the item keeps its document's id, and its description and status are always truthy |
| BudgetItems.NormaliseDefaults | frontend/src/pages/BudgetPage.tsx:72-81 | falsy description becomes "Unbekannt"; non-number estimated cost becomes 0; non-number actual cost becomes absent (and only then); falsy status becomes "planned"; a non-timestamp paid or due date becomes absent; a non-timestamp createdAt becomes the `now` fallback; every value of the expected kind (description, estimated and actual cost, status, paid date, due date, createdAt), category and notes passes through unchanged |
| BudgetItems.NormaliseIgnoresClock | frontend/src/pages/BudgetPage.tsx:78 | the `Timestamp.now()` fallback affects nothing when the stored createdAt is a timestamp |
| BudgetItems.NormaliseRoundTrip | frontend/src/pages/BudgetPage.tsx:71-82 | normalising the stored form of a well-formed item gives back the same item: normalisation only fills defaults |
| BudgetItems.NormaliseSnapshot | frontend/src/pages/BudgetPage.tsx:67-84 | one item per document, same length, same order, each output id equal to its document id |
| BudgetItems.NormaliseSnapshotRoundTrip | frontend/src/pages/BudgetPage.tsx:67-84 | a snapshot of well-formed items normalises back to exactly that list |
| BudgetItems.NormaliseSnapshotAppend | frontend/src/pages/BudgetPage.tsx:68-83 | documents are processed independently and in order: normalising a concatenation concatenates the results |
| BudgetSummary.Filter | frontend/src/pages/BudgetPage.tsx:103 | the filtered list holds only items that pass the test, each passing item exactly as often as in the input (multiset equality on kept items) |
| BudgetSummary.FilterAppend | frontend/src/pages/BudgetPage.tsx:103 | filtering keeps list order: the filter of a concatenation is the concatenation of the filters |
| BudgetSummary.TotalEstimated | frontend/src/pages/BudgetPage.tsx:101 | the reduce sum of estimatedCost; with non-negative costs it is non-negative and at least every single item's estimate |
| BudgetSummary.TotalActual | frontend/src/pages/BudgetPage.tsx:102 | the reduce sum of `actualCost ?? 0`; with non-negative costs it is non-negative and at least every present actual cost |
| BudgetSummary.TotalPaid | frontend/src/pages/BudgetPage.tsx:103 | filter on status "paid", then the reduce sum of `actualCost ?? estimatedCost`; with non-negative costs it lies between 0 and totalEstimated + totalActual |
| BudgetSummary.SummaryOf | frontend/src/pages/BudgetPage.tsx:100-106 | the three totals side by side; with non-negative costs all are non-negative and totalPaid is at most totalEstimated + totalActual |
| BudgetSummary.FoldAppend | frontend/src/pages/BudgetPage.tsx:101-103 | a `reduce` sum over a concatenation is the sum of the two sums |
| BudgetSummary.FoldPermutation | frontend/src/pages/BudgetPage.tsx:101-103 | a `reduce` sum is the same for every ordering (equal multisets) of the list |
| BudgetSummary.TotalEstimatedPermutation | frontend/src/pages/BudgetPage.tsx:101 | totalEstimated does not depend on the order of the items |
| BudgetSummary.TotalEstimatedAppend | frontend/src/pages/BudgetPage.tsx:101 | totalEstimated of two lists together is the sum of their totals |
| BudgetSummary.FoldFilter | frontend/src/pages/BudgetPage.tsx:103 | summing a filtered list equals summing the whole list with rejected items counted as 0 |
| BudgetSummary.TotalActualSumsPresentCosts | frontend/src/pages/BudgetPage.tsx:102 | totalActual equals the sum of actualCost over the items that have one |
| BudgetSummary.TotalActualIgnoresMissing | frontend/src/pages/BudgetPage.tsx:102 | an item without actualCost counts as 0: appending it leaves totalActual unchanged |
| BudgetSummary.TotalPaidIsSumOfContributions | frontend/src/pages/BudgetPage.tsx:103 | filter-then-reduce equals a sum where each paid item gives actualCost if present else estimatedCost, and every other item gives 0 |
| BudgetSummary.TotalPaidAppendUnpaid | frontend/src/pages/BudgetPage.tsx:103 | an item whose status is not "paid" never changes totalPaid |
| BudgetSummary.TotalPaidAppendPaid | frontend/src/pages/BudgetPage.tsx:103 | a paid item raises totalPaid by its actualCost when present, by its estimatedCost otherwise |
| BudgetSummary.TotalPaidPermutation | frontend/src/pages/BudgetPage.tsx:103 | totalPaid does not depend on the order of the items |
| BudgetSummary.PaidScenario | frontend/src/pages/BudgetPage.tsx:103 | the single paid item with estimate 500 and actual 450 gives totalPaid 450 |
| BudgetSummary.Summarize | frontend/src/pages/BudgetPage.tsx:100-106 | one pass over the list yields the three totals the three folds define, the paid one equal to the per-item contribution sum |
| BudgetPage.Initial | frontend/src/pages/BudgetPage.tsx:40-47 | the first state: no items, loading, no error, modal closed, no item being edited, not submitting |
| BudgetPage.InitialScreens | frontend/src/pages/BudgetPage.tsx:41-58 | the first render shows the spinner; without a user the subscription step turns it into the login message; with a user it stays the spinner |
| BudgetPage.DataToSave | frontend/src/pages/BudgetPage.tsx:131-134 | every form field is carried over and modifiedAt becomes the server stamp, overriding a form field of that name |
| BudgetPage.PlanWrite | frontend/src/pages/BudgetPage.tsx:131-148 | an edit updates the edited item's id with createdAt equal to the item's original createdAt; a create adds with a server-stamped createdAt; modifiedAt is always server-stamped; every other form field is carried over, and the stamps override form keys of the same name |
| BudgetPage.Resolve | frontend/src/pages/BudgetPage.tsx:133 | stored data has the payload's keys, plain values verbatim and each `serverTimestamp()` replaced by the backend's clock |
| BudgetPage.Accepted | frontend/src/pages/BudgetPage.tsx:137-149 | defines when the backend carries out a write: it accepts, an update names an existing document, an add's new id is unused |
| BudgetPage.Commit | frontend/src/pages/BudgetPage.tsx:137-149 | a rejected write leaves the store unchanged; an accepted update overwrites exactly the supplied fields of that one document; an accepted add creates exactly one new document; no other document changes |
| BudgetPage.OpenModal | frontend/src/pages/BudgetPage.tsx:110-114 | the modal opens for the given item (or blank) with the error cleared; nothing else changes |
| BudgetPage.CloseModal | frontend/src/pages/BudgetPage.tsx:116-120 | the modal closes, editingItem becomes null, the error clears; nothing else changes |
| BudgetPage.BeginSubmit | frontend/src/pages/BudgetPage.tsx:125-126 | while a write is in flight isSubmitting is true (the form's isSaving) and the old error is cleared; nothing else changes |
| BudgetPage.FinishSubmit | frontend/src/pages/BudgetPage.tsx:150-157 | isSubmitting is reset on both paths; success closes the modal and clears editingItem; failure keeps modal and item and sets the save error; items, loading and user are untouched |
| BudgetPage.Submit | frontend/src/pages/BudgetPage.tsx:122-158 | without a user nothing changes; otherwise isSubmitting ends false, success closes the modal, the store is exactly the planned write committed to the backend (unchanged on rejection); failure keeps the modal open with the save error; only isSubmitting, modal, editingItem and error ever change in the page state |
| BudgetPage.EditKeepsCreatedAt | frontend/src/pages/BudgetPage.tsx:137-142 | an accepted edit keeps the set of ids, stores the edited item's createdAt whatever the form held, and touches no other document |
| BudgetPage.EditOfStoredItemKeepsCreatedAt | frontend/src/pages/BudgetPage.tsx:137-142 | editing an item normalised from a stored document with a timestamp createdAt leaves that stored createdAt exactly as it was |
| BudgetPage.CreateStampsServerTime | frontend/src/pages/BudgetPage.tsx:143-148 | an accepted create adds exactly one document whose createdAt and modifiedAt are the server's time |
| BudgetPage.RetryAfterFailure | frontend/src/pages/BudgetPage.tsx:150-157 | after a rejected save the store and edited item are unchanged, so resubmitting sends the same write and succeeds against an accepting backend |
| BudgetPage.Delete | frontend/src/pages/BudgetPage.tsx:160-174 | no user or declined confirmation changes nothing; accepted deletion removes exactly that id; rejection keeps the store and sets the delete error; only the error changes in the page state, so the displayed list is never changed |
| BudgetPage.Subscribe | frontend/src/pages/BudgetPage.tsx:51-58 | without a user loading stops with the login message; with one loading starts and the error clears; nothing else changes |
| BudgetPage.ApplySnapshot | frontend/src/pages/BudgetPage.tsx:66-86 | a snapshot replaces the list by exactly the normalised documents in snapshot order (item i is the normalisation of document i), ends loading, and changes nothing else |
| BudgetPage.SnapshotIsStable | frontend/src/pages/BudgetPage.tsx:66-86 | re-delivering the stored form of the displayed well-formed items only ends loading |
| BudgetPage.SnapshotIdempotent | frontend/src/pages/BudgetPage.tsx:66-86 | for every page, delivering the same snapshot twice equals delivering it once |
| BudgetPage.SnapshotFailed | frontend/src/pages/BudgetPage.tsx:87-91 | a load failure keeps the last list, shows the load error and ends loading; nothing else changes |
| BudgetPage.LoadFailureScreens | frontend/src/pages/BudgetPage.tsx:87-91 | after a load failure a non-empty list keeps the overview, an empty one shows the load error alone |
| BudgetPage.ScreenOf | frontend/src/pages/BudgetPage.tsx:178-184 | the spinner shows exactly while loading with an empty list; the error-only screen exactly when not loading, the list empty and an error set; any non-empty list shows the overview |
| BudgetPage.EmptySnapshotIsOverview | frontend/src/pages/BudgetPage.tsx:178-184 | an empty snapshot without an error is the normal overview, not an error |
| BudgetPage.VenueScenario | frontend/src/pages/BudgetPage.tsx:67-106 | a snapshot with one planned item estimated at 1000 shows estimated 1000, actual 0, paid 0 |
| RegisterPage.ErrorMessage | frontend/src/pages/RegisterPage.tsx:32-38 | "auth/email-already-in-use" and only it gives the already-in-use message, "auth/weak-password" and only it the weak-password message, every other code the generic retry message |
| RegisterPage.ErrorMessageRange | frontend/src/pages/RegisterPage.tsx:32-38 | the mapping is total with exactly three messages, each one reached |
| RegisterPage.MismatchHint | frontend/src/pages/RegisterPage.tsx:88-89 | defines the inline hint: the passwords differ and the confirmation is non-empty |
| RegisterPage.Begin | frontend/src/pages/RegisterPage.tsx:15-24 | the provider is called iff the passwords match, with the form's email and password; a mismatch sets its message and nothing else; a call starts loading with the error cleared and changes nothing else |
| RegisterPage.Finish | frontend/src/pages/RegisterPage.tsx:25-41 | loading ends on both paths; success navigates to /login; a rejection shows the mapped message and stays |
| RegisterPage.Submit | frontend/src/pages/RegisterPage.tsx:15-42 | a mismatch sets the mismatch error, makes no provider call and leaves loading as it was; otherwise the call is made, loading ends false, success navigates to /login with no error, a rejection shows the mapped message; email, password and confirmPassword never change, and only error, loading and the route can |
| RegisterPage.SubmitEndsIdle | frontend/src/pages/RegisterPage.tsx:39-41 | from an idle form, loading is false after any submission |
| RegisterPage.SubmitClearsPreviousError | frontend/src/pages/RegisterPage.tsx:17 | the error after a submission, and whether the provider is called, never depend on the error shown before |
| RegisterPage.HintAgreesWithCheck | frontend/src/pages/RegisterPage.tsx:88-89 | the inline hint implies the submission is blocked; no hint with a non-empty confirmation implies the provider is called; an empty confirmation of a non-empty password is blocked without a hint |

## Left out

- JSX rendering, MUI components and `toLocaleString` currency formatting are presentation only. `ScreenOf` models just which of the three top-level screens is shown.
- Firestore and Firebase Auth are external services. They appear only as the abstract `Backend` and `AuthOutcome` values. Path building (`users/<uid>/budgetItems`) and the per-user namespace reduce to one store for the signed-in user.
- The subscription's lifecycle is left out, because its point is asynchronous delivery: `onSnapshot` setup, teardown in the `useEffect` cleanup, and re-subscription when the user changes. Only the state effects of its callbacks are modelled: `Subscribe`, `ApplySnapshot`, `SnapshotFailed`.
- The query's `orderBy("createdAt", "desc")` is the backend's job, so the snapshot order is an input. The model proves that this order is preserved.
- `Timestamp.now()` and `serverTimestamp()` are clocks. They are parameters (`now`, `Backend.now`). One `now` serves a whole snapshot, but the source calls `Timestamp.now()` once per document inside `forEach` (`BudgetPage.tsx:68-78`). So two documents without a timestamp `createdAt` could get different fallback times there. `NormaliseSnapshot` and `NormaliseSnapshotAppend` give them one time.
- JavaScript `number` semantics are not modelled: fractions, `NaN`, `Infinity`, `-0` and floating-point rounding. Money is whole cents; a `NaN` cost, which `typeof` reports as a number, cannot be expressed.
- `BudgetItemForm` is not part of this model: its field validation, the `isSaving` flag disabling resubmission, and its prefill from `initialData` (`BudgetPage.tsx:279-287`). The form's output is an arbitrary `FormData` map. The "no second submission while one is in flight" guarantee lives in that component, so only `BeginSubmit`'s `submitting` flag is modelled.
- `console.log` and `console.error` are logging only.
- `window.confirm` is UI. It is the boolean `confirmed`.
- `event.preventDefault()` is a browser detail.
- The `BudgetItem` fields `description`, `category`, `status` and `notes` keep JavaScript values: the source never checks their declared types, so the model adds no validation.
