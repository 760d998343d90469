# Billing dashboard data layer in Dafny

This project models the data layer of a small subscription-billing admin
dashboard, together with the pure logic around it. Two in-memory stores hold
pricing plans and customers. The dashboard derives counts and an average
price from them. Forms validate plan and customer input, tables choose what
to show, and two pages drive the stores from dialogs.

Every store is an immutable `seq` of records. Every store call is a pure
function from the old store to the new one, and the call time is an integer
parameter in milliseconds. A thrown `Error` becomes `Err(message)` of
`Wrappers.Result`. Validators are predicates, and the view choices are
functions into small datatypes.

Modules, leaf first:

- `Wrappers`: `Option` for optional properties, `Result` for calls that can throw.
- `Decimal`: `NatToString`, which writes a number in decimal the way `toString()` does, and its inverse `ParseDecimal`.
- `Seqs`: the array operations `filter`, `findIndex` and `find`, with lemmas about `filter`.
- `Text`: ASCII `toLowerCase` and `includes`.
- `Types`: `Plan`, `Customer`, the payload records, `Interval` and `Status`.
- `PlansApi` and `CustomersApi`: the two stores.
- `Dashboard`: the computed statistics.
- `CustomersTable`, `PlansTable` and `StatusBadge`: what the tables and the badge show.
- `PlanForm` and `CustomerForm`: the schemas, the defaults and the plan selector.
- `CustomersPage` and `PlansPage`: the submit handlers and the dialog state machine.

Behaviours of the code that the model keeps, even though a reader might
expect otherwise:

- Plan ids are `length + 1`, so they are not unique. Deleting "1" from the
  initial store and then creating a plan gives two plans numbered "3", and
  `update("3")` then changes the older plan (`PlansApi.IdReusedAfterDelete`).
- Customer ids are unique only because customers are never removed
  (`CustomersApi.ReachableIdsUnique`).
- The stores do no validation of their own. Validation happens only in the
  form schemas.
- The trial rule holds for customers that `startSubscription` updates. It is
  not a property of the whole store: seed customer "1" is active on a 14-day
  trial plan and has no trial end.
- The code has no monthly-recurring-revenue figure, no trial expiry and no
  past-due or cancel transition, so none are modelled.
- The plan form prefills its values with `||`. Editing a plan that has no
  trial therefore prefills a 14-day trial, and a usage rate of 0 prefills as
  no rate (`PlanForm.EditPrefillReplacesFalsyValues`).

## Model

| member | source | states |
|---|---|---|
| `Types.ParseIntervalRoundTrip` | src/types/index.ts:4 | an interval is exactly one of the literals "monthly" and "yearly", and each literal reads back as its interval |
| `Types.ParseStatusRoundTrip` | src/types/index.ts:16 | a status is exactly one of "active", "past_due", "canceled" and "trialing", and each literal reads back as its status |
| `Decimal.ParsePrinted` | src/api/plans.ts:48 | reading back the decimal id written for n gives n |
| `Decimal.NatToStringInjective` | src/api/customers.ts:54 | two numbers give the same id string exactly when they are equal |
| `Seqs.FirstIndex` | src/api/plans.ts:58 | `findIndex` returns the first position that passes the test, or -1 (`None`) exactly when no element passes |
| `Seqs.Find` | src/pages/Customers.tsx:38 | `find` returns a value exactly when some element passes the test, and the value is the first such element |
| `Text.Lower` | src/components/tables/CustomersTable.tsx:27-28 | lower-casing keeps the length and lower-cases each ASCII letter in place |
| `Text.IncludesIsSubstring` | src/components/tables/CustomersTable.tsx:27-28 | `includes` holds exactly when the needle occurs at some position of the haystack |
| `PlansApi.SeedShape` | src/api/plans.ts:7-36 | the store starts with three plans, ids "1", "2", "3" in that order |
| `PlansApi.Create` | src/api/plans.ts:45-54 | one plan is appended at the end and earlier plans are unchanged; its id is the decimal of the old length + 1, its fields are the payload and its creation time is `now`; the returned plan is the last element |
| `PlansApi.Merge` | src/api/plans.ts:61 | supplied properties replace the old ones, omitted ones are kept, and `id` and `createdAt` always survive |
| `PlansApi.MergeEmptyAndFull` | src/api/plans.ts:61 | merging an empty patch is the identity; merging a full payload makes the editable fields equal to the payload |
| `PlansApi.Update` | src/api/plans.ts:56-63 | fails with "Plan not found" exactly when no plan has the id; otherwise only the first plan with the id is replaced, by its merge, the length and every other plan are unchanged, and the merged plan is returned |
| `PlansApi.DeleteRemovesExactly` | src/api/plans.ts:65-68 | a plan remains exactly when it was present and has another id; every copy of every other plan is kept, in the original order |
| `PlansApi.DeleteIdempotent` | src/api/plans.ts:67 | deleting twice equals deleting once |
| `PlansApi.DeleteAbsent` | src/api/plans.ts:67 | deleting an id that no plan has leaves the store unchanged, without error |
| `PlansApi.IdReusedAfterDelete` | src/api/plans.ts:45-68 | after deleting "1" from the initial store, a creation yields a second plan with id "3", and updating "3" changes the older Enterprise plan |
| `CustomersApi.SeedShape` | src/api/customers.ts:7-43 | the store starts with customers "1" and "2"; "2" is trialing until exactly 14 days after its creation; "1" breaks the trial rule |
| `CustomersApi.TimeClip` | src/api/customers.ts:69 | a time value keeps the integer part of the number, truncating toward zero |
| `CustomersApi.TrialEndWholeDays` | src/api/customers.ts:68-70 | for a whole number of days d the trial ends at exactly `now + d·86 400 000` |
| `CustomersApi.Create` | src/api/customers.ts:51-61 | one customer is appended with id = decimal of old length + 1, the given email and company, status active, no plan, no trial end and creation time `now`; earlier customers are unchanged |
| `CustomersApi.StartSubscription` | src/api/customers.ts:63-80 | fails with "Customer not found" exactly when no customer has the id; otherwise only the first matching customer changes: same id, email, company and creation time, plan = the passed copy, trialing with a trial end iff trial days > 0, active with the trial end cleared otherwise |
| `CustomersApi.StartSubscriptionFollowsTrialRule` | src/api/customers.ts:68-77 | the updated customer satisfies the trial rule for the call time |
| `CustomersApi.CanonicalIdsUnique` | src/api/customers.ts:54 | in a store numbered "1".."n", two positions share an id exactly when they are the same position |
| `CustomersApi.CanonicalIdsReadBack` | src/api/customers.ts:54 | in a store numbered "1".."n", every id reads back as its position + 1 |
| `CustomersApi.CanonicalNextIdFresh` | src/api/customers.ts:54 | in a store numbered "1".."n", the id that the next `create` hands out is not yet used |
| `CustomersApi.ApplyKeepsCanonicalIds` | src/api/customers.ts:51-80 | creating a customer or starting a subscription keeps ids numbered "1".."n" in order |
| `CustomersApi.RunKeepsCanonicalIds` | src/api/customers.ts:51-80 | any sequence of store calls keeps ids numbered "1".."n" in order |
| `CustomersApi.SeedCanonical` | src/api/customers.ts:7-43 | the initial store is numbered "1", "2" in order |
| `CustomersApi.ReachableIdsUnique` | src/api/customers.ts:43-80 | in every store reachable from the initial one, customer ids are unique |
| `Dashboard.ComputeStats` | src/pages/Dashboard.tsx:15-20 | customer and plan totals are the list lengths, or 0 when a list is absent; the active figure is the number of customers whose status is active (0 when the list is absent), and it never exceeds the customer total; the average is 0 with no plans, and otherwise average × count = sum of base prices |
| `Dashboard.ActiveCountAppend` | src/pages/Dashboard.tsx:16 | appending a customer raises the active count by one exactly when that customer is active; trialing customers are not counted |
| `Dashboard.SumBetween` | src/pages/Dashboard.tsx:19 | if every base price is in [lo, hi], the sum is between count·lo and count·hi |
| `Dashboard.MeanBetween` | src/pages/Dashboard.tsx:18-20 | if every base price is in [lo, hi], the mean is in [lo, hi] |
| `Dashboard.AverageWithinRange` | src/pages/Dashboard.tsx:18-20 | the average plan price lies between the cheapest and the dearest plan |
| `CustomersTable.FilterCustomersSpec` | src/components/tables/CustomersTable.tsx:26-29 | a customer is listed exactly when the lower-cased term is a substring of its lower-cased email or company name; the list keeps the input order |
| `CustomersTable.EmptyTermKeepsAll` | src/components/tables/CustomersTable.tsx:26-29 | the empty search term lists every customer |
| `CustomersTable.FilterCustomersIdempotent` | src/components/tables/CustomersTable.tsx:26-29 | searching the result again with the same term returns the same list |
| `CustomersTable.SearchIgnoresTermCase` | src/components/tables/CustomersTable.tsx:26-29 | a term and its lower-cased form select the same customers |
| `CustomersTable.TableBody` | src/components/tables/CustomersTable.tsx:47-111 | loading comes first; "No customers yet" iff the list is empty; "No customers match your search" iff the list is non-empty and the search leaves nothing; otherwise the filtered rows |
| `CustomersTable.PlanCellOf` | src/components/tables/CustomersTable.tsx:116-125 | "No plan" iff the customer has no plan; otherwise the plan copy's name, price and interval |
| `PlansTable.FormatInterval` | src/components/tables/PlansTable.tsx:44-46 | "month" iff the interval string is "monthly", "year" for every other string |
| `PlansTable.UsageCellOf` | src/components/tables/PlansTable.tsx:100 | "N/A" iff the usage rate is absent or 0; otherwise that rate |
| `PlansTable.RowsOf` | src/components/tables/PlansTable.tsx:95-148 | one row per plan, in the input order, each built from its own plan |
| `PlansTable.RowActionsTargetRowPlan` | src/components/tables/PlansTable.tsx:113-138 | a row's edit action gets that row's plan, its delete action gets that plan's id, and its interval reads "month" iff the plan is monthly |
| `PlansTable.TableBody` | src/components/tables/PlansTable.tsx:48-95 | loading comes first; the empty state iff there are no plans; otherwise a table whose rows are, in order, the rows built from each plan |
| `StatusBadge.BadgesDistinguishStatuses` | src/components/StatusBadge.tsx:9-21 | every status has a variant and a label, and no two statuses share either |
| `PlanForm.Validate` | src/components/forms/PlanForm.tsx:25-31 | accepted iff the name has 1..50 characters, the interval is "monthly" or "yearly", the price is in [0, 100000], the rate is absent or in [0, 10] and the trial is in [0, 365]; accepted values pass through unchanged; otherwise exactly the failed checks are reported |
| `PlanForm.FractionalTrialAccepted` | src/components/forms/PlanForm.tsx:30 | a trial of 1.5 days is accepted, because integrality is not checked |
| `PlanForm.NewFormNeedsOnlyName` | src/components/forms/PlanForm.tsx:43-49 | the create defaults are "", "monthly", 0, no rate and 14, and only the empty name makes them invalid |
| `PlanForm.EditPrefillRoundTrip` | src/components/forms/PlanForm.tsx:43-49 | an untouched edit form submits the plan's own data when that data is acceptable, the trial is non-zero and the rate is not 0 |
| `PlanForm.EditPrefillReplacesFalsyValues` | src/components/forms/PlanForm.tsx:47-48 | for every acceptable plan the untouched edit form validates; it submits 14 trial days when the plan has 0 and the plan's own count otherwise, and no rate when the plan's rate is 0 and the plan's own rate otherwise, each whatever the other field is |
| `CustomerForm.Validate` | src/components/forms/CustomerForm.tsx:24-28 | accepted iff the email satisfies the email predicate and the company name has 1..100 characters; the plan id is optional and the values pass through unchanged |
| `CustomerForm.DefaultsRejected` | src/components/forms/CustomerForm.tsx:43-47 | the defaults (empty email, empty company, no plan) are rejected for the empty company name, whatever counts as an email |
| `CustomerForm.OptionsOf` | src/components/forms/CustomerForm.tsx:107-111 | one option per plan, in order and valued by plan id and showing the plan's name, price and interval; the "(N day trial)" suffix appears iff trial days > 0 and then shows that count |
| `CustomersPage.SelectedPlan` | src/pages/Customers.tsx:37-38 | a plan is chosen iff a non-empty plan id was given, the plans are loaded and one has that id; the choice is the first such plan |
| `CustomersPage.HandleSubmit` | src/pages/Customers.tsx:28-51 | the customer is created first from email and company only; a subscription to the chosen plan is started iff a plan was chosen, for the new customer's id; the dialog stays open only if that call fails |
| `CustomersPage.SubmitAlwaysCloses` | src/pages/Customers.tsx:40-50 | the subscription call cannot fail after the creation, so the dialog always closes |
| `CustomersPage.NoPlanLeavesCustomerActive` | src/pages/Customers.tsx:31-45 | with no usable plan id the new customer is active, with no plan and no trial end, and earlier customers are unchanged |
| `CustomersPage.SubscriptionTargetsNewCustomer` | src/pages/Customers.tsx:31-43 | in a store numbered "1".."n" the subscription lands on the new customer (its contact fields, the chosen plan, the trial rule) and earlier customers are unchanged |
| `PlansPage.HandleCreate` | src/pages/Plans.tsx:22-25 | the dialog opens in create mode |
| `PlansPage.HandleEdit` | src/pages/Plans.tsx:27-30 | the dialog opens editing the given plan |
| `PlansPage.HandleCancel` | src/pages/Plans.tsx:54-57 | the dialog closes and edit mode ends |
| `PlansPage.HandleOpenChange` | src/pages/Plans.tsx:78 | the dialog's own open/close request changes only whether it is open |
| `PlansPage.HandleSubmit` | src/pages/Plans.tsx:32-44 | in create mode a plan with the form's data is appended and the dialog closes; in edit mode with the id present, the first plan with that id gets the form's data, keeps its id and creation time, nothing else changes and the dialog closes; with the id absent, dialog and store stay as they were |
| `PlansPage.HandleDelete` | src/pages/Plans.tsx:46-52 | the plans with the id are removed and nothing else is: every other plan keeps its number of copies and the survivors keep their order; the dialog is untouched |
| `PlansPage.OpeningButtonDecidesCall` | src/pages/Plans.tsx:22-44 | after "New Plan" a submission always creates; after "Edit" it updates the chosen id, and on failure the dialog stays open on that plan |
| `PlansPage.EditOfDeletedPlanKeepsDialog` | src/pages/Plans.tsx:27-52 | saving an edit of a plan deleted meanwhile fails, and the dialog stays open while the store is unchanged |

## Left out

- Delays, promises and `async`: every store call is one atomic step. The unused HTTP client import is ignored.
- Query caching, cache invalidation and toast notifications: the model shows only whether a call failed. The notification text is not modelled.
- Login, logout, routing and layout: these are UI and a third-party identity provider.
- Number and date formatting (currency, `toFixed`, locale dates, ISO-8601 strings): timestamps are integer milliseconds, and the option label's text is a record of its parts.
- Floating point: prices, rates and trial days are reals, so rounding and `NaN` are not modelled.
- Text-to-number coercion in the plan form: the form values are already numbers.
- Email syntax: it is a predicate parameter of `CustomerForm.Validate`.
- The library's default error message for a bad interval: it is represented by a short fixed text.
- Unicode case mapping: `Text.Lower` lower-cases ASCII letters only.
- Aliasing of the arrays that `getAll` returns: stores are values, and `GetAll` returns the store itself.
- Duplicate React row keys when plan ids repeat: this is rendering only.
- Loading and visibility flags have no contract of their own. `isLoading` is a plain input. `CustomersPage.FormBusy` is the disjunction of the two pending flags. `CustomerForm.PlanSelectorVisible` holds when selection is requested and the plan list is non-empty.
- The "Growth Rate" card is a fixed string, not a computation.
- CustomersApi.StartSubscription: does not model the `RangeError` that `toISOString` throws when the trial end is beyond ±8.64·10^15 ms. This needs a trial of roughly 100 million days, which the form rejects but the store alone would accept.
- PlanForm.Validate: counts name length in characters rather than UTF-16 code units, so names outside the Basic Multilingual Plane are measured differently.
- CustomerForm.Validate: counts company-name length in characters rather than UTF-16 code units. A company name of 60 characters outside the Basic Multilingual Plane is 120 code units long, so the schema rejects it as too long, while the model accepts it.
