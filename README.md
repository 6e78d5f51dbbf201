# Society maintenance tracker: the household/payment store

This project models the core of a small web application that tracks monthly
maintenance payments in a residential society. The application keeps two
tables:

- **households**, with a flat number, an optional wing and an owner/renter name;
- **payments**, one row per household and (month, year), with status, amount,
  payment date, receipt id and notes.

The model covers the operations that change these tables:

- the get-or-create of a payment row;
- the dashboard, which makes sure every household has a row for the month shown;
- adding, editing and deleting a household (deleting also deletes its payments);
- recording a payment.

It also covers the schema constraints these operations must keep.

Layout:

- `models.dfy` (module `Models`): the records, a `Db` value holding both tables,
  and the schema's invariants. These are the unique flat number, the unique
  (household, month, year), payments that always name an existing household,
  and keys below their sequences. The module also holds the commit step, which
  applies a transaction only when the unique constraints hold, and the cascade
  delete.
- `ordering.dfy` (module `Ordering`): the dashboard's `ORDER BY wing, flat_number`.
  SQLite sorts a NULL wing first and compares text in binary order. The module
  proves this order total and transitive.
- `app_spec.dfy` (module `AppSpec`): every route as a function from the
  tables before to the tables after plus an outcome. Each function's
  contract states the route's effect, and lemmas relate several calls.
- `store.dfy` (module `App`): the class `Store`. It holds the two tables as
  `map` fields and the key sequences as counters. Its methods run the routes
  step by step, and each one is proved to leave `Tables()` exactly as the
  matching `AppSpec` function says. The dashboard's loop over households is a
  `while` loop with its invariants.

The form fields are method parameters. A field that is absent is `None`; a
field counts as filled when it is present and non-empty, as Python's
`not value` test decides. Each outcome of a route is an `Error` value:
`NotFound` for a 404, `MissingRequiredField` and `DuplicateHousehold` for the
warnings the forms flash, `IntegrityError` for a commit the database rejects,
and `InvalidDate` for a payment date that does not parse.

Three behaviours of the code are easy to misread:

- **Household identity.** The add and edit forms look for a duplicate by the
  pair (flat_number, wing), but the schema makes flat_number unique on its own
  (`venv/app.py:104`, `venv/models.py:14`). So the same flat number in a
  different wing passes the form check, fails at commit, and is rolled back
  (`AppSpec.AddSameFlatOtherWingRejected`). The effect is that a flat number
  names one household whatever its wing.
- **Amount.** A non-numeric amount is not an error. The form reads it with
  `type=float`, which yields "no value" for a non-number, so the payment's
  amount is simply cleared (`venv/app.py:203`). The only failure on submit is a
  date that does not parse, and it rolls back every field (`venv/app.py:204-217`).
  The message shown for it speaks of an invalid amount.
- **Expected amount.** The application has no late-payment flag, and it never
  sets `expected_amount`; a recorded payment keeps whatever that column held.

## Model

| member | source | states |
|---|---|---|
| `Models.WithoutHousehold` | venv/models.py:20 | deleting a household removes it and exactly the payments whose household_id is its id; every other row is unchanged and the store invariant (no orphans) still holds |
| `Models.FlatNumberNamesOneHousehold` | venv/models.py:14 | under the unique constraint at most one household has a given flat number |
| `Models.AtMostOnePaymentPerPeriod` | venv/models.py:40 | under the unique constraint at most one payment exists per (household_id, month, year) |
| `AppSpec.FindPayment` | venv/app.py:27-31 | the lookup returns a row of that household and period when one exists, and returns nothing only when none exists |
| `AppSpec.FindPaymentUnique` | venv/app.py:27-31 | with periods unique, the lookup returns the one matching row |
| `AppSpec.GetOrCreate` | venv/app.py:25-42 | returns a row for (household, month, year); if one existed, that row comes back and nothing changes; otherwise exactly one new row with a fresh id and status Pending is added, no other row changes, and the invariant is kept |
| `AppSpec.GetOrCreateIdempotent` | venv/app.py:25-42 | a second call with the same key returns the same row and changes nothing; the store holds one row for that key |
| `AppSpec.EnsurePayments` | venv/app.py:59-62 | the dashboard loop keeps the store invariant, leaves households unchanged and yields one payment id per listed household |
| `AppSpec.EnsurePaymentsRows` | venv/app.py:60-62 | the i-th entry of the loop's result is a payment row of the i-th household for the chosen month and year |
| `AppSpec.EnsurePaymentsKeepsRows` | venv/app.py:59-62 | payment rows that existed before the loop are present and unchanged after it |
| `AppSpec.EnsurePaymentsAddsPending` | venv/app.py:32-40 | every row the loop adds is a default Pending row for the chosen period |
| `AppSpec.EnsurePaymentsFindsExisting` | venv/app.py:59-62 | when every listed household already has its row, the loop changes nothing and returns those rows |
| `AppSpec.EnsurePaymentsIdempotent` | venv/app.py:59-65 | reloading the dashboard for the same period adds no rows and returns the same payments |
| `AppSpec.DashboardCoversEveryHousehold` | venv/app.py:56-62 | after the loop over all households, every household has a payment for the period, and there is one entry per household |
| `AppSpec.StagedHouseholdConstraints` | venv/models.py:14 | writing a household row under a new key or its own key satisfies the schema exactly when no other household uses its flat number, so `Commit` applies the write exactly then and rolls it back otherwise |
| `AppSpec.AddHousehold` | venv/app.py:91-123 | missing flat number or name, a (flat_number, wing) duplicate, and a flat number taken in another wing each leave the store unchanged, each under its own error and exactly in those cases (the last one is the `Commit` of the insert rolling back); the add succeeds exactly when both fields are filled and no household uses the flat number, and then exactly one household with the given fields is added under a fresh id and payments are untouched |
| `AppSpec.AddSameFlatOtherWingRejected` | venv/app.py:103-121 | adding an existing flat number with a different wing passes the pair check but the commit rejects it and nothing changes |
| `AppSpec.AddTwiceIsDuplicate` | venv/app.py:103-107 | after a successful add, adding the same (flat_number, wing) again reports a duplicate and changes nothing |
| `AppSpec.EditHousehold` | venv/app.py:126-166 | unknown id gives NotFound; missing fields, a pair conflict with a household of a different id, and a flat number used by another household each leave the store unchanged, exactly in those cases (the last one is the `Commit` rolling back); the edit succeeds exactly when the household exists, both fields are filled and no other household uses the flat number, and then only that household's flat number, wing and name change |
| `AppSpec.EditUnchangedSucceeds` | venv/app.py:140-145 | saving a household with its own current values succeeds and changes nothing, because the duplicate check excludes the household itself |
| `AppSpec.DeleteHousehold` | venv/app.py:169-181 | an unknown id gives NotFound with no change; otherwise the household and its payments are removed (cascade) and the invariant holds |
| `AppSpec.DeleteLeavesNoPayments` | venv/app.py:172-176 | after deletion the household is gone, no period has a payment of it, and all other households and payments are unchanged |
| `AppSpec.DateField` | venv/app.py:204-205 | a blank date field clears the date; a filled one fails exactly when it does not parse, and otherwise yields the parsed date |
| `AppSpec.PreparePayment` | venv/app.py:187-198 | the household must exist; its payment row for the period then exists and the only possible new row is that Pending row; existing rows are unchanged |
| `AppSpec.RecordPayment` | venv/app.py:184-220 | NotFound exactly for an unknown household and InvalidDate exactly for an unparsable date, both keeping only what opening the page committed; the submit succeeds exactly when the household exists and the date field is blank or parses; then the period's row carries the form's amount, date, status (default Pending), receipt id and notes, its key and expected amount are kept, every earlier row is still present, and every other row is unchanged |
| `AppSpec.RecordPaymentBadDateChangesNothing` | venv/app.py:215-217 | with an existing row, an unparsable date rolls back everything: the store is exactly as before |
| `Ordering.HouseholdLeTotal` | venv/app.py:56 | any two households are comparable under ORDER BY wing, flat_number |
| `Ordering.HouseholdLeTransitive` | venv/app.py:56 | the dashboard order is transitive |
| `Ordering.MinimumExists` | venv/app.py:56 | every non-empty set of households has one that sorts first |
| `Ordering.ListingLength` | venv/app.py:56-62 | a listing of all households has one entry per household |
| `App.Store.constructor` | venv/app.py:248 | freshly created tables are empty, satisfy the invariant, and both key sequences start at 1 |
| `App.Store.OrderedHouseholdIds` | venv/app.py:56 | returns every household exactly once, sorted by wing (NULL first) then flat number |
| `App.Store.GetOrCreatePaymentRecord` | venv/app.py:25-42 | leaves the tables and returns the row exactly as `AppSpec.GetOrCreate` gives |
| `App.Store.Index` | venv/app.py:46-65 | the period defaults to today's month and year; the rows list every household once in dashboard order, each with its payment, and the tables become those of `AppSpec.EnsurePayments` |
| `App.Store.EnsurePaymentRows` | venv/app.py:59-62 | the loop's rows name the given households in order and the payments and tables of `AppSpec.EnsurePayments` |
| `App.Store.AddHousehold` | venv/app.py:91-123 | ends in the tables and outcome of `AppSpec.AddHousehold` |
| `App.Store.EditHousehold` | venv/app.py:126-166 | ends in the tables and outcome of `AppSpec.EditHousehold` |
| `App.Store.DeleteHousehold` | venv/app.py:169-181 | ends in the tables and outcome of `AppSpec.DeleteHousehold` |
| `App.Store.OpenPaymentForm` | venv/app.py:184-198 | ends in the tables and outcome of `AppSpec.PreparePayment` |
| `App.Store.RecordPayment` | venv/app.py:184-220 | ends in the tables and outcome of `AppSpec.RecordPayment`; the field assignments made before a failed date parse do not persist |

## Left out

- Flask routing, templates, flash messages and redirects: each route's outcome is an `Error` value or the new tables; what is rendered is not modelled.
- The `db-init` command, configuration and environment loading (`venv/app.py:13-22`, `venv/app.py:238-252`): only the empty tables that `create_all` produces are modelled, as the `Store` constructor.
- Session internals (pending objects, expiry, lazy loading, autoflush): a commit is the `Commit` step and a rollback leaves the committed tables as they were.
- Concurrency: two requests racing to create the same payment row are not modelled; the model is one request at a time.
- Amounts are floats; the model keeps them as opaque `real` values and never computes with them. The `type=float` coercion happens before the model sees the form, so a non-numeric amount arrives as "no value".
- Parsing the payment date with `strptime` is the parameter `parseDate`, and today's date is the parameter `today`.
- `created_at` timestamps, `calendar.month_name`, and the month and year lists of the dashboard are not modelled.
- Column length limits (`String(20)` and the like) are not enforced by SQLite and are not modelled.
- The order `wing, flat_number` is SQLite's, with NULL first. Other databases may place NULL last.
- New keys come from a counter that never hands out a key twice. SQLite without AUTOINCREMENT may reuse the largest deleted key, and this is not modelled.
- The foreign key from payments to households is not enforced by SQLite by default. The model keeps it as an invariant that every operation preserves.
- The error path of `index` (rollback and an empty dashboard) is not modelled, because nothing in the modelled operations raises there. Storage failures other than unique-constraint violations are not modelled either.
- When an edit hits a duplicate, the household object is changed only to refill the form. These changes are never committed and are discarded with the session; the model leaves the tables unchanged.
