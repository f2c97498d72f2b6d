# ProductTracker core in Dafny

This project models the server core of ProductTracker, a shop ledger for game accounts and in-game items. Products are recorded against month records. A month record is an accounting period.

Locking a month does three things to the record:
- it marks the record locked;
- it marks it no longer active;
- it stamps its end date.

A locked month then refuses edits and deletions of its products. A locked month, and only a locked month, can be cleared of its products in bulk.

Around that ledger sit three sets of rules:
- the validation rules of the shared schema;
- the route handlers' decision logic: the role gate, price masking, profit derivation, lock/unlock dispatch and the monthly report;
- the client's translation lookup with its fallback chain.

The model has these files:
- `wrappers.dfy`: `Option` and `Result`. An error is `Err(message)`, carrying the message the source throws.
- `rows.dfy`: tables as sequences of rows in insertion order.
  - `Filter` plays the role of a `WHERE` clause.
  - `Find` returns the first matching row.
  - The generic facts about them cover sizes, keep-all and keep-none, and first index.
  - The invariants of serial ids are that they are strictly increasing and lie below the next serial value.
- `schema.dfy`: the rows and insert records of `shared/schema.ts`, the column enumerations and defaults, and the four validation schemas. A schema is modelled as a function returning the list of issues a body fails.
- `storage.dfy`: `DatabaseStorage` from `server/storage.ts`.
  - It is a class whose `seq` fields are the users, month-records, products and tasks tables, plus the next serial value of each.
  - Every storage method is one atomic step. It is specified by pure table functions (`LockRows`, `PatchProductRows`, `Filter(…, ProductOutsideMonth(id))`, …).
  - Lemmas about those table functions state what the operations promise.
  - `LockedMonthScenario` walks a month through its life: create, add a product, lock, refused edit, clear, gone.
- `routes.dfy`: the route handlers of `server/routes.ts`.
  - Each is a method over a `DatabaseStorage` returning a `Response(status, payload)`.
  - The pure rules behind them are functions with lemmas.
- `i18n.dfy`: `getTranslation` over the shipped English and Thai tables.

Modelling choices:
- Time is a parameter `now`, in milliseconds.
- Prices are mathematical reals.
- A JSON patch body (`Partial<Product>`) is a record of `Field<T>` values. Each field is `Absent`, `Null` or `Set(v)`. Setting a NOT NULL column to `Null` fails with the database's error.

Behaviour of the code worth knowing:
- A month record can be both locked and active: `POST /api/month-records` accepts `isLocked: true` together with `isActive: true`, and `CreatedRecordMayBeLockedAndActive` exhibits such a record.
- Unlocking does not reactivate a record. `UnlockAfterLock` shows that a record locked and then unlocked stays inactive and keeps its end date.
- `getActiveMonthRecords` selects on `isLocked = false`, not on `isActive`.
- Creating a product does not consult the owning month's lock.
- `PUT /api/products/:id` without a price passes a client-sent `profit` through unchecked. `ProfitOnlyUpdateStoredAsGiven` shows this.
- Price masking applies only to role `user`. An authenticated `new_user`, or any role other than `user`, sees the cost price, selling price and profit on `GET /api/products`, `/api/products/status/:status` and `/api/products/:id`. `Routes.Masked` states this through `IsPlainUser`.
- A product's `monthRecordId` has no foreign key, and creating a product never checks that the record exists. A product may therefore name a month record that does not exist, and then the lock never blocks its update or delete: `LockBlocks` is false when no record has that id, and `UpdateProduct` and `DeleteProduct` go ahead.

## Model

| member | source | states |
|---|---|---|
| Storage.DatabaseStorage.CreateUser | ProductTracker/ProductTracker/server/storage.ts:89-98 | a new user always gets role `new_user`, whatever role was supplied; a taken username is refused with nothing inserted; otherwise the user is appended with the next id and is found again by it; either way the serial advances, since a refused insert has drawn its value |
| Storage.NewUser | ProductTracker/ProductTracker/server/storage.ts:89-98 | a created user has role `new_user`, the given name and password, last activity now and total active time 0 |
| Storage.DatabaseStorage.UpdateUserActivity | ProductTracker/ProductTracker/server/storage.ts:122-138 | false with nothing changed for a missing user; otherwise only that user's row gets last activity now and the accumulated total |
| Storage.ElapsedSeconds | ProductTracker/ProductTracker/server/storage.ts:128 | the whole seconds between two instants, rounded down; non-negative when the first is not later |
| Storage.ActiveTimeAt | ProductTracker/ProductTracker/server/storage.ts:127-134 | a missing total counts as 0; a missing last visit adds nothing; with a past last visit the total never decreases |
| Storage.DatabaseStorage.GetMonthRecord | ProductTracker/ProductTracker/server/storage.ts:179-185 | the record with the id, and none exactly when no record has it |
| Storage.DatabaseStorage.GetCurrentMonthRecord | ProductTracker/ProductTracker/server/storage.ts:187-193 | none exactly when no record is active; otherwise an active record with no active record before it |
| Storage.DatabaseStorage.CreateMonthRecord | ProductTracker/ProductTracker/server/storage.ts:195-201 | the new record, built from the insert values with the next id, is appended, the serial advances, and looking up its id finds it |
| Storage.NewMonthRecord | ProductTracker/ProductTracker/shared/schema.ts:40-42 | an omitted `isActive` defaults to true and an omitted `isLocked` to false; the end date is as supplied (nullable) |
| Storage.DatabaseStorage.UpdateMonthRecord | ProductTracker/ProductTracker/server/storage.ts:203-213 | nothing for a missing record; the database's error for a null in a NOT NULL column; otherwise exactly that record is patched and returned, whatever its lock |
| Storage.FindAfterRecordPatch | ProductTracker/ProductTracker/server/storage.ts:203-213 | after a patch, looking up the id yields the patched record |
| Storage.DatabaseStorage.LockMonthRecord | ProductTracker/ProductTracker/server/storage.ts:215-225 | true exactly when the record exists; the table becomes the locked table; nothing changes for a missing id |
| Storage.LockRowsEffect | ProductTracker/ProductTracker/server/storage.ts:215-225 | a locked row is locked, inactive and ended now, with its other columns unchanged; every other row is unchanged |
| Storage.LockMissingRecord | ProductTracker/ProductTracker/server/storage.ts:215-225 | locking an id no record has leaves the table unchanged |
| Storage.LockTwice | ProductTracker/ProductTracker/server/storage.ts:218-222 | locking twice equals one lock at the second time: the flags are the same and the end date is re-stamped |
| Storage.FindAfterLock | ProductTracker/ProductTracker/server/storage.ts:215-225 | after a lock, every lookup by id yields the same record, locked if it was the target |
| Storage.UnlockAfterLock | ProductTracker/ProductTracker/server/routes.ts:477-486 | the unlock patch only clears `isLocked`; a record locked and then unlocked stays inactive with its end date |
| Storage.DatabaseStorage.ClearMonthRecordData | ProductTracker/ProductTracker/server/storage.ts:227-237 | true exactly when the record exists and is locked; then exactly its products are removed; otherwise no product is removed; month records are untouched |
| Storage.ClearEffect | ProductTracker/ProductTracker/server/storage.ts:234-236 | clearing keeps exactly the products of other months, keeps the table whole when the month has none, and splits the table's size between kept and removed rows |
| Storage.ClearEmptiesMonth | ProductTracker/ProductTracker/server/storage.ts:234-236 | after clearing, the month has no products |
| Storage.DatabaseStorage.GetAllMonthRecords | ProductTracker/ProductTracker/server/storage.ts:239-241 | every month record, in table order |
| Storage.DatabaseStorage.GetActiveMonthRecords | ProductTracker/ProductTracker/server/storage.ts:243-249 | exactly the records that are not locked, whatever their active flag |
| Storage.DatabaseStorage.GetProduct | ProductTracker/ProductTracker/server/storage.ts:251-257 | the product with the id, and none exactly when no product has it |
| Storage.DatabaseStorage.CreateProduct | ProductTracker/ProductTracker/server/storage.ts:259-271 | the new product is appended with the next id, the serial advances, and looking up its id finds it; the month's lock is not consulted |
| Storage.NewProduct | ProductTracker/ProductTracker/server/storage.ts:259-271 | a missing reception date becomes now; a missing or empty status becomes `available`; prices, month and user are as supplied |
| Storage.DatabaseStorage.UpdateProduct | ProductTracker/ProductTracker/server/storage.ts:273-302 | nothing for a missing product; the lock error, with nothing changed, when the product's current month (non-zero id, existing) is locked; the database's error for a null in a NOT NULL column; otherwise exactly that product is patched and returned |
| Storage.PatchProductRowsEffect | ProductTracker/ProductTracker/server/storage.ts:273-302 | the patch rewrites only the rows with the id |
| Storage.FindAfterProductPatch | ProductTracker/ProductTracker/server/storage.ts:273-302 | after a patch, every lookup by id yields the same product, patched if it was the target |
| Storage.DatabaseStorage.DeleteProduct | ProductTracker/ProductTracker/server/storage.ts:304-326 | false for a missing product; the lock error, with nothing removed, when its month is locked; otherwise exactly that product is removed |
| Storage.DeleteEffect | ProductTracker/ProductTracker/server/storage.ts:304-326 | deletion keeps exactly the products with other ids, and the id is no longer found |
| Storage.DatabaseStorage.GetAllProducts | ProductTracker/ProductTracker/server/storage.ts:328-330 | every product, in table order |
| Storage.DatabaseStorage.GetProductsByMonthRecord | ProductTracker/ProductTracker/server/storage.ts:332-337 | exactly the products of the month, in table order |
| Storage.DatabaseStorage.GetProductsByCategory | ProductTracker/ProductTracker/server/storage.ts:339-344 | exactly the products of the category, in table order |
| Storage.DatabaseStorage.GetProductsByStatus | ProductTracker/ProductTracker/server/storage.ts:346-352 | exactly the products with the status, in table order |
| Storage.DatabaseStorage.CreateTask | ProductTracker/ProductTracker/server/storage.ts:366-374 | the new task is appended with the next id, the serial advances, and looking up its id finds it |
| Storage.NewTask | ProductTracker/ProductTracker/server/storage.ts:366-374 | a missing or empty status becomes `started` |
| Schema.ValidateGameName | ProductTracker/ProductTracker/shared/schema.ts:125-127 | a game name passes exactly when it has at least 2 characters |
| Schema.ValidateProduct | ProductTracker/ProductTracker/shared/schema.ts:129-135 | each issue is reported exactly when its check fails: name under 3 characters, empty game account or game name, category or status outside its enumeration, a negative price; no issue exactly when all checks pass |
| Schema.ValidateTask | ProductTracker/ProductTracker/shared/schema.ts:137-140 | a short title and an out-of-enumeration status are each reported exactly when they occur; no issue exactly when neither does |
| Schema.ValidateUser | ProductTracker/ProductTracker/shared/schema.ts:142-150 | username under 3, password under 6 and role outside the enumeration are each reported exactly when they occur; a non-empty confirmation different from the password is reported exactly when the role is valid, since an invalid role aborts the parse before the object refinement runs; no issue exactly when all checks pass |
| Routes.CheckRole | ProductTracker/ProductTracker/server/routes.ts:10-23 | 401 exactly when unauthenticated; 403 exactly when authenticated without a user or with an unlisted role; the handler runs exactly otherwise |
| Routes.CheckRoleWider | ProductTracker/ProductTracker/server/routes.ts:10-23 | a gate listing more roles lets through everyone a narrower one does, and refuses the same unauthenticated callers |
| Routes.Refusal | ProductTracker/ProductTracker/server/routes.ts:12-19 | a refused caller gets 401 when unauthenticated and 403 otherwise |
| Routes.Shown | ProductTracker/ProductTracker/server/routes.ts:78-86 | a view yields a product exactly when no price is blanked, and that product's full view is the view |
| Routes.Masked | ProductTracker/ProductTracker/server/routes.ts:151-159 | for role `user` the three prices are null; every other field is as stored; other callers see the product itself |
| Routes.MaskedAll | ProductTracker/ProductTracker/server/routes.ts:78-86 | the list keeps its length and order, and each product is masked for the caller |
| Routes.ListProducts | ProductTracker/ProductTracker/server/routes.ts:71-90 | 401 when unauthenticated; otherwise every product, masked for the caller |
| Routes.ListProductsByStatus | ProductTracker/ProductTracker/server/routes.ts:115-136 | 401 when unauthenticated; otherwise the products with the status, masked |
| Routes.ShowProduct | ProductTracker/ProductTracker/server/routes.ts:138-164 | 401 when unauthenticated; 404 for a missing product; otherwise the product, masked |
| Routes.MonthRecordData | ProductTracker/ProductTracker/server/routes.ts:54-60 | the inserted record has no end date, is active unless the body says false, and is locked only if the body says true |
| Routes.CreatedRecordMayBeLockedAndActive | ProductTracker/ProductTracker/server/routes.ts:54-60 | a body asking for both flags creates a record that is locked and active at once |
| Routes.PostMonthRecord | ProductTracker/ProductTracker/server/routes.ts:50-68 | refused callers change neither the table nor the serial; otherwise the defaulted record is appended under the next id, the serial advances, and the answer is 201 |
| Routes.PreparedProduct | ProductTracker/ProductTracker/server/routes.ts:168-176 | the stored body carries the caller's user id and profit equal to selling minus cost, overriding what the client sent; all else is the body |
| Routes.PostedProductWellFormed | ProductTracker/ProductTracker/server/routes.ts:166-185 | a body that passes validation is stored as a well-formed product of the caller: enumerated category and status, non-negative prices, derived profit |
| Routes.PostProduct | ProductTracker/ProductTracker/server/routes.ts:166-185 | refused callers and an invalid body (400 with its issues) change neither the table nor the serial; otherwise the prepared product is appended under the next id, the serial advances, and the answer is 201 |
| Routes.EffectivePatch | ProductTracker/ProductTracker/server/routes.ts:192-209 | with a price in the body, profit becomes merged selling minus merged cost, where a missing or null price takes the stored one, and nothing else changes; without a price the body goes through unchanged |
| Routes.RepricingKeepsProfit | ProductTracker/ProductTracker/server/routes.ts:198-200 | an accepted price update leaves profit equal to the new selling price minus the new cost price |
| Routes.PlainUpdateKeepsProfit | ProductTracker/ProductTracker/server/routes.ts:211-219 | an update touching neither the prices nor the profit keeps a consistent profit |
| Routes.ProfitOnlyUpdateStoredAsGiven | ProductTracker/ProductTracker/server/routes.ts:211-219 | without a price in the body, a profit-only update stores an inconsistent profit as given |
| Routes.UpdateResponse | ProductTracker/ProductTracker/server/routes.ts:203-209 | an error gives 500 with its message; no product gives 404; an updated product gives 200 |
| Routes.UpdateAndAnswer | ProductTracker/ProductTracker/server/routes.ts:202-209 | 404 with nothing changed for a missing product; 500 with nothing changed for a locked month or a null in a NOT NULL column; otherwise 200 with exactly that product patched |
| Routes.PutProduct | ProductTracker/ProductTracker/server/routes.ts:187-227 | refused callers and a missing product change nothing (401/403, 404); a locked month or a null in a NOT NULL column gives 500 with nothing changed; otherwise exactly that product is patched with the effective patch and answered with 200 |
| Routes.DeleteProductRoute | ProductTracker/ProductTracker/server/routes.ts:229-240 | refused callers change nothing; 404 for a missing product; 500 with nothing removed for a locked month; otherwise exactly that product is removed, with 204 |
| Routes.LockRoute | ProductTracker/ProductTracker/server/routes.ts:464-488 | admin only; 404 for a missing record; a truthy flag locks the record; a falsy one only clears `isLocked` and answers with the record |
| Routes.ClearRoute | ProductTracker/ProductTracker/server/routes.ts:490-501 | admin only; when the record exists and is locked, its products are removed with 200; otherwise 404 with nothing removed |
| Routes.MonthlyReport | ProductTracker/ProductTracker/server/routes.ts:368-376 | the total counts every product; the sold and available counts are the sizes of the two status selections; the products are listed |
| Routes.ReportCountsAddUp | ProductTracker/ProductTracker/server/routes.ts:368-370 | sold plus available never exceeds the total, and equals it when every status is `available` or `sold` |
| Routes.SumOfProfits | ProductTracker/ProductTracker/server/routes.ts:372-376 | over products with derived profit, the sum of profits is the sum of selling prices minus the sum of cost prices |
| Routes.ReportProfitIsRevenueMinusSoldCost | ProductTracker/ProductTracker/server/routes.ts:372-376 | with derived profits, the report's total profit is its revenue minus the cost of the products sold |
| Routes.MonthlyReportRoute | ProductTracker/ProductTracker/server/routes.ts:358-389 | staff only; 400 when month or year is missing or empty; otherwise the report over the products |
| I18n.Translate | ProductTracker/ProductTracker/client/src/lib/i18n.ts:300-302 | the language's non-empty text, else the non-empty English text, else the key; the result is the key or one of those two texts, and is empty only when the key is empty and neither table has text |
| I18n.UnknownLanguageReadsAsEnglish | ProductTracker/ProductTracker/client/src/lib/i18n.ts:301 | a language not in the table reads exactly as English |
| I18n.GetTranslation | ProductTracker/ProductTracker/client/src/lib/i18n.ts:300-302 | over the shipped tables, a non-empty key never translates to the empty string |

## Left out

- HTTP, Express and passport mechanics, sessions and JSON serialisation. A handler is its decision logic: status code and payload.
- Concurrency and transactions. Several steps are separate queries in the code and single atomic steps here: the lock check-then-write in `updateProduct` and `deleteProduct`, the select-then-delete in `clearMonthRecordData`, and the read-then-update of the price-update route. The unique-username check of `createUser` is already atomic in the code, inside its one `INSERT`; the model performs that check as an explicit lookup within the same single step.
- Row order. A `SELECT` without `ORDER BY` returns rows in no guaranteed order, and an `UPDATE` can move a row within later scans. The model fixes every result to insertion order. So "in table order", "no active record before it" (`GetCurrentMonthRecord`) and "the first matching row" (`Find`) describe the model's order, and the source does not promise it.
- Floating point. Prices, profit and the report sums are mathematical reals, so nothing is said about rounding.
- Wall-clock time and `new Date()`. Time is the parameter `now`. A `new Date(startDate)` that is an Invalid Date is not modelled.
- Drizzle and Postgres plumbing other than what the storage methods observably do. A NOT NULL violation is modelled as an error with a fixed message. The unique username constraint is modelled as an error on `createUser`. Database unavailability, the 500 answers it causes and 32-bit integer overflow of serial ids are not modelled.
- Routes.PostProduct: answers a validation failure with the list of issue messages, not the single string `fromZodError` formats from them. An enumeration issue carries only the head of zod's default message, `Invalid enum value`; the text that follows it in zod (`. Expected 'Game Account' | 'In-Game Items', received '…'`, listing the allowed values and the value received) is left out.
- Schema.ValidateProduct: checks only the length, range and enumeration rules. JSON type checks are out of scope because the model's bodies are already typed. So a string where a number is due, or a missing required field, is not modelled.
- Schema.ValidateTask: checks only the title length and the status enumeration. An explicit `null` in an optional field is not modelled: `z.string().optional()` refuses it, but `Option` cannot tell it apart from an omitted field. JSON type checks are out of scope as above.
- Schema.ValidateUser: checks only the length and enumeration rules and the password refinement. An explicit `null` confirmation is not modelled, for the same reason as in `ValidateTask`. JSON type checks are out of scope as above.
- Schema.ValidateGameName: checks only the name length. JSON type checks, including the type of `createdBy`, are out of scope as above.
- String lengths count Dafny characters (code points), not JavaScript's UTF-16 code units.
- A patch cannot change a row's `id`, and a patch that sets nothing is applied as a no-op. Drizzle's refusal of an empty `set` is not modelled.
- Route ids are parsed with `parseInt(req.params.id, 10)`, so `"12abc"` reads as 12 and a non-numeric id gives `NaN`, which the database refuses with a 500. The model's routes take the id as an integer.
- `getProductsByMonth` is a stub returning every product. The report route uses `GetAllProducts` accordingly.
- The game-name, task-update and user-administration storage methods and routes (`updateUser`, `deleteUser`, `resetUserPassword`, `getAllUsers`, game-name CRUD, `updateTask`, `deleteTask` and the task queries) are not part of this model. Only `createUser`, `updateUserActivity` and `createTask` are modelled.
- The React client, apart from `getTranslation`. This includes the month-records page, which disables clearing for locked months while the server requires the lock.
- JavaScript prototype properties reached by `translations[language]` with a language such as `toString` are not modelled. Such a lookup finds no text and falls back like an unknown language.
- I18n.GetTranslation: over the shipped tables only non-emptiness is stated. The fallback chain is proved for every table by `Translate`. That every declared key has a non-empty English and Thai text is not stated, because Dafny does not prove it automatically over the 94-entry map literals.
