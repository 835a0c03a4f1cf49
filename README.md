# CashFlow-Tracker ledger rules in Dafny

This project models the transaction and category ledger of CashFlow-Tracker, a
Django personal cash-flow tracker, and proves properties of that model:

- **Transactions.** A transaction's type must match its category's type, and a
  stored transaction always passed `full_clean`. `signed_amount` turns the
  per-type amounts into a net balance. The default order is newest first.
- **The transaction form.** It offers choices scoped to the user, runs three
  ordered cross-field checks, and then saves.
- **The transaction list.** The user's ledger is narrowed by type, category,
  case-insensitive search and a period window relative to `today`, but only
  when the filter form built from the query string is valid. Totals,
  net balance and count are computed over the result.
- **Categories.** (user, name, type) is unique. The list and JSON views are
  filtered and scoped to the user. The form holds the duplicate-name check.
- **The `create_default_categories` command.** It runs an idempotent
  `get_or_create` loop that counts the categories it creates.
- **The cache signals.** They evict two per-user dashboard keys after every
  save or delete and touch nothing else.
- **The older `finance` dashboard.** It shows the five most recent incomes and
  expenses and their totals.

## Model structure

- **Amounts** are integers in cents. `DecimalField(max_digits=12,
  decimal_places=2)` allows at most 999 999 999 999 cents.
- **Dates** are proleptic Gregorian dates with Python's day numbering
  (`Dates.Ordinal`). The clock (`timezone.now()`) becomes a `today` or `now`
  parameter.
- **Querysets** are sequences. Each `.filter(...)` step is `Common.Keep`, which
  keeps order. Ordering is an insertion sort by the model's `Meta.ordering`.
- **State.** The database tables are classes: `CategoryModel.CategoryStore`
  and `TransactionModel.TransactionStore`. Each holds its rows in a `seq` and
  keeps an invariant. The process-wide cache is `CacheSignals.DashboardCache`,
  a class holding a `map` from key to value.
- **Views, forms and the management command** are methods over those classes.
  The pure query and form logic is functions, and the properties are lemmas.
- **The amount guard.** `clean` in both the model and the form rejects an
  amount only `if amount and amount <= 0`, which lets a zero amount through
  (see Findings). `TransactionModel.AmountGuard` names the guard:
  `AsWritten` is the program as it stands, and `Corrected` also rejects
  zero. `full_clean`, the form's `clean` and `is_valid` take the guard as a
  parameter. The transaction table holds it as a constant, and the views
  are proved for whichever guard their table holds. So every view property
  holds for the program as written, and where the corrected guard gives
  more (positive amounts and totals), the contract says so for
  `Corrected`.
- **Outcomes.** A view's result is a `Common.Outcome`: saved, deleted,
  invalid (the form is shown again), not found, or `ServerError`, an
  exception that escapes the view. A server error comes from creating a
  transaction whose category the form dropped, or from saving a category
  whose (user, name, type) is already taken.
- **Query strings** are posted values, field by field: the list views
  decide the filter form's validity from them, as `is_valid()` does.

Modules follow the source files:

| module | source |
|---|---|
| `TransactionModel` | transactions/models.py |
| `TransactionForms` | transactions/forms.py |
| `TransactionViews` | transactions/views.py |
| `CacheSignals` | transactions/signals.py |
| `CategoryModel` | categories/models.py |
| `CategoryForms` | categories/forms.py |
| `CategoryViews` | categories/views.py |
| `DefaultCategories` | categories/management/commands/create_default_categories.py |
| `FinanceViews` | finance/views.py |
| `Common` | shared helpers: Option, the views' `Outcome`, `Keep`, `SumOf`, `Take` |
| `Text` | shared helpers: ASCII case folding, substring search, decimal rendering |
| `Ordering` | shared helpers: string order, stable sort |
| `Dates` | shared helpers: calendar, ordinals, `%Y%m%d` |

## Model

A function that only computes a value the source computes (`SignedAmount`,
`ComputeStats`, `TransactionList`, `CategoryList`, `DashboardView` and the
like) has no row of its own: its meaning is stated by the lemma about it,
whose row cites the same lines (`NetIsIncomeMinusExpense`, `StatsMeaning`,
`TransactionListMeaning`, `CategoryListContents`, `DashboardTotals`).

| member | source | states |
|---|---|---|
| TransactionModel.CleanWith | transactions/models.py:37-52 | `clean` under either guard: a category of the other type is rejected first; then an amount below the guard's minimum (0 as written, 1 cent corrected); it passes exactly when the types match and the amount is at least that minimum |
| TransactionModel.CleanAsWritten | transactions/models.py:37-52 | `clean` as written: a category of the other type is rejected first; otherwise only a strictly negative amount is rejected, so it passes exactly when the types match and amount >= 0 |
| TransactionModel.Clean | transactions/models.py:37-52 | corrected `clean`: a type mismatch first, then an amount <= 0; it passes exactly when the types match and the amount is positive |
| TransactionModel.ZeroAmountPassesClean | transactions/models.py:49-52 | a concrete record with amount 0 passes `clean` as written but is rejected with the amount error by the corrected check |
| TransactionModel.CleanDiffersOnlyAtZero | transactions/models.py:49-52 | the written and corrected checks disagree exactly on records with matching types and amount 0 |
| TransactionModel.FullCleanMeans | transactions/models.py:16-52 | `full_clean` passes iff the category has the record's type, the guard's minimum <= amount <= 999 999 999 999 cents (so 0 <= amount as written), the description has 1..255 characters and the date is a real date; the corrected guard accepts a subset, and the two differ exactly on amount 0 |
| TransactionModel.NetIsIncomeMinusExpense | transactions/models.py:58-64 | the sum of `signed_amount` over any rows equals the income amounts' sum minus the expense amounts' sum |
| TransactionModel.SignTellsKind | transactions/models.py:58-64 | for a record that passed `full_clean`, `signed_amount` is the amount (>= 0) for income and its negation (<= 0) for expense; it is 0 iff the amount is 0, which only the written guard allows; with the corrected guard it is positive iff income and negative iff expense |
| TransactionModel.CategoryDisplay | transactions/models.py:66-71 | `category_display` is the category's icon, a space and its name; the category is a required foreign key (transactions/models.py:15), so the empty-string branch is never reached |
| TransactionModel.NewerFirstIsPreorder | transactions/models.py:27 | ordering by (-date, -created_at) is total and transitive |
| TransactionModel.OrderedTransactions | transactions/models.py:27 | the default order is a permutation of the rows, sorted by date descending, then creation time descending |
| TransactionModel.OrderedByDateDescending | transactions/models.py:27 | in default order no transaction comes before a later-dated one |
| TransactionModel.OwnedTransactions | transactions/views.py:15 | `filter(user=user)` keeps exactly the user's transactions |
| TransactionModel.FindOwnedTransaction | transactions/views.py:96 | `get_object_or_404(pk=, user=)` finds a row with that key owned by that user, and fails iff there is none (another user's row counts as missing) |
| TransactionModel.TransactionStore.Create | transactions/models.py:54-56 | `save()` of a new record runs `full_clean` with the table's guard first: it inserts with the next key and creation time iff the record is clean, and otherwise changes nothing; the table invariant is kept |
| TransactionModel.TransactionStore.Update | transactions/models.py:54-56 | `save()` of an existing record: succeeds iff clean under the table's guard and the key exists, overwriting that row only |
| TransactionModel.TransactionStore.Delete | transactions/views.py:120 | `delete()` removes exactly the rows with that key and keeps the table invariant |
| TransactionModel.StoredRowsAreClean | transactions/models.py:54-56 | every stored row has a category of its own type and an amount >= 0 (>= 1 cent with the corrected guard), so income rows have signed amount >= 0 and expense rows <= 0; with the corrected guard the sign gives the type |
| TransactionForms.CategoryChoices | transactions/forms.py:48-65 | with a user, the choices are that user's categories, and when editing only those of the instance's type; without a user, all categories |
| TransactionForms.ChoiceById | transactions/forms.py:54-65 | a posted category key is accepted iff it is among the choices, and then names that category |
| TransactionForms.CleanFields | transactions/forms.py:76-80 | `cleaned_data` holds the type, the category iff its key is a valid choice, and the amount iff it fits the column |
| TransactionForms.FieldErrors | transactions/models.py:16-19 | each field is in error iff its own validation fails (missing type, invalid choice, description not 1..255, amount too wide, no valid date) |
| TransactionForms.FormCleanWith | transactions/forms.py:76-102 | `clean` under either guard: type mismatch, then foreign category, then an amount below the guard's minimum; each error is reported iff its condition holds and no earlier check fired |
| TransactionForms.FormCleanAsWritten | transactions/forms.py:97-100 | as written, the amount error is raised iff the amount is negative and no earlier check fired; it differs from the corrected check only by accepting amount 0 |
| TransactionForms.FormClean | transactions/forms.py:76-102 | the checks run type mismatch, then foreign category, then amount <= 0, and each error is reported iff its condition holds and no earlier check fired |
| TransactionForms.ZeroAmountPassesFormClean | transactions/forms.py:97-100 | a zero amount with a matching, owned category passes `clean` as written and is rejected by the corrected check |
| TransactionForms.ValidFormMeans | transactions/forms.py:76-102 | a valid form has every value, a category of the chosen type owned by the form's user, a description of 1..255 characters, a real date, and the guard's minimum <= amount <= the column maximum (0 <= amount as written, 0 < amount corrected) |
| TransactionForms.ValidFormDiffersOnlyAtZero | transactions/forms.py:97-100 | a form valid with the corrected guard is valid as written, and a form valid only as written has amount 0 |
| TransactionForms.DroppedCategoryIsInvalid | transactions/forms.py:83-94 | when 'category' is missing from `cleaned_data` (invalid choice, or `clean` raised its error on 'category'), the form is invalid |
| TransactionForms.OwnershipCheckUnreachable | transactions/forms.py:91-94 | with a user, the ownership error can never be raised under either guard, since the choices hold only that user's categories |
| TransactionForms.EditKeepsType | transactions/forms.py:54-61 | a valid edit by a user keeps the instance's transaction type, under either guard |
| TransactionForms.ValidFormFillsCleanRecord | transactions/forms.py:104-109 | the instance filled from a form valid under a guard passes the model's `full_clean` under the same guard, so `save()` never fails validation |
| TransactionForms.Save | transactions/forms.py:104-110 | on a form valid under the table's guard, the saved instance carries the cleaned values and the form's user (when given), keeps the key and creation time when editing, gets the next key and `now` when new, and is clean; it is written only when `commit` is true, appended when new and overwritten in place when editing |
| TransactionForms.FilterCategoryChoices | transactions/forms.py:166-171 | the filter form offers no categories without a user, and otherwise the user's categories in (type, name) order |
| TransactionForms.FilterCategoryChoicesContents | transactions/forms.py:129-134 | the filter choices are exactly the user's categories, and none without a user (`Category.objects.none()`) |
| TransactionForms.ParsePeriod | transactions/forms.py:114-121 | a period is accepted iff it is one of '', 'today', 'week', 'month', 'year', 'custom'; '' is all time |
| TransactionForms.CleanTransactionFilter | transactions/forms.py:122-171 | the filter form is valid iff the type and period are among their choices, both dates are empty or parse as real dates, and the category key is empty or names one of the form's choices (the user's categories); when valid, the cleaned values are the posted ones, and a chosen category belongs to the user |
| TransactionForms.ForeignCategoryInvalidatesFilter | transactions/forms.py:129-134 | a category key that names no category of the user (another user's, or an unknown key) makes the filter form invalid |
| TransactionViews.ByPeriodContents | transactions/views.py:39-53 | the period step keeps exactly the rows inside its window: today, >= today-7 with no upper bound, same year and month, same year, or the optional inclusive custom bounds |
| TransactionViews.FilteredByCleanForm | transactions/views.py:15-53 | over the cleaned filter form: exactly the user's rows; when the form is valid, only those matching type, category, case-insensitive description-or-notes search and period |
| TransactionViews.FilteredContents | transactions/views.py:15-53 | over the query string as posted: when the filter form is valid, exactly the user's rows of the posted type, category key and search term within the period; when it is not (an unknown choice, an unparsable date, a category not among the user's), the whole of the user's ledger |
| TransactionViews.WeekWindowIsDateGte | transactions/views.py:42-44 | the week window on day numbers is the same as `date >= today - timedelta(days=7)` |
| TransactionViews.StatsMeaning | transactions/views.py:55-62 | each total is absent iff no row has its type and otherwise sums that type's amounts; the net balance is the sum of signed amounts; the count is the number of rows |
| TransactionViews.SqlSumMeaning | transactions/views.py:56-61 | an SQL `SUM` is `None` iff no row has the type; read as 0 when absent, it is the sum over that type |
| TransactionViews.TotalsNonNegative | transactions/views.py:56-59 | over stored transactions a present total is >= 0 as written (zero-amount rows can make it 0) and > 0 with the corrected guard |
| TransactionViews.TransactionListMeaning | transactions/views.py:14-62 | for a posted query, the page lists only the user's transactions, a permutation of the filtered set in default order, and the statistics describe exactly the listed rows |
| TransactionViews.CategoriesOfType | transactions/views.py:134-152 | the endpoint returns no categories unless the type is 'income' or 'expense', and sorts by name |
| TransactionViews.CategoriesOfTypeContents | transactions/views.py:132-152 | the categories returned are exactly the user's categories of the requested type, and none for any other type value |
| TransactionViews.GetCategoriesByType | transactions/views.py:130-152 | one JSON entry (id, name, display name, icon, color) per returned category, in order |
| TransactionViews.CreateTransaction | transactions/views.py:78-92 | a server error, with nothing written, iff 'category' is dropped from `cleaned_data` (the model's `clean` then reads a missing category, transactions/models.py:41); saved iff the form is valid under the table's guard with the user's categories as choices; the one appended row holds the posted type, category, description, amount, date and notes, belongs to the user with a category the user owns, has the next key and `now` as creation time, and is clean; the user's keys for its date are evicted; otherwise nothing changes |
| TransactionViews.ApplyCreate | transactions/views.py:81-82 | `form.save()` and the save signal for a valid form: one row appended holding the posted values, the next key and `now`, and the cache evicted for its date |
| TransactionViews.EditTransaction | transactions/views.py:95-112 | not found iff the user owns no row with that key; for a found row, saved iff the form is valid under the table's guard with the user's categories of the row's type as choices; a saved edit keeps the key, type and creation time, overwrites only that row with the posted values and category, and evicts the keys of the new date; otherwise nothing changes; never a server error |
| TransactionViews.ApplyEdit | transactions/views.py:99-101 | `form.save()` and the save signal for a found row and a valid form whose choices have the row's type: the other rows are unchanged and the edited row keeps key, type and creation time, holds the posted values and is clean |
| TransactionViews.DeleteTransaction | transactions/views.py:115-127 | not found iff the user owns no row with that key, and then nothing changes; otherwise deleted: the row is removed and the keys of its user and date are evicted |
| CacheSignals.StaleKeys | transactions/signals.py:11-14 | the handlers delete two distinct keys |
| CacheSignals.KeysDistinct | transactions/signals.py:12-13 | the date key never equals the user key |
| CacheSignals.KeyNamesOwner | transactions/signals.py:12-13 | keys built for different user ids never coincide |
| CacheSignals.DateKeyNamesDate | transactions/signals.py:12 | the date key determines its date |
| CacheSignals.Evict | transactions/signals.py:11-14 | after eviction both keys are absent, every other key is present iff it was before, and values are unchanged |
| CacheSignals.EvictIdempotent | transactions/signals.py:11-14 | evicting twice equals evicting once |
| CacheSignals.EvictSparesOtherUsers | transactions/signals.py:11-14 | another user's date keys and user key survive |
| CacheSignals.EditLeavesOldDateKey | transactions/signals.py:12 | after an edit that changes the date, the key for the old date stays in the cache |
| CacheSignals.DashboardCache.DeleteMany | transactions/signals.py:11 | `delete_many` removes exactly the listed keys |
| CacheSignals.DashboardCache.OnSave | transactions/signals.py:6-14 | the save handler leaves the cache as `Evict` of the old cache for the instance's user and date |
| CacheSignals.DashboardCache.OnDelete | transactions/signals.py:16-24 | the delete handler evicts the same keys as the save handler |
| CategoryModel.ParseKind | categories/views.py:99-103 | only 'income' and 'expense' name a type, and each names the type whose stored string it is |
| CategoryModel.ParseKindName | categories/models.py:7-10 | each type's stored string reads back to that type |
| CategoryModel.NewCategory | categories/models.py:56-58 | a category without explicit values gets icon '💰', color '#FF6B6B' and `is_default` False |
| CategoryModel.DisplayName | categories/models.py:71-73 | `display_name` is the icon, a space and the name |
| CategoryModel.SameNameBothKinds | categories/models.py:66 | the same name may be used once as income and once as expense for one user |
| CategoryModel.KindRankIsStringOrder | categories/models.py:65 | 'expense' sorts before 'income', so expense categories come first |
| CategoryModel.TypeThenNameIsPreorder | categories/models.py:65 | ordering by (category_type, name) is total and transitive |
| CategoryModel.ByNameIsPreorder | transactions/views.py:138 | ordering by name is total and transitive |
| CategoryModel.Ordered | categories/models.py:65 | the default order is a permutation sorted by (type, name) |
| CategoryModel.OrderedByName | transactions/views.py:135-138 | `order_by('name')` is a permutation sorted by name |
| CategoryModel.OwnedBy | categories/views.py:12 | `filter(user=user)` keeps exactly the user's categories |
| CategoryModel.OwnedOfKind | categories/views.py:36-37 | `filter(user=, category_type=)` keeps exactly the user's categories of that type |
| CategoryModel.Lookup | categories/management/commands/create_default_categories.py:55-58 | lookup by (user, name, type) finds a matching row, and fails iff none exists |
| CategoryModel.FindOwned | categories/views.py:63 | `get_object_or_404(pk=, user=)` finds the user's category with that key, and fails iff there is none |
| CategoryModel.CategoryStore.GetOrCreate | categories/management/commands/create_default_categories.py:55-64 | creates iff no row has the key; an existing row is returned untouched; a new row carries the key and the given defaults; uniqueness is kept |
| CategoryModel.CategoryStore.Insert | categories/views.py:47-49 | a new category is stored iff its key is free (the database's unique constraint) |
| CategoryModel.CategoryStore.Update | categories/views.py:68 | an edit is stored iff the key exists and no other row has the new (user, name, type); only that row changes |
| CategoryModel.CategoryStore.Delete | categories/views.py:87 | removes exactly the rows with that key and keeps the invariant |
| CategoryForms.KindSeenByCleanName | categories/forms.py:47-49 | while `clean_name` runs, the type is not yet in `cleaned_data` |
| CategoryForms.CheckName | categories/forms.py:47-61 | the duplicate error is raised iff another category of the user has the name and type, the edited instance excluded; otherwise the name is returned unchanged |
| CategoryForms.AsWrittenNeverRejects | categories/forms.py:47-61 | as written, `clean_name` accepts every name |
| CategoryForms.DuplicateSlipsThrough | categories/forms.py:47-61 | a concrete duplicate passes as written and is rejected by the corrected check |
| CategoryForms.CleanName | categories/forms.py:47-61 | corrected `clean_name` rejects iff another category of the user has the same name and submitted type (the edited instance excluded) |
| CategoryForms.CleanNameGuardsInsert | categories/forms.py:52-59 | a new category passes the corrected check iff inserting it does not violate the unique constraint |
| CategoryForms.CleanNameGuardsUpdate | categories/forms.py:52-59 | an edit passes the corrected check iff no other row has the edited (user, name, type), i.e. iff the update does not violate the unique constraint |
| CategoryForms.FormValidAsWrittenIsFieldsValid | categories/forms.py:47-61 | as written, the form is valid iff its fields are |
| CategoryForms.ColorChoiceLabels | categories/forms.py:36-39 | color choices keep their order and values, with label "label (value)" |
| CategoryForms.IconChoiceLabels | categories/forms.py:42-45 | icon choices keep their order and values, with label "value label" |
| CategoryForms.CleanCategoryFilter | categories/forms.py:63-75 | the category filter form is valid iff the posted type is '', 'income' or 'expense'; when valid, the cleaned type and search term are the posted ones |
| CategoryViews.CategoryListContents | categories/views.py:12-26 | for a posted query with a valid filter form, exactly the user's categories of the posted type (if any) whose name contains the search term (if any); with an unknown type, all of the user's categories; in (type, name) order |
| CategoryViews.CountsCoverOwned | categories/views.py:36-37 | the income and expense counts ignore the filters and together count all of the user's categories |
| CategoryViews.ApiSelectionContents | categories/views.py:99-103 | the JSON list narrows by type only for 'income' or 'expense', and otherwise returns all of the user's categories |
| CategoryViews.CategoryApiList | categories/views.py:105-114 | one entry (id, name, display name, icon, color, type) per selected category, in order |
| CategoryViews.CreateCategory | categories/views.py:42-59 | invalid iff a field is invalid, including a missing or unknown posted type (the form as written checks nothing more); saved iff the form with the corrected name check is valid, appending exactly the new category of the requesting user; a server error iff the fields are valid but the user already has that name and type (the unique constraint fails); otherwise nothing changes |
| CategoryViews.EditCategory | categories/views.py:61-79 | not found iff the user owns no category with that key; otherwise invalid iff a field is invalid (a missing or unknown type among them), saved iff the form with the corrected name check is valid, overwriting only that category's name, type, icon and color, and a server error iff another category of the user has the new name and type; otherwise nothing changes |
| CategoryViews.DeleteCategory | categories/views.py:81-94 | not found iff the user owns no category with that key, and then nothing changes; otherwise deleted: exactly the rows with that key are removed |
| DefaultCategories.OtherIsSeededTwice | categories/management/commands/create_default_categories.py:26-46 | 'อื่นๆ' is both an income and an expense default, and both can coexist |
| DefaultCategories.SelectUsers | categories/management/commands/create_default_categories.py:18-23 | `--user-id` selects only that user; absent (or 0, which `if user_id:` treats as absent) selects all users |
| DefaultCategories.SeedKind | categories/management/commands/create_default_categories.py:54-67 | one inner loop: every seed of the type is then present for the user, only seed rows are appended, the count is the number appended, and nothing is appended when all were present |
| DefaultCategories.SeedUser | categories/management/commands/create_default_categories.py:53-83 | both inner loops: the user then has every default of both types, and nothing is added if they already did |
| DefaultCategories.SeedUsers | categories/management/commands/create_default_categories.py:50-83 | the outer loop: every selected user is seeded, rows are only appended, the count equals the rows added and is at most (defaults × users) |
| DefaultCategories.Handle | categories/management/commands/create_default_categories.py:17-83 | existing rows are kept; every selected user has all 15 defaults; new rows are flagged default with a seed's name, icon and color; `created_count` equals the rows added and is <= 15 per user; a rerun creates nothing and changes nothing |
| FinanceViews.LaterFirstIsPreorder | finance/views.py:7-8 | `order_by('-date')` is total and transitive |
| FinanceViews.Mine | finance/views.py:7 | keeps exactly the user's rows |
| FinanceViews.LatestFirst | finance/views.py:34-36 | the list is a permutation of the user's rows, sorted by date descending |
| FinanceViews.LatestFirstContents | finance/views.py:34-58 | the list views hold exactly the user's rows, with none before a later-dated one |
| FinanceViews.RecentAreLatest | finance/views.py:7-8 | the recent slice holds min(5, n) of the user's rows, newest first, and no unlisted row of the user is newer |
| FinanceViews.DashboardTotals | finance/views.py:6-21 | a total is 0 when the user has no rows in that table; with at most five rows it is the user's whole total, and with at most five of each the balance is whole income minus whole expense |
| FinanceViews.RecentIsAllWhenFew | finance/views.py:10-11 | with at most five rows, the recent slice sums to the user's full total |
| Text.IContainsCaseBlind | transactions/views.py:33-36 | an exact occurrence is a case-insensitive one, and a term that differs only in case finds the same rows |
| Text.EmptyTermAlwaysFound | transactions/views.py:33 | the empty term matches everything, so skipping the search for "" changes nothing |
| Dates.OrdinalOrder | transactions/views.py:43-53 | date comparison agrees with day-number comparison |
| Dates.MinusDaysOrdinal | transactions/views.py:43 | `today - timedelta(days=n)` is a valid date exactly n day numbers earlier |
| Dates.FormatYmdRoundTrip | transactions/signals.py:12 | the `%Y%m%d` rendering reads back to the date |
| Dates.FormatYmdInjective | transactions/signals.py:12 | two different dates never share a rendering |

## Left out

- Framework plumbing is not modelled: HTTP, templates, `messages`, `redirect`,
  `JsonResponse` encoding and `@login_required`. The requesting user is a
  parameter.
- Pagination (`Paginator`, 20 transactions or 12 categories per page) is not
  modelled. The model states what the whole list holds, not one page of it.
- The `stdout` writes of the seeding command and the `users.count()` in its
  message are left out.
- The deleting branch of each delete view is modelled; the GET confirmation
  page is a render.
- `on_delete=CASCADE` is not modelled: deleting a category or user does not
  delete their transactions. The transaction record embeds the category's
  value at the time of use instead of a reference, so later edits to a
  category are not propagated into stored transactions.
- `updated_at` (`auto_now`) is not modelled. `created_at` is a `now` parameter
  on first save.
- TransactionForms.Save: a new record with no user is returned as `None`.
  In Django, `transaction.save()` runs `full_clean` first, and its field
  validation rejects the missing user with a validation error before any
  insert; with `commit` false the instance is returned without a user. The
  views always pass a user, so this path is not reached there.
- TransactionModel.TransactionStore.Update: an update whose primary key is
  not stored changes nothing. Django would insert such a row instead.
- `ModelForm._post_clean`, which re-runs the model's `full_clean`, is not a
  separate step. Two of its effects are modelled: the exception on create
  when the category was dropped (`CreateTransaction`), and the fact that it
  cannot fail after a valid form (`ValidFormFillsCleanRecord`). The extra
  errors it adds to an already invalid form are not.
- The existence check of the category foreign key is outside the model. A
  transaction's category is a value.
- CharField whitespace stripping is not modelled. Descriptions and names,
  and the `search` terms of the transaction and category filter forms, are
  taken as posted. Django strips them, so a whitespace-only search term
  becomes "" and matches everything.
- `icontains` folds ASCII letters only, as SQLite's `LIKE` does. Case folding
  of Thai or other non-ASCII letters is not modelled.
- Rows that compare equal under the ordering keep their stored order (a
  stable insertion sort). The database's tie order is unspecified.
- `strftime('%Y')` for years below 1000 is platform-dependent. The model pads
  the year to four digits.
- The week filter raises `OverflowError` in Python when `today` is within the
  first seven days of year 1. The model computes the window on day numbers
  and does not raise.
- The `or 0` inside `aggregate(...)` applies to an expression object, which
  is always truthy, so it never has an effect. The totals stay `None` when no
  row matches, as in the code.
- `cache_pattern` is computed in both signal handlers but never used. The
  cache is never read in this code, so no TTL or get-or-compute is modelled.
  The only aggregations in the code are the statistics of
  `transaction_list` and the recent-five sums of `finance/views.py`. No
  monthly series, category breakdown or running balance exists to model.
- `accounts/views.py` dashboard placeholders and
  `accounts/templatetags/dashboard_tags.py` (floating point, HTML) are not
  part of this model.

## Findings

| source | as written | input that shows it | evidently intended | confidence | as-written member | corrected member |
|---|---|---|---|---|---|---|
| transactions/models.py:49-52 | `if self.amount and self.amount <= 0`: a zero `Decimal` is falsy, so only negative amounts are rejected | a transaction with amount 0 whose category has its type | reject every amount <= 0 ("amount must be greater than 0") | not executed | TransactionModel.ZeroAmountPassesClean | TransactionModel.Clean |
| transactions/forms.py:97-100 | the same `if amount and amount <= 0` guard in the form's `clean` | a posted amount of 0 with a matching category of the user | reject every amount <= 0 | not executed | TransactionForms.ZeroAmountPassesFormClean | TransactionForms.FormClean |
| categories/forms.py:47-61 | `clean_name` reads `category_type` from `cleaned_data`, but 'name' is cleaned before 'category_type', so the lookup filters on a `None` type and finds nothing; the duplicate reaches the database's unique constraint instead of a form error | user 7 already has the expense category "Food" and submits the name "Food" with the type expense | report the duplicate as a form error on 'name' | not executed | CategoryForms.DuplicateSlipsThrough | CategoryForms.CleanName |
