/** The transaction views (transactions/views.py): the filtered list with
    its statistics, create/edit/delete scoped to the requesting user (each
    write followed by the cache signal), and the categories-by-type JSON. */
module TransactionViews {
  import opened Common
  import opened Text
  import opened Dates
  import opened CategoryModel
  import opened TransactionModel
  import opened TransactionForms
  import opened CacheSignals
  import Ordering

  // ---------------------------------------------------------------------
  // The filter chain of transaction_list
  // ---------------------------------------------------------------------

  function InCategory(c: Category): Transaction -> bool
  {
    (t: Transaction) => t.category.id == c.id
  }

  /** `Q(description__icontains=search) | Q(notes__icontains=search)`. */
  function Matches(search: string): Transaction -> bool
  {
    (t: Transaction) => IContains(t.description, search) || IContains(t.notes, search)
  }

  /** `date__gte=today - timedelta(days=7)`, stated on day numbers. */
  function InLastWeek(today: Date): Transaction -> bool
    requires Valid(today)
  {
    (t: Transaction) => Valid(t.date) && Ordinal(t.date) >= Ordinal(today) - 7
  }

  function OnDay(d: Date): Transaction -> bool
  {
    (t: Transaction) => t.date == d
  }

  function InMonth(year: int, month: int): Transaction -> bool
  {
    (t: Transaction) => t.date.year == year && t.date.month == month
  }

  function InYear(year: int): Transaction -> bool
  {
    (t: Transaction) => t.date.year == year
  }

  function NotBefore(d: Date): Transaction -> bool
  {
    (t: Transaction) => AtMost(d, t.date)
  }

  function NotAfter(d: Date): Transaction -> bool
  {
    (t: Transaction) => AtMost(t.date, d)
  }

  /** The period step: one window relative to `today`, or for `Custom` the
      optional inclusive bounds. */
  function ByPeriod(rows: seq<Transaction>, f: TransactionFilter, today: Date): seq<Transaction>
    requires Valid(today)
  {
    match f.period
    case AllTime => rows
    case Today => Keep(rows, OnDay(today))
    case Week => Keep(rows, InLastWeek(today))
    case Month => Keep(rows, InMonth(today.year, today.month))
    case Year => Keep(rows, InYear(today.year))
    case Custom =>
      var from := if f.dateFrom.Some? then Keep(rows, NotBefore(f.dateFrom.value)) else rows;
      if f.dateTo.Some? then Keep(from, NotAfter(f.dateTo.value)) else from
  }

  /** The queryset of `transaction_list`: the user's transactions, narrowed
      step by step only when the filter form is valid. */
  function Filtered(rows: seq<Transaction>, user: nat, f: TransactionFilter, today: Date): seq<Transaction>
    requires Valid(today)
  {
    var mine := OwnedTransactions(rows, user);
    if !f.valid then mine
    else
      var byKind := if f.kind.Some? then Keep(mine, IsKind(f.kind.value)) else mine;
      var byCategory := if f.category.Some? then Keep(byKind, InCategory(f.category.value)) else byKind;
      var bySearch := if f.search != "" then Keep(byCategory, Matches(f.search)) else byCategory;
      ByPeriod(bySearch, f, today)
  }

  /** Whether one transaction passes the period step. */
  predicate PeriodKeeps(t: Transaction, f: TransactionFilter, today: Date)
    requires Valid(today)
  {
    match f.period
    case AllTime => true
    case Today => t.date == today
    case Week => Valid(t.date) && Ordinal(t.date) >= Ordinal(today) - 7
    case Month => t.date.year == today.year && t.date.month == today.month
    case Year => t.date.year == today.year
    case Custom =>
      (f.dateFrom.None? || AtMost(f.dateFrom.value, t.date))
      && (f.dateTo.None? || AtMost(t.date, f.dateTo.value))
  }

  lemma ByPeriodContents(rows: seq<Transaction>, f: TransactionFilter, today: Date)
    requires Valid(today)
    ensures forall t :: t in ByPeriod(rows, f, today) <==> t in rows && PeriodKeeps(t, f, today)
  {
  }

  /** Over the cleaned form: exactly the user's transactions that pass
      every active filter; with an invalid form, all of the user's. */
  lemma FilteredByCleanForm(rows: seq<Transaction>, user: nat, f: TransactionFilter, today: Date)
    requires Valid(today)
    ensures forall t :: t in Filtered(rows, user, f, today) <==>
      t in rows && t.user == user
      && (f.valid ==>
            (f.kind.None? || t.kind == f.kind.value)
            && (f.category.None? || t.category.id == f.category.value.id)
            && (f.search == "" || IContains(t.description, f.search) || IContains(t.notes, f.search))
            && PeriodKeeps(t, f, today))
  {
    if f.valid {
      var mine := OwnedTransactions(rows, user);
      var byKind := if f.kind.Some? then Keep(mine, IsKind(f.kind.value)) else mine;
      var byCategory := if f.category.Some? then Keep(byKind, InCategory(f.category.value)) else byKind;
      var bySearch := if f.search != "" then Keep(byCategory, Matches(f.search)) else byCategory;
      ByPeriodContents(bySearch, f, today);
    }
  }

  /** Over the query string as posted: when the filter form is valid,
      exactly the user's transactions of the posted type, category and
      search term within the period; when it is not (an unknown choice, a
      date that does not parse, a category not among the user's), all of the
      user's transactions. */
  lemma FilteredContents(rows: seq<Transaction>, categories: seq<Category>, user: nat, q: TransactionQuery, today: Date)
    requires Valid(today)
    ensures var f := CleanTransactionFilter(q, categories, Some(user));
      forall t :: t in Filtered(rows, user, f, today) <==>
        t in rows && t.user == user
        && (TransactionFilterValid(q, categories, Some(user)) ==>
              (q.transactionType == "" || KindName(t.kind) == q.transactionType)
              && (q.category.NoKey? || t.category.id == q.category.id)
              && (q.search == "" || IContains(t.description, q.search) || IContains(t.notes, q.search))
              && PeriodKeeps(t, f, today))
    ensures !TransactionFilterValid(q, categories, Some(user)) ==>
      Filtered(rows, user, CleanTransactionFilter(q, categories, Some(user)), today) == OwnedTransactions(rows, user)
  {
    var f := CleanTransactionFilter(q, categories, Some(user));
    FilteredByCleanForm(rows, user, f, today);
    forall k: Kind ensures KindName(k) == q.transactionType <==> ParseKind(q.transactionType) == Some(k) {
      ParseKindName(k);
    }
  }

  /** The week window is Python's `date >= today - timedelta(days=7)`
      whenever that subtraction stays within year 1; there is no upper
      bound, so future dates stay in. */
  lemma WeekWindowIsDateGte(t: Transaction, today: Date)
    requires Valid(today) && Ordinal(today) > 7 && Valid(t.date)
    ensures InLastWeek(today)(t) <==> AtMost(MinusDays(today, 7), t.date)
  {
    MinusDaysOrdinal(today, 7);
    OrdinalOrder(MinusDays(today, 7), t.date);
  }

  // ---------------------------------------------------------------------
  // Statistics
  // ---------------------------------------------------------------------

  /** The statistics of `transaction_list`. The totals are the SQL `SUM`s,
      which are `None` over no rows (the `or 0` inside `aggregate` applies
      to the expression object, never to the result); the net balance
      reads a missing total as 0. */
  datatype Stats = Stats(totalIncome: Option<int>, totalExpense: Option<int>, netBalance: int, count: nat)

  /** `Sum('amount', filter=Q(transaction_type=k))`. */
  function SqlSum(rows: seq<Transaction>, k: Kind): Option<int>
  {
    var matching := Keep(rows, IsKind(k));
    if matching == [] then None else Some(SumOf(matching, Amount))
  }

  function OrZero(v: Option<int>): int
  {
    if v.Some? then v.value else 0
  }

  function ComputeStats(rows: seq<Transaction>): Stats
  {
    var income := SqlSum(rows, Income);
    var expense := SqlSum(rows, Expense);
    Stats(income, expense, OrZero(income) - OrZero(expense), |rows|)
  }

  /** The totals sum the amounts of their own type only; a total is absent
      exactly when there is no row of its type; the net balance is the sum
      of the signed amounts; the count is the number of rows. */
  lemma StatsMeaning(rows: seq<Transaction>)
    ensures var s := ComputeStats(rows);
      (s.totalIncome.None? <==> forall t :: t in rows ==> t.kind != Income)
      && (s.totalExpense.None? <==> forall t :: t in rows ==> t.kind != Expense)
      && (s.totalIncome.Some? ==> s.totalIncome.value == SumOf(Keep(rows, IsKind(Income)), Amount))
      && (s.totalExpense.Some? ==> s.totalExpense.value == SumOf(Keep(rows, IsKind(Expense)), Amount))
      && s.netBalance == SumOf(rows, SignedAmount)
      && s.count == |rows|
  {
    NetIsIncomeMinusExpense(rows);
    SqlSumMeaning(rows, Income);
    SqlSumMeaning(rows, Expense);
  }

  /** A `SUM` is absent exactly when no row has the type, and otherwise is
      the sum over the rows of that type; read as 0 when absent it is that
      sum in every case. */
  lemma SqlSumMeaning(rows: seq<Transaction>, k: Kind)
    ensures SqlSum(rows, k).None? <==> forall t :: t in rows ==> t.kind != k
    ensures OrZero(SqlSum(rows, k)) == SumOf(Keep(rows, IsKind(k)), Amount)
  {
    var matching := Keep(rows, IsKind(k));
    if matching != [] {
      assert matching[0] in rows;
    }
  }

  /** Over stored transactions (each passed `full_clean`) a present total is
      never negative, and it is at least the guard's minimum: it can be 0 as
      written (rows of zero amount), and is positive with the corrected
      guard. */
  lemma TotalsNonNegative(rows: seq<Transaction>, g: AmountGuard)
    requires forall i :: 0 <= i < |rows| ==> FullClean(rows[i], g)
    ensures ComputeStats(rows).totalIncome.Some? ==> ComputeStats(rows).totalIncome.value >= MinAmount(g) >= 0
    ensures ComputeStats(rows).totalExpense.Some? ==> ComputeStats(rows).totalExpense.value >= MinAmount(g) >= 0
    ensures g == Corrected && ComputeStats(rows).totalIncome.Some? ==> ComputeStats(rows).totalIncome.value > 0
    ensures g == Corrected && ComputeStats(rows).totalExpense.Some? ==> ComputeStats(rows).totalExpense.value > 0
  {
    SumAtLeastMin(Keep(rows, IsKind(Income)), rows, g);
    SumAtLeastMin(Keep(rows, IsKind(Expense)), rows, g);
  }

  lemma {:induction false} SumAtLeastMin(s: seq<Transaction>, rows: seq<Transaction>, g: AmountGuard)
    requires forall i :: 0 <= i < |rows| ==> FullClean(rows[i], g)
    requires forall t :: t in s ==> t in rows
    ensures s != [] ==> SumOf(s, Amount) >= MinAmount(g)
    ensures SumOf(s, Amount) >= 0
  {
    if s != [] {
      assert s[0] in rows;
      SumAtLeastMin(s[1..], rows, g);
    }
  }

  /** `transaction_list`: the filtered rows in default order, and their
      statistics. */
  function TransactionList(rows: seq<Transaction>, categories: seq<Category>, user: nat, q: TransactionQuery, today: Date): (seq<Transaction>, Stats)
    requires Valid(today)
  {
    var filtered := Filtered(rows, user, CleanTransactionFilter(q, categories, Some(user)), today);
    (OrderedTransactions(filtered), ComputeStats(filtered))
  }

  /** The page lists only the requesting user's transactions, newest first,
      and the statistics describe exactly the listed rows. */
  lemma TransactionListMeaning(rows: seq<Transaction>, categories: seq<Category>, user: nat, q: TransactionQuery, today: Date)
    requires Valid(today)
    ensures var f := CleanTransactionFilter(q, categories, Some(user));
      var (listed, stats) := TransactionList(rows, categories, user, q, today);
      (forall t :: t in listed ==> t in rows && t.user == user)
      && multiset(listed) == multiset(Filtered(rows, user, f, today))
      && Ordering.SortedBy(listed, NewerFirst)
      && stats.count == |listed|
      && stats == ComputeStats(Filtered(rows, user, f, today))
  {
    var f := CleanTransactionFilter(q, categories, Some(user));
    var filtered := Filtered(rows, user, f, today);
    var listed := OrderedTransactions(filtered);
    FilteredByCleanForm(rows, user, f, today);
    assert |multiset(listed)| == |multiset(filtered)|;
    forall t | t in listed ensures t in rows && t.user == user {
      assert t in multiset(listed);
    }
  }

  // ---------------------------------------------------------------------
  // get_categories_by_type
  // ---------------------------------------------------------------------

  /** One entry of the JSON list: id, name, display name, icon, color. */
  datatype CategoryEntry = CategoryEntry(id: nat, name: string, displayName: string, icon: string, color: string)

  function ToEntry(c: Category): CategoryEntry
  {
    CategoryEntry(c.id, c.name, DisplayName(c), c.icon, c.color)
  }

  /** The categories the endpoint reports: none unless the type is
      'income' or 'expense'; else the user's categories of that type by
      name. */
  function CategoriesOfType(rows: seq<Category>, user: nat, typeParam: string): (r: seq<Category>)
    ensures ParseKind(typeParam).None? ==> r == []
    ensures Ordering.SortedBy(r, ByName)
  {
    var k := ParseKind(typeParam);
    if k.Some? then OrderedByName(OwnedOfKind(rows, user, k.value)) else []
  }

  lemma CategoriesOfTypeContents(rows: seq<Category>, user: nat, typeParam: string)
    ensures forall c :: c in CategoriesOfType(rows, user, typeParam) <==>
      (typeParam == "income" || typeParam == "expense")
      && c in rows && c.user == user && KindName(c.kind) == typeParam
  {
    var k := ParseKind(typeParam);
    if k.Some? {
      var s := OwnedOfKind(rows, user, k.value);
      var r := CategoriesOfType(rows, user, typeParam);
      forall c ensures c in r <==> c in s {
        assert c in r <==> c in multiset(r);
        assert c in s <==> c in multiset(s);
      }
      forall c: Category ensures c.kind == k.value <==> KindName(c.kind) == typeParam {
        ParseKindName(c.kind);
      }
    }
  }

  /** `get_categories_by_type`: one entry per reported category, in order. */
  method GetCategoriesByType(rows: seq<Category>, user: nat, typeParam: string) returns (data: seq<CategoryEntry>)
    ensures |data| == |CategoriesOfType(rows, user, typeParam)|
    ensures forall i :: 0 <= i < |data| ==> data[i] == ToEntry(CategoriesOfType(rows, user, typeParam)[i])
  {
    var k := ParseKind(typeParam);
    if k.None? {
      return [];
    }
    var categories := OrderedByName(OwnedOfKind(rows, user, k.value));
    data := [];
    for i := 0 to |categories|
      invariant |data| == i
      invariant forall j :: 0 <= j < i ==> data[j] == ToEntry(categories[j])
    {
      var c := categories[i];
      data := data + [CategoryEntry(c.id, c.name, DisplayName(c), c.icon, c.color)];
    }
  }

  // ---------------------------------------------------------------------
  // Create, edit, delete
  // ---------------------------------------------------------------------

  /** `t` holds what was posted through a form whose category queryset is
      `choices`, saved for `user`: the posted type, category, description,
      amount, date and notes, and both the record and its category belong to
      `user`. */
  predicate HoldsPosted(t: Transaction, input: TransactionInput, choices: seq<Category>, user: nat)
  {
    Some(t.kind) == input.kind && Some(t.amount) == input.amount && Some(t.date) == input.date
    && t.description == input.description && t.notes == input.notes
    && Some(t.category) == CleanFields(input, choices).category
    && t.user == user && t.category.user == user
  }

  /** `transaction_create`. The form's choices are the user's categories. When
      'category' is missing from `cleaned_data` (no valid choice, or `clean`
      raised its error on it) the new instance has no category, and the
      model's `clean`, which `_post_clean` runs, reads `self.category` and
      raises `RelatedObjectDoesNotExist`: the request fails with nothing
      written. Otherwise an invalid form is shown again, and a valid one is
      saved for the requesting user, stamped with the current time, and the
      save signal evicts that user's dashboard keys. */
  method CreateTransaction<V>(store: TransactionStore, cache: DashboardCache<V>, categories: seq<Category>,
                              user: nat, input: TransactionInput, now: int)
    returns (o: Outcome)
    requires store.Valid()
    modifies store, cache
    ensures store.Valid()
    ensures o != NotFound && o != Deleted
    ensures o == ServerError <==>
      CategoryDropped(input, CategoryChoices(categories, Some(user), None), Some(user), store.guard)
    ensures o == Saved <==> FormValid(input, CategoryChoices(categories, Some(user), None), Some(user), store.guard)
    ensures o != Saved ==> store.rows == old(store.rows) && cache.entries == old(cache.entries)
    ensures o == Saved ==>
      |store.rows| == |old(store.rows)| + 1
      && store.rows[..|old(store.rows)|] == old(store.rows)
      && var t := store.rows[|old(store.rows)|];
         HoldsPosted(t, input, CategoryChoices(categories, Some(user), None), user)
         && t.id == old(store.nextId) && t.createdAt == now && FullClean(t, store.guard)
         && cache.entries == Evict(old(cache.entries), user, t.date)
  {
    var choices := CategoryChoices(categories, Some(user), None);
    if CategoryDropped(input, choices, Some(user), store.guard) {
      DroppedCategoryIsInvalid(input, choices, Some(user), store.guard);
      return ServerError;
    }
    if !FormValid(input, choices, Some(user), store.guard) {
      return Invalid;
    }
    ApplyCreate(store, cache, choices, user, input, now);
    o := Saved;
  }

  /** The POST branch of `transaction_create` once the form is valid:
      `form.save()`, then the save signal. */
  method ApplyCreate<V>(store: TransactionStore, cache: DashboardCache<V>, choices: seq<Category>,
                        user: nat, input: TransactionInput, now: int)
    requires store.Valid()
    requires FormValid(input, choices, Some(user), store.guard)
    modifies store, cache
    ensures store.Valid()
    ensures |store.rows| == |old(store.rows)| + 1
    ensures store.rows[..|old(store.rows)|] == old(store.rows)
    ensures var t := store.rows[|old(store.rows)|];
      HoldsPosted(t, input, choices, user)
      && t.id == old(store.nextId) && t.createdAt == now && FullClean(t, store.guard)
      && cache.entries == Evict(old(cache.entries), user, t.date)
  {
    var saved := Save(store, input, choices, Some(user), None, true, now);
    assert store.rows == old(store.rows) + [saved.value];
    assert HoldsPosted(saved.value, input, choices, user);
    cache.OnSave(saved.value);
  }

  /** `transaction_edit`: looked up by (pk, user), so another user's
      transaction is not found. The form's choices are the user's categories
      of the transaction's type; the instance keeps its category when the
      posted one is dropped, so no exception is raised here. A valid form
      overwrites the row in place, and the save signal evicts the keys of its
      new date. */
  method EditTransaction<V>(store: TransactionStore, cache: DashboardCache<V>, categories: seq<Category>,
                            user: nat, pk: nat, input: TransactionInput)
    returns (o: Outcome)
    requires store.Valid()
    modifies store, cache
    ensures store.Valid()
    ensures o != ServerError && o != Deleted
    ensures o == NotFound <==> FindOwnedTransaction(old(store.rows), pk, user).None?
    ensures FindOwnedTransaction(old(store.rows), pk, user).Some? ==>
      (o == Saved <==> FormValid(input, CategoryChoices(categories, Some(user),
                                   Some(FindOwnedTransaction(old(store.rows), pk, user).value.kind)),
                                 Some(user), store.guard))
    ensures o != Saved ==> store.rows == old(store.rows) && cache.entries == old(cache.entries)
    ensures o == Saved ==>
      var was := FindOwnedTransaction(old(store.rows), pk, user).value;
      var choices := CategoryChoices(categories, Some(user), Some(was.kind));
      input.kind == Some(was.kind)
      && |store.rows| == |old(store.rows)|
      && (forall i :: 0 <= i < |store.rows| && old(store.rows)[i].id != pk ==> store.rows[i] == old(store.rows)[i])
      && (forall i :: 0 <= i < |store.rows| && old(store.rows)[i].id == pk ==>
            EditedAs(store.rows[i], was, user, input, choices, store.guard))
      && input.date.Some? && Valid(input.date.value)
      && cache.entries == Evict(old(cache.entries), user, input.date.value)
  {
    var found := FindOwnedTransaction(store.rows, pk, user);
    if found.None? {
      return NotFound;
    }
    var was := found.value;
    var choices := CategoryChoices(categories, Some(user), Some(was.kind));
    if !FormValid(input, choices, Some(user), store.guard) {
      return Invalid;
    }
    ApplyEdit(store, cache, choices, user, was, input);
    o := Saved;
  }

  /** The POST branch of `transaction_edit` once the transaction is found
      and the form is valid: `form.save()`, then the save signal. */
  method ApplyEdit<V>(store: TransactionStore, cache: DashboardCache<V>, choices: seq<Category>,
                      user: nat, was: Transaction, input: TransactionInput)
    requires store.Valid()
    requires FormValid(input, choices, Some(user), store.guard)
    requires forall c :: c in choices ==> c.kind == was.kind
    modifies store, cache
    ensures store.Valid()
    ensures input.kind == Some(was.kind)
    ensures |store.rows| == |old(store.rows)|
    ensures forall i :: 0 <= i < |store.rows| && old(store.rows)[i].id != was.id ==> store.rows[i] == old(store.rows)[i]
    ensures forall i :: 0 <= i < |store.rows| && old(store.rows)[i].id == was.id ==>
      EditedAs(store.rows[i], was, user, input, choices, store.guard)
    ensures input.date.Some? && Valid(input.date.value)
    ensures cache.entries == Evict(old(cache.entries), user, input.date.value)
  {
    ValidFormMeans(input, choices, Some(user), store.guard);
    var saved := Save(store, input, choices, Some(user), Some(was), true, 0);
    assert EditedAs(saved.value, was, user, input, choices, store.guard);
    EditedRow(old(store.rows), store.rows, saved.value, was.id);
    cache.OnSave(saved.value);
  }

  /** `t` is `was` after a valid edit by `user` through a form with queryset
      `choices`: same primary key, creation time and type, the posted values,
      and it passes `full_clean` under guard `g`. */
  predicate EditedAs(t: Transaction, was: Transaction, user: nat, input: TransactionInput,
                     choices: seq<Category>, g: AmountGuard)
  {
    t.id == was.id && t.kind == was.kind && t.createdAt == was.createdAt
    && HoldsPosted(t, input, choices, user) && FullClean(t, g)
  }

  /** The rows after an in-place overwrite of primary key `pk` by `t`. */
  lemma EditedRow(before: seq<Transaction>, after: seq<Transaction>, t: Transaction, pk: nat)
    requires t.id == pk && |after| == |before|
    requires forall i :: 0 <= i < |after| ==> after[i] == if before[i].id == pk then t else before[i]
    ensures forall i :: 0 <= i < |after| && before[i].id != pk ==> after[i] == before[i]
    ensures forall i :: 0 <= i < |after| && before[i].id == pk ==> after[i] == t
  {
  }

  /** `transaction_delete` (the POST): looked up by (pk, user), removed,
      and the delete signal evicts the keys of its user and date. */
  method DeleteTransaction<V>(store: TransactionStore, cache: DashboardCache<V>, user: nat, pk: nat)
    returns (o: Outcome)
    requires store.Valid()
    modifies store, cache
    ensures store.Valid()
    ensures o == NotFound <==> FindOwnedTransaction(old(store.rows), pk, user).None?
    ensures o == Deleted <==> FindOwnedTransaction(old(store.rows), pk, user).Some?
    ensures o == NotFound ==> store.rows == old(store.rows) && cache.entries == old(cache.entries)
    ensures o == Deleted ==>
      var was := FindOwnedTransaction(old(store.rows), pk, user).value;
      store.rows == Keep(old(store.rows), WithoutId(pk))
      && cache.entries == Evict(old(cache.entries), user, was.date)
  {
    var found := FindOwnedTransaction(store.rows, pk, user);
    if found.None? {
      return NotFound;
    }
    var was := found.value;
    ghost var i :| 0 <= i < |store.rows| && store.rows[i] == was;
    assert FullClean(store.rows[i], store.guard);
    store.Delete(pk);
    cache.OnDelete(was);
    o := Deleted;
  }
}
