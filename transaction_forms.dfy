/** `TransactionForm` and `TransactionFilterForm` (transactions/forms.py):
    the category choices a user is offered, field cleaning, the three
    cross-field checks of `clean` in their fixed order, and `save`. */
module TransactionForms {
  import opened Common
  import opened Dates
  import opened CategoryModel
  import opened TransactionModel

  /** What was posted, after each field's own parsing: a missing or
      unparsable value is `None`; the category is posted as a primary key. */
  datatype TransactionInput = TransactionInput(
    kind: Option<Kind>,
    categoryId: Option<nat>,
    description: string,
    amount: Option<int>,
    date: Option<Date>,
    notes: string)

  /** The form fields that can carry an error. */
  datatype Field = TypeField | CategoryField | DescriptionField | AmountField | DateField

  /** The errors `clean` raises, in the order it checks them; the first two
      are reported on 'category', the last on 'amount'. */
  datatype FormError = CategoryTypeMismatch | ForeignCategory | AmountNotPositive

  // ---------------------------------------------------------------------
  // __init__: the category queryset
  // ---------------------------------------------------------------------

  /** The category field's queryset. With a user: that user's categories,
      and when editing (`editing` is the instance's type) only those of the
      instance's type. Without a user the model's default queryset, all
      categories, stays. */
  function CategoryChoices(all: seq<Category>, user: Option<nat>, editing: Option<Kind>): (r: seq<Category>)
    ensures user.None? ==> r == all
    ensures user.Some? && editing.None? ==>
      forall c :: c in r <==> c in all && c.user == user.value
    ensures user.Some? && editing.Some? ==>
      forall c :: c in r <==> c in all && c.user == user.value && c.kind == editing.value
  {
    if user.None? then all
    else if editing.Some? then OwnedOfKind(all, user.value, editing.value)
    else OwnedBy(all, user.value)
  }

  /** `ModelChoiceField.to_python`: the posted primary key looked up in the
      queryset; a key outside it is an invalid choice. */
  function ChoiceById(choices: seq<Category>, id: nat): (r: Option<Category>)
    ensures r.None? <==> forall c :: c in choices ==> c.id != id
    ensures r.Some? ==> r.value in choices && r.value.id == id
  {
    if choices == [] then None
    else if choices[0].id == id then Some(choices[0])
    else ChoiceById(choices[1..], id)
  }

  // ---------------------------------------------------------------------
  // Field cleaning
  // ---------------------------------------------------------------------

  /** `cleaned_data` after the fields are cleaned: a field that failed is
      absent. */
  datatype Cleaned = Cleaned(kind: Option<Kind>, category: Option<Category>, amount: Option<int>)

  predicate AmountFits(a: int)
  {
    -MaxCents <= a <= MaxCents
  }

  function CleanFields(input: TransactionInput, choices: seq<Category>): (cd: Cleaned)
    ensures cd.kind == input.kind
    ensures cd.category.Some? <==> input.categoryId.Some? && exists c :: c in choices && c.id == input.categoryId.value
    ensures cd.category.Some? ==> cd.category.value in choices && cd.category.value.id == input.categoryId.value
    ensures cd.amount.Some? <==> input.amount.Some? && AmountFits(input.amount.value)
    ensures cd.amount.Some? ==> cd.amount == input.amount
  {
    Cleaned(
      input.kind,
      if input.categoryId.Some? then ChoiceById(choices, input.categoryId.value) else None,
      if input.amount.Some? && AmountFits(input.amount.value) then input.amount else None)
  }

  /** The fields whose own validation fails: a required value missing, a
      category outside the queryset, a description empty or over 255
      characters, an amount with too many digits, no valid date. */
  function FieldErrors(input: TransactionInput, choices: seq<Category>): (errs: set<Field>)
    ensures TypeField in errs <==> input.kind.None?
    ensures CategoryField in errs <==> CleanFields(input, choices).category.None?
    ensures DescriptionField in errs <==> !(1 <= |input.description| <= 255)
    ensures AmountField in errs <==> CleanFields(input, choices).amount.None?
    ensures DateField in errs <==> !(input.date.Some? && Valid(input.date.value))
  {
    var cd := CleanFields(input, choices);
    (if input.kind.None? then {TypeField} else {})
    + (if cd.category.None? then {CategoryField} else {})
    + (if !(1 <= |input.description| <= 255) then {DescriptionField} else {})
    + (if cd.amount.None? then {AmountField} else {})
    + (if !(input.date.Some? && Valid(input.date.value)) then {DateField} else {})
  }

  // ---------------------------------------------------------------------
  // clean()
  // ---------------------------------------------------------------------

  /** The body of `clean` over `cleaned_data` under amount guard `g`: the
      type check, then ownership, then the amount; the first failure is
      raised and the rest are not checked. */
  function FormCleanWith(cd: Cleaned, user: Option<nat>, g: AmountGuard): (r: Option<FormError>)
    ensures r == Some(CategoryTypeMismatch) <==>
      cd.kind.Some? && cd.category.Some? && cd.category.value.kind != cd.kind.value
    ensures r == Some(ForeignCategory) <==>
      cd.category.Some? && user.Some? && cd.category.value.user != user.value
      && !(cd.kind.Some? && cd.category.value.kind != cd.kind.value)
    ensures r == Some(AmountNotPositive) <==>
      cd.amount.Some? && cd.amount.value < MinAmount(g)
      && !(cd.category.Some? && cd.kind.Some? && cd.category.value.kind != cd.kind.value)
      && !(cd.category.Some? && user.Some? && cd.category.value.user != user.value)
  {
    if cd.kind.Some? && cd.category.Some? && cd.category.value.kind != cd.kind.value then Some(CategoryTypeMismatch)
    else if cd.category.Some? && user.Some? && cd.category.value.user != user.value then Some(ForeignCategory)
    else if cd.amount.Some? && Rejects(g, cd.amount.value) then Some(AmountNotPositive)
    else None
  }

  /** `clean` as written: `if amount and amount <= 0` lets zero through, and
      that is the only place where it differs from the corrected check. */
  function FormCleanAsWritten(cd: Cleaned, user: Option<nat>): (r: Option<FormError>)
    ensures r == Some(AmountNotPositive) <==>
      cd.amount.Some? && cd.amount.value < 0
      && !(cd.category.Some? && cd.kind.Some? && cd.category.value.kind != cd.kind.value)
      && !(cd.category.Some? && user.Some? && cd.category.value.user != user.value)
    ensures r != FormClean(cd, user) ==> r.None? && cd.amount == Some(0)
  {
    FormCleanWith(cd, user, AsWritten)
  }

  /** `clean` with the corrected amount guard. */
  function FormClean(cd: Cleaned, user: Option<nat>): (r: Option<FormError>)
    ensures r == Some(CategoryTypeMismatch) <==>
      cd.kind.Some? && cd.category.Some? && cd.category.value.kind != cd.kind.value
    ensures r == Some(ForeignCategory) <==>
      cd.category.Some? && user.Some? && cd.category.value.user != user.value
      && !(cd.kind.Some? && cd.category.value.kind != cd.kind.value)
    ensures r == Some(AmountNotPositive) <==>
      cd.amount.Some? && cd.amount.value <= 0
      && !(cd.category.Some? && cd.kind.Some? && cd.category.value.kind != cd.kind.value)
      && !(cd.category.Some? && user.Some? && cd.category.value.user != user.value)
  {
    FormCleanWith(cd, user, Corrected)
  }

  /** A zero amount, otherwise in order, passes `clean` as written and is
      rejected by the corrected check. */
  lemma ZeroAmountPassesFormClean(c: Category)
    ensures FormCleanAsWritten(Cleaned(Some(c.kind), Some(c), Some(0)), Some(c.user)).None?
    ensures FormClean(Cleaned(Some(c.kind), Some(c), Some(0)), Some(c.user)) == Some(AmountNotPositive)
  {
  }

  /** `form.is_valid()` under amount guard `g`: no field error and no error
      from `clean`. (The model's own `full_clean`, which `_post_clean` runs
      next, then passes as well: see `ValidFormFillsCleanRecord`.) */
  predicate FormValid(input: TransactionInput, choices: seq<Category>, user: Option<nat>, g: AmountGuard)
  {
    FieldErrors(input, choices) == {} && FormCleanWith(CleanFields(input, choices), user, g).None?
  }

  /** A valid form has every value and a category of the chosen type, owned
      by the form's user when there is one, and an amount that fits the
      column and is at least the guard's minimum: zero is valid as written,
      only positive amounts with the corrected guard. */
  lemma ValidFormMeans(input: TransactionInput, choices: seq<Category>, user: Option<nat>, g: AmountGuard)
    requires FormValid(input, choices, user, g)
    ensures input.kind.Some? && input.categoryId.Some? && input.amount.Some? && input.date.Some?
    ensures var c := CleanFields(input, choices).category;
            c.Some? && c.value.kind == input.kind.value
            && (user.Some? ==> c.value.user == user.value)
    ensures MinAmount(g) <= input.amount.value <= MaxCents
    ensures g == Corrected ==> 0 < input.amount.value
    ensures 1 <= |input.description| <= 255 && Valid(input.date.value)
  {
  }

  /** The only forms that differ between the two guards are those with a
      zero amount: valid as written, invalid when corrected. */
  lemma ValidFormDiffersOnlyAtZero(input: TransactionInput, choices: seq<Category>, user: Option<nat>)
    ensures FormValid(input, choices, user, Corrected) ==> FormValid(input, choices, user, AsWritten)
    ensures FormValid(input, choices, user, AsWritten) && !FormValid(input, choices, user, Corrected)
            ==> input.amount == Some(0)
  {
  }

  /** After `clean`, 'category' is missing from `cleaned_data`: it was not a
      valid choice, or `clean` raised its error on 'category', which removes
      the field. `_post_clean` then leaves the instance's category as it was. */
  predicate CategoryDropped(input: TransactionInput, choices: seq<Category>, user: Option<nat>, g: AmountGuard)
  {
    var cd := CleanFields(input, choices);
    cd.category.None?
    || FormCleanWith(cd, user, g) == Some(CategoryTypeMismatch)
    || FormCleanWith(cd, user, g) == Some(ForeignCategory)
  }

  /** A dropped category always leaves the form invalid. */
  lemma DroppedCategoryIsInvalid(input: TransactionInput, choices: seq<Category>, user: Option<nat>, g: AmountGuard)
    requires CategoryDropped(input, choices, user, g)
    ensures !FormValid(input, choices, user, g)
  {
  }

  /** With a user, the queryset already holds only that user's categories,
      so the ownership check of `clean` can never fire. */
  lemma OwnershipCheckUnreachable(all: seq<Category>, user: nat, editing: Option<Kind>, input: TransactionInput, g: AmountGuard)
    ensures FormCleanWith(CleanFields(input, CategoryChoices(all, Some(user), editing)), Some(user), g) != Some(ForeignCategory)
  {
  }

  /** When editing with a user, a valid form keeps the instance's type: the
      choices hold only categories of that type and `clean` demands that
      the category's type match the posted one. */
  lemma EditKeepsType(all: seq<Category>, user: nat, k: Kind, input: TransactionInput, g: AmountGuard)
    requires FormValid(input, CategoryChoices(all, Some(user), Some(k)), Some(user), g)
    ensures input.kind == Some(k)
  {
    ValidFormMeans(input, CategoryChoices(all, Some(user), Some(k)), Some(user), g);
  }

  // ---------------------------------------------------------------------
  // save()
  // ---------------------------------------------------------------------

  /** `super().save(commit=False)`: the instance with the cleaned values. */
  function Fill(base: Transaction, input: TransactionInput, category: Category): (t: Transaction)
    requires input.kind.Some? && input.amount.Some? && input.date.Some?
  {
    base.(kind := input.kind.value, category := category, description := input.description,
          amount := input.amount.value, date := input.date.value, notes := input.notes)
  }

  /** A valid form fills in a record that passes the model's `full_clean`,
      so `save` never fails its validation. */
  lemma ValidFormFillsCleanRecord(input: TransactionInput, choices: seq<Category>, user: Option<nat>, g: AmountGuard, base: Transaction)
    requires FormValid(input, choices, user, g)
    ensures input.kind.Some? && input.amount.Some? && input.date.Some?
    ensures CleanFields(input, choices).category.Some?
    ensures FullClean(Fill(base, input, CleanFields(input, choices).category.value), g)
  {
    ValidFormMeans(input, choices, user, g);
  }

  /** `TransactionForm.save(commit)` on a valid form: the cleaned values go
      into the instance (a new one when `instance` is `None`), the form's
      user replaces the instance's user when there is one, and the record is
      written only when `commit` is true. A new record without any user
      cannot be built. */
  method Save(store: TransactionStore, input: TransactionInput, choices: seq<Category>, user: Option<nat>,
              instance: Option<Transaction>, commit: bool, now: int)
    returns (saved: Option<Transaction>)
    requires store.Valid()
    requires FormValid(input, choices, user, store.guard)
    modifies store
    ensures store.Valid()
    ensures saved.None? <==> instance.None? && user.None?
    ensures saved.Some? ==>
      var t := saved.value;
      Some(t.kind) == input.kind && Some(t.amount) == input.amount && Some(t.date) == input.date
      && t.description == input.description && t.notes == input.notes
      && Some(t.category) == CleanFields(input, choices).category
      && (user.Some? ==> t.user == user.value)
      && (user.None? && instance.Some? ==> t.user == instance.value.user)
      && (instance.Some? ==> t.id == instance.value.id && t.createdAt == instance.value.createdAt)
      && (instance.None? && commit ==> t.id == old(store.nextId) && t.createdAt == now)
      && (user.Some? ==> t.category.user == user.value)
      && FullClean(t, store.guard)
    ensures !commit || saved.None? ==> store.rows == old(store.rows)
    ensures commit && saved.Some? && instance.None? ==> store.rows == old(store.rows) + [saved.value]
    ensures commit && saved.Some? && instance.Some? ==>
      saved.value.id == instance.value.id
      && |store.rows| == |old(store.rows)|
      && forall i :: 0 <= i < |store.rows| ==>
           store.rows[i] == if old(store.rows)[i].id == saved.value.id then saved.value else old(store.rows)[i]
  {
    var category := CleanFields(input, choices).category;
    ValidFormMeans(input, choices, user, store.guard);
    if instance.None? && user.None? {
      return None;
    }
    var base := if instance.Some? then instance.value
                else Transaction(0, user.value, category.value, "", 0, input.kind.value, input.date.value, "", now);
    var t := Fill(base, input, category.value);
    if user.Some? {
      t := t.(user := user.value);
    }
    ValidFormFillsCleanRecord(input, choices, user, store.guard, base);
    assert FullClean(t, store.guard);
    if !commit {
      return Some(t);
    }
    if instance.None? {
      var stored, ok := store.Create(t, now);
      saved := Some(stored);
    } else {
      var ok := store.Update(t);
      saved := Some(t);
    }
  }

  // ---------------------------------------------------------------------
  // TransactionFilterForm
  // ---------------------------------------------------------------------

  /** The filter form's category queryset: none without a user, else the
      user's categories ordered by (type, name). */
  function FilterCategoryChoices(all: seq<Category>, user: Option<nat>): (r: seq<Category>)
    ensures user.None? ==> r == []
    ensures user.Some? ==> Ordering.SortedBy(r, TypeThenName)
  {
    if user.Some? then Ordered(OwnedBy(all, user.value)) else []
  }

  lemma FilterCategoryChoicesContents(all: seq<Category>, user: Option<nat>)
    ensures forall c :: c in FilterCategoryChoices(all, user) <==> user.Some? && c in all && c.user == user.value
  {
    if user.Some? {
      var mine := OwnedBy(all, user.value);
      var r := FilterCategoryChoices(all, user);
      forall c ensures c in r <==> c in mine {
        assert c in r <==> c in multiset(r);
        assert c in mine <==> c in multiset(mine);
      }
    }
  }

  /** The period choices; the empty choice is `AllTime`. */
  datatype Period = AllTime | Today | Week | Month | Year | Custom

  /** `period` against `PERIOD_CHOICES`; any other value is not a choice. */
  function ParsePeriod(s: string): (r: Option<Period>)
    ensures r.Some? <==> s in ["", "today", "week", "month", "year", "custom"]
    ensures r == Some(AllTime) <==> s == ""
    ensures r == Some(Custom) <==> s == "custom"
  {
    if s == "" then Some(AllTime)
    else if s == "today" then Some(Today)
    else if s == "week" then Some(Week)
    else if s == "month" then Some(Month)
    else if s == "year" then Some(Year)
    else if s == "custom" then Some(Custom)
    else None
  }

  /** A category key as posted: left empty, an integer key, or text that is
      not an integer. */
  datatype PostedKey = NoKey | Key(id: nat) | BadKey

  /** A date as posted: left empty, a calendar triple, or text that does not
      parse as a date. A triple that is not a real date does not parse
      either. */
  datatype PostedDate = NoDate | DateText(date: Date) | BadDate

  /** The query string of `transaction_list`, field by field. */
  datatype TransactionQuery = TransactionQuery(
    transactionType: string,
    category: PostedKey,
    search: string,
    period: string,
    dateFrom: PostedDate,
    dateTo: PostedDate)

  predicate DateFieldValid(p: PostedDate)
  {
    p.NoDate? || (p.DateText? && Valid(p.date))
  }

  function DateFieldValue(p: PostedDate): Option<Date>
  {
    if p.DateText? then Some(p.date) else None
  }

  /** `TransactionFilterForm.is_valid()`: every field is optional, so the form
      fails only on a type or period outside its choices, a date that does not
      parse, or a category key that is not in the form's queryset (another
      user's category, an unknown key, or no integer at all). */
  predicate TransactionFilterValid(q: TransactionQuery, all: seq<Category>, user: Option<nat>)
  {
    (q.transactionType == "" || ParseKind(q.transactionType).Some?)
    && ParsePeriod(q.period).Some?
    && DateFieldValid(q.dateFrom) && DateFieldValid(q.dateTo)
    && (q.category.NoKey? || (q.category.Key? && ChoiceById(FilterCategoryChoices(all, user), q.category.id).Some?))
  }

  /** The cleaned `TransactionFilterForm`: whether it is valid and, when it
      is, its values; an empty choice is `None` and an empty search term "". */
  datatype TransactionFilter = TransactionFilter(
    valid: bool,
    kind: Option<Kind>,
    category: Option<Category>,
    search: string,
    period: Period,
    dateFrom: Option<Date>,
    dateTo: Option<Date>)

  /** `is_valid()` and `cleaned_data` of the filter form built with `user`. */
  function CleanTransactionFilter(q: TransactionQuery, all: seq<Category>, user: Option<nat>): (f: TransactionFilter)
    ensures f.valid <==> TransactionFilterValid(q, all, user)
    ensures f.valid ==>
      f.kind == ParseKind(q.transactionType) && Some(f.period) == ParsePeriod(q.period) && f.search == q.search
      && f.dateFrom == DateFieldValue(q.dateFrom) && f.dateTo == DateFieldValue(q.dateTo)
      && (f.category.None? <==> q.category.NoKey?)
    ensures f.valid && f.category.Some? ==>
      q.category == Key(f.category.value.id) && f.category.value in all
      && user.Some? && f.category.value.user == user.value
  {
    if !TransactionFilterValid(q, all, user) then TransactionFilter(false, None, None, "", AllTime, None, None)
    else
      FilterCategoryChoicesContents(all, user);
      var category := if q.category.Key? then ChoiceById(FilterCategoryChoices(all, user), q.category.id) else None;
      TransactionFilter(true, ParseKind(q.transactionType), category, q.search, ParsePeriod(q.period).value,
                        DateFieldValue(q.dateFrom), DateFieldValue(q.dateTo))
  }

  /** A key naming no category of the user, such as another user's
      category, makes the filter form invalid. */
  lemma ForeignCategoryInvalidatesFilter(q: TransactionQuery, all: seq<Category>, user: nat)
    requires q.category.Key?
    requires forall c :: c in all && c.id == q.category.id ==> c.user != user
    ensures !TransactionFilterValid(q, all, Some(user))
  {
    FilterCategoryChoicesContents(all, Some(user));
  }
}
