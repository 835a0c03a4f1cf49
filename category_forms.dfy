/** `CategoryForm` (categories/forms.py): the duplicate-name check and the
    choice lists with preview labels. */
module CategoryForms {
  import opened Common
  import opened CategoryModel

  /** What the user submitted in a category form. `kind` is the posted
      'category_type' parsed against its choices: `None` when it is missing
      or names no type, which the choice field reports as a field error. */
  datatype CategoryInput = CategoryInput(name: string, kind: Option<Kind>, icon: string, color: string)

  datatype NameCheck = NameOk(name: string) | DuplicateName

  /** `Meta.fields`: Django cleans the fields in this order, calling
      `clean_<field>` right after each one. */
  const FieldOrder: seq<string> := ["name", "category_type", "icon", "color"]

  /** Field `a` is cleaned before field `b`. */
  predicate CleanedBefore(a: string, b: string)
  {
    exists i, j :: 0 <= i < j < |FieldOrder| && FieldOrder[i] == a && FieldOrder[j] == b
  }

  /** `cleaned_data.get('category_type')` as seen from `clean_name`: present
      only if 'category_type' is cleaned before 'name', which it is not. */
  function KindSeenByCleanName(submitted: Option<Kind>): (r: Option<Kind>)
    ensures r.None?
  {
    if CleanedBefore("category_type", "name") then submitted else None
  }

  /** Is there another category of `user` with this name and type? A `None`
      user or type matches no row (`user=None`, `category_type=None` filter
      on `IS NULL` over non-null columns), and the instance being edited is
      excluded. */
  predicate OtherWithKey(rows: seq<Category>, user: Option<nat>, name: string, kind: Option<Kind>, pk: Option<nat>)
  {
    user.Some? && kind.Some?
    && exists c :: c in rows && c.user == user.value && c.name == name && c.kind == kind.value
                   && Some(c.id) != pk
  }

  /** The body of `clean_name`, with the type as the optional value it reads
      from `cleaned_data`. */
  function CheckName(rows: seq<Category>, user: Option<nat>, name: string, kind: Option<Kind>, pk: Option<nat>): (r: NameCheck)
    ensures r.DuplicateName? <==> OtherWithKey(rows, user, name, kind, pk)
    ensures r.NameOk? ==> r.name == name
  {
    if OtherWithKey(rows, user, name, kind, pk) then DuplicateName else NameOk(name)
  }

  /** `clean_name` as written: the type has not been cleaned yet. */
  function CleanNameAsWritten(rows: seq<Category>, user: Option<nat>, input: CategoryInput, pk: Option<nat>): NameCheck
  {
    CheckName(rows, user, input.name, KindSeenByCleanName(input.kind), pk)
  }

  /** As written the duplicate check can never fire. */
  lemma AsWrittenNeverRejects(rows: seq<Category>, user: Option<nat>, input: CategoryInput, pk: Option<nat>)
    ensures CleanNameAsWritten(rows, user, input, pk) == NameOk(input.name)
  {
  }

  /** A concrete duplicate that passes the check as written but is rejected
      by the corrected check. */
  lemma DuplicateSlipsThrough()
    ensures var rows := [NewCategory(1, 7, "Food", Expense)];
            var input := CategoryInput("Food", Some(Expense), DefaultIcon, DefaultColor);
            CleanNameAsWritten(rows, Some(7), input, None) == NameOk("Food")
            && CleanName(rows, Some(7), input, None) == DuplicateName
  {
    var rows := [NewCategory(1, 7, "Food", Expense)];
    assert rows[0] in rows;
  }

  /** `clean_name` checked against the submitted type: rejects exactly when
      another category of the same user has the same name and type. A type
      that did not clean matches no row. */
  function CleanName(rows: seq<Category>, user: Option<nat>, input: CategoryInput, pk: Option<nat>): (r: NameCheck)
    ensures r.DuplicateName? <==>
      user.Some? && input.kind.Some?
      && exists c :: c in rows && c.user == user.value && c.name == input.name
                     && c.kind == input.kind.value && Some(c.id) != pk
    ensures r.NameOk? ==> r.name == input.name
  {
    CheckName(rows, user, input.name, input.kind, pk)
  }

  /** A new category of a posted type passes the corrected check exactly
      when inserting it does not clash with the unique constraint. */
  lemma CleanNameGuardsInsert(rows: seq<Category>, user: nat, input: CategoryInput)
    ensures input.kind.Some? ==>
      (CleanName(rows, Some(user), input, None).NameOk? <==> Lookup(rows, user, input.name, input.kind.value).None?)
  {
  }

  /** An edit of the user's category `pk` passes the corrected check exactly
      when no other row has the edited uniqueness key, that is when the
      update does not clash with the unique constraint. */
  lemma CleanNameGuardsUpdate(rows: seq<Category>, user: nat, pk: nat, edited: Category, input: CategoryInput)
    requires edited.id == pk && edited.user == user && edited.name == input.name && input.kind == Some(edited.kind)
    ensures CleanName(rows, Some(user), input, Some(pk)).NameOk? <==>
      forall d :: d in rows && d.id != pk ==> !SameKey(d, edited)
  {
  }

  predicate IsChoiceValue(v: string, choices: seq<(string, string)>)
  {
    exists i :: 0 <= i < |choices| && choices[i].0 == v
  }

  /** Field-level validation: name required, at most 100 characters; the
      type, icon and color must be among the declared choices. */
  predicate FieldsValid(input: CategoryInput)
  {
    1 <= |input.name| <= 100
    && input.kind.Some?
    && IsChoiceValue(input.icon, IconChoices)
    && IsChoiceValue(input.color, ColorChoices)
  }

  /** `form.is_valid()` as written. The unique constraint is not checked by
      the form either: `user` is not a form field, so `validate_unique`
      skips the (user, name, category_type) check. */
  predicate FormValidAsWritten(rows: seq<Category>, user: Option<nat>, input: CategoryInput, pk: Option<nat>)
  {
    FieldsValid(input) && CleanNameAsWritten(rows, user, input, pk).NameOk?
  }

  /** As written, form validity is field validity alone. */
  lemma FormValidAsWrittenIsFieldsValid(rows: seq<Category>, user: Option<nat>, input: CategoryInput, pk: Option<nat>)
    ensures FormValidAsWritten(rows, user, input, pk) <==> FieldsValid(input)
  {
  }

  /** `form.is_valid()` with the corrected name check. */
  predicate FormValid(rows: seq<Category>, user: Option<nat>, input: CategoryInput, pk: Option<nat>)
  {
    FieldsValid(input) && CleanName(rows, user, input, pk).NameOk?
  }

  /** The color choices with labels "label (value)", in declared order. */
  method ColorChoiceLabels(choices: seq<(string, string)>) returns (r: seq<(string, string)>)
    ensures |r| == |choices|
    ensures forall i :: 0 <= i < |r| ==> r[i].0 == choices[i].0
    ensures forall i :: 0 <= i < |r| ==> r[i].1 == choices[i].1 + " (" + choices[i].0 + ")"
  {
    r := [];
    for i := 0 to |choices|
      invariant |r| == i
      invariant forall k :: 0 <= k < i ==> r[k] == (choices[k].0, choices[k].1 + " (" + choices[k].0 + ")")
    {
      var (value, caption) := choices[i];
      r := r + [(value, caption + " (" + value + ")")];
    }
  }

  /** The icon choices with labels "value label", in declared order. */
  method IconChoiceLabels(choices: seq<(string, string)>) returns (r: seq<(string, string)>)
    ensures |r| == |choices|
    ensures forall i :: 0 <= i < |r| ==> r[i].0 == choices[i].0
    ensures forall i :: 0 <= i < |r| ==> r[i].1 == choices[i].0 + " " + choices[i].1
  {
    r := [];
    for i := 0 to |choices|
      invariant |r| == i
      invariant forall k :: 0 <= k < i ==> r[k] == (choices[k].0, choices[k].0 + " " + choices[k].1)
    {
      var (value, caption) := choices[i];
      r := r + [(value, value + " " + caption)];
    }
  }

  /** The query string of `category_list`: the type choice and the search
      term, as posted. */
  datatype CategoryQuery = CategoryQuery(categoryType: string, search: string)

  /** `CategoryFilterForm.is_valid()`: both fields are optional, so the form
      fails only on a type outside the choices '', 'income' and 'expense'. */
  predicate CategoryFilterValid(q: CategoryQuery)
  {
    q.categoryType == "" || ParseKind(q.categoryType).Some?
  }

  /** The cleaned `CategoryFilterForm`: whether it is valid and, when it is,
      the type (`None` for the empty choice) and the search term. */
  datatype CategoryFilter = CategoryFilter(valid: bool, kind: Option<Kind>, search: string)

  function CleanCategoryFilter(q: CategoryQuery): (f: CategoryFilter)
    ensures f.valid <==> CategoryFilterValid(q)
    ensures f.valid ==> f.kind == ParseKind(q.categoryType) && f.search == q.search
  {
    if CategoryFilterValid(q) then CategoryFilter(true, ParseKind(q.categoryType), q.search)
    else CategoryFilter(false, None, "")
  }
}
