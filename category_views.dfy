/** The category views (categories/views.py): the filtered list with its
    per-type counts, the JSON list, and create/edit/delete, each scoped to
    the requesting user. */
module CategoryViews {
  import opened Common
  import opened Text
  import opened CategoryModel
  import opened CategoryForms
  import Ordering

  /** The filter steps of `category_list`, applied only when the filter form
      is valid; the type filter only when a type is given and the name search
      only when the term is not empty. */
  function FilteredCategories(rows: seq<Category>, user: nat, f: CategoryFilter): (r: seq<Category>)
  {
    var mine := OwnedBy(rows, user);
    if !f.valid then mine
    else
      var byType := if f.kind.Some? then Keep(mine, (c: Category) => c.kind == f.kind.value) else mine;
      if f.search != "" then Keep(byType, (c: Category) => IContains(c.name, f.search)) else byType
  }

  /** The categories `category_list` shows for the posted query, in default
      order. */
  function CategoryList(rows: seq<Category>, user: nat, q: CategoryQuery): seq<Category>
  {
    Ordered(FilteredCategories(rows, user, CleanCategoryFilter(q)))
  }

  /** With a valid filter form, exactly the user's categories of the posted
      type (when one is chosen) whose name contains the search term (when one
      is given); with an unknown type, the form is invalid and all of the
      user's categories are listed. Sorted by (type, name). */
  lemma CategoryListContents(rows: seq<Category>, user: nat, q: CategoryQuery)
    ensures forall c :: c in CategoryList(rows, user, q) <==>
      c in rows && c.user == user
      && (CategoryFilterValid(q) ==> (q.categoryType == "" || KindName(c.kind) == q.categoryType)
                                     && (q.search == "" || IContains(c.name, q.search)))
    ensures !CategoryFilterValid(q) ==> |CategoryList(rows, user, q)| == |OwnedBy(rows, user)|
    ensures Ordering.SortedBy(CategoryList(rows, user, q), TypeThenName)
  {
    var filtered := FilteredCategories(rows, user, CleanCategoryFilter(q));
    var listed := CategoryList(rows, user, q);
    assert |multiset(listed)| == |multiset(filtered)|;
    forall c ensures c in listed <==> c in filtered {
      assert c in listed <==> c in multiset(listed);
      assert c in filtered <==> c in multiset(filtered);
    }
    forall k: Kind ensures KindName(k) == q.categoryType <==> ParseKind(q.categoryType) == Some(k) {
      ParseKindName(k);
    }
  }

  /** `income_count`: all of the user's income categories, whatever the
      filters. */
  function IncomeCount(rows: seq<Category>, user: nat): nat
  {
    |OwnedOfKind(rows, user, Income)|
  }

  /** `expense_count`: all of the user's expense categories. */
  function ExpenseCount(rows: seq<Category>, user: nat): nat
  {
    |OwnedOfKind(rows, user, Expense)|
  }

  /** The two counts split the user's categories between them. */
  lemma {:induction false} CountsCoverOwned(rows: seq<Category>, user: nat)
    ensures IncomeCount(rows, user) + ExpenseCount(rows, user) == |OwnedBy(rows, user)|
  {
    if rows != [] {
      CountsCoverOwned(rows[1..], user);
    }
  }

  /** One entry of the JSON list of `category_api_list`. */
  datatype ApiItem = ApiItem(id: nat, name: string, displayName: string, icon: string, color: string, kind: string)

  function ToApiItem(c: Category): ApiItem
  {
    ApiItem(c.id, c.name, DisplayName(c), c.icon, c.color, KindName(c.kind))
  }

  /** The queryset of `category_api_list`: narrowed by type only when the
      `type` parameter is 'income' or 'expense'. */
  function ApiSelection(rows: seq<Category>, user: nat, typeParam: string): seq<Category>
  {
    var k := ParseKind(typeParam);
    Ordered(if k.Some? then OwnedOfKind(rows, user, k.value) else OwnedBy(rows, user))
  }

  lemma ApiSelectionContents(rows: seq<Category>, user: nat, typeParam: string)
    ensures forall c :: c in ApiSelection(rows, user, typeParam) <==>
      c in rows && c.user == user
      && (typeParam == "income" ==> c.kind == Income)
      && (typeParam == "expense" ==> c.kind == Expense)
  {
    var k := ParseKind(typeParam);
    var s := if k.Some? then OwnedOfKind(rows, user, k.value) else OwnedBy(rows, user);
    var r := ApiSelection(rows, user, typeParam);
    forall c ensures c in r <==> c in s {
      assert c in r <==> c in multiset(r);
      assert c in s <==> c in multiset(s);
    }
  }

  /** `category_api_list`: one entry per selected category, in order. */
  method CategoryApiList(rows: seq<Category>, user: nat, typeParam: string) returns (data: seq<ApiItem>)
    ensures |data| == |ApiSelection(rows, user, typeParam)|
    ensures forall i :: 0 <= i < |data| ==> data[i] == ToApiItem(ApiSelection(rows, user, typeParam)[i])
  {
    var categories := ApiSelection(rows, user, typeParam);
    data := [];
    for i := 0 to |categories|
      invariant |data| == i
      invariant forall k :: 0 <= k < i ==> data[k] == ToApiItem(categories[k])
    {
      var c := categories[i];
      data := data + [ApiItem(c.id, c.name, DisplayName(c), c.icon, c.color, KindName(c.kind))];
    }
  }

  /** `category_create`: the form as written checks the fields only, so a
      name and type the user already has reaches `category.save()` and the
      unique constraint raises an integrity error. The category is saved
      exactly when the form with the corrected name check is valid. */
  method CreateCategory(store: CategoryStore, user: nat, input: CategoryInput) returns (o: Outcome)
    requires store.Valid()
    modifies store
    ensures store.Valid()
    ensures o != NotFound && o != Deleted
    ensures o == Invalid <==> !FormValidAsWritten(old(store.rows), Some(user), input, None)
    ensures o == Saved <==> FormValid(old(store.rows), Some(user), input, None)
    ensures o == ServerError <==> FieldsValid(input) && CleanName(old(store.rows), Some(user), input, None).DuplicateName?
    ensures o == Saved ==>
      input.kind.Some? && store.rows == old(store.rows) + [Category(old(store.nextId), user, input.name, input.kind.value, input.icon, input.color, false)]
    ensures o != Saved ==> store.rows == old(store.rows)
  {
    FormValidAsWrittenIsFieldsValid(store.rows, Some(user), input, None);
    if !FormValidAsWritten(store.rows, Some(user), input, None) {
      return Invalid;
    }
    CleanNameGuardsInsert(store.rows, user, input);
    var c, ok := store.Insert(user, input.name, input.kind.value, input.icon, input.color);
    o := if ok then Saved else ServerError;
  }

  /** `category_edit`: the category is looked up by (pk, user), so another
      user's category is not found. The form as written checks the fields
      only; saving then overwrites the name, type, icon and color and leaves
      every other row alone, unless another category of the user already has
      the new name and type, when the unique constraint raises an integrity
      error. */
  method EditCategory(store: CategoryStore, user: nat, pk: nat, input: CategoryInput) returns (o: Outcome)
    requires store.Valid()
    modifies store
    ensures store.Valid()
    ensures o != Deleted
    ensures o == NotFound <==> FindOwned(old(store.rows), pk, user).None?
    ensures FindOwned(old(store.rows), pk, user).Some? ==>
      (o == Invalid <==> !FormValidAsWritten(old(store.rows), Some(user), input, Some(pk)))
      && (o == Saved <==> FormValid(old(store.rows), Some(user), input, Some(pk)))
      && (o == ServerError <==> FieldsValid(input) && CleanName(old(store.rows), Some(user), input, Some(pk)).DuplicateName?)
    ensures o != Saved ==> store.rows == old(store.rows)
    ensures o == Saved ==>
      var was := FindOwned(old(store.rows), pk, user).value;
      input.kind.Some? && |store.rows| == |old(store.rows)|
      && forall i :: 0 <= i < |store.rows| ==>
           store.rows[i] == if old(store.rows)[i].id == pk
                            then was.(name := input.name, kind := input.kind.value, icon := input.icon, color := input.color)
                            else old(store.rows)[i]
  {
    var found := FindOwned(store.rows, pk, user);
    if found.None? {
      return NotFound;
    }
    FormValidAsWrittenIsFieldsValid(store.rows, Some(user), input, Some(pk));
    if !FormValidAsWritten(store.rows, Some(user), input, Some(pk)) {
      return Invalid;
    }
    var edited := found.value.(name := input.name, kind := input.kind.value, icon := input.icon, color := input.color);
    ghost var i :| 0 <= i < |store.rows| && store.rows[i] == found.value;
    CleanNameGuardsUpdate(store.rows, user, pk, edited, input);
    var ok := store.Update(edited);
    o := if ok then Saved else ServerError;
  }

  /** `category_delete` (the POST): looked up by (pk, user), then removed. */
  method DeleteCategory(store: CategoryStore, user: nat, pk: nat) returns (o: Outcome)
    requires store.Valid()
    modifies store
    ensures store.Valid()
    ensures o == NotFound <==> FindOwned(old(store.rows), pk, user).None?
    ensures o == Deleted <==> FindOwned(old(store.rows), pk, user).Some?
    ensures o == NotFound ==> store.rows == old(store.rows)
    ensures o == Deleted ==> store.rows == Keep(old(store.rows), IdIsNot(pk))
  {
    var found := FindOwned(store.rows, pk, user);
    if found.None? {
      return NotFound;
    }
    store.Delete(pk);
    o := Deleted;
  }
}
