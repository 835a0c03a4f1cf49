/** The `Category` model (categories/models.py) and the table that stores
    categories. A category belongs to one user, is either an income or an
    expense category, and (user, name, category_type) is unique. */
module CategoryModel {
  import opened Common
  import Ordering

  /** `CATEGORY_TYPES`; transactions use the same two values. */
  datatype Kind = Income | Expense

  /** The stored string of a kind. */
  function KindName(k: Kind): string
  {
    match k
    case Income => "income"
    case Expense => "expense"
  }

  /** `value in ['income', 'expense']` followed by a lookup: any other string
      (including the empty one) names no kind. */
  function ParseKind(s: string): (r: Option<Kind>)
    ensures r.Some? <==> s == "income" || s == "expense"
    ensures r.Some? ==> KindName(r.value) == s
  {
    if s == "income" then Some(Income)
    else if s == "expense" then Some(Expense)
    else None
  }

  lemma ParseKindName(k: Kind)
    ensures ParseKind(KindName(k)) == Some(k)
  {
  }

  const DefaultIcon: string := "💰"
  const DefaultColor: string := "#FF6B6B"

  /** `COLOR_CHOICES`: (value, label). */
  const ColorChoices: seq<(string, string)> := [
    ("#FF6B6B", "แดง"), ("#4ECDC4", "เขียวน้ำทะเล"), ("#45B7D1", "ฟ้า"),
    ("#96CEB4", "เขียวอ่อน"), ("#FECA57", "เหลือง"), ("#FF9FF3", "ชมพู"),
    ("#54A0FF", "น้ำเงิน"), ("#5F27CD", "ม่วง"), ("#00D2D3", "ฟ้าใส"),
    ("#FF9F43", "ส้ม"), ("#10AC84", "เขียว"), ("#EE5A24", "ส้มแดง"),
    ("#0ABDE3", "ฟ้าอ่อน"), ("#C44569", "แดงอ่อน"), ("#40739E", "น้ำเงินเข้ม")
  ]

  /** `ICON_CHOICES`: (value, label). */
  const IconChoices: seq<(string, string)> := [
    ("💰", "เงิน"), ("🏠", "บ้าน"), ("🍕", "อาหาร"), ("⛽", "น้ำมัน"),
    ("🚗", "รถยนต์"), ("🎬", "ความบันเทิง"), ("👕", "เสื้อผ้า"), ("💊", "สุขภาพ"),
    ("📚", "การศึกษา"), ("💼", "ธุรกิจ"), ("🎁", "ของขวัญ"), ("✈️", "การเดินทาง"),
    ("📱", "เทคโนโลยี"), ("🏦", "ธนาคาร"), ("💳", "บัตรเครดิต"), ("🛍️", "ช้อปปิ้ง"),
    ("🏥", "โรงพยาบาล"), ("🎵", "ดนตรี"), ("⚡", "สาธารณูปโภค"), ("🍽️", "ร้านอาหาร")
  ]

  datatype Category = Category(
    id: nat,
    user: nat,
    name: string,
    kind: Kind,
    icon: string,
    color: string,
    isDefault: bool)

  /** A category created without explicit icon, color or `is_default` gets
      the field defaults. */
  function NewCategory(id: nat, user: nat, name: string, kind: Kind): (c: Category)
    ensures c.icon == DefaultIcon && c.color == DefaultColor && !c.isDefault
    ensures c.id == id && c.user == user && c.name == name && c.kind == kind
  {
    Category(id, user, name, kind, DefaultIcon, DefaultColor, false)
  }

  /** `display_name`: the icon, a space, then the name. */
  function DisplayName(c: Category): (s: string)
    ensures |s| == |c.icon| + 1 + |c.name|
    ensures s[..|c.icon|] == c.icon && s[|c.icon|] == ' ' && s[|c.icon| + 1..] == c.name
  {
    c.icon + " " + c.name
  }

  /** The uniqueness key `unique_together = ['user', 'name', 'category_type']`. */
  predicate SameKey(a: Category, b: Category)
  {
    a.user == b.user && a.name == b.name && a.kind == b.kind
  }

  /** No two stored categories share (user, name, category_type). */
  predicate UniqueKeys(rows: seq<Category>)
  {
    forall i, j :: 0 <= i < j < |rows| ==> !SameKey(rows[i], rows[j])
  }

  predicate DistinctIds(rows: seq<Category>)
  {
    forall i, j :: 0 <= i < j < |rows| ==> rows[i].id != rows[j].id
  }

  /** The same name may be used for an income and an expense category. */
  lemma SameNameBothKinds(user: nat, name: string, i1: nat, i2: nat)
    requires i1 != i2
    ensures UniqueKeys([NewCategory(i1, user, name, Income), NewCategory(i2, user, name, Expense)])
  {
  }

  // ---------------------------------------------------------------------
  // Meta.ordering = ['category_type', 'name']
  // ---------------------------------------------------------------------

  /** Rank of a kind under string order: "expense" < "income". */
  function KindRank(k: Kind): int
  {
    if k == Expense then 0 else 1
  }

  lemma KindRankIsStringOrder()
    ensures Ordering.LexLe(KindName(Expense), KindName(Income))
    ensures !Ordering.LexLe(KindName(Income), KindName(Expense))
  {
    assert KindName(Expense)[0] == 'e' && KindName(Income)[0] == 'i';
  }

  predicate TypeThenName(a: Category, b: Category)
  {
    KindRank(a.kind) < KindRank(b.kind)
    || (a.kind == b.kind && Ordering.LexLe(a.name, b.name))
  }

  predicate ByName(a: Category, b: Category)
  {
    Ordering.LexLe(a.name, b.name)
  }

  lemma TypeThenNameIsPreorder()
    ensures Ordering.TotalPreorder(TypeThenName)
  {
    forall a: Category, b: Category ensures TypeThenName(a, b) || TypeThenName(b, a) {
      Ordering.LexLeTotal(a.name, b.name);
    }
    forall a: Category, b: Category, c: Category | TypeThenName(a, b) && TypeThenName(b, c)
      ensures TypeThenName(a, c)
    {
      if a.kind == b.kind == c.kind {
        Ordering.LexLeTransitive(a.name, b.name, c.name);
      }
    }
  }

  lemma ByNameIsPreorder()
    ensures Ordering.TotalPreorder(ByName)
  {
    forall a: Category, b: Category ensures ByName(a, b) || ByName(b, a) {
      Ordering.LexLeTotal(a.name, b.name);
    }
    forall a: Category, b: Category, c: Category | ByName(a, b) && ByName(b, c)
      ensures ByName(a, c)
    {
      Ordering.LexLeTransitive(a.name, b.name, c.name);
    }
  }

  /** A queryset of categories in default order. */
  function Ordered(rows: seq<Category>): (r: seq<Category>)
    ensures multiset(r) == multiset(rows)
    ensures Ordering.SortedBy(r, TypeThenName)
  {
    TypeThenNameIsPreorder();
    Ordering.SortBySorted(rows, TypeThenName);
    Ordering.SortBy(rows, TypeThenName)
  }

  /** A queryset of categories with `.order_by('name')`. */
  function OrderedByName(rows: seq<Category>): (r: seq<Category>)
    ensures multiset(r) == multiset(rows)
    ensures Ordering.SortedBy(r, ByName)
  {
    ByNameIsPreorder();
    Ordering.SortBySorted(rows, ByName);
    Ordering.SortBy(rows, ByName)
  }

  /** `.filter(user=user)`. */
  function OwnedBy(rows: seq<Category>, user: nat): (r: seq<Category>)
    ensures forall c :: c in r <==> c in rows && c.user == user
  {
    Keep(rows, (c: Category) => c.user == user)
  }

  /** `.filter(user=user, category_type=kind)`. */
  function OwnedOfKind(rows: seq<Category>, user: nat, kind: Kind): (r: seq<Category>)
    ensures forall c :: c in r <==> c in rows && c.user == user && c.kind == kind
  {
    Keep(rows, (c: Category) => c.user == user && c.kind == kind)
  }

  /** The category with the given uniqueness key, if any. */
  function Lookup(rows: seq<Category>, user: nat, name: string, kind: Kind): (r: Option<Category>)
    ensures r.None? <==> forall c :: c in rows ==> !(c.user == user && c.name == name && c.kind == kind)
    ensures r.Some? ==> r.value in rows && r.value.user == user && r.value.name == name && r.value.kind == kind
  {
    if rows == [] then None
    else if rows[0].user == user && rows[0].name == name && rows[0].kind == kind then Some(rows[0])
    else Lookup(rows[1..], user, name, kind)
  }

  /** `get_object_or_404(Category, pk=pk, user=user)`: the category with that
      primary key if this user owns it; another user's category is "not
      found" just like a missing one. */
  function FindOwned(rows: seq<Category>, pk: nat, user: nat): (r: Option<Category>)
    ensures r.Some? ==> r.value in rows && r.value.id == pk && r.value.user == user
    ensures r.None? <==> forall c :: c in rows ==> !(c.id == pk && c.user == user)
  {
    if rows == [] then None
    else if rows[0].id == pk && rows[0].user == user then Some(rows[0])
    else FindOwned(rows[1..], pk, user)
  }

  /** The filter `.exclude(pk=id)`. */
  function IdIsNot(id: nat): Category -> bool
  {
    (d: Category) => d.id != id
  }

  /** The `Category` table. */
  class CategoryStore {
    var rows: seq<Category>
    var nextId: nat

    ghost predicate Valid()
      reads this
    {
      UniqueKeys(rows) && DistinctIds(rows)
      && forall i :: 0 <= i < |rows| ==> rows[i].id < nextId
    }

    constructor ()
      ensures Valid() && rows == [] && nextId == 1
    {
      rows := [];
      nextId := 1;
    }

    /** `Category.objects.get_or_create(user=, name=, category_type=,
        defaults={icon, color, is_default})`: the existing category with that
        key, untouched, or a new one built from the key and the defaults. */
    method GetOrCreate(user: nat, name: string, kind: Kind, icon: string, color: string, isDefault: bool)
      returns (c: Category, created: bool)
      requires Valid()
      modifies this
      ensures Valid()
      ensures created <==> Lookup(old(rows), user, name, kind).None?
      ensures !created ==> rows == old(rows) && nextId == old(nextId)
                           && Lookup(rows, user, name, kind) == Some(c)
      ensures created ==> c == Category(old(nextId), user, name, kind, icon, color, isDefault)
                          && rows == old(rows) + [c] && nextId == old(nextId) + 1
    {
      var found := Lookup(rows, user, name, kind);
      if found.Some? {
        c, created := found.value, false;
      } else {
        c := Category(nextId, user, name, kind, icon, color, isDefault);
        rows := rows + [c];
        nextId := nextId + 1;
        created := true;
      }
    }

    /** `instance.save()` for a new category, after the database checks the
        unique constraint: a clash is an integrity error and stores nothing. */
    method Insert(user: nat, name: string, kind: Kind, icon: string, color: string)
      returns (c: Category, ok: bool)
      requires Valid()
      modifies this
      ensures Valid()
      ensures ok <==> Lookup(old(rows), user, name, kind).None?
      ensures ok ==> c == Category(old(nextId), user, name, kind, icon, color, false)
                     && rows == old(rows) + [c] && nextId == old(nextId) + 1
      ensures !ok ==> rows == old(rows) && nextId == old(nextId)
    {
      c := Category(nextId, user, name, kind, icon, color, false);
      ok := Lookup(rows, user, name, kind).None?;
      if ok {
        rows := rows + [c];
        nextId := nextId + 1;
      }
    }

    /** `instance.save()` for an existing category (primary key `c.id`),
        checked against the unique constraint; the other rows are unchanged. */
    method Update(c: Category) returns (ok: bool)
      requires Valid()
      modifies this
      ensures Valid()
      ensures ok <==> (exists i :: 0 <= i < |old(rows)| && old(rows)[i].id == c.id)
                      && (forall d :: d in old(rows) && d.id != c.id ==> !SameKey(d, c))
      ensures ok ==> |rows| == |old(rows)|
                     && forall i :: 0 <= i < |rows| ==>
                          rows[i] == if old(rows)[i].id == c.id then c else old(rows)[i]
      ensures !ok ==> rows == old(rows)
      ensures nextId == old(nextId)
    {
      var i := 0;
      var at := -1;
      ok := true;
      while i < |rows|
        invariant 0 <= i <= |rows|
        invariant -1 <= at < i
        invariant at >= 0 ==> rows[at].id == c.id
        invariant at < 0 ==> forall k :: 0 <= k < i ==> rows[k].id != c.id
        invariant ok <==> forall k :: 0 <= k < i && rows[k].id != c.id ==> !SameKey(rows[k], c)
      {
        if rows[i].id == c.id {
          at := i;
        } else if SameKey(rows[i], c) {
          ok := false;
        }
        i := i + 1;
      }
      if at < 0 {
        ok := false;
      }
      if ok {
        assert forall d :: d in rows && d.id != c.id ==> !SameKey(d, c);
        rows := rows[at := c];
      }
    }

    /** `instance.delete()`: removes the category with primary key `id`. */
    method Delete(id: nat)
      requires Valid()
      modifies this
      ensures Valid()
      ensures rows == Keep(old(rows), IdIsNot(id))
      ensures nextId == old(nextId)
    {
      rows := Keep(rows, IdIsNot(id));
      KeepPreservesValid(old(rows), id);
    }

    static lemma KeepPreservesValid(rows: seq<Category>, id: nat)
      requires UniqueKeys(rows) && DistinctIds(rows)
      ensures UniqueKeys(Keep(rows, IdIsNot(id))) && DistinctIds(Keep(rows, IdIsNot(id)))
    {
      if rows != [] {
        KeepPreservesValid(rows[1..], id);
      }
    }
  }
}
