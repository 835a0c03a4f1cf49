/** The `create_default_categories` management command
    (categories/management/commands/create_default_categories.py): gives
    every selected user the 5 default income and 10 default expense
    categories, creating only those that are missing. */
module DefaultCategories {
  import opened Common
  import opened CategoryModel

  /** One default category: name, icon and color. */
  datatype Seed = Seed(name: string, icon: string, color: string)

  const IncomeSeeds: seq<Seed> := [
    Seed("เงินเดือน", "💰", "#28a745"),
    Seed("โบนัส", "🎁", "#17a2b8"),
    Seed("ธุรกิจส่วนตัว", "💼", "#6f42c1"),
    Seed("การลงทุน", "📈", "#20c997"),
    Seed("อื่นๆ", "💳", "#6c757d")
  ]

  const ExpenseSeeds: seq<Seed> := [
    Seed("อาหาร", "🍕", "#fd7e14"),
    Seed("ที่อยู่อาศัย", "🏠", "#e83e8c"),
    Seed("การเดินทาง", "🚗", "#20c997"),
    Seed("ความบันเทิง", "🎬", "#6f42c1"),
    Seed("เสื้อผ้า", "👕", "#dc3545"),
    Seed("สุขภาพ", "💊", "#198754"),
    Seed("การศึกษา", "📚", "#0dcaf0"),
    Seed("ช้อปปิ้ง", "🛍️", "#ffc107"),
    Seed("สาธารณูปโภค", "⚡", "#6c757d"),
    Seed("อื่นๆ", "💳", "#adb5bd")
  ]

  /** 'อื่นๆ' ("other") is both an income and an expense default; the type
      is part of the key, so both can exist for one user. */
  lemma OtherIsSeededTwice(user: nat)
    ensures IncomeSeeds[4].name == ExpenseSeeds[9].name
    ensures UniqueKeys([Category(1, user, IncomeSeeds[4].name, Income, IncomeSeeds[4].icon, IncomeSeeds[4].color, true),
                        Category(2, user, ExpenseSeeds[9].name, Expense, ExpenseSeeds[9].icon, ExpenseSeeds[9].color, true)])
  {
  }

  /** The users the command processes: `--user-id` picks that user only, but
      `if user_id:` treats 0 like an absent option, so 0 means all users. */
  function SelectUsers(users: seq<nat>, userId: Option<int>): (r: seq<nat>)
    ensures (userId.None? || userId.value == 0) ==> r == users
    ensures userId.Some? && userId.value != 0 ==>
      forall u :: u in r <==> u in users && u == userId.value
  {
    if userId.Some? && userId.value != 0 then Keep(users, (u: nat) => u == userId.value) else users
  }

  /** `user` has a category with this name and type. */
  predicate Has(rows: seq<Category>, user: nat, name: string, kind: Kind)
  {
    Lookup(rows, user, name, kind).Some?
  }

  /** `user` has every default of `kind` drawn from `seeds`. */
  predicate HasAll(rows: seq<Category>, user: nat, seeds: seq<Seed>, kind: Kind)
  {
    forall s {:trigger Has(rows, user, s.name, kind)} :: s in seeds ==> Has(rows, user, s.name, kind)
  }

  /** `user` has every default of both lists. */
  predicate SeededWith(rows: seq<Category>, user: nat, incomes: seq<Seed>, expenses: seq<Seed>)
  {
    HasAll(rows, user, incomes, Income) && HasAll(rows, user, expenses, Expense)
  }

  predicate Seeded(rows: seq<Category>, user: nat)
  {
    SeededWith(rows, user, IncomeSeeds, ExpenseSeeds)
  }

  /** A category the command creates: flagged default, owned by a processed
      user, and carrying the name, icon and color of one seed of its type. */
  predicate FromSeeds(c: Category, seeds: seq<Seed>)
  {
    exists s :: s in seeds && s.name == c.name && s.icon == c.icon && s.color == c.color
  }

  predicate IsSeedRowWith(c: Category, users: seq<nat>, incomes: seq<Seed>, expenses: seq<Seed>)
  {
    c.isDefault && c.user in users
    && (c.kind == Income ==> FromSeeds(c, incomes))
    && (c.kind == Expense ==> FromSeeds(c, expenses))
  }

  predicate IsSeedRow(c: Category, users: seq<nat>)
  {
    IsSeedRowWith(c, users, IncomeSeeds, ExpenseSeeds)
  }

  /** Adding rows never loses a category. */
  lemma HasPersists(a: seq<Category>, extra: seq<Category>, user: nat, name: string, kind: Kind)
    requires Has(a, user, name, kind)
    ensures Has(a + extra, user, name, kind)
  {
    var c := Lookup(a, user, name, kind).value;
    assert c in a + extra;
  }

  lemma HasAllPersists(a: seq<Category>, extra: seq<Category>, user: nat, seeds: seq<Seed>, kind: Kind)
    requires HasAll(a, user, seeds, kind)
    ensures HasAll(a + extra, user, seeds, kind)
  {
    forall s | s in seeds ensures Has(a + extra, user, s.name, kind) {
      HasPersists(a, extra, user, s.name, kind);
    }
  }

  lemma SeededPersists(a: seq<Category>, extra: seq<Category>, user: nat, incomes: seq<Seed>, expenses: seq<Seed>)
    requires SeededWith(a, user, incomes, expenses)
    ensures SeededWith(a + extra, user, incomes, expenses)
  {
    HasAllPersists(a, extra, user, incomes, Income);
    HasAllPersists(a, extra, user, expenses, Expense);
  }

  /** A row created by one inner loop for `user` and `kind`. */
  predicate CreatedFor(c: Category, user: nat, kind: Kind, seeds: seq<Seed>)
  {
    c.isDefault && c.user == user && c.kind == kind && FromSeeds(c, seeds)
  }

  /** What one `get_or_create` of seed `i` does to the inner loop's
      invariant: the seed is present afterwards, earlier seeds stay present,
      and a new row is a seed row of `user` and `kind`. */
  lemma SeedStep(before: seq<Category>, added: seq<Category>, after: seq<Category>, c: Category, isNew: bool,
                 user: nat, seeds: seq<Seed>, kind: Kind, i: nat)
    requires i < |seeds|
    requires isNew <==> Lookup(before + added, user, seeds[i].name, kind).None?
    requires !isNew ==> after == before + added && Lookup(after, user, seeds[i].name, kind) == Some(c)
    requires isNew ==> after == before + added + [c]
                       && c.isDefault && c.user == user && c.kind == kind
                       && c.name == seeds[i].name && c.icon == seeds[i].icon && c.color == seeds[i].color
    requires forall j :: 0 <= j < i ==> Has(before + added, user, seeds[j].name, kind)
    requires forall k :: 0 <= k < |added| ==> CreatedFor(added[k], user, kind, seeds)
    requires HasAll(before, user, seeds, kind) ==> added == []
    ensures var added' := if isNew then added + [c] else added;
      after == before + added'
      && (forall j :: 0 <= j <= i ==> Has(after, user, seeds[j].name, kind))
      && (forall k :: 0 <= k < |added'| ==> CreatedFor(added'[k], user, kind, seeds))
      && (HasAll(before, user, seeds, kind) ==> added' == [])
  {
    var added' := if isNew then added + [c] else added;
    if isNew {
      assert seeds[i] in seeds;
      assert CreatedFor(c, user, kind, seeds);
      assert after == before + added';
      forall j | 0 <= j < i ensures Has(after, user, seeds[j].name, kind) {
        HasPersists(before + added, [c], user, seeds[j].name, kind);
      }
      assert c in after;
      assert !Has(before + added, user, seeds[i].name, kind);
      assert HasAll(before, user, seeds, kind) ==> Has(before, user, seeds[i].name, kind);
    }
  }

  /** One inner loop of `handle`: `get_or_create` each seed of `kind` for
      `user`, counting the categories created. */
  method SeedKind(store: CategoryStore, user: nat, seeds: seq<Seed>, kind: Kind)
    returns (created: nat, ghost added: seq<Category>)
    requires store.Valid()
    modifies store
    ensures store.Valid()
    ensures store.rows == old(store.rows) + added
    ensures created == |added| <= |seeds|
    ensures HasAll(store.rows, user, seeds, kind)
    ensures forall k :: 0 <= k < |added| ==> CreatedFor(added[k], user, kind, seeds)
    ensures HasAll(old(store.rows), user, seeds, kind) ==> added == []
  {
    created := 0;
    added := [];
    ghost var before := store.rows;
    for i := 0 to |seeds|
      invariant store.Valid()
      invariant store.rows == before + added
      invariant created == |added| <= i
      invariant forall j :: 0 <= j < i ==> Has(store.rows, user, seeds[j].name, kind)
      invariant forall k :: 0 <= k < |added| ==> CreatedFor(added[k], user, kind, seeds)
      invariant HasAll(before, user, seeds, kind) ==> added == []
    {
      var s := seeds[i];
      var c, isNew := store.GetOrCreate(user, s.name, kind, s.icon, s.color, true);
      SeedStep(before, added, store.rows, c, isNew, user, seeds, kind, i);
      if isNew {
        created := created + 1;
        added := added + [c];
      }
    }
    forall s | s in seeds ensures Has(store.rows, user, s.name, kind) {
      var j :| 0 <= j < |seeds| && seeds[j] == s;
    }
  }

  /** A row created for `user`: flagged default and carrying the name,
      icon and color of one seed of its type. */
  predicate SeedRowOf(c: Category, user: nat, incomes: seq<Seed>, expenses: seq<Seed>)
  {
    c.isDefault && c.user == user
    && (c.kind == Income ==> FromSeeds(c, incomes))
    && (c.kind == Expense ==> FromSeeds(c, expenses))
  }

  /** One pass of the outer loop body: both inner loops for one user. */
  method SeedUser(store: CategoryStore, user: nat, incomes: seq<Seed>, expenses: seq<Seed>)
    returns (count: nat, ghost added: seq<Category>)
    requires store.Valid()
    modifies store
    ensures store.Valid()
    ensures store.rows == old(store.rows) + added
    ensures count == |added| <= |incomes| + |expenses|
    ensures SeededWith(store.rows, user, incomes, expenses)
    ensures forall k :: 0 <= k < |added| ==> SeedRowOf(added[k], user, incomes, expenses)
    ensures SeededWith(old(store.rows), user, incomes, expenses) ==> added == []
  {
    ghost var before := store.rows;
    var incomeCreated, incomeAdded := SeedKind(store, user, incomes, Income);
    ghost var mid := store.rows;
    var expenseCreated, expenseAdded := SeedKind(store, user, expenses, Expense);
    HasAllPersists(mid, expenseAdded, user, incomes, Income);
    added := incomeAdded + expenseAdded;
    count := incomeCreated + expenseCreated;
    CreatedAreSeedRows(incomeAdded, expenseAdded, user, incomes, expenses);
    if SeededWith(before, user, incomes, expenses) {
      assert mid == before;
    }
  }

  lemma CreatedAreSeedRows(inc: seq<Category>, exp: seq<Category>, user: nat, incomes: seq<Seed>, expenses: seq<Seed>)
    requires forall k :: 0 <= k < |inc| ==> CreatedFor(inc[k], user, Income, incomes)
    requires forall k :: 0 <= k < |exp| ==> CreatedFor(exp[k], user, Expense, expenses)
    ensures forall k :: 0 <= k < |inc + exp| ==> SeedRowOf((inc + exp)[k], user, incomes, expenses)
  {
    forall k | 0 <= k < |inc + exp| ensures SeedRowOf((inc + exp)[k], user, incomes, expenses) {
      if k < |inc| {
        assert (inc + exp)[k] == inc[k];
      } else {
        assert (inc + exp)[k] == exp[k - |inc|];
      }
    }
  }

  /** The outer loop of `handle` over the selected users, for any two
      default lists. */
  method SeedUsers(store: CategoryStore, selected: seq<nat>, incomes: seq<Seed>, expenses: seq<Seed>)
    returns (createdCount: nat, ghost added: seq<Category>)
    requires store.Valid()
    modifies store
    ensures store.Valid()
    ensures store.rows == old(store.rows) + added
    ensures createdCount == |added| <= (|incomes| + |expenses|) * |selected|
    ensures forall u :: u in selected ==> SeededWith(store.rows, u, incomes, expenses)
    ensures forall k :: 0 <= k < |added| ==> IsSeedRowWith(added[k], selected, incomes, expenses)
    ensures (forall u :: u in selected ==> SeededWith(old(store.rows), u, incomes, expenses)) ==> added == []
  {
    createdCount := 0;
    ghost var before := store.rows;
    ghost var allSeeded := forall u :: u in selected ==> SeededWith(before, u, incomes, expenses);
    added := [];
    for i := 0 to |selected|
      invariant store.Valid()
      invariant store.rows == before + added
      invariant createdCount == |added| <= (|incomes| + |expenses|) * i
      invariant forall j :: 0 <= j < i ==> SeededWith(store.rows, selected[j], incomes, expenses)
      invariant forall k :: 0 <= k < |added| ==> IsSeedRowWith(added[k], selected, incomes, expenses)
      invariant allSeeded ==> added == []
    {
      var user := selected[i];
      ghost var prev := store.rows;
      var count, extra := SeedUser(store, user, incomes, expenses);
      StaysSeeded(prev, extra, selected, i, incomes, expenses);
      AppendSeedRows(added, extra, selected, i, incomes, expenses);
      if allSeeded {
        assert user in selected;
        assert prev == before;
      }
      createdCount := createdCount + count;
      added := added + extra;
      PerUserBound(createdCount, count, |incomes| + |expenses|, i);
    }
    forall u | u in selected ensures SeededWith(store.rows, u, incomes, expenses) {
      var j :| 0 <= j < |selected| && selected[j] == u;
    }
  }

  /** Adding at most `n` per user keeps the count within `n` per user. */
  lemma PerUserBound(total: nat, step: nat, n: nat, i: nat)
    requires total - step <= n * i && step <= n
    ensures total <= n * (i + 1)
  {
  }

  /** Earlier users stay seeded when rows are added. */
  lemma StaysSeeded(a: seq<Category>, extra: seq<Category>, selected: seq<nat>, i: nat, incomes: seq<Seed>, expenses: seq<Seed>)
    requires i <= |selected|
    requires forall j :: 0 <= j < i ==> SeededWith(a, selected[j], incomes, expenses)
    ensures forall j :: 0 <= j < i ==> SeededWith(a + extra, selected[j], incomes, expenses)
  {
    forall j | 0 <= j < i ensures SeededWith(a + extra, selected[j], incomes, expenses) {
      SeededPersists(a, extra, selected[j], incomes, expenses);
    }
  }

  /** Rows created for a selected user are seed rows of the selection. */
  lemma AppendSeedRows(added: seq<Category>, extra: seq<Category>, selected: seq<nat>, i: nat,
                       incomes: seq<Seed>, expenses: seq<Seed>)
    requires i < |selected|
    requires forall k :: 0 <= k < |added| ==> IsSeedRowWith(added[k], selected, incomes, expenses)
    requires forall k :: 0 <= k < |extra| ==> SeedRowOf(extra[k], selected[i], incomes, expenses)
    ensures forall k :: 0 <= k < |added + extra| ==> IsSeedRowWith((added + extra)[k], selected, incomes, expenses)
  {
    assert selected[i] in selected;
    forall k | 0 <= k < |added + extra| ensures IsSeedRowWith((added + extra)[k], selected, incomes, expenses) {
      if k < |added| {
        assert (added + extra)[k] == added[k];
      } else {
        assert (added + extra)[k] == extra[k - |added|];
      }
    }
  }

  /** `Command.handle`: seeds every selected user and returns
      `created_count`. Existing categories are never altered; afterwards
      each selected user has all 15 defaults; the count is the number of
      rows added, at most 15 per user; a run over users that already have
      every default creates nothing and changes nothing. */
  method Handle(store: CategoryStore, users: seq<nat>, userId: Option<int>) returns (createdCount: nat)
    requires store.Valid()
    modifies store
    ensures store.Valid()
    ensures |store.rows| == |old(store.rows)| + createdCount
    ensures createdCount <= 15 * |SelectUsers(users, userId)|
    ensures store.rows[..|old(store.rows)|] == old(store.rows)
    ensures forall u :: u in SelectUsers(users, userId) ==> Seeded(store.rows, u)
    ensures forall k :: |old(store.rows)| <= k < |store.rows| ==> IsSeedRow(store.rows[k], SelectUsers(users, userId))
    ensures (forall u :: u in SelectUsers(users, userId) ==> Seeded(old(store.rows), u)) ==>
      createdCount == 0 && store.rows == old(store.rows)
  {
    var selected := SelectUsers(users, userId);
    ghost var before := store.rows;
    ghost var added;
    createdCount, added := SeedUsers(store, selected, IncomeSeeds, ExpenseSeeds);
    assert store.rows[..|before|] == before;
    forall k | |before| <= k < |store.rows| ensures IsSeedRow(store.rows[k], selected) {
      assert store.rows[k] == added[k - |before|];
    }
  }
}
