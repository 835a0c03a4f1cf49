/** The `Transaction` model (transactions/models.py): the record, its
    validation, the signed amount, the category caption, the default order,
    and the table of saved transactions (`save` always validates first). */
module TransactionModel {
  import opened Common
  import opened Dates
  import opened CategoryModel
  import Ordering

  /** `DecimalField(max_digits=12, decimal_places=2)` in cents: at most ten
      integer digits and two decimals, so at most twelve digits in all. */
  const MaxCents: int := 999_999_999_999

  /** One ledger entry. Amounts are in cents; `createdAt` is the
      `auto_now_add` timestamp, taken from the clock on first save. The
      category is the referenced row's value at the time of use. */
  datatype Transaction = Transaction(
    id: nat,
    user: nat,
    category: Category,
    description: string,
    amount: int,
    kind: Kind,
    date: Date,
    notes: string,
    createdAt: int)

  // ---------------------------------------------------------------------
  // clean() and full_clean()
  // ---------------------------------------------------------------------

  datatype CleanError = TypeMismatch | NonPositiveAmount

  /** The amount guard as written, `if self.amount and self.amount <= 0`: a
      zero `Decimal` is falsy, so only a strictly negative amount is caught. */
  predicate AmountRejectedAsWritten(amount: int)
  {
    amount != 0 && amount <= 0
  }

  /** The guard the error message "amount must be greater than 0" asks for. */
  predicate AmountRejected(amount: int)
  {
    amount <= 0
  }

  /** Which amount guard `clean` applies: the one in the source, or the
      corrected one. The table, the form and the views are stated for
      either, so the program as written is the `AsWritten` instance. */
  datatype AmountGuard = AsWritten | Corrected

  predicate Rejects(g: AmountGuard, amount: int)
  {
    match g
    case AsWritten => AmountRejectedAsWritten(amount)
    case Corrected => AmountRejected(amount)
  }

  /** The least amount the guard lets through. */
  function MinAmount(g: AmountGuard): int
  {
    if g == AsWritten then 0 else 1
  }

  /** `Transaction.clean` under guard `g`: the type check first, then the
      amount check; the first failure is raised. */
  function CleanWith(t: Transaction, g: AmountGuard): (r: Option<CleanError>)
    ensures r == Some(TypeMismatch) <==> t.category.kind != t.kind
    ensures r == Some(NonPositiveAmount) <==> t.category.kind == t.kind && t.amount < MinAmount(g)
    ensures r.None? <==> t.category.kind == t.kind && t.amount >= MinAmount(g)
  {
    if t.category.kind != t.kind then Some(TypeMismatch)
    else if Rejects(g, t.amount) then Some(NonPositiveAmount)
    else None
  }

  /** `Transaction.clean` as written. */
  function CleanAsWritten(t: Transaction): (r: Option<CleanError>)
    ensures r == Some(TypeMismatch) <==> t.category.kind != t.kind
    ensures r == Some(NonPositiveAmount) <==> t.category.kind == t.kind && t.amount < 0
    ensures r.None? <==> t.category.kind == t.kind && t.amount >= 0
  {
    CleanWith(t, AsWritten)
  }

  /** `Transaction.clean` with the amount guard corrected to reject zero. */
  function Clean(t: Transaction): (r: Option<CleanError>)
    ensures r == Some(TypeMismatch) <==> t.category.kind != t.kind
    ensures r == Some(NonPositiveAmount) <==> t.category.kind == t.kind && t.amount <= 0
    ensures r.None? <==> t.category.kind == t.kind && t.amount > 0
  {
    CleanWith(t, Corrected)
  }

  /** A concrete record with a zero amount: accepted as written, rejected
      by the corrected check. */
  lemma ZeroAmountPassesClean(c: Category)
    ensures var t := Transaction(1, c.user, c, "x", 0, c.kind, Date(2024, 1, 1), "", 0);
            CleanAsWritten(t).None? && Clean(t) == Some(NonPositiveAmount)
  {
  }

  /** The two checks differ on the zero amount only. */
  lemma CleanDiffersOnlyAtZero(t: Transaction)
    ensures CleanAsWritten(t) != Clean(t) <==> t.category.kind == t.kind && t.amount == 0
  {
  }

  /** `clean_fields`: description present and at most 255 characters, the
      amount within the decimal field's digits, a real calendar date. */
  predicate FieldsValid(t: Transaction)
  {
    1 <= |t.description| <= 255
    && -MaxCents <= t.amount <= MaxCents
    && Valid(t.date)
  }

  /** `full_clean()` under guard `g`: field validation and `clean` both
      pass. */
  predicate FullClean(t: Transaction, g: AmountGuard)
  {
    FieldsValid(t) && CleanWith(t, g).None?
  }

  /** What `full_clean` guarantees about a record that may be stored: its
      category has its type, and its amount fits the column and is at least
      the guard's minimum (0 as written, so a zero amount passes; 1 cent
      when corrected). */
  lemma FullCleanMeans(t: Transaction, g: AmountGuard)
    ensures FullClean(t, g) <==>
      t.category.kind == t.kind && MinAmount(g) <= t.amount <= MaxCents
      && 1 <= |t.description| <= 255 && Valid(t.date)
    ensures FullClean(t, Corrected) ==> FullClean(t, AsWritten)
    ensures FullClean(t, AsWritten) && !FullClean(t, Corrected) <==> FullClean(t, AsWritten) && t.amount == 0
  {
  }

  // ---------------------------------------------------------------------
  // signed_amount and category_display
  // ---------------------------------------------------------------------

  /** `signed_amount`: the amount for income, its negation otherwise. */
  function SignedAmount(t: Transaction): (r: int)
  {
    if t.kind == Income then t.amount else -t.amount
  }

  function Amount(t: Transaction): (r: int)
  {
    t.amount
  }

  function IsKind(k: Kind): Transaction -> bool
  {
    (t: Transaction) => t.kind == k
  }

  /** Summing signed amounts gives income minus expense. */
  lemma {:induction false} NetIsIncomeMinusExpense(rows: seq<Transaction>)
    ensures SumOf(rows, SignedAmount)
            == SumOf(Keep(rows, IsKind(Income)), Amount) - SumOf(Keep(rows, IsKind(Expense)), Amount)
  {
    if rows != [] {
      NetIsIncomeMinusExpense(rows[1..]);
      var head := [rows[0]];
      SumOfAppend(if rows[0].kind == Income then head else [], Keep(rows[1..], IsKind(Income)), Amount);
      SumOfAppend(if rows[0].kind == Expense then head else [], Keep(rows[1..], IsKind(Expense)), Amount);
    }
  }

  /** For a record that passed `full_clean`, `signed_amount` carries the
      amount with the sign of its type; it is zero only for a zero amount,
      which only the guard as written lets through. With the corrected
      guard the sign tells the type. */
  lemma SignTellsKind(t: Transaction, g: AmountGuard)
    requires FullClean(t, g)
    ensures t.kind == Income ==> SignedAmount(t) == t.amount >= 0
    ensures t.kind == Expense ==> SignedAmount(t) == -t.amount <= 0
    ensures SignedAmount(t) == 0 <==> t.amount == 0
    ensures SignedAmount(t) == 0 ==> g == AsWritten
    ensures g == Corrected ==> (SignedAmount(t) > 0 <==> t.kind == Income)
    ensures g == Corrected ==> (SignedAmount(t) < 0 <==> t.kind == Expense)
  {
  }

  /** `category_display`: the category's icon, a space and its name. The
      category is a required foreign key, so every record has one and the
      empty-string branch is never taken. */
  function CategoryDisplay(t: Transaction): (s: string)
    ensures |s| == |t.category.icon| + 1 + |t.category.name|
    ensures s[..|t.category.icon|] == t.category.icon && s[|t.category.icon|] == ' '
    ensures s[|t.category.icon| + 1..] == t.category.name
  {
    DisplayName(t.category)
  }

  // ---------------------------------------------------------------------
  // Meta.ordering = ['-date', '-created_at']
  // ---------------------------------------------------------------------

  /** `a` may come before `b`: a later date, or the same date and a later or
      equal creation time. */
  predicate NewerFirst(a: Transaction, b: Transaction)
  {
    Before(b.date, a.date) || (a.date == b.date && a.createdAt >= b.createdAt)
  }

  lemma NewerFirstIsPreorder()
    ensures Ordering.TotalPreorder(NewerFirst)
  {
  }

  /** A queryset of transactions in default order. */
  function OrderedTransactions(rows: seq<Transaction>): (r: seq<Transaction>)
    ensures multiset(r) == multiset(rows)
    ensures Ordering.SortedBy(r, NewerFirst)
  {
    NewerFirstIsPreorder();
    Ordering.SortBySorted(rows, NewerFirst);
    Ordering.SortBy(rows, NewerFirst)
  }

  /** In default order no transaction precedes one dated later. */
  lemma OrderedByDateDescending(rows: seq<Transaction>)
    ensures forall i, j :: 0 <= i < j < |OrderedTransactions(rows)| ==> !Before(OrderedTransactions(rows)[i].date, OrderedTransactions(rows)[j].date)
  {
    var r := OrderedTransactions(rows);
    forall i, j | 0 <= i < j < |r| ensures !Before(r[i].date, r[j].date) {
      assert NewerFirst(r[i], r[j]);
    }
  }

  // ---------------------------------------------------------------------
  // The transactions table
  // ---------------------------------------------------------------------

  predicate UniqueIds(rows: seq<Transaction>)
  {
    forall i, j :: 0 <= i < j < |rows| ==> rows[i].id != rows[j].id
  }

  /** `.filter(user=user)`. */
  function OwnedTransactions(rows: seq<Transaction>, user: nat): (r: seq<Transaction>)
    ensures forall t :: t in r <==> t in rows && t.user == user
  {
    Keep(rows, (t: Transaction) => t.user == user)
  }

  /** `get_object_or_404(Transaction, pk=pk, user=user)`. */
  function FindOwnedTransaction(rows: seq<Transaction>, pk: nat, user: nat): (r: Option<Transaction>)
    ensures r.None? <==> forall t :: t in rows ==> !(t.id == pk && t.user == user)
    ensures r.Some? ==> r.value in rows && r.value.id == pk && r.value.user == user
  {
    if rows == [] then None
    else if rows[0].id == pk && rows[0].user == user then Some(rows[0])
    else FindOwnedTransaction(rows[1..], pk, user)
  }

  function WithoutId(id: nat): Transaction -> bool
  {
    (t: Transaction) => t.id != id
  }

  /** The saved transactions. Every stored row passed `full_clean`, because
      `save` runs it before writing; `guard` is the amount guard that
      `clean` applies (`AsWritten` for the program as it stands). */
  class TransactionStore {
    const guard: AmountGuard
    var rows: seq<Transaction>
    var nextId: nat

    ghost predicate Valid()
      reads this
    {
      UniqueIds(rows)
      && (forall i :: 0 <= i < |rows| ==> rows[i].id < nextId)
      && (forall i :: 0 <= i < |rows| ==> FullClean(rows[i], guard))
    }

    constructor (g: AmountGuard)
      ensures Valid() && guard == g && rows == [] && nextId == 1
    {
      guard := g;
      rows := [];
      nextId := 1;
    }

    /** `save()` of a new record: `full_clean` first, and only a clean
        record is inserted, with the next primary key and the current time
        as its creation time. */
    method Create(t: Transaction, now: int) returns (saved: Transaction, ok: bool)
      requires Valid()
      modifies this
      ensures Valid()
      ensures saved == t.(id := old(nextId), createdAt := now)
      ensures ok <==> FullClean(t, guard)
      ensures ok ==> rows == old(rows) + [saved] && nextId == old(nextId) + 1
      ensures !ok ==> rows == old(rows) && nextId == old(nextId)
    {
      saved := t.(id := nextId, createdAt := now);
      ok := FullClean(t, guard);
      if ok {
        rows := rows + [saved];
        nextId := nextId + 1;
      }
    }

    /** `save()` of a record already stored under `t.id`: `full_clean`
        first, then the row is overwritten in place; the other rows are
        unchanged. */
    method Update(t: Transaction) returns (ok: bool)
      requires Valid()
      modifies this
      ensures Valid()
      ensures ok <==> FullClean(t, guard) && exists i :: 0 <= i < |old(rows)| && old(rows)[i].id == t.id
      ensures ok ==> |rows| == |old(rows)|
                     && forall i :: 0 <= i < |rows| ==>
                          rows[i] == if old(rows)[i].id == t.id then t else old(rows)[i]
      ensures !ok ==> rows == old(rows)
      ensures nextId == old(nextId)
    {
      if !FullClean(t, guard) {
        return false;
      }
      var i := 0;
      while i < |rows| && rows[i].id != t.id
        invariant 0 <= i <= |rows|
        invariant forall k :: 0 <= k < i ==> rows[k].id != t.id
      {
        i := i + 1;
      }
      ok := i < |rows|;
      if ok {
        rows := rows[i := t];
      }
    }

    /** `transaction.delete()`: removes the row with primary key `id`. */
    method Delete(id: nat)
      requires Valid()
      modifies this
      ensures Valid()
      ensures rows == Keep(old(rows), WithoutId(id))
      ensures nextId == old(nextId)
    {
      rows := Keep(rows, WithoutId(id));
      KeepPreservesUniqueIds(old(rows), id);
    }

    static lemma {:induction false} KeepPreservesUniqueIds(rows: seq<Transaction>, id: nat)
      requires UniqueIds(rows)
      ensures UniqueIds(Keep(rows, WithoutId(id)))
    {
      if rows != [] {
        KeepPreservesUniqueIds(rows[1..], id);
      }
    }
  }

  /** Whatever sequence of operations built it, a valid table holds only
      records that pass `full_clean`: amounts of at least the guard's minimum
      (zero amounts are stored as written, never with the corrected guard),
      whose category has the record's type, and whose signed amount has the
      sign of that type. */
  lemma StoredRowsAreClean(rows: seq<Transaction>, g: AmountGuard, t: Transaction)
    requires forall i :: 0 <= i < |rows| ==> FullClean(rows[i], g)
    requires t in rows
    ensures t.amount >= MinAmount(g) >= 0 && t.category.kind == t.kind
    ensures t.kind == Income ==> SignedAmount(t) >= 0
    ensures t.kind == Expense ==> SignedAmount(t) <= 0
    ensures g == Corrected ==> t.amount > 0 && ((t.kind == Income) == (SignedAmount(t) > 0))
  {
  }
}
