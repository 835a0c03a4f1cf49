/** The finance dashboard and list views (finance/views.py) over the
    separate `Income` and `Expense` tables: the five most recent of each,
    their totals and balance, and the date-ordered lists. */
module FinanceViews {
  import opened Common
  import opened Dates
  import Ordering

  /** One row of `Income` or `Expense`; amounts in cents. */
  datatype Entry = Entry(id: nat, user: nat, description: string, amount: int, date: Date)

  /** `order_by('-date')`: `a` may come before `b` when it is not older. */
  predicate LaterFirst(a: Entry, b: Entry)
  {
    AtMost(b.date, a.date)
  }

  lemma LaterFirstIsPreorder()
    ensures Ordering.TotalPreorder(LaterFirst)
  {
  }

  function Mine(rows: seq<Entry>, user: nat): (r: seq<Entry>)
    ensures forall e :: e in r <==> e in rows && e.user == user
  {
    Keep(rows, (e: Entry) => e.user == user)
  }

  /** `Model.objects.filter(user=user).order_by('-date')`. */
  function LatestFirst(rows: seq<Entry>, user: nat): (r: seq<Entry>)
    ensures multiset(r) == multiset(Mine(rows, user))
    ensures Ordering.SortedBy(r, LaterFirst)
  {
    LaterFirstIsPreorder();
    Ordering.SortBySorted(Mine(rows, user), LaterFirst);
    Ordering.SortBy(Mine(rows, user), LaterFirst)
  }

  /** The list views hold exactly the user's rows, newest first. */
  lemma LatestFirstContents(rows: seq<Entry>, user: nat)
    ensures forall e :: e in LatestFirst(rows, user) <==> e in rows && e.user == user
    ensures |LatestFirst(rows, user)| == |Mine(rows, user)|
    ensures forall i, j :: 0 <= i < j < |LatestFirst(rows, user)| ==>
      !Before(LatestFirst(rows, user)[i].date, LatestFirst(rows, user)[j].date)
  {
    var r := LatestFirst(rows, user);
    var m := Mine(rows, user);
    assert |multiset(r)| == |multiset(m)|;
    forall e ensures e in r <==> e in m {
      assert e in r <==> e in multiset(r);
      assert e in m <==> e in multiset(m);
    }
    forall i, j | 0 <= i < j < |r| ensures !Before(r[i].date, r[j].date) {
      assert LaterFirst(r[i], r[j]);
    }
  }

  /** The `[:5]` slice of the dashboard. */
  function Recent(rows: seq<Entry>, user: nat): seq<Entry>
  {
    Take(LatestFirst(rows, user), 5)
  }

  function EntryAmount(e: Entry): int
  {
    e.amount
  }

  /** What `dashboard_view` puts in its context. */
  datatype Dashboard = Dashboard(
    recentIncomes: seq<Entry>,
    recentExpenses: seq<Entry>,
    totalIncome: int,
    totalExpense: int,
    balance: int)

  /** `dashboard_view`: Python's `sum` over the recent rows only, which is 0
      when there are none. */
  function DashboardView(incomes: seq<Entry>, expenses: seq<Entry>, user: nat): (d: Dashboard)
  {
    var recentIncomes := Recent(incomes, user);
    var recentExpenses := Recent(expenses, user);
    var totalIncome := SumOf(recentIncomes, EntryAmount);
    var totalExpense := SumOf(recentExpenses, EntryAmount);
    Dashboard(recentIncomes, recentExpenses, totalIncome, totalExpense, totalIncome - totalExpense)
  }

  /** The recent rows are at most five of the user's rows, newest first,
      and none of the user's other rows is newer than any of them. */
  lemma RecentAreLatest(rows: seq<Entry>, user: nat)
    ensures var r := Recent(rows, user);
      |r| == (if |Mine(rows, user)| < 5 then |Mine(rows, user)| else 5)
      && (forall e :: e in r ==> e in rows && e.user == user)
      && (forall i, j :: 0 <= i < j < |r| ==> !Before(r[i].date, r[j].date))
      && (forall k, i :: 0 <= i < |r| <= k < |LatestFirst(rows, user)| ==>
            !Before(r[i].date, LatestFirst(rows, user)[k].date))
  {
    var all := LatestFirst(rows, user);
    var r := Recent(rows, user);
    LatestFirstContents(rows, user);
    Ordering.PrefixPrecedesRest(all, LaterFirst, |r|);
    forall e | e in r ensures e in rows && e.user == user {
      assert e in all;
    }
    forall k, i | 0 <= i < |r| <= k < |all| ensures !Before(r[i].date, all[k].date) {
      assert LaterFirst(all[i], all[k]);
    }
  }

  /** A table with none of the user's rows contributes 0; a user with at
      most five rows of a table sees the total of all of them (with more,
      only the newest five count), and with at most five of each the balance
      is the user's whole income minus whole expense. */
  lemma DashboardTotals(incomes: seq<Entry>, expenses: seq<Entry>, user: nat)
    ensures Mine(incomes, user) == [] ==> DashboardView(incomes, expenses, user).totalIncome == 0
    ensures Mine(expenses, user) == [] ==> DashboardView(incomes, expenses, user).totalExpense == 0
    ensures |Mine(incomes, user)| <= 5 ==>
      DashboardView(incomes, expenses, user).totalIncome == SumOf(Mine(incomes, user), EntryAmount)
    ensures |Mine(expenses, user)| <= 5 ==>
      DashboardView(incomes, expenses, user).totalExpense == SumOf(Mine(expenses, user), EntryAmount)
    ensures |Mine(incomes, user)| <= 5 && |Mine(expenses, user)| <= 5 ==>
      DashboardView(incomes, expenses, user).balance
        == SumOf(Mine(incomes, user), EntryAmount) - SumOf(Mine(expenses, user), EntryAmount)
  {
    RecentIsAllWhenFew(incomes, user);
    RecentIsAllWhenFew(expenses, user);
  }

  /** With at most five rows, the recent slice sums to the user's total. */
  lemma RecentIsAllWhenFew(rows: seq<Entry>, user: nat)
    ensures Mine(rows, user) == [] ==> Recent(rows, user) == []
    ensures |Mine(rows, user)| <= 5 ==>
      SumOf(Recent(rows, user), EntryAmount) == SumOf(Mine(rows, user), EntryAmount)
  {
    LatestFirstContents(rows, user);
    if |Mine(rows, user)| <= 5 {
      SumOfPermutation(LatestFirst(rows, user), Mine(rows, user), EntryAmount);
    }
  }
}
