/**
 * src/modules/reports/reports.service.ts: the aggregation done after each report's query.
 * Every report takes the rows of the transaction table as a sequence (the order the
 * database returns them in) and is a function of them.
 */
module Reports {
  import opened Common
  import opened Entities
  import opened Helpers
  import opened Ledger
  import opened Sorting

  function Amount(t: Transaction): int {
    t.amount
  }

  /** The `where` of every report: the user's PAID transactions dated in `[start, end]`. */
  predicate PaidIn(t: Transaction, user: UserId, start: Date, end: Date) {
    t.owner == user && t.status == Paid && InRange(t.date, start, end)
  }

  function PaidRows(rows: seq<Transaction>, user: UserId, start: Date, end: Date): seq<Transaction> {
    Filter(rows, t => PaidIn(t, user, start, end))
  }

  function OfType(ts: seq<Transaction>, ty: TxType): seq<Transaction> {
    Filter(ts, (t: Transaction) => t.txType == ty)
  }

  lemma {:induction false} SumByAppend<T>(s: seq<T>, x: T, f: T -> int)
    ensures SumBy(s + [x], f) == SumBy(s, f) + f(x)
  {
    assert (s + [x])[..|s|] == s;
  }

  /** Income and expense split the rows, so the net of the two sums is the signed sum. */
  lemma {:induction false} IncomeMinusExpense(ts: seq<Transaction>)
    ensures SumBy(OfType(ts, Income), Amount) + SumBy(OfType(ts, Expense), Amount) == SumBy(ts, Amount)
    ensures SumBy(OfType(ts, Income), Amount) - SumBy(OfType(ts, Expense), Amount) == SumBy(ts, SignedAmount)
    decreases |ts|
  {
    if ts != [] {
      var init, t := ts[..|ts| - 1], ts[|ts| - 1];
      IncomeMinusExpense(init);
      SumByAppend(OfType(init, Income), t, Amount);
      SumByAppend(OfType(init, Expense), t, Amount);
    }
  }

  // ---------------------------------------------------------------- grouping

  /** One accumulator entry of a report's `reduce`: a key, the running total and the count. */
  datatype Group<K> = Group(key: K, total: int, count: nat)

  function GroupTotalOf<K>(g: Group<K>): int {
    g.total
  }

  function GroupCountOf<K>(g: Group<K>): int {
    g.count
  }

  /** `acc[key] ??= { total: 0, count: 0 }; acc[key].total += amount; acc[key].count += 1`. */
  function AddTo<K(==)>(gs: seq<Group<K>>, k: K, amount: int): seq<Group<K>> {
    if gs == [] then [Group(k, amount, 1)]
    else if gs[0].key == k then [gs[0].(total := gs[0].total + amount, count := gs[0].count + 1)] + gs[1..]
    else [gs[0]] + AddTo(gs[1..], k, amount)
  }

  /** The `reduce` over the rows; `Object.values` lists keys in first-insertion order. */
  function GroupBy<K(==)>(ts: seq<Transaction>, key: Transaction -> K): seq<Group<K>> {
    if ts == [] then []
    else AddTo(GroupBy(ts[..|ts| - 1], key), key(ts[|ts| - 1]), ts[|ts| - 1].amount)
  }

  function Keys<K>(gs: seq<Group<K>>): seq<K> {
    if gs == [] then [] else [gs[0].key] + Keys(gs[1..])
  }

  predicate KeysDistinct<K(==)>(gs: seq<Group<K>>) {
    gs == [] || (gs[0].key !in Keys(gs[1..]) && KeysDistinct(gs[1..]))
  }

  function GroupTotal<K(==)>(gs: seq<Group<K>>, k: K): int {
    if gs == [] then 0 else (if gs[0].key == k then gs[0].total else 0) + GroupTotal(gs[1..], k)
  }

  function GroupCount<K(==)>(gs: seq<Group<K>>, k: K): int {
    if gs == [] then 0 else (if gs[0].key == k then gs[0].count else 0) + GroupCount(gs[1..], k)
  }

  /** Reference definitions: the total and number of rows with key `k`, straight from the rows. */
  function AmountWhere<K(==)>(ts: seq<Transaction>, key: Transaction -> K, k: K): int {
    if ts == [] then 0
    else AmountWhere(ts[..|ts| - 1], key, k) + (if key(ts[|ts| - 1]) == k then ts[|ts| - 1].amount else 0)
  }

  function CountWhere<K(==)>(ts: seq<Transaction>, key: Transaction -> K, k: K): nat {
    if ts == [] then 0
    else CountWhere(ts[..|ts| - 1], key, k) + (if key(ts[|ts| - 1]) == k then 1 else 0)
  }

  lemma {:induction false} KeysIndex<K>(gs: seq<Group<K>>)
    ensures |Keys(gs)| == |gs|
    ensures forall i :: 0 <= i < |gs| ==> Keys(gs)[i] == gs[i].key
    decreases |gs|
  {
    if gs != [] {
      KeysIndex(gs[1..]);
    }
  }

  /** A new key goes at the end; an existing key keeps its place. */
  lemma {:induction false} AddToKeys<K>(gs: seq<Group<K>>, k: K, amount: int)
    ensures Keys(AddTo(gs, k, amount)) == if k in Keys(gs) then Keys(gs) else Keys(gs) + [k]
    ensures KeysDistinct(gs) ==> KeysDistinct(AddTo(gs, k, amount))
    decreases |gs|
  {
    if gs != [] {
      var r := AddTo(gs, k, amount);
      if gs[0].key == k {
        assert r[1..] == gs[1..];
      } else {
        AddToKeys(gs[1..], k, amount);
        assert r[1..] == AddTo(gs[1..], k, amount);
      }
    }
  }

  lemma {:induction false} AddToLookup<K>(gs: seq<Group<K>>, k: K, amount: int, j: K)
    ensures GroupTotal(AddTo(gs, k, amount), j) == GroupTotal(gs, j) + (if j == k then amount else 0)
    ensures GroupCount(AddTo(gs, k, amount), j) == GroupCount(gs, j) + (if j == k then 1 else 0)
    decreases |gs|
  {
    if gs != [] {
      var r := AddTo(gs, k, amount);
      if gs[0].key == k {
        assert r[1..] == gs[1..];
      } else {
        AddToLookup(gs[1..], k, amount, j);
        assert r[1..] == AddTo(gs[1..], k, amount);
      }
    }
  }

  lemma {:induction false} AddToSums<K>(gs: seq<Group<K>>, k: K, amount: int)
    ensures SumBy(AddTo(gs, k, amount), GroupTotalOf) == SumBy(gs, GroupTotalOf) + amount
    ensures SumBy(AddTo(gs, k, amount), GroupCountOf) == SumBy(gs, GroupCountOf) + 1
    decreases |gs|
  {
    if gs == [] {
      SumByCons(Group(k, amount, 1), [], GroupTotalOf);
      SumByCons(Group(k, amount, 1), [], GroupCountOf);
    } else {
      assert gs == [gs[0]] + gs[1..];
      SumByCons(gs[0], gs[1..], GroupTotalOf);
      SumByCons(gs[0], gs[1..], GroupCountOf);
      if gs[0].key == k {
        var g := gs[0].(total := gs[0].total + amount, count := gs[0].count + 1);
        SumByCons(g, gs[1..], GroupTotalOf);
        SumByCons(g, gs[1..], GroupCountOf);
      } else {
        AddToSums(gs[1..], k, amount);
        SumByCons(gs[0], AddTo(gs[1..], k, amount), GroupTotalOf);
        SumByCons(gs[0], AddTo(gs[1..], k, amount), GroupCountOf);
      }
    }
  }

  lemma {:induction false} AbsentKey<K>(gs: seq<Group<K>>, k: K)
    requires k !in Keys(gs)
    ensures GroupTotal(gs, k) == 0 && GroupCount(gs, k) == 0
    decreases |gs|
  {
    if gs != [] {
      AbsentKey(gs[1..], k);
    }
  }

  /** With distinct keys, looking a key up finds exactly that key's entry. */
  lemma {:induction false} DistinctLookup<K>(gs: seq<Group<K>>, i: int)
    requires KeysDistinct(gs) && 0 <= i < |gs|
    ensures GroupTotal(gs, gs[i].key) == gs[i].total && GroupCount(gs, gs[i].key) == gs[i].count
    decreases |gs|
  {
    if i == 0 {
      AbsentKey(gs[1..], gs[0].key);
    } else {
      DistinctLookup(gs[1..], i - 1);
      KeysIndex(gs[1..]);
      assert gs[0].key != gs[i].key by {
        assert Keys(gs[1..])[i - 1] == gs[i].key;
      }
    }
  }

  /**
   * What the `reduce` of a report computes: one entry per key that occurs, in first-occurrence
   * order, each holding the total and count of that key's rows, so the totals add up to the sum
   * of all amounts and the counts to the number of rows.
   */
  lemma {:induction false} GroupByFacts<K>(ts: seq<Transaction>, key: Transaction -> K)
    ensures KeysDistinct(GroupBy(ts, key))
    ensures forall k :: GroupTotal(GroupBy(ts, key), k) == AmountWhere(ts, key, k)
    ensures forall k :: GroupCount(GroupBy(ts, key), k) == CountWhere(ts, key, k)
    ensures forall k :: k in Keys(GroupBy(ts, key)) <==> CountWhere(ts, key, k) > 0
    ensures SumBy(GroupBy(ts, key), GroupTotalOf) == SumBy(ts, Amount)
    ensures SumBy(GroupBy(ts, key), GroupCountOf) == |ts|
    decreases |ts|
  {
    if ts != [] {
      var init, t := ts[..|ts| - 1], ts[|ts| - 1];
      var gs := GroupBy(init, key);
      GroupByFacts(init, key);
      AddToKeys(gs, key(t), t.amount);
      AddToSums(gs, key(t), t.amount);
      forall k
        ensures GroupTotal(GroupBy(ts, key), k) == AmountWhere(ts, key, k)
        ensures GroupCount(GroupBy(ts, key), k) == CountWhere(ts, key, k)
      {
        AddToLookup(gs, key(t), t.amount, k);
      }
    }
  }

  /** Every entry of a grouping carries its key's total and count. */
  lemma GroupEntries<K>(ts: seq<Transaction>, key: Transaction -> K)
    ensures forall g :: g in GroupBy(ts, key) ==>
      g.total == AmountWhere(ts, key, g.key) && g.count == CountWhere(ts, key, g.key) && g.count > 0
  {
    var gs := GroupBy(ts, key);
    GroupByFacts(ts, key);
    KeysIndex(gs);
    forall g | g in gs
      ensures g.total == AmountWhere(ts, key, g.key) && g.count == CountWhere(ts, key, g.key) && g.count > 0
    {
      var i :| 0 <= i < |gs| && gs[i] == g;
      DistinctLookup(gs, i);
      assert g.key in Keys(gs);
    }
  }

  // ---------------------------------------------------------------- breakdowns

  /** A report line: the key, its total, its share of the overall total and its number of rows. */
  datatype Share<K> = Share(key: K, total: int, percentage: real, count: nat)

  function ShareTotal<K>(s: Share<K>): int {
    s.total
  }

  function ShareCount<K>(s: Share<K>): int {
    s.count
  }

  function ToShares<K>(gs: seq<Group<K>>, overall: int): seq<Share<K>> {
    if gs == [] then []
    else [Share(gs[0].key, gs[0].total, CalculatePercentage(gs[0].total, overall), gs[0].count)] + ToShares(gs[1..], overall)
  }

  lemma {:induction false} ToSharesFacts<K>(gs: seq<Group<K>>, overall: int)
    ensures |ToShares(gs, overall)| == |gs|
    ensures forall s :: s in ToShares(gs, overall) ==>
      exists g :: g in gs && s == Share(g.key, g.total, CalculatePercentage(g.total, overall), g.count)
    ensures SumBy(ToShares(gs, overall), ShareTotal) == SumBy(gs, GroupTotalOf)
    ensures SumBy(ToShares(gs, overall), ShareCount) == SumBy(gs, GroupCountOf)
    decreases |gs|
  {
    if gs != [] {
      var s := Share(gs[0].key, gs[0].total, CalculatePercentage(gs[0].total, overall), gs[0].count);
      ToSharesFacts(gs[1..], overall);
      SumByCons(s, ToShares(gs[1..], overall), ShareTotal);
      SumByCons(s, ToShares(gs[1..], overall), ShareCount);
      SumByCons(gs[0], gs[1..], GroupTotalOf);
      SumByCons(gs[0], gs[1..], GroupCountOf);
      assert gs == [gs[0]] + gs[1..];
      forall x | x in ToShares(gs, overall)
        ensures exists g :: g in gs && x == Share(g.key, g.total, CalculatePercentage(g.total, overall), g.count)
      {
        if x != s {
          assert x in ToShares(gs[1..], overall);
        } else {
          assert gs[0] in gs;
        }
      }
    }
  }

  /** The shared shape of the category and payment-method reports: group, attach percentages, sort by total. */
  function Breakdown<K(==)>(ts: seq<Transaction>, key: Transaction -> K): seq<Share<K>> {
    SortDesc(ToShares(GroupBy(ts, key), SumBy(ts, Amount)), ShareTotal)
  }

  /**
   * A breakdown is sorted by total, has a line for exactly the keys that occur, each line
   * holding its key's total, count and percentage of the overall total; the totals add up to
   * the overall total and the counts to the number of rows.
   */
  lemma BreakdownFacts<K>(ts: seq<Transaction>, key: Transaction -> K)
    ensures SortedDesc(Breakdown(ts, key), ShareTotal)
    ensures forall s :: s in Breakdown(ts, key) ==>
      && s.total == AmountWhere(ts, key, s.key)
      && s.count == CountWhere(ts, key, s.key) && s.count > 0
      && s.percentage == CalculatePercentage(s.total, SumBy(ts, Amount))
    ensures forall k :: CountWhere(ts, key, k) > 0 ==> exists s :: s in Breakdown(ts, key) && s.key == k
    ensures SumBy(Breakdown(ts, key), ShareTotal) == SumBy(ts, Amount)
    ensures SumBy(Breakdown(ts, key), ShareCount) == |ts|
  {
    var gs := GroupBy(ts, key);
    var overall := SumBy(ts, Amount);
    var shares := ToShares(gs, overall);
    var b := Breakdown(ts, key);
    GroupByFacts(ts, key);
    GroupEntries(ts, key);
    ToSharesFacts(gs, overall);
    SortKeepsSum(shares, ShareTotal, ShareTotal);
    SortKeepsSum(shares, ShareTotal, ShareCount);
    forall s | s in b
      ensures s in shares
    {
      assert s in multiset(b);
    }
    forall k | CountWhere(ts, key, k) > 0
      ensures exists s :: s in b && s.key == k
    {
      KeysIndex(gs);
      var i :| 0 <= i < |gs| && Keys(gs)[i] == k;
      var s := Share(gs[i].key, gs[i].total, CalculatePercentage(gs[i].total, overall), gs[i].count);
      ToSharesIndex(gs, overall, i);
      assert s in multiset(shares);
      assert s in b;
    }
  }

  lemma {:induction false} ToSharesIndex<K>(gs: seq<Group<K>>, overall: int, i: int)
    requires 0 <= i < |gs|
    ensures Share(gs[i].key, gs[i].total, CalculatePercentage(gs[i].total, overall), gs[i].count) in ToShares(gs, overall)
    decreases i
  {
    if i > 0 {
      ToSharesIndex(gs[1..], overall, i - 1);
    }
  }

  function CategoryKey(t: Transaction): Id {
    t.categoryId
  }

  /** `t.paymentMethod || 'OTHER'`: rows without a method join the OTHER line. */
  function MethodKey(t: Transaction): (k: PaymentMethod)
    ensures k == Other <==> t.paymentMethod == None || t.paymentMethod == Some(Other)
  {
    if t.paymentMethod.Some? then t.paymentMethod.value else Other
  }

  /**
   * `getExpensesByCategoryByDates`: one line per category with PAID expenses in the range,
   * largest total first, each with its total, count and share of the range's expense total.
   */
  function ExpensesByCategory(rows: seq<Transaction>, user: UserId, start: Date, end: Date): (r: seq<Share<Id>>)
    ensures var expenses := OfType(PaidRows(rows, user, start, end), Expense);
      && SortedDesc(r, ShareTotal)
      && (forall s :: s in r ==>
            && s.count == CountWhere(expenses, CategoryKey, s.key) && s.count > 0
            && s.total == AmountWhere(expenses, CategoryKey, s.key)
            && s.percentage == CalculatePercentage(s.total, SumBy(expenses, Amount)))
      && (forall k :: CountWhere(expenses, CategoryKey, k) > 0 ==> exists s :: s in r && s.key == k)
      && SumBy(r, ShareTotal) == SumBy(expenses, Amount)
  {
    var expenses := OfType(PaidRows(rows, user, start, end), Expense);
    BreakdownFacts(expenses, CategoryKey);
    Breakdown(expenses, CategoryKey)
  }

  /**
   * `getExpensesByPaymentMethodByDates`: the same over payment methods, a missing method
   * counted as OTHER.
   */
  function ExpensesByPaymentMethod(rows: seq<Transaction>, user: UserId, start: Date, end: Date): (r: seq<Share<PaymentMethod>>)
    ensures var expenses := OfType(PaidRows(rows, user, start, end), Expense);
      && SortedDesc(r, ShareTotal)
      && (forall s :: s in r ==>
            && s.count == CountWhere(expenses, MethodKey, s.key) && s.count > 0
            && s.total == AmountWhere(expenses, MethodKey, s.key)
            && s.percentage == CalculatePercentage(s.total, SumBy(expenses, Amount)))
      && (forall k :: CountWhere(expenses, MethodKey, k) > 0 ==> exists s :: s in r && s.key == k)
      && SumBy(r, ShareTotal) == SumBy(expenses, Amount)
  {
    var expenses := OfType(PaidRows(rows, user, start, end), Expense);
    BreakdownFacts(expenses, MethodKey);
    Breakdown(expenses, MethodKey)
  }

  /** The lines of both reports come from the user's PAID expenses in the range and nothing else. */
  lemma ExpenseRowsSelected(rows: seq<Transaction>, user: UserId, start: Date, end: Date)
    ensures forall t :: t in OfType(PaidRows(rows, user, start, end), Expense) <==>
      t in rows && PaidIn(t, user, start, end) && t.txType == Expense
  {
  }

  // ---------------------------------------------------------------- monthly summary

  /** An entry of `topCategories` (the category name is not modelled). */
  datatype CategoryTotal = CategoryTotal(categoryId: Id, total: int, percentage: real)

  datatype MonthlySummary = MonthlySummary(
    month: int,
    year: int,
    totalIncome: int,
    totalExpense: int,
    balance: int,
    topCategories: seq<CategoryTotal>,
    topExpenses: seq<Transaction>)

  function TopCategoryList(gs: seq<Group<Id>>, totalExpense: int): seq<CategoryTotal> {
    if gs == [] then []
    else [CategoryTotal(gs[0].key, gs[0].total, CalculatePercentage(gs[0].total, totalExpense))] + TopCategoryList(gs[1..], totalExpense)
  }

  /** `getMonthlySummaryByDates`: the ranked category groups are sorted first, then cut to five. */
  function SummaryByDates(rows: seq<Transaction>, user: UserId, start: Date, end: Date): (r: MonthlySummary)
    ensures r.month == start.month && r.year == start.year
    ensures r.balance == r.totalIncome - r.totalExpense
    ensures |r.topCategories| <= 5 && |r.topExpenses| <= 10
  {
    var paid := PaidRows(rows, user, start, end);
    var income := SumBy(OfType(paid, Income), Amount);
    var expenses := OfType(paid, Expense);
    var expense := SumBy(expenses, Amount);
    var ranked := Take(SortDesc(GroupBy(expenses, CategoryKey), GroupTotalOf), 5);
    TopCategoryListFacts(ranked, expense);
    MonthlySummary(
      start.month, start.year, income, expense, income - expense,
      TopCategoryList(ranked, expense),
      Take(SortDesc(expenses, Amount), 10))
  }

  /** The summary's totals: PAID INCOME and PAID EXPENSE in the range, and the net of the two. */
  lemma SummaryTotals(rows: seq<Transaction>, user: UserId, start: Date, end: Date)
    ensures var r := SummaryByDates(rows, user, start, end);
      var paid := PaidRows(rows, user, start, end);
      && r.month == start.month && r.year == start.year
      && r.totalIncome + r.totalExpense == SumBy(paid, Amount)
      && r.balance == r.totalIncome - r.totalExpense
      && r.balance == SumBy(paid, SignedAmount)
      && r.totalExpense == SumBy(GroupBy(OfType(paid, Expense), CategoryKey), GroupTotalOf)
  {
    var paid := PaidRows(rows, user, start, end);
    IncomeMinusExpense(paid);
    GroupByFacts(OfType(paid, Expense), CategoryKey);
  }

  lemma {:induction false} TopCategoryListFacts(gs: seq<Group<Id>>, totalExpense: int)
    ensures |TopCategoryList(gs, totalExpense)| == |gs|
    ensures forall i :: 0 <= i < |gs| ==>
      TopCategoryList(gs, totalExpense)[i] == CategoryTotal(gs[i].key, gs[i].total, CalculatePercentage(gs[i].total, totalExpense))
    decreases |gs|
  {
    if gs != [] {
      TopCategoryListFacts(gs[1..], totalExpense);
    }
  }

  /** The five heaviest groups, with percentages: the shape of `topCategories` for any grouping. */
  lemma TopOfGroups(gs: seq<Group<Id>>, totalExpense: int)
    ensures var top := TopCategoryList(Take(SortDesc(gs, GroupTotalOf), 5), totalExpense);
      && |top| == (if |gs| < 5 then |gs| else 5)
      && (forall i, j :: 0 <= i < j < |top| ==> top[i].total >= top[j].total)
      && (forall c :: c in top ==>
            exists g :: g in gs && c == CategoryTotal(g.key, g.total, CalculatePercentage(g.total, totalExpense)))
      && (forall g :: g in gs && (forall c :: c in top ==> c.categoryId != g.key) ==>
            forall c :: c in top ==> c.total >= g.total)
  {
    var top := TopCategoryList(Take(SortDesc(gs, GroupTotalOf), 5), totalExpense);
    RankedGroups(gs, totalExpense);
    RankedFromGroups(gs, totalExpense);
    forall g | g in gs && (forall c :: c in top ==> c.categoryId != g.key)
      ensures forall c :: c in top ==> c.total >= g.total
    {
      LeftOutIsLighter(gs, totalExpense, g);
    }
  }

  lemma RankedGroups(gs: seq<Group<Id>>, totalExpense: int)
    ensures var top := TopCategoryList(Take(SortDesc(gs, GroupTotalOf), 5), totalExpense);
      && |top| == (if |gs| < 5 then |gs| else 5)
      && (forall i, j :: 0 <= i < j < |top| ==> top[i].total >= top[j].total)
  {
    var ranked := Take(SortDesc(gs, GroupTotalOf), 5);
    TopCategoryListFacts(ranked, totalExpense);
    TopK(gs, GroupTotalOf, 5);
  }

  lemma RankedFromGroups(gs: seq<Group<Id>>, totalExpense: int)
    ensures forall c :: c in TopCategoryList(Take(SortDesc(gs, GroupTotalOf), 5), totalExpense) ==>
      exists g :: g in gs && c == CategoryTotal(g.key, g.total, CalculatePercentage(g.total, totalExpense))
  {
    var ranked := Take(SortDesc(gs, GroupTotalOf), 5);
    var top := TopCategoryList(ranked, totalExpense);
    TopCategoryListFacts(ranked, totalExpense);
    TopK(gs, GroupTotalOf, 5);
    forall c | c in top
      ensures exists g :: g in gs && c == CategoryTotal(g.key, g.total, CalculatePercentage(g.total, totalExpense))
    {
      var i :| 0 <= i < |top| && top[i] == c;
      assert ranked[i] in ranked;
    }
  }

  lemma LeftOutIsLighter(gs: seq<Group<Id>>, totalExpense: int, g: Group<Id>)
    requires g in gs
    requires forall c :: c in TopCategoryList(Take(SortDesc(gs, GroupTotalOf), 5), totalExpense) ==> c.categoryId != g.key
    ensures forall c :: c in TopCategoryList(Take(SortDesc(gs, GroupTotalOf), 5), totalExpense) ==> c.total >= g.total
  {
    var sorted := SortDesc(gs, GroupTotalOf);
    var ranked := Take(sorted, 5);
    var top := TopCategoryList(ranked, totalExpense);
    TopCategoryListFacts(ranked, totalExpense);
    forall i | 0 <= i < |ranked| ensures ranked[i] != g {
      assert top[i] in top;
    }
    LeftOutOfTop(gs, GroupTotalOf, 5, g);
    forall c | c in top
      ensures c.total >= g.total
    {
      var i :| 0 <= i < |top| && top[i] == c;
      assert ranked[i] in ranked;
    }
  }

  /**
   * `topCategories`: at most five, largest total first, each a category with expenses carrying
   * that category's total and its percentage of `totalExpense`; no category left out has a
   * larger total than one kept.
   */
  lemma TopCategories(rows: seq<Transaction>, user: UserId, start: Date, end: Date)
    ensures var r := SummaryByDates(rows, user, start, end);
      var expenses := OfType(PaidRows(rows, user, start, end), Expense);
      var top := r.topCategories;
      && |top| == (if |GroupBy(expenses, CategoryKey)| < 5 then |GroupBy(expenses, CategoryKey)| else 5)
      && (forall i, j :: 0 <= i < j < |top| ==> top[i].total >= top[j].total)
      && (forall c :: c in top ==>
            && CountWhere(expenses, CategoryKey, c.categoryId) > 0
            && c.total == AmountWhere(expenses, CategoryKey, c.categoryId)
            && c.percentage == CalculatePercentage(c.total, r.totalExpense))
      && (forall g :: g in GroupBy(expenses, CategoryKey) && (forall c :: c in top ==> c.categoryId != g.key) ==>
            forall c :: c in top ==> c.total >= g.total)
  {
    var r := SummaryByDates(rows, user, start, end);
    var expenses := OfType(PaidRows(rows, user, start, end), Expense);
    var gs := GroupBy(expenses, CategoryKey);
    assert r.topCategories == TopCategoryList(Take(SortDesc(gs, GroupTotalOf), 5), r.totalExpense);
    GroupEntries(expenses, CategoryKey);
    TopOfGroups(gs, r.totalExpense);
  }

  /**
   * `topExpenses`: at most ten of the range's PAID expenses, largest amount first; no expense
   * left out is larger than one kept.
   */
  lemma TopExpenses(rows: seq<Transaction>, user: UserId, start: Date, end: Date)
    ensures var r := SummaryByDates(rows, user, start, end);
      var all := SortDesc(OfType(PaidRows(rows, user, start, end), Expense), Amount);
      var top := r.topExpenses;
      && |top| == (if |all| < 10 then |all| else 10)
      && top == all[..|top|]
      && (forall t :: t in top ==> t in rows && PaidIn(t, user, start, end) && t.txType == Expense)
      && (forall i, j :: 0 <= i < j < |top| ==> top[i].amount >= top[j].amount)
      && (forall i, j :: 0 <= i < |top| <= j < |all| ==> top[i].amount >= all[j].amount)
  {
    var expenses := OfType(PaidRows(rows, user, start, end), Expense);
    TopExpensesOf(rows, user, start, end);
    LargestExpenses(expenses);
  }

  lemma LargestExpenses(expenses: seq<Transaction>)
    ensures var all := SortDesc(expenses, Amount);
      var top := Take(all, 10);
      && |top| == (if |all| < 10 then |all| else 10)
      && top == all[..|top|]
      && (forall t :: t in top ==> t in expenses)
      && (forall i, j :: 0 <= i < j < |top| ==> top[i].amount >= top[j].amount)
      && (forall i, j :: 0 <= i < |top| <= j < |all| ==> top[i].amount >= all[j].amount)
  {
    TopK(expenses, Amount, 10);
    forall t | t in Take(SortDesc(expenses, Amount), 10) ensures t in expenses {
      assert t in multiset(expenses);
    }
  }

  lemma TopExpensesOf(rows: seq<Transaction>, user: UserId, start: Date, end: Date)
    ensures SummaryByDates(rows, user, start, end).topExpenses
         == Take(SortDesc(OfType(PaidRows(rows, user, start, end), Expense), Amount), 10)
  {
  }

  /** `getMonthlySummary(month, year)`: the summary over the whole calendar month. */
  function GetMonthlySummary(rows: seq<Transaction>, user: UserId, month: int, year: int): (r: MonthlySummary)
    ensures r.month == month && r.year == year
    ensures r.balance == r.totalIncome - r.totalExpense
    ensures r.totalIncome + r.totalExpense == SumBy(PaidRows(rows, user, MonthStart(year, month), MonthEnd(year, month)), Amount)
  {
    SummaryTotals(rows, user, MonthStart(year, month), MonthEnd(year, month));
    SummaryByDates(rows, user, MonthStart(year, month), MonthEnd(year, month))
  }

  /** For well-formed dates, the month window selects exactly the user's PAID rows of that month. */
  lemma MonthWindow(t: Transaction, user: UserId, month: int, year: int)
    requires WellFormedDate(t.date) && 1 <= month <= 12
    ensures PaidIn(t, user, MonthStart(year, month), MonthEnd(year, month)) <==>
      t.owner == user && t.status == Paid && t.date.year == year && t.date.month == month
  {
    MonthRangeExact(t.date, year, month);
  }

  // ---------------------------------------------------------------- evolution

  /** One point of the evolution chart (the `MMM/yy` label is not modelled). */
  datatype EvolutionPoint = EvolutionPoint(month: int, year: int, income: int, expense: int, balance: int)

  /** The calendar month `i` months before (`year`, `month`), as `setMonth(getMonth() - i)` gives it. */
  function MonthsBack(year: int, month: int, i: int): (r: (int, int))
    requires 1 <= month <= 12
    ensures 1 <= r.1 <= 12
    ensures r.0 * 12 + (r.1 - 1) == year * 12 + (month - 1) - i
  {
    var index := year * 12 + (month - 1) - i;
    (index / 12, index % 12 + 1)
  }

  /** The PAID totals of one calendar month, by type. */
  function MonthTotal(rows: seq<Transaction>, user: UserId, year: int, month: int, ty: TxType): int {
    SumBy(OfType(PaidRows(rows, user, MonthStart(year, month), MonthEnd(year, month)), ty), Amount)
  }

  function PointAt(rows: seq<Transaction>, user: UserId, now: Date, i: int): (p: EvolutionPoint)
    requires 1 <= now.month <= 12
    ensures 1 <= p.month <= 12
    ensures p.year * 12 + (p.month - 1) == now.year * 12 + (now.month - 1) - i
  {
    var (year, month) := MonthsBack(now.year, now.month, i);
    var income, expense := MonthTotal(rows, user, year, month, Income), MonthTotal(rows, user, year, month, Expense);
    EvolutionPoint(month, year, income, expense, income - expense)
  }

  /** Each point carries the totals of that month's summary. */
  lemma PointIsSummary(rows: seq<Transaction>, user: UserId, now: Date, i: int)
    requires 1 <= now.month <= 12
    ensures var p := PointAt(rows, user, now, i);
      var s := GetMonthlySummary(rows, user, p.month, p.year);
      p.income == s.totalIncome && p.expense == s.totalExpense && p.balance == s.balance
  {
  }

  /** Consecutive points of the series are consecutive calendar months. */
  lemma PointsConsecutive(rows: seq<Transaction>, user: UserId, now: Date, i: int)
    requires 1 <= now.month <= 12
    ensures var older, newer := PointAt(rows, user, now, i), PointAt(rows, user, now, i - 1);
      newer.year * 12 + newer.month == older.year * 12 + older.month + 1
  {
  }

  /** The newest point is the month of `now`. */
  lemma PointAtNow(rows: seq<Transaction>, user: UserId, now: Date)
    requires 1 <= now.month <= 12
    ensures PointAt(rows, user, now, 0).month == now.month && PointAt(rows, user, now, 0).year == now.year
  {
  }

  /**
   * `getEvolution(months)` at the clock reading `now`: one point per month, oldest first,
   * ending at `now`'s month, each holding that month's summary totals.
   */
  method GetEvolution(rows: seq<Transaction>, user: UserId, months: int, now: Date) returns (data: seq<EvolutionPoint>)
    requires 1 <= now.month <= 12
    ensures |data| == if months > 0 then months else 0
    ensures forall k :: 0 <= k < |data| ==> data[k] == PointAt(rows, user, now, months - 1 - k)
  {
    data := [];
    var i := months - 1;
    while i >= 0
      invariant months > 0 ==> i >= -1
      invariant months <= 0 ==> data == []
      invariant |data| == months - 1 - i
      invariant forall k :: 0 <= k < |data| ==> data[k] == PointAt(rows, user, now, months - 1 - k)
      decreases i
    {
      data := data + [PointAt(rows, user, now, i)];
      i := i - 1;
    }
  }
}
