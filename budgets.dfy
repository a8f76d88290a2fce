/** src/modules/budgets/budgets.service.ts: monthly spending limits per category and their alert levels. */
module Budgets {
  import opened Common
  import opened Entities
  import opened Helpers
  import opened Store

  /** 'none' | 'warning' | 'danger' | 'exceeded'. */
  datatype Alert = NoAlert | Warning | Danger | Exceeded

  function AlertLevel(a: Alert): int {
    match a
    case NoAlert => 0
    case Warning => 1
    case Danger => 2
    case Exceeded => 3
  }

  /** The if-chain over the percentage spent. */
  function AlertFor(percentage: real): (a: Alert)
    ensures a == Exceeded <==> percentage >= 100.0
    ensures a == Danger <==> 90.0 <= percentage < 100.0
    ensures a == Warning <==> 70.0 <= percentage < 90.0
    ensures a == NoAlert <==> percentage < 70.0
  {
    if percentage >= 100.0 then Exceeded
    else if percentage >= 90.0 then Danger
    else if percentage >= 70.0 then Warning
    else NoAlert
  }

  /** One entry of `getBudgetStatus` (the category name is not modelled). */
  datatype BudgetStatus = BudgetStatus(categoryId: Id, limit: int, spent: int, remaining: int, percentage: real, alert: Alert)

  function StatusOf(b: Budget): (r: BudgetStatus)
    ensures r.categoryId == b.categoryId && r.limit == b.limit && r.spent == b.spent
    ensures r.remaining + r.spent == r.limit
    ensures b.limit == 0 ==> r.percentage == 0.0
    ensures b.limit != 0 ==> r.percentage * (b.limit as real) == (b.spent as real) * 100.0
    ensures r.alert == AlertFor(r.percentage)
  {
    var percentage := CalculatePercentage(b.spent, b.limit);
    BudgetStatus(b.categoryId, b.limit, b.spent, b.limit - b.spent, percentage, AlertFor(percentage))
  }

  /**
   * What a status line says, in whole numbers: `remaining` is what is left of the limit; with a
   * positive limit the alert is EXCEEDED from 100% of the limit on, DANGER from 90%, WARNING
   * from 70%, and none below; with a zero limit the percentage is 0 and there is no alert.
   */
  lemma StatusMeaning(b: Budget)
    ensures StatusOf(b).remaining + b.spent == b.limit
    ensures StatusOf(b).categoryId == b.categoryId
    ensures b.limit == 0 ==> StatusOf(b).percentage == 0.0 && StatusOf(b).alert == NoAlert
    ensures b.limit > 0 ==>
      var a := StatusOf(b).alert;
      && (a == Exceeded <==> b.spent >= b.limit)
      && (a == Danger <==> 90 * b.limit <= 100 * b.spent < 100 * b.limit)
      && (a == Warning <==> 70 * b.limit <= 100 * b.spent < 90 * b.limit)
      && (a == NoAlert <==> 100 * b.spent < 70 * b.limit)
  {
    if b.limit > 0 {
      PercentageAtLeast(b.spent, b.limit, 100);
      PercentageAtLeast(b.spent, b.limit, 90);
      PercentageAtLeast(b.spent, b.limit, 70);
    }
  }

  /** For a fixed positive limit, spending more never lowers the alert. */
  lemma AlertMonotonic(limit: int, spent1: int, spent2: int)
    requires limit > 0 && spent1 <= spent2
    ensures AlertLevel(AlertFor(CalculatePercentage(spent1, limit))) <= AlertLevel(AlertFor(CalculatePercentage(spent2, limit)))
  {
    PercentageMonotonic(spent1, spent2, limit);
  }

  /** A limit of 100 spent at 65, 75, 95 and 105. */
  lemma AlertExamples()
    ensures AlertFor(CalculatePercentage(65, 100)) == NoAlert
    ensures AlertFor(CalculatePercentage(75, 100)) == Warning
    ensures AlertFor(CalculatePercentage(95, 100)) == Danger
    ensures AlertFor(CalculatePercentage(105, 100)) == Exceeded
  {
    PercentageAtLeast(65, 100, 70);
    PercentageAtLeast(75, 100, 70);
    PercentageAtLeast(75, 100, 90);
    PercentageAtLeast(95, 100, 90);
    PercentageAtLeast(95, 100, 100);
    PercentageAtLeast(105, 100, 100);
  }

  /** `month || now.getMonth() + 1`: an absent or zero query value falls back to the clock. */
  function OrNow(query: Option<int>, current: int): (r: int)
    ensures query.Some? && query.value != 0 ==> r == query.value
    ensures query.None? || query.value == 0 ==> r == current
  {
    if query.Some? && query.value != 0 then query.value else current
  }

  /**
   * `getBudgetStatus`: one line per budget of the user for the requested month and year (or the
   * month and year of `now`), keyed by budget id.
   */
  method GetBudgetStatus(db: Database, user: UserId, month: Option<int>, year: Option<int>, now: Date)
    returns (r: map<Id, BudgetStatus>)
    ensures forall id :: id in r <==>
      && id in db.budgets && db.budgets[id].owner == user
      && db.budgets[id].month == OrNow(month, now.month) && db.budgets[id].year == OrNow(year, now.year)
    ensures forall id :: id in r ==> id in db.budgets && r[id] == StatusOf(db.budgets[id])
  {
    var targetMonth := OrNow(month, now.month);
    var targetYear := OrNow(year, now.year);
    r := map id | id in db.budgets && db.budgets[id].owner == user
                  && db.budgets[id].month == targetMonth && db.budgets[id].year == targetYear
                :: StatusOf(db.budgets[id]);
  }

  /** The validated body of `createBudget`. */
  datatype BudgetData = BudgetData(
    categoryId: Id, month: int, year: int, limit: int, alertAt70: bool, alertAt90: bool, alertAt100: bool)

  predicate HasBudgetFor(budgets: map<Id, Budget>, user: UserId, categoryId: Id, month: int, year: int) {
    exists id :: id in budgets && SameBudgetKey(budgets[id], Budget(user, categoryId, month, year, 0, 0, false, false, false))
  }

  function NewBudget(user: UserId, d: BudgetData): Budget {
    Budget(user, d.categoryId, d.month, d.year, d.limit, 0, d.alertAt70, d.alertAt90, d.alertAt100)
  }

  /**
   * `createBudget`: 404 unless the category is visible, then 409 if the user already has a
   * budget for that category and month; otherwise a budget with nothing spent.
   */
  method CreateBudget(db: Database, user: UserId, d: BudgetData) returns (r: Result<Id>)
    requires db.Valid()
    requires 1 <= d.month <= 12 && 2020 <= d.year <= 2100 && d.limit > 0
    modifies db`budgets, db`nextId
    ensures db.Valid()
    ensures !VisibleCategoryId(db.categories, d.categoryId, user) ==> r == Failure(NotFound)
    ensures VisibleCategoryId(db.categories, d.categoryId, user) && HasBudgetFor(old(db.budgets), user, d.categoryId, d.month, d.year)
      ==> r == Failure(Conflict)
    ensures r.Success? <==>
      VisibleCategoryId(db.categories, d.categoryId, user) && !HasBudgetFor(old(db.budgets), user, d.categoryId, d.month, d.year)
    ensures r.Failure? ==> unchanged(db)
    ensures r.Success? ==>
      && r.value !in old(db.budgets)
      && db.budgets == old(db.budgets)[r.value := NewBudget(user, d)]
      && db.budgets[r.value].spent == 0
  {
    if !(d.categoryId in db.categories && CategoryVisible(db.categories[d.categoryId], user)) {
      return Failure(NotFound);
    }
    if exists id :: id in db.budgets && SameBudgetKey(db.budgets[id], Budget(user, d.categoryId, d.month, d.year, 0, 0, false, false, false)) {
      return Failure(Conflict);
    }
    var id := db.NewId();
    db.budgets := db.budgets[id := NewBudget(user, d)];
    r := Success(id);
  }

  /** The fields `updateBudget` may change; the key fields are not among them. */
  datatype BudgetPatch = BudgetPatch(limit: Option<int>, alertAt70: Option<bool>, alertAt90: Option<bool>, alertAt100: Option<bool>)

  function ApplyBudgetPatch(b: Budget, p: BudgetPatch): (r: Budget)
    ensures SameBudgetKey(r, b) && r.spent == b.spent
  {
    b.(limit := if p.limit.Some? then p.limit.value else b.limit,
       alertAt70 := if p.alertAt70.Some? then p.alertAt70.value else b.alertAt70,
       alertAt90 := if p.alertAt90.Some? then p.alertAt90.value else b.alertAt90,
       alertAt100 := if p.alertAt100.Some? then p.alertAt100.value else b.alertAt100)
  }

  predicate OwnsBudget(budgets: map<Id, Budget>, id: Id, user: UserId) {
    id in budgets && budgets[id].owner == user
  }

  /** `updateBudget`: 404 unless owned; the patch never changes the key, so keys stay unique. */
  method UpdateBudget(db: Database, user: UserId, id: Id, p: BudgetPatch) returns (r: Result<Budget>)
    requires db.Valid()
    requires p.limit.Some? ==> p.limit.value > 0
    modifies db`budgets
    ensures db.Valid()
    ensures r.Success? <==> OwnsBudget(old(db.budgets), id, user)
    ensures r.Failure? ==> r.error == NotFound && db.budgets == old(db.budgets)
    ensures r.Success? ==>
      r.value == ApplyBudgetPatch(old(db.budgets)[id], p) && db.budgets == old(db.budgets)[id := r.value]
  {
    if !(id in db.budgets && db.budgets[id].owner == user) {
      return Failure(NotFound);
    }
    var updated := ApplyBudgetPatch(db.budgets[id], p);
    db.budgets := db.budgets[id := updated];
    r := Success(updated);
  }

  /** `deleteBudget`: 404 unless owned; otherwise only that budget goes. */
  method DeleteBudget(db: Database, user: UserId, id: Id) returns (r: Result<()>)
    requires db.Valid()
    modifies db`budgets
    ensures db.Valid()
    ensures r.Success? <==> OwnsBudget(old(db.budgets), id, user)
    ensures r.Failure? ==> r.error == NotFound && db.budgets == old(db.budgets)
    ensures r.Success? ==> db.budgets == old(db.budgets) - {id}
  {
    if !(id in db.budgets && db.budgets[id].owner == user) {
      return Failure(NotFound);
    }
    db.budgets := db.budgets - {id};
    r := Success(());
  }
}
