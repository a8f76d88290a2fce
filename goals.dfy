/** src/modules/goals/goals.service.ts: savings goals, their progress and the contributions to them. */
module Goals {
  import opened Common
  import opened Entities
  import opened Helpers
  import opened Store
  import opened Sums

  /** A goal as the read endpoints return it: the record with its progress attached. */
  datatype GoalView = GoalView(goal: Goal, progress: real)

  function ViewOf(g: Goal): (v: GoalView)
    ensures v.goal == g
    ensures v.progress <= 100.0
    ensures g.targetAmount > 0 && g.currentAmount >= 0 ==> v.progress >= 0.0
    ensures g.targetAmount > 0 ==> (v.progress == 100.0 <==> g.currentAmount >= g.targetAmount)
  {
    GoalView(g, CalculateGoalProgress(g.currentAmount, g.targetAmount))
  }

  predicate OwnsGoal(goals: map<Id, Goal>, id: Id, user: UserId) {
    id in goals && goals[id].owner == user
  }

  /** `getAllGoals`: the user's goals with their progress (ordering and the latest five contributions are not modelled). */
  method GetAllGoals(db: Database, user: UserId) returns (r: map<Id, GoalView>)
    ensures forall id :: id in r <==> OwnsGoal(db.goals, id, user)
    ensures forall id :: id in r ==> id in db.goals && r[id] == ViewOf(db.goals[id])
  {
    r := map id | id in db.goals && db.goals[id].owner == user :: ViewOf(db.goals[id]);
  }

  /** `getGoalById`: 404 unless the goal exists and belongs to the user. */
  method GetGoalById(db: Database, user: UserId, id: Id) returns (r: Result<GoalView>)
    ensures r.Success? <==> OwnsGoal(db.goals, id, user)
    ensures r.Success? ==> r.value == ViewOf(db.goals[id])
    ensures r.Failure? ==> r.error == NotFound
  {
    if id in db.goals && db.goals[id].owner == user {
      r := Success(ViewOf(db.goals[id]));
    } else {
      r := Failure(NotFound);
    }
  }

  /** `createGoal`: a new IN_PROGRESS goal of the caller. */
  method CreateGoal(db: Database, user: UserId, targetAmount: int, currentAmount: int) returns (id: Id)
    requires db.Valid()
    requires targetAmount > 0 && currentAmount >= 0
    modifies db`goals, db`nextId
    ensures db.Valid()
    ensures id !in old(db.goals)
    ensures db.goals == old(db.goals)[id := Goal(user, targetAmount, currentAmount, InProgress)]
  {
    id := db.NewId();
    db.goals := db.goals[id := Goal(user, targetAmount, currentAmount, InProgress)];
  }

  /** The fields `updateGoal` accepts (name, dates and looks are not modelled); the status is among them. */
  datatype GoalPatch = GoalPatch(targetAmount: Option<int>, currentAmount: Option<int>, status: Option<GoalStatus>)

  function ApplyGoalPatch(g: Goal, p: GoalPatch): (r: Goal)
    ensures r.owner == g.owner
  {
    g.(targetAmount := if p.targetAmount.Some? then p.targetAmount.value else g.targetAmount,
       currentAmount := if p.currentAmount.Some? then p.currentAmount.value else g.currentAmount,
       status := if p.status.Some? then p.status.value else g.status)
  }

  /** `updateGoal`: 404 unless owned; otherwise the patch is written. */
  method UpdateGoal(db: Database, user: UserId, id: Id, p: GoalPatch) returns (r: Result<Goal>)
    requires db.Valid()
    requires p.targetAmount.Some? ==> p.targetAmount.value > 0
    requires p.currentAmount.Some? ==> p.currentAmount.value >= 0
    modifies db`goals
    ensures db.Valid()
    ensures r.Success? <==> OwnsGoal(old(db.goals), id, user)
    ensures r.Failure? ==> r.error == NotFound && db.goals == old(db.goals)
    ensures r.Success? ==> r.value == ApplyGoalPatch(old(db.goals)[id], p) && db.goals == old(db.goals)[id := r.value]
  {
    if !(id in db.goals && db.goals[id].owner == user) {
      return Failure(NotFound);
    }
    var updated := ApplyGoalPatch(db.goals[id], p);
    db.goals := db.goals[id := updated];
    r := Success(updated);
  }

  /** `deleteGoal`: 404 unless owned; otherwise the goal row goes. */
  method DeleteGoal(db: Database, user: UserId, id: Id) returns (r: Result<()>)
    requires db.Valid()
    modifies db`goals
    ensures db.Valid()
    ensures r.Success? <==> OwnsGoal(old(db.goals), id, user)
    ensures r.Failure? ==> r.error == NotFound && db.goals == old(db.goals)
    ensures r.Success? ==> db.goals == old(db.goals) - {id}
  {
    if !(id in db.goals && db.goals[id].owner == user) {
      return Failure(NotFound);
    }
    db.goals := db.goals - {id};
    r := Success(());
  }

  /** The goal after a contribution: the amount added, and COMPLETED once the target is reached. */
  function Contributed(g: Goal, amount: int): (r: Goal)
    requires amount > 0
    ensures r.owner == g.owner && r.targetAmount == g.targetAmount
    ensures r.currentAmount == g.currentAmount + amount
    ensures r.currentAmount >= r.targetAmount ==> r.status == Completed
    ensures r.currentAmount < r.targetAmount ==> r.status == g.status
  {
    var g' := g.(currentAmount := g.currentAmount + amount);
    if g'.currentAmount >= g'.targetAmount then g'.(status := Completed) else g'
  }

  /** A positive goal reaches 100% progress exactly when a contribution completes it, or it was complete already. */
  lemma CompletionMatchesProgress(g: Goal, amount: int)
    requires amount > 0 && g.targetAmount > 0
    ensures ViewOf(Contributed(g, amount)).progress == 100.0 ==> Contributed(g, amount).status == Completed
    ensures Contributed(g, amount).status != Completed ==> ViewOf(Contributed(g, amount)).progress < 100.0
  {
  }

  /** Contributions made so far to goal `goal`. */
  function ContributionAmounts(contributions: map<Id, Contribution>, goal: Id): map<Id, int> {
    map k | k in contributions :: if contributions[k].goalId == goal then contributions[k].amount else 0
  }

  ghost function ContributedTotal(contributions: map<Id, Contribution>, goal: Id): int {
    MapSum(ContributionAmounts(contributions, goal))
  }

  /**
   * A contribution raises `currentAmount` and the recorded contributions by the same amount, so
   * the part of the saved amount not backed by contributions stays the same, for every goal.
   */
  lemma ContributionKeepsUnbacked(
    goals: map<Id, Goal>, contributions: map<Id, Contribution>, goalId: Id, k: Id, amount: int, date: Date, g: Id)
    requires goalId in goals && g in goals && k !in contributions && amount > 0
    ensures var goals', contributions' := goals[goalId := Contributed(goals[goalId], amount)], contributions[k := Contribution(goalId, amount, date)];
      goals'[g].currentAmount - ContributedTotal(contributions', g) == goals[g].currentAmount - ContributedTotal(contributions, g)
  {
    var c := Contribution(goalId, amount, date);
    assert ContributionAmounts(contributions[k := c], g) == ContributionAmounts(contributions, g)[k := if goalId == g then amount else 0];
    MapSumUpdate(ContributionAmounts(contributions, g), k, if goalId == g then amount else 0);
  }

  /**
   * `contributeToGoal`: 404 unless owned; otherwise one contribution (dated `date`, or `now`)
   * and the goal raised by `amount` together, then COMPLETED if the target is reached.
   */
  method ContributeToGoal(db: Database, user: UserId, goalId: Id, amount: int, date: Option<Date>, now: Date)
    returns (r: Result<Id>)
    requires db.Valid()
    requires amount > 0
    modifies db`goals, db`contributions, db`nextId
    ensures db.Valid()
    ensures r.Success? <==> OwnsGoal(old(db.goals), goalId, user)
    ensures r.Failure? ==> r.error == NotFound && unchanged(db)
    ensures r.Success? ==>
      && r.value !in old(db.contributions)
      && db.contributions == old(db.contributions)[r.value := Contribution(goalId, amount, if date.Some? then date.value else now)]
      && db.goals == old(db.goals)[goalId := Contributed(old(db.goals)[goalId], amount)]
  {
    if !(goalId in db.goals && db.goals[goalId].owner == user) {
      return Failure(NotFound);
    }
    var id := db.NewId();
    var contribution := Contribution(goalId, amount, if date.Some? then date.value else now);
    db.contributions := db.contributions[id := contribution];
    var updatedGoal := db.goals[goalId].(currentAmount := db.goals[goalId].currentAmount + amount);
    db.goals := db.goals[goalId := updatedGoal];
    if updatedGoal.currentAmount >= updatedGoal.targetAmount {
      db.goals := db.goals[goalId := updatedGoal.(status := Completed)];
    }
    r := Success(id);
  }
}
