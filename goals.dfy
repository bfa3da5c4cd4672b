/**
 * `GET /api/goals` (the caller's savings goals by deadline, with their progress) and
 * `POST /api/goals` (create a goal). The progress figures are shared with the dashboard.
 */
module GoalsRoute {
  import opened Wrappers
  import opened Types
  import opened Records
  import opened Seqs
  import opened Sorting
  import opened Ledger
  import opened Store

  datatype GoalWithProgress = GoalWithProgress(
    goal: Goal, percentage: real, remaining: int, daysLeft: Option<int>, isComplete: bool)

  /**
   * A goal's progress at the instant `now`: the saved share capped at 100, what is left to save,
   * the whole days to the deadline rounded up (none without a deadline) and whether the target
   * is reached.
   */
  function Progress(g: Goal, now: int): (p: GoalWithProgress)
    requires g.targetAmount != 0
    ensures p.goal == g
    ensures var raw := (g.currentAmount as real / g.targetAmount as real) * 100.0;
      (raw < 100.0 ==> p.percentage == raw) && (raw >= 100.0 ==> p.percentage == 100.0)
    ensures p.remaining == g.targetAmount - g.currentAmount
    ensures p.daysLeft.None? <==> g.deadline.None?
    ensures p.daysLeft.Some? ==>
      (p.daysLeft.value - 1) * DAY_MS < g.deadline.value - now <= p.daysLeft.value * DAY_MS
    ensures p.isComplete <==> g.currentAmount >= g.targetAmount
    ensures g.targetAmount > 0 ==> (p.isComplete <==> p.percentage == 100.0)
    ensures g.targetAmount > 0 && g.currentAmount >= 0 ==> 0.0 <= p.percentage
  {
    if g.targetAmount > 0 then CappedPercentageFull(g.currentAmount, g.targetAmount); Make(g, now)
    else Make(g, now)
  }

  function Make(g: Goal, now: int): GoalWithProgress
    requires g.targetAmount != 0
  {
    GoalWithProgress(
      g,
      CappedPercentage(g.currentAmount, g.targetAmount),
      g.targetAmount - g.currentAmount,
      if g.deadline.Some? then Some(CeilDiv(g.deadline.value - now, DAY_MS)) else None,
      g.currentAmount >= g.targetAmount)
  }

  /** A deadline that has not passed leaves a positive number of days; one that has, none positive. */
  lemma DaysLeftSign(g: Goal, now: int)
    requires g.targetAmount != 0 && g.deadline.Some?
    ensures Progress(g, now).daysLeft.value > 0 <==> g.deadline.value > now
  {
  }

  /**
   * `orderBy: { deadline: 'asc' }` as PostgreSQL sorts it: goals with a deadline first, earliest
   * first, and the goals without a deadline last.
   */
  ghost predicate DeadlineOrdered(gs: seq<Goal>)
  {
    forall i, j :: 0 <= i < j < |gs| && gs[j].deadline.Some? ==>
      gs[i].deadline.Some? && gs[i].deadline.value <= gs[j].deadline.value
  }

  predicate HasDeadline(g: Goal) { g.deadline.Some? }

  predicate NoDeadline(g: Goal) { g.deadline.None? }

  /** Sorting the dated goals descending on this key sorts them ascending on their deadline. */
  function LaterFirstKey(g: Goal): int { if g.deadline.Some? then -g.deadline.value else 0 }

  /** The goals of `gs` in deadline order. */
  function ByDeadline(gs: seq<Goal>): (r: seq<Goal>)
    ensures multiset(r) == multiset(gs)
    ensures DeadlineOrdered(r)
  {
    var dated := SortDesc(Filter(gs, HasDeadline), LaterFirstKey);
    var undated := Filter(gs, NoDeadline);
    FilterSplit(gs, HasDeadline, NoDeadline);
    assert forall i :: 0 <= i < |dated| ==> dated[i].deadline.Some? by {
      forall i | 0 <= i < |dated| ensures dated[i].deadline.Some? {
        SortMembers(Filter(gs, HasDeadline), LaterFirstKey, dated[i]);
      }
    }
    assert forall i :: 0 <= i < |undated| ==> undated[i].deadline.None? by {
      forall i | 0 <= i < |undated| ensures undated[i].deadline.None? {
        assert undated[i] in undated;
      }
    }
    dated + undated
  }

  /** The progress of each goal of `gs`, in order. */
  function WithProgress(gs: seq<Goal>, now: int): (ps: seq<GoalWithProgress>)
    requires GoalTargetsNonZero(gs)
    ensures |ps| == |gs|
    ensures forall i :: 0 <= i < |ps| ==> ps[i] == Progress(gs[i], now)
  {
    if gs == [] then [] else [Progress(gs[0], now)] + WithProgress(gs[1..], now)
  }

  /** The goals of a list of progress figures, in order. */
  function Goals(ps: seq<GoalWithProgress>): (gs: seq<Goal>)
    ensures |gs| == |ps| && forall i :: 0 <= i < |ps| ==> gs[i] == ps[i].goal
  {
    if ps == [] then [] else [ps[0].goal] + Goals(ps[1..])
  }

  /** A rearrangement of the caller's goals holds only the caller's goals, all with a nonzero target. */
  lemma OwnedGoals(goals: seq<Goal>, user: UserId, ordered: seq<Goal>)
    requires GoalTargetsNonZero(goals)
    requires multiset(ordered) == multiset(Filter(goals, GoalOwnedBy(user)))
    ensures GoalTargetsNonZero(ordered)
    ensures forall i :: 0 <= i < |ordered| ==> ordered[i].userId == user
  {
    var mine := Filter(goals, GoalOwnedBy(user));
    forall i | 0 <= i < |ordered| ensures ordered[i].targetAmount != 0 && ordered[i].userId == user {
      assert ordered[i] in multiset(mine);
      assert ordered[i] in mine;
      assert ordered[i] in goals;
    }
  }

  /** The caller's goals in deadline order with their progress at `now`; shared with the dashboard. */
  function UserGoals(goals: seq<Goal>, user: UserId, now: int): (ps: seq<GoalWithProgress>)
    requires GoalTargetsNonZero(goals)
    ensures multiset(Goals(ps)) == multiset(Filter(goals, GoalOwnedBy(user)))
    ensures DeadlineOrdered(Goals(ps))
    ensures forall i :: 0 <= i < |ps| ==> ps[i].goal.userId == user && ps[i].goal.targetAmount != 0 && ps[i] == Progress(ps[i].goal, now)
  {
    var mine := Filter(goals, GoalOwnedBy(user));
    var ordered := ByDeadline(mine);
    OwnedGoals(goals, user, ordered);
    var ps := WithProgress(ordered, now);
    assert Goals(ps) == ordered;
    ps
  }

  /** The handler of `GET /api/goals`, with the clock reading `now` passed in. */
  function Get(db: Db, session: Session, now: int): (r: Response<seq<GoalWithProgress>>)
    reads db
    requires GoalTargetsNonZero(db.goals)
    ensures Caller(session).None? ==> r == Unauthorized()
    ensures Caller(session).Some? ==> r.Ok? && r.status == 200
    ensures r.Ok? ==>
      && multiset(Goals(r.body)) == multiset(Filter(db.goals, GoalOwnedBy(Caller(session).value)))
      && DeadlineOrdered(Goals(r.body))
      && forall i :: 0 <= i < |r.body| ==>
           r.body[i].goal.userId == Caller(session).value && r.body[i].goal.targetAmount != 0
           && r.body[i] == Progress(r.body[i].goal, now)
  {
    match Caller(session)
    case None => Unauthorized()
    case Some(user) => Ok(200, UserGoals(db.goals, user, now))
  }

  /** The JSON body of `POST /api/goals`. */
  datatype NewGoal = NewGoal(name: string, targetAmount: int, currentAmount: Option<int>, deadline: Option<int>)

  /** The record `savingsGoal.create` stores: nothing saved yet unless said otherwise. */
  function Created(id: Id, user: UserId, body: NewGoal): (g: Goal)
    ensures g.id == id && g.userId == user && g.name == body.name && g.targetAmount == body.targetAmount
    ensures g.currentAmount == if body.currentAmount.Some? then body.currentAmount.value else 0
    ensures g.deadline == body.deadline
  {
    Goal(id, user, body.name, body.targetAmount, body.currentAmount.GetOr(0), body.deadline)
  }

  /** The handler of `POST /api/goals`. */
  method Post(db: Db, session: Session, body: NewGoal) returns (r: Response<Goal>)
    requires db.Valid()
    modifies db
    ensures db.Valid()
    ensures Caller(session).None? ==> r == Unauthorized()
    ensures Caller(session).Some? && (body.name == "" || body.targetAmount == 0) ==> r == Error(400, MISSING_FIELDS)
    ensures r.Error? ==> unchanged(db)
    ensures r.Ok? <==> Caller(session).Some? && body.name != "" && body.targetAmount != 0
    ensures r.Ok? ==>
      && r.status == 201
      && r.body == Created(old(db.nextId), Caller(session).value, body)
      && db.goals == old(db.goals) + [r.body]
      && db.accounts == old(db.accounts) && db.transactions == old(db.transactions) && db.budgets == old(db.budgets)
  {
    var user := Caller(session);
    if user.None? {
      return Unauthorized();
    }
    if body.name == "" || body.targetAmount == 0 {
      return Error(400, MISSING_FIELDS);
    }
    var g := Created(db.nextId, user.value, body);
    db.goals := db.goals + [g];
    db.nextId := db.nextId + 1;
    r := Ok(201, g);
  }
}
