/** The savings-goal page (BudgetPlanner.jsx): the summary totals over all goals, the figures
    each goal card shows, and the handlers that fire contribution and delete requests. Amounts
    are exact reals; a JavaScript number is modelled only where the source divides by a target
    that may be zero. */
module BudgetPlanner {
  import opened Common

  /** A savings goal as the goals endpoint returns it; `currentAmount` may be missing. */
  datatype Goal = Goal(id: string, title: string, targetAmount: real, currentAmount: Option<real>)

  /** The result of a JavaScript division, without rounding: a finite value, an infinity
      (non-zero divided by zero) or NaN (zero divided by zero). */
  datatype JsNumber = Finite(v: real) | PosInfinity | NegInfinity | NaN

  /** `curr.currentAmount || 0`: a missing amount counts as nothing saved. */
  function SavedAmount(g: Goal): (saved: real)
    ensures g.currentAmount.Some? ==> saved == g.currentAmount.value
    ensures g.currentAmount.None? ==> saved == 0.0
  {
    g.currentAmount.GetOr(0.0)
  }

  /** `goals.reduce((acc, curr) => acc + curr.targetAmount, 0)`, folded from the left. */
  function TotalTarget(goals: seq<Goal>): (total: real)
    ensures goals == [] ==> total == 0.0
    ensures (forall i :: 0 <= i < |goals| ==> goals[i].targetAmount >= 0.0) ==> total >= 0.0
  {
    if goals == [] then 0.0 else TotalTarget(goals[..|goals| - 1]) + goals[|goals| - 1].targetAmount
  }

  /** `goals.reduce((acc, curr) => acc + (curr.currentAmount || 0), 0)`, folded from the left. */
  function TotalSaved(goals: seq<Goal>): (total: real)
    ensures goals == [] ==> total == 0.0
    ensures (forall i :: 0 <= i < |goals| ==> SavedAmount(goals[i]) >= 0.0) ==> total >= 0.0
  {
    if goals == [] then 0.0 else TotalSaved(goals[..|goals| - 1]) + SavedAmount(goals[|goals| - 1])
  }

  /** The summary ring: saved as a percentage of the target, and 0 when the total target is not
      positive, so there is never a division by zero. */
  function OverallProgress(goals: seq<Goal>): (p: real)
    ensures TotalTarget(goals) <= 0.0 ==> p == 0.0
    ensures TotalTarget(goals) > 0.0 ==> p * TotalTarget(goals) == TotalSaved(goals) * 100.0
  {
    var target := TotalTarget(goals);
    if target > 0.0 then TotalSaved(goals) / target * 100.0 else 0.0
  }

  /** The summary "Remaining" figure, not clamped. */
  function SummaryRemaining(goals: seq<Goal>): (remaining: real)
    ensures remaining < 0.0 <==> TotalSaved(goals) > TotalTarget(goals)
    ensures remaining + TotalSaved(goals) == TotalTarget(goals)
  {
    TotalTarget(goals) - TotalSaved(goals)
  }

  /** Totals split over concatenation: the fold adds up the two halves. */
  lemma {:induction false} TotalsAppend(a: seq<Goal>, b: seq<Goal>)
    ensures TotalTarget(a + b) == TotalTarget(a) + TotalTarget(b)
    ensures TotalSaved(a + b) == TotalSaved(a) + TotalSaved(b)
  {
    if b == [] {
      assert a + b == a;
    } else {
      var init := b[..|b| - 1];
      assert (a + b)[..|a + b| - 1] == a + init;
      assert (a + b)[|a + b| - 1] == b[|b| - 1];
      TotalsAppend(a, init);
    }
  }

  /** When every goal has at least its target saved, so do the totals; when every goal has at most
      its target saved, so do the totals. */
  lemma {:induction false} TotalsCompare(goals: seq<Goal>)
    ensures (forall i :: 0 <= i < |goals| ==> SavedAmount(goals[i]) >= goals[i].targetAmount)
      ==> TotalSaved(goals) >= TotalTarget(goals)
    ensures (forall i :: 0 <= i < |goals| ==> SavedAmount(goals[i]) <= goals[i].targetAmount)
      ==> TotalSaved(goals) <= TotalTarget(goals)
  {
    if goals != [] {
      var init := goals[..|goals| - 1];
      assert forall i :: 0 <= i < |init| ==> init[i] == goals[i];
      TotalsCompare(init);
    }
  }

  /** A percentage `p` of `s` over a positive `t` (as `p * t == s * 100`) compares with 100 and 0
      as `s` compares with `t` and 0. */
  lemma PercentCompare(p: real, s: real, t: real)
    requires t > 0.0 && p * t == s * 100.0
    ensures p >= 100.0 <==> s >= t
    ensures p <= 100.0 <==> s <= t
    ensures p >= 0.0 <==> s >= 0.0
  {
    assert (p - 100.0) * t == 100.0 * (s - t);
    if p >= 100.0 { assert (p - 100.0) * t >= 0.0; } else { assert (p - 100.0) * t < 0.0; }
    if p <= 100.0 { assert (p - 100.0) * t <= 0.0; } else { assert (p - 100.0) * t > 0.0; }
    if p >= 0.0 { assert p * t >= 0.0; } else { assert p * t < 0.0; }
  }

  /** With a positive total target, the ring reaches 100% exactly when the total saved reaches the
      total target. */
  lemma OverallProgressFull(goals: seq<Goal>)
    requires TotalTarget(goals) > 0.0
    ensures OverallProgress(goals) >= 100.0 <==> TotalSaved(goals) >= TotalTarget(goals)
  {
    PercentCompare(OverallProgress(goals), TotalSaved(goals), TotalTarget(goals));
  }

  /** With non-negative amounts and every goal at most at its target, the ring stays in [0, 100]. */
  lemma OverallProgressBounded(goals: seq<Goal>)
    requires forall i :: 0 <= i < |goals| ==> goals[i].targetAmount >= 0.0 && SavedAmount(goals[i]) >= 0.0
    requires forall i :: 0 <= i < |goals| ==> SavedAmount(goals[i]) <= goals[i].targetAmount
    ensures 0.0 <= OverallProgress(goals) <= 100.0
  {
    TotalsCompare(goals);
    if TotalTarget(goals) > 0.0 {
      PercentCompare(OverallProgress(goals), TotalSaved(goals), TotalTarget(goals));
    }
  }

  /** The summary "Remaining" is not clamped: one goal saved beyond its target makes it negative. */
  lemma OversavedSummaryIsNegative(g: Goal)
    requires g.currentAmount.Some? && g.currentAmount.value > g.targetAmount
    ensures SummaryRemaining([g]) < 0.0
  {
  }

  /** `goal.currentAmount / goal.targetAmount * 100`. The card also shows
      `goal.currentAmount.toLocaleString()`, which throws on a missing amount, so the card
      figures are defined for goals that carry one. */
  function Progress(g: Goal): (p: JsNumber)
    requires g.currentAmount.Some?
    ensures g.targetAmount != 0.0 ==> p.Finite? && p.v * g.targetAmount == g.currentAmount.value * 100.0
    ensures g.targetAmount == 0.0 ==> (p == PosInfinity <==> g.currentAmount.value > 0.0)
    ensures g.targetAmount == 0.0 ==> (p == NaN <==> g.currentAmount.value == 0.0)
    ensures g.targetAmount == 0.0 ==> (p == NegInfinity <==> g.currentAmount.value < 0.0)
  {
    var current, target := g.currentAmount.value, g.targetAmount;
    if target != 0.0 then Finite(current / target * 100.0)
    else if current > 0.0 then PosInfinity
    else if current < 0.0 then NegInfinity
    else NaN
  }

  /** `n >= bound` for a JavaScript number: infinity is above every bound, NaN and minus infinity
      are not. */
  function AtLeast(n: JsNumber, bound: real): (b: bool)
    ensures n.Finite? ==> (b <==> n.v >= bound)
    ensures n == PosInfinity ==> b
    ensures n == NaN || n == NegInfinity ==> !b
  {
    match n
    case Finite(v) => v >= bound
    case PosInfinity => true
    case NegInfinity => false
    case NaN => false
  }

  /** `isAchieved = progress >= 100`. */
  function IsAchieved(g: Goal): (achieved: bool)
    requires g.currentAmount.Some?
    ensures g.targetAmount > 0.0 ==> (achieved <==> g.currentAmount.value >= g.targetAmount)
    ensures g.targetAmount == 0.0 ==> (achieved <==> g.currentAmount.value > 0.0)
    ensures g.targetAmount < 0.0 ==> (achieved <==> g.currentAmount.value <= g.targetAmount)
  {
    if g.targetAmount > 0.0 then
      PercentCompare(Progress(g).v, g.currentAmount.value, g.targetAmount);
      AtLeast(Progress(g), 100.0)
    else if g.targetAmount < 0.0 then
      PercentCompare(Progress(g).v, -g.currentAmount.value, -g.targetAmount);
      AtLeast(Progress(g), 100.0)
    else
      AtLeast(Progress(g), 100.0)
  }

  /** `remaining = goal.targetAmount - goal.currentAmount`. */
  function Remaining(g: Goal): (remaining: real)
    requires g.currentAmount.Some?
    ensures remaining <= 0.0 <==> g.currentAmount.value >= g.targetAmount
    ensures remaining + g.currentAmount.value == g.targetAmount
  {
    g.targetAmount - g.currentAmount.value
  }

  /** The card's "Needed" figure `Math.max(remaining, 0)`: never negative, and equal to the
      remaining amount whenever that is not negative. */
  function Needed(g: Goal): (needed: real)
    requires g.currentAmount.Some?
    ensures needed >= 0.0 && needed >= Remaining(g)
    ensures needed == Remaining(g) || needed == 0.0
  {
    var remaining := Remaining(g);
    if remaining > 0.0 then remaining else 0.0
  }

  /** The bar width `Math.min(progress, 100)`: never above 100, a full bar exactly when the goal is
      achieved, and the progress itself below that. NaN and minus infinity pass through as in
      JavaScript. */
  function BarWidth(g: Goal): (w: JsNumber)
    requires g.currentAmount.Some?
    ensures w != PosInfinity
    ensures w.Finite? ==> w.v <= 100.0
    ensures w == Finite(100.0) <==> IsAchieved(g)
    ensures !IsAchieved(g) ==> w == Progress(g)
  {
    match Progress(g)
    case Finite(v) => if v < 100.0 then Finite(v) else Finite(100.0)
    case PosInfinity => Finite(100.0)
    case NegInfinity => NegInfinity
    case NaN => NaN
  }

  /** For a positive target: achieved exactly when the saved amount reaches the target, exactly
      when nothing more is needed. */
  lemma AchievedIffTargetReached(g: Goal)
    requires g.currentAmount.Some? && g.targetAmount > 0.0
    ensures IsAchieved(g) <==> g.currentAmount.value >= g.targetAmount
    ensures IsAchieved(g) <==> Needed(g) == 0.0
  {
    PercentCompare(Progress(g).v, g.currentAmount.value, g.targetAmount);
  }

  /** A zero target divides by zero: any positive saving counts as achieved, while a goal with
      nothing saved is not achieved although nothing is needed. */
  lemma ZeroTargetGoal(g: Goal)
    requires g.currentAmount.Some? && g.targetAmount == 0.0
    ensures IsAchieved(g) <==> g.currentAmount.value > 0.0
    ensures g.currentAmount.value == 0.0 ==> !IsAchieved(g) && Needed(g) == 0.0
  {
  }

  /** With non-negative targets and every goal achieved, the summary ring is full. */
  lemma AllAchievedMeansFull(goals: seq<Goal>)
    requires forall i :: 0 <= i < |goals| ==> goals[i].currentAmount.Some? && goals[i].targetAmount >= 0.0
    requires forall i :: 0 <= i < |goals| ==> IsAchieved(goals[i])
    requires TotalTarget(goals) > 0.0
    ensures OverallProgress(goals) >= 100.0
  {
    forall i | 0 <= i < |goals|
      ensures SavedAmount(goals[i]) >= goals[i].targetAmount
    {
      if goals[i].targetAmount > 0.0 {
        AchievedIffTargetReached(goals[i]);
      }
    }
    TotalsCompare(goals);
    OverallProgressFull(goals);
  }

  /** Goals whose targets are all zero, each with something saved: every card reads "Goal
      Achieved!", yet the total target is 0, so the summary ring shows 0%. */
  lemma {:induction false} ZeroTargetsRingEmpty(goals: seq<Goal>)
    requires forall i :: 0 <= i < |goals| ==>
      goals[i].targetAmount == 0.0 && goals[i].currentAmount.Some? && goals[i].currentAmount.value > 0.0
    ensures forall i :: 0 <= i < |goals| ==> IsAchieved(goals[i])
    ensures TotalTarget(goals) == 0.0
    ensures OverallProgress(goals) == 0.0
  {
    if goals != [] {
      var init := goals[..|goals| - 1];
      assert forall i :: 0 <= i < |init| ==> init[i] == goals[i];
      ZeroTargetsRingEmpty(init);
    }
  }

  /** A contribution request `PATCH /goals/:id/contribute` with its parsed amount. */
  datatype Contribution = Contribution(goalId: string, amount: real)

  /** The page's own state: which card has its deposit form open, and the contribution and delete
      requests it has fired (the requests themselves are not modelled). */
  class BudgetPlannerPage {
    var activeGoalId: Option<string>
    var contributions: seq<Contribution>
    var deletions: seq<string>

    constructor ()
      ensures activeGoalId == None && contributions == [] && deletions == []
    {
      activeGoalId := None;
      contributions := [];
      deletions := [];
    }

    /** "Deposit Cash" opens the form on one card. */
    method OpenDeposit(id: string)
      modifies this
      ensures activeGoalId == Some(id)
      ensures contributions == old(contributions) && deletions == old(deletions)
    {
      activeGoalId := Some(id);
    }

    /** The cancel button, and the contribution request's success handler, close the form. */
    method CloseDeposit()
      modifies this
      ensures activeGoalId == None
      ensures contributions == old(contributions) && deletions == old(deletions)
    {
      activeGoalId := None;
    }

    /** `handleAddCash`: `entered` is the number the input holds (None when it is not a number,
        which compares as NaN). A request is fired only for an amount above zero; otherwise
        nothing happens. The form stays open until the request succeeds. */
    method HandleAddCash(id: string, entered: Option<real>)
      modifies this
      ensures entered.Some? && entered.value > 0.0 ==>
        contributions == old(contributions) + [Contribution(id, entered.value)]
      ensures !(entered.Some? && entered.value > 0.0) ==> contributions == old(contributions)
      ensures activeGoalId == old(activeGoalId) && deletions == old(deletions)
    {
      if entered.Some? && entered.value > 0.0 {
        contributions := contributions + [Contribution(id, entered.value)];
      }
    }

    /** `handleDelete` once its confirmation dialog has closed: a delete request only on
        confirmation. */
    method HandleDelete(id: string, confirmed: bool)
      modifies this
      ensures deletions == if confirmed then old(deletions) + [id] else old(deletions)
      ensures activeGoalId == old(activeGoalId) && contributions == old(contributions)
    {
      if confirmed {
        deletions := deletions + [id];
      }
    }
  }
}
