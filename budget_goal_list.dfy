/** The figures the goal list shows for each savings goal: the amount saved,
    the amount remaining, the amount needed per month and per week, and
    the progress percentage. Every figure is a pure expression of one goal. */
module BudgetGoalList {
  import opened Common
  import opened BudgetGoal

  /** A goal as the list receives it; `saved` is optional. */
  datatype ListGoal = ListGoal(
    id: string,
    name: string,
    target: real,
    duration: real,
    unit: Unit,
    startDate: Option<string>,
    note: Option<string>,
    saved: Option<real>)

  /** The weeks in a month the list assumes. */
  const WeeksPerMonth: real := 4.345

  /** `g.saved ?? 0` */
  function Saved(g: ListGoal): (r: real)
    ensures g.saved.None? ==> r == 0.0
    ensures g.saved.Some? ==> r == g.saved.value
  {
    g.saved.GetOr(0.0)
  }

  /** `Math.max(0, g.target - saved)`: what is left, never negative. */
  function Remaining(g: ListGoal): (r: real)
    ensures r >= 0.0
    ensures r >= g.target - Saved(g)
    ensures r == 0.0 || r == g.target - Saved(g)
    ensures Saved(g) >= 0.0 && g.target >= 0.0 ==> r <= g.target
    ensures Saved(g) >= g.target ==> r == 0.0
  {
    var d := g.target - Saved(g);
    if d > 0.0 then d else 0.0
  }

  /** `Math.max(1, g.duration)` */
  function Divisor(g: ListGoal): (r: real)
    ensures r >= 1.0 && r >= g.duration
    ensures r == 1.0 || r == g.duration
  {
    if g.duration > 1.0 then g.duration else 1.0
  }

  /** What is left spread over the periods, in the goal's own unit. */
  function PerOwnPeriod(g: ListGoal): (r: real)
    ensures r >= 0.0
    ensures r * Divisor(g) == Remaining(g)
  {
    Remaining(g) / Divisor(g)
  }

  /** `monthlyNeeded` */
  function MonthlyNeeded(g: ListGoal): (r: real)
    ensures r >= 0.0
    ensures g.unit == Months ==> r * Divisor(g) == Remaining(g)
  {
    if g.unit == Months then PerOwnPeriod(g) else PerOwnPeriod(g) * WeeksPerMonth
  }

  /** `weeklyNeeded` */
  function WeeklyNeeded(g: ListGoal): (r: real)
    ensures r >= 0.0
    ensures g.unit == Weeks ==> r * Divisor(g) == Remaining(g)
  {
    if g.unit == Weeks then PerOwnPeriod(g) else PerOwnPeriod(g) / WeeksPerMonth
  }

  /** Whatever the unit, the monthly figure is the weekly one times the
      weeks in a month. */
  lemma MonthlyIsWeeklyTimesWeeks(g: ListGoal)
    ensures MonthlyNeeded(g) == WeeklyNeeded(g) * WeeksPerMonth
  {
  }

  /** A goal already reached needs nothing more. */
  lemma ReachedNeedsNothing(g: ListGoal)
    requires Saved(g) >= g.target
    ensures Remaining(g) == 0.0 && MonthlyNeeded(g) == 0.0 && WeeklyNeeded(g) == 0.0
  {
  }

  /** The shown amount, `Math.ceil` of the figure, saved every own period,
      reaches the goal. */
  lemma ShownAmountCoversRemaining(g: ListGoal)
    ensures g.unit == Months ==> Ceil(MonthlyNeeded(g)) as real * Divisor(g) >= Remaining(g)
    ensures g.unit == Weeks ==> Ceil(WeeklyNeeded(g)) as real * Divisor(g) >= Remaining(g)
  {
    var x := PerOwnPeriod(g);
    var c := Ceil(x) as real;
    assert (c - x) * Divisor(g) >= 0.0;
  }

  /** A JavaScript number as the percentage can be: a value, or the
      results of dividing by a zero target. */
  datatype Pct = Value(n: int) | NotANumber | MinusInfinity

  /** `Math.min(100, Math.round((saved / g.target) * 100))`. With a zero
      target the quotient is an infinity or not a number: plus infinity
      is capped to 100, the other two pass through. */
  function Percent(g: ListGoal): (p: Pct)
    ensures g.target == 0.0 && Saved(g) > 0.0 ==> p == Value(100)
    ensures g.target == 0.0 && Saved(g) == 0.0 ==> p == NotANumber
    ensures g.target == 0.0 && Saved(g) < 0.0 ==> p == MinusInfinity
    ensures g.target != 0.0 ==> p.Value? && p.n <= 100
    ensures g.target != 0.0 && p.n < 100 ==>
              p.n as real - 0.5 <= Saved(g) / g.target * 100.0 < p.n as real + 0.5
    ensures g.target != 0.0 && p.n == 100 ==> Saved(g) / g.target * 100.0 >= 99.5
  {
    if g.target == 0.0 then
      (if Saved(g) > 0.0 then Value(100) else if Saved(g) == 0.0 then NotANumber else MinusInfinity)
    else
      var r := Round(Saved(g) / g.target * 100.0);
      Value(if r < 100 then r else 100)
  }

  /** With something saved towards a positive target, the percentage lies
      between 0 and 100, and it is 100 once the target is reached. */
  lemma PercentBounds(g: ListGoal)
    requires g.target > 0.0 && Saved(g) >= 0.0
    ensures Percent(g).Value? && 0 <= Percent(g).n <= 100
    ensures Saved(g) >= g.target ==> Percent(g) == Value(100)
  {
    var q := Saved(g) / g.target;
    assert q >= 0.0;
    if Saved(g) >= g.target {
      assert q >= 1.0;
    }
  }
}
