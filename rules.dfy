/** The two decision tables of app.py: the budget alert (lines 94-98) and the
    month-over-month insight (lines 148-156). */
module Rules {
  import opened Wrappers
  import opened Kpis

  datatype BudgetStatus = NoBudget | OverBudget(overage: int) | WithinBudget

  /** A budget of 0 (the default) turns the alert off; otherwise the total is
      either over the budget, by a positive overage, or within it. */
  function BudgetCheck(total: int, budget: int): (s: BudgetStatus)
    ensures s == NoBudget <==> budget <= 0
    ensures s.OverBudget? <==> budget > 0 && total > budget
    ensures s.OverBudget? ==> s.overage == total - budget && s.overage > 0
    ensures s == WithinBudget <==> budget > 0 && total <= budget
  {
    if budget > 0 then
      (if total > budget then OverBudget(total - budget) else WithinBudget)
    else NoBudget
  }

  /** Spending more never turns an over-budget verdict into a within-budget one,
      and the overage grows with the total. */
  lemma BudgetCheckMonotone(t1: int, t2: int, budget: int)
    requires t1 <= t2
    ensures BudgetCheck(t1, budget).OverBudget? ==>
            BudgetCheck(t2, budget).OverBudget? && BudgetCheck(t1, budget).overage <= BudgetCheck(t2, budget).overage
    ensures BudgetCheck(t2, budget) == WithinBudget ==> BudgetCheck(t1, budget) == WithinBudget
  {
  }

  datatype Insight = IncreaseAlert | DecreaseNote | StableNote | NotEnoughData

  /** Thresholds of +20% and -20%; no comparison means not enough data. */
  function TrendInsight(pct: Option<real>): (i: Insight)
    ensures i == NotEnoughData <==> pct.None?
    ensures i == IncreaseAlert <==> pct.Some? && pct.value > 20.0
    ensures i == DecreaseNote <==> pct.Some? && pct.value < -20.0
    ensures i == StableNote <==> pct.Some? && -20.0 <= pct.value <= 20.0
  {
    match pct
    case None => NotEnoughData
    case Some(p) => if p > 20.0 then IncreaseAlert else if p < -20.0 then DecreaseNote else StableNote
  }

  /** Read against the figures it compares: the alert fires exactly when the
      average exceeds the previous figure by more than a fifth, the decrease
      note exactly when it is more than a fifth below it. */
  lemma TrendInsightMeaning(avg: real, prev: int)
    requires prev > 0
    ensures var i := TrendInsight(ChangeAgainst(avg, Some(prev)));
      var p := prev as real;
      && (i == IncreaseAlert <==> avg > p * 1.2)
      && (i == DecreaseNote <==> avg < p * 0.8)
      && (i == StableNote <==> p * 0.8 <= avg <= p * 1.2)
  {
    var p := prev as real;
    var q := (avg - p) / p;
    assert q * p == avg - p;
    var pct := q * 100.0;
    assert ChangeAgainst(avg, Some(prev)) == Some(pct);
    assert pct > 20.0 <==> q > 0.2;
    assert pct < -20.0 <==> q < -0.2;
    assert q > 0.2 <==> q * p > 0.2 * p;
    assert q < -0.2 <==> q * p < -0.2 * p;
  }
}
