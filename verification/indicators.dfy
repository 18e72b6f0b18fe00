/** The global indicators read off the metrics: the two conditional
    recommendations (pages/index.js lines 201-202, repeated in the action plan
    at lines 714-723) and the three-level health light on the expense ratio
    (lines 656-670). Comparisons are made on the exact percentages; the source
    compares the value rounded to one decimal by `toFixed(1)`. */
module Indicators {
  import opened Wrappers
  import opened Expenses
  import opened Advisory
  import opened Aggregation

  /** "Raise your savings": the savings rate is below 10 %. */
  predicate SavingsLow(m: Metrics)
  {
    Below(m.savingsRate, 10.0)
  }

  /** A percentage that is computable and strictly below `limit`. */
  predicate Below(ratio: Option<real>, limit: real)
  {
    ratio.Some? && ratio.value < limit
  }

  /** "Keep variable spending in check": variable spending is above 25 % of
      income. */
  predicate VariableHigh(m: Metrics)
  {
    Above(m.variableRatio, 25.0)
  }

  /** The health light: red, yellow or green. */
  datatype Health = Good | Moderate | Critical

  /** Severity rank of a health level. */
  function Severity(h: Health): nat
  {
    match h
    case Good => 0
    case Moderate => 1
    case Critical => 2
  }

  /** `> 70` is critical, else `> 60` is moderate, else good. */
  function HealthOf(expenseRatio: real): (h: Health)
    ensures h == Critical <==> expenseRatio > 70.0
    ensures h == Moderate <==> 60.0 < expenseRatio <= 70.0
    ensures h == Good <==> expenseRatio <= 60.0
  {
    if expenseRatio > 70.0 then Critical
    else if expenseRatio > 60.0 then Moderate
    else Good
  }

  /** A larger expense ratio never shows a healthier light. */
  lemma HealthMonotone(a: real, b: real)
    requires a <= b
    ensures Severity(HealthOf(a)) <= Severity(HealthOf(b))
  {
  }

  /** The light for a set of metrics; None when the expense ratio cannot be
      computed because total income is zero. */
  function Overview(m: Metrics): (h: Option<Health>)
    ensures h.Some? <==> m.expenseRatio.Some?
  {
    match m.expenseRatio
    case Some(r) => Some(HealthOf(r))
    case None => None
  }

  /** For a positive divisor `t`, a percentage `r` of `x` lies above or below
      `limit` exactly when `x` lies above or below `limit` percent of `t`. */
  lemma ComparePercent(x: real, t: real, limit: real)
    requires t > 0.0
    ensures var r := Percent(x, t).value;
      && (r < limit <==> x * 100.0 < limit * t)
      && (r > limit <==> x * 100.0 > limit * t)
  {
    var r := Percent(x, t).value;
    assert r * t == x * 100.0;
    if r < limit {
      assert (limit - r) * t > 0.0;
    } else if r > limit {
      assert (r - limit) * t > 0.0;
    } else {
      assert r * t == limit * t;
    }
  }

  /** For a positive income, the savings flag is up exactly when savings are
      less than a tenth of income (the target the recommendation names). */
  lemma SavingsLowMeans(inc: Income, es: seq<Expense>)
    requires inc.salary1 + inc.salary2 > 0.0
    ensures SavingsLow(Calculate(inc, es)) <==> inc.savings < (inc.salary1 + inc.salary2) * 0.1
  {
    var m := Calculate(inc, es);
    var x, t := inc.savings, m.totalSalary;
    assert SavingsLow(m) <==> Below(Percent(x, t), 10.0);
    BelowIff(x, t, 10.0);
    assert x * 100.0 < 10.0 * t <==> x < t * 0.1;
  }

  /** `Below` a percentage limit, restated without division. */
  lemma BelowIff(x: real, t: real, limit: real)
    requires t > 0.0
    ensures Below(Percent(x, t), limit) <==> x * 100.0 < limit * t
  {
    ComparePercent(x, t, limit);
  }

  /** `Above` a percentage limit, restated without division. */
  lemma AboveIff(x: real, t: real, limit: real)
    requires t > 0.0
    ensures Above(Percent(x, t), limit) <==> x * 100.0 > limit * t
  {
    ComparePercent(x, t, limit);
  }

  /** For a positive income, the variable-spending flag is up exactly when
      variable expenses exceed a quarter of income. */
  lemma VariableHighMeans(inc: Income, es: seq<Expense>)
    requires inc.salary1 + inc.salary2 > 0.0
    ensures VariableHigh(Calculate(inc, es))
        <==> Calculate(inc, es).variableExpenses > (inc.salary1 + inc.salary2) * 0.25
  {
    var m := Calculate(inc, es);
    var v, t := m.variableExpenses, m.totalSalary;
    assert VariableHigh(m) <==> Above(Percent(v, t), 25.0);
    AboveIff(v, t, 25.0);
    assert v * 100.0 > 25.0 * t <==> v > t * 0.25;
  }

  /** For a positive divisor, the light on the percentage `x` of `t` turns
      red exactly above 70 % of `t` and yellow exactly above 60 % up to 70 %. */
  lemma HealthOfPercent(x: real, t: real)
    requires t > 0.0
    ensures HealthOf(Percent(x, t).value) == Critical <==> x > t * 0.7
    ensures HealthOf(Percent(x, t).value) == Moderate <==> t * 0.6 < x <= t * 0.7
  {
    AboveIff(x, t, 70.0);
    AboveIff(x, t, 60.0);
    assert x * 100.0 > 70.0 * t <==> x > t * 0.7;
    assert x * 100.0 > 60.0 * t <==> x > t * 0.6;
  }

  /** For a positive income, the light turns red exactly when expenses exceed
      70 % of income, and yellow exactly when they exceed 60 % but not 70 %. */
  lemma OverviewMeans(inc: Income, es: seq<Expense>)
    requires inc.salary1 + inc.salary2 > 0.0
    ensures var m := Calculate(inc, es);
      && (Overview(m) == Some(Critical) <==> m.totalExpenses > m.totalSalary * 0.7)
      && (Overview(m) == Some(Moderate) <==> m.totalSalary * 0.6 < m.totalExpenses <= m.totalSalary * 0.7)
  {
    var m := Calculate(inc, es);
    assert Overview(m) == Some(HealthOf(Percent(m.totalExpenses, m.totalSalary).value));
    HealthOfPercent(m.totalExpenses, m.totalSalary);
  }

  /** With no income, neither flag is raised and the light is not shown. */
  lemma NoIncomeNoIndicators(inc: Income, es: seq<Expense>)
    requires inc.salary1 + inc.salary2 == 0.0
    ensures !SavingsLow(Calculate(inc, es))
    ensures !VariableHigh(Calculate(inc, es))
    ensures Overview(Calculate(inc, es)) == None
  {
  }

  // ---------------------------------------------------------------------
  // The action plan (lines 714-723) and the general recommendations of the
  // narrative report (lines 201-206)
  // ---------------------------------------------------------------------

  /** One recommendation. The conditional ones carry the figure they quote:
      the savings target (10 % of income) or the variable ratio. */
  datatype Recommendation =
    | RaiseSavings(target: real)
    | TameVariable(ratio: real)
    | Rule503020
    | KeepJournal
    | Negotiate
    | Automate

  /** The four recommendations that are always shown, in order. */
  const GENERAL_ADVICE: seq<Recommendation> := [Rule503020, KeepJournal, Negotiate, Automate]

  /** The recommendation list: the savings one when the savings flag is up,
      then the variable one when the variable flag is up, then the four
      general ones. */
  function Recommendations(m: Metrics): (r: seq<Recommendation>)
    ensures |r| == |GENERAL_ADVICE| + (if SavingsLow(m) then 1 else 0) + (if VariableHigh(m) then 1 else 0)
    ensures r[|r| - |GENERAL_ADVICE|..] == GENERAL_ADVICE
    ensures SavingsLow(m) <==> RaiseSavings(m.totalSalary * 0.1) in r
    ensures SavingsLow(m) ==> r[0] == RaiseSavings(m.totalSalary * 0.1)
    ensures VariableHigh(m) <==> m.variableRatio.Some? && TameVariable(m.variableRatio.value) in r
    ensures VariableHigh(m) ==> r[|r| - |GENERAL_ADVICE| - 1] == TameVariable(m.variableRatio.value)
  {
    (if SavingsLow(m) then [RaiseSavings(m.totalSalary * 0.1)] else [])
    + (if VariableHigh(m) then [TameVariable(m.variableRatio.value)] else [])
    + GENERAL_ADVICE
  }
}
