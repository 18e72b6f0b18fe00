/** Worked cases on the household the tracker starts with (pages/index.js
    lines 6-18): two salaries of 3000 and 2500 euros, 500 euros saved a month
    and six expenses. Each lemma pins down what the model computes for one
    situation, so the general contracts can be read against concrete
    figures. */
module Scenarios {
  import opened Wrappers
  import opened Text
  import opened Expenses
  import opened Advisory
  import opened Aggregation
  import opened Indicators
  import opened Reports

  const HOUSEHOLD: Income := Income(3000.0, 2500.0, 500.0)

  const ELECTRICITY: Expense := Expense(1, "Électricité", 120.0, FIXE)
  const PHONE: Expense := Expense(2, "Téléphone", 45.0, FIXE)
  const WATER: Expense := Expense(3, "Eau", 60.0, FIXE)
  const INTERNET: Expense := Expense(4, "Internet", 35.0, FIXE)
  const GROCERIES: Expense := Expense(5, "Courses", 400.0, VARIABLE)
  const TRANSPORT: Expense := Expense(6, "Transport", 80.0, VARIABLE)

  const INITIAL_EXPENSES: seq<Expense> := [ELECTRICITY, PHONE, WATER, INTERNET, GROCERIES, TRANSPORT]

  // ---------------------------------------------------------------------
  // What the categories mention
  // ---------------------------------------------------------------------

  /** "Téléphone" lower-cases to the phone keyword. */
  lemma PhoneMentionsPhone(e: Expense)
    requires e.category == "Téléphone"
    ensures Mentions(e, PHONE_KEY)
  {
    assert Lower(e.category) == PHONE_KEY;
  }

  /** "Électricité" lower-cases to the electricity keyword: the accented
      capital is folded too. */
  lemma ElectricityMentionsElectricity(e: Expense)
    requires e.category == "Électricité"
    ensures Mentions(e, ELECTRICITY_KEY)
  {
    assert Lower(e.category) == ELECTRICITY_KEY;
  }

  /** "Courses" lower-cases to the groceries keyword and is too short for the
      phone and electricity keywords. */
  lemma GroceriesMentions(e: Expense)
    requires e.category == "Courses"
    ensures Mentions(e, GROCERIES_KEY)
    ensures !Mentions(e, PHONE_KEY) && !Mentions(e, ELECTRICITY_KEY)
  {
    assert Lower(e.category) == GROCERIES_KEY;
    if Mentions(e, PHONE_KEY) {
      ContainsNeedsRoom(Lower(e.category), PHONE_KEY);
    }
    if Mentions(e, ELECTRICITY_KEY) {
      ContainsNeedsRoom(Lower(e.category), ELECTRICITY_KEY);
    }
  }

  /** A category with no `h` or `H` never mentions the phone keyword. */
  lemma NoPhoneWithoutH(e: Expense)
    requires 'h' !in e.category && 'H' !in e.category
    ensures !Mentions(e, PHONE_KEY)
  {
    LowerAvoids(e.category, 'h');
    if Mentions(e, PHONE_KEY) {
      ContainsNeedsEach(Lower(e.category), PHONE_KEY, 5);
    }
  }

  // ---------------------------------------------------------------------
  // Scenario A: the initial household
  // ---------------------------------------------------------------------

  /** One step of the sums and filters over a list written out in full. */
  lemma Unfold(e: Expense, rest: seq<Expense>)
    ensures Sum([e] + rest) == e.amount + Sum(rest)
    ensures OfKind([e] + rest, VARIABLE) == (if e.kind == VARIABLE then [e] else []) + OfKind(rest, VARIABLE)
  {
    assert ([e] + rest)[1..] == rest;
  }

  /** The initial list, written as a chain of one-element heads. */
  lemma InitialUnfolds()
    ensures Sum(INITIAL_EXPENSES) == 740.0
    ensures OfKind(INITIAL_EXPENSES, VARIABLE) == [GROCERIES] + ([TRANSPORT] + [])
  {
    var t5 := [TRANSPORT] + [];
    var t4 := [GROCERIES] + t5;
    var t3 := [INTERNET] + t4;
    var t2 := [WATER] + t3;
    var t1 := [PHONE] + t2;
    var t0 := [ELECTRICITY] + t1;
    assert t0 == INITIAL_EXPENSES;
    Unfold(TRANSPORT, []);
    Unfold(GROCERIES, t5);
    Unfold(INTERNET, t4);
    Unfold(WATER, t3);
    Unfold(PHONE, t2);
    Unfold(ELECTRICITY, t1);
  }

  /** The variable expenses of the initial list are the groceries and the
      transport, 480 euros together. */
  lemma InitialVariable()
    ensures Sum(OfKind(INITIAL_EXPENSES, VARIABLE)) == 480.0
  {
    InitialUnfolds();
    Unfold(TRANSPORT, []);
    Unfold(GROCERIES, [TRANSPORT] + []);
  }

  /** The initial figures: 5500 of income, 740 of expenses (260 fixed, 480
      variable) and 4260 left. */
  lemma InitialTotals()
    ensures var m := Calculate(HOUSEHOLD, INITIAL_EXPENSES);
      && m.totalSalary == 5500.0
      && m.totalExpenses == 740.0
      && m.fixedExpenses == 260.0
      && m.variableExpenses == 480.0
      && m.remaining == 4260.0
  {
    InitialUnfolds();
    InitialVariable();
    InitialTyped();
  }

  /** Every initial expense is typed fixed or variable. */
  lemma InitialTyped()
    ensures AllTyped(INITIAL_EXPENSES)
  {
  }

  /** A fixed expense that mentions no keyword, or stays under every limit,
      draws no remark at the initial income. */
  lemma QuietFixed(e: Expense)
    requires e in {ELECTRICITY, PHONE, WATER, INTERNET}
    ensures Evaluate(5500.0, e).status == Normal
    ensures Evaluate(5500.0, e).suggestion == ""
  {
    if e == ELECTRICITY {
      assert 'h' !in e.category && 'H' !in e.category;
      NoPhoneWithoutH(e);
    }
    forall r
      ensures !Fires(r, 5500.0, e)
    {
    }
  }

  /** The groceries (400 euros, 7.3 % of income) stay under both their 15 %
      limit and the 8 % alert. */
  lemma QuietGroceries()
    ensures Evaluate(5500.0, GROCERIES).status == Normal
    ensures Evaluate(5500.0, GROCERIES).suggestion == ""
  {
    GroceriesMentions(GROCERIES);
    assert Percent(400.0, 5500.0).value * 5500.0 == 40000.0;
    forall r
      ensures !Fires(r, 5500.0, GROCERIES)
    {
    }
  }

  /** The transport (80 euros) stays under its 10 % limit and the 8 % alert. */
  lemma QuietTransport()
    ensures Evaluate(5500.0, TRANSPORT).status == Normal
    ensures Evaluate(5500.0, TRANSPORT).suggestion == ""
  {
    assert 'h' !in TRANSPORT.category && 'H' !in TRANSPORT.category;
    NoPhoneWithoutH(TRANSPORT);
    assert Percent(80.0, 5500.0).value * 5500.0 == 8000.0;
    forall r
      ensures !Fires(r, 5500.0, TRANSPORT)
    {
    }
  }

  /** At the initial income no initial expense draws a remark. */
  lemma InitialAllNormal(i: nat)
    requires i < |INITIAL_EXPENSES|
    ensures Calculate(HOUSEHOLD, INITIAL_EXPENSES).analyses[i].status == Normal
    ensures Calculate(HOUSEHOLD, INITIAL_EXPENSES).analyses[i].suggestion == ""
  {
    var e := INITIAL_EXPENSES[i];
    if e.kind == FIXE {
      QuietFixed(e);
    } else if e == GROCERIES {
      QuietGroceries();
    } else {
      QuietTransport();
    }
  }

  /** The initial savings (500 euros) are below a tenth of income. */
  lemma InitialSavingsFlag()
    ensures SavingsLow(Calculate(HOUSEHOLD, INITIAL_EXPENSES))
  {
    SavingsLowMeans(HOUSEHOLD, INITIAL_EXPENSES);
  }

  /** The initial variable expenses (480 euros) are below a quarter of
      income. */
  lemma InitialVariableFlag()
    ensures !VariableHigh(Calculate(HOUSEHOLD, INITIAL_EXPENSES))
  {
    InitialTotals();
    VariableHighMeans(HOUSEHOLD, INITIAL_EXPENSES);
  }

  /** The initial expenses (13.5 % of income) show the green light. */
  lemma InitialLight()
    ensures Overview(Calculate(HOUSEHOLD, INITIAL_EXPENSES)) == Some(Good)
  {
    InitialTotals();
    OverviewMeans(HOUSEHOLD, INITIAL_EXPENSES);
  }

  /** With only the savings flag up, the plan is the savings target followed
      by the general advice. */
  lemma SavingsOnlyPlan(m: Metrics)
    requires SavingsLow(m) && !VariableHigh(m)
    ensures Recommendations(m) == [RaiseSavings(m.totalSalary * 0.1)] + GENERAL_ADVICE
  {
  }

  /** The savings recommendation is shown for the initial household, with a
      target of 550 euros; the variable one is not, and the light is
      green. */
  lemma InitialIndicators()
    ensures var m := Calculate(HOUSEHOLD, INITIAL_EXPENSES);
      && SavingsLow(m)
      && !VariableHigh(m)
      && Overview(m) == Some(Good)
      && Recommendations(m) == [RaiseSavings(550.0)] + GENERAL_ADVICE
  {
    InitialSavingsFlag();
    InitialVariableFlag();
    InitialLight();
    SavingsOnlyPlan(Calculate(HOUSEHOLD, INITIAL_EXPENSES));
  }

  // ---------------------------------------------------------------------
  // Scenario B: the phone bill is edited to 65 euros
  // ---------------------------------------------------------------------

  /** Editing the phone bill to "65" turns its analysis into a warning with
      the phone-plan suggestion. */
  lemma PhoneEditRaisesWarning(parse: Parser)
    requires parse("65") == Some(65.0)
    ensures var es := UpdateExpense(INITIAL_EXPENSES, 2, Amount, "65", parse);
      && es[1] == PHONE.(amount := 65.0)
      && Calculate(HOUSEHOLD, es).analyses[1].status == Warning
      && Calculate(HOUSEHOLD, es).analyses[1].suggestion == PHONE_TIP
  {
    var es := UpdateExpense(INITIAL_EXPENSES, 2, Amount, "65", parse);
    assert es[1] == PHONE.(amount := 65.0);
    PhoneMentionsPhone(es[1]);
    Precedence(5500.0, es[1], Phone);
    assert Fires(Phone, 5500.0, es[1]);
  }

  // ---------------------------------------------------------------------
  // Scenario C: the same groceries under a smaller income
  // ---------------------------------------------------------------------

  /** With 2000 euros of income the 400 euros of groceries exceed the 300-euro
      limit and draw the groceries warning; with 5500 euros (limit 825) they
      do not. */
  lemma GroceriesDependOnIncome()
    ensures Evaluate(2000.0, GROCERIES).status == Warning
    ensures Evaluate(2000.0, GROCERIES).suggestion == GROCERIES_TIP
    ensures Evaluate(5500.0, GROCERIES).status == Normal
  {
    GroceriesMentions(GROCERIES);
    Precedence(2000.0, GROCERIES, Groceries);
    assert Fires(Groceries, 2000.0, GROCERIES);
    QuietGroceries();
  }

  // ---------------------------------------------------------------------
  // Scenario D: no income
  // ---------------------------------------------------------------------

  /** With no income, the limits that are fractions of income drop to zero,
      so the electricity bill is flagged. */
  lemma NoIncomeFlagsElectricity()
    ensures Evaluate(0.0, ELECTRICITY).status == Warning
    ensures Evaluate(0.0, ELECTRICITY).suggestion == ELECTRICITY_TIP
  {
    ElectricityMentionsElectricity(ELECTRICITY);
    assert 'h' !in ELECTRICITY.category && 'H' !in ELECTRICITY.category;
    NoPhoneWithoutH(ELECTRICITY);
    Precedence(0.0, ELECTRICITY, Electricity);
    assert Fires(Electricity, 0.0, ELECTRICITY);
  }

  /** With both salaries at zero no percentage is computable, whatever the
      expenses: every share is missing, no flag is raised and no light is
      shown, and the CSV renders the missing savings rate as not
      computable. */
  lemma NoIncome(savings: real, es: seq<Expense>, fmt: Render)
    ensures var m := Calculate(Income(0.0, 0.0, savings), es);
      && m.savingsRate.None? && m.expenseRatio.None? && m.variableRatio.None?
      && (forall i :: 0 <= i < |m.analyses| ==> m.analyses[i].ratio.None?)
      && !SavingsLow(m) && !VariableHigh(m) && Overview(m).None?
      && PercentCell(m.savingsRate, fmt) == NOT_COMPUTABLE
  {
    NoIncomeNoIndicators(Income(0.0, 0.0, savings), es);
  }

  /** The initial household with both salaries at zero: the electricity bill
      is the first analysis and is flagged. */
  lemma NoIncomeInitial()
    ensures Calculate(Income(0.0, 0.0, 500.0), INITIAL_EXPENSES).analyses[0].status == Warning
  {
    NoIncomeFlagsElectricity();
  }
}
