/** The advisory rule engine: the per-expense part of the `calculations` memo
    (pages/index.js lines 63-86). Each expense is checked against five rules
    in a fixed order and the first rule that fires decides its status and its
    suggestion. The source writes the rules as an if/else-if chain
    (`EvaluateChain`); the model also keeps them as an ordered table
    (`RULES`, `Evaluate`) and proves the two agree. */
module Advisory {
  import opened Wrappers
  import opened Text
  import opened Expenses

  datatype Status = Normal | Warning | Alert

  /** `{ ...expense, ratioToIncome, status, suggestion }`. */
  datatype Analysis = Analysis(expense: Expense, ratio: Option<real>, status: Status, suggestion: string)

  /** `(part / whole) * 100`. The source divides without a guard; here a zero
      divisor gives None ("not computable") instead of NaN or Infinity. */
  function Percent(part: real, whole: real): (r: Option<real>)
    ensures r.Some? <==> whole != 0.0
    ensures r.Some? ==> r.value * whole == part * 100.0
  {
    if whole == 0.0 then None else Some(part / whole * 100.0)
  }

  /** A percentage that is computable and strictly above `limit`. */
  predicate Above(ratio: Option<real>, limit: real)
  {
    ratio.Some? && ratio.value > limit
  }

  // The lower-case keywords the category is searched for.
  const PHONE_KEY: string := "téléphone"
  const ELECTRICITY_KEY: string := "électricité"
  const GROCERIES_KEY: string := "courses"
  const TRANSPORT_KEY: string := "transport"

  // The suggestions, word for word. Each is written as short pieces so that
  // the verifier can inspect its characters piece by piece.
  const PHONE_TIP: string :=
    "Vérifiez votre forfait téléphonique. " + "Des forfaits à moins de 20€/mois " + "sont disponibles."
  const ELECTRICITY_TIP: string :=
    "Facture électrique élevée. " + "Pensez aux ampoules LED " + "et aux appareils économes."
  const GROCERIES_TIP: string :=
    "Budget courses élevé. " + "Planifiez vos repas et comparez les prix."
  const TRANSPORT_TIP: string :=
    "Coûts de transport importants. " + "Étudiez les abonnements ou le covoiturage."
  const ALERT_TIP: string :=
    "Cette dépense représente plus de 8% " + "de vos revenus. " + "Pourrait-elle être réduite ?"

  /** The five rules, in the order the source tests them. */
  datatype Rule = Phone | Electricity | Groceries | Transport | HighVariable

  const RULES: seq<Rule> := [Phone, Electricity, Groceries, Transport, HighVariable]

  /** The four rules keyed on the category text. */
  predicate IsCategoryRule(r: Rule)
  {
    r != HighVariable
  }

  /** Position of a rule in `RULES`. */
  function Rank(r: Rule): (k: nat)
    ensures k < |RULES| && RULES[k] == r
  {
    match r
    case Phone => 0
    case Electricity => 1
    case Groceries => 2
    case Transport => 3
    case HighVariable => 4
  }

  /** `expense.category.toLowerCase().includes(key)`. */
  predicate Mentions(e: Expense, key: string)
  {
    Contains(Lower(e.category), key)
  }

  /** The condition of rule `r` for expense `e` under total income `total`. */
  predicate Fires(r: Rule, total: real, e: Expense)
  {
    match r
    case Phone => Mentions(e, PHONE_KEY) && e.amount > 60.0
    case Electricity => Mentions(e, ELECTRICITY_KEY) && e.amount > total * 0.05
    case Groceries => Mentions(e, GROCERIES_KEY) && e.amount > total * 0.15
    case Transport => Mentions(e, TRANSPORT_KEY) && e.amount > total * 0.1
    case HighVariable => Above(Percent(e.amount, total), 8.0) && e.kind == VARIABLE
  }

  /** The status a rule assigns. */
  function StatusOf(r: Rule): Status
  {
    if r == HighVariable then Alert else Warning
  }

  /** The suggestion a rule assigns. */
  function Tip(r: Rule): string
  {
    match r
    case Phone => PHONE_TIP
    case Electricity => ELECTRICITY_TIP
    case Groceries => GROCERIES_TIP
    case Transport => TRANSPORT_TIP
    case HighVariable => ALERT_TIP
  }

  /** No two rules give the same suggestion, and none gives an empty one. */
  lemma TipsDistinct(r: Rule, q: Rule)
    ensures Tip(r) != ""
    ensures Tip(r) == Tip(q) <==> r == q
  {
  }

  // The suggestions hold neither a comma nor a line break, one text and one
  // character at a time.

  lemma PhoneTipHasNoComma()
    ensures ',' !in PHONE_TIP
  {
  }

  lemma PhoneTipHasNoBreak()
    ensures '\n' !in PHONE_TIP
  {
  }

  lemma ElectricityTipHasNoComma()
    ensures ',' !in ELECTRICITY_TIP
  {
  }

  lemma ElectricityTipHasNoBreak()
    ensures '\n' !in ELECTRICITY_TIP
  {
  }

  lemma GroceriesTipHasNoComma()
    ensures ',' !in GROCERIES_TIP
  {
  }

  lemma GroceriesTipHasNoBreak()
    ensures '\n' !in GROCERIES_TIP
  {
  }

  lemma TransportTipHasNoComma()
    ensures ',' !in TRANSPORT_TIP
  {
  }

  lemma TransportTipHasNoBreak()
    ensures '\n' !in TRANSPORT_TIP
  {
  }

  lemma AlertTipHasNoComma()
    ensures ',' !in ALERT_TIP
  {
  }

  lemma AlertTipHasNoBreak()
    ensures '\n' !in ALERT_TIP
  {
  }

  /** No suggestion holds a comma or a line break: each fills exactly one
      field of one CSV line. */
  lemma TipIsOneField(r: Rule)
    ensures ',' !in Tip(r) && '\n' !in Tip(r)
  {
    match r
    case Phone => PhoneTipHasNoComma(); PhoneTipHasNoBreak();
    case Electricity => ElectricityTipHasNoComma(); ElectricityTipHasNoBreak();
    case Groceries => GroceriesTipHasNoComma(); GroceriesTipHasNoBreak();
    case Transport => TransportTipHasNoComma(); TransportTipHasNoBreak();
    case HighVariable => AlertTipHasNoComma(); AlertTipHasNoBreak();
  }

  /** No two entries of a rule list are the same rule. */
  predicate Distinct(rules: seq<Rule>)
  {
    forall i, j :: 0 <= i < j < |rules| ==> rules[i] != rules[j]
  }

  /** The first rule of `rules` that fires, if any. */
  function FirstFiring(rules: seq<Rule>, total: real, e: Expense): (r: Option<Rule>)
    ensures r.Some? ==> r.value in rules && Fires(r.value, total, e)
    ensures r.None? <==> forall j :: 0 <= j < |rules| ==> !Fires(rules[j], total, e)
  {
    if |rules| == 0 then None
    else if Fires(rules[0], total, e) then Some(rules[0])
    else FirstFiring(rules[1..], total, e)
  }

  /** In a list without repeats, rule number `k` is the one chosen exactly when
      it fires and no rule before it fires. */
  lemma {:induction false} FirstFiringIff(rules: seq<Rule>, total: real, e: Expense, k: nat)
    requires k < |rules|
    requires Distinct(rules)
    ensures FirstFiring(rules, total, e) == Some(rules[k])
        <==> Fires(rules[k], total, e) && forall j :: 0 <= j < k ==> !Fires(rules[j], total, e)
  {
    if k == 0 {
      if !Fires(rules[0], total, e) {
        var r := FirstFiring(rules[1..], total, e);
        if r.Some? {
          var m :| 0 <= m < |rules[1..]| && rules[1..][m] == r.value;
          assert rules[m + 1] == r.value;
        }
      }
    } else {
      if !Fires(rules[0], total, e) {
        assert Distinct(rules[1..]) by {
          forall i, j | 0 <= i < j < |rules[1..]|
            ensures rules[1..][i] != rules[1..][j]
          {
            assert rules[1..][i] == rules[i + 1] && rules[1..][j] == rules[j + 1];
          }
        }
        FirstFiringIff(rules[1..], total, e, k - 1);
        assert rules[1..][k - 1] == rules[k];
        assert (forall j :: 0 <= j < k - 1 ==> !Fires(rules[1..][j], total, e))
           <==> (forall j :: 1 <= j < k ==> !Fires(rules[j], total, e)) by {
          forall j | 1 <= j < k
            ensures rules[1..][j - 1] == rules[j]
          {
          }
        }
      } else {
        assert rules[0] != rules[k];
      }
    }
  }

  /** First match wins: rule `r` decides an expense exactly when it fires and
      every rule tested before it does not. */
  lemma FirstMatchWins(total: real, e: Expense, r: Rule)
    ensures FirstFiring(RULES, total, e) == Some(r)
        <==> Fires(r, total, e) && forall j :: 0 <= j < Rank(r) ==> !Fires(RULES[j], total, e)
  {
    assert Distinct(RULES);
    FirstFiringIff(RULES, total, e, Rank(r));
  }

  /** Which kind of rule, if any, decides an expense: none exactly when no
      rule fires; a category rule exactly when one of them fires; the
      variable-expense rule exactly when it fires and no category rule does. */
  lemma Classify(total: real, e: Expense)
    ensures FirstFiring(RULES, total, e).None? <==> forall r :: !Fires(r, total, e)
    ensures (FirstFiring(RULES, total, e).Some? && IsCategoryRule(FirstFiring(RULES, total, e).value))
        <==> exists r :: IsCategoryRule(r) && Fires(r, total, e)
    ensures FirstFiring(RULES, total, e) == Some(HighVariable)
        <==> Fires(HighVariable, total, e) && forall r :: IsCategoryRule(r) ==> !Fires(r, total, e)
  {
    var first := FirstFiring(RULES, total, e);
    FirstMatchWins(total, e, HighVariable);
    if exists r :: Fires(r, total, e) {
      var r :| Fires(r, total, e);
      assert Fires(RULES[Rank(r)], total, e);
    }
    if exists r :: IsCategoryRule(r) && Fires(r, total, e) {
      var r :| IsCategoryRule(r) && Fires(r, total, e);
      assert Rank(r) < 4 && Fires(RULES[Rank(r)], total, e);
      assert first != Some(HighVariable);
    }
    if first.Some? && IsCategoryRule(first.value) {
      assert Fires(first.value, total, e);
    }
    if Fires(HighVariable, total, e) && forall r :: IsCategoryRule(r) ==> !Fires(r, total, e) {
      forall j | 0 <= j < 4
        ensures !Fires(RULES[j], total, e)
      {
        assert IsCategoryRule(RULES[j]);
      }
    }
  }

  /** One expense's analysis, by the rule table: the status and suggestion of
      the first rule that fires, or normal with no suggestion. */
  function Evaluate(total: real, e: Expense): (a: Analysis)
    ensures a.expense == e
    ensures a.ratio == Percent(e.amount, total)
    ensures a.status == Normal <==> a.suggestion == ""
    ensures a.status == Normal <==> forall r :: !Fires(r, total, e)
    ensures a.status == Warning <==> exists r :: IsCategoryRule(r) && Fires(r, total, e)
    ensures a.status == Alert <==>
      && e.kind == VARIABLE
      && Above(a.ratio, 8.0)
      && forall r :: IsCategoryRule(r) ==> !Fires(r, total, e)
  {
    var first := FirstFiring(RULES, total, e);
    Classify(total, e);
    if first.Some? then
      TipsDistinct(first.value, first.value);
      Analysis(e, Percent(e.amount, total), StatusOf(first.value), Tip(first.value))
    else
      Analysis(e, Percent(e.amount, total), Normal, "")
  }

  /** An expense's suggestion names rule `r` exactly when `r` fires and none of
      the rules ranked before it does. */
  lemma Precedence(total: real, e: Expense, r: Rule)
    ensures Evaluate(total, e).suggestion == Tip(r)
        <==> Fires(r, total, e) && forall j :: 0 <= j < Rank(r) ==> !Fires(RULES[j], total, e)
  {
    FirstMatchWins(total, e, r);
    TipsDistinct(r, r);
    var first := FirstFiring(RULES, total, e);
    if first.Some? {
      TipsDistinct(first.value, r);
    }
  }

  /** A phone expense above 60 euros gets the phone warning, whatever its type
      and its share of income. */
  lemma PhoneRuleBeatsAlert(total: real, e: Expense)
    requires Mentions(e, PHONE_KEY) && e.amount > 60.0
    ensures Evaluate(total, e).status == Warning
    ensures Evaluate(total, e).suggestion == PHONE_TIP
  {
    Precedence(total, e, Phone);
  }

  /** The source's if/else-if chain (lines 68-83), as written. */
  function EvaluateChain(total: real, e: Expense): Analysis
  {
    var ratio := Percent(e.amount, total);
    var category := Lower(e.category);
    if Contains(category, PHONE_KEY) && e.amount > 60.0 then
      Analysis(e, ratio, Warning, PHONE_TIP)
    else if Contains(category, ELECTRICITY_KEY) && e.amount > total * 0.05 then
      Analysis(e, ratio, Warning, ELECTRICITY_TIP)
    else if Contains(category, GROCERIES_KEY) && e.amount > total * 0.15 then
      Analysis(e, ratio, Warning, GROCERIES_TIP)
    else if Contains(category, TRANSPORT_KEY) && e.amount > total * 0.1 then
      Analysis(e, ratio, Warning, TRANSPORT_TIP)
    else if Above(ratio, 8.0) && e.kind == VARIABLE then
      Analysis(e, ratio, Alert, ALERT_TIP)
    else
      Analysis(e, ratio, Normal, "")
  }

  /** The chain and the rule table give the same analysis for every expense. */
  lemma ChainMatchesTable(total: real, e: Expense)
    ensures EvaluateChain(total, e) == Evaluate(total, e)
  {
    if Fires(Phone, total, e) {
      Precedence(total, e, Phone);
    } else if Fires(Electricity, total, e) {
      Precedence(total, e, Electricity);
    } else if Fires(Groceries, total, e) {
      Precedence(total, e, Groceries);
    } else if Fires(Transport, total, e) {
      Precedence(total, e, Transport);
    } else if Fires(HighVariable, total, e) {
      Precedence(total, e, HighVariable);
    }
  }

  /** Every suggestion is empty or one of the five texts above. */
  lemma SuggestionIsATip(total: real, e: Expense)
    ensures Evaluate(total, e).suggestion == "" || exists r :: Evaluate(total, e).suggestion == Tip(r)
  {
  }
}
