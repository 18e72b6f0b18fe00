/** The aggregation part of the `calculations` memo (pages/index.js lines
    53-99): total income, the expense sums, what remains, the three
    percentages, and the per-expense analyses. Everything is recomputed from
    the inputs on each call. Amounts are exact reals, so the order of the
    source's left-to-right `reduce` does not matter and sums are written
    from the front of the list. */
module Aggregation {
  import opened Wrappers
  import opened Expenses
  import opened Advisory

  /** The household inputs: the two salaries and the monthly savings. */
  datatype Income = Income(salary1: real, salary2: real, savings: real)

  /** Everything the memo returns. The three percentages are None when total
      income is zero; the source renders them with `toFixed(1)`. */
  datatype Metrics = Metrics(
    totalSalary: real,
    totalExpenses: real,
    remaining: real,
    fixedExpenses: real,
    variableExpenses: real,
    savingsRate: Option<real>,
    expenseRatio: Option<real>,
    variableRatio: Option<real>,
    analyses: seq<Analysis>)

  /** The sum of the amounts, taken from the front of the list. */
  function Sum(es: seq<Expense>): real
  {
    if |es| == 0 then 0.0 else es[0].amount + Sum(es[1..])
  }

  /** `es.reduce((sum, e) => sum + e.amount, acc)`: the source's left-to-right
      accumulation, starting from `acc`. */
  function Reduce(acc: real, es: seq<Expense>): real
    decreases |es|
  {
    if |es| == 0 then acc else Reduce(acc + es[0].amount, es[1..])
  }

  /** Accumulating from `acc` adds the sum of the amounts to `acc`; from 0,
      `reduce` yields the sum. */
  lemma {:induction false} ReduceIsSum(acc: real, es: seq<Expense>)
    ensures Reduce(acc, es) == acc + Sum(es)
    decreases |es|
  {
    if |es| > 0 {
      ReduceIsSum(acc + es[0].amount, es[1..]);
    }
  }

  /** `filter(e => e.type === kind)`. */
  function OfKind(es: seq<Expense>, kind: string): (r: seq<Expense>)
    ensures |r| <= |es|
    ensures forall e :: e in r <==> e in es && e.kind == kind
  {
    if |es| == 0 then []
    else (if es[0].kind == kind then [es[0]] else []) + OfKind(es[1..], kind)
  }

  /** The records whose type is neither of the two the selector offers. */
  function OtherKinds(es: seq<Expense>): (r: seq<Expense>)
    ensures |r| <= |es|
    ensures forall e :: e in r <==> e in es && e.kind != FIXE && e.kind != VARIABLE
  {
    if |es| == 0 then []
    else (if es[0].kind != FIXE && es[0].kind != VARIABLE then [es[0]] else []) + OtherKinds(es[1..])
  }

  /** Filtering a concatenation filters each part: the kept records keep
      their order and their multiplicity. */
  lemma {:induction false} OfKindAppend(a: seq<Expense>, b: seq<Expense>, kind: string)
    ensures OfKind(a + b, kind) == OfKind(a, kind) + OfKind(b, kind)
  {
    if |a| == 0 {
      assert a + b == b;
    } else {
      assert (a + b)[1..] == a[1..] + b;
      OfKindAppend(a[1..], b, kind);
    }
  }

  /** The same for the records of the other types. */
  lemma {:induction false} OtherKindsAppend(a: seq<Expense>, b: seq<Expense>)
    ensures OtherKinds(a + b) == OtherKinds(a) + OtherKinds(b)
  {
    if |a| == 0 {
      assert a + b == b;
    } else {
      assert (a + b)[1..] == a[1..] + b;
      OtherKindsAppend(a[1..], b);
    }
  }

  /** Every record is typed fixed or variable. */
  predicate AllTyped(es: seq<Expense>)
  {
    forall i :: 0 <= i < |es| ==> es[i].kind == FIXE || es[i].kind == VARIABLE
  }

  /** `expenses.map(evaluate)`: one analysis per expense, in the same order. */
  function Analyses(total: real, es: seq<Expense>): (r: seq<Analysis>)
    ensures |r| == |es|
    ensures forall i :: 0 <= i < |es| ==> r[i] == Evaluate(total, es[i])
  {
    seq(|es|, i requires 0 <= i < |es| => Evaluate(total, es[i]))
  }

  /** Analysing a concatenation analyses each part: `map` keeps the order of
      the expenses and gives each its own verdict, independent of its
      neighbours. */
  lemma AnalysesAppend(total: real, a: seq<Expense>, b: seq<Expense>)
    ensures Analyses(total, a + b) == Analyses(total, a) + Analyses(total, b)
  {
  }

  /** The sum of a concatenation is the sum of the sums. */
  lemma {:induction false} SumAppend(a: seq<Expense>, b: seq<Expense>)
    ensures Sum(a + b) == Sum(a) + Sum(b)
  {
    if |a| == 0 {
      assert a + b == b;
    } else {
      assert (a + b)[1..] == a[1..] + b;
      SumAppend(a[1..], b);
    }
  }

  /** Every amount is counted in exactly one of the fixed sum, the variable
      sum and the sum of the other types. */
  lemma {:induction false} SumPartition(es: seq<Expense>)
    ensures Sum(OfKind(es, FIXE)) + Sum(OfKind(es, VARIABLE)) + Sum(OtherKinds(es)) == Sum(es)
  {
    if |es| > 0 {
      SumPartition(es[1..]);
      var e := es[0];
      SumAppend(if e.kind == FIXE then [e] else [], OfKind(es[1..], FIXE));
      SumAppend(if e.kind == VARIABLE then [e] else [], OfKind(es[1..], VARIABLE));
      SumAppend(if e.kind != FIXE && e.kind != VARIABLE then [e] else [], OtherKinds(es[1..]));
    }
  }

  /** With every record typed fixed or variable, no record is left out of the
      two partitions. */
  lemma {:induction false} NoOtherKinds(es: seq<Expense>)
    ensures AllTyped(es) ==> OtherKinds(es) == []
  {
    if |es| > 0 {
      NoOtherKinds(es[1..]);
    }
  }

  /** The memo itself. */
  function Calculate(inc: Income, es: seq<Expense>): (m: Metrics)
    ensures m.totalSalary == inc.salary1 + inc.salary2
    ensures m.totalExpenses == Sum(es)
    ensures m.fixedExpenses == Sum(OfKind(es, FIXE))
    ensures m.variableExpenses == Sum(OfKind(es, VARIABLE))
    ensures m.remaining == m.totalSalary - m.totalExpenses - inc.savings
    ensures m.fixedExpenses + m.variableExpenses + Sum(OtherKinds(es)) == m.totalExpenses
    ensures AllTyped(es) ==> m.fixedExpenses + m.variableExpenses == m.totalExpenses
    ensures m.savingsRate == Percent(inc.savings, m.totalSalary)
    ensures m.expenseRatio == Percent(m.totalExpenses, m.totalSalary)
    ensures m.variableRatio == Percent(m.variableExpenses, m.totalSalary)
    ensures |m.analyses| == |es|
    ensures forall i :: 0 <= i < |es| ==> m.analyses[i] == Evaluate(m.totalSalary, es[i])
  {
    var totalSalary := inc.salary1 + inc.salary2;
    var totalExpenses := Sum(es);
    var fixedExpenses := Sum(OfKind(es, FIXE));
    var variableExpenses := Sum(OfKind(es, VARIABLE));
    SumPartition(es);
    NoOtherKinds(es);
    Metrics(
      totalSalary,
      totalExpenses,
      totalSalary - totalExpenses - inc.savings,
      fixedExpenses,
      variableExpenses,
      Percent(inc.savings, totalSalary),
      Percent(totalExpenses, totalSalary),
      Percent(variableExpenses, totalSalary),
      Analyses(totalSalary, es))
  }

  /** The memo's three sums are the source's three `reduce` calls over the
      expense list and its two filters. */
  lemma CalculateMatchesReduce(inc: Income, es: seq<Expense>)
    ensures Calculate(inc, es).totalExpenses == Reduce(0.0, es)
    ensures Calculate(inc, es).fixedExpenses == Reduce(0.0, OfKind(es, FIXE))
    ensures Calculate(inc, es).variableExpenses == Reduce(0.0, OfKind(es, VARIABLE))
  {
    ReduceIsSum(0.0, es);
    ReduceIsSum(0.0, OfKind(es, FIXE));
    ReduceIsSum(0.0, OfKind(es, VARIABLE));
  }

  // ---------------------------------------------------------------------
  // How the store's edits move the totals
  // ---------------------------------------------------------------------

  /** An accepted add raises total expenses by the new amount and lowers what
      remains by the same; an ignored add changes no metric. */
  lemma AddMovesTotals(inc: Income, es: seq<Expense>, d: Draft, id: Id, parse: Parser)
    ensures var after := Calculate(inc, AddExpense(es, d, id, parse).0);
      && (Accepts(d, parse) ==>
          && after.totalExpenses == Calculate(inc, es).totalExpenses + parse(d.amountText).value
          && after.remaining == Calculate(inc, es).remaining - parse(d.amountText).value)
      && (!Accepts(d, parse) ==> after == Calculate(inc, es))
  {
    if Accepts(d, parse) {
      var e := Expense(id, d.category, parse(d.amountText).value, d.kind);
      SumAppend(es, [e]);
    }
  }

  /** With unique ids, the first record's id occurs nowhere after it. */
  lemma HeadIdNotInTail(es: seq<Expense>)
    requires |es| > 0
    requires UniqueIds(es)
    ensures es[0].id !in Ids(es[1..])
  {
  }

  /** With unique ids, deleting record `k` removes exactly its amount from the
      total. */
  lemma {:induction false} DeleteMovesTotal(es: seq<Expense>, k: nat)
    requires k < |es|
    requires UniqueIds(es)
    ensures Sum(DeleteExpense(es, es[k].id)) == Sum(es) - es[k].amount
  {
    var id := es[k].id;
    var rest := es[1..];
    assert UniqueIds(rest);
    if k == 0 {
      HeadIdNotInTail(es);
      assert DeleteExpense(es, id) == DeleteExpense(rest, id) == rest;
    } else {
      assert es[0].id != id;
      assert DeleteExpense(es, id) == [es[0]] + DeleteExpense(rest, id);
      assert rest[k - 1] == es[k];
      DeleteMovesTotal(rest, k - 1);
    }
  }

  /** With unique ids, setting the amount of record `k` to the coerced text
      shifts the total by the difference and leaves every other sum alone. */
  lemma {:induction false} UpdateAmountMovesTotal(es: seq<Expense>, k: nat, value: string, parse: Parser)
    requires k < |es|
    requires UniqueIds(es)
    ensures Sum(UpdateExpense(es, es[k].id, Amount, value, parse)) == Sum(es) - es[k].amount + Coerce(parse, value)
  {
    var id := es[k].id;
    var u := UpdateExpense(es, id, Amount, value, parse);
    assert u[1..] == UpdateExpense(es[1..], id, Amount, value, parse);
    assert UniqueIds(es[1..]);
    if k == 0 {
      assert forall i :: 0 <= i < |es[1..]| ==> es[1..][i].id != id by {
        forall i | 0 <= i < |es[1..]|
          ensures es[1..][i].id != id
        {
          assert es[1..][i] == es[i + 1];
        }
      }
      assert UpdateExpense(es[1..], id, Amount, value, parse) == es[1..];
    } else {
      assert es[1..][k - 1] == es[k];
      UpdateAmountMovesTotal(es[1..], k - 1, value, parse);
    }
  }

  /** Editing a category or a type moves no amount. */
  lemma {:induction false} UpdateTextKeepsTotal(es: seq<Expense>, id: Id, f: Field, value: string, parse: Parser)
    requires f != Amount
    ensures Sum(UpdateExpense(es, id, f, value, parse)) == Sum(es)
  {
    if |es| > 0 {
      var u := UpdateExpense(es, id, f, value, parse);
      assert u[1..] == UpdateExpense(es[1..], id, f, value, parse);
      UpdateTextKeepsTotal(es[1..], id, f, value, parse);
    }
  }

  /** Sum of the per-expense percentages, a missing one counted as 0. */
  function RatioSum(analyses: seq<Analysis>): real
  {
    if |analyses| == 0 then 0.0 else ValueOr(analyses[0].ratio, 0.0) + RatioSum(analyses[1..])
  }

  /** Adding one share to a running total of shares keeps the shares and the
      amounts in proportion. */
  lemma ShareStep(r0: real, rest: real, t: real, a0: real, arest: real)
    requires r0 * t == a0 * 100.0
    requires rest * t == arest * 100.0
    ensures (r0 + rest) * t == (a0 + arest) * 100.0
  {
  }

  /** Shares computed one per amount add up to the share of the total. */
  lemma {:induction false} SharesAddUp(total: real, es: seq<Expense>, shares: seq<Analysis>)
    requires total != 0.0
    requires |shares| == |es|
    requires forall i :: 0 <= i < |es| ==> shares[i].ratio == Percent(es[i].amount, total)
    ensures RatioSum(shares) * total == Sum(es) * 100.0
  {
    if |es| > 0 {
      assert forall i :: 0 <= i < |es| - 1 ==> shares[1..][i] == shares[i + 1] && es[1..][i] == es[i + 1];
      SharesAddUp(total, es[1..], shares[1..]);
      ShareStep(shares[0].ratio.value, RatioSum(shares[1..]), total, es[0].amount, Sum(es[1..]));
    }
  }

  /** The per-expense shares of income add up to the expense ratio. */
  lemma RatiosAddUp(total: real, es: seq<Expense>)
    requires total != 0.0
    ensures RatioSum(Analyses(total, es)) * total == Sum(es) * 100.0
  {
    SharesAddUp(total, es, Analyses(total, es));
  }
}
