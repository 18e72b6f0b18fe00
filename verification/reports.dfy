/** The three exports built from one snapshot of the inputs and of the
    `calculations` memo: the structured (JSON) export, the tabular (CSV)
    export and the narrative text report (pages/index.js lines 102-207).
    Number-to-text rendering (`${x}` and `toFixed`) is a parameter; the
    browser download plumbing and the date stamps are not modelled. */
module Reports {
  import opened Wrappers
  import opened Text
  import opened Expenses
  import opened Advisory
  import opened Aggregation
  import opened Indicators

  // ---------------------------------------------------------------------
  // The advisory list shared by the JSON export and the narrative report
  // ---------------------------------------------------------------------

  /** One entry of the advisory list: category, amount, share of income and
      suggestion. */
  datatype Advice = Advice(category: string, amount: real, ratio: Option<real>, suggestion: string)

  function ToAdvice(a: Analysis): Advice
  {
    Advice(a.expense.category, a.expense.amount, a.ratio, a.suggestion)
  }

  /** `analyses.filter(a => a.suggestion).map(toAdvice)`: an empty suggestion
      is falsy and is dropped. */
  function Conseils(analyses: seq<Analysis>): (r: seq<Advice>)
    ensures |r| <= |analyses|
    ensures forall k :: 0 <= k < |r| ==> r[k].suggestion != ""
  {
    if |analyses| == 0 then []
    else (if analyses[0].suggestion != "" then [ToAdvice(analyses[0])] else []) + Conseils(analyses[1..])
  }

  /** The advisory list holds exactly the analyses that carry a suggestion. */
  lemma {:induction false} ConseilsMembers(analyses: seq<Analysis>)
    ensures forall a :: a in analyses && a.suggestion != "" ==> ToAdvice(a) in Conseils(analyses)
    ensures forall x :: x in Conseils(analyses) ==> exists a :: a in analyses && a.suggestion != "" && x == ToAdvice(a)
  {
    if |analyses| > 0 {
      ConseilsMembers(analyses[1..]);
      forall a | a in analyses
        ensures a == analyses[0] || a in analyses[1..]
      {
        var k :| 0 <= k < |analyses| && analyses[k] == a;
        if k > 0 {
          assert analyses[1..][k - 1] == a;
        }
      }
    }
  }

  /** The advisory list of a concatenation is the concatenation of the
      advisory lists: entries keep the order of the expenses. */
  lemma {:induction false} ConseilsAppend(a: seq<Analysis>, b: seq<Analysis>)
    ensures Conseils(a + b) == Conseils(a) + Conseils(b)
  {
    if |a| == 0 {
      assert a + b == b;
    } else {
      assert (a + b)[1..] == a[1..] + b;
      ConseilsAppend(a[1..], b);
    }
  }

  /** Number of analyses whose status is not normal. */
  function Flagged(analyses: seq<Analysis>): nat
  {
    if |analyses| == 0 then 0
    else (if analyses[0].status != Normal then 1 else 0) + Flagged(analyses[1..])
  }

  /** The advisory list holds one entry for each warning or alert. */
  lemma {:induction false} ConseilsCount(total: real, es: seq<Expense>)
    ensures |Conseils(Analyses(total, es))| == Flagged(Analyses(total, es))
  {
    if |es| > 0 {
      var a := Analyses(total, es);
      assert a[1..] == Analyses(total, es[1..]);
      ConseilsCount(total, es[1..]);
    }
  }

  // ---------------------------------------------------------------------
  // Structured export (downloadJSON)
  // ---------------------------------------------------------------------

  /** The JSON document without its date: income, savings, the raw expense
      list, the aggregate figures and the advisory list. */
  datatype Structured = Structured(
    salary1: real,
    salary2: real,
    totalIncome: real,
    savings: real,
    expenses: seq<Expense>,
    totalExpenses: real,
    fixedExpenses: real,
    variableExpenses: real,
    remaining: real,
    savingsRate: Option<real>,
    expenseRatio: Option<real>,
    conseils: seq<Advice>)

  function StructuredExport(inc: Income, es: seq<Expense>): (r: Structured)
    ensures r.salary1 == inc.salary1 && r.salary2 == inc.salary2 && r.savings == inc.savings
    ensures r.expenses == es
    ensures r.totalIncome == inc.salary1 + inc.salary2
    ensures r.totalExpenses == Sum(es)
    ensures r.fixedExpenses == Sum(OfKind(es, FIXE))
    ensures r.variableExpenses == Sum(OfKind(es, VARIABLE))
    ensures r.remaining == r.totalIncome - r.totalExpenses - inc.savings
    ensures r.savingsRate == Percent(inc.savings, r.totalIncome)
    ensures r.expenseRatio == Percent(r.totalExpenses, r.totalIncome)
    ensures r.conseils == Conseils(Analyses(r.totalIncome, es))
    ensures forall k :: 0 <= k < |r.conseils| ==> r.conseils[k].suggestion != ""
  {
    var m := Calculate(inc, es);
    Structured(
      inc.salary1, inc.salary2, m.totalSalary, inc.savings, es,
      m.totalExpenses, m.fixedExpenses, m.variableExpenses, m.remaining,
      m.savingsRate, m.expenseRatio,
      Conseils(m.analyses))
  }

  /** The JSON advisory list names exactly the expenses the rule engine
      flags: one entry per warning or alert, each flagged expense has its
      entry, and every entry comes from a flagged expense. */
  lemma StructuredAdvises(inc: Income, es: seq<Expense>)
    ensures var total := inc.salary1 + inc.salary2;
      var r := StructuredExport(inc, es);
      && |r.conseils| == Flagged(Analyses(total, es))
      && (forall i :: 0 <= i < |es| && Evaluate(total, es[i]).status != Normal
            ==> ToAdvice(Evaluate(total, es[i])) in r.conseils)
      && (forall x :: x in r.conseils
            ==> exists i :: 0 <= i < |es| && Evaluate(total, es[i]).status != Normal && x == ToAdvice(Evaluate(total, es[i])))
  {
    var total := inc.salary1 + inc.salary2;
    var a := Analyses(total, es);
    ConseilsCount(total, es);
    ConseilsMembers(a);
    forall i | 0 <= i < |es| && Evaluate(total, es[i]).status != Normal
      ensures ToAdvice(Evaluate(total, es[i])) in Conseils(a)
    {
      assert a[i] == Evaluate(total, es[i]) && a[i] in a;
    }
    forall x | x in Conseils(a)
      ensures exists i :: 0 <= i < |es| && Evaluate(total, es[i]).status != Normal && x == ToAdvice(Evaluate(total, es[i]))
    {
      var y :| y in a && y.suggestion != "" && x == ToAdvice(y);
      var i :| 0 <= i < |a| && a[i] == y;
      assert a[i] == Evaluate(total, es[i]);
    }
  }

  // ---------------------------------------------------------------------
  // Tabular export (downloadCSV)
  // ---------------------------------------------------------------------

  /** How numbers become text: `${x}` and `x.toFixed(1)`. */
  datatype Render = Render(number: real -> string, oneDecimal: real -> string)

  /** Rendered numbers hold neither a comma nor a line break, as JavaScript's
      number formatting never produces either. */
  ghost predicate Clean(fmt: Render)
  {
    forall x :: ',' !in fmt.number(x) && '\n' !in fmt.number(x) && ',' !in fmt.oneDecimal(x) && '\n' !in fmt.oneDecimal(x)
  }

  /** The column titles of the header line. */
  const CSV_COLUMNS: seq<string> := ["Catégorie", "Montant", "Type", "Pourcentage des revenus", "Statut", "Conseil"]

  /** `Catégorie,Montant,Type,Pourcentage des revenus,Statut,Conseil`. */
  const CSV_HEADER: string := JoinWith(CSV_COLUMNS, ',')

  /** What a percentage that cannot be computed is rendered as. */
  const NOT_COMPUTABLE: string := "n/a"

  function StatusText(s: Status): string
  {
    match s
    case Normal => "normal"
    case Warning => "warning"
    case Alert => "alert"
  }

  /** `analyses.find(a => a.id === id)`: the first analysis with that id. */
  function FindById(analyses: seq<Analysis>, id: Id): (r: Option<Analysis>)
    ensures r.Some? ==> r.value in analyses && r.value.expense.id == id
    ensures r.None? <==> forall k :: 0 <= k < |analyses| ==> analyses[k].expense.id != id
  {
    if |analyses| == 0 then None
    else if analyses[0].expense.id == id then Some(analyses[0])
    else FindById(analyses[1..], id)
  }

  /** A percentage cell: one decimal and a `%`, or the not-computable mark. */
  function PercentCell(ratio: Option<real>, fmt: Render): string
  {
    match ratio
    case Some(r) => fmt.oneDecimal(r) + "%"
    case None => NOT_COMPUTABLE
  }

  /** The six cells of an expense's row; `found` is the analysis the lookup by
      id returned. The suggestion has its commas turned into semicolons. */
  function RowCells(e: Expense, found: Option<Analysis>, fmt: Render): (cells: seq<string>)
    ensures |cells| == |CSV_COLUMNS|
    ensures cells[0] == e.category && cells[1] == fmt.number(e.amount) && cells[2] == e.kind
    ensures ',' !in cells[5]
  {
    [ e.category,
      fmt.number(e.amount),
      e.kind,
      match found case Some(a) => PercentCell(a.ratio, fmt) case None => "undefined%",
      match found case Some(a) => StatusText(a.status) case None => "normal",
      Replace(match found case Some(a) => a.suggestion case None => "", ',', ';')
    ]
  }

  /** One data row: the cells joined by commas. */
  function Row(e: Expense, analyses: seq<Analysis>, fmt: Render): string
  {
    JoinWith(RowCells(e, FindById(analyses, e.id), fmt), ',')
  }

  /** One data row per expense, in the order of the expense list. */
  function Rows(es: seq<Expense>, analyses: seq<Analysis>, fmt: Render): (r: seq<string>)
    ensures |r| == |es|
    ensures forall i :: 0 <= i < |es| ==> r[i] == Row(es[i], analyses, fmt)
  {
    seq(|es|, i requires 0 <= i < |es| => Row(es[i], analyses, fmt))
  }

  /** The lines of the summary block that follows the rows (line 155): a
      title and seven `label,value` lines. */
  function SummaryLines(inc: Income, m: Metrics, fmt: Render): seq<string>
  {
    [ "Résumé:",
      "Salaire 1," + fmt.number(inc.salary1),
      "Salaire 2," + fmt.number(inc.salary2),
      "Total revenus," + fmt.number(m.totalSalary),
      "Épargne," + fmt.number(inc.savings),
      "Dépenses totales," + fmt.number(m.totalExpenses),
      "Budget restant," + fmt.number(m.remaining),
      "Taux d'épargne," + PercentCell(m.savingsRate, fmt)
    ]
  }

  /** The summary block, introduced by a line break. */
  function Summary(inc: Income, m: Metrics, fmt: Render): string
  {
    "\n" + JoinWith(SummaryLines(inc, m, fmt), '\n')
  }

  /** The whole CSV text: header line, rows joined by line breaks, summary. */
  function TabularExport(inc: Income, es: seq<Expense>, fmt: Render): string
  {
    var m := Calculate(inc, es);
    CSV_HEADER + "\n" + JoinWith(Rows(es, m.analyses, fmt), '\n') + Summary(inc, m, fmt)
  }

  // ---------------------------------------------------------------------
  // Narrative report (downloadPDF): its data, not its prose
  // ---------------------------------------------------------------------

  /** One line of the expense detail: the record and the share of income its
      looked-up analysis gives, None when the lookup by id finds nothing. */
  datatype Detail = Detail(expense: Expense, share: Option<Option<real>>)

  /** What the report shows: the expense detail, the expense ratio, the
      advisory list and the recommendations, in that order of sections. */
  datatype Narrative = Narrative(
    details: seq<Detail>,
    expenseRatio: Option<real>,
    advisories: seq<Advice>,
    recommendations: seq<Recommendation>)

  function DetailOf(e: Expense, analyses: seq<Analysis>): Detail
  {
    match FindById(analyses, e.id)
    case Some(a) => Detail(e, Some(a.ratio))
    case None => Detail(e, None)
  }

  /** The detail section: one line per expense, in the order of the list. */
  function Details(es: seq<Expense>, analyses: seq<Analysis>): (r: seq<Detail>)
    ensures |r| == |es|
    ensures forall i :: 0 <= i < |es| ==> r[i] == DetailOf(es[i], analyses)
  {
    seq(|es|, i requires 0 <= i < |es| => DetailOf(es[i], analyses))
  }

  function NarrativeExport(inc: Income, es: seq<Expense>): (r: Narrative)
    ensures |r.details| == |es|
    ensures forall i :: 0 <= i < |es| ==> r.details[i].expense == es[i]
    ensures r.expenseRatio == Percent(Sum(es), inc.salary1 + inc.salary2)
    ensures r.advisories == StructuredExport(inc, es).conseils
    ensures r.recommendations == Recommendations(Calculate(inc, es))
    ensures |r.recommendations| >= |GENERAL_ADVICE|
    ensures r.recommendations[|r.recommendations| - |GENERAL_ADVICE|..] == GENERAL_ADVICE
  {
    var m := Calculate(inc, es);
    Narrative(
      Details(es, m.analyses),
      m.expenseRatio,
      Conseils(m.analyses),
      Recommendations(m))
  }

  // ---------------------------------------------------------------------
  // Properties of the tabular export
  // ---------------------------------------------------------------------

  /** The lookup returns the first analysis carrying the id. */
  lemma {:induction false} FindFirst(analyses: seq<Analysis>, i: nat, id: Id)
    requires i < |analyses| && analyses[i].expense.id == id
    requires forall j :: 0 <= j < i ==> analyses[j].expense.id != id
    ensures FindById(analyses, id) == Some(analyses[i])
  {
    if i > 0 {
      var tail := analyses[1..];
      assert tail[i - 1] == analyses[i];
      forall j | 0 <= j < i - 1
        ensures tail[j].expense.id != id
      {
        assert tail[j] == analyses[j + 1];
      }
      FindFirst(tail, i - 1, id);
    }
  }

  /** The lookup by id always finds an analysis for a listed expense, and with
      unique ids it finds that expense's own analysis. */
  lemma FindOwnAnalysis(total: real, es: seq<Expense>, i: nat)
    requires i < |es|
    ensures FindById(Analyses(total, es), es[i].id).Some?
    ensures UniqueIds(es) ==> FindById(Analyses(total, es), es[i].id) == Some(Analyses(total, es)[i])
  {
    var a := Analyses(total, es);
    assert a[i].expense.id == es[i].id;
    if UniqueIds(es) {
      forall j | 0 <= j < i
        ensures a[j].expense.id != es[i].id
      {
        assert a[j].expense == es[j];
      }
      FindFirst(a, i, es[i].id);
    }
  }

  /** An analysis the rule engine produced holds a suggestion with no comma and
      no line break. */
  lemma EvaluatedPlain(total: real, e: Expense)
    ensures ',' !in Evaluate(total, e).suggestion && '\n' !in Evaluate(total, e).suggestion
  {
    SuggestionIsATip(total, e);
    if Evaluate(total, e).suggestion != "" {
      var r :| Evaluate(total, e).suggestion == Tip(r);
      TipIsOneField(r);
    }
  }

  /** With unique ids, row `i` of the export is built from expense `i`'s own
      analysis: its share of income, its status, and its suggestion, which
      the comma replacement leaves intact. */
  lemma RowUsesOwnAnalysis(total: real, es: seq<Expense>, fmt: Render, i: nat)
    requires UniqueIds(es)
    requires i < |es|
    ensures var a := Analyses(total, es);
      var cells := RowCells(es[i], Some(a[i]), fmt);
      && Rows(es, a, fmt)[i] == JoinWith(cells, ',')
      && cells[3] == PercentCell(Percent(es[i].amount, total), fmt)
      && cells[4] == StatusText(a[i].status)
      && cells[5] == a[i].suggestion
  {
    var a := Analyses(total, es);
    FindOwnAnalysis(total, es, i);
    EvaluatedPlain(total, es[i]);
    ReplaceAbsent(a[i].suggestion, ',', ';');
  }

  /** The commas of a list of six cells, cell by cell. */
  lemma CountAllSix(cells: seq<string>, c: char)
    requires |cells| == 6
    ensures CountAll(cells, c) == Count(cells[0], c) + Count(cells[1], c) + Count(cells[2], c)
                                + Count(cells[3], c) + Count(cells[4], c) + Count(cells[5], c)
  {
    var t1 := cells[1..];
    var t2 := t1[1..];
    var t3 := t2[1..];
    var t4 := t3[1..];
    var t5 := t4[1..];
    assert CountAll(t5[1..], c) == 0;
    assert CountAll(t5, c) == Count(cells[5], c);
    assert CountAll(t4, c) == Count(cells[4], c) + CountAll(t5, c);
    assert CountAll(t3, c) == Count(cells[3], c) + CountAll(t4, c);
    assert CountAll(t2, c) == Count(cells[2], c) + CountAll(t3, c);
    assert CountAll(t1, c) == Count(cells[1], c) + CountAll(t2, c);
  }

  /** A rendered percentage cell holds no comma and no line break. */
  lemma PercentCellPlain(ratio: Option<real>, fmt: Render)
    requires Clean(fmt)
    ensures ',' !in PercentCell(ratio, fmt) && '\n' !in PercentCell(ratio, fmt)
  {
  }

  /** The cells the export computes (amount, share, status, suggestion) hold
      no comma. */
  lemma ComputedCellsPlain(e: Expense, found: Option<Analysis>, fmt: Render)
    requires Clean(fmt)
    ensures var cells := RowCells(e, found, fmt);
      ',' !in cells[1] && ',' !in cells[3] && ',' !in cells[4] && ',' !in cells[5]
  {
    PercentCellPlain(if found.Some? then found.value.ratio else None, fmt);
    assert ',' !in StatusText(Normal) && ',' !in StatusText(Warning) && ',' !in StatusText(Alert);
  }

  /** Every data row holds the five separating commas plus whatever commas the
      category and the type text bring: with neither holding one, the row has
      exactly the six fields of the header. */
  lemma RowCommas(e: Expense, found: Option<Analysis>, fmt: Render)
    requires Clean(fmt)
    ensures Count(JoinWith(RowCells(e, found, fmt), ','), ',') == 5 + Count(e.category, ',') + Count(e.kind, ',')
  {
    var cells := RowCells(e, found, fmt);
    CountJoin(cells, ',', ',');
    CountAllSix(cells, ',');
    ComputedCellsPlain(e, found, fmt);
    CountZeroIff(cells[1], ',');
    CountZeroIff(cells[3], ',');
    CountZeroIff(cells[4], ',');
    CountZeroIff(cells[5], ',');
  }

  /** The header line has the same six fields. */
  lemma HeaderCommas()
    ensures Count(CSV_HEADER, ',') == 5
  {
    ColumnsPlain();
    JoinedFields(CSV_COLUMNS, ',');
  }

  /** The header is a single line. */
  lemma HeaderOneLine()
    ensures '\n' !in CSV_HEADER
  {
    ColumnsPlain();
    CountJoin(CSV_COLUMNS, ',', '\n');
    CountAllZero(CSV_COLUMNS, '\n');
    CountZeroIff(CSV_HEADER, '\n');
  }

  /** No column title holds a comma or a line break. */
  lemma ColumnsPlain()
    ensures forall k :: 0 <= k < |CSV_COLUMNS| ==> ',' !in CSV_COLUMNS[k] && '\n' !in CSV_COLUMNS[k]
  {
  }

  /** A row whose category, type and suggestion hold no line break is a
      single line. */
  lemma RowOneLine(e: Expense, found: Option<Analysis>, fmt: Render)
    requires Clean(fmt)
    requires '\n' !in e.category && '\n' !in e.kind
    requires found.Some? ==> '\n' !in found.value.suggestion
    ensures '\n' !in JoinWith(RowCells(e, found, fmt), ',')
  {
    var cells := RowCells(e, found, fmt);
    PercentCellPlain(if found.Some? then found.value.ratio else None, fmt);
    assert '\n' !in StatusText(Normal) && '\n' !in StatusText(Warning) && '\n' !in StatusText(Alert);
    assert '\n' !in cells[5];
    CountJoin(cells, ',', '\n');
    CountAllZero(cells, '\n');
    CountZeroIff(JoinWith(cells, ','), '\n');
  }

  /** No summary line holds a line break of its own. */
  lemma SummaryLinesPlain(inc: Income, m: Metrics, fmt: Render)
    requires Clean(fmt)
    ensures forall k :: 0 <= k < |SummaryLines(inc, m, fmt)| ==> '\n' !in SummaryLines(inc, m, fmt)[k]
  {
    PercentCellPlain(m.savingsRate, fmt);
  }

  /** The summary block adds exactly eight line breaks. */
  lemma SummaryBreaks(inc: Income, m: Metrics, fmt: Render)
    requires Clean(fmt)
    ensures Count(Summary(inc, m, fmt), '\n') == 8
  {
    SummaryLinesPlain(inc, m, fmt);
    JoinedFields(SummaryLines(inc, m, fmt), '\n');
    CountAppend("\n", JoinWith(SummaryLines(inc, m, fmt), '\n'), '\n');
  }

  /** Every data row built from the engine's analyses is a single line when
      no category or type holds a line break. */
  lemma RowsOneLine(total: real, es: seq<Expense>, fmt: Render)
    requires Clean(fmt)
    requires forall i :: 0 <= i < |es| ==> '\n' !in es[i].category && '\n' !in es[i].kind
    ensures forall k :: 0 <= k < |es| ==> '\n' !in Rows(es, Analyses(total, es), fmt)[k]
  {
    var a := Analyses(total, es);
    forall k | 0 <= k < |es|
      ensures '\n' !in Rows(es, a, fmt)[k]
    {
      var found := FindById(a, es[k].id);
      if found.Some? {
        var j :| 0 <= j < |a| && a[j] == found.value;
        EvaluatedPlain(total, es[j]);
      }
      RowOneLine(es[k], found, fmt);
    }
  }

  /** Line breaks of a header line, a break, rows joined by breaks, and a
      block holding eight breaks. */
  lemma LayoutBreaks(header: string, rows: seq<string>, block: string)
    requires '\n' !in header
    requires forall k :: 0 <= k < |rows| ==> '\n' !in rows[k]
    requires Count(block, '\n') == 8
    ensures Count(header + "\n" + JoinWith(rows, '\n') + block, '\n') == 9 + (if |rows| == 0 then 0 else |rows| - 1)
  {
    var body := JoinWith(rows, '\n');
    if |rows| > 0 {
      JoinedFields(rows, '\n');
    }
    CountZeroIff(header, '\n');
    CountAppend(header, "\n", '\n');
    CountAppend(header + "\n", body, '\n');
    CountAppend(header + "\n" + body, block, '\n');
  }

  /** With no line break inside any category or type, the CSV text is the
      header line, one line per expense (a single empty line when there is
      none) and the eight summary lines. */
  lemma CsvLineCount(inc: Income, es: seq<Expense>, fmt: Render)
    requires Clean(fmt)
    requires forall i :: 0 <= i < |es| ==> '\n' !in es[i].category && '\n' !in es[i].kind
    ensures Count(TabularExport(inc, es, fmt), '\n') == 9 + (if |es| == 0 then 0 else |es| - 1)
  {
    var m := Calculate(inc, es);
    assert m.analyses == Analyses(m.totalSalary, es);
    RowsOneLine(m.totalSalary, es, fmt);
    HeaderOneLine();
    SummaryBreaks(inc, m, fmt);
    LayoutBreaks(CSV_HEADER, Rows(es, m.analyses, fmt), Summary(inc, m, fmt));
  }

  /** Each line of the CSV summary block quotes the figure the JSON document
      carries under the same heading. */
  lemma SummaryMatchesStructured(inc: Income, es: seq<Expense>, fmt: Render)
    ensures var j := StructuredExport(inc, es);
      SummaryLines(inc, Calculate(inc, es), fmt)
      == [ "Résumé:",
           "Salaire 1," + fmt.number(j.salary1),
           "Salaire 2," + fmt.number(j.salary2),
           "Total revenus," + fmt.number(j.totalIncome),
           "Épargne," + fmt.number(j.savings),
           "Dépenses totales," + fmt.number(j.totalExpenses),
           "Budget restant," + fmt.number(j.remaining),
           "Taux d'épargne," + PercentCell(j.savingsRate, fmt) ]
  {
  }

  /** With no line break inside any category or type, the CSV text splits
      into the header line, one row per expense in list order (a single empty
      line when there is none), and the eight summary lines. */
  lemma CsvLines(inc: Income, es: seq<Expense>, fmt: Render)
    requires Clean(fmt)
    requires forall i :: 0 <= i < |es| ==> '\n' !in es[i].category && '\n' !in es[i].kind
    ensures var m := Calculate(inc, es);
      Split(TabularExport(inc, es, fmt), '\n')
      == [CSV_HEADER] + (if |es| == 0 then [""] else Rows(es, m.analyses, fmt)) + SummaryLines(inc, m, fmt)
  {
    var m := Calculate(inc, es);
    assert m.analyses == Analyses(m.totalSalary, es);
    RowsOneLine(m.totalSalary, es, fmt);
    HeaderOneLine();
    SummaryLinesPlain(inc, m, fmt);
    LayoutLines(CSV_HEADER, Rows(es, m.analyses, fmt), SummaryLines(inc, m, fmt), '\n');
  }

  /** Line `i + 1` of the CSV text is expense `i`'s row, built from its own
      analysis, and so quotes its own share of income. */
  lemma CsvQuotesOwnShare(inc: Income, es: seq<Expense>, fmt: Render, i: nat)
    requires Clean(fmt)
    requires forall i :: 0 <= i < |es| ==> '\n' !in es[i].category && '\n' !in es[i].kind
    requires UniqueIds(es)
    requires i < |es|
    ensures var m := Calculate(inc, es);
      var cells := RowCells(es[i], Some(m.analyses[i]), fmt);
      && |Split(TabularExport(inc, es, fmt), '\n')| == |es| + 9
      && Split(TabularExport(inc, es, fmt), '\n')[i + 1] == JoinWith(cells, ',')
      && cells[3] == PercentCell(Percent(es[i].amount, inc.salary1 + inc.salary2), fmt)
  {
    var m := Calculate(inc, es);
    var rows := Rows(es, m.analyses, fmt);
    assert |Split(TabularExport(inc, es, fmt), '\n')| == |es| + 9
        && Split(TabularExport(inc, es, fmt), '\n')[i + 1] == rows[i] by {
      CsvLines(inc, es, fmt);
      LineOfRow(Split(TabularExport(inc, es, fmt), '\n'), CSV_HEADER, rows, SummaryLines(inc, m, fmt), i);
    }
    assert m.analyses == Analyses(m.totalSalary, es);
    RowUsesOwnAnalysis(m.totalSalary, es, fmt, i);
  }

  /** In a header, rows and a block laid out in that order, line `i + 1` is
      row `i`. */
  lemma LineOfRow(lines: seq<string>, header: string, rows: seq<string>, block: seq<string>, i: nat)
    requires lines == [header] + rows + block
    requires i < |rows|
    ensures |lines| == |rows| + |block| + 1
    ensures lines[i + 1] == rows[i]
  {
  }

  /** With unique ids, the three exports agree on each expense: the narrative
      detail and the CSV row quote the same share of income, the one the
      engine computed for that expense, and the advisory lists of the JSON
      document and of the narrative report are the same list. */
  lemma ExportsAgree(inc: Income, es: seq<Expense>, fmt: Render, i: nat)
    requires UniqueIds(es)
    requires i < |es|
    ensures var m := Calculate(inc, es);
      var share := Percent(es[i].amount, m.totalSalary);
      && NarrativeExport(inc, es).details[i].share == Some(share)
      && Rows(es, m.analyses, fmt)[i] == JoinWith(RowCells(es[i], Some(m.analyses[i]), fmt), ',')
      && RowCells(es[i], Some(m.analyses[i]), fmt)[3] == PercentCell(share, fmt)
      && NarrativeExport(inc, es).advisories == StructuredExport(inc, es).conseils
  {
    var m := Calculate(inc, es);
    assert m.analyses == Analyses(m.totalSalary, es);
    FindOwnAnalysis(m.totalSalary, es, i);
    RowUsesOwnAnalysis(m.totalSalary, es, fmt, i);
  }
}
