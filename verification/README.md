# Budget tracker engine, in Dafny

The budget tracker is a single React page (`pages/index.js`). A household
enters two salaries, a monthly savings amount and a list of expenses. The
page keeps an expense store, computes the `calculations` memo (sums, ratios
and one advisory analysis per expense), and offers three downloads: a JSON
document, a CSV file and a plain-text report. It also shows a three-level
health light and an action plan.

This project models the deterministic engine behind that page:

- **Expenses**: the expense records and the three store edits,
  `addExpense`, `deleteExpense` and `updateExpense`, as pure list transforms.
  The `Date.now()` id is a parameter. `parseFloat` is a parameter
  `Parser = string -> Option<real>`, where None stands for NaN.
- **Advisory**: the five-rule, first-match-wins chain that gives each
  expense its status and suggestion. It is stated as an ordered rule table
  (`Evaluate`), and the literal if/else-if chain (`EvaluateChain`) is proved
  equal to it.
- **Aggregation**: the memo itself, meaning total income, the
  total/fixed/variable sums, what remains, the three percentages and the
  analyses. It also covers how each store edit moves the totals.
- **Indicators**: the savings and variable-spending flags, the
  recommendation list they drive, and the red/yellow/green health light.
- **Reports**: the data content of the three exports:
  - the JSON advisory list;
  - the CSV rows, with the lookup by id and the comma replacement;
  - the CSV summary block;
  - the narrative report's sections.
- **Text**: `toLowerCase`, `includes`, single-character `replace`, `join`
  and a character count used to state the CSV layout.
- **Scenarios**: worked cases on the household the page starts with.

Money is exact (`real`). The source divides by total income without a
guard. Here each percentage is an `Option<real>` that is None when total
income is zero, and every threshold test is stated on a computable
percentage only.

## Model

| member | source | states |
|---|---|---|
| `Expenses.AddExpense` | pages/index.js:31-41 | A record is appended, exactly when the category is non-empty and the amount text parses. Only then is the form reset. The appended record is last, holds the fresh id, the category, the parsed amount and the type, and everything before it is unchanged. Otherwise neither the list nor the form changes. |
| `Expenses.AddAsWritten` | pages/index.js:31-41 | The add as the source writes it, over records whose amount may be NaN (`Stored`). A record is appended exactly when both texts are non-empty. It is last, holds the fresh id, the category, whatever `parseFloat` gives (NaN included) and the type, and the form is reset. Otherwise neither the list nor the form changes. |
| `Expenses.AddGuardAdmitsUnparsable` | pages/index.js:32-35 | Called with the form ("Loisirs", "abc"), the source's add grows the list by a record whose amount is NaN. The corrected add leaves the list and the form unchanged. |
| `Expenses.AddAgreesUnlessUnparsable` | pages/index.js:31-41 | The source's add and the corrected add give the same list and form exactly when the source's test fails or the amount text parses. |
| `Expenses.AddKeepsIdsUnique` | pages/index.js:31-41 | Adding under an id not yet in use keeps ids unique. |
| `Expenses.AddThenDelete` | pages/index.js:31-45 | Adding under a fresh id, then deleting that id, gives back the original list. |
| `Expenses.CountId` | pages/index.js:43-45 | The number of records carrying an id is zero exactly when the id is absent. |
| `Expenses.DeleteExpense` | pages/index.js:43-45 | The result holds exactly the records whose id differs. Its length drops by the number of records carrying the id. An absent id changes nothing. |
| `Expenses.DeleteAppend` | pages/index.js:43-45 | Deleting distributes over concatenation, so the survivors keep their relative order. |
| `Expenses.DeleteIdempotent` | pages/index.js:43-45 | Deleting twice equals deleting once. |
| `Expenses.DeleteKeepsIdsUnique` | pages/index.js:43-45 | Deleting keeps ids unique. |
| `Expenses.UpdateExpense` | pages/index.js:47-51 | The length is kept. A record with another id is untouched. A record with the id keeps its id and every other field, and holds the new value in the edited field. The amount is `parseFloat(value) \|\| 0`. |
| `Expenses.UpdateKeepsIds` | pages/index.js:47-51 | Every id stays in place, so unique ids stay unique. |
| `Expenses.UpdateIdempotent` | pages/index.js:47-51 | Repeating the same edit changes nothing more. |
| `Expenses.UpdateAbsent` | pages/index.js:47-51 | An edit to an id nobody holds leaves the list unchanged. |
| `Expenses.UpdateThenDelete` | pages/index.js:43-51 | Deleting a record erases any earlier edit to it. |
| `Advisory.Percent` | pages/index.js:60-64 | The share is computable exactly when the divisor is non-zero, and then share × divisor = part × 100. |
| `Advisory.FirstFiring` | pages/index.js:68-83 | The chosen rule belongs to the list and fires. No rule is chosen exactly when none fires. |
| `Advisory.FirstFiringIff` | pages/index.js:68-83 | In a list without repeats, rule k is chosen exactly when it fires and no rule before it fires. |
| `Advisory.FirstMatchWins` | pages/index.js:68-83 | The same statement for the five rules in source order. |
| `Advisory.Classify` | pages/index.js:65-83 | No rule is chosen exactly when none fires. A keyword rule decides exactly when some keyword rule fires. The variable-expense rule decides exactly when it fires and no keyword rule does. |
| `Advisory.Evaluate` | pages/index.js:63-86 | The analysis keeps the record and its share of income. "normal" holds exactly when the suggestion is empty, which is exactly when no rule fires. "warning" holds exactly when a keyword rule fires. "alert" holds exactly for a variable expense above 8 % of income that no keyword rule catches. |
| `Advisory.Precedence` | pages/index.js:68-83 | The suggestion is rule r's text exactly when r fires and every earlier rule does not. |
| `Advisory.PhoneRuleBeatsAlert` | pages/index.js:68-70 | A category mentioning "téléphone" with an amount above 60 gets the phone warning. This holds even when the expense is variable and above 8 % of income. |
| `Advisory.ChainMatchesTable` | pages/index.js:63-86 | The literal if/else-if chain (`EvaluateChain`) and the rule table give the same analysis for every expense and income. |
| `Advisory.TipsDistinct` | pages/index.js:68-83 | The five suggestions are non-empty and pairwise different. |
| `Advisory.TipIsOneField` | pages/index.js:68-83 | No suggestion holds a comma or a line break. |
| `Advisory.SuggestionIsATip` | pages/index.js:65-83 | A suggestion is either empty or one of the five texts. |
| `Text.LowerChar` | pages/index.js:68 | A character changes exactly when it is an ASCII or Latin-1 capital, and then becomes the small letter 32 code points above. No capital comes out. |
| `Text.Lower` | pages/index.js:68 | Lower-casing keeps the length and the positions. Every ASCII or Latin-1 capital becomes its small letter, every other character is kept, and no capital is left. |
| `Text.LowerIdempotent` | pages/index.js:68 | Lower-casing twice equals lower-casing once. |
| `Text.ContainsIff` | pages/index.js:68 | `includes` holds exactly when the key occurs at some position. |
| `Text.ContainsNeedsEach` | pages/index.js:68 | Every character of a contained key occurs in the text. |
| `Text.Replace` | pages/index.js:151 | Replacing keeps the length, replaces every occurrence and nothing else, and leaves none behind. |
| `Text.ReplaceAbsent` | pages/index.js:151 | Replacing a character that does not occur returns the text unchanged. |
| `Text.CountJoin` | pages/index.js:152-153 | Joining n parts adds exactly n - 1 separators and nothing else. |
| `Text.JoinedFields` | pages/index.js:152-153 | Parts without the separator, joined, hold exactly one separator fewer than there are parts. |
| `Aggregation.OfKind` | pages/index.js:57-58 | The filter keeps exactly the records of the given type, and is never longer than its input. |
| `Aggregation.OfKindAppend` | pages/index.js:57-58 | Filtering a concatenation filters each part. Together with the membership clause, this fixes the order and multiplicity of the kept records. |
| `Aggregation.OtherKinds` | pages/index.js:57-58 | It keeps exactly the records typed neither "fixe" nor "variable", and is never longer than its input. |
| `Aggregation.OtherKindsAppend` | pages/index.js:57-58 | The same distribution over concatenation for the records of the other types. |
| `Aggregation.ReduceIsSum` | pages/index.js:55 | The source's left-to-right `reduce` from an accumulator adds the sum of the amounts (`Sum`) to it, so from 0 it yields `Sum`. |
| `Aggregation.SumAppend` | pages/index.js:55 | The sum of a concatenation is the sum of the sums. |
| `Aggregation.SumPartition` | pages/index.js:55-58 | Fixed sum + variable sum + sum of the other types = total sum. |
| `Aggregation.NoOtherKinds` | pages/index.js:57-58 | When every record is fixed or variable, no record falls outside both partitions. |
| `Aggregation.Calculate` | pages/index.js:53-99 | Total income is the sum of the salaries. Total expenses are the sum of all amounts, and the fixed and variable sums are the sums of the records of each type. What remains is income - expenses - savings, with no floor. The fixed and variable sums partition the total, up to the other types; with only those two types they add up to it. The three percentages are the shares of income. Analysis i is the engine's verdict on expense i. |
| `Aggregation.CalculateMatchesReduce` | pages/index.js:55-58 | The memo's three sums equal the source's three `reduce` calls over the list and its two filters. |
| `Aggregation.AnalysesAppend` | pages/index.js:63-86 | The analyses (`Analyses`, the `expenses.map` of the memo) of a concatenation are those of each part: each expense's verdict depends only on itself and the income, in list order. |
| `Aggregation.AddMovesTotals` | pages/index.js:31-41 | An accepted add raises total expenses by the new amount and lowers what remains by the same. A rejected add changes no figure. |
| `Aggregation.DeleteMovesTotal` | pages/index.js:43-45 | With unique ids, deleting record k removes exactly its amount from the total. |
| `Aggregation.UpdateAmountMovesTotal` | pages/index.js:47-51 | With unique ids, editing record k's amount moves the total by (new coerced value - old amount). |
| `Aggregation.UpdateTextKeepsTotal` | pages/index.js:47-51 | Editing a category or a type leaves the total unchanged. |
| `Aggregation.SharesAddUp` | pages/index.js:59-64 | Shares computed one per amount add up to the share of the summed amounts. |
| `Aggregation.RatiosAddUp` | pages/index.js:59-64 | The per-expense shares of income add up to the expense ratio. |
| `Indicators.HealthOf` | pages/index.js:656-670 | Red exactly above 70, yellow exactly in (60, 70], green exactly at 60 or below. |
| `Indicators.HealthMonotone` | pages/index.js:656-670 | A larger expense ratio never shows a healthier light. |
| `Indicators.Overview` | pages/index.js:656-670 | A light is shown exactly when the expense ratio is computable. |
| `Indicators.OverviewMeans` | pages/index.js:656-670 | For a positive income, red shows exactly when expenses exceed 70 % of income, and yellow exactly when they exceed 60 % but not 70 %. |
| `Indicators.SavingsLowMeans` | pages/index.js:201 | For a positive income, the savings flag (`SavingsLow`, the same test as at line 714) is up exactly when savings are below a tenth of income. |
| `Indicators.VariableHighMeans` | pages/index.js:202 | For a positive income, the variable flag (`VariableHigh`, the same test as at line 717) is up exactly when variable expenses exceed a quarter of income. |
| `Indicators.NoIncomeNoIndicators` | pages/index.js:94-96 | With zero income, neither flag is raised and no light is shown. |
| `Indicators.Recommendations` | pages/index.js:714-723 | The list holds the four general items, last and in order. The savings item, with a target of 10 % of income, appears exactly when the savings flag is up, and it comes first. The variable item, quoting the variable ratio, appears exactly when the variable flag is up, and it sits just before the general items. |
| `Reports.Conseils` | pages/index.js:120-127 | The advisory list is no longer than the analyses, and every entry has a suggestion. |
| `Reports.ConseilsMembers` | pages/index.js:120-127 | It holds exactly the analyses with a non-empty suggestion. |
| `Reports.ConseilsAppend` | pages/index.js:120-127 | The list of a concatenation is the concatenation of the lists, so entries keep the expenses' order. |
| `Reports.ConseilsCount` | pages/index.js:120-127 | There is one entry per expense whose status is not normal. |
| `Reports.StructuredExport` | pages/index.js:102-128 | The JSON document carries the salaries, the savings and the expense list unchanged. Its income is the sum of the salaries, its total, fixed and variable expenses are the sums of all, fixed and variable amounts, and its remaining figure is income - expenses - savings. Its two rates are the savings and expense shares of income. Its advisory list is the filtered list of the analyses, and every entry has a suggestion. |
| `Reports.StructuredAdvises` | pages/index.js:120-127 | The JSON advisory list has one entry per expense the rule engine flags. Every flagged expense has its entry, and every entry comes from a flagged expense. |
| `Reports.FindById` | pages/index.js:144 | The lookup returns an analysis carrying the id. It returns nothing exactly when no analysis carries the id. |
| `Reports.FindFirst` | pages/index.js:144 | The lookup returns the first analysis carrying the id. |
| `Reports.FindOwnAnalysis` | pages/index.js:144 | A listed expense always finds an analysis. With unique ids, it finds its own. |
| `Reports.RowCells` | pages/index.js:145-152 | A row has as many cells as the header. In the header's order, the first three are the category, the rendered amount and the type, and the suggestion cell holds no comma. |
| `Reports.RowUsesOwnAnalysis` | pages/index.js:144-152 | With unique ids, row i of the data rows (`Rows`) shows expense i's own share, status and suggestion. Replacing commas leaves the suggestion intact. |
| `Reports.RowCommas` | pages/index.js:145-152 | A row holds 5 separating commas plus those inside the category and the type. |
| `Reports.HeaderCommas` | pages/index.js:142 | The header has six fields. |
| `Reports.RowsOneLine` | pages/index.js:143-153 | Rows whose category and type hold no line break are single lines. |
| `Reports.SummaryBreaks` | pages/index.js:155 | The summary block adds exactly eight line breaks. |
| `Reports.CsvLineCount` | pages/index.js:141-157 | With no line break in any category or type, the CSV text (`TabularExport`) holds a header line, one line per expense, and eight summary lines. When there are no expenses, a single empty line stands in for the rows. |
| `Reports.SummaryMatchesStructured` | pages/index.js:155 | Each of the summary block's eight lines has its heading and the figure the JSON document carries for it: salaries, total income, savings, total expenses, what remains and the savings rate. |
| `Reports.CsvLines` | pages/index.js:141-157 | With no line break in any category or type, the CSV text (`TabularExport`) splits into the header line, then one row per expense in list order (a single empty line when there is none), then the eight summary lines. |
| `Reports.CsvQuotesOwnShare` | pages/index.js:143-153 | With unique ids and no line break in any category or type, the CSV text has one line per expense plus nine. Line i + 1 is expense i's row, built from its own analysis, so it quotes expense i's own share of income. |
| `Reports.NarrativeExport` | pages/index.js:170-207 | The report details every expense in order. Its ratio is the expense share of income. Its advisory section is exactly the JSON advisory list. Its recommendations are the flag-driven list of lines 201-206, so the savings and variable items appear exactly when their flags are up, and the list ends with the four general items in order. |
| `Reports.ExportsAgree` | pages/index.js:120-207 | With unique ids, the narrative detail and the data row of expense i (as listed by `Rows`; `CsvQuotesOwnShare` places it in the CSV text) quote the same share, namely expense i's share of income. The JSON and narrative advisory lists are equal. |
| `Scenarios.InitialTotals` | pages/index.js:6-18 | For the initial household: 5500 income, 740 expenses (260 fixed, 480 variable), 4260 remaining. |
| `Scenarios.InitialAllNormal` | pages/index.js:6-18 | No initial expense draws a remark at the initial income. |
| `Scenarios.InitialIndicators` | pages/index.js:6-18 | Savings flag up with a 550 target, variable flag down, green light. |
| `Scenarios.PhoneEditRaisesWarning` | pages/index.js:47-51 | Editing the phone bill to "65" gives it the phone warning. |
| `Scenarios.GroceriesDependOnIncome` | pages/index.js:74-76 | 400 of groceries draw a warning at 2000 of income but not at 5500. |
| `Scenarios.NoIncome` | pages/index.js:60-64 | At zero income no share is computable, no indicator shows, and the CSV prints "n/a". |
| `Scenarios.NoIncomeInitial` | pages/index.js:71-73 | At zero income the electricity limit drops to 0, so the initial electricity bill is flagged. |

## Left out

- The JSX rendering is left out as presentation: charts, the mobile menu, the client detection and the window width.
- The browser download plumbing is left out as browser I/O and clock: Blob, object URLs and the anchor click. So are the dates in the documents and file names.
- Number formatting (`toFixed`, `${x}`) is left out; rendering a number is the parameter `Render`. `Reports.Clean` assumes that rendered numbers hold no comma or line break.
- The JSON text layout of `JSON.stringify` is left out. The JSON document is modelled by its content (`Structured`).
- The prose of the narrative report is left out. `Narrative` keeps the data of four sections: the detail lines, the expense ratio, the advisory list and the recommendations. It does not model the two opening sections (lines 173-184): income (the salaries and total income) and savings and expenses (savings, savings rate, fixed, variable and total sums, and what remains). These figures are the memo's, which `Reports.StructuredExport` already pins.
- Indicators.SavingsLow: the source compares the percentage after rounding it to one decimal (`parseFloat(x.toFixed(1))`), here the exact ratio is compared; the two differ only within 0.05 of the threshold. The same holds for `Indicators.VariableHigh`, `Indicators.Overview` and `Indicators.Recommendations`.
- Advisory.Percent: with zero income the source computes NaN or ±Infinity and compares them. Here every share is None and no threshold test on a share fires. At zero income, the model departs from the source in these ways:
  - The source raises the "more than 8 %" alert for any positive variable expense that no keyword rule catches; the model does not.
  - The source shows the red light whenever expenses are positive (Infinity > 70, lines 657 and 665); `Indicators.Overview` shows no light.
  - The source raises the variable flag whenever variable expenses are positive (Infinity > 25, lines 202 and 717); `Indicators.VariableHigh` stays down.
  - The source raises the savings flag when savings are negative (-Infinity < 10); `Indicators.SavingsLow` stays down.
  - The source prints "Infinity%" or "NaN%" in the CSV and the reports; the model prints "n/a" (`Reports.NOT_COMPUTABLE`).
  - The keyword rules still fire at zero income in both, because their limits become 0.
  - `Indicators.NoIncomeNoIndicators` and `Scenarios.NoIncome` state the model's behaviour, not the source's.
- Text.LowerChar: it folds ASCII and Latin-1 capitals only. Other Unicode case mappings of `toLowerCase` are not modelled; every keyword the rules look for is in that range.
- Expenses.UpdateExpense: the edited field is one of the three the table edits (category, amount, type). The source's computed key `[field]` would accept any name.
- Arithmetic is exact (`real`); the source computes with IEEE-754 double-precision numbers (the sums, `totalSalary * 0.05`, the division behind each share, `ratioToIncome > 8`). Rounding can move a value to the other side of a threshold, so results can differ at the thresholds.
- Expenses.AddExpense: the fresh id (`Date.now()`) is a parameter. Freshness is stated as a requirement (`id !in Ids(es)`) where a lemma needs it, since the clock cannot be modelled.

## Findings

| source | as written | input that shows it | evidently intended | confidence | as-written member | corrected member |
|---|---|---|---|---|---|---|
| pages/index.js:32-35 | The add guard checks only that the category and the amount text are non-empty, then stores `parseFloat(amount)`. | `addExpense` called with category "Loisirs" and amount text "abc": a record with amount NaN is appended, and every sum becomes NaN. This is a latent defect of the function alone. The page cannot trigger it: its only amount field is `<input type="number">` (lines 412-415), and the browser hands over "" for text that is not a number, which the guard rejects. | Add only when the amount text is a number, so that no record holds NaN. | not executed; latent, since the page's number field cannot produce the input | `Expenses.AddGuardAdmitsUnparsable` | `Expenses.AddExpense` |
