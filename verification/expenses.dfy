/** The expense store of the budget tracker: the ordered list of expense
    records and its three edits, `addExpense`, `deleteExpense` and
    `updateExpense` (pages/index.js lines 31-51). Each edit is a pure list
    transform; the component's `setExpenses` becomes the function's result.
    The clock read that supplies a new record's id (`Date.now()`) and the
    number parser (`parseFloat`) are parameters. */
module Expenses {
  import opened Wrappers

  type Id = int

  /** The two values the type selector offers. `updateExpense` stores any text
      it is given, so an expense's type is kept as text. */
  const FIXE: string := "fixe"
  const VARIABLE: string := "variable"

  /** One expense record `{id, category, amount, type}`; amounts in euros. */
  datatype Expense = Expense(id: Id, category: string, amount: real, kind: string)

  /** The add-expense form (`newExpense`): the amount is still the text typed. */
  datatype Draft = Draft(category: string, amountText: string, kind: string)

  /** The form as it is reset after a successful add. */
  const EMPTY_DRAFT: Draft := Draft("", "", FIXE)

  /** The fields the table lets the user edit in place. */
  datatype Field = Category | Amount | Type

  /** `parseFloat`: the number a text denotes, or None where it yields NaN. */
  type Parser = string -> Option<real>

  /** `parseFloat(text) || 0`: an unparsable text becomes 0. */
  function Coerce(parse: Parser, text: string): real
  {
    ValueOr(parse(text), 0.0)
  }

  // ---------------------------------------------------------------------
  // Identity
  // ---------------------------------------------------------------------

  /** The ids in use. */
  function Ids(es: seq<Expense>): set<Id>
  {
    set e | e in es :: e.id
  }

  /** No two records share an id. */
  predicate UniqueIds(es: seq<Expense>)
  {
    forall i, j :: 0 <= i < j < |es| ==> es[i].id != es[j].id
  }

  /** Number of records carrying `id`. */
  function CountId(es: seq<Expense>, id: Id): (n: nat)
    ensures n <= |es|
    ensures n == 0 <==> id !in Ids(es)
  {
    if |es| == 0 then 0
    else (if es[0].id == id then 1 else 0) + CountId(es[1..], id)
  }

  // ---------------------------------------------------------------------
  // addExpense
  // ---------------------------------------------------------------------

  /** The test the source applies before adding (line 32): both texts are
      non-empty. It does not ask whether the amount text is a number. */
  predicate AddGuardAsWritten(d: Draft)
  {
    |d.category| > 0 && |d.amountText| > 0
  }

  /** A record as the source's add may store it: its amount is None where
      `parseFloat` gave NaN. */
  datatype Stored = Stored(id: Id, category: string, amount: Option<real>, kind: string)

  /** A record that holds a number, seen as a stored record. */
  function ToStored(e: Expense): Stored
  {
    Stored(e.id, e.category, Some(e.amount), e.kind)
  }

  /** A list of records that all hold numbers, seen as stored records. */
  function StoreOf(es: seq<Expense>): (r: seq<Stored>)
    ensures |r| == |es|
    ensures forall i :: 0 <= i < |es| ==> r[i] == ToStored(es[i])
  {
    seq(|es|, i requires 0 <= i < |es| => ToStored(es[i]))
  }

  /** `addExpense` as the source writes it (lines 31-41): once both texts are
      non-empty a record is appended, holding whatever `parseFloat` makes of
      the amount text, NaN included, and the form is reset; otherwise the
      list and the form stay as they were. */
  function AddAsWritten(ss: seq<Stored>, d: Draft, id: Id, parse: Parser): (r: (seq<Stored>, Draft))
    ensures |r.0| == |ss| + 1 <==> |d.category| > 0 && |d.amountText| > 0
    ensures |r.0| == |ss| || |r.0| == |ss| + 1
    ensures r.0[..|ss|] == ss
    ensures |r.0| == |ss| ==> r.1 == d
    ensures |r.0| == |ss| + 1 ==>
      && r.0[|ss|].id == id
      && r.0[|ss|].category == d.category
      && r.0[|ss|].amount == parse(d.amountText)
      && r.0[|ss|].kind == d.kind
      && r.1 == EMPTY_DRAFT
  {
    if AddGuardAsWritten(d) then
      (ss + [Stored(id, d.category, parse(d.amountText), d.kind)], EMPTY_DRAFT)
    else
      (ss, d)
  }

  /** The form is accepted: a category, and an amount text that is a number. */
  predicate Accepts(d: Draft, parse: Parser)
  {
    AddGuardAsWritten(d) && parse(d.amountText).Some?
  }

  /** `addExpense` with the amount text also required to be a number, so that
      no record ever holds NaN: an accepted form appends one record with the
      fresh id and resets the form; anything else leaves both the list and the
      form as they were. */
  function AddExpense(es: seq<Expense>, d: Draft, id: Id, parse: Parser): (r: (seq<Expense>, Draft))
    ensures |r.0| == |es| + 1 <==> |d.category| > 0 && |d.amountText| > 0 && parse(d.amountText).Some?
    ensures |r.0| == |es| || |r.0| == |es| + 1
    ensures r.0[..|es|] == es
    ensures |r.0| == |es| ==> r.1 == d
    ensures |r.0| == |es| + 1 ==>
      && r.0[|es|].id == id
      && r.0[|es|].category == d.category
      && Some(r.0[|es|].amount) == parse(d.amountText)
      && r.0[|es|].kind == d.kind
      && r.1 == EMPTY_DRAFT
  {
    if Accepts(d, parse) then
      (es + [Expense(id, d.category, parse(d.amountText).value, d.kind)], EMPTY_DRAFT)
    else
      (es, d)
  }

  /** With a non-empty category and an amount text that `parseFloat` cannot
      read, the source appends a record whose amount is NaN, while
      `AddExpense` ignores the form. */
  lemma AddGuardAdmitsUnparsable(es: seq<Expense>, id: Id, parse: Parser)
    requires parse("abc") == None
    ensures AddAsWritten(StoreOf(es), Draft("Loisirs", "abc", VARIABLE), id, parse).0
         == StoreOf(es) + [Stored(id, "Loisirs", None, VARIABLE)]
    ensures AddExpense(es, Draft("Loisirs", "abc", VARIABLE), id, parse) == (es, Draft("Loisirs", "abc", VARIABLE))
  {
  }

  /** Seeing a list as stored records commutes with appending. */
  lemma StoreOfAppend(es: seq<Expense>, e: Expense)
    ensures StoreOf(es + [e]) == StoreOf(es) + [ToStored(e)]
  {
    assert |StoreOf(es + [e])| == |StoreOf(es) + [ToStored(e)]|;
    forall i | 0 <= i < |es| + 1
      ensures StoreOf(es + [e])[i] == (StoreOf(es) + [ToStored(e)])[i]
    {
      if i < |es| {
        assert (es + [e])[i] == es[i];
      }
    }
  }

  /** The source's add and the corrected add differ exactly on the forms the
      source lets through although their amount text is not a number. */
  lemma AddAgreesUnlessUnparsable(es: seq<Expense>, d: Draft, id: Id, parse: Parser)
    ensures AddAsWritten(StoreOf(es), d, id, parse)
              == (StoreOf(AddExpense(es, d, id, parse).0), AddExpense(es, d, id, parse).1)
        <==> !(AddGuardAsWritten(d) && parse(d.amountText).None?)
  {
    var fixed := AddExpense(es, d, id, parse);
    var w := AddAsWritten(StoreOf(es), d, id, parse);
    if AddGuardAsWritten(d) && parse(d.amountText).None? {
      assert |w.0| == |es| + 1 && |StoreOf(fixed.0)| == |es|;
    } else if Accepts(d, parse) {
      StoreOfAppend(es, Expense(id, d.category, parse(d.amountText).value, d.kind));
    }
  }

  // ---------------------------------------------------------------------
  // deleteExpense
  // ---------------------------------------------------------------------

  /** `expenses.filter(expense => expense.id !== id)`. */
  function DeleteExpense(es: seq<Expense>, id: Id): (r: seq<Expense>)
    ensures forall e :: e in r <==> e in es && e.id != id
    ensures |r| + CountId(es, id) == |es|
    ensures id !in Ids(es) ==> r == es
  {
    if |es| == 0 then []
    else (if es[0].id == id then [] else [es[0]]) + DeleteExpense(es[1..], id)
  }

  /** Deleting from a concatenation deletes from each part: the survivors keep
      their relative order. */
  lemma {:induction false} DeleteAppend(a: seq<Expense>, b: seq<Expense>, id: Id)
    ensures DeleteExpense(a + b, id) == DeleteExpense(a, id) + DeleteExpense(b, id)
  {
    if |a| == 0 {
      assert a + b == b;
    } else {
      assert (a + b)[1..] == a[1..] + b;
      DeleteAppend(a[1..], b, id);
    }
  }

  /** Deleting twice is deleting once. */
  lemma DeleteIdempotent(es: seq<Expense>, id: Id)
    ensures DeleteExpense(DeleteExpense(es, id), id) == DeleteExpense(es, id)
  {
  }

  /** Deleting keeps ids unique. */
  lemma {:induction false} DeleteKeepsIdsUnique(es: seq<Expense>, id: Id)
    requires UniqueIds(es)
    ensures UniqueIds(DeleteExpense(es, id))
  {
    if |es| > 0 {
      DeleteKeepsIdsUnique(es[1..], id);
      var rest := DeleteExpense(es[1..], id);
      assert forall e :: e in rest ==> e in es[1..];
      forall e | e in rest
        ensures e.id != es[0].id
      {
        var k :| 0 <= k < |es[1..]| && es[1..][k] == e;
        assert es[k + 1] == e;
      }
    }
  }

  // ---------------------------------------------------------------------
  // updateExpense
  // ---------------------------------------------------------------------

  /** `{ ...expense, [field]: value }`, the amount coerced to a number. */
  function SetField(e: Expense, f: Field, value: string, parse: Parser): Expense
  {
    match f
    case Category => e.(category := value)
    case Amount => e.(amount := Coerce(parse, value))
    case Type => e.(kind := value)
  }

  /** `a` and `b` agree on the id and on every field except `f`. */
  predicate SameExcept(a: Expense, b: Expense, f: Field)
  {
    && a.id == b.id
    && (f != Category ==> a.category == b.category)
    && (f != Amount ==> a.amount == b.amount)
    && (f != Type ==> a.kind == b.kind)
  }

  /** `expense` holds `value` in field `f` after an in-place edit. */
  predicate Holds(e: Expense, f: Field, value: string, parse: Parser)
  {
    match f
    case Category => e.category == value
    case Amount => (parse(value).Some? ==> e.amount == parse(value).value) && (parse(value).None? ==> e.amount == 0.0)
    case Type => e.kind == value
  }

  /** `expenses.map(expense => expense.id === id ? edited : expense)`. */
  function UpdateExpense(es: seq<Expense>, id: Id, f: Field, value: string, parse: Parser): (r: seq<Expense>)
    ensures |r| == |es|
    ensures forall i :: 0 <= i < |es| && es[i].id != id ==> r[i] == es[i]
    ensures forall i :: 0 <= i < |es| && es[i].id == id ==> SameExcept(r[i], es[i], f) && Holds(r[i], f, value, parse)
  {
    seq(|es|, i requires 0 <= i < |es| => if es[i].id == id then SetField(es[i], f, value, parse) else es[i])
  }

  /** An edit keeps every id where it was, so it keeps ids unique. */
  lemma UpdateKeepsIds(es: seq<Expense>, id: Id, f: Field, value: string, parse: Parser)
    ensures forall i :: 0 <= i < |es| ==> UpdateExpense(es, id, f, value, parse)[i].id == es[i].id
    ensures UniqueIds(es) ==> UniqueIds(UpdateExpense(es, id, f, value, parse))
  {
  }

  /** Repeating an edit changes nothing more. */
  lemma UpdateIdempotent(es: seq<Expense>, id: Id, f: Field, value: string, parse: Parser)
    ensures UpdateExpense(UpdateExpense(es, id, f, value, parse), id, f, value, parse)
         == UpdateExpense(es, id, f, value, parse)
  {
  }

  /** An edit to an id nobody holds changes nothing. */
  lemma UpdateAbsent(es: seq<Expense>, id: Id, f: Field, value: string, parse: Parser)
    requires id !in Ids(es)
    ensures UpdateExpense(es, id, f, value, parse) == es
  {
    forall i | 0 <= i < |es|
      ensures es[i].id != id
    {
      assert es[i] in es;
    }
  }

  /** Deleting a record erases every earlier edit to it. */
  lemma {:induction false} UpdateThenDelete(es: seq<Expense>, id: Id, f: Field, value: string, parse: Parser)
    ensures DeleteExpense(UpdateExpense(es, id, f, value, parse), id) == DeleteExpense(es, id)
  {
    if |es| > 0 {
      var u := UpdateExpense(es, id, f, value, parse);
      assert u[1..] == UpdateExpense(es[1..], id, f, value, parse);
      UpdateThenDelete(es[1..], id, f, value, parse);
    }
  }

  // ---------------------------------------------------------------------
  // Add and delete together
  // ---------------------------------------------------------------------

  /** Adding under a fresh id keeps ids unique. */
  lemma AddKeepsIdsUnique(es: seq<Expense>, d: Draft, id: Id, parse: Parser)
    requires UniqueIds(es)
    requires id !in Ids(es)
    ensures UniqueIds(AddExpense(es, d, id, parse).0)
  {
    forall i | 0 <= i < |es|
      ensures es[i].id != id
    {
      assert es[i] in es;
    }
  }

  /** Adding a record under a fresh id and then deleting that id gives back the
      list that was there before. */
  lemma AddThenDelete(es: seq<Expense>, d: Draft, id: Id, parse: Parser)
    requires id !in Ids(es)
    ensures DeleteExpense(AddExpense(es, d, id, parse).0, id) == es
  {
    if Accepts(d, parse) {
      var e := Expense(id, d.category, parse(d.amountText).value, d.kind);
      DeleteAppend(es, [e], id);
      assert DeleteExpense([e], id) == [];
    }
  }
}
