/** The expense log: a form, a newest-first list, deletion, and per-category totals. */
module Expenses {
  import opened Seqs

  /** `amount` is the parsed amount in the smallest currency unit; `date` a timestamp. */
  datatype Expense = Expense(id: string, amount: int, category: string, description: string, date: int)

  /** The form keeps the amount as the text typed. */
  datatype ExpenseForm = ExpenseForm(amount: string, category: string, description: string)

  const EmptyForm: ExpenseForm := ExpenseForm("", "", "")

  const Categories: seq<string> := ["Food", "Transport", "Entertainment", "Bills", "Shopping", "Health", "Other"]

  /** `addExpense`, with `Date.now()`, `new Date()` and `parseFloat(form.amount)` supplied: without an
      amount text or a category nothing changes; otherwise the expense goes first and the form is
      cleared. The description may be empty. */
  function AddExpense(expenses: seq<Expense>, form: ExpenseForm, id: string, parsedAmount: int, now: int)
    : (r: (seq<Expense>, ExpenseForm))
    ensures form.amount == "" || form.category == "" ==> r == (expenses, form)
    ensures form.amount != "" && form.category != "" ==>
      && |r.0| == |expenses| + 1 && r.0[1..] == expenses && r.1 == EmptyForm
      && r.0[0] == Expense(id, parsedAmount, form.category, form.description, now)
  {
    if form.amount != "" && form.category != "" then
      ([Expense(id, parsedAmount, form.category, form.description, now)] + expenses, EmptyForm)
    else (expenses, form)
  }

  function HasNotId(id: string): Expense -> bool
  {
    (e: Expense) => e.id != id
  }

  /** `deleteExpense`: every expense with the id goes, the rest keep their order. */
  function DeleteExpense(expenses: seq<Expense>, id: string): (r: seq<Expense>)
    ensures forall i :: 0 <= i < |r| ==> r[i].id != id && r[i] in expenses
    ensures forall i :: 0 <= i < |expenses| && expenses[i].id != id ==> expenses[i] in r
    ensures forall x :: multiset(r)[x] == if x.id != id then multiset(expenses)[x] else 0
  {
    var r := Filter(expenses, HasNotId(id));
    assert forall x :: multiset(r)[x] == if x.id != id then multiset(expenses)[x] else 0 by {
      forall x ensures multiset(r)[x] == if x.id != id then multiset(expenses)[x] else 0 {
        FilterCount(expenses, HasNotId(id), x);
      }
    }
    r
  }

  lemma DeleteExpenseOrder(expenses: seq<Expense>, id: string)
    ensures IsSubsequence(DeleteExpense(expenses, id), expenses)
  {
    FilterIsSubsequence(expenses, HasNotId(id));
  }

  /** Deleting a just-added expense by its own id gives what deleting that id would have given before. */
  lemma {:induction false} DeleteUndoesAdd(expenses: seq<Expense>, form: ExpenseForm, id: string, amount: int, now: int)
    ensures DeleteExpense(AddExpense(expenses, form, id, amount, now).0, id) == DeleteExpense(expenses, id)
  {
    if form.amount != "" && form.category != "" {
      var e := Expense(id, amount, form.category, form.description, now);
      FilterAppend([e], expenses, HasNotId(id));
    }
  }

  /** The sum of the amounts of one category. */
  function CategoryTotal(expenses: seq<Expense>, category: string): int
  {
    if expenses == [] then 0
    else (if expenses[0].category == category then expenses[0].amount else 0) + CategoryTotal(expenses[1..], category)
  }

  datatype CategoryTotalItem = CategoryTotalItem(category: string, total: int)

  /** `categoryTotals`: the categories of the fixed list, in list order, with a positive total. */
  function CategoryTotals(expenses: seq<Expense>): (r: seq<CategoryTotalItem>)
    ensures |r| <= |Categories|
    ensures forall i :: 0 <= i < |r| ==> r[i].total == CategoryTotal(expenses, r[i].category) && r[i].total > 0
  {
    TotalsOver(Categories, expenses)
  }

  function TotalsOver(cats: seq<string>, expenses: seq<Expense>): (r: seq<CategoryTotalItem>)
    ensures |r| <= |cats|
    ensures forall i :: 0 <= i < |r| ==> r[i].category in cats
    ensures forall i :: 0 <= i < |r| ==> r[i].total == CategoryTotal(expenses, r[i].category) && r[i].total > 0
  {
    if cats == [] then []
    else
      var t := CategoryTotal(expenses, cats[0]);
      (if t > 0 then [CategoryTotalItem(cats[0], t)] else []) + TotalsOver(cats[1..], expenses)
  }

  function Names(items: seq<CategoryTotalItem>): (r: seq<string>)
    ensures |r| == |items| && forall i :: 0 <= i < |items| ==> r[i] == items[i].category
  {
    seq(|items|, i requires 0 <= i < |items| => items[i].category)
  }

  predicate Listed(items: seq<CategoryTotalItem>, c: string)
  {
    exists i :: 0 <= i < |items| && items[i].category == c
  }

  /** The categories listed follow the fixed list's order, so each appears at most once; a category
      is listed exactly when it is in the fixed list and its total is positive. */
  lemma CategoryTotalsShape(expenses: seq<Expense>, c: string)
    ensures IsSubsequence(Names(CategoryTotals(expenses)), Categories)
    ensures Listed(CategoryTotals(expenses), c) <==> c in Categories && CategoryTotal(expenses, c) > 0
  {
    TotalsSubsequence(Categories, expenses);
    TotalsListed(Categories, expenses, c);
  }

  lemma {:induction false} TotalsSubsequence(cats: seq<string>, expenses: seq<Expense>)
    ensures IsSubsequence(Names(TotalsOver(cats, expenses)), cats)
  {
    if cats != [] {
      TotalsSubsequence(cats[1..], expenses);
      var rest := Names(TotalsOver(cats[1..], expenses));
      var t := CategoryTotal(expenses, cats[0]);
      if t > 0 {
        assert Names(TotalsOver(cats, expenses)) == [cats[0]] + rest;
        assert ([cats[0]] + rest)[1..] == rest;
      } else {
        assert Names(TotalsOver(cats, expenses)) == rest;
        if rest != [] {
          SubsequenceSkip(rest, cats[1..], cats[0]);
          assert [cats[0]] + cats[1..] == cats;
        }
      }
    }
  }

  lemma {:induction false} TotalsListed(cats: seq<string>, expenses: seq<Expense>, c: string)
    ensures Listed(TotalsOver(cats, expenses), c) <==> c in cats && CategoryTotal(expenses, c) > 0
  {
    if cats != [] {
      TotalsListed(cats[1..], expenses, c);
      var r := TotalsOver(cats, expenses);
      var rest := TotalsOver(cats[1..], expenses);
      var t := CategoryTotal(expenses, cats[0]);
      assert cats == [cats[0]] + cats[1..];
      assert c in cats <==> c == cats[0] || c in cats[1..];
      if t > 0 {
        var head := CategoryTotalItem(cats[0], t);
        assert r == [head] + rest;
        ListedCons(head, rest, c);
      } else {
        assert r == rest;
      }
    }
  }

  lemma ListedCons(head: CategoryTotalItem, rest: seq<CategoryTotalItem>, c: string)
    ensures Listed([head] + rest, c) <==> head.category == c || Listed(rest, c)
  {
    var r := [head] + rest;
    if Listed(rest, c) {
      var i :| 0 <= i < |rest| && rest[i].category == c;
      assert r[i + 1].category == c;
    }
    if Listed(r, c) {
      var i :| 0 <= i < |r| && r[i].category == c;
      if i > 0 {
        assert rest[i - 1].category == c;
      }
    }
    if head.category == c {
      assert r[0].category == c;
    }
  }
}
