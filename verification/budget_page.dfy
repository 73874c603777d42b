/** The expense manager page: a list of expenses with a category list, a
    filter over category and payment status, the budget totals and the
    per-category breakdown that feeds the pie chart. */
module BudgetPage {
  import opened Lists
  import opened Categories

  datatype Expense = Expense(
    id: string,
    category: string,
    description: string,
    amount: int,
    date: string,
    paid: bool)

  /** The new-expense form; a field the user never touched is "" or 0. */
  datatype ExpenseDraft = ExpenseDraft(category: string, description: string, amount: int, date: string)

  const EmptyExpenseDraft := ExpenseDraft("", "", 0, "")

  /** The expense `addExpense` builds from the form: the fresh id and
      `paid` set to false. */
  function DraftToExpense(d: ExpenseDraft, id: string): (e: Expense)
    ensures e.id == id && !e.paid
    ensures ExpenseMatches(e, ExpenseFilter(d.category, "false"))
    ensures !ExpenseMatches(e, ExpenseFilter("", "true"))
  {
    Expense(id, d.category, d.description, d.amount, d.date, false)
  }

  function HasIdOf(u: Expense): Expense -> bool {
    (e: Expense) => e.id == u.id
  }

  function Category(e: Expense): string { e.category }

  function Amount(e: Expense): int { e.amount }

  /** `String(paid)`. */
  function BoolText(b: bool): string {
    if b then "true" else "false"
  }

  /** The two select boxes above the expense table; "" means no filter. */
  datatype ExpenseFilter = ExpenseFilter(category: string, paid: string)

  /** A set field restricts by equality; an empty field lets everything through. */
  predicate ExpenseMatches(e: Expense, f: ExpenseFilter) {
    (f.category == "" || e.category == f.category)
    && (f.paid == "" || BoolText(e.paid) == f.paid)
  }

  /** `filteredExpenses`. */
  function FilteredExpenses(es: seq<Expense>, f: ExpenseFilter): (r: seq<Expense>)
    ensures forall e :: e in r <==> e in es && ExpenseMatches(e, f)
    ensures IsSubsequence(r, es)
    ensures forall e :: multiset(r)[e] == if ExpenseMatches(e, f) then multiset(es)[e] else 0
  {
    FilterCounts(es, (e: Expense) => ExpenseMatches(e, f));
    FilterIsSubsequence(es, (e: Expense) => ExpenseMatches(e, f));
    Filter(es, (e: Expense) => ExpenseMatches(e, f))
  }

  /** With both fields empty, every expense is shown. */
  lemma EmptyFilterShowsAllExpenses(es: seq<Expense>)
    ensures FilteredExpenses(es, ExpenseFilter("", "")) == es
  {
    FilterKeepsAll(es, (e: Expense) => ExpenseMatches(e, ExpenseFilter("", "")));
  }

  /** The payment filter "true" shows exactly the paid expenses and
      "false" exactly the unpaid ones. */
  lemma PaidFilterSelectsStatus(es: seq<Expense>, paid: bool)
    ensures forall e :: e in FilteredExpenses(es, ExpenseFilter("", BoolText(paid))) <==> e in es && e.paid == paid
  {
  }

  /** As written, the menu entry "all" of the payment select is compared
      with `String(paid)` like any other value, so it hides every expense. */
  lemma AllPaidShowsNothing(es: seq<Expense>, category: string)
    ensures FilteredExpenses(es, ExpenseFilter(category, "all")) == []
  {
    FilterKeepsNone(es, (e: Expense) => ExpenseMatches(e, ExpenseFilter(category, "all")));
  }

  /** As written, the menu entry "all" of the category select keeps only
      the expenses whose category is literally "all". */
  lemma AllCategoryIsLiteral(es: seq<Expense>)
    ensures forall e :: e in FilteredExpenses(es, ExpenseFilter("all", "")) <==> e in es && e.category == "all"
  {
  }

  function IntendedFilteredExpenses(es: seq<Expense>, f: ExpenseFilter): (r: seq<Expense>)
    ensures forall e :: e in r <==> e in es && ExpenseMatches(e, ExpenseFilter(Unrestricted(f.category), Unrestricted(f.paid)))
    ensures IsSubsequence(r, es)
    ensures forall e :: multiset(r)[e] == if ExpenseMatches(e, ExpenseFilter(Unrestricted(f.category), Unrestricted(f.paid))) then multiset(es)[e] else 0
  {
    FilteredExpenses(es, ExpenseFilter(Unrestricted(f.category), Unrestricted(f.paid)))
  }

  /** With the intended reading, choosing "all" in both selects shows every
      expense, and "all" for payment with a category shows every expense of
      that category. */
  lemma IntendedAllShowsEverything(es: seq<Expense>, category: string)
    requires category != "all"
    ensures IntendedFilteredExpenses(es, ExpenseFilter("all", "all")) == es
    ensures forall e :: e in IntendedFilteredExpenses(es, ExpenseFilter(category, "all")) <==>
              e in es && (category == "" || e.category == category)
  {
    EmptyFilterShowsAllExpenses(es);
  }

  /** `totalExpenses`: every expense counts, whatever the filter shows. */
  function TotalExpenses(es: seq<Expense>): (total: int)
    ensures (forall e :: e in es ==> e.amount >= 0) ==>
              total >= 0 && forall e :: e in es ==> e.amount <= total
  {
    SumAtLeastEach(es, Amount);
    Sum(es, Amount)
  }

  /** `remainingBudget`; negative once the expenses exceed the budget. */
  function RemainingBudget(totalBudget: int, es: seq<Expense>): (r: int)
    ensures r + TotalExpenses(es) == totalBudget
    ensures (forall e :: e in es ==> e.amount >= 0) ==> r <= totalBudget
  {
    totalBudget - TotalExpenses(es)
  }

  /** An added expense raises the total by its amount and lowers the
      remaining budget by as much. */
  lemma AddedExpenseCounts(totalBudget: int, es: seq<Expense>, e: Expense)
    ensures TotalExpenses(es + [e]) == TotalExpenses(es) + e.amount
    ensures RemainingBudget(totalBudget, es + [e]) == RemainingBudget(totalBudget, es) - e.amount
  {
    SumAppend(es, e, Amount);
  }

  /** The remaining budget can be negative: nothing stops spending beyond it. */
  lemma OverspentBudget()
    ensures RemainingBudget(0, [Expense("1", "אולם", "", 100, "", false)]) == -100
  {
    var es := [Expense("1", "אולם", "", 100, "", false)];
    assert es[1..] == [];
  }

  function InCategory(c: string): Expense -> bool {
    (e: Expense) => e.category == c
  }

  function InCategories(cats: seq<string>): Expense -> bool {
    (e: Expense) => e.category in cats
  }

  /** The amount spent in one category. */
  function CategoryTotal(es: seq<Expense>, c: string): (total: int)
    ensures (forall e :: e in es ==> e.category != c) ==> total == 0
    ensures (forall e :: e in es ==> e.amount >= 0) ==> 0 <= total <= TotalExpenses(es)
  {
    FilterSumAtMost(es, InCategory(c), Amount);
    Sum(Filter(es, InCategory(c)), Amount)
  }

  /** One slice of the pie chart. */
  datatype ChartEntry = ChartEntry(name: string, value: int)

  function Value(entry: ChartEntry): int { entry.value }

  /** `chartData`: one entry per category, in category order, holding the
      category's total. */
  function ChartData(cats: seq<string>, es: seq<Expense>): (chart: seq<ChartEntry>)
    ensures |chart| == |cats|
    ensures forall i :: 0 <= i < |cats| ==> chart[i] == ChartEntry(cats[i], CategoryTotal(es, cats[i]))
  {
    if cats == [] then [] else [ChartEntry(cats[0], CategoryTotal(es, cats[0]))] + ChartData(cats[1..], es)
  }

  /** Over duplicate-free categories the slices add up to the amount spent
      in those categories. */
  lemma {:induction false} ChartCoversCategories(cats: seq<string>, es: seq<Expense>)
    requires NoDuplicates(cats)
    ensures Sum(ChartData(cats, es), Value) == Sum(Filter(es, InCategories(cats)), Amount)
  {
    if cats == [] {
      FilterKeepsNone(es, InCategories(cats));
    } else {
      assert NoDuplicates(cats[1..]);
      ChartCoversCategories(cats[1..], es);
      assert ChartData(cats, es)[1..] == ChartData(cats[1..], es);
      SpentInFirstAndRest(cats, es);
    }
  }

  /** The amount spent in a list of categories is the amount spent in its
      first category plus the amount spent in the others. */
  lemma SpentInFirstAndRest(cats: seq<string>, es: seq<Expense>)
    requires cats != [] && NoDuplicates(cats)
    ensures Sum(Filter(es, InCategories(cats)), Amount)
            == CategoryTotal(es, cats[0]) + Sum(Filter(es, InCategories(cats[1..])), Amount)
  {
    var c, rest := cats[0], cats[1..];
    var all := Filter(es, InCategories(cats));
    var notC := (e: Expense) => e.category != c;
    SumSplit(all, InCategory(c), notC, Amount);
    FilterFilter(es, InCategories(cats), InCategory(c), InCategory(c));
    assert forall x: Expense :: InCategories(rest)(x) == (InCategories(cats)(x) && notC(x)) by {
      assert cats == [c] + rest;
      assert c !in rest;
    }
    FilterFilter(es, InCategories(cats), notC, InCategories(rest));
  }

  /** When every expense's category is in the duplicate-free category
      list, the pie chart's values add up to `totalExpenses`. */
  lemma ChartSumsToTotal(cats: seq<string>, es: seq<Expense>)
    requires NoDuplicates(cats)
    requires forall e :: e in es ==> e.category in cats
    ensures Sum(ChartData(cats, es), Value) == TotalExpenses(es)
  {
    ChartCoversCategories(cats, es);
    FilterKeepsAll(es, InCategories(cats));
  }

  /** The expense manager's state. */
  class BudgetManagement {
    var expenses: seq<Expense>
    var newExpense: ExpenseDraft
    var categories: seq<string>
    var newCategory: string
    var totalBudget: int
    var filter: ExpenseFilter

    constructor ()
      ensures expenses == [] && newExpense == EmptyExpenseDraft
      ensures categories == [] && newCategory == ""
      ensures totalBudget == 0 && filter == ExpenseFilter("", "")
    {
      expenses := [];
      newExpense := EmptyExpenseDraft;
      categories := [];
      newCategory := "";
      totalBudget := 0;
      filter := ExpenseFilter("", "");
    }

    /** The load effect, with the fetched expenses and budget as
        parameters: the categories become the distinct expense categories. */
    method Load(data: seq<Expense>, budget: int)
      modifies this`expenses, this`categories, this`totalBudget
      ensures expenses == data && totalBudget == budget
      ensures categories == InitialCategories(Map(data, Category))
      ensures NoDuplicates(categories)
      ensures forall e :: e in expenses ==> e.category in categories
    {
      expenses := data;
      categories := InitialCategories(Map(data, Category));
      totalBudget := budget;
      forall e | e in expenses ensures e.category in categories {
        var i :| 0 <= i < |data| && data[i] == e;
        assert Map(data, Category)[i] == e.category;
      }
    }

    /** `addExpense`: one unpaid expense is appended from the form, which
        is then cleared; nothing is validated. */
    method AddExpense(id: string)
      modifies this`expenses, this`newExpense
      ensures expenses == old(expenses) + [DraftToExpense(old(newExpense), id)]
      ensures newExpense == EmptyExpenseDraft
      ensures !expenses[|expenses| - 1].paid
    {
      expenses := expenses + [DraftToExpense(newExpense, id)];
      newExpense := EmptyExpenseDraft;
    }

    /** `updateExpense`: every expense with the edited expense's id is
        replaced by it; length and order are kept. */
    method UpdateExpense(updated: Expense)
      modifies this`expenses
      ensures expenses == ReplaceWhere(old(expenses), HasIdOf(updated), updated)
    {
      expenses := ReplaceWhere(expenses, HasIdOf(updated), updated);
    }

    /** `addCategory`: the form is cleared only when the name was added. */
    method AddCategory()
      modifies this`categories, this`newCategory
      ensures categories == WithCategory(old(categories), old(newCategory))
      ensures newCategory == if categories == old(categories) then old(newCategory) else ""
    {
      if newCategory != "" && newCategory !in categories {
        categories := categories + [newCategory];
        newCategory := "";
      }
    }
  }
}
