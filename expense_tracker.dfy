/**
 * The expense tracker of a trip: a constant list of expenses with its total,
 * the category badge colours, and the "add expense" dialog, whose submit
 * handler only logs the form, resets it and closes the dialog.
 */
module ExpenseTracker {

  datatype Expense = Expense(
    id: string,
    title: string,
    amount: int,
    category: string,
    paidBy: string,
    splitWith: seq<string>,
    date: string,
    perPerson: real)

  datatype Settlement = Settlement(from: string, to: string, amount: real)

  /** The built-in expenses; none of their figures is derived from another. */
  const Expenses: seq<Expense> := [
    Expense("1", "Hotel Booking", 450, "accommodation", "John Doe",
            ["John Doe", "Sarah Smith", "Mike Johnson", "Emily Davis"], "2024-03-10", 112.50),
    Expense("2", "Airport Transportation", 60, "transport", "Sarah Smith",
            ["John Doe", "Sarah Smith", "Mike Johnson", "Emily Davis"], "2024-03-15", 15.00),
    Expense("3", "Dinner at Sushi Bar", 120, "food", "Mike Johnson",
            ["John Doe", "Sarah Smith", "Mike Johnson"], "2024-03-16", 40.00)
  ]

  /** The built-in settlement lines: literals, not computed from the expenses. */
  const Settlements: seq<Settlement> := [
    Settlement("Sarah Smith", "John Doe", 97.50),
    Settlement("Mike Johnson", "John Doe", 72.50),
    Settlement("Emily Davis", "John Doe", 112.50)
  ]

  // ---------------------------------------------------------------------
  // Total
  // ---------------------------------------------------------------------

  /** Reference definition: the sum of the amounts. */
  function SumAmounts(es: seq<Expense>): int
  {
    if es == [] then 0 else es[0].amount + SumAmounts(es[1..])
  }

  /** `reduce((sum, expense) => sum + expense.amount, acc)`: a left fold from `acc`. */
  function ReduceAmounts(es: seq<Expense>, acc: int): int
  {
    if es == [] then acc else ReduceAmounts(es[1..], acc + es[0].amount)
  }

  lemma {:induction false} ReduceIsSum(es: seq<Expense>, acc: int)
    ensures ReduceAmounts(es, acc) == acc + SumAmounts(es)
  {
    if es != [] {
      ReduceIsSum(es[1..], acc + es[0].amount);
    }
  }

  /** `totalExpenses`: the left fold from 0, which is the sum of the amounts. */
  function TotalExpenses(es: seq<Expense>): (t: int)
    ensures t == SumAmounts(es)
  {
    ReduceIsSum(es, 0);
    ReduceAmounts(es, 0)
  }

  /** The total of two lists laid end to end is the sum of their totals. */
  lemma {:induction false} TotalAppend(a: seq<Expense>, b: seq<Expense>)
    ensures TotalExpenses(a + b) == TotalExpenses(a) + TotalExpenses(b)
  {
    if a == [] {
      assert a + b == b;
    } else {
      assert (a + b)[0] == a[0];
      assert (a + b)[1..] == a[1..] + b;
      TotalAppend(a[1..], b);
    }
  }

  /** The built-in list totals 450 + 60 + 120. */
  lemma BuiltInTotal()
    ensures TotalExpenses(Expenses) == 630
  {
  }

  // ---------------------------------------------------------------------
  // Category colours
  // ---------------------------------------------------------------------

  const OrangeCategory := "bg-orange-100 text-orange-800"
  const BlueCategory := "bg-blue-100 text-blue-800"
  const PurpleCategory := "bg-purple-100 text-purple-800"
  const GreenCategory := "bg-green-100 text-green-800"
  const GrayCategory := "bg-gray-100 text-gray-800"

  /** The categories with a colour of their own. */
  predicate KnownCategory(category: string)
  {
    category == "food" || category == "transport" || category == "accommodation" || category == "activities"
  }

  /** `getCategoryColor`: four categories get their own class, every other string gray. */
  function CategoryColor(category: string): (c: string)
    ensures c == OrangeCategory <==> category == "food"
    ensures c == BlueCategory <==> category == "transport"
    ensures c == PurpleCategory <==> category == "accommodation"
    ensures c == GreenCategory <==> category == "activities"
    ensures c == GrayCategory <==> !KnownCategory(category)
  {
    match category
    case "food" => OrangeCategory
    case "transport" => BlueCategory
    case "accommodation" => PurpleCategory
    case "activities" => GreenCategory
    case _ => GrayCategory
  }

  /** The options the category select offers (`food` first, `other` last). */
  const CategoryOptions: seq<string> := ["food", "transport", "accommodation", "activities", "other"]

  /** The offered options get five classes of which only `other`'s is the gray default. */
  lemma OfferedCategoryColors()
    ensures CategoryColor(CategoryOptions[4]) == GrayCategory
    ensures forall i, j :: 0 <= i < j < 4 ==> CategoryColor(CategoryOptions[i]) != CategoryColor(CategoryOptions[j])
    ensures forall i :: 0 <= i < 4 ==> CategoryColor(CategoryOptions[i]) != GrayCategory
  {
  }

  // ---------------------------------------------------------------------
  // The add-expense dialog
  // ---------------------------------------------------------------------

  /** The dialog's form; the amount is the raw text of the number input. */
  datatype ExpenseForm = ExpenseForm(
    title: string,
    amount: string,
    category: string,
    paidBy: string,
    splitWith: seq<string>)

  const InitialForm := ExpenseForm("", "", "food", "you", [])

  /** The state of the expense tracker. The lists are the built-in literals: no handler can change them. */
  class ExpenseTrackerPanel {
    const expenses: seq<Expense> := Expenses
    const settlements: seq<Settlement> := Settlements
    var showAddExpense: bool
    var expenseForm: ExpenseForm

    constructor ()
      ensures expenses == Expenses && settlements == Settlements
      ensures !showAddExpense && expenseForm == InitialForm
    {
      showAddExpense := false;
      expenseForm := InitialForm;
    }

    /** The "Total Expenses" card: the sum of the built-in amounts, 630. */
    function Total(): (t: int)
      ensures t == SumAmounts(expenses)
      ensures t == 630
    {
      BuiltInTotal();
      TotalExpenses(expenses)
    }

    /** The "Settlements" card shows how many settlement lines there are: three. */
    function SettlementCount(): (n: nat)
      ensures n == 3
    {
      |settlements|
    }

    /** The "Add Expense" button opens the dialog. */
    method OpenAddExpense()
      modifies this`showAddExpense
      ensures showAddExpense
    {
      showAddExpense := true;
    }

    /** The dialog's "Cancel" button closes it and keeps what was typed. */
    method CancelAddExpense()
      modifies this`showAddExpense
      ensures !showAddExpense
    {
      showAddExpense := false;
    }

    /** The `onChange` of the title input. */
    method UpdateTitle(value: string)
      modifies this`expenseForm
      ensures expenseForm == old(expenseForm).(title := value)
    {
      expenseForm := expenseForm.(title := value);
    }

    /** The `onChange` of the amount input. */
    method UpdateAmount(value: string)
      modifies this`expenseForm
      ensures expenseForm == old(expenseForm).(amount := value)
    {
      expenseForm := expenseForm.(amount := value);
    }

    /** The `onChange` of the category select. */
    method UpdateCategory(value: string)
      modifies this`expenseForm
      ensures expenseForm == old(expenseForm).(category := value)
    {
      expenseForm := expenseForm.(category := value);
    }

    /**
     * `handleAddExpense`: hands the current form to the log, closes the
     * dialog and puts the form back to its initial value. Only these two
     * fields may change; the expense and settlement lists stay as they are.
     */
    method HandleAddExpense() returns (logged: ExpenseForm)
      modifies this`showAddExpense, this`expenseForm
      ensures logged == old(expenseForm)
      ensures !showAddExpense
      ensures expenseForm == InitialForm
      // Holds in every state: the lists are `const` fields, which is what keeps them untouched.
      ensures Total() == 630 && SettlementCount() == 3
    {
      logged := expenseForm;
      showAddExpense := false;
      expenseForm := InitialForm;
    }
  }
}
