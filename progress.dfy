/**
 * Progress figures of the budgets page and the goals page: how much of a
 * budget the expenses of its category have used, with the colour the bar
 * takes, and how far a savings goal has come. Amounts are read with `parse`,
 * standing for `parseFloat`; a budget amount or goal target must be positive,
 * since the source divides by it.
 */
module Progress {
  import opened Records
  import opened Aggregates

  /** Math.min of two numbers. */
  function Min(a: real, b: real): (m: real)
    ensures m <= a && m <= b
    ensures m == a || m == b
  {
    if a <= b then a else b
  }

  /** The share of the budget spent, in percent, capped at 100. */
  function BudgetPercent(spent: real, amount: real): (percent: real)
    requires amount > 0.0
    ensures percent <= 100.0
    ensures spent >= 0.0 ==> percent >= 0.0
    ensures spent <= amount ==> percent * amount == spent * 100.0
    ensures spent >= amount ==> percent == 100.0
  {
    Min(100.0, spent / amount * 100.0)
  }

  /** The CSS class of the progress bar. */
  function ColorClass(percent: real): (c: string)
    ensures c == "danger" <==> percent > 90.0
    ensures c == "warning" <==> 70.0 < percent <= 90.0
    ensures c == "" <==> percent <= 70.0
  {
    if percent > 90.0 then "danger" else if percent > 70.0 then "warning" else ""
  }

  /** The fill colour of the progress bar: red, amber, or the theme's purple. */
  function BarColor(percent: real): (color: string)
    ensures color == "#ef4444" <==> percent > 90.0
    ensures color == "#f59e0b" <==> 70.0 < percent <= 90.0
    ensures color == "#6750A4" <==> percent <= 70.0
  {
    if percent > 90.0 then "#ef4444" else if percent > 70.0 then "#f59e0b" else "#6750A4"
  }

  /** The bar colour follows the same thresholds as the CSS class. */
  lemma BarColorFollowsClass(percent: real)
    ensures BarColor(percent) == "#ef4444" <==> ColorClass(percent) == "danger"
    ensures BarColor(percent) == "#f59e0b" <==> ColorClass(percent) == "warning"
    ensures BarColor(percent) == "#6750A4" <==> ColorClass(percent) == ""
  {
  }

  /** One entry of the budgets page. */
  datatype BudgetLine = BudgetLine(category: string, spent: real, percent: real, colorClass: string, barColor: string)

  /**
   * The entry for budget b: the expenses of b's category against b's amount.
   * The spent figure is the value the category chart shows for that category
   * (zero when the category has no expense).
   */
  function BudgetLineOf(txs: seq<Transaction>, b: Budget, parse: string -> real): (line: BudgetLine)
    requires parse(b.amount) > 0.0
    ensures line.category == b.category
    ensures var m := GroupTotals(txs, ByExpenseCategory, parse);
      line.spent == if b.category in m then m[b.category] else 0.0
    ensures line.spent == Total(txs, ExpenseIn(b.category), parse)
    ensures line.percent == BudgetPercent(line.spent, parse(b.amount))
    ensures line.percent <= 100.0
    ensures line.colorClass == ColorClass(line.percent) && line.barColor == BarColor(line.percent)
  {
    GroupTotalsMeaning(txs, ByExpenseCategory, parse);
    assert Bucket(ByExpenseCategory, b.category) == ExpenseIn(b.category);
    var spent := Total(txs, ExpenseIn(b.category), parse);
    var percent := BudgetPercent(spent, parse(b.amount));
    BudgetLine(b.category, spent, percent, ColorClass(percent), BarColor(percent))
  }

  /** A new expense in the budget's category adds its amount to what is spent. */
  lemma SpentGrows(txs: seq<Transaction>, t: Transaction, b: Budget, parse: string -> real)
    requires parse(b.amount) > 0.0
    requires t.kind == "expense" && t.category == b.category
    ensures BudgetLineOf(txs + [t], b, parse).spent == BudgetLineOf(txs, b, parse).spent + parse(t.amount)
  {
    TotalAppend(txs, [t], ExpenseIn(b.category), parse);
    assert [t][..0] == [];
  }

  /** Math.round: the nearest integer, halves rounded up. */
  function Round(x: real): (r: int)
    ensures r as real - 0.5 <= x < r as real + 0.5
  {
    (x + 0.5).Floor
  }

  /** A goal's progress in whole percent: rounded first, then capped at 100. */
  function GoalPercent(current: real, target: real): (percent: int)
    requires target > 0.0
    ensures percent <= 100
    ensures current >= 0.0 ==> percent >= 0
    ensures current >= target ==> percent == 100
    ensures current < target ==> percent as real - 0.5 <= current / target * 100.0 < percent as real + 0.5
  {
    var rounded := Round(current / target * 100.0);
    if rounded <= 100 then rounded else 100
  }

  /** Rounding before or after capping at 100 gives the same percentage. */
  lemma CapThenRoundAgrees(current: real, target: real)
    requires target > 0.0
    ensures GoalPercent(current, target) == Round(Min(100.0, current / target * 100.0))
  {
    var x := current / target * 100.0;
    if x > 100.0 {
      assert Round(x) >= 100;
      assert Round(100.0) == 100;
    }
  }

  /** The goal entry for g, its amounts read with parse. */
  function GoalPercentOf(g: Goal, parse: string -> real): (percent: int)
    requires parse(g.target) > 0.0
    ensures percent <= 100
    ensures parse(g.current) >= parse(g.target) ==> percent == 100
    ensures parse(g.current) < parse(g.target) ==>
      percent as real - 0.5 <= parse(g.current) / parse(g.target) * 100.0 < percent as real + 0.5
  {
    GoalPercent(parse(g.current), parse(g.target))
  }

  /** An expense of 50 in "Food" against a "Food" budget of 100: half spent, no warning. */
  lemma BudgetScenario(parse: string -> real)
    requires parse("50") == 50.0 && parse("100") == 100.0
    ensures var line := BudgetLineOf([Transaction("1", "expense", "Lunch", "50", "Food", "2025-01-10", "")],
                                     Budget("2", "Food", "100"), parse);
      line.spent == 50.0 && line.percent == 50.0 && line.colorClass == ""
  {
    var txs := [Transaction("1", "expense", "Lunch", "50", "Food", "2025-01-10", "")];
    assert txs[..0] == [];
    assert Total(txs, ExpenseIn("Food"), parse) == 50.0;
  }
}
