/**
 * The figures the dashboard and the charts show, computed from the signed-in
 * user's transactions: income, expense, balance and savings; the expense
 * total per category (the doughnut chart); and the total per date (the line
 * chart). Amounts are read with `parse`, which stands for `parseFloat` on
 * text that holds a finite number.
 */
module Aggregates {
  import opened Records
  import opened StringOrder

  /** Which transactions a sum takes in. */
  datatype Selector =
    | All
    | OfKind(kind: string)
    | ExpenseIn(category: string)
    | OnDate(date: string)

  predicate Selects(s: Selector, t: Transaction) {
    match s
    case All => true
    case OfKind(k) => t.kind == k
    case ExpenseIn(c) => t.kind == "expense" && t.category == c
    case OnDate(d) => t.date == d
  }

  /** The sum of the amounts of the transactions that s selects, in list order. */
  function Total(txs: seq<Transaction>, s: Selector, parse: string -> real): real
  {
    if txs == [] then 0.0
    else
      var t := txs[|txs| - 1];
      Total(txs[..|txs| - 1], s, parse) + (if Selects(s, t) then parse(t.amount) else 0.0)
  }

  lemma {:induction false} TotalAppend(a: seq<Transaction>, b: seq<Transaction>, s: Selector, parse: string -> real)
    ensures Total(a + b, s, parse) == Total(a, s, parse) + Total(b, s, parse)
    decreases |b|
  {
    if b != [] {
      var b' := b[..|b| - 1];
      assert (a + b)[..|a + b| - 1] == a + b';
      assert (a + b)[|a + b| - 1] == b[|b| - 1];
      TotalAppend(a, b', s, parse);
    } else {
      assert a + b == a;
    }
  }

  /** A sum of non-negative amounts is non-negative. */
  lemma {:induction false} TotalNonNegative(txs: seq<Transaction>, s: Selector, parse: string -> real)
    requires forall t :: t in txs ==> parse(t.amount) >= 0.0
    ensures Total(txs, s, parse) >= 0.0
  {
    if txs != [] {
      var p := txs[..|txs| - 1];
      assert forall t :: t in p ==> t in txs;
      TotalNonNegative(p, s, parse);
    }
  }

  /** What the dashboard shows. */
  datatype Totals = Totals(income: real, expense: real, balance: real, savings: real)

  /**
   * The dashboard figures: one pass over the transactions adds each amount to
   * income or expense according to the type; any other type adds to neither.
   * Savings is the balance when positive, zero otherwise.
   */
  method ComputeTotals(txs: seq<Transaction>, parse: string -> real) returns (totals: Totals)
    ensures totals.income == Total(txs, OfKind("income"), parse)
    ensures totals.expense == Total(txs, OfKind("expense"), parse)
    ensures totals.balance == totals.income - totals.expense
    ensures totals.savings >= 0.0 && totals.savings >= totals.balance
    ensures totals.savings == 0.0 || totals.savings == totals.balance
  {
    var income, expense := 0.0, 0.0;
    var i := 0;
    while i < |txs|
      invariant 0 <= i <= |txs|
      invariant income == Total(txs[..i], OfKind("income"), parse)
      invariant expense == Total(txs[..i], OfKind("expense"), parse)
    {
      var t := txs[i];
      var amt := parse(t.amount);
      if t.kind == "income" {
        income := income + amt;
      } else if t.kind == "expense" {
        expense := expense + amt;
      }
      assert txs[..i + 1][..i] == txs[..i];
      i := i + 1;
    }
    assert txs[..i] == txs;
    var balance := income - expense;
    var savings := if balance > 0.0 then balance else 0.0;
    totals := Totals(income, expense, balance, savings);
  }

  /** A transaction of a type other than "income" and "expense" moves no total. */
  lemma OtherKindIgnored(txs: seq<Transaction>, t: Transaction, parse: string -> real)
    requires t.kind != "income" && t.kind != "expense"
    ensures Total(txs + [t], OfKind("income"), parse) == Total(txs, OfKind("income"), parse)
    ensures Total(txs + [t], OfKind("expense"), parse) == Total(txs, OfKind("expense"), parse)
  {
    TotalAppend(txs, [t], OfKind("income"), parse);
    TotalAppend(txs, [t], OfKind("expense"), parse);
  }

  // ----- grouping: the category map and the date map -----

  /** The two maps the charts are drawn from. */
  datatype Grouping = ByExpenseCategory | ByDate

  /** The key a transaction is counted under, if it is counted at all. */
  function BucketOf(g: Grouping, t: Transaction): Option<string> {
    match g
    case ByExpenseCategory => if t.kind == "expense" then Some(t.category) else None
    case ByDate => Some(t.date)
  }

  /** The transactions counted under key k. */
  function Bucket(g: Grouping, k: string): Selector {
    match g
    case ByExpenseCategory => ExpenseIn(k)
    case ByDate => OnDate(k)
  }

  /** The transactions counted under some key. */
  function Covered(g: Grouping): Selector {
    match g
    case ByExpenseCategory => OfKind("expense")
    case ByDate => All
  }

  /** The keys that occur: expense categories, or dates. */
  function KeysOf(txs: seq<Transaction>, g: Grouping): set<string> {
    set t | t in txs && BucketOf(g, t).Some? :: BucketOf(g, t).value
  }

  /**
   * The map the chart loops fill: each counted transaction adds its amount to
   * the entry of its key, starting from zero for a new key.
   */
  function GroupTotals(txs: seq<Transaction>, g: Grouping, parse: string -> real): map<string, real>
  {
    if txs == [] then map[]
    else
      var m := GroupTotals(txs[..|txs| - 1], g, parse);
      var t := txs[|txs| - 1];
      match BucketOf(g, t)
      case None => m
      case Some(k) => m[k := (if k in m then m[k] else 0.0) + parse(t.amount)]
  }

  /**
   * The map's keys are exactly the keys that occur, and each value is the
   * total of the transactions under its key; a key that does not occur has
   * total zero.
   */
  lemma {:induction false} GroupTotalsMeaning(txs: seq<Transaction>, g: Grouping, parse: string -> real)
    ensures GroupTotals(txs, g, parse).Keys == KeysOf(txs, g)
    ensures forall k ::
      Total(txs, Bucket(g, k), parse)
      == var m := GroupTotals(txs, g, parse); if k in m then m[k] else 0.0
  {
    if txs != [] {
      var p := txs[..|txs| - 1];
      var t := txs[|txs| - 1];
      GroupTotalsMeaning(p, g, parse);
      GroupStep(p, t, g, parse);
      assert p + [t] == txs;
    }
  }

  /** How one more transaction changes the keys and the per-key totals. */
  lemma GroupStep(p: seq<Transaction>, t: Transaction, g: Grouping, parse: string -> real)
    ensures KeysOf(p + [t], g) == KeysOf(p, g) + (if BucketOf(g, t).Some? then {BucketOf(g, t).value} else {})
    ensures forall k ::
      Total(p + [t], Bucket(g, k), parse)
      == Total(p, Bucket(g, k), parse) + (if BucketOf(g, t) == Some(k) then parse(t.amount) else 0.0)
  {
    assert (p + [t])[..|p|] == p;
    forall x | x in p + [t] ensures x in p || x == t { }
  }

  /** GroupTotals after one more transaction, as the chart loops compute it. */
  lemma GroupTotalsSnoc(p: seq<Transaction>, t: Transaction, g: Grouping, parse: string -> real)
    ensures GroupTotals(p + [t], g, parse) ==
      var m := GroupTotals(p, g, parse);
      match BucketOf(g, t)
      case None => m
      case Some(k) => m[k := (if k in m then m[k] else 0.0) + parse(t.amount)]
  {
    assert (p + [t])[..|p|] == p;
  }

  /** The sum of m's values over the keys in ks. */
  ghost function SumOver(m: map<string, real>, ks: set<string>): real
    requires ks <= m.Keys
  {
    if ks == {} then 0.0
    else
      var k :| k in ks;
      m[k] + SumOver(m, ks - {k})
  }

  /** Any key may be taken out of the sum first. */
  lemma {:induction false} SumOverRemove(m: map<string, real>, ks: set<string>, k: string)
    requires ks <= m.Keys && k in ks
    ensures SumOver(m, ks) == m[k] + SumOver(m, ks - {k})
    decreases ks
  {
    var k' :| k' in ks && SumOver(m, ks) == m[k'] + SumOver(m, ks - {k'});
    if k' != k {
      SumOverRemove(m, ks - {k'}, k);
      SumOverRemove(m, ks - {k}, k');
      assert ks - {k'} - {k} == ks - {k} - {k'};
    }
  }

  /** The sum only looks at the values of the keys summed over. */
  lemma {:induction false} SumOverAgree(m1: map<string, real>, m2: map<string, real>, ks: set<string>)
    requires ks <= m1.Keys && ks <= m2.Keys
    requires forall k :: k in ks ==> m1[k] == m2[k]
    ensures SumOver(m1, ks) == SumOver(m2, ks)
    decreases ks
  {
    if ks != {} {
      var k :| k in ks;
      SumOverRemove(m1, ks, k);
      SumOverRemove(m2, ks, k);
      SumOverAgree(m1, m2, ks - {k});
    }
  }

  /**
   * The values of the map add up to the total of the transactions counted:
   * the category values to the expense total, the date values to the sum of
   * all amounts.
   */
  lemma {:induction false} GroupTotalsSum(txs: seq<Transaction>, g: Grouping, parse: string -> real)
    ensures SumOver(GroupTotals(txs, g, parse), GroupTotals(txs, g, parse).Keys) == Total(txs, Covered(g), parse)
  {
    if txs != [] {
      var p := txs[..|txs| - 1];
      var t := txs[|txs| - 1];
      var m := GroupTotals(p, g, parse);
      var m' := GroupTotals(txs, g, parse);
      GroupTotalsSum(p, g, parse);
      match BucketOf(g, t)
      case None =>
      case Some(k) =>
        SumOverRemove(m', m'.Keys, k);
        assert m'.Keys - {k} == m.Keys - {k};
        SumOverAgree(m, m', m.Keys - {k});
        if k in m {
          SumOverRemove(m, m.Keys, k);
        } else {
          assert m.Keys - {k} == m.Keys;
        }
    }
  }

  /**
   * The accumulation loop behind both charts: for every key the grouping
   * assigns to some transaction (an expense's category, or a date), the sum of
   * the amounts of the transactions with that key.
   */
  method Tally(txs: seq<Transaction>, g: Grouping, parse: string -> real) returns (data: map<string, real>)
    ensures data == GroupTotals(txs, g, parse)
  {
    data := map[];
    var i := 0;
    while i < |txs|
      invariant 0 <= i <= |txs|
      invariant data == GroupTotals(txs[..i], g, parse)
    {
      var t := txs[i];
      var bucket := BucketOf(g, t);
      if bucket.Some? {
        var k := bucket.value;
        data := data[k := (if k in data then data[k] else 0.0) + parse(t.amount)];
      }
      GroupTotalsSnoc(txs[..i], t, g, parse);
      assert txs[..i + 1] == txs[..i] + [t];
      i := i + 1;
    }
    assert txs[..i] == txs;
  }

  /**
   * The doughnut chart's data: keyed by exactly the categories of expense
   * transactions, each value the expense total of its category.
   */
  method CategoryBreakdown(txs: seq<Transaction>, parse: string -> real) returns (categoryData: map<string, real>)
    ensures categoryData.Keys == set t | t in txs && t.kind == "expense" :: t.category
    ensures forall c :: c in categoryData ==> categoryData[c] == Total(txs, ExpenseIn(c), parse)
    ensures SumOver(categoryData, categoryData.Keys) == Total(txs, OfKind("expense"), parse)
  {
    categoryData := Tally(txs, ByExpenseCategory, parse);
    GroupTotalsSum(txs, ByExpenseCategory, parse);
    GroupTotalsMeaning(txs, ByExpenseCategory, parse);
    assert KeysOf(txs, ByExpenseCategory) == set t | t in txs && t.kind == "expense" :: t.category;
    forall c | c in categoryData ensures categoryData[c] == Total(txs, ExpenseIn(c), parse) {
      assert Total(txs, Bucket(ByExpenseCategory, c), parse) == categoryData[c];
    }
  }

  /** The keys of a map in ascending order, as `Object.keys(m).sort()` lists them. */
  method SortKeys(keys: set<string>) returns (sorted: seq<string>)
    ensures StrictlySorted(sorted)
    ensures (set x | x in sorted) == keys
  {
    sorted := [];
    var remaining := keys;
    while remaining != {}
      invariant StrictlySorted(sorted)
      invariant (set x | x in sorted) + remaining == keys
      invariant (set x | x in sorted) !! remaining
      decreases remaining
    {
      var d :| d in remaining;
      sorted := Insert(sorted, d);
      remaining := remaining - {d};
    }
  }

  /** A row of the line chart's table: the header, then one point per date. */
  datatype Row = Header(first: string, second: string) | Point(date: string, total: real)

  /** The header row followed by one point per key, in the order given. */
  method Table(keys: seq<string>, data: map<string, real>) returns (rows: seq<Row>)
    requires forall k :: k in keys ==> k in data
    ensures |rows| == |keys| + 1 && rows[0] == Header("Date", "Total")
    ensures forall j :: 1 <= j < |rows| ==> rows[j] == Point(keys[j - 1], data[keys[j - 1]])
  {
    rows := [Header("Date", "Total")];
    var i := 0;
    while i < |keys|
      invariant 0 <= i <= |keys|
      invariant |rows| == i + 1 && rows[0] == Header("Date", "Total")
      invariant forall j :: 1 <= j <= i ==> rows[j] == Point(keys[j - 1], data[keys[j - 1]])
    {
      rows := rows + [Point(keys[i], data[keys[i]])];
      i := i + 1;
    }
  }

  /**
   * The line chart's table: the header ['Date', 'Total'], then one row per
   * distinct transaction date in ascending order, each holding the sum of the
   * amounts of all transactions on that date whatever their type.
   */
  method DateSeries(txs: seq<Transaction>, parse: string -> real) returns (rows: seq<Row>)
    ensures |rows| >= 1 && rows[0] == Header("Date", "Total")
    ensures forall i :: 1 <= i < |rows| ==> rows[i].Point?
    ensures (set i | 1 <= i < |rows| :: rows[i].date) == set t | t in txs :: t.date
    ensures forall i, j :: 1 <= i < j < |rows| ==> Less(rows[i].date, rows[j].date)
    ensures forall i :: 1 <= i < |rows| ==> rows[i].total == Total(txs, OnDate(rows[i].date), parse)
  {
    var dateData := Tally(txs, ByDate, parse);
    GroupTotalsMeaning(txs, ByDate, parse);
    assert KeysOf(txs, ByDate) == set t | t in txs :: t.date;
    assert dateData.Keys == set t | t in txs :: t.date;

    var sorted := SortKeys(dateData.Keys);

    rows := Table(sorted, dateData);

    assert (set i | 1 <= i < |rows| :: rows[i].date) == set x | x in sorted by {
      forall x | x in sorted ensures x in set i | 1 <= i < |rows| :: rows[i].date {
        var j :| 0 <= j < |sorted| && sorted[j] == x;
        assert rows[j + 1].date == x;
      }
    }
    forall i | 1 <= i < |rows| ensures rows[i].total == Total(txs, OnDate(rows[i].date), parse) {
      assert Total(txs, Bucket(ByDate, rows[i].date), parse) == dateData[rows[i].date];
    }
  }

  /** Two transactions of 20 and 30 on one date give that date a total of 50, whatever their types. */
  lemma SameDateScenario(parse: string -> real)
    requires parse("20") == 20.0 && parse("30") == 30.0
    ensures var txs := [Transaction("1", "income", "Salary", "20", "Work", "2025-01-10", ""),
                        Transaction("2", "expense", "Lunch", "30", "Food", "2025-01-10", "")];
      GroupTotals(txs, ByDate, parse) == map["2025-01-10" := 50.0]
  {
    var txs := [Transaction("1", "income", "Salary", "20", "Work", "2025-01-10", ""),
                Transaction("2", "expense", "Lunch", "30", "Food", "2025-01-10", "")];
    assert txs[..1] == [txs[0]] && [txs[0]][..0] == [];
  }
}
