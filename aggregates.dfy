/**
 * The aggregator: balance, total income, total expenses and the six-bucket
 * trend series, all recomputed from the ledger on every call. Amounts are
 * exact reals, so the identities below hold without rounding.
 */
module Aggregates {
  import opened Ledger

  /** The sum of the amounts, accumulated from the left as `reduce` does from 0. */
  function Total(s: seq<Transaction>): real {
    if s == [] then 0.0 else Total(s[..|s| - 1]) + s[|s| - 1].amount
  }

  function Abs(x: real): real {
    if x < 0.0 then -x else x
  }

  /** The balance card: the signed sum of every amount. */
  function Balance(s: seq<Transaction>): real {
    Total(s)
  }

  /** Total income: the sum of the positive amounts only, never negative. */
  function TotalIncome(s: seq<Transaction>): (r: real)
    ensures r >= 0.0
  {
    TotalOfNonNegative(Filter(s, Gain));
    Total(Filter(s, Gain))
  }

  /**
   * Total expenses: the absolute value of the sum of the negative amounts,
   * which is that sum negated, and so never negative.
   */
  function TotalExpenses(s: seq<Transaction>): (r: real)
    ensures r >= 0.0
    ensures r == -Total(Filter(s, Loss))
  {
    TotalOfNonPositive(Filter(s, Loss));
    Abs(Total(Filter(s, Loss)))
  }

  lemma {:induction false} TotalOfNonNegative(s: seq<Transaction>)
    requires forall i :: 0 <= i < |s| ==> s[i].amount >= 0.0
    ensures Total(s) >= 0.0
  {
    if s != [] {
      TotalOfNonNegative(s[..|s| - 1]);
    }
  }

  lemma {:induction false} TotalOfNonPositive(s: seq<Transaction>)
    requires forall i :: 0 <= i < |s| ==> s[i].amount <= 0.0
    ensures Total(s) <= 0.0
  {
    if s != [] {
      TotalOfNonPositive(s[..|s| - 1]);
    }
  }

  /** Summing one more record at the end adds exactly its amount. */
  lemma TotalSnoc(s: seq<Transaction>, t: Transaction)
    ensures Total(s + [t]) == Total(s) + t.amount
  {
    assert (s + [t])[..|s + [t]| - 1] == s;
  }

  /** The total of a concatenation is the sum of the totals. */
  lemma {:induction false} TotalConcat(a: seq<Transaction>, b: seq<Transaction>)
    ensures Total(a + b) == Total(a) + Total(b)
  {
    if b == [] {
      assert a + b == a;
    } else {
      var init, last := b[..|b| - 1], b[|b| - 1];
      assert b == init + [last];
      assert a + b == (a + init) + [last];
      TotalConcat(a, init);
      TotalSnoc(a + init, last);
    }
  }

  /**
   * Appending a record moves the balance by its amount, and moves income or
   * expenses (never both) by its magnitude according to its sign.
   */
  lemma AppendEffects(s: seq<Transaction>, t: Transaction)
    ensures Balance(s + [t]) == Balance(s) + t.amount
    ensures TotalIncome(s + [t]) == TotalIncome(s) + (if t.amount > 0.0 then t.amount else 0.0)
    ensures TotalExpenses(s + [t]) == TotalExpenses(s) + (if t.amount < 0.0 then -t.amount else 0.0)
  {
    TotalSnoc(s, t);
    FilterSnoc(s, t, Gain);
    FilterSnoc(s, t, Loss);
    if t.amount > 0.0 {
      TotalSnoc(Filter(s, Gain), t);
    } else if t.amount < 0.0 {
      TotalSnoc(Filter(s, Loss), t);
    }
  }

  /** The balance is always income minus expenses. */
  lemma {:induction false} BalanceIsIncomeMinusExpenses(s: seq<Transaction>)
    ensures Balance(s) == TotalIncome(s) - TotalExpenses(s)
  {
    if s != [] {
      var init, last := s[..|s| - 1], s[|s| - 1];
      assert s == init + [last];
      BalanceIsIncomeMinusExpenses(init);
      AppendEffects(init, last);
    }
  }

  /**
   * Deleting an id that exactly one record carries takes that record's amount
   * off the balance.
   */
  lemma DeleteUniqueBalance(s: seq<Transaction>, id: int, k: int)
    requires 0 <= k < |s| && s[k].id == id
    requires forall j :: 0 <= j < |s| && j != k ==> s[j].id != id
    ensures Balance(Without(s, id)) == Balance(s) - s[k].amount
  {
    DeleteUnique(s, id, k);
    assert s == s[..k] + [s[k]] + s[k + 1..];
    TotalConcat(s[..k], s[k + 1..]);
    TotalConcat(s[..k] + [s[k]], s[k + 1..]);
    TotalSnoc(s[..k], s[k]);
  }

  /** The six month labels of the trend chart, January to June, in order. */
  datatype Month = January | February | March | April | May | June

  const Months: seq<Month> := [January, February, March, April, May, June]

  /** One point of the trend chart: its month label and the two plotted values. */
  datatype TrendPoint = TrendPoint(name: Month, expenses: real, income: real)

  /** One point per month label, each carrying the same two values. */
  function Spread(months: seq<Month>, expenses: real, income: real): (r: seq<TrendPoint>)
    ensures |r| == |months|
    ensures forall i :: 0 <= i < |r| ==> r[i] == TrendPoint(months[i], expenses, income)
  {
    if months == [] then []
    else [TrendPoint(months[0], expenses, income)] + Spread(months[1..], expenses, income)
  }

  /**
   * The trend series: exactly six points labelled January to June, each
   * holding total expenses and total income divided by the number of months,
   * whatever the transactions' dates.
   */
  function Trends(s: seq<Transaction>): (r: seq<TrendPoint>)
    ensures |r| == 6
    ensures forall i :: 0 <= i < |r| ==>
      && r[i].name == Months[i]
      && r[i].expenses == TotalExpenses(s) / 6.0
      && r[i].income == TotalIncome(s) / 6.0
  {
    var n := |Months| as real;
    Spread(Months, TotalExpenses(s) / n, TotalIncome(s) / n)
  }

  function ExpensesPlotted(r: seq<TrendPoint>): real {
    if r == [] then 0.0 else r[0].expenses + ExpensesPlotted(r[1..])
  }

  function IncomePlotted(r: seq<TrendPoint>): real {
    if r == [] then 0.0 else r[0].income + IncomePlotted(r[1..])
  }

  lemma {:induction false} SpreadPlotted(months: seq<Month>, expenses: real, income: real)
    ensures ExpensesPlotted(Spread(months, expenses, income)) == |months| as real * expenses
    ensures IncomePlotted(Spread(months, expenses, income)) == |months| as real * income
  {
    if months != [] {
      SpreadPlotted(months[1..], expenses, income);
    }
  }

  /**
   * The series splits the totals evenly: its six expense values add up to
   * total expenses and its six income values to total income.
   */
  lemma TrendsAddUpToTotals(s: seq<Transaction>)
    ensures ExpensesPlotted(Trends(s)) == TotalExpenses(s)
    ensures IncomePlotted(Trends(s)) == TotalIncome(s)
  {
    SpreadPlotted(Months, TotalExpenses(s) / 6.0, TotalIncome(s) / 6.0);
  }
}
