/**
 * The expense-tracker component's state: the ledger and the entry form's
 * fields, updated in place by the form's handlers and by the add and delete
 * actions. The clock, the date formatter and the number parser are outside
 * the model: `Add` takes their results as parameters.
 */
module Tracker {
  import opened Ledger
  import opened Aggregates

  class ExpenseTracker {
    var transactions: seq<Transaction>
    var description: string
    /** The amount field exactly as typed; it is parsed only when a record is added. */
    var amount: string
    var kind: Kind
    var category: Category

    /** The component's initial state: an empty ledger and an empty expense form. */
    constructor ()
      ensures transactions == []
      ensures description == "" && amount == ""
      ensures kind == Expense && category == General
    {
      transactions := [];
      description := "";
      amount := "";
      kind := Expense;
      category := General;
    }

    method SetDescription(text: string)
      modifies this
      ensures description == text
      ensures transactions == old(transactions) && amount == old(amount)
      ensures kind == old(kind) && category == old(category)
    {
      description := text;
    }

    method SetAmount(text: string)
      modifies this
      ensures amount == text
      ensures transactions == old(transactions) && description == old(description)
      ensures kind == old(kind) && category == old(category)
    {
      amount := text;
    }

    method SetKind(k: Kind)
      modifies this
      ensures kind == k
      ensures transactions == old(transactions)
      ensures description == old(description) && amount == old(amount)
      ensures category == old(category)
    {
      kind := k;
    }

    method SetCategory(c: Category)
      modifies this
      ensures category == c
      ensures transactions == old(transactions)
      ensures description == old(description) && amount == old(amount)
      ensures kind == old(kind)
    {
      category := c;
    }

    /**
     * The add action. With an empty description or an empty amount field it
     * does nothing. Otherwise it appends one record built from the form,
     * with the parsed magnitude negated for an expense, and clears the two
     * text fields. `now` is the clock reading used as the id, `magnitude`
     * the parsed amount field and `date` the formatted current date.
     */
    method Add(now: int, magnitude: real, date: string)
      modifies this
      ensures kind == old(kind) && category == old(category)
      ensures old(description) == "" || old(amount) == "" ==>
        && transactions == old(transactions)
        && description == old(description)
        && amount == old(amount)
      ensures old(description) != "" && old(amount) != "" ==>
        && transactions == old(transactions) + [Transaction(
             now,
             old(description),
             if old(kind) == Expense then -magnitude else magnitude,
             old(category),
             date)]
        && description == ""
        && amount == ""
    {
      if description == "" || amount == "" {
        return;
      }
      var signed := if kind == Expense then -magnitude else magnitude;
      var record := Transaction(now, description, signed, category, date);
      transactions := transactions + [record];
      description := "";
      amount := "";
    }

    /**
     * The delete action: keeps exactly the records whose id differs from
     * `id`, in their order, and leaves the form alone.
     */
    method Delete(id: int)
      modifies this
      ensures transactions == Without(old(transactions), id)
      ensures description == old(description) && amount == old(amount)
      ensures kind == old(kind) && category == old(category)
    {
      transactions := Filter(transactions, IdOtherThan(id));
    }
  }

  /** Entering rent as an expense of 1000, then deleting it again. */
  method RentScenario() {
    var tracker := new ExpenseTracker();
    tracker.SetDescription("Rent");
    tracker.SetAmount("1000");
    tracker.Add(1, 1000.0, "1.1.2025");
    var rent := Transaction(1, "Rent", -1000.0, General, "1.1.2025");
    assert tracker.transactions == [] + [rent];
    AppendEffects([], rent);
    assert Balance(tracker.transactions) == -1000.0;
    assert TotalExpenses(tracker.transactions) == 1000.0;
    assert TotalIncome(tracker.transactions) == 0.0;

    tracker.Delete(1);
    DeleteUnique([rent], 1, 0);
    assert tracker.transactions == [];
    assert Balance(tracker.transactions) == 0.0;
  }

  /** Entering a salary of 5000 as income and then rent of 1000 as an expense. */
  method SalaryAndRentScenario() {
    var tracker := new ExpenseTracker();
    tracker.SetDescription("Salary");
    tracker.SetAmount("5000");
    tracker.SetKind(Income);
    tracker.Add(2, 5000.0, "1.1.2025");
    tracker.SetDescription("Rent");
    tracker.SetAmount("1000");
    tracker.SetKind(Expense);
    tracker.Add(3, 1000.0, "1.1.2025");
    var salary := Transaction(2, "Salary", 5000.0, General, "1.1.2025");
    var rent := Transaction(3, "Rent", -1000.0, General, "1.1.2025");
    assert tracker.transactions == [] + [salary] + [rent];
    AppendEffects([], salary);
    AppendEffects([] + [salary], rent);
    assert Balance(tracker.transactions) == 4000.0;

    // With the description cleared by the last add, a further add is ignored.
    tracker.SetAmount("10");
    tracker.Add(4, 10.0, "1.1.2025");
    assert |tracker.transactions| == 2;
  }
}
