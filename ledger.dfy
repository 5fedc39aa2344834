/**
 * The ledger of the expense tracker: the transaction record, the fixed set of
 * category keys, and the order-preserving filter that both deletion and the
 * aggregates are built on.
 */
module Ledger {

  /** The eight category keys offered by the entry form; `General` is the default. */
  datatype Category =
    | General | Food | Transportation | Housing
    | Utilities | Entertainment | Healthcare | Savings

  /** The entry form's type selector: an expense or an income. */
  datatype Kind = Expense | Income

  /**
   * One recorded transaction. The sign of `amount` carries the direction:
   * negative for an expense, positive for an income. `date` is the
   * locale-formatted creation date, kept as an opaque string.
   */
  datatype Transaction = Transaction(
    id: int,
    description: string,
    amount: real,
    category: Category,
    date: string)

  /** The three filter conditions the tracker applies to its ledger. */
  datatype Criterion =
    | Gain             // amount > 0, the records counted as income
    | Loss             // amount < 0, the records counted as expenses
    | IdOtherThan(id: int)  // the records a delete of `id` keeps

  predicate Satisfies(t: Transaction, c: Criterion) {
    match c
    case Gain => t.amount > 0.0
    case Loss => t.amount < 0.0
    case IdOtherThan(id) => t.id != id
  }

  /**
   * The records of `s` that satisfy `c`, in their original order, built up
   * from the front of the sequence as a left-to-right scan does.
   */
  function Filter(s: seq<Transaction>, c: Criterion): (r: seq<Transaction>)
    ensures |r| <= |s|
    ensures forall i :: 0 <= i < |r| ==> Satisfies(r[i], c)
    ensures forall t :: t in r <==> t in s && Satisfies(t, c)
  {
    if s == [] then []
    else
      var init := Filter(s[..|s| - 1], c);
      var last := s[|s| - 1];
      assert s == s[..|s| - 1] + [last];
      if Satisfies(last, c) then init + [last] else init
  }

  /** The ledger after deleting `id`: every record whose id equals `id` is gone. */
  function Without(s: seq<Transaction>, id: int): (r: seq<Transaction>)
    ensures forall t :: t in r <==> t in s && t.id != id
  {
    Filter(s, IdOtherThan(id))
  }

  /** The number of records of `s` whose id is `id`. */
  function CountId(s: seq<Transaction>, id: int): nat {
    if s == [] then 0
    else CountId(s[..|s| - 1], id) + (if s[|s| - 1].id == id then 1 else 0)
  }

  /** Filtering one record appended at the end decides only about that record. */
  lemma FilterSnoc(s: seq<Transaction>, t: Transaction, c: Criterion)
    ensures Filter(s + [t], c) == Filter(s, c) + (if Satisfies(t, c) then [t] else [])
  {
    assert (s + [t])[..|s + [t]| - 1] == s;
  }

  /** Filtering distributes over concatenation, so relative order is kept. */
  lemma {:induction false} FilterConcat(a: seq<Transaction>, b: seq<Transaction>, c: Criterion)
    ensures Filter(a + b, c) == Filter(a, c) + Filter(b, c)
  {
    if b == [] {
      assert a + b == a;
    } else {
      var init, last := b[..|b| - 1], b[|b| - 1];
      assert b == init + [last];
      assert a + b == (a + init) + [last];
      FilterConcat(a, init, c);
      FilterSnoc(a + init, last, c);
      FilterSnoc(init, last, c);
    }
  }

  /** A filter that every record passes changes nothing. */
  lemma {:induction false} FilterKeepsAll(s: seq<Transaction>, c: Criterion)
    requires forall i :: 0 <= i < |s| ==> Satisfies(s[i], c)
    ensures Filter(s, c) == s
  {
    if s != [] {
      FilterKeepsAll(s[..|s| - 1], c);
      assert s == s[..|s| - 1] + [s[|s| - 1]];
    }
  }

  /** Filtering twice by the same condition is filtering once. */
  lemma {:induction false} FilterIdempotent(s: seq<Transaction>, c: Criterion)
    ensures Filter(Filter(s, c), c) == Filter(s, c)
  {
    FilterKeepsAll(Filter(s, c), c);
  }

  /** Deleting an id that no record carries leaves the ledger as it was. */
  lemma DeleteAbsent(s: seq<Transaction>, id: int)
    requires forall t :: t in s ==> t.id != id
    ensures Without(s, id) == s
  {
    FilterKeepsAll(s, IdOtherThan(id));
  }

  /** Deleting twice is deleting once. */
  lemma DeleteIdempotent(s: seq<Transaction>, id: int)
    ensures Without(Without(s, id), id) == Without(s, id)
  {
    FilterIdempotent(s, IdOtherThan(id));
  }

  /** A delete shortens the ledger by exactly the number of records carrying the id. */
  lemma {:induction false} DeleteLength(s: seq<Transaction>, id: int)
    ensures |Without(s, id)| == |s| - CountId(s, id)
  {
    if s != [] {
      var init, last := s[..|s| - 1], s[|s| - 1];
      assert s == init + [last];
      DeleteLength(init, id);
      FilterSnoc(init, last, IdOtherThan(id));
    }
  }

  /**
   * When exactly one record, at index k, carries the id, a delete removes that
   * record and keeps all the others in order.
   */
  lemma DeleteUnique(s: seq<Transaction>, id: int, k: int)
    requires 0 <= k < |s| && s[k].id == id
    requires forall j :: 0 <= j < |s| && j != k ==> s[j].id != id
    ensures Without(s, id) == s[..k] + s[k + 1..]
    ensures |Without(s, id)| == |s| - 1
  {
    var c := IdOtherThan(id);
    var before, after := s[..k], s[k + 1..];
    assert s == before + [s[k]] + after;
    forall i | 0 <= i < |before| ensures Satisfies(before[i], c) {
      assert before[i] == s[i];
    }
    forall i | 0 <= i < |after| ensures Satisfies(after[i], c) {
      assert after[i] == s[k + 1 + i];
    }
    FilterKeepsAll(before, c);
    FilterKeepsAll(after, c);
    FilterSnoc(before, s[k], c);
    FilterConcat(before + [s[k]], after, c);
  }
}
