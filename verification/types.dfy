/**
 * The records of the finance tracker's ledger: a transaction, the settings,
 * the whole stored document, and the fields of the transaction form.
 */
module LedgerTypes {

  datatype Option<+T> = None | Some(value: T)

  /** The `type` field of a transaction: the two options of the form's type select. */
  datatype Kind = Income | Expense

  /**
   * A calendar date `YYYY-MM-DD` read as the integer YYYYMMDD (2025-10-01 is
   * 20251001). Numeric order on these integers is calendar order, so the
   * sign of `new Date(b.date) - new Date(a.date)` is the sign of `b - a`.
   */
  type Date = nat

  /** The date written `year-month-day`. */
  function DateOf(year: nat, month: nat, day: nat): Date
  {
    year * 10000 + month * 100 + day
  }

  /**
   * A stored transaction. `value` is an exact amount (for instance in cents);
   * `category` is `None` where the stored record holds `null` or no key.
   */
  datatype Transaction = Transaction(
    id: int,
    kind: Kind,
    value: int,
    date: Date,
    paymentMethod: string,
    category: Option<string>)

  datatype Settings = Settings(theme: string, userName: string)

  /** The `db` record: the whole document kept under one local-storage key. */
  datatype Db = Db(transactions: seq<Transaction>, settings: Settings)

  /**
   * The values the save handler reads from the transaction form.
   * `value` is the result of `parseFloat` on the amount field: `None` stands
   * for NaN (an empty or non-numeric field). `date` is `None` when the date
   * field is empty.
   */
  datatype Form = Form(
    kind: Kind,
    value: Option<int>,
    date: Option<Date>,
    paymentMethod: string,
    category: string)

  /** A category is recorded exactly for expenses. */
  predicate CategoryConsistent(t: Transaction)
  {
    t.category.Some? <==> t.kind == Expense
  }

  predicate AllConsistent(txs: seq<Transaction>)
  {
    forall i :: 0 <= i < |txs| ==> CategoryConsistent(txs[i])
  }

  predicate HasId(txs: seq<Transaction>, id: int)
  {
    exists i :: 0 <= i < |txs| && txs[i].id == id
  }

  /** No two transactions of the ledger share an identifier. */
  predicate UniqueIds(txs: seq<Transaction>)
  {
    forall i, j :: 0 <= i < j < |txs| ==> txs[i].id != txs[j].id
  }
}
