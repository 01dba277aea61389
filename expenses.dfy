/** The stored expense record (the Room entity `expenses`). */
module Expenses {
  import opened Wrappers

  /**
   * One row of the `expenses` table. `amount` is a double in the app and a
   * real here; `date` is a millisecond epoch timestamp; `category` and
   * `note` are Java strings and may be null.
   */
  datatype Expense = Expense(
    id: int,
    amount: real,
    category: Option<string>,
    date: int,
    note: Option<string>)
}
