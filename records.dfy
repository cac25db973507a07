/** The records the app keeps in device storage: the signed-in user and the
    transactions, with amounts as exact integers (cents) and dates reduced to
    the parts the screens read. */
module Records {
  import opened Wrappers

  /** A month as JavaScript's `Date.getMonth()` reports it: 0 is January, 11 December. */
  type Month = m: int | 0 <= m < 12

  /** A point in time: the calendar year and month (`getFullYear`, `getMonth`)
      and the timestamp in milliseconds (`getTime`). */
  datatype Date = Date(year: int, month: Month, time: int)

  /** The session user; `photo` is optional, as in the `User` interface. */
  datatype User = User(id: string, name: string, email: string, photo: Option<string>)

  /** The transaction types the register screen offers. */
  const Positive := "positive"
  const Negative := "negative"

  /** A stored transaction. `kind` is the record's `type` field: a string, so a
      value other than "positive" or "negative" is representable. */
  datatype Transaction = Transaction(
    id: string,
    name: string,
    amount: int,
    kind: string,
    category: string,
    date: Date)

  /** What one storage key holds once parsed: a user record or an array of
      transactions. */
  datatype Stored = UserRecord(user: User) | TransactionList(items: seq<Transaction>)

  /** The sum of the amounts of a list, accumulated from the front as
      `reduce((acc, t) => acc + Number(t.amount), 0)` does. */
  function SumAmounts(ts: seq<Transaction>): int
  {
    if ts == [] then 0 else SumAmounts(ts[..|ts| - 1]) + ts[|ts| - 1].amount
  }
}
