/**
 * The records the expense manager keeps: user accounts and one user's
 * transactions, budgets and goals. Every field the application reads from a
 * form is kept as the text it was entered as; numeric fields are turned into
 * numbers only when an aggregate is computed (see module Aggregates).
 */
module Records {

  datatype Option<+T> = None | Some(value: T)

  /** Per-user preferences; only the display currency is stored. */
  datatype Settings = Settings(baseCurrency: string)

  /** An entry of the credential store. `password` holds the encoded form. */
  datatype User = User(email: string, password: string, name: string, settings: Settings)

  /** A transaction; `kind` is the record's `type` field ("income" or "expense"). */
  datatype Transaction = Transaction(
    id: string,
    kind: string,
    title: string,
    amount: string,
    category: string,
    date: string,
    notes: string)

  datatype Budget = Budget(id: string, category: string, amount: string)

  datatype Goal = Goal(id: string, name: string, target: string, current: string, date: string)

  /** The currency every new account starts with. */
  const DefaultCurrency: string := "USD"
}
