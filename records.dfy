/**
 * The record shapes of `types.ts`. Dates arrive already parsed: the UTC
 * day of the month (`getUTCDate()`) and the timestamp (`getTime()`).
 * Money is a real number.
 */
module Records {
  import opened Wrappers

  /** A UTC day of the month. */
  type Day = d: int | 1 <= d <= 31 witness 1

  datatype Date = Date(day: Day, time: int)

  datatype Transaction = Transaction(
    avatar: string,
    name: string,
    category: string,
    date: Date,
    amount: real,
    recurring: bool)

  /** A savings pot; the pages and modals declare `theme` optional. */
  datatype Pot = Pot(name: string, target: real, total: real, theme: Option<string>)

  /** A spending budget for one category; `theme` is optional in the components. */
  datatype Budget = Budget(category: string, maximum: real, theme: Option<string>)

  datatype Bill = Bill(
    id: string,
    title: string,
    amount: real,
    dueLabel: string,
    paid: bool,
    category: string,
    date: Date)

  /** The orderings offered by the bills and transactions pages. */
  datatype SortOption = Latest | Oldest | AZ | ZA | Highest | Lowest

  /** What a number input registered with `valueAsNumber` yields: a number, or NaN when it is empty or unparsable. */
  datatype NumberField = Number(value: real) | NotANumber
}
