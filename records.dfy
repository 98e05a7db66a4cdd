/** The canonical transaction record that ingestion produces. */
module Records {
  import opened Wrappers
  import opened Seqs
  import opened Dates

  /** One validated row of the expense table. Amounts are whole cents;
      a missing description is `None`. */
  datatype Record = Record(
    date: Date,
    category: string,
    amount: int,
    payment: string,
    description: Option<string>)

  function AmountOf(r: Record): int { r.amount }

  function CategoryOf(r: Record): string { r.category }

  /** The `Month` column (`Date.dt.to_period("M")`). */
  function MonthKeyOf(r: Record): MonthKey { MonthOf(r.date) }

  /** `Amount.sum()`: 0 for no records. */
  function Total(rs: seq<Record>): int {
    SumBy(rs, AmountOf)
  }
}
