/**
 * The historical price source the simulators consult once per month. Its data
 * is outside this model: it is a function from (month, previous month) to the
 * percent change of the stock index between them, or None where the data does
 * not cover those months.
 */
module StockData {
  import opened Calendar

  datatype Option<T> = None | Some(value: T)

  /** calculatePercentChange(current, previous); None stands for its IllegalArgumentException. */
  type PercentChangeLookup = (YearMonth, YearMonth) -> Option<real>
}
