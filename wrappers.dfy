/** Option and Result, and the configuration and lookup errors of the engine. */
module Wrappers {

  datatype Option<T> = None | Some(value: T)

  /** The ways building a statement or a valuation can fail. */
  datatype Error =
    | UnsortedDates       // a date list that is not strictly chronological
    | IncomeBalanceDates  // the actual income statement and balance sheet cover different dates
    | OverlappingDates    // attaching two statements that share a date
    | EmptyHistory        // no actual period to take the latest value from
    | EmptyForecast       // `[-1]` of an empty forecast horizon
    | MissingDate         // a lookup of a date the series does not hold

  datatype Result<T> = Ok(value: T) | Err(error: Error)
}
