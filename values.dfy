/** Values the ticker widget receives from the market-data endpoint. */
module TickerValues {

  datatype Option<+T> = None | Some(value: T)

  /** One element of the endpoint's `entry` list. The browser turns the raw
      fields into numbers when it renders them: `current` with `Number(...)`,
      `change_percent` with `parseFloat(...)`. `None` stands for a conversion
      that yields NaN; the decimal formatting of the numbers is not modelled. */
  datatype Quote = Quote(symbol: string, current: Option<real>, changePercent: Option<real>)
}
