/** The quote the service returns. */
module Models {

  /** MetalsLatestDto. Times are whole seconds since the Unix epoch (UTC); prices are exact
      decimal values in units of the base currency per troy ounce. */
  datatype MetalsLatestDto = MetalsLatestDto(
    baseCurrency: string,
    timestampUtc: int,
    goldPerOunce: real,
    silverPerOunce: real,
    unit: string)
}
