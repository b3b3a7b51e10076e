/** The record shapes of src/types.ts. Optional fields that the code reads through `||` are
    `Option`s; `isMock?: boolean` is a `bool` whose `false` stands for "not set" (both are falsy). */
module Types {
  import opened Wrappers

  datatype Currency = USD | JPY

  /** A holding as the user entered it. */
  datatype Stock = Stock(
    id: string,
    symbol: string,
    quantity: real,
    purchasePrice: Option<real>,
    userSector: Option<string>,
    currency: Option<Currency>)

  /** A quote as the client service returns it. */
  datatype StockData = StockData(
    symbol: string,
    price: real,
    changePercent: real,
    previousClose: real,
    sector: string,
    isMock: bool)

  /** One line of the portfolio table: the holding's fields, the quote's fields, and the derived values. */
  datatype PortfolioItem = PortfolioItem(
    id: string,
    symbol: string,
    quantity: real,
    purchasePrice: Option<real>,
    userSector: Option<string>,
    currency: Option<Currency>,
    price: real,
    changePercent: real,
    previousClose: real,
    sector: string,
    isMock: bool,
    currentPrice: real,
    value: real,
    valueInBaseCurrency: real,
    dayChangeValue: real,
    dayChangeValueInBaseCurrency: real,
    dayChangePercent: real)

  datatype Summary = Summary(totalValue: real, totalDayChangeValue: real, totalDayChangePercent: real)

  datatype SectorAlloc = SectorAlloc(name: string, value: real)
}
