/** The parts of the brokerage's records that the decision core reads: contracts,
    portfolio items (one position of the account) and resting orders. The brokerage
    session that supplies them is outside this model. */
module Broker {

  /** The right of an option contract. */
  datatype Right = Put | Call

  /** A contract held in the portfolio: the underlying stock, or an option on it.
      The expiration is an opaque key that is only ever compared for equality. */
  datatype Contract =
    | Stock
    | OptionContract(expiration: string, strike: real, right: Right, multiplier: nat)

  /** One position of the account. `position` is the signed quantity (negative is
      short); `averageCost` is the cost basis per unit as the brokerage reports it,
      which for options already includes the contract multiplier. */
  datatype PortfolioItem = PortfolioItem(
    contract: Contract,
    position: real,
    averageCost: real,
    unrealizedPnl: real)

  /** The side of an order. */
  datatype Action = Buy | Sell

  /** A resting limit order; the limit price of a combo order may be negative. */
  datatype Order = Order(action: Action, lmtPrice: real)
}
