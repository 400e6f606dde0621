/** The domain records shared by the handlers (internal/models/models.go). */
module Models {
  import opened Wrappers
  import opened Calendar

  type UserId = string

  datatype Broker = Alpaca | Oanda | Questrade

  datatype Side = Buy | Sell

  datatype OrderType = Market | Limit

  /** Money is `real`: rounding of float64 is not modelled. */
  datatype Account = Account(id: string, broker: Broker, currency: string,
                             equity: real, buyingPower: real, cash: real)

  datatype DayTrade = DayTrade(id: string, userId: UserId, broker: Broker, symbol: string, tradeDate: Instant)

  datatype Order = Order(userId: UserId, broker: Broker, symbol: string, side: Side, kind: OrderType,
                         quantity: real, limitPrice: Option<real>, status: string, brokerOrderId: string)
}
