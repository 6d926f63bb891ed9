/** Normalised exchange events: candles, trades, order-book tops and the merged per-symbol snapshot. */
module MarketData {
  import opened Prelude

  datatype Candle = Candle(
    symbol: string,
    timeframe: string,
    open: real,
    high: real,
    low: real,
    close: real,
    volume: real,
    quoteVolume: real,
    openTime: int,
    closeTime: int,
    eventTime: int,
    tradeCount: int,
    isClosed: bool)

  datatype Trade = Trade(symbol: string, tradeId: int, price: real, quantity: real, eventTime: int)

  datatype Book = Book(symbol: string, bid: real, bidQuantity: real, ask: real, askQuantity: real, eventTime: int)

  /** A websocket payload after its fields were read; reading a malformed one raises. */
  datatype Payload =
    | TradeEvent(trade: Trade)
    | BookEvent(book: Book)
    | KlineEvent(kline: Candle)
    | Unsupported
    | Malformed
  {
    predicate Carries() {
      TradeEvent? || BookEvent? || KlineEvent?
    }

    function Symbol(): string
      requires Carries()
    {
      match this
      case TradeEvent(t) => t.symbol
      case BookEvent(b) => b.symbol
      case KlineEvent(c) => c.symbol
    }

    function EventTime(): int
      requires Carries()
    {
      match this
      case TradeEvent(t) => t.eventTime
      case BookEvent(b) => b.eventTime
      case KlineEvent(c) => c.eventTime
    }
  }

  datatype Snapshot = Snapshot(
    symbol: string,
    trade: Option<Trade>,
    book: Option<Book>,
    candle: Option<Candle>,
    lastPrice: Option<real>,
    bid: Option<real>,
    ask: Option<real>,
    eventTime: Option<int>,
    receivedAt: Option<int>,
    isStale: bool)

  function EmptySnapshot(symbol: string): Snapshot {
    Snapshot(symbol, None, None, None, None, None, None, None, None, false)
  }
}
