/** The immutable events and enumerations exchanged on the bus (libs/schemas).
    Decimal prices, sizes and USD amounts are exact reals. */
module Schemas {

  datatype Option<+T> = None | Some(value: T)

  datatype Direction = Long | Short | Flat

  datatype Side = Buy | Sell

  datatype ExitReason = StopLoss | TakeProfit | TrailingStop | SignalReversal | Manual | Unknown

  type Symbol = string

  /** An order accepted for execution; `reduceOnly` marks the monitor's exits. */
  datatype Order = Order(
    id: nat,
    symbol: Symbol,
    side: Side,
    size: real,
    reduceOnly: bool,
    stopPrice: Option<real>,
    takeProfitPrice: Option<real>,
    trailingStopPct: Option<real>,
    exitReason: Option<ExitReason>)

  /** A completed execution. */
  datatype Fill = Fill(
    orderId: nat,
    symbol: Symbol,
    side: Side,
    size: real,
    price: real,
    fee: real)
  {
    /** The field bounds the event schema enforces. */
    predicate Valid() {
      size > 0.0 && price > 0.0 && fee >= 0.0
    }

    function Direction(): Direction {
      if side == Buy then Long else Short
    }

    /** Base-asset quantity with the sign of the side. */
    function SignedSize(): real {
      if side == Buy then size else -size
    }
  }

  /** An open position as the portfolio manager reports it. */
  datatype Position = Position(
    direction: Direction,
    size: real,
    entryPrice: real,
    markPrice: real,
    realizedPnl: real,
    feesPaid: real,
    stopPrice: Option<real>,
    takeProfitPrice: Option<real>,
    trailingStopPct: Option<real>)
  {
    predicate Valid() {
      direction != Flat && size > 0.0 && entryPrice > 0.0 && markPrice > 0.0
    }

    function SignedSize(): real {
      size * Sign(direction)
    }

    function Notional(): real {
      size * markPrice
    }

    function UnrealizedPnl(): real {
      (markPrice - entryPrice) * size * Sign(direction)
    }
  }

  /** One bar of history. */
  datatype Candle = Candle(
    openTime: int,
    closeTime: int,
    high: real,
    low: real,
    close: real,
    isClosed: bool)

  function Sign(d: Direction): real {
    match d
    case Long => 1.0
    case Short => -1.0
    case Flat => 0.0
  }

  /** A slice of the last `n` elements. */
  function LastOf<T>(s: seq<T>, n: nat): seq<T> {
    if |s| <= n then s else s[|s| - n..]
  }

  function Max(a: real, b: real): real {
    if a >= b then a else b
  }

  function Min(a: real, b: real): real {
    if a <= b then a else b
  }

  function Abs(a: real): real {
    if a >= 0.0 then a else -a
  }
}
