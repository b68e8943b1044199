/** Values shared by the grid bot's ledger, price helper, engine and dispatcher.

    Prices are whole cents; quantities are whole lots of 0.001 BTC, i.e. the
    source's BTC amounts times 1000 (ten times the venue's `sz` / `accFillSz`
    fields, which count contracts of 0.01 BTC). */
module GridTypes {

  datatype Option<+T> = None | Some(value: T)

  /** The only instrument the bot trades. */
  const InstId: string := "BTC-USDT-SWAP"

  /** Order direction (`side` on the venue). */
  datatype Direction = Buy | Sell {
    function Name(): string {
      match this
      case Buy => "buy"
      case Sell => "sell"
    }
    function Opposite(): (d: Direction)
      ensures d != this
    {
      match this
      case Buy => Sell
      case Sell => Buy
    }
  }

  /** Position direction (`posSide` on the venue): which grid an order belongs to. */
  datatype PosSide = Long | Short {
    function Name(): string {
      match this
      case Long => "long"
      case Short => "short"
    }
    /** The direction that adds to this side's position: buy for long, sell for short. */
    function Opening(): Direction {
      match this
      case Long => Buy
      case Short => Sell
    }
    /** The direction that takes profit on this side: sell for long, buy for short. */
    function Closing(): (d: Direction)
      ensures d != Opening()
    {
      Opening().Opposite()
    }
  }

  /** A non-negative spacing given as the fraction num/den (0.6 / 100 is 6/1000). */
  datatype Fraction = Fraction(num: nat, den: nat)

  /** What the ledger remembers of an order the bot placed. */
  datatype OrderInfo = OrderInfo(side: Direction, price: int, posSide: PosSide)

  /** A limit order the bot asks the venue to place. */
  datatype OrderRequest = OrderRequest(side: Direction, price: int, size: int, posSide: PosSide, reduceOnly: bool)

  /** A cancel the bot sends: the listed order's `ordId` and `instId`. */
  datatype CancelRequest = CancelRequest(ordId: string, instId: string)

  /** One entry of the venue's pending-order list, with the fields the bot reads. */
  datatype OpenOrder = OpenOrder(ordId: string, instId: string, side: string, posSide: string)

  /** One order update from the `orders` channel; missing numeric fields read as 0.
      `filledLots` is the venue's `accFillSz` in lots of 0.001 BTC (ten times the
      venue's contract count) and `priceCents` its `px` in US cents. */
  datatype OrderEvent = OrderEvent(
    instId: string,
    state: string,
    side: string,
    posSide: string,
    filledLots: int,
    priceCents: int,
    ordId: string)

  /** One side's mutable grid state: position, trigger price, take-profit counter. */
  datatype SideState = SideState(position: int, trigger: int, takeProfitCount: nat)

  /** One side's fixed configuration. */
  datatype SideConfig = SideConfig(enabled: bool, spacing: Fraction, gridSize: int, maxPosition: int)

  datatype Config = Config(long: SideConfig, short: SideConfig)

  predicate ValidConfig(cfg: Config) {
    cfg.long.spacing.den > 0 && cfg.short.spacing.den > 0
  }
}
