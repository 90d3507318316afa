/**
 * The part of the Alpaca SDK the connector touches, as an abstract backend.
 * What the venue answers is not known to the connector, so the venue is a
 * value of function type handed in from outside: its reply to the k-th call
 * on a client, and the SDK's JSON serialisation (model_dump_json) of an order.
 */
module AlpacaSdk {
  import opened Wrappers
  import opened HermesEnums
  import opened Models
  import opened UuidText

  /** alpaca.trading.enums.OrderSide. */
  datatype Side = Buy | Sell

  /** alpaca.trading.enums.TimeInForce. */
  datatype Tif = Day | Gtc | Opg | Cls | Ioc | Fok

  /** alpaca.trading.requests.MarketOrderRequest: sized by qty or by notional. */
  datatype MarketOrderRequest = MarketOrderRequest(
    symbol: string,
    qty: Option<real>,
    notional: Option<real>,
    side: Side,
    time_in_force: Tif)

  /** The SDK's order record. Side may be absent. Type, time in force and
      status are taken to be already in canonical form. */
  datatype Order = Order(
    id: Uuid,
    created_at: DateTime,
    updated_at: DateTime,
    submitted_at: DateTime,
    filled_at: Option<DateTime>,
    expired_at: Option<DateTime>,
    expires_at: Option<DateTime>,
    canceled_at: Option<DateTime>,
    failed_at: Option<DateTime>,
    asset_id: Option<Uuid>,
    symbol: Option<string>,
    notional: Option<string>,
    qty: Option<real>,
    filled_qty: Option<real>,
    filled_avg_price: Option<real>,
    order_type: Option<OrderType>,
    side: Option<Side>,
    time_in_force: TimeInForce,
    status: OrderStatus)

  /** The SDK's clock record. */
  datatype Clock = Clock(is_open: bool, next_open: DateTime, next_close: DateTime, timestamp: DateTime)

  /** alpaca.common.exceptions.APIError. */
  datatype ApiFault = ApiFault(status_code: int, message: string)

  /** What the venue does, as seen through one client. */
  datatype Venue = Venue(
    orderReply: (nat, MarketOrderRequest) -> Result<Order, ApiFault>,
    clockReply: nat -> Result<Clock, ApiFault>,
    dumpJson: Order -> string)

  /** The value TradingClient takes for `paper` when the caller passes none:
      the SDK connects to the paper environment by default. */
  const DefaultPaper: bool := true

  /** TradingClient: keeps the requests it has sent, in order. */
  class TradingClient {
    const api_key: string
    const secret_key: string
    const paper: bool
    const venue: Venue
    /** Number of calls made so far; the next call is answered as call number `calls`. */
    var calls: nat
    /** Every order request sent to the venue. */
    var submitted: seq<MarketOrderRequest>

    constructor (venue: Venue, api_key: string, secret_key: string, paper: bool := DefaultPaper)
      ensures this.venue == venue && this.api_key == api_key && this.secret_key == secret_key
      ensures this.paper == paper
      ensures calls == 0 && submitted == []
    {
      this.venue := venue;
      this.api_key := api_key;
      this.secret_key := secret_key;
      this.paper := paper;
      calls := 0;
      submitted := [];
    }

    /** submit_order: sends the request and returns the venue's reply. */
    method SubmitOrder(order_data: MarketOrderRequest) returns (r: Result<Order, ApiFault>)
      modifies this
      ensures calls == old(calls) + 1
      ensures submitted == old(submitted) + [order_data]
      ensures r == venue.orderReply(old(calls), order_data)
    {
      r := venue.orderReply(calls, order_data);
      calls := calls + 1;
      submitted := submitted + [order_data];
    }

    /** get_clock: reads the venue's clock; sends no order. */
    method GetClock() returns (r: Result<Clock, ApiFault>)
      modifies this
      ensures calls == old(calls) + 1 && submitted == old(submitted)
      ensures r == venue.clockReply(old(calls))
    {
      r := venue.clockReply(calls);
      calls := calls + 1;
    }
  }

  /** StockDataStream: the symbols it is subscribed to and whether it runs. */
  class StockDataStream {
    const api_key: string
    const secret_key: string
    var subscribedSymbols: seq<string>
    var running: bool

    constructor (api_key: string, secret_key: string)
      ensures this.api_key == api_key && this.secret_key == secret_key
      ensures subscribedSymbols == [] && !running
    {
      this.api_key := api_key;
      this.secret_key := secret_key;
      subscribedSymbols := [];
      running := false;
    }

    /** subscribe_bars, for one symbol. */
    method SubscribeBars(symbol: string)
      modifies this
      ensures subscribedSymbols == old(subscribedSymbols) + [symbol] && running == old(running)
    {
      subscribedSymbols := subscribedSymbols + [symbol];
    }

    /** run: starts delivering bars. */
    method Run()
      modifies this
      ensures running && subscribedSymbols == old(subscribedSymbols)
    {
      running := true;
    }
  }
}
