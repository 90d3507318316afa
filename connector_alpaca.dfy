/**
 * The Alpaca connector: translation of canonical sides and times in force
 * to the SDK's enums and back, normalisation of the SDK's order record into
 * a canonical MarketOrderResult, and the connector object that owns the
 * trading and streaming clients.
 */
module ConnectorAlpaca {
  import opened Wrappers
  import opened HermesExceptions
  import opened HermesEnums
  import opened Models
  import opened UuidText
  import opened AlpacaSdk
  import opened ConnectorTemplate

  // ---------------------------------------------------------------------
  // Translation of enums

  /** Canonical side to SDK side; any other side raises InsufficientParameters. */
  function SideToBackend(s: OrderSide): (r: Result<Side, HermesError>)
    ensures s == BUY <==> r == Success(Buy)
    ensures s == SELL <==> r == Success(Sell)
    ensures r.Failure? <==> s.OtherSide?
    ensures r.Failure? ==> r.error == InsufficientParameters
  {
    if s == BUY then Success(Buy)
    else if s == SELL then Success(Sell)
    else Failure(InsufficientParameters)
  }

  /** Canonical time in force to the same-named SDK value; any other value
      raises InsufficientParameters. OPG, CLS and FOK are never produced. */
  function TifToBackend(t: TimeInForce): (r: Result<Tif, HermesError>)
    ensures t == GTC <==> r == Success(Gtc)
    ensures t == IOC <==> r == Success(Ioc)
    ensures t == DAY <==> r == Success(Day)
    ensures r.Failure? <==> t.OtherTif?
    ensures r.Failure? ==> r.error == InsufficientParameters
  {
    match t
    case GTC => Success(Gtc)
    case IOC => Success(Ioc)
    case DAY => Success(Day)
    case _ => Failure(InsufficientParameters)
  }

  /** _marketOrderParamConstructor: the side first, then the time in force. */
  function TranslateParams(p: MarketOrderBaseParams): (r: Result<(Side, Tif), HermesError>)
    ensures r.Success? <==> !p.side.OtherSide? && !p.tif.OtherTif?
    ensures r.Success? ==> Success(r.value.0) == SideToBackend(p.side) && Success(r.value.1) == TifToBackend(p.tif)
    ensures r.Failure? ==> r.error == InsufficientParameters
  {
    match SideToBackend(p.side)
    case Failure(e) => Failure(e)
    case Success(side) =>
      match TifToBackend(p.tif)
      case Failure(e) => Failure(e)
      case Success(tif) => Success((side, tif))
  }

  /** SDK side back to canonical; an absent side raises UnknownGenericHermesException. */
  function SideFromBackend(s: Option<Side>): (r: Result<OrderSide, HermesError>)
    ensures r.Failure? <==> s.None?
    ensures r.Failure? ==> r.error == UnknownGenericHermesException
    ensures s == Some(Buy) <==> r == Success(BUY)
    ensures s == Some(Sell) <==> r == Success(SELL)
  {
    match s
    case Some(Buy) => Success(BUY)
    case Some(Sell) => Success(SELL)
    case None => Failure(UnknownGenericHermesException)
  }

  /** Out and back again gives the canonical side that went out. */
  lemma SideRoundTrip(s: OrderSide)
    requires !s.OtherSide?
    ensures SideFromBackend(Some(SideToBackend(s).value)) == Success(s)
  {
  }

  /** Back and out again gives the SDK side that came back. */
  lemma BackendSideRoundTrip(b: Side)
    ensures SideFromBackend(Some(b)).Success?
    ensures SideToBackend(SideFromBackend(Some(b)).value) == Success(b)
  {
  }

  /** Distinct valid times in force go out as distinct SDK values. */
  lemma TifToBackendInjective(a: TimeInForce, b: TimeInForce)
    requires TifToBackend(a).Success? && TifToBackend(b).Success?
    ensures TifToBackend(a) == TifToBackend(b) ==> a == b
  {
  }

  // ---------------------------------------------------------------------
  // Normalisation of order results

  /** Every field of the result other than order_id, asset_id, side and raw
      holds the SDK order's field unchanged. */
  predicate CopiedUnchanged(o: Order, b: BaseOrderResult)
  {
    && b.created_at == o.created_at && b.updated_at == o.updated_at
    && b.submitted_at == o.submitted_at && b.filled_at == o.filled_at
    && b.expired_at == o.expired_at && b.expires_at == o.expires_at
    && b.canceled_at == o.canceled_at && b.failed_at == o.failed_at
    && b.symbol == o.symbol && b.notional == o.notional && b.qty == o.qty
    && b.filled_qty == o.filled_qty && b.filled_avg_price == o.filled_avg_price
    && b.order_type == o.order_type && b.time_in_force == o.time_in_force
    && b.status == o.status
  }

  /** The result record _marketOrderSubmit builds from an SDK order and its
      serialisation json; fails when the order's side does not translate. */
  function NormalizeOrder(o: Order, json: string): (r: Result<MarketOrderResult, HermesError>)
    ensures r.Failure? <==> o.side.None?
    ensures r.Failure? ==> r.error == UnknownGenericHermesException
    ensures r.Success? ==> r.value.base.raw == json
    ensures r.Success? ==> r.value.base.order_id == UuidString(o.id)
    ensures r.Success? ==> r.value.base.asset_id == Some(PyStr(o.asset_id))
    ensures r.Success? ==> r.value.base.side == Some(SideFromBackend(o.side).value)
    ensures r.Success? ==> CopiedUnchanged(o, r.value.base)
  {
    match SideFromBackend(o.side)
    case Failure(e) => Failure(e)
    case Success(side) =>
      Success(MarketOrderResult(BaseOrderResult(
        order_id := UuidString(o.id),
        created_at := o.created_at,
        updated_at := o.updated_at,
        submitted_at := o.submitted_at,
        filled_at := o.filled_at,
        expired_at := o.expired_at,
        expires_at := o.expires_at,
        canceled_at := o.canceled_at,
        failed_at := o.failed_at,
        asset_id := Some(PyStr(o.asset_id)),
        symbol := o.symbol,
        notional := o.notional,
        qty := o.qty,
        filled_qty := o.filled_qty,
        filled_avg_price := o.filled_avg_price,
        order_type := o.order_type,
        side := Some(side),
        time_in_force := o.time_in_force,
        status := o.status,
        raw := json)))
  }

  /** Rebuilds the SDK order a canonical result was made from, if any. */
  function Denormalize(b: BaseOrderResult): Option<Order>
  {
    match (ParseUuid(b.order_id), b.asset_id, b.side)
    case (Some(id), Some(assetText), Some(side)) =>
      var back := SideToBackend(side);
      var asset := ParsePyStr(assetText);
      if back.Failure? || asset.None? then None
      else Some(Order(
        id, b.created_at, b.updated_at, b.submitted_at,
        b.filled_at, b.expired_at, b.expires_at, b.canceled_at, b.failed_at,
        asset.value, b.symbol, b.notional, b.qty, b.filled_qty, b.filled_avg_price,
        b.order_type, Some(back.value), b.time_in_force, b.status))
    case _ => None
  }

  /** Normalisation loses nothing: every field of the SDK order, ids and side
      included, can be read back from the canonical result. */
  lemma NormalizeLossless(o: Order, json: string)
    requires o.side.Some?
    ensures NormalizeOrder(o, json).Success?
    ensures Denormalize(NormalizeOrder(o, json).value.base) == Some(o)
  {
    UuidRoundTrip(o.id);
    PyStrRoundTrip(o.asset_id);
    BackendSideRoundTrip(o.side.value);
  }

  /** Conversely, a result that rebuilds to an SDK order is exactly what
      normalising that order produces: normal form and SDK order correspond
      one to one. */
  lemma DenormalizeInverse(b: BaseOrderResult)
    requires Denormalize(b).Some?
    ensures NormalizeOrder(Denormalize(b).value, b.raw) == Success(MarketOrderResult(b))
  {
    ParseUuidInverse(b.order_id);
    ParsePyStrInverse(b.asset_id.value);
  }

  /** Two normalised results with the same order_id come from the same SDK order id. */
  lemma OrderIdIdentifiesOrder(o1: Order, j1: string, o2: Order, j2: string)
    requires NormalizeOrder(o1, j1).Success? && NormalizeOrder(o2, j2).Success?
    requires NormalizeOrder(o1, j1).value.base.order_id == NormalizeOrder(o2, j2).value.base.order_id
    ensures o1.id == o2.id
  {
    UuidStringInjective(o1.id, o2.id);
  }

  /** What _marketOrderSubmit returns or raises for a reply of the venue:
      an APIError passes through unchanged, an order is normalised with its
      serialisation attached as raw. */
  function SubmitOutcome(reply: Result<Order, ApiFault>, dumpJson: Order -> string): (r: Result<MarketOrderResult, PyException>)
    ensures reply.Failure? ==> r == Failure(ApiError(reply.error.status_code, reply.error.message))
    ensures reply.Success? ==> (r.Success? <==> reply.value.side.Some?)
    ensures reply.Success? && r.Failure? ==> r.error == Hermes(UnknownGenericHermesException)
    ensures r.Success? ==> reply.Success? && r.value.base.raw == dumpJson(reply.value)
    ensures r.Success? ==> Denormalize(r.value.base) == Some(reply.value)
  {
    match reply
    case Failure(f) => Failure(ApiError(f.status_code, f.message))
    case Success(o) =>
      match NormalizeOrder(o, dumpJson(o))
      case Failure(e) => Failure(Hermes(e))
      case Success(m) =>
        NormalizeLossless(o, dumpJson(o));
        Success(m)
  }

  /** exchangeClock's copy of the SDK clock. */
  function ClockFromBackend(c: Clock): (m: ClockReturnModel)
    ensures m.isOpen == c.is_open && m.nextOpen == c.next_open
    ensures m.nextClose == c.next_close && m.currentTimestamp == c.timestamp
  {
    ClockReturnModel(isOpen := c.is_open, nextOpen := c.next_open,
                     nextClose := c.next_close, currentTimestamp := c.timestamp)
  }

  // ---------------------------------------------------------------------
  // Choice of trading client

  /** The `paper` flag of the trading client __init__ creates for a mode, as
      written: mode "live" passes no flag and so gets the SDK's default. */
  function PaperFlagAsWritten(mode: string): (r: Option<bool>)
    ensures r.Some? <==> mode == "live" || mode == "test"
    ensures r.Some? ==> r.value
  {
    if mode == "live" then Some(DefaultPaper)
    else if mode == "test" then Some(true)
    else None
  }

  /** As written, "live" gives a paper client, the same kind "test" gives. */
  lemma AsWrittenLiveIsPaper()
    ensures PaperFlagAsWritten("live") == Some(true)
    ensures PaperFlagAsWritten("live") == PaperFlagAsWritten("test")
  {
  }

  /** The `paper` flag as evidently intended: "live" trades for real, "test"
      on paper, and any other mode gets no trading client. */
  function PaperFlag(mode: string): (r: Option<bool>)
    ensures r == Some(false) <==> mode == "live"
    ensures r == Some(true) <==> mode == "test"
    ensures r.None? <==> mode != "live" && mode != "test"
  {
    if mode == "live" then Some(false)
    else if mode == "test" then Some(true)
    else None
  }

  /** The two differ only for "live". */
  lemma PaperFlagDiffersOnlyForLive(mode: string)
    ensures PaperFlagAsWritten(mode) == PaperFlag(mode) <==> mode != "live"
  {
  }

  // ---------------------------------------------------------------------
  // The connector object

  class Alpaca {
    const options: ConnectorOptions
    /** clients["trading"]: None unless mode is "live" or "test". */
    const trading: TradingClient?
    /** clients["ws"]: None unless a data handler was given. */
    const ws: StockDataStream?

    /** How the clients follow from the options, as __init__ sets them up. */
    ghost predicate WiredFrom(venue: Venue)
      reads this, trading, ws
    {
      && |options.credentials| >= 2
      && (trading == null <==> PaperFlag(options.mode).None?)
      && (trading != null ==> trading.paper == PaperFlag(options.mode).value)
      && (trading != null ==>
            && trading.venue == venue
            && trading.api_key == options.credentials[0]
            && trading.secret_key == options.credentials[1]
            && trading.calls == 0 && trading.submitted == [])
      && (ws != null <==> options.dataHandler.Some?)
      && (ws != null ==>
            && ws.api_key == options.credentials[0]
            && ws.secret_key == options.credentials[1]
            && ws.subscribedSymbols == [] && !ws.running)
    }

    /** The part of __init__ after the template's guard has passed. The
        live client is created with paper set to false, as intended (see
        PaperFlagAsWritten for the SDK default the source relies on). */
    constructor FromOptions(venue: Venue, options: ConnectorOptions)
      requires |options.credentials| >= 2
      ensures this.options == options
      ensures WiredFrom(venue)
      ensures trading != null ==> fresh(trading)
      ensures ws != null ==> fresh(ws)
    {
      var client: TradingClient? := null;
      if options.mode == "live" {
        client := new TradingClient(venue, options.credentials[0], options.credentials[1], paper := false);
      } else if options.mode == "test" {
        client := new TradingClient(venue, options.credentials[0], options.credentials[1], paper := true);
      }
      var stream: StockDataStream? := null;
      if options.dataHandler.Some? {
        stream := new StockDataStream(options.credentials[0], options.credentials[1]);
      }
      this.options := options;
      trading := client;
      ws := stream;
    }

    /** Alpaca.__init__: the template's guard, then the clients. */
    static method Create(
      venue: Venue,
      tradingPair: string,
      interval: string,
      mode: string := "live",
      limit: int := 75,
      credentials: seq<string> := ["", ""],
      columns: Option<seq<string>> := None,
      wshandler: Option<Handler> := None) returns (r: Result<Alpaca, PyException>)
      ensures Init(tradingPair, interval, mode, limit, credentials, columns, wshandler).Failure? ==>
                r == Failure(Init(tradingPair, interval, mode, limit, credentials, columns, wshandler).error)
      ensures Init(tradingPair, interval, mode, limit, credentials, columns, wshandler).Success? ==>
                && r.Success? && fresh(r.value)
                && r.value.options == Init(tradingPair, interval, mode, limit, credentials, columns, wshandler).value
                && r.value.WiredFrom(venue)
                && (r.value.trading != null ==> fresh(r.value.trading))
                && (r.value.ws != null ==> fresh(r.value.ws))
    {
      var init := Init(tradingPair, interval, mode, limit, credentials, columns, wshandler);
      if init.Failure? {
        return Failure(init.error);
      }
      var a := new Alpaca.FromOptions(venue, init.value);
      r := Success(a);
    }

    /** exchangeClock. */
    method ExchangeClock() returns (r: Result<ClockReturnModel, PyException>)
      modifies trading
      ensures trading == null ==> r == Failure(AttributeError)
      ensures trading != null ==>
                && trading.submitted == old(trading.submitted)
                && trading.calls == old(trading.calls) + 1
                && r == match trading.venue.clockReply(old(trading.calls))
                        case Failure(f) => Failure(ApiError(f.status_code, f.message))
                        case Success(c) => Success(ClockFromBackend(c))
    {
      if trading == null {
        return Failure(AttributeError);
      }
      var reply := trading.GetClock();
      match reply
      case Failure(f) => r := Failure(ApiError(f.status_code, f.message));
      case Success(c) => r := Success(ClockFromBackend(c));
    }

    /** _marketOrderSubmit: sends the request, then normalises the reply;
        the order stays submitted even when its side does not translate back. */
    method SubmitMarketOrder(req: MarketOrderRequest) returns (r: Result<MarketOrderResult, PyException>)
      modifies trading
      ensures trading == null ==> r == Failure(AttributeError)
      ensures trading != null ==>
                && trading.submitted == old(trading.submitted) + [req]
                && trading.calls == old(trading.calls) + 1
                && r == SubmitOutcome(trading.venue.orderReply(old(trading.calls), req), trading.venue.dumpJson)
    {
      if trading == null {
        return Failure(AttributeError);
      }
      var reply := trading.SubmitOrder(req);
      r := SubmitOutcome(reply, trading.venue.dumpJson);
    }

    /** marketOrderQty: translate, then submit a request sized by qty only.
        Nothing is sent when translation fails. */
    method MarketOrderQty(orderParams: MarketOrderQtyParams) returns (r: Result<MarketOrderResult, PyException>)
      modifies trading
      ensures TranslateParams(orderParams.Base()).Failure? ==>
                && r == Failure(Hermes(InsufficientParameters))
                && (trading != null ==> trading.submitted == old(trading.submitted) && trading.calls == old(trading.calls))
      ensures TranslateParams(orderParams.Base()).Success? && trading == null ==> r == Failure(AttributeError)
      ensures TranslateParams(orderParams.Base()).Success? && trading != null ==>
                var (side, tif) := TranslateParams(orderParams.Base()).value;
                var req := MarketOrderRequest(options.tradingPair, Some(orderParams.qty), None, side, tif);
                && trading.submitted == old(trading.submitted) + [req]
                && trading.calls == old(trading.calls) + 1
                && r == SubmitOutcome(trading.venue.orderReply(old(trading.calls), req), trading.venue.dumpJson)
    {
      var translated := TranslateParams(orderParams.Base());
      if translated.Failure? {
        return Failure(Hermes(translated.error));
      }
      var (side, tif) := translated.value;
      var req := MarketOrderRequest(
        symbol := options.tradingPair, qty := Some(orderParams.qty), notional := None,
        side := side, time_in_force := tif);
      r := SubmitMarketOrder(req);
    }

    /** marketOrderCost: translate, then submit a request sized by notional only.
        Nothing is sent when translation fails. */
    method MarketOrderCost(orderParams: MarketOrderNotionalParams) returns (r: Result<MarketOrderResult, PyException>)
      modifies trading
      ensures TranslateParams(orderParams.Base()).Failure? ==>
                && r == Failure(Hermes(InsufficientParameters))
                && (trading != null ==> trading.submitted == old(trading.submitted) && trading.calls == old(trading.calls))
      ensures TranslateParams(orderParams.Base()).Success? && trading == null ==> r == Failure(AttributeError)
      ensures TranslateParams(orderParams.Base()).Success? && trading != null ==>
                var (side, tif) := TranslateParams(orderParams.Base()).value;
                var req := MarketOrderRequest(options.tradingPair, None, Some(orderParams.cost), side, tif);
                && trading.submitted == old(trading.submitted) + [req]
                && trading.calls == old(trading.calls) + 1
                && r == SubmitOutcome(trading.venue.orderReply(old(trading.calls), req), trading.venue.dumpJson)
    {
      var translated := TranslateParams(orderParams.Base());
      if translated.Failure? {
        return Failure(Hermes(translated.error));
      }
      var (side, tif) := translated.value;
      var req := MarketOrderRequest(
        symbol := options.tradingPair, qty := None, notional := Some(orderParams.cost),
        side := side, time_in_force := tif);
      r := SubmitMarketOrder(req);
    }

    /** initiateLiveData: without a stream client it raises HandlerNonExistent
        and touches nothing; otherwise it subscribes to the trading pair and runs. */
    method InitiateLiveData() returns (r: Outcome<PyException>)
      modifies ws
      ensures ws == null <==> r == Fail(HandlerNonExistent)
      ensures ws != null ==>
                && r == Pass
                && ws.subscribedSymbols == old(ws.subscribedSymbols) + [options.tradingPair]
                && ws.running
    {
      if ws == null {
        return Fail(HandlerNonExistent);
      }
      ws.SubscribeBars(options.tradingPair);
      ws.Run();
      r := Pass;
    }
  }
}
