/**
 * The canonical records of hermesConnector's models.py: the exchange clock,
 * the order parameter family and the order result family. Pydantic's
 * validation is not modelled; each record is a plain value.
 */
module Models {
  import opened Wrappers
  import opened HermesEnums

  /** A datetime, as an opaque instant. */
  datatype DateTime = DateTime(epochMicros: int)

  /** Trading-session state of the venue: exactly four required fields. */
  datatype ClockReturnModel = ClockReturnModel(
    isOpen: bool,
    nextOpen: DateTime,
    nextClose: DateTime,
    currentTimestamp: DateTime)

  /** The fields every order input carries. */
  datatype OrderBaseParams = OrderBaseParams(side: OrderSide, tif: TimeInForce)

  /** The common input of both market orders, which the connector imports
      under this name (models.py itself does not define it). */
  type MarketOrderBaseParams = OrderBaseParams

  /** A market order sized by quantity: qty, and no cost. */
  datatype MarketOrderQtyParams = MarketOrderQtyParams(side: OrderSide, tif: TimeInForce, qty: real)
  {
    function Base(): OrderBaseParams { OrderBaseParams(side, tif) }
  }

  /** A market order sized by notional cost: cost, and no qty. */
  datatype MarketOrderNotionalParams = MarketOrderNotionalParams(side: OrderSide, tif: TimeInForce, cost: real)
  {
    function Base(): OrderBaseParams { OrderBaseParams(side, tif) }
  }

  /** A limit order input: an integer qty and nothing else (no limit price). */
  datatype LimitOrderBaseParams = LimitOrderBaseParams(side: OrderSide, tif: TimeInForce, qty: int)
  {
    function Base(): OrderBaseParams { OrderBaseParams(side, tif) }
  }

  /** The canonical order result. order_id, the three creation timestamps,
      time_in_force, status and raw are required; the rest is optional.
      The source's field `type` is called order_type here. */
  datatype BaseOrderResult = BaseOrderResult(
    order_id: string,
    created_at: DateTime,
    updated_at: DateTime,
    submitted_at: DateTime,
    filled_at: Option<DateTime>,
    expired_at: Option<DateTime>,
    expires_at: Option<DateTime>,
    canceled_at: Option<DateTime>,
    failed_at: Option<DateTime>,
    asset_id: Option<string>,
    symbol: Option<string>,
    notional: Option<string>,
    qty: Option<real>,
    filled_qty: Option<real>,
    filled_avg_price: Option<real>,
    order_type: Option<OrderType>,
    side: Option<OrderSide>,
    time_in_force: TimeInForce,
    status: OrderStatus,
    raw: string)

  /** A market order result adds no fields. */
  datatype MarketOrderResult = MarketOrderResult(base: BaseOrderResult)

  /** A limit order result adds only an optional limit price, none by default. */
  datatype LimitOrderResult = LimitOrderResult(base: BaseOrderResult, limit_price: Option<real> := None)

  /** The names of the records the file defines. */
  function ModelClassesAsWritten(): set<string>
  {
    {"ClockReturnModel", "OrderBaseParams", "MarketOrderQtyParams",
     "MarketOrderNotionalParams", "LimitOrderBaseParams", "BaseOrderResult",
     "MarketOrderResult", "LimitOrderResult"}
  }

  /** The names the Alpaca connector imports from this file. */
  function ImportedByAlpaca(): set<string>
  {
    {"ClockReturnModel", "MarketOrderBaseParams", "MarketOrderNotionalParams",
     "MarketOrderQtyParams", "MarketOrderResult"}
  }

  /** As written, one imported name is not defined, so the import fails. */
  lemma AsWrittenMarketOrderBaseParamsUndefined()
    ensures ImportedByAlpaca() - ModelClassesAsWritten() == {"MarketOrderBaseParams"}
  {
  }

  /** The record names as intended: the file's records and MarketOrderBaseParams
      (the type above); every imported name is defined. */
  function ModelClasses(): (names: set<string>)
    ensures ImportedByAlpaca() <= names
    ensures names - ModelClassesAsWritten() == {"MarketOrderBaseParams"}
  {
    ModelClassesAsWritten() + {"MarketOrderBaseParams"}
  }
}
