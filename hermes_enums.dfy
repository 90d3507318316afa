/**
 * The canonical vocabulary of hermesConnector. The enum definitions
 * themselves (hermes_enums.py) are not part of this model: each input-side
 * enum carries a catch-all arm that stands for any value other than the
 * named members, so that the default arm of every translator is reachable.
 */
module HermesEnums {

  /** A side value that is neither "BUY" nor "SELL". */
  type OtherSideName = s: string | s != "BUY" && s != "SELL" witness "OTHER"

  /** Canonical order side; BUY and SELL compare equal to "BUY" and "SELL",
      and the catch-all never holds either of those strings. */
  datatype OrderSide = BUY | SELL | OtherSide(value: OtherSideName)

  /** A time-in-force value that is none of "GTC", "IOC" and "DAY". */
  type OtherTifName = s: string | s != "GTC" && s != "IOC" && s != "DAY" witness "OTHER"

  /** Canonical time in force; the catch-all never holds a named member's string. */
  datatype TimeInForce = GTC | IOC | DAY | OtherTif(value: OtherTifName)

  /** Order type and status are handed through from the backend untouched. */
  datatype OrderType = OrderType(value: string)

  datatype OrderStatus = OrderStatus(value: string)
}
