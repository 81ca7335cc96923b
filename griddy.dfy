/** Option and Result, for the accessory's "maybe there is a snapshot" state
    and for the getters' answer-or-error callbacks. */
module Wrappers {
  datatype Option<+T> = None | Some(value: T)

  datatype Result<+T> = Success(value: T) | Failure(error: string)
}

/** The values the price feed delivers and the accessory's configuration. */
module Griddy {

  /** One price reading: the price now, the feed's running low for the day,
      and the item's local date, abstracted to a day number. Forecast hours
      use the same record; only their price is read. */
  datatype Item = Item(priceCkwh: real, lowCkwh: real, day: int)

  /** One answer of the feed: the current reading, the forecast for the
      coming hours (in order, starting now) and when to ask again. */
  datatype Snapshot = Snapshot(now: Item, forecast: seq<Item>, secondsUntilRefresh: nat)

  /** The four thresholds of the platform configuration. */
  datatype Config = Config(
    lowPriceCents: real,
    lowPricePercentage: real,
    highPriceCents: real,
    highPricePercentage: real)

  /** The prices of a list of items, in the same order. */
  function Prices(items: seq<Item>): (ps: seq<real>)
    ensures |ps| == |items|
    ensures forall i :: 0 <= i < |items| ==> ps[i] == items[i].priceCkwh
  {
    seq(|items|, i requires 0 <= i < |items| => items[i].priceCkwh)
  }
}
