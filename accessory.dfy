/** The price accessory: it keeps the latest snapshot and the same-day
    history, runs one fetch cycle per `Update`, and answers HomeKit's reads.
    The fetch is an input (`FetchOutcome`), the timer is the returned delay,
    and the characteristic updates of a cycle are the returned `Published`
    record. */
module Accessory {
  import opened Wrappers
  import opened Griddy
  import opened Classification
  import opened History

  /** Milliseconds before the next attempt after a failed fetch. */
  const RetryDelayMs: nat := 10000

  /** The error message of a read when nothing has been fetched yet. */
  const NoInformation: string := "No information available"

  /** What the feed call came back with. */
  datatype FetchOutcome = Fetched(snapshot: Snapshot) | FetchFailed

  /** The characteristic values one cycle pushes: status, price level,
      intensity (brightness), and the On flags of the high-price and
      low-price services. `None` means the cycle did not push that value. */
  datatype Published = Published(
    statusActive: bool,
    level: Option<real>,
    brightness: Option<int>,
    highOn: bool,
    lowOn: bool)

  /** The effects of one cycle: what it pushed and when it runs again. */
  datatype Cycle = Cycle(published: Published, nextDelayMs: nat)

  /** What a successful cycle pushes, computed from the given history. */
  function Signals(config: Config, s: Snapshot, history: seq<Item>): (p: Published)
    requires Classifiable(s, history)
    ensures p.statusActive
    ensures p.level == Some(DisplayPrice(s.now.priceCkwh))
    ensures s.now.priceCkwh - 0.0005 < p.level.value <= s.now.priceCkwh + 0.0005
    ensures p.brightness == Some(Intensity(s, history))
    ensures p.highOn <==>
      (s.now.priceCkwh > config.highPriceCents && Intensity(s, history) as real > config.highPricePercentage)
    ensures p.lowOn <==>
      (s.now.priceCkwh <= config.lowPriceCents || Intensity(s, history) as real <= config.lowPricePercentage)
  {
    Published(
      true,
      Some(DisplayPrice(s.now.priceCkwh)),
      Some(Intensity(s, history)),
      DefineHigh(config, s, history),
      DefineLow(config, s, history))
  }

  /** The cycle of a failed fetch: status and both flags off, retry soon. */
  function NoDataCycle(): (c: Cycle)
    ensures !c.published.statusActive && !c.published.highOn && !c.published.lowOn
    ensures c.published.level.None? && c.published.brightness.None?
    ensures c.nextDelayMs == RetryDelayMs
  {
    Cycle(Published(false, None, None, false, false), RetryDelayMs)
  }

  class PriceAccessory {
    const config: Config
    /** The last snapshot fetched, if any fetch has ever succeeded. */
    var latest: Option<Snapshot>
    /** Today's readings, oldest first. */
    var history: seq<Item>

    /** A fresh accessory knows nothing yet. */
    constructor (config: Config)
      ensures this.config == config
      ensures latest == None && history == []
    {
      this.config := config;
      latest := None;
      history := [];
    }

    /** One fetch cycle on the clock day `today`. On success the snapshot is
        stored, the signals are computed against the history as it was
        before this cycle, the next run is due after the feed's refresh
        interval, and only then is the history rolled over and extended.
        On failure nothing is stored and the retry is due in 10 seconds. */
    method Update(outcome: FetchOutcome, today: int) returns (cycle: Cycle)
      requires outcome.Fetched? ==> Classifiable(outcome.snapshot, history)
      modifies this
      ensures outcome.FetchFailed? ==>
        latest == old(latest) && history == old(history) && cycle == NoDataCycle()
      ensures outcome.Fetched? ==>
        && latest == Some(outcome.snapshot)
        && cycle.published == Signals(config, outcome.snapshot, old(history))
        && cycle.nextDelayMs == outcome.snapshot.secondsUntilRefresh * 1000
        && history == NextHistory(old(history), outcome.snapshot.now, today)
      ensures old(latest).Some? ==> latest.Some?
    {
      match outcome
      case FetchFailed =>
        cycle := NoDataCycle();
      case Fetched(s) =>
        latest := Some(s);
        var published := Signals(config, s, history);
        cycle := Cycle(published, s.secondsUntilRefresh * 1000);
        history := NextHistory(history, s.now, today);
    }

    /** StatusActive: whether a snapshot has ever been fetched. */
    method GetStatus() returns (active: bool)
      ensures active <==> latest.Some?
    {
      active := latest.Some?;
    }

    /** CurrentAmbientLightLevel: the stored price, to three decimals. */
    method GetLevel() returns (r: Result<real>)
      ensures r.Failure? <==> latest.None?
      ensures r.Failure? ==> r.error == NoInformation
      ensures r.Success? ==> r.value == DisplayPrice(latest.value.now.priceCkwh)
      ensures r.Success? ==> latest.value.now.priceCkwh - 0.0005 < r.value <= latest.value.now.priceCkwh + 0.0005
    {
      if latest.Some? {
        r := Success(DisplayPrice(latest.value.now.priceCkwh));
      } else {
        r := Failure(NoInformation);
      }
    }

    /** Brightness: the intensity against the current history. */
    method GetIntensity() returns (r: Result<int>)
      requires latest.Some? ==> Classifiable(latest.value, history)
      ensures r.Failure? <==> latest.None?
      ensures r.Failure? ==> r.error == NoInformation
      ensures r.Success? ==> r.value == Intensity(latest.value, history)
    {
      if latest.Some? {
        r := Success(Intensity(latest.value, history));
      } else {
        r := Failure(NoInformation);
      }
    }

    /** On of the high-price service. */
    method GetIsHigh() returns (r: Result<bool>)
      requires latest.Some? ==> Classifiable(latest.value, history)
      ensures r.Failure? <==> latest.None?
      ensures r.Failure? ==> r.error == NoInformation
      ensures r.Success? ==> r.value == DefineHigh(config, latest.value, history)
    {
      if latest.Some? {
        r := Success(DefineHigh(config, latest.value, history));
      } else {
        r := Failure(NoInformation);
      }
    }

    /** On of the low-price service. */
    method GetIsLow() returns (r: Result<bool>)
      requires latest.Some? ==> Classifiable(latest.value, history)
      ensures r.Failure? <==> latest.None?
      ensures r.Failure? ==> r.error == NoInformation
      ensures r.Success? ==> r.value == DefineLow(config, latest.value, history)
    {
      if latest.Some? {
        r := Success(DefineLow(config, latest.value, history));
      } else {
        r := Failure(NoInformation);
      }
    }
  }

  /** After a successful cycle the reads see the new reading in the history,
      so the low they use is never above the current price. */
  lemma LowAfterCycleBoundsPrice(s: Snapshot, history: seq<Item>, today: int)
    ensures CalculateLow(s, NextHistory(history, s.now, today)) <= s.now.priceCkwh
  {
    var h := NextHistory(history, s.now, today);
    assert h[|h| - 1] == s.now;
  }

  /** Two failed fetches in a row: each pushes "no data" and retries after
      10 seconds, and the stored snapshot and history are untouched, so the
      reads answer as before. */
  method RepeatedFailure(acc: PriceAccessory, today: int)
    returns (first: Cycle, second: Cycle)
    modifies acc
    ensures first == second == NoDataCycle()
    ensures first.nextDelayMs == 10000 && !first.published.statusActive
    ensures acc.latest == old(acc.latest) && acc.history == old(acc.history)
  {
    first := acc.Update(FetchFailed, today);
    second := acc.Update(FetchFailed, today + 1);
  }

  /** A fresh accessory answers every read with an error until a fetch
      succeeds; a failed fetch does not change that. */
  method FreshAccessoryHasNoData(config: Config)
    returns (activeBefore: bool, activeAfter: bool, level: Result<real>,
             intensity: Result<int>, high: Result<bool>, low: Result<bool>)
    ensures !activeBefore && !activeAfter
    ensures level == Failure(NoInformation) && intensity == Failure(NoInformation)
    ensures high == Failure(NoInformation) && low == Failure(NoInformation)
  {
    var acc := new PriceAccessory(config);
    activeBefore := acc.GetStatus();
    var _ := acc.Update(FetchFailed, 0);
    activeAfter := acc.GetStatus();
    level := acc.GetLevel();
    intensity := acc.GetIntensity();
    high := acc.GetIsHigh();
    low := acc.GetIsLow();
  }

  /** A fetch on a new day computes the signals against yesterday's history
      and then keeps only the new reading. */
  method NewDayRollover(config: Config, yesterday: Snapshot, s: Snapshot, today: int)
    returns (cycle: Cycle, history: seq<Item>)
    requires yesterday.now.day == today - 1
    requires Classifiable(yesterday, []) && Classifiable(s, [yesterday.now])
    ensures cycle.published == Signals(config, s, [yesterday.now])
    ensures history == [s.now]
  {
    var acc := new PriceAccessory(config);
    var _ := acc.Update(Fetched(yesterday), today - 1);
    NextHistoryNewDay([], yesterday.now, today - 1);
    cycle := acc.Update(Fetched(s), today);
    NextHistoryNewDay([yesterday.now], s.now, today);
    history := acc.history;
  }
}
