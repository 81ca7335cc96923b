/** How a snapshot and the day's history turn into the published signals:
    the day's low, the forecast high, the intensity percentage and the
    low-price and high-price flags. */
module Classification {
  import opened Griddy

  /** How many forecast hours count towards the high. */
  const Horizon: nat := 18

  function Min(a: real, b: real): real { if a <= b then a else b }

  function Max(a: real, b: real): real { if a >= b then a else b }

  /** The smallest of `ps` and `bound`: `Math.min(...ps, bound)`. */
  function MinWith(ps: seq<real>, bound: real): (r: real)
    ensures r <= bound
    ensures forall i :: 0 <= i < |ps| ==> r <= ps[i]
    ensures r == bound || exists i :: 0 <= i < |ps| && ps[i] == r
  {
    if |ps| == 0 then bound
    else
      var rest := MinWith(ps[1..], bound);
      assert forall i :: 1 <= i < |ps| ==> ps[i] == ps[1..][i - 1];
      assert rest != bound ==> exists i :: 1 <= i < |ps| && ps[i] == rest;
      Min(ps[0], rest)
  }

  /** The largest of a non-empty `ps`: `Math.max(...ps)`. */
  function MaxOf(ps: seq<real>): (r: real)
    requires |ps| > 0
    ensures forall i :: 0 <= i < |ps| ==> ps[i] <= r
    ensures exists i :: 0 <= i < |ps| && ps[i] == r
  {
    if |ps| == 1 then ps[0]
    else
      var rest := MaxOf(ps[1..]);
      assert forall i :: 1 <= i < |ps| ==> ps[i] == ps[1..][i - 1];
      assert exists i :: 1 <= i < |ps| && ps[i] == rest;
      Max(ps[0], rest)
  }

  /** The lowest of the history's prices and the feed's low for the day. */
  function CalculateLow(s: Snapshot, history: seq<Item>): (low: real)
    ensures low <= s.now.lowCkwh
    ensures forall i :: 0 <= i < |history| ==> low <= history[i].priceCkwh
    ensures low == s.now.lowCkwh || exists i :: 0 <= i < |history| && history[i].priceCkwh == low
  {
    MinWith(Prices(history), s.now.lowCkwh)
  }

  /** How many forecast entries `slice(0, Horizon)` keeps. */
  function WindowLength(forecast: seq<Item>): (n: nat)
    ensures n <= |forecast| && n <= Horizon
    ensures n == Horizon || n == |forecast|
  {
    if |forecast| < Horizon then |forecast| else Horizon
  }

  /** The highest price among the first `Horizon` forecast hours. */
  function CalculateHigh(s: Snapshot): (high: real)
    requires |s.forecast| > 0
    ensures forall i :: 0 <= i < |s.forecast| && i < Horizon ==> s.forecast[i].priceCkwh <= high
    ensures exists i :: 0 <= i < |s.forecast| && i < Horizon && s.forecast[i].priceCkwh == high
  {
    var window := s.forecast[..WindowLength(s.forecast)];
    var ps := Prices(window);
    var high := MaxOf(ps);
    assert forall i :: 0 <= i < |window| ==> ps[i] == s.forecast[i].priceCkwh;
    high
  }

  /** `Math.round`: the nearest integer, halves rounded up. */
  function Round(x: real): (n: int)
    ensures n as real - 0.5 <= x < n as real + 0.5
  {
    (x + 0.5).Floor
  }

  /** The price as shown, rounded to three decimals. */
  function DisplayPrice(p: real): (shown: real)
    ensures (shown * 1000.0).Floor as real == shown * 1000.0
    ensures p - 0.0005 < shown <= p + 0.0005
  {
    Round(p * 1000.0) as real / 1000.0
  }

  /** The snapshots for which the intensity is a finite number: the forecast
      is not empty (no `-Infinity` high) and the range is not degenerate
      (no division by zero). */
  predicate Classifiable(s: Snapshot, history: seq<Item>)
  {
    |s.forecast| > 0 && CalculateHigh(s) != CalculateLow(s, history)
  }

  /** The exact position of the current price between the low and the
      forecast high, in percent. */
  ghost function Position(s: Snapshot, history: seq<Item>): real
    requires Classifiable(s, history)
  {
    var low := CalculateLow(s, history);
    (s.now.priceCkwh - low) / (CalculateHigh(s) - low) * 100.0
  }

  /** The intensity percentage: the position, rounded half-up. */
  function Intensity(s: Snapshot, history: seq<Item>): (pct: int)
    requires Classifiable(s, history)
    ensures pct as real - 0.5 <= Position(s, history) < pct as real + 0.5
  {
    var low := CalculateLow(s, history);
    Round((s.now.priceCkwh - low) / (CalculateHigh(s) - low) * 100.0)
  }

  /** The low-price flag: cheap in cents, or low in the day's range. */
  function DefineLow(config: Config, s: Snapshot, history: seq<Item>): (low: bool)
    requires Classifiable(s, history)
    ensures s.now.priceCkwh <= config.lowPriceCents ==> low
    ensures Intensity(s, history) as real <= config.lowPricePercentage ==> low
    ensures low ==>
      (s.now.priceCkwh <= config.lowPriceCents || Intensity(s, history) as real <= config.lowPricePercentage)
  {
    s.now.priceCkwh <= config.lowPriceCents
    || Intensity(s, history) as real <= config.lowPricePercentage
  }

  /** The high-price flag: dear in cents, and high in the day's range. */
  function DefineHigh(config: Config, s: Snapshot, history: seq<Item>): (high: bool)
    requires Classifiable(s, history)
    ensures s.now.priceCkwh <= config.highPriceCents ==> !high
    ensures Intensity(s, history) as real <= config.highPricePercentage ==> !high
    ensures (s.now.priceCkwh > config.highPriceCents && Intensity(s, history) as real > config.highPricePercentage)
      ==> high
  {
    s.now.priceCkwh > config.highPriceCents
    && Intensity(s, history) as real > config.highPricePercentage
  }

  // ---------------------------------------------------------------------
  // Properties of the low and the high

  /** With no history the low is the feed's own low for the day. */
  lemma LowWithoutHistory(s: Snapshot)
    ensures CalculateLow(s, []) == s.now.lowCkwh
  {
  }

  /** Appending to `ps` lowers the minimum by at most the new value. */
  lemma {:induction false} MinWithAppend(ps: seq<real>, x: real, bound: real)
    ensures MinWith(ps + [x], bound) == Min(MinWith(ps, bound), x)
  {
    if |ps| > 0 {
      assert (ps + [x])[1..] == ps[1..] + [x];
      MinWithAppend(ps[1..], x, bound);
    }
  }

  /** Extending the history by one reading: the new low is the old low or
      the new reading's price, whichever is smaller. So over a run of
      readings the low is the minimum of all of them and the feed's low. */
  lemma LowAfterAppend(s: Snapshot, history: seq<Item>, item: Item)
    ensures CalculateLow(s, history + [item]) == Min(CalculateLow(s, history), item.priceCkwh)
  {
    assert Prices(history + [item]) == Prices(history) + [item.priceCkwh];
    MinWithAppend(Prices(history), item.priceCkwh, s.now.lowCkwh);
  }

  /** The low only depends on the history's prices, not on their order. */
  lemma LowIgnoresOrder(s: Snapshot, h1: seq<Item>, h2: seq<Item>)
    requires multiset(Prices(h1)) == multiset(Prices(h2))
    ensures CalculateLow(s, h1) == CalculateLow(s, h2)
  {
    var l1, l2 := CalculateLow(s, h1), CalculateLow(s, h2);
    forall i | 0 <= i < |h1| ensures l2 <= h1[i].priceCkwh {
      assert Prices(h1)[i] in multiset(Prices(h2));
    }
    forall i | 0 <= i < |h2| ensures l1 <= h2[i].priceCkwh {
      assert Prices(h2)[i] in multiset(Prices(h1));
    }
    if l1 != s.now.lowCkwh {
      var i :| 0 <= i < |h1| && h1[i].priceCkwh == l1;
      assert l2 <= l1;
    }
    if l2 != s.now.lowCkwh {
      var i :| 0 <= i < |h2| && h2[i].priceCkwh == l2;
      assert l1 <= l2;
    }
  }

  /** The high only looks at the first `Horizon` hours: two forecasts that
      agree there have the same high, whatever follows. */
  lemma HighIgnoresLaterHours(s1: Snapshot, s2: Snapshot)
    requires |s1.forecast| >= Horizon && |s2.forecast| >= Horizon
    requires forall i :: 0 <= i < Horizon ==> s1.forecast[i].priceCkwh == s2.forecast[i].priceCkwh
    ensures CalculateHigh(s1) == CalculateHigh(s2)
  {
    var h1, h2 := CalculateHigh(s1), CalculateHigh(s2);
    var i1 :| 0 <= i1 < |s1.forecast| && i1 < Horizon && s1.forecast[i1].priceCkwh == h1;
    var i2 :| 0 <= i2 < |s2.forecast| && i2 < Horizon && s2.forecast[i2].priceCkwh == h2;
    assert h1 <= h2 && h2 <= h1;
  }

  /** A forecast shorter than the horizon is used whole. */
  lemma HighOfShortForecast(s: Snapshot)
    requires 0 < |s.forecast| <= Horizon
    ensures forall i :: 0 <= i < |s.forecast| ==> s.forecast[i].priceCkwh <= CalculateHigh(s)
    ensures exists i :: 0 <= i < |s.forecast| && s.forecast[i].priceCkwh == CalculateHigh(s)
  {
    var i :| 0 <= i < |s.forecast| && i < Horizon && s.forecast[i].priceCkwh == CalculateHigh(s);
  }

  // ---------------------------------------------------------------------
  // Properties of the rounding and the intensity

  /** Rounding leaves integers alone and sends halves up. */
  lemma RoundHalfUp(n: int)
    ensures Round(n as real) == n
    ensures Round(n as real + 0.5) == n + 1
    ensures Round(n as real - 0.5) == n
  {
  }

  /** Rounding never reverses the order of two numbers. */
  lemma RoundMonotone(x: real, y: real)
    requires x <= y
    ensures Round(x) <= Round(y)
  {
  }

  /** At the low the intensity is 0; at the forecast high it is 100. */
  lemma IntensityEnds(s: Snapshot, history: seq<Item>)
    requires Classifiable(s, history)
    ensures s.now.priceCkwh == CalculateLow(s, history) ==> Intensity(s, history) == 0
    ensures s.now.priceCkwh == CalculateHigh(s) ==> Intensity(s, history) == 100
  {
    var low, high := CalculateLow(s, history), CalculateHigh(s);
    if s.now.priceCkwh == high {
      assert (s.now.priceCkwh - low) / (high - low) == 1.0;
      RoundHalfUp(100);
    }
    if s.now.priceCkwh == low {
      RoundHalfUp(0);
    }
  }

  /** A part of a positive whole is a fraction between 0 and 1. */
  lemma FractionInUnit(a: real, d: real)
    requires 0.0 <= a <= d && d > 0.0
    ensures 0.0 <= a / d <= 1.0
  {
  }

  /** When the high is above the low, a price between them has an intensity
      between 0 and 100; outside them the intensity is not clamped. */
  lemma IntensityInRange(s: Snapshot, history: seq<Item>)
    requires Classifiable(s, history)
    requires CalculateLow(s, history) <= s.now.priceCkwh <= CalculateHigh(s)
    ensures 0 <= Intensity(s, history) <= 100
  {
    var low, high := CalculateLow(s, history), CalculateHigh(s);
    var ratio := (s.now.priceCkwh - low) / (high - low);
    FractionInUnit(s.now.priceCkwh - low, high - low);
    RoundMonotone(0.0, ratio * 100.0);
    RoundMonotone(ratio * 100.0, 100.0);
    RoundHalfUp(0);
    RoundHalfUp(100);
  }

  /** With the same low and a forecast high above it, a higher price never
      has a lower intensity. (When the high is below the low the order is
      reversed.) */
  lemma IntensityMonotone(s1: Snapshot, s2: Snapshot, history: seq<Item>)
    requires Classifiable(s1, history) && Classifiable(s2, history)
    requires CalculateLow(s1, history) == CalculateLow(s2, history)
    requires CalculateHigh(s1) == CalculateHigh(s2) > CalculateLow(s1, history)
    requires s1.now.priceCkwh <= s2.now.priceCkwh
    ensures Intensity(s1, history) <= Intensity(s2, history)
  {
    var low, high := CalculateLow(s1, history), CalculateHigh(s1);
    var d := high - low;
    RoundMonotone((s1.now.priceCkwh - low) / d * 100.0, (s2.now.priceCkwh - low) / d * 100.0);
  }

  // ---------------------------------------------------------------------
  // Properties of the two flags

  /** When each low threshold is at most its high counterpart, a price is
      never flagged low and high at once. The source does not enforce this
      configuration. */
  lemma FlagsDisjoint(config: Config, s: Snapshot, history: seq<Item>)
    requires Classifiable(s, history)
    requires config.lowPriceCents <= config.highPriceCents
    requires config.lowPricePercentage <= config.highPricePercentage
    ensures !(DefineLow(config, s, history) && DefineHigh(config, s, history))
  {
  }

  // ---------------------------------------------------------------------
  // Worked examples

  /** The thresholds of the examples: low at 2 cents or 10%, high above
      5 cents and 80%. */
  function ExampleConfig(): Config
  {
    Config(2.0, 10.0, 5.0, 80.0)
  }

  /** A forecast of 1, 2, ..., 10 cents followed by eight hours at 5 cents. */
  function ExampleForecast(): (f: seq<Item>)
    ensures |f| == Horizon
  {
    seq(18, i => Item(if i < 10 then (i + 1) as real else 5.0, 0.0, 0))
  }

  /** The example snapshot's high is its dearest first-18 hour, 10 cents. */
  lemma ExampleHigh(s: Snapshot)
    requires s.forecast == ExampleForecast()
    ensures CalculateHigh(s) == 10.0
  {
    var f := s.forecast;
    assert f[9].priceCkwh == 10.0;
    var i :| 0 <= i < |f| && i < Horizon && f[i].priceCkwh == CalculateHigh(s);
    assert f[i].priceCkwh <= 10.0;
  }

  /** A price of 3 cents with a day low of 1: 22%, neither low nor high. */
  lemma ExampleMidPrice()
    ensures var s := Snapshot(Item(3.0, 1.0, 0), ExampleForecast(), 300);
      && CalculateLow(s, []) == 1.0
      && CalculateHigh(s) == 10.0
      && Classifiable(s, [])
      && Intensity(s, []) == 22
      && !DefineLow(ExampleConfig(), s, [])
      && !DefineHigh(ExampleConfig(), s, [])
  {
    var s := Snapshot(Item(3.0, 1.0, 0), ExampleForecast(), 300);
    ExampleHigh(s);
    LowWithoutHistory(s);
    assert Intensity(s, []) == Round(2.0 / 9.0 * 100.0);
  }

  /** A price of 1.5 cents with the same forecast: 6% and under 2 cents, so
      flagged low (both conditions hold). */
  lemma ExampleCheapPrice()
    ensures var s := Snapshot(Item(1.5, 1.0, 0), ExampleForecast(), 300);
      && Classifiable(s, [])
      && Intensity(s, []) == 6
      && DefineLow(ExampleConfig(), s, [])
      && !DefineHigh(ExampleConfig(), s, [])
  {
    var s := Snapshot(Item(1.5, 1.0, 0), ExampleForecast(), 300);
    ExampleHigh(s);
    LowWithoutHistory(s);
    assert Intensity(s, []) == Round(0.5 / 9.0 * 100.0);
  }
}
