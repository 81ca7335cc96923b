# Griddy price accessory: a Dafny model

This project models the price logic of the Homebridge accessory in
`src/platformAccessory.ts`. The accessory polls an electricity spot-price feed
and keeps two pieces of state: the latest snapshot and a same-day history of
readings. From these it derives four signals:

- the price level, rounded to three decimals;
- an intensity percentage: where the current price sits between the day's
  low and the high of the next 18 forecast hours;
- a high-price flag: the price is dear in cents AND high in that range;
- a low-price flag: the price is cheap in cents OR low in that range.

The project has five modules:

- `Wrappers` (griddy.dfy): `Option` and `Result`.
- `Griddy` (griddy.dfy): the feed's records (`Item`, `Snapshot`) and the
  four configured thresholds (`Config`).
- `Classification` (classification.dfy): `calculateLow`, `calculateHigh`,
  `calculateIntensity`, `defineLow` and `defineHigh` as functions, with lemmas
  about them and two worked examples.
- `History` (history.dfy): the same-day filter and the history after a
  successful fetch.
- `Accessory` (accessory.dfy): the accessory as a class. It has the fields
  `latest` and `history`, a method `Update` for one fetch cycle, and the five
  HomeKit getters.

Modelling choices:

- Prices are `real`. `Math.round(x)` is `Floor(x + 0.5)`.
- An item's local date is an abstract day number. The clock's day
  (`moment()`) is the `today` parameter of `Update`.
- The feed call (`getData`) is an input: `Fetched(snapshot)` or `FetchFailed`.
- `setTimeout` becomes the returned `nextDelayMs`.
- The `updateCharacteristic` calls of a cycle become the returned `Published`
  record. A `None` field means the cycle did not push that value.
- The getters' callbacks become `Result` values.

Three behaviours of the code a reader might not expect:

- A successful cycle computes the published intensity and flags against the
  history as it was BEFORE the cycle. Items from an earlier day are dropped
  only afterwards (lines 97-117). So the first fetch of a new day still
  classifies against yesterday's readings. `NewDayRollover` shows this.
- The filter keeps the items dated on the clock's day (line 115), not on the
  new reading's day. The new reading is always appended.
- After a failed fetch the getters still answer from the stored snapshot
  (lines 141-170). `getStatus` stays true even though the failed cycle
  pushed StatusActive as false.

## Model

| member | source | states |
|---|---|---|
| Griddy.Prices | src/platformAccessory.ts:195 | the `map` to prices keeps the length and puts each item's price at the item's index |
| Classification.MinWith | src/platformAccessory.ts:195 | `Math.min(...ps, bound)` is at most `bound` and every element, and equals `bound` or one of the elements |
| Classification.MaxOf | src/platformAccessory.ts:200 | `Math.max(...ps)` of a non-empty list is at least every element and equals one of them |
| Classification.CalculateLow | src/platformAccessory.ts:193-196 | the low is at most the feed's `low_ckwh` and every history price, and equals one of them |
| Classification.WindowLength | src/platformAccessory.ts:200 | `slice(0, 18)` keeps 18 entries, or all of them when there are fewer |
| Classification.CalculateHigh | src/platformAccessory.ts:198-201 | the high is at least every price among the first 18 forecast hours and equals one of them |
| Classification.Round | src/platformAccessory.ts:174 | `Math.round` gives the integer n with n - 1/2 <= x < n + 1/2 |
| Classification.DisplayPrice | src/platformAccessory.ts:150 | the display price is a whole number of thousandths within 0.0005 of the price (half-up at the midpoint), i.e. `Math.round(p*1000)/1000` |
| Classification.Intensity | src/platformAccessory.ts:172-175 | the intensity is the exact percentage position (now - low)/(high - low)*100, rounded half-up |
| Classification.DefineLow | src/platformAccessory.ts:177-183 | the low flag is raised by price <= lowPriceCents alone, by intensity <= lowPricePercentage alone, and only by one of them (the OR as an if-and-only-if) |
| Classification.DefineHigh | src/platformAccessory.ts:185-191 | the high flag is off when price <= highPriceCents, off when intensity <= highPricePercentage, and on when both strict inequalities hold (the AND) |
| Classification.LowWithoutHistory | src/platformAccessory.ts:193-196 | with an empty history the low is `low_ckwh` |
| Classification.MinWithAppend | src/platformAccessory.ts:195 | appending x to the list gives min(old minimum, x) |
| Classification.LowAfterAppend | src/platformAccessory.ts:193-196 | one more reading in the history makes the low min(old low, its price) |
| Classification.LowIgnoresOrder | src/platformAccessory.ts:193-196 | histories with the same prices in any order give the same low |
| Classification.HighIgnoresLaterHours | src/platformAccessory.ts:198-201 | forecast entries at index 18 and later do not change the high |
| Classification.HighOfShortForecast | src/platformAccessory.ts:198-201 | a non-empty forecast shorter than 18 hours is used whole |
| Classification.RoundHalfUp | src/platformAccessory.ts:174 | rounding fixes integers and sends n + 1/2 up to n + 1 |
| Classification.RoundMonotone | src/platformAccessory.ts:174 | rounding preserves order |
| Classification.IntensityEnds | src/platformAccessory.ts:172-175 | the intensity is 0 at the low and 100 at the forecast high |
| Classification.IntensityInRange | src/platformAccessory.ts:172-175 | a price between the low and a higher high has intensity in 0..100 |
| Classification.IntensityMonotone | src/platformAccessory.ts:172-175 | with the same low and a forecast high above it, a higher price never has a lower intensity |
| Classification.FlagsDisjoint | src/platformAccessory.ts:177-191 | when each low threshold is at most its high counterpart, the two flags are never both true |
| Classification.ExampleHigh | src/platformAccessory.ts:198-201 | for the forecast 1..10 followed by eight 5s, the high is 10 |
| Classification.ExampleMidPrice | src/platformAccessory.ts:172-201 | price 3, day low 1, thresholds 2/10/5/80: low 1, high 10, intensity 22, neither flag |
| Classification.ExampleCheapPrice | src/platformAccessory.ts:172-201 | price 1.5 with that forecast: intensity 6 and under 2 cents (both low conditions hold), flagged low, not high |
| History.SameDay | src/platformAccessory.ts:115 | the filter keeps exactly the items dated today, and never grows the list |
| History.SameDayIsSubsequence | src/platformAccessory.ts:115 | the filter keeps the relative order of the items it keeps |
| History.SameDayAppend | src/platformAccessory.ts:115 | filtering a concatenation is the concatenation of the filtered parts |
| History.SameDayKeepsToday | src/platformAccessory.ts:115 | a history all from today is kept whole |
| History.SameDayDropsOtherDays | src/platformAccessory.ts:115 | a history with nothing from today is emptied |
| History.SameDayIdempotent | src/platformAccessory.ts:115 | filtering twice is filtering once |
| History.NextHistory | src/platformAccessory.ts:113-117 | the new history ends with the new reading. The items before it are all dated today, are exactly today's old items in their old order, and the length is at most old length + 1 |
| History.NextHistorySameDay | src/platformAccessory.ts:113-117 | when all old items are from today, the update only appends |
| History.NextHistoryNewDay | src/platformAccessory.ts:113-117 | when no old item is from today, the update leaves just the new reading |
| Accessory.Signals | src/platformAccessory.ts:88-110 | a successful cycle pushes StatusActive true, the display price (within 0.0005 of the price), the intensity as brightness, the high flag exactly when price > highPriceCents and intensity > highPricePercentage, and the low flag exactly when price <= lowPriceCents or intensity <= lowPricePercentage |
| Accessory.NoDataCycle | src/platformAccessory.ts:203-209 | a failed cycle pushes StatusActive and both On flags false, pushes no level or intensity, and retries after 10000 ms |
| Accessory.PriceAccessory.constructor | src/platformAccessory.ts:15-16 | a new accessory has no snapshot and an empty history |
| Accessory.PriceAccessory.Update | src/platformAccessory.ts:73-126 | on success: stores the snapshot, pushes the signals computed with the OLD history, delays `seconds_until_refresh * 1000` ms, then sets the history to NextHistory. On failure: state unchanged and the no-data cycle. A stored snapshot is never lost |
| Accessory.PriceAccessory.GetStatus | src/platformAccessory.ts:141-146 | true exactly when a snapshot is stored |
| Accessory.PriceAccessory.GetLevel | src/platformAccessory.ts:148-152 | fails with "No information available" exactly when no snapshot is stored. Otherwise it gives the display price, within 0.0005 of the stored price |
| Accessory.PriceAccessory.GetIntensity | src/platformAccessory.ts:154-158 | fails exactly when no snapshot is stored; otherwise the intensity against the current history |
| Accessory.PriceAccessory.GetIsHigh | src/platformAccessory.ts:160-164 | fails exactly when no snapshot is stored; otherwise the high flag against the current history |
| Accessory.PriceAccessory.GetIsLow | src/platformAccessory.ts:166-170 | fails exactly when no snapshot is stored; otherwise the low flag against the current history |
| Accessory.LowAfterCycleBoundsPrice | src/platformAccessory.ts:113-117 | after a successful cycle, the low the getters use is at most the current price |
| Accessory.RepeatedFailure | src/platformAccessory.ts:122-124 | two failed fetches in a row each push no data and retry after 10000 ms, and leave snapshot and history unchanged |
| Accessory.FreshAccessoryHasNoData | src/platformAccessory.ts:141-170 | on a new accessory the status is false before and after a failed fetch, and after it all four value reads fail with "No information available" |
| Accessory.NewDayRollover | src/platformAccessory.ts:97-117 | the first fetch of a new day is classified against yesterday's history, and the history then holds only the new reading |

## Left out

- Service and characteristic creation, registration and the accessory
  information (lines 22-69): framework wiring. The constructor's first call
  to `update()` (line 70) is left to the caller, who calls `Update`.
- `getData` (`./griddy-api`): an HTTP client that is not part of this model.
  Its outcome is the `FetchOutcome` input.
- `setTimeout`, `async`/`await`: the next delay is returned. There is no
  concurrency.
- `moment` dates and time zones: dates are abstract day numbers and the clock's
  day is a parameter.
- Logging (lines 74, 77-87, 123).
- IEEE-754 behaviour. An empty forecast (where `Math.max()` gives `-Infinity`)
  and a high equal to the low (a division by zero) are excluded by the
  precondition `Classifiable`. Float rounding error is not modelled.
- Accessory.PriceAccessory.Update: requires `Classifiable` for the snapshot
  against the old history, for the reason above. The getters that compute
  the intensity require it against the current history.
- The `else` branch at lines 118-121 cannot be reached: a falsy result of the
  fetch throws before line 88, at line 77 when it is `null` or `undefined`
  and at line 82 (reading `now.price_ckwh`) otherwise, so the `catch` runs
  instead.
- An exception raised inside the `try` after line 76 is not modelled: for
  example a response without `now`, which fails at line 82, or without
  `forecast`, which fails in the `calculateIntensity` call at line 83 when it
  reaches `slice` at line 200, or a throwing `updateCharacteristic`. The source then takes the no-data
  path with the new, malformed snapshot already stored in `latestGriddyData`
  (and possibly some characteristics already pushed). `FetchFailed` models
  only a rejection by `getData`, where nothing is stored; a snapshot in this
  model always has a `now` item and a forecast.
- The number types of the configuration and of `seconds_until_refresh` are
  taken as reals and a natural number. The feed's type definitions are not
  part of this model.
