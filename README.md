# Stock-Game: the game core, modelled in Dafny

Stock-Game is a browser game that fetches the daily adjusted-close prices of
one stock ticker. It opens a round on a randomly chosen recent trading day and
shows the eight trading days up to that day on a chart. The player then guesses,
again and again, whether the price went up or down. Each guess reveals one more
day and is scored.

This project models the part of `app.js` that decides what the game does:

- **Trading calendar** (`calendar.dfy`, module `TradingCalendar`). The keys of
  the date-to-price map are sorted newest first (`DatesDesc`) and reversed
  (`Reverse`), which gives the ascending calendar `AllDatesAsc`. `IndexOf`
  models `Array.prototype.indexOf`.
- **Start-date selection** (`selector.dfy`, module `StartDateSelector`).
  `RandomTradingStartDate` keeps the calendar dates inside the window
  `[today - 100, today - 7]` and fails with `NotEnoughRecentData` when none are
  left. It narrows the set to weekdays when any exist, then picks by
  `floor(rand * n)`. The clock (`today`), the day-of-week function (`weekday`,
  standing for `getUTCDay`) and the result of `Math.random()` (`rand`, in
  `[0, 1)`) are parameters.
- **Initial state** (`builder.dfy`, module `GameStateBuilder`).
  `PrepareGameState` builds the record the app keeps for a round: the
  calendar, the seed window of eight dates with their prices, the position of
  the start date and a score of zero. It fails with `InsufficientPriorDays`
  when the start date's position is below 7.
- **Playing a round** (`stepper.dfy`, module `GameStepper`). The class
  `GameState` stands for the state object that `stepGame` updates in place,
  with the chart's arrays kept apart from the seed window (see "Left out").
  `Step` stops
  when the position two places ahead does not exist. Otherwise it compares the
  prices one and two places ahead, with a strict `>`, so a tie counts as
  "down". It scores a correct guess, appends the date two places ahead to the
  chart and moves the position on by one. `End` switches prediction off and
  changes nothing else. The chart's label and data arrays are the fields
  `chartDates` and `chartPrices`. The enabled state of the three buttons is
  the field `predictionEnabled`.
- **A worked round** (`scenario.dfy`, module `Scenario`). Ten trading days
  priced 10, 11, 9, 12, 12, 15, 14, 16, 17, 18; the start is position 7. A
  guess of "up" compares positions 8 and 9, scores 1 and reveals position 9.
  The next guess finds no more data.
- `errors.dfy` (module `GameErrors`) holds the two errors and the result type.

Dates are whole day numbers; prices are reals; the series is a
`map<Date, real>`. The model keeps the stepping rule exactly as the code has
it, and proves its consequences:

- the position moves on by one per guess, but the revealed day is two places
  ahead;
- so the day right after the start date is never shown
  (`DayAfterStartNeverShown`);
- and after the first guess the chart ends one place past the current
  position (`LastShownIsAfterCurrent`).

The comment at `app.js:141` ("last visible index is the start date") holds
only before the first guess; after it, the last visible date is one place past
`currentIndex` (`LastShownIsAfterCurrent`). The model follows the code.

## Model

| member | source | states |
|---|---|---|
| `TradingCalendar.DatesDesc` | app.js:123 | the sorted keys hold each key exactly once (same length, same elements) and are strictly newest first |
| `TradingCalendar.Reverse` | app.js:124 | the reversal has the same length and position `i` holds the element `n-1-i` |
| `TradingCalendar.SameDatesReversed` | app.js:124 | reversing keeps exactly the same dates |
| `TradingCalendar.AllDatesAsc` | app.js:123-124 | the calendar holds exactly the series' dates, as many as there are keys, strictly oldest first |
| `TradingCalendar.AscendingHasNoDuplicates` | app.js:123-124 | no date appears twice in the calendar |
| `TradingCalendar.AscendingEnumerationUnique` | app.js:123-124 | two strictly ascending sequences of the same dates are equal, so the calendar is fixed by the key set alone |
| `TradingCalendar.IndexOf` | app.js:127 | -1 exactly when the date is absent; otherwise a position holding the date with no earlier occurrence |
| `TradingCalendar.IndexOfAscending` | app.js:127 | in the calendar, looking up the date at position `i` gives `i` |
| `TradingCalendar.PositionCountsEarlierDates` | app.js:127-128 | in a strictly ascending sequence, the position of a date equals the number of dates before it |
| `TradingCalendar.CalendarPositionCountsEarlier` | app.js:127-128 | the calendar position of a trading date equals the number of the series' dates earlier than it |
| `StartDateSelector.Filter` | app.js:59-71 | keeps exactly the elements the test accepts and is never longer than its input |
| `StartDateSelector.RandomIndex` | app.js:73 | `floor(rand * n)` with `rand` in `[0, 1)` is a valid position for any non-empty list of `n` |
| `StartDateSelector.RandomTradingStartDate` | app.js:52-75 | fails, always with NotEnoughRecentData, exactly when no calendar date is in `[today-100, today-7]`; otherwise returns a calendar date in that window, which is a weekday whenever some date in the window is |
| `StartDateSelector.FractionOfCount` | app.js:73 | the random number `i / n` lies in `[0, 1)` and picks position `i` |
| `StartDateSelector.EveryCandidateReachable` | app.js:72-74 | every candidate is the result for some random number in `[0, 1)` |
| `StartDateSelector.CandidatesAreEligible` | app.js:67-72 | candidates are calendar dates in the window; only weekdays when the window has one; the whole window when it has none |
| `StartDateSelector.SingleCandidateIsChosen` | app.js:59-74 | with a single date in the window, the selection is that date whatever the random number |
| `GameStateBuilder.PricesOf` | app.js:133 | one price per date, position by position the series' price of that date |
| `GameStateBuilder.InitialState` | app.js:132-143 | the state built at a valid start position satisfies every invariant of a prepared state and starts at that position |
| `GameStateBuilder.PrepareGameState` | app.js:121-144 | passes on the selector's error; otherwise fails with InsufficientPriorDays exactly when the start date's position is below 7; on success the position is that of the start date, the calendar is `AllDatesAsc` and the state is well prepared |
| `GameStateBuilder.SeedWindowShape` | app.js:132-142 | the seed window has 8 strictly ascending dates ending at the start date, each with its own price, and the score is 0 |
| `GameStateBuilder.InsufficientPriorDaysExactly` | app.js:126-130 | the start date is always found (never -1), and the attempt fails with InsufficientPriorDays exactly when fewer than 7 of the series' dates precede it |
| `GameStepper.VisibleDates` | app.js:164-181 | the chart holds 8 dates plus one per guess, all of them calendar dates |
| `GameStepper.VisibleDatesStep` | app.js:165-181 | a guess appends the date two places after the old position to the chart |
| `GameStepper.VisibleDatesAt` | app.js:132-181 | chart position `i` is a seed position `start-7+i`, or the revealed position `start+2+(i-8)` |
| `GameStepper.VisibleDatesAscending` | app.js:164-181 | the chart stays strictly chronological after any number of guesses |
| `GameStepper.DayAfterStartNeverShown` | app.js:157-181 | the trading day right after the start date never appears on the chart |
| `GameStepper.LastShownIsAfterCurrent` | app.js:141-181 | after the first guess the chart's last date is the one after the current position |
| `GameStepper.EndIdempotent` | app.js:218-222 | ending keeps position, score and chart, switches prediction off, and ending twice equals ending once |
| `GameStepper.GameState.Start` | app.js:146-153 | a round starts at the start position with score 0, the seed window on the chart and prediction enabled |
| `GameStepper.GameState.Step` | app.js:155-183 | no more data exactly when position+2 is out of range, and then only prediction is switched off; otherwise it reveals the date at old position+2 and its price, judges up as price(+2) > price(+1) strictly, scores 1 exactly when the guess matches, appends the day to the chart, moves the position on by exactly 1 and keeps `0 <= position < length` and every invariant |
| `GameStepper.GameState.End` | app.js:218-222 | switches prediction off and leaves position, score and chart unchanged |
| `Scenario.ExampleCalendar` | app.js:123-124 | the example's calendar is its ten days in order |
| `Scenario.ExampleStartDate` | app.js:52-75 | on day 707 the only date in the window, day 700, is chosen |
| `Scenario.ExampleSeed` | app.js:132-133 | starting at position 7 the seed window is the first eight days and their prices |
| `Scenario.ExamplePrepared` | app.js:121-144 | the example round starts at position 7 with score 0 |
| `Scenario.PlayExample` | app.js:155-183 | guessing up at position 7 scores 1; the next guess finds no more data; ending twice keeps the score |

## Left out

- `fetchDailyAdjusted` (app.js:35-50): network I/O and the checks of the JSON response. The model starts from a given date-to-price map.
- `buildChart`, `updateChart` (app.js:77-111): the chart widget. Only its label and data arrays are kept, as `chartDates` and `chartPrices`.
- `setError`, `setFeedback`, `renderInitial` and the event listeners (app.js:20-27, 146-153, 185-222): DOM wiring. The feedback message of a guess is represented by the `Outcome` value. `enablePrediction` (app.js:29-33) is represented only by the flag `predictionEnabled`. `Start` models the `enablePrediction(true)` of `renderInitial`.
- The submit handler's trimming and upper-casing of the ticker and its empty-ticker error (app.js:191-195) are input handling outside the game core.
- The `if (!gameState) return;` guards of the button handlers (app.js:209, 214, 219): the model's methods are called on an existing round.
- `formatDate` (app.js:113-119): unused, and it depends on local-time `Date` parsing.
- JS `Date` arithmetic and time zones (app.js:53-61, 69): dates are day numbers and the window is `[today-100, today-7]` on day numbers, inclusive. `today` in the code carries the time of day while a `YYYY-MM-DD` key parses to UTC midnight, and `setDate` counts local calendar days. The code's bounds can therefore differ by a day from the day-number window: day `today-100` is usually excluded. The model does not capture this.
- Keys that are not valid dates (a `NaN` in the sort comparator) are not modelled; every key is a day number.
- `getUTCDay` (app.js:69) is the parameter `weekday`; the scenario uses `(d + 4) % 7`, day 0 being a Thursday.
- `Math.random` (app.js:73) is the parameter `rand` in `[0, 1)`. Floating-point rounding of `rand * n` is not modelled.
- `parseFloat` (app.js:133, 166-167): prices are exact reals; a price that does not parse (`NaN`, whose comparison is always false and so reads as "down") is not modelled.
- The API key and URL constants (app.js:1-2).
- Aliasing of the seed window with the chart: in the program `renderInitial` passes `state.seedDates` and `state.seedPrices` to `buildChart` (app.js:148), which uses them as the chart's label and data arrays (app.js:82, 85), and `updateChart` pushes onto those same arrays (app.js:108-109). So the state object's `seedDates` and `seedPrices` grow by one with each reveal. The model keeps `seedDates`/`seedPrices` as the constant eight-day window and holds the chart in the separate fields `chartDates`/`chartPrices`. Nothing reads `seedDates` or `seedPrices` after app.js:149, so no outcome, score or position depends on the difference.
- StartDateSelector.Filter: states which elements are kept and a length bound, not that the kept elements keep their relative order; nothing in the model relies on that order.
