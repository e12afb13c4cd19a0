/**
 * Building the initial state of a round (prepareGameState, app.js:121-144):
 * the calendar, the chosen start date, the eight-day seed window shown on the
 * chart, and the counters the round starts from.
 */
module GameStateBuilder {
  import opened GameErrors
  import opened TradingCalendar
  import opened StartDateSelector

  /** Trading days shown before the start date, and the length of the seed window. */
  const PriorDays := 7
  const SeedLength := PriorDays + 1

  /** The record prepareGameState returns (app.js:135-143). */
  datatype Prepared = Prepared(
    symbol: string,
    allDatesAsc: seq<Date>,
    series: Series,
    seedDates: seq<Date>,
    seedPrices: seq<real>,
    currentIndex: int,
    score: nat)

  /** The price of each date, in the dates' order (app.js:133). */
  function PricesOf(series: Series, dates: seq<Date>): (prices: seq<real>)
    requires forall i :: 0 <= i < |dates| ==> dates[i] in series
    ensures |prices| == |dates|
    ensures forall i :: 0 <= i < |dates| ==> prices[i] == series[dates[i]]
  {
    seq(|dates|, i requires 0 <= i < |dates| => series[dates[i]])
  }

  /** What holds of every state prepareGameState returns. */
  ghost predicate WellPrepared(p: Prepared) {
    && StrictlyAscending(p.allDatesAsc)
    && (forall d :: d in p.allDatesAsc <==> d in p.series)
    && PriorDays <= p.currentIndex < |p.allDatesAsc|
    && p.seedDates == p.allDatesAsc[p.currentIndex - PriorDays .. p.currentIndex + 1]
    && p.seedPrices == PricesOf(p.series, p.seedDates)
    && p.score == 0
  }

  /** The state of a round that starts at calendar position `startIndex` (app.js:132-143). */
  function InitialState(symbol: string, allDatesAsc: seq<Date>, series: Series, startIndex: int): (p: Prepared)
    requires StrictlyAscending(allDatesAsc)
    requires forall d :: d in allDatesAsc <==> d in series
    requires PriorDays <= startIndex < |allDatesAsc|
    ensures WellPrepared(p)
    ensures p.symbol == symbol && p.allDatesAsc == allDatesAsc && p.series == series
    ensures p.currentIndex == startIndex
  {
    var seedDates := allDatesAsc[startIndex - PriorDays .. startIndex + 1];
    assert forall i :: 0 <= i < |seedDates| ==> seedDates[i] == allDatesAsc[startIndex - PriorDays + i];
    assert forall i :: 0 <= i < |seedDates| ==> seedDates[i] in allDatesAsc;
    Prepared(symbol, allDatesAsc, series, seedDates, PricesOf(series, seedDates), startIndex, 0)
  }

  /**
   * The initial state of a round for `series`, or the error that ends the
   * attempt (app.js:121-144): the selector's error, or InsufficientPriorDays
   * when fewer than seven calendar positions precede the start date.
   */
  function PrepareGameState(series: Series, symbol: string, today: Date, weekday: Date -> int, rand: real): (r: Result<Prepared>)
    requires 0.0 <= rand < 1.0
    ensures var cal := AllDatesAsc(series);
            var sel := RandomTradingStartDate(cal, today, weekday, rand);
            && (sel.Err? ==> r == Err(sel.error))
            && (sel.Ok? ==> (r.Err? <==> IndexOf(cal, sel.value) < PriorDays))
            && (sel.Ok? && r.Err? ==> r.error == InsufficientPriorDays)
            && (r.Ok? ==> && sel.Ok?
                          && r.value.currentIndex == IndexOf(cal, sel.value)
                          && r.value.allDatesAsc == cal
                          && r.value.allDatesAsc[r.value.currentIndex] == sel.value)
    ensures r.Ok? ==> WellPrepared(r.value) && r.value.symbol == symbol && r.value.series == series
  {
    var allDatesAsc := AllDatesAsc(series);
    match RandomTradingStartDate(allDatesAsc, today, weekday, rand)
    case Err(e) => Err(e)
    case Ok(startDate) =>
      var startIndex := IndexOf(allDatesAsc, startDate);
      if startIndex < PriorDays || startIndex == -1 then
        Err(InsufficientPriorDays)
      else
        Ok(InitialState(symbol, allDatesAsc, series, startIndex))
  }

  /**
   * The seed window of a prepared state: eight ascending calendar dates
   * ending at the start date, each with its own price, and the counters at
   * their starting values (app.js:132-142).
   */
  lemma SeedWindowShape(p: Prepared)
    requires WellPrepared(p)
    ensures |p.seedDates| == SeedLength && |p.seedPrices| == SeedLength
    ensures StrictlyAscending(p.seedDates)
    ensures p.seedDates[SeedLength - 1] == p.allDatesAsc[p.currentIndex]
    ensures forall i :: 0 <= i < SeedLength ==> p.seedDates[i] in p.series && p.seedPrices[i] == p.series[p.seedDates[i]]
    ensures p.score == 0
  {
    forall i | 0 <= i < SeedLength ensures p.seedDates[i] in p.series {
      assert p.seedDates[i] == p.allDatesAsc[p.currentIndex - PriorDays + i];
    }
  }

  /**
   * The start-index check rejects a start date exactly when fewer than seven
   * trading dates of the series precede it; the "not found" case of the
   * lookup never arises, because the start date is drawn from the calendar.
   */
  lemma InsufficientPriorDaysExactly(series: Series, symbol: string, today: Date, weekday: Date -> int, rand: real)
    requires 0.0 <= rand < 1.0
    ensures var sel := RandomTradingStartDate(AllDatesAsc(series), today, weekday, rand);
            sel.Ok? ==>
              && IndexOf(AllDatesAsc(series), sel.value) != -1
              && (PrepareGameState(series, symbol, today, weekday, rand) == Err(InsufficientPriorDays)
                  <==> |set d | d in series && d < sel.value| < PriorDays)
  {
    var cal := AllDatesAsc(series);
    var sel := RandomTradingStartDate(cal, today, weekday, rand);
    if sel.Ok? {
      var i := IndexOf(cal, sel.value);
      var r := PrepareGameState(series, symbol, today, weekday, rand);
      assert r == Err(InsufficientPriorDays) <==> i < PriorDays;
      CalendarPositionCountsEarlier(series, sel.value);
    }
  }
}
