/**
 * A worked round: ten trading days a hundred days apart, priced
 * 10, 11, 9, 12, 12, 15, 14, 16, 17, 18, played on day 707, when only day 700
 * (calendar position 7) lies in the recency window.
 */
module Scenario {
  import opened GameErrors
  import opened TradingCalendar
  import opened StartDateSelector
  import opened GameStateBuilder
  import opened GameStepper

  const Days: seq<Date> := [0, 100, 200, 300, 400, 500, 600, 700, 800, 900]
  const Prices: seq<real> := [10.0, 11.0, 9.0, 12.0, 12.0, 15.0, 14.0, 16.0, 17.0, 18.0]

  function ExampleSeries(): (series: Series) {
    map[0 := 10.0, 100 := 11.0, 200 := 9.0, 300 := 12.0, 400 := 12.0,
        500 := 15.0, 600 := 14.0, 700 := 16.0, 800 := 17.0, 900 := 18.0]
  }

  /** Day 0 of the count is a Thursday, so this is the UTC day of the week. */
  function UtcWeekday(d: Date): (day: int) {
    (d + 4) % 7
  }

  /** The calendar of the example is its ten days in order. */
  lemma ExampleCalendar()
    ensures AllDatesAsc(ExampleSeries()) == Days
  {
    assert StrictlyAscending(Days);
    forall d ensures d in Days <==> d in ExampleSeries() {
      assert d in Days <==> d in ExampleSeries().Keys;
    }
    AscendingEnumerationUnique(AllDatesAsc(ExampleSeries()), Days);
  }

  /** On day 707 the start date is day 700, whatever the random number: it is the only trading day in the window `[607, 700]`. */
  lemma ExampleStartDate(rand: real)
    requires 0.0 <= rand < 1.0
    ensures RandomTradingStartDate(Days, 707, UtcWeekday, rand) == Ok(700)
  {
    assert Days[7] == 700;
    forall d | d in Days && InWindow(d, 707) ensures d == 700 {
      var i :| 0 <= i < |Days| && Days[i] == d;
    }
    SingleCandidateIsChosen(Days, 707, UtcWeekday, rand, 700);
  }

  /** A prepared state over the example that starts at position 7 shows days 0 to 700 with their prices. */
  lemma ExampleSeed(p: Prepared)
    requires WellPrepared(p)
    requires p.allDatesAsc == Days && p.series == ExampleSeries() && p.currentIndex == 7
    ensures p.seedDates == Days[..8]
    ensures p.seedPrices == Prices[..8]
  {
    SeedWindowShape(p);
    forall i | 0 <= i < 8 ensures p.seedPrices[i] == Prices[i] {
      assert p.seedDates[i] == Days[i];
    }
  }

  /** On day 707 the round starts at calendar position 7, with days 0 to 700 on the chart. */
  lemma ExamplePrepared(rand: real)
    requires 0.0 <= rand < 1.0
    ensures var r := PrepareGameState(ExampleSeries(), "ACME", 707, UtcWeekday, rand);
            && r.Ok?
            && r.value.allDatesAsc == Days
            && r.value.currentIndex == 7
            && r.value.seedDates == Days[..8]
            && r.value.seedPrices == Prices[..8]
            && r.value.score == 0
  {
    ExampleCalendar();
    ExampleStartDate(rand);
    IndexOfAscending(Days, 7);
    var r := PrepareGameState(ExampleSeries(), "ACME", 707, UtcWeekday, rand);
    ExampleSeed(r.value);
  }

  /** Guessing "up" at day 700 compares days 800 and 900, reveals day 900 and scores; then the data is exhausted. */
  method PlayExample() returns (score: nat)
    ensures score == 1
  {
    ExamplePrepared(0.5);
    var prepared := PrepareGameState(ExampleSeries(), "ACME", 707, UtcWeekday, 0.5).value;
    var game := new GameState.Start(prepared);
    var outcome := game.Step(true);
    assert outcome == Revealed(true, true, 900, 18.0);
    assert game.currentIndex == 8 && game.score == 1;
    outcome := game.Step(false);
    assert outcome == NoMoreData && !game.predictionEnabled;
    game.End();
    game.End();
    assert game.currentIndex == 8 && game.chartDates == Days[..8] + [900];
    score := game.score;
  }
}
