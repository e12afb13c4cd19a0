/**
 * The running round (stepGame, app.js:155-183, and the end button,
 * app.js:218-222). The state object is updated in place: each guess moves the
 * current position on by one trading day, scores the guess and appends one
 * point to the chart.
 */
module GameStepper {
  import opened TradingCalendar
  import opened GameStateBuilder

  /** What one guess produces: the end of the data, or the revealed day and the verdict. */
  datatype Outcome =
    | NoMoreData
    | Revealed(correct: bool, wentUp: bool, date: Date, price: real)

  /**
   * The dates on the chart of a round that started at calendar position
   * `startIndex` and has moved on to `currentIndex`: the seed window, then one
   * date per guess. Each guess reveals the date two places after the current
   * one, so the first revealed date is `startIndex + 2`.
   */
  function VisibleDates(dates: seq<Date>, startIndex: int, currentIndex: int): (shown: seq<Date>)
    requires PriorDays <= startIndex <= currentIndex < |dates|
    requires currentIndex == startIndex || currentIndex + 1 < |dates|
    ensures |shown| == SeedLength + (currentIndex - startIndex)
    ensures forall i :: 0 <= i < |shown| ==> shown[i] in dates
  {
    var seed := dates[startIndex - PriorDays .. startIndex + 1];
    var revealed := seq(currentIndex - startIndex, k requires 0 <= k < currentIndex - startIndex => dates[startIndex + 2 + k]);
    assert forall i :: 0 <= i < |seed| ==> seed[i] == dates[startIndex - PriorDays + i];
    seed + revealed
  }

  /** One more guess appends the date two places after the old current position. */
  lemma VisibleDatesStep(dates: seq<Date>, startIndex: int, currentIndex: int)
    requires PriorDays <= startIndex <= currentIndex
    requires currentIndex + 2 < |dates|
    ensures VisibleDates(dates, startIndex, currentIndex + 1)
            == VisibleDates(dates, startIndex, currentIndex) + [dates[currentIndex + 2]]
  {
    var a := VisibleDates(dates, startIndex, currentIndex + 1);
    var b := VisibleDates(dates, startIndex, currentIndex) + [dates[currentIndex + 2]];
    assert |a| == |b|;
    forall i | 0 <= i < |a| ensures a[i] == b[i] {
      if i < SeedLength {
        assert a[i] == dates[startIndex - PriorDays + i];
      } else {
        assert a[i] == dates[startIndex + 2 + (i - SeedLength)];
      }
    }
  }

  /** Position `i` of the chart shows calendar position `VisiblePosition(startIndex, i)`. */
  function VisiblePosition(startIndex: int, i: int): (pos: int) {
    if i < SeedLength then startIndex - PriorDays + i else startIndex + 2 + (i - SeedLength)
  }

  lemma VisibleDatesAt(dates: seq<Date>, startIndex: int, currentIndex: int, i: int)
    requires PriorDays <= startIndex <= currentIndex < |dates|
    requires currentIndex == startIndex || currentIndex + 1 < |dates|
    requires 0 <= i < SeedLength + (currentIndex - startIndex)
    ensures 0 <= VisiblePosition(startIndex, i) < |dates|
    ensures VisibleDates(dates, startIndex, currentIndex)[i] == dates[VisiblePosition(startIndex, i)]
  {
  }

  /** The chart stays in chronological order, however many guesses were made. */
  lemma VisibleDatesAscending(dates: seq<Date>, startIndex: int, currentIndex: int)
    requires StrictlyAscending(dates)
    requires PriorDays <= startIndex <= currentIndex < |dates|
    requires currentIndex == startIndex || currentIndex + 1 < |dates|
    ensures StrictlyAscending(VisibleDates(dates, startIndex, currentIndex))
  {
    var shown := VisibleDates(dates, startIndex, currentIndex);
    forall i, j | 0 <= i < j < |shown| ensures shown[i] < shown[j] {
      VisibleDatesAt(dates, startIndex, currentIndex, i);
      VisibleDatesAt(dates, startIndex, currentIndex, j);
    }
  }

  /**
   * The trading day right after the start date is never put on the chart:
   * the first guess reveals the day after it, and every later guess a later
   * day still.
   */
  lemma DayAfterStartNeverShown(dates: seq<Date>, startIndex: int, currentIndex: int)
    requires StrictlyAscending(dates)
    requires PriorDays <= startIndex <= currentIndex
    requires startIndex + 1 < |dates|
    requires currentIndex == startIndex || currentIndex + 1 < |dates|
    ensures dates[startIndex + 1] !in VisibleDates(dates, startIndex, currentIndex)
  {
    var shown := VisibleDates(dates, startIndex, currentIndex);
    forall i | 0 <= i < |shown| ensures shown[i] != dates[startIndex + 1] {
      VisibleDatesAt(dates, startIndex, currentIndex, i);
    }
  }

  /** After the first guess the chart ends one place PAST the current position, not at it. */
  lemma LastShownIsAfterCurrent(dates: seq<Date>, startIndex: int, currentIndex: int)
    requires PriorDays <= startIndex < currentIndex
    requires currentIndex + 1 < |dates|
    ensures var shown := VisibleDates(dates, startIndex, currentIndex);
            shown[|shown| - 1] == dates[currentIndex + 1]
  {
    var shown := VisibleDates(dates, startIndex, currentIndex);
    VisibleDatesAt(dates, startIndex, currentIndex, |shown| - 1);
  }

  /** The parts of the state a user action can change. */
  datatype Progress = Progress(
    currentIndex: int,
    score: nat,
    chartDates: seq<Date>,
    chartPrices: seq<real>,
    predictionEnabled: bool)

  /** The effect of the end button (app.js:218-222): prediction is switched off, nothing else changes. */
  function Ended(p: Progress): (q: Progress) {
    p.(predictionEnabled := false)
  }

  /** Ending a round that has already ended changes nothing. */
  lemma EndIdempotent(p: Progress)
    ensures Ended(Ended(p)) == Ended(p)
    ensures Ended(p).currentIndex == p.currentIndex && Ended(p).score == p.score
    ensures Ended(p).chartDates == p.chartDates && Ended(p).chartPrices == p.chartPrices
    ensures !Ended(p).predictionEnabled
  {
  }

  /**
   * The state object of a running round. `chartDates` and `chartPrices` are
   * the label and data arrays of the chart (seeded by renderInitial, app.js:148,
   * and appended to by updateChart, app.js:108-109); `predictionEnabled`
   * stands for the state of the guess buttons (enablePrediction, app.js:29-33).
   * In the program the chart arrays are the very arrays held in `seedDates` and
   * `seedPrices`; here the seed window stays constant and the chart is kept apart.
   */
  class GameState {
    const symbol: string
    const allDatesAsc: seq<Date>
    const series: Series
    const seedDates: seq<Date>
    const seedPrices: seq<real>
    ghost const startIndex: int
    var currentIndex: int
    var score: nat
    var chartDates: seq<Date>
    var chartPrices: seq<real>
    var predictionEnabled: bool

    ghost predicate Valid()
      reads this
    {
      && StrictlyAscending(allDatesAsc)
      && (forall d :: d in allDatesAsc <==> d in series)
      && PriorDays <= startIndex <= currentIndex < |allDatesAsc|
      && (currentIndex == startIndex || currentIndex + 1 < |allDatesAsc|)
      && seedDates == allDatesAsc[startIndex - PriorDays .. startIndex + 1]
      && |seedPrices| == |seedDates|
      && (forall i :: 0 <= i < |seedDates| ==> seedDates[i] in series && seedPrices[i] == series[seedDates[i]])
      && chartDates == VisibleDates(allDatesAsc, startIndex, currentIndex)
      && |chartPrices| == |chartDates|
      && (forall i :: 0 <= i < |chartDates| ==> chartDates[i] in series && chartPrices[i] == series[chartDates[i]])
      && score <= currentIndex - startIndex
    }

    ghost function Snapshot(): Progress
      reads this
    {
      Progress(currentIndex, score, chartDates, chartPrices, predictionEnabled)
    }

    /**
     * The round that a prepared state begins (renderInitial, app.js:146-153): the chart shows
     * the seed window and the guess buttons are enabled.
     */
    constructor Start(p: Prepared)
      requires WellPrepared(p)
      ensures Valid()
      ensures symbol == p.symbol && allDatesAsc == p.allDatesAsc && series == p.series
      ensures seedDates == p.seedDates && seedPrices == p.seedPrices
      ensures startIndex == p.currentIndex && currentIndex == p.currentIndex && score == 0
      ensures chartDates == p.seedDates && chartPrices == p.seedPrices
      ensures predictionEnabled
    {
      SeedWindowShape(p);
      symbol := p.symbol;
      allDatesAsc := p.allDatesAsc;
      series := p.series;
      seedDates := p.seedDates;
      seedPrices := p.seedPrices;
      startIndex := p.currentIndex;
      currentIndex := p.currentIndex;
      score := p.score;
      chartDates := p.seedDates;
      chartPrices := p.seedPrices;
      predictionEnabled := true;
      new;
      assert VisibleDates(allDatesAsc, startIndex, currentIndex) == seedDates;
    }

    /**
     * One guess (stepGame, app.js:155-183). When the day after next is
     * missing, prediction is switched off and nothing else changes. Otherwise
     * the price move from `currentIndex + 1` to `currentIndex + 2` is judged
     * (strictly up, so a tie counts as down), a correct guess scores one point,
     * the day at `currentIndex + 2` is appended to the chart and the current
     * position moves on by one.
     */
    method Step(guessUp: bool) returns (outcome: Outcome)
      requires Valid()
      modifies this
      ensures Valid()
      ensures 0 <= currentIndex < |allDatesAsc|
      ensures outcome.NoMoreData? <==> old(currentIndex) + 2 >= |allDatesAsc|
      ensures outcome.NoMoreData? ==>
                && currentIndex == old(currentIndex) && score == old(score)
                && chartDates == old(chartDates) && chartPrices == old(chartPrices)
                && !predictionEnabled
      ensures outcome.Revealed? ==>
                && outcome.date == allDatesAsc[old(currentIndex) + 2]
                && outcome.date in series && allDatesAsc[old(currentIndex) + 1] in series
                && outcome.price == series[outcome.date]
                && outcome.wentUp == (series[outcome.date] > series[allDatesAsc[old(currentIndex) + 1]])
                && outcome.correct == (guessUp == outcome.wentUp)
                && currentIndex == old(currentIndex) + 1
                && score == (if outcome.correct then old(score) + 1 else old(score))
                && chartDates == old(chartDates) + [outcome.date]
                && chartPrices == old(chartPrices) + [outcome.price]
                && predictionEnabled == old(predictionEnabled)
    {
      var nextIndex := currentIndex + 1;
      if nextIndex + 1 >= |allDatesAsc| {
        predictionEnabled := false;
        return NoMoreData;
      }
      var prevDate := allDatesAsc[nextIndex];
      var nextDate := allDatesAsc[nextIndex + 1];
      assert prevDate in allDatesAsc && nextDate in allDatesAsc;
      var prevPrice := series[prevDate];
      var nextPrice := series[nextDate];

      var wentUp := nextPrice > prevPrice;
      var correct := (guessUp && wentUp) || (!guessUp && !wentUp);
      if correct {
        score := score + 1;
      }

      VisibleDatesStep(allDatesAsc, startIndex, currentIndex);
      chartDates := chartDates + [nextDate];
      chartPrices := chartPrices + [nextPrice];
      currentIndex := nextIndex;
      outcome := Revealed(correct, wentUp, nextDate, nextPrice);
    }

    /** The end button (app.js:218-222): prediction is switched off; the score, the position and the chart stay. */
    method End()
      requires Valid()
      modifies this
      ensures Valid()
      ensures Snapshot() == Ended(old(Snapshot()))
    {
      predictionEnabled := false;
    }
  }
}
