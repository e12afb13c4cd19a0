/**
 * Choosing the trading day that plays the part of "today" in a round
 * (getRandomTradingStartDate, app.js:52-75). The clock, the day-of-week
 * function and the random number are parameters.
 */
module StartDateSelector {
  import opened GameErrors
  import opened TradingCalendar

  /** How far back the window opens, and how recent a start date may be, in days. */
  const LookbackDays := 100
  const MinAgeDays := 7

  /** Day-of-week numbers of the weekend, as getUTCDay numbers them. */
  const Sunday := 0
  const Saturday := 6

  function MinDate(today: Date): (earliest: Date) { today - LookbackDays }
  function MaxDate(today: Date): (latest: Date) { today - MinAgeDays }

  /** `d` lies in the recency window `[today - 100, today - 7]`. */
  predicate InWindow(d: Date, today: Date) {
    MinDate(today) <= d <= MaxDate(today)
  }

  /** `d` falls neither on a Sunday nor on a Saturday. */
  predicate IsWeekday(weekday: Date -> int, d: Date) {
    weekday(d) != Sunday && weekday(d) != Saturday
  }

  /** The elements of `s` that `keep` accepts, in their order (Array.prototype.filter). */
  function Filter(s: seq<Date>, keep: Date -> bool): (r: seq<Date>)
    ensures |r| <= |s|
    ensures forall d :: d in r <==> d in s && keep(d)
  {
    if s == [] then []
    else
      var rest := Filter(s[1..], keep);
      assert forall d :: d in s <==> d == s[0] || d in s[1..];
      if keep(s[0]) then [s[0]] + rest else rest
  }

  /** The dates of the calendar inside the recency window (app.js:59-62). */
  function WithinRangeDates(allDates: seq<Date>, today: Date): (inRange: seq<Date>) {
    Filter(allDates, d => InWindow(d, today))
  }

  /** The weekdays among `dates` (app.js:68-71). */
  function WeekdayDates(dates: seq<Date>, weekday: Date -> int): (weekdays: seq<Date>) {
    Filter(dates, d => IsWeekday(weekday, d))
  }

  /** The dates the pick is drawn from: the weekdays in the window, or the whole window if it has none (app.js:72). */
  function PickFrom(allDates: seq<Date>, today: Date, weekday: Date -> int): (pick: seq<Date>) {
    var within := WithinRangeDates(allDates, today);
    var weekdays := WeekdayDates(within, weekday);
    if |weekdays| > 0 then weekdays else within
  }

  /** `Math.floor(rand * n)` for a random number `rand` in `[0, 1)`: a position in a list of `n` (app.js:73). */
  function RandomIndex(rand: real, n: nat): (idx: int)
    requires 0.0 <= rand < 1.0
    ensures n > 0 ==> 0 <= idx < n
  {
    var x := rand * n as real;
    assert 0.0 <= x;
    assert n > 0 ==> x < n as real;
    x.Floor
  }

  /**
   * The start date of a round (app.js:52-75): a random pick from the window's
   * weekdays, or from the whole window when it has none; NotEnoughRecentData
   * when the window holds no trading date.
   */
  function RandomTradingStartDate(allDates: seq<Date>, today: Date, weekday: Date -> int, rand: real): (r: Result<Date>)
    requires 0.0 <= rand < 1.0
    ensures r.Err? <==> forall d :: d in allDates ==> !InWindow(d, today)
    ensures r.Err? ==> r.error == NotEnoughRecentData
    ensures r.Ok? ==> r.value in allDates && InWindow(r.value, today)
    ensures r.Ok? && (exists d :: d in allDates && InWindow(d, today) && IsWeekday(weekday, d))
            ==> IsWeekday(weekday, r.value)
  {
    var within := WithinRangeDates(allDates, today);
    if |within| == 0 then
      assert forall d :: d in allDates && InWindow(d, today) ==> d in within;
      Err(NotEnoughRecentData)
    else
      assert within[0] in within;
      var pickFrom := PickFrom(allDates, today, weekday);
      var weekdays := WeekdayDates(within, weekday);
      assert forall d :: d in allDates && InWindow(d, today) && IsWeekday(weekday, d) ==> d in weekdays;
      assert |weekdays| > 0 ==> weekdays[0] in weekdays;
      var idx := RandomIndex(rand, |pickFrom|);
      assert pickFrom[idx] in pickFrom;
      Ok(pickFrom[idx])
  }

  /** `i / n` is a random number in `[0, 1)` that `RandomIndex` turns back into `i`. */
  lemma FractionOfCount(i: int, n: int)
    requires 0 <= i < n
    ensures 0.0 <= i as real / n as real < 1.0
    ensures RandomIndex(i as real / n as real, n) == i
  {
    var q := i as real / n as real;
    assert q * n as real == i as real;
    assert q >= 1.0 ==> q * n as real >= n as real;
  }

  /** Every date of the candidate list is the pick for some random number: the selection can reach each candidate. */
  lemma EveryCandidateReachable(allDates: seq<Date>, today: Date, weekday: Date -> int, i: int)
    requires 0 <= i < |PickFrom(allDates, today, weekday)|
    ensures var n := |PickFrom(allDates, today, weekday)|;
            var rand := i as real / n as real;
            0.0 <= rand < 1.0 &&
            RandomTradingStartDate(allDates, today, weekday, rand) == Ok(PickFrom(allDates, today, weekday)[i])
  {
    var pickFrom := PickFrom(allDates, today, weekday);
    var n := |pickFrom|;
    var rand := i as real / n as real;
    FractionOfCount(i, n);
    assert RandomIndex(rand, n) == i;
    var within := WithinRangeDates(allDates, today);
    assert |within| > 0 by {
      var weekdays := WeekdayDates(within, weekday);
      assert |weekdays| <= |within|;
    }
  }

  /** Only the window's dates are candidates; when some are weekdays, only those are. */
  lemma CandidatesAreEligible(allDates: seq<Date>, today: Date, weekday: Date -> int)
    ensures forall d :: d in PickFrom(allDates, today, weekday) ==> d in allDates && InWindow(d, today)
    ensures (exists d :: d in allDates && InWindow(d, today) && IsWeekday(weekday, d)) ==>
            forall d :: d in PickFrom(allDates, today, weekday) ==> IsWeekday(weekday, d)
    ensures (forall d :: d in allDates && InWindow(d, today) ==> !IsWeekday(weekday, d)) ==>
            PickFrom(allDates, today, weekday) == WithinRangeDates(allDates, today)
  {
    var within := WithinRangeDates(allDates, today);
    var weekdays := WeekdayDates(within, weekday);
    assert |weekdays| > 0 ==> weekdays[0] in weekdays;
    if exists d :: d in allDates && InWindow(d, today) && IsWeekday(weekday, d) {
      var d :| d in allDates && InWindow(d, today) && IsWeekday(weekday, d);
      assert d in within;
      assert d in weekdays;
    }
  }

  /** When the window holds a single trading date, the selection is that date whatever the random number. */
  lemma SingleCandidateIsChosen(allDates: seq<Date>, today: Date, weekday: Date -> int, rand: real, x: Date)
    requires 0.0 <= rand < 1.0
    requires x in allDates && InWindow(x, today)
    requires forall d :: d in allDates && InWindow(d, today) ==> d == x
    ensures RandomTradingStartDate(allDates, today, weekday, rand) == Ok(x)
  {
  }
}
