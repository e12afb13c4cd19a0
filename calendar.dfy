/**
 * The trading calendar: the dates of a daily price series in ascending order.
 * The app sorts the keys of the date-to-price map newest first and reverses
 * the result (app.js:123-124); dates are looked up in it by position.
 */
module TradingCalendar {

  /** A calendar day, counted in whole days from a fixed epoch. */
  type Date = int

  /** The adjusted close price of each trading day. */
  type Series = map<Date, real>

  ghost predicate StrictlyAscending(s: seq<Date>) {
    forall i, j :: 0 <= i < j < |s| ==> s[i] < s[j]
  }

  ghost predicate StrictlyDescending(s: seq<Date>) {
    forall i, j :: 0 <= i < j < |s| ==> s[i] > s[j]
  }

  /** `m` is the latest of `keys`. */
  predicate IsLatest(m: Date, keys: set<Date>) {
    m in keys && forall d :: d in keys ==> d <= m
  }

  /** Every non-empty finite set of dates has a latest date. */
  lemma {:induction false} LatestExists(keys: set<Date>)
    requires keys != {}
    ensures exists m :: IsLatest(m, keys)
  {
    assert (forall y :: y !in keys) ==> keys == {};
    var x :| x in keys;
    if keys == {x} {
      assert IsLatest(x, keys);
    } else {
      LatestExists(keys - {x});
      var m :| IsLatest(m, keys - {x});
      var top := if x <= m then m else x;
      forall d | d in keys ensures d <= top {
        if d != x {
          assert d in keys - {x};
        }
      }
      assert IsLatest(top, keys);
    }
  }

  /** Putting a date later than all of `rest` in front keeps the order descending. */
  lemma PrependLatest(m: Date, rest: seq<Date>)
    requires StrictlyDescending(rest)
    requires forall d :: d in rest ==> d < m
    ensures StrictlyDescending([m] + rest)
  {
    var s := [m] + rest;
    forall i, j | 0 <= i < j < |s| ensures s[i] > s[j] {
      if i == 0 {
        assert s[j] == rest[j - 1];
        assert rest[j - 1] in rest;
      } else {
        assert s[i] == rest[i - 1] && s[j] == rest[j - 1];
      }
    }
  }

  /** The dates sorted newest first (the sort of app.js:123). */
  function DatesDesc(keys: set<Date>): (r: seq<Date>)
    ensures |r| == |keys|
    ensures forall d :: d in r <==> d in keys
    ensures StrictlyDescending(r)
    decreases keys
  {
    if keys == {} then []
    else
      LatestExists(keys);
      var m :| IsLatest(m, keys);
      var rest := DatesDesc(keys - {m});
      PrependLatest(m, rest);
      [m] + rest
  }

  /** The sequence read back to front (the reverse of app.js:124). */
  function Reverse(s: seq<Date>): (r: seq<Date>)
    ensures |r| == |s|
    ensures forall i :: 0 <= i < |s| ==> r[i] == s[|s| - 1 - i]
  {
    if s == [] then [] else [s[|s| - 1]] + Reverse(s[..|s| - 1])
  }

  /** A sequence and its reverse hold the same dates. */
  lemma SameDatesReversed(s: seq<Date>)
    ensures forall d :: d in Reverse(s) <==> d in s
  {
    var r := Reverse(s);
    forall d | d in s ensures d in r {
      var i :| 0 <= i < |s| && s[i] == d;
      assert r[|s| - 1 - i] == d;
    }
  }

  /** The calendar of a series: its dates, oldest first (app.js:123-124). */
  function AllDatesAsc(series: Series): (r: seq<Date>)
    ensures |r| == |series.Keys|
    ensures forall d :: d in r <==> d in series
    ensures StrictlyAscending(r)
  {
    var desc := DatesDesc(series.Keys);
    SameDatesReversed(desc);
    Reverse(desc)
  }

  /** A strictly ascending sequence never holds a date twice. */
  lemma AscendingHasNoDuplicates(s: seq<Date>)
    requires StrictlyAscending(s)
    ensures forall i, j :: 0 <= i < |s| && 0 <= j < |s| && i != j ==> s[i] != s[j]
  {
  }

  /**
   * The calendar is the only strictly ascending enumeration of the series'
   * dates, so it depends on the set of keys and on nothing else.
   */
  lemma {:induction false} AscendingEnumerationUnique(a: seq<Date>, b: seq<Date>)
    requires StrictlyAscending(a) && StrictlyAscending(b)
    requires forall d :: d in a <==> d in b
    ensures a == b
  {
    assert b != [] ==> b[0] in b;
    if a != [] {
      assert a[0] in a;
      assert b[0] in b;
      assert b != [];
      assert a[0] == b[0];
      forall d ensures d in a[1..] <==> d in b[1..] {
        assert d in a[1..] <==> d in a && d != a[0];
        assert d in b[1..] <==> d in b && d != b[0];
      }
      AscendingEnumerationUnique(a[1..], b[1..]);
      assert a == [a[0]] + a[1..];
      assert b == [b[0]] + b[1..];
    }
  }

  /** The first position of `x` in `s`, or -1 when `x` is absent (Array.prototype.indexOf). */
  function IndexOf(s: seq<Date>, x: Date): (r: int)
    ensures -1 <= r < |s|
    ensures r == -1 <==> x !in s
    ensures 0 <= r ==> s[r] == x && forall j :: 0 <= j < r ==> s[j] != x
  {
    if s == [] then -1
    else if s[0] == x then 0
    else
      var k := IndexOf(s[1..], x);
      if k == -1 then -1 else k + 1
  }

  /** In the calendar, looking a date up returns the position it was taken from. */
  lemma IndexOfAscending(s: seq<Date>, i: int)
    requires StrictlyAscending(s)
    requires 0 <= i < |s|
    ensures IndexOf(s, s[i]) == i
  {
    var k := IndexOf(s, s[i]);
    assert k >= 0;
  }

  /** The dates of `s` strictly before `x`. */
  ghost function EarlierDates(s: seq<Date>, x: Date): set<Date> {
    set d | d in s && d < x
  }

  /** A strictly ascending sequence holds as many dates as it is long. */
  lemma {:induction false} AscendingCardinality(s: seq<Date>)
    requires StrictlyAscending(s)
    ensures |set d | d in s| == |s|
  {
    if s != [] {
      AscendingCardinality(s[1..]);
      assert (set d | d in s) == {s[0]} + (set d | d in s[1..]);
      assert s[0] !in (set d | d in s[1..]);
    }
  }

  /**
   * The position of a calendar date is the number of trading dates that
   * precede it.
   */
  lemma PositionCountsEarlierDates(s: seq<Date>, i: int)
    requires StrictlyAscending(s)
    requires 0 <= i < |s|
    ensures |EarlierDates(s, s[i])| == i
  {
    assert StrictlyAscending(s[..i]);
    AscendingCardinality(s[..i]);
    assert EarlierDates(s, s[i]) == set d | d in s[..i];
  }

  /** The calendar position of a trading date is the number of trading dates before it. */
  lemma CalendarPositionCountsEarlier(series: Series, x: Date)
    requires x in series
    ensures IndexOf(AllDatesAsc(series), x) == |set d | d in series && d < x|
  {
    var cal := AllDatesAsc(series);
    var i := IndexOf(cal, x);
    IndexOfAscending(cal, i);
    PositionCountsEarlierDates(cal, i);
    SameEarlierDates(cal, series, x);
  }

  /** Two collections with the same dates have the same dates before `x`. */
  lemma SameEarlierDates(cal: seq<Date>, series: Series, x: Date)
    requires forall d :: d in cal <==> d in series
    ensures EarlierDates(cal, x) == set d | d in series && d < x
  {
  }
}
