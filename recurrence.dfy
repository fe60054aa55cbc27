/** The weekly recurrence both parsers share: from a first date, every seventh day
    strictly before an end date (the `while date < end { push; date += 7 days }`
    loops of src/get_data.rs and src/parse.rs). Dates are day numbers. */
module Recurrence {
  import opened Calendar

  /** How many weekly dates first, first + 7, ... lie before end: the least n with
      first + 7 * n >= end, which is max(0, ceil((end - first) / 7)). */
  function WeekCount(first: int, end: int): (n: nat)
    ensures first + 7 * n >= end
    ensures n > 0 ==> first + 7 * (n - 1) < end
    ensures n == 0 <==> end <= first
  {
    if end <= first then 0 else (end - first + 6) / 7
  }

  /** The weekly dates from first up to, not including, end. */
  function WeeklyDates(first: int, end: int): (ds: seq<int>)
    ensures |ds| == WeekCount(first, end)
  {
    seq(WeekCount(first, end), k => first + 7 * k)
  }

  /** Every date lies in [first, end) and falls on first's day of the week; the dates
      ascend by exactly seven days; there are none exactly when end <= first; and
      every such day before end is listed. */
  lemma WeeklyDatesMeaning(first: int, end: int)
    ensures var ds := WeeklyDates(first, end);
      && (forall k :: 0 <= k < |ds| ==> first <= ds[k] < end && (ds[k] - first) % 7 == 0)
      && (forall k :: 0 < k < |ds| ==> ds[k] == ds[k - 1] + 7)
      && (ds == [] <==> end <= first)
      && (ds != [] ==> ds[0] == first)
      && (forall d :: first <= d < end && (d - first) % 7 == 0 ==> d in ds)
  {
    var ds := WeeklyDates(first, end);
    forall d | first <= d < end && (d - first) % 7 == 0
      ensures d in ds
    {
      var k := (d - first) / 7;
      assert d == first + 7 * k;
      assert ds[k] == d;
    }
  }

  /** The recurrence unrolled by one step, as the loop runs it. */
  lemma WeeklyDatesStep(first: int, end: int)
    ensures WeeklyDates(first, end) == if first < end then [first] + WeeklyDates(first + 7, end) else []
  {
    if first < end {
      var ds, rest := WeeklyDates(first, end), WeeklyDates(first + 7, end);
      assert |ds| == |rest| + 1;
      forall k | 0 <= k < |ds|
        ensures ds[k] == ([first] + rest)[k]
      {
        if k > 0 {
          assert rest[k - 1] == first + 7 + 7 * (k - 1);
        }
      }
    }
  }

  /** All dates share the weekday of the first one. */
  lemma WeeklyDatesWeekday(first: int, end: int)
    ensures forall d :: d in WeeklyDates(first, end) ==> WeekdayOf(d) == WeekdayOf(first)
  {
    forall d | d in WeeklyDates(first, end)
      ensures WeekdayOf(d) == WeekdayOf(first)
    {
      var ds := WeeklyDates(first, end);
      var k :| 0 <= k < |ds| && ds[k] == d;
      WeekdayAfter(first, 7 * k);
      assert d == first + 7 * k;
      SameWeekdayNumber(WeekdayOf(d), WeekdayOf(first));
    }
  }

  lemma SameWeekdayNumber(a: Weekday, b: Weekday)
    requires NumDaysFromMonday(a) == NumDaysFromMonday(b)
    ensures a == b
  {
  }
}
