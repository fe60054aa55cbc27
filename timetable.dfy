/** The small helpers of the timetable parser: reading a list of numbers, decoding a
    weekday number, the clock table of the sixteen daily periods and the conversion
    of local time (UTC+7) to UTC. They are defined identically in src/get_data.rs and
    src/utils.rs. Times of day are minutes after midnight. */
module TimeTable {
  import opened Wrappers
  import opened Seqs
  import opened Strings
  import opened Calendar

  // ---------------------------------------------------------------- parse_list_uint

  /** The pieces of a split that parse as u32, in order (`filter_map(|s| s.parse::<u32>().ok())`). */
  function FitValues(parts: seq<string>): (r: seq<nat>)
    ensures forall i :: 0 <= i < |r| ==> r[i] < U32Bound
    decreases |parts|
  {
    if parts == [] then []
    else
      (match ParseUnsigned(parts[0], U32Bound)
       case Some(v) => [v]
       case None => [])
      + FitValues(parts[1..])
  }

  /** `parse_list_uint`: strip non-digits from both ends, split at every non-digit and
      keep the pieces that parse as u32. */
  function ParseListUint(s: string): (r: seq<nat>)
    ensures forall i :: 0 <= i < |r| ==> r[i] < U32Bound
  {
    FitValues(SplitWhere(TrimMatches(s, NonDigit), NonDigit))
  }

  /** The maximal runs of ASCII digits of s, from left to right. */
  function DigitRuns(s: string): (runs: seq<string>)
    ensures forall i :: 0 <= i < |runs| ==> runs[i] != [] && AllDigits(runs[i])
    decreases |s|
  {
    if s == [] then []
    else if !IsAsciiDigit(s[0]) then DigitRuns(s[1..])
    else
      var n := LeadingIn(s, Digit);
      [s[..n]] + DigitRuns(s[n..])
  }

  /** The digits of s in order. */
  function DigitsOf(s: string): string
    decreases |s|
  {
    if s == [] then [] else (if IsAsciiDigit(s[0]) then [s[0]] else []) + DigitsOf(s[1..])
  }

  /** The runs together hold exactly the digits of s, in order. */
  lemma {:induction false} DigitRunsCoverDigits(s: string)
    ensures Concat(DigitRuns(s)) == DigitsOf(s)
    decreases |s|
  {
    if s == [] {
    } else if !IsAsciiDigit(s[0]) {
      DigitRunsCoverDigits(s[1..]);
    } else {
      var n := LeadingIn(s, Digit);
      DigitRunsCoverDigits(s[n..]);
      DigitsOfRun(s, n);
      ConcatCons(s[..n], DigitRuns(s[n..]));
    }
  }

  lemma {:induction false} DigitsOfRun(s: string, n: nat)
    requires n <= |s| && forall i :: 0 <= i < n ==> IsAsciiDigit(s[i])
    ensures DigitsOf(s) == s[..n] + DigitsOf(s[n..])
    decreases n
  {
    if n > 0 {
      DigitsOfRun(s[1..], n - 1);
      assert s[1..][n - 1..] == s[n..];
      assert s[..n] == [s[0]] + s[1..][..n - 1];
    }
  }

  lemma {:induction false} ConcatCons<T>(x: seq<T>, xs: seq<seq<T>>)
    ensures Concat([x] + xs) == x + Concat(xs)
    decreases |xs|
  {
    if xs == [] {
      assert [x] + xs == [x];
      assert [x][..0] == [];
    } else {
      var ys := [x] + xs;
      assert ys[..|ys| - 1] == [x] + xs[..|xs| - 1];
      ConcatCons(x, xs[..|xs| - 1]);
    }
  }

  /** parse_list_uint returns the values of the maximal digit runs of s that fit in
      u32, in left-to-right order. */
  lemma ParseListUintRuns(s: string)
    ensures ParseListUint(s) == FitValues(DigitRuns(s))
  {
    var t := TrimMatches(s, NonDigit);
    SplitMatchesRuns(t);
    TrimKeepsRuns(s);
  }

  /** A string without digits yields the empty list. */
  lemma ParseListUintNoDigits(s: string)
    requires !HasDigit(s)
    ensures ParseListUint(s) == []
  {
    ParseListUintRuns(s);
    NoDigitsNoRuns(s);
  }

  lemma {:induction false} NoDigitsNoRuns(s: string)
    requires !HasDigit(s)
    ensures DigitRuns(s) == []
    decreases |s|
  {
    if s != [] {
      assert !IsAsciiDigit(s[0]);
      assert !HasDigit(s[1..]) by {
        forall i | 0 <= i < |s[1..]|
          ensures !IsAsciiDigit(s[1..][i])
        {
          assert s[1..][i] == s[i + 1];
        }
      }
      NoDigitsNoRuns(s[1..]);
    }
  }

  lemma FitValuesAppend(a: seq<string>, b: seq<string>)
    ensures FitValues(a + b) == FitValues(a) + FitValues(b)
    decreases |a|
  {
    if a == [] {
      assert a + b == b;
    } else {
      assert (a + b)[0] == a[0];
      assert (a + b)[1..] == a[1..] + b;
      FitValuesAppend(a[1..], b);
    }
  }

  /** Splitting at non-digits and keeping the pieces that parse gives the same values
      as the maximal digit runs. */
  lemma {:induction false} SplitMatchesRuns(t: string)
    ensures FitValues(SplitWhere(t, NonDigit)) == FitValues(DigitRuns(t))
    decreases |t|
  {
    if t == [] {
    } else if !IsAsciiDigit(t[0]) {
      SplitMatchesRuns(t[1..]);
      FitValuesAppend([[]], SplitWhere(t[1..], NonDigit));
    } else {
      var n := LeadingIn(t, Digit);
      var run, rest := t[..n], t[n..];
      assert t == run + rest;
      SplitDigitPrefix(run, rest);
      if rest == [] {
        assert SplitWhere(rest, NonDigit) == [[]];
        assert run + [] == run;
        assert DigitRuns(rest) == [];
      } else {
        assert !IsAsciiDigit(rest[0]);
        var parts := SplitWhere(rest, NonDigit);
        assert parts == [[]] + SplitWhere(rest[1..], NonDigit);
        assert parts[0] == [] && parts[1..] == SplitWhere(rest[1..], NonDigit);
        assert run + parts[0] == run;
        assert SplitWhere(t, NonDigit) == [run] + SplitWhere(rest[1..], NonDigit);
        assert DigitRuns(rest) == DigitRuns(rest[1..]);
        SplitMatchesRuns(rest[1..]);
        FitValuesAppend([run], SplitWhere(rest[1..], NonDigit));
        FitValuesAppend([run], DigitRuns(rest[1..]));
      }
    }
  }

  /** A leading run of digits joins the first piece of the split of the rest. */
  lemma {:induction false} SplitDigitPrefix(run: string, rest: string)
    requires AllDigits(run)
    ensures var parts := SplitWhere(rest, NonDigit);
      SplitWhere(run + rest, NonDigit) == [run + parts[0]] + parts[1..]
    decreases |run|
  {
    var parts := SplitWhere(rest, NonDigit);
    if run != [] {
      assert (run + rest)[0] == run[0] && IsAsciiDigit(run[0]);
      assert (run + rest)[1..] == run[1..] + rest;
      SplitDigitPrefix(run[1..], rest);
      var inner := SplitWhere(run[1..] + rest, NonDigit);
      assert inner[0] == run[1..] + parts[0] && inner[1..] == parts[1..];
      assert run + parts[0] == [run[0]] + (run[1..] + parts[0]);
    } else {
      assert run + rest == rest;
      assert [] + parts[0] == parts[0];
      assert parts == [parts[0]] + parts[1..];
    }
  }

  /** Trimming non-digits from both ends does not change the runs. */
  lemma TrimKeepsRuns(s: string)
    ensures DigitRuns(TrimMatches(s, NonDigit)) == DigitRuns(s)
  {
    var a := LeadingIn(s, NonDigit);
    var mid := s[a..];
    var b := TrailingIn(mid, NonDigit);
    var core := mid[..|mid| - b];
    assert TrimMatches(s, NonDigit) == core;
    SkipLead(s, a);
    SkipNonDigits(s[..a], mid);
    DropTrail(mid, b);
    DropNonDigits(core, mid[|mid| - b..]);
  }

  lemma SkipLead(s: string, a: nat)
    requires a == LeadingIn(s, NonDigit)
    ensures AllIn(NonDigit, s[..a]) && s == s[..a] + s[a..]
  {
    forall i | 0 <= i < a ensures InClass(NonDigit, s[..a][i]) {
      assert s[..a][i] == s[i];
    }
  }

  lemma DropTrail(mid: string, b: nat)
    requires b == TrailingIn(mid, NonDigit)
    ensures AllIn(NonDigit, mid[|mid| - b..]) && mid == mid[..|mid| - b] + mid[|mid| - b..]
  {
    var tail := mid[|mid| - b..];
    forall i | 0 <= i < b ensures InClass(NonDigit, tail[i]) {
      assert tail[i] == mid[|mid| - b + i];
    }
  }

  lemma {:induction false} SkipNonDigits(g: string, t: string)
    requires AllIn(NonDigit, g)
    ensures DigitRuns(g + t) == DigitRuns(t)
    decreases |g|
  {
    if g != [] {
      assert (g + t)[1..] == g[1..] + t;
      SkipNonDigits(g[1..], t);
    } else {
      assert g + t == t;
    }
  }

  lemma {:induction false} DropNonDigits(t: string, g: string)
    requires AllIn(NonDigit, g)
    ensures DigitRuns(t + g) == DigitRuns(t)
    decreases |t|
  {
    if t == [] {
      assert t + g == g + [];
      SkipNonDigits(g, []);
    } else if !IsAsciiDigit(t[0]) {
      assert (t + g)[1..] == t[1..] + g;
      DropNonDigits(t[1..], g);
    } else {
      var n := LeadingIn(t, Digit);
      var m := LeadingIn(t + g, Digit);
      assert m == n by {
        assert forall i :: 0 <= i < n ==> (t + g)[i] == t[i];
        if n < |t| {
          assert (t + g)[n] == t[n];
        } else if g != [] {
          assert (t + g)[n] == g[0];
        }
      }
      assert (t + g)[..n] == t[..n];
      assert (t + g)[n..] == t[n..] + g;
      DropNonDigits(t[n..], g);
    }
  }

  // ---------------------------------------------------------------- parse_weekday

  /** `parse_weekday`: strip non-digits from both ends and read the rest as u8;
      2 ..= 7 are Monday ..= Saturday, anything else (a parse failure reads as 8)
      is Sunday. */
  function ParseWeekday(s: string): Weekday {
    var d := match ParseUnsigned(TrimMatches(s, NonDigit), U8Bound)
             case Some(v) => v
             case None => 8;
    match d
    case 2 => Mon
    case 3 => Tue
    case 4 => Wed
    case 5 => Thu
    case 6 => Fri
    case 7 => Sat
    case _ => Sun
  }

  /** The weekday is a working day exactly when the digits left after trimming form a
      number from 2 to 7, and then that number minus 2 is its offset from Monday. */
  lemma ParseWeekdayMeaning(s: string)
    ensures var t := TrimMatches(s, NonDigit);
      && (ParseWeekday(s) != Sun <==> t != [] && AllDigits(t) && 2 <= DecimalValue(t) <= 7)
      && (ParseWeekday(s) != Sun ==> NumDaysFromMonday(ParseWeekday(s)) == DecimalValue(t) - 2)
  {
    var t := TrimMatches(s, NonDigit);
    if t != [] {
      assert IsAsciiDigit(t[0]);
    }
  }

  /** A weekday text without any digit (such as "Chủ nhật") decodes to Sunday. */
  lemma ParseWeekdayNoDigits(s: string)
    requires !HasDigit(s)
    ensures ParseWeekday(s) == Sun
  {
    var n := LeadingIn(s, NonDigit);
    assert n == |s|;
  }

  /** A name for each weekday. */
  function WeekdayLabel(w: Weekday): string {
    match w
    case Mon => "Thứ 2"
    case Tue => "Thứ 3"
    case Wed => "Thứ 4"
    case Thu => "Thứ 5"
    case Fri => "Thứ 6"
    case Sat => "Thứ 7"
    case Sun => "Chủ nhật"
  }

  /** Every weekday's name decodes back to that weekday. */
  lemma ParseWeekdayLabel(w: Weekday)
    ensures ParseWeekday(WeekdayLabel(w)) == w
  {
    if w == Sun {
      ParseWeekdayNoDigits(WeekdayLabel(w));
    } else {
      var c := ('2' as int + NumDaysFromMonday(w)) as char;
      LabelDigit(w, c);
      NumberedDay(c);
    }
  }

  /** A working day's name is `Thứ ` and the digit two more than its offset from
      Monday. */
  lemma LabelDigit(w: Weekday, c: char)
    requires w != Sun && c as int == '2' as int + NumDaysFromMonday(w)
    ensures '2' <= c <= '7'
    ensures WeekdayLabel(w) == "Thứ " + [c] && WeekdayFromMonday(c as int - '2' as int) == w
  {
    match w
    case Mon => assert WeekdayLabel(w) == "Thứ " + ['2'];
    case Tue => assert WeekdayLabel(w) == "Thứ " + ['3'];
    case Wed => assert WeekdayLabel(w) == "Thứ " + ['4'];
    case Thu => assert WeekdayLabel(w) == "Thứ " + ['5'];
    case Fri => assert WeekdayLabel(w) == "Thứ " + ['6'];
    case Sat => assert WeekdayLabel(w) == "Thứ " + ['7'];
  }

  lemma NumberedDay(c: char)
    requires '2' <= c <= '7'
    ensures ParseWeekday("Thứ " + [c]) == WeekdayFromMonday(c as int - '2' as int)
  {
    assert "Thứ " + [c] == "Thứ " + [c] + [];
    TrimPadded("Thứ ", [c], [], NonDigit);
    assert DecimalValue([c]) == DigitValue(c);
  }

  // ---------------------------------------------------------------- get_period_time

  function Clock(h: nat, m: nat): nat {
    h * 60 + m
  }

  /** `get_period_time`: the start and end time of day of period n, with every n
      outside 1 ..= 16 mapped to 21:15 - 21:20. */
  function PeriodTime(n: nat): (nat, nat) {
    var (sh, sm, eh, em) :=
      match n
      case 1 => (7, 0, 7, 45)
      case 2 => (7, 50, 8, 35)
      case 3 => (8, 40, 9, 25)
      case 4 => (9, 35, 10, 20)
      case 5 => (10, 25, 11, 10)
      case 6 => (11, 15, 12, 0)
      case 7 => (12, 30, 13, 15)
      case 8 => (13, 20, 14, 5)
      case 9 => (14, 10, 14, 55)
      case 10 => (15, 5, 15, 50)
      case 11 => (15, 55, 16, 40)
      case 12 => (15, 45, 17, 30)
      case 13 => (18, 0, 18, 45)
      case 14 => (18, 50, 19, 35)
      case 15 => (19, 40, 20, 25)
      case 16 => (20, 30, 21, 15)
      case _ => (21, 15, 21, 20);
    (Clock(sh, sm), Clock(eh, em))
  }

  /** Every period, the catch-all one included, starts before it ends and lies within
      one day; numbers outside 1 ..= 16 all get 21:15 - 21:20. */
  lemma PeriodTimeWellFormed(n: nat)
    ensures PeriodTime(n).0 < PeriodTime(n).1 < MinutesPerDay
    ensures !(1 <= n <= 16) ==> PeriodTime(n) == (Clock(21, 15), Clock(21, 20))
  {
  }

  /** Each period lasts 45 minutes, except period 12, which the table starts at
      15:45, ten minutes before period 11 starts, and which so lasts 105 minutes. */
  lemma PeriodLengths(n: nat)
    requires 1 <= n <= 16
    ensures PeriodTime(n).1 - PeriodTime(n).0 == if n == 12 then 105 else 45
  {
  }

  /** Period ends strictly increase with the period number. Period starts increase too,
      except from period 11 to period 12. */
  lemma PeriodOrder(a: nat, b: nat)
    requires 1 <= a < b <= 16
    ensures PeriodTime(a).1 < PeriodTime(b).1
    ensures PeriodTime(a).0 < PeriodTime(b).0 <==> !(a == 11 && b == 12)
  {
  }

  /** A span from period a to a period b >= a starts before it ends. */
  lemma PeriodSpanOrdered(a: nat, b: nat)
    requires 1 <= a <= b <= 16
    ensures PeriodTime(a).0 < PeriodTime(b).1
  {
    if a < b {
      PeriodOrder(a, b);
    }
  }

  // ---------------------------------------------------------------- to_utc

  /** The source's fixed UTC offset, in minutes. */
  const UtcOffset: int := 7 * 60

  /** `to_utc`: a local time of the fixed UTC+7 zone as a UTC instant. */
  function ToUtc(t: int): int {
    t - UtcOffset
  }

  /** The conversion preserves order and durations, and so never merges two instants. */
  lemma ToUtcMonotone(a: int, b: int)
    ensures a < b <==> ToUtc(a) < ToUtc(b)
    ensures a == b <==> ToUtc(a) == ToUtc(b)
    ensures ToUtc(b) - ToUtc(a) == b - a
  {
  }
}
