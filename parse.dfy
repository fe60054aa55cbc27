/** The earlier reader of the time column, src/parse.rs. A time column is a series
    of blocks, each `Từ <range>: <lines>`; every line names a weekday as a number
    (2 is Monday), the first and last period, and after `tại` its own place. Each
    weekday becomes the dates start + (weekday - 2), start + (weekday - 2) + 7, ...
    before the range's end, and each date one lesson. Panics become `Err`. */
module Parse {
  import opened Wrappers
  import opened Seqs
  import opened Strings
  import opened Calendar
  import opened Recurrence
  import GetData

  /** `Từ`, with no space after it. */
  const BlockMark: string := "T\U{1EEB}"
  /** `tại`, which introduces a line's place. */
  const PlaceMark: string := "t\U{1EA1}i"
  /** The place of a line without `tại`. */
  const NoPlace: string := "N/A"

  /** The panics of parse_all and its helpers. */
  datatype ParseError =
    | MissingColon           // a block without `:` (src/parse.rs:42-43)
    | MissingPeriodMark      // a line without `tiết` (src/parse.rs:93-94)
    | ShortDate              // a range side with fewer than three `/` parts (src/parse.rs:125)
    | InvalidDate            // `NaiveDate::from_ymd` on an impossible date (src/parse.rs:125)
    | MissingRangeSeparator  // a range without `đến` (src/parse.rs:127)

  /** One line: weekday number, (first period, last period), place. */
  datatype LineEntry = LineEntry(weekday: nat, period: (nat, nat), place: string)

  /** The four fields `map_rt_lesson` sets on a `Lesson`. */
  datatype LessonValue = LessonValue(date: int, period: (nat, nat), place: string, className: string)

  // ---------------------------------------------------------------- split_range

  /** `s.parse::<i32>().unwrap_or(0)`: a run of digits is its value, and text that is
      no number, such as text without a digit, is 0. */
  function DatePart(s: string): (v: int)
    ensures I32Min <= v <= I32Max
    ensures Digits(s) && DecimalValue(s) <= I32Max ==> v == DecimalValue(s)
    ensures !HasDigit(s) ==> v == 0
  {
    NumberCases(s, 0, I32Min, I32Max);
    match ParseSigned(s, I32Min, I32Max)
    case Some(v) => v
    case None => 0
  }

  /** `v as u32` for an i32: a negative value wraps round to v + 2^32. */
  function AsU32(v: int): (u: nat)
    requires I32Min <= v <= I32Max
    ensures u < U32Bound
    ensures v >= 0 ==> u == v
    ensures v < 0 ==> u > I32Max
  {
    if v < 0 then v + U32Bound else v
  }

  /** The `/`-separated numbers of one side of a range. */
  function DateParts(d: string): (dmy: seq<int>)
    ensures |dmy| == |Split(d, "/")|
  {
    var parts := Split(d, "/");
    seq(|parts|, i requires 0 <= i < |parts| => DatePart(parts[i]))
  }

  /** One side of a range, trimmed: day, month and year are its first three numbers,
      the month and day cast to u32, and the date must exist. */
  function RangeSide(d: string): Result<int, ParseError> {
    var dmy := DateParts(Trim(d));
    if |dmy| < 3 then Err(ShortDate)
    else
      var (y, m, day) := (dmy[2], AsU32(dmy[1]), AsU32(dmy[0]));
      if ValidDate(y, m, day) then Ok(DayNumber(y, m, day)) else Err(InvalidDate)
  }

  /** `split_range`: every side between the `đến`s is read, then the first two are
      the range. */
  function SplitRange(range: string): Result<(int, int), ParseError> {
    ReadRange(range, RangeSide)
  }

  /** The sides between the `đến`s read by side, then the first two. */
  function ReadRange(range: string, side: string -> Result<int, ParseError>): Result<(int, int), ParseError> {
    var dates :- Traverse(Split(range, GetData.To), side);
    if |dates| < 2 then Err(MissingRangeSeparator) else Ok((dates[0], dates[1]))
  }

  /** A side is read only when its day and month, as written, are a real day and
      month: a non-numeric part reads as 0 and a negative one wraps to more than
      2^31, so neither gets through. */
  lemma RangeSideBounds(d: string)
    requires RangeSide(d).Ok?
    ensures var dmy := DateParts(Trim(d));
      && |dmy| >= 3
      && 1 <= dmy[0] <= 31 && 1 <= dmy[1] <= 12
      && RangeSide(d) == Ok(DayNumber(dmy[2], dmy[1], dmy[0]))
  {
  }

  /** A date written with digit groups is read as the date it names, whatever
      whitespace surrounds it. */
  lemma RangeSideText(x: DateText, p: string, q: string)
    requires IsDateText(x) && AllIn(Whitespace, p) && AllIn(Whitespace, q)
    ensures RangeSide(p + DateString(x) + q) == Ok(DateOf(x))
  {
    var s := DateString(x);
    assert s[0] == x.d[0] && s[|s| - 1] == x.y[|x.y| - 1];
    TrimPadded(p, s, q, Whitespace);
    DatePartsText(x);
  }

  lemma DatePartsText(x: DateText)
    requires IsDateText(x)
    ensures DateParts(DateString(x)) == [DecimalValue(x.d), DecimalValue(x.m), DecimalValue(x.y)]
  {
    DateSplit(x);
    ParseSignedDigits(x.d, I32Min, I32Max);
    ParseSignedDigits(x.m, I32Min, I32Max);
    ParseSignedDigits(x.y, I32Min, I32Max);
  }

  lemma DateSplit(x: DateText)
    requires Digits(x.d) && Digits(x.m) && Digits(x.y)
    ensures Split(DateString(x), "/") == [x.d, x.m, x.y]
  {
    var parts := [x.d, x.m, x.y];
    assert parts[1..] == [x.m, x.y] && parts[1..][1..] == [x.y];
    assert Join([x.m, x.y], "/") == x.m + "/" + x.y;
    assert DateString(x) == x.d + "/" + (x.m + "/" + x.y);
    NotInDigits(x.d, '/');
    NotInDigits(x.m, '/');
    NotInDigits(x.y, '/');
    SplitJoin(parts, "/");
  }

  /** `f đến t` is read as the range from the date f names to the date t names. */
  lemma SplitRangeText(f: DateText, t: DateText)
    requires IsDateText(f) && IsDateText(t)
    ensures SplitRange(GetData.RangeText(f, t)) == Ok((DateOf(f), DateOf(t)))
  {
    var fs, ts := DateString(f) + " ", " " + DateString(t);
    assert GetData.RangeText(f, t) == fs + GetData.To + ts;
    RangeSides(f, t, fs, ts);
  }

  lemma RangeSides(f: DateText, t: DateText, fs: string, ts: string)
    requires IsDateText(f) && IsDateText(t)
    requires fs == DateString(f) + " " && ts == " " + DateString(t)
    ensures SplitRange(fs + GetData.To + ts) == Ok((DateOf(f), DateOf(t)))
  {
    RangeSplit(f, t, fs, ts);
    assert RangeSide(fs) == Ok(DateOf(f)) by {
      assert fs == [] + DateString(f) + " ";
      RangeSideText(f, [], " ");
    }
    assert RangeSide(ts) == Ok(DateOf(t)) by {
      assert ts == " " + DateString(t) + [];
      RangeSideText(t, " ", []);
    }
    ReadRangeParts(fs + GetData.To + ts, RangeSide, fs, ts, DateOf(f), DateOf(t));
  }

  lemma RangeSplit(f: DateText, t: DateText, fs: string, ts: string)
    requires IsDateText(f) && IsDateText(t)
    requires fs == DateString(f) + " " && ts == " " + DateString(t)
    ensures Split(fs + GetData.To + ts, GetData.To) == [fs, ts]
  {
    assert GetData.To[0] !in fs && GetData.To[0] !in ts by {
      SeparatorFree(f);
      SeparatorFree(t);
    }
    SplitAt(fs, GetData.To, ts);
    NotContainsChar(ts, GetData.To, 0);
    SplitNone(ts, GetData.To);
  }

  /** How a range is read once it is known where `đến` splits it and what each side
      reads as. */
  lemma ReadRangeParts(range: string, side: string -> Result<int, ParseError>, a: string, b: string, x: int, y: int)
    requires Split(range, GetData.To) == [a, b] && side(a) == Ok(x) && side(b) == Ok(y)
    ensures ReadRange(range, side) == Ok((x, y))
  {
    TraversePair(Split(range, GetData.To), side, a, b, x, y);
  }

  lemma SeparatorFree(x: DateText)
    requires Digits(x.d) && Digits(x.m) && Digits(x.y)
    ensures GetData.To[0] !in DateString(x) + " " && GetData.To[0] !in " " + DateString(x)
  {
  }

  /** A range without `đến` is never read. */
  lemma SplitRangeNeedsSeparator(range: string)
    requires !Contains(range, GetData.To)
    ensures SplitRange(range).Err?
  {
    SplitNone(range, GetData.To);
  }

  // ---------------------------------------------------------------- get_wd_period_place

  /** `p.parse::<u8>().unwrap_or(1)`: a run of digits below 256 is its value, and text
      that is no u8, such as text without a digit, is 1. */
  function PeriodNumber(p: string): (n: nat)
    ensures n < U8Bound
    ensures Digits(p) && DecimalValue(p) < U8Bound ==> n == DecimalValue(p)
    ensures !HasDigit(p) ==> n == 1
  {
    NumberCases(p, U8Bound, 0, 0);
    match ParseUnsigned(p, U8Bound)
    case Some(v) => v
    case None => 1
  }

  /** The comma-separated period numbers of the trimmed text; there is always at
      least one, since splitting gives at least one piece. */
  function PeriodNumbers(ps: string): (ns: seq<nat>)
    ensures |ns| == |Split(Trim(ps), ",")| >= 1
  {
    var items := Split(Trim(ps), ",");
    seq(|items|, i requires 0 <= i < |items| => PeriodNumber(items[i]))
  }

  /** A line with the characters T, h, ứ, space, newline and tab trimmed from both
      ends, and then whitespace. */
  function LineCore(line: string): string {
    Trim(TrimMatches(line, WeekdayLead))
  }

  /** One line: the weekday is the u32 before `tiết` (2 when it is not one), the
      periods are the first and last numbers before `tại`, and the place is the text
      after the first `tại`, untrimmed, up to any second `tại` (`N/A` without one). */
  function ParseLine(line: string): Result<LineEntry, ParseError> {
    var halves := Split(LineCore(line), GetData.PeriodMark);
    if |halves| < 2 then Err(MissingPeriodMark) else Ok(LineOf(halves[0], halves[1]))
  }

  /** `f.parse::<u32>().unwrap_or(2)` on the trimmed text before `tiết`: a run of
      digits below 2^32 is its value, and text that is no u32, such as text without a
      digit, is 2. */
  function WeekdayNumber(f: string): (w: nat)
    ensures w < U32Bound
    ensures Digits(Trim(f)) && DecimalValue(Trim(f)) < U32Bound ==> w == DecimalValue(Trim(f))
    ensures !HasDigit(Trim(f)) ==> w == 2
  {
    NumberCases(Trim(f), U32Bound, 0, 0);
    match ParseUnsigned(Trim(f), U32Bound)
    case Some(v) => v
    case None => 2
  }

  /** The entry of a line split at `tiết` into h0 and h1. */
  function LineOf(h0: string, h1: string): LineEntry {
    var pieces := Split(Trim(h1), PlaceMark);
    var place := if |pieces| > 1 then pieces[1] else NoPlace;
    var ns := PeriodNumbers(pieces[0]);
    LineEntry(WeekdayNumber(h0), (ns[0], ns[|ns| - 1]), place)
  }

  /** `get_wd_period_place`: one entry per line, failing at the first line that
      fails. */
  function GetWdPeriodPlace(info: string): Result<seq<LineEntry>, ParseError> {
    Traverse(Lines(info), ParseLine)
  }

  /** A line fails exactly when, trimmed, it has no `tiết`; a line whose text after
      `tiết` has no `tại` gets the place `N/A`. */
  lemma ParseLineMeaning(line: string)
    ensures ParseLine(line).Err? <==> !Contains(LineCore(line), GetData.PeriodMark)
    ensures ParseLine(line).Err? ==> ParseLine(line) == Err(MissingPeriodMark)
    ensures ParseLine(line).Ok? && !Contains(Trim(Split(LineCore(line), GetData.PeriodMark)[1]), PlaceMark)
      ==> ParseLine(line).value.place == NoPlace
  {
    var core := LineCore(line);
    if !Contains(core, GetData.PeriodMark) {
      SplitNone(core, GetData.PeriodMark);
    } else {
      var halves := Split(core, GetData.PeriodMark);
      if !Contains(Trim(halves[1]), PlaceMark) {
        SplitNone(Trim(halves[1]), PlaceMark);
      }
    }
  }

  /** The info of a block yields one entry per line, each the reading of its line, or
      fails exactly when some line lacks `tiết`. */
  lemma GetWdPeriodPlaceMeaning(info: string)
    ensures var r := GetWdPeriodPlace(info);
      && (r.Ok? ==> |r.value| == |Lines(info)| && forall i :: 0 <= i < |r.value| ==> Ok(r.value[i]) == ParseLine(Lines(info)[i]))
      && (r.Err? <==> exists i :: 0 <= i < |Lines(info)| && !Contains(LineCore(Lines(info)[i]), GetData.PeriodMark))
  {
    var lines := Lines(info);
    forall i | 0 <= i < |lines|
      ensures ParseLine(lines[i]).Err? <==> !Contains(LineCore(lines[i]), GetData.PeriodMark)
    {
      ParseLineMeaning(lines[i]);
    }
  }

  /** Period numbers written in decimal and joined with commas are read back. */
  lemma PeriodNumbersRoundTrip(ns: seq<nat>)
    requires ns != [] && forall i :: 0 <= i < |ns| ==> ns[i] < U8Bound
    ensures PeriodNumbers(PeriodList(ns)) == ns
  {
    var items := Decimals(ns);
    forall i | 0 <= i < |items|
      ensures ","[0] !in items[i]
    {
      NotInDigits(items[i], ',');
    }
    SplitJoin(items, ",");
    var s := PeriodList(ns);
    JoinEnds(items, ",");
    TrimNoPadding(s, Whitespace);
    forall i | 0 <= i < |ns|
      ensures PeriodNumber(items[i]) == ns[i]
    {
      ParseDecimal(ns[i], U8Bound);
    }
  }

  /** The decimal spellings of ns. */
  function Decimals(ns: seq<nat>): (items: seq<string>)
    ensures |items| == |ns|
    ensures forall i :: 0 <= i < |items| ==> Digits(items[i])
  {
    seq(|ns|, i requires 0 <= i < |ns| => Decimal(ns[i]))
  }

  /** ns in decimal, separated by commas. */
  function PeriodList(ns: seq<nat>): string {
    Join(Decimals(ns), ",")
  }

  /** Joining runs of digits starts and ends with a digit. */
  lemma {:induction false} JoinEnds(items: seq<string>, sep: string)
    requires items != [] && forall i :: 0 <= i < |items| ==> Digits(items[i])
    ensures var s := Join(items, sep);
      s != [] && IsAsciiDigit(s[0]) && IsAsciiDigit(s[|s| - 1])
    decreases |items|
  {
    if |items| > 1 {
      var rest := items[1..];
      assert forall i :: 0 <= i < |rest| ==> Digits(rest[i]) by {
        forall i | 0 <= i < |rest| ensures Digits(rest[i]) {
          assert rest[i] == items[i + 1];
        }
      }
      JoinEnds(rest, sep);
      var s := Join(items, sep);
      assert s == items[0] + sep + Join(rest, sep);
      assert s[0] == items[0][0];
    }
  }

  /** The text of one line: `Thứ wd tiết ns tại place`, the numbers in decimal. */
  function LineText(wd: nat, ns: seq<nat>, place: string): string {
    GetData.WeekdayMark + " " + LineCoreText(wd, ns, place)
  }

  function LineCoreText(wd: nat, ns: seq<nat>, place: string): string {
    (Decimal(wd) + " ") + GetData.PeriodMark + LineRest(ns, place)
  }

  function LineRest(ns: seq<nat>, place: string): string {
    " " + ((PeriodList(ns) + " ") + PlaceMark + (" " + place))
  }

  /** A place that survives the reading of a line: it does not end in a character the
      line is trimmed of, and contains neither `tiết` nor `tại`. */
  predicate PlainPlace(place: string) {
    && place != []
    && !InClass(WeekdayLead, place[|place| - 1]) && !IsWhitespace(place[|place| - 1])
    && !Contains(place, GetData.PeriodMark) && !Contains(place, PlaceMark)
  }

  /** Writing a weekday number, period numbers and a place as a line and reading it
      back gives that weekday, the first and last of the periods, and the place with
      the one space that followed `tại`. */
  lemma ParseLineRoundTrip(wd: nat, ns: seq<nat>, place: string)
    requires wd < U32Bound && ns != [] && forall i :: 0 <= i < |ns| ==> ns[i] < U8Bound
    requires PlainPlace(place)
    ensures ParseLine(LineText(wd, ns, place)) == Ok(LineEntry(wd, (ns[0], ns[|ns| - 1]), " " + place))
  {
    var line := LineText(wd, ns, place);
    CoreOfLine(wd, ns, place);
    HalvesOfCore(wd, ns, place);
    PlaceOfRest(ns, place);
    WeekdayOfLine(wd);
    PeriodsOfRest(ns);
    ParseLineParts(line, Decimal(wd) + " ", LineRest(ns, place), PeriodList(ns) + " ", " " + place);
  }

  /** How a line is read once it is known where `tiết` and `tại` split it. */
  lemma ParseLineParts(line: string, h0: string, h1: string, p0: string, p1: string)
    requires var halves := Split(LineCore(line), GetData.PeriodMark); |halves| >= 2 && halves[0] == h0 && halves[1] == h1
    requires var pieces := Split(Trim(h1), PlaceMark); |pieces| >= 2 && pieces[0] == p0 && pieces[1] == p1
    ensures var ns := PeriodNumbers(p0);
      ParseLine(line) == Ok(LineEntry(WeekdayNumber(h0), (ns[0], ns[|ns| - 1]), p1))
  {
    LineHalves(line, h0, h1);
    LinePieces(h0, h1, p0, p1);
  }

  lemma LineHalves(line: string, h0: string, h1: string)
    requires var halves := Split(LineCore(line), GetData.PeriodMark); |halves| >= 2 && halves[0] == h0 && halves[1] == h1
    ensures ParseLine(line) == Ok(LineOf(h0, h1))
  {
  }

  lemma LinePieces(h0: string, h1: string, p0: string, p1: string)
    requires var pieces := Split(Trim(h1), PlaceMark); |pieces| >= 2 && pieces[0] == p0 && pieces[1] == p1
    ensures var ns := PeriodNumbers(p0);
      LineOf(h0, h1) == LineEntry(WeekdayNumber(h0), (ns[0], ns[|ns| - 1]), p1)
  {
    var pieces := Split(Trim(h1), PlaceMark);
    assert |pieces| > 1 && pieces[0] == p0 && pieces[1] == p1;
  }

  /** The periods before `tại` are read back. */
  lemma PeriodsOfRest(ns: seq<nat>)
    requires ns != [] && forall i :: 0 <= i < |ns| ==> ns[i] < U8Bound
    ensures PeriodNumbers(PeriodList(ns) + " ") == ns
  {
    PeriodNumbersRoundTrip(ns);
    ListTrims(ns);
    SameTrim(PeriodList(ns) + " ", PeriodList(ns));
  }

  lemma SameTrim(a: string, b: string)
    requires Trim(a) == Trim(b)
    ensures PeriodNumbers(a) == PeriodNumbers(b)
  {
  }

  lemma ListTrims(ns: seq<nat>)
    requires ns != []
    ensures Trim(PeriodList(ns) + " ") == Trim(PeriodList(ns))
  {
    var s := PeriodList(ns);
    JoinEnds(Decimals(ns), ",");
    assert s + " " == [] + s + " ";
    TrimPadded([], s, " ", Whitespace);
    TrimNoPadding(s, Whitespace);
  }

  lemma LineMarks()
    ensures AllIn(WeekdayLead, GetData.WeekdayMark + " ")
    ensures GetData.PeriodMark[0] == 't' && PlaceMark[0] == 't'
    ensures |GetData.PeriodMark| >= 2 && |PlaceMark| >= 2 && PlaceMark[1] != GetData.PeriodMark[1]
    ensures GetData.PeriodMark[0] !in PlaceMark[1..]
  {
  }

  /** Trimming a line leaves the text after `Thứ `. */
  lemma CoreOfLine(wd: nat, ns: seq<nat>, place: string)
    requires PlainPlace(place)
    ensures LineCore(LineText(wd, ns, place)) == LineCoreText(wd, ns, place)
  {
    var core := LineCoreText(wd, ns, place);
    CoreEnds(wd, ns, place);
    LineMarks();
    TrimLead(GetData.WeekdayMark + " ", core);
  }

  lemma CoreEnds(wd: nat, ns: seq<nat>, place: string)
    requires PlainPlace(place)
    ensures var core := LineCoreText(wd, ns, place);
      && core != []
      && !InClass(WeekdayLead, core[0]) && !InClass(Whitespace, core[0])
      && !InClass(WeekdayLead, core[|core| - 1]) && !InClass(Whitespace, core[|core| - 1])
  {
    var core := LineCoreText(wd, ns, place);
    assert core[0] == Decimal(wd)[0] && core[|core| - 1] == place[|place| - 1];
  }

  /** Trimming a lead of characters of the line's trim set, and then whitespace,
      leaves a core that neither starts nor ends with one of them. */
  lemma TrimLead(lead: string, core: string)
    requires AllIn(WeekdayLead, lead) && core != []
    requires !InClass(WeekdayLead, core[0]) && !InClass(WeekdayLead, core[|core| - 1])
    requires !InClass(Whitespace, core[0]) && !InClass(Whitespace, core[|core| - 1])
    ensures Trim(TrimMatches(lead + core, WeekdayLead)) == core
  {
    assert lead + core == lead + core + [];
    TrimPadded(lead, core, [], WeekdayLead);
    TrimNoPadding(core, Whitespace);
  }

  /** The core splits at `tiết` into the weekday and the rest. */
  lemma HalvesOfCore(wd: nat, ns: seq<nat>, place: string)
    requires ns != [] && PlainPlace(place)
    ensures Split(LineCoreText(wd, ns, place), GetData.PeriodMark) == [Decimal(wd) + " ", LineRest(ns, place)]
  {
    LineMarks();
    assert 't' !in Decimal(wd) + " ";
    SplitAt(Decimal(wd) + " ", GetData.PeriodMark, LineRest(ns, place));
    RestHasNoPeriodMark(ns, place);
    SplitNone(LineRest(ns, place), GetData.PeriodMark);
  }

  lemma RestHasNoPeriodMark(ns: seq<nat>, place: string)
    requires PlainPlace(place)
    ensures !Contains(LineRest(ns, place), GetData.PeriodMark)
  {
    var lead := " " + (PeriodList(ns) + " ");
    var tail := " " + place;
    LineMarks();
    ListNot(ns, 't');
    NotContainsPrefixed(" ", place, GetData.PeriodMark);
    NotContainsMismatch(PlaceMark, tail, GetData.PeriodMark);
    NotContainsPrefixed(lead, PlaceMark + tail, GetData.PeriodMark);
    assert LineRest(ns, place) == lead + (PlaceMark + tail);
  }

  /** A period list holds only digits and commas. */
  lemma ListNot(ns: seq<nat>, c: char)
    requires c != ',' && !IsAsciiDigit(c)
    ensures c !in PeriodList(ns)
  {
    ListChars(Decimals(ns), c);
  }

  lemma {:induction false} ListChars(items: seq<string>, c: char)
    requires c != ',' && !IsAsciiDigit(c)
    requires forall i :: 0 <= i < |items| ==> Digits(items[i])
    ensures c !in Join(items, ",")
    decreases |items|
  {
    if |items| > 1 {
      var rest := items[1..];
      assert forall i :: 0 <= i < |rest| ==> Digits(rest[i]) by {
        forall i | 0 <= i < |rest| ensures Digits(rest[i]) {
          assert rest[i] == items[i + 1];
        }
      }
      ListChars(rest, c);
      assert c !in items[0];
    } else if |items| == 1 {
      assert c !in items[0];
    }
  }

  /** The weekday before `tiết` is read as its number. */
  lemma WeekdayOfLine(wd: nat)
    requires wd < U32Bound
    ensures WeekdayNumber(Decimal(wd) + " ") == wd
  {
    var s := Decimal(wd);
    assert s + " " == [] + s + " ";
    TrimPadded([], s, " ", Whitespace);
    ParseDecimal(wd, U32Bound);
  }

  /** The rest after `tiết` splits at `tại` into the periods and the place. */
  lemma PlaceOfRest(ns: seq<nat>, place: string)
    requires ns != [] && PlainPlace(place)
    ensures Split(Trim(LineRest(ns, place)), PlaceMark) == [PeriodList(ns) + " ", " " + place]
  {
    RestTrim(ns, place);
    RestSplit(ns, place);
  }

  /** The text between `tiết` and the end of the line, without its leading space. */
  function RestCore(ns: seq<nat>, place: string): string {
    (PeriodList(ns) + " ") + PlaceMark + (" " + place)
  }

  lemma RestTrim(ns: seq<nat>, place: string)
    requires ns != [] && PlainPlace(place)
    ensures Trim(LineRest(ns, place)) == RestCore(ns, place)
  {
    var x := RestCore(ns, place);
    assert x != [] && !IsWhitespace(x[0]) && x[|x| - 1] == place[|place| - 1] by {
      JoinEnds(Decimals(ns), ",");
      assert x[0] == PeriodList(ns)[0];
    }
    assert LineRest(ns, place) == " " + x + [];
    TrimPadded(" ", x, [], Whitespace);
  }

  lemma RestSplit(ns: seq<nat>, place: string)
    requires PlainPlace(place)
    ensures Split(RestCore(ns, place), PlaceMark) == [PeriodList(ns) + " ", " " + place]
  {
    assert PlaceMark[0] !in PeriodList(ns) + " " by {
      ListNot(ns, 't');
    }
    SplitAt(PeriodList(ns) + " ", PlaceMark, " " + place);
    NotContainsPrefixed(" ", place, PlaceMark);
    SplitNone(" " + place, PlaceMark);
  }

  // ---------------------------------------------------------------- map_wd_to_day

  /** `map_wd_to_day` (src/parse.rs:79-87): from start + (wd - 2) days, every seventh
      day before the range's end. */
  method MapWdToDay(start: int, end: int, wd: nat) returns (days: seq<int>)
    ensures days == WeeklyDates(start + wd - 2, end)
    ensures days != [] ==> days[0] == start + wd - 2
    ensures forall k :: 0 <= k < |days| ==> days[k] < end
    ensures forall k :: 0 < k < |days| ==> days[k] == days[k - 1] + 7
    ensures days == [] <==> end <= start + wd - 2
    ensures wd >= 2 ==> forall k :: 0 <= k < |days| ==> start <= days[k]
  {
    ghost var first := start + wd - 2;
    ghost var ds := WeeklyDates(first, end);
    WeeklyDatesMeaning(first, end);
    var date := start + wd - 2;
    days := [];
    while date < end
      invariant |days| <= |ds|
      invariant date == first + 7 * |days|
      invariant days == ds[..|days|]
      decreases end - date
    {
      days := days + [date];
      date := date + 7;
    }
    assert days == ds;
  }

  // ---------------------------------------------------------------- map_rt_lesson

  /** The part of the `Lesson` record that `map_rt_lesson` fills in through its
      `mod_*` setters. */
  class Lesson {
    var date: int
    var period: (nat, nat)
    var place: string
    var className: string

    /** `Lesson::new()`: its initial field values are not part of this model, since
        every field is set before the lesson is used. */
    constructor ()
    {
    }

    function Value(): LessonValue
      reads this
    {
      LessonValue(date, period, place, className)
    }

    method ModDate(d: int)
      modifies this
      ensures Value() == old(Value()).(date := d)
    {
      date := d;
    }

    method ModPeriod(p: (nat, nat))
      modifies this
      ensures Value() == old(Value()).(period := p)
    {
      period := p;
    }

    method ModPlace(pl: string)
      modifies this
      ensures Value() == old(Value()).(place := pl)
    {
      place := pl;
    }

    method ModClass(c: string)
      modifies this
      ensures Value() == old(Value()).(className := c)
    {
      className := c;
    }
  }

  /** The lessons of one line: one per date of its weekday, with its periods and its
      place. */
  function LineLessons(className: string, range: (int, int), e: LineEntry): (ls: seq<LessonValue>)
    ensures |ls| == WeekCount(range.0 + e.weekday - 2, range.1)
  {
    var ds := WeeklyDates(range.0 + e.weekday - 2, range.1);
    seq(|ds|, k requires 0 <= k < |ds| => LessonValue(ds[k], e.period, e.place, className))
  }

  function RtPieces(className: string, range: (int, int), entries: seq<LineEntry>): (pieces: seq<seq<LessonValue>>)
    ensures |pieces| == |entries|
  {
    seq(|entries|, j requires 0 <= j < |entries| => LineLessons(className, range, entries[j]))
  }

  /** What `map_rt_lesson` returns: the lessons of each line in turn. */
  function RtLessons(className: string, range: (int, int), entries: seq<LineEntry>): seq<LessonValue> {
    Concat(RtPieces(className, range, entries))
  }

  /** `map_rt_lesson` (src/parse.rs:52-77): for each line, for each of its dates, a
      new `Lesson` whose date, period, place and class are set one after another. */
  method MapRtLesson(className: string, range: (int, int), entries: seq<LineEntry>) returns (lessons: seq<LessonValue>)
    ensures lessons == RtLessons(className, range, entries)
  {
    ghost var pieces := RtPieces(className, range, entries);
    lessons := [];
    var j := 0;
    while j < |entries|
      invariant 0 <= j <= |entries|
      invariant lessons == Concat(pieces[..j])
    {
      var e := entries[j];
      var days := MapWdToDay(range.0, range.1, e.weekday);
      ghost var before := lessons;
      var k := 0;
      while k < |days|
        invariant 0 <= k <= |days|
        invariant lessons == before + pieces[j][..k]
      {
        var l := new Lesson();
        l.ModDate(days[k]);
        l.ModPeriod(e.period);
        l.ModPlace(e.place);
        l.ModClass(className);
        assert pieces[j][..k + 1] == pieces[j][..k] + [l.Value()];
        lessons := lessons + [l.Value()];
        k := k + 1;
      }
      assert pieces[j][..k] == pieces[j];
      assert pieces[..j + 1] == pieces[..j] + [pieces[j]];
      ConcatSnoc(pieces[..j], pieces[j]);
      j := j + 1;
    }
    assert pieces[..j] == pieces;
  }

  /** The k-th date of line j gives the lesson at position Offset(pieces, j) + k:
      lines in order, then dates ascending. It falls k weeks after start + (wd - 2)
      and carries the line's periods and place and the given class. */
  lemma RtLessonAt(className: string, range: (int, int), entries: seq<LineEntry>, j: nat, k: nat)
    requires j < |entries| && k < WeekCount(range.0 + entries[j].weekday - 2, range.1)
    ensures var n := Offset(RtPieces(className, range, entries), j) + k;
      && n < |RtLessons(className, range, entries)|
      && RtLessons(className, range, entries)[n] ==
         LessonValue(range.0 + entries[j].weekday - 2 + 7 * k, entries[j].period, entries[j].place, className)
  {
    ConcatAt(RtPieces(className, range, entries), j, k);
  }

  /** The number of dates of each line, summed over the lines. */
  function LessonCount(range: (int, int), entries: seq<LineEntry>): nat
    decreases |entries|
  {
    if entries == [] then 0
    else LessonCount(range, entries[..|entries| - 1]) + WeekCount(range.0 + entries[|entries| - 1].weekday - 2, range.1)
  }

  /** `map_rt_lesson` yields one lesson per date of each line. */
  lemma {:induction false} RtLessonCount(className: string, range: (int, int), entries: seq<LineEntry>)
    ensures |RtLessons(className, range, entries)| == LessonCount(range, entries)
    decreases |entries|
  {
    if entries != [] {
      var n := |entries| - 1;
      var pieces := RtPieces(className, range, entries);
      RtLessonCount(className, range, entries[..n]);
      assert pieces[..n] == RtPieces(className, range, entries[..n]);
    }
  }

  /** Every lesson carries the given class and comes from one line: it has that
      line's periods and place and falls on one of its dates. */
  lemma RtLessonFrom(className: string, range: (int, int), entries: seq<LineEntry>, x: LessonValue)
    requires x in RtLessons(className, range, entries)
    ensures x.className == className
    ensures exists j ::
      && 0 <= j < |entries|
      && x.period == entries[j].period && x.place == entries[j].place
      && x.date in WeeklyDates(range.0 + entries[j].weekday - 2, range.1)
  {
    var pieces := RtPieces(className, range, entries);
    ConcatMember(pieces, x);
    var j :| 0 <= j < |pieces| && x in pieces[j];
    assert pieces[j] == LineLessons(className, range, entries[j]);
    LineLessonFrom(className, range, entries[j], x);
  }

  lemma LineLessonFrom(className: string, range: (int, int), e: LineEntry, x: LessonValue)
    requires x in LineLessons(className, range, e)
    ensures x.className == className && x.period == e.period && x.place == e.place
    ensures x.date in WeeklyDates(range.0 + e.weekday - 2, range.1)
  {
    var ds := WeeklyDates(range.0 + e.weekday - 2, range.1);
    var ls := LineLessons(className, range, e);
    var k :| 0 <= k < |ls| && ls[k] == x;
    assert ds[k] in ds;
  }

  // ---------------------------------------------------------------- parse_all

  /** The trimmed fragments after each `Từ`; the text before the first is dropped. */
  function Fragments(others: string): (frags: seq<string>)
    ensures |frags| == |Split(others, BlockMark)| - 1
  {
    var pieces := Split(others, BlockMark);
    seq(|pieces| - 1, i requires 0 <= i < |pieces| - 1 => Trim(pieces[i + 1]))
  }

  /** One fragment: the range before the first `:` and the lines between the first
      and the second `:`, both trimmed; the range is read before the lines. */
  function Fragment(className: string, frag: string): Result<seq<LessonValue>, ParseError> {
    var parts := Split(frag, ":");
    if |parts| < 2 then Err(MissingColon)
    else
      var range :- SplitRange(Trim(parts[0]));
      var entries :- GetWdPeriodPlace(Trim(parts[1]));
      Ok(RtLessons(className, range, entries))
  }

  /** `parse_all` (src/parse.rs:36-50): the lessons of every fragment, fragment by
      fragment, failing at the first fragment that fails. */
  function ParseAll(className: string, others: string): Result<seq<LessonValue>, ParseError> {
    var perFragment :- Traverse(Fragments(others), frag => Fragment(className, frag));
    Ok(Concat(perFragment))
  }

  /** The column fails exactly when one of its fragments fails, and then with the
      first failure. */
  lemma ParseAllFailure(className: string, others: string)
    ensures var frags := Fragments(others);
      ParseAll(className, others).Err? <==> exists i :: 0 <= i < |frags| && Fragment(className, frags[i]).Err?
    ensures var frags := Fragments(others);
      ParseAll(className, others).Err? ==> exists i ::
        && 0 <= i < |frags|
        && Fragment(className, frags[i]) == ParseAll(className, others)
        && forall j :: 0 <= j < i ==> Fragment(className, frags[j]).Ok?
  {
    var frags := Fragments(others);
    var r := Traverse(frags, frag => Fragment(className, frag));
    if r.Err? {
      var i :| 0 <= i < |frags| && Fragment(className, frags[i]) == Err(r.error) && forall j :: 0 <= j < i ==> Fragment(className, frags[j]).Ok?;
    }
  }

  /** A column without `Từ` has no lessons. */
  lemma ParseAllNoBlock(className: string, others: string)
    requires !Contains(others, BlockMark)
    ensures ParseAll(className, others) == Ok([])
  {
    SplitNone(others, BlockMark);
    assert Fragments(others) == [];
  }

  /** Every lesson of a column carries the given class. */
  lemma ParseAllClass(className: string, others: string, x: LessonValue)
    requires ParseAll(className, others).Ok? && x in ParseAll(className, others).value
    ensures x.className == className
  {
    var frags := Fragments(others);
    var per := Traverse(frags, frag => Fragment(className, frag)).value;
    ConcatMember(per, x);
    var i :| 0 <= i < |per| && x in per[i];
    FragmentClass(className, frags[i], x);
  }

  /** Every lesson of a fragment carries the given class. */
  lemma FragmentClass(className: string, frag: string, x: LessonValue)
    requires Fragment(className, frag).Ok? && x in Fragment(className, frag).value
    ensures x.className == className
  {
    var parts := Split(frag, ":");
    var range := SplitRange(Trim(parts[0])).value;
    var entries := GetWdPeriodPlace(Trim(parts[1])).value;
    RtLessonFrom(className, range, entries, x);
  }

  // ---------------------------------------------------------------- one block, end to end

  /** The text of one block: `Từ f đến t: Thứ wd tiết ns tại place`. */
  function BlockText(f: DateText, t: DateText, wd: nat, ns: seq<nat>, place: string): string {
    BlockMark + (" " + FragmentText(f, t, wd, ns, place))
  }

  /** The block's text after `Từ `. */
  function FragmentText(f: DateText, t: DateText, wd: nat, ns: seq<nat>, place: string): string {
    GetData.RangeText(f, t) + (":" + (" " + LineText(wd, ns, place)))
  }

  /** A place that a block carries through unchanged: a plain place with no `:`, no
      line break and no `Từ`. */
  predicate BlockPlace(place: string) {
    PlainPlace(place) && ':' !in place && '\n' !in place && !Contains(place, BlockMark)
  }

  /** A column holding one block with one line yields one lesson for each date of
      the line's weekday in the block's range, carrying the line's first and last
      period and its place. */
  lemma ParseAllBlock(className: string, f: DateText, t: DateText, wd: nat, ns: seq<nat>, place: string)
    requires IsDateText(f) && IsDateText(t)
    requires wd < U32Bound && ns != [] && forall i :: 0 <= i < |ns| ==> ns[i] < U8Bound
    requires BlockPlace(place)
    ensures ParseAll(className, BlockText(f, t, wd, ns, place)) ==
      Ok(RtLessons(className, (DateOf(f), DateOf(t)), [LineEntry(wd, (ns[0], ns[|ns| - 1]), " " + place)]))
  {
    var frag := FragmentText(f, t, wd, ns, place);
    FragmentsOfBlock(f, t, wd, ns, place);
    FragmentOfText(className, f, t, wd, ns, place);
    ParseAllOne(className, BlockText(f, t, wd, ns, place), frag);
  }

  lemma ParseAllOne(className: string, others: string, frag: string)
    requires Fragments(others) == [frag] && Fragment(className, frag).Ok?
    ensures ParseAll(className, others) == Fragment(className, frag)
  {
    var v := Fragment(className, frag).value;
    TraverseOne(frag, frag => Fragment(className, frag));
    assert [v][..0] == [];
    assert Concat([v]) == v;
  }

  /** The characters of the block's marks, none of them a digit or a separator. */
  lemma MarkChars()
    ensures forall c :: c in [':', '\n'] ==>
      && !IsAsciiDigit(c) && c != '/' && c != ' ' && c != ','
      && c !in GetData.To && c !in GetData.WeekdayMark && c !in GetData.PeriodMark && c !in PlaceMark
  {
  }

  lemma RangeChars(f: DateText, t: DateText, c: char)
    requires Digits(f.d) && Digits(f.m) && Digits(f.y) && Digits(t.d) && Digits(t.m) && Digits(t.y)
    requires !IsAsciiDigit(c) && c != '/' && c != ' ' && c !in GetData.To
    ensures c !in GetData.RangeText(f, t)
  {
    NotInDate(f, c);
    NotInDate(t, c);
  }

  lemma LineChars(wd: nat, ns: seq<nat>, place: string, c: char)
    requires !IsAsciiDigit(c) && c != ',' && c != ' ' && c !in place
    requires c !in GetData.WeekdayMark && c !in GetData.PeriodMark && c !in PlaceMark
    ensures c !in LineText(wd, ns, place)
  {
    NotInDigits(Decimal(wd), c);
    ListNot(ns, c);
  }

  lemma FragmentsOfBlock(f: DateText, t: DateText, wd: nat, ns: seq<nat>, place: string)
    requires IsDateText(f) && IsDateText(t) && BlockPlace(place)
    ensures Fragments(BlockText(f, t, wd, ns, place)) == [FragmentText(f, t, wd, ns, place)]
  {
    var frag := FragmentText(f, t, wd, ns, place);
    BlockFree(f, t, wd, ns, place);
    FragmentsOne(" " + frag);
    FragmentTrimmed(f, t, wd, ns, place);
  }

  lemma FragmentsOne(body: string)
    requires !Contains(body, BlockMark)
    ensures Fragments(BlockMark + body) == [Trim(body)]
  {
    assert BlockMark + body == [] + BlockMark + body;
    SplitAt([], BlockMark, body);
    SplitNone(body, BlockMark);
  }

  /** The only `T` of a block's text after its mark is the one of `Thứ`, so it holds
      no second `Từ`. */
  lemma BlockFree(f: DateText, t: DateText, wd: nat, ns: seq<nat>, place: string)
    requires IsDateText(f) && IsDateText(t) && BlockPlace(place)
    ensures !Contains(" " + FragmentText(f, t, wd, ns, place), BlockMark)
  {
    var head := " " + GetData.RangeText(f, t) + ":" + " ";
    assert 'T' !in head by {
      RangeChars(f, t, 'T');
    }
    LineFree(wd, ns, place);
    NotContainsPrefixed(head, LineText(wd, ns, place), BlockMark);
    assert " " + FragmentText(f, t, wd, ns, place) == head + LineText(wd, ns, place);
  }

  /** A line whose place holds no `Từ` holds none. */
  lemma LineFree(wd: nat, ns: seq<nat>, place: string)
    requires !Contains(place, BlockMark)
    ensures !Contains(LineText(wd, ns, place), BlockMark)
  {
    var mid := LineMiddle(wd, ns);
    MiddleChars(wd, ns);
    NotContainsPrefixed(mid, place, BlockMark);
    assert GetData.WeekdayMark[1] != BlockMark[1] && BlockMark[0] !in GetData.WeekdayMark[1..];
    NotContainsMismatch(GetData.WeekdayMark, mid + place, BlockMark);
    assert LineText(wd, ns, place) == GetData.WeekdayMark + (mid + place);
  }

  /** A line's text between `Thứ` and its place. */
  function LineMiddle(wd: nat, ns: seq<nat>): string {
    " " + (Decimal(wd) + " ") + GetData.PeriodMark + " " + (PeriodList(ns) + " ") + PlaceMark + " "
  }

  lemma MiddleChars(wd: nat, ns: seq<nat>)
    ensures 'T' !in LineMiddle(wd, ns)
  {
    NotInDigits(Decimal(wd), 'T');
    ListNot(ns, 'T');
  }

  lemma FragmentTrimmed(f: DateText, t: DateText, wd: nat, ns: seq<nat>, place: string)
    requires IsDateText(f) && IsDateText(t) && PlainPlace(place)
    ensures Trim(" " + FragmentText(f, t, wd, ns, place)) == FragmentText(f, t, wd, ns, place)
  {
    var frag := FragmentText(f, t, wd, ns, place);
    assert frag[0] == f.d[0] && frag[|frag| - 1] == place[|place| - 1];
    assert " " + frag == " " + frag + [];
    TrimPadded(" ", frag, [], Whitespace);
  }

  /** The block's text after `Từ ` reads as the lessons of its one line. */
  lemma FragmentOfText(className: string, f: DateText, t: DateText, wd: nat, ns: seq<nat>, place: string)
    requires IsDateText(f) && IsDateText(t)
    requires wd < U32Bound && ns != [] && forall i :: 0 <= i < |ns| ==> ns[i] < U8Bound
    requires BlockPlace(place)
    ensures Fragment(className, FragmentText(f, t, wd, ns, place)) ==
      Ok(RtLessons(className, (DateOf(f), DateOf(t)), [LineEntry(wd, (ns[0], ns[|ns| - 1]), " " + place)]))
  {
    var r := GetData.RangeText(f, t);
    var l := LineText(wd, ns, place);
    FragmentSplit(f, t, wd, ns, place);
    RangeTrimmed(f, t);
    SplitRangeText(f, t);
    LineOfFragment(wd, ns, place);
    FragmentParts(className, FragmentText(f, t, wd, ns, place), r, " " + l,
      (DateOf(f), DateOf(t)), [LineEntry(wd, (ns[0], ns[|ns| - 1]), " " + place)]);
  }

  /** How a fragment is read once it is known where its first `:` splits it. */
  lemma FragmentParts(className: string, frag: string, p0: string, p1: string, range: (int, int), entries: seq<LineEntry>)
    requires var parts := Split(frag, ":"); |parts| >= 2 && parts[0] == p0 && parts[1] == p1
    requires SplitRange(Trim(p0)) == Ok(range) && GetWdPeriodPlace(Trim(p1)) == Ok(entries)
    ensures Fragment(className, frag) == Ok(RtLessons(className, range, entries))
  {
  }

  lemma FragmentSplit(f: DateText, t: DateText, wd: nat, ns: seq<nat>, place: string)
    requires IsDateText(f) && IsDateText(t) && BlockPlace(place)
    ensures Split(FragmentText(f, t, wd, ns, place), ":") == [GetData.RangeText(f, t), " " + LineText(wd, ns, place)]
  {
    var l := " " + LineText(wd, ns, place);
    assert ':' !in GetData.RangeText(f, t) && ':' !in l by {
      MarkChars();
      assert ':' in [BlockMark[1], ':', '\n'];
      RangeChars(f, t, ':');
      LineChars(wd, ns, place, ':');
    }
    assert FragmentText(f, t, wd, ns, place) == GetData.RangeText(f, t) + ":" + l;
    SplitAt(GetData.RangeText(f, t), ":", l);
    NotContainsChar(l, ":", 0);
    SplitNone(l, ":");
  }

  lemma RangeTrimmed(f: DateText, t: DateText)
    requires IsDateText(f) && IsDateText(t)
    ensures Trim(GetData.RangeText(f, t)) == GetData.RangeText(f, t)
  {
    var r := GetData.RangeText(f, t);
    assert r[0] == f.d[0] && r[|r| - 1] == t.y[|t.y| - 1];
    TrimNoPadding(r, Whitespace);
  }

  /** The text after the block's `:` is its one line, read as the line's entry. */
  lemma LineOfFragment(wd: nat, ns: seq<nat>, place: string)
    requires wd < U32Bound && ns != [] && forall i :: 0 <= i < |ns| ==> ns[i] < U8Bound
    requires BlockPlace(place)
    ensures GetWdPeriodPlace(Trim(" " + LineText(wd, ns, place))) == Ok([LineEntry(wd, (ns[0], ns[|ns| - 1]), " " + place)])
  {
    var l := LineText(wd, ns, place);
    assert Trim(" " + l) == l by {
      assert l[0] == GetData.WeekdayMark[0] && l[|l| - 1] == place[|place| - 1] by {
        LineMarks();
      }
      assert " " + l == " " + l + [];
      TrimPadded(" ", l, [], Whitespace);
    }
    assert '\n' !in l by {
      MarkChars();
      assert '\n' in [BlockMark[1], ':', '\n'];
      LineChars(wd, ns, place, '\n');
    }
    LinesOne(l);
    ParseLineRoundTrip(wd, ns, place);
    TraverseOne(l, ParseLine);
  }
}
