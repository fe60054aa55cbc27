/** The report's own example (the comment at src/get_data.rs:46-54), worked through
    the model: the block `Từ 30/05/2022 đến 05/06/2022: (1) Thứ 4 tiết 9,10,11,12`
    with the plain place rule `201-TA3-CNTT TA3`. SingleRuleRow reads any rule of
    that shape; WorkedExample applies it to the report's dates and periods. */
module RowExample {
  import opened Wrappers
  import opened Seqs
  import opened Strings
  import opened Calendar
  import opened TimeTable
  import opened Recurrence
  import opened GetData

  // ---------------------------------------------------------------- rule texts

  /** Four period numbers separated by commas. */
  function ListText(a: string, b: string, c: string, d: string): string {
    a + "," + (b + "," + (c + "," + d))
  }

  /** The entries ` w tiết ps` after `Thứ`. */
  function EntriesText(w: string, ps: string): string {
    " " + EntryText(w, ps)
  }

  /** The one entry `w tiết ps`. */
  function EntryText(w: string, ps: string): string {
    (w + " ") + PeriodMark + (" " + ps)
  }

  /** The block `Từ f đến t: (1) Thứ w tiết ps`. */
  function RuleText(f: DateText, t: DateText, w: string, ps: string): string {
    From + (RangeText(f, t) + ":" + " (1) " + WeekdayMark + EntriesText(w, ps))
  }

  // ---------------------------------------------------------------- characters

  /** A list text holds only digits and `,`. */
  lemma NotInList(a: string, b: string, c: string, d: string, ch: char)
    requires AllDigits(a) && AllDigits(b) && AllDigits(c) && AllDigits(d)
    requires !IsAsciiDigit(ch) && ch != ','
    ensures ch !in ListText(a, b, c, d)
  {
    NotInDigits(a, ch);
    NotInDigits(b, ch);
    NotInDigits(c, ch);
    NotInDigits(d, ch);
  }

  // ---------------------------------------------------------------- the range

  /** A date text followed by a space reads, once trimmed, as its date. */
  lemma DateBeforeSpace(x: DateText)
    requires IsDateText(x)
    ensures ParseDmy(Trim(DateString(x) + " ")) == Some(DateOf(x))
  {
    var s := DateString(x);
    assert s[0] == x.d[0] && s[|s| - 1] == x.y[|x.y| - 1];
    assert s + " " == [] + s + " ";
    TrimPadded([], s, " ", Whitespace);
    ParseDmyGroups(x.d, x.m, x.y);
  }

  /** A date text after a space reads, once trimmed, as its date. */
  lemma DateAfterSpace(x: DateText)
    requires IsDateText(x)
    ensures ParseDmy(Trim(" " + DateString(x))) == Some(DateOf(x))
  {
    var s := DateString(x);
    assert s[0] == x.d[0] && s[|s| - 1] == x.y[|x.y| - 1];
    assert " " + s == " " + s + [];
    TrimPadded(" ", s, [], Whitespace);
    ParseDmyGroups(x.d, x.m, x.y);
  }

  /** A range `f đến t` without padding reads as the dates f and t name. */
  lemma RangeOf(range: string, f: string, t: string, start: int, end: int)
    requires range == f + To + t && 'đ' !in f && f != [] && t != []
    requires !IsWhitespace(f[0]) && !IsWhitespace(t[|t| - 1])
    requires ParseDmy(Trim(f)) == Some(start) && ParseDmy(Trim(t)) == Some(end)
    ensures ParseDateRange(Trim(range)) == Ok((start, end))
  {
    assert range[0] == f[0] && range[|range| - 1] == t[|t| - 1];
    TrimNoPadding(range, Whitespace);
    DateRangeOf(f, t);
  }

  /** The range `f đến t` reads as the two dates f and t name. */
  lemma RangeOfDates(f: DateText, t: DateText)
    requires IsDateText(f) && IsDateText(t)
    ensures ParseDateRange(Trim(RangeText(f, t))) == Ok((DateOf(f), DateOf(t)))
  {
    var fs, ts := DateString(f) + " ", " " + DateString(t);
    assert RangeText(f, t) == fs + To + ts;
    assert 'đ' !in fs by {
      NotInDate(f, 'đ');
    }
    assert !IsWhitespace(fs[0]) && !IsWhitespace(ts[|ts| - 1]) by {
      assert fs[0] == f.d[0] && ts[|ts| - 1] == t.y[|t.y| - 1];
    }
    assert ParseDmy(Trim(fs)) == Some(DateOf(f)) by {
      DateBeforeSpace(f);
    }
    assert ParseDmy(Trim(ts)) == Some(DateOf(t)) by {
      DateAfterSpace(t);
    }
    RangeOf(fs + To + ts, fs, ts, DateOf(f), DateOf(t));
  }

  // ---------------------------------------------------------------- the periods

  /** The digit runs of `run,rest` are run and then the runs of rest. */
  lemma DigitRunsComma(run: string, rest: string)
    requires Digits(run)
    ensures DigitRuns(run + "," + rest) == [run] + DigitRuns(rest)
  {
    var s := run + "," + rest;
    assert s == run + ("," + rest);
    LeadingAll(run, "," + rest, Digit);
    assert s[..|run|] == run;
    assert s[|run|..] == "," + rest;
    assert ("," + rest)[1..] == rest;
  }

  lemma DigitRunsOne(run: string)
    requires Digits(run)
    ensures DigitRuns(run) == [run]
  {
    assert run == run + [];
    LeadingAll(run, [], Digit);
    assert run[..|run|] == run;
    assert run[|run|..] == [];
  }

  lemma DigitRunsTwo(c: string, d: string)
    requires Digits(c) && Digits(d)
    ensures DigitRuns(c + "," + d) == [c, d]
  {
    DigitRunsComma(c, d);
    DigitRunsOne(d);
  }

  lemma DigitRunsThree(b: string, c: string, d: string)
    requires Digits(b) && Digits(c) && Digits(d)
    ensures DigitRuns(b + "," + (c + "," + d)) == [b, c, d]
  {
    DigitRunsComma(b, c + "," + d);
    DigitRunsTwo(c, d);
  }

  /** The runs of four digit groups separated by commas are those groups. */
  lemma DigitRunsFour(a: string, b: string, c: string, d: string)
    requires Digits(a) && Digits(b) && Digits(c) && Digits(d)
    ensures DigitRuns(ListText(a, b, c, d)) == [a, b, c, d]
  {
    DigitRunsComma(a, b + "," + (c + "," + d));
    DigitRunsThree(b, c, d);
  }

  lemma FitValuesFour(a: string, b: string, c: string, d: string)
    requires Digits(a) && Digits(b) && Digits(c) && Digits(d)
    requires DecimalValue(a) < U32Bound && DecimalValue(b) < U32Bound
    requires DecimalValue(c) < U32Bound && DecimalValue(d) < U32Bound
    ensures FitValues([a, b, c, d]) == [DecimalValue(a), DecimalValue(b), DecimalValue(c), DecimalValue(d)]
  {
    ParseDigits(a, U32Bound);
    ParseDigits(b, U32Bound);
    ParseDigits(c, U32Bound);
    ParseDigits(d, U32Bound);
    var (va, vb, vc, vd) := (DecimalValue(a), DecimalValue(b), DecimalValue(c), DecimalValue(d));
    assert [d][1..] == [];
    assert FitValues([d]) == [vd];
    assert [c, d][1..] == [d];
    assert FitValues([c, d]) == [vc, vd];
    assert [b, c, d][1..] == [c, d];
    assert FitValues([b, c, d]) == [vb, vc, vd];
    assert [a, b, c, d][1..] == [b, c, d];
  }

  /** A padded list of four numbers below 2^32 is read as those numbers. */
  lemma ListOfFour(a: string, b: string, c: string, d: string)
    requires Digits(a) && Digits(b) && Digits(c) && Digits(d)
    requires DecimalValue(a) < U32Bound && DecimalValue(b) < U32Bound
    requires DecimalValue(c) < U32Bound && DecimalValue(d) < U32Bound
    ensures ParseListUint(Trim(" " + ListText(a, b, c, d))) ==
      [DecimalValue(a), DecimalValue(b), DecimalValue(c), DecimalValue(d)]
  {
    var s := ListText(a, b, c, d);
    assert s[0] == a[0] && s[|s| - 1] == d[|d| - 1];
    assert " " + s == " " + s + [];
    TrimPadded(" ", s, [], Whitespace);
    DigitRunsFour(a, b, c, d);
    ParseListUintRuns(s);
    FitValuesFour(a, b, c, d);
  }

  // ---------------------------------------------------------------- the entry

  /** A weekday number followed by a space reads as that number. */
  lemma WeekdayBeforeSpace(w: string)
    requires Digits(w)
    ensures ParseWeekday(Trim(w + " ")) == ParseWeekday(w)
  {
    assert w + " " == [] + w + " ";
    TrimPadded([], w, " ", Whitespace);
  }

  /** The text after a single `Thứ`, ` wd tiết ps`, is one entry. */
  lemma OneEntry(entries: string, entry: string, wd: string, ps: string, list: seq<nat>)
    requires entries == " " + entry && entry == wd + PeriodMark + ps && WeekdayMark[0] !in entry && 't' !in wd
    requires wd != [] && !IsWhitespace(wd[0]) && ps != [] && !IsWhitespace(ps[|ps| - 1])
    requires ParseListUint(Trim(ps)) == list && list != []
    ensures ParseWeekdayAndPeriod(Trim(entries)) ==
      Ok([Entry(ParseWeekday(Trim(wd)), PeriodTime(list[0]).0, PeriodTime(list[|list| - 1]).1)])
  {
    var e := Entry(ParseWeekday(Trim(wd)), PeriodTime(list[0]).0, PeriodTime(list[|list| - 1]).1);
    OneEntrySplit(entries, entry, wd, ps);
    EntryOf(wd, ps);
    TraverseOne(entry, ParseEntry);
  }

  /** The text after a single `Thứ` is, trimmed twice, one piece without `Thứ`. */
  lemma OneEntrySplit(entries: string, entry: string, wd: string, ps: string)
    requires entries == " " + entry && entry == wd + PeriodMark + ps && WeekdayMark[0] !in entry
    requires wd != [] && !IsWhitespace(wd[0]) && ps != [] && !IsWhitespace(ps[|ps| - 1])
    ensures Trim(Trim(entries)) == entry && Split(entry, WeekdayMark) == [entry]
  {
    assert entries == " " + entry + [];
    assert entry[0] == wd[0] && entry[|entry| - 1] == ps[|ps| - 1];
    TrimPadded(" ", entry, [], Whitespace);
    TrimNoPadding(entry, Whitespace);
    NotContainsChar(entry, WeekdayMark, 0);
    SplitNone(entry, WeekdayMark);
  }

  /** ` w tiết a,b,c,d` is the one entry on weekday w from the start of period a to
      the end of period d. */
  lemma EntryOfText(w: string, a: string, b: string, c: string, d: string)
    requires Digits(w) && Digits(a) && Digits(b) && Digits(c) && Digits(d)
    requires DecimalValue(a) < U32Bound && DecimalValue(b) < U32Bound
    requires DecimalValue(c) < U32Bound && DecimalValue(d) < U32Bound
    ensures ParseWeekdayAndPeriod(Trim(EntriesText(w, ListText(a, b, c, d)))) ==
      Ok([Entry(ParseWeekday(w), PeriodTime(DecimalValue(a)).0, PeriodTime(DecimalValue(d)).1)])
  {
    var wd, ps := w + " ", " " + ListText(a, b, c, d);
    var list := [DecimalValue(a), DecimalValue(b), DecimalValue(c), DecimalValue(d)];
    EntryChars(w, a, b, c, d);
    ListOfFour(a, b, c, d);
    WeekdayBeforeSpace(w);
    OneEntry(EntriesText(w, ListText(a, b, c, d)), EntryText(w, ListText(a, b, c, d)), wd, ps, list);
  }

  /** An entry of digit groups holds no `Thứ`, its weekday no `tiết`, and it
      neither starts nor ends with whitespace. */
  lemma EntryChars(w: string, a: string, b: string, c: string, d: string)
    requires Digits(w) && Digits(a) && Digits(b) && Digits(c) && Digits(d)
    ensures var ps := " " + ListText(a, b, c, d);
      && WeekdayMark[0] !in EntryText(w, ListText(a, b, c, d)) && 't' !in w + " "
      && !IsWhitespace((w + " ")[0]) && !IsWhitespace(ps[|ps| - 1])
  {
    MarkChars();
    NotInDigits(w, 'T');
    NotInDigits(w, 't');
    NotInList(a, b, c, d, 'T');
    var ps := " " + ListText(a, b, c, d);
    assert ps[|ps| - 1] == d[|d| - 1];
  }

  // ---------------------------------------------------------------- the row

  /** A time rule with one `Từ ` at its very start is one block. */
  lemma OneFragment(times: string, body: string)
    requires times == From + body && From[1] !in body
    ensures TimeBlocks(times) == [body]
  {
    assert times == [] + From + body;
    SplitAt([], From, body);
    NotContainsChar(body, From, 1);
    SplitNone(body, From);
  }

  lemma BlockOfParts(range: string, skipped: string, entries: string, start: int, end: int, es: seq<Entry>)
    requires ':' !in range && 'T' !in skipped
    requires ParseDateRange(Trim(range)) == Ok((start, end))
    requires ParseWeekdayAndPeriod(Trim(entries)) == Ok(es)
    ensures ParseBlock(range + ":" + skipped + WeekdayMark + entries) == Ok(Block(start, end, es))
  {
    BlockOf(range, skipped, entries);
  }

  /** A row whose place rule and blocks are read is the expansion of those blocks. */
  lemma RowOf(className: string, times: string, places: string, blocks: seq<Block>, table: PlaceTable)
    requires PlaceTableOf(places) == Ok(table)
    requires Traverse(TimeBlocks(times), ParseBlock) == Ok(blocks)
    ensures TableRow(className, times, places) == Ok(RowRecords(className, blocks, table))
  {
  }

  lemma FromNotInBody(range: string, skipped: string, entries: string)
    requires From[1] !in range && From[1] !in skipped && From[1] !in entries
    ensures From[1] !in range + ":" + skipped + WeekdayMark + entries
  {
  }

  /** A row with a plain place rule and one block `Từ range: skipped Thứ entries` is
      the expansion of that block, read from its range and its entries. */
  lemma SingleBlockRow(className: string, times: string, places: string,
                       range: string, skipped: string, entries: string, start: int, end: int, es: seq<Entry>)
    requires times == From + (range + ":" + skipped + WeekdayMark + entries)
    requires From[1] !in range && From[1] !in skipped && From[1] !in entries
    requires ':' !in range && 'T' !in skipped
    requires ParseDateRange(Trim(range)) == Ok((start, end))
    requires ParseWeekdayAndPeriod(Trim(entries)) == Ok(es)
    requires '(' !in places
    ensures TableRow(className, times, places) == Ok(RowRecords(className, [Block(start, end, es)], PlaceTable(places, map[])))
  {
    var body := range + ":" + skipped + WeekdayMark + entries;
    FromNotInBody(range, skipped, entries);
    OneFragment(times, body);
    BlockOfParts(range, skipped, entries, start, end, es);
    TraverseOne(body, ParseBlock);
    RowOf(className, times, places, [Block(start, end, es)], PlaceTable(places, map[]));
  }

  /** The text between the range and `Thứ` holds neither a `Từ` nor a `Thứ`. */
  lemma SkippedText()
    ensures From[1] !in " (1) " && 'T' !in " (1) "
  {
  }

  /** A row with a plain place rule whose time rule is the single block
      `Từ f đến t: (1) Thứ w tiết a,b,c,d` has one block, from the date f names up
      to the date t names, with one entry on weekday w from the start of period a to
      the end of period d. */
  lemma SingleRuleRow(className: string, place: string, f: DateText, t: DateText,
                      w: string, a: string, b: string, c: string, d: string)
    requires IsDateText(f) && IsDateText(t)
    requires Digits(w) && Digits(a) && Digits(b) && Digits(c) && Digits(d)
    requires DecimalValue(a) < U32Bound && DecimalValue(b) < U32Bound
    requires DecimalValue(c) < U32Bound && DecimalValue(d) < U32Bound
    requires '(' !in place
    ensures TableRow(className, RuleText(f, t, w, ListText(a, b, c, d)), place) ==
      Ok(RowRecords(className,
        [Block(DateOf(f), DateOf(t), [Entry(ParseWeekday(w), PeriodTime(DecimalValue(a)).0, PeriodTime(DecimalValue(d)).1)])],
        PlaceTable(place, map[])))
  {
    var es := [Entry(ParseWeekday(w), PeriodTime(DecimalValue(a)).0, PeriodTime(DecimalValue(d)).1)];
    RuleChars(f, t, w, a, b, c, d);
    SkippedText();
    RangeOfDates(f, t);
    EntryOfText(w, a, b, c, d);
    SingleBlockRow(className, RuleText(f, t, w, ListText(a, b, c, d)), place, RangeText(f, t), " (1) ",
                   EntriesText(w, ListText(a, b, c, d)), DateOf(f), DateOf(t), es);
  }

  /** Neither the range nor the entries of a rule hold a `Từ`, and the range holds
      no `:`. */
  lemma RuleChars(f: DateText, t: DateText, w: string, a: string, b: string, c: string, d: string)
    requires Digits(f.d) && Digits(f.m) && Digits(f.y) && Digits(t.d) && Digits(t.m) && Digits(t.y)
    requires AllDigits(w) && AllDigits(a) && AllDigits(b) && AllDigits(c) && AllDigits(d)
    ensures From[1] !in RangeText(f, t) && ':' !in RangeText(f, t)
    ensures From[1] !in EntriesText(w, ListText(a, b, c, d))
  {
    MarkChars();
    NotInDate(f, From[1]);
    NotInDate(t, From[1]);
    NotInDate(f, ':');
    NotInDate(t, ':');
    NotInDigits(w, From[1]);
    NotInList(a, b, c, d, From[1]);
  }

  /** The marks between the dates and before the periods hold no `Từ` and no `:`. */
  lemma MarkChars()
    ensures From[1] !in " " + To + " " && ':' !in " " + To + " " && From[1] !in " " + PeriodMark + " "
    ensures !IsAsciiDigit(From[1]) && From[1] != '/' && From[1] != ','
    ensures WeekdayMark[0] !in " " + PeriodMark + " " && WeekdayMark[0] != ','
  {
  }

  // ---------------------------------------------------------------- the report's example

  const ExampleStart: DateText := DateText("30", "05", "2022")
  const ExampleEnd: DateText := DateText("05", "06", "2022")

  /** `Từ 30/05/2022 đến 05/06/2022: (1) Thứ 4 tiết 9,10,11,12`. */
  const ExampleTimes: string := RuleText(ExampleStart, ExampleEnd, "4", ListText("9", "10", "11", "12"))
  const ExamplePlace: string := "201-TA3-CNTT TA3"

  /** The example's place rule has no groups. */
  lemma PlainPlace()
    ensures '(' !in ExamplePlace
  {
  }

  lemma OneDigit(s: string)
    requires |s| == 1 && IsAsciiDigit(s[0])
    ensures Digits(s) && DecimalValue(s) == DigitValue(s[0])
  {
    DecimalSnoc([], s[0]);
    assert [] + [s[0]] == s;
  }

  lemma TwoDigits(s: string)
    requires |s| == 2 && IsAsciiDigit(s[0]) && IsAsciiDigit(s[1])
    ensures Digits(s) && DecimalValue(s) == DigitValue(s[0]) * 10 + DigitValue(s[1])
  {
    DecimalSnoc([], s[0]);
    assert [] + [s[0]] == [s[0]];
    DecimalSnoc([s[0]], s[1]);
    assert [s[0]] + [s[1]] == s;
  }

  lemma Year2022()
    ensures Digits("2022") && DecimalValue("2022") == 2022
  {
    TwoDigits("20");
    DecimalSnoc("20", '2');
    assert "20" + ['2'] == "202";
    DecimalSnoc("202", '2');
    assert "202" + ['2'] == "2022";
  }

  /** 30/05/2022 and 05/06/2022 are valid dates. */
  lemma ExampleDates()
    ensures IsDateText(ExampleStart) && DateOf(ExampleStart) == DayNumber(2022, 5, 30)
    ensures IsDateText(ExampleEnd) && DateOf(ExampleEnd) == DayNumber(2022, 6, 5)
  {
    TwoDigits("30");
    TwoDigits("05");
    TwoDigits("06");
    Year2022();
  }

  /** The weekday and the periods of the example are plain numbers. */
  lemma ExampleNumbers()
    ensures Digits("4") && DecimalValue("4") == 4 && Digits("9") && DecimalValue("9") == 9
    ensures Digits("10") && DecimalValue("10") == 10 && Digits("11") && DecimalValue("11") == 11
    ensures Digits("12") && DecimalValue("12") == 12
  {
    OneDigit("4");
    OneDigit("9");
    TwoDigits("10");
    TwoDigits("11");
    TwoDigits("12");
  }

  /** "4" names Wednesday. */
  lemma WeekdayFour()
    ensures ParseWeekday("4") == Wed
  {
    TrimNoPadding("4", NonDigit);
  }

  /** The range starts on Monday 30/05/2022. */
  lemma ExampleMonday()
    ensures WeekdayOf(DayNumber(2022, 5, 30)) == Mon
  {
  }

  /** The example's Wednesday lessons, from the start of period 9 to the end of
      period 12. */
  function ExampleEntryValue(): Entry {
    Entry(Wed, Clock(14, 10), Clock(17, 30))
  }

  function ExampleBlock(): Block {
    Block(DayNumber(2022, 5, 30), DayNumber(2022, 6, 5), [ExampleEntryValue()])
  }

  /** Period 9 starts at 14:10 and period 12 ends at 17:30. */
  lemma ExampleSpan()
    ensures PeriodTime(9).0 == Clock(14, 10) && PeriodTime(12).1 == Clock(17, 30)
  {
  }

  /** The Wednesday of that week is 01/06/2022, the only one before 05/06/2022. */
  lemma ExampleDays()
    ensures EntryDates(ExampleBlock().start, ExampleBlock().end, ExampleEntryValue()) == [DayNumber(2022, 6, 1)]
  {
  }

  lemma ExampleRecords()
    ensures RowRecords("CT4", [ExampleBlock()], PlaceTable(ExamplePlace, map[]))
      == [Data("CT4", At(DayNumber(2022, 6, 1), Clock(7, 10)), At(DayNumber(2022, 6, 1), Clock(10, 30)), ExamplePlace)]
  {
    ExampleDays();
    var b := ExampleBlock();
    var e := ExampleEntryValue();
    var day := DayNumber(2022, 6, 1);
    var pair := (At(day, e.begin), At(day, e.end));
    assert Pairs([day], e.begin, e.end) == [pair];
    assert EntryPieces(b) == [[pair]];
    assert [[pair]][..0] == [];
    assert BlockTimes(b) == [pair];
    var table := PlaceTable(ExamplePlace, map[]);
    var x := Data("CT4", ToUtc(pair.0), ToUtc(pair.1), ExamplePlace);
    assert Stamp("CT4", [pair], ExamplePlace) == [x];
    assert BlockPieces("CT4", [b], table) == [[x]];
    assert [[x]][..0] == [];
  }

  /** The example's rule is read as the one block of the week of 30/05/2022 with
      its one Wednesday entry. */
  lemma ExampleBlockOf()
    ensures IsDateText(ExampleStart) && IsDateText(ExampleEnd)
    ensures Block(DateOf(ExampleStart), DateOf(ExampleEnd),
      [Entry(ParseWeekday("4"), PeriodTime(DecimalValue("9")).0, PeriodTime(DecimalValue("12")).1)]) == ExampleBlock()
  {
    ExampleDates();
    ExampleNumbers();
    WeekdayFour();
    ExampleSpan();
  }

  lemma ExampleRow()
    ensures TableRow("CT4", ExampleTimes, ExamplePlace) == Ok(RowRecords("CT4", [ExampleBlock()], PlaceTable(ExamplePlace, map[])))
  {
    ExampleNumbers();
    ExampleBlockOf();
    PlainPlace();
    SingleRuleRow("CT4", ExamplePlace, ExampleStart, ExampleEnd, "4", "9", "10", "11", "12");
  }

  /** The whole example: one lesson, on 01/06/2022 from 14:10 to 17:30 local time,
      which is 07:10 to 10:30 UTC, with the place given as one plain rule. */
  lemma WorkedExample()
    ensures TableRow("CT4", ExampleTimes, ExamplePlace)
      == Ok([Data("CT4", At(DayNumber(2022, 6, 1), Clock(7, 10)), At(DayNumber(2022, 6, 1), Clock(10, 30)), ExamplePlace)])
  {
    ExampleRow();
    ExampleRecords();
  }
}
