# Timetable row expansion, modelled in Dafny

This project models the part of the `tkbsv` student-timetable service that turns a
row of the university's timetable report into a flat list of lessons. A row holds
three texts:

- a class name;
- a time rule, made of blocks `Từ dd/mm/yyyy đến dd/mm/yyyy: (n) Thứ <w> tiết <p,p,...>`;
- a place rule, which is either one place or groups `(i,j,...)place(k,...)place...`.

`parse_table_row` (src/get_data.rs) reads the row. For every weekday entry of every
block, it produces one record `(class, begin, end, place)` per week of the block's
range. `begin` and `end` are the start of the entry's first listed period and the
end of its last one, moved from local time (UTC+7) to UTC.

An earlier reader of the same report is in src/parse.rs. `parse_all` takes the time
column with one place per weekday line, written after `tại`. It counts weekdays from
2 = Monday as an offset from the range start. It fills a `Lesson` object through its
`mod_*` setters. The small helpers (digit lists, weekday numbers, the period clock
table, the UTC conversion) appear twice, in src/get_data.rs and src/utils.rs. They
are modelled once, in `TimeTable`.

Encoding:

- Dates are day numbers: days since 1970-01-01 in the proleptic Gregorian calendar.
- Times of day are minutes after midnight.
- A local date and time is `day * 1440 + minute`, so `to_utc` subtracts 420.
- Texts are sequences of Unicode scalar values. The report's tokens are in
  precomposed form.
- Every panic of the source becomes an `Err` of a `Result`. This covers an `unwrap`
  on a missing token, an index into a list that is too short, and `from_ymd` on an
  impossible date. The source's iterator chains are forced by `collect`, so a call
  fails exactly when one step fails. It fails with the first failure in reading
  order (`Seqs.Traverse`).

Modules:

- `Wrappers` (wrappers.dfy): `Option`, `Result`.
- `Seqs` (seqs.dfy): flattening (`Concat`) and the first-failure traversal (`Traverse`).
- `Strings` (strings.dfy): `trim`, `trim_matches`, `split`, `split_once`, `lines`, `str::parse` for integers.
- `Calendar` (calendar.dfy): weekdays, Gregorian day numbers, `%d/%m/%Y` dates.
- `Recurrence` (recurrence.dfy): the weekly `while date < end { push; date += 7 }` sequence.
- `TimeTable` (timetable.dfy): `parse_list_uint`, `parse_weekday`, `get_period_time`, `to_utc`.
- `GetData` (get_data.dfy): `parse_table_row` and its readers; the place map and the loops as methods.
- `RowFacts` (row_facts.dfy): what a row's records hold, their order, count, places and failures.
- `RowExample` (row_example.dfy): a simplified form of the report's own example block (no line break, no trailing `(TH)`), read end to end.
- `Parse` (parse.dfy): `parse_all`, `map_rt_lesson`, `map_wd_to_day`, `get_wd_period_place`, `split_range`, and `Lesson`.

Behaviour of the code that the model keeps as written:

- The span of an entry runs from its first listed period to its last one, whatever
  their order (src/get_data.rs:92-93).
- A weekday is placed by adding its offset from Monday to the range start. The
  start's own weekday is not looked at (src/get_data.rs:67). The lessons fall on the
  named weekday exactly when the range starts on a Monday (`RowFacts.EntryWeekday`).
- An explicit `(n)` after a block's colon is skipped. A block's group is its
  position (src/get_data.rs:59, 76, 83).
- A block that no group lists gets the empty string (src/get_data.rs:19, 83).
- A plain place rule is used untrimmed (src/get_data.rs:42).
- A place-rule fragment without `)` makes the row fail (src/get_data.rs:33).
- The weekday text is stripped of non-digits at both ends and read as one u8
  (src/get_data.rs:126-130). So `4 5` is Sunday.
- An entry starts only at `Thứ` (src/get_data.rs:59, 98). A weekday written any
  other way, such as `Chủ nhật tiết 1,2`, is not an entry of its own. Before the
  block's first `Thứ` it is dropped. After an entry, its numbers join that entry's
  period list, so `Thứ 6 tiết 9,10 Chủ nhật tiết 1,2` is one Friday entry from
  period 9 to period 2. In a block with no `Thứ` the row fails with a missing
  weekday.
- Period 12 starts at 15:45 and ends at 17:30 (src/get_data.rs:155). The report's
  example entry, periods 9 to 12, therefore ends at 17:30 local time.
- In src/parse.rs, `trim_matches` removes the characters `T`, `h`, `ứ`, space,
  newline and tab from both ends of a line (src/parse.rs:91). A place that ends in
  one of them loses it. A place holding `tiết` or `tại` is cut there
  (src/parse.rs:93-94, 97-102). The round trip `Parse.ParseLineRoundTrip`
  therefore requires a place that contains neither mark and does not end in a
  trimmed character. `Parse.ParseAllBlock` also requires that it holds no `:`, no
  line break and no `Từ`, the marks that split a column.
- A fragment with a second `:`, and a line with a second `tiết` or `tại`, keep only
  the text up to that second mark (src/parse.rs:42-43, 93-94, 97-102).

## Model

| member | source | states |
|---|---|---|
| Seqs.Traverse | src/get_data.rs:55-61 | an iterator chain that may panic succeeds exactly when every step does, gives the steps' values in order, and otherwise fails with the first failing step's error |
| TimeTable.FitValues | src/get_data.rs:121 | every value kept by `filter_map(parse::<u32>)` is below 2^32 |
| TimeTable.ParseListUint | src/utils.rs:5-10 | every number read by `parse_list_uint` fits in u32 |
| TimeTable.DigitRuns | src/get_data.rs:119-120 | the runs are non-empty strings of ASCII digits |
| TimeTable.DigitRunsCoverDigits | src/get_data.rs:119-120 | the runs, joined, are exactly the digits of the text in order |
| TimeTable.ParseListUintRuns | src/get_data.rs:118-123 | `parse_list_uint` returns the values of the maximal digit runs that fit in u32, left to right |
| TimeTable.ParseListUintNoDigits | src/get_data.rs:118-123 | a text without digits gives the empty list |
| TimeTable.SplitMatchesRuns | src/get_data.rs:120-121 | splitting at every non-digit and parsing the pieces gives the same values as the digit runs |
| TimeTable.TrimKeepsRuns | src/get_data.rs:119 | trimming non-digits from both ends keeps the digit runs |
| TimeTable.ParseWeekdayMeaning | src/get_data.rs:125-140 | the weekday is not Sunday exactly when the trimmed text is a number from 2 to 7, and its offset from Monday is that number minus 2 |
| TimeTable.ParseWeekdayNoDigits | src/utils.rs:12-26 | a weekday text without digits decodes to Sunday |
| TimeTable.ParseWeekdayLabel | src/get_data.rs:131-139 | `parse_weekday` reads `Thứ 2` .. `Thứ 7` as Monday .. Saturday, and a label without digits (such as `Chủ nhật`) as Sunday |
| TimeTable.PeriodTimeWellFormed | src/get_data.rs:142-166 | every period starts before it ends, within the day; numbers outside 1 ..= 16 get 21:15 - 21:20 |
| TimeTable.PeriodLengths | src/utils.rs:28-52 | every period of the table lasts 45 minutes except period 12, which lasts 105 |
| TimeTable.PeriodOrder | src/utils.rs:39-40 | among periods 1 ..= 16, ends increase with the number; starts increase too except from period 11 to 12 |
| TimeTable.PeriodSpanOrdered | src/get_data.rs:90-95 | a span from period a to a period b >= a starts before it ends |
| TimeTable.ToUtcMonotone | src/utils.rs:54-57 | moving to UTC keeps order, equality and durations |
| Calendar.NumDaysFromMonday | src/get_data.rs:67 | the offset of a weekday from Monday is below 7 |
| Calendar.DayNumberEpoch | src/parse.rs:125 | 1970-01-01 is day 0 |
| Calendar.DayNumberNext | src/parse.rs:125 | the next calendar day has the next day number, across month and year ends and leap days |
| Calendar.WeekdayAfter | src/get_data.rs:67 | n days later the weekday has moved n places round the week |
| Calendar.AtInverse | src/get_data.rs:69 | a local date and time gives back its date and its time of day |
| Calendar.ParseDmyGroups | src/get_data.rs:111-112 | three digit groups joined by `/` are read exactly when they name a valid date, and then as that date |
| Calendar.ParseDmyRoundTrip | src/get_data.rs:111-112 | a date written as decimal day/month/year is read back as itself |
| Recurrence.WeekCount | src/get_data.rs:66-71 | the loop runs max(0, ceil((end - first) / 7)) times: the least n with first + 7n >= end |
| Recurrence.WeeklyDatesMeaning | src/get_data.rs:66-71 | every date lies in [first, end) and is first plus a multiple of 7; dates ascend by 7; none when end <= first; every such day before end is listed |
| Recurrence.WeeklyDatesStep | src/parse.rs:82-85 | the sequence is the first date followed by the sequence from a week later, or empty once the date reaches the end |
| Recurrence.WeeklyDatesWeekday | src/get_data.rs:67-70 | all dates fall on the first date's weekday |
| GetData.Group | src/get_data.rs:33-35 | a place fragment fails exactly when it has no `)` |
| GetData.GroupOf | src/get_data.rs:33-35 | `list)name` gives the numbers of the trimmed list and the trimmed name |
| GetData.LastListing | src/get_data.rs:36-40 | the index of the last group that lists k, if any |
| GetData.GroupMapLastWins | src/get_data.rs:36-40 | k is in the map exactly when some group lists it, and then maps to the name of the last such group |
| GetData.PlaceTableMeaning | src/get_data.rs:29-43 | the place rule fails exactly when it has `(` and a fragment without `)`; a rule without `(` is every block's place, untrimmed |
| GetData.PlaceOfGrouped | src/get_data.rs:83 | with groups, block k gets the last listing group's trimmed name, or the empty string |
| GetData.ResolvePlaces | src/get_data.rs:19-43 | filling the map step by step gives the place table |
| GetData.InsertAll | src/get_data.rs:37-39 | inserting each key in turn maps every listed key to the name over the old map |
| GetData.ParseDateRange | src/get_data.rs:105-116 | a range fails with a missing separator exactly when it has no `đến`; otherwise it fails only with a bad date |
| GetData.DateRangeOf | src/get_data.rs:105-116 | `f đến t` is the pair of the two trimmed dates, or a bad date |
| GetData.PeriodSpan | src/get_data.rs:90-95 | the span fails exactly when the period list is empty; both ends lie within the day |
| GetData.PeriodSpanOrder | src/get_data.rs:90-95 | for periods in 1 ..= 16 the span starts before it ends exactly when first <= last, or first is 12 and last >= 10 |
| GetData.StartAfterPreviousEnd | src/get_data.rs:142-166 | every period but 12 starts after the previous one ends |
| GetData.PeriodSpanFalling | src/get_data.rs:92-94 | the list `3,1` gives a span that ends before it begins |
| GetData.ParseEntry | src/get_data.rs:99-101 | an entry fails with a missing `tiết` exactly when it has none; its only other failure is an empty period list |
| GetData.EntryOf | src/get_data.rs:99-101 | `wd tiết ps` has the weekday wd names and spans from the first to the last number of ps |
| GetData.ParseWeekdayAndPeriod | src/get_data.rs:97-102 | one entry per `Thứ` piece of the trimmed text; failures come only from entries |
| GetData.ParseBlock | src/get_data.rs:58-61 | a block fails with a missing colon exactly when it has no `:`, and with a missing weekday exactly when it has a `:` and no `Thứ` after the first one |
| GetData.BlockOf | src/get_data.rs:58-61 | a block is read from its trimmed range and its trimmed entries alone; the `(n)` before `Thứ` is skipped |
| GetData.TimeBlocks | src/get_data.rs:56-57 | no block holds `Từ ` |
| GetData.ExpandEntry | src/get_data.rs:66-71 | the loop's pairs are the begin and end instants on each weekly date of the entry |
| GetData.ExpandBlock | src/get_data.rs:62-75 | a block's times are its entries' times, entry by entry |
| GetData.ExpandBlocks | src/get_data.rs:76-86 | the records are each block's times stamped with the place of group i + 1, block by block |
| GetData.ParseTableRow | src/get_data.rs:18-88 | the row's records: the place rule, then the blocks, then the weekly expansion |
| RowFacts.RowRecordAt | src/get_data.rs:55-87 | the k-th lesson of entry j of block i is at a fixed position, on start + offset + 7k, from the first period's start to the last period's end, minus 7 hours, with group i + 1's place |
| RowFacts.BlockTimesFrom | src/get_data.rs:62-75 | every time pair of a block is one entry's lesson on one of its dates |
| RowFacts.StampFrom | src/get_data.rs:79-84 | every stamped record is the UTC record of one time pair |
| RowFacts.StampedLesson | src/get_data.rs:77-84 | every stamped record of a block is one entry's lesson on one of its dates |
| RowFacts.RowRecordFrom | src/get_data.rs:76-86 | every record is the lesson of one entry of one block on one of its dates |
| RowFacts.RowRecordShape | src/get_data.rs:79-84 | every record has the row's class, lies in its block's range and lasts as long as its entry's span |
| RowFacts.RowCount | src/get_data.rs:62-87 | a row has one record per weekly lesson of every entry of every block |
| RowFacts.BlocksLength | src/get_data.rs:76-86 | the first n blocks give as many records as their lessons |
| RowFacts.EntriesLength | src/get_data.rs:62-75 | the first n entries give as many time pairs as their lessons |
| RowFacts.RowPlacePlain | src/get_data.rs:41-43 | without `(` every record has the place rule as its place |
| RowFacts.RowPlaceGrouped | src/get_data.rs:76-83 | with groups, the records of block i get the name of the last group listing i + 1, or the empty string |
| RowFacts.RowFailure | src/get_data.rs:29-61 | a row fails exactly when its place rule or one of its blocks fails, a place-rule failure first |
| RowFacts.EntryWeekday | src/get_data.rs:67 | an entry's lessons fall on its weekday exactly when the range starts on a Monday |
| RowExample.SingleRuleRow | src/get_data.rs:55-87 | a one-block rule `Từ f đến t: (1) Thứ w tiết a,b,c,d` with a plain place gives the records of that one entry |
| RowExample.WorkedExample | src/get_data.rs:46-47 | a simplified form of the report's first block (no line break after `(1)`, no trailing `(TH)`) with place `201-TA3-CNTT TA3` gives one record, on 2022-06-01 from 07:10 to 10:30 UTC (14:10 - 17:30 local) |
| Parse.DatePart | src/parse.rs:122 | a date part is an i32; a digit run is its value and text without digits is 0 |
| Parse.AsU32 | src/parse.rs:125 | `as u32` keeps a non-negative i32 and wraps a negative one above 2^31 - 1 |
| Parse.RangeSideBounds | src/parse.rs:119-125 | a side is read only when it has three parts whose day and month, as written, are 1 ..= 31 and 1 ..= 12, and then as the date (year, month, day) = (third, second, first) |
| Parse.RangeSideText | src/parse.rs:119-125 | a side `d/m/y` of digit groups, with any whitespace around it, is read as that date |
| Parse.DatePartsText | src/parse.rs:121-123 | `d/m/y` splits into the values of its three digit groups |
| Parse.SplitRangeText | src/parse.rs:116-128 | `f đến t` is read as the pair of the two dates |
| Parse.ReadRangeParts | src/parse.rs:116-128 | a range split by `đến` into two sides that read as dates is the pair of those dates |
| Parse.SplitRangeNeedsSeparator | src/parse.rs:127 | a range without `đến` fails |
| Parse.PeriodNumber | src/parse.rs:108 | a period is a u8; a digit run below 256 is its value and text without digits is 1 |
| Parse.PeriodNumbers | src/parse.rs:106-109 | there is one period per comma-separated item, and at least one |
| Parse.PeriodNumbersRoundTrip | src/parse.rs:106-109 | u8 numbers written in decimal and joined by commas are read back |
| Parse.WeekdayNumber | src/parse.rs:96 | the weekday is a u32; a digit run is its value and text without digits is 2 |
| Parse.ParseLineMeaning | src/parse.rs:90-104 | a line fails exactly when, trimmed, it has no `tiết`; without `tại` its place is `N/A` |
| Parse.LineHalves | src/parse.rs:93-96 | a line is read from the first two pieces of its split at `tiết`; any further piece is dropped |
| Parse.LinePieces | src/parse.rs:97-110 | the periods come from the text before the first `tại` and the place is the piece after it, up to any second `tại` |
| Parse.ParseLineParts | src/parse.rs:90-110 | a line is read as (weekday before the first `tiết`, (first period, last period) before the first `tại`, the piece after that `tại`) |
| Parse.ParseLineRoundTrip | src/parse.rs:89-114 | `Thứ w tiết p,...,q tại place` is read as (w, (p, q), " " + place) for every place that contains neither `tiết` nor `tại` and does not end in a character the line is trimmed of |
| Parse.GetWdPeriodPlaceMeaning | src/parse.rs:89-114 | one entry per line, each the reading of its line; the text fails exactly when a line has no `tiết` |
| Parse.MapWdToDay | src/parse.rs:79-87 | the dates are start + (wd - 2) + 7k before the end: the first is start + (wd - 2), steps of 7, empty exactly when start + (wd - 2) >= end, all >= start when wd >= 2 |
| Parse.Lesson.ModDate | src/parse.rs:69 | sets the date and nothing else |
| Parse.Lesson.ModPeriod | src/parse.rs:70 | sets the period pair and nothing else |
| Parse.Lesson.ModPlace | src/parse.rs:71 | sets the place and nothing else |
| Parse.Lesson.ModClass | src/parse.rs:72 | sets the class and nothing else |
| Parse.MapRtLesson | src/parse.rs:52-77 | building a `Lesson` per date of each line gives the lessons of the lines in turn |
| Parse.RtLessonAt | src/parse.rs:57-74 | the k-th date of line j gives the lesson at a fixed position, on start + (wd - 2) + 7k, with the line's periods and place and the given class |
| Parse.RtLessonCount | src/parse.rs:57-66 | there are as many lessons as the lines' weekly dates together |
| Parse.RtLessonFrom | src/parse.rs:67-74 | every lesson has the given class and one line's periods, place and one of its dates |
| Parse.LineLessonFrom | src/parse.rs:60-65 | every lesson of a line has its periods, its place and one of its dates |
| Parse.Fragments | src/parse.rs:37-40 | one fragment per `Từ`, the text before the first one dropped |
| Parse.ParseAllFailure | src/parse.rs:36-50 | the column fails exactly when one fragment fails, and then with the first failure |
| Parse.ParseAllNoBlock | src/parse.rs:37-40 | a column without `Từ` has no lessons |
| Parse.ParseAllClass | src/parse.rs:47 | every lesson of a column has the given class |
| Parse.FragmentClass | src/parse.rs:41-47 | every lesson of a fragment has the given class |
| Parse.FragmentParts | src/parse.rs:41-47 | a fragment is read from its range before the first `:` and its lines between the first and any second `:` |
| Parse.ParseAllBlock | src/parse.rs:36-50 | `Từ f đến t: Thứ w tiết p,...,q tại place` gives one lesson per date start + (w - 2) + 7k before the end, each with (p, q) and " " + place, for every place the line reads back that holds no `:`, no line break and no `Từ` |
| Parse.ParseAllOne | src/parse.rs:36-50 | a column of one fragment gives that fragment's lessons |

## Left out

- `get_html` (src/get_data.rs:205-270) and src/get.rs: logging in and scraping over HTTP are network I/O.
- `parse_html` (src/get_data.rs:178-204): HTML table extraction is done by the `scraper` library. The model takes the three text columns as input.
- `process` (src/get_data.rs:10-16) is asynchronous glue around `parse_html` and `parse_table_row`.
- `parse` (src/parse.rs:8-34) reads spreadsheets through the `calamine` library; the model starts from its two text columns.
- `Lesson` is declared in the crate root, which is not part of this model. The model gives it the four fields its `mod_*` setters set (src/parse.rs:69-72) and nothing else.
- `Parse.Lesson.constructor`: the values that `Lesson::new()` gives the fields are not shown; every field is set before use.
- src/main.rs, src/export.rs and `to_ics` (src/utils.rs:59-78) serialize to HTTP, iCalendar and RFC 3339.
- src/database.rs is Postgres persistence.
- The `dbg!` at src/get_data.rs:59 writes to stderr and changes no value.
- Calendar.ParseDmy: chrono's `%d/%m/%Y` leniency is not modelled. A date is exactly three non-empty digit groups that form a valid date. chrono also accepts signs, padding and some other spellings. In the other direction, chrono's `%d` and `%m` read at most two digits and `%Y` at most four without a sign, so the model accepts `001/06/2022` and `01/06/20221`, which chrono rejects.
- Parse.MapWdToDay: chrono panics when `range.0 + Duration::days(wd - 2)` or a later step leaves chrono's date range. Dates here are unbounded integers, so that panic is not modelled. It happens only for weekday numbers in the tens of millions or ranges at the ends of chrono's years.
- GetData.ExpandEntry: the same overflow of `date += 7` past chrono's last date is not modelled.
- The functions of src/utils.rs are identical to those of src/get_data.rs (`is_digit(10)` accepts the same characters as `is_ascii_digit`), so `TimeTable` models both once. The rows above cite one of the two copies.
