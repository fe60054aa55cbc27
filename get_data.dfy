/** `parse_table_row` of src/get_data.rs: one row of the student timetable (a class
    name, a time rule and a place rule, as texts) expanded into a flat list of
    lessons with their UTC begin and end instants and their place.

    A time rule is a list of blocks
      `Từ dd/mm/yyyy đến dd/mm/yyyy: (n) Thứ <w> tiết <p,...> ... Thứ <w> tiết <p,...>`
    and a place rule is either one place or groups `(i,j,...)place(k,...)place...`
    that give the place of the i-th, j-th, ... block. Every panic of the source
    (`unwrap` on a missing token, indexing an empty list) is an `Err` here. */
module GetData {
  import opened Wrappers
  import opened Seqs
  import opened Strings
  import opened Calendar
  import opened TimeTable
  import opened Recurrence

  /** The literal tokens of the report. */
  const From: string := "Từ "
  const To: string := "đến"
  const WeekdayMark: string := "Thứ"
  const PeriodMark: string := "tiết"

  /** The range `f đến t`. */
  function RangeText(f: DateText, t: DateText): string {
    DateString(f) + " " + To + " " + DateString(t)
  }

  /** One lesson (the `Data` record of src/main.rs); instants are minutes since
      1970-01-01 00:00 UTC. */
  datatype Data = Data(className: string, timeBegin: int, timeEnd: int, place: string)

  /** The panics of `parse_table_row`, by cause. */
  datatype RowError =
    | UnclosedGroup          // a `(` fragment of the place rule without `)`
    | MissingColon           // a block without `:`
    | MissingWeekday         // a block without `Thứ` after its colon
    | MissingRangeSeparator  // a date range without `đến`
    | BadDate                // a side of a date range that is not a dd/mm/yyyy date
    | MissingPeriodMarker    // a weekday entry without `tiết`
    | EmptyPeriodList        // a weekday entry whose period list has no number

  // ---------------------------------------------------------------- place rule

  /** The place rule read: the place of each listed block number, and the place of
      the blocks no group lists. */
  datatype PlaceTable = PlaceTable(default: string, groups: map<nat, string>)

  /** One `list)name` fragment (the text after a `(`): the block numbers listed before
      the first `)` and the trimmed name after it. */
  function Group(frag: string): (r: Result<(seq<nat>, string), RowError>)
    ensures r.Err? <==> ')' !in frag
    ensures r.Err? ==> r.error == UnclosedGroup
  {
    NoCharNoMatch(frag, ")");
    match SplitOnce(frag, ")")
    case None => Err(UnclosedGroup)
    case Some((list, name)) => Ok((ParseListUint(Trim(list)), Trim(name)))
  }

  /** A one-character pattern occurs in s exactly when its character does. */
  lemma NoCharNoMatch(s: string, pat: string)
    requires |pat| == 1
    ensures Contains(s, pat) <==> pat[0] in s
  {
    ContainsIff(s, pat);
    if pat[0] in s {
      var j :| 0 <= j < |s| && s[j] == pat[0];
      assert s[j..j + 1] == pat;
      assert OccursAt(s, pat, j);
    }
  }

  /** A fragment `list)name` whose list holds no `)` gives that list and name. */
  lemma GroupOf(list: string, name: string)
    requires ')' !in list
    ensures Group(list + ")" + name) == Ok((ParseListUint(Trim(list)), Trim(name)))
  {
    SplitAt(list, ")", name);
  }

  /** m with every key of ks mapped to name (`map.insert` for each key in turn). */
  function Assign(m: map<nat, string>, ks: seq<nat>, name: string): map<nat, string> {
    m + map k | k in ks :: name
  }

  /** The map the groups build, each group inserting its keys over the earlier ones. */
  function GroupMap(groups: seq<(seq<nat>, string)>): map<nat, string>
    decreases |groups|
  {
    if groups == [] then map[]
    else
      var last := groups[|groups| - 1];
      Assign(GroupMap(groups[..|groups| - 1]), last.0, last.1)
  }

  /** Independent reading of the groups: the index of the last group that lists k. */
  function LastListing(groups: seq<(seq<nat>, string)>, k: nat): (r: Option<nat>)
    ensures r.Some? ==> r.value < |groups| && k in groups[r.value].0
    ensures r.Some? ==> forall j :: r.value < j < |groups| ==> k !in groups[j].0
    ensures r.None? ==> forall j :: 0 <= j < |groups| ==> k !in groups[j].0
    decreases |groups|
  {
    if groups == [] then None
    else if k in groups[|groups| - 1].0 then Some(|groups| - 1)
    else LastListing(groups[..|groups| - 1], k)
  }

  /** Last write wins: k is mapped exactly when some group lists it, and then to the
      name of the last group that does. */
  lemma {:induction false} GroupMapLastWins(groups: seq<(seq<nat>, string)>, k: nat)
    ensures match LastListing(groups, k)
      case None => k !in GroupMap(groups)
      case Some(j) => k in GroupMap(groups) && GroupMap(groups)[k] == groups[j].1
    decreases |groups|
  {
    if groups != [] {
      GroupMapLastWins(groups[..|groups| - 1], k);
    }
  }

  /** The place rule (src/get_data.rs:19-43): without `(` the whole text is the place
      of every block; otherwise every fragment after a `(` must have a `)`, the
      groups fill the map and blocks that no group lists get the empty string. */
  function PlaceTableOf(places: string): Result<PlaceTable, RowError> {
    if '(' !in places then Ok(PlaceTable(places, map[]))
    else
      var groups :- Traverse(Split(places, "(")[1..], Group);
      Ok(PlaceTable("", GroupMap(groups)))
  }

  /** `map.get(&k).unwrap_or(&default)`. */
  function PlaceOf(t: PlaceTable, k: nat): string {
    if k in t.groups then t.groups[k] else t.default
  }

  /** The place rule fails exactly when it has a `(` and some fragment after a `(`
      has no `)`; a plain rule is the place of every block. */
  lemma PlaceTableMeaning(places: string)
    ensures PlaceTableOf(places).Err? <==>
      '(' in places && exists f :: f in Split(places, "(")[1..] && ')' !in f
    ensures PlaceTableOf(places).Err? ==> PlaceTableOf(places).error == UnclosedGroup
    ensures '(' !in places ==> forall k :: PlaceOf(PlaceTableOf(places).value, k) == places
  {
    if '(' in places {
      var frags := Split(places, "(")[1..];
      if Traverse(frags, Group).Err? {
        var i :| 0 <= i < |frags| && Group(frags[i]) == Err(Traverse(frags, Group).error);
        assert frags[i] in frags;
      } else {
        forall f | f in frags ensures ')' in f {
          var i :| 0 <= i < |frags| && frags[i] == f;
          assert Group(frags[i]).Ok?;
        }
      }
    }
  }

  /** With groups, block k gets the trimmed name of the last fragment listing k, and
      the empty string when no fragment lists it. */
  lemma PlaceOfGrouped(places: string, k: nat)
    requires '(' in places && PlaceTableOf(places).Ok?
    ensures var groups := Traverse(Split(places, "(")[1..], Group).value;
      PlaceOf(PlaceTableOf(places).value, k) ==
        match LastListing(groups, k)
        case None => ""
        case Some(j) => groups[j].1
  {
    GroupMapLastWins(Traverse(Split(places, "(")[1..], Group).value, k);
  }

  /** src/get_data.rs:19-43 step by step: the map starts empty and each group inserts
      its keys in turn. */
  method ResolvePlaces(places: string) returns (r: Result<PlaceTable, RowError>)
    ensures r == PlaceTableOf(places)
  {
    if '(' !in places {
      return Ok(PlaceTable(places, map[]));
    }
    var frags := Split(places, "(")[1..];
    var m: map<nat, string> := map[];
    var i := 0;
    while i < |frags|
      invariant 0 <= i <= |frags|
      invariant Traverse(frags[..i], Group).Ok?
      invariant m == GroupMap(Traverse(frags[..i], Group).value)
    {
      TraverseSnoc(frags, Group, i);
      var g := Group(frags[i]);
      if g.Err? {
        return Err(g.error);
      }
      var (ks, name) := g.value;
      m := InsertAll(m, ks, name);
      GroupMapSnoc(Traverse(frags[..i], Group).value, (ks, name));
      i := i + 1;
    }
    assert frags[..i] == frags;
    return Ok(PlaceTable("", m));
  }

  /** `vec.into_iter().for_each(|i| { map.insert(i as usize, p.to_string()); })`. */
  method InsertAll(m: map<nat, string>, ks: seq<nat>, name: string) returns (m': map<nat, string>)
    ensures m' == Assign(m, ks, name)
  {
    m' := m;
    var j := 0;
    while j < |ks|
      invariant 0 <= j <= |ks|
      invariant m' == Assign(m, ks[..j], name)
    {
      AssignSnoc(m, ks, j, name);
      m' := m'[ks[j] := name];
      j := j + 1;
    }
    assert ks[..j] == ks;
  }

  lemma AssignSnoc(m: map<nat, string>, ks: seq<nat>, j: nat, name: string)
    requires j < |ks|
    ensures Assign(m, ks[..j + 1], name) == Assign(m, ks[..j], name)[ks[j] := name]
  {
    assert ks[..j + 1] == ks[..j] + [ks[j]];
    assert forall k :: k in ks[..j + 1] <==> k in ks[..j] || k == ks[j];
  }

  lemma GroupMapSnoc(groups: seq<(seq<nat>, string)>, g: (seq<nat>, string))
    ensures GroupMap(groups + [g]) == Assign(GroupMap(groups), g.0, g.1)
  {
    assert (groups + [g])[..|groups|] == groups;
  }

  // ---------------------------------------------------------------- time rule

  /** `parse_date_range`: the two dates around the first `đến`. */
  function ParseDateRange(range: string): (r: Result<(int, int), RowError>)
    ensures r == Err(MissingRangeSeparator) <==> !Contains(range, To)
    ensures r.Ok? || r.error in {MissingRangeSeparator, BadDate}
  {
    match SplitOnce(range, To)
    case None => Err(MissingRangeSeparator)
    case Some((f, t)) =>
      match (ParseDmy(Trim(f)), ParseDmy(Trim(t)))
      case (Some(a), Some(b)) => Ok((a, b))
      case _ => Err(BadDate)
  }

  /** A range `f đến t` (f without `đ`) is the pair of its two trimmed dates, and fails
      exactly when one of them is not a date. */
  lemma DateRangeOf(f: string, t: string)
    requires 'đ' !in f
    ensures ParseDateRange(f + To + t) ==
      if ParseDmy(Trim(f)).Some? && ParseDmy(Trim(t)).Some?
      then Ok((ParseDmy(Trim(f)).value, ParseDmy(Trim(t)).value))
      else Err(BadDate)
  {
    SplitAt(f, To, t);
  }

  /** `get_ps_str_time`: the start of the first listed period and the end of the last
      listed one (the list's first and last entries, not its least and greatest). */
  function PeriodSpan(periods: seq<nat>): (r: Result<(nat, nat), RowError>)
    ensures r.Err? <==> periods == []
    ensures r.Ok? ==> r.value.0 < MinutesPerDay && r.value.1 < MinutesPerDay
  {
    if periods == [] then Err(EmptyPeriodList)
    else
      PeriodTimeWellFormed(periods[0]);
      PeriodTimeWellFormed(periods[|periods| - 1]);
      Ok((PeriodTime(periods[0]).0, PeriodTime(periods[|periods| - 1]).1))
  }

  /** For listed periods in 1 ..= 16 the span starts before it ends exactly when the
      first is not after the last, with the exceptions the table's period 12 makes:
      it starts at 15:45, before periods 10 and 11 end. */
  lemma PeriodSpanOrder(first: nat, last: nat)
    requires 1 <= first <= 16 && 1 <= last <= 16
    ensures PeriodTime(first).0 < PeriodTime(last).1 <==> first <= last || (first == 12 && last >= 10)
  {
    if first <= last {
      PeriodSpanOrdered(first, last);
    } else if first != 12 {
      StartAfterPreviousEnd(first);
      if last < first - 1 {
        PeriodOrder(last, first - 1);
      }
    } else if last < 9 {
      PeriodOrder(last, 9);
    }
  }

  /** Every period but 12 starts after the previous one ends. */
  lemma StartAfterPreviousEnd(n: nat)
    requires 2 <= n <= 16 && n != 12
    ensures PeriodTime(n - 1).1 < PeriodTime(n).0
  {
  }

  /** A list in falling order yields a span that ends before it begins. */
  lemma PeriodSpanFalling()
    ensures PeriodSpan([3, 1]) == Ok((Clock(8, 40), Clock(7, 45)))
  {
  }

  /** One weekday entry: the weekday and the times of day (in minutes) at which its
      lessons begin and end. */
  datatype Entry = Entry(weekday: Weekday, begin: nat, end: nat)

  /** One `<w> tiết <p,...>` entry (the text after a `Thứ`). */
  function ParseEntry(piece: string): (r: Result<Entry, RowError>)
    ensures r == Err(MissingPeriodMarker) <==> !Contains(piece, PeriodMark)
    ensures r.Ok? || r.error in {MissingPeriodMarker, EmptyPeriodList}
  {
    match SplitOnce(piece, PeriodMark)
    case None => Err(MissingPeriodMarker)
    case Some((wd, ps)) =>
      var span :- PeriodSpan(ParseListUint(Trim(ps)));
      Ok(Entry(ParseWeekday(Trim(wd)), span.0, span.1))
  }

  /** An entry `wd tiết ps` (wd without `t`) has the weekday wd names and spans from
      the first to the last number of ps; it fails when ps holds no number. */
  lemma EntryOf(wd: string, ps: string)
    requires 't' !in wd
    ensures var list := ParseListUint(Trim(ps));
      ParseEntry(wd + PeriodMark + ps) ==
        if list == [] then Err(EmptyPeriodList)
        else Ok(Entry(ParseWeekday(Trim(wd)), PeriodTime(list[0]).0, PeriodTime(list[|list| - 1]).1))
  {
    SplitAt(wd, PeriodMark, ps);
  }

  /** `parse_weekday_and_period`: one entry per `Thứ`-separated piece. */
  function ParseWeekdayAndPeriod(all: string): (r: Result<seq<Entry>, RowError>)
    ensures r.Ok? ==> |r.value| == |Split(Trim(all), WeekdayMark)|
    ensures r.Err? ==> r.error in {MissingPeriodMarker, EmptyPeriodList}
  {
    var r := Traverse(Split(Trim(all), WeekdayMark), ParseEntry);
    assert r.Err? ==> r.error in {MissingPeriodMarker, EmptyPeriodList} by {
      if r.Err? {
        var pieces := Split(Trim(all), WeekdayMark);
        var i :| 0 <= i < |pieces| && ParseEntry(pieces[i]) == Err(r.error);
      }
    }
    r
  }

  /** One block of the time rule: its date range and its weekday entries. */
  datatype Block = Block(start: int, end: int, entries: seq<Entry>)

  /** One block (the text after a `Từ `): the range before the first `:`, and the
      entries after the first `Thứ` that follows it; the `(n)` in between is
      skipped. */
  function ParseBlock(frag: string): (r: Result<Block, RowError>)
    ensures r == Err(MissingColon) <==> ':' !in frag
    ensures r == Err(MissingWeekday) <==> Contains(frag, ":") && !Contains(SplitOnce(frag, ":").value.1, WeekdayMark)
  {
    NoCharNoMatch(frag, ":");
    match SplitOnce(frag, ":")
    case None => Err(MissingColon)
    case Some((range, rest)) =>
      match SplitOnce(rest, WeekdayMark)
      case None => Err(MissingWeekday)
      case Some((_, entries)) =>
        var dates :- ParseDateRange(Trim(range));
        var parsed :- ParseWeekdayAndPeriod(Trim(entries));
        Ok(Block(dates.0, dates.1, parsed))
  }

  /** A block `range: skipped Thứ entries` (range without `:`, skipped without `T`)
      is read from the trimmed range and the trimmed entries alone. */
  lemma BlockOf(range: string, skipped: string, entries: string)
    requires ':' !in range && 'T' !in skipped
    ensures ParseBlock(range + ":" + skipped + WeekdayMark + entries) ==
      match ParseDateRange(Trim(range))
      case Err(e) => Err(e)
      case Ok(dates) =>
        match ParseWeekdayAndPeriod(Trim(entries))
        case Err(e) => Err(e)
        case Ok(parsed) => Ok(Block(dates.0, dates.1, parsed))
  {
    assert range + ":" + skipped + WeekdayMark + entries == range + ":" + (skipped + WeekdayMark + entries);
    SplitAt(range, ":", skipped + WeekdayMark + entries);
    SplitAt(skipped, WeekdayMark, entries);
  }

  /** The blocks of a time rule: the pieces after each `Từ `. */
  function TimeBlocks(times: string): (frags: seq<string>)
    ensures forall i :: 0 <= i < |frags| ==> !Contains(frags[i], From)
  {
    Split(times, From)[1..]
  }

  // ---------------------------------------------------------------- expansion

  /** The local begin and end instants of the lessons on the days ds. */
  function Pairs(ds: seq<int>, begin: nat, end: nat): (r: seq<(int, int)>)
    ensures |r| == |ds|
  {
    seq(|ds|, k requires 0 <= k < |ds| => (At(ds[k], begin), At(ds[k], end)))
  }

  /** The days of the week-day entry e: its weekday's offset from Monday added to the
      range's first day, then every seventh day before the range's last day. */
  function EntryDates(start: int, end: int, e: Entry): seq<int> {
    WeeklyDates(start + NumDaysFromMonday(e.weekday), end)
  }

  function EntryTimes(start: int, end: int, e: Entry): seq<(int, int)> {
    Pairs(EntryDates(start, end, e), e.begin, e.end)
  }

  lemma PairsSnoc(ds: seq<int>, n: nat, begin: nat, end: nat)
    requires n < |ds|
    ensures Pairs(ds[..n + 1], begin, end) == Pairs(ds[..n], begin, end) + [(At(ds[n], begin), At(ds[n], end))]
  {
  }

  /** The loop of src/get_data.rs:66-71 for one entry. */
  method ExpandEntry(start: int, end: int, e: Entry) returns (times: seq<(int, int)>)
    ensures times == EntryTimes(start, end, e)
  {
    ghost var first := start + NumDaysFromMonday(e.weekday);
    ghost var ds := EntryDates(start, end, e);
    WeeklyDatesMeaning(first, end);
    var date := start + NumDaysFromMonday(e.weekday);
    times := [];
    while date < end
      invariant |times| <= |ds|
      invariant date == first + 7 * |times|
      invariant times == Pairs(ds[..|times|], e.begin, e.end)
      decreases end - date
    {
      assert ds[|times|] == date;
      PairsSnoc(ds, |times|, e.begin, e.end);
      times := times + [(At(date, e.begin), At(date, e.end))];
      date := date + 7;
    }
    assert ds[..|times|] == ds;
  }

  /** The lesson times of each entry of a block, entry by entry. */
  function EntryPieces(b: Block): (pieces: seq<seq<(int, int)>>)
    ensures |pieces| == |b.entries|
  {
    seq(|b.entries|, j requires 0 <= j < |b.entries| => EntryTimes(b.start, b.end, b.entries[j]))
  }

  function BlockTimes(b: Block): seq<(int, int)> {
    Concat(EntryPieces(b))
  }

  /** The `flat_map` over a block's entries (src/get_data.rs:62-75). */
  method ExpandBlock(b: Block) returns (times: seq<(int, int)>)
    ensures times == BlockTimes(b)
  {
    times := [];
    var j := 0;
    while j < |b.entries|
      invariant 0 <= j <= |b.entries|
      invariant times == Concat(EntryPieces(b)[..j])
    {
      var entryTimes := ExpandEntry(b.start, b.end, b.entries[j]);
      assert EntryPieces(b)[..j + 1] == EntryPieces(b)[..j] + [entryTimes];
      ConcatSnoc(EntryPieces(b)[..j], entryTimes);
      times := times + entryTimes;
      j := j + 1;
    }
    assert EntryPieces(b)[..j] == EntryPieces(b);
  }

  /** The records of lessons at the local times `times`, converted to UTC. */
  function Stamp(className: string, times: seq<(int, int)>, place: string): (r: seq<Data>)
    ensures |r| == |times|
  {
    seq(|times|, k requires 0 <= k < |times| => Data(className, ToUtc(times[k].0), ToUtc(times[k].1), place))
  }

  /** The records of each block; the i-th block (from 0) takes the place of group
      number i + 1. */
  function BlockPieces(className: string, blocks: seq<Block>, table: PlaceTable): (pieces: seq<seq<Data>>)
    ensures |pieces| == |blocks|
  {
    seq(|blocks|, i requires 0 <= i < |blocks| => Stamp(className, BlockTimes(blocks[i]), PlaceOf(table, i + 1)))
  }

  function RowRecords(className: string, blocks: seq<Block>, table: PlaceTable): seq<Data> {
    Concat(BlockPieces(className, blocks, table))
  }

  /** What `parse_table_row` returns: the place rule is read first, then every block
      of the time rule, and the first failure is the row's failure. */
  function TableRow(className: string, times: string, places: string): Result<seq<Data>, RowError> {
    var table :- PlaceTableOf(places);
    var blocks :- Traverse(TimeBlocks(times), ParseBlock);
    Ok(RowRecords(className, blocks, table))
  }

  /** The records of the parsed blocks, block by block (src/get_data.rs:62-87). */
  method ExpandBlocks(className: string, blocks: seq<Block>, table: PlaceTable) returns (records: seq<Data>)
    ensures records == RowRecords(className, blocks, table)
  {
    records := [];
    var i := 0;
    while i < |blocks|
      invariant 0 <= i <= |blocks|
      invariant records == Concat(BlockPieces(className, blocks, table)[..i])
    {
      var blockTimes := ExpandBlock(blocks[i]);
      var stamped := Stamp(className, blockTimes, PlaceOf(table, i + 1));
      assert stamped == BlockPieces(className, blocks, table)[i];
      assert BlockPieces(className, blocks, table)[..i + 1] == BlockPieces(className, blocks, table)[..i] + [stamped];
      ConcatSnoc(BlockPieces(className, blocks, table)[..i], stamped);
      records := records + stamped;
      i := i + 1;
    }
    assert BlockPieces(className, blocks, table)[..i] == BlockPieces(className, blocks, table);
  }

  /** `parse_table_row` (src/get_data.rs:18-88): the place map is filled step by step,
      then each block's weekly loops collect its times before they become records. */
  method ParseTableRow(className: string, times: string, places: string) returns (r: Result<seq<Data>, RowError>)
    ensures r == TableRow(className, times, places)
  {
    var table :- ResolvePlaces(places);
    var blocks :- Traverse(TimeBlocks(times), ParseBlock);
    var records := ExpandBlocks(className, blocks, table);
    return Ok(records);
  }
}
