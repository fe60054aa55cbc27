/** What `parse_table_row` promises about its records: where each lesson of each
    weekday entry of each block appears and what it holds, how many records a row
    yields, which place each record gets, and when the weekday comes out right. */
module RowFacts {
  import opened Wrappers
  import opened Seqs
  import opened Strings
  import opened Calendar
  import opened TimeTable
  import opened Recurrence
  import opened GetData

  // ---------------------------------------------------------------- content and order

  /** x is the record of the lesson on day d of entry j of block i. */
  predicate RecordOf(x: Data, className: string, blocks: seq<Block>, table: PlaceTable, i: nat, j: nat, d: int) {
    && i < |blocks|
    && j < |blocks[i].entries|
    && var b := blocks[i];
       var e := b.entries[j];
       && d in EntryDates(b.start, b.end, e)
       && x == Data(className, ToUtc(At(d, e.begin)), ToUtc(At(d, e.end)), PlaceOf(table, i + 1))
  }

  /** The k-th weekly lesson of entry j of block i is the record at position
      Offset(blocks, i) + Offset(entries, j) + k: blocks in order, then entries in
      order, then dates ascending. It carries the row's class, begins at the start of
      the entry's first period and ends at the end of its last period on that day,
      both moved to UTC, and has the place of group i + 1. */
  lemma RowRecordAt(className: string, blocks: seq<Block>, table: PlaceTable, i: nat, j: nat, k: nat)
    requires i < |blocks| && j < |blocks[i].entries|
    requires k < |EntryDates(blocks[i].start, blocks[i].end, blocks[i].entries[j])|
    ensures var b := blocks[i];
      var e := b.entries[j];
      var d := EntryDates(b.start, b.end, e)[k];
      var n := Offset(BlockPieces(className, blocks, table), i) + Offset(EntryPieces(b), j) + k;
      && d == b.start + NumDaysFromMonday(e.weekday) + 7 * k
      && n < |RowRecords(className, blocks, table)|
      && RowRecords(className, blocks, table)[n] == Data(className, At(d, e.begin) - 7 * 60, At(d, e.end) - 7 * 60, PlaceOf(table, i + 1))
  {
    var b := blocks[i];
    var pieces := EntryPieces(b);
    ConcatAt(pieces, j, k);
    var m := Offset(pieces, j) + k;
    ConcatAt(BlockPieces(className, blocks, table), i, m);
  }

  /** Every local time pair of a block is the lesson of one of its entries on one
      of that entry's days. */
  lemma BlockTimesFrom(b: Block, t: (int, int))
    requires t in BlockTimes(b)
    ensures exists j: nat, d ::
      && j < |b.entries|
      && d in EntryDates(b.start, b.end, b.entries[j])
      && t == (At(d, b.entries[j].begin), At(d, b.entries[j].end))
  {
    ConcatMember(EntryPieces(b), t);
    var j :| 0 <= j < |b.entries| && t in EntryPieces(b)[j];
    var e := b.entries[j];
    var ds := EntryDates(b.start, b.end, e);
    var k :| 0 <= k < |ds| && Pairs(ds, e.begin, e.end)[k] == t;
    assert ds[k] in ds;
  }

  /** Every stamped record is the record of one of the local time pairs. */
  lemma StampFrom(className: string, times: seq<(int, int)>, place: string, x: Data)
    requires x in Stamp(className, times, place)
    ensures exists m :: 0 <= m < |times| && x == Data(className, ToUtc(times[m].0), ToUtc(times[m].1), place)
  {
    var m :| 0 <= m < |times| && Stamp(className, times, place)[m] == x;
  }

  /** Every record stamped from a block's times is the record of one lesson of one
      of its entries. */
  lemma StampedLesson(className: string, b: Block, place: string, x: Data)
    requires x in Stamp(className, BlockTimes(b), place)
    ensures exists j: nat, d ::
      && j < |b.entries|
      && d in EntryDates(b.start, b.end, b.entries[j])
      && x == Data(className, ToUtc(At(d, b.entries[j].begin)), ToUtc(At(d, b.entries[j].end)), place)
  {
    var times := BlockTimes(b);
    StampFrom(className, times, place, x);
    var m :| 0 <= m < |times| && x == Data(className, ToUtc(times[m].0), ToUtc(times[m].1), place);
    assert times[m] in times;
    BlockTimesFrom(b, times[m]);
  }

  /** Every record is the record of one lesson of one entry of one block. */
  lemma RowRecordFrom(className: string, blocks: seq<Block>, table: PlaceTable, x: Data)
    requires x in RowRecords(className, blocks, table)
    ensures exists i: nat, j: nat, d :: RecordOf(x, className, blocks, table, i, j, d)
  {
    var pieces := BlockPieces(className, blocks, table);
    ConcatMember(pieces, x);
    var i :| 0 <= i < |pieces| && x in pieces[i];
    var b := blocks[i];
    var place := PlaceOf(table, i + 1);
    assert pieces[i] == Stamp(className, BlockTimes(b), place);
    StampedLesson(className, b, place, x);
    var j: nat, d :|
      && j < |b.entries|
      && d in EntryDates(b.start, b.end, b.entries[j])
      && x == Data(className, ToUtc(At(d, b.entries[j].begin)), ToUtc(At(d, b.entries[j].end)), place);
    assert RecordOf(x, className, blocks, table, i, j, d);
  }

  /** Every record carries the row's class name, lasts as long as its entry's span and
      lies on a day of its block's range, on the weekday its entry names when the
      range starts on a Monday. */
  lemma RowRecordShape(className: string, blocks: seq<Block>, table: PlaceTable, x: Data)
    requires x in RowRecords(className, blocks, table)
    ensures x.className == className
    ensures exists i: nat, j: nat, d ::
      && RecordOf(x, className, blocks, table, i, j, d)
      && blocks[i].start <= d < blocks[i].end
      && x.timeEnd - x.timeBegin == blocks[i].entries[j].end - blocks[i].entries[j].begin
  {
    RowRecordFrom(className, blocks, table, x);
    var i: nat, j: nat, d :| RecordOf(x, className, blocks, table, i, j, d);
    var b := blocks[i];
    var e := b.entries[j];
    WeeklyDatesMeaning(b.start + NumDaysFromMonday(e.weekday), b.end);
    ToUtcMonotone(At(d, e.begin), At(d, e.end));
  }

  // ---------------------------------------------------------------- count

  /** The number of weekly lessons of each entry, summed over the entries. */
  function EntriesCount(start: int, end: int, es: seq<Entry>): nat
    decreases |es|
  {
    if es == [] then 0
    else EntriesCount(start, end, es[..|es| - 1]) + WeekCount(start + NumDaysFromMonday(es[|es| - 1].weekday), end)
  }

  /** The lessons of all entries of all blocks. */
  function LessonCount(blocks: seq<Block>): nat
    decreases |blocks|
  {
    if blocks == [] then 0
    else
      var b := blocks[|blocks| - 1];
      LessonCount(blocks[..|blocks| - 1]) + EntriesCount(b.start, b.end, b.entries)
  }

  /** A row yields one record per weekly lesson of every entry of every block. */
  lemma RowCount(className: string, blocks: seq<Block>, table: PlaceTable)
    ensures |RowRecords(className, blocks, table)| == LessonCount(blocks)
  {
    var pieces := BlockPieces(className, blocks, table);
    ConcatLength(pieces);
    BlocksLength(className, blocks, table, |blocks|);
    assert pieces[..|blocks|] == pieces;
    assert blocks[..|blocks|] == blocks;
  }

  lemma {:induction false} BlocksLength(className: string, blocks: seq<Block>, table: PlaceTable, n: nat)
    requires n <= |blocks|
    ensures TotalLength(BlockPieces(className, blocks, table)[..n]) == LessonCount(blocks[..n])
    decreases n
  {
    if n > 0 {
      var pieces := BlockPieces(className, blocks, table);
      BlocksLength(className, blocks, table, n - 1);
      assert pieces[..n][..n - 1] == pieces[..n - 1];
      assert blocks[..n][..n - 1] == blocks[..n - 1];
      var b := blocks[n - 1];
      EntriesLength(b, |b.entries|);
      ConcatLength(EntryPieces(b));
      assert EntryPieces(b)[..|b.entries|] == EntryPieces(b);
      assert b.entries[..|b.entries|] == b.entries;
    }
  }

  lemma {:induction false} EntriesLength(b: Block, n: nat)
    requires n <= |b.entries|
    ensures TotalLength(EntryPieces(b)[..n]) == EntriesCount(b.start, b.end, b.entries[..n])
    decreases n
  {
    if n > 0 {
      EntriesLength(b, n - 1);
      assert EntryPieces(b)[..n][..n - 1] == EntryPieces(b)[..n - 1];
      assert b.entries[..n][..n - 1] == b.entries[..n - 1];
    }
  }

  // ---------------------------------------------------------------- places

  /** A row whose place rule has no `(` gives every record that rule, untrimmed. */
  lemma RowPlacePlain(className: string, times: string, places: string)
    requires '(' !in places && TableRow(className, times, places).Ok?
    ensures forall x :: x in TableRow(className, times, places).value ==> x.place == places
  {
    var table := PlaceTableOf(places).value;
    var blocks := Traverse(TimeBlocks(times), ParseBlock).value;
    PlaceTableMeaning(places);
    forall x | x in TableRow(className, times, places).value
      ensures x.place == places
    {
      RowRecordFrom(className, blocks, table, x);
    }
  }

  /** The place group number k gives: the trimmed name of the last group listing k,
      or the empty string when none does. */
  function GroupName(groups: seq<(seq<nat>, string)>, k: nat): string {
    match LastListing(groups, k)
    case None => ""
    case Some(g) => groups[g].1
  }

  /** With groups, the records of the i-th block (counting from 0, by position) get
      the place of group number i + 1. */
  lemma RowPlaceGrouped(className: string, blocks: seq<Block>, places: string, i: nat)
    requires '(' in places && PlaceTableOf(places).Ok? && i < |blocks|
    ensures var groups := Traverse(Split(places, "(")[1..], Group).value;
      forall x :: x in BlockPieces(className, blocks, PlaceTableOf(places).value)[i] ==>
        x.place == GroupName(groups, i + 1)
  {
    var table := PlaceTableOf(places).value;
    PlaceOfGrouped(places, i + 1);
    var place := PlaceOf(table, i + 1);
    assert place == GroupName(Traverse(Split(places, "(")[1..], Group).value, i + 1);
    assert BlockPieces(className, blocks, table)[i] == Stamp(className, BlockTimes(blocks[i]), place);
    forall x | x in Stamp(className, BlockTimes(blocks[i]), place)
      ensures x.place == place
    {
      StampFrom(className, BlockTimes(blocks[i]), place, x);
    }
  }

  // ---------------------------------------------------------------- failure

  /** A row fails exactly when its place rule fails or one of its time blocks fails,
      and then with the first failure in reading order. */
  lemma RowFailure(className: string, times: string, places: string)
    ensures TableRow(className, times, places).Err? <==>
      PlaceTableOf(places).Err? || exists i :: 0 <= i < |TimeBlocks(times)| && ParseBlock(TimeBlocks(times)[i]).Err?
    ensures PlaceTableOf(places).Err? ==> TableRow(className, times, places) == Err(PlaceTableOf(places).error)
  {
  }

  // ---------------------------------------------------------------- weekdays

  /** The lessons of an entry fall on the weekday it names exactly when the range
      starts on a Monday: the weekday's offset is added to the range start without
      looking at the start's own weekday. */
  lemma EntryWeekday(start: int, end: int, e: Entry)
    ensures forall d :: d in EntryDates(start, end, e) ==> (WeekdayOf(d) == e.weekday <==> WeekdayOf(start) == Mon)
  {
    var off := NumDaysFromMonday(e.weekday);
    WeeklyDatesWeekday(start + off, end);
    WeekdayAfter(start, off);
    if WeekdayOf(start + off) == e.weekday {
      Recurrence.SameWeekdayNumber(WeekdayOf(start), Mon);
    }
  }
}
