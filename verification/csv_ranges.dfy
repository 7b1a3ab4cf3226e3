/**
 How a CSV file is cut into partitions and each partition is read (minispark/storage/csv.py),
 at the level of lines.
 */
module CsvRanges {
  import opened Arithmetic
  import opened Sequences
  import opened TextLines

  // ---- lines ---------------------------------------------------------------

  function Lines(text: string): seq<string>
    decreases |text|
  {
    if text == "" then []
    else
      var n := LineLength(text);
      [text[..n]] + Lines(text[n..])
  }

  /** Where line k of a text begins; the end of the text for a line it does not have. */
  function LineStart(text: string, k: nat): (p: nat)
    ensures p <= |text|
    decreases |text|
  {
    if k == 0 || text == "" then 0
    else
      var n := LineLength(text);
      n + LineStart(text[n..], k - 1)
  }

  /** The lines after the header. */
  function DataLines(text: string): seq<string> {
    if Lines(text) == [] then [] else Lines(text)[1..]
  }

  /** The lines together are the text. */
  lemma {:induction false} LinesAreText(text: string)
    ensures Flatten(Lines(text)) == text
    decreases |text|
  {
    if text != "" {
      var n := LineLength(text);
      LinesAreText(text[n..]);
      assert text == text[..n] + text[n..];
    }
  }

  /** The header line and the data lines together are the text. */
  lemma HeaderThenData(text: string)
    ensures text == text[..LineLength(text)] + Flatten(DataLines(text))
  {
    LinesAreText(text);
    if text != "" { LinesAreText(text[LineLength(text)..]); }
  }

  /** A line has a newline at its end, unless it is the last, and nowhere else. */
  ghost predicate IsLine(line: string, last: bool) {
    line != "" && '\n' !in line[..|line| - 1] && (line[|line| - 1] == '\n' || last)
  }

  lemma {:induction false} FirstLine(text: string)
    requires text != ""
    ensures IsLine(text[..LineLength(text)], LineLength(text) == |text|)
  {
    if text[0] != '\n' && |text| > 1 {
      FirstLine(text[1..]);
      var n, rest := LineLength(text), text[1..][..LineLength(text[1..])];
      assert text[..n] == [text[0]] + rest;
      assert text[..n][..n - 1] == [text[0]] + rest[..n - 2];
    }
  }

  lemma {:induction false} LinesAreLines(text: string, k: nat)
    requires k < |Lines(text)|
    ensures IsLine(Lines(text)[k], k == |Lines(text)| - 1)
    decreases |text|
  {
    var n := LineLength(text);
    FirstLine(text);
    if k > 0 {
      LinesAreLines(text[n..], k - 1);
    } else if n < |text| {
      assert text[..n] == Lines(text)[0];
    }
  }

  /** What is left of the text at line k is its lines from k on. */
  lemma {:induction false} LinesFrom(text: string, k: nat)
    ensures k <= |Lines(text)| ==> Lines(text[LineStart(text, k)..]) == Lines(text)[k..]
    ensures k >= |Lines(text)| ==> LineStart(text, k) == |text|
    decreases |text|
  {
    hide LineLength;
    if k > 0 && text != "" {
      var n := LineLength(text);
      LinesFrom(text[n..], k - 1);
      assert text[LineStart(text, k)..] == text[n..][LineStart(text[n..], k - 1)..];
    } else {
      assert text[0..] == text;
    }
  }

  /** The next line begins where this one ends. */
  lemma {:induction false} NextLine(text: string, k: nat)
    requires k < |Lines(text)|
    ensures var p := LineStart(text, k);
            && p < |text| && LineStart(text, k + 1) == p + LineLength(text[p..])
            && Lines(text)[k] == text[p..][..LineLength(text[p..])]
    decreases |text|
  {
    var n := LineLength(text);
    if k > 0 {
      NextLine(text[n..], k - 1);
      assert text[LineStart(text, k)..] == text[n..][LineStart(text[n..], k - 1)..];
    } else {
      assert text[0..] == text;
      assert LineStart(text[n..], 0) == 0;
    }
  }

  // ---- the file ------------------------------------------------------------

  class TextFile {
    const text: string
    var pos: nat

    constructor (text: string)
      ensures this.text == text && pos == 0
    {
      this.text, pos := text, 0;
    }

    /** The line at the cursor, or the empty string at the end. */
    method Readline() returns (line: string)
      requires pos <= |text|
      modifies this`pos
      ensures pos == old(pos) + LineLength(text[old(pos)..]) <= |text|
      ensures line == text[old(pos)..][..LineLength(text[old(pos)..])]
      ensures line == "" <==> old(pos) == |text|
    {
      var start := pos;
      while pos < |text| && (pos == start || text[pos - 1] != '\n')
        invariant start <= pos <= |text|
        invariant LineLength(text[start..]) == pos - start +
                    if pos > start && text[pos - 1] == '\n' then 0 else LineLength(text[pos..])
      {
        assert text[pos..][1..] == text[pos + 1..];
        pos := pos + 1;
      }
      line := text[start..pos];
      assert line == text[start..][..pos - start];
    }

    method Seek(offset: nat)
      modifies this`pos
      ensures pos == offset
    {
      pos := offset;
    }
  }

  // ---- counting and locating -----------------------------------------------

  /** Reading the k-th line moves to the next; after the last, the end is reached. */
  lemma LineAt(text: string, k: nat)
    requires k <= |Lines(text)|
    ensures var p := LineStart(text, k);
            && (k == 0 ==> p == 0) && (p < |text| <==> k < |Lines(text)|)
            && (k < |Lines(text)| ==> p + LineLength(text[p..]) == LineStart(text, k + 1))
  {
    LinesFrom(text, k);
    if k < |Lines(text)| { NextLine(text, k); }
  }

  /** _count_rows: lines after the header. */
  method CountRows(text: string) returns (count: nat)
    ensures count == |DataLines(text)|
  {
    hide Lines, LineStart, LineLength;
    var f := new TextFile(text);
    LineAt(text, 0);
    var line := f.Readline();
    count := 0;
    ghost var k := if Lines(text) == [] then 0 else 1;
    LineAt(text, k);
    line := f.Readline();
    while line != ""
      invariant fresh(f) && f.text == text && k <= |Lines(text)| && f.pos <= |text|
      invariant line == "" ==> k == |Lines(text)|
      invariant line != "" ==> k < |Lines(text)| && f.pos == LineStart(text, k + 1)
      invariant count == if Lines(text) == [] then 0 else k - 1
      decreases |Lines(text)| - k
    {
      count := count + 1;
      k := k + 1;
      LineAt(text, k);
      line := f.Readline();
    }
  }

  predicate Ascending(rows: seq<nat>) {
    forall i, j :: 0 <= i < j < |rows| ==> rows[i] < rows[j]
  }

  /** The offset of a data row: the start of its line, or the end of the file. */
  function RowOffset(text: string, row: nat): nat {
    LineStart(text, row + 1)
  }

  /** One more row among ascending ones, unless it is there already. */
  function WithRow(row: nat, rows: seq<nat>): (r: seq<nat>)
    requires Ascending(rows)
    ensures Ascending(r) && forall x :: x in r <==> x == row || x in rows
  {
    if rows == [] then [row]
    else if row < rows[0] then [row] + rows
    else if row == rows[0] then rows
    else
      assert forall x :: x in rows <==> x == rows[0] || x in rows[1..];
      var rest := WithRow(row, rows[1..]);
      assert forall j :: 0 <= j < |rest| ==> rest[j] in rest;
      [rows[0]] + rest
  }

  /** sorted(set(rows)). */
  function SortedSet(rows: seq<nat>): (r: seq<nat>)
    ensures Ascending(r) && forall x :: x in r <==> x in rows
  {
    if rows == [] then [] else WithRow(rows[0], SortedSet(rows[1..]))
  }

  /** _locate_partition_offsets: every asked-for row's offset, in one forward pass. */
  method LocateOffsets(text: string, startRows: seq<nat>) returns (offsets: map<nat, nat>)
    ensures forall row :: row in startRows ==> row in offsets && offsets[row] == RowOffset(text, row)
  {
    var wanted := SortedSet(startRows);
    var f := new TextFile(text);
    var line := f.Readline();
    offsets := map[];
    var next, row, pos := 0, 0, f.pos;
    FirstRow(text);
    while next < |wanted|
      invariant fresh(f) && f.text == text && next <= |wanted|
      invariant f.pos == pos == RowOffset(text, row)
      invariant forall i :: 0 <= i < next ==> wanted[i] in offsets && offsets[wanted[i]] == RowOffset(text, wanted[i])
      invariant forall i :: 0 <= i < next ==> wanted[i] < row
      invariant next < |wanted| ==> row <= wanted[next]
      decreases |text| - f.pos, 1
    {
      RowEnds(text, row);
      line := f.Readline();
      if line == "" { break; }
      if row == wanted[next] {
        offsets := offsets[row := pos];
        next := next + 1;
      }
      row := row + 1;
      pos := f.pos;
    }
    PastTheEnd(text, row);
    ghost var reached := next;
    while next < |wanted|
      invariant reached <= next <= |wanted|
      invariant forall i :: 0 <= i < next ==> wanted[i] in offsets && offsets[wanted[i]] == RowOffset(text, wanted[i])
    {
      offsets := offsets[wanted[next] := pos];
      next := next + 1;
    }
  }

  lemma FirstRow(text: string)
    ensures LineLength(text[0..]) == RowOffset(text, 0)
  {
    assert text[0..] == text;
    if text != "" { NextLine(text, 0); }
  }

  /** A row's line ends where the next row's begins; at the end of the file nothing moves. */
  lemma RowEnds(text: string, row: nat)
    ensures var p := RowOffset(text, row);
            && p <= |text| && (p < |text| ==> p + LineLength(text[p..]) == RowOffset(text, row + 1))
  {
    LinesFrom(text, row + 1);
    if row + 1 < |Lines(text)| { NextLine(text, row + 1); }
  }

  lemma PastTheEnd(text: string, row: nat)
    ensures RowOffset(text, row) == |text| ==> forall later :: later >= row ==> RowOffset(text, later) == |text|
  {
    if RowOffset(text, row) == |text| {
      if row + 1 < |Lines(text)| { NextLine(text, row + 1); }
      forall later | later >= row ensures RowOffset(text, later) == |text| { LinesFrom(text, later + 1); }
    }
  }

  lemma RowLine(text: string, row: nat)
    requires row < |DataLines(text)|
    ensures var p := RowOffset(text, row);
            && p < |text| && p + LineLength(text[p..]) == RowOffset(text, row + 1)
            && DataLines(text)[row] == text[p..][..LineLength(text[p..])]
  {
    NextLine(text, row + 1);
  }

  lemma SliceSnoc<T>(s: seq<T>, start: nat, m: nat)
    requires start <= m < |s|
    ensures s[start..m + 1] == s[start..m] + [s[m]]
  {
  }

  // ---- reading a range -----------------------------------------------------

  /** _read_csv_range: seeks to the offset and reads up to end - start lines. */
  method ReadRange(text: string, start: nat, end: nat, offset: nat) returns (rows: seq<string>)
    requires start <= end <= |DataLines(text)| && offset == RowOffset(text, start)
    ensures rows == DataLines(text)[start..end]
  {
    var f := new TextFile(text);
    f.Seek(offset);
    rows := [];
    for i := 0 to end - start
      invariant fresh(f) && f.text == text && f.pos == RowOffset(text, start + i) <= |text|
      invariant rows == DataLines(text)[start..start + i]
    {
      RowLine(text, start + i);
      var line := f.Readline();
      if line == "" { break; }
      SliceSnoc(DataLines(text), start, start + i);
      rows := rows + [line];
    }
  }

  // ---- cutting into ranges -------------------------------------------------

  datatype Range = Range(id: nat, start: nat, end: nat)

  function CeilDiv(a: nat, b: nat): nat
    requires b >= 1
  {
    (a + b - 1) / b
  }

  function Least(a: nat, b: nat): nat {
    if a < b then a else b
  }

  /** Ranges numbered from 0, the first starting at 0 and each where the one before it
      ended, none empty unless the file is, together reaching `upTo`. */
  ghost predicate Consecutive(ranges: seq<Range>, rows: nat, upTo: nat) {
    && (forall i :: 0 <= i < |ranges| ==>
          && ranges[i].id == i && ranges[i].start <= ranges[i].end <= rows
          && (rows > 0 ==> ranges[i].start < ranges[i].end)
          && ranges[i].start == (if i == 0 then 0 else ranges[i - 1].end))
    && (if ranges == [] then upTo == 0 else ranges[|ranges| - 1].end == upTo)
  }

  /** Range i holds the i-th stretch of `chunk` rows, the last one what is left. */
  ghost predicate Chunked(ranges: seq<Range>, rows: nat, chunk: nat) {
    forall i :: 0 <= i < |ranges| ==> ranges[i].start == Times(i, chunk) && ranges[i].end == Least(Times(i + 1, chunk), rows)
  }

  /** The least size of which n stretches cover the rows. */
  ghost predicate LeastChunk(rows: nat, n: nat, chunk: nat) {
    Times(n, chunk) >= rows && (chunk > 0 ==> Times(n, chunk - 1) < rows)
  }

  /** As many partitions as asked for, if there is a row for each, but at least one. */
  function PartitionCount(rows: nat, numPartitions: int): nat {
    if numPartitions < 1 || rows == 0 then 1 else if numPartitions < rows then numPartitions else rows
  }

  lemma ChunkIsLeast(rows: nat, n: nat)
    requires n >= 1 && rows >= 1
    ensures LeastChunk(rows, n, CeilDiv(rows, n)) && CeilDiv(rows, n) >= 1
  {
    var chunk := CeilDiv(rows, n);
    ChunksCover(rows, n);
    assert rows + n - 1 == chunk * n + (rows + n - 1) % n;
    if chunk > 0 { assert n * (chunk - 1) == chunk * n - n; }
  }

  lemma ChunksCover(rows: nat, n: nat)
    requires n >= 1
    ensures Times(n, CeilDiv(rows, n)) >= rows
  {
    var chunk := CeilDiv(rows, n);
    assert rows + n - 1 == chunk * n + (rows + n - 1) % n;
  }

  /** The loop invariant of the cutting: the first i stretches, those that hold a row. */
  ghost predicate CutTo(ranges: seq<Range>, rows: nat, chunk: nat, i: nat) {
    && (rows > 0 <==> chunk > 0)
    && Chunked(ranges, rows, chunk) && Consecutive(ranges, rows, Least(Times(i, chunk), rows))
    && |ranges| <= i && (Times(i, chunk) <= rows && rows > 0 ==> |ranges| == i) && (rows == 0 ==> |ranges| == i)
  }

  lemma CutNothing(rows: nat, chunk: nat)
    requires rows > 0 <==> chunk > 0
    ensures CutTo([], rows, chunk, 0)
  {
    assert Times(0, chunk) == 0;
  }

  lemma CutNext(ranges: seq<Range>, rows: nat, chunk: nat, i: nat)
    requires CutTo(ranges, rows, chunk, i)
    ensures var start, end := Times(i, chunk), Least(Times(i + 1, chunk), rows);
            CutTo(if start >= end && rows > 0 then ranges else ranges + [Range(i, start, end)], rows, chunk, i + 1)
  {
    TimesNext(i, chunk);
    assert chunk == 0 ==> Times(i, chunk) == 0;
    hide Times;
    var start, end := Times(i, chunk), Least(Times(i + 1, chunk), rows);
    if !(start >= end && rows > 0) { assert |ranges| == i; }
  }

  lemma CutAll(ranges: seq<Range>, rows: nat, chunk: nat, n: nat)
    requires n >= 1 && CutTo(ranges, rows, chunk, n) && LeastChunk(rows, n, chunk)
    ensures Consecutive(ranges, rows, rows) && ranges != [] && (rows == 0 ==> |ranges| == 1 || n != 1)
    ensures Chunked(ranges, rows, chunk) && |ranges| <= n
  {
    hide Times, Chunked;
  }

  /** The ranges of CSVDataSource.read. */
  method CutRanges(rows: nat, numPartitions: int) returns (ranges: seq<Range>)
    ensures Consecutive(ranges, rows, rows) && ranges != [] && (rows == 0 ==> |ranges| == 1)
    ensures |ranges| <= PartitionCount(rows, numPartitions)
    ensures exists chunk: nat :: Chunked(ranges, rows, chunk) && LeastChunk(rows, PartitionCount(rows, numPartitions), chunk)
  {
    var atMost := if rows == 0 then 1 else rows;
    var n: nat := if numPartitions < 1 then 1 else if numPartitions < atMost then numPartitions else atMost;
    var chunk := if rows == 0 then 0 else CeilDiv(rows, n);
    ranges := [];
    assert n == PartitionCount(rows, numPartitions);
    CutNothing(rows, chunk);
    if rows > 0 { ChunkIsLeast(rows, n); }
    assert LeastChunk(rows, n, chunk);
    hide Times, CeilDiv, Consecutive, Chunked, CutTo, LeastChunk;
    for i := 0 to n
      invariant CutTo(ranges, rows, chunk, i)
    {
      CutNext(ranges, rows, chunk, i);
      var start, end := Times(i, chunk), Least(Times(i + 1, chunk), rows);
      if !(start >= end && rows > 0) {
        ranges := ranges + [Range(i, start, end)];
      }
    }
    CutAll(ranges, rows, chunk, n);
  }

  /** An earlier range lies wholly before a later one. */
  lemma {:induction false} RangesApart(ranges: seq<Range>, rows: nat, i: nat, j: nat)
    requires Consecutive(ranges, rows, rows) && i < j < |ranges|
    ensures ranges[i].end <= ranges[j].start
  {
    if i < j - 1 { RangesApart(ranges, rows, i, j - 1); }
  }

  lemma ChunkSizes(ranges: seq<Range>, rows: nat, chunk: nat)
    requires Consecutive(ranges, rows, rows) && Chunked(ranges, rows, chunk)
    ensures forall i :: 0 <= i < |ranges| - 1 ==> ranges[i].end - ranges[i].start == chunk
  {
    hide Times;
    forall i | 0 <= i < |ranges| - 1 ensures ranges[i].end - ranges[i].start == chunk {
      TimesNext(i, chunk);
      assert ranges[i + 1].start == ranges[i].end;
    }
  }

  /** The data lines of each range. */
  function Slices(lines: seq<string>, ranges: seq<Range>): seq<seq<string>>
    requires forall i :: 0 <= i < |ranges| ==> ranges[i].start <= ranges[i].end <= |lines|
  {
    seq(|ranges|, i requires 0 <= i < |ranges| => lines[ranges[i].start..ranges[i].end])
  }

  lemma {:induction false} SlicesJoin(lines: seq<string>, ranges: seq<Range>, n: nat)
    requires Consecutive(ranges, |lines|, |lines|) && n <= |ranges|
    ensures Flatten(Slices(lines, ranges)[..n]) == lines[..if n == 0 then 0 else ranges[n - 1].end]
  {
    if n > 0 {
      SlicesJoin(lines, ranges, n - 1);
      var ss := Slices(lines, ranges);
      assert ss[..n] == ss[..n - 1] + [ss[n - 1]];
      FlattenSnoc(ss[..n - 1], ss[n - 1]);
    }
  }

  /** CSVDataSource.read, all partitions consumed: for any file and any requested partition
      count the partitions, in order, are the data lines, once each. */
  method ReadAll(text: string, numPartitions: int) returns (partitions: seq<seq<string>>)
    ensures Flatten(partitions) == DataLines(text)
    ensures 1 <= |partitions| && |partitions| <= if numPartitions < 1 then 1 else numPartitions
    ensures DataLines(text) != [] ==> forall i :: 0 <= i < |partitions| ==> partitions[i] != []
    ensures exists chunk: nat ::
              && LeastChunk(|DataLines(text)|, PartitionCount(|DataLines(text)|, numPartitions), chunk)
              && forall i :: 0 <= i < |partitions| - 1 ==> |partitions[i]| == chunk
  {
    var rows := CountRows(text);
    var ranges := CutRanges(rows, numPartitions);
    ghost var lines := DataLines(text);
    ghost var chunk: nat :| Chunked(ranges, rows, chunk) && LeastChunk(rows, PartitionCount(rows, numPartitions), chunk);
    ChunkSizes(ranges, rows, chunk);
    hide LeastChunk, PartitionCount, Chunked;
    var starts := seq(|ranges|, i requires 0 <= i < |ranges| => ranges[i].start);
    var offsets := LocateOffsets(text, starts);
    partitions := [];
    for i := 0 to |ranges|
      invariant partitions == Slices(lines, ranges)[..i]
    {
      assert starts[i] == ranges[i].start;
      var part := ReadRange(text, ranges[i].start, ranges[i].end, offsets[ranges[i].start]);
      partitions := partitions + [part];
    }
    SlicesJoin(lines, ranges, |ranges|);
    assert Slices(lines, ranges)[..|ranges|] == Slices(lines, ranges);
  }
}
