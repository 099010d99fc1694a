/*
 * The batch page (static/js/batch-processor.js): an uploaded CSV text is
 * split into a header row and data rows, a column is picked for the
 * barcode data, the chosen cells are posted to the server ten at a time,
 * each slice strictly after the previous one has settled, and the results
 * can be exported as a CSV data URI.
 */
module BatchProcessor {
  import opened Text

  // ---------------------------------------------------------------------
  // Delimiter detection.

  /** The candidates, in the order the page tries them. */
  const Delimiters: seq<char> := [',', ';', '\t', '|']

  /** What `new RegExp(d)` builds from a one-character string d among the
    * candidates: ',', ';' and tab stand for themselves, while '|' is the
    * alternation of two empty branches. */
  datatype Pattern = Literal(c: char) | EmptyOrEmpty

  function Compile(d: char): Pattern
  {
    if d == '|' then EmptyOrEmpty else Literal(d)
  }

  /** Length of the match of p starting exactly at position i, if any. */
  function MatchAt(p: Pattern, s: string, i: nat): Option<nat>
    requires i <= |s|
  {
    match p
    case Literal(c) => if i < |s| && s[i] == c then Some(1) else None
    case EmptyOrEmpty => Some(0)
  }

  /** Number of matches that `s.match(regex with flag g)` returns when the
    * search starts at `from`: after a match the search resumes after it,
    * and after an empty match one position further on. */
  function GlobalMatchCount(p: Pattern, s: string, from: nat): nat
    decreases |s| + 1 - from
  {
    if from > |s| then 0
    else
      match MatchAt(p, s, from)
      case None => GlobalMatchCount(p, s, from + 1)
      case Some(k) => 1 + GlobalMatchCount(p, s, from + (if k == 0 then 1 else k))
  }

  function Occurrences(s: string, c: char): nat
  {
    if s == [] then 0 else (if s[0] == c then 1 else 0) + Occurrences(s[1..], c)
  }

  /** A literal character is counted once per occurrence, so never more
    * often than the line is long. */
  lemma {:induction false} LiteralMatchCount(c: char, s: string, from: nat)
    requires from <= |s|
    ensures GlobalMatchCount(Literal(c), s, from) == Occurrences(s[from..], c)
    ensures Occurrences(s[from..], c) <= |s| - from
    decreases |s| - from
  {
    if from == |s| {
      assert s[from..] == [];
    } else {
      LiteralMatchCount(c, s, from + 1);
      assert s[from..][1..] == s[from + 1..];
    }
  }

  /** The empty alternation matches at every one of the |s| + 1 positions. */
  lemma {:induction false} EmptyMatchCount(s: string, from: nat)
    requires from <= |s| + 1
    ensures GlobalMatchCount(EmptyOrEmpty, s, from) == |s| + 1 - from
    decreases |s| + 1 - from
  {
    if from <= |s| {
      EmptyMatchCount(s, from + 1);
    }
  }

  function FirstLine(text: string): string
  {
    SplitLines(text)[0]
  }

  function DelimiterCounts(text: string): (counts: seq<nat>)
    ensures |counts| == |Delimiters|
  {
    seq(|Delimiters|, i requires 0 <= i < |Delimiters| =>
      GlobalMatchCount(Compile(Delimiters[i]), FirstLine(text), 0))
  }

  /** Math.max over a non-empty list. */
  function MaxOf(xs: seq<nat>): (m: nat)
    requires |xs| >= 1
    ensures m in xs
    ensures forall i :: 0 <= i < |xs| ==> xs[i] <= m
  {
    if |xs| == 1 then xs[0]
    else
      var rest := MaxOf(xs[1..]);
      assert forall i :: 1 <= i < |xs| ==> xs[i] == xs[1..][i - 1];
      if xs[0] >= rest then xs[0] else rest
  }

  /** Array.prototype.find on a value known to be present: its first index. */
  function FirstIndexOf(xs: seq<nat>, v: nat): (k: nat)
    requires v in xs
    ensures k < |xs| && xs[k] == v
    ensures forall j :: 0 <= j < k ==> xs[j] != v
  {
    if xs[0] == v then 0
    else
      assert v in xs[1..];
      1 + FirstIndexOf(xs[1..], v)
  }

  /** Index of the detected delimiter: the first candidate whose count on
    * the first line is the largest. */
  function DetectedIndex(text: string): (k: nat)
    ensures k < |Delimiters|
    ensures forall j :: 0 <= j < |Delimiters| ==> DelimiterCounts(text)[j] <= DelimiterCounts(text)[k]
    ensures forall j :: 0 <= j < k ==> DelimiterCounts(text)[j] < DelimiterCounts(text)[k]
  {
    var counts := DelimiterCounts(text);
    FirstIndexOf(counts, MaxOf(counts))
  }

  function DetectDelimiter(text: string): char
  {
    Delimiters[DetectedIndex(text)]
  }

  /** Because '|' becomes an empty-matching pattern its count is one more
    * than the length of the first line, which no literal count reaches:
    * the detected delimiter is '|' whatever the text. */
  lemma DetectDelimiterIsPipe(text: string)
    ensures DetectDelimiter(text) == '|'
  {
    var line := FirstLine(text);
    var counts := DelimiterCounts(text);
    EmptyMatchCount(line, 0);
    assert counts[3] == |line| + 1;
    forall j | 0 <= j < 3 ensures counts[j] <= |line| {
      LiteralMatchCount(Delimiters[j], line, 0);
      assert line[0..] == line;
    }
  }

  // ---------------------------------------------------------------------
  // Parsing the CSV text.

  datatype Table = Table(headers: seq<string>, data: seq<seq<string>>)

  predicate IsBlank(line: string)
  {
    Trim(Js, line) == ""
  }

  /** `line.split(delimiter).map(value => value.trim())` */
  function Cells(line: string, d: char): seq<string>
  {
    var parts := Split(line, d);
    seq(|parts|, i requires 0 <= i < |parts| => Trim(Js, parts[i]))
  }

  /** `lines.filter(keep).map(cells)`, in the lines' order. */
  function FilterMap(lines: seq<string>, keep: string -> bool, cells: string -> seq<string>): seq<seq<string>>
  {
    if lines == [] then []
    else
      var last := lines[|lines| - 1];
      FilterMap(lines[..|lines| - 1], keep, cells) + (if keep(last) then [cells(last)] else [])
  }

  predicate NotBlank(line: string)
  {
    !IsBlank(line)
  }

  /** Lines that are not white space only, each split into trimmed cells,
    * in their original order. */
  function DataRows(lines: seq<string>, d: char): seq<seq<string>>
  {
    FilterMap(lines, NotBlank, (line: string) => Cells(line, d))
  }

  /** `Column 1`, `Column 2`, ... */
  function ColumnNames(n: nat): seq<string>
  {
    seq(n, i requires 0 <= i < n => "Column " + IntToDecimal(i + 1))
  }

  /** The result of parseCSV for a given value of its hasHeader flag. */
  function ParseCsvWith(text: string, hasHeader: bool): Table
  {
    var lines := SplitLines(text);
    var d := DetectDelimiter(text);
    if hasHeader then Table(Cells(lines[0], d), DataRows(lines[1..], d))
    else Table(ColumnNames(|Split(lines[0], d)|), DataRows(lines, d))
  }

  /** parseCSV. `headerBox` is the "has header" checkbox (None when it is
    * missing); `checked || true` makes the header branch the only one taken. */
  method ParseCsv(text: string, headerBox: Option<bool>) returns (t: Table)
    ensures t == ParseCsvWith(text, true)
    ensures t.headers == Cells(FirstLine(text), '|')
    ensures t.data == DataRows(SplitLines(text)[1..], '|')
  {
    var hasHeader := (headerBox == Some(true)) || true;
    DetectDelimiterIsPipe(text);
    t := ParseLines(text, hasHeader);
  }

  /** The body of parseCSV for either value of hasHeader: the header row is
    * shifted off the lines when there is one, then the blank lines are
    * filtered out and the rest split into trimmed cells. */
  method ParseLines(text: string, hasHeader: bool) returns (t: Table)
    ensures t == ParseCsvWith(text, hasHeader)
  {
    var lines := SplitLines(text);
    var delimiter := DetectDelimiter(text);
    var headers: seq<string>;
    if hasHeader {
      headers := Cells(lines[0], delimiter);
      lines := lines[1..];
    } else {
      headers := ColumnNames(|Split(lines[0], delimiter)|);
    }
    var data := FilterRows(lines, delimiter);
    t := Table(headers, data);
  }

  /** `lines.filter(line => line.trim() !== '').map(line => cells of line)` */
  method FilterRows(lines: seq<string>, d: char) returns (data: seq<seq<string>>)
    ensures data == DataRows(lines, d)
  {
    data := [];
    var i := 0;
    while i < |lines|
      invariant 0 <= i <= |lines|
      invariant data == DataRows(lines[..i], d)
    {
      assert lines[..i + 1][..i] == lines[..i];
      if !IsBlank(lines[i]) {
        data := data + [Cells(lines[i], d)];
      }
      i := i + 1;
    }
    assert lines[..i] == lines;
  }

  /** Empty text has one empty header and no rows. */
  lemma EmptyTextTable()
    ensures ParseCsvWith("", true) == Table([""], [])
  {
    assert SplitLines("") == [""];
    assert Split("", '|') == [""];
    assert Trim(Js, "") == "";
    assert SplitLines("")[1..] == [];
  }

  /** Every cell of every data row is trimmed and free of the delimiter,
    * and there are never more rows than lines. */
  lemma {:induction false} DataRowsClean(lines: seq<string>, d: char)
    ensures |DataRows(lines, d)| <= |lines|
    ensures forall r, c :: 0 <= r < |DataRows(lines, d)| && 0 <= c < |DataRows(lines, d)[r]| ==>
      Trim(Js, DataRows(lines, d)[r][c]) == DataRows(lines, d)[r][c] && d !in DataRows(lines, d)[r][c]
    decreases |lines|
  {
    if lines != [] {
      var init := lines[..|lines| - 1];
      var last := lines[|lines| - 1];
      DataRowsClean(init, d);
      var cells := Cells(last, d);
      CellsClean(last, d);
      assert DataRows(lines, d) == DataRows(init, d) + (if NotBlank(last) then [cells] else []);
    }
  }

  /** Each cell of a line is trimmed and free of the delimiter. */
  lemma CellsClean(line: string, d: char)
    ensures forall c :: 0 <= c < |Cells(line, d)| ==> Trim(Js, Cells(line, d)[c]) == Cells(line, d)[c] && d !in Cells(line, d)[c]
  {
    var cells := Cells(line, d);
    forall c | 0 <= c < |cells| ensures Trim(Js, cells[c]) == cells[c] && d !in cells[c] {
      var part := Split(line, d)[c];
      TrimIdempotent(Js, part);
      TrimDropsNothingNew(part, d);
    }
  }

  lemma TrimDropsNothingNew(s: string, d: char)
    requires d !in s
    ensures d !in Trim(Js, s)
  {
  }

  predicate CleanCell(c: string)
  {
    Trim(Js, c) == c && '|' !in c && '\n' !in c && '\r' !in c
  }

  /** The lines a spreadsheet would write for a header row and data rows,
    * with '|' between cells. */
  function PipeLines(headers: seq<string>, rows: seq<seq<string>>): seq<string>
  {
    [Join(headers, '|')] + seq(|rows|, i requires 0 <= i < |rows| => Join(rows[i], '|'))
  }

  /** The same lines with '\n' between them. */
  function PipeSeparated(headers: seq<string>, rows: seq<seq<string>>): string
  {
    Join(PipeLines(headers, rows), '\n')
  }

  /** Round trip: a pipe-separated text of clean cells, with no data line
    * that is blank, parses back to exactly its header row and data rows. */
  lemma ParsePipeSeparated(headers: seq<string>, rows: seq<seq<string>>)
    requires |headers| >= 1 && forall c :: 0 <= c < |headers| ==> CleanCell(headers[c])
    requires forall r :: 0 <= r < |rows| ==> |rows[r]| >= 1 && !IsBlank(Join(rows[r], '|'))
    requires forall r, c :: 0 <= r < |rows| && 0 <= c < |rows[r]| ==> CleanCell(rows[r][c])
    ensures ParseCsvWith(PipeSeparated(headers, rows), true) == Table(headers, rows)
  {
    var lines := PipeLines(headers, rows);
    var text := Join(lines, '\n');
    PipeLinesClean(headers, rows);
    SplitJoin(lines, '\n');
    NoCarriageReturnInJoin(lines, '\n');
    SplitLinesNoCarriageReturn(text);
    DetectDelimiterIsPipe(text);
    CellsOfCleanLine(headers);
    PipeDataCells(headers, rows);
    DataRowsOfNonBlank(lines[1..], rows);
  }

  lemma PipeLinesClean(headers: seq<string>, rows: seq<seq<string>>)
    requires |headers| >= 1 && forall c :: 0 <= c < |headers| ==> CleanCell(headers[c])
    requires forall r :: 0 <= r < |rows| ==> |rows[r]| >= 1
    requires forall r, c :: 0 <= r < |rows| && 0 <= c < |rows[r]| ==> CleanCell(rows[r][c])
    ensures var lines := PipeLines(headers, rows);
      forall i :: 0 <= i < |lines| ==> '\n' !in lines[i] && '\r' !in lines[i]
  {
    var lines := PipeLines(headers, rows);
    forall i | 0 <= i < |lines| ensures '\n' !in lines[i] && '\r' !in lines[i] {
      if i == 0 {
        assert lines[i] == Join(headers, '|');
        CleanLine(headers);
      } else {
        assert lines[i] == Join(rows[i - 1], '|');
        CleanLine(rows[i - 1]);
      }
    }
  }

  lemma PipeDataCells(headers: seq<string>, rows: seq<seq<string>>)
    requires forall r :: 0 <= r < |rows| ==> |rows[r]| >= 1
    requires forall r, c :: 0 <= r < |rows| && 0 <= c < |rows[r]| ==> CleanCell(rows[r][c])
    ensures var data := PipeLines(headers, rows)[1..];
      |data| == |rows| && forall r :: 0 <= r < |rows| ==> data[r] == Join(rows[r], '|') && Cells(data[r], '|') == rows[r]
  {
    var data := PipeLines(headers, rows)[1..];
    forall r | 0 <= r < |rows| ensures data[r] == Join(rows[r], '|') && Cells(data[r], '|') == rows[r] {
      assert data[r] == Join(rows[r], '|');
      CellsOfCleanLine(rows[r]);
    }
  }

  lemma CleanLine(cells: seq<string>)
    requires |cells| >= 1 && forall c :: 0 <= c < |cells| ==> CleanCell(cells[c])
    ensures '\n' !in Join(cells, '|') && '\r' !in Join(cells, '|')
  {
    JoinKeepsOut(cells, '|', '\n');
    JoinKeepsOut(cells, '|', '\r');
  }

  lemma {:induction false} JoinKeepsOut(ps: seq<string>, d: char, x: char)
    requires x != d && forall i :: 0 <= i < |ps| ==> x !in ps[i]
    ensures x !in Join(ps, d)
    decreases |ps|
  {
    if |ps| > 1 {
      JoinKeepsOut(ps[1..], d, x);
    }
  }

  lemma NoCarriageReturnInJoin(lines: seq<string>, d: char)
    requires d != '\r' && forall i :: 0 <= i < |lines| ==> '\r' !in lines[i]
    ensures '\r' !in Join(lines, d)
  {
    JoinKeepsOut(lines, d, '\r');
  }

  lemma CellsOfCleanLine(cells: seq<string>)
    requires |cells| >= 1 && forall c :: 0 <= c < |cells| ==> CleanCell(cells[c])
    ensures Cells(Join(cells, '|'), '|') == cells
  {
    SplitJoin(cells, '|');
  }

  lemma DataRowsOfNonBlank(lines: seq<string>, rows: seq<seq<string>>)
    requires |lines| == |rows|
    requires forall r :: 0 <= r < |lines| ==> !IsBlank(lines[r]) && Cells(lines[r], '|') == rows[r]
    ensures DataRows(lines, '|') == rows
  {
    FilterMapKeepsAll(lines, rows, NotBlank, (line: string) => Cells(line, '|'));
  }

  /** When every line is kept, the result is the lines' cells one for one. */
  lemma {:induction false} FilterMapKeepsAll(lines: seq<string>, rows: seq<seq<string>>,
                                             keep: string -> bool, cells: string -> seq<string>)
    requires |lines| == |rows|
    requires forall r :: 0 <= r < |lines| ==> keep(lines[r]) && cells(lines[r]) == rows[r]
    ensures FilterMap(lines, keep, cells) == rows
    decreases |lines|
  {
    if lines != [] {
      var n := |lines| - 1;
      FilterMapKeepsAll(lines[..n], rows[..n], keep, cells);
      assert rows == rows[..n] + [rows[n]];
    }
  }

  /** A text without '|' (a comma- or semicolon-separated file, say) gets
    * exactly one cell per line: the whole trimmed line. */
  lemma NoPipeOneColumn(text: string)
    requires '|' !in text
    ensures ParseCsvWith(text, true).headers == [Trim(Js, FirstLine(text))]
  {
    DetectDelimiterIsPipe(text);
    FirstLineKeepsOut(text, '|');
    CellsWithoutDelimiter(FirstLine(text), '|');
  }

  lemma FirstLineKeepsOut(text: string, x: char)
    requires x !in text
    ensures x !in FirstLine(text)
  {
    var line := FirstLine(text);
    var p := Split(text, '\n');
    JoinSplit(text, '\n');
    if x in p[0] {
      var k :| 0 <= k < |p[0]| && p[0][k] == x;
      JoinMember(p, '\n', 0, k);
    }
    if |p| > 1 && p[0] != [] && p[0][|p[0]| - 1] == '\r' {
      assert line == p[0][..|p[0]| - 1];
      assert forall k :: 0 <= k < |line| ==> line[k] == p[0][k];
    }
  }

  lemma CellsWithoutDelimiter(line: string, d: char)
    requires d !in line
    ensures Cells(line, d) == [Trim(Js, line)]
  {
    SplitJoin([line], d);
  }

  // ---------------------------------------------------------------------
  // Picking the barcode column.

  const BarcodeKeywords: seq<string> := ["barcode", "code", "sku", "product", "item", "id"]

  predicate LooksLikeBarcode(header: string)
  {
    exists k :: 0 <= k < |BarcodeKeywords| && Contains(Lower(header), BarcodeKeywords[k])
  }

  /** The column auto-selected from the headers: the first whose lower-case
    * form contains a keyword, or none. */
  function AutoSelectColumn(headers: seq<string>): (r: Option<nat>)
    ensures r.Some? ==> r.value < |headers| && LooksLikeBarcode(headers[r.value])
    ensures r.Some? ==> forall j :: 0 <= j < r.value ==> !LooksLikeBarcode(headers[j])
    ensures r.None? <==> forall j :: 0 <= j < |headers| ==> !LooksLikeBarcode(headers[j])
  {
    if headers == [] then None
    else if LooksLikeBarcode(headers[0]) then Some(0)
    else
      match AutoSelectColumn(headers[1..])
      case None => None
      case Some(k) => Some(k + 1)
  }

  /** "id" inside "Width" is a keyword hit, so Width wins over a later
    * "Barcode" column. */
  lemma WidthBeatsBarcode()
    ensures AutoSelectColumn(["Width", "Barcode"]) == Some(0)
  {
    assert Lower("Width") == "width";
    assert "width"[1..][1..] == "dth";
    assert "id" <= "idth";
    assert Contains("width"[1..], "id");
    assert Contains(Lower("Width"), BarcodeKeywords[5]);
  }

  /** `row[dataColumnIndex]`: a column number that is NaN, negative or past
    * the end of the row reads as undefined (None). */
  function CellAt(row: seq<string>, column: Option<int>): (r: Option<string>)
    ensures r.Some? <==> column.Some? && 0 <= column.value < |row|
    ensures r.Some? ==> r.value == row[column.value]
  {
    if column.Some? && 0 <= column.value < |row| then Some(row[column.value]) else None
  }

  // ---------------------------------------------------------------------
  // The chunked driver.

  const BatchSize: nat := 10

  /** One element of the `items` list posted to /api/batch_operation. */
  datatype BatchItem = BatchItem(kind: string, data: Option<string>, barcodeType: string)

  /** One element of a successful response's `results`. */
  datatype BatchResult = BatchResult(data: string, kind: string, id: string)

  /** How a posted slice settled: a non-ok HTTP status, a body that could not
    * be read as JSON (with the parser's message), or a JSON reply. */
  datatype ChunkOutcome =
    | NotOk
    | Unreadable(message: string)
    | Reply(status: string, results: seq<BatchResult>, error: Option<string>)

  datatype Settled = Succeeded(results: seq<BatchResult>) | Failed(message: string)

  /** The two `then` callbacks and the `catch`: only a reply whose status is
    * 'success' contributes results; every other outcome becomes the message
    * that is shown. */
  function Settle(outcome: ChunkOutcome): (s: Settled)
    ensures s.Succeeded? <==> outcome.Reply? && outcome.status == "success"
    ensures s.Succeeded? ==> s.results == outcome.results
    ensures outcome.NotOk? ==> s == Failed("Network response was not ok")
    ensures outcome.Reply? && outcome.status != "success" ==>
      s == Failed(if outcome.error.Some? && outcome.error.value != "" then outcome.error.value else "Unknown error")
  {
    match outcome
    case NotOk => Failed("Network response was not ok")
    case Unreadable(m) => Failed(m)
    case Reply(status, results, error) =>
      if status == "success" then Succeeded(results)
      else if error.Some? && error.value != "" then Failed(error.value)
      else Failed("Unknown error")
  }

  function Min(a: int, b: int): int
  {
    if a <= b then a else b
  }

  function ChunkCount(n: nat): nat
  {
    (n + BatchSize - 1) / BatchSize
  }

  /** `Math.min(startIndex + BATCH_SIZE, totalItems)` */
  function ChunkEnd(start: nat, n: nat): nat
  {
    Min(start + BatchSize, n)
  }

  function ItemOf(row: seq<string>, column: Option<int>, barcodeType: string): BatchItem
  {
    BatchItem("barcode", CellAt(row, column), barcodeType)
  }

  /** The items posted for the slice of rows [start, end). */
  function ChunkItems(rows: seq<seq<string>>, column: Option<int>, barcodeType: string, start: nat): (items: seq<BatchItem>)
    requires start <= |rows|
    ensures |items| == ChunkEnd(start, |rows|) - start
  {
    var end := ChunkEnd(start, |rows|);
    seq(end - start, i requires 0 <= i < end - start => ItemOf(rows[start + i], column, barcodeType))
  }

  function AllItems(rows: seq<seq<string>>, column: Option<int>, barcodeType: string): seq<BatchItem>
  {
    seq(|rows|, i requires 0 <= i < |rows| => ItemOf(rows[i], column, barcodeType))
  }

  function Flatten<T>(xss: seq<seq<T>>): seq<T>
  {
    if xss == [] then [] else Flatten(xss[..|xss| - 1]) + xss[|xss| - 1]
  }

  /** The requests of the first k slices. */
  function Requests(rows: seq<seq<string>>, column: Option<int>, barcodeType: string, k: nat): seq<seq<BatchItem>>
    requires k <= ChunkCount(|rows|)
  {
    seq(k, j requires 0 <= j < k => ChunkItems(rows, column, barcodeType, BatchSize * j))
  }

  /** The slices are contiguous and in order: together they post every
    * row's cell exactly once. */
  lemma {:induction false} SlicesCoverRows(rows: seq<seq<string>>, column: Option<int>, barcodeType: string, k: nat)
    requires k <= ChunkCount(|rows|)
    ensures Flatten(Requests(rows, column, barcodeType, k)) == AllItems(rows, column, barcodeType)[..Min(BatchSize * k, |rows|)]
    decreases k
  {
    var all := AllItems(rows, column, barcodeType);
    if k > 0 {
      var reqs := Requests(rows, column, barcodeType, k);
      SlicesCoverRows(rows, column, barcodeType, k - 1);
      assert reqs[..k - 1] == Requests(rows, column, barcodeType, k - 1);
      var start := BatchSize * (k - 1);
      assert start < |rows|;
      ChunkIsSlice(rows, column, barcodeType, start);
      SliceAppend(all, start, ChunkEnd(start, |rows|));
    }
  }

  /** The slice starting at `start` posts the cells of rows start to its end. */
  lemma ChunkIsSlice(rows: seq<seq<string>>, column: Option<int>, barcodeType: string, start: nat)
    requires start <= |rows|
    ensures ChunkItems(rows, column, barcodeType, start)
      == AllItems(rows, column, barcodeType)[start..ChunkEnd(start, |rows|)]
  {
  }

  lemma SliceAppend<T>(all: seq<T>, start: nat, end: nat)
    requires start <= end <= |all|
    ensures all[..start] + all[start..end] == all[..end]
  {
  }

  /** Every slice holds between one and ten rows, and all but the last
    * exactly ten. */
  lemma SliceSizes(n: nat, j: nat)
    requires j < ChunkCount(n)
    ensures 1 <= ChunkEnd(BatchSize * j, n) - BatchSize * j <= BatchSize
    ensures j + 1 < ChunkCount(n) ==> ChunkEnd(BatchSize * j, n) - BatchSize * j == BatchSize
  {
  }

  function SucceededResults(outcomes: seq<ChunkOutcome>): seq<BatchResult>
  {
    if outcomes == [] then []
    else
      SucceededResults(outcomes[..|outcomes| - 1]) +
        match Settle(outcomes[|outcomes| - 1])
        case Succeeded(rs) => rs
        case Failed(_) => []
  }

  function FailureMessages(outcomes: seq<ChunkOutcome>): seq<string>
  {
    if outcomes == [] then []
    else
      FailureMessages(outcomes[..|outcomes| - 1]) +
        match Settle(outcomes[|outcomes| - 1])
        case Succeeded(_) => []
        case Failed(m) => [m]
  }

  /** When every slice fails, no result survives and one message per slice
    * is shown. */
  lemma {:induction false} AllFailed(outcomes: seq<ChunkOutcome>)
    requires forall k :: 0 <= k < |outcomes| ==> Settle(outcomes[k]).Failed?
    ensures SucceededResults(outcomes) == []
    ensures |FailureMessages(outcomes)| == |outcomes|
    decreases |outcomes|
  {
    if outcomes != [] {
      AllFailed(outcomes[..|outcomes| - 1]);
    }
  }

  /** `Math.round(current / total * 100)` on exact rationals; a total of
    * zero gives NaN (None). */
  function Percentage(current: nat, total: nat): (r: Option<int>)
    ensures r.None? <==> total == 0
    ensures r.Some? ==> 2 * r.value * total - total <= 200 * current < 2 * r.value * total + total
    ensures r.Some? && current <= total ==> 0 <= r.value <= 100
  {
    if total == 0 then None
    else
      var q := (200 * current + total) / (2 * total);
      RoundingBounds(current, total, q);
      Some(q)
  }

  lemma RoundingBounds(current: nat, total: nat, q: int)
    requires total > 0 && q == (200 * current + total) / (2 * total)
    ensures 2 * q * total - total <= 200 * current < 2 * q * total + total
    ensures current <= total ==> 0 <= q <= 100
  {
    var a := 200 * current + total;
    var b := 2 * total;
    var m := a % b;
    assert a == q * b + m && 0 <= m < b;
    assert 2 * q * total == q * b;
    if current <= total {
      QuotientBelow(a, b, q, 101);
    }
  }

  /** A quotient of a non-negative number below k * b is below k. */
  lemma QuotientBelow(a: int, b: int, q: int, k: int)
    requires b > 0 && q == a / b && 0 <= a < k * b
    ensures 0 <= q < k
  {
    var m := a % b;
    assert a == q * b + m && 0 <= m < b;
    assert (q + 1) * b == q * b + b > 0;
    assert (k - q) * b == k * b - q * b > 0;
  }

  datatype ProgressUpdate = ProgressUpdate(current: nat, total: nat, percent: Option<int>)

  function Progress(current: nat, total: nat): ProgressUpdate
  {
    ProgressUpdate(current, total, Percentage(current, total))
  }

  function CompletionText(n: nat): string
  {
    "Completed: " + IntToDecimal(n) + " barcodes generated"
  }

  /** The updates shown after each of the first k slices settled. */
  function ProgressTrail(n: nat, k: nat): seq<ProgressUpdate>
  {
    seq(k, j requires 0 <= j < k => Progress(ChunkEnd(BatchSize * j, n), n))
  }

  /** The slice after the one starting at `start` (slice k) starts at
    * 10 (k + 1) or at the end, and it is the last exactly when it ends there. */
  lemma ChunkStep(n: nat, k: nat, start: nat)
    requires start == Min(BatchSize * k, n) && start < n
    ensures k < ChunkCount(n) && start == BatchSize * k
    ensures ChunkEnd(start, n) == Min(BatchSize * (k + 1), n)
    ensures ChunkEnd(start, n) < n ==> k + 1 < ChunkCount(n)
    ensures ChunkEnd(start, n) == n ==> k + 1 == ChunkCount(n)
  {
  }

  /** What slice k adds to the requests, results, messages and progress. */
  lemma RunStep(rows: seq<seq<string>>, column: Option<int>, barcodeType: string, outcomes: seq<ChunkOutcome>, k: nat)
    requires k < ChunkCount(|rows|) && k < |outcomes|
    ensures Requests(rows, column, barcodeType, k + 1)
      == Requests(rows, column, barcodeType, k) + [ChunkItems(rows, column, barcodeType, BatchSize * k)]
    ensures ProgressTrail(|rows|, k + 1) == ProgressTrail(|rows|, k) + [Progress(ChunkEnd(BatchSize * k, |rows|), |rows|)]
    ensures SucceededResults(outcomes[..k + 1]) == SucceededResults(outcomes[..k])
      + (match Settle(outcomes[k]) case Succeeded(rs) => rs case Failed(_) => [])
    ensures FailureMessages(outcomes[..k + 1]) == FailureMessages(outcomes[..k])
      + (match Settle(outcomes[k]) case Succeeded(_) => [] case Failed(m) => [m])
  {
    assert outcomes[..k + 1][..k] == outcomes[..k];
  }

  /** One run of processBarcodeDataInBatches with the closed-over state it
    * updates from its callbacks. */
  class BatchRun {
    const rows: seq<seq<string>>
    const column: Option<int>
    const barcodeType: string
    var processedItems: nat
    var results: seq<BatchResult>
    var requests: seq<seq<BatchItem>>
    var errorsShown: seq<string>
    var progress: seq<ProgressUpdate>
    var completion: Option<string>

    /** The state right after `updateProgress(0, totalItems)`. */
    constructor (rows: seq<seq<string>>, column: Option<int>, barcodeType: string)
      ensures this.rows == rows && this.column == column && this.barcodeType == barcodeType
      ensures processedItems == 0 && results == [] && requests == [] && errorsShown == []
      ensures progress == [Progress(0, |rows|)] && completion == None
    {
      this.rows := rows;
      this.column := column;
      this.barcodeType := barcodeType;
      processedItems := 0;
      results := [];
      requests := [];
      errorsShown := [];
      progress := [Progress(0, |rows|)];
      completion := None;
    }

    /** processNextBatch(start) for a start before the end: post the slice,
      * then settle it. Success or failure, the slice's length is added to
      * processedItems; only success adds results. */
    method ProcessChunk(start: nat, outcome: ChunkOutcome)
      requires start < |rows|
      modifies this
      ensures requests == old(requests) + [ChunkItems(rows, column, barcodeType, start)]
      ensures processedItems == old(processedItems) + (ChunkEnd(start, |rows|) - start)
      ensures progress == old(progress) + [Progress(processedItems, |rows|)]
      ensures Settle(outcome).Succeeded? ==>
        results == old(results) + Settle(outcome).results && errorsShown == old(errorsShown)
      ensures Settle(outcome).Failed? ==>
        results == old(results) && errorsShown == old(errorsShown) + [Settle(outcome).message]
      ensures completion == old(completion)
    {
      var end := ChunkEnd(start, |rows|);
      requests := requests + [ChunkItems(rows, column, barcodeType, start)];
      match Settle(outcome) {
        case Succeeded(rs) =>
          results := results + rs;
        case Failed(message) =>
          errorsShown := errorsShown + [message];
      }
      processedItems := processedItems + (end - start);
      progress := progress + [Progress(processedItems, |rows|)];
    }

    /** finalizeBatchProcessing */
    method Finalize()
      modifies this
      ensures progress == old(progress) + [Progress(1, 1)]
      ensures completion == Some(CompletionText(|results|))
      ensures processedItems == old(processedItems) && results == old(results)
      ensures requests == old(requests) && errorsShown == old(errorsShown)
    {
      progress := progress + [Progress(1, 1)];
      completion := Some(CompletionText(|results|));
    }

    /** The whole chain: slice k settles with outcomes[k], each slice is
      * posted only after the previous one settled, and the run finishes
      * once the next start reaches the number of rows. */
    method Run(outcomes: seq<ChunkOutcome>)
      requires |outcomes| == ChunkCount(|rows|)
      requires processedItems == 0 && results == [] && requests == [] && errorsShown == []
      modifies this
      ensures processedItems == |rows|
      ensures requests == Requests(rows, column, barcodeType, ChunkCount(|rows|))
      ensures Flatten(requests) == AllItems(rows, column, barcodeType)
      ensures results == SucceededResults(outcomes)
      ensures errorsShown == FailureMessages(outcomes)
      ensures progress == old(progress) + ProgressTrail(|rows|, ChunkCount(|rows|)) + [Progress(1, 1)]
      ensures completion == Some(CompletionText(|results|))
    {
      var n := |rows|;
      var start := 0;
      var k := 0;
      while start < n
        invariant k <= ChunkCount(n) && start == Min(BatchSize * k, n)
        invariant start < n ==> k < ChunkCount(n)
        invariant start == n ==> k == ChunkCount(n)
        invariant processedItems == start
        invariant requests == Requests(rows, column, barcodeType, k)
        invariant results == SucceededResults(outcomes[..k])
        invariant errorsShown == FailureMessages(outcomes[..k])
        invariant progress == old(progress) + ProgressTrail(n, k)
        decreases n - start
      {
        ChunkStep(n, k, start);
        ProcessChunk(start, outcomes[k]);
        RunStep(rows, column, barcodeType, outcomes, k);
        start := ChunkEnd(start, n);
        k := k + 1;
      }
      assert outcomes[..k] == outcomes;
      SlicesCoverRows(rows, column, barcodeType, k);
      assert AllItems(rows, column, barcodeType)[..n] == AllItems(rows, column, barcodeType);
      Finalize();
    }
  }

  // ---------------------------------------------------------------------
  // CSV export.

  const CsvUriPrefix: string := "data:text/csv;charset=utf-8,"
  const CsvHeader: string := "Barcode Data,Type,Image URL"

  function ResultLine(r: BatchResult, origin: string): string
  {
    r.data + "," + r.kind + ",\"" + origin + "/api/barcode/" + r.id + "\""
  }

  function ResultLines(results: seq<BatchResult>, origin: string): seq<string>
  {
    seq(|results|, i requires 0 <= i < |results| => ResultLine(results[i], origin))
  }

  /** The text of exportBatchToCsv before encodeURI: the data-URI prefix,
    * then the header and one line per result, each ended by a newline. */
  method ExportBatchToCsv(results: seq<BatchResult>, origin: string) returns (csv: string)
    ensures csv == CsvUriPrefix + Join([CsvHeader] + ResultLines(results, origin) + [""], '\n')
  {
    csv := CsvUriPrefix;
    csv := csv + CsvHeader + "\n";
    var i := 0;
    while i < |results|
      invariant 0 <= i <= |results|
      invariant csv == CsvUriPrefix + Join([CsvHeader] + ResultLines(results[..i], origin) + [""], '\n')
    {
      ExportStep(results, origin, i);
      csv := csv + ResultLine(results[i], origin) + "\n";
      i := i + 1;
    }
    assert results[..i] == results;
  }

  /** One more result adds its line and a newline to the text. */
  lemma ExportStep(results: seq<BatchResult>, origin: string, i: nat)
    requires i < |results|
    ensures Join([CsvHeader] + ResultLines(results[..i + 1], origin) + [""], '\n')
      == Join([CsvHeader] + ResultLines(results[..i], origin) + [""], '\n') + ResultLine(results[i], origin) + "\n"
  {
    var lines := [CsvHeader] + ResultLines(results[..i], origin);
    var x := ResultLine(results[i], origin);
    JoinAppend(lines, x, '\n');
    assert ResultLines(results[..i + 1], origin) == ResultLines(results[..i], origin) + [x];
    assert [CsvHeader] + ResultLines(results[..i + 1], origin) + [""] == lines + [x] + [""];
  }

  /** One line per result: the exported text splits into the header, the
    * result lines and a final empty piece after the last newline. */
  lemma ExportLines(results: seq<BatchResult>, origin: string)
    requires forall k :: 0 <= k < |results| ==> '\n' !in ResultLine(results[k], origin)
    ensures Split(Join([CsvHeader] + ResultLines(results, origin) + [""], '\n'), '\n')
      == [CsvHeader] + ResultLines(results, origin) + [""]
  {
    var body := ResultLines(results, origin);
    assert forall k :: 0 <= k < |body| ==> '\n' !in body[k];
    FramedLinesKeepOut(CsvHeader, body, '\n');
    SplitJoin([CsvHeader] + body + [""], '\n');
  }

  /** A header and lines without x, then an empty piece: no piece holds x. */
  lemma FramedLinesKeepOut(header: string, body: seq<string>, x: char)
    requires x !in header && forall k :: 0 <= k < |body| ==> x !in body[k]
    ensures var lines := [header] + body + [""];
      forall k :: 0 <= k < |lines| ==> x !in lines[k]
  {
    var lines := [header] + body + [""];
    forall k | 0 <= k < |lines| ensures x !in lines[k] {
      if 1 <= k < |lines| - 1 {
        assert lines[k] == body[k - 1];
      }
    }
  }

  /** A result whose fields have no comma reads back as its three columns. */
  lemma ResultLineColumns(r: BatchResult, origin: string)
    requires ',' !in r.data && ',' !in r.kind && ',' !in origin && ',' !in r.id
    ensures Split(ResultLine(r, origin), ',') == [r.data, r.kind, "\"" + origin + "/api/barcode/" + r.id + "\""]
  {
    var url := "\"" + origin + "/api/barcode/" + r.id + "\"";
    assert ',' !in url;
    SplitJoin([r.data, r.kind, url], ',');
    assert [r.data, r.kind, url][1..] == [r.kind, url];
    assert [r.kind, url][1..] == [url];
    assert Join([r.kind, url], ',') == r.kind + [','] + url;
    assert Join([r.data, r.kind, url], ',') == r.data + [','] + (r.kind + [','] + url);
    assert Join([r.data, r.kind, url], ',') == ResultLine(r, origin);
  }
}
