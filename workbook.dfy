/** `aggregate_to_excel`: every JSON file of a directory, in name order,
    normalised into rows, sanitised cell by cell and appended to one sheet
    under the column headings, followed by the column-width pass. */
module Workbook {
  import opened Wrappers
  import opened PyJson
  import Keys
  import opened VoucherRows
  import RowBuilder

  /** One `*.json` file of the listing: its stem, and its text, or `None`
      when reading it as UTF-8 raised. */
  datatype JsonFile = JsonFile(stem: string, text: Option<string>)

  /** A value a spreadsheet cell can hold: anything but a list or a dict. */
  predicate IsScalar(v: Json) {
    !v.Arr? && !v.Obj?
  }

  /** A row the worksheet accepts: every cell is a scalar. */
  predicate Appendable(row: Row) {
    forall i :: 0 <= i < |row| ==> IsScalar(row[i])
  }

  /** The heading row written first. */
  function HeaderRow(): (row: Row)
    ensures |row| == |Columns| && Appendable(row)
    ensures forall k :: 0 <= k < |Columns| ==> row[k] == Str(Columns[k])
  {
    seq(|Columns|, k requires 0 <= k < |Columns| => Str(Columns[k]))
  }

  // ---------------------------------------------------------------------------
  // Sanitising
  // ---------------------------------------------------------------------------

  /** One cell made fit for the sheet: a `{"selected": x}` wrapper gives `x`,
      any other dict or list gives its JSON text (`dump`), a scalar stays. */
  function SanitizeCell(v: Json, dump: Json -> string): (r: Json)
    ensures IsScalar(v) ==> r == v
    ensures v.Arr? || (v.Obj? && !HasKey(v.fields, Keys.selected)) ==> r == Str(dump(v))
    ensures v.Obj? && HasKey(v.fields, Keys.selected) ==> Lookup(v.fields, Keys.selected) == Some(r)
  {
    if v.Obj? && HasKey(v.fields, Keys.selected) then Lookup(v.fields, Keys.selected).value
    else if v.Obj? || v.Arr? then Str(dump(v))
    else v
  }

  /** A row with every cell sanitised. */
  function SanitizeRow(row: Row, dump: Json -> string): (r: Row)
    ensures |r| == |row|
    ensures forall i :: 0 <= i < |row| ==> r[i] == SanitizeCell(row[i], dump)
  {
    seq(|row|, i requires 0 <= i < |row| => SanitizeCell(row[i], dump))
  }

  /** A sanitised cell is a scalar unless it came out of a `selected` wrapper
      holding a list or a dict; sanitising it again changes nothing. */
  lemma SanitizeCellSettles(v: Json, dump: Json -> string)
    ensures !IsScalar(SanitizeCell(v, dump)) ==>
      v.Obj? && HasKey(v.fields, Keys.selected) && !IsScalar(Lookup(v.fields, Keys.selected).value)
    ensures IsScalar(SanitizeCell(v, dump)) ==> SanitizeCell(SanitizeCell(v, dump), dump) == SanitizeCell(v, dump)
  {
  }

  /** A row without `selected` wrappers is appendable once sanitised, and a
      sanitised appendable row is its own sanitising. */
  lemma SanitizeRowProperties(row: Row, dump: Json -> string)
    ensures (forall i :: 0 <= i < |row| ==> !(row[i].Obj? && HasKey(row[i].fields, Keys.selected))) ==>
      Appendable(SanitizeRow(row, dump))
    ensures Appendable(SanitizeRow(row, dump)) ==> SanitizeRow(SanitizeRow(row, dump), dump) == SanitizeRow(row, dump)
  {
    var s := SanitizeRow(row, dump);
    if Appendable(s) {
      assert SanitizeRow(s, dump) == s;
    }
  }

  // ---------------------------------------------------------------------------
  // The rows one file contributes
  // ---------------------------------------------------------------------------

  /** Index of the first row whose sanitised form the sheet refuses, or the
      number of rows: the append loop stops there, as the exception leaves
      the file's loop. */
  function FirstRefused(rows: seq<Row>, dump: Json -> string): (n: nat)
    ensures n <= |rows|
    ensures forall i :: 0 <= i < n ==> Appendable(SanitizeRow(rows[i], dump))
    ensures n < |rows| ==> !Appendable(SanitizeRow(rows[n], dump))
    decreases |rows|
  {
    if rows == [] || !Appendable(SanitizeRow(rows[0], dump)) then 0
    else
      var n := FirstRefused(rows[1..], dump);
      assert forall i :: 1 <= i < n + 1 ==> rows[i] == rows[1..][i - 1];
      n + 1
  }

  /** The sanitised rows the sheet receives from one batch. */
  function AppendedRows(rows: seq<Row>, dump: Json -> string): (r: seq<Row>)
    ensures |r| <= |rows|
    ensures forall i :: 0 <= i < |r| ==> r[i] == SanitizeRow(rows[i], dump) && Appendable(r[i])
    ensures |r| < |rows| ==> !Appendable(SanitizeRow(rows[|r|], dump))
  {
    var n := FirstRefused(rows, dump);
    seq(n, i requires 0 <= i < n => SanitizeRow(rows[i], dump))
  }

  /** `json.loads(text)`, falling back to the text itself. */
  function LoadOrText(text: string, parse: string -> Option<Json>): Json {
    match parse(text)
    case Some(j) => j
    case None => Str(text)
  }

  /** The rows one file adds to the sheet: none when it cannot be read or
      its document raises; otherwise its rows up to the first refused one. */
  function FileRows(f: JsonFile, parse: string -> Option<Json>, dump: Json -> string, build: Normaliser): (r: seq<Row>)
    ensures f.text.None? ==> r == []
    ensures f.text.Some? && build(LoadOrText(f.text.value, parse), f.stem).Fail? ==> r == []
    ensures f.text.Some? && build(LoadOrText(f.text.value, parse), f.stem).Ok? ==>
      r == AppendedRows(build(LoadOrText(f.text.value, parse), f.stem).value, dump)
  {
    match f.text
    case None => []
    case Some(text) =>
      match build(LoadOrText(text, parse), f.stem)
      case Fail(_) => []
      case Ok(rows) => AppendedRows(rows, dump)
  }

  /** The data rows of the sheet: each file's rows, in listing order. */
  function Aggregate(files: seq<JsonFile>, parse: string -> Option<Json>, dump: Json -> string, build: Normaliser): seq<Row>
    decreases |files|
  {
    if files == [] then []
    else Aggregate(files[..|files| - 1], parse, dump, build) + FileRows(files[|files| - 1], parse, dump, build)
  }

  /** A file whose text is not JSON adds the single `PARSE_FAILED` row:
      the text is kept as a string, which the normaliser fails to load
      again. */
  lemma UnparsableFileRow(f: JsonFile, parse: string -> Option<Json>, dump: Json -> string)
    requires f.text.Some? && f.text.value != "" && parse(f.text.value).None?
    ensures FileRows(f, parse, dump, BuildRowsWith(parse)) == [ParseFailedRow(f.stem, f.text.value)]
  {
    var row := ParseFailedRow(f.stem, f.text.value);
    assert LoadOrText(f.text.value, parse) == Str(f.text.value);
    assert BuildRowsWith(parse)(Str(f.text.value), f.stem) == Ok([row]);
    assert forall k :: 0 <= k < |row| ==> IsScalar(row[k]);
    assert SanitizeRow(row, dump) == row;
    var rows: seq<Row> := [row];
    assert FirstRefused(rows, dump) == 1 by {
      assert rows[1..] == [];
    }
  }

  /** Whatever the normaliser returns, every data row the sheet receives
      holds only scalars: the sanitising loop admits no other row. */
  lemma {:induction false} AggregateAppendable(files: seq<JsonFile>, parse: string -> Option<Json>,
                                               dump: Json -> string, build: Normaliser)
    ensures forall i :: 0 <= i < |Aggregate(files, parse, dump, build)| ==> Appendable(Aggregate(files, parse, dump, build)[i])
    decreases |files|
  {
    if files != [] {
      var prefix := files[..|files| - 1];
      AggregateAppendable(prefix, parse, dump, build);
    }
  }

  /** The fold splits at any point of the listing. */
  lemma {:induction false} AggregateSplit(a: seq<JsonFile>, b: seq<JsonFile>,
                                          parse: string -> Option<Json>, dump: Json -> string, build: Normaliser)
    ensures Aggregate(a + b, parse, dump, build) == Aggregate(a, parse, dump, build) + Aggregate(b, parse, dump, build)
    decreases |b|
  {
    if b == [] {
      assert a + b == a;
    } else {
      var b' := b[..|b| - 1];
      assert (a + b)[..|a + b| - 1] == a + b';
      AggregateSplit(a, b', parse, dump, build);
    }
  }

  /** One more file of the listing adds its own rows at the end. */
  lemma AggregateStep(files: seq<JsonFile>, f: nat, parse: string -> Option<Json>, dump: Json -> string, build: Normaliser)
    requires f < |files|
    ensures Aggregate(files[..f + 1], parse, dump, build) == Aggregate(files[..f], parse, dump, build) + FileRows(files[f], parse, dump, build)
  {
    assert files[..f + 1][..f] == files[..f];
  }

  /** A file that cannot be read, or whose document raises, adds no rows and
      does not stop the files after it. */
  lemma FailingFileContributesNothing(before: seq<JsonFile>, f: JsonFile, after: seq<JsonFile>,
                                      parse: string -> Option<Json>, dump: Json -> string, build: Normaliser)
    requires f.text.None? || build(LoadOrText(f.text.value, parse), f.stem).Fail?
    ensures Aggregate(before + [f] + after, parse, dump, build)
         == Aggregate(before, parse, dump, build) + Aggregate(after, parse, dump, build)
  {
    var withF := before + [f];
    assert withF[..|withF| - 1] == before;
    assert FileRows(f, parse, dump, build) == [];
    assert Aggregate(withF, parse, dump, build) == Aggregate(before, parse, dump, build);
    AggregateSplit(withF, after, parse, dump, build);
  }

  /** With a fixed-width normaliser, every row a file adds has the 23
      columns, names the file in column 0 and holds only scalars. */
  lemma FileRowsWellFormed(f: JsonFile, parse: string -> Option<Json>, dump: Json -> string, build: Normaliser)
    requires FixedWidth(build)
    ensures forall row :: row in FileRows(f, parse, dump, build) ==>
      |row| == |Columns| && Appendable(row) && row[0] == Str(f.stem)
  {
    var added := FileRows(f, parse, dump, build);
    forall row | row in added ensures |row| == |Columns| && Appendable(row) && row[0] == Str(f.stem) {
      var built := build(LoadOrText(f.text.value, parse), f.stem).value;
      var i :| 0 <= i < |added| && added[i] == row;
      assert |built[i]| == |Columns| && built[i][0] == Str(f.stem);
    }
  }

  /** Every row has the 23 columns, holds only scalars and names one of
      `files` in column 0. */
  ghost predicate SheetRows(rows: seq<Row>, files: seq<JsonFile>) {
    forall row :: row in rows ==> |row| == |Columns| && Appendable(row) && exists f :: f in files && row[0] == Str(f.stem)
  }

  /** With a fixed-width normaliser, every data row has the 23 columns,
      names one of the files in column 0 and holds only scalars. */
  lemma {:induction false} AggregateRowsWellFormed(files: seq<JsonFile>, parse: string -> Option<Json>,
                                                   dump: Json -> string, build: Normaliser)
    requires FixedWidth(build)
    ensures SheetRows(Aggregate(files, parse, dump, build), files)
    decreases |files|
  {
    if files != [] {
      var prefix, last := files[..|files| - 1], files[|files| - 1];
      AggregateRowsWellFormed(prefix, parse, dump, build);
      FileRowsWellFormed(last, parse, dump, build);
      forall row | row in Aggregate(files, parse, dump, build)
        ensures |row| == |Columns| && Appendable(row) && exists f :: f in files && row[0] == Str(f.stem)
      {
        if row in Aggregate(prefix, parse, dump, build) {
          var f :| f in prefix && row[0] == Str(f.stem);
          assert f in files;
        } else {
          assert last in files;
        }
      }
    }
  }

  /** Every data row of the sheet has the 23 columns, names one of the
      files in column 0 and holds only scalars. */
  lemma SheetRowsWellFormed(files: seq<JsonFile>, parse: string -> Option<Json>, dump: Json -> string)
    ensures SheetRows(Aggregate(files, parse, dump, BuildRowsWith(parse)), files)
  {
    BuildRowsFixedWidth(parse);
    AggregateRowsWellFormed(files, parse, dump, BuildRowsWith(parse));
  }

  // ---------------------------------------------------------------------------
  // Column widths
  // ---------------------------------------------------------------------------

  const MinWidth: nat := 10
  const MaxWidth: nat := 50
  const Padding: nat := 2

  /** `str(value)` of a cell: a string is itself, a bool is `True`/`False`,
      and a number is rendered by `render`. */
  function CellText(v: Json, render: real -> string): string {
    match v
    case Str(s) => s
    case Bool(b) => if b then "True" else "False"
    case Num(n) => render(n)
    // Lists and dicts never reach the sheet (`AggregateAppendable`).
    case _ => ""
  }

  /** A non-empty string cell makes its column at least as wide as the
      padded string, up to 50. */
  lemma TextCellFits(sheet: seq<Row>, r: nat, c: nat, render: real -> string)
    requires r < |sheet| && c < |sheet[r]| && sheet[r][c].Str? && sheet[r][c].s != ""
    ensures ClampWidth(MaxCellLength(sheet, c, render)) >= if |sheet[r][c].s| + Padding < MaxWidth then |sheet[r][c].s| + Padding else MaxWidth
  {
    assert CellLength(sheet[r], c, render) == |CellText(sheet[r][c], render)| == |sheet[r][c].s|;
    ClampWidthMonotone(CellLength(sheet[r], c, render), MaxCellLength(sheet, c, render));
  }

  /** The cell of column `c`, or `None` where the row is shorter. */
  function CellAt(row: Row, c: nat): Json {
    if c < |row| then row[c] else Null
  }

  /** The length a cell contributes to its column: its text length when it
      is truthy, 0 otherwise. */
  function CellLength(row: Row, c: nat, render: real -> string): nat {
    var v := CellAt(row, c);
    if Truthy(v) then |CellText(v, render)| else 0
  }

  /** The longest truthy cell of column `c`, or 0. */
  function MaxCellLength(sheet: seq<Row>, c: nat, render: real -> string): (m: nat)
    ensures forall i :: 0 <= i < |sheet| ==> CellLength(sheet[i], c, render) <= m
    ensures m == 0 || exists i :: 0 <= i < |sheet| && CellLength(sheet[i], c, render) == m
    decreases |sheet|
  {
    if sheet == [] then 0
    else
      var prefix := sheet[..|sheet| - 1];
      var m := MaxCellLength(prefix, c, render);
      var here := CellLength(sheet[|sheet| - 1], c, render);
      assert forall i :: 0 <= i < |prefix| ==> prefix[i] == sheet[i];
      if here > m then here else m
  }

  /** `min(50, max(10, maxLength + 2))`. */
  function ClampWidth(maxLength: nat): (w: nat)
    ensures MinWidth <= w <= MaxWidth
    ensures maxLength + Padding <= MinWidth ==> w == MinWidth
    ensures maxLength + Padding >= MaxWidth ==> w == MaxWidth
    ensures MinWidth <= maxLength + Padding <= MaxWidth ==> w == maxLength + Padding
  {
    var padded := maxLength + Padding;
    if padded > MaxWidth then MaxWidth else if padded < MinWidth then MinWidth else padded
  }

  /** A longer cell never makes a column narrower. */
  lemma ClampWidthMonotone(m1: nat, m2: nat)
    requires m1 <= m2
    ensures ClampWidth(m1) <= ClampWidth(m2)
  {
  }

  /** The widths the pass sets, one per column. */
  function Widths(sheet: seq<Row>, ncols: nat, render: real -> string): (ws: seq<nat>)
    ensures |ws| == ncols
    ensures forall c :: 0 <= c < ncols ==> ws[c] == ClampWidth(MaxCellLength(sheet, c, render))
  {
    seq(ncols, c requires 0 <= c < ncols => ClampWidth(MaxCellLength(sheet, c, render)))
  }

  /** Every column is at least as wide as its padded heading, up to 50. */
  lemma HeadingFits(sheet: seq<Row>, c: nat, render: real -> string)
    requires sheet != [] && sheet[0] == HeaderRow() && c < |Columns|
    ensures ClampWidth(MaxCellLength(sheet, c, render)) >= if |Columns[c]| + Padding < MaxWidth then |Columns[c]| + Padding else MaxWidth
  {
    assert CellAt(sheet[0], c) == Str(Columns[c]);
    if Columns[c] != "" {
      assert CellLength(sheet[0], c, render) == |Columns[c]|;
    }
    ClampWidthMonotone(CellLength(sheet[0], c, render), MaxCellLength(sheet, c, render));
  }

  /** The width pass: for each column, the longest truthy cell, then the clamp. */
  method ColumnWidths(sheet: seq<Row>, ncols: nat, render: real -> string) returns (widths: seq<nat>)
    ensures widths == Widths(sheet, ncols, render)
  {
    widths := [];
    for c := 0 to ncols
      invariant widths == Widths(sheet, c, render)
    {
      var maxLength := 0;
      for r := 0 to |sheet|
        invariant maxLength == MaxCellLength(sheet[..r], c, render)
      {
        assert sheet[..r + 1][..r] == sheet[..r];
        var v := CellAt(sheet[r], c);
        if Truthy(v) {
          var length := |CellText(v, render)|;
          if length > maxLength {
            maxLength := length;
          }
        }
      }
      assert sheet[..|sheet|] == sheet;
      widths := widths + [ClampWidth(maxLength)];
    }
  }

  // ---------------------------------------------------------------------------
  // The aggregation
  // ---------------------------------------------------------------------------

  /** Sanitises each cell of a row in turn. */
  method SanitizeCells(row: Row, dump: Json -> string) returns (sanitized: Row)
    ensures sanitized == SanitizeRow(row, dump)
  {
    sanitized := [];
    for i := 0 to |row|
      invariant |sanitized| == i
      invariant forall j :: 0 <= j < i ==> sanitized[j] == SanitizeCell(row[j], dump)
    {
      sanitized := sanitized + [SanitizeCell(row[i], dump)];
    }
  }

  /** The append loop of one file: each row sanitised, appended and
      counted, until the sheet refuses one. */
  method AppendBatch(sheet0: seq<Row>, total0: nat, rows: seq<Row>, dump: Json -> string)
    returns (sheet: seq<Row>, totalRows: nat)
    requires total0 == |sheet0| - 1
    ensures sheet == sheet0 + AppendedRows(rows, dump)
    ensures totalRows == |sheet| - 1
  {
    sheet, totalRows := sheet0, total0;
    var r := 0;
    var refused := false;
    while r < |rows| && !refused
      invariant r <= |rows|
      invariant forall i :: 0 <= i < r ==> Appendable(SanitizeRow(rows[i], dump))
      invariant refused ==> r < |rows| && !Appendable(SanitizeRow(rows[r], dump))
      invariant sheet == sheet0 + seq(r, i requires 0 <= i < r => SanitizeRow(rows[i], dump))
      invariant totalRows == |sheet| - 1
      decreases |rows| - r, !refused
    {
      var sanitized := SanitizeCells(rows[r], dump);
      if Appendable(sanitized) {
        sheet := sheet + [sanitized];
        totalRows := totalRows + 1;
        r := r + 1;
      } else {
        refused := true;
      }
    }
    assert FirstRefused(rows, dump) == r;
  }

  /** One file: read, parse (or keep the text), normalise, append. A read
      failure or an exception of the normaliser adds nothing. */
  method AppendFile(sheet0: seq<Row>, total0: nat, file: JsonFile, parse: string -> Option<Json>, dump: Json -> string)
    returns (sheet: seq<Row>, totalRows: nat)
    requires total0 == |sheet0| - 1
    ensures sheet == sheet0 + FileRows(file, parse, dump, BuildRowsWith(parse))
    ensures totalRows == |sheet| - 1
  {
    sheet, totalRows := sheet0, total0;
    if file.text.Some? {
      var parsed := LoadOrText(file.text.value, parse);
      var built := RowBuilder.BuildRowsFromParsed(parsed, file.stem, parse);
      assert built == BuildRowsWith(parse)(parsed, file.stem);
      if built.Ok? {
        sheet, totalRows := AppendBatch(sheet, totalRows, built.value, dump);
      }
    }
  }

  /** The loop over the listing: each file's rows appended and counted
      after the heading row. */
  method AppendFiles(files: seq<JsonFile>, parse: string -> Option<Json>, dump: Json -> string)
    returns (sheet: seq<Row>, totalRows: nat)
    ensures sheet == [HeaderRow()] + Aggregate(files, parse, dump, BuildRowsWith(parse))
    ensures totalRows == |sheet| - 1
  {
    sheet := [HeaderRow()];
    totalRows := 0;
    for f := 0 to |files|
      invariant sheet == [HeaderRow()] + Aggregate(files[..f], parse, dump, BuildRowsWith(parse))
      invariant totalRows == |sheet| - 1
    {
      AggregateStep(files, f, parse, dump, BuildRowsWith(parse));
      sheet, totalRows := AppendFile(sheet, totalRows, files[f], parse, dump);
    }
    assert files[..|files|] == files;
  }

  /** `aggregate_to_excel`: the sheet (heading row first), the number of
      data rows counted while appending, and the column widths. With no
      file at all the source returns before saving; `saved` is then false. */
  method AggregateToExcel(files: seq<JsonFile>, parse: string -> Option<Json>, dump: Json -> string,
                          render: real -> string)
    returns (sheet: seq<Row>, totalRows: nat, widths: seq<nat>, saved: bool)
    ensures saved <==> files != []
    ensures sheet == [HeaderRow()] + Aggregate(files, parse, dump, BuildRowsWith(parse))
    ensures totalRows == |sheet| - 1
    ensures saved ==> widths == Widths(sheet, |Columns|, render)
  {
    if files == [] {
      return [HeaderRow()], 0, [], false;
    }
    sheet, totalRows := AppendFiles(files, parse, dump);
    widths := ColumnWidths(sheet, |Columns|, render);
    saved := true;
  }
}
