/**
 * The spreadsheet side shared by the report and the submit handlers of
 * http_excel.go: the 15-column row layout, the header sentinel, the batch
 * status, the positional decoding into an Excelrow, and the report loop that
 * decodes every data row and sums the per-row error counts.
 */
module Excel {

  /** Cell 0 of the header row: the title of the shot-name column. */
  const Header := "샷네임"

  /** Every row of the sheet must have exactly this many cells. */
  const CellCount := 15

  /** How a handler run over a sheet ended. */
  datatype Status =
    | Completed          // every row was visited
    | EmptySheet         // the sheet has no rows at all (HTTP 400)
    | BadArity(row: nat) // this row does not have 15 cells; nothing after it is visited (HTTP 400)
    | Panicked(row: nat) // a source line of this row has no ':' and indexing it panics

  /** The three-way filter applied to every row before it is used: the arity test comes first. */
  datatype RowKind = Malformed | HeaderRow | DataRow

  function Classify(line: seq<string>): (k: RowKind)
    ensures k == Malformed <==> |line| != CellCount
    ensures k == HeaderRow ==> line[0] == Header
    ensures k == DataRow ==> line[0] != Header
  {
    if |line| != CellCount then Malformed
    else if line[0] == Header then HeaderRow
    else DataRow
  }

  /** A row whose length is wrong is rejected even when its first cell is the header text. */
  lemma ArityBeforeHeader(line: seq<string>)
    requires |line| > 0 && line[0] == Header
    ensures Classify(line) == HeaderRow <==> |line| == CellCount
  {
  }

  /** One decoded sheet row; `errornum` is the count filled in by Excelrow.checkerror. */
  datatype Excelrow = Excelrow(
    name: string,
    shottype: string,
    note: string,
    comment: string,
    link: string,
    ddline3D: string,
    ddline2D: string,
    findate: string,
    finver: string,
    tags: string,
    rnum: string,
    handleIn: string,
    handleOut: string,
    justTimecodeIn: string,
    justTimecodeOut: string,
    errornum: int)

  /** The fields of a row in column order: the inverse of Decode. */
  function Cells(row: Excelrow): (cells: seq<string>)
    ensures |cells| == CellCount
  {
    [row.name, row.shottype, row.note, row.comment, row.link, row.ddline3D, row.ddline2D,
     row.findate, row.finver, row.tags, row.rnum, row.handleIn, row.handleOut,
     row.justTimecodeIn, row.justTimecodeOut]
  }

  /** Positional decoding of a 15-cell row, before checkerror has run. */
  function Decode(line: seq<string>): (row: Excelrow)
    requires |line| == CellCount
    ensures Cells(row) == line
    ensures row.errornum == 0
  {
    Excelrow(line[0], line[1], line[2], line[3], line[4], line[5], line[6], line[7],
             line[8], line[9], line[10], line[11], line[12], line[13], line[14], 0)
  }

  /** Decoding the cells of a row gives the row back, with a fresh error count. */
  lemma DecodeCells(row: Excelrow)
    ensures Decode(Cells(row)) == row.(errornum := 0)
  {
  }

  /** A decoded row with the count that checkerror assigns to it. */
  function Checked(line: seq<string>, checkerror: Excelrow -> nat): (row: Excelrow)
    requires |line| == CellCount
    ensures Cells(row) == line
    ensures row.errornum == checkerror(Decode(line))
  {
    var row := Decode(line);
    row.(errornum := checkerror(row))
  }

  predicate WellFormed(lines: seq<seq<string>>)
  {
    forall k :: 0 <= k < |lines| ==> |lines[k]| == CellCount
  }

  /** The records of the report: every non-header row, decoded and checked, in sheet order. */
  function Records(lines: seq<seq<string>>, checkerror: Excelrow -> nat): seq<Excelrow>
    requires WellFormed(lines)
    decreases |lines|
  {
    if lines == [] then []
    else
      var last := lines[|lines| - 1];
      Records(lines[..|lines| - 1], checkerror) +
      (if Classify(last) == HeaderRow then [] else [Checked(last, checkerror)])
  }

  /** The sum of the per-row error counts. */
  function TotalErrornum(rows: seq<Excelrow>): int
    decreases |rows|
  {
    if rows == [] then 0 else TotalErrornum(rows[..|rows| - 1]) + rows[|rows| - 1].errornum
  }

  lemma WellFormedAppend(a: seq<seq<string>>, b: seq<seq<string>>)
    requires WellFormed(a) && WellFormed(b)
    ensures WellFormed(a + b)
  {
    var ab := a + b;
    assert forall k :: 0 <= k < |ab| ==> ab[k] == if k < |a| then a[k] else b[k - |a|];
  }

  /** Records keep the order of the sheet: the records of two blocks of rows follow each other. */
  lemma {:induction false} RecordsAppend(a: seq<seq<string>>, b: seq<seq<string>>, checkerror: Excelrow -> nat)
    requires WellFormed(a) && WellFormed(b)
    ensures WellFormed(a + b)
    ensures Records(a + b, checkerror) == Records(a, checkerror) + Records(b, checkerror)
    decreases |b|
  {
    WellFormedAppend(a, b);
    var ab := a + b;
    if b == [] {
      assert ab == a;
    } else {
      var init := b[..|b| - 1];
      var last := b[|b| - 1];
      assert WellFormed(init) by {
        assert forall k :: 0 <= k < |init| ==> init[k] == b[k];
      }
      assert ab[..|ab| - 1] == a + init && ab[|ab| - 1] == last;
      RecordsAppend(a, init, checkerror);
      var tail := if last[0] == Header then [] else [Checked(last, checkerror)];
      calc {
        Records(ab, checkerror);
        Records(a + init, checkerror) + tail;
        Records(a, checkerror) + Records(init, checkerror) + tail;
        Records(a, checkerror) + (Records(init, checkerror) + tail);
        Records(a, checkerror) + Records(b, checkerror);
      }
    }
  }

  /** The error total of two blocks of records is the sum of their totals. */
  lemma {:induction false} TotalErrornumAppend(a: seq<Excelrow>, b: seq<Excelrow>)
    ensures TotalErrornum(a + b) == TotalErrornum(a) + TotalErrornum(b)
    decreases |b|
  {
    if b != [] {
      var ab := a + b;
      assert ab[..|ab| - 1] == a + b[..|b| - 1];
      TotalErrornumAppend(a, b[..|b| - 1]);
    } else {
      assert a + b == a;
    }
  }

  /** Every record comes from a non-header row of the sheet, decoded and checked. */
  lemma {:induction false} RecordsFromDataRows(lines: seq<seq<string>>, checkerror: Excelrow -> nat)
    requires WellFormed(lines)
    ensures forall r :: r in Records(lines, checkerror) ==>
      r.name != Header && exists k :: 0 <= k < |lines| && r == Checked(lines[k], checkerror)
    decreases |lines|
  {
    if lines != [] {
      var init := lines[..|lines| - 1];
      RecordsFromDataRows(init, checkerror);
      forall r | r in Records(init, checkerror)
        ensures exists k :: 0 <= k < |lines| && r == Checked(lines[k], checkerror)
      {
        var k :| 0 <= k < |init| && r == Checked(init[k], checkerror);
        assert lines[k] == init[k];
      }
    }
  }

  /** The report header row contributes no record. */
  lemma HeaderRowIgnored(lines: seq<seq<string>>, line: seq<string>, checkerror: Excelrow -> nat)
    requires WellFormed(lines) && |line| == CellCount && line[0] == Header
    ensures WellFormed(lines + [line])
    ensures Records(lines + [line], checkerror) == Records(lines, checkerror)
  {
    var all := lines + [line];
    assert all[..|all| - 1] == lines;
  }

  /**
   * The row loop of handleReportExcel: an empty sheet is an error; a row of
   * the wrong length stops the loop with an error, after the rows before it
   * have been decoded and tallied; header rows are skipped; every other row
   * is decoded by position, checked, appended and its count added to the total.
   */
  method ReportExcel(excelRows: seq<seq<string>>, checkerror: Excelrow -> nat)
    returns (status: Status, rows: seq<Excelrow>, errornum: int)
    ensures status == EmptySheet <==> excelRows == []
    ensures status.Completed? || status.EmptySheet? || status.BadArity?
    ensures status.BadArity? ==> status.row < |excelRows| && |excelRows[status.row]| != CellCount
    ensures var done := if status.BadArity? then status.row else |excelRows|;
      done <= |excelRows| && WellFormed(excelRows[..done]) &&
      rows == Records(excelRows[..done], checkerror)
    ensures errornum == TotalErrornum(rows)
  {
    rows := [];
    errornum := 0;
    if |excelRows| == 0 {
      status := EmptySheet;
      return;
    }
    for i := 0 to |excelRows|
      invariant WellFormed(excelRows[..i])
      invariant rows == Records(excelRows[..i], checkerror)
      invariant errornum == TotalErrornum(rows)
    {
      var line := excelRows[i];
      assert excelRows[..i + 1] == excelRows[..i] + [line];
      var kind := Classify(line);
      if kind == Malformed {
        status := BadArity(i);
        return;
      }
      if kind == HeaderRow {
        HeaderRowIgnored(excelRows[..i], line, checkerror);
        continue;
      }
      var row := Decode(line);
      row := row.(errornum := checkerror(row));
      errornum := errornum + row.errornum;
      assert (rows + [row])[..|rows|] == rows;
      rows := rows + [row];
      assert excelRows[..i + 1][..i] == excelRows[..i];
    }
    assert excelRows[..|excelRows|] == excelRows;
    status := Completed;
  }
}
