/**
 `convert_csv`: the records written to the target logbook for a sequence of parsed source rows.
 The output file is a list of records; parsing and writing the files themselves are not modelled.
 The row conversion is a parameter, `convertRow`: in the program it is `ConvertRow` with the
 user's and the examiner's names fixed (see `ConvertLogbook`).
 */
module Logbook {
  import opened Cells
  import opened Tables
  import Convert

  /** One record of the output file: the header line or a converted flight. */
  datatype Record = HeaderRecord(labels: seq<string>) | FlightRecord(cells: seq<Value>)

  /**
   The loop of `convert_csv` as written. `written` is the writer's line number, the count of
   records written so far. While it is zero the header is written and the row at hand is skipped
   (`next`), so the header takes the first row's place.
   */
  function WriteRows(rows: seq<SourceRow>, written: nat, convertRow: SourceRow -> seq<Value>): (out: seq<Record>)
    ensures |out| == |rows|
    decreases |rows|
  {
    if |rows| == 0 then []
    else if written == 0 then [HeaderRecord(ExpectedHeaders)] + WriteRows(rows[1..], written + 1, convertRow)
    else [FlightRecord(convertRow(rows[0]))] + WriteRows(rows[1..], written + 1, convertRow)
  }

  /** `convert_csv` as written, starting from an empty output file. */
  function ConvertCsvAsWritten(rows: seq<SourceRow>, convertRow: SourceRow -> seq<Value>): (out: seq<Record>)
    ensures |out| == |rows|
  {
    WriteRows(rows, 0, convertRow)
  }

  /** Every row converted, in order. */
  function ConvertRows(rows: seq<SourceRow>, convertRow: SourceRow -> seq<Value>): (out: seq<Record>)
    ensures |out| == |rows|
    ensures forall i :: 0 <= i < |rows| ==> out[i] == FlightRecord(convertRow(rows[i]))
    decreases |rows|
  {
    if |rows| == 0 then []
    else [FlightRecord(convertRow(rows[0]))] + ConvertRows(rows[1..], convertRow)
  }

  /** `convert_csv` as intended: the header line, then one converted record per source row. */
  function ConvertCsv(rows: seq<SourceRow>, convertRow: SourceRow -> seq<Value>): (out: seq<Record>)
    ensures |out| == |rows| + 1
    ensures out[0] == HeaderRecord(ExpectedHeaders)
    ensures forall i :: 0 <= i < |rows| ==> out[i + 1] == FlightRecord(convertRow(rows[i]))
  {
    [HeaderRecord(ExpectedHeaders)] + ConvertRows(rows, convertRow)
  }

  /** Once something has been written, the loop converts every remaining row. */
  lemma {:induction false} WriteRowsAfterHeader(rows: seq<SourceRow>, written: nat, convertRow: SourceRow -> seq<Value>)
    requires written > 0
    ensures WriteRows(rows, written, convertRow) == ConvertRows(rows, convertRow)
    decreases |rows|
  {
    if |rows| > 0 {
      WriteRowsAfterHeader(rows[1..], written + 1, convertRow);
    }
  }

  /**
   As written, the header replaces the first source row: the output is the intended output for
   the rows after the first, so the first flight is never converted.
   */
  lemma AsWrittenDropsFirstRow(rows: seq<SourceRow>, convertRow: SourceRow -> seq<Value>)
    requires |rows| > 0
    ensures ConvertCsvAsWritten(rows, convertRow) == ConvertCsv(rows[1..], convertRow)
  {
    WriteRowsAfterHeader(rows[1..], 1, convertRow);
  }

  /** A one-flight logbook as written holds the header and no flight; the intended output holds both. */
  lemma AsWrittenLosesSingleFlight(row: SourceRow, convertRow: SourceRow -> seq<Value>)
    ensures ConvertCsvAsWritten([row], convertRow) == [HeaderRecord(ExpectedHeaders)]
    ensures ConvertCsv([row], convertRow)[1] == FlightRecord(convertRow(row))
  {
  }

  /** A source without rows yields, as written, an output without even the header line. */
  lemma AsWrittenEmptyHasNoHeader(convertRow: SourceRow -> seq<Value>)
    ensures ConvertCsvAsWritten([], convertRow) == []
    ensures ConvertCsv([], convertRow) == [HeaderRecord(ExpectedHeaders)]
  {
  }

  /** The program's output for the rows of a source file, as written. */
  function ConvertLogbookAsWritten(rows: seq<SourceRow>, userName: string, dpeName: string): (out: seq<Record>)
    ensures |rows| > 0 ==> out == ConvertLogbook(rows[1..], userName, dpeName)
  {
    if |rows| > 0 then
      AsWrittenDropsFirstRow(rows, row => Convert.ConvertRow(row, userName, dpeName));
      ConvertCsvAsWritten(rows, row => Convert.ConvertRow(row, userName, dpeName))
    else
      ConvertCsvAsWritten(rows, row => Convert.ConvertRow(row, userName, dpeName))
  }

  /** The program's intended output for the rows of a source file. */
  function ConvertLogbook(rows: seq<SourceRow>, userName: string, dpeName: string): (out: seq<Record>)
    ensures |out| == |rows| + 1 && out[0] == HeaderRecord(ExpectedHeaders)
  {
    ConvertCsv(rows, row => Convert.ConvertRow(row, userName, dpeName))
  }
}
