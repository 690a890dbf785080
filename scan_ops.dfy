/**
 * ScanOps: reads through a Scanner. A cell read points the scanner at the
 * exact range of one cell and takes the first entry, if there is one; a
 * family or row read points it at the exact range RangeBuilder derives from
 * a KeyBuilder key and hands back everything the scanner yields.
 */
module ScanOperations {
  import opened Common
  import opened Accumulo
  import opened ColumnExpressions
  import opened KeyBuilding
  import opened RangeBuilding

  /**
   * getExactRange: row, family and qualifier always; the visibility when it
   * is non-null; the timestamp only together with a visibility, and only
   * when it is not 0.
   */
  function GetExactRange(rowId: string, columnFamily: string, columnQualifier: string,
                         columnVisibility: Option<string>, timestamp: Int64): (r: Range)
    ensures r.ExactRange?
    ensures r.fields == [Some(rowId), Some(columnFamily), Some(columnQualifier)]
                        + (if columnVisibility.Some? then [columnVisibility] else [])
    ensures r.timestamp.Some? <==> columnVisibility.Some? && timestamp != 0
    ensures r.timestamp.Some? ==> r.timestamp.value == timestamp
  {
    if columnVisibility.Some? && timestamp != 0 then
      ExactRange([Some(rowId), Some(columnFamily), Some(columnQualifier), Some(columnVisibility.value)], Some(timestamp))
    else if columnVisibility.Some? then
      ExactRange([Some(rowId), Some(columnFamily), Some(columnQualifier), Some(columnVisibility.value)], None)
    else
      ExactRange([Some(rowId), Some(columnFamily), Some(columnQualifier)], None)
  }

  /**
   * Without a timestamp, the cell range is the exact range RangeBuilder
   * derives from the key of that row, family, qualifier and visibility.
   */
  lemma GetExactRangeAgreesWithRangeBuilder(rowId: string, columnFamily: string, columnQualifier: string,
                                            columnVisibility: Option<string>)
    ensures GetExactRange(rowId, columnFamily, columnQualifier, columnVisibility, 0)
         == ConstructExact(Key(Some(rowId), Some(columnFamily), Some(columnQualifier), columnVisibility, UnsetTimestamp))
  {
    var k := Key(Some(rowId), Some(columnFamily), Some(columnQualifier), columnVisibility, UnsetTimestamp);
    assert Score(k) == if columnVisibility.Some? then 13 else 4;
  }

  /**
   * With a visibility and a timestamp, the cell range is the five-part range
   * constructExact was meant to derive from the full key.
   */
  lemma GetExactRangeAgreesWithIntendedExact(rowId: string, columnFamily: string, columnQualifier: string,
                                             columnVisibility: string, timestamp: Int64)
    requires timestamp != 0 && timestamp != UnsetTimestamp
    ensures GetExactRange(rowId, columnFamily, columnQualifier, Some(columnVisibility), timestamp)
         == ConstructExactIntended(Key(Some(rowId), Some(columnFamily), Some(columnQualifier),
                                       Some(columnVisibility), timestamp))
  {
    var k := Key(Some(rowId), Some(columnFamily), Some(columnQualifier), Some(columnVisibility), timestamp);
    assert Score(k) == 31;
    assert KeyFields(k) == [Some(rowId), Some(columnFamily), Some(columnQualifier), Some(columnVisibility)];
  }

  /** `cell` is the first entry of the scan, or none for an empty scan. */
  predicate IsFirstEntry(cell: Option<Entry>, entries: seq<Entry>) {
    && (cell.None? <==> entries == [])
    && (cell.Some? ==> cell.value == entries[0])
  }

  class ScanOps {
    const scanner: Scanner

    constructor (scanner: Scanner)
      ensures this.scanner == scanner
    {
      this.scanner := scanner;
    }

    /** getRows(start, end): the scanner is set to the rows from start to end and walks all of them. */
    method GetRows(start: string, end: string) returns (rows: seq<Entry>)
      modifies scanner
      ensures scanner.range == RowRange(start, end) && rows == scanner.Iterator()
    {
      scanner.SetRange(RowRange(start, end));
      rows := scanner.Iterator();
    }

    /**
     * cell(row, family, qualifier, visibility, timestamp): the scanner is set
     * to the exact range of the cell and the first entry it yields, if any,
     * is the cell.
     */
    method Cell(rowId: string, columnFamily: string, columnQualifier: string,
                columnVisibility: Option<string>, timestamp: Int64) returns (cell: Option<Entry>)
      modifies scanner
      ensures scanner.range == GetExactRange(rowId, columnFamily, columnQualifier, columnVisibility, timestamp)
      ensures IsFirstEntry(cell, scanner.Iterator())
    {
      var range := GetExactRange(rowId, columnFamily, columnQualifier, columnVisibility, timestamp);
      scanner.SetRange(range);
      var entries := scanner.Iterator();
      if entries != [] {
        cell := Some(entries[0]);
      } else {
        cell := None;
      }
    }

    /** cell(row, family, qualifier): no visibility, timestamp 0. */
    method CellOf(rowId: string, columnFamily: string, columnQualifier: string) returns (cell: Option<Entry>)
      modifies scanner
      ensures scanner.range == ExactRange([Some(rowId), Some(columnFamily), Some(columnQualifier)], None)
      ensures IsFirstEntry(cell, scanner.Iterator())
    {
      cell := Cell(rowId, columnFamily, columnQualifier, None, 0);
    }

    /** cell(row, family, qualifier, visibility): timestamp 0. */
    method CellVisible(rowId: string, columnFamily: string, columnQualifier: string, columnVisibility: string)
      returns (cell: Option<Entry>)
      modifies scanner
      ensures scanner.range
           == ExactRange([Some(rowId), Some(columnFamily), Some(columnQualifier), Some(columnVisibility)], None)
      ensures IsFirstEntry(cell, scanner.Iterator())
    {
      cell := Cell(rowId, columnFamily, columnQualifier, Some(columnVisibility), 0);
    }

    /**
     * cell(row, expression, timestamp): the expression is parsed by the
     * top-level ColumnIdentifiers, and a bad one throws before the scanner
     * is touched.
     */
    method CellExprAt(rowId: string, columnExpression: string, timestamp: Int64) returns (r: Result<Option<Entry>>)
      modifies scanner
      ensures Parse(columnExpression).Err? ==>
                r == Err(Parse(columnExpression).error) && scanner.range == old(scanner.range)
      ensures Parse(columnExpression).Ok? ==>
                var ci := Parse(columnExpression).value;
                && scanner.range == GetExactRange(rowId, ci.family, ci.qualifier, ci.visibility, timestamp)
                && r.Ok? && IsFirstEntry(r.value, scanner.Iterator())
    {
      var parsed := Parse(columnExpression);
      if parsed.Err? {
        r := Err(parsed.error);
        return;
      }
      var ci := parsed.value;
      var cell := Cell(rowId, ci.family, ci.qualifier, ci.visibility, timestamp);
      r := Ok(cell);
    }

    /** cell(row, expression): timestamp 0. */
    method CellExpr(rowId: string, columnExpression: string) returns (r: Result<Option<Entry>>)
      modifies scanner
      ensures Parse(columnExpression).Err? ==>
                r == Err(Parse(columnExpression).error) && scanner.range == old(scanner.range)
      ensures Parse(columnExpression).Ok? ==>
                var ci := Parse(columnExpression).value;
                && scanner.range == GetExactRange(rowId, ci.family, ci.qualifier, ci.visibility, 0)
                && r.Ok? && IsFirstEntry(r.value, scanner.Iterator())
    {
      r := CellExprAt(rowId, columnExpression, 0);
    }

    /** family(row, family): the exact range of the key built from the row and the family. */
    method Family(rowId: string, columnFamily: string) returns (rows: seq<Entry>)
      modifies scanner
      ensures scanner.range == ExactRange([Some(rowId), Some(columnFamily)], None)
      ensures rows == scanner.Iterator()
    {
      var kb := new KeyBuilder();
      kb := kb.Row(rowId);
      kb := kb.Family(columnFamily);
      var k := kb.Build();
      var range := ExactOf(k);
      rows := RetrieveRow(range);
    }

    /** row(row): the exact range of the key built from the row alone. */
    method Row(rowId: string) returns (rows: seq<Entry>)
      modifies scanner
      ensures scanner.range == ExactRange([Some(rowId)], None)
      ensures rows == scanner.Iterator()
    {
      var kb := new KeyBuilder();
      kb := kb.Row(rowId);
      var k := kb.Build();
      var range := ExactOf(k);
      rows := RetrieveRow(range);
    }

    /** retrieveRow(range): the scanner is set to the range and walks all of it. */
    method RetrieveRow(range: Range) returns (rows: seq<Entry>)
      modifies scanner
      ensures scanner.range == range && rows == scanner.Iterator()
    {
      scanner.SetRange(range);
      rows := scanner.Iterator();
    }
  }
}
