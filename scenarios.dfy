/** Callers of the cursor that check, from the contracts alone, a few concrete
    call sequences. */
module Scenarios {
  import opened Types
  import opened Columns
  import opened ExternalTables
  import opened Calls
  import opened Fetch
  import opened Connect

  /** A buffered `SELECT 1` answered with one row of one `UInt8` column. */
  method SelectOne()
  {
    var cursor := new Cursor();
    var call, r := cursor.Execute("SELECT 1", map[], Returned(Table([[Int(1)]], [ColumnSpec("1", "UInt8")])));
    assert r == Ok(());
    assert cursor.columns == ["1"] && cursor.types == ["UInt8"];
    var d := cursor.Description();
    assert d == [ColumnDescription("1", "UInt8", None, None, None, None, true)];
    var first := cursor.FetchOne();
    assert first == Ok(Some([Int(1)]));
    var second := cursor.FetchOne();
    assert second == Ok(None);
  }

  /** A bulk insert of two parameter sets: the count is stored, `rowcount`
      still reports -1, and there is nothing to fetch. */
  method InsertMany()
  {
    var cursor := new Cursor();
    var params: seq<Params> := [map["x" := Int(1)], map["x" := Int(2)]];
    var call, r := cursor.ExecuteMany("INSERT INTO t VALUES", params, Returned(2));
    assert r == Ok(()) && cursor.storedRowcount == 2;
    assert cursor.RowCount() == -1;
    assert call.value.withColumnTypes == None;
    var all := cursor.FetchAll();
    assert all == Ok(Some([]));
  }

  /** A streamed query: the header is taken, `fetchone` hands out the rows in
      order and then `None`, and the block size reached the client. */
  method StreamedRows(r1: Row, r2: Row)
  {
    var cursor := new Cursor();
    cursor.SetStreamResults(true, 1000);
    var call, r := cursor.Execute("SELECT x FROM t", map[],
                                  Returned(Table([r1, r2], [ColumnSpec("x", "Int32")])));
    assert r == Ok(());
    assert call.value.config.entry == ClientExecuteIter;
    assert call.value.config.settings.value[MaxBlockSize] == Int(1000);
    var a := cursor.FetchOne();
    var b := cursor.FetchOne();
    var c := cursor.FetchOne();
    assert a == Ok(Some(r1)) && b == Ok(Some(r2)) && c == Ok(None);
  }

  /** Buffered `fetchmany` with the default `arraysize` of -1 slices off all
      rows but the last; `fetchall` then returns the last. */
  method DefaultFetchMany(r1: Row, r2: Row, r3: Row)
  {
    var cursor := new Cursor();
    var call, r := cursor.Execute("SELECT x FROM t", map[],
                                  Returned(Table([r1, r2, r3], [ColumnSpec("x", "Int32")])));
    assert cursor.arraysize == -1 && cursor.rows == Buffer([r1, r2, r3]);
    assert SliceStop(3, -1) == 2 && [r1, r2, r3][..2] == [r1, r2] && [r1, r2, r3][2..] == [r3];
    var some := cursor.FetchMany(None);
    assert some == Ok([r1, r2]);
    var rest := cursor.FetchAll();
    assert rest == Ok(Some([r3]));
  }

  /** Fetching before any query is refused; so is executing on a closed
      cursor, which changes nothing. */
  method Misuse()
  {
    var cursor := new Cursor();
    var early := cursor.FetchOne();
    assert early == Err(Error(NoQueryYet));
    cursor.Close();
    var call, r := cursor.Execute("SELECT 1", map[], Returned(Nothing));
    assert r == Err(Error(CursorIsClosed)) && call == None;
    assert cursor.state == CursorClosed;
  }

  /** A driver failure is reported as an OperationalError and leaves the
      previous result in place, with the cursor RUNNING. */
  method DriverFailureKeepsResult(row: Row)
  {
    var cursor := new Cursor();
    var call, r := cursor.Execute("SELECT x FROM t", map[], Returned(Table([row], [ColumnSpec("x", "Int32")])));
    var call2, r2 := cursor.Execute("SELECT y FROM t", map[], Raised(DriverError("Connection refused")));
    assert r2 == Err(OperationalError("Connection refused"));
    assert cursor.state == Running && cursor.columns == ["x"];
    var got := cursor.FetchOne();
    assert got == Ok(Some(row));
  }

  /** A table registered twice under one name is sent once, with the second
      registration's data. */
  method ExternalTableTwice()
  {
    var cursor := new Cursor();
    var structure := [ColumnSpec("a", "Int32")];
    cursor.SetExternalTable("x", structure, [[Int(1)]]);
    assert cursor.externalTables == [Entry("x", ExternalTable(structure, [[Int(1)]]))];
    cursor.SetExternalTable("x", structure, [[Int(2)]]);
    assert cursor.externalTables == [Entry("x", ExternalTable(structure, [[Int(2)]]))];
    var call, r := cursor.Execute("SELECT a FROM x", map[], Returned(Nothing));
    var sent := call.value.config.externalTables.value;
    assert |sent| == 1 && sent[0] == TableRecord("x", structure, [[Int(2)]]);
    assert sent == [TableRecord("x", structure, [[Int(2)]])];
  }
}
