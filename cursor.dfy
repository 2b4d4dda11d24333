/** The DB-API cursor over the columnar-database client: its lifecycle state,
    its staged per-cursor options, and the result it unpacks and hands out. */
module Connect {
  import opened Types
  import opened Columns
  import opened ExternalTables
  import opened Calls
  import opened Fetch

  /** `NONE`, `RUNNING`, `FINISHED` and `CURSOR_CLOSED`. */
  datatype State = Initial | Running | Finished | CursorClosed

  /** What `_process_response` unpacks: the reply to a query, or, after a bulk
      call, the count the client reported. */
  datatype Response = Answer(reply: Reply) | Count(count: int)

  /** The columns, types and row source one response leaves on the cursor. */
  datatype ResultSet = ResultSet(columns: seq<string>, types: seq<string>, rows: RowSource)

  /** What `_process_response` makes of a response. A bulk call's count and a
      false buffered reply leave no columns and an empty list; a buffered table
      is split into columns and types and its rows kept as a list; a streamed
      table gives up exactly one item, the header, and the rest of the iterator
      is kept unconsumed; an iterator with no header raises StopIteration. */
  function Unpack(streaming: bool, response: Response): (r: Result<ResultSet>)
    ensures r.Err? <==> streaming && response == Answer(Nothing)
    ensures r.Err? ==> r.failure == StopIteration
    ensures r.Ok? ==> |r.value.columns| == |r.value.types| && WellFormed(r.value.rows)
    ensures response.Count? || (!streaming && response == Answer(Nothing)) ==>
      r == Ok(ResultSet([], [], Buffer([])))
    ensures response.Answer? && response.reply.Table? ==>
      r.Ok? && Zip(r.value.columns, r.value.types) == response.reply.columnsWithTypes &&
      Matches(streaming, r.value.rows) && Remaining(r.value.rows) == response.reply.rows
  {
    match response
    case Count(_) => Ok(ResultSet([], [], Buffer([])))
    case Answer(Nothing) =>
      if streaming then Err(StopIteration) else Ok(ResultSet([], [], Buffer([])))
    case Answer(Table(rows, columnsWithTypes)) =>
      var split := Unzip(columnsWithTypes);
      ZipUnzip(columnsWithTypes);
      Ok(ResultSet(split.0, split.1, if streaming then Stream(rows, 0) else Buffer(rows)))
  }

  class Cursor {
    var state: State
    var columns: seq<string>
    var types: seq<string>
    var rows: RowSource
    /** `_rowcount`: written by a bulk call, never read. */
    var storedRowcount: int
    var streamResults: bool
    var maxRowBuffer: int
    var settings: Option<Settings>
    var externalTables: seq<Entry>
    var typesCheck: bool
    /** The default size of `fetchmany`. */
    var arraysize: int
    /** Whether an execute or executemany has got past the closed check. */
    ghost var queried: bool

    ghost predicate Valid()
      reads this
    {
      |columns| == |types| &&
      WellFormed(rows) &&
      DistinctNames(externalTables) &&
      (state == Initial ==> columns == [] && types == [] && rows == NoRows) &&
      (queried ==> state != Initial)
    }

    /** `__init__` and `_reset_state`: no query, no result, default options. */
    constructor ()
      ensures Valid() && !queried
      ensures state == Initial && columns == [] && types == [] && rows == NoRows
      ensures storedRowcount == -1 && arraysize == -1
      ensures !streamResults && maxRowBuffer == 0 && settings == None
      ensures externalTables == [] && !typesCheck
    {
      state := Initial;
      columns, types, rows := [], [], NoRows;
      storedRowcount := -1;
      streamResults, maxRowBuffer := false, 0;
      settings := None;
      externalTables := [];
      typesCheck := false;
      arraysize := -1;
      queried := false;
    }

    /** The `description` property: one seven-slot entry per column, in order. */
    function Description(): (r: seq<ColumnDescription>)
      reads this
      ensures |r| == Min(|columns|, |types|)
      ensures forall i :: 0 <= i < |r| ==> r[i].name == columns[i] && r[i].typeCode == types[i]
      ensures forall i :: 0 <= i < |r| ==>
        r[i].displaySize.None? && r[i].internalSize.None? && r[i].precision.None? &&
        r[i].scale.None? && r[i].nullOk
    {
      Describe(columns, types)
    }

    /** The `rowcount` property: -1 whatever count a bulk call stored. */
    function RowCount(): (r: int)
      ensures r == -1
    {
      -1
    }

    /** `close`: the cursor ends in CURSOR_CLOSED from any state. */
    method Close()
      requires Valid()
      modifies this`state
      ensures Valid() && state == CursorClosed
    {
      state := CursorClosed;
    }

    /** `_check_cursor_closed`. */
    function CheckCursorClosed(): (r: Option<Failure>)
      reads this
      ensures r.Some? <==> state == CursorClosed
      ensures r.Some? ==> r.value == Error(CursorIsClosed)
    {
      if state == CursorClosed then Some(Error(CursorIsClosed)) else None
    }

    /** `_check_query_started`. */
    function CheckQueryStarted(): (r: Option<Failure>)
      reads this
      ensures r.Some? <==> state == Initial
      ensures r.Some? ==> r.value == Error(NoQueryYet)
    {
      if state == Initial then Some(Error(NoQueryYet)) else None
    }

    /** `_begin_query`: only the state moves; the previous result stays. */
    method BeginQuery()
      modifies this`state
      ensures state == Running
    {
      state := Running;
    }

    /** `_end_query`. */
    method EndQuery()
      modifies this`state
      ensures state == Finished
    {
      state := Finished;
    }

    /** `set_stream_results`. */
    method SetStreamResults(streamResults: bool, maxRowBuffer: int)
      requires Valid()
      modifies this`streamResults, this`maxRowBuffer
      ensures Valid() && this.streamResults == streamResults && this.maxRowBuffer == maxRowBuffer
    {
      this.streamResults := streamResults;
      this.maxRowBuffer := maxRowBuffer;
    }

    /** `set_settings`. */
    method SetSettings(settings: Option<Settings>)
      requires Valid()
      modifies this`settings
      ensures Valid() && this.settings == settings
    {
      this.settings := settings;
    }

    /** `set_types_check`. */
    method SetTypesCheck(typesCheck: bool)
      requires Valid()
      modifies this`typesCheck
      ensures Valid() && this.typesCheck == typesCheck
    {
      this.typesCheck := typesCheck;
    }

    /** `set_external_table`: one name is registered, the last registration
        winning (see `UpsertWins`, `UpsertKeepsOthers`, `UpsertTwice`). */
    method SetExternalTable(name: string, structure: seq<ColumnSpec>, data: seq<Row>)
      requires Valid()
      modifies this`externalTables
      ensures Valid()
      ensures externalTables == Upsert(old(externalTables), name, ExternalTable(structure, data))
      ensures Lookup(externalTables, name) == Some(ExternalTable(structure, data))
      ensures forall other :: other != name ==> Lookup(externalTables, other) == Lookup(old(externalTables), other)
    {
      var table := ExternalTable(structure, data);
      UpsertDistinct(externalTables, name, table);
      UpsertWins(externalTables, name, table);
      forall other | other != name
        ensures Lookup(Upsert(externalTables, name, table), other) == Lookup(externalTables, other)
      {
        UpsertKeepsOthers(externalTables, name, table, other);
      }
      externalTables := Upsert(externalTables, name, table);
    }

    /** `_prepare`: choose the entry point by the streaming flag and build the
        keyword arguments; in streaming mode the row-buffer size is written into
        the cursor's own settings as `max_block_size`. */
    method Prepare() returns (config: CallConfig)
      modifies this`settings
      ensures settings == PreparedSettings(streamResults, maxRowBuffer, old(settings))
      ensures config == CallConfig(EntryFor(streamResults), settings, TablesArgument(externalTables), typesCheck)
    {
      var tables := TablesArgument(externalTables);
      var entry := ClientExecute;
      if streamResults {
        entry := ClientExecuteIter;
        var base := if settings.Some? then settings.value else map[];
        settings := Some(base[MaxBlockSize := Int(maxRowBuffer)]);
      }
      config := CallConfig(entry, settings, tables, typesCheck);
    }

    /** `_process_response`: a bulk call's count is stored and the result
        emptied; a reply is unpacked as `Unpack` says. When unpacking raises,
        columns, types and rows are as they were. */
    method ProcessResponse(response: Response) returns (r: Result<()>)
      modifies this`columns, this`types, this`rows, this`storedRowcount
      ensures response.Count? ==> storedRowcount == response.count
      ensures response.Answer? ==> storedRowcount == old(storedRowcount)
      ensures Unpack(streamResults, response).Ok? ==>
        r == Ok(()) &&
        columns == Unpack(streamResults, response).value.columns &&
        types == Unpack(streamResults, response).value.types &&
        rows == Unpack(streamResults, response).value.rows
      ensures Unpack(streamResults, response).Err? ==>
        r == Err(Unpack(streamResults, response).failure) &&
        columns == old(columns) && types == old(types) && rows == old(rows)
    {
      if response.Count? {
        storedRowcount := response.count;
        columns, types, rows := [], [], Buffer([]);
        return Ok(());
      }
      var reply := response.reply;
      if !streamResults && reply.Nothing? {
        columns, types, rows := [], [], Buffer([]);
        return Ok(());
      }
      if reply.Nothing? {
        // `next` on an iterator that yields nothing
        return Err(StopIteration);
      }
      var columnsWithTypes := reply.columnsWithTypes;
      var newRows := if streamResults then Stream(reply.rows, 0) else Buffer(reply.rows);
      if columnsWithTypes != [] {
        var split := Unzip(columnsWithTypes);
        columns, types := split.0, split.1;
      } else {
        columns, types := [], [];
      }
      rows := newRows;
      r := Ok(());
    }

    /** `execute`: refused on a closed cursor with nothing changed; otherwise
        the query is sent with the prepared configuration. A client failure is
        translated and leaves the cursor RUNNING with its previous result; a
        reply is unpacked and the cursor ends FINISHED. */
    method Execute(operation: string, parameters: Params, reply: Outcome<Reply>)
      returns (call: Option<Call>, r: Result<()>)
      requires Valid()
      modifies this`state, this`settings, this`columns, this`types, this`rows, this`storedRowcount, this`queried
      ensures Valid() && storedRowcount == old(storedRowcount)
      ensures old(state) == CursorClosed ==>
        call == None && r == Err(Error(CursorIsClosed)) && unchanged(this)
      ensures old(state) != CursorClosed ==>
        queried &&
        settings == PreparedSettings(streamResults, maxRowBuffer, old(settings)) &&
        call == Some(Call(operation, Single(parameters), Some(true),
                          CallConfig(EntryFor(streamResults), settings, TablesArgument(externalTables), typesCheck)))
      ensures old(state) != CursorClosed && reply.Raised? ==>
        r == Err(Translate(reply.error)) && state == Running &&
        columns == old(columns) && types == old(types) && rows == old(rows)
      ensures old(state) != CursorClosed && reply.Returned? &&
              Unpack(streamResults, Answer(reply.value)).Ok? ==>
        r == Ok(()) && state == Finished &&
        columns == Unpack(streamResults, Answer(reply.value)).value.columns &&
        types == Unpack(streamResults, Answer(reply.value)).value.types &&
        rows == Unpack(streamResults, Answer(reply.value)).value.rows
      ensures old(state) != CursorClosed && reply.Returned? &&
              Unpack(streamResults, Answer(reply.value)).Err? ==>
        r == Err(StopIteration) && state == Running &&
        columns == old(columns) && types == old(types) && rows == old(rows)
    {
      var closed := CheckCursorClosed();
      if closed.Some? {
        return None, Err(closed.value);
      }
      BeginQuery();
      queried := true;
      var config := Prepare();
      call := Some(Call(operation, Single(parameters), Some(true), config));
      match reply
      case Raised(e) =>
        r := Err(Translate(e));
      case Returned(response) =>
        r := ProcessResponse(Answer(response));
        if r.Ok? {
          EndQuery();
        }
    }

    /** `executemany`: as `execute`, with a sequence of parameter sets, no
        column-types flag, and a reply that is the affected-row count: on
        success the count is stored and the result is empty. */
    method ExecuteMany(operation: string, seqOfParameters: seq<Params>, reply: Outcome<int>)
      returns (call: Option<Call>, r: Result<()>)
      requires Valid()
      modifies this`state, this`settings, this`columns, this`types, this`rows, this`storedRowcount, this`queried
      ensures Valid()
      ensures old(state) == CursorClosed ==>
        call == None && r == Err(Error(CursorIsClosed)) && unchanged(this)
      ensures old(state) != CursorClosed ==>
        queried &&
        settings == PreparedSettings(streamResults, maxRowBuffer, old(settings)) &&
        call == Some(Call(operation, Batch(seqOfParameters), None,
                          CallConfig(EntryFor(streamResults), settings, TablesArgument(externalTables), typesCheck)))
      ensures old(state) != CursorClosed && reply.Raised? ==>
        r == Err(Translate(reply.error)) && state == Running && storedRowcount == old(storedRowcount) &&
        columns == old(columns) && types == old(types) && rows == old(rows)
      ensures old(state) != CursorClosed && reply.Returned? ==>
        r == Ok(()) && state == Finished && storedRowcount == reply.value &&
        columns == [] && types == [] && rows == Buffer([])
    {
      var closed := CheckCursorClosed();
      if closed.Some? {
        return None, Err(closed.value);
      }
      BeginQuery();
      queried := true;
      var config := Prepare();
      call := Some(Call(operation, Batch(seqOfParameters), None, config));
      match reply
      case Raised(e) =>
        r := Err(Translate(e));
      case Returned(count) =>
        r := ProcessResponse(Count(count));
        EndQuery();
    }

    /** `fetchone`: refused before the first query; otherwise one row is taken
        from the row source as `FetchOneStep` says. */
    method FetchOne() returns (r: Result<Option<Row>>)
      requires Valid()
      modifies this`rows
      ensures Valid()
      ensures r == Err(Error(NoQueryYet)) <==> old(state) == Initial
      ensures old(state) == Initial ==> rows == old(rows)
      ensures old(state) != Initial ==>
        r == FetchOneStep(streamResults, old(rows)).result &&
        rows == FetchOneStep(streamResults, old(rows)).source
    {
      var notStarted := CheckQueryStarted();
      if notStarted.Some? {
        return Err(notStarted.value);
      }
      if streamResults {
        match rows
        case Stream(items, pos) =>
          if pos < |items| {
            r := Ok(Some(items[pos]));
            rows := Stream(items, pos + 1);
          } else {
            r := Ok(None);
          }
        case _ =>
          r := Err(TypeError);
      } else {
        match rows
        case Buffer(list) =>
          if list == [] {
            r := Ok(None);
          } else {
            r := Ok(Some(list[0]));
            rows := Buffer(list[1..]);
          }
        case NoRows =>
          r := Ok(None);
        case Stream(_, _) =>
          r := Err(AttributeError);
      }
    }

    /** `fetchmany`: refused before the first query; otherwise `size`, or
        `arraysize` when no size is given, rows are taken as `FetchManyStep` says. */
    method FetchMany(size: Option<int>) returns (r: Result<seq<Row>>)
      requires Valid()
      modifies this`rows
      ensures Valid()
      ensures r == Err(Error(NoQueryYet)) <==> old(state) == Initial
      ensures old(state) == Initial ==> rows == old(rows)
      ensures old(state) != Initial ==>
        var k := if size.Some? then size.value else arraysize;
        r == FetchManyStep(streamResults, old(rows), k).result &&
        rows == FetchManyStep(streamResults, old(rows), k).source
    {
      var notStarted := CheckQueryStarted();
      if notStarted.Some? {
        return Err(notStarted.value);
      }
      var k := if size.Some? then size.value else arraysize;
      if streamResults {
        if !IsliceStop(k) {
          // `islice` refuses a negative stop and one above `sys.maxsize`
          return Err(ValueError);
        }
        match rows
        case Stream(items, pos) =>
          var n := Min(k, |items| - pos);
          r := Ok(items[pos..pos + n]);
          rows := Stream(items, pos + n);
        case Buffer(list) =>
          r := Ok(list[..Min(k, |list|)]);
        case NoRows =>
          r := Err(TypeError);
      } else {
        match rows
        case Buffer(list) =>
          var stop := SliceStop(|list|, k);
          r := Ok(list[..stop]);
          rows := Buffer(list[stop..]);
        case _ =>
          r := Err(TypeError);
      }
    }

    /** `fetchall`: refused before the first query; otherwise everything left
        is taken as `FetchAllStep` says. */
    method FetchAll() returns (r: Result<Option<seq<Row>>>)
      requires Valid()
      modifies this`rows
      ensures Valid()
      ensures r == Err(Error(NoQueryYet)) <==> old(state) == Initial
      ensures old(state) == Initial ==> rows == old(rows)
      ensures old(state) != Initial ==>
        r == FetchAllStep(streamResults, old(rows)).result &&
        rows == FetchAllStep(streamResults, old(rows)).source
    {
      var notStarted := CheckQueryStarted();
      if notStarted.Some? {
        return Err(notStarted.value);
      }
      if streamResults {
        match rows
        case Stream(items, pos) =>
          r := Ok(Some(items[pos..]));
          rows := Stream(items, |items|);
        case Buffer(list) =>
          r := Ok(Some(list));
        case NoRows =>
          r := Err(TypeError);
      } else {
        match rows {
          case Buffer(list) =>
            r := Ok(Some(list));
          case Stream(items, pos) =>
            // the iterator itself is handed back
            r := Ok(Some(items[pos..]));
          case NoRows =>
            r := Ok(None);
        }
        rows := Buffer([]);
      }
    }
  }
}
