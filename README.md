# ClickHouse DB-API cursor, modelled in Dafny

This project models the `Cursor` of the DB-API 2.0 adapter in
`clickhouse_driver/connect.py`. The cursor sits over the ClickHouse client and
has four parts:

- a lifecycle state: `NONE`, `RUNNING`, `FINISHED` and `CURSOR_CLOSED`, here
  `Initial`, `Running`, `Finished` and `CursorClosed`;
- options staged per cursor: the streaming flag and row-buffer size, the
  settings map, the external-table dictionary and the types-check flag;
- the call configuration `_prepare` builds from those options, plus the one
  point where a driver error becomes an `OperationalError`;
- the result `_process_response` unpacks, and the `fetchone`, `fetchmany` and
  `fetchall` calls that consume it.

`Cursor` is a class. Its fields are the fields the source updates in place.
`_rows` is a `RowSource` that follows what the field holds at run time:
`NoRows` is Python's `None`, `Buffer` is a list, and `Stream` is a one-pass
iterator, given as its items plus a consumed-prefix index. The fetch calls pick
their path by the streaming flag, as the source does, not by what `_rows`
holds. So mismatched combinations get the outcome Python gives them: the flag
toggled after a query, or a bulk call made in streaming mode.

The underlying client is not modelled as code. Its answer to a call is a
parameter of `Execute` and `ExecuteMany`: raise a driver error, raise another
error, or return a reply. Both methods return the `Call` they would send, so
the contracts can say what reached the client.

Files:

- `types.dfy`: shared values (rows, replies, failures).
- `columns.dfy`: splitting `columns_with_types`, and `description`.
- `external_tables.dfy`: the external-table dictionary, held as a sequence of items, and the records sent to the client.
- `calls.dfy`: prepared settings, the call record, and error translation.
- `fetch.dfy`: the fetch semantics as functions over the row source, with lemmas about runs of fetch calls.
- `cursor.dfy`: the `Cursor` class.
- `scenarios.dfy`: callers that check concrete call sequences against the contracts.

Where the code behaves in ways a reader of its names or of PEP 249 (DB-API 2.0) would not expect, the model follows the code. The one exception is the external-table argument, which the model corrects (see "## Findings"):

- `rowcount` always returns -1, the value PEP 249 reserves for a count that cannot be determined. The count a bulk call stores in `_rowcount` is never read.
- `_begin_query` only sets `RUNNING`; it does not clear the previous columns, types or rows. A failed query therefore leaves the previous result readable.
- `arraysize` starts at -1, not at the 1 that PEP 249 specifies. So `fetchmany()` with the default size is the Python slice `rows[:-1]`. In buffered mode it returns all rows but the last. In streaming mode `islice` raises ValueError. It does so too for a size above `sys.maxsize`, which the buffered slice clamps instead.
- `execute` passes `with_column_types=True` to both entry points, the streaming one included. `executemany` does not pass it at all.
- Fetch calls after `close` are not refused; only the `NONE` state is.

## Model

| member | source | states |
|---|---|---|
| `Connect.Cursor.constructor` | clickhouse_driver/connect.py:105-111 | A new cursor is in NONE with no columns, types or rows, `_rowcount` -1, `arraysize` -1, streaming off, no settings, no external tables, types check off |
| `Connect.Cursor.Description` | clickhouse_driver/connect.py:113-121 | One entry per zipped column, in order: that column's name and type, four `None` slots and `True` |
| `Connect.Cursor.RowCount` | clickhouse_driver/connect.py:123-125 | Always -1, whatever count a bulk call stored |
| `Connect.Cursor.Close` | clickhouse_driver/connect.py:127-129 | From any state the cursor ends in CURSOR_CLOSED; no other field changes |
| `Connect.Cursor.Execute` | clickhouse_driver/connect.py:131-148 | On a closed cursor: `Error('Cursor is closed')`, nothing sent, nothing changed. Otherwise the call goes out with the prepared configuration and `with_column_types=True`. A client failure is translated and leaves the cursor RUNNING with its previous columns, types and rows. A reply is unpacked and the cursor ends FINISHED; a streamed reply with no header leaves it RUNNING with StopIteration |
| `Connect.Cursor.ExecuteMany` | clickhouse_driver/connect.py:150-165 | As `Execute`, but the parameter sets go as a batch with no column-types flag. On success the reported count is stored, the cursor ends FINISHED, and columns, types and rows are all empty |
| `Connect.Cursor.FetchOne` | clickhouse_driver/connect.py:167-177 | Fails with `Error('No query yet')` exactly when the state is NONE. Otherwise it returns and consumes as `FetchOneStep` says, and only the row source changes |
| `Connect.Cursor.FetchMany` | clickhouse_driver/connect.py:179-190 | Fails with `Error('No query yet')` exactly when the state is NONE. Otherwise it takes `size`, or `arraysize` when no size is given, as `FetchManyStep` says |
| `Connect.Cursor.FetchAll` | clickhouse_driver/connect.py:192-200 | Fails with `Error('No query yet')` exactly when the state is NONE. Otherwise it takes everything left, as `FetchAllStep` says |
| `Connect.Cursor.SetStreamResults` | clickhouse_driver/connect.py:211-213 | Sets the streaming flag and row-buffer size; nothing else changes |
| `Connect.Cursor.SetSettings` | clickhouse_driver/connect.py:215-216 | Replaces the staged settings; nothing else changes |
| `Connect.Cursor.SetTypesCheck` | clickhouse_driver/connect.py:218-219 | Sets the types-check flag; nothing else changes |
| `Connect.Cursor.SetExternalTable` | clickhouse_driver/connect.py:221-233 | Upserts one name. A lookup of that name then gives the new table, every other name gives what it gave before, and names stay distinct |
| `Connect.Cursor.Prepare` | clickhouse_driver/connect.py:237-256 | Chooses `execute_iter` exactly when streaming. The cursor's own settings become `PreparedSettings`. The configuration carries those settings, the table argument and the types-check flag |
| `Connect.Cursor.ProcessResponse` | clickhouse_driver/connect.py:258-279 | A bulk count is stored in `_rowcount`. Columns, types and rows become what `Unpack` gives. When unpacking raises, they stay as they were |
| `Connect.Cursor.BeginQuery` | clickhouse_driver/connect.py:298-299 | Moves to RUNNING and touches no other field, so the previous result survives |
| `Connect.Cursor.EndQuery` | clickhouse_driver/connect.py:301-302 | Moves to FINISHED and touches no other field |
| `Connect.Cursor.CheckCursorClosed` | clickhouse_driver/connect.py:304-306 | Raises `Error('Cursor is closed')` exactly when the state is CURSOR_CLOSED |
| `Connect.Cursor.CheckQueryStarted` | clickhouse_driver/connect.py:308-310 | Raises `Error('No query yet')` exactly when the state is NONE |
| `Connect.Unpack` | clickhouse_driver/connect.py:258-279 | A bulk count, or a false buffered reply, gives no columns and an empty list. A table gives columns and types of equal length that zip back to the reply's pairs. Its rows become a source of the flag's shape holding exactly the reply's rows: in streaming mode only the header is consumed. A streamed reply with no header is the one failure, StopIteration |
| `Columns.Unzip` | clickhouse_driver/connect.py:274-277 | Names and types have the length of the pairs, and pair i is (name i, type i); no pairs give two empty sequences |
| `Columns.Zip` | clickhouse_driver/connect.py:118-121 | Python's `zip`: as long as the shorter input, and entry i pairs the i-th name with the i-th type |
| `Columns.ZipUnzip` | clickhouse_driver/connect.py:274-277 | Splitting the pairs into columns and types loses nothing: zipping them gives the pairs back |
| `Columns.UnzipZip` | clickhouse_driver/connect.py:118-121 | Names and types of equal length survive a zip followed by a split |
| `Columns.Describe` | clickhouse_driver/connect.py:118-121 | One seven-slot descriptor per zipped column, in order, with name, type, four `None` and `True` |
| `Columns.DescribeUnzipped` | clickhouse_driver/connect.py:113-121 | After a reply is unpacked, `description` has one entry per reply column, carrying its name and type |
| `ExternalTables.Lookup` | clickhouse_driver/connect.py:233 | A name is found exactly when it is a key of the dictionary |
| `ExternalTables.Upsert` | clickhouse_driver/connect.py:233 | The dictionary grows by one exactly when the name is new |
| `ExternalTables.UpsertWins` | clickhouse_driver/connect.py:225 | After a registration, the name gives the table just registered |
| `ExternalTables.UpsertKeepsOthers` | clickhouse_driver/connect.py:233 | A registration leaves every other name's table unchanged |
| `ExternalTables.UpsertNames` | clickhouse_driver/connect.py:233 | After registering, the dictionary holds exactly its old names plus the registered one |
| `ExternalTables.UpsertDistinct` | clickhouse_driver/connect.py:233 | A registration keeps every name held once |
| `ExternalTables.UpsertTwice` | clickhouse_driver/connect.py:225 | Registering a name twice equals registering only the second table |
| `ExternalTables.Records` | clickhouse_driver/connect.py:238-241 | One `{name, structure, data}` record per dictionary item, in the order of the model's items |
| `ExternalTables.TablesArgument` | clickhouse_driver/connect.py:238-241 | The intended `external_tables` argument: `None` exactly when no table is registered, otherwise one record per registered table, carrying its name, structure and data |
| `ExternalTables.UnpackPair` | clickhouse_driver/connect.py:240 | Unpacking a string into two targets succeeds exactly for a two-character string, into its two one-character halves; otherwise ValueError |
| `ExternalTables.UnpackKeyFails` | clickhouse_driver/connect.py:240 | No key string unpacks into `name, (structure, data)`: every key raises ValueError |
| `ExternalTables.KeyRecords` | clickhouse_driver/connect.py:238-241 | The comprehension over the key strings succeeds only on no keys, with no records; any key makes it raise ValueError |
| `ExternalTables.TablesArgumentAsWritten` | clickhouse_driver/connect.py:238-241 | The argument as the code builds it, from the keys through `or None`: `None` for an empty dictionary, ValueError for any other |
| `ExternalTables.AsWrittenRejectsRegisteredTable` | clickhouse_driver/connect.py:240 | For one registered table, the code's argument raises ValueError; the intended argument carries that table's record |
| `ExternalTables.SecondRegistrationSent` | clickhouse_driver/connect.py:221-241 | After registering a name twice, the argument carries a record with the second table, and every record under that name is that one |
| `Calls.PreparedSettings` | clickhouse_driver/connect.py:245-248 | Buffered: settings pass through untouched. Streaming: a map exists (a new one if there was none), `max_block_size` is the row-buffer size, and every other key keeps its presence and value |
| `Calls.PreparedSettingsStable` | clickhouse_driver/connect.py:247-248 | Settings written back by one query are not changed further by preparing the next |
| `Calls.Translate` | clickhouse_driver/connect.py:143-145 | A driver error becomes an OperationalError with the same message. Any other client error passes through unchanged, never as the adapter's own `Error` |
| `Fetch.SliceStop` | clickhouse_driver/connect.py:188-189 | Python's slice stop on a list of length n never exceeds n |
| `Fetch.FetchOneStep` | clickhouse_driver/connect.py:170-177 | On a source of the flag's shape: first row and the rest left, or `None` with the source unchanged when empty. Otherwise TypeError (streaming over a list or `None`), AttributeError (`pop` on an iterator) or `None` (buffered over `None`), consuming nothing |
| `Fetch.FetchManyStep` | clickhouse_driver/connect.py:182-190 | On a source of the flag's shape, result followed by what is left equals the old source. A size k >= 0 yields min(k, left) rows. Buffered with k < 0 yields all but the last -k rows. Streaming with k outside `0..sys.maxsize` raises ValueError, as `islice` does, and consumes nothing |
| `Fetch.FetchAllStep` | clickhouse_driver/connect.py:195-200 | On a source of the flag's shape, returns everything left and leaves the source empty. Buffered always leaves an empty list, and gives `None` over `None`. Streaming over a list copies it and consumes nothing; streaming over `None` raises TypeError |
| `Fetch.ApplySplits` | clickhouse_driver/connect.py:167-200 | Any accepted fetch call returns a prefix of what is left and leaves the matching suffix |
| `Fetch.FetchesConcatenate` | clickhouse_driver/connect.py:167-200 | Any run of accepted fetch calls hands out rows in their original order. What it returns, followed by what is left, is what the source held |
| `Fetch.FetchAllCompletes` | clickhouse_driver/connect.py:192-200 | Any accepted fetch calls followed by `fetchall` return exactly the rows the source held, in order, and leave it exhausted |

## Left out

- `Connection` and the `connect` factory (lines 53-90, 313-316) are not part of this model. They only hold parameters and build clients. `Connection.close` calls `cursor.disconnect()`, which `Cursor` does not define.
- Client construction and all client I/O are not modelled: `execute`, `execute_iter` and `disconnect`. Their outcome is a parameter of `Execute` and `ExecuteMany`.
- Connect.Cursor.Close: changes only the state; the client's disconnect is I/O and is not modelled.
- Connect.Cursor.Execute: the client either raises when called or returns a whole reply. A lazy iterator that raises while its header or its rows are pulled is not modelled. Such a failure would escape unwrapped, or surface from a streaming fetch.
- Connect.Cursor.ExecuteMany: the reply is the reported count. In streaming mode the source stores the iterator `execute_iter` returns in `_rowcount`; that value is never read.
- Connect.Cursor.SetSettings: stores a copy of the map. The source keeps the caller's dictionary, and `_prepare` then writes `max_block_size` into that same object. This aliasing is not modelled.
- ExternalTables.Upsert: the dictionary is a sequence of items in insertion order. The iteration order of a Python 2 dictionary is unspecified (hash order), so the order that `ExternalTables.UpsertOrder` proves, and the order in which `ExternalTables.Records` and `ExternalTables.TablesArgument` list the records, is the model's choice, not the source's. Only the set of names (`ExternalTables.UpsertNames`) and what each name holds are the source's.
- The bound `sys.maxsize` (`Fetch.MaxSize`) is taken for a 64-bit build (2^63 - 1); a 32-bit build's smaller bound is not modelled.
- Connect.Cursor.Prepare: builds the external-table argument with the corrected `ExternalTables.TablesArgument`. As written, `_prepare` raises ValueError as soon as a table is registered, before the settings are written back and before anything is sent; `Connect.Cursor.Execute` and `Connect.Cursor.ExecuteMany` inherit the correction. See "## Findings".
- Fetch.FetchAllStep: in the buffered path over an iterator, the source returns the iterator object itself. The model returns the rows that iterator still holds.
- The exception class hierarchy (lines 13-50) is reduced to the tags of `Failure`.
- `setinputsizes` and `setoutputsize` (lines 202-208) do nothing and are not modelled.
- The module constants `apilevel`, `threadsafety` and `paramstyle` are not modelled, and neither is thread safety.
- Before the first query `_columns` and `_types` are `None`. The model holds them as empty sequences; `description` treats both alike.
- Truthiness is reduced to `Reply.Nothing`: in the buffered path a reply that tests false, and in the streaming path an iterator that yields nothing.

## Findings

| source | as written | input that shows it | evidently intended | confidence | as-written member | corrected member |
|---|---|---|---|---|---|---|
| clickhouse_driver/connect.py:238-241 | The comprehension iterates the external-table dictionary itself. That yields only the key strings, and unpacking a name string into `name, (structure, data)` raises ValueError | `set_external_table('x', [('a', 'Int32')], [(1,)])` followed by `execute(...)`: ValueError escapes unwrapped, and the cursor stays RUNNING | Iterate `self._external_tables.items()`, sending one `{name, structure, data}` record per table | high, not executed | `ExternalTables.TablesArgumentAsWritten`, built on `ExternalTables.KeyRecords`, with `ExternalTables.UnpackKeyFails` and `ExternalTables.AsWrittenRejectsRegisteredTable` | `ExternalTables.TablesArgument`, with `ExternalTables.SecondRegistrationSent`; `Connect.Cursor.Prepare` uses it |
