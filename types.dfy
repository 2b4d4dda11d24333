/** Values shared by the cursor model: rows, column specifications, what the
    underlying client answers, and what a cursor call raises to its caller. */
module Types {

  datatype Option<+T> = None | Some(value: T)

  /** A cell of a row, a query parameter or a setting value. */
  datatype Value = Int(i: int) | Str(s: string) | Null

  type Row = seq<Value>

  /** Named query parameters, such as `{'x': 1}`. */
  type Params = map<string, Value>

  /** Driver settings, such as `{'max_block_size': 100}`. */
  type Settings = map<string, Value>

  /** One `(name, type)` pair of the client's `columns_with_types`. */
  datatype ColumnSpec = ColumnSpec(name: string, typeName: string)

  /** What the underlying client raises: its own error type, which the cursor
      wraps, or any other exception, which passes through unchanged. */
  datatype ClientError = DriverError(message: string) | OtherError(message: string)

  /** What one call into the underlying client does: raise, or return a value. */
  datatype Outcome<+T> = Raised(error: ClientError) | Returned(value: T)

  /** The client's reply to a query.
      From the buffered entry point, `Table` is the pair `(rows, columns_with_types)`
      and `Nothing` is a reply that tests false (such as `None`).
      From the streaming entry point, `Table` is an iterator that yields
      `columns_with_types` first and then each row, and `Nothing` is an iterator
      that yields nothing at all. */
  datatype Reply = Table(rows: seq<Row>, columnsWithTypes: seq<ColumnSpec>) | Nothing

  /** What a cursor operation raises to its caller. */
  datatype Failure =
    | Error(message: string)           // the adapter's own `Error`: misuse of the cursor
    | OperationalError(cause: string)  // a driver error, wrapped at the one translation point
    | Propagated(message: string)      // a non-driver error from the client, unchanged
    | StopIteration                    // `next` on an iterator that yields nothing
    | TypeError                        // `next`, slicing or `islice` on a value that does not support it
    | AttributeError                   // `pop` on an iterator
    | ValueError                       // `islice` with a negative stop, or a failed tuple unpacking

  datatype Result<+T> = Ok(value: T) | Err(failure: Failure)

  const CursorIsClosed: string := "Cursor is closed"
  const NoQueryYet: string := "No query yet"

  function Min(a: int, b: int): int { if a <= b then a else b }

  function Max(a: int, b: int): int { if a <= b then b else a }
}
