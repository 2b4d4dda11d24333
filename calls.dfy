/** The call configuration the cursor hands to the underlying client, and the
    single point where the client's failures are translated. */
module Calls {
  import opened Types
  import opened ExternalTables

  /** The client's buffered entry point (`execute`) or its streaming one
      (`execute_iter`). */
  datatype EntryPoint = ClientExecute | ClientExecuteIter

  /** The `params` argument: one parameter set, or a sequence of them for a
      bulk call. */
  datatype Arguments = Single(params: Params) | Batch(paramSets: seq<Params>)

  /** The entry point chosen and the keyword arguments built by `_prepare`. */
  datatype CallConfig = CallConfig(
    entry: EntryPoint,
    settings: Option<Settings>,
    externalTables: Option<seq<TableRecord>>,
    typesCheck: bool)

  /** One call into the client. `withColumnTypes` is `None` when the keyword
      is not passed at all. */
  datatype Call = Call(operation: string, params: Arguments, withColumnTypes: Option<bool>, config: CallConfig)

  const MaxBlockSize: string := "max_block_size"

  function EntryFor(streaming: bool): EntryPoint
  {
    if streaming then ClientExecuteIter else ClientExecute
  }

  /** The settings after `_prepare`: untouched in buffered mode; in streaming
      mode a map (a fresh one when there was none) whose `max_block_size` is the
      row-buffer size and whose every other key is as it was. */
  function PreparedSettings(streaming: bool, maxRowBuffer: int, settings: Option<Settings>): (r: Option<Settings>)
    ensures !streaming ==> r == settings
    ensures streaming ==> r.Some? && MaxBlockSize in r.value && r.value[MaxBlockSize] == Int(maxRowBuffer)
    ensures streaming ==> forall k :: k != MaxBlockSize ==>
      (k in r.value <==> settings.Some? && k in settings.value)
    ensures streaming ==> forall k :: k in r.value && k != MaxBlockSize ==>
      settings.Some? && r.value[k] == settings.value[k]
  {
    if streaming then
      var base := if settings.Some? then settings.value else map[];
      Some(base[MaxBlockSize := Int(maxRowBuffer)])
    else settings
  }

  /** The prepared settings are written back to the cursor, so preparing them
      again for the next query changes nothing further. */
  lemma PreparedSettingsStable(streaming: bool, maxRowBuffer: int, settings: Option<Settings>)
    ensures PreparedSettings(streaming, maxRowBuffer, PreparedSettings(streaming, maxRowBuffer, settings))
         == PreparedSettings(streaming, maxRowBuffer, settings)
  {
    if streaming {
      var once := PreparedSettings(streaming, maxRowBuffer, settings);
      var twice := PreparedSettings(streaming, maxRowBuffer, once);
      assert twice.value.Keys == once.value.Keys;
      assert twice.value == once.value;
    }
  }

  /** The one translation point: a driver error becomes an OperationalError
      carrying it, any other error passes through as it was. */
  function Translate(e: ClientError): (f: Failure)
    ensures f.OperationalError? <==> e.DriverError?
    ensures f.OperationalError? || f.Propagated?
    ensures (f.OperationalError? && f.cause == e.message) || (f.Propagated? && f.message == e.message)
  {
    match e
    case DriverError(m) => OperationalError(m)
    case OtherError(m) => Propagated(m)
  }
}
