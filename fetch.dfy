/** What the fetch calls do to the cursor's row source. The source is what
    `_rows` holds at run time: nothing yet (`None`), a materialised list, or a
    one-pass iterator, here its items and how many of them were consumed. The
    fetch calls choose their path by the cursor's streaming flag, not by what
    `_rows` holds, so every combination is given its Python outcome. */
module Fetch {
  import opened Types

  datatype RowSource = NoRows | Buffer(rows: seq<Row>) | Stream(items: seq<Row>, pos: nat)

  predicate WellFormed(src: RowSource)
  {
    src.Stream? ==> src.pos <= |src.items|
  }

  /** The rows a source can still hand out, in order. */
  function Remaining(src: RowSource): seq<Row>
    requires WellFormed(src)
  {
    match src
    case NoRows => []
    case Buffer(rows) => rows
    case Stream(items, pos) => items[pos..]
  }

  /** The source has the shape the streaming flag's path expects. */
  predicate Matches(streaming: bool, src: RowSource)
  {
    if streaming then src.Stream? else src.Buffer?
  }

  /** The adapter's own `Error` is raised only by its state checks, never by a fetch path. */
  predicate NoMisuse<T>(r: Result<T>)
  {
    r.Err? ==> !r.failure.Error?
  }

  /** What one fetch call returns and the row source it leaves behind. */
  datatype Step<T> = Step(result: Result<T>, source: RowSource)

  /** Where Python's `rows[:k]` stops on a list of length `n`: a negative `k`
      counts from the end. */
  function SliceStop(n: nat, k: int): (b: nat)
    ensures b <= n
  {
    if k >= 0 then Min(k, n) else Max(0, n + k)
  }

  /** `fetchone`: in the buffered path the first row is popped off the list, in
      the streaming path the next item is pulled from the iterator; an empty
      source gives `None` and stays as it is. */
  function FetchOneStep(streaming: bool, src: RowSource): (s: Step<Option<Row>>)
    requires WellFormed(src)
    ensures WellFormed(s.source) && NoMisuse(s.result)
    ensures Matches(streaming, src) ==> s.result.Ok? && Matches(streaming, s.source)
    ensures Matches(streaming, src) && Remaining(src) == [] ==>
      s.result.value == None && s.source == src
    ensures Matches(streaming, src) && Remaining(src) != [] ==>
      s.result.value == Some(Remaining(src)[0]) && Remaining(s.source) == Remaining(src)[1..]
    ensures !Matches(streaming, src) ==> s.source == src
    ensures streaming && !src.Stream? ==> s.result == Err(TypeError)
    ensures !streaming && src.Stream? ==> s.result == Err(AttributeError)
    ensures !streaming && src.NoRows? ==> s.result == Ok(None)
  {
    if streaming then
      match src
      case Stream(items, pos) =>
        if pos < |items| then Step(Ok(Some(items[pos])), Stream(items, pos + 1))
        else Step(Ok(None), src)
      case _ => Step(Err(TypeError), src)              // `next` on a list or on None
    else
      match src
      case Buffer(rows) =>
        if rows == [] then Step(Ok(None), src) else Step(Ok(Some(rows[0])), Buffer(rows[1..]))
      case NoRows => Step(Ok(None), src)               // `not None` holds
      case Stream(_, _) => Step(Err(AttributeError), src)  // an iterator has no `pop`
  }

  /** `sys.maxsize` on a 64-bit build: the largest stop `islice` accepts. */
  const MaxSize: int := 0x7fff_ffff_ffff_ffff

  /** `islice` takes a stop only in `0 ..= sys.maxsize`; any other integer is
      refused with ValueError before the iterable is looked at. */
  predicate IsliceStop(k: int)
  {
    0 <= k <= MaxSize
  }

  /** `fetchmany(size)`: in the buffered path the list is cut at Python's slice
      stop and its tail kept; in the streaming path at most `size` items are
      pulled, and a `size` outside `islice`'s range is refused. */
  function FetchManyStep(streaming: bool, src: RowSource, size: int): (s: Step<seq<Row>>)
    requires WellFormed(src)
    ensures WellFormed(s.source) && NoMisuse(s.result)
    ensures streaming && !IsliceStop(size) ==> s.result == Err(ValueError) && s.source == src
    ensures Matches(streaming, src) && (streaming ==> IsliceStop(size)) ==>
      s.result.Ok? && Matches(streaming, s.source) &&
      s.result.value + Remaining(s.source) == Remaining(src)
    ensures Matches(streaming, src) && size >= 0 && (streaming ==> size <= MaxSize) ==>
      |s.result.value| == Min(size, |Remaining(src)|)
    ensures Matches(streaming, src) && !streaming && size < 0 ==>
      |s.result.value| == Max(0, |Remaining(src)| + size)
    ensures !Matches(streaming, src) ==> s.source == src
  {
    if streaming then
      if !IsliceStop(size) then Step(Err(ValueError), src)
      else
        match src
        case Stream(items, pos) =>
          var n := Min(size, |items| - pos);
          assert items[pos..pos + n] + items[pos + n..] == items[pos..];
          Step(Ok(items[pos..pos + n]), Stream(items, pos + n))
        case Buffer(rows) => Step(Ok(rows[..Min(size, |rows|)]), src)  // `islice` over a list copies
        case NoRows => Step(Err(TypeError), src)
    else
      match src
      case Buffer(rows) =>
        var b := SliceStop(|rows|, size);
        assert rows[..b] + rows[b..] == rows;
        Step(Ok(rows[..b]), Buffer(rows[b..]))
      case _ => Step(Err(TypeError), src)              // neither None nor an iterator can be sliced
  }

  /** `fetchall`: everything the source still holds. The buffered path leaves an
      empty list (handing back whatever `_rows` was, `None` included); the
      streaming path drains the iterator, and over a list only copies it. */
  function FetchAllStep(streaming: bool, src: RowSource): (s: Step<Option<seq<Row>>>)
    requires WellFormed(src)
    ensures WellFormed(s.source) && NoMisuse(s.result)
    ensures Matches(streaming, src) ==>
      s.result == Ok(Some(Remaining(src))) && Matches(streaming, s.source) && Remaining(s.source) == []
    ensures !streaming ==> s.source == Buffer([]) && s.result.Ok?
    ensures !streaming && src.NoRows? ==> s.result == Ok(None)
    ensures streaming && !src.Stream? ==> s.source == src
    ensures streaming && src.Buffer? ==> s.result == Ok(Some(src.rows))
    ensures streaming && src.NoRows? ==> s.result == Err(TypeError)
  {
    if streaming then
      match src
      case Stream(items, pos) => Step(Ok(Some(items[pos..])), Stream(items, |items|))
      case Buffer(rows) => Step(Ok(Some(rows)), src)
      case NoRows => Step(Err(TypeError), src)
    else
      match src
      case Buffer(rows) => Step(Ok(Some(rows)), Buffer([]))
      case Stream(items, pos) => Step(Ok(Some(items[pos..])), Buffer([]))  // the iterator itself is handed back
      case NoRows => Step(Ok(None), Buffer([]))
  }

  /** A fetch call a caller may make. */
  datatype FetchCall = FetchOneCall | FetchManyCall(size: int) | FetchAllCall

  /** The rows one call hands out, as a list. */
  function Apply(streaming: bool, src: RowSource, call: FetchCall): (s: Step<seq<Row>>)
    requires WellFormed(src)
    ensures WellFormed(s.source)
  {
    match call
    case FetchOneCall =>
      var t := FetchOneStep(streaming, src);
      if t.result.Err? then Step(Err(t.result.failure), t.source)
      else if t.result.value.None? then Step(Ok([]), t.source)
      else Step(Ok([t.result.value.value]), t.source)
    case FetchManyCall(size) => FetchManyStep(streaming, src, size)
    case FetchAllCall =>
      var t := FetchAllStep(streaming, src);
      if t.result.Err? then Step(Err(t.result.failure), t.source)
      else if t.result.value.None? then Step(Ok([]), t.source)
      else Step(Ok(t.result.value.value), t.source)
  }

  /** A run of fetch calls: the rows they hand out, concatenated, up to the
      first call that raises. */
  function Run(streaming: bool, src: RowSource, calls: seq<FetchCall>): (s: Step<seq<Row>>)
    requires WellFormed(src)
    ensures WellFormed(s.source)
    decreases |calls|
  {
    if calls == [] then Step(Ok([]), src)
    else
      var first := Apply(streaming, src, calls[0]);
      if first.result.Err? then first
      else
        var rest := Run(streaming, first.source, calls[1..]);
        if rest.result.Err? then rest
        else Step(Ok(first.result.value + rest.result.value), rest.source)
  }

  /** The calls the path accepts: the streaming path refuses a size outside
      `islice`'s range. */
  predicate Allowed(streaming: bool, calls: seq<FetchCall>)
  {
    streaming ==> forall i :: 0 <= i < |calls| && calls[i].FetchManyCall? ==> IsliceStop(calls[i].size)
  }

  /** One accepted call hands out a prefix of what is left and leaves the rest. */
  lemma ApplySplits(streaming: bool, src: RowSource, call: FetchCall)
    requires WellFormed(src) && Matches(streaming, src)
    requires streaming && call.FetchManyCall? ==> IsliceStop(call.size)
    ensures var s := Apply(streaming, src, call);
      s.result.Ok? && Matches(streaming, s.source) &&
      s.result.value + Remaining(s.source) == Remaining(src)
  {
  }

  /** Fetch calls in any combination hand out the rows in their original order,
      each exactly once: what they return, followed by what is left, is what
      the source held. */
  lemma {:induction false} FetchesConcatenate(streaming: bool, src: RowSource, calls: seq<FetchCall>)
    requires WellFormed(src) && Matches(streaming, src) && Allowed(streaming, calls)
    ensures var s := Run(streaming, src, calls);
      s.result.Ok? && Matches(streaming, s.source) &&
      s.result.value + Remaining(s.source) == Remaining(src)
    decreases |calls|
  {
    if calls != [] {
      ApplySplits(streaming, src, calls[0]);
      var first := Apply(streaming, src, calls[0]);
      FetchesConcatenate(streaming, first.source, calls[1..]);
      var rest := Run(streaming, first.source, calls[1..]);
      assert first.result.value + rest.result.value + Remaining(rest.source)
          == first.result.value + (rest.result.value + Remaining(rest.source));
    }
  }

  /** Any accepted fetch calls followed by `fetchall` return exactly the rows
      the source held, in order, and leave it exhausted. */
  lemma {:induction false} FetchAllCompletes(streaming: bool, src: RowSource, calls: seq<FetchCall>)
    requires WellFormed(src) && Matches(streaming, src) && Allowed(streaming, calls)
    ensures var s := Run(streaming, src, calls + [FetchAllCall]);
      s.result == Ok(Remaining(src)) && Matches(streaming, s.source) && Remaining(s.source) == []
    decreases |calls|
  {
    if calls == [] {
      assert [FetchAllCall][1..] == [];
      var first := Apply(streaming, src, FetchAllCall);
      assert first.result.value + [] == Remaining(src);
    } else {
      var all := calls + [FetchAllCall];
      assert all[0] == calls[0] && all[1..] == calls[1..] + [FetchAllCall];
      ApplySplits(streaming, src, calls[0]);
      var first := Apply(streaming, src, calls[0]);
      assert Allowed(streaming, calls[1..]) by {
        if streaming {
          forall i | 0 <= i < |calls[1..]| && calls[1..][i].FetchManyCall?
            ensures IsliceStop(calls[1..][i].size)
          {
            assert calls[1..][i] == calls[i + 1];
          }
        }
      }
      FetchAllCompletes(streaming, first.source, calls[1..]);
    }
  }
}
