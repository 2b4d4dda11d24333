/** Result metadata: splitting the client's `(name, type)` pairs into the
    cursor's column names and types, and the `description` built back from them. */
module Columns {
  import opened Types

  /** One entry of `description`: the column name, its type code and five slots
      the adapter fills with constants (display size, internal size, precision,
      scale, null-ok). */
  datatype ColumnDescription = ColumnDescription(
    name: string, typeCode: string,
    displaySize: Option<int>, internalSize: Option<int>,
    precision: Option<int>, scale: Option<int>, nullOk: bool)

  /** `zip(*columns_with_types)`: the names and the types, split positionally. */
  function Unzip(pairs: seq<ColumnSpec>): (r: (seq<string>, seq<string>))
    ensures |r.0| == |pairs| && |r.1| == |pairs|
    ensures forall i :: 0 <= i < |pairs| ==> pairs[i] == ColumnSpec(r.0[i], r.1[i])
  {
    if pairs == [] then ([], [])
    else
      var rest := Unzip(pairs[1..]);
      ([pairs[0].name] + rest.0, [pairs[0].typeName] + rest.1)
  }

  /** Python's `zip(names, types)`: pairs up to the shorter of the two. */
  function Zip(names: seq<string>, types: seq<string>): (r: seq<ColumnSpec>)
    ensures |r| == Min(|names|, |types|)
    ensures forall i :: 0 <= i < |r| ==> r[i] == ColumnSpec(names[i], types[i])
  {
    if names == [] || types == [] then []
    else [ColumnSpec(names[0], types[0])] + Zip(names[1..], types[1..])
  }

  /** Splitting the pairs and zipping them again gives back the pairs. */
  lemma ZipUnzip(pairs: seq<ColumnSpec>)
    ensures Zip(Unzip(pairs).0, Unzip(pairs).1) == pairs
  {
  }

  /** Zipping names and types of equal length and splitting them again gives
      back the names and the types. */
  lemma UnzipZip(names: seq<string>, types: seq<string>)
    requires |names| == |types|
    ensures Unzip(Zip(names, types)) == (names, types)
  {
    var split := Unzip(Zip(names, types));
    assert split.0 == names by {
      forall i | 0 <= i < |names| ensures split.0[i] == names[i] { }
    }
    assert split.1 == types by {
      forall i | 0 <= i < |types| ensures split.1[i] == types[i] { }
    }
  }

  /** The `description` list: one seven-slot entry per zipped column, in order. */
  function Describe(columns: seq<string>, types: seq<string>): (r: seq<ColumnDescription>)
    ensures |r| == Min(|columns|, |types|)
    ensures forall i :: 0 <= i < |r| ==>
      r[i] == ColumnDescription(columns[i], types[i], None, None, None, None, true)
  {
    if columns == [] || types == [] then []
    else
      [ColumnDescription(columns[0], types[0], None, None, None, None, true)]
      + Describe(columns[1..], types[1..])
  }

  /** After the client's pairs are split into columns and types, `description`
      has one entry per pair, carrying that pair's name and type. */
  lemma DescribeUnzipped(pairs: seq<ColumnSpec>)
    ensures |Describe(Unzip(pairs).0, Unzip(pairs).1)| == |pairs|
    ensures forall i :: 0 <= i < |pairs| ==>
      Describe(Unzip(pairs).0, Unzip(pairs).1)[i].name == pairs[i].name &&
      Describe(Unzip(pairs).0, Unzip(pairs).1)[i].typeCode == pairs[i].typeName
  {
  }
}
