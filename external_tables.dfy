/** The cursor's external-table registry: a dictionary from table name to
    `(structure, data)`, and the list of records handed to the client with each
    query. The dictionary is held as a sequence of items in insertion order; the
    iteration order of the Python 2 dictionary is unspecified (it follows the
    hashes of the keys), so the order is the model's own choice, and only the
    set of names and what each name holds are properties of the source. */
module ExternalTables {
  import opened Types

  datatype ExternalTable = ExternalTable(structure: seq<ColumnSpec>, data: seq<Row>)

  /** One dictionary item, `name: (structure, data)`. */
  datatype Entry = Entry(name: string, table: ExternalTable)

  /** One `{'name': ..., 'structure': ..., 'data': ...}` record sent to the client. */
  datatype TableRecord = TableRecord(name: string, structure: seq<ColumnSpec>, data: seq<Row>)

  /** The keys of the dictionary, in the model's (insertion) order. */
  function Names(entries: seq<Entry>): (r: seq<string>)
    ensures |r| == |entries|
    ensures forall i :: 0 <= i < |entries| ==> r[i] == entries[i].name
  {
    if entries == [] then [] else [entries[0].name] + Names(entries[1..])
  }

  /** A dictionary holds each key once. */
  predicate DistinctNames(entries: seq<Entry>)
  {
    forall i, j :: 0 <= i < j < |entries| ==> entries[i].name != entries[j].name
  }

  /** `tables.get(name)`. */
  function Lookup(entries: seq<Entry>, name: string): (r: Option<ExternalTable>)
    ensures r.Some? <==> name in Names(entries)
  {
    if entries == [] then None
    else if entries[0].name == name then Some(entries[0].table)
    else Lookup(entries[1..], name)
  }

  /** `tables[name] = table`: an existing key takes the new value, a new key is
      added. In the model's representation an existing key keeps its position
      and a new key goes at the end. */
  function Upsert(entries: seq<Entry>, name: string, table: ExternalTable): (r: seq<Entry>)
    ensures |r| == if name in Names(entries) then |entries| else |entries| + 1
  {
    if entries == [] then [Entry(name, table)]
    else if entries[0].name == name then [Entry(name, table)] + entries[1..]
    else [entries[0]] + Upsert(entries[1..], name, table)
  }

  /** The last registration under a name is the one the registry holds. */
  lemma {:induction false} UpsertWins(entries: seq<Entry>, name: string, table: ExternalTable)
    ensures Lookup(Upsert(entries, name, table), name) == Some(table)
  {
    if entries != [] && entries[0].name != name {
      UpsertWins(entries[1..], name, table);
    }
  }

  /** Registering one name leaves what every other name holds unchanged. */
  lemma {:induction false} UpsertKeepsOthers(entries: seq<Entry>, name: string, table: ExternalTable, other: string)
    requires other != name
    ensures Lookup(Upsert(entries, name, table), other) == Lookup(entries, other)
  {
    if entries != [] && entries[0].name != name && entries[0].name != other {
      UpsertKeepsOthers(entries[1..], name, table, other);
    }
  }

  /** In the model's representation, registering keeps the positions of the
      existing names and appends a new one. */
  lemma {:induction false} UpsertOrder(entries: seq<Entry>, name: string, table: ExternalTable)
    ensures Names(Upsert(entries, name, table)) ==
            if name in Names(entries) then Names(entries) else Names(entries) + [name]
  {
    if entries != [] {
      assert Names(entries) == [entries[0].name] + Names(entries[1..]);
      if entries[0].name != name {
        UpsertOrder(entries[1..], name, table);
        assert name in Names(entries) <==> name in Names(entries[1..]);
      }
    }
  }

  /** After registering, the dictionary holds exactly its old names and the
      registered one, whatever the order. */
  lemma {:induction false} UpsertNames(entries: seq<Entry>, name: string, table: ExternalTable)
    ensures forall n :: n in Names(Upsert(entries, name, table)) <==> n in Names(entries) || n == name
  {
    UpsertOrder(entries, name, table);
  }

  /** Registering keeps every name held once. */
  lemma UpsertDistinct(entries: seq<Entry>, name: string, table: ExternalTable)
    requires DistinctNames(entries)
    ensures DistinctNames(Upsert(entries, name, table))
  {
    var r := Upsert(entries, name, table);
    UpsertOrder(entries, name, table);
    forall i, j | 0 <= i < j < |r| ensures r[i].name != r[j].name {
      assert Names(r)[i] == r[i].name && Names(r)[j] == r[j].name;
      if name !in Names(entries) && j == |entries| {
        assert Names(r)[i] == Names(entries)[i];
        assert Names(entries)[i] in Names(entries);
      } else {
        assert Names(r)[i] == entries[i].name && Names(r)[j] == entries[j].name;
      }
    }
  }

  /** Registering the same name twice is registering it once with the second
      table: nothing of the first registration survives. */
  lemma {:induction false} UpsertTwice(entries: seq<Entry>, name: string, first: ExternalTable, second: ExternalTable)
    ensures Upsert(Upsert(entries, name, first), name, second) == Upsert(entries, name, second)
  {
    if entries != [] && entries[0].name != name {
      UpsertTwice(entries[1..], name, first, second);
    }
  }

  /** In a dictionary each name is held once, so the entry at any position
      carrying a name is what a lookup of that name finds. */
  lemma {:induction false} LookupAt(entries: seq<Entry>, i: nat)
    requires DistinctNames(entries) && i < |entries|
    ensures Lookup(entries, entries[i].name) == Some(entries[i].table)
  {
    if i > 0 {
      assert entries[0].name != entries[i].name;
      assert entries[1..][i - 1] == entries[i];
      LookupAt(entries[1..], i - 1);
    }
  }

  /** The records sent to the client, one per item, in the order of the items. */
  function Records(entries: seq<Entry>): (r: seq<TableRecord>)
    ensures |r| == |entries|
    ensures forall i :: 0 <= i < |entries| ==>
      r[i] == TableRecord(entries[i].name, entries[i].table.structure, entries[i].table.data)
  {
    if entries == [] then []
    else [TableRecord(entries[0].name, entries[0].table.structure, entries[0].table.data)]
         + Records(entries[1..])
  }

  /** The `external_tables` argument as the adapter means to build it
      (iterating the dictionary's items): no list at all when no table is
      registered, otherwise one record per registered table. */
  function TablesArgument(entries: seq<Entry>): (r: Option<seq<TableRecord>>)
    ensures r.None? <==> entries == []
    ensures r.Some? ==> |r.value| == |entries|
    ensures r.Some? ==> forall i :: 0 <= i < |entries| ==>
      r.value[i] == TableRecord(entries[i].name, entries[i].table.structure, entries[i].table.data)
  {
    if entries == [] then None else Some(Records(entries))
  }

  /** Python's `a, b = v` for a string `v`: a string unpacks into its
      one-character strings, so it fills two targets only when it has exactly
      two characters, and raises ValueError otherwise. */
  function UnpackPair(v: string): (r: Result<(string, string)>)
    ensures r.Ok? <==> |v| == 2
    ensures r.Ok? ==> |r.value.0| == 1 && |r.value.1| == 1 && r.value.0 + r.value.1 == v
    ensures r.Err? ==> r.failure == ValueError
  {
    if |v| == 2 then Ok(([v[0]], [v[1]])) else Err(ValueError)
  }

  /** Python's `name, (structure, data) = key` for a key string: the outer
      pair first, then the inner pair from its second part. */
  function UnpackKey(key: string): Result<(string, string, string)>
  {
    match UnpackPair(key)
    case Err(f) => Err(f)
    case Ok((name, inner)) =>
      match UnpackPair(inner)
      case Err(f) => Err(f)
      case Ok((structure, data)) => Ok((name, structure, data))
  }

  /** No key string unpacks into `name, (structure, data)`: a key of two
      characters leaves a one-character string for the inner pair, any other
      key already fails the outer one. */
  lemma UnpackKeyFails(key: string)
    ensures UnpackKey(key) == Err(ValueError)
  {
    if |key| == 2 {
      var outer := UnpackPair(key);
      assert |outer.value.1| == 1;
      assert UnpackPair(outer.value.1) == Err(ValueError);
    }
  }

  /** The record the comprehension would build from an unpacked key: its
      fields are the strings the unpacking produced. */
  datatype KeyRecord = KeyRecord(name: string, structure: string, data: string)

  /** `[{'name': name, 'structure': structure, 'data': data} for name,
      (structure, data) in keys]`: the keys are unpacked in order and the first
      failure escapes. */
  function KeyRecords(keys: seq<string>): (r: Result<seq<KeyRecord>>)
    ensures r.Ok? <==> keys == []
    ensures r.Ok? ==> r.value == []
    ensures r.Err? ==> r.failure == ValueError
  {
    if keys == [] then Ok([])
    else
      var rest := KeyRecords(keys[1..]);
      UnpackKeyFails(keys[0]);
      match UnpackKey(keys[0])
      case Err(f) => Err(f)
      case Ok((name, structure, data)) =>
        match rest
        case Err(f) => Err(f)
        case Ok(tail) => Ok([KeyRecord(name, structure, data)] + tail)
  }

  /** The `external_tables` argument as the source builds it: the comprehension
      iterates the dictionary itself, which yields its keys, and an empty list
      becomes `None` through `or None`. Since no key unpacks, any registered
      table makes the argument fail with ValueError. */
  function TablesArgumentAsWritten(entries: seq<Entry>): (r: Result<Option<seq<KeyRecord>>>)
    ensures r.Ok? <==> entries == []
    ensures r.Ok? ==> r.value == None
    ensures r.Err? ==> r.failure == ValueError
  {
    match KeyRecords(Names(entries))
    case Err(f) => Err(f)
    case Ok(records) => Ok(if records == [] then None else Some(records))
  }

  /** The discrepancy: a table registered with `set_external_table` makes the
      source's argument fail, where the intended argument carries it. */
  lemma AsWrittenRejectsRegisteredTable()
    ensures var entries := Upsert([], "x", ExternalTable([ColumnSpec("a", "Int32")], [[Int(1)]]));
      TablesArgumentAsWritten(entries) == Err(ValueError) &&
      TablesArgument(entries) == Some([TableRecord("x", [ColumnSpec("a", "Int32")], [[Int(1)]])])
  {
    var table := ExternalTable([ColumnSpec("a", "Int32")], [[Int(1)]]);
    assert Upsert([], "x", table) == [Entry("x", table)];
    var sent := TablesArgument([Entry("x", table)]);
    assert |sent.value| == 1 && sent.value[0] == TableRecord("x", table.structure, table.data);
    assert sent.value == [TableRecord("x", table.structure, table.data)];
  }

  /** A name the registry holds sits at some position. */
  lemma {:induction false} PositionOf(entries: seq<Entry>, name: string) returns (k: nat)
    requires name in Names(entries)
    ensures k < |entries| && entries[k].name == name
  {
    if entries[0].name == name {
      k := 0;
    } else {
      assert Names(entries) == [entries[0].name] + Names(entries[1..]);
      var j := PositionOf(entries[1..], name);
      k := j + 1;
    }
  }

  /** Registering a name twice and then querying sends the second table under
      that name, and no record under that name carries anything else. */
  lemma {:induction false} SecondRegistrationSent(entries: seq<Entry>, name: string, first: ExternalTable, second: ExternalTable)
    requires DistinctNames(entries)
    ensures TablesArgument(Upsert(Upsert(entries, name, first), name, second)).Some?
    ensures var sent := TablesArgument(Upsert(Upsert(entries, name, first), name, second)).value;
      exists i :: 0 <= i < |sent| && sent[i] == TableRecord(name, second.structure, second.data)
    ensures var sent := TablesArgument(Upsert(Upsert(entries, name, first), name, second)).value;
      forall i :: 0 <= i < |sent| && sent[i].name == name ==>
        sent[i] == TableRecord(name, second.structure, second.data)
  {
    UpsertTwice(entries, name, first, second);
    var after := Upsert(entries, name, second);
    UpsertDistinct(entries, name, second);
    UpsertWins(entries, name, second);
    var sent := TablesArgument(after).value;
    var k := PositionOf(after, name);
    LookupAt(after, k);
    assert sent[k] == TableRecord(name, second.structure, second.data);
    forall i | 0 <= i < |sent| && sent[i].name == name
      ensures sent[i] == TableRecord(name, second.structure, second.data)
    {
      LookupAt(after, i);
    }
  }
}
