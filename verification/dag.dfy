/**
 * The per-entity tasks of dags/CosentialDAG.py: `process_entity` (resolve the
 * change set, materialize records and sub-arrays, stage them as blobs) and
 * `process_entity_tables` (read a staged blob per table, project each record
 * onto the table's columns, load the rows).
 */
module Dag {
  import opened Wrappers
  import opened Json
  import opened Paging
  import opened Changes
  import opened Materialize
  import opened Paths

  /** A column of a table schema; only its name matters to the projection. */
  datatype Column = Column(name: string, sqlType: string)

  /** One entry of an entity's `tables` list. */
  datatype TableSpec = TableSpec(tableName: string, fileName: string, columns: seq<Column>)

  /** One entry of the schema's `Entities` list. */
  datatype EntitySchema = EntitySchema(entity: string, tables: seq<TableSpec>)

  /** One entry of the entity-arrays metadata: the sub-arrays to pull for an entity. */
  datatype EntityArrays = EntityArrays(entity: string, arrays: seq<string>)

  /** A positional row, one value per column. */
  type Row = seq<Value>

  /** One `write_data_azure_sql(transformed_data, table_name, columns)` call. */
  datatype TableLoad = TableLoad(tableName: string, rows: seq<Row>, columns: seq<Column>)

  /** One `write_data_azure_storage` call: the blob path it writes to (the entity joined with the given name) and the records it serialises. */
  datatype BlobWrite = BlobWrite(path: string, records: seq<Value>)

  /**
   * Why `process_entity_tables` raised: the blob it was reading came back falsy
   * or held records that cannot be projected, or `write_data_azure_sql`, which
   * catches nothing, raised while loading a table.
   */
  datatype LoadError = EmptyRead(blob: string) | NotRecords(blob: string) | LoadFailed(table: string)

  /** What `process_entity_tables` did: the loads it performed, and the error that stopped it, if any. */
  datatype LoadRun = LoadRun(loads: seq<TableLoad>, error: Option<LoadError>)

  /** The blob store read: the decoded JSON at a path, or `False` (`Bool(false)`) when the read fails. */
  type Read = string -> Value

  /** The SQL load `write_data_azure_sql`: true when it returns, false when it raises (an unknown column type, a connection or insert error). */
  type Load = TableLoad -> bool

  /** `tuple(item.get(column['name']) for column in columns)` for one record. */
  function ProjectRecord(item: Value, columns: seq<Column>): Row
    requires item.Obj?
  {
    seq(|columns|, j requires 0 <= j < |columns| => GetOrNull(item, columns[j].name))
  }

  /** How many elements `for item in data` visits, or None when `data` is not iterable. */
  function IterationLength(data: Value): Option<nat>
  {
    match data
    case Arr(items) => Some(|items|)
    case Obj(fields) => Some(|fields|)
    case Str(s) => Some(|s|)
    case _ => None
  }

  /**
   * The comprehension that turns the staged records into rows, or None when it
   * raises. With no columns `.get` is never called, so any iterable gives one
   * empty row per element.
   */
  function Project(data: Value, columns: seq<Column>): (rows: Option<seq<Row>>)
    ensures rows.Some? ==> IterationLength(data).Some? && |rows.value| == IterationLength(data).value
  {
    if columns == [] then
      match IterationLength(data)
      case None => None
      case Some(n) => Some(seq(n, i => []))
    else if data.Arr? && forall i :: 0 <= i < |data.items| ==> data.items[i].Obj? then
      Some(seq(|data.items|, i requires 0 <= i < |data.items| => ProjectRecord(data.items[i], columns)))
    else None
  }

  /**
   * Projection succeeds exactly when every record can be asked for its
   * columns; it then gives one row per record, one cell per column, holding
   * the record's value for that column or `None` (`Null`) when it lacks it.
   */
  lemma ProjectRows(data: Value, columns: seq<Column>)
    ensures var rows := Project(data, columns);
            && (columns != [] ==> (rows.Some? <==> data.Arr? && forall i :: 0 <= i < |data.items| ==> data.items[i].Obj?))
            && (columns == [] ==> (rows.Some? <==> IterationLength(data).Some?))
            && (rows.Some? ==> |rows.value| == IterationLength(data).value)
            && (rows.Some? ==> forall i :: 0 <= i < |rows.value| ==> |rows.value[i]| == |columns|)
            && (rows.Some? && columns != [] ==>
                  forall i, j :: 0 <= i < |rows.value| && 0 <= j < |columns| ==>
                    && (columns[j].name in data.items[i].fields ==> rows.value[i][j] == data.items[i].fields[columns[j].name])
                    && (columns[j].name !in data.items[i].fields ==> rows.value[i][j] == Null))
  {
  }

  /** The tables of every schema entry for `entity`, in schema order; other entries contribute nothing. */
  function MatchingTables(schema: seq<EntitySchema>, entity: string): seq<TableSpec>
  {
    if schema == [] then []
    else
      var last := schema[|schema| - 1];
      MatchingTables(schema[..|schema| - 1], entity) + (if last.entity == entity then last.tables else [])
  }

  /** Only the entries whose `Entity` is the entity's name are processed. */
  lemma {:induction false} MatchingTablesOnly(schema: seq<EntitySchema>, entity: string, t: TableSpec)
    ensures t in MatchingTables(schema, entity) <==>
              exists k :: 0 <= k < |schema| && schema[k].entity == entity && t in schema[k].tables
  {
    if schema != [] {
      var prefix := schema[..|schema| - 1];
      MatchingTablesOnly(prefix, entity, t);
      if exists k :: 0 <= k < |prefix| && prefix[k].entity == entity && t in prefix[k].tables {
        var k :| 0 <= k < |prefix| && prefix[k].entity == entity && t in prefix[k].tables;
        assert schema[k] == prefix[k];
      }
      if exists k :: 0 <= k < |schema| && schema[k].entity == entity && t in schema[k].tables {
        var k :| 0 <= k < |schema| && schema[k].entity == entity && t in schema[k].tables;
        if k < |prefix| {
          assert prefix[k] == schema[k];
        }
      }
    }
  }

  /**
   * The blob a table is read from, under the partition path `datePath`:
   * `os.path.join(entity_name, year, month, day, leaf)`, grouped as the entity,
   * then the partition, then the leaf (see TableBlobIsBlobName).
   */
  function TableBlob(entity: string, datePath: string, fileName: string): string
  {
    Join(Join(entity, datePath), Leaf(fileName))
  }

  /** Grouping the partition components together names the same blob as joining them one by one. */
  lemma TableBlobIsBlobName(entity: string, d: Date, fileName: string)
    requires ValidDate(d)
    ensures TableBlob(entity, PartitionPath(d), fileName) == BlobName(entity, d, fileName)
  {
    BlobNameIsWritePath(entity, d, fileName);
    JoinAssociates(entity, PartitionPath(d), Leaf(fileName));
  }

  /** One table: read its blob, raise on a falsy read or on records that cannot be projected, otherwise load the projected rows, which may raise too. */
  function LoadTable(read: Read, sql: Load, entity: string, datePath: string, t: TableSpec): Result<TableLoad, LoadError>
  {
    var blob := TableBlob(entity, datePath, t.fileName);
    var data := read(blob);
    if !Truthy(data) then Err(EmptyRead(blob))
    else
      match Project(data, t.columns)
      case None => Err(NotRecords(blob))
      case Some(rows) =>
        var load := TableLoad(t.tableName, rows, t.columns);
        if sql(load) then Ok(load) else Err(LoadFailed(t.tableName))
  }

  /**
   * One table succeeds exactly when its blob reads truthy, its records project
   * and the SQL load returns; the load then carries the table's name, its
   * columns and the projected rows. A falsy read is reported with the blob name.
   */
  lemma LoadTableCases(read: Read, sql: Load, entity: string, datePath: string, t: TableSpec)
    ensures var blob := TableBlob(entity, datePath, t.fileName);
            var r := LoadTable(read, sql, entity, datePath, t);
            && (r == Err(EmptyRead(blob)) <==> !Truthy(read(blob)))
            && (r.Ok? <==> Truthy(read(blob)) && Project(read(blob), t.columns).Some? &&
                           sql(TableLoad(t.tableName, Project(read(blob), t.columns).value, t.columns)))
            && (r.Ok? ==> r.value == TableLoad(t.tableName, Project(read(blob), t.columns).value, t.columns))
  {
  }

  /** Loading `tables` in order until the first one that raises. */
  function LoadTables(read: Read, sql: Load, entity: string, datePath: string, tables: seq<TableSpec>): LoadRun
  {
    if tables == [] then LoadRun([], None)
    else
      var run := LoadTables(read, sql, entity, datePath, tables[..|tables| - 1]);
      if run.error.Some? then run
      else
        match LoadTable(read, sql, entity, datePath, tables[|tables| - 1])
        case Err(e) => LoadRun(run.loads, Some(e))
        case Ok(load) => LoadRun(run.loads + [load], None)
  }

  /**
   * Tables are loaded in order, one load per table, until the first table whose
   * read is falsy, whose records cannot be projected or whose SQL load raises: that table and every
   * later one load nothing, and the run reports that table's error.
   */
  lemma {:induction false} LoadTablesOutcome(read: Read, sql: Load, entity: string, datePath: string, tables: seq<TableSpec>)
    ensures var run := LoadTables(read, sql, entity, datePath, tables);
            && (run.error.None? ==> |run.loads| == |tables|)
            && (run.error.Some? ==> |run.loads| < |tables| && LoadTable(read, sql, entity, datePath, tables[|run.loads|]) == Err(run.error.value))
            && (forall i :: 0 <= i < |run.loads| ==> LoadTable(read, sql, entity, datePath, tables[i]) == Ok(run.loads[i]))
  {
    if tables != [] {
      var prefix := tables[..|tables| - 1];
      LoadTablesOutcome(read, sql, entity, datePath, prefix);
      assert forall i :: 0 <= i < |prefix| ==> prefix[i] == tables[i];
    }
  }

  /** Once a prefix of the tables has raised, the later tables change nothing. */
  lemma {:induction false} ErrorIsFinal(read: Read, sql: Load, entity: string, datePath: string, done: seq<TableSpec>, tables: seq<TableSpec>)
    requires done <= tables
    requires LoadTables(read, sql, entity, datePath, done).error.Some?
    ensures LoadTables(read, sql, entity, datePath, tables) == LoadTables(read, sql, entity, datePath, done)
  {
    if |tables| > |done| {
      var prefix := tables[..|tables| - 1];
      assert done <= prefix;
      ErrorIsFinal(read, sql, entity, datePath, done, prefix);
    } else {
      assert done == tables;
    }
  }

  /** The matching tables of a schema prefix are a prefix of the matching tables of the schema. */
  lemma {:induction false} MatchingTablesPrefix(schema: seq<EntitySchema>, entity: string, n: nat)
    requires n <= |schema|
    ensures MatchingTables(schema[..n], entity) <= MatchingTables(schema, entity)
    decreases |schema| - n
  {
    if n < |schema| {
      MatchingTablesPrefix(schema, entity, n + 1);
      assert schema[..n + 1][..n] == schema[..n];
    } else {
      assert schema[..n] == schema;
    }
  }

  /** Loading one more table after a run that has not raised. */
  lemma LoadTablesSnoc(read: Read, sql: Load, entity: string, datePath: string, tables: seq<TableSpec>, t: TableSpec)
    requires LoadTables(read, sql, entity, datePath, tables).error.None?
    ensures LoadTables(read, sql, entity, datePath, tables + [t]) ==
              match LoadTable(read, sql, entity, datePath, t)
              case Err(e) => LoadRun(LoadTables(read, sql, entity, datePath, tables).loads, Some(e))
              case Ok(load) => LoadRun(LoadTables(read, sql, entity, datePath, tables).loads + [load], None)
  {
    assert (tables + [t])[..|tables|] == tables;
  }

  /**
   * The inner loop of `process_entity_tables` over one schema entry's tables,
   * continuing a run that has loaded `done` without raising.
   */
  method LoadEntryTables(read: Read, sql: Load, entityName: string, datePath: string, ghost done: seq<TableSpec>,
                         tables: seq<TableSpec>, loadsBefore: seq<TableLoad>)
    returns (loads: seq<TableLoad>, error: Option<LoadError>)
    requires LoadTables(read, sql, entityName, datePath, done) == LoadRun(loadsBefore, None)
    ensures LoadRun(loads, error) == LoadTables(read, sql, entityName, datePath, done + tables)
  {
    loads, error := loadsBefore, None;
    assert done + tables[..0] == done;
    for j := 0 to |tables|
      invariant LoadTables(read, sql, entityName, datePath, done + tables[..j]) == LoadRun(loads, None)
    {
      var table := tables[j];
      LoadStep(read, sql, entityName, datePath, done, tables, j);
      var blobName := TableBlob(entityName, datePath, table.fileName);
      var opp := read(blobName);
      if !Truthy(opp) {
        error := Some(EmptyRead(blobName));
        return;
      }
      var transformed := Project(opp, table.columns);
      if transformed.None? {
        error := Some(NotRecords(blobName));
        return;
      }
      var load := TableLoad(table.tableName, transformed.value, table.columns);
      var loaded := sql(load);
      if !loaded {
        error := Some(LoadFailed(table.tableName));
        return;
      }
      loads := loads + [load];
    }
    assert tables[..|tables|] == tables;
  }

  /** Extending a slice by one element. */
  lemma ExtendSlice<T>(xs: seq<T>, ys: seq<T>, j: nat)
    requires j < |ys|
    ensures xs + ys[..j + 1] == (xs + ys[..j]) + [ys[j]]
    ensures xs + ys[..j + 1] <= xs + ys
  {
    assert ys[..j + 1] == ys[..j] + [ys[j]];
  }

  /** One iteration of the inner loop: a table that raises ends the whole run, one that loads extends it. */
  lemma LoadStep(read: Read, sql: Load, entity: string, datePath: string, done: seq<TableSpec>, tables: seq<TableSpec>, j: nat)
    requires j < |tables|
    requires LoadTables(read, sql, entity, datePath, done + tables[..j]).error.None?
    ensures var before := LoadTables(read, sql, entity, datePath, done + tables[..j]);
            match LoadTable(read, sql, entity, datePath, tables[j])
            case Err(e) => LoadTables(read, sql, entity, datePath, done + tables) == LoadRun(before.loads, Some(e))
            case Ok(load) => LoadTables(read, sql, entity, datePath, done + tables[..j + 1]) == LoadRun(before.loads + [load], None)
  {
    var current := done + tables[..j + 1];
    ExtendSlice(done, tables, j);
    LoadTablesSnoc(read, sql, entity, datePath, done + tables[..j], tables[j]);
    if LoadTable(read, sql, entity, datePath, tables[j]).Err? {
      ErrorIsFinal(read, sql, entity, datePath, current, done + tables);
    }
  }

  /**
   * `process_entity_tables`: for every schema entry of the entity, for every
   * table, read the table's blob, raise `ValueError` if the read is falsy,
   * project the records and load them.
   */
  method ProcessEntityTables(read: Read, sql: Load, schema: seq<EntitySchema>, entityName: string, d: Date)
    returns (loads: seq<TableLoad>, error: Option<LoadError>)
    requires ValidDate(d)
    ensures LoadRun(loads, error) == LoadTables(read, sql, entityName, PartitionPath(d), MatchingTables(schema, entityName))
  {
    var datePath := PartitionPath(d);
    ghost var all := MatchingTables(schema, entityName);
    loads, error := [], None;
    for i := 0 to |schema|
      invariant error.None?
      invariant LoadTables(read, sql, entityName, datePath, MatchingTables(schema[..i], entityName)) == LoadRun(loads, None)
    {
      ghost var done := MatchingTables(schema[..i], entityName);
      var entry := schema[i];
      assert schema[..i + 1][..i] == schema[..i];
      if entry.entity == entityName {
        assert MatchingTables(schema[..i + 1], entityName) == done + entry.tables;
        loads, error := LoadEntryTables(read, sql, entityName, datePath, done, entry.tables, loads);
        if error.Some? {
          assert done + entry.tables <= all by {
            MatchingTablesPrefix(schema, entityName, i + 1);
          }
          ErrorIsFinal(read, sql, entityName, datePath, done + entry.tables, all);
          return;
        }
      } else {
        assert MatchingTables(schema[..i + 1], entityName) == done;
      }
    }
    assert schema[..|schema|] == schema;
  }

  /** The sub-array names of every entity-arrays entry for `entity`, in order; other entries contribute nothing. */
  function MatchingArrays(entries: seq<EntityArrays>, entity: string): seq<string>
  {
    if entries == [] then []
    else
      var last := entries[|entries| - 1];
      MatchingArrays(entries[..|entries| - 1], entity) + (if last.entity == entity then last.arrays else [])
  }

  /** Only the entries whose `Entity` is the entity's name are processed. */
  lemma {:induction false} MatchingArraysOnly(entries: seq<EntityArrays>, entity: string, a: string)
    ensures a in MatchingArrays(entries, entity) <==>
              exists k :: 0 <= k < |entries| && entries[k].entity == entity && a in entries[k].arrays
  {
    if entries != [] {
      var prefix := entries[..|entries| - 1];
      MatchingArraysOnly(prefix, entity, a);
      if exists k :: 0 <= k < |prefix| && prefix[k].entity == entity && a in prefix[k].arrays {
        var k :| 0 <= k < |prefix| && prefix[k].entity == entity && a in prefix[k].arrays;
        assert entries[k] == prefix[k];
      }
      if exists k :: 0 <= k < |entries| && entries[k].entity == entity && a in entries[k].arrays {
        var k :| 0 <= k < |entries| && entries[k].entity == entity && a in entries[k].arrays;
        if k < |prefix| {
          assert prefix[k] == entries[k];
        }
      }
    }
  }

  /** The path `write_data_azure_storage` writes for a blob name under the run's partition. */
  function StagedPath(e: EntityEndpoint, blobPath: string, name: string): string
  {
    Join(e.entity, Join(blobPath, name))
  }

  /** Every staged blob's path ends with the name it was written under, whatever the entity and partition. */
  lemma StagedPathEndsWithName(e: EntityEndpoint, blobPath: string, name: string)
    ensures var path := StagedPath(e, blobPath, name);
            |path| >= |name| && path[|path| - |name|..] == name
  {
    var inner := Join(blobPath, name);
    JoinShape(blobPath, name);
    JoinShape(e.entity, inner);
    SuffixOfSuffix(Join(e.entity, inner), inner, name);
  }

  /** A suffix of a suffix is a suffix. */
  lemma SuffixOfSuffix(s: string, t: string, u: string)
    requires |s| >= |t| >= |u|
    requires s[|s| - |t|..] == t && t[|t| - |u|..] == u
    ensures s[|s| - |u|..] == u
  {
    assert s[|s| - |u|..] == s[|s| - |t|..][|t| - |u|..];
  }

  /** The staging write for one sub-array: `<entity>/<blob_path>/<array>.json` holding the tagged items. */
  function ArrayWrite(get: Get, e: EntityEndpoint, changed: map<string, seq<Value>>, blobPath: string, arrayName: string): BlobWrite
  {
    BlobWrite(StagedPath(e, blobPath, arrayName + ".json"), CollectedArrays(get, e.endpoint, arrayName, IdsFor(changed, e.entity)))
  }

  /** The GET `process_entity` issues through `fetch_changed_ids`: one changes-since call when there is a checkpoint. */
  function ChangeCalls(e: EntityEndpoint, versions: map<string, Value>): seq<Request>
  {
    if HasVersion(versions, e.entity) then [ChangesSince(e.endpoint, versions[e.entity])] else []
  }

  /** The record GETs `{endpoint}/{id}`, one per changed id, in order. */
  function RecordCalls(endpoint: string, ids: seq<Value>): seq<Request>
  {
    seq(|ids|, k requires 0 <= k < |ids| => Record(endpoint, ids[k]))
  }

  /** The sub-array GETs `{endpoint}/{id}/{array}` for one array name, one per changed id, in order. */
  function SubArrayCalls(endpoint: string, ids: seq<Value>, arrayName: string): seq<Request>
  {
    seq(|ids|, k requires 0 <= k < |ids| => SubArray(endpoint, ids[k], arrayName))
  }

  /** The sub-array GETs for a list of array names, name after name. */
  function ArrayCalls(endpoint: string, ids: seq<Value>, arrays: seq<string>): seq<Request>
  {
    if arrays == [] then []
    else ArrayCalls(endpoint, ids, arrays[..|arrays| - 1]) + SubArrayCalls(endpoint, ids, arrays[|arrays| - 1])
  }

  /** Pulling the array names of two entries one after the other issues the two traces one after the other. */
  lemma {:induction false} ArrayCallsAppend(endpoint: string, ids: seq<Value>, xs: seq<string>, ys: seq<string>)
    ensures ArrayCalls(endpoint, ids, xs + ys) == ArrayCalls(endpoint, ids, xs) + ArrayCalls(endpoint, ids, ys)
    decreases |ys|
  {
    if ys == [] {
      assert xs + ys == xs;
    } else {
      var front := ys[..|ys| - 1];
      assert (xs + ys)[..|xs + ys| - 1] == xs + front;
      assert (xs + ys)[|xs + ys| - 1] == ys[|ys| - 1];
      ArrayCallsAppend(endpoint, ids, xs, front);
    }
  }

  /** One more array name adds that name's sub-array GETs at the end. */
  lemma ArrayCallsSnoc(endpoint: string, ids: seq<Value>, arrays: seq<string>, j: nat)
    requires j < |arrays|
    ensures ArrayCalls(endpoint, ids, arrays[..j + 1]) == ArrayCalls(endpoint, ids, arrays[..j]) + SubArrayCalls(endpoint, ids, arrays[j])
  {
    assert arrays[..j + 1][..j] == arrays[..j];
  }

  /** A trace given element by element is the `SubArrayCalls` trace. */
  lemma SubArrayTrace(endpoint: string, ids: seq<Value>, arrayName: string, calls: seq<Request>)
    requires |calls| == |ids|
    requires forall i :: 0 <= i < |calls| ==> calls[i] == SubArray(endpoint, ids[i], arrayName)
    ensures calls == SubArrayCalls(endpoint, ids, arrayName)
  {
  }

  /** A trace given element by element is the `RecordCalls` trace. */
  lemma RecordTrace(endpoint: string, ids: seq<Value>, calls: seq<Request>)
    requires |calls| == |ids|
    requires forall i :: 0 <= i < |calls| ==> calls[i] == Record(endpoint, ids[i])
    ensures calls == RecordCalls(endpoint, ids)
  {
  }

  /** The inner loop of `process_entity` over one entity-arrays entry: pull and stage each listed sub-array, after the writes for `done`. */
  method WriteEntryArrays(get: Get, e: EntityEndpoint, changedIds: map<string, seq<Value>>, blobPath: string,
                          ghost done: seq<string>, arrays: seq<string>, writesBefore: seq<BlobWrite>)
    returns (writes: seq<BlobWrite>, calls: seq<Request>)
    requires |writesBefore| == |done|
    requires forall k :: 0 <= k < |done| ==> writesBefore[k] == ArrayWrite(get, e, changedIds, blobPath, done[k])
    ensures |writes| == |done + arrays|
    ensures forall k :: 0 <= k < |writes| ==> writes[k] == ArrayWrite(get, e, changedIds, blobPath, (done + arrays)[k])
    ensures calls == ArrayCalls(e.endpoint, IdsFor(changedIds, e.entity), arrays)
  {
    ghost var ids := IdsFor(changedIds, e.entity);
    writes, calls := writesBefore, [];
    for j := 0 to |arrays|
      invariant |writes| == |done| + j
      invariant forall k :: 0 <= k < |writes| ==> writes[k] == ArrayWrite(get, e, changedIds, blobPath, (done + arrays[..j])[k])
      invariant calls == ArrayCalls(e.endpoint, ids, arrays[..j])
    {
      var arrayName := arrays[j];
      var values, arrayCalls := PullEntityArrays(get, e, arrayName, changedIds);
      SubArrayTrace(e.endpoint, ids, arrayName, arrayCalls);
      ArrayCallsSnoc(e.endpoint, ids, arrays, j);
      ExtendSlice(done, arrays, j);
      writes := writes + [BlobWrite(StagedPath(e, blobPath, arrayName + ".json"), values)];
      calls := calls + arrayCalls;
    }
    assert arrays[..|arrays|] == arrays;
  }

  /**
   * `process_entity`: resolve the change set once, materialize the records,
   * write one blob per sub-array of every matching entity-arrays entry, then
   * the records blob `run=temp.json`.
   */
  method ProcessEntity(api: Api, get: Get, e: EntityEndpoint, versions: map<string, Value>,
                       entityArrays: seq<EntityArrays>, blobPath: string)
    returns (writes: seq<BlobWrite>, entityResults: seq<Value>, calls: seq<Request>)
    requires HasVersion(versions, e.entity) ==> EventuallyStops(api, ChangesRequest(e, versions))
    ensures entityResults == Collected(get, e.endpoint, IdsFor(ChangedIds(api, e, versions), e.entity))
    ensures var arrays := MatchingArrays(entityArrays, e.entity);
            && |writes| == |arrays| + 1
            && (forall i :: 0 <= i < |arrays| ==> writes[i] == ArrayWrite(get, e, ChangedIds(api, e, versions), blobPath, arrays[i]))
            && writes[|arrays|] == BlobWrite(StagedPath(e, blobPath, RunFile), entityResults)
    ensures var ids := IdsFor(ChangedIds(api, e, versions), e.entity);
            calls == ChangeCalls(e, versions) + RecordCalls(e.endpoint, ids)
                     + ArrayCalls(e.endpoint, ids, MatchingArrays(entityArrays, e.entity))
  {
    var changedIds, changeCalls := FetchChangedIds(api, e, versions);
    ghost var ids := IdsFor(changedIds, e.entity);
    var objectCalls;
    entityResults, objectCalls := PullEntityObjects(get, e, changedIds);
    assert changeCalls == ChangeCalls(e, versions);
    RecordTrace(e.endpoint, ids, objectCalls);
    var arrayCalls: seq<Request>;
    writes, arrayCalls := [], [];
    for i := 0 to |entityArrays|
      invariant |writes| == |MatchingArrays(entityArrays[..i], e.entity)|
      invariant forall k :: 0 <= k < |writes| ==>
                  writes[k] == ArrayWrite(get, e, changedIds, blobPath, MatchingArrays(entityArrays[..i], e.entity)[k])
      invariant arrayCalls == ArrayCalls(e.endpoint, ids, MatchingArrays(entityArrays[..i], e.entity))
    {
      ghost var done := MatchingArrays(entityArrays[..i], e.entity);
      var entry := entityArrays[i];
      assert entityArrays[..i + 1][..i] == entityArrays[..i];
      if entry.entity == e.entity {
        assert MatchingArrays(entityArrays[..i + 1], e.entity) == done + entry.arrays;
        var entryCalls;
        writes, entryCalls := WriteEntryArrays(get, e, changedIds, blobPath, done, entry.arrays, writes);
        ArrayCallsAppend(e.endpoint, ids, done, entry.arrays);
        arrayCalls := arrayCalls + entryCalls;
      } else {
        assert MatchingArrays(entityArrays[..i + 1], e.entity) == done;
      }
    }
    assert entityArrays[..|entityArrays|] == entityArrays;
    writes := writes + [BlobWrite(StagedPath(e, blobPath, RunFile), entityResults)];
    calls := changeCalls + objectCalls + arrayCalls;
  }

  /**
   * For the same run date, the loader reads what `process_entity` staged: a
   * `'default'` table reads the records blob `run=temp.json`, and a table
   * whose file name is `<array>.json` reads that sub-array's blob.
   */
  lemma LoaderReadsStagedBlobs(e: EntityEndpoint, d: Date, arrayName: string)
    requires ValidDate(d)
    ensures TableBlob(e.entity, PartitionPath(d), "default") == StagedPath(e, PartitionPath(d), RunFile)
    ensures TableBlob(e.entity, PartitionPath(d), arrayName + ".json") == StagedPath(e, PartitionPath(d), arrayName + ".json")
  {
    var file := arrayName + ".json";
    assert file[|file| - 1] == 'n';
    assert Leaf(file) == file;
    JoinAssociates(e.entity, PartitionPath(d), RunFile);
    JoinAssociates(e.entity, PartitionPath(d), file);
  }
}
