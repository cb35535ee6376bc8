# Cosential incremental sync, modelled in Dafny

This project models the incremental-sync engine of an Airflow pipeline that
copies a CRM (Cosential) into a data lake and a SQL database:

- **Paging** (`paging.dfy`): `make_api_call` walks an endpoint page by page.
  Each page is a GET with `SIZE=500` and `FROM` = 0, 500, 1000, … The walk
  stops at the first page shorter than 500. The result is all pages
  concatenated, or None if any page fails.
- **Change detection** (`changes.dfy`):
  - `fetch_changed_ids` turns a stored version checkpoint into the list of
    changed record ids.
  - `update_latest_version` probes every entity's change feed and records
    the newest version.
- **Materialization** (`materialize.dfy`):
  - `pull_entity_objects` fetches each changed record.
  - `pull_entity_arrays` fetches each changed record's sub-array and tags
    every object with `ObjectId`.
  - `pull_all_entities` lists every entity and fails as a whole on the
    first failure.
- **Paths** (`paths.dfy`):
  - `os.path.join` semantics;
  - the `year=YYYY/month=MM/day=DD` partition path;
  - the blob names the loader reads.
- **DAG tasks** (`dag.dfy`):
  - `process_entity` resolves the change set once, materializes records and
    sub-arrays, and stages one blob per sub-array plus `run=temp.json`.
  - `process_entity_tables` reads one staged blob per configured table. It
    raises on an empty read and projects each record onto the table's
    columns, giving `None` for a missing column. Then it loads the rows.
- **As written** (`aswritten.dfy`): the three fetch loops that call `.json()`
  on `make_api_call`'s result, modelled exactly as the code is written (see
  Findings).

The remote service has two abstractions:

- `Api = (Request, nat) -> Option<seq<Value>>` is one GET of a page at a
  `FROM` offset. It is None when the request raises or the status is not 2xx.
- `Get = Request -> Option<Value>` is one GET followed by `.json()`.

URLs are represented by a `Request` datatype with one constructor per URL
shape: listing, changes since a version, latest changes, one record, one
sub-array. Every loop that issues GETs (the fetch loops of api_utils.py,
and `process_entity` with its inner sub-array loop) also returns the trace
of requests it issued, so "no call is made" and "one call per id, in order"
are stated as postconditions. JSON is a `Value` datatype with Python truthiness.

## Model

| member | source | states |
|---|---|---|
| Paging.MakeApiCall | dags/plugins/api_utils.py:40-76 | Requests offsets 0, 500, 1000, … in order. Stops at the first failed or short page, and every earlier page was full. The result is None exactly when that last page failed; otherwise it is the pages concatenated in order. It equals the reference `Fetch`. |
| Paging.FetchAllOrNothing | dags/plugins/api_utils.py:46-76 | For any completed walk, `Fetch` is None when the last page failed, and otherwise exactly the concatenation of the walked pages (a failure discards earlier pages). |
| Paging.WalkToStop | dags/plugins/api_utils.py:46-70 | From any page before the stopping page, the walk yields the rest of the pages up to and including that stop. |
| Paging.ServedPrefix | dags/plugins/api_utils.py:46-70 | Against an endpoint serving a record list in 500-record windows, every page below offset `k*500` is full, and together those pages are the first `k*500` records. |
| Paging.PagingOverRecords | dags/plugins/api_utils.py:46-72 | Against such an endpoint the walk stops at page `len/500` and returns exactly the served records, with nothing lost or duplicated. |
| Paging.RequestsOverRecords | dags/plugins/api_utils.py:46-70 | Such a walk issues `len/500 + 1` requests, one more than the number of full pages, including when the length is a multiple of 500. |
| Changes.IdsOf | dags/plugins/api_utils.py:107 | The `Id` list exists exactly when every changed item has an `Id` key. It then has one id per item, in feed order. |
| Changes.FetchChangedIds | dags/plugins/api_utils.py:80-113 | With no checkpoint (or a `None` one) it makes no call and returns `{}`. Otherwise it makes exactly one changes-since call. The entity is present exactly when the feed succeeded and every item has an `Id`, and then it maps to those ids in order. |
| Changes.NewestVersion | dags/plugins/api_utils.py:140 | A version is found exactly when the body is a non-empty list whose first item has a `Version` key. The value is that first item's version. |
| Changes.UpdateLatestVersion | dags/plugins/api_utils.py:116-147 | Probes each entity's latest-changes feed exactly once, in order, and returns the `LatestVersions` map of the probes. |
| Changes.LatestVersionsKeys | dags/plugins/api_utils.py:130-147 | An entity name is in the refreshed checkpoint exactly when some entity of that name was probed successfully. |
| Changes.LatestVersionsValue | dags/plugins/api_utils.py:130-147 | The recorded value is the newest version from the last successful probe of that name. A failing probe neither stops the loop nor erases an earlier value. |
| Materialize.PullEntityObjects | dags/plugins/api_utils.py:150-184 | An entity with no ids (missing or empty list) makes no call and returns `[]`. Otherwise it makes one record GET per id, in order, and returns the `Collected` bodies. |
| Materialize.CollectedAppend | dags/plugins/api_utils.py:172-184 | Materializing two id lists one after the other gives the concatenation of the two outputs. |
| Materialize.SkipOnFailure | dags/plugins/api_utils.py:176-183 | A failing fetch contributes nothing and does not stop the loop. |
| Materialize.CollectedAllSucceed | dags/plugins/api_utils.py:172-184 | When every fetch succeeds, the output has one body per id, in id order. |
| Materialize.CollectedBounded | dags/plugins/api_utils.py:172-184 | The output never has more elements than there are ids. |
| Materialize.Tag | dags/plugins/api_utils.py:219-225 | Tagging keeps a non-object unchanged. An object gains exactly the key `ObjectId`, set to the id, and keeps every other field. |
| Materialize.TagInPlace | dags/plugins/api_utils.py:222-225 | After the in-place loop, each element is the tagged version of its old value. |
| Materialize.PullEntityArrays | dags/plugins/api_utils.py:188-236 | The same no-id guard, then one sub-array GET per id, in order. The result is `CollectedArrays`: an object body is tagged and appended; a list body is tagged element-wise and extended; any other body is dropped. |
| Materialize.EveryObjectTagged | dags/plugins/api_utils.py:210-236 | Every object in the sub-array output carries an `ObjectId` that is one of the changed ids. |
| Materialize.PullAllEntities | dags/plugins/api_utils.py:239-268 | Lists the entities in order, and every listing before the last issued one succeeded. Success means every entity was listed; failure means the last listing failed and no later one was issued. The result equals `AllListed`. |
| Materialize.FailureIsFinal | dags/plugins/api_utils.py:255-267 | Once a listing fails, the result for the whole list is failure, whatever follows. |
| Materialize.AllListedFails | dags/plugins/api_utils.py:255-268 | The bulk pull fails exactly when some entity's listing fails. |
| Changes.ChangedIds | dags/plugins/api_utils.py:98-113 | The dictionary `fetch_changed_ids` returns has no key but the entity. The entity is present only when it has a checkpoint and the change feed succeeded, and it then maps to one id per feed item. |
| Paths.JoinShape | dags/plugins/azure_utils.py:75 | `os.path.join(a, b)` always ends with `b`. It is exactly `b` when `b` is absolute, and otherwise starts with `a`. |
| Paths.Leaf | dags/CosentialDAG.py:193-197 | The leaf is never the literal `'default'`, and it is the configured file name exactly when that name is not `'default'` (otherwise it is `run=temp.json`). |
| Paths.BlobNameEndsWithLeaf | dags/CosentialDAG.py:193-197 | Whatever the entity name, a table's blob name ends with its leaf. |
| Paths.JoinAssociates | dags/plugins/azure_utils.py:75 | `os.path.join` is associative when the middle part is a plain relative component. |
| Paths.Padded | dags/CosentialDAG.py:40-42 | Zero-padding gives exactly `width` decimal digits. |
| Paths.PaddedRoundTrip | dags/CosentialDAG.py:40-42 | Reading the padded digits back gives the number, for every number below `10^width`. |
| Paths.PartitionPath | dags/CosentialDAG.py:40-45 | The partition path is `year=YYYY/month=MM/day=DD`: 25 characters, with no leading or trailing slash. |
| Paths.PartitionRoundTrip | dags/CosentialDAG.py:40-45 | Parsing the partition path back gives the original date. |
| Paths.BlobNameIsWritePath | dags/CosentialDAG.py:190-197 | The loader's five-part join names the same blob as the writer's `entity` / `blob_path` / `name` join. |
| Paths.BlobNameLayout | dags/CosentialDAG.py:190-197 | For an entity name that is a plain path component: `'default'` reads `entity/<partition>/run=temp.json`, and any other relative name replaces the leaf. An absolute file name replaces the whole path. |
| Dag.Project | dags/CosentialDAG.py:205-207 | A successful projection has one row per element that `for item in opp` visits. |
| Dag.ProjectRows | dags/CosentialDAG.py:205-207 | The contract of `Project` and of `ProjectRecord` (the per-record tuple). Projection succeeds exactly when every record can be asked for its columns (any iterable when there are none). It then gives one row per record and one cell per column: the record's value, or `None` when the record lacks the column. |
| Dag.MatchingTablesOnly | dags/CosentialDAG.py:186-188 | A table is processed exactly when it belongs to a schema entry for that entity. |
| Dag.TableBlobIsBlobName | dags/CosentialDAG.py:190-197 | Grouping the partition components names the same blob as joining them one by one. |
| Dag.LoadTableCases | dags/CosentialDAG.py:189-209 | One table loads exactly when its blob reads truthy, its records project and the SQL load returns. The load then carries the table's name, its columns and the projected rows. A falsy read is reported with the blob name. |
| Dag.LoadTablesOutcome | dags/CosentialDAG.py:188-209 | Tables load in order, one load per table. At the first falsy read, unprojectable record set or raising SQL load, that table and every later one load nothing, and the run reports that table's error. |
| Dag.ErrorIsFinal | dags/CosentialDAG.py:200-209 | After a raise, later tables change nothing. |
| Dag.LoadEntryTables | dags/CosentialDAG.py:188-209 | The inner loop continues a run exactly as `LoadTables` over the entry's tables. |
| Dag.ProcessEntityTables | dags/CosentialDAG.py:184-209 | The loads, and the error that stopped it if any, are `LoadTables` over the matching tables, in schema order, under that day's partition. |
| Dag.MatchingArraysOnly | dags/CosentialDAG.py:171-172 | A sub-array is pulled exactly when it is listed by an entity-arrays entry for that entity. |
| Dag.StagedPathEndsWithName | dags/CosentialDAG.py:176-180 | Every staged blob's path (`os.path.join(entity, os.path.join(blob_path, name))`, azure_utils.py line 75) ends with the name it was written under. |
| Dag.WriteEntryArrays | dags/CosentialDAG.py:172-176 | The inner loop over one entity-arrays entry appends exactly one write per listed sub-array, in order. Its GETs are, name after name, one sub-array request per changed id. |
| Dag.ArrayCallsAppend | dags/CosentialDAG.py:171-176 | Pulling the sub-arrays of two entries one after the other issues the two request traces one after the other. |
| Dag.ProcessEntity | dags/CosentialDAG.py:158-182 | Returns the records materialized for the change set. It writes exactly one blob per matching sub-array name, in order, holding that sub-array's tagged items, and then the records blob `run=temp.json`. The GETs it issues are, in order: the changes-since call when there is a checkpoint, one record GET per changed id, then one sub-array GET per changed id for each matching sub-array name. |
| Dag.LoaderReadsStagedBlobs | dags/CosentialDAG.py:176-197 | For the same run date, a `'default'` table reads the records blob `process_entity` wrote, and an `<array>.json` table reads that sub-array's blob. |
| AsWritten.UpdateLatestVersionAsWritten | dags/plugins/api_utils.py:130-147 | As written, every probe runs but the result is always `{}`. |
| AsWritten.PullEntityObjectsAsWritten | dags/plugins/api_utils.py:167-184 | As written, every record is fetched but the result is always `[]`. |
| AsWritten.PullEntityArraysAsWritten | dags/plugins/api_utils.py:205-236 | As written, every sub-array is fetched but the result is always `[]`. |
| AsWritten.CorrectedProbeRecordsVersion | dags/plugins/api_utils.py:139-141 | For a feed whose newest item has version 7, the corrected probe records `{"Contact": 7}`. |

## Left out

- HTTP, authentication, headers, secrets and environment variables are not modelled. The service is the `Api`/`Get` oracles, and an exception or a non-2xx status is None.
- Paging.MakeApiCall: requires the endpoint to eventually answer a short or failed page (`EventuallyStops`). An endpoint that returns full pages forever makes the source loop forever, and that case is not modelled.
- Changes.FetchChangedIds, Dag.ProcessEntity, Materialize.PullAllEntities, AsWritten.UpdateLatestVersionAsWritten, AsWritten.PullEntityObjectsAsWritten, AsWritten.PullEntityArraysAsWritten: these require `EventuallyStops` for every paged request they may issue. For `PullAllEntities` that includes the listings after the first failure, which the source never requests.
- Paging.MakeApiCall: `total_records` is accumulated but never read, so it is not modelled.
- Paging.MakeApiCall: a page body that is not a list (`extend` over a dict's keys or a string's characters) is not modelled; pages are lists of values.
- Materialize.PullEntityObjects, Materialize.PullEntityArrays, Changes.UpdateLatestVersion, Dag.ProcessEntity, Dag.WriteEntryArrays: these model the evidently intended code, which decodes the single GET's response. The code as written is in `AsWritten` (see Findings). `ProcessEntity` and `WriteEntryArrays` are built on the corrected materializers. As written, `process_entity` returns `[]` and stages `[]` in every blob, and a table that reads such a blob then raises on the falsy read.
- Console output (`print`, `logging`) and the exception messages' text are not modelled.
- The Azure storage writes are recorded as values (`BlobWrite`), not performed. `write_data_azure_storage` catches its own exceptions (azure_utils.py lines 84-86), so a failed write never stops a task; the model records the write either way. The SQL load `write_data_azure_sql` catches nothing. It is a `Load` oracle, and a `False` answer ends `process_entity_tables` with `LoadFailed`. JSON serialisation (`json.dumps`, `ensure_ascii`, `indent`) and key order are not modelled.
- Dag.ProcessEntity: does not model Airflow's XCom transport of `versions` and `entity_arrays`; they are parameters.
- Dag.ProcessEntityTables: the schema is typed, so the `KeyError` on a malformed schema entry is not modelled.
- Dag.ProcessEntityTables: the read failure's `False` return is modelled as `Bool(false)`.
- The run date comes from `datetime.now()`; here it is a `Date` parameter.
- Paths.PartitionPath, Paths.PartitionRoundTrip: cover years 1000-9999 only. `datetime.now()` gives no other year, and `strftime('%Y')` on glibc does not zero-pad years below 1000.
- JSON floating-point numbers are not modelled; numbers are integers.
- `count_files_with_prefix`, `get_metadata` (run as the `get_versions` task), the DAG wiring, the dbt task and the rest of azure_utils.py are not part of this model.

## Findings

| source | as written | input that shows it | evidently intended | confidence | as-written member | corrected member |
|---|---|---|---|---|---|---|
| dags/plugins/api_utils.py:139-140 | `make_api_call(...)` returns a list or None, and `.json()` is then called on it. That raises `AttributeError`, which is caught, so no version is ever recorded. | one entity whose change feed's newest item is `{"Version": 7}` | record `{"Contact": 7}` from the decoded response | high, not executed | AsWritten.UpdateLatestVersionAsWritten | Changes.UpdateLatestVersion |
| dags/plugins/api_utils.py:177-180 | Same `.json()` on the list or None, so every record is dropped. | any entity with one changed id whose record GET succeeds | one record body per successful id | high, not executed | AsWritten.PullEntityObjectsAsWritten | Materialize.PullEntityObjects |
| dags/plugins/api_utils.py:214-217 | Same `.json()` on the list or None, so every sub-array is dropped. | any entity with one changed id whose sub-array GET returns `[{}]` | the tagged item `{"ObjectId": id}` | high, not executed | AsWritten.PullEntityArraysAsWritten | Materialize.PullEntityArrays |
