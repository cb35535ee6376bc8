/**
 * The three fetch loops of dags/plugins/api_utils.py that call `.json()` on
 * what `make_api_call` returns, as the code is written. `make_api_call`
 * returns a list or None, neither of which has a `.json()` method, so the
 * call raises `AttributeError` on every iteration; the surrounding
 * `except Exception` swallows it and nothing is recorded. The corrected
 * loops, which decode the response of a single GET, are
 * Changes.UpdateLatestVersion, Materialize.PullEntityObjects and
 * Materialize.PullEntityArrays.
 */
module AsWritten {
  import opened Wrappers
  import opened Json
  import opened Paging
  import opened Changes
  import opened Materialize

  /** `.json()` on the value `make_api_call` returns: a list or None, so the attribute lookup raises. */
  function JsonOfPaged(result: Option<seq<Value>>): Option<Value>
  {
    None
  }

  /** `update_latest_version` as written: every probe pages through the feed, then raises before recording a version. */
  method UpdateLatestVersionAsWritten(api: Api, entities: seq<EntityEndpoint>)
    returns (allVersions: map<string, Value>, calls: seq<Request>)
    requires forall i :: 0 <= i < |entities| ==> EventuallyStops(api, LatestChanges(entities[i].endpoint))
    ensures |calls| == |entities|
    ensures forall i :: 0 <= i < |entities| ==> calls[i] == LatestChanges(entities[i].endpoint)
    ensures allVersions == map[]
  {
    allVersions := map[];
    calls := [];
    for i := 0 to |entities|
      invariant |calls| == i
      invariant forall k :: 0 <= k < i ==> calls[k] == LatestChanges(entities[k].endpoint)
      invariant allVersions == map[]
    {
      var e := entities[i];
      var request := LatestChanges(e.endpoint);
      var response, offsets := MakeApiCall(api, request);
      calls := calls + [request];
      match NewestVersion(JsonOfPaged(response))
      case Some(latest) =>
        allVersions := allVersions[e.entity := latest];
      case None =>
    }
  }

  /** `pull_entity_objects` as written: every record is fetched and then dropped. */
  method PullEntityObjectsAsWritten(api: Api, e: EntityEndpoint, objectIds: map<string, seq<Value>>)
    returns (aggregated: seq<Value>, calls: seq<Request>)
    requires forall id :: id in IdsFor(objectIds, e.entity) ==> EventuallyStops(api, Record(e.endpoint, id))
    ensures |calls| == |IdsFor(objectIds, e.entity)|
    ensures forall i :: 0 <= i < |calls| ==> calls[i] == Record(e.endpoint, IdsFor(objectIds, e.entity)[i])
    ensures aggregated == []
  {
    aggregated, calls := [], [];
    if e.entity !in objectIds || objectIds[e.entity] == [] {
      return;
    }
    var ids := objectIds[e.entity];
    for i := 0 to |ids|
      invariant |calls| == i
      invariant forall k :: 0 <= k < i ==> calls[k] == Record(e.endpoint, ids[k])
      invariant aggregated == []
    {
      var request := Record(e.endpoint, ids[i]);
      var response, offsets := MakeApiCall(api, request);
      calls := calls + [request];
      aggregated := aggregated + Kept(JsonOfPaged(response));
    }
  }

  /** `pull_entity_arrays` as written: every sub-array is fetched and then dropped. */
  method PullEntityArraysAsWritten(api: Api, e: EntityEndpoint, arrayName: string, objectIds: map<string, seq<Value>>)
    returns (aggregated: seq<Value>, calls: seq<Request>)
    requires forall id :: id in IdsFor(objectIds, e.entity) ==> EventuallyStops(api, SubArray(e.endpoint, id, arrayName))
    ensures |calls| == |IdsFor(objectIds, e.entity)|
    ensures forall i :: 0 <= i < |calls| ==> calls[i] == SubArray(e.endpoint, IdsFor(objectIds, e.entity)[i], arrayName)
    ensures aggregated == []
  {
    aggregated, calls := [], [];
    if e.entity !in objectIds || objectIds[e.entity] == [] {
      return;
    }
    var ids := objectIds[e.entity];
    for i := 0 to |ids|
      invariant |calls| == i
      invariant forall k :: 0 <= k < i ==> calls[k] == SubArray(e.endpoint, ids[k], arrayName)
      invariant aggregated == []
    {
      var request := SubArray(e.endpoint, ids[i], arrayName);
      var response, offsets := MakeApiCall(api, request);
      calls := calls + [request];
      aggregated := aggregated + Contribution(JsonOfPaged(response), ids[i]);
    }
  }

  /** A one-entity change feed whose newest item has version 7. */
  function SampleFeed(r: Request): Option<Value>
  {
    if r == LatestChanges("contacts") then
      Some(Arr([Obj(map["Version" := Num(7)]), Obj(map["Version" := Num(5)])]))
    else None
  }

  /** Decoding the probe's own response records the newest version, where the code as written records nothing. */
  lemma CorrectedProbeRecordsVersion()
    ensures LatestVersions(SampleFeed, [EntityEndpoint("Contact", "contacts")]) == map["Contact" := Num(7)]
  {
    var entities := [EntityEndpoint("Contact", "contacts")];
    assert entities[..0] == [];
  }
}
