/**
 * The change-set resolver (`fetch_changed_ids`) and the checkpoint refresh
 * (`update_latest_version`) of dags/plugins/api_utils.py.
 */
module Changes {
  import opened Wrappers
  import opened Json
  import opened Paging

  /** One GET followed by `.json()`: the decoded body, or None when either raises. */
  type Get = Request -> Option<Value>

  /** `versions.get(entity) is not None`: the checkpoint holds a non-null version for the entity. */
  predicate HasVersion(versions: map<string, Value>, entity: string)
  {
    entity in versions && versions[entity] != Null
  }

  /** `[item["Id"] for item in items]`: None when some item is not an object holding "Id" (the comprehension raises). */
  function IdsOf(items: seq<Value>): (ids: Option<seq<Value>>)
    ensures ids.Some? <==> forall i :: 0 <= i < |items| ==> HasKey(items[i], "Id")
    ensures ids.Some? ==> |ids.value| == |items|
    ensures ids.Some? ==> forall i :: 0 <= i < |items| ==> ids.value[i] == items[i].fields["Id"]
  {
    if items == [] then Some([])
    else if !HasKey(items[0], "Id") then None
    else
      match IdsOf(items[1..])
      case None => None
      case Some(rest) => Some([items[0].fields["Id"]] + rest)
  }

  /** The change-feed request for an entity whose checkpoint is `version`. */
  function ChangesRequest(e: EntityEndpoint, versions: map<string, Value>): Request
    requires HasVersion(versions, e.entity)
  {
    ChangesSince(e.endpoint, versions[e.entity])
  }

  /** The dictionary `fetch_changed_ids` returns. */
  function ChangedIds(api: Api, e: EntityEndpoint, versions: map<string, Value>): (changed: map<string, seq<Value>>)
    requires HasVersion(versions, e.entity) ==> EventuallyStops(api, ChangesRequest(e, versions))
    ensures changed.Keys <= {e.entity}
    ensures e.entity in changed ==> HasVersion(versions, e.entity) && Fetch(api, ChangesRequest(e, versions)).Some?
    ensures e.entity in changed ==> |changed[e.entity]| == |Fetch(api, ChangesRequest(e, versions)).value|
  {
    if !HasVersion(versions, e.entity) then map[]
    else
      match Fetch(api, ChangesRequest(e, versions))
      case None => map[]
      case Some(items) =>
        match IdsOf(items)
        case None => map[]
        case Some(ids) => map[e.entity := ids]
  }

  /**
   * `fetch_changed_ids`: without a checkpoint no call is made and the result is
   * empty; otherwise one change-feed call is made and the result maps the entity
   * to the `Id` of every feed item in feed order, or is empty when the call or
   * the extraction raised.
   */
  method FetchChangedIds(api: Api, e: EntityEndpoint, versions: map<string, Value>)
    returns (changed: map<string, seq<Value>>, calls: seq<Request>)
    requires HasVersion(versions, e.entity) ==> EventuallyStops(api, ChangesRequest(e, versions))
    ensures !HasVersion(versions, e.entity) ==> calls == [] && changed == map[]
    ensures HasVersion(versions, e.entity) ==> calls == [ChangesSince(e.endpoint, versions[e.entity])]
    ensures changed.Keys <= {e.entity}
    ensures e.entity in changed <==>
              && HasVersion(versions, e.entity)
              && Fetch(api, ChangesRequest(e, versions)).Some?
              && (forall i :: 0 <= i < |Fetch(api, ChangesRequest(e, versions)).value| ==>
                    HasKey(Fetch(api, ChangesRequest(e, versions)).value[i], "Id"))
    ensures e.entity in changed ==>
              var items := Fetch(api, ChangesRequest(e, versions)).value;
              |changed[e.entity]| == |items| &&
              forall i :: 0 <= i < |items| ==> changed[e.entity][i] == items[i].fields["Id"]
    ensures changed == ChangedIds(api, e, versions)
  {
    changed := map[];
    calls := [];
    if HasVersion(versions, e.entity) {
      var request := ChangesSince(e.endpoint, versions[e.entity]);
      var changedData, _ := MakeApiCall(api, request);
      calls := [request];
      if changedData.Some? {
        var ids := IdsOf(changedData.value);
        if ids.Some? {
          changed := changed[e.entity := ids.value];
        }
      }
    }
  }

  /** `response.json()[0]["Version"]`: the version of the newest feed item, or None when indexing raises. */
  function NewestVersion(body: Option<Value>): (v: Option<Value>)
    ensures v.Some? <==> body.Some? && body.value.Arr? && |body.value.items| > 0 && HasKey(body.value.items[0], "Version")
    ensures v.Some? ==> v.value == body.value.items[0].fields["Version"]
  {
    match body
    case Some(Arr(items)) =>
      if items != [] && HasKey(items[0], "Version") then Some(items[0].fields["Version"]) else None
    case _ => None
  }

  /** The checkpoint map built from the probes of `entities`, in order; a later entity of the same name overwrites an earlier one. */
  function LatestVersions(get: Get, entities: seq<EntityEndpoint>): map<string, Value>
  {
    if entities == [] then map[]
    else
      var e := entities[|entities| - 1];
      var acc := LatestVersions(get, entities[..|entities| - 1]);
      match NewestVersion(get(LatestChanges(e.endpoint)))
      case None => acc
      case Some(v) => acc[e.entity := v]
  }

  /** `update_latest_version`: probe every entity's change feed once, in order, recording the newest version of each probe that succeeds. */
  method UpdateLatestVersion(get: Get, entities: seq<EntityEndpoint>)
    returns (allVersions: map<string, Value>, calls: seq<Request>)
    ensures |calls| == |entities|
    ensures forall i :: 0 <= i < |entities| ==> calls[i] == LatestChanges(entities[i].endpoint)
    ensures allVersions == LatestVersions(get, entities)
  {
    allVersions := map[];
    calls := [];
    for i := 0 to |entities|
      invariant |calls| == i
      invariant forall k :: 0 <= k < i ==> calls[k] == LatestChanges(entities[k].endpoint)
      invariant allVersions == LatestVersions(get, entities[..i])
    {
      var e := entities[i];
      var request := LatestChanges(e.endpoint);
      var response := get(request);
      calls := calls + [request];
      var latest := NewestVersion(response);
      if latest.Some? {
        allVersions := allVersions[e.entity := latest.value];
      }
      assert entities[..i + 1][..i] == entities[..i];
    }
    assert entities[..|entities|] == entities;
  }

  /** The refreshed checkpoint holds an entity name exactly when some entity of that name was probed successfully. */
  lemma {:induction false} LatestVersionsKeys(get: Get, entities: seq<EntityEndpoint>, name: string)
    ensures name in LatestVersions(get, entities) <==>
              exists i :: 0 <= i < |entities| && entities[i].entity == name &&
                          NewestVersion(get(LatestChanges(entities[i].endpoint))).Some?
  {
    if entities != [] {
      var prefix := entities[..|entities| - 1];
      LatestVersionsKeys(get, prefix, name);
      if name in LatestVersions(get, prefix) {
        var i :| 0 <= i < |prefix| && prefix[i].entity == name && NewestVersion(get(LatestChanges(prefix[i].endpoint))).Some?;
        assert entities[i] == prefix[i];
      }
      if exists i :: 0 <= i < |entities| && entities[i].entity == name &&
                     NewestVersion(get(LatestChanges(entities[i].endpoint))).Some? {
        var i :| 0 <= i < |entities| && entities[i].entity == name &&
                 NewestVersion(get(LatestChanges(entities[i].endpoint))).Some?;
        if i < |prefix| {
          assert prefix[i] == entities[i];
        }
      }
    }
  }

  /**
   * The value recorded for an entity is the newest version of the last
   * successful probe of that name: a failing probe neither stops the loop nor
   * erases an earlier value.
   */
  lemma {:induction false} LatestVersionsValue(get: Get, entities: seq<EntityEndpoint>, i: nat)
    requires i < |entities|
    requires NewestVersion(get(LatestChanges(entities[i].endpoint))).Some?
    requires forall j :: i < j < |entities| && entities[j].entity == entities[i].entity ==>
               NewestVersion(get(LatestChanges(entities[j].endpoint))).None?
    ensures entities[i].entity in LatestVersions(get, entities)
    ensures LatestVersions(get, entities)[entities[i].entity] == NewestVersion(get(LatestChanges(entities[i].endpoint))).value
  {
    var prefix := entities[..|entities| - 1];
    if i < |entities| - 1 {
      forall j | i < j < |prefix| && prefix[j].entity == prefix[i].entity
        ensures NewestVersion(get(LatestChanges(prefix[j].endpoint))).None?
      {
        assert prefix[j] == entities[j];
      }
      LatestVersionsValue(get, prefix, i);
    }
  }
}
