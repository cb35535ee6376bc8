/**
 * The full-record materializers (`pull_entity_objects`, `pull_entity_arrays`)
 * and the all-or-nothing bulk pull (`pull_all_entities`) of
 * dags/plugins/api_utils.py.
 */
module Materialize {
  import opened Wrappers
  import opened Json
  import opened Paging
  import opened Changes

  /** The id list the materializers walk: `object_ids[entity]`, or none when the entity is absent. */
  function IdsFor(objectIds: map<string, seq<Value>>, entity: string): seq<Value>
  {
    if entity in objectIds then objectIds[entity] else []
  }

  /** What one successful or failed fetch adds to the output. */
  function Kept(response: Option<Value>): seq<Value>
  {
    match response
    case None => []
    case Some(v) => [v]
  }

  /** The records `pull_entity_objects` collects for `ids`, in id order, skipping ids whose fetch raised. */
  function Collected(get: Get, endpoint: string, ids: seq<Value>): seq<Value>
  {
    if ids == [] then []
    else Collected(get, endpoint, ids[..|ids| - 1]) + Kept(get(Record(endpoint, ids[|ids| - 1])))
  }

  /**
   * `pull_entity_objects`: one fetch of `{endpoint}/{id}` per changed id, in
   * order and duplicates included; no fetch at all when the entity has no or
   * an empty id list.
   */
  method PullEntityObjects(get: Get, e: EntityEndpoint, objectIds: map<string, seq<Value>>)
    returns (aggregated: seq<Value>, calls: seq<Request>)
    ensures |calls| == |IdsFor(objectIds, e.entity)|
    ensures forall i :: 0 <= i < |calls| ==> calls[i] == Record(e.endpoint, IdsFor(objectIds, e.entity)[i])
    ensures aggregated == Collected(get, e.endpoint, IdsFor(objectIds, e.entity))
  {
    if e.entity !in objectIds || objectIds[e.entity] == [] {
      return [], [];
    }
    var ids := objectIds[e.entity];
    aggregated, calls := [], [];
    for i := 0 to |ids|
      invariant |calls| == i
      invariant forall k :: 0 <= k < i ==> calls[k] == Record(e.endpoint, ids[k])
      invariant aggregated == Collected(get, e.endpoint, ids[..i])
    {
      var request := Record(e.endpoint, ids[i]);
      var response := get(request);
      calls := calls + [request];
      if response.Some? {
        aggregated := aggregated + [response.value];
      }
      assert ids[..i + 1][..i] == ids[..i];
    }
    assert ids[..|ids|] == ids;
  }

  /** Collecting over two id lists one after the other is collecting over their concatenation: the output follows id order. */
  lemma {:induction false} CollectedAppend(get: Get, endpoint: string, xs: seq<Value>, ys: seq<Value>)
    ensures Collected(get, endpoint, xs + ys) == Collected(get, endpoint, xs) + Collected(get, endpoint, ys)
    decreases |ys|
  {
    if ys == [] {
      assert xs + ys == xs;
    } else {
      var ys', last := ys[..|ys| - 1], ys[|ys| - 1];
      assert (xs + ys)[..|xs + ys| - 1] == xs + ys';
      assert (xs + ys)[|xs + ys| - 1] == last;
      CollectedAppend(get, endpoint, xs, ys');
      calc {
        Collected(get, endpoint, xs + ys);
        Collected(get, endpoint, xs + ys') + Kept(get(Record(endpoint, last)));
        (Collected(get, endpoint, xs) + Collected(get, endpoint, ys')) + Kept(get(Record(endpoint, last)));
        Collected(get, endpoint, xs) + (Collected(get, endpoint, ys') + Kept(get(Record(endpoint, last))));
        Collected(get, endpoint, xs) + Collected(get, endpoint, ys);
      }
    }
  }

  /** An id whose fetch raises is skipped; the ids around it are still fetched and kept in order. */
  lemma SkipOnFailure(get: Get, endpoint: string, xs: seq<Value>, id: Value, ys: seq<Value>)
    requires get(Record(endpoint, id)).None?
    ensures Collected(get, endpoint, xs + [id] + ys) == Collected(get, endpoint, xs) + Collected(get, endpoint, ys)
  {
    CollectedAppend(get, endpoint, xs + [id], ys);
    assert Collected(get, endpoint, xs + [id]) == Collected(get, endpoint, xs) by {
      assert (xs + [id])[..|xs|] == xs;
    }
  }

  /** When every fetch succeeds there is exactly one record per id, the i-th being the response for the i-th id (duplicates twice). */
  lemma {:induction false} CollectedAllSucceed(get: Get, endpoint: string, ids: seq<Value>)
    requires forall i :: 0 <= i < |ids| ==> get(Record(endpoint, ids[i])).Some?
    ensures |Collected(get, endpoint, ids)| == |ids|
    ensures forall i :: 0 <= i < |ids| ==> Collected(get, endpoint, ids)[i] == get(Record(endpoint, ids[i])).value
  {
    if ids != [] {
      var prefix := ids[..|ids| - 1];
      assert forall i :: 0 <= i < |prefix| ==> prefix[i] == ids[i];
      CollectedAllSucceed(get, endpoint, prefix);
    }
  }

  /** Never more records than ids: each fetch adds at most one. */
  lemma {:induction false} CollectedBounded(get: Get, endpoint: string, ids: seq<Value>)
    ensures |Collected(get, endpoint, ids)| <= |ids|
  {
    if ids != [] {
      CollectedBounded(get, endpoint, ids[..|ids| - 1]);
    }
  }

  /** One element of a list response after the tagging loop: a dict gains `ObjectId`, anything else is kept as it is. */
  function Tag(item: Value, id: Value): (tagged: Value)
    ensures tagged.Obj? <==> item.Obj?
    ensures !item.Obj? ==> tagged == item
    ensures item.Obj? ==> tagged.fields.Keys == item.fields.Keys + {"ObjectId"} && tagged.fields["ObjectId"] == id
    ensures item.Obj? ==> forall key :: key in item.fields && key != "ObjectId" ==> tagged.fields[key] == item.fields[key]
  {
    if item.Obj? then Obj(item.fields["ObjectId" := id]) else item
  }

  /** The tagging loop of `pull_entity_arrays`: set `ObjectId` on every dict element of a list response, in place. */
  method TagInPlace(items: array<Value>, id: Value)
    modifies items
    ensures forall i :: 0 <= i < items.Length ==> items[i] == Tag(old(items[i]), id)
  {
    for i := 0 to items.Length
      invariant forall k :: 0 <= k < i ==> items[k] == Tag(old(items[k]), id)
      invariant forall k :: i <= k < items.Length ==> items[k] == old(items[k])
    {
      if items[i].Obj? {
        items[i] := Obj(items[i].fields["ObjectId" := id]);
      }
    }
  }

  /** What one sub-array response contributes: a dict tagged as one item, a list tagged element-wise and flattened, anything else (or a failure) nothing. */
  function Contribution(response: Option<Value>, id: Value): seq<Value>
  {
    match response
    case Some(Obj(fields)) => [Tag(Obj(fields), id)]
    case Some(Arr(items)) => seq(|items|, i requires 0 <= i < |items| => Tag(items[i], id))
    case _ => []
  }

  /** The items `pull_entity_arrays` collects for `ids`, in id order. */
  function CollectedArrays(get: Get, endpoint: string, arrayName: string, ids: seq<Value>): seq<Value>
  {
    if ids == [] then []
    else
      var id := ids[|ids| - 1];
      CollectedArrays(get, endpoint, arrayName, ids[..|ids| - 1]) + Contribution(get(SubArray(endpoint, id, arrayName)), id)
  }

  /**
   * `pull_entity_arrays`: one fetch of `{endpoint}/{id}/{array}` per changed id,
   * in order; each dict that comes back, alone or inside a list, carries its
   * parent's id as `ObjectId`, and list responses are flattened.
   */
  method PullEntityArrays(get: Get, e: EntityEndpoint, arrayName: string, objectIds: map<string, seq<Value>>)
    returns (aggregated: seq<Value>, calls: seq<Request>)
    ensures |calls| == |IdsFor(objectIds, e.entity)|
    ensures forall i :: 0 <= i < |calls| ==> calls[i] == SubArray(e.endpoint, IdsFor(objectIds, e.entity)[i], arrayName)
    ensures aggregated == CollectedArrays(get, e.endpoint, arrayName, IdsFor(objectIds, e.entity))
  {
    if e.entity !in objectIds || objectIds[e.entity] == [] {
      return [], [];
    }
    var ids := objectIds[e.entity];
    aggregated, calls := [], [];
    for i := 0 to |ids|
      invariant |calls| == i
      invariant forall k :: 0 <= k < i ==> calls[k] == SubArray(e.endpoint, ids[k], arrayName)
      invariant aggregated == CollectedArrays(get, e.endpoint, arrayName, ids[..i])
    {
      var id := ids[i];
      var request := SubArray(e.endpoint, id, arrayName);
      var response := get(request);
      calls := calls + [request];
      assert ids[..i + 1][..i] == ids[..i];
      assert CollectedArrays(get, e.endpoint, arrayName, ids[..i + 1]) == aggregated + Contribution(response, id);
      match response {
        case Some(Obj(fields)) =>
          aggregated := aggregated + [Obj(fields["ObjectId" := id])];
        case Some(Arr(items)) =>
          var buffer := new Value[|items|](k requires 0 <= k < |items| => items[k]);
          TagInPlace(buffer, id);
          assert buffer[..] == Contribution(response, id);
          aggregated := aggregated + buffer[..];
        case _ =>
      }
    }
    assert ids[..|ids|] == ids;
  }

  /** Every dict in the output of `pull_entity_arrays` carries an `ObjectId`, and it is one of the changed ids. */
  lemma {:induction false} EveryObjectTagged(get: Get, endpoint: string, arrayName: string, ids: seq<Value>)
    ensures forall k :: 0 <= k < |CollectedArrays(get, endpoint, arrayName, ids)| && CollectedArrays(get, endpoint, arrayName, ids)[k].Obj? ==>
              "ObjectId" in CollectedArrays(get, endpoint, arrayName, ids)[k].fields &&
              CollectedArrays(get, endpoint, arrayName, ids)[k].fields["ObjectId"] in ids
  {
    if ids != [] {
      var prefix := ids[..|ids| - 1];
      var id := ids[|ids| - 1];
      EveryObjectTagged(get, endpoint, arrayName, prefix);
      var before := CollectedArrays(get, endpoint, arrayName, prefix);
      var added := Contribution(get(SubArray(endpoint, id, arrayName)), id);
      assert forall k :: 0 <= k < |added| && added[k].Obj? ==> added[k].fields["ObjectId"] == id;
      forall k | 0 <= k < |before| + |added| && (before + added)[k].Obj?
        ensures "ObjectId" in (before + added)[k].fields && (before + added)[k].fields["ObjectId"] in ids
      {
        if k < |before| {
          assert (before + added)[k] == before[k];
          assert before[k].fields["ObjectId"] in prefix;
        } else {
          assert (before + added)[k] == added[k - |before|];
        }
      }
    }
  }

  /** Every entity's listing eventually answers a short or failed page. */
  ghost predicate ListingsStop(api: Api, endpoints: seq<EntityEndpoint>)
  {
    forall i :: 0 <= i < |endpoints| ==> EventuallyStops(api, Listing(endpoints[i].endpoint))
  }

  /** The concatenated listings `pull_all_entities` returns, or None (`False`) as soon as one listing call raised. */
  function AllListed(api: Api, endpoints: seq<EntityEndpoint>): Option<seq<Value>>
    requires ListingsStop(api, endpoints)
  {
    if endpoints == [] then Some([])
    else
      match AllListed(api, endpoints[..|endpoints| - 1])
      case None => None
      case Some(acc) =>
        match Fetch(api, Listing(endpoints[|endpoints| - 1].endpoint))
        case None => None
        case Some(items) => Some(acc + items)
  }

  /**
   * `pull_all_entities`: list every entity in order and concatenate the results;
   * the first listing that fails makes the whole call return `False` without
   * listing the remaining entities.
   */
  method PullAllEntities(api: Api, endpoints: seq<EntityEndpoint>)
    returns (result: Option<seq<Value>>, calls: seq<Request>)
    requires ListingsStop(api, endpoints)
    ensures |calls| <= |endpoints|
    ensures forall i :: 0 <= i < |calls| ==> calls[i] == Listing(endpoints[i].endpoint)
    ensures forall i :: 0 <= i < |calls| - 1 ==> Fetch(api, calls[i]).Some?
    ensures result.Some? ==> |calls| == |endpoints|
    ensures result.None? ==> |calls| > 0 && Fetch(api, calls[|calls| - 1]).None?
    ensures result == AllListed(api, endpoints)
  {
    var aggregated: seq<Value> := [];
    calls := [];
    for i := 0 to |endpoints|
      invariant |calls| == i
      invariant forall k :: 0 <= k < i ==> calls[k] == Listing(endpoints[k].endpoint)
      invariant forall k :: 0 <= k < i ==> Fetch(api, calls[k]).Some?
      invariant AllListed(api, endpoints[..i]) == Some(aggregated)
    {
      var request := Listing(endpoints[i].endpoint);
      var responseData, _ := MakeApiCall(api, request);
      calls := calls + [request];
      assert endpoints[..i + 1][..i] == endpoints[..i];
      if responseData.None? {
        FailureIsFinal(api, endpoints, i + 1);
        return None, calls;
      }
      aggregated := aggregated + responseData.value;
    }
    assert endpoints[..|endpoints|] == endpoints;
    result := Some(aggregated);
  }

  /** Once a prefix of the entity list has failed, the whole pull has failed. */
  lemma {:induction false} FailureIsFinal(api: Api, endpoints: seq<EntityEndpoint>, n: nat)
    requires ListingsStop(api, endpoints)
    requires n <= |endpoints|
    requires AllListed(api, endpoints[..n]).None?
    ensures AllListed(api, endpoints).None?
    decreases |endpoints| - n
  {
    if n < |endpoints| {
      assert endpoints[..n + 1][..n] == endpoints[..n];
      FailureIsFinal(api, endpoints, n + 1);
    } else {
      assert endpoints[..n] == endpoints;
    }
  }

  /** The bulk pull fails exactly when some entity's listing fails; otherwise it is every listing, concatenated in entity order. */
  lemma {:induction false} AllListedFails(api: Api, endpoints: seq<EntityEndpoint>)
    requires ListingsStop(api, endpoints)
    ensures AllListed(api, endpoints).None? <==>
              exists i :: 0 <= i < |endpoints| && Fetch(api, Listing(endpoints[i].endpoint)).None?
  {
    if endpoints != [] {
      var prefix := endpoints[..|endpoints| - 1];
      AllListedFails(api, prefix);
      if exists i :: 0 <= i < |prefix| && Fetch(api, Listing(prefix[i].endpoint)).None? {
        var i :| 0 <= i < |prefix| && Fetch(api, Listing(prefix[i].endpoint)).None?;
        assert endpoints[i] == prefix[i];
      }
      if exists i :: 0 <= i < |endpoints| && Fetch(api, Listing(endpoints[i].endpoint)).None? {
        var i :| 0 <= i < |endpoints| && Fetch(api, Listing(endpoints[i].endpoint)).None?;
        if i < |prefix| {
          assert prefix[i] == endpoints[i];
        }
      }
    }
  }
}
