/**
 * The paged fetch client: `make_api_call` in dags/plugins/api_utils.py.
 *
 * The HTTP transport is an oracle: `Api` answers one GET of a request at a
 * `FROM` offset with the decoded page, or with `None` when the request, its
 * status check or its decoding raises.
 */
module Paging {
  import opened Wrappers
  import opened Json

  /** The fixed `SIZE` parameter of every page request. */
  const PageSize: nat := 500

  /** An entity descriptor as stored in the entity list: its name and its API path. */
  datatype EntityEndpoint = EntityEndpoint(entity: string, endpoint: string)

  /** The relative URLs the pipeline builds, one constructor per URL template. */
  datatype Request =
    | Listing(endpoint: string)                         // `{endpoint}`
    | ChangesSince(endpoint: string, version: Value)    // `{endpoint}/changes?version={v}&includeDeleted=true&reverse=true`
    | LatestChanges(endpoint: string)                   // `{endpoint}/changes?reverse=true`
    | Record(endpoint: string, id: Value)               // `{endpoint}/{id}`
    | SubArray(endpoint: string, id: Value, arrayName: string) // `{endpoint}/{id}/{array}`

  /** One paged GET: the items of the page at a `FROM` offset, or None when the call raises. */
  type Api = (Request, nat) -> Option<seq<Value>>

  /** The page the loop requests on its `k`-th iteration (`FROM = k * SIZE`). */
  function PageAt(api: Api, r: Request, k: nat): Option<seq<Value>>
  {
    api(r, k * PageSize)
  }

  /** Every one of the first `n` requests answered a full page, so the loop went on after each. */
  predicate FullBefore(api: Api, r: Request, n: nat)
  {
    forall k :: 0 <= k < n ==> PageAt(api, r, k).Some? && |PageAt(api, r, k).value| >= PageSize
  }

  /** The `k`-th request ends the loop: it raises, or its page is shorter than `SIZE`. */
  predicate StopsAt(api: Api, r: Request, k: nat)
  {
    PageAt(api, r, k).None? || |PageAt(api, r, k).value| < PageSize
  }

  /** The endpoint does not answer full pages forever (otherwise `while True` never ends). */
  ghost predicate EventuallyStops(api: Api, r: Request)
  {
    exists k: nat :: StopsAt(api, r, k)
  }

  /** Some iteration at which the loop is certain to have stopped. */
  ghost function Horizon(api: Api, r: Request): (h: nat)
    requires EventuallyStops(api, r)
    ensures StopsAt(api, r, h)
  {
    var k: nat :| StopsAt(api, r, k); k
  }

  /** What the loop returns when started at iteration `k`: the pages from there to the first stop, or None if that stop raised. */
  function Walk(api: Api, r: Request, k: nat): Option<seq<Value>>
    requires EventuallyStops(api, r) && k <= Horizon(api, r)
    decreases Horizon(api, r) - k
  {
    match PageAt(api, r, k)
    case None => None
    case Some(page) =>
      if |page| < PageSize then Some(page)
      else
        match Walk(api, r, k + 1)
        case None => None
        case Some(rest) => Some(page + rest)
  }

  /** The result of `make_api_call(r)`. */
  function Fetch(api: Api, r: Request): Option<seq<Value>>
    requires EventuallyStops(api, r)
  {
    Walk(api, r, 0)
  }

  /** The concatenation of the first `n` pages, in request order. */
  function Gathered(api: Api, r: Request, n: nat): seq<Value>
    requires forall k :: 0 <= k < n ==> PageAt(api, r, k).Some?
  {
    if n == 0 then [] else Gathered(api, r, n - 1) + PageAt(api, r, n - 1).value
  }

  /** `offsets` is the sequence of `FROM` values of one run of the loop: 0, SIZE, 2*SIZE, ..., every page full but the last. */
  predicate Walked(api: Api, r: Request, offsets: seq<nat>)
  {
    && |offsets| > 0
    && (forall k :: 0 <= k < |offsets| ==> offsets[k] == k * PageSize)
    && FullBefore(api, r, |offsets| - 1)
    && StopsAt(api, r, |offsets| - 1)
  }

  /** Walking from iteration `k` to the first stop yields the pages from `k` on, or None if the stopping request raised. */
  lemma {:induction false} WalkToStop(api: Api, r: Request, k: nat, stop: nat)
    requires EventuallyStops(api, r)
    requires k <= stop
    requires FullBefore(api, r, stop)
    requires StopsAt(api, r, stop)
    ensures k <= Horizon(api, r)
    ensures PageAt(api, r, stop).None? ==> Walk(api, r, k).None?
    ensures PageAt(api, r, stop).Some? ==>
              Walk(api, r, k).Some? && Gathered(api, r, k) + Walk(api, r, k).value == Gathered(api, r, stop + 1)
    decreases stop - k
  {
    if k < stop {
      WalkToStop(api, r, k + 1, stop);
      var page := PageAt(api, r, k).value;
      if PageAt(api, r, stop).Some? {
        var rest := Walk(api, r, k + 1).value;
        calc {
          Gathered(api, r, k) + Walk(api, r, k).value;
          Gathered(api, r, k) + (page + rest);
          (Gathered(api, r, k) + page) + rest;
          Gathered(api, r, k + 1) + rest;
        }
      }
    }
  }

  /**
   * All or nothing: `make_api_call` returns the concatenation of every page up
   * to the first short one, or None when any request on the way raised.
   */
  lemma FetchAllOrNothing(api: Api, r: Request, offsets: seq<nat>)
    requires EventuallyStops(api, r)
    requires Walked(api, r, offsets)
    ensures Fetch(api, r) == if PageAt(api, r, |offsets| - 1).None? then None else Some(Gathered(api, r, |offsets|))
  {
    WalkToStop(api, r, 0, |offsets| - 1);
    if PageAt(api, r, |offsets| - 1).Some? {
      assert Gathered(api, r, 0) + Walk(api, r, 0).value == Walk(api, r, 0).value;
    }
  }

  /** `make_api_call`: request pages at FROM = 0, 500, 1000, ... until a short page, extending the result with each. */
  method MakeApiCall(api: Api, r: Request) returns (result: Option<seq<Value>>, offsets: seq<nat>)
    requires EventuallyStops(api, r)
    ensures Walked(api, r, offsets)
    ensures result.Some? <==> PageAt(api, r, |offsets| - 1).Some?
    ensures result.Some? ==> result.value == Gathered(api, r, |offsets|)
    ensures result == Fetch(api, r)
  {
    ghost var horizon := Horizon(api, r);
    var aggregated: seq<Value> := [];
    var from: nat := 0;
    offsets := [];
    while true
      invariant from == |offsets| * PageSize
      invariant forall k :: 0 <= k < |offsets| ==> offsets[k] == k * PageSize
      invariant FullBefore(api, r, |offsets|)
      invariant |offsets| <= horizon
      invariant aggregated == Gathered(api, r, |offsets|)
      decreases horizon - |offsets|
    {
      var response := api(r, from);
      assert response == PageAt(api, r, |offsets|);
      offsets := offsets + [from];
      if response.None? {
        FetchAllOrNothing(api, r, offsets);
        return None, offsets;
      }
      aggregated := aggregated + response.value;
      if |response.value| < PageSize {
        FetchAllOrNothing(api, r, offsets);
        return Some(aggregated), offsets;
      }
      from := from + PageSize;
    }
  }
  /** The page an endpoint holding `records` answers at offset `from`: the next `SIZE` records, fewer at the end. */
  function ServerPage(records: seq<Value>, from: nat): seq<Value>
  {
    if from >= |records| then []
    else if from + PageSize >= |records| then records[from..]
    else records[from..from + PageSize]
  }

  /** `api` answers every page of `r` from `records` and never fails. */
  ghost predicate Serves(api: Api, r: Request, records: seq<Value>)
  {
    forall from: nat :: api(r, from) == Some(ServerPage(records, from))
  }

  /** Against such an endpoint, every page before offset `k * SIZE` is full and together they are that prefix of `records`. */
  lemma {:induction false} ServedPrefix(api: Api, r: Request, records: seq<Value>, k: nat)
    requires Serves(api, r, records)
    requires k * PageSize <= |records|
    ensures FullBefore(api, r, k)
    ensures Gathered(api, r, k) == records[..k * PageSize]
  {
    if k > 0 {
      ServedPrefix(api, r, records, k - 1);
      var from := (k - 1) * PageSize;
      assert from + PageSize == k * PageSize;
      assert api(r, from) == Some(ServerPage(records, from));
      assert ServerPage(records, from) == records[from..from + PageSize];
      assert PageAt(api, r, k - 1) == Some(records[from..from + PageSize]);
      assert records[..from] + records[from..from + PageSize] == records[..k * PageSize];
    }
  }

  /**
   * Paging over an endpoint that holds `records`: the loop stops at iteration
   * `|records| / SIZE`, i.e. after `|records| / SIZE + 1` requests (one extra,
   * empty page when `|records|` is a multiple of `SIZE`), and returns exactly `records`.
   */
  lemma PagingOverRecords(api: Api, r: Request, records: seq<Value>)
    requires Serves(api, r, records)
    ensures FullBefore(api, r, |records| / PageSize)
    ensures StopsAt(api, r, |records| / PageSize)
    ensures EventuallyStops(api, r)
    ensures Fetch(api, r) == Some(records)
  {
    var stop := |records| / PageSize;
    ServedWhole(api, r, records);
    WalkToStop(api, r, 0, stop);
    assert Gathered(api, r, 0) + Walk(api, r, 0).value == Walk(api, r, 0).value;
  }

  /** Up to and including the stopping page at `|records| / SIZE`, the pages gather to the whole of `records`. */
  lemma ServedWhole(api: Api, r: Request, records: seq<Value>)
    requires Serves(api, r, records)
    ensures var stop := |records| / PageSize;
            && FullBefore(api, r, stop)
            && StopsAt(api, r, stop)
            && PageAt(api, r, stop).Some?
            && Gathered(api, r, stop + 1) == records
  {
    var stop := |records| / PageSize;
    LastServedPage(api, r, records);
    var cut := stop * PageSize;
    ServedPrefix(api, r, records, stop);
    assert Gathered(api, r, stop + 1) == records[..cut] + records[cut..];
    assert records[..cut] + records[cut..] == records;
  }

  /** The page at `|records| / SIZE` is the short remainder of `records`, so the loop stops there. */
  lemma LastServedPage(api: Api, r: Request, records: seq<Value>)
    requires Serves(api, r, records)
    ensures var stop := |records| / PageSize;
            && stop * PageSize <= |records|
            && PageAt(api, r, stop) == Some(records[stop * PageSize..])
            && StopsAt(api, r, stop)
  {
    var stop := |records| / PageSize;
    assert stop * PageSize <= |records| < stop * PageSize + PageSize;
    assert api(r, stop * PageSize) == Some(ServerPage(records, stop * PageSize));
    assert ServerPage(records, stop * PageSize) == records[stop * PageSize..];
  }

  /** The request count of `make_api_call` against an endpoint holding `records` is `|records| / SIZE + 1`. */
  lemma RequestsOverRecords(api: Api, r: Request, records: seq<Value>, offsets: seq<nat>)
    requires Serves(api, r, records)
    requires Walked(api, r, offsets)
    ensures |offsets| == |records| / PageSize + 1
  {
    PagingOverRecords(api, r, records);
  }
}
