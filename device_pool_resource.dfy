/**
 * The CloudFormation custom-resource handler for Device Farm device pools
 * (device-farm-resources-lambda/src/device_pool_resource.py).
 *
 * The boto3 Device Farm client is replaced by `DeviceFarmClient`, a fake that
 * records every API call it receives, answers `create_device_pool` with a
 * stubbed device-pool ARN and, when `failing` is set, raises on every call
 * after recording it. The `list_device_pools` paginator is a function from a
 * project ARN to the pages it yields.
 */
module DevicePoolResource {
  import opened Wrappers
  import opened Builtins

  /** The resource properties the handler accepts (`KNOWN_PROPERTIES`). */
  const KnownProperties: set<string> :=
    {"Name", "Rules", "ProjectArn", "Description", "MaxDevices", "ServiceToken"}

  /** The name of the curated pool `get_top_device_pool_arn` looks for. */
  const TopDevices: string := "Top Devices"

  /**
   * A custom-resource event. `requestType` is `None` when the event has no
   * `RequestType` key; `physicalResourceId` is `Null` when it has no
   * `PhysicalResourceId`; a missing `ResourceProperties` is the empty map.
   */
  datatype Event = Event(
    requestType: Option<string>,
    physicalResourceId: Value,
    resourceProperties: map<string, Value>)

  /** The five properties the handler reads, each `Null` when absent. */
  datatype PoolProperties = PoolProperties(
    projectArn: Value, name: Value, rules: Value, description: Value, maxDevices: Value)

  /**
   * The properties as the handler reads them: each is the value stored under
   * its key, or `Null` when the key is absent; no other key is consulted.
   */
  function ReadProperties(props: map<string, Value>): (r: PoolProperties)
    ensures "ProjectArn" in props ==> r.projectArn == props["ProjectArn"]
    ensures "ProjectArn" !in props ==> r.projectArn == Null
    ensures "Name" in props ==> r.name == props["Name"]
    ensures "Name" !in props ==> r.name == Null
    ensures "Rules" in props ==> r.rules == props["Rules"]
    ensures "Rules" !in props ==> r.rules == Null
    ensures "Description" in props ==> r.description == props["Description"]
    ensures "Description" !in props ==> r.description == Null
    ensures "MaxDevices" in props ==> r.maxDevices == props["MaxDevices"]
    ensures "MaxDevices" !in props ==> r.maxDevices == Null
    ensures forall k :: k in props && k !in KnownProperties ==> ReadProperties(props - {k}) == r
  {
    PoolProperties(
      Get(props, "ProjectArn"), Get(props, "Name"), Get(props, "Rules"),
      Get(props, "Description"), Get(props, "MaxDevices"))
  }

  /** One call on the Device Farm API, with its keyword arguments. */
  datatype Call =
    | CreatePool(params: map<string, Value>)
    | UpdatePool(params: map<string, Value>)
    | DeletePool(arn: Value)

  /** Why an invocation raised. */
  datatype Error =
    | MissingRequestType                         // `event['RequestType']` raised KeyError
    | MissingProperty(property: string)          // "Required property ... not set"
    | UnknownProperties(properties: set<string>) // "Unknown properties found: ..."
    | UnknownRequestType(requestType: string)    // ValueError
    | ApiFailure(call: Call)                     // the client raised on this call
  {
    /** The errors the handler raises itself, as opposed to the client's. */
    predicate IsRejection() {
      !ApiFailure?
    }
  }

  datatype Result<T> = Success(value: T) | Failure(error: Error)

  /** The handler's return value: `Data` is absent after a delete. */
  datatype Response = Response(physicalResourceId: Value, data: Option<map<string, Value>>)

  /** A stand-in for the boto3 Device Farm client. */
  class DeviceFarmClient {
    var calls: seq<Call>
    const createdArn: string
    const failing: bool

    constructor (createdArn: string, failing: bool)
      ensures calls == [] && this.createdArn == createdArn && this.failing == failing
    {
      calls := [];
      this.createdArn := createdArn;
      this.failing := failing;
    }

    /** `create_device_pool(**params)`, answering with the new pool's ARN. */
    method CreateDevicePool(params: map<string, Value>) returns (r: Result<string>)
      modifies this
      ensures calls == old(calls) + [CreatePool(params)]
      ensures r == if failing then Failure(ApiFailure(CreatePool(params))) else Success(createdArn)
    {
      calls := calls + [CreatePool(params)];
      r := if failing then Failure(ApiFailure(CreatePool(params))) else Success(createdArn);
    }

    /** `update_device_pool(**params)`. */
    method UpdateDevicePool(params: map<string, Value>) returns (ok: bool)
      modifies this
      ensures calls == old(calls) + [UpdatePool(params)]
      ensures ok == !failing
    {
      calls := calls + [UpdatePool(params)];
      ok := !failing;
    }

    /** `delete_device_pool(arn=arn)`. */
    method DeleteDevicePool(arn: Value) returns (ok: bool)
      modifies this
      ensures calls == old(calls) + [DeletePool(arn)]
      ensures ok == !failing
    {
      calls := calls + [DeletePool(arn)];
      ok := !failing;
    }
  }

  /**
   * The property checks of a Create or Update, in the order the handler runs
   * them: the first falsy one of ProjectArn, Name and Rules is reported, and
   * only when all three are set are unknown property keys reported.
   */
  function Validate(p: PoolProperties, keys: set<string>): (r: Option<Error>)
    ensures r.None? <==>
      Truthy(p.projectArn) && Truthy(p.name) && Truthy(p.rules) && keys <= KnownProperties
    ensures r == Some(MissingProperty("ProjectArn")) <==> !Truthy(p.projectArn)
    ensures r == Some(MissingProperty("Name")) <==> Truthy(p.projectArn) && !Truthy(p.name)
    ensures r == Some(MissingProperty("Rules")) <==>
      Truthy(p.projectArn) && Truthy(p.name) && !Truthy(p.rules)
    ensures r == Some(UnknownProperties(keys - KnownProperties)) <==>
      Truthy(p.projectArn) && Truthy(p.name) && Truthy(p.rules) && !(keys <= KnownProperties)
    ensures r.Some? ==> r.value.MissingProperty? || r.value.UnknownProperties?
  {
    if !Truthy(p.projectArn) then Some(MissingProperty("ProjectArn"))
    else if !Truthy(p.name) then Some(MissingProperty("Name"))
    else if !Truthy(p.rules) then Some(MissingProperty("Rules"))
    else if keys - KnownProperties != {} then Some(UnknownProperties(keys - KnownProperties))
    else None
  }

  /**
   * What the handler rejects a Create or Update event for, if anything: it
   * accepts exactly the events whose ProjectArn, Name and Rules are truthy and
   * whose property keys are all known.
   */
  function Rejection(event: Event): (r: Option<Error>)
    ensures var props := event.resourceProperties;
      r.None? <==>
        && Truthy(Get(props, "ProjectArn")) && Truthy(Get(props, "Name")) && Truthy(Get(props, "Rules"))
        && props.Keys <= KnownProperties
  {
    Validate(ReadProperties(event.resourceProperties), event.resourceProperties.Keys)
  }

  /**
   * The arguments of `create_device_pool`: always the project ARN, name and
   * rules; `description` and `maxDevices` exactly when those properties are
   * not `None`; every value passed on unchanged.
   */
  predicate IsCreateRequest(params: map<string, Value>, p: PoolProperties) {
    && params.Keys ==
         {"projectArn", "name", "rules"}
         + (if p.description != Null then {"description"} else {})
         + (if p.maxDevices != Null then {"maxDevices"} else {})
    && params["projectArn"] == p.projectArn
    && params["name"] == p.name
    && params["rules"] == p.rules
    && (p.description != Null ==> params["description"] == p.description)
    && (p.maxDevices != Null ==> params["maxDevices"] == p.maxDevices)
  }

  /**
   * The arguments of `update_device_pool`: the pool ARN, name and rules;
   * either `maxDevices` (when given) or `clearMaxDevices=True` (when not);
   * `description` exactly when it is not `None`.
   */
  predicate IsUpdateRequest(params: map<string, Value>, arn: Value, p: PoolProperties) {
    && params.Keys ==
         {"arn", "name", "rules"}
         + (if p.maxDevices != Null then {"maxDevices"} else {"clearMaxDevices"})
         + (if p.description != Null then {"description"} else {})
    && params["arn"] == arn
    && params["name"] == p.name
    && params["rules"] == p.rules
    && (p.maxDevices != Null ==> params["maxDevices"] == p.maxDevices)
    && (p.maxDevices == Null ==> params["clearMaxDevices"] == Bool(true))
    && (p.description != Null ==> params["description"] == p.description)
  }

  /** Builds the `create_device_pool` arguments by conditional insertion. */
  method BuildCreateParams(p: PoolProperties) returns (params: map<string, Value>)
    ensures IsCreateRequest(params, p)
  {
    params := map["projectArn" := p.projectArn, "name" := p.name, "rules" := p.rules];
    if p.description != Null {
      params := params["description" := p.description];
    }
    if p.maxDevices != Null {
      params := params["maxDevices" := p.maxDevices];
    }
  }

  /** Builds the `update_device_pool` arguments by conditional insertion. */
  method BuildUpdateParams(arn: Value, p: PoolProperties) returns (params: map<string, Value>)
    ensures IsUpdateRequest(params, arn, p)
    ensures ("maxDevices" in params) != ("clearMaxDevices" in params)
  {
    params := map["arn" := arn, "name" := p.name, "rules" := p.rules];
    if p.maxDevices != Null {
      params := params["maxDevices" := p.maxDevices];
    } else {
      params := params["clearMaxDevices" := Bool(true)];
    }
    if p.description != Null {
      params := params["description" := p.description];
    }
  }

  /**
   * `lambda_handler`: a Delete deletes the pool named by the physical
   * resource id without looking at the properties; a Create or Update is
   * validated first and then issues one create or update call; any other
   * request type is refused once the properties have passed. Every rejection
   * happens before any client call, and at most one call is made.
   */
  method LambdaHandler(event: Event, client: DeviceFarmClient) returns (r: Result<Response>)
    modifies client
    ensures |old(client.calls)| <= |client.calls| <= |old(client.calls)| + 1
    ensures client.calls[..|old(client.calls)|] == old(client.calls)
    ensures r.Failure? && r.error.IsRejection() ==> client.calls == old(client.calls)
    ensures r.Success? && r.value.data.Some? ==>
      r.value.data.value == map["Arn" := r.value.physicalResourceId]
    ensures event.requestType.None? ==>
      r == Failure(MissingRequestType) && client.calls == old(client.calls)
    ensures event.requestType == Some("Delete") ==>
      var call := DeletePool(event.physicalResourceId);
      && client.calls == old(client.calls) + [call]
      && r == if client.failing then Failure(ApiFailure(call))
              else Success(Response(event.physicalResourceId, None))
    ensures event.requestType.Some? && event.requestType.value != "Delete" && Rejection(event).Some? ==>
      r == Failure(Rejection(event).value) && client.calls == old(client.calls)
    ensures (&& event.requestType.Some?
             && event.requestType.value !in {"Create", "Update", "Delete"}
             && Rejection(event).None?) ==>
      r == Failure(UnknownRequestType(event.requestType.value)) && client.calls == old(client.calls)
    ensures event.requestType == Some("Create") && Rejection(event).None? ==>
      var id := Str(client.createdArn);
      && |client.calls| == |old(client.calls)| + 1
      && client.calls[|old(client.calls)|].CreatePool?
      && IsCreateRequest(client.calls[|old(client.calls)|].params, ReadProperties(event.resourceProperties))
      && r == if client.failing then Failure(ApiFailure(client.calls[|old(client.calls)|]))
              else Success(Response(id, Some(map["Arn" := id])))
    ensures event.requestType == Some("Update") && Rejection(event).None? ==>
      var id := event.physicalResourceId;
      && |client.calls| == |old(client.calls)| + 1
      && client.calls[|old(client.calls)|].UpdatePool?
      && IsUpdateRequest(client.calls[|old(client.calls)|].params, id,
                         ReadProperties(event.resourceProperties))
      && r == if client.failing then Failure(ApiFailure(client.calls[|old(client.calls)|]))
              else Success(Response(id, Some(map["Arn" := id])))
  {
    var physicalResourceId := event.physicalResourceId;
    var p := ReadProperties(event.resourceProperties);
    if event.requestType.None? {
      return Failure(MissingRequestType);
    }
    var requestType := event.requestType.value;
    if requestType == "Delete" {
      var ok := client.DeleteDevicePool(physicalResourceId);
      if !ok {
        return Failure(ApiFailure(DeletePool(physicalResourceId)));
      }
      return Success(Response(physicalResourceId, None));
    }
    var rejection := Validate(p, event.resourceProperties.Keys);
    if rejection.Some? {
      return Failure(rejection.value);
    }
    if requestType == "Create" {
      var params := BuildCreateParams(p);
      var response := client.CreateDevicePool(params);
      if response.Failure? {
        return Failure(response.error);
      }
      physicalResourceId := Str(response.value);
    } else if requestType == "Update" {
      var params := BuildUpdateParams(physicalResourceId, p);
      var ok := client.UpdateDevicePool(params);
      if !ok {
        return Failure(ApiFailure(UpdatePool(params)));
      }
    } else {
      return Failure(UnknownRequestType(requestType));
    }
    return Success(Response(physicalResourceId, Some(map["Arn" := physicalResourceId])));
  }

  /** A device pool as `list_device_pools` describes it. */
  datatype DevicePool = DevicePool(arn: string, name: string)

  /** One page of a `list_device_pools` listing. */
  type Page = seq<DevicePool>

  /** The pools of a paginated listing, in the order pages and pools are visited. */
  function AllPools(pages: seq<Page>): (pools: seq<DevicePool>)
    ensures forall d :: d in pools <==> exists i :: 0 <= i < |pages| && d in pages[i]
  {
    if pages == [] then [] else AllPools(pages[..|pages| - 1]) + pages[|pages| - 1]
  }

  /** `k` is the position of the first pool called `name`. */
  predicate IsFirstNamed(pools: seq<DevicePool>, k: int, name: string) {
    && 0 <= k < |pools|
    && pools[k].name == name
    && forall m :: 0 <= m < k ==> pools[m].name != name
  }

  lemma {:induction false} AllPoolsAppend(a: seq<Page>, b: seq<Page>)
    ensures AllPools(a + b) == AllPools(a) + AllPools(b)
    decreases |b|
  {
    if b == [] {
      assert a + b == a;
    } else {
      var b' := b[..|b| - 1];
      AllPoolsAppend(a, b');
      assert (a + b)[..|a + b| - 1] == a + b';
    }
  }

  /** The pools up to page `i`, page `i` itself and the pools after it, in listing order. */
  lemma {:induction false} AllPoolsAt(pages: seq<Page>, i: int)
    requires 0 <= i < |pages|
    ensures AllPools(pages[..i + 1]) == AllPools(pages[..i]) + pages[i]
    ensures AllPools(pages) == AllPools(pages[..i + 1]) + AllPools(pages[i + 1..])
  {
    var front := pages[..i + 1];
    assert front[..|front| - 1] == pages[..i] && front[|front| - 1] == pages[i];
    AllPoolsAppend(pages[..i + 1], pages[i + 1..]);
    assert pages[..i + 1] + pages[i + 1..] == pages;
  }

  /**
   * `get_top_device_pool_arn`: scans the curated pools of the project, page
   * by page, and returns the ARN of the first one named "Top Devices", or
   * `None` when no pool has that name.
   */
  method GetTopDevicePoolArn(listCuratedPools: string -> seq<Page>, projectArn: string)
    returns (arn: Option<string>)
    ensures var pools := AllPools(listCuratedPools(projectArn));
      arn.None? <==> forall m :: 0 <= m < |pools| ==> pools[m].name != TopDevices
    ensures var pools := AllPools(listCuratedPools(projectArn));
      arn.Some? ==> exists k :: IsFirstNamed(pools, k, TopDevices) && pools[k].arn == arn.value
  {
    var pages := listCuratedPools(projectArn);
    ghost var pools := AllPools(pages);
    var i := 0;
    ghost var seen: seq<DevicePool> := [];
    while i < |pages|
      invariant 0 <= i <= |pages|
      invariant seen == AllPools(pages[..i])
      invariant seen <= pools
      invariant forall m :: 0 <= m < |seen| ==> seen[m].name != TopDevices
    {
      var page := pages[i];
      AllPoolsAt(pages, i);
      assert seen + page <= pools;
      var j := 0;
      while j < |page|
        invariant 0 <= j <= |page|
        invariant forall m :: 0 <= m < |seen| + j ==> (seen + page)[m].name != TopDevices
      {
        if page[j].name == TopDevices {
          assert pools[|seen| + j] == page[j];
          assert IsFirstNamed(pools, |seen| + j, TopDevices);
          return Some(page[j].arn);
        }
        j := j + 1;
      }
      seen := seen + page;
      i := i + 1;
    }
    assert pages[..i] == pages;
    return None;
  }

  /** `get_project_id`: the text after the last ':' of an ARN (all of it when there is none). */
  function ProjectId(projectArn: string): (id: string)
    ensures ':' !in id
    ensures |id| <= |projectArn| && id == projectArn[|projectArn| - |id|..]
    ensures ':' in projectArn ==>
      |id| < |projectArn| && projectArn == projectArn[..|projectArn| - |id| - 1] + ":" + id
    ensures ':' !in projectArn ==> id == projectArn
  {
    SplitLast(projectArn, ':');
    var parts := Split(projectArn, ':');
    parts[|parts| - 1]
  }
  /** Conversely, whatever follows the last ':' of an ARN is its project id. */
  lemma {:induction false} ProjectIdOfSuffix(prefix: string, id: string)
    requires ':' !in id
    ensures ProjectId(prefix + ":" + id) == id
  {
    SplitSnoc(prefix, ':', ':');
    assert prefix + [':'] == prefix + ":";
    SplitAppendPiece(prefix + ":", id, ':');
    assert "" + id == id;
  }

  /**
   * The project fixture of the handler tests: the id of
   * "arn:aws:devicefarm:us-west-2:account-id:project:12345" is "12345".
   */
  lemma ProjectIdOfFixtureArn()
    ensures ProjectId("arn:aws:devicefarm:us-west-2:account-id:project:12345") == "12345"
  {
    var prefix := "arn:aws:devicefarm:us-west-2:account-id:project";
    assert prefix + ":" + "12345" == "arn:aws:devicefarm:us-west-2:account-id:project:12345";
    ProjectIdOfSuffix(prefix, "12345");
  }

  /**
   * The paginator fixture of the handler tests: "Top Devices" is found on the
   * second page, after a first page holding only "Flop Devices".
   */
  method TopDevicesOnSecondPage() returns (arn: Option<string>)
    ensures arn == Some("arn:top-devices")
  {
    var flop := DevicePool("arn:other", "Flop Devices");
    var top := DevicePool("arn:top-devices", "Top Devices");
    var pages := [[flop], [top]];
    arn := GetTopDevicePoolArn(_ => pages, "arn:aws:devicefarm:us-west-2:account-id:project:12345");
    assert AllPools(pages) == [flop, top] by {
      assert pages[..1] == [[flop]];
      assert [[flop]][..0] == [];
      assert AllPools([[flop]]) == [flop];
    }
    assert AllPools(pages)[1].name == TopDevices;
    ghost var k :| IsFirstNamed(AllPools(pages), k, TopDevices) && AllPools(pages)[k].arn == arn.value;
    assert flop.name != TopDevices;
  }

  /**
   * The device pool the pipeline stack declares: a Create carrying ProjectArn,
   * Name, Rules and the ServiceToken makes exactly one create call with the
   * project ARN, name and rules, and reports the new pool's ARN.
   */
  method CreatePipelineDevicePool() returns (r: Result<Response>, calls: seq<Call>)
    ensures calls == [CreatePool(map[
      "projectArn" := Str("arn:project"),
      "name" := Str("device-farm-demo-pool"),
      "rules" := List([Dict(map[
        "attribute" := Str("MODEL"), "operator" := Str("EQUALS"), "value" := Str("\"Google Pixel 2\"")])])])]
    ensures r == Success(Response(Str("arn:pool"), Some(map["Arn" := Str("arn:pool")])))
  {
    var rules := List([Dict(map[
      "attribute" := Str("MODEL"), "operator" := Str("EQUALS"), "value" := Str("\"Google Pixel 2\"")])]);
    var props := map[
      "ServiceToken" := Str("arn:handler"),
      "ProjectArn" := Str("arn:project"),
      "Name" := Str("device-farm-demo-pool"),
      "Rules" := rules];
    var client := new DeviceFarmClient("arn:pool", false);
    var event := Event(Some("Create"), Null, props);
    assert props.Keys <= KnownProperties;
    r := LambdaHandler(event, client);
    calls := client.calls;
    var expected := map["projectArn" := Str("arn:project"), "name" := Str("device-farm-demo-pool"), "rules" := rules];
    assert calls[0].params == expected;
  }
}
