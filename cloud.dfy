/**
 * The cloud data source (datasources/cloud/datasource.go): find one cloud
 * by id or by exact name and copy its attributes into state.
 */
module CloudDataSource {
  import opened Wrappers
  import opened Framework
  import Text
  import Convert
  import L = Lookup
  import Sdk

  const Summary := "read cloud data source"
  const ErrorNoCloudFound := "no cloud found"
  const ErrorMultipleClouds := "multiple clouds were returned"

  /** A group a cloud belongs to. */
  datatype GroupRef = GroupRef(id: int)

  /** A cloud (zone) as the API returns it; absent optional fields are None. */
  datatype Cloud = Cloud(id: Option<int>, name: Option<string>, code: Option<string>,
                         costingMode: Option<string>, externalId: Option<string>,
                         guidanceMode: Option<string>, inventoryLevel: Option<string>,
                         labels: seq<string>, location: Option<string>, timezone: Option<string>,
                         groups: seq<GroupRef>)

  /** The clouds endpoints: get one by id, list by name. */
  datatype CloudsApi = CloudsApi(getClouds: int -> Sdk.Reply<Cloud>, listClouds: string -> Sdk.Reply<seq<Cloud>>)

  /** The data source's configuration and state. */
  datatype CloudModel = CloudModel(id: Value<int>, name: Value<string>, code: Value<string>,
                                   costingMode: Value<string>, externalId: Value<string>,
                                   guidanceMode: Value<string>, inventoryLevel: Value<string>,
                                   labels: Value<seq<Convert.AttrValue>>, location: Value<string>,
                                   timeZone: Value<string>, groupIds: Value<seq<Convert.AttrValue>>)

  /** `GetName()`: the name, or "" when absent. */
  function CloudName(c: Cloud): string
  {
    if c.name.Some? then c.name.value else ""
  }

  function GetCloudByID(api: CloudsApi, id: int): (r: Result<Cloud>)
    ensures r.Ok? <==> Sdk.Succeeded(api.getClouds(id))
    ensures r.Ok? ==> r.value == api.getClouds(id).value
    ensures r.Err? ==> r.error == "GET failed for cloud " + Text.IntToDecimal(id)
  {
    L.ById(api.getClouds(id), "GET failed for cloud " + Text.IntToDecimal(id))
  }

  /** The outcome of `getCloudByName`. */
  function CloudByName(api: CloudsApi, name: string): Result<Cloud>
  {
    L.ByName(api.listClouds(name), CloudName, name, "GET failed for cloud " + name, ErrorMultipleClouds, ErrorNoCloudFound)
  }

  method GetCloudByName(api: CloudsApi, name: string) returns (r: Result<Cloud>)
    ensures r == CloudByName(api, name)
  {
    var reply := api.listClouds(name);
    if !Sdk.Succeeded(reply) {
      return Err("GET failed for cloud " + name);
    }
    var clouds := L.KeepNamed(reply.value, CloudName, name);
    r := L.SelectUnique(clouds, ErrorMultipleClouds, ErrorNoCloudFound);
  }

  /** The outcome of `getCloud`. */
  function FindCloud(api: CloudsApi, data: CloudModel): Result<Cloud>
  {
    L.Dispatch(data.id, data.name, id => GetCloudByID(api, id), name => CloudByName(api, name))
  }

  /** An id in the configuration is looked up by id even when a name is also set. */
  lemma IdTakesPrecedence(api: CloudsApi, data: CloudModel)
    requires !data.id.IsNull()
    ensures FindCloud(api, data) == GetCloudByID(api, ValueInt64(data.id))
  {
  }

  method GetCloud(api: CloudsApi, data: CloudModel) returns (r: Result<Cloud>)
    ensures r == FindCloud(api, data)
  {
    if !data.id.IsNull() {
      r := GetCloudByID(api, ValueInt64(data.id));
    } else if !data.name.IsNull() {
      r := GetCloudByName(api, ValueString(data.name));
    } else {
      r := Err(L.ErrorNoValidSearchTerms);
    }
  }

  /** The state Read writes for a found cloud: every attribute copied, `group_ids` in order. */
  predicate StateOf(m: CloudModel, c: Cloud)
  {
    && m.id == Convert.ToType(c.id) && m.name == Convert.ToType(c.name) && m.code == Convert.ToType(c.code)
    && m.costingMode == Convert.ToType(c.costingMode) && m.externalId == Convert.ToType(c.externalId)
    && m.guidanceMode == Convert.ToType(c.guidanceMode) && m.inventoryLevel == Convert.ToType(c.inventoryLevel)
    && m.location == Convert.ToType(c.location) && m.timeZone == Convert.ToType(c.timezone)
    && !m.labels.Unknown? && !m.groupIds.Unknown?
    && (m.labels.Null? <==> |c.labels| == 0)
    && (m.labels.Known? ==>
          |m.labels.v| == |c.labels| && forall i :: 0 <= i < |c.labels| ==> m.labels.v[i] == Convert.StringVal(Known(c.labels[i])))
    && (m.groupIds.Null? <==> |c.groups| == 0)
    && (m.groupIds.Known? ==>
          |m.groupIds.v| == |c.groups| && forall i :: 0 <= i < |c.groups| ==> m.groupIds.v[i] == Convert.Int64Val(Known(c.groups[i].id)))
  }

  /**
   * `Read`: configuration errors stop it; a client or lookup error adds one
   * error under the data source's summary and writes no state; otherwise
   * the found cloud is written to state.
   */
  method Read(data: CloudModel, configDiags: seq<Diagnostic>, api: Result<CloudsApi>)
    returns (diags: seq<Diagnostic>, state: Option<CloudModel>)
    ensures HasError(configDiags) ==> diags == configDiags && state == None
    ensures !HasError(configDiags) && api.Err? ==>
      diags == configDiags + [ErrorDiag(Summary, L.NoClientDetail)] && state == None
    ensures !HasError(configDiags) && api.Ok? && FindCloud(api.value, data).Err? ==>
      diags == configDiags + [ErrorDiag(Summary, FindCloud(api.value, data).error)] && state == None
    ensures !HasError(configDiags) && api.Ok? && FindCloud(api.value, data).Ok? ==>
      diags == configDiags && state.Some? && StateOf(state.value, FindCloud(api.value, data).value)
  {
    diags := configDiags;
    state := None;
    if HasError(diags) {
      return;
    }
    if api.Err? {
      diags := diags + [ErrorDiag(Summary, L.NoClientDetail)];
      return;
    }
    var found := GetCloud(api.value, data);
    if found.Err? {
      diags := diags + [ErrorDiag(Summary, found.error)];
      return;
    }
    var cloud := found.value;
    var labels := Convert.StrSliceToSet(cloud.labels);
    var groupIDs: seq<int> := [];
    var i := 0;
    while i < |cloud.groups|
      invariant 0 <= i <= |cloud.groups|
      invariant |groupIDs| == i && forall k :: 0 <= k < i ==> groupIDs[k] == cloud.groups[k].id
    {
      groupIDs := groupIDs + [cloud.groups[i].id];
      i := i + 1;
    }
    var groupIds := Convert.Int64SliceToSet(groupIDs);
    state := Some(data.(id := Convert.ToType(cloud.id), name := Convert.ToType(cloud.name),
                        code := Convert.ToType(cloud.code), costingMode := Convert.ToType(cloud.costingMode),
                        externalId := Convert.ToType(cloud.externalId), guidanceMode := Convert.ToType(cloud.guidanceMode),
                        inventoryLevel := Convert.ToType(cloud.inventoryLevel), labels := labels,
                        location := Convert.ToType(cloud.location), timeZone := Convert.ToType(cloud.timezone),
                        groupIds := groupIds));
  }
}
