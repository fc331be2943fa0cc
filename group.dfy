/**
 * The group data source (datasources/group/datasource.go): find one group
 * by id or by exact name and copy it into state.
 */
module GroupDataSource {
  import opened Wrappers
  import opened Framework
  import Text
  import Convert
  import L = Lookup
  import Sdk

  const Summary := "read group data source"
  const ErrorNoGroupFound := "no group found"
  const ErrorMultipleGroups := "multiple groups were returned"

  datatype Group = Group(id: Option<int>, name: Option<string>, code: Option<string>, location: Option<string>)

  datatype GroupsApi = GroupsApi(getGroups: int -> Sdk.Reply<Group>, listGroups: string -> Sdk.Reply<seq<Group>>)

  datatype GroupModel = GroupModel(id: Value<int>, name: Value<string>, code: Value<string>, location: Value<string>)

  function GroupName(g: Group): string
  {
    if g.name.Some? then g.name.value else ""
  }

  function GetGroupByID(api: GroupsApi, id: int): (r: Result<Group>)
    ensures r.Ok? <==> Sdk.Succeeded(api.getGroups(id))
    ensures r.Ok? ==> r.value == api.getGroups(id).value
    ensures r.Err? ==> r.error == "GET failed for group " + Text.IntToDecimal(id)
  {
    L.ById(api.getGroups(id), "GET failed for group " + Text.IntToDecimal(id))
  }

  function GroupByName(api: GroupsApi, name: string): Result<Group>
  {
    L.ByName(api.listGroups(name), GroupName, name, "GET failed for group " + name, ErrorMultipleGroups, ErrorNoGroupFound)
  }

  method GetGroupByName(api: GroupsApi, name: string) returns (r: Result<Group>)
    ensures r == GroupByName(api, name)
  {
    var reply := api.listGroups(name);
    if !Sdk.Succeeded(reply) {
      return Err("GET failed for group " + name);
    }
    var groups := L.KeepNamed(reply.value, GroupName, name);
    r := L.SelectUnique(groups, ErrorMultipleGroups, ErrorNoGroupFound);
  }

  function FindGroup(api: GroupsApi, data: GroupModel): Result<Group>
  {
    L.Dispatch(data.id, data.name, id => GetGroupByID(api, id), name => GroupByName(api, name))
  }

  method GetGroup(api: GroupsApi, data: GroupModel) returns (r: Result<Group>)
    ensures r == FindGroup(api, data)
  {
    if !data.id.IsNull() {
      r := GetGroupByID(api, ValueInt64(data.id));
    } else if !data.name.IsNull() {
      r := GetGroupByName(api, ValueString(data.name));
    } else {
      r := Err(L.ErrorNoValidSearchTerms);
    }
  }

  predicate StateOf(m: GroupModel, g: Group)
  {
    && m.id == Convert.ToType(g.id) && m.name == Convert.ToType(g.name)
    && m.code == Convert.ToType(g.code) && m.location == Convert.ToType(g.location)
  }

  method Read(data: GroupModel, configDiags: seq<Diagnostic>, api: Result<GroupsApi>)
    returns (diags: seq<Diagnostic>, state: Option<GroupModel>)
    ensures HasError(configDiags) ==> diags == configDiags && state == None
    ensures !HasError(configDiags) && api.Err? ==>
      diags == configDiags + [ErrorDiag(Summary, L.NoClientDetail)] && state == None
    ensures !HasError(configDiags) && api.Ok? && FindGroup(api.value, data).Err? ==>
      diags == configDiags + [ErrorDiag(Summary, FindGroup(api.value, data).error)] && state == None
    ensures !HasError(configDiags) && api.Ok? && FindGroup(api.value, data).Ok? ==>
      diags == configDiags && state.Some? && StateOf(state.value, FindGroup(api.value, data).value)
  {
    diags := configDiags;
    state := None;
    if HasError(diags) {
      return;
    }
    if api.Err? {
      diags := diags + [ErrorDiag(Summary, L.NoClientDetail)];
      return;
    }
    var found := GetGroup(api.value, data);
    if found.Err? {
      diags := diags + [ErrorDiag(Summary, found.error)];
      return;
    }
    var g := found.value;
    state := Some(GroupModel(Convert.ToType(g.id), Convert.ToType(g.name), Convert.ToType(g.code), Convert.ToType(g.location)));
  }
}
