/**
 * The environment data source (datasources/environment/datasource.go):
 * find one environment by id or by exact name and copy it into state.
 */
module EnvironmentDataSource {
  import opened Wrappers
  import opened Framework
  import Text
  import Convert
  import L = Lookup
  import Sdk

  const Summary := "read environment data source"
  const ErrorNoEnvironmentFound := "no environment found"
  const ErrorMultipleEnvironments := "multiple environments were returned"

  datatype Environment = Environment(active: Option<bool>, code: Option<string>, description: Option<string>,
                                     id: Option<int>, name: Option<string>, visibility: Option<string>)

  datatype EnvironmentsApi = EnvironmentsApi(getEnvironments: int -> Sdk.Reply<Environment>,
                                             listEnvironments: string -> Sdk.Reply<seq<Environment>>)

  datatype EnvironmentModel = EnvironmentModel(active: Value<bool>, code: Value<string>, description: Value<string>,
                                               id: Value<int>, name: Value<string>, visibility: Value<string>)

  function EnvironmentName(e: Environment): string
  {
    if e.name.Some? then e.name.value else ""
  }

  function GetEnvironmentById(api: EnvironmentsApi, id: int): (r: Result<Environment>)
    ensures r.Ok? <==> Sdk.Succeeded(api.getEnvironments(id))
    ensures r.Ok? ==> r.value == api.getEnvironments(id).value
    ensures r.Err? ==> r.error == "GET failed for environment " + Text.IntToDecimal(id)
  {
    L.ById(api.getEnvironments(id), "GET failed for environment " + Text.IntToDecimal(id))
  }

  function EnvironmentByName(api: EnvironmentsApi, name: string): Result<Environment>
  {
    L.ByName(api.listEnvironments(name), EnvironmentName, name, "GET failed for environment " + name,
             ErrorMultipleEnvironments, ErrorNoEnvironmentFound)
  }

  method GetEnvironmentByName(api: EnvironmentsApi, name: string) returns (r: Result<Environment>)
    ensures r == EnvironmentByName(api, name)
  {
    var reply := api.listEnvironments(name);
    if !Sdk.Succeeded(reply) {
      return Err("GET failed for environment " + name);
    }
    var environments := L.KeepNamed(reply.value, EnvironmentName, name);
    r := L.SelectUnique(environments, ErrorMultipleEnvironments, ErrorNoEnvironmentFound);
  }

  function FindEnvironment(api: EnvironmentsApi, data: EnvironmentModel): Result<Environment>
  {
    L.Dispatch(data.id, data.name, id => GetEnvironmentById(api, id), name => EnvironmentByName(api, name))
  }

  method GetEnvironment(api: EnvironmentsApi, data: EnvironmentModel) returns (r: Result<Environment>)
    ensures r == FindEnvironment(api, data)
  {
    if !data.id.IsNull() {
      r := GetEnvironmentById(api, ValueInt64(data.id));
    } else if !data.name.IsNull() {
      r := GetEnvironmentByName(api, ValueString(data.name));
    } else {
      r := Err(L.ErrorNoValidSearchTerms);
    }
  }

  predicate StateOf(m: EnvironmentModel, e: Environment)
  {
    && m.active == Convert.ToType(e.active) && m.code == Convert.ToType(e.code)
    && m.description == Convert.ToType(e.description) && m.id == Convert.ToType(e.id)
    && m.name == Convert.ToType(e.name) && m.visibility == Convert.ToType(e.visibility)
  }

  method Read(data: EnvironmentModel, configDiags: seq<Diagnostic>, api: Result<EnvironmentsApi>)
    returns (diags: seq<Diagnostic>, state: Option<EnvironmentModel>)
    ensures HasError(configDiags) ==> diags == configDiags && state == None
    ensures !HasError(configDiags) && api.Err? ==>
      diags == configDiags + [ErrorDiag(Summary, L.NoClientDetail)] && state == None
    ensures !HasError(configDiags) && api.Ok? && FindEnvironment(api.value, data).Err? ==>
      diags == configDiags + [ErrorDiag(Summary, FindEnvironment(api.value, data).error)] && state == None
    ensures !HasError(configDiags) && api.Ok? && FindEnvironment(api.value, data).Ok? ==>
      diags == configDiags && state.Some? && StateOf(state.value, FindEnvironment(api.value, data).value)
  {
    diags := configDiags;
    state := None;
    if HasError(diags) {
      return;
    }
    if api.Err? {
      diags := diags + [ErrorDiag(Summary, L.NoClientDetail)];
      return;
    }
    var found := GetEnvironment(api.value, data);
    if found.Err? {
      diags := diags + [ErrorDiag(Summary, found.error)];
      return;
    }
    var e := found.value;
    state := Some(EnvironmentModel(Convert.ToType(e.active), Convert.ToType(e.code), Convert.ToType(e.description),
                                   Convert.ToType(e.id), Convert.ToType(e.name), Convert.ToType(e.visibility)));
  }
}
