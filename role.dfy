/**
 * The role resource (resources/role/resource.go): create a role from the
 * plan and read it back, read, delete and import by numeric id. Updates
 * are refused.
 */
module RoleResource {
  import opened Wrappers
  import opened Framework
  import Text
  import Convert
  import Sdk

  /** A role as the API returns it. */
  datatype Role = Role(id: Option<int>, name: Option<string>, description: Option<string>,
                       multitenant: Option<bool>, roleType: Option<string>)

  /** The resource's plan and state. */
  datatype RoleModel = RoleModel(id: Value<int>, name: Value<string>, description: Value<string>,
                                 multitenant: Value<bool>, roleType: Value<string>)

  /** The zero `RoleModel`: every attribute null. */
  const EmptyModel := RoleModel(Null, Null, Null, Null, Null)

  /** The body of an add-role request; an optional field is None when it was not set. */
  datatype AddRoleRequest = AddRoleRequest(authority: string, description: Option<string>,
                                           multitenant: Option<bool>, roleType: Option<string>)

  /** The roles endpoints. */
  datatype RolesApi = RolesApi(getRole: int -> Sdk.Reply<Role>, addRoles: AddRoleRequest -> Sdk.Reply<Role>,
                               deleteRole: int -> Sdk.Reply<()>)

  const CreateSummary := "create role resource"
  const ReadSummary := "read role resource"

  /**
   * `getRoleAsState`: the role's attributes copied into a fresh model; a
   * failed GET yields the empty model and one error.
   */
  function RoleAsState(api: RolesApi, id: int): (r: (RoleModel, seq<Diagnostic>))
    ensures HasError(r.1) <==> !Sdk.Succeeded(api.getRole(id))
    ensures !Sdk.Succeeded(api.getRole(id)) ==>
      r.0 == EmptyModel
      && r.1 == [ErrorDiag("populate role resource",
                           "role " + Text.IntToDecimal(id) + " GET failed: " + Sdk.FailureText(api.getRole(id)))]
    ensures Sdk.Succeeded(api.getRole(id)) ==> r.1 == [] && CopiesRole(r.0, api.getRole(id).value)
  {
    var reply := api.getRole(id);
    if !Sdk.Succeeded(reply) then
      var d := [ErrorDiag("populate role resource",
                          "role " + Text.IntToDecimal(id) + " GET failed: " + Sdk.FailureText(reply))];
      assert d[0].severity == Error;
      (EmptyModel, d)
    else
      var role := reply.value;
      (RoleModel(Convert.ToType(role.id), Convert.ToType(role.name), Convert.ToType(role.description),
                 Convert.ToType(role.multitenant), Convert.ToType(role.roleType)), [])
  }

  /** The model holds exactly the role's id, name, description, multitenant flag and role type. */
  predicate CopiesRole(m: RoleModel, role: Role)
  {
    && m.id == Convert.ToType(role.id) && m.name == Convert.ToType(role.name)
    && m.description == Convert.ToType(role.description) && m.multitenant == Convert.ToType(role.multitenant)
    && m.roleType == Convert.ToType(role.roleType)
  }

  /**
   * The request Create sends: the plan name as authority; description,
   * multitenant and role type only when not unknown.
   */
  function RequestFor(plan: RoleModel): (r: AddRoleRequest)
    ensures r.authority == ValueString(plan.name)
    ensures r.description.Some? <==> !plan.description.IsUnknown()
    ensures r.description.Some? ==> r.description.value == ValueString(plan.description)
    ensures r.multitenant.Some? <==> !plan.multitenant.IsUnknown()
    ensures r.multitenant.Some? ==> r.multitenant.value == ValueBool(plan.multitenant)
    ensures r.roleType.Some? <==> !plan.roleType.IsUnknown()
    ensures r.roleType.Some? ==> r.roleType.value == ValueString(plan.roleType)
  {
    AddRoleRequest(ValueString(plan.name),
                   if plan.description.IsUnknown() then None else Some(ValueString(plan.description)),
                   if plan.multitenant.IsUnknown() then None else Some(ValueBool(plan.multitenant)),
                   if plan.roleType.IsUnknown() then None else Some(ValueString(plan.roleType)))
  }

  /**
   * A role type that is not unknown must be "user". A null role type reads
   * as "" and is refused too.
   */
  predicate RoleTypeRefused(plan: RoleModel)
  {
    !plan.roleType.IsUnknown() && ValueString(plan.roleType) != "user"
  }

  /**
   * `Create`. `posted` is the request sent to the API, if any; `writes` are
   * the successive state writes. The id is written as soon as it is known,
   * then replaced by the state read back from the API.
   */
  method Create(plan: RoleModel, planDiags: seq<Diagnostic>, client: Result<RolesApi>)
    returns (diags: seq<Diagnostic>, posted: Option<AddRoleRequest>, writes: seq<RoleModel>)
    ensures HasError(planDiags) ==> diags == planDiags && posted == None && writes == []
    ensures !HasError(planDiags) && RoleTypeRefused(plan) ==>
      posted == None && writes == []
      && diags == planDiags + [ErrorDiag(CreateSummary, "role " + ValueString(plan.name) + ": currently only 'user' role_type is supported")]
    ensures !HasError(planDiags) && !RoleTypeRefused(plan) && client.Err? ==>
      posted == None && writes == []
      && diags == planDiags + [ErrorDiag(CreateSummary, "role " + ValueString(plan.name) + ": failed to create client: " + client.error)]
    ensures !HasError(planDiags) && !RoleTypeRefused(plan) && client.Ok? ==> posted == Some(RequestFor(plan))
    ensures posted.Some? && !Sdk.Succeeded(client.value.addRoles(posted.value)) ==>
      writes == [] && diags == planDiags + [ErrorDiag(CreateSummary, "role " + ValueString(plan.name) + " POST failed: "
                                                        + Sdk.FailureText(client.value.addRoles(posted.value)))]
    ensures posted.Some? && Sdk.Succeeded(client.value.addRoles(posted.value)) && client.value.addRoles(posted.value).value.id.None? ==>
      writes == [] && diags == planDiags + [ErrorDiag(CreateSummary, "role " + ValueString(plan.name) + ": id is nil")]
    ensures posted.Some? && Sdk.Succeeded(client.value.addRoles(posted.value)) && client.value.addRoles(posted.value).value.id.Some? ==>
      var id := client.value.addRoles(posted.value).value.id.value;
      var back := RoleAsState(client.value, id);
      && |writes| >= 1 && writes[0] == plan.(id := Known(id))
      && (HasError(back.1) ==>
            writes == [writes[0]] && diags == planDiags + back.1 + [ErrorDiag(CreateSummary, "role " + Text.IntToDecimal(id) + ": failed to read from api")])
      && (!HasError(back.1) ==> writes == [writes[0], back.0] && diags == planDiags)
  {
    diags, posted, writes := planDiags, None, [];
    if HasError(diags) {
      return;
    }
    var name := ValueString(plan.name);
    if RoleTypeRefused(plan) {
      diags := diags + [ErrorDiag(CreateSummary, "role " + name + ": currently only 'user' role_type is supported")];
      return;
    }
    var req := RequestFor(plan);
    if client.Err? {
      diags := diags + [ErrorDiag(CreateSummary, "role " + name + ": failed to create client: " + client.error)];
      return;
    }
    var api := client.value;
    posted := Some(req);
    var reply := api.addRoles(req);
    if !Sdk.Succeeded(reply) {
      diags := diags + [ErrorDiag(CreateSummary, "role " + name + " POST failed: " + Sdk.FailureText(reply))];
      return;
    }
    if reply.value.id.None? {
      diags := diags + [ErrorDiag(CreateSummary, "role " + name + ": id is nil")];
      return;
    }
    var id := reply.value.id.value;
    writes := writes + [plan.(id := Known(id))];
    var back := RoleAsState(api, id);
    if HasError(back.1) {
      diags := diags + back.1 + [ErrorDiag(CreateSummary, "role " + Text.IntToDecimal(id) + ": failed to read from api")];
      return;
    }
    writes := writes + [back.0];
  }

  /**
   * `Read`: a failed state read stops silently (its diagnostics are not
   * reported); otherwise the role with the state's id is read back.
   */
  method Read(current: RoleModel, stateDiags: seq<Diagnostic>, client: Result<RolesApi>)
    returns (diags: seq<Diagnostic>, written: Option<RoleModel>)
    ensures HasError(stateDiags) ==> diags == [] && written == None
    ensures !HasError(stateDiags) && client.Err? ==>
      diags == [ErrorDiag(ReadSummary, "new client call failed with " + client.error)] && written == None
    ensures !HasError(stateDiags) && client.Ok? ==>
      var back := RoleAsState(client.value, ValueInt64(current.id));
      && (HasError(back.1) ==>
            written == None && diags == back.1 + [ErrorDiag(ReadSummary, "role " + Text.IntToDecimal(ValueInt64(current.id)) + ": failed to read from api")])
      && (!HasError(back.1) ==> written == Some(back.0) && diags == [])
  {
    diags, written := [], None;
    if HasError(stateDiags) {
      return;
    }
    if client.Err? {
      diags := diags + [ErrorDiag(ReadSummary, "new client call failed with " + client.error)];
      return;
    }
    var id := ValueInt64(current.id);
    var back := RoleAsState(client.value, id);
    if HasError(back.1) {
      diags := diags + back.1 + [ErrorDiag(ReadSummary, "role " + Text.IntToDecimal(id) + ": failed to read from api")];
      return;
    }
    written := Some(back.0);
  }

  /** `Update` is not implemented: it always reports one error. */
  function Update(): (diags: seq<Diagnostic>)
    ensures HasError(diags) && |diags| == 1
    ensures diags[0] == ErrorDiag("update role resource", "update of 'role' resources has not been implemented")
  {
    var d := [ErrorDiag("update role resource", "update of 'role' resources has not been implemented")];
    assert d[0].severity == Error;
    d
  }

  /**
   * `Delete`: deletes the role with the state's id; a failed call is one
   * error. The client-creation error is ignored by the source, so a client
   * is taken as given.
   */
  function Delete(current: RoleModel, stateDiags: seq<Diagnostic>, api: RolesApi): (diags: seq<Diagnostic>)
    ensures HasError(stateDiags) ==> diags == stateDiags
    ensures !HasError(stateDiags) ==>
      (Sdk.Succeeded(api.deleteRole(ValueInt64(current.id))) <==> diags == stateDiags)
  {
    if HasError(stateDiags) then stateDiags
    else
      var id := ValueInt64(current.id);
      var reply := api.deleteRole(id);
      if Sdk.Succeeded(reply) then stateDiags
      else stateDiags + [ErrorDiag("delete role resource",
                                   "role " + Text.IntToDecimal(id) + ": DELETE failed " + Sdk.FailureText(reply))]
  }

  /** `ImportState`: the id must parse as an integer, which becomes the state's id. */
  function ImportState(importId: string): (r: (Option<int>, seq<Diagnostic>))
    ensures r.0.Some? <==> Text.Atoi(importId).Some?
    ensures r.0.Some? ==> r.0 == Text.Atoi(importId) && r.1 == []
    ensures r.0.None? ==>
      r.1 == [ErrorDiag("import role resource", "provided import ID '" + importId + "' is invalid (non-number)")]
  {
    match Text.Atoi(importId)
    case None => (None, [ErrorDiag("import role resource", "provided import ID '" + importId + "' is invalid (non-number)")])
    case Some(id) => (Some(id), [])
  }

  /** Importing the decimal form of any int64 role id restores that id. */
  lemma {:induction false} ImportOfDecimalId(id: int)
    requires Text.Int64Min <= id <= Text.Int64Max
    ensures ImportState(Text.IntToDecimal(id)) == (Some(id), [])
  {
    Text.AtoiOfDecimal(id);
  }
}
