/**
 * The user resource (resources/user/resource.go): create a user with its
 * role list and read it back, read, delete, and import from
 * `<id>,<password>`. Updates are refused. The password is never read from
 * the API: state keeps the one from the plan or the previous state.
 */
module UserResource {
  import opened Wrappers
  import opened Framework
  import Text
  import Convert
  import Sdk

  /** A role reference inside a user, as the API returns it. */
  datatype RoleRef = RoleRef(id: Option<int>)

  /** A user as the API returns it. */
  datatype User = User(id: Option<int>, username: Option<string>, email: Option<string>,
                       firstName: Option<string>, lastName: Option<string>,
                       linuxUsername: Option<string>, windowsUsername: Option<string>,
                       linuxKeyPairId: Option<int>, passwordExpired: Option<bool>,
                       receiveNotifications: Option<bool>, roles: seq<RoleRef>)

  /** The resource's plan and state. `roleIds` is a set of int64 values. */
  datatype UserModel = UserModel(id: Value<int>, username: Value<string>, email: Value<string>,
                                 password: Value<string>, firstName: Value<string>, lastName: Value<string>,
                                 linuxUsername: Value<string>, windowsUsername: Value<string>,
                                 linuxKeyPairId: Value<int>, passwordExpired: Value<bool>,
                                 receiveNotifications: Value<bool>, roleIds: Value<seq<Convert.AttrValue>>)

  const EmptyModel := UserModel(Null, Null, Null, Null, Null, Null, Null, Null, Null, Null, Null, Null)

  /** The body of an add-user request; optional fields are None when not set. */
  datatype AddUserRequest = AddUserRequest(username: string, email: string, password: string, roles: seq<int>,
                                           firstName: Option<string>, lastName: Option<string>,
                                           linuxUsername: Option<string>, windowsUsername: Option<string>,
                                           linuxKeyPairId: Option<int>, receiveNotifications: Option<bool>)

  datatype UsersApi = UsersApi(getUser: int -> Sdk.Reply<User>, addUser: AddUserRequest -> Sdk.Reply<User>,
                               deleteUser: int -> Sdk.Reply<()>)

  const CreateSummary := "create user resource"
  const ReadSummary := "read user resource"
  const ImportSummary := "import user resource"

  /** The plan's role ids: the known set's elements, or none when null or unknown. */
  function PlanRoleIds(plan: UserModel): seq<int>
  {
    if plan.roleIds.Known? then KnownInt64s(plan.roleIds.v) else []
  }

  /** The int64 elements of a set (`ElementsAs` into `[]int64`); a null element reads as 0. */
  function KnownInt64s(vals: seq<Convert.AttrValue>): (r: seq<int>)
    ensures |r| == |vals|
    ensures forall i :: 0 <= i < |vals| && vals[i].Int64Val? ==> r[i] == ValueInt64(vals[i].i)
  {
    seq(|vals|, i requires 0 <= i < |vals| => if vals[i].Int64Val? then ValueInt64(vals[i].i) else 0)
  }

  /** The user copied into a model; the password is not part of the API's answer. */
  predicate CopiesUser(m: UserModel, u: User)
  {
    && m.id == Convert.ToType(u.id) && m.username == Convert.ToType(u.username)
    && m.email == Convert.ToType(u.email) && m.firstName == Convert.ToType(u.firstName)
    && m.lastName == Convert.ToType(u.lastName) && m.linuxUsername == Convert.ToType(u.linuxUsername)
    && m.windowsUsername == Convert.ToType(u.windowsUsername) && m.linuxKeyPairId == Convert.ToType(u.linuxKeyPairId)
    && m.passwordExpired == Convert.ToType(u.passwordExpired)
    && m.receiveNotifications == Convert.ToType(u.receiveNotifications)
    && m.roleIds.Known? && |m.roleIds.v| == |u.roles|
    && (forall i :: 0 <= i < |u.roles| ==> m.roleIds.v[i] == Convert.Int64Val(Convert.ToType(u.roles[i].id)))
  }

  /** The outcome of `getUserAsState`: the copied user, or the empty model and one error. */
  function UserAsState(api: UsersApi, id: int): (r: (UserModel, seq<Diagnostic>))
    ensures HasError(r.1) <==> !Sdk.Succeeded(api.getUser(id))
    ensures !Sdk.Succeeded(api.getUser(id)) ==>
      r.0 == EmptyModel
      && r.1 == [ErrorDiag("populate user resource",
                           "user " + Text.IntToDecimal(id) + " GET failed: " + Sdk.FailureText(api.getUser(id)))]
    ensures Sdk.Succeeded(api.getUser(id)) ==> r.1 == [] && CopiesUser(r.0, api.getUser(id).value)
  {
    var reply := api.getUser(id);
    if !Sdk.Succeeded(reply) then
      var d := [ErrorDiag("populate user resource",
                          "user " + Text.IntToDecimal(id) + " GET failed: " + Sdk.FailureText(reply))];
      assert d[0].severity == Error;
      (EmptyModel, d)
    else
      var u := reply.value;
      (UserModel(Convert.ToType(u.id), Convert.ToType(u.username), Convert.ToType(u.email), Null,
                 Convert.ToType(u.firstName), Convert.ToType(u.lastName), Convert.ToType(u.linuxUsername),
                 Convert.ToType(u.windowsUsername), Convert.ToType(u.linuxKeyPairId),
                 Convert.ToType(u.passwordExpired), Convert.ToType(u.receiveNotifications),
                 Known(seq(|u.roles|, i requires 0 <= i < |u.roles| => Convert.Int64Val(Convert.ToType(u.roles[i].id))))), [])
  }

  /**
   * `getUserAsState`. The set construction cannot fail, since every element
   * is an int64 value, so its error branch is dead.
   */
  method GetUserAsState(api: UsersApi, id: int) returns (state: UserModel, diags: seq<Diagnostic>)
    ensures (state, diags) == UserAsState(api, id)
  {
    var reply := api.getUser(id);
    if !Sdk.Succeeded(reply) {
      return EmptyModel, [ErrorDiag("populate user resource",
                                    "user " + Text.IntToDecimal(id) + " GET failed: " + Sdk.FailureText(reply))];
    }
    var u := reply.value;
    var roleIDValues: seq<Convert.AttrValue> := [];
    var i := 0;
    while i < |u.roles|
      invariant 0 <= i <= |u.roles|
      invariant |roleIDValues| == i
      invariant forall k :: 0 <= k < i ==> roleIDValues[k] == Convert.Int64Val(Convert.ToType(u.roles[k].id))
    {
      roleIDValues := roleIDValues + [Convert.Int64Val(Convert.ToType(u.roles[i].id))];
      i := i + 1;
    }
    assert roleIDValues == seq(|u.roles|, k requires 0 <= k < |u.roles| => Convert.Int64Val(Convert.ToType(u.roles[k].id)));
    var roleIDSet := Convert.SetValue(Convert.Int64Type, roleIDValues);
    assert roleIDSet.Some?;
    diags := [];
    state := UserModel(Convert.ToType(u.id), Convert.ToType(u.username), Convert.ToType(u.email), Null,
                       Convert.ToType(u.firstName), Convert.ToType(u.lastName), Convert.ToType(u.linuxUsername),
                       Convert.ToType(u.windowsUsername), Convert.ToType(u.linuxKeyPairId),
                       Convert.ToType(u.passwordExpired), Convert.ToType(u.receiveNotifications), Known(roleIDSet.value));
  }

  /**
   * The request Create sends: username, email, password and the plan's role
   * ids in order always; each optional field only when not unknown.
   */
  function RequestFor(plan: UserModel): (r: AddUserRequest)
    ensures r.username == ValueString(plan.username) && r.email == ValueString(plan.email)
    ensures r.password == ValueString(plan.password) && r.roles == PlanRoleIds(plan)
    ensures r.firstName.Some? <==> !plan.firstName.IsUnknown()
    ensures r.lastName.Some? <==> !plan.lastName.IsUnknown()
    ensures r.linuxUsername.Some? <==> !plan.linuxUsername.IsUnknown()
    ensures r.windowsUsername.Some? <==> !plan.windowsUsername.IsUnknown()
    ensures r.linuxKeyPairId.Some? <==> !plan.linuxKeyPairId.IsUnknown()
    ensures r.receiveNotifications.Some? <==> !plan.receiveNotifications.IsUnknown()
  {
    AddUserRequest(ValueString(plan.username), ValueString(plan.email), ValueString(plan.password), PlanRoleIds(plan),
                   if plan.firstName.IsUnknown() then None else Some(ValueString(plan.firstName)),
                   if plan.lastName.IsUnknown() then None else Some(ValueString(plan.lastName)),
                   if plan.linuxUsername.IsUnknown() then None else Some(ValueString(plan.linuxUsername)),
                   if plan.windowsUsername.IsUnknown() then None else Some(ValueString(plan.windowsUsername)),
                   if plan.linuxKeyPairId.IsUnknown() then None else Some(ValueInt64(plan.linuxKeyPairId)),
                   if plan.receiveNotifications.IsUnknown() then None else Some(ValueBool(plan.receiveNotifications)))
  }

  /**
   * `Create`. `posted` is the request sent, if any; `writes` the successive
   * state writes: the plan with its new id first, then the user read back
   * with the plan's password.
   */
  method Create(plan: UserModel, planDiags: seq<Diagnostic>, client: Result<UsersApi>)
    returns (diags: seq<Diagnostic>, posted: Option<AddUserRequest>, writes: seq<UserModel>)
    ensures HasError(planDiags) ==> diags == planDiags && posted == None && writes == []
    ensures !HasError(planDiags) && client.Err? ==>
      posted == None && writes == []
      && diags == planDiags + [ErrorDiag(CreateSummary, "user " + ValueString(plan.username) + ": failed to create client: " + client.error)]
    ensures !HasError(planDiags) && client.Ok? ==> posted == Some(RequestFor(plan))
    ensures posted.Some? && !Sdk.Succeeded(client.value.addUser(posted.value)) ==>
      writes == [] && diags == planDiags + [ErrorDiag(CreateSummary, "user " + ValueString(plan.username) + " POST failed: "
                                                        + Sdk.FailureText(client.value.addUser(posted.value)))]
    ensures posted.Some? && Sdk.Succeeded(client.value.addUser(posted.value)) && client.value.addUser(posted.value).value.id.None? ==>
      writes == [] && diags == planDiags + [ErrorDiag(CreateSummary, "user " + ValueString(plan.username) + ": id is nil")]
    ensures posted.Some? && Sdk.Succeeded(client.value.addUser(posted.value)) && client.value.addUser(posted.value).value.id.Some? ==>
      var id := client.value.addUser(posted.value).value.id.value;
      var back := UserAsState(client.value, id);
      && |writes| >= 1 && writes[0] == plan.(id := Known(id))
      && (HasError(back.1) ==>
            writes == [writes[0]]
            && diags == planDiags + back.1 + [ErrorDiag(CreateSummary, "user " + Text.IntToDecimal(id) + ": failed to read from api")])
      && (!HasError(back.1) ==> writes == [writes[0], back.0.(password := plan.password)] && diags == planDiags)
  {
    diags, posted, writes := planDiags, None, [];
    if HasError(diags) {
      return;
    }
    var roleIDs := PlanRoleIds(plan);
    var roles: seq<int> := [];
    var i := 0;
    while i < |roleIDs|
      invariant 0 <= i <= |roleIDs|
      invariant roles == roleIDs[..i]
    {
      roles := roles + [roleIDs[i]];
      i := i + 1;
    }
    assert roles == roleIDs;
    var username := ValueString(plan.username);
    var req := RequestFor(plan).(roles := roles);
    if client.Err? {
      diags := diags + [ErrorDiag(CreateSummary, "user " + username + ": failed to create client: " + client.error)];
      return;
    }
    var api := client.value;
    posted := Some(req);
    var reply := api.addUser(req);
    if !Sdk.Succeeded(reply) {
      diags := diags + [ErrorDiag(CreateSummary, "user " + username + " POST failed: " + Sdk.FailureText(reply))];
      return;
    }
    if reply.value.id.None? {
      diags := diags + [ErrorDiag(CreateSummary, "user " + username + ": id is nil")];
      return;
    }
    var id := reply.value.id.value;
    writes := writes + [plan.(id := Known(id))];
    var state, pdiags := GetUserAsState(api, id);
    if HasError(pdiags) {
      diags := diags + pdiags + [ErrorDiag(CreateSummary, "user " + Text.IntToDecimal(id) + ": failed to read from api")];
      return;
    }
    writes := writes + [state.(password := plan.password)];
  }

  /**
   * `Read`: a failed state read stops silently; otherwise the user with the
   * state's id is read back, keeping the state's password.
   */
  method Read(current: UserModel, stateDiags: seq<Diagnostic>, client: Result<UsersApi>)
    returns (diags: seq<Diagnostic>, written: Option<UserModel>)
    ensures HasError(stateDiags) ==> diags == [] && written == None
    ensures !HasError(stateDiags) && client.Err? ==>
      diags == [ErrorDiag(ReadSummary, "new client call failed with " + client.error)] && written == None
    ensures !HasError(stateDiags) && client.Ok? ==>
      var back := UserAsState(client.value, ValueInt64(current.id));
      && (HasError(back.1) ==>
            written == None
            && diags == back.1 + [ErrorDiag(ReadSummary, "user " + Text.IntToDecimal(ValueInt64(current.id)) + ": failed to read from api")])
      && (!HasError(back.1) ==> written == Some(back.0.(password := current.password)) && diags == [])
  {
    diags, written := [], None;
    if HasError(stateDiags) {
      return;
    }
    if client.Err? {
      diags := diags + [ErrorDiag(ReadSummary, "new client call failed with " + client.error)];
      return;
    }
    var id := ValueInt64(current.id);
    var state, pdiags := GetUserAsState(client.value, id);
    if HasError(pdiags) {
      diags := diags + pdiags + [ErrorDiag(ReadSummary, "user " + Text.IntToDecimal(id) + ": failed to read from api")];
      return;
    }
    written := Some(state.(password := current.password));
  }

  /** `Update` is not implemented: it always reports one error. */
  function Update(): (diags: seq<Diagnostic>)
    ensures HasError(diags) && |diags| == 1
    ensures diags[0] == ErrorDiag("update user resource", "update of 'user' resources has not been implemented")
  {
    var d := [ErrorDiag("update user resource", "update of 'user' resources has not been implemented")];
    assert d[0].severity == Error;
    d
  }

  /** `Delete`: deletes the user with the state's id; a failed call is one error. */
  function Delete(current: UserModel, stateDiags: seq<Diagnostic>, api: UsersApi): (diags: seq<Diagnostic>)
    ensures HasError(stateDiags) ==> diags == stateDiags
    ensures !HasError(stateDiags) ==>
      (Sdk.Succeeded(api.deleteUser(ValueInt64(current.id))) <==> diags == stateDiags)
  {
    if HasError(stateDiags) then stateDiags
    else
      var id := ValueInt64(current.id);
      var reply := api.deleteUser(id);
      if Sdk.Succeeded(reply) then stateDiags
      else stateDiags + [ErrorDiag("delete user resource",
                                   "user " + Text.IntToDecimal(id) + ": DELETE failed " + Sdk.FailureText(reply))]
  }

  /** The attributes an import sets, and its diagnostics. */
  datatype Imported = Imported(id: Option<int>, password: Option<string>, diags: seq<Diagnostic>)

  const FormatError := ErrorDiag(ImportSummary, "expected import format: <id>,<password>")

  function NonNumberError(importId: string): Diagnostic
  {
    ErrorDiag(ImportSummary, "provided import ID '" + importId + "' is invalid (non-number)")
  }

  /**
   * `ImportState` as written: after a missing comma the error is added but
   * the function goes on to index the second part, which does not exist.
   * The precondition is the condition under which that index is in range.
   */
  function ImportStateAsWritten(importId: string): (r: Imported)
    requires |Text.SplitFirst(importId, ',')| == 2
    ensures var parts := Text.SplitFirst(importId, ',');
      (r.id.Some? <==> Text.Atoi(parts[0]).Some?)
      && (r.id.Some? ==> r == Imported(Text.Atoi(parts[0]), Some(parts[1]), []))
      && (r.id.None? ==> r == Imported(None, None, [NonNumberError(importId)]))
  {
    var parts := Text.SplitFirst(importId, ',');
    var diags := if |parts| != 2 then [FormatError] else [];
    var password := parts[1];
    match Text.Atoi(parts[0])
    case None => Imported(None, None, diags + [NonNumberError(importId)])
    case Some(id) => Imported(Some(id), Some(password), diags)
  }

  /** An import ID without a comma, such as "42", sends the as-written import past the end of its parts. */
  lemma ImportWithoutCommaIsOutOfRange()
    ensures |Text.SplitFirst("42", ',')| == 1
  {
    assert ',' !in "42" by {
      assert "42"[0] != ',' && "42"[1] != ',';
    }
  }

  /**
   * `ImportState` with the missing return restored: a missing comma is one
   * format error; the part before the first comma must be an integer and
   * the rest, commas included, is the password.
   */
  function ImportState(importId: string): (r: Imported)
    ensures ',' !in importId ==> r == Imported(None, None, [FormatError])
    ensures r.id.Some? <==> ',' in importId && Text.Atoi(Text.SplitFirst(importId, ',')[0]).Some?
    ensures r.id.Some? ==>
      ',' in importId && r.diags == [] && r.password.Some?
      && importId == Text.SplitFirst(importId, ',')[0] + "," + r.password.value
    ensures ',' in importId && r.id.None? ==> r == Imported(None, None, [NonNumberError(importId)])
  {
    var parts := Text.SplitFirst(importId, ',');
    if |parts| != 2 then Imported(None, None, [FormatError])
    else
      match Text.Atoi(parts[0])
      case None => Imported(None, None, [NonNumberError(importId)])
      case Some(id) => Imported(Some(id), Some(parts[1]), [])
  }

  /** Importing `<id>,<password>` restores the id and the whole password, whatever commas it holds. */
  lemma {:induction false} ImportRoundTrip(id: int, password: string)
    requires Text.Int64Min <= id <= Text.Int64Max
    ensures ImportState(Text.IntToDecimal(id) + "," + password) == Imported(Some(id), Some(password), [])
  {
    var d := Text.IntToDecimal(id);
    Text.DecimalHasNo(id, ',');
    assert d + "," + password == d + [','] + password;
    Text.SplitFirstOf(d, ',', password);
    Text.AtoiOfDecimal(id);
  }
}
