# Morpheus sub-provider of the HPE Terraform provider, in Dafny

This project models the Morpheus sub-provider of the HPE Terraform provider
and the composite provider that hosts it. It also proves properties of that
model. The modelled parts are:

- **Provider** (`provider.dfy`). `HPEProvider` merges its sub-providers:
  - one list block of at most one element per sub-provider name;
  - each sub-provider gets the block list stored under its name;
  - resources and data sources are concatenated in order.
- **Sub-provider** (`morpheus.dfy`). Its name is `morpheus`. It has a block
  schema whose validators accept exactly a URL plus either a username/password
  pair or an access token. It registers the user and role resources and the
  group data source. `Configure` turns zero, one or several blocks into
  nothing, a client factory, or an error.
- **Client factory** (`clientfactory.dfy`). It captures a block and derives
  the client options. When no custom client is given, `NewAPIClient`
  composes the transport in this order:
  - a TLS base that skips verification exactly when `insecure` is set;
  - an optional trace layer;
  - the token or the credentials round-tripper.
  The client has a 15-second timeout. As written, a custom client is then
  dropped (`NewAPIClientAsWritten`). The factory uses the corrected
  `NewAPIClient`, which installs it (see Findings).
- **Auth round-trippers** (`creds.dfy`, `token.dfy`). These are classes over
  an oracle base transport and an oracle token endpoint (`http.dfy`). Each
  method's new state is tied to a pure step function, and the properties are
  proved about runs of those steps:
  - one first-time token fetch guarded by a flag;
  - on a 401, one refresh and one retry;
  - the static-token header set on the first request only.
- **Older client wrapper** (`client.dfy`). The client is the transport of
  the SDK client that sends its own token request. So the token request goes
  through the client's round trip and can itself trigger a refresh. A
  `depth` bounds that nesting and stands for the stack.
- **Configure mixins** (`configure.dfy`). They pick the factory out of the
  provider data, or report the missing block.
- **Data sources** (`cloud.dfy`, `environment.dfy`, `group.dfy`, with the
  shared `lookup.dfy`). A lookup goes by id first, then by exact name, and
  must find exactly one match. The found item is copied into state.
- **Resources** (`role.dfy`, `user.dfy`). Each covers create and read-back,
  read, refused update, delete and import.
- **Helpers**:
  - null-aware conversions (`convert.dfy`);
  - the error formatter (`errors.dfy`) over the SDK reply shape (`sdk.dfy`);
  - the require-on-create plan modifier (`modifiers.dfy`);
  - the legacy cached-client configuration (`legacy.dfy`);
  - the example-template renderer (`examples.dfy`);
  - `strconv`/`strings` stand-ins (`text.dfy`);
  - plugin-framework values, diagnostics and schema validators (`framework.dfy`).

SDK endpoints, the file system and the network are parameters. An endpoint is
a function from its request to its reply. The base HTTP transport and the
token endpoint are oracles that answer their n-th call.

Where the documented design and the code differ, the model follows the code:

- The credentials round-tripper guards its first fetch with a boolean flag.
  The flag is raised before the fetch, so a failed first fetch is never
  retried by `InitAuthHeader`. Only a later 401 fetches again.
- The static-token round-tripper sets its header on the first request only.
  Later requests go out without it.
- The trace transport wraps the TLS base, inside the auth round-tripper.
- The provider's `Configure` discards what the sub-providers return.
  `Configure` is modelled as the list of calls it makes.
- `GetDataSources` registers only the group data source. The cloud and
  environment data sources are modelled but not registered.
- The role and user `Read` return silently when reading the state fails.
  They do not report those diagnostics.
- A role's `role_type` must be `user` unless it is unknown. A null role type
  reads as `""` and is refused too.
- The older client's token request is sent through the client itself, via
  the shared default HTTP client. A refresh therefore costs three sends, and
  a token request refused with 401 refreshes again (see Findings).
- The plan modifier drops an id read's diagnostics when they hold warnings
  only, and goes on.

One exception: the client factory's `NewClient`, the configure mixins'
`NewClient` and `FactoryClientShape` use the corrected `NewAPIClient`, which
installs a custom client. As written it is dropped; see Findings.

Several caller and callee signatures in the source disagree. Each body is
modelled as written, and the call is modelled as the caller makes it:

- clientfactory.go passes a base transport to both round-tripper
  constructors. Their definitions take none and build their own transport.
  The constructors here take the base, as the call site passes it.
- `model.SubModel` has no `insecure` field, but clientfactory.go reads one.
  `SubModel` here has it.
- provider.go calls `GetName` and `Configure` without the context argument
  that morpheus.go declares.

## Model

| member | source | states |
|---|---|---|
| Http.Request.Set | internal/subproviders/morpheus/auth/creds.go:64-67 | the header map changes at that key only |
| Http.BaseTransport.RoundTrip | internal/subproviders/morpheus/auth/creds.go:79 | the reply is the oracle's answer to the n-th request; the request is appended to the log |
| Http.TokenEndpoint.GetAccessToken | internal/subproviders/morpheus/auth/creds.go:26-33 | the reply is the oracle's n-th answer; the grant is appended to the log |
| Http.ApiConfig.AddDefaultHeader | internal/subproviders/morpheus/auth/creds.go:41-43 | the default headers change at that key only; the server URL is kept |
| TokenGrant.AuthFailure | internal/subproviders/morpheus/auth/creds.go:35-38 | the refusal message contains the username right after the fixed prefix |
| CredsAuth.GetTokenStep | internal/subproviders/morpheus/auth/creds.go:25-46 | exactly one password grant is requested; success iff the endpoint grants; success sets the default bearer header; a refusal gives the authentication error and changes no header |
| CredsAuth.InitStep | internal/subproviders/morpheus/auth/creds.go:49-71 | once the flag is raised, the request passes untouched and nothing is fetched; the first call raises the flag and fetches once; the header is set iff the fetch succeeds; a failure is remembered |
| CredsAuth.RoundTripStep | internal/subproviders/morpheus/auth/creds.go:73-108 | a failed initialisation never reaches the transport; a non-401 reply is returned after one send; a 401 causes exactly one refresh, then one retry with the new bearer token, or the refresh error; at most 2 sends per request |
| CredsAuth.Run | internal/subproviders/morpheus/auth/creds.go:73-108 | a run has one step per request |
| CredsAuth.LaterRequestsSkipInit | internal/subproviders/morpheus/auth/creds.go:53-57 | every request after the first finds the flag raised, and its initialisation is a no-op |
| CredsAuth.RunBounds | internal/subproviders/morpheus/auth/creds.go:73-108 | over n requests: at most 2n sends, and at most n refreshes plus the single first-time fetch |
| CredsAuth.CredsRoundTripper.constructor | internal/subproviders/morpheus/auth/creds.go:110-137 | the round-tripper starts with the flag down and keeps its transport, endpoint and credentials |
| CredsAuth.CredsRoundTripper.GetToken | internal/subproviders/morpheus/auth/creds.go:25-46 | the new state and error are those of GetTokenStep |
| CredsAuth.CredsRoundTripper.InitAuthHeader | internal/subproviders/morpheus/auth/creds.go:49-71 | the new state, request header and error are those of InitStep |
| CredsAuth.CredsRoundTripper.RoundTrip | internal/subproviders/morpheus/auth/creds.go:73-108 | the new state, request header and reply are those of RoundTripStep |
| TokenAuth.InitStep | internal/subproviders/morpheus/auth/token.go:18-30 | the flag is raised; the bearer header is set iff the flag was down; otherwise the request passes untouched |
| TokenAuth.RoundTripStep | internal/subproviders/morpheus/auth/token.go:32-38 | exactly one send; its reply is returned unchanged, a 401 included |
| TokenAuth.Run | internal/subproviders/morpheus/auth/token.go:32-38 | a run has one step per request |
| TokenAuth.RunSendsEachOnce | internal/subproviders/morpheus/auth/token.go:18-38 | request k is sent exactly once, in order; only the first request gets the bearer header (on a fresh round-tripper); every later one goes out as given |
| TokenAuth.TokenRoundTripper.constructor | internal/subproviders/morpheus/auth/token.go:40-54 | the round-tripper starts with the flag down and keeps its token and transport |
| TokenAuth.TokenRoundTripper.InitAuthHeader | internal/subproviders/morpheus/auth/token.go:18-30 | never fails; the new state and header are those of InitStep |
| TokenAuth.TokenRoundTripper.RoundTrip | internal/subproviders/morpheus/auth/token.go:32-38 | the new state, header and reply are those of RoundTripStep |
| LegacyClient.RoundTripStep | internal/subproviders/morpheus/client/client.go:58-94 | with stack left, the request is sent first; a transport error or non-401 reply is returned after that one send; a 401 without credentials gives no fetch and one retry with the current default header; a 401 with credentials builds one grant first, whose token request goes through this same round trip; with no stack left, Overflow |
| LegacyClient.RefreshOutcome | internal/subproviders/morpheus/client/client.go:79-93 | after a 401 with credentials, the fetch runs one level deeper and Resume follows; a failed fetch returns its error and nothing is retried |
| LegacyClient.Resume | internal/subproviders/morpheus/client/client.go:79-93 | a failed fetch gives its error and no retry; a fetch out of stack gives Overflow; otherwise one retry carrying the default Authorization header the fetch left |
| LegacyClient.GetTokenStep | internal/subproviders/morpheus/client/client.go:96-115 | one grant with the stored credentials; the token request carries the default headers and goes through RoundTripStep; a success leaves a bearer token as the default Authorization header; a failure is the authentication error for that username |
| LegacyClient.RefreshTakesThreeSends | internal/subproviders/morpheus/client/client.go:49-51 | an ordinary refresh sends the request, the token request (carrying the default headers) and the retry with the new bearer token: three sends and one grant; the default header then holds the new token |
| LegacyClient.UnauthorizedRefreshNeverEnds | internal/subproviders/morpheus/client/client.go:79-80 | as written: with credentials set and a server that answers every request with 401, a round trip exhausts any stack depth |
| LegacyClient.UnauthorizedFetchNeverEnds | internal/subproviders/morpheus/client/client.go:96-104 | as written: against such a server the credential fetch exhausts any stack depth too |
| LegacyClient.GetTokenStepDirect | internal/subproviders/morpheus/client/client.go:96-115 | corrected: the token request is one send on the TLS transport; success iff the reply decodes to a token, which becomes the default bearer header; a failure changes no header |
| LegacyClient.RoundTripStepCorrected | internal/subproviders/morpheus/client/client.go:58-94 | corrected: every round trip ends, after at most three sends and at most one grant; a non-401 reply is returned after one send; a refused grant ends it with the authentication error and no retry; a granted token is carried by the one retry, the third send |
| LegacyClient.Client.New | internal/subproviders/morpheus/client/client.go:38-56 | the URL is kept on the client and on the server configuration; TLS verification is skipped as configured; no credentials, no token, no grants; the client becomes the shared default HTTP client's transport |
| LegacyClient.NewTwice | internal/subproviders/morpheus/client/client.go:49-51 | two clients created in turn share the default HTTP client, whose transport is then the second |
| LegacyClient.Client.RoundTrip | internal/subproviders/morpheus/client/client.go:58-94 | the new state, header and reply are those of RoundTripStep |
| LegacyClient.Client.GetTokenWithCredentials | internal/subproviders/morpheus/client/client.go:96-115 | the new state and result are those of GetTokenStep |
| LegacyClient.Client.SetAccessToken | internal/subproviders/morpheus/client/client.go:117-125 | never fails; the token is stored and becomes the default bearer header; nothing else changes |
| LegacyClient.Client.SetCredentials | internal/subproviders/morpheus/client/client.go:127-134 | the credentials are stored; exactly one fetch with them (GetTokenStep), whose result is returned |
| ClientFactory.Resolve | internal/subproviders/morpheus/clientfactory/clientfactory.go:82-111 | insecure iff some option is WithInsecureTLS; a custom client iff some option supplies one; that client comes from the last WithHTTPClient |
| ClientFactory.Layering | internal/subproviders/morpheus/clientfactory/clientfactory.go:116-141 | the outer layer is authentication; the trace layer is present iff tracing is on; the innermost layer is TLS, skipping verification iff insecure; token auth iff the token is non-empty, otherwise credentials auth with the URL, username and password |
| ClientFactory.InstalledClientAsWritten | internal/subproviders/morpheus/clientfactory/clientfactory.go:113-145 | as written: a custom client yields the SDK default client; otherwise the composed client with a 15 s timeout |
| ClientFactory.InstalledClient | internal/subproviders/morpheus/clientfactory/clientfactory.go:113-145 | corrected: a custom client is installed as is; otherwise the composed client with a 15 s timeout |
| ClientFactory.CustomClientDroppedAsWritten | internal/subproviders/morpheus/clientfactory/clientfactory.go:113-145 | as written, a WithHTTPClient client never reaches the API client |
| ClientFactory.ApplyOptions | internal/subproviders/morpheus/clientfactory/clientfactory.go:109-111 | the options are applied in order: the result is Resolve of them |
| ClientFactory.NewAPIClientAsWritten | internal/subproviders/morpheus/clientfactory/clientfactory.go:94-149 | the server URL is the given URL; a custom client leaves the SDK default client; otherwise the client is the composed Layering transport with a 15 s timeout |
| ClientFactory.NewAPIClient | internal/subproviders/morpheus/clientfactory/clientfactory.go:94-149 | corrected: the server URL is the given URL; a custom client is installed as given; otherwise the client is the composed Layering transport with a 15 s timeout |
| ClientFactory.FactoryFor | internal/subproviders/morpheus/clientfactory/clientfactory.go:26-62 | the factory keeps the block; its custom client is the last factory option's; its captured client options resolve to that client and the block's insecure flag |
| ClientFactory.ClientFactory.NewClient | internal/subproviders/morpheus/clientfactory/clientfactory.go:70-72 | never fails; the client is built from the captured block and options (BuiltFrom), through the corrected NewAPIClient |
| ClientFactory.New | internal/subproviders/morpheus/clientfactory/clientfactory.go:26-62 | the factory built has the shape FactoryFor states |
| ClientFactory.FactoryClientShape | internal/subproviders/morpheus/clientfactory/clientfactory.go:26-149 | end to end, with the corrected NewAPIClient, a factory's client targets the block URL and uses the last factory client if any; otherwise token auth iff the block has an access token, credentials auth with the block's username and password otherwise, and TLS verification off iff insecure |
| Morpheus.SubProvider.Configure | internal/subproviders/morpheus/morpheus.go:56-73 | no block: no data and no error; one block: the factory for that block built with the configured builder's options; more blocks: the block-length error and no data |
| Morpheus.New | internal/subproviders/morpheus/morpheus.go:39-54 | the default factory builder unless options are given; then the last WithClientFactory option wins |
| Morpheus.GetName | internal/subproviders/morpheus/morpheus.go:75-77 | the sub-provider is "morpheus" |
| Morpheus.SchemaAcceptsExactly | internal/subproviders/morpheus/morpheus.go:79-124 | the block's validators accept a set of attributes iff it has a URL, a username exactly when it has a password, and at least one of username or access token, never a token together with either credential, and nothing undeclared |
| Morpheus.GetResources | internal/subproviders/morpheus/morpheus.go:134-143 | the user and the role resources are registered, in that order |
| Morpheus.GetDataSources | internal/subproviders/morpheus/morpheus.go:126-132 | only the group data source is registered |
| Provider.MorpheusView | internal/provider/provider.go:21-31 | the provider sees the Morpheus sub-provider's name, schema, resources and data sources |
| Provider.LastNamed | internal/provider/provider.go:52-67 | the index of the last attribute map with that name, or -1 iff there is none |
| Provider.CreateListNestedBlock | internal/provider/provider.go:52-67 | one block per distinct name; each holds the attributes of the last map with that name and allows 0 to 1 elements |
| Provider.AttrMaps | internal/provider/provider.go:74-80 | one attribute map per sub-provider, in order, holding its name and schema |
| Provider.ConcatAppend | internal/provider/provider.go:105-125 | concatenating two lists of lists is the concatenation of the two concatenations |
| Provider.ConcatPlacesEachList | internal/provider/provider.go:105-125 | each sub-provider's list appears whole, in its place, in the merged list |
| Provider.ConcatLength | internal/provider/provider.go:105-125 | the merged list's length is the sum of the lengths |
| Provider.ResourceLists | internal/provider/provider.go:105-114 | the i-th list is the i-th sub-provider's resources |
| Provider.DataSourceLists | internal/provider/provider.go:116-125 | the i-th list is the i-th sub-provider's data sources |
| Provider.HPEProvider.Metadata | internal/provider/provider.go:38-45 | the type name is "hpe"; the version is the provider's |
| Provider.HPEProvider.Schema | internal/provider/provider.go:69-87 | a block exactly for each sub-provider name, holding the schema of the last sub-provider with that name, with 0 to 1 elements |
| Provider.HPEProvider.Configure | internal/provider/provider.go:89-103 | each sub-provider, in order, is called once, with the block list under its own name, or none |
| Provider.HPEProvider.Resources | internal/provider/provider.go:105-114 | the sub-providers' resources concatenated in order |
| Provider.HPEProvider.DataSources | internal/provider/provider.go:116-125 | the sub-providers' data sources concatenated in order |
| Provider.MorpheusOnlyRegistrations | internal/provider/provider.go:105-125 | a provider holding only the Morpheus sub-provider registers morpheus_user, morpheus_role and morpheus_group |
| Configure.Resolve | internal/subproviders/morpheus/configure/resource.go:24-55 | Skip iff there is no provider data; Store iff the data is a map holding a factory under "morpheus", which is stored; anything else is the missing-block error |
| Configure.ResourceWithMorpheusConfigure.BlockName | internal/subproviders/morpheus/configure/resource.go:20-22 | the block is named "morpheus" |
| Configure.ResourceWithMorpheusConfigure.Configure | internal/subproviders/morpheus/configure/resource.go:24-55 | the diagnostics are the resolution's; a found factory is stored; otherwise the stored factory is kept |
| Configure.ResourceWithMorpheusConfigure.NewClient | internal/subproviders/morpheus/configure/resource.go:57-61 | never fails; the client is built from the stored factory |
| Configure.DataSourceWithMorpheusConfigure.BlockName | internal/subproviders/morpheus/configure/datasource.go:20-22 | the block is named "morpheus" |
| Configure.DataSourceWithMorpheusConfigure.Configure | internal/subproviders/morpheus/configure/datasource.go:24-55 | the diagnostics are the resolution's; a found factory is stored; otherwise the stored factory is kept |
| Configure.DataSourceWithMorpheusConfigure.NewClient | internal/subproviders/morpheus/configure/datasource.go:57-61 | never fails; the client is built from the stored factory |
| Convert.ToType | internal/subproviders/morpheus/convert/convert.go:10-16 | nil iff null; a pointer becomes its known value; never unknown (also BoolToType 36-42 and Int64ToType 44-50) |
| Convert.SetValue | internal/subproviders/morpheus/convert/convert.go:28-31 | building the set succeeds iff every element has the set's element type, and keeps the elements |
| Convert.StrSliceToSet | internal/subproviders/morpheus/convert/convert.go:18-34 | null iff empty; never unknown; otherwise exactly the items as known strings, in order |
| Convert.Int64SliceToSet | internal/subproviders/morpheus/convert/convert.go:52-68 | null iff empty; never unknown; otherwise exactly the items as known int64 values, in order |
| ErrorText.ErrMsg | internal/subproviders/morpheus/errors/errors.go:11-28 | the message always starts with the error text; when a response with a readable body is present, the status phrase and the body follow; otherwise it is the error text, or empty for no error |
| Modifiers.Description | internal/subproviders/morpheus/modifiers/modifiers.go:15-17 | the fixed description |
| Modifiers.MarkdownDescription | internal/subproviders/morpheus/modifiers/modifiers.go:19-21 | the markdown description is the plain one |
| Modifiers.MissingMessage | internal/subproviders/morpheus/modifiers/modifiers.go:40-43 | the detail starts "attribute '<path>' not set" |
| Modifiers.PlanModifyString | internal/subproviders/morpheus/modifiers/modifiers.go:23-49 | an id read whose diagnostics hold an error forwards them and stops; warnings only are dropped; then exactly one "missing attribute" error is added iff the resource does not exist yet and the attribute is null in the configuration |
| Lookup.Named | internal/subproviders/morpheus/datasources/cloud/datasource.go:87-91 | the kept items are exactly those with that exact name, each as often as it is listed |
| Lookup.NamedAppend | internal/subproviders/morpheus/datasources/cloud/datasource.go:87-91 | the filter keeps order: filtering a concatenation concatenates the filtered parts |
| Lookup.DuplicateNameIsMultiple | internal/subproviders/morpheus/datasources/cloud/datasource.go:87-99 | an item listed twice under the looked-up name makes the lookup fail as ambiguous |
| Lookup.KeepNamed | internal/subproviders/morpheus/datasources/cloud/datasource.go:87-91 | the filter loop keeps Named's items |
| Lookup.SelectUnique | internal/subproviders/morpheus/datasources/cloud/datasource.go:93-99 | success iff exactly one match, which is returned; several matches and no match are distinct errors |
| Lookup.ByName | internal/subproviders/morpheus/datasources/cloud/datasource.go:71-100 | a failed list call is the GET error; success iff exactly one listed item has that exact name, and the result is that item; several matches give the multiple error; no match gives the not-found error |
| Lookup.ById | internal/subproviders/morpheus/datasources/cloud/datasource.go:56-69 | success iff the reply succeeded, with its body; otherwise the GET error |
| Lookup.Dispatch | internal/subproviders/morpheus/datasources/cloud/datasource.go:102-114 | by id when an id is set; else by name when a name is set; else the no-search-terms error |
| CloudDataSource.GetCloudByID | internal/subproviders/morpheus/datasources/cloud/datasource.go:56-69 | success iff the GET succeeded, with its cloud; otherwise "GET failed for cloud <id>" |
| CloudDataSource.GetCloudByName | internal/subproviders/morpheus/datasources/cloud/datasource.go:71-100 | the outcome is ByName over the clouds listed for that name |
| CloudDataSource.IdTakesPrecedence | internal/subproviders/morpheus/datasources/cloud/datasource.go:102-114 | with an id configured, the lookup is by id even when a name is set |
| CloudDataSource.GetCloud | internal/subproviders/morpheus/datasources/cloud/datasource.go:102-114 | the outcome is the id-first Dispatch |
| CloudDataSource.Read | internal/subproviders/morpheus/datasources/cloud/datasource.go:117-170 | configuration errors stop the read; a client or lookup failure adds one error and writes no state; otherwise every attribute of the found cloud is written, with labels and group ids in order, null when empty |
| EnvironmentDataSource.GetEnvironmentById | internal/subproviders/morpheus/datasources/environment/datasource.go:53-66 | success iff the GET succeeded, with its environment; otherwise "GET failed for environment <id>" |
| EnvironmentDataSource.GetEnvironmentByName | internal/subproviders/morpheus/datasources/environment/datasource.go:68-93 | the outcome is ByName over the environments listed for that name |
| EnvironmentDataSource.GetEnvironment | internal/subproviders/morpheus/datasources/environment/datasource.go:95-107 | the outcome is the id-first Dispatch |
| EnvironmentDataSource.Read | internal/subproviders/morpheus/datasources/environment/datasource.go:110-153 | configuration errors stop the read; a client or lookup failure adds one error and writes no state; otherwise the found environment is written |
| GroupDataSource.GetGroupByID | internal/subproviders/morpheus/datasources/group/datasource.go:53-66 | success iff the GET succeeded, with its group; otherwise "GET failed for group <id>" |
| GroupDataSource.GetGroupByName | internal/subproviders/morpheus/datasources/group/datasource.go:68-93 | the outcome is ByName over the groups listed for that name |
| GroupDataSource.GetGroup | internal/subproviders/morpheus/datasources/group/datasource.go:95-107 | the outcome is the id-first Dispatch |
| GroupDataSource.Read | internal/subproviders/morpheus/datasources/group/datasource.go:110-151 | configuration errors stop the read; a client or lookup failure adds one error and writes no state; otherwise the found group is written |
| RoleResource.RoleAsState | internal/subproviders/morpheus/resources/role/resource.go:53-78 | an error iff the GET failed, with the empty model and one "populate" error; otherwise no diagnostics and a model copying the role |
| RoleResource.RequestFor | internal/subproviders/morpheus/resources/role/resource.go:95-117 | the authority is the plan name; each of description, multitenant and role type is sent iff it is not unknown |
| RoleResource.Create | internal/subproviders/morpheus/resources/role/resource.go:80-173 | plan errors, a refused role type and a client error each stop before any POST; a failed POST or a nil id writes nothing; otherwise the id is written first, then the role read back, or the read-back error is reported |
| RoleResource.Read | internal/subproviders/morpheus/resources/role/resource.go:175-213 | a failed state read stops silently; a client error gives one error; otherwise the role with the state's id is written, or the read-back errors are reported |
| RoleResource.Update | internal/subproviders/morpheus/resources/role/resource.go:215-224 | always exactly one error: update is not implemented |
| RoleResource.Delete | internal/subproviders/morpheus/resources/role/resource.go:226-250 | state errors are returned as they are; otherwise no new diagnostic iff the DELETE of the state's id succeeds |
| RoleResource.ImportState | internal/subproviders/morpheus/resources/role/resource.go:252-270 | an id is imported iff the import ID parses as an integer; otherwise the non-number error |
| RoleResource.ImportOfDecimalId | internal/subproviders/morpheus/resources/role/resource.go:252-270 | importing the decimal form of any int64 id restores that id without diagnostics |
| UserResource.KnownInt64s | internal/subproviders/morpheus/resources/user/resource.go:156-163 | the plan's role-id set read element by element as int64 values, in order |
| UserResource.UserAsState | internal/subproviders/morpheus/resources/user/resource.go:100-142 | an error iff the GET failed, with the empty model and one "populate" error; otherwise no diagnostics and a model copying the user, role ids in order, password null |
| UserResource.GetUserAsState | internal/subproviders/morpheus/resources/user/resource.go:100-142 | the role-id loop and the set construction give UserAsState |
| UserResource.RequestFor | internal/subproviders/morpheus/resources/user/resource.go:173-202 | username, email, password and the plan's role ids are always sent; each optional field is sent iff it is not unknown |
| UserResource.Create | internal/subproviders/morpheus/resources/user/resource.go:144-261 | plan errors and a client error stop before any POST; a failed POST or a nil id writes nothing; otherwise the id is written first, then the user read back with the plan's password, or the read-back error is reported |
| UserResource.Read | internal/subproviders/morpheus/resources/user/resource.go:263-304 | a failed state read stops silently; a client error gives one error; otherwise the user is written with the state's own password kept, or the read-back errors are reported |
| UserResource.Update | internal/subproviders/morpheus/resources/user/resource.go:306-315 | always exactly one error: update is not implemented |
| UserResource.Delete | internal/subproviders/morpheus/resources/user/resource.go:317-341 | state errors are returned as they are; otherwise no new diagnostic iff the DELETE of the state's id succeeds |
| UserResource.ImportStateAsWritten | internal/subproviders/morpheus/resources/user/resource.go:343-378 | as written, defined only when the import ID has a comma; the id comes from the part before it, the password from the rest |
| UserResource.ImportWithoutCommaIsOutOfRange | internal/subproviders/morpheus/resources/user/resource.go:348-357 | "42" splits into one part, so the as-written second-part index is out of range |
| UserResource.ImportState | internal/subproviders/morpheus/resources/user/resource.go:343-378 | corrected: no comma gives exactly the format error; an id iff there is a comma and the part before it is an integer; then the import ID is that part, a comma and the password |
| UserResource.ImportRoundTrip | internal/subproviders/morpheus/resources/user/resource.go:343-378 | importing "<id>,<password>" restores the id and the whole password, commas included |
| LegacyConfig.NewMorpheusClient | morpheus/config.go:57-75 | username authentication iff a username is given, prefixed by the tenant subdomain and two backslashes when there is one; otherwise access-token authentication, expiring in 86400 s, scope "write" |
| LegacyConfig.Warnings | morpheus/config.go:50-55 | exactly one warning iff certificate checks are on; never an error |
| LegacyConfig.Config.constructor | morpheus/config.go:29-43 | the configuration starts with no client |
| LegacyConfig.Config.Client | morpheus/config.go:45-76 | the warnings come on every call; the first call builds and caches the client; later calls return the cached client |
| LegacyConfig.ClientTwice | morpheus/config.go:57-75 | two calls hand out the same client, even with different debug settings |
| Examples.PairsKeys | internal/subproviders/morpheus/testhelpers/examples.go:71-74 | the data map's keys are exactly the even-position arguments |
| Examples.PairsLastWins | internal/subproviders/morpheus/testhelpers/examples.go:71-74 | a key maps to the value after its last occurrence as a key |
| Examples.RenderExample | internal/subproviders/morpheus/testhelpers/examples.go:55-83 | an odd argument count is an error, and no file is read; otherwise exactly the template file is read, and its text is paired with the data map, or its read error is returned |
| Examples.OutputName | internal/subproviders/morpheus/testhelpers/examples.go:47 | one trailing ".tmpl" is removed; other names are kept |
| Examples.WriteExample | internal/subproviders/morpheus/testhelpers/examples.go:41-53 | an odd argument count is an error; with an even count it succeeds iff the template file reads, and a read error is returned as is; a success writes the rendered template under OutputName |
| Text.Atoi | internal/subproviders/morpheus/resources/role/resource.go:257 | accepted iff an optional sign is followed by at least one digit and nothing else, and the signed value fits in int64; the value is then the digits' value, negated after a minus sign |
| Text.AtoiOfDecimal | internal/subproviders/morpheus/resources/role/resource.go:257 | parsing the decimal form of any int64 gives it back |
| Text.SplitFirst | internal/subproviders/morpheus/resources/user/resource.go:348 | one part iff there is no separator; otherwise the text is the first part, the separator and the rest, and the first part holds no separator |
| Text.SplitFirstOf | internal/subproviders/morpheus/resources/user/resource.go:348 | splitting a text with no separator, a separator and a rest gives the two sides back |
| Text.TrimSuffix | internal/subproviders/morpheus/testhelpers/examples.go:47 | the suffix is removed exactly when the text ends with it |

## Left out

- Terraform plugin-framework machinery is not part of this model. This
  covers plan and state storage, `State.Set` failures, attribute-path
  reads, and the diagnostics collector beyond appending. A state read is an
  input: the read model and its diagnostics.
- The resource and data-source `Metadata`/`Schema` methods and their
  attribute schemas are not modelled. Only the `morpheus` provider block
  schema is.
- UserResource.KnownInt64s: `ElementsAs` failures are not modelled. A null
  element of `role_ids` reads as 0, where the framework would report an error.
- The REST calls are not modelled: JSON encoding, HTTP, and the SDK's error
  construction. An endpoint is an arbitrary function from request to reply.
- The `httptrace` transport, the JSON validator, the live-API test helpers
  and the `cmd` entry points are not part of this model.
- Real TLS, timeouts, and the `http.Client` fields other than the transport
  and the timeout are not modelled.
- Concurrency is not modelled. The credentials round-tripper's mutex is
  modelled by treating each method as one atomic step.
- Template parsing and execution, and file writing, are not modelled.
  `Examples.RenderExample` returns the template text with its data map, and
  `Examples.WriteExample` returns the output name with what would be written.
  A render error there is the source's panic. File reading is a parameter.
- The exported `t.Fatal` wrappers `ReadExample` and `RenderExample` in
  testhelpers/examples.go are not modelled. `Examples.RenderExample` models
  the unexported `renderExample` they wrap.
- The log level and the `MORPHEUS_API_HTTPTRACE` environment check are not
  modelled. They become the `trace`/`debug` parameters.
- Go's int64 is not modelled as bounded. Ids are unbounded integers. Only
  `strconv.Atoi` enforces the int64 range, in `Text.Atoi`.
- CloudDataSource.Read: a nil group id inside a cloud is not modelled. The
  source dereferences it and would panic; `CloudDataSource.GroupRef` always
  carries an id.
- Role and user `Delete` ignore the client-creation error, so a nil client
  would panic. `RoleResource.Delete` and `UserResource.Delete` take a
  working client.
- Configure.ResourceWithMorpheusConfigure.NewClient requires a stored
  factory. Before one is stored, the embedded zero factory's nil closure
  panics.
- Configure.DataSourceWithMorpheusConfigure.NewClient requires a stored
  factory too, for the same reason.
- ClientFactory.New: a nil `*http.Client` given to `WithHTTPClient` is not
  modelled. In the source it resets the factory's client, and then no
  custom client is installed. A factory option here always carries a client.
- A factory builder is data: the default `clientfactory.New`, or `New` with
  given factory options. The option accepts any builder function; builders
  that do something else are not modelled.
- The user resource's private copies of `errMsg` and the scalar converters
  (resources/user/resource.go:56-97) are not modelled separately. They are
  the same as `ErrorText.ErrMsg` and `Convert.ToType`.
- `Provider.HPEProvider.Configure` records the calls it makes instead of the
  attribute-reading closure it passes. What a sub-provider reads through it
  is its block list.

- LegacyClient.RoundTripStep: `depth` bounds the nesting of refreshes and
  stands for the goroutine stack; `Overflow` stands for the fatal stack
  exhaustion. The 15-second contexts of the nested token requests and the
  logging are not modelled.
- LegacyClient.Client.RoundTrip, `GetTokenWithCredentials` and
  `SetCredentials` take that `depth` as a parameter.
- LegacyClient.GetTokenStep: how the SDK decodes the token reply is an
  oracle (`Env.decode`) over the reply's index and status.
- LegacyClient.Client.GetTokenWithCredentials sends the token request
  through this client's own `RoundTrip`. In the source it goes through the
  shared default client's transport, which is the Client created last
  (`NewTwice`). A client's token request passing through a newer client is
  not modelled.
- LegacyClient.Client.New records the overwrite of the shared default
  client. Other users of Go's default client, which would then also go
  through this client, are not modelled.
- ClientFactory.ClientFactory.NewClient uses the corrected `NewAPIClient`.
  As written, a factory's custom client is dropped
  (`ClientFactory.NewAPIClientAsWritten`).
- ClientFactory.FactoryClientShape states the corrected behaviour for a
  factory with a custom client. As written, that client is dropped and the
  SDK default client is used.

## Findings

| source | as written | input that shows it | evidently intended | confidence | as-written member | corrected member |
|---|---|---|---|---|---|---|
| internal/subproviders/morpheus/resources/user/resource.go:348-357 | after an import ID without a comma, the format error is added but the function goes on and indexes `parts[1]` | import ID `42` gives one part, so `parts[1]` is out of range | return right after the format error | high (not executed) | UserResource.ImportWithoutCommaIsOutOfRange | UserResource.ImportState |
| internal/subproviders/morpheus/clientfactory/clientfactory.go:113-145 | a custom client given with `WithHTTPClient` is checked for but never installed, so the SDK's default client stays | `NewAPIClient(url, …, WithHTTPClient(c))` leaves the configuration's HTTP client at the SDK default | install the custom client, as the custom-client sub-provider in morpheus_test.go:64-77 means it to be | medium (not executed) | ClientFactory.CustomClientDroppedAsWritten | ClientFactory.InstalledClient |
| internal/subproviders/morpheus/client/client.go:49-104 | the SDK client that sends the token request has the Client itself as its transport, so a token request refused with 401 starts another refresh, without end | credentials set and a server that answers every request, the token request included, with 401 | send the token request on a transport without the refresh, as the newer round-tripper does (auth/creds.go:120-127), so a refused grant ends the round trip with the authentication error | medium (not executed) | LegacyClient.UnauthorizedRefreshNeverEnds | LegacyClient.RoundTripStepCorrected |

The legacy `Client` class keeps the behaviour as written, since nothing else
in the model uses it. For it, the corrected functions state what the
intended behaviour guarantees.
