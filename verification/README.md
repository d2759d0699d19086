# KMS REST authorization, keystore options and start-up, in Dafny

This project models three pieces of decision logic from the `kms` REST server:

- **The ZCAP-LD authorization middleware** (`pkg/restapi/kms/operation/middleware.go`).
  Every request passes through it. A request on the keystore-creation route is
  forwarded to the next handler unchecked. Any other request gets a resource URI
  built from the host and the keystore-id route variable, and an action resolved
  from the route name. An unknown route is refused with HTTP 400 `bad request`.
  Otherwise the invocation expectations (target, root capability, action) go to
  the capability verifier. The verifier runs the next handler when it accepts,
  and writes its own error response when it does not.
- **Keystore creation options** (`pkg/keystore/keystore.go`): the `Options`
  record and the seven functional setters `WithID` … `WithCreatedAt`.
- **Start-up behaviour pinned by the start-command tests**
  (`cmd/kms-rest/startcmd/start_test.go`):
  - `prepareMasterKeyReader` fetches the master key, or generates and persists one.
  - `prepareKMSCreator` builds a KMS creator that uses that key.
  - The host URL comes from the `host-url` flag or from the `KMS_REST_HOST_URL`
    environment variable.

Files and modules:

- `wrappers.dfy` (`Wrappers`): `Option` and `Result`.
- `middleware.dfy` (`Middleware`): endpoints, actions, `ExpectedAction`, `Decide` and the per-request steps (`Respond`, `Serve`).
- `keystore.dfy` (`Keystore`): `Options`, the setters as the datatype `Option`, `Apply` and `ApplyAll`.
- `startcmd.dfy` (`StartCmd`): the mock store, `PrepareMasterKeyReader`, `CreateKMS`, `GetHostURL` and `Start`.

Modelling choices:

- The router is replaced by its two outputs: the matched route's name (a string) and the route variables (a map).
- The endpoint-name constants, the keystore-id variable name and `keystoreLocation` are not part of this model. They enter as the fields of a `Consts` value.
- `DistinctNames(c)` states that the eleven switch constants are pairwise distinct, which Go's compiler enforces for the constant cases of one switch. `WellFormed(c)` adds that the creation route is none of them. Nothing in the modelled code enforces the second, and it matters: a guarded name equal to the creation route would be forwarded with no capability check (`CreationRouteShadowsEndpoint`).
- The action labels are an enumeration, so they are distinct and non-empty by construction. `NoAction` stands for the empty string that `expectedAction` returns beside its error.
- The capability verifier is a verdict function on `Expectations`. When it accepts, the step after it is `CallNext`.
- Go applies options by mutating an `*Options`. Here `Apply(opt, o)` returns the updated record. `ApplyAll` runs a list of options in order, as a variadic caller would.
- The storage provider follows the mock provider the tests use. It has one store holding the master-key slot, plus injectable open, get and put errors. An absent record reads as `ErrDataNotFound`.
- The freshly generated key bytes are a parameter.
- The HTTP server's `ListenAndServe` is a function from host to error.

Two behaviours of the code that a reader might not expect, both followed by the model:

- A missing keystore-id route variable is not rejected. Go's map index yields `""`, and the resource is built from it (`DecideMissingKeystoreID`).
- The model prepares the master key at each creator call. start_test.go:130-139 shows only that the open-store error is reported by `kmsCreator(testKeystoreID)`; `prepareKMSCreator` has no error result, so an eager open whose error the closure keeps would pass the same test. The model's creator returns the provider as the call left it, so a later call reads the persisted key back (`CreatorReusesPersistedKey`). No test in start_test.go calls the creator or `prepareMasterKeyReader` twice, so that lemma follows from the modelled get-or-create alone.

## Model

| member | source | states |
|---|---|---|
| `Middleware.ActionOf` | pkg/restapi/kms/operation/middleware.go:117-139 | every arm of the switch yields a non-empty action constant |
| `Middleware.ActionOfInjective` | pkg/restapi/kms/operation/middleware.go:117-139 | two guarded endpoints that demand the same action are the same endpoint: each of the eleven has its own action |
| `Middleware.Dispatch` | pkg/restapi/kms/operation/middleware.go:117-141 | the switch on the route name selects a case whose constant equals the name, and selects none only when no case's constant equals it |
| `Middleware.ExpectedAction` | pkg/restapi/kms/operation/middleware.go:111-145 | resolution succeeds exactly when the name is one of the eleven endpoint names, and then yields an action that endpoint demands; otherwise the error is `unsupported endpoint: <name>` and the action is empty |
| `Middleware.ExpectedActionOfEndpoint` | pkg/restapi/kms/operation/middleware.go:117-139 | with distinct switch constants (the creation route plays no part), each endpoint's name yields exactly that endpoint's action and no error (keys→create-key, capability→store-capability, export, sign, verify, encrypt, decrypt, computeMAC, verifyMAC, wrap, unwrap) |
| `Middleware.ExpectedActionUnsupported` | pkg/restapi/kms/operation/middleware.go:140-144 | a name that is no endpoint name yields the empty action with the error `unsupported endpoint: <name>` |
| `Middleware.Decide` | pkg/restapi/kms/operation/middleware.go:56-81 | a request is forwarded exactly when its route is the keystore-creation route, and refused exactly when its route is neither that nor a guarded endpoint; a refusal is status 400 with the `http.Error` message `bad request` (written to the body with a trailing newline), after logging the resolution error; a hand-over to the verifier carries target = root capability = `keystoreLocation(host, vars[keystoreID])` and a non-empty action |
| `Middleware.Var` | pkg/restapi/kms/operation/middleware.go:66 | indexing the route variables gives the stored value for a present key and the empty string for a missing one, as Go's map index does |
| `Middleware.Resource` | pkg/restapi/kms/operation/middleware.go:66 | the resource is `keystoreLocation` of the request host and the keystore-id variable, or of the empty id when that variable is missing |
| `Middleware.DecideByRoute` | pkg/restapi/kms/operation/middleware.go:60-81 | a request is refused with 400 exactly when its route is neither the creation route nor a guarded endpoint; a hand-over carries the action its route demands |
| `Middleware.DecideEndpoint` | pkg/restapi/kms/operation/middleware.go:66-75 | a request on a guarded endpoint goes to the verifier with that endpoint's action, and with the request's resource as both target and root capability |
| `Middleware.DecideReadsOnlyKeystoreID` | pkg/restapi/kms/operation/middleware.go:66 | two requests with the same route, host and keystore-id variable get the same decision, whatever their other route variables |
| `Middleware.DecideMissingKeystoreID` | pkg/restapi/kms/operation/middleware.go:66 | a missing keystore-id variable is treated as the empty id, not rejected |
| `Middleware.Respond` | pkg/restapi/kms/operation/middleware.go:60-102 | every request starts with the route check; a forwarded request has no other step before the next handler; any other request locates the resource and resolves the action next; the verifier receives expectations exactly when the decision hands over, and they are the ones the decision built; it is called exactly when it receives them |
| `Middleware.RespondOrdering` | pkg/restapi/kms/operation/middleware.go:60-85 | in every request's steps, the verifier call comes after action resolution, action resolution after locating the resource, and that after the route check |
| `Middleware.RespondBadRequest` | pkg/restapi/kms/operation/middleware.go:75-81 | a 400 is written exactly when the decision is a refusal, and then neither the verifier nor the next handler runs |
| `Middleware.RespondReachesNext` | pkg/restapi/kms/operation/middleware.go:60-102 | the next handler runs exactly when the request is forwarded, or the verifier accepts the expectations it received |
| `Middleware.Serve` | pkg/restapi/kms/operation/middleware.go:56-105 | the creation route gives exactly the steps route check, then next handler; a 400 is written exactly when the route is neither the creation route nor a guarded endpoint; the verifier is called exactly when the route is a guarded endpoint other than the creation route, and receives the request's resource as target and root capability with an action its route demands; the next handler runs exactly on the creation route or on the verifier's acceptance |
| `Middleware.ServeCreationBypass` | pkg/restapi/kms/operation/middleware.go:59-64 | a keystore-creation request goes to the next handler with no resource, no action resolution and no verifier call |
| `Middleware.ServeEndpoint` | pkg/restapi/kms/operation/middleware.go:66-102 | a request on a guarded endpoint gives the verifier that endpoint's action on the request's resource, and reaches the next handler exactly when the verifier accepts |
| `Middleware.CreationRouteShadowsEndpoint` | pkg/restapi/kms/operation/middleware.go:60-64 | if a guarded endpoint's name equalled the creation route, its requests would reach the next handler without the verifier |
| `Keystore.Extensionality` | pkg/keystore/keystore.go:29-38 | an `Options` record is determined by the contents of its seven fields |
| `Keystore.Apply` | pkg/keystore/keystore.go:43-93 | each `With…` option sets its own field to its argument and leaves every other field of `Options` as it was |
| `Keystore.ApplyIdempotent` | pkg/keystore/keystore.go:43-93 | applying an option twice equals applying it once |
| `Keystore.ApplyCommutes` | pkg/keystore/keystore.go:43-93 | options on different fields can be applied in either order |
| `Keystore.ApplyLastWins` | pkg/keystore/keystore.go:43-93 | of two options on the same field, the later one wins |
| `Keystore.ApplyAllLastWriteWins` | pkg/keystore/keystore.go:40-93 | after a list of options, each field holds the value of the last option in the list that targets it, or its initial value when none does |
| `StartCmd.Get` | cmd/kms-rest/startcmd/start_test.go:152-172 | the mock store's read: an injected get error is returned as is; otherwise a stored key is read back and an absent one is `ErrDataNotFound` |
| `StartCmd.Put` | cmd/kms-rest/startcmd/start_test.go:163-172 | the mock store's write: it fails exactly when a put error is injected, and then with that error; otherwise the record holds the value written, a later read returns it unless a get error is injected, and the injected errors stay as they were |
| `StartCmd.PrepareMasterKeyReader` | cmd/kms-rest/startcmd/start_test.go:121-172 | a key is handed out exactly when the store opens and either the read succeeds, giving the stored key with no write, or the read finds nothing and the write succeeds, giving and persisting the generated key; an open error, a get error other than not-found, or a put error after not-found each yield no reader and that same error; every error returned is one of the injected ones; a failure leaves the store unchanged; the store is written only after a not-found read, and only its key record |
| `StartCmd.ProvisionedKeyIsStable` | cmd/kms-rest/startcmd/start_test.go:142-172 | a consequence of the modelled get-or-create whose error paths these tests exercise, not a tested promise: once a key has been handed out by a store whose reads do not fail, the next call on the store it left reads the same key back and writes nothing |
| `StartCmd.MasterKeyOnFreshStore` | cmd/kms-rest/startcmd/start_test.go:122-127 | on an empty, working store the generated key is persisted and returned |
| `StartCmd.CreateKMS` | cmd/kms-rest/startcmd/start_test.go:121-140 | the KMS creator succeeds exactly when preparing the master-key reader succeeds, fails with that same error otherwise, an open error included, and on success gives a key manager for the requested keystore locked with the key the shared store now holds; the provider it hands on carries the store as provisioning left it, and is unchanged after a failure |
| `StartCmd.CreatorReusesPersistedKey` | cmd/kms-rest/startcmd/start_test.go:121-140 | a consequence of the modelled get-or-create, not a tested promise: once one creator call has built a key manager on a store whose reads do not fail, a later call on the same provider, for any keystore, is locked with the same key and writes nothing |
| `StartCmd.CreateKMSOnFreshStore` | cmd/kms-rest/startcmd/start_test.go:122-127 | on an empty, working store the KMS creator returns a key manager |
| `StartCmd.GetHostURL` | cmd/kms-rest/startcmd/start_test.go:48-107 | a blank flag gives `host-url value is empty`; no flag and no variable give the exact `Neither host-url (command line flag) nor KMS_REST_HOST_URL (environment variable) have been set.` message; no flag and a blank variable give `KMS_REST_HOST_URL value is empty`; resolution succeeds exactly when the flag, or in its absence the variable, is present and non-blank, and then yields that value |
| `StartCmd.Start` | cmd/kms-rest/startcmd/start_test.go:48-107 | a host-resolution error is the command's error and the server is never started; otherwise the server listens on the resolved host and its result is the command's result |
| `StartCmd.StartSucceedsWithHost` | cmd/kms-rest/startcmd/start_test.go:87-107 | with a server that starts, a non-blank host URL from the flag, or from the environment when no flag is given, lets the command succeed |

## Left out

- The distinctness of the keystore-creation route from the eleven guarded names. `keystoresEndpoint` is defined outside the modelled code and is not a case of the switch, so Go does not enforce it. `WellFormed` assumes it, and the lemmas that need it require `WellFormed`.
- The distinctness of the action constants. Their string values are not part of this model. `Action` is an enumeration, so `ActionOfInjective` holds by construction and assumes that the eleven action strings differ.
- HTTP plumbing. This covers `http.ResponseWriter`, the request URL, and `mux.CurrentRoute` / `mux.Vars`, which become the route name and the variable map. It also covers the debug and error log calls, except the logged text of a resolution failure, which `Decide` records.
- The inside of the ZCAP-LD verifier. This covers the HTTP-signature check, DID key resolution, the Ed25519 suite, the JSON-LD loader, secrets, and the KMS and crypto handles. The verifier is only a verdict on the expectations.
- The body of `keystoreLocation` and the literal values of the endpoint and action constants. They are not part of this model. They are fields of `Consts` or members of enumerations.
- A nil current route (`mux.CurrentRoute` returning nil). The model always has a route name.
- `Keystore` record fields and their JSON tags. `time.Time` is kept as an uninterpreted instant.
- Random key generation and its encoding. The generated bytes are an input.
- StartCmd.CreateKMS: prepares the master key at every call. This is a modelling assumption about `prepareKMSCreator`, whose body (in `start.go`) is not part of this model; an implementation that opens the store once would behave differently on later calls.
- The secret-lock service and local KMS construction inside the KMS creator, and their own failures. `start.go` is not part of this model. The tests only pin the master-key error path and success on a fresh store.
- StartCmd.ProvisionedKeyIsStable and StartCmd.CreatorReusesPersistedKey: require a store whose reads do not fail, and no test in start_test.go calls the creator or `prepareMasterKeyReader` twice. With an injected `ErrDataNotFound` on every read, `prepareMasterKeyReader` regenerates the key and overwrites the stored one on each call, and the model follows it.
- Concurrent first-boot provisioning by several processes sharing a store. This is concurrency, and nothing in `prepareMasterKeyReader`'s get-then-put sequence, as the tests at start_test.go:142-172 exercise it, guards it.
- Precedence between the host-url flag and the environment variable is pinned only for a blank variable. `TestStartCmdWithBlankEnvVar` leaves `KMS_REST_HOST_URL` set to `""`, and `TestStartCmdValidArgs` then passes the flag and expects success. The model lets a given flag win over any variable, which agrees with that. No test sets both to non-blank values.
- StartCmd.Start: goes straight from host resolution to `ListenAndServe`. Failures in between, such as the error `createKeystoreProvider` can return (start_test.go:109-118), are not modelled, because the start-up body in `start.go` is not part of this model.
- `HTTPServer.ListenAndServe` address parsing, cobra command and flag metadata, and `createKeystoreProvider`. Their tests check library behaviour and non-nil providers only.
