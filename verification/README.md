# Chaincode router: dispatch, result events and role-based redaction

This project is a Dafny model of `ctrouter.go`, the router of the IoT contract platform chaincode. It covers four parts:

- **Route registry** (`Routes`). `AddRoute` files a `ChaincodeRoute` under its function name and refuses a name that is already taken. `getDeployFunctions` collects the handlers of the routes registered as `deploy`. `readAllRoutes` lists every route. The package `init()` registers `readAllRoutes` as a query.
- **Result event** (`Events`). `setStubEvent` builds the payload published under `EVT.IOTCP.INVOKE.RESULT`. The payload has `status` `"OK"` or `"ERROR"`, plus `message` on error. On success it is merged into the map the handler returned.
- **Dispatch** (`Dispatch`). These are the three entry points `Init`, `Invoke` and `Query`.
  - The shim stub becomes an explicit `World`: the ledger, the log of published events, and the log of handler calls.
  - What a handler does is the parameter `exec`. How its bytes decode as JSON is also a parameter.
  - `Init` and `Invoke` publish exactly one event per call. `Query` never publishes one.
- **Response filter** (`Filter`). `filterQueryResponse` redacts the first asset of a query response according to the caller. Four named roles (`AF`, `DMA`, `Supplier`, `Transporter`) each have a fixed set of cleared fields. Any other caller sees only the ledger key `assetID`.

Go's `range` over the router map visits keys in an unspecified order. Every member that iterates the registry therefore takes the visiting order as a parameter. `IsIterationOrder` admits every order, so each contract holds for all of them. `RangeOrder` shows how such an order is drawn.

## Source defects and how the model reads them

As written, `ctrouter.go` does not compile. The model follows the evident intent of each defect:

- `ctrouter.go:77` and `ctrouter.go:124` declare `DmaCert { Cert string }` without the `struct` keyword. The code reads it as `resp.DmaCert.Cert`, so the model keeps the certificate as the string field `cert` of the asset record.
- `ctrouter.go:412` clears `DmaDelCert`, a field that does not exist. The model drops that assignment. The certificate is cleared on the next lines anyway.
- `ctrouter.go:421` assigns the filtered record to the slice `Asset`. The model writes it back as `Asset[0]`, matching the read at line 339. Elements after the first are therefore returned unredacted (see `Filter.FilterQueryResponse`).
- `ctrouter.go:339` indexes `Asset[0]`, which panics on an empty list. `FilterQueryResponse` requires a non-empty list. `Dispatch.Query` reports an empty list as the error `AssetIndexOutOfRange` in place of the panic.

Behaviour of the code that the model keeps as written:

- `setStubEvent` keeps a non-nil `info` map on error (`ctrouter.go:175-186`); it does not discard it. `StubEventPayload` models this. Every error call site passes nil, so every error event still carries exactly `status` and `message`.
- The `message` of a handler failure is the wrapped text, e.g. `Invoke (name) failed with error boom`, not the bare handler error (`ctrouter.go:235`).
- `Invoke` and `Query` look the name up without checking the route's method (`ctrouter.go:226`, `ctrouter.go:269`). Any registered route can be invoked or queried, and the model does the same.
- The deploy handlers run in map-iteration order, not registration order (`ctrouter.go:157`).
- A query whose bytes do not decode to a response with at least one asset does not degrade to an empty response; it reaches `Asset[0]` on an empty list. One example is `readAllRoutes`, whose output is a JSON array. `Dispatch.Query` returns `AssetIndexOutOfRange` in that case.

## Model

| member | source | states |
|---|---|---|
| `Routes.ParseMethod` | contracts/platform/iotcontractminimalsample/vendor/github.com/ibm-watson-iot/blockchain-samples/contracts/platform/iotcontractplatform/ctrouter.go:158 | a registration method counts as deploy exactly when it is the string "deploy"; any other string is kept unchanged |
| `Routes.RangeOrder` | contracts/platform/iotcontractminimalsample/vendor/github.com/ibm-watson-iot/blockchain-samples/contracts/platform/iotcontractplatform/ctrouter.go:157 | drawing keys one at a time in arbitrary order visits every registered name exactly once |
| `Routes.IterationOrderLength` | contracts/platform/iotcontractminimalsample/vendor/github.com/ibm-watson-iot/blockchain-samples/contracts/platform/iotcontractplatform/ctrouter.go:316-324 | any iteration order has as many entries as the router has routes |
| `Routes.AddRoute` | contracts/platform/iotcontractminimalsample/vendor/github.com/ibm-watson-iot/blockchain-samples/contracts/platform/iotcontractplatform/ctrouter.go:138-153 | a taken name fails with a duplicate error naming the existing route; otherwise exactly one key is added, holding the given name, method, class and handler, every other entry is unchanged, and "each route filed under its own name" is preserved |
| `Routes.DuplicateKeepsFirst` | contracts/platform/iotcontractminimalsample/vendor/github.com/ibm-watson-iot/blockchain-samples/contracts/platform/iotcontractplatform/ctrouter.go:139-143 | registering a name a second time fails, reports the first registration, and leaves its handler in force |
| `Routes.AddRouteCommutes` | contracts/platform/iotcontractminimalsample/vendor/github.com/ibm-watson-iot/blockchain-samples/contracts/platform/iotcontractplatform/ctrouter.go:144-150 | registering two distinct names in either order builds the same router |
| `Routes.DuplicateMessageNamesAttempt` | contracts/platform/iotcontractminimalsample/vendor/github.com/ibm-watson-iot/blockchain-samples/contracts/platform/iotcontractplatform/ctrouter.go:140 | the corrected duplicate message begins with the refused function name, its class and its method, each in the slot its wording names |
| `Routes.DuplicateMessageAsWrittenMisplacesValues` | contracts/platform/iotcontractminimalsample/vendor/github.com/ibm-watson-iot/blockchain-samples/contracts/platform/iotcontractplatform/ctrouter.go:140 | as written, the message puts the class name in the function-name slot and the method in the class slot |
| `Routes.DuplicateMessageAsWrittenDiffers` | contracts/platform/iotcontractminimalsample/vendor/github.com/ibm-watson-iot/blockchain-samples/contracts/platform/iotcontractplatform/ctrouter.go:140 | for a concrete duplicate registration the as-written message differs from the intended one |
| `Routes.DuplicateMessage` | contracts/platform/iotcontractminimalsample/vendor/github.com/ibm-watson-iot/blockchain-samples/contracts/platform/iotcontractplatform/ctrouter.go:140 | the corrected duplicate message opens with the refused function, its class and its method, and closes with the class and method already registered |
| `Routes.DuplicateMessageAsWritten` | contracts/platform/iotcontractminimalsample/vendor/github.com/ibm-watson-iot/blockchain-samples/contracts/platform/iotcontractplatform/ctrouter.go:140 | as written, the message opens with the class, the method and the existing function name in the function, class and method slots, and closes with the class and method already registered |
| `Routes.AddRouteErrorMessage` | contracts/platform/iotcontractminimalsample/vendor/github.com/ibm-watson-iot/blockchain-samples/contracts/platform/iotcontractplatform/ctrouter.go:140 | the text of the duplicate error names the refused function, class and method, then the existing route's class and method |
| `Routes.DeployNames` | contracts/platform/iotcontractminimalsample/vendor/github.com/ibm-watson-iot/blockchain-samples/contracts/platform/iotcontractplatform/ctrouter.go:157-161 | the visited names kept are exactly the visited routes whose method is deploy, without repeats when the visit has none |
| `Routes.DeployFunctions` | contracts/platform/iotcontractminimalsample/vendor/github.com/ibm-watson-iot/blockchain-samples/contracts/platform/iotcontractplatform/ctrouter.go:155-163 | one handler per deploy route and nothing else: as many handlers as deploy routes, each the handler of a distinct deploy route |
| `Routes.DeployFunctionsOrderIndependent` | contracts/platform/iotcontractminimalsample/vendor/github.com/ibm-watson-iot/blockchain-samples/contracts/platform/iotcontractplatform/ctrouter.go:157-161 | any two iteration orders yield the same deploy handlers up to permutation |
| `Routes.ReadAllRoutes` | contracts/platform/iotcontractminimalsample/vendor/github.com/ibm-watson-iot/blockchain-samples/contracts/platform/iotcontractplatform/ctrouter.go:310-326 | one row per registered route, so the listing is as long as the router; each row copies its route's name, method and class, and every registered name appears |
| `Routes.InitialRegistry` | contracts/platform/iotcontractminimalsample/vendor/github.com/ibm-watson-iot/blockchain-samples/contracts/platform/iotcontractplatform/ctrouter.go:328-330 | after package initialisation the router holds only `readAllRoutes`, as a query of the system class, and no deploy route |
| `Events.StubEventPayload` | contracts/platform/iotcontractminimalsample/vendor/github.com/ibm-watson-iot/blockchain-samples/contracts/platform/iotcontractplatform/ctrouter.go:172-187 | status is OK exactly when there is no error and ERROR exactly when there is; message is the error text; the keys are those of info (or none) plus status and, on error, message; every other info entry is carried over |
| `Events.ErrorEventHasOnlyStatusAndMessage` | contracts/platform/iotcontractminimalsample/vendor/github.com/ibm-watson-iot/blockchain-samples/contracts/platform/iotcontractplatform/ctrouter.go:183-186 | with nil info, as at every error call site, an error payload has exactly the keys status and message |
| `Events.OkEventWithoutInfo` | contracts/platform/iotcontractminimalsample/vendor/github.com/ibm-watson-iot/blockchain-samples/contracts/platform/iotcontractplatform/ctrouter.go:175-182 | a success with nil or empty info publishes only `{"status": "OK"}` |
| `Events.OkEventMergesInfo` | contracts/platform/iotcontractminimalsample/vendor/github.com/ibm-watson-iot/blockchain-samples/contracts/platform/iotcontractplatform/ctrouter.go:177-182 | a success with info `{"x": 1}` publishes `{"status": "OK", "x": 1}` |
| `Events.SetStubEvent` | contracts/platform/iotcontractminimalsample/vendor/github.com/ibm-watson-iot/blockchain-samples/contracts/platform/iotcontractplatform/ctrouter.go:188-189 | publishing appends exactly one event named EVT.IOTCP.INVOKE.RESULT, leaves earlier events intact, and its payload is the one `setStubEvent` builds from the error and info |
| `Filter.ParseCaller` | contracts/platform/iotcontractminimalsample/vendor/github.com/ibm-watson-iot/blockchain-samples/contracts/platform/iotcontractplatform/ctrouter.go:340-393 | a caller string is a named role exactly when it equals one of the four names, and the parse loses nothing |
| `Filter.FilterAsset` | contracts/platform/iotcontractminimalsample/vendor/github.com/ibm-watson-iot/blockchain-samples/contracts/platform/iotcontractplatform/ctrouter.go:340-419 | every field in the caller's row of the policy table is cleared and every other field is unchanged; the asset ID is kept and the certificate cleared |
| `Filter.PolicyKeepsKeyAndHidesCertificate` | contracts/platform/iotcontractminimalsample/vendor/github.com/ibm-watson-iot/blockchain-samples/contracts/platform/iotcontractplatform/ctrouter.go:340-419 | no caller's row clears the asset ID and every caller's row clears the certificate |
| `Filter.CatchAllHidesMost` | contracts/platform/iotcontractminimalsample/vendor/github.com/ibm-watson-iot/blockchain-samples/contracts/platform/iotcontractplatform/ctrouter.go:393-419 | an unrecognised caller gets every field but the asset ID cleared; that set contains every role's set and strictly exceeds AF's (it includes PoDma) |
| `Filter.DmaSeesAllButCertificate` | contracts/platform/iotcontractminimalsample/vendor/github.com/ibm-watson-iot/blockchain-samples/contracts/platform/iotcontractplatform/ctrouter.go:349-353 | for DMA every field except the certificate is unchanged |
| `Filter.FilterIdempotent` | contracts/platform/iotcontractminimalsample/vendor/github.com/ibm-watson-iot/blockchain-samples/contracts/platform/iotcontractplatform/ctrouter.go:340-419 | filtering an asset twice for the same caller equals filtering it once |
| `Filter.FilterHidesClearedFields` | contracts/platform/iotcontractminimalsample/vendor/github.com/ibm-watson-iot/blockchain-samples/contracts/platform/iotcontractplatform/ctrouter.go:340-419 | two records that differ only in fields hidden from the caller filter to the same record |
| `Filter.FilterQueryResponse` | contracts/platform/iotcontractminimalsample/vendor/github.com/ibm-watson-iot/blockchain-samples/contracts/platform/iotcontractplatform/ctrouter.go:336-423 | only the first asset changes, to its redaction for the parsed caller; the other assets and every other part of the response are unchanged |
| `Filter.FilterQueryResponseIdempotent` | contracts/platform/iotcontractminimalsample/vendor/github.com/ibm-watson-iot/blockchain-samples/contracts/platform/iotcontractplatform/ctrouter.go:336-423 | filtering a response twice for the same caller equals filtering it once |
| `Dispatch.RunDeploy` | contracts/platform/iotcontractminimalsample/vendor/github.com/ibm-watson-iot/blockchain-samples/contracts/platform/iotcontractplatform/ctrouter.go:210-218 | the loop records one call per handler it runs, in order, each with the same arguments and on the ledger the previous handler left; every handler but the last returned; a reported failure is the last handler's own error; with no failure every handler ran and returned; the final ledger is the last one left, and nothing is published |
| `Dispatch.RunsInOrderFollowsLedgers` | contracts/platform/iotcontractminimalsample/vendor/github.com/ibm-watson-iot/blockchain-samples/contracts/platform/iotcontractplatform/ctrouter.go:210-212 | a recorded in-order run is the reference run: call i is handler i on the ledger the earlier handlers left in turn |
| `Dispatch.DeployLoopStopsAtFirstFailure` | contracts/platform/iotcontractminimalsample/vendor/github.com/ibm-watson-iot/blockchain-samples/contracts/platform/iotcontractplatform/ctrouter.go:210-217 | a deploy-loop record stops exactly at the first handler that fails on the ledger it sees, reporting its error, and its calls are the reference calls up to it |
| `Dispatch.DeployLoopAllSucceed` | contracts/platform/iotcontractminimalsample/vendor/github.com/ibm-watson-iot/blockchain-samples/contracts/platform/iotcontractplatform/ctrouter.go:210-218 | a deploy-loop record over handlers that all return reports no failure and holds the reference call of every handler |
| `Dispatch.RunDeployStopsAtFirstFailure` | contracts/platform/iotcontractminimalsample/vendor/github.com/ibm-watson-iot/blockchain-samples/contracts/platform/iotcontractplatform/ctrouter.go:210-217 | when handler j is the first to fail on the ledger it sees (earlier handlers having run one after another), exactly handlers 0..j run, with those calls, and its error is the one reported |
| `Dispatch.RunDeployAllSucceed` | contracts/platform/iotcontractminimalsample/vendor/github.com/ibm-watson-iot/blockchain-samples/contracts/platform/iotcontractplatform/ctrouter.go:210-218 | when every handler returns on the ledger it sees, every handler runs once in order, no failure is reported, and the ledger is the one the last handler left |
| `Dispatch.DeployAndReport` | contracts/platform/iotcontractminimalsample/vendor/github.com/ibm-watson-iot/blockchain-samples/contracts/platform/iotcontractplatform/ctrouter.go:210-220 | one event is published; the calls made are the deploy loop's record; the error is a deploy failure exactly when the last handler run failed, and it carries that handler's error; OK with no extra keys otherwise |
| `Dispatch.Init` | contracts/platform/iotcontractminimalsample/vendor/github.com/ibm-watson-iot/blockchain-samples/contracts/platform/iotcontractplatform/ctrouter.go:193-221 | exactly one event per call, OK exactly when no error; empty args give MissingArgument and no handler runs; no deploy route gives NoDeployHandlers; otherwise the deploy handlers run in deploy order with `[args[0], version]`, each on the ledger the previous one left, until one fails; the error is a deploy failure exactly when one failed, carrying its error; on success every deploy handler ran and the payload is `{"status": "OK"}` |
| `Dispatch.InitSucceedsWhenHandlersSucceed` | contracts/platform/iotcontractminimalsample/vendor/github.com/ibm-watson-iot/blockchain-samples/contracts/platform/iotcontractplatform/ctrouter.go:201-220 | if every deploy handler returns on the ledger it sees, Init returns no error, publishes OK, makes exactly the reference calls and leaves the last handler's ledger; the deploy handlers are the same whatever the map order |
| `Dispatch.InitStopsAtFirstFailure` | contracts/platform/iotcontractminimalsample/vendor/github.com/ibm-watson-iot/blockchain-samples/contracts/platform/iotcontractplatform/ctrouter.go:210-217 | if deploy handler j is the first to fail on the ledger it sees, Init yields DeployHandlerFailed carrying its error, publishes the wrapped message, and makes exactly the calls of handlers 0..j |
| `Dispatch.DeployAndReportStopsAtFirstFailure` | contracts/platform/iotcontractminimalsample/vendor/github.com/ibm-watson-iot/blockchain-samples/contracts/platform/iotcontractplatform/ctrouter.go:210-217 | if handler j is the first to fail on the ledger it sees, the deploy failure carrying its error is reported and exactly the calls of handlers 0..j were made |
| `Dispatch.InitOnInitialRegistryFails` | contracts/platform/iotcontractminimalsample/vendor/github.com/ibm-watson-iot/blockchain-samples/contracts/platform/iotcontractplatform/ctrouter.go:203-209 | with only the initial `readAllRoutes` registered, a deploy with arguments fails with NoDeployHandlers |
| `Dispatch.ErrorMessage` | contracts/platform/iotcontractminimalsample/vendor/github.com/ibm-watson-iot/blockchain-samples/contracts/platform/iotcontractplatform/ctrouter.go:194-278 | a handler-failure message opens with its entry point (Init, Invoke or Query) and the function name and ends with the handler's own error; a lookup-failure message opens with its entry point's "did not find" text and ends with the name looked up |
| `Dispatch.ErrorMessageKeepsCause` | contracts/platform/iotcontractminimalsample/vendor/github.com/ibm-watson-iot/blockchain-samples/contracts/platform/iotcontractplatform/ctrouter.go:211-278 | two handler failures of the same function publish the same message exactly when the handlers returned the same error |
| `Dispatch.Invoke` | contracts/platform/iotcontractminimalsample/vendor/github.com/ibm-watson-iot/blockchain-samples/contracts/platform/iotcontractplatform/ctrouter.go:224-254 | exactly one event per call, OK exactly when no error, error events with exactly status and message; an unknown name gives RouteNotFound with no handler run and the ledger untouched; a handler error gives InvokeHandlerFailed; empty bytes give a plain OK; undecodable bytes give InvokeResultMalformed; a decoded map is published with status added |
| `Dispatch.InvokeAllOneEventPerCall` | contracts/platform/iotcontractminimalsample/vendor/github.com/ibm-watson-iot/blockchain-samples/contracts/platform/iotcontractplatform/ctrouter.go:224-254 | over any sequence of invoke messages, the log grows by one event per message; the i-th new event is OK exactly when the i-th message returned no error |
| `Dispatch.InvokePublishesHandlerMap` | contracts/platform/iotcontractminimalsample/vendor/github.com/ibm-watson-iot/blockchain-samples/contracts/platform/iotcontractplatform/ctrouter.go:240-252 | a handler returning `{"x": 1}` makes Invoke publish `{"status": "OK", "x": 1}` |
| `Dispatch.InvokePublishesHandlerFailure` | contracts/platform/iotcontractminimalsample/vendor/github.com/ibm-watson-iot/blockchain-samples/contracts/platform/iotcontractplatform/ctrouter.go:233-239 | a handler failing with "boom" makes Invoke publish exactly status ERROR and the wrapped message |
| `Dispatch.Query` | contracts/platform/iotcontractminimalsample/vendor/github.com/ibm-watson-iot/blockchain-samples/contracts/platform/iotcontractplatform/ctrouter.go:257-307 | no path publishes an event; an unknown name gives QueryRouteNotFound with nothing changed; otherwise the handler runs once and its ledger is kept; a handler error gives QueryHandlerFailed; a response with no asset gives AssetIndexOutOfRange; otherwise the first asset is redacted for the caller (certificate cleared), the other assets and every other part of the response are returned unchanged, and the result is a fixed point of the filter |

## Findings

| source | as written | input that shows it | evidently intended | confidence | as-written member | corrected member |
|---|---|---|---|---|---|---|
| contracts/platform/iotcontractminimalsample/vendor/github.com/ibm-watson-iot/blockchain-samples/contracts/platform/iotcontractplatform/ctrouter.go:140 | the duplicate-route message is formatted with `class.Name, method, r.FunctionName, ...` for placeholders meaning function name, class, method | registering `f` as `invoke` of class `C` over an existing route `f` reports "function name C attempt to register against class invoke as method f" | arguments `functionName, class.Name, method, r.Class.Name, r.Method` | high; not executed | `Routes.DuplicateMessageAsWrittenDiffers` | `Routes.DuplicateMessageNamesAttempt` |

`Routes.AddRouteErrorMessage` uses the corrected `Routes.DuplicateMessage`.

## Left out

- JSON marshalling and unmarshalling. Decoding an invoke handler's bytes into a map, and a query handler's bytes into a `ResponseStruct`, are parameters of `Invoke` and `Query`. JSON numbers are integers; floating point is not modelled.
- Marshalling the event payload, and the error `SetEvent` returns. The source discards that error (`ctrouter.go:188-189`); publishing is an append to the event log.
- The ledger behind the shim stub is an abstract key-value map. What handlers do to it is the parameter `exec`.
- Reading the caller from `stub.GetStringArgs()[1]` and decoding it as an `InRequest` (`ctrouter.go:259-265`). This is I/O with an unchecked index and a swallowed decode error, so the caller is a parameter of `Query`.
- The final marshalling of the filtered response in `Query` (`ctrouter.go:297-305`). `Query` returns the filtered structure itself. That marshalling error, and the error `filterQueryResponse` is declared to return, can never occur, so their branches are not modelled.
- Logging and `fmt.Println` output.
- The internals of `AssetClass` and `SystemClass`, which are defined in files that are not part of this model. A class is represented by its name.
- The `Assetclass`, `EventPayload` and `EventOut` parts of `ResponseStruct` are plain records that the filter leaves unchanged. Most of their fields are unexported in Go (`ctrouter.go:47-49`, `ctrouter.go:88-90`, `ctrouter.go:93-95`), so `json.Unmarshal` never fills them and `json.Marshal` never emits them. The model does not reproduce that: `decodeResponse` may fill `AssetClassInfo`, `EventPayloadInfo` and `EventOutInfo`, and `Query` returns them as decoded.
- The byte slice returned by `Init` and `Invoke` is always nil, so their results carry only the error.
- The timing of package `init()` registration. `Routes.InitialRegistry` is the router it produces.
- A Go runtime panic. The panic on an empty asset list is reported as the error `AssetIndexOutOfRange`; in the source it would abort the call.
- Dispatch.Init: Go passes one `iargs` slice to every deploy handler (`ctrouter.go:194`, `ctrouter.go:201-202`, `ctrouter.go:211`), so a handler that assigns to `args[0]` or `args[1]` changes what the later handlers receive. The model's handlers receive an immutable `[args[0], version]`, so the contract holds only for handlers that never write to their argument slice.
- Dispatch.ErrorMessage: the contract states the opening and closing parts of the handler-failure and lookup-failure messages; the full texts of the missing-argument, no-deploy-handler, malformed-result and index-panic messages are given by the body only.
