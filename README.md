# Fabric dashboard operations and the orderer controller, in Dafny

This project models two decision cores of a Hyperledger Fabric management
system.

**The dashboard's ledger operations** (`user-dashboard/src/app/lib/fabric/index.js`)
are join a channel, install, instantiate, invoke and query chaincode.
The network and CA client libraries are not modelled. What they answer
becomes an input: proposal responses, the orderer's reply, the events each
event-hub listener sees, and the CA's enroll and register answers. A rejected
promise is `None`, or an `Outcome.Threw`. What is left is:

- the endorsement fold (`all_good`);
- peer-name resolution against the network topology;
- the join-channel and commit listeners, as state machines over event traces;
- `Promise.all`;
- the result rules of each operation;
- the status transitions of deployment records, as a class over a map of records;
- the identity fast path;
- the name builders.

The modules are `Common`, `FabricTopology`, `FabricListeners`,
`FabricIdentity` and `FabricOperations`.

**The Kubernetes operator's orderer controller**
(`src/agent/fabric-operator/pkg/controller/orderer/orderer_controller.go`)
is modelled in module `OrdererController`. One `Reconcile` pass is a method
of `ReconcileOrderer`. It drives a `Cluster` object whose state is a map from
(kind, namespace, name) to object:

- it creates the orderer's secret, service and stateful set when a read says NotFound;
- it publishes the orderer's access point in its status;
- it returns done, requeue, or the error of the step that failed.

How the API server misbehaves during a pass is an `Environment` parameter:

- a failing configuration-map check;
- reads that fail;
- reads from a cache that has not seen an object yet;
- creates that fail;
- a failing status write;
- the node addresses.

The builders `newSecretForCR`, `newServiceForCR` and `newSTSForCR` are
methods. Each is specified by a predicate that says what the built object is.
Base64, PEM, X.509 and UTF-8 are function-valued fields of `Codecs`.

## Model

| member | source | states |
|---|---|---|
| Common.DecimalRoundTrip | src/agent/fabric-operator/pkg/controller/orderer/orderer_controller.go:186-191 | the base-10 rendering of a port or index reads back as the same number |
| Common.DecimalInjective | src/agent/fabric-operator/pkg/controller/orderer/orderer_controller.go:246-251 | distinct indices render differently, so `strconv.Itoa` suffixes never collide |
| FabricTopology.KeyStoreForOrgInjective | user-dashboard/src/app/lib/fabric/index.js:11-13 | two organizations never share a key-value store directory under one root |
| FabricTopology.ResolvePeerNames | user-dashboard/src/app/lib/fabric/index.js:53-73 | resolution yields at most as many names as given, every one a peer of the organization |
| FabricTopology.ResolveMembership | user-dashboard/src/app/lib/fabric/index.js:53-73 | a name is resolved iff the caller gave it and the organization has that peer |
| FabricTopology.ResolveKnownNames | user-dashboard/src/app/lib/fabric/index.js:53-73 | when every name is known, nothing is dropped and the order is the caller's |
| FabricTopology.ResolveDistributes | user-dashboard/src/app/lib/fabric/index.js:53-73 | resolution keeps the caller's order: resolving a concatenation concatenates the resolutions |
| FabricTopology.NewRemotes | user-dashboard/src/app/lib/fabric/index.js:48-80 | one peer or event-hub endpoint per resolved name, in order, built from that peer's configuration; an empty result is not an error |
| FabricTopology.BuildTarget | user-dashboard/src/app/lib/fabric/index.js:23-32 | a target exists iff a peer name is given and the organization knows it, and it is that peer's endpoint |
| FabricTopology.FabricHelper | user-dashboard/src/app/lib/fabric/index.js:651-682 | handles exist for exactly the configuration keys starting with `org`: key store under the organization's name, channel `mychannel` with all its peers, its CA |
| FabricListeners.AllOf | user-dashboard/src/app/lib/fabric/index.js:219-220 | `Promise.all` rejects iff some member rejects and resolves iff every member resolves |
| FabricListeners.JoinSettledIsFinal | user-dashboard/src/app/lib/fabric/index.js:200-216 | a settled join listener keeps its settlement whatever events follow |
| FabricListeners.JoinNonSingleBlocksKeepPending | user-dashboard/src/app/lib/fabric/index.js:202-214 | blocks whose transaction count is not one clear the timer and leave the listener pending |
| FabricListeners.JoinClearedTimerNeverFires | user-dashboard/src/app/lib/fabric/index.js:201-203 | once the timer is cleared, a pending listener stays pending through any number of timer events |
| FabricListeners.JoinDecidedByFirstSingleBlock | user-dashboard/src/app/lib/fabric/index.js:206-213 | the first single-transaction block decides the listener: resolved iff its channel id is the joined channel |
| FabricListeners.JoinTimeoutRejects | user-dashboard/src/app/lib/fabric/index.js:201 | the timer firing before any block rejects the listener for good |
| FabricListeners.JoinRunSplit | user-dashboard/src/app/lib/fabric/index.js:199-216 | running the listener over two traces in turn equals running it over their concatenation |
| FabricListeners.QuiescentStaysPut | user-dashboard/src/app/lib/fabric/index.js:550-572 | a commit listener with no timer and no connection ignores every later event |
| FabricListeners.CommitFirstEventDecides | user-dashboard/src/app/lib/fabric/index.js:550-572 | the first event settles a commit listener (resolved iff it is a `VALID` notification) and disconnects the hub exactly once |
| FabricListeners.CommitTimerBoundsWait | user-dashboard/src/app/lib/fabric/index.js:551-554 | after the 30-second timer fires, the commit listener is never pending |
| FabricListeners.EventHub.Connect | user-dashboard/src/app/lib/fabric/index.js:258 | the hub ends connected and its disconnect count is unchanged |
| FabricListeners.EventHub.Disconnect | user-dashboard/src/app/lib/fabric/index.js:242 | the hub ends disconnected and its disconnect count goes up by one |
| FabricListeners.CloseConnections | user-dashboard/src/app/lib/fabric/index.js:233-245 | every hub ends disconnected, and only those that were connected are disconnected, once each |
| FabricListeners.JoinListener.constructor | user-dashboard/src/app/lib/fabric/index.js:200-201 | a fresh join listener has its timer armed and is pending |
| FabricListeners.JoinListener.OnBlock | user-dashboard/src/app/lib/fabric/index.js:202-215 | the listener's new state is the join step for that block |
| FabricListeners.JoinListener.OnTimeout | user-dashboard/src/app/lib/fabric/index.js:201 | the listener's new state is the join step for the timer |
| FabricListeners.CommitListener.constructor | user-dashboard/src/app/lib/fabric/index.js:550-556 | a fresh commit listener is registered on a connected hub, with its timer armed, pending |
| FabricListeners.CommitListener.OnTxEvent | user-dashboard/src/app/lib/fabric/index.js:556-571 | the listener and hub move by the commit step for that notification |
| FabricListeners.CommitListener.OnTimeout | user-dashboard/src/app/lib/fabric/index.js:551-554 | the listener and hub move by the commit step for the timer |
| FabricIdentity.AffiliationInjective | user-dashboard/src/app/lib/fabric/index.js:469 | distinct organizations register users under distinct affiliations |
| FabricIdentity.OrgAdminUser | user-dashboard/src/app/lib/fabric/index.js:127-134 | the file-based admin carries the organization's MSP id, the key and certificate read, and the name `peer<org>Admin` |
| FabricIdentity.OrgAdminNameInjective | user-dashboard/src/app/lib/fabric/index.js:128 | distinct organizations get distinct file-based admin names |
| FabricIdentity.GetAdminUser | user-dashboard/src/app/lib/fabric/index.js:137-171 | a stored, enrolled `admin` is returned with no CA request; otherwise exactly one enroll with `admin`/`adminpw`; it returns iff the CA enrolls, and then the admin is the enrolled user `admin` with the organization's MSP id and the CA's key and certificate, persisted; any other answer throws and writes nothing; other store entries are untouched |
| FabricIdentity.GetRegisteredUsers | user-dashboard/src/app/lib/fabric/index.js:448-489 | a stored, enrolled user is returned with no CA request; otherwise the admin lookup runs first and its failure throws; then one register under `org.department1` by the admin, whose rejection throws; then one enroll with the secret it gave; a key and certificate give the enrolled user with that secret, persisted; a string answer containing `Error:` is returned unchanged; any other answer throws; only `admin` and the user change in the store |
| FabricIdentity.RegisteredUserIdempotent | user-dashboard/src/app/lib/fabric/index.js:459-464 | a second lookup after a successful one returns the same user with no CA request and no store change, whatever the CA would answer |
| FabricOperations.AllGood | user-dashboard/src/app/lib/fabric/index.js:306-317 | the fold is true iff every response is present with status 200, so an empty list passes (the same loop is at lines 374-385 and 511-522) |
| FabricOperations.ChainCodeNameInjective | user-dashboard/src/app/lib/fabric/index.js:285 | when chain ids have no `-`, the chaincode name determines both the chain id and the code id |
| FabricOperations.ChainRootPathInjective | user-dashboard/src/app/lib/fabric/index.js:287 | when user ids have no `/`, the staging path determines both the user and the chain |
| FabricOperations.DeploymentStore.UpsertInstalled | user-dashboard/src/app/lib/fabric/index.js:324-332 | a record matching the filter becomes `installed` and nothing else changes; with no match a new record from the filter is inserted as `installed` |
| FabricOperations.DeploymentStore.SetStatus | user-dashboard/src/app/lib/fabric/index.js:351-352 | only the named record's status changes |
| FabricOperations.DeploymentStore.MarkInstantiated | user-dashboard/src/app/lib/fabric/index.js:387-389 | only the named record changes: status `instantiated` and the deploy time |
| FabricOperations.InstallSmartContract | user-dashboard/src/app/lib/fabric/index.js:281-346 | success iff the code, the chain and the responses exist and all responses are good and non-empty; success upserts an `installed` record named `chainId-codeId` and returns its id: a record matching the filter only changes its status, and a new record with the filter's fields is inserted only when none matches; any other outcome writes nothing; a bad response returns the install failure message; it throws iff the chain or the code is null, the proposal is rejected or the response list is empty, and it never stays pending |
| FabricOperations.InstantiateSmartContract | user-dashboard/src/app/lib/fabric/index.js:348-446 | the record becomes `instantiating` first; good proposals make it `instantiated` with the deploy time before ordering and commit; a bad proposal makes it `error` and returns the failure text; after good proposals an unreadable first response or a missing `peer1` throws, a rejected send or commit listener throws, a pending listener leaves the call waiting, and the orderer's raw reply is returned iff the commit listener on `peer1` resolves |
| FabricOperations.InvokeChainCode | user-dashboard/src/app/lib/fabric/index.js:490-610 | success with the transaction id iff the proposals are good, the orderer says `SUCCESS` and every listener commits; a rejection gives the timeout message; another orderer status gives the order-failure message with that status; a bad proposal fails without ordering; a listener still pending with nothing rejected, or a pending identity lookup, leaves the call waiting; it throws iff the user lookup throws (with that cause), the proposal is rejected, or the proposals are good but the first response is missing or has no endorsement |
| FabricOperations.QueryResult | user-dashboard/src/app/lib/fabric/index.js:626-649 | success iff there is a non-empty payload array, with the first payload; a null array gives `response_payloads is null`; an empty array gives no result; an error gives the bare stack as message |
| FabricOperations.QueryUsesFirstPayloadOnly | user-dashboard/src/app/lib/fabric/index.js:631-636 | payloads after the first never affect the result |
| FabricOperations.QueryErrorDropsPrefix | user-dashboard/src/app/lib/fabric/index.js:644-648 | the error message never carries the `Failed to send query due to error: ` prefix unless the stack does |
| FabricOperations.QueryChainCode | user-dashboard/src/app/lib/fabric/index.js:611-650 | the target exists iff the named peer is known; a failing user lookup propagates; otherwise the result is the query's result rule |
| FabricOperations.JoinChannel | user-dashboard/src/app/lib/fabric/index.js:222-280 | success iff the genesis block was fetched, the join was sent, every listener resolves and the first peer's response has status 200; it throws iff one of these rejects; it returns, with `success` false when the first response is not 200, iff the genesis block was fetched, the join was sent and every listener resolved; after the genesis block every hub is connected, and the hubs are disconnected, once each, only when it returns |
| OrdererController.AccessPoint | src/agent/fabric-operator/pkg/controller/orderer/orderer_controller.go:182-192 | the access point is never empty |
| OrdererController.AccessPointRoundTrip | src/agent/fabric-operator/pkg/controller/orderer/orderer_controller.go:182-192 | the access point reads back as the first of the spec's hosts and the node addresses (if any) and the node port |
| OrdererController.AccessPointInjective | src/agent/fabric-operator/pkg/controller/orderer/orderer_controller.go:186-191 | different node ports never publish the same access point |
| OrdererController.MspIdName | src/agent/fabric-operator/pkg/controller/orderer/orderer_controller.go:254-268 | `SampleOrgMSPID` when there is no PEM block or the certificate does not parse; otherwise the first subject organization, else the first issuer organization, else `SampleOrgMSPID` |
| OrdererController.MspIdFor | src/agent/fabric-operator/pkg/controller/orderer/orderer_controller.go:254-268 | the `mspid` bytes are those of the chosen organization name |
| OrdererController.IndexedKeyInjective | src/agent/fabric-operator/pkg/controller/orderer/orderer_controller.go:246-251 | two list elements never share a data key |
| OrdererController.SecretKeysApart | src/agent/fabric-operator/pkg/controller/orderer/orderer_controller.go:246-274 | no list entry key equals a fixed key or falls under another list's prefix |
| OrdererController.PutIndexed | src/agent/fabric-operator/pkg/controller/orderer/orderer_controller.go:246-251 | adds exactly the keys `prefix0..prefix(n-1)`, each holding its decoded element; keys outside the prefix are kept |
| OrdererController.CertEntries | src/agent/fabric-operator/pkg/controller/orderer/orderer_controller.go:246-251 | the admin and CA certificate keys, each with its decoded certificate |
| OrdererController.TlsEntries | src/agent/fabric-operator/pkg/controller/orderer/orderer_controller.go:269-274 | adds the TLS CA certificate keys, `tlscert` and `tlskey` with their decoded values, and keeps everything else |
| OrdererController.SecretEntriesKept | src/agent/fabric-operator/pkg/controller/orderer/orderer_controller.go:246-274 | entries written before the TLS entries survive them, and the final key set is exactly the secret's key set |
| OrdererController.NewSecretForCR | src/agent/fabric-operator/pkg/controller/orderer/orderer_controller.go:226-278 | a secret iff the template decodes and every certificate and key is given; it is named `<name>-secret` in the request's namespace, with one decoded entry per certificate, the key material and the MSP id |
| OrdererController.NewServiceForCR | src/agent/fabric-operator/pkg/controller/orderer/orderer_controller.go:281-294 | a service iff the template decodes; it is renamed after the request, with label and selector `k8s-app` set to the name; nothing else changes |
| OrdererController.NewSTSForCR | src/agent/fabric-operator/pkg/controller/orderer/orderer_controller.go:297-334 | a stateful set iff the template decodes: named after the request, the defaults `default`, `5Gi` and `hyperledger/fabric-orderer:1.4.3`, every secret reference `<name>-secret`, the template's env then one variable per config parameter in order, the spec's resources |
| OrdererController.ReadObject | src/agent/fabric-operator/pkg/controller/orderer/orderer_controller.go:121-133 | a read finds the object iff it is stored and neither failing nor served stale; a failed read is `Unavailable` for failing reads and NotFound otherwise |
| OrdererController.Cluster.Create | src/agent/fabric-operator/pkg/controller/orderer/orderer_controller.go:143-147 | a nil object is invalid; an existing object is never replaced (AlreadyExists); otherwise exactly that object is added |
| OrdererController.Cluster.UpdateStatus | src/agent/fabric-operator/pkg/controller/orderer/orderer_controller.go:193-198 | only the stored orderer's access point changes, and only when the write succeeds |
| OrdererController.ReconcileOrderer.EnsureSecret | src/agent/fabric-operator/pkg/controller/orderer/orderer_controller.go:135-150 | the step ends as `SecretStop` says: a NotFound read leads to a create, whose error stops the pass with `CreateSecretStep`; any other read goes on; the secret key is added exactly when that create succeeds, and the secret added is the one built for the orderer |
| OrdererController.ReconcileOrderer.EnsureService | src/agent/fabric-operator/pkg/controller/orderer/orderer_controller.go:152-169 | the step ends as `ServiceStop` says: a NotFound read leads to a create, whose error stops the pass; another read error stops it with `GetServiceStep`; the ports it goes on with are the stored service's, or the template's unless the read-back is stale; the service key is added exactly when the create succeeds, with the service built for the request |
| OrdererController.ReconcileOrderer.PublishAccessPoint | src/agent/fabric-operator/pkg/controller/orderer/orderer_controller.go:176-202 | the step ends as `PublishStop` says: a set access point is left alone and nothing is written; an empty one with a node port that is not positive requeues; a positive node port publishes the access point built from it, unless the status write fails, which stops the pass |
| OrdererController.ReconcileOrderer.EnsureStatefulSet | src/agent/fabric-operator/pkg/controller/orderer/orderer_controller.go:204-220 | the step ends as `StatefulSetStop` says: a NotFound read leads to a create, whose error other than AlreadyExists stops the pass; another read error stops it with `GetStatefulSetStep`; the key is added exactly when the create succeeds, with the stateful set built for the orderer |
| OrdererController.ReconcileOrderer.ReconcileServed | src/agent/fabric-operator/pkg/controller/orderer/orderer_controller.go:176-222 | result, created keys and access point are those of `ServedPass`: access point, then stateful set, then done |
| OrdererController.ReconcileOrderer.ReconcileSecured | src/agent/fabric-operator/pkg/controller/orderer/orderer_controller.go:152-222 | result, created keys and access point are those of `SecuredPass`: the service step, a requeue while the service has no ports, then the served steps |
| OrdererController.ReconcileOrderer.ReconcileFound | src/agent/fabric-operator/pkg/controller/orderer/orderer_controller.go:135-222 | result, created keys and access point are those of `FoundPass`: the secret step, then the secured steps; only the secret, the service and the stateful set are ever created, each the one built for the orderer |
| OrdererController.ReconcileOrderer.Reconcile | src/agent/fabric-operator/pkg/controller/orderer/orderer_controller.go:109-223 | result, created keys and access point are those of `PassSpec`: a failing configuration check or orderer read returns that error, a missing orderer gives done, and a found one runs the found steps; objects are only created, never replaced; the orderer changes only by publishing its first access point; a created object is the one built for the orderer |
| OrdererController.PassCreatesOnlyMissing | src/agent/fabric-operator/pkg/controller/orderer/orderer_controller.go:135-222 | a pass creates only the secret, the service and the stateful set, each only when it was missing and its read did not fail, and publishes only an empty access point |
| OrdererController.NewOrdererCompletes | src/agent/fabric-operator/pkg/controller/orderer/orderer_controller.go:109-222 | for a new orderer in a clean cluster with usable templates and an assigned node port, one pass creates the secret, the service and the stateful set, publishes the access point and is done |
| OrdererController.SettledOrdererIsQuiet | src/agent/fabric-operator/pkg/controller/orderer/orderer_controller.go:135-222 | once the secret, a service with ports, the stateful set and the access point exist, a clean pass is done and writes nothing |
| OrdererController.StaleSecretReadFails | src/agent/fabric-operator/pkg/controller/orderer/orderer_controller.go:137-147 | a stored secret that the cache has not yet seen is created again; the create fails with AlreadyExists and the pass ends with that error |
| OrdererController.StaleStatefulSetTolerated | src/agent/fabric-operator/pkg/controller/orderer/orderer_controller.go:205-215 | the same stale read of a stored stateful set is tolerated: the step goes on and creates nothing |
| OrdererController.UnassignedNodePortRequeues | src/agent/fabric-operator/pkg/controller/orderer/orderer_controller.go:176-201 | an orderer without an access point whose service has no node port yet is requeued, and nothing is published or created |
| OrdererController.StatefulSetReadErrorAborts | src/agent/fabric-operator/pkg/controller/orderer/orderer_controller.go:204-220 | a failed stateful-set read ends the pass with that error and creates nothing |
| OrdererController.DonePassLeavesAllInPlace | src/agent/fabric-operator/pkg/controller/orderer/orderer_controller.go:135-222 | a done pass over a fetched orderer leaves the service, the stateful set and an access point in place, and the secret unless its read failed |

## Left out

- Everything inside the Fabric client and CA client libraries is left out: gRPC, TLS, crypto suites, key stores, and channel and orderer objects. What they return is an input of the model.
- `createChannel` (index.js:173-195) is left out. It only calls the library and swallows its errors.
- Real timers, scheduling and the interleaving of promises are left out. Each listener is a state machine over the sequence of events it sees. `Promise.all` is `AllOf` over the final settlements, so a pending member gives `Waiting`.
- These reads are left out, because they are file I/O: `readAllFiles`, `newOrderer`, `setupPeers`, the TLS root certificate reads in `newRemotes` and the staging-directory copy. The admin's key and certificate are parameters of `OrgAdminUser`.
- The `GOPATH` assignment is left out, because it is process environment.
- Logging and `sleep` are left out.
- The Mongo model calls are reduced to the map of deployment records in `DeploymentStore`. The record id of a new record is a parameter that must be fresh.
- The install and instantiate requests sent to the peers are not modelled. These are the request targets, chaincode path, version, function name and arguments. Only the responses they produce are modelled.
- The controller wiring in `add`, `Add` and `newReconciler` (orderer_controller.go:38-89) is left out. So are the owner references set by `SetControllerReference`.
- These calls are defined in files that are not part of this model: `GetObjectFromTemplate`, `CheckAndCreateConfigMap`, `GetNodeIPaddress` and `GetDefault`. They are abstracted as follows:
  - templates are inputs;
  - the configuration-map check is an optional error;
  - node addresses are part of the environment;
  - `GetDefault` is taken to return the fallback for an empty value.
- `resource.MustParse` is not modelled; the storage size is kept as text.
- Base64 decoding (section 4 of RFC 4648), PEM decoding (RFC 7468) and X.509 parsing (RFC 5280) are uninterpreted functions in `Codecs`.
- Node-port assignment by the API server is not modelled: a created service keeps the template's ports.
- `client.Create` with a nil secret (orderer_controller.go:142-143) is modelled as an Invalid error. The API client's own behaviour is not part of this model.
- OrdererController.ServiceStop, OrdererController.StatefulSetStop, OrdererController.ReconcileOrderer.EnsureService and OrdererController.ReconcileOrderer.EnsureStatefulSet: when the service or stateful-set template does not decode, the source panics in its log call on the nil object (orderer_controller.go:157 and :209) before `Create`. The model represents no panics, so it treats this as an Invalid create failure: `Failed(CreateServiceStep, Invalid)` or `Failed(CreateStatefulSetStep, Invalid)`.
- OrdererController.ReconcileOrderer.PublishAccessPoint: the second read of the orderer (orderer_controller.go:179) is taken to return the object already read, since nothing in the pass has written it.
- OrdererController.NewSTSForCR requires the template to have a first init container and a first container, each whose first variable refers to a secret. On other templates the source panics on a nil dereference, and the model does not represent panics. The source also panics when the template has no volume or no volume claim template (it writes `Volumes[0]` and `VolumeClaimTemplates[0]`), when that first volume is not a secret volume, and when its selector labels, pod labels or resource requests are nil maps; the model treats those maps as empty and keeps the volume secret name and the storage class as plain fields. The `Reconcile` methods carry the same requirement.
- OrdererController.NewServiceForCR: a template without labels or a selector makes the source panic when writing into a nil map. The model treats them as empty maps.
- FabricListeners.JoinListener and FabricListeners.CommitListener are the listeners as objects the hub calls back. The operations use the same steps through `RunJoin` and `RunCommit`, since they see a listener only through its settlement.
- FabricOperations.InvokeChainCode requires one event trace per resolved event hub. This is how the model supplies the listeners' events; it is not a demand of the source.
- FabricOperations.JoinChannel requires one hub and one event trace per resolved peer, for the same reason. A hub that drops its connection while the listeners wait is not modelled: every hub connected at line 258 is still connected when the hubs are closed.

## Kept as written

Some behaviours of the source look unintended. The model keeps them as written:

- A join listener that sees a block whose transaction count is not one does not reject. It clears its timer and stays pending.
- `joinChannel` closes the event hubs only when the awaited `Promise.all` resolves. A listener rejection throws out of the function without cleanup.
- `instantiateSmartContract` marks the record `instantiated` as soon as the proposals are good, before ordering and commit. It marks it `error` only on a bad proposal. A failed commit leaves it `instantiated`.
- `instantiateSmartContract` returns the orderer's reply object on success, and a bare failure string otherwise.
- An empty proposal-response list passes the endorsement fold. Install, instantiate and invoke then throw while reading the first response.
- `queryChainCode` returns nothing for an empty payload array. Its error message is the bare stack, without the intended prefix.
