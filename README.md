# csi-attacher startup decisions

A model of the startup path of the Kubernetes CSI external-attacher sidecar
(`cmd/csi-attacher/main.go`). At startup the sidecar connects to a CSI driver,
asks for the driver's name and capabilities, and picks one of two attach
handlers. The Trivial handler marks every VolumeAttachment as attached. The
CSI handler forwards ControllerPublish/Unpublish to the driver and carries a
read-only flag. The sidecar then runs its controller directly, or under leader
election with a lock named after the driver.

Modules:

- `Wrappers` (wrappers.dfy): `Option` and `Result`. A driver call's reply is a value or an error.
- `Capabilities` (capabilities.dfy): the CSI capability kinds, Go's map read (absent reads as false), and the two probe helpers.
- `Handlers` (handlers.dfy): `Handler = Trivial | Csi(readOnly)` and `SelectHandler`, the decision table.
- `LeaderElection` (leader_election.dfy): the lock name and the plan derived from the leader-election flags.
- `Attacher` (attacher.dfy): `Bootstrap`, the handler selection with its early aborts. `Start` is the decision path of `main` once the Kubernetes client is built (main.go:102-112).

The calls to the driver are not made. A `Plugin` value holds the reply each
call would get. `Bootstrap` and `Start` also return the calls they issued, so
the model shows which queries are skipped. In dummy mode no query is made.
Without the controller service, GetControllerCapabilities is skipped.
`Bootstraps` states their contract declaratively:

- the calls are a prefix of the fixed order;
- every call before the last was answered;
- the outcome aborts exactly when the last call failed;
- the handler is the one `SelectHandler` gives when the controller capabilities were asked for, and Trivial otherwise.

`BootstrapsDeterministic` proves that this contract allows exactly one result.

Three consequences of the code's order of checks:

- GetControllerCapabilities is skipped when CONTROLLER_SERVICE is not reported (main.go:152-157). A failing reply to it therefore does not abort startup.
- main.go does not check for an empty driver name. The CSI client library does; here that is one more error reply of GetDriverName.
- The election type is checked only after the handler is chosen, and only with leader election on (main.go:196-211). A bad type with leader election off is not an error.

## Model

| member | source | states |
|---|---|---|
| `Capabilities.SupportsPluginControllerService` | cmd/csi-attacher/main.go:241-248 | a failed GetPluginCapabilities gives `(false, err)`; otherwise the CONTROLLER_SERVICE entry, with absent meaning false, and no error |
| `Capabilities.SupportsControllerPublish` | cmd/csi-attacher/main.go:230-239 | a failed GetControllerCapabilities gives `(false, false, err)`; otherwise the PUBLISH_UNPUBLISH_VOLUME and PUBLISH_READONLY entries, with absent meaning false, and no error |
| `Handlers.SelectHandler` | cmd/csi-attacher/main.go:152-173 | no controller service gives Trivial; controller service without publish/unpublish gives Trivial; both give Csi whose read-only flag is the PUBLISH_READONLY entry |
| `Handlers.CsiIffControllerPublish` | cmd/csi-attacher/main.go:152-173 | the CSI handler is chosen if and only if both CONTROLLER_SERVICE and PUBLISH_UNPUBLISH_VOLUME read as true |
| `Handlers.ControllerIgnoredWithoutService` | cmd/csi-attacher/main.go:152-154 | without the controller service the handler is Trivial whatever the controller capabilities are |
| `LeaderElection.LockNameShape` | cmd/csi-attacher/main.go:202 | the lock name is the prefix `external-attacher-leader-` followed by exactly the driver name |
| `LeaderElection.LockNameInjective` | cmd/csi-attacher/main.go:202 | two lock names are equal if and only if the driver names are equal |
| `LeaderElection.PlanLeaderElection` | cmd/csi-attacher/main.go:196-215 | disabled: run directly; `configmaps`: ConfigMap lock plus deprecation warning; `leases`: Lease lock, no warning; any other type: fatal; the lock is named after the driver; the namespace is set only when the flag is non-empty |
| `LeaderElection.SameLockIffSameDriver` | cmd/csi-attacher/main.go:196-215 | under the same flags, two sidecars that elect get the same plan if and only if their drivers have the same name |
| `Attacher.Bootstrap` | cmd/csi-attacher/main.go:118-175 | dummy mode: Trivial with the name `csi/dummy` and no call. Otherwise: calls in the order connect, probe, driver name, plugin capabilities, then controller capabilities only with the controller service; abort at the first error, naming the call and its error; else the driver's name and the `SelectHandler` handler |
| `Attacher.BootstrapsDeterministic` | cmd/csi-attacher/main.go:118-175 | the handler-selection contract determines the outcome and the call sequence uniquely |
| `Attacher.BootstrapTotal` | cmd/csi-attacher/main.go:118-175 | when every call that is made succeeds, a driver name and handler are always chosen; without the controller service a failing controller-capability reply does not matter |
| `Attacher.Start` | cmd/csi-attacher/main.go:118-220 | the handler selection happens first and meets the contract above; after it, the election plan is `PlanLeaderElection` of the flags and the chosen driver name; once the Kubernetes client is built (main.go:102-112), the process exits with status 1 exactly when a driver call failed or leader election is on with a type other than `configmaps` and `leases` |
| `LeaderElection.DefaultTypeIsDeprecatedConfigMaps` | cmd/csi-attacher/main.go:72 | with leader election on and the default type, the ConfigMap lock is used and the deprecation warning is logged |
| `Attacher.DummyLockName` | cmd/csi-attacher/main.go:119-122 | in dummy mode with leader election on, no call is made, the handler is Trivial and the lock is `external-attacher-leader-csi/dummy` |

## Left out

- Connecting to the driver and `rpc.ProbeForever` (main.go:125-135): network calls; each is one success-or-error reply in `Plugin`. `ProbeForever` retries while the driver is not ready, so startup can also block there forever; the model has no such outcome, and `BootstrapTotal` holds only for calls that return.
- `rpc.GetDriverName`, `rpc.GetPluginCapabilities`, `rpc.GetControllerCapabilities`: calls into the CSI client library; only their replies are modelled. This includes the empty-name check. `csiTimeout` is one second on a single context (main.go:138-139) shared by the three queries, so a slow first reply leaves less time for the next ones. The model treats the three replies as independent, which allows more combinations than the shared deadline does.
- Running the leader election (`le.Run()`, lease acquisition, renewal and hand-over) and its failure in `klog.Fatalf` (main.go:217-219): distributed concurrency inside the leader-election library. The model stops at the plan that is handed to the library.
- Building the Kubernetes client and config, the informer factory, the listers and `ctrl.Run` (main.go:102-114, 163-167, 177-194, 223-228): I/O and the controller itself. The CSI handler keeps only its read-only flag.
- The `csiFactory` branch (main.go:190-192): `csiFactory` is never assigned, so the branch is dead.
- Flag parsing, logging, version printing and the deprecated `-connection-timeout` warning (main.go:87-99): glue with no decision in it. The deprecation warning for `configmaps` is kept as a flag in the plan.
- Timeouts and retry intervals (`timeout`, `retry-interval-start`, `retry-interval-max`): they are only passed on to libraries.
