# CSI cluster driver registrar — a Dafny model

The cluster driver registrar is a sidecar that runs beside a CSI (Container Storage
Interface) driver. It asks the driver for its name and whether it needs a controller-side
attach step. It then publishes a cluster-wide `CSIDriver` object describing the driver,
re-asserts that object every two minutes, and deletes it when the process is interrupted.

The model covers the decision logic under the I/O:

- `Wrappers` (`wrappers.dfy`): the Option type.
- `DriverSetup` (`driver_setup.dfy`, from `main.go`):
  - the discovery search `hasResource` (method `HasResource`, specified by the predicate `Serves`);
  - the one-time choice between the `storage.k8s.io/v1beta1` CSIDriver kind and the
    `csi.storage.k8s.io/v1alpha1` custom resource (`SelectVariant`);
  - the attach probe `isAttachRequired`;
  - the CSIDriver object of each API (`Payload`, read back by `Registration`);
  - the add/remove pair (`Bind`);
  - `main` itself as the method `Start`, with every early exit. The results of external calls
    are fields of `Environment`.
- `K8sRegister` (`k8s_register.dfy`, from `k8s_register.go`):
  - the closures of `verifyAndAddCSIDriverInfo` and `verifyAndDeleteCSIDriverInfo`
    (`AddAttempt`, `DeleteAttempt`);
  - client-go's retry-on-conflict loop (`RetryOnConflict`, specified by the predicate
    `RetriedOnConflict`);
  - the registrar as a class `Registrar`. Its phase is `Registering` or `Exited(code)`. It logs
    every request it sends to the API server. `Tick` is one iteration of `kubernetesRegister`'s
    loop, `Interrupt` is `cleanup`, and `Run` is the loop followed by the signal.

The add and remove calls are modelled by the sequence of errors they return on successive
calls. The retry bound is a parameter `steps`, because its value (`retry.DefaultRetry`) lives
in client-go.

## Model

| member | source | states |
|---|---|---|
| `DriverSetup.HasResource` | cmd/csi-cluster-driver-registrar/main.go:227-238 | returns true iff some list has exactly the requested group/version and holds a resource of the requested kind; false on an empty discovery result |
| `DriverSetup.OtherGroupVersionsIgnored` | cmd/csi-cluster-driver-registrar/main.go:229 | dropping every list of another group/version does not change the search result |
| `DriverSetup.ServesOrderIndependent` | cmd/csi-cluster-driver-registrar/main.go:227-238 | two discovery results with the same lists, in any order, give the same search result |
| `DriverSetup.SelectVariant` | cmd/csi-cluster-driver-registrar/main.go:141-201 | the chosen API is one the cluster serves; v1beta1 is chosen whenever it is served, even if v1alpha1 is also served; no API is chosen exactly when neither kind is served |
| `DriverSetup.IsAttachRequired` | cmd/csi-cluster-driver-registrar/main.go:218-225 | a failed capability query gives (false, error); otherwise attach is required iff PUBLISH_UNPUBLISH_VOLUME is in the map and mapped to true, so a missing entry reads as false |
| `DriverSetup.Payload` | cmd/csi-cluster-driver-registrar/main.go:143-177 | the object has the driver's name and the chosen API; reading it back gives the name, attach flag and pod-info flag; in the alpha object the pod-info-on-mount version is present iff the flag is set (and is then "v1") |
| `DriverSetup.Bind` | cmd/csi-cluster-driver-registrar/main.go:153-194 | add creates through the chosen API and remove deletes through the same API, both keyed by the driver name; the created object carries the probed registration |
| `DriverSetup.Start` | cmd/csi-cluster-driver-registrar/main.go:73-204 | the result is the version print exactly when `--version` is set, which returns before anything else; every other exit has status 1; the registrar starts iff every probe and client step succeeded, an API was chosen and, for v1alpha1, its client was built; it then gets the driver name and `Bind` of the chosen API and the probed registration; with neither API served the process exits 1 |
| `K8sRegister.AddAttempt` | cmd/csi-cluster-driver-registrar/k8s_register.go:58-67 | the add closure succeeds iff add() returned nil or AlreadyExists; any other error is passed on unchanged |
| `K8sRegister.DeleteAttempt` | cmd/csi-cluster-driver-registrar/k8s_register.go:78-87 | the remove closure succeeds iff remove() returned nil or NotFound; any other error is passed on unchanged |
| `K8sRegister.RetryOnConflict` | cmd/csi-cluster-driver-registrar/k8s_register.go:57 | the closure is invoked again only after a Conflict, at most `steps` times; the first non-conflict outcome is returned at once; if every attempt conflicts, all `steps` attempts run and Conflict is returned |
| `K8sRegister.RetryDeterministic` | cmd/csi-cluster-driver-registrar/k8s_register.go:57 | the retry specification allows exactly one outcome and call count for given results |
| `K8sRegister.VerifyAndAddCSIDriverInfo` | cmd/csi-cluster-driver-registrar/k8s_register.go:53-70 | retries the add closure on conflict; makes between 1 and `steps` add() calls; succeeds iff the last add() returned nil or AlreadyExists; never returns AlreadyExists |
| `K8sRegister.VerifyAndDeleteCSIDriverInfo` | cmd/csi-cluster-driver-registrar/k8s_register.go:73-90 | retries the remove closure on conflict; makes between 1 and `steps` remove() calls; succeeds iff the last remove() returned nil or NotFound; never returns NotFound |
| `K8sRegister.AlreadyExistsIsSuccess` | cmd/csi-cluster-driver-registrar/k8s_register.go:62-64 | an add whose first call reports AlreadyExists succeeds after that single call |
| `K8sRegister.NotFoundIsSuccess` | cmd/csi-cluster-driver-registrar/k8s_register.go:82-84 | a delete whose first call reports NotFound succeeds after that single call |
| `K8sRegister.ConflictTwiceThenCreated` | cmd/csi-cluster-driver-registrar/k8s_register.go:57-69 | Conflict, Conflict, then nil with a bound of at least 3: success after exactly three add() calls |
| `K8sRegister.ConflictsExhaustRetries` | cmd/csi-cluster-driver-registrar/k8s_register.go:57 | when every attempt conflicts, exactly `steps` attempts are made and Conflict is returned |
| `K8sRegister.Registrar.constructor` | cmd/csi-cluster-driver-registrar/k8s_register.go:29-37 | the registrar starts in Registering with nothing sent, holding the consistent add/remove pair |
| `K8sRegister.Registrar.Tick` | cmd/csi-cluster-driver-registrar/k8s_register.go:40-43 | a tick stays in the current phase whatever the add returned; while registering it sends exactly the add calls of one retried add; once exited it sends nothing |
| `K8sRegister.Registrar.Interrupt` | cmd/csi-cluster-driver-registrar/k8s_register.go:46-50 | the signal sends exactly the remove calls of one retried delete, then the phase is Exited(1) whether the delete succeeded or not |
| `K8sRegister.Registrar.Run` | cmd/csi-cluster-driver-registrar/k8s_register.go:29-50 | a run of n ticks and a signal sends between n and n·steps creates, then between 1 and `steps` deletes, all through the one bound API, and ends in Exited(1) |

`Registrar.Valid` is kept by every method. It says that only the bound add and remove reach
the API server, and that both use one API and one driver name. It also says that nothing is
deleted while the registrar is still registering, and that the only exit status is 1.

## Left out

- The gRPC connection to the driver and the calls `connection.Connect`, `GetDriverName` and
  `GetControllerCapabilities` are not modelled. Only their results are, as `Environment`
  fields. A failed call is `None` or `false`.
- `buildConfig`, the two `NewForConfig` constructors, `discovery.ServerResources` and the
  `Create`/`Delete` API calls are client-go and API-server I/O. Their outcomes are inputs.
  A discovery result with an error is one `None`, so the partial result that may come with
  the error is not modelled; `main` exits on any such error anyway.
- Flag parsing, the version print, the deprecated `--connection-timeout` warning and all klog
  logging are left out. They have no effect on the decisions. The discovery-error log call
  uses a format string with a non-formatting function; it only affects the log text.
- `time.Sleep` between ticks, the backoff durations and jitter of `retry.DefaultRetry`, and
  the one-second CSI timeout are left out. Only the attempt bound `steps` is kept. Its value
  is client-go's and is not fixed here.
- `K8sRegister.RetryOnConflict`: client-go's retry code is not modelled here; this follows its
  documented behaviour. With `steps == 0` it makes no call and returns nil. The add and
  remove scripts must hold at least `steps` results.
- The goroutine, `signal.Notify` and the channel are not modelled. The signal is one
  `Interrupt` event. Ticks and the cleanup are serialized, so an add that overlaps the delete
  is not captured.
- The infinite registration loop is modelled by `Registrar.Run` over a finite sequence of
  ticks that ends with the signal. A run without a signal is a sequence of `Tick` calls.
- Object fields that the source leaves unset (labels, other spec fields, the Go pointers of
  `AttachRequired` and `PodInfoOnMount`) are not modelled. The flags are plain booleans.
- The CSI capability enumeration is the controller RPC set of CSI 1.0. Only
  PUBLISH_UNPUBLISH_VOLUME matters to the model.
