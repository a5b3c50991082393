/**
 * Start-up decisions of the cluster driver registrar (cmd/csi-cluster-driver-registrar/main.go):
 * probing the CSI driver, choosing which CSIDriver API the cluster serves, building the
 * CSIDriver object for that API and binding the add/remove calls to it.
 *
 * Everything the process learns from outside (the gRPC connection, the CSI driver's answers,
 * the kubeconfig, the client constructors and API discovery) is a field of `Environment`.
 */
module DriverSetup {
  import opened Wrappers

  /** The two CSIDriver APIs: the built-in storage.k8s.io/v1beta1 kind and the
      csi.storage.k8s.io/v1alpha1 custom resource of Kubernetes 1.13. */
  datatype Variant = Stable | Alpha

  const CSIDriverKind: string := "CSIDriver"
  const StableGroupVersion: string := "storage.k8s.io/v1beta1"
  const AlphaGroupVersion: string := "csi.storage.k8s.io/v1alpha1"

  /** The only pod-info-on-mount version the alpha API ever had. */
  const PodInfoOnMountV1: string := "v1"

  function GroupVersion(v: Variant): string
  {
    match v
    case Stable => StableGroupVersion
    case Alpha => AlphaGroupVersion
  }

  // ---------------------------------------------------------------------------
  // API discovery

  datatype APIResource = APIResource(kind: string)

  /** One group/version of the API server with the resources it serves. */
  datatype APIResourceList = APIResourceList(groupVersion: string, apiResources: seq<APIResource>)

  predicate ListServes(list: APIResourceList, groupVersion: string, kind: string)
  {
    list.groupVersion == groupVersion &&
    exists j :: 0 <= j < |list.apiResources| && list.apiResources[j].kind == kind
  }

  /** Some discovered list of the given group/version contains a resource of the given kind. */
  predicate Serves(resources: seq<APIResourceList>, groupVersion: string, kind: string)
  {
    exists i :: 0 <= i < |resources| && ListServes(resources[i], groupVersion, kind)
  }

  /** hasResource: scans the lists and returns as soon as a matching kind is found. */
  method HasResource(resources: seq<APIResourceList>, groupVersion: string, kind: string)
    returns (found: bool)
    ensures found <==> Serves(resources, groupVersion, kind)
    ensures resources == [] ==> !found
  {
    for i := 0 to |resources|
      invariant forall i' :: 0 <= i' < i ==> !ListServes(resources[i'], groupVersion, kind)
    {
      var list := resources[i];
      if list.groupVersion == groupVersion {
        for j := 0 to |list.apiResources|
          invariant forall j' :: 0 <= j' < j ==> list.apiResources[j'].kind != kind
        {
          if list.apiResources[j].kind == kind {
            return true;
          }
        }
      }
    }
    return false;
  }

  /** The lists of one group/version, in their original order. */
  function WithGroupVersion(resources: seq<APIResourceList>, groupVersion: string)
    : (r: seq<APIResourceList>)
    ensures forall list :: list in r ==> list in resources && list.groupVersion == groupVersion
    ensures forall list :: list in resources && list.groupVersion == groupVersion ==> list in r
  {
    if resources == [] then []
    else
      (if resources[0].groupVersion == groupVersion then [resources[0]] else [])
      + WithGroupVersion(resources[1..], groupVersion)
  }

  /** Lists of any other group/version never influence the search. */
  lemma OtherGroupVersionsIgnored(resources: seq<APIResourceList>, groupVersion: string, kind: string)
    ensures Serves(resources, groupVersion, kind) == Serves(WithGroupVersion(resources, groupVersion), groupVersion, kind)
  {
  }

  /** The search depends only on which lists were discovered, not on their order. */
  lemma ServesOrderIndependent(r1: seq<APIResourceList>, r2: seq<APIResourceList>, groupVersion: string, kind: string)
    requires multiset(r1) == multiset(r2)
    ensures Serves(r1, groupVersion, kind) == Serves(r2, groupVersion, kind)
  {
    if Serves(r1, groupVersion, kind) {
      var i :| 0 <= i < |r1| && ListServes(r1[i], groupVersion, kind);
      assert r1[i] in multiset(r2);
      var j :| 0 <= j < |r2| && r2[j] == r1[i];
    }
    if Serves(r2, groupVersion, kind) {
      var j :| 0 <= j < |r2| && ListServes(r2[j], groupVersion, kind);
      assert r2[j] in multiset(r1);
      var i :| 0 <= i < |r1| && r1[i] == r2[j];
    }
  }

  /** The API chosen once at start-up: v1beta1 when served, else v1alpha1, else none. */
  function SelectVariant(resources: seq<APIResourceList>): (v: Option<Variant>)
    ensures v.Some? ==> Serves(resources, GroupVersion(v.value), CSIDriverKind)
    ensures v.None? <==>
      !Serves(resources, StableGroupVersion, CSIDriverKind) && !Serves(resources, AlphaGroupVersion, CSIDriverKind)
    ensures Serves(resources, StableGroupVersion, CSIDriverKind) ==> v == Some(Stable)
  {
    if Serves(resources, StableGroupVersion, CSIDriverKind) then Some(Stable)
    else if Serves(resources, AlphaGroupVersion, CSIDriverKind) then Some(Alpha)
    else None
  }

  // ---------------------------------------------------------------------------
  // Probing the CSI driver

  /** Controller RPC capabilities of the Container Storage Interface, version 1.0. */
  datatype ControllerCapability =
    | Unknown
    | CreateDeleteVolume
    | PublishUnpublishVolume
    | ListVolumes
    | GetCapacity
    | CreateDeleteSnapshot
    | ListSnapshots
    | CloneVolume
    | PublishReadonly

  /** isAttachRequired: `capabilities` is the answer of GetControllerCapabilities, None when
      the call failed. The result pairs the attach flag with "the query failed"; a capability
      missing from the map reads as false, as a Go map lookup does. */
  function IsAttachRequired(capabilities: Option<map<ControllerCapability, bool>>): (r: (bool, bool))
    ensures r.1 <==> capabilities.None?
    ensures r.1 ==> !r.0
    ensures r.0 <==>
      capabilities.Some? && PublishUnpublishVolume in capabilities.value && capabilities.value[PublishUnpublishVolume]
  {
    if capabilities.None? then (false, true)
    else
      var caps := capabilities.value;
      (if PublishUnpublishVolume in caps then caps[PublishUnpublishVolume] else false, false)
  }

  // ---------------------------------------------------------------------------
  // The CSIDriver object

  /** What the process wants the cluster to know about the driver. */
  datatype DriverRegistration = DriverRegistration(name: string, attachRequired: bool, podInfoOnMount: bool)

  datatype StableSpec = StableSpec(attachRequired: bool, podInfoOnMount: bool)
  datatype AlphaSpec = AlphaSpec(attachRequired: bool, podInfoOnMountVersion: Option<string>)

  /** A CSIDriver object of either API, named after the driver. */
  datatype CSIDriver =
    | StableCSIDriver(name: string, stableSpec: StableSpec)
    | AlphaCSIDriver(name: string, alphaSpec: AlphaSpec)

  function VariantOf(d: CSIDriver): Variant
  {
    match d
    case StableCSIDriver(_, _) => Stable
    case AlphaCSIDriver(_, _) => Alpha
  }

  /** How the cluster reads an object back: the alpha API asks for pod information
      exactly when the pod-info-on-mount version is "v1". */
  function Registration(d: CSIDriver): DriverRegistration
  {
    match d
    case StableCSIDriver(name, spec) =>
      DriverRegistration(name, spec.attachRequired, spec.podInfoOnMount)
    case AlphaCSIDriver(name, spec) =>
      DriverRegistration(name, spec.attachRequired, spec.podInfoOnMountVersion == Some(PodInfoOnMountV1))
  }

  /** The object created for a variant; the two APIs encode pod-info-on-mount differently. */
  function Payload(v: Variant, reg: DriverRegistration): (d: CSIDriver)
    ensures VariantOf(d) == v && d.name == reg.name
    ensures Registration(d) == reg
    ensures d.AlphaCSIDriver? ==>
      (d.alphaSpec.podInfoOnMountVersion.Some? <==> reg.podInfoOnMount)
  {
    match v
    case Stable =>
      StableCSIDriver(reg.name, StableSpec(reg.attachRequired, reg.podInfoOnMount))
    case Alpha =>
      AlphaCSIDriver(reg.name, AlphaSpec(reg.attachRequired,
        if reg.podInfoOnMount then Some(PodInfoOnMountV1) else None))
  }

  // ---------------------------------------------------------------------------
  // The add/remove pair

  /** A request to the API server: Create an object, or Delete one by name, through one API. */
  datatype ApiCall =
    | Create(api: Variant, obj: CSIDriver)
    | Delete(api: Variant, name: string)

  /** The `add` and `remove` closures handed to the registrar loop. */
  datatype Binding = Binding(add: ApiCall, remove: ApiCall)

  /** add creates and remove deletes the same object through the same API. */
  predicate Consistent(b: Binding)
  {
    b.add.Create? && b.remove.Delete? &&
    b.add.api == b.remove.api && VariantOf(b.add.obj) == b.add.api &&
    b.add.obj.name == b.remove.name
  }

  function Bind(v: Variant, reg: DriverRegistration): (b: Binding)
    ensures Consistent(b)
    ensures b.add.api == v
    ensures b.remove.name == reg.name
    ensures Registration(b.add.obj) == reg
  {
    Binding(Create(v, Payload(v, reg)), Delete(v, reg.name))
  }

  // ---------------------------------------------------------------------------
  // main

  /** What main learns from outside before it reaches the registrar loop. */
  datatype Environment = Environment(
    showVersion: bool,                                           // --version
    podInfoOnMount: bool,                                        // --pod-info-mount
    connected: bool,                                             // connection.Connect succeeded
    driverName: Option<string>,                                  // GetDriverName, None on error
    capabilities: Option<map<ControllerCapability, bool>>,       // GetControllerCapabilities, None on error
    configBuilt: bool,                                           // buildConfig succeeded
    clientBuilt: bool,                                           // kubernetes.NewForConfig succeeded
    resources: Option<seq<APIResourceList>>,                     // ServerResources, None on error
    alphaClientBuilt: bool                                       // the CSI CRD client's NewForConfig succeeded
  )

  /** How main ends: printing the version, exiting with a status, or handing over to
      kubernetesRegister with the driver name and the bound add/remove pair. */
  datatype Outcome =
    | VersionShown
    | Exited(code: int)
    | StartRegistrar(name: string, binding: Binding)

  /** Every step before the API choice succeeded. */
  predicate Prepared(env: Environment)
  {
    !env.showVersion && env.connected && env.driverName.Some? && env.capabilities.Some? &&
    env.configBuilt && env.clientBuilt && env.resources.Some?
  }

  /** The registration main derives from the driver's answers and the flag. */
  function Probed(env: Environment): DriverRegistration
    requires env.driverName.Some?
  {
    DriverRegistration(env.driverName.value, IsAttachRequired(env.capabilities).0, env.podInfoOnMount)
  }

  method Start(env: Environment) returns (outcome: Outcome)
    ensures outcome == VersionShown <==> env.showVersion
    ensures outcome.Exited? ==> outcome.code == 1
    ensures outcome.StartRegistrar? <==>
      Prepared(env) && SelectVariant(env.resources.value).Some? &&
      (SelectVariant(env.resources.value) == Some(Alpha) ==> env.alphaClientBuilt)
    ensures outcome.StartRegistrar? ==>
      outcome.name == env.driverName.value &&
      outcome.binding == Bind(SelectVariant(env.resources.value).value, Probed(env))
    ensures !env.showVersion && env.resources.Some? && SelectVariant(env.resources.value).None? ==>
      outcome == Exited(1)
  {
    if env.showVersion {
      return VersionShown;
    }
    if !env.connected {
      return Exited(1);
    }
    if env.driverName.None? {
      return Exited(1);
    }
    var csiDriverName := env.driverName.value;
    var (attachRequired, probeFailed) := IsAttachRequired(env.capabilities);
    if probeFailed {
      return Exited(1);
    }
    if !env.configBuilt || !env.clientBuilt {
      return Exited(1);
    }

    var add: ApiCall;
    var remove: ApiCall;
    if env.resources.None? {
      return Exited(1);
    }
    var resources := env.resources.value;

    var stable := HasResource(resources, StableGroupVersion, CSIDriverKind);
    if stable {
      var csiDriver := StableCSIDriver(csiDriverName, StableSpec(attachRequired, env.podInfoOnMount));
      add := Create(Stable, csiDriver);
      remove := Delete(Stable, csiDriverName);
    } else {
      var alpha := HasResource(resources, AlphaGroupVersion, CSIDriverKind);
      if alpha {
        var csiDriver := AlphaCSIDriver(csiDriverName, AlphaSpec(attachRequired, None));
        if env.podInfoOnMount {
          csiDriver := csiDriver.(alphaSpec := csiDriver.alphaSpec.(podInfoOnMountVersion := Some(PodInfoOnMountV1)));
        }
        if !env.alphaClientBuilt {
          return Exited(1);
        }
        add := Create(Alpha, csiDriver);
        remove := Delete(Alpha, csiDriverName);
      } else {
        return Exited(1);
      }
    }
    return StartRegistrar(csiDriverName, Binding(add, remove));
  }
}
