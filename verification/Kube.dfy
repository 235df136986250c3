/** The Kubernetes and OVS values that pass between the driver's components. */
module Kube {

  datatype Option<+T> = None | Some(value: T)

  const DRIVER_NAME: string := "ovsdpdk.k8snetworkplumbingwg.io"
  const API_VERSION: string := "ovsdpdk.k8snetworkplumbingwg.io/v1alpha1"
  const KIND_OVS_PORT_CONFIG: string := "OvsPortConfig"
  const MIN_MTU := 68
  const MAX_MTU := 65535

  /** A UID without its dashes. */
  function HexDigits(uid: string): (digits: string)
    ensures |digits| <= |uid|
  {
    if uid == "" then ""
    else if uid[0] == '-' then HexDigits(uid[1..])
    else [uid[0]] + HexDigits(uid[1..])
  }

  /** Port names take the first eight digits of a claim UID, so a UID has at least eight. */
  type Uid = uid: string | |HexDigits(uid)| >= 8 witness "00000000"

  /** Text without '/', so that it stays within one element of a path. */
  type PathElement = s: string | '/' !in s

  /** An element that cleaning a path leaves alone.  Kubernetes names are of this kind, except for the request of a
      subrequest, which is two of them joined by '/'. */
  type PathName = s: PathElement | s != "" && s != "." && s != ".." witness "a"

  /** A pod claim name as annotated; "" when there is no annotation. */
  type Annotation = s: PathElement | s != "." && s != ".."

  // --- allocation side of a ResourceClaim ---

  datatype Policing = Policing(maxRate: Option<nat>, burst: Option<nat>)

  datatype PortConfig = PortConfig(kind: string, apiVersion: string, vlan: Option<int>, policing: Option<Policing>)

  datatype ConfigSource = ClassSource | ClaimSource | OtherSource(name: string)

  /** One allocation config entry.  `parameters` is None when the raw parameters do not decode. */
  datatype ConfigEntry = ConfigEntry(
    targetDriver: Option<string>,
    source: ConfigSource,
    requests: seq<string>,
    parameters: Option<PortConfig>)

  datatype AllocationResult = AllocationResult(
    request: PathName,
    driver: string,
    pool: string,
    device: string,
    shareId: Option<string>)

  datatype Allocation = Allocation(results: seq<AllocationResult>, configs: seq<ConfigEntry>)

  datatype Consumer = Consumer(uid: PathElement, name: string)

  // --- status side of a ResourceClaim ---

  /** The debug data of a status entry.  Encoding is taken to be injective. */
  datatype StatusData =
    | PortData(hostDir: string, containerDir: string, hostSocket: string, containerSocket: string,
               bridge: string, cdiIds: seq<string>, config: PortConfig)
    | ForeignData(raw: string)

  datatype DeviceStatus = DeviceStatus(
    driver: string,
    pool: string,
    device: string,
    shareId: Option<string>,
    data: StatusData)

  datatype Claim = Claim(
    uid: Uid,
    name: PathName,
    namespace: string,
    podClaimAnnotation: Annotation,
    allocation: Option<Allocation>,
    reservedFor: seq<Consumer>,
    devices: seq<DeviceStatus>)

  // --- policy side ---

  datatype BridgeSpec = BridgeSpec(name: string, topologyResource: string, mtu: int)

  const BRIDGE_CAPACITY := 32 * 1024

  /** A bridge as advertised: the device with its attributes and capacity, beside the spec it came from. */
  datatype AllocatableDevice = AllocatableDevice(
    name: string, bridgeAttribute: string, mtuAttribute: int, ports: nat, allowMultiple: bool, spec: BridgeSpec)
}
