/**
  The in-memory Asset values the decoders build: the sub-records shared by all
  kinds, the eight Asset variants, and the zero value of each (what a Go
  variable of that type holds before anything is assigned).
 */
module AssetModel {
  import opened Wrappers

  /** An instant produced by the RFC 3339 parser; its structure is not modelled. */
  datatype Time = Time(ticks: int)

  /** Go's zero `time.Time`. */
  const ZeroTime: Time := Time(0)

  /** RFC 3339 timestamp parsing: a partial parser supplied from outside the model. */
  type TimeParser = string -> Option<Time>

  /** Why a decode was aborted (Go panics and returned errors alike). */
  datatype Err =
    | NotAnObject(key: string)
    | NotAString(key: string)
    | BadTimestamp(key: string)
    | InvalidType
    | WrongScalarType(key: string)

  /** AssetProperties: eleven optional strings. */
  datatype Properties = Properties(
    category: string,
    provider: string,
    account: string,
    project: string,
    service: string,
    cluster: string,
    name: string,
    providerID: string,
    region: string,
    pricingSource: string,
    currency: string)

  const ZeroProperties: Properties := Properties("", "", "", "", "", "", "", "", "", "", "")

  datatype PricingModels = PricingModels(preemptible: real, reservedInstance: real, savingsPlan: real)

  const ZeroPricingModels: PricingModels := PricingModels(0.0, 0.0, 0.0)

  /** The four-way usage split. */
  datatype Breakdown = Breakdown(idle: real, other: real, system: real, user: real)

  const ZeroBreakdown: Breakdown := Breakdown(0.0, 0.0, 0.0, 0.0)

  /** A Window holds two pointers to instants; the zero Window has both nil. */
  datatype Window = Window(start: Option<Time>, end: Option<Time>)

  /**
    The fields every kind carries. `properties` and `pricingModels` are Go
    pointers (nil is None); `cost` is the base cost `Cost`.
   */
  datatype Base = Base(
    properties: Option<Properties>,
    labels: map<string, string>,
    pricingModels: Option<PricingModels>,
    window: Window,
    start: Time,
    end: Time,
    adjustment: real,
    credit: real,
    discount: real,
    cost: real)

  const ZeroBase: Base := Base(None, map[], None, Window(None, None), ZeroTime, ZeroTime, 0.0, 0.0, 0.0, 0.0)

  datatype Asset =
    | Any(base: Base)
    | Cloud(base: Base, usageType: string, usageDetail: string)
    | ClusterManagement(base: Base)
    | Disk(base: Base, byteHours: real, storageClass: string, breakdown: Option<Breakdown>)
    | Network(base: Base)
    | Node(
        base: Base,
        nodeType: string,
        cpuCoreHours: real,
        ramByteHours: real,
        gpuHours: real,
        cpuBreakdown: Option<Breakdown>,
        ramBreakdown: Option<Breakdown>,
        cpuCost: real,
        gpuCost: real,
        gpuCount: real,
        ramCost: real)
    | LoadBalancer(base: Base)
    | SharedAsset(base: Base)

  datatype Kind =
    | AnyKind
    | CloudKind
    | ClusterManagementKind
    | DiskKind
    | NetworkKind
    | NodeKind
    | LoadBalancerKind
    | SharedKind

  function KindOf(a: Asset): Kind {
    match a
    case Any(_) => AnyKind
    case Cloud(_, _, _) => CloudKind
    case ClusterManagement(_) => ClusterManagementKind
    case Disk(_, _, _, _) => DiskKind
    case Network(_) => NetworkKind
    case Node(_, _, _, _, _, _, _, _, _, _, _) => NodeKind
    case LoadBalancer(_) => LoadBalancerKind
    case SharedAsset(_) => SharedKind
  }

  /** The zero value of kind `k`, the receiver each decoder is given by the dispatcher. */
  function ZeroAsset(k: Kind): (a: Asset)
    ensures KindOf(a) == k
    ensures a.base == ZeroBase
  {
    match k
    case AnyKind => Any(ZeroBase)
    case CloudKind => Cloud(ZeroBase, "", "")
    case ClusterManagementKind => ClusterManagement(ZeroBase)
    case DiskKind => Disk(ZeroBase, 0.0, "", None)
    case NetworkKind => Network(ZeroBase)
    case NodeKind => Node(ZeroBase, "", 0.0, 0.0, 0.0, None, None, 0.0, 0.0, 0.0, 0.0)
    case LoadBalancerKind => LoadBalancer(ZeroBase)
    case SharedKind => SharedAsset(ZeroBase)
  }
}
